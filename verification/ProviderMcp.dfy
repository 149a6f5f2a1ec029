/**
  The event loop of the provider MCP server: one select over input lines, the end of the
  input, the completion of the one outstanding call and cancellation.

  Decoding a line and normalizing a call's arguments are functions of the line, so a line is
  given here as what it decodes to.
 */
module ProviderMcp {
  import opened Options
  import opened JsonText

  // ---------------------------------------------------------------- request ids

  /** A decoded JSON id; `JInteger` is a number without a fraction. */
  datatype JsonId = JString(s: string) | JInteger(n: int) | JFraction | JOther

  const MAX_SAFE_INTEGER := 9007199254740991

  /** `mcpRequestID`: the identity of a string or exactly representable integer, or nothing. */
  function RequestId(id: JsonId): string
  {
    match id
    case JString(s) => "s:" + s
    case JInteger(n) => if -MAX_SAFE_INTEGER <= n <= MAX_SAFE_INTEGER then "n:" + Decimal(n) else ""
    case _ => ""
  }

  /** Two usable ids have the same identity only if they are the same id. */
  lemma RequestIdInjective(a: JsonId, b: JsonId)
    requires RequestId(a) == RequestId(b) != ""
    ensures a == b
  {
    var x := RequestId(a);
    assert a.JString? ==> x[0] == 's';
    assert b.JInteger? ==> RequestId(b)[0] == 'n';
    assert a.JInteger? ==> x[0] == 'n';
    if a.JString? && b.JString? {
      assert x[2..] == a.s && x[2..] == b.s;
    } else if a.JInteger? && b.JInteger? {
      assert x[2..] == Decimal(a.n) && x[2..] == Decimal(b.n);
      DecimalInjective(a.n, b.n);
    }
  }

  // ---------------------------------------------------------------- the loop

  datatype Body = Initialize | Ping | ToolsList | ToolsCall(acceptable: bool) | OtherMethod

  /** What a line decodes to. */
  datatype Message =
    | Malformed
    | InitializedNote
    | CancelNote(identity: string)
    | OtherNote
    | Request(identity: string, body: Body)

  datatype Answer = Result | CallResult | Error(code: int)

  datatype Reply = Reply(line: nat, answer: Answer)

  datatype Call = Call(line: nat, identity: string, cancelled: bool)

  /** `Leaving`: the loop has returned and waits for the outstanding call; `Returned`: nothing is outstanding. */
  datatype Phase = Serving | Leaving | Returned

  /**
    `running` are the lines whose execute has not finished, `channel` the completions sent
    and not received.  `consumed`, `asked` and `started` are the history: lines read, those
    of them that ask for a reply, and those whose execute was started.
   */
  datatype Server = Server(
    phase: Phase, active: Option<Call>, initialized: bool, ready: bool, inputClosed: bool,
    running: seq<nat>, channel: seq<nat>, replies: seq<Reply>, consumed: nat, asked: set<nat>, started: seq<nat>)

  const START := Server(Serving, None, false, false, false, [], [], [], 0, {}, [])

  /** The completion channel holds one. */
  const CAPACITY := 1

  /** What happens to the loop; `written` says whether a reply's write succeeds. */
  datatype Happening =
    | Arrives(message: Message, written: bool)
    | InputEnds(failed: bool)
    | Finishes(line: nat)
    | Completes(written: bool)
    | ContextEnds
    | Drains

  /** The loop returns; it still waits for an outstanding call. */
  function Leave(s: Server): Server
  {
    s.(phase := if s.active.None? then Returned else Leaving)
  }

  /** The check at the head of the loop. */
  function Settle(s: Server): Server
  {
    if s.phase.Serving? && s.inputClosed && s.active.None? then Leave(s) else s
  }

  function Write(s: Server, line: nat, a: Answer, written: bool): Server
  {
    if written then s.(replies := s.replies + [Reply(line, a)]) else Leave(s)
  }

  function Cancel(s: Server): Server
  {
    if s.active.Some? then s.(active := Some(s.active.value.(cancelled := true))) else s
  }

  /** A request with a usable id. */
  function Serve(s: Server, line: nat, identity: string, body: Body, written: bool): Server
  {
    match body
    case Initialize =>
      if s.initialized then Write(s, line, Error(-32600), written)
        else Write(s.(initialized := true), line, Result, written)
    case Ping => Write(s, line, Result, written)
    case ToolsList => Write(s, line, if s.ready then Result else Error(-32600), written)
    case ToolsCall(acceptable) =>
      if !s.ready then Write(s, line, Error(-32600), written)
      else if s.active.Some? then Write(s, line, Error(-32000), written)
      else if !acceptable then Write(s, line, Error(-32602), written)
      else
        s.(active := Some(Call(line, identity, false)), running := s.running + [line], started := s.started + [line])
    case OtherMethod => Write(s, line, Error(-32601), written)
  }

  function Arrive(s: Server, m: Message, written: bool): Server
  {
    var line := s.consumed;
    var s' := s.(consumed := line + 1, asked := if m.Malformed? || m.Request? then s.asked + {line} else s.asked);
    match m
    case Malformed => Write(s', line, Error(-32600), written)
    case InitializedNote => if s'.initialized then s'.(ready := true) else s'
    case CancelNote(identity) =>
      if s'.active.Some? && identity != "" && identity == s'.active.value.identity then Cancel(s') else s'
    case OtherNote => s'
    case Request(identity, body) =>
      if identity == "" then Write(s', line, Error(-32600), written) else Serve(s', line, identity, body, written)
  }

  /** The server after a happening, if it is possible; a send on a full channel is not. */
  function Step(s: Server, h: Happening): Option<Server>
  {
    match h
    case Arrives(m, written) =>
      if !s.phase.Serving? || s.inputClosed then None else Some(Settle(Arrive(s, m, written)))
    case InputEnds(failed) =>
      if !s.phase.Serving? || s.inputClosed then None
      else
        var s' := Cancel(s.(inputClosed := true));
        Some(if failed then Leave(s') else Settle(s'))
    case Finishes(line) =>
      if line !in s.running || |s.channel| >= CAPACITY then None
      else Some(s.(running := Without(s.running, line), channel := s.channel + [line]))
    case Completes(written) =>
      if !s.phase.Serving? || s.channel == [] then None
      else
        var s' := s.(channel := s.channel[1..], active := None);
        Some(Settle(if s.inputClosed then s' else Write(s', s.channel[0], CallResult, written)))
    case ContextEnds => if !s.phase.Serving? then None else Some(Leave(Cancel(s)))
    case Drains =>
      if !s.phase.Leaving? || s.channel == [] then None
      else Some(s.(channel := s.channel[1..], active := None, phase := Returned))
  }

  function Without(lines: seq<nat>, line: nat): seq<nat>
  {
    if lines == [] then []
    else if lines[0] == line then lines[1..]
    else [lines[0]] + Without(lines[1..], line)
  }

  // ---------------------------------------------------------------- accounting

  predicate Replied(s: Server, line: nat)
  {
    exists k :: 0 <= k < |s.replies| && s.replies[k].line == line
  }

  /**
    At most one call is outstanding, and it is either running or sent; no line is answered
    twice, nor before its call is done; while the input is open and the loop serves, every
    line that asks for a reply has one or is the outstanding call.
   */
  ghost predicate Accounted(s: Server)
  {
    && |s.running| + |s.channel| == (if s.active.Some? then 1 else 0)
    && (s.active.Some? ==> s.running + s.channel == [s.active.value.line] && s.ready && s.active.value.line in s.asked)
    && (s.ready ==> s.initialized)
    && (s.phase.Returned? ==> s.active.None?)
    && (forall line :: line in s.asked ==> line < s.consumed)
    && (forall i, j :: 0 <= i < j < |s.replies| ==> s.replies[i].line != s.replies[j].line)
    && (forall k :: 0 <= k < |s.replies| ==> s.replies[k].line in s.asked)
    && (s.active.Some? ==> !Replied(s, s.active.value.line))
    && (s.phase.Serving? && !s.inputClosed ==>
          forall line :: line in s.asked ==> Replied(s, line) || (s.active.Some? && s.active.value.line == line))
  }

  lemma StartAccounted()
    ensures Accounted(START)
  {
  }

  /** Writing the one reply of a line that has none. */
  lemma WriteAccounted(s: Server, line: nat, a: Answer, written: bool)
    requires Accounted(s.(asked := s.asked - {line})) && line in s.asked && line < s.consumed && !Replied(s, line)
    requires s.active.Some? ==> s.active.value.line != line
    ensures Accounted(Write(s, line, a, written))
  {
    var t, s' := s.(asked := s.asked - {line}), Write(s, line, a, written);
    assert forall l :: l in s.asked ==> l == line || l in t.asked;
    assert forall l :: Replied(t, l) <==> Replied(s, l);
    if written {
      RepliedNow(s, line, a);
    }
  }

  lemma RepliedNow(s: Server, line: nat, a: Answer)
    ensures var s' := s.(replies := s.replies + [Reply(line, a)]);
            forall l :: Replied(s', l) <==> Replied(s, l) || l == line
  {
    var s' := s.(replies := s.replies + [Reply(line, a)]);
    assert s'.replies[|s.replies|].line == line;
    assert forall k :: 0 <= k < |s.replies| ==> s'.replies[k] == s.replies[k];
  }

  lemma NoReplyYet(s: Server)
    requires Accounted(s)
    ensures !Replied(s, s.consumed)
  {
  }

  lemma ServeAccounted(s: Server, line: nat, identity: string, body: Body, written: bool)
    requires Accounted(s.(asked := s.asked - {line})) && line in s.asked && line < s.consumed && !Replied(s, line)
    requires s.active.Some? ==> s.active.value.line != line
    requires s.phase.Serving?
    ensures Accounted(Serve(s, line, identity, body, written))
  {
    hide Write, Accounted;
    match body
    case Initialize =>
      InitializedAccounted(s, line);
      WriteAccounted(s.(initialized := true), line, Result, written);
      WriteAccounted(s, line, Error(-32600), written);
    case Ping => WriteAccounted(s, line, Result, written);
    case ToolsList => WriteAccounted(s, line, if s.ready then Result else Error(-32600), written);
    case ToolsCall(acceptable) =>
      WriteAccounted(s, line, Error(-32600), written);
      WriteAccounted(s, line, Error(-32000), written);
      WriteAccounted(s, line, Error(-32602), written);
      if s.ready && s.active.None? && acceptable {
        CallAccounted(s, line, identity);
      }
    case OtherMethod => WriteAccounted(s, line, Error(-32601), written);
  }

  lemma InitializedAccounted(s: Server, line: nat)
    requires Accounted(s.(asked := s.asked - {line}))
    ensures Accounted(s.(initialized := true).(asked := s.asked - {line}))
  {
    var t := s.(asked := s.asked - {line});
    assert forall l :: Replied(t, l) <==> Replied(t.(initialized := true), l);
  }

  lemma CallAccounted(s: Server, line: nat, identity: string)
    requires Accounted(s.(asked := s.asked - {line})) && line in s.asked && line < s.consumed && !Replied(s, line)
    requires s.ready && s.active.None? && s.phase.Serving?
    ensures Accounted(s.(active := Some(Call(line, identity, false)), running := s.running + [line],
                         started := s.started + [line]))
  {
    var t := s.(asked := s.asked - {line});
    var s' := s.(active := Some(Call(line, identity, false)), running := s.running + [line],
                 started := s.started + [line]);
    assert forall l :: Replied(t, l) <==> Replied(s, l);
    assert forall l :: Replied(s', l) <==> Replied(s, l);
    assert forall l :: l in s.asked ==> l == line || l in t.asked;
    assert s.running == [] && s.channel == [];
  }

  lemma SettleAccounted(s: Server)
    requires Accounted(s)
    ensures Accounted(Settle(s)) && Accounted(Leave(s)) && Accounted(Cancel(s))
  {
    assert forall l :: Replied(Leave(s), l) <==> Replied(s, l);
    assert forall l :: Replied(Cancel(s), l) <==> Replied(s, l);
  }

  /** A line that asks for nothing, or only changes whether the server is ready. */
  lemma NoteAccounted(s: Server, ready: bool)
    requires Accounted(s) && (ready ==> s.initialized || s.ready) && (s.ready ==> ready)
    ensures Accounted(s.(consumed := s.consumed + 1, ready := ready))
  {
    var t := s.(consumed := s.consumed + 1, ready := ready);
    assert forall l :: Replied(t, l) <==> Replied(s, l);
  }

  lemma AskAccounted(s: Server)
    requires Accounted(s)
    ensures var t := s.(consumed := s.consumed + 1, asked := s.asked + {s.consumed});
            && Accounted(t.(asked := t.asked - {s.consumed})) && !Replied(t, s.consumed)
            && (t.active.Some? ==> t.active.value.line != s.consumed)
  {
    var t := s.(consumed := s.consumed + 1, asked := s.asked + {s.consumed});
    assert t.asked - {s.consumed} == s.asked;
    assert forall l :: Replied(t, l) <==> Replied(s, l);
    assert forall l :: Replied(s.(consumed := s.consumed + 1), l) <==> Replied(s, l);
  }

  lemma ArriveAccounted(s: Server, m: Message, written: bool)
    requires Accounted(s) && s.phase.Serving?
    ensures Accounted(Arrive(s, m, written))
  {
    hide Accounted, Write, Serve, Replied, Cancel;
    match m
    case Malformed => AskedAccounted(s, "", Ping, written);
    case InitializedNote => ReadyAccounted(s);
    case CancelNote(_) =>
      NoteAccounted(s, s.ready);
      SettleAccounted(s.(consumed := s.consumed + 1));
    case OtherNote => NoteAccounted(s, s.ready);
    case Request(identity, body) => AskedAccounted(s, identity, body, written);
  }

  lemma ReadyAccounted(s: Server)
    requires Accounted(s)
    ensures var t := s.(consumed := s.consumed + 1); Accounted(if t.initialized then t.(ready := true) else t)
  {
    NoteAccounted(s, s.ready);
    if s.initialized {
      NoteAccounted(s, true);
    }
  }

  lemma AskedAccounted(s: Server, identity: string, body: Body, written: bool)
    requires Accounted(s) && s.phase.Serving?
    ensures var t, line := s.(consumed := s.consumed + 1, asked := s.asked + {s.consumed}), s.consumed;
            Accounted(Write(t, line, Error(-32600), written)) && Accounted(Serve(t, line, identity, body, written))
  {
    var t, line := s.(consumed := s.consumed + 1, asked := s.asked + {s.consumed}), s.consumed;
    AskAccounted(s);
    hide Accounted, Write, Serve, Replied;
    WriteAccounted(t, line, Error(-32600), written);
    ServeAccounted(t, line, identity, body, written);
  }

  /** The sent completion is of the outstanding call; receiving it ends the call. */
  lemma ReceiveAccounted(s: Server)
    requires Accounted(s) && s.channel != []
    ensures s.active.Some? && s.active.value.line == s.channel[0] && s.running == [] && s.channel[1..] == []
    ensures var t := s.(channel := s.channel[1..], active := None);
            && Accounted(t.(asked := t.asked - {s.channel[0]})) && !Replied(t, s.channel[0])
            && s.channel[0] in t.asked && s.channel[0] < t.consumed
  {
    var t := s.(channel := s.channel[1..], active := None);
    assert s.running + s.channel == [s.active.value.line] && |s.running| == 0 && |s.channel| == 1;
    assert (s.running + s.channel)[0] == s.channel[0];
    assert Replied(s, s.channel[0]) <==> exists k :: 0 <= k < |s.replies| && s.replies[k].line == s.channel[0];
    assert forall l :: Replied(t, l) <==> Replied(s, l);
    assert forall l :: Replied(t.(asked := t.asked - {s.channel[0]}), l) <==> Replied(s, l);
    assert forall k :: 0 <= k < |s.replies| ==> s.replies[k].line != s.channel[0];
  }

  /** Received with the input closed or while leaving: the call ends without a reply. */
  lemma DropAccounted(s: Server)
    requires Accounted(s) && s.channel != [] && (s.inputClosed || !s.phase.Serving?)
    ensures Accounted(s.(channel := s.channel[1..], active := None))
    ensures Accounted(s.(channel := s.channel[1..], active := None, phase := Returned))
  {
    ReceiveAccounted(s);
    var t := s.(channel := s.channel[1..], active := None);
    assert forall l :: Replied(t, l) <==> Replied(s, l);
    assert forall l :: Replied(t.(phase := Returned), l) <==> Replied(s, l);
  }

  /** The send of a completion never finds the channel full. */
  lemma SendNeverBlocks(s: Server, line: nat)
    requires Accounted(s) && line in s.running
    ensures Step(s, Finishes(line)).Some? && s.running == [line] && s.channel == []
  {
    assert |s.running| == 1;
  }

  lemma FinishAccounted(s: Server, line: nat)
    requires Accounted(s) && line in s.running
    ensures Accounted(Step(s, Finishes(line)).value)
  {
    SendNeverBlocks(s, line);
    var t := Step(s, Finishes(line)).value;
    assert forall l :: Replied(t, l) <==> Replied(s, l);
  }

  lemma StepAccounted(s: Server, h: Happening)
    requires Accounted(s) && Step(s, h).Some?
    ensures Accounted(Step(s, h).value)
  {
    hide Accounted, Arrive, Write, Replied;
    match h
    case Arrives(m, written) =>
      ArriveAccounted(s, m, written);
      SettleAccounted(Arrive(s, m, written));
    case InputEnds(_) =>
      CloseAccounted(s);
      SettleAccounted(s.(inputClosed := true));
      SettleAccounted(Cancel(s.(inputClosed := true)));
    case Finishes(line) => FinishAccounted(s, line);
    case Completes(written) =>
      var t := s.(channel := s.channel[1..], active := None);
      ReceiveAccounted(s);
      if s.inputClosed {
        DropAccounted(s);
        SettleAccounted(t);
      } else {
        WriteAccounted(t, s.channel[0], CallResult, written);
        SettleAccounted(Write(t, s.channel[0], CallResult, written));
      }
    case ContextEnds =>
      SettleAccounted(s);
      SettleAccounted(Cancel(s));
    case Drains => DropAccounted(s);
  }

  lemma CloseAccounted(s: Server)
    requires Accounted(s)
    ensures Accounted(s.(inputClosed := true))
  {
    assert forall l :: Replied(s.(inputClosed := true), l) <==> Replied(s, l);
  }

  // ---------------------------------------------------------------- runs

  /** The server after a run of happenings, if each was possible. */
  function Run(hs: seq<Happening>): Option<Server>
    decreases |hs|
  {
    if hs == [] then Some(START)
    else
      var s := Run(hs[..|hs| - 1]);
      if s.None? then None else Step(s.value, hs[|hs| - 1])
  }

  /** In every interleaving: one call at most, one reply at most, and what the phases promise. */
  lemma {:induction false} RunAccounted(hs: seq<Happening>)
    requires Run(hs).Some?
    ensures Accounted(Run(hs).value)
    decreases |hs|
  {
    hide Accounted, Step;
    if hs == [] {
      StartAccounted();
    } else {
      RunAccounted(hs[..|hs| - 1]);
      StepAccounted(Run(hs[..|hs| - 1]).value, hs[|hs| - 1]);
    }
  }

  /** The server has returned only once no execute is running and no completion is unreceived. */
  lemma ReturnedMeansFinished(hs: seq<Happening>)
    requires Run(hs).Some? && Run(hs).value.phase.Returned?
    ensures Run(hs).value.running == [] && Run(hs).value.channel == []
  {
    hide Run, Replied;
    RunAccounted(hs);
  }

  /** While it serves with the input open, every request but the outstanding call has exactly one reply. */
  lemma ExactlyOneReply(hs: seq<Happening>, line: nat)
    requires Run(hs).Some?
    requires var s := Run(hs).value;
             && s.phase.Serving? && !s.inputClosed && line in s.asked
             && (s.active.Some? ==> s.active.value.line != line)
    ensures var s := Run(hs).value;
            exists k :: 0 <= k < |s.replies| && s.replies[k].line == line
              && forall j :: 0 <= j < |s.replies| && s.replies[j].line == line ==> j == k
  {
    hide Run;
    RunAccounted(hs);
    var s := Run(hs).value;
    assert Replied(s, line);
    var k :| 0 <= k < |s.replies| && s.replies[k].line == line;
    forall j | 0 <= j < |s.replies| && s.replies[j].line == line ensures j == k {
    }
  }

  predicate Initializes(h: Happening)
  {
    h.Arrives? && h.message.Request? && h.message.identity != "" && h.message.body.Initialize?
  }

  predicate MakesReady(h: Happening)
  {
    h.Arrives? && h.message.InitializedNote?
  }

  /** The initialize request was there, and after it the initialized notification. */
  ghost predicate HandshakeIn(hs: seq<Happening>)
  {
    exists i, j :: 0 <= i < j < |hs| && Initializes(hs[i]) && MakesReady(hs[j])
  }

  ghost predicate InitializeIn(hs: seq<Happening>)
  {
    exists i :: 0 <= i < |hs| && Initializes(hs[i])
  }

  lemma ArriveHandshake(s: Server, m: Message, written: bool)
    ensures var t := Arrive(s, m, written);
            && (t.initialized ==> s.initialized || Initializes(Arrives(m, written)))
            && (t.ready ==> s.ready || (s.initialized && m.InitializedNote?))
            && (t.started != s.started ==> s.ready)
  {
  }

  lemma StepHandshake(s: Server, h: Happening)
    requires Step(s, h).Some?
    ensures var t := Step(s, h).value;
            && (t.initialized ==> s.initialized || Initializes(h))
            && (t.ready ==> s.ready || (s.initialized && MakesReady(h)))
            && (t.started != s.started ==> s.ready)
  {
    hide Without, Arrive;
    match h
    case Arrives(m, written) => ArriveHandshake(s, m, written);
    case InputEnds(_) =>
    case Finishes(_) =>
    case Completes(_) =>
    case ContextEnds =>
    case Drains =>
  }

  /** Ready, and so every start of an execute, comes after initialize and then notifications/initialized. */
  lemma {:induction false} ReadyAfterHandshake(hs: seq<Happening>)
    requires Run(hs).Some?
    ensures Run(hs).value.initialized ==> InitializeIn(hs)
    ensures Run(hs).value.ready ==> HandshakeIn(hs)
    ensures Run(hs).value.started != [] ==> HandshakeIn(hs)
    decreases |hs|
  {
    hide Step, HandshakeIn, InitializeIn, Initializes, MakesReady;
    if hs != [] {
      var init, h := hs[..|hs| - 1], hs[|hs| - 1];
      ReadyAfterHandshake(init);
      StepHandshake(Run(init).value, h);
      assert init + [h] == hs;
      HandshakeExtends(init, h);
    }
  }

  lemma HandshakeExtends(hs: seq<Happening>, h: Happening)
    ensures InitializeIn(hs) ==> InitializeIn(hs + [h])
    ensures Initializes(h) ==> InitializeIn(hs + [h])
    ensures HandshakeIn(hs) ==> HandshakeIn(hs + [h])
    ensures InitializeIn(hs) && MakesReady(h) ==> HandshakeIn(hs + [h])
  {
    var all := hs + [h];
    assert all[|hs|] == h && forall k :: 0 <= k < |hs| ==> all[k] == hs[k];
    if InitializeIn(hs) {
      var i :| 0 <= i < |hs| && Initializes(hs[i]);
      assert Initializes(all[i]);
    }
    if HandshakeIn(hs) {
      var i, j :| 0 <= i < j < |hs| && Initializes(hs[i]) && MakesReady(hs[j]);
      assert Initializes(all[i]) && MakesReady(all[j]);
    }
  }

  // ---------------------------------------------------------------- the object

  /** The loop's variables; every handler is one branch of the select. */
  class McpServer {
    var phase: Phase
    var active: Option<Call>
    var initialized: bool
    var ready: bool
    var inputClosed: bool
    var running: seq<nat>
    var channel: seq<nat>
    var replies: seq<Reply>
    var consumed: nat
    ghost var asked: set<nat>
    ghost var started: seq<nat>
    ghost var history: seq<Happening>

    ghost function State(): Server
      reads this
    {
      Server(phase, active, initialized, ready, inputClosed, running, channel, replies, consumed, asked, started)
    }

    ghost predicate Valid()
      reads this
    {
      Run(history) == Some(State())
    }

    constructor ()
      ensures Valid() && State() == START && history == []
    {
      phase, active, initialized, ready, inputClosed := Serving, None, false, false, false;
      running, channel, replies, consumed, asked, started := [], [], [], 0, {}, [];
      history := [];
    }

    /** The run so far, and what has just happened. */
    ghost method Record(h: Happening, before: Server)
      requires Run(history) == Some(before) && Step(before, h) == Some(State())
      modifies this`history
      ensures history == old(history) + [h] && Valid()
    {
      hide Step;
      assert (history + [h])[..|history|] == history;
      history := history + [h];
    }

    method ReturnFromLoop()
      modifies this`phase
      ensures State() == Leave(old(State()))
    {
      phase := if active.None? then Returned else Leaving;
    }

    method CheckFinished()
      modifies this`phase
      ensures State() == Settle(old(State()))
    {
      if phase.Serving? && inputClosed && active.None? {
        ReturnFromLoop();
      }
    }

    method SendReply(line: nat, a: Answer, written: bool)
      modifies this`phase, this`replies
      ensures State() == Write(old(State()), line, a, written)
    {
      if written {
        replies := replies + [Reply(line, a)];
      } else {
        ReturnFromLoop();
      }
    }

    method CancelActive()
      modifies this`active
      ensures State() == Cancel(old(State()))
    {
      if active.Some? {
        active := Some(active.value.(cancelled := true));
      }
    }

    method OnRequest(line: nat, identity: string, body: Body, written: bool)
      modifies this
      ensures State() == Serve(old(State()), line, identity, body, written) && history == old(history)
    {
      match body {
        case Initialize =>
          if initialized {
            SendReply(line, Error(-32600), written);
          } else {
            initialized := true;
            SendReply(line, Result, written);
          }
        case Ping =>
          SendReply(line, Result, written);
        case ToolsList =>
          SendReply(line, if ready then Result else Error(-32600), written);
        case ToolsCall(acceptable) =>
          if !ready {
            SendReply(line, Error(-32600), written);
          } else if active.Some? {
            SendReply(line, Error(-32000), written);
          } else if !acceptable {
            SendReply(line, Error(-32602), written);
          } else {
            active := Some(Call(line, identity, false));
            running := running + [line];
            started := started + [line];
          }
        case OtherMethod =>
          SendReply(line, Error(-32601), written);
      }
    }

    method HandleLine(m: Message, written: bool)
      modifies this
      ensures State() == Arrive(old(State()), m, written) && history == old(history)
    {
      hide Serve, Write, Cancel;
      var line := consumed;
      consumed := consumed + 1;
      if m.Malformed? || m.Request? {
        asked := asked + {line};
      }
      match m {
        case Malformed =>
          SendReply(line, Error(-32600), written);
        case InitializedNote =>
          if initialized {
            ready := true;
          }
        case CancelNote(identity) =>
          if active.Some? && identity != "" && identity == active.value.identity {
            CancelActive();
          }
        case OtherNote =>
        case Request(identity, body) =>
          if identity == "" {
            SendReply(line, Error(-32600), written);
          } else {
            OnRequest(line, identity, body, written);
          }
      }
    }

    /** One input line. */
    method OnLine(m: Message, written: bool)
      requires Valid() && phase.Serving? && !inputClosed
      modifies this
      ensures Valid() && Some(State()) == Step(old(State()), Arrives(m, written))
      ensures history == old(history) + [Arrives(m, written)]
    {
      hide Run, Arrive, Settle;
      ghost var before := State();
      HandleLine(m, written);
      CheckFinished();
      Record(Arrives(m, written), before);
    }

    /** The reader is done, with or without an error. */
    method OnInputEnd(failed: bool)
      requires Valid() && phase.Serving? && !inputClosed
      modifies this
      ensures Valid() && Some(State()) == Step(old(State()), InputEnds(failed))
      ensures history == old(history) + [InputEnds(failed)]
    {
      hide Run, Accounted;
      ghost var before := State();
      RunAccounted(history);
      inputClosed := true;
      CancelActive();
      if failed {
        ReturnFromLoop();
      } else {
        CheckFinished();
      }
      Record(InputEnds(failed), before);
    }

    /** The goroutine of a call sends its completion: there is always room. */
    method OnExecuteDone(line: nat)
      requires Valid() && line in running
      modifies this
      ensures Valid() && Some(State()) == Step(old(State()), Finishes(line))
      ensures history == old(history) + [Finishes(line)]
    {
      hide Run, Accounted;
      ghost var before := State();
      RunAccounted(history);
      SendNeverBlocks(State(), line);
      running := Without(running, line);
      channel := channel + [line];
      Record(Finishes(line), before);
    }

    /** The loop receives a completion. */
    method OnCompletion(written: bool)
      requires Valid() && phase.Serving? && channel != []
      modifies this
      ensures Valid() && Some(State()) == Step(old(State()), Completes(written))
      ensures history == old(history) + [Completes(written)]
    {
      hide Run, Accounted;
      ghost var before := State();
      RunAccounted(history);
      var line := channel[0];
      channel := channel[1..];
      active := None;
      if !inputClosed {
        SendReply(line, CallResult, written);
      }
      CheckFinished();
      Record(Completes(written), before);
    }

    method OnContextDone()
      requires Valid() && phase.Serving?
      modifies this
      ensures Valid() && Some(State()) == Step(old(State()), ContextEnds)
      ensures history == old(history) + [ContextEnds]
    {
      hide Run, Accounted;
      ghost var before := State();
      RunAccounted(history);
      CancelActive();
      ReturnFromLoop();
      Record(ContextEnds, before);
    }

    /** The deferred wait for the outstanding call. */
    method FinishActive()
      requires Valid() && phase.Leaving? && channel != []
      modifies this
      ensures Valid() && Some(State()) == Step(old(State()), Drains) && phase.Returned? && running == []
      ensures history == old(history) + [Drains]
    {
      hide Run, Accounted;
      ghost var before := State();
      RunAccounted(history);
      channel := channel[1..];
      active := None;
      phase := Returned;
      Record(Drains, before);
      ReturnedMeansFinished(history);
    }
  }
}
