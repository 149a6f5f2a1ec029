/**
  What the MCP server has done after a run, told from the run alone: which lines started an
  execute, which answer each line got, what cancelled a call and what ended the loop.
 */
module McpTrace {
  import opened Options
  import opened ProviderMcp

  type Trace = seq<Happening>

  // ---------------------------------------------------------------- what a run says

  /** How many lines have arrived. */
  function Lines(hs: Trace): nat
    decreases |hs|
  {
    if hs == [] then 0 else Lines(hs[..|hs| - 1]) + if hs[|hs| - 1].Arrives? then 1 else 0
  }

  /** A tools/call with a usable id and acceptable arguments. */
  predicate AsksCall(h: Happening)
  {
    h.Arrives? && h.message.Request? && h.message.identity != "" && h.message.body == ToolsCall(true)
  }

  predicate EndsCall(h: Happening)
  {
    h.Completes? || h.Drains?
  }

  /** An execute starts: the handshake is over and no call is outstanding. */
  ghost predicate Starts(hs: Trace, k: nat)
    requires k < |hs|
    decreases k, 2
  {
    AsksCall(hs[k]) && HandshakeIn(hs[..k]) && !Busy(hs[..k])
  }

  /** The execute that started at `k` is outstanding. */
  ghost predicate OutstandingAt(hs: Trace, k: nat)
    requires k < |hs|
    decreases k, 3
  {
    Starts(hs, k) && forall j :: k < j < |hs| ==> !EndsCall(hs[j])
  }

  ghost predicate Busy(hs: Trace)
    decreases |hs|, 1
  {
    exists k :: 0 <= k < |hs| && OutstandingAt(hs, k)
  }

  ghost predicate InputEnded(hs: Trace)
  {
    exists k :: 0 <= k < |hs| && hs[k].InputEnds?
  }

  /** The answer to the line that arrives at `k`, if it gets one at once. */
  ghost function AnswerTo(hs: Trace, k: nat): Option<Answer>
    requires k < |hs| && hs[k].Arrives?
  {
    match hs[k].message
    case Malformed => Some(Error(-32600))
    case Request(identity, body) =>
      if identity == "" then Some(Error(-32600))
      else
        (match body
         case Initialize => Some(if InitializeIn(hs[..k]) then Error(-32600) else Result)
         case Ping => Some(Result)
         case ToolsList => Some(if HandshakeIn(hs[..k]) then Result else Error(-32600))
         case ToolsCall(acceptable) =>
           if Starts(hs, k) then None
           else Some(Error(if !HandshakeIn(hs[..k]) then -32600 else if Busy(hs[..k]) then -32000 else -32602))
         case OtherMethod => Some(Error(-32601)))
    case _ => None
  }

  /**
    Line `r.line` is answered `r.answer` at `k`: on its arrival, or when its execute
    completes while the input is open.
   */
  ghost predicate RepliesAt(hs: Trace, k: nat, r: Reply)
    requires k < |hs|
  {
    match hs[k]
    case Arrives(_, written) => written && AnswerTo(hs, k) == Some(r.answer) && r.line == Lines(hs[..k])
    case Completes(written) =>
      && written && !InputEnded(hs[..k]) && r.answer == CallResult
      && exists i :: 0 <= i < k && OutstandingAt(hs[..k], i) && r.line == Lines(hs[..i])
    case _ => false
  }

  /** What cancels an outstanding call: its cancel note, the end of the input, or of the context. */
  predicate Cancels(h: Happening, identity: string)
  {
    || (h.Arrives? && h.message == CancelNote(identity))
    || h.InputEnds? || h.ContextEnds?
  }

  /** What ends the loop. */
  ghost predicate EndsLoop(hs: Trace, k: nat)
    requires k < |hs|
  {
    || hs[k].ContextEnds?
    || hs[k] == InputEnds(true)
    || (hs[k].Arrives? && !hs[k].written && AnswerTo(hs, k).Some?)
    || (hs[k].Completes? && !hs[k].written && !InputEnded(hs[..k]))
    || (InputEnded(hs[..k + 1]) && !Busy(hs[..k + 1]))
  }

  ghost predicate Over(hs: Trace)
  {
    exists k :: 0 <= k < |hs| && EndsLoop(hs, k)
  }

  // ---------------------------------------------------------------- one happening more

  lemma Prefixes(hs: Trace, h: Happening)
    ensures (hs + [h])[..|hs|] == hs && (hs + [h])[..|hs| + 1] == hs + [h]
    ensures forall k :: 0 <= k <= |hs| ==> (hs + [h])[..k] == hs[..k]
    ensures forall k :: 0 <= k < |hs| ==> (hs + [h])[k] == hs[k]
  {
  }

  lemma LinesMore(hs: Trace, h: Happening)
    ensures Lines(hs + [h]) == Lines(hs) + if h.Arrives? then 1 else 0
  {
    Prefixes(hs, h);
  }

  lemma StartsSame(hs: Trace, h: Happening, k: nat)
    requires k < |hs|
    ensures Starts(hs + [h], k) <==> Starts(hs, k)
    ensures OutstandingAt(hs + [h], k) <==> OutstandingAt(hs, k) && !EndsCall(h)
  {
    Prefixes(hs, h);
    assert (hs + [h])[|hs|] == h;
    hide Busy, HandshakeIn;
  }

  lemma StartsLast(hs: Trace, h: Happening)
    ensures Starts(hs + [h], |hs|) <==> AsksCall(h) && HandshakeIn(hs) && !Busy(hs)
    ensures OutstandingAt(hs + [h], |hs|) <==> Starts(hs + [h], |hs|)
  {
    hide HandshakeIn, Busy, AsksCall;
    assert (hs + [h])[..|hs|] == hs && (hs + [h])[|hs|] == h;
  }

  lemma BusyKept(hs: Trace, h: Happening)
    requires Busy(hs) && !EndsCall(h)
    ensures Busy(hs + [h])
  {
    hide OutstandingAt;
    var k :| 0 <= k < |hs| && OutstandingAt(hs, k);
    StartsSame(hs, h, k);
  }

  lemma BusyBefore(hs: Trace, h: Happening)
    requires Busy(hs + [h])
    ensures !EndsCall(h) || Starts(hs + [h], |hs|)
    ensures Busy(hs) || Starts(hs + [h], |hs|)
  {
    hide OutstandingAt, Starts, EndsCall;
    var k :| 0 <= k < |hs + [h]| && OutstandingAt(hs + [h], k);
    StartsLast(hs, h);
    if k < |hs| {
      StartsSame(hs, h, k);
    }
  }

  lemma BusyMore(hs: Trace, h: Happening)
    ensures Busy(hs + [h]) <==> !EndsCall(h) && (Busy(hs) || (AsksCall(h) && HandshakeIn(hs)))
    ensures Starts(hs + [h], |hs|) <==> AsksCall(h) && HandshakeIn(hs) && !Busy(hs)
  {
    hide HandshakeIn, OutstandingAt, Starts;
    StartsLast(hs, h);
    if Busy(hs + [h]) {
      BusyBefore(hs, h);
    }
    if Busy(hs) && !EndsCall(h) {
      BusyKept(hs, h);
    }
    if OutstandingAt(hs + [h], |hs|) {
      assert (hs + [h])[|hs|] == h;
    }
  }

  lemma HandshakeMore(hs: Trace, h: Happening)
    ensures InitializeIn(hs + [h]) <==> InitializeIn(hs) || Initializes(h)
    ensures HandshakeIn(hs + [h]) <==> HandshakeIn(hs) || (InitializeIn(hs) && MakesReady(h))
  {
    var all := hs + [h];
    HandshakeExtends(hs, h);
    Prefixes(hs, h);
    if InitializeIn(all) && !Initializes(h) {
      var i :| 0 <= i < |all| && Initializes(all[i]);
      assert Initializes(hs[i]);
    }
    if HandshakeIn(all) {
      var i, j :| 0 <= i < j < |all| && Initializes(all[i]) && MakesReady(all[j]);
      assert Initializes(hs[i]);
      if j < |hs| {
        assert MakesReady(hs[j]);
      }
    }
  }

  lemma InputMore(hs: Trace, h: Happening)
    ensures InputEnded(hs + [h]) <==> InputEnded(hs) || h.InputEnds?
  {
    var all := hs + [h];
    Prefixes(hs, h);
    assert all[|hs|] == h;
    if InputEnded(hs) {
      var k :| 0 <= k < |hs| && hs[k].InputEnds?;
      assert all[k].InputEnds?;
    }
  }

  lemma AnswerSame(hs: Trace, h: Happening, k: nat)
    requires k < |hs| && hs[k].Arrives?
    ensures AnswerTo(hs + [h], k) == AnswerTo(hs, k)
  {
    Prefixes(hs, h);
    StartsSame(hs, h, k);
    hide Starts, Busy, HandshakeIn, InitializeIn;
  }

  lemma RepliesSame(hs: Trace, h: Happening, k: nat, r: Reply)
    requires k < |hs|
    ensures RepliesAt(hs + [h], k, r) <==> RepliesAt(hs, k, r)
    ensures EndsLoop(hs + [h], k) <==> EndsLoop(hs, k)
  {
    hide AnswerTo, OutstandingAt, InputEnded, Busy;
    Prefixes(hs, h);
    assert (hs + [h])[..k + 1] == hs[..k + 1];
    if hs[k].Arrives? {
      AnswerSame(hs, h, k);
    }
    if hs[k].Completes? {
      forall i | 0 <= i < k ensures (hs + [h])[..i] == hs[..i] {
      }
    }
  }

  // ---------------------------------------------------------------- the state it leaves

  ghost predicate CallTraced(hs: Trace, k: nat, c: Call)
    requires k < |hs|
  {
    && OutstandingAt(hs, k) && AsksCall(hs[k]) && c.line == Lines(hs[..k]) && c.identity == hs[k].message.identity
    && (c.cancelled <==> exists j :: k < j < |hs| && Cancels(hs[j], c.identity))
  }

  /** Handshake, input, lines and the outstanding call. */
  ghost predicate StateTraced(hs: Trace, s: Server)
  {
    && s.consumed == Lines(hs)
    && (s.initialized <==> InitializeIn(hs)) && (s.ready <==> HandshakeIn(hs)) && (s.inputClosed <==> InputEnded(hs))
    && (s.active.Some? <==> Busy(hs))
    && (s.active.Some? ==> exists k :: 0 <= k < |hs| && CallTraced(hs, k, s.active.value))
  }

  /** What a request changes beside the replies and the phase. */
  lemma ServeFields(s: Server, line: nat, identity: string, body: Body, written: bool)
    ensures var t, starts := Serve(s, line, identity, body, written), body == ToolsCall(true) && s.ready
            && s.active.None?;
            && t.consumed == s.consumed && t.inputClosed == s.inputClosed && t.ready == s.ready
            && (t.initialized <==> s.initialized || body.Initialize?)
            && t.active == (if starts then Some(Call(line, identity, false)) else s.active)
            && t.started == (if starts then s.started + [line] else s.started)
  {
    match body
    case Initialize =>
    case Ping =>
    case ToolsList =>
    case ToolsCall(acceptable) =>
    case OtherMethod =>
  }

  predicate CancelsNow(m: Message, identity: string)
  {
    m == CancelNote(identity) && identity != ""
  }

  function Marked(c: Option<Call>, cancelled: bool): Option<Call>
  {
    if c.Some? && cancelled then Some(c.value.(cancelled := true)) else c
  }

  /** What a line changes beside the replies and the phase. */
  lemma ArriveFields(s: Server, m: Message, written: bool)
    ensures var t, h := Arrive(s, m, written), Arrives(m, written);
            var starts := AsksCall(h) && s.ready && s.active.None?;
            && t.consumed == s.consumed + 1 && t.inputClosed == s.inputClosed
            && (t.initialized <==> s.initialized || Initializes(h))
            && (t.ready <==> s.ready || (s.initialized && MakesReady(h)))
            && t.started == (if starts then s.started + [s.consumed] else s.started)
            && t.active == (if starts then Some(Call(s.consumed, m.identity, false))
                            else Marked(s.active, s.active.Some? && CancelsNow(m, s.active.value.identity)))
  {
    hide Serve;
    match m
    case Malformed =>
    case InitializedNote =>
    case CancelNote(_) =>
    case OtherNote =>
    case Request(identity, body) =>
      ServeFields(s.(consumed := s.consumed + 1, asked := s.asked + {s.consumed}), s.consumed, identity, body, written);
  }

  /** What a happening changes beside the replies and the phase. */
  lemma StepFields(s: Server, h: Happening)
    requires Step(s, h).Some?
    ensures var t, starts := Step(s, h).value, AsksCall(h) && s.ready && s.active.None?;
            && t.consumed == s.consumed + (if h.Arrives? then 1 else 0)
            && (t.inputClosed <==> s.inputClosed || h.InputEnds?)
            && (t.initialized <==> s.initialized || Initializes(h))
            && (t.ready <==> s.ready || (s.initialized && MakesReady(h)))
            && t.started == (if starts then s.started + [s.consumed] else s.started)
            && t.active == (if EndsCall(h) then None
                            else if starts then Some(Call(s.consumed, h.message.identity, false))
                            else Marked(s.active, s.active.Some? && CancelsOne(h, s.active.value.identity)))
  {
    hide Arrive, Without;
    match h
    case Arrives(m, written) => ArriveFields(s, m, written);
    case InputEnds(_) =>
    case Finishes(_) =>
    case Completes(_) =>
    case ContextEnds =>
    case Drains =>
  }

  /** `Cancels`, of an identity a call can have. */
  predicate CancelsOne(h: Happening, identity: string)
  {
    (h.Arrives? && CancelsNow(h.message, identity)) || h.InputEnds? || h.ContextEnds?
  }

  lemma StateFields(hs: Trace, s: Server, h: Happening)
    requires StateTraced(hs, s) && Step(s, h).Some?
    ensures var t := Step(s, h).value;
            && t.consumed == Lines(hs + [h])
            && (t.initialized <==> InitializeIn(hs + [h])) && (t.ready <==> HandshakeIn(hs + [h]))
            && (t.inputClosed <==> InputEnded(hs + [h])) && (t.active.Some? <==> Busy(hs + [h]))
  {
    hide Step, HandshakeIn, InitializeIn, InputEnded, Busy, Starts, Lines, AsksCall, CancelsOne, CallTraced;
    LinesMore(hs, h);
    HandshakeMore(hs, h);
    InputMore(hs, h);
    BusyMore(hs, h);
    StepFields(s, h);
  }

  lemma CallStarted(hs: Trace, h: Happening, c: Call)
    requires Starts(hs + [h], |hs|) && c == Call(Lines(hs), h.message.identity, false)
    ensures CallTraced(hs + [h], |hs|, c)
  {
    Prefixes(hs, h);
    assert (hs + [h])[|hs|] == h;
    StartsLast(hs, h);
    hide HandshakeIn, Busy;
  }

  lemma CallGoesOn(hs: Trace, h: Happening, k: nat, c: Call)
    requires k < |hs| && CallTraced(hs, k, c) && !EndsCall(h)
    ensures CallTraced(hs + [h], k, c.(cancelled := c.cancelled || CancelsOne(h, c.identity)))
  {
    hide Starts, OutstandingAt;
    Prefixes(hs, h);
    var all := hs + [h];
    assert all[|hs|] == h;
    StartsSame(hs, h, k);
    if c.cancelled {
      var j :| k < j < |hs| && Cancels(hs[j], c.identity);
      assert Cancels(all[j], c.identity);
    }
    if CancelsOne(h, c.identity) {
      assert Cancels(all[|hs|], c.identity);
    }
  }

  lemma CallKept(hs: Trace, s: Server, h: Happening)
    requires StateTraced(hs, s) && Step(s, h).Some? && Step(s, h).value.active.Some?
    ensures exists k :: 0 <= k < |hs + [h]| && CallTraced(hs + [h], k, Step(s, h).value.active.value)
  {
    hide Step, HandshakeIn, InitializeIn, InputEnded, Busy, Starts, Lines, CancelsOne, CallTraced, AsksCall;
    var c := Step(s, h).value.active.value;
    StepFields(s, h);
    BusyMore(hs, h);
    if AsksCall(h) && s.ready && s.active.None? {
      CallStarted(hs, h, c);
      assert CallTraced(hs + [h], |hs|, c);
    } else {
      var k :| 0 <= k < |hs| && CallTraced(hs, k, s.active.value);
      CallGoesOn(hs, h, k, s.active.value);
      assert CallTraced(hs + [h], k, c);
    }
  }

  /** The lines whose execute was started. */
  ghost predicate StartsTraced(hs: Trace, s: Server)
  {
    forall line :: line in s.started <==> exists k :: 0 <= k < |hs| && StartsLine(hs, k, line)
  }

  ghost predicate StartsLine(hs: Trace, k: nat, line: nat)
    requires k < |hs|
  {
    Starts(hs, k) && Lines(hs[..k]) == line
  }

  lemma StartsKept(hs: Trace, s: Server, h: Happening)
    requires StateTraced(hs, s) && StartsTraced(hs, s) && Step(s, h).Some?
    ensures StartsTraced(hs + [h], Step(s, h).value)
  {
    hide Step, HandshakeIn, InitializeIn, InputEnded, Busy, Starts, Lines, CancelsOne, CallTraced, AsksCall;
    var all, t := hs + [h], Step(s, h).value;
    StepFields(s, h);
    BusyMore(hs, h);
    Prefixes(hs, h);
    forall k, line | 0 <= k < |hs| ensures StartsLine(all, k, line) <==> StartsLine(hs, k, line) {
      StartsSame(hs, h, k);
    }
    forall line ensures StartsLine(all, |hs|, line) <==> Starts(all, |hs|) && line == s.consumed {
    }
    if Starts(all, |hs|) {
      assert StartsLine(all, |hs|, s.consumed);
    }
    hide StartsLine;
    forall line ensures line in t.started <==> exists k :: 0 <= k < |all| && StartsLine(all, k, line) {
      if line in s.started {
        var k :| 0 <= k < |hs| && StartsLine(hs, k, line);
        assert StartsLine(all, k, line);
      }
      if k :| 0 <= k < |all| && StartsLine(all, k, line) {
        if k < |hs| {
          assert StartsLine(hs, k, line);
        }
      }
    }
  }

  // ---------------------------------------------------------------- the replies and the end of the loop

  ghost predicate RepliesTraced(hs: Trace, s: Server)
  {
    forall r :: r in s.replies <==> exists k :: 0 <= k < |hs| && RepliesAt(hs, k, r)
  }

  /** The loop serves until something has ended it; it has returned once no call is outstanding either. */
  ghost predicate PhaseTraced(hs: Trace, s: Server)
  {
    && (s.phase.Serving? <==> !Over(hs))
    && (s.phase.Returned? <==> Over(hs) && !Busy(hs))
  }

  /** What a line is answered at once, by the state that meets it. */
  function AnswerNow(s: Server, m: Message): Option<Answer>
  {
    match m
    case Malformed => Some(Error(-32600))
    case Request("", _) => Some(Error(-32600))
    case Request(_, Initialize) => Some(if s.initialized then Error(-32600) else Result)
    case Request(_, Ping) => Some(Result)
    case Request(_, ToolsList) => Some(if s.ready then Result else Error(-32600))
    case Request(_, ToolsCall(acceptable)) =>
      if !s.ready then Some(Error(-32600)) else if s.active.Some? then Some(Error(-32000))
      else if acceptable then None else Some(Error(-32602))
    case Request(_, OtherMethod) => Some(Error(-32601))
    case _ => None
  }

  lemma AnswerTraced(hs: Trace, s: Server, m: Message, written: bool)
    requires StateTraced(hs, s)
    ensures AnswerTo(hs + [Arrives(m, written)], |hs|) == AnswerNow(s, m)
  {
    hide HandshakeIn, InitializeIn, InputEnded, Busy, Lines, CallTraced, Starts;
    var h := Arrives(m, written);
    Prefixes(hs, h);
    StartsLast(hs, h);
    assert (hs + [h])[|hs|] == h;
    match m {
      case Request(identity, body) =>
        match body {
          case Initialize =>
          case Ping =>
          case ToolsList =>
          case ToolsCall(acceptable) =>
          case OtherMethod =>
        }
      case _ =>
    }
  }

  function Added(r: Option<Reply>): seq<Reply>
  {
    if r.Some? then [r.value] else []
  }

  /** What a happening adds to the replies, and whether it ends the loop. */
  function ReplyNow(s: Server, h: Happening): Option<Reply>
  {
    match h
    case Arrives(m, written) =>
      if written && AnswerNow(s, m).Some? then Some(Reply(s.consumed, AnswerNow(s, m).value)) else None
    case Completes(written) =>
      if written && !s.inputClosed && s.active.Some? then Some(Reply(s.active.value.line, CallResult)) else None
    case _ => None
  }

  predicate FailsNow(s: Server, h: Happening)
  {
    match h
    case Arrives(m, written) => !written && AnswerNow(s, m).Some?
    case InputEnds(failed) => failed
    case Completes(written) => !written && !s.inputClosed
    case ContextEnds => true
    case _ => false
  }

  /** A write adds its reply or ends the loop. */
  predicate Writes(s: Server, t: Server, line: nat, a: Option<Answer>, written: bool)
  {
    && t.replies == s.replies + (if a.Some? && written then [Reply(line, a.value)] else [])
    && (t.phase.Serving? <==> written || a.None?)
    && (!t.phase.Serving? ==> (t.phase.Returned? <==> t.active.None?))
  }

  lemma ServeReply(s: Server, identity: string, body: Body, written: bool)
    requires s.phase.Serving? && identity != ""
    ensures Writes(s, Serve(s, s.consumed, identity, body, written), s.consumed,
                   AnswerNow(s, Request(identity, body)), written)
  {
    match body
    case Initialize =>
    case Ping =>
    case ToolsList =>
    case ToolsCall(acceptable) =>
    case OtherMethod =>
  }

  lemma ServeElsewhere(s: Server, t: Server, line: nat, identity: string, body: Body, written: bool)
    requires t == s.(consumed := t.consumed, asked := t.asked)
    ensures var x, y := Serve(s, line, identity, body, written), Serve(t, line, identity, body, written);
            y.replies == x.replies && y.phase == x.phase && y.active == x.active
  {
    match body
    case Initialize =>
    case Ping =>
    case ToolsList =>
    case ToolsCall(acceptable) =>
    case OtherMethod =>
  }

  lemma ArriveReply(s: Server, m: Message, written: bool)
    requires s.phase.Serving?
    ensures Writes(s, Arrive(s, m, written), s.consumed, AnswerNow(s, m), written)
  {
    hide Serve;
    match m
    case Malformed =>
    case InitializedNote =>
    case CancelNote(_) =>
    case OtherNote =>
    case Request(identity, body) =>
      hide AnswerNow;
      if identity != "" {
        ServeReply(s, identity, body, written);
        ServeElsewhere(s, s.(consumed := s.consumed + 1, asked := s.asked + {s.consumed}), s.consumed, identity, body,
                       written);
      } else {
        UnusableAnswered(s, body);
      }
  }

  lemma UnusableAnswered(s: Server, body: Body)
    ensures AnswerNow(s, Request("", body)) == Some(Error(-32600))
  {
  }

  lemma StepReply(s: Server, h: Happening)
    requires Accounted(s) && Step(s, h).Some?
    ensures Step(s, h).value.replies == s.replies + Added(ReplyNow(s, h))
  {
    hide Arrive, Without, Replied;
    match h
    case Arrives(m, written) => ArriveReply(s, m, written);
    case InputEnds(_) =>
    case Finishes(_) =>
    case Completes(_) => ReceiveAccounted(s);
    case ContextEnds =>
    case Drains =>
  }

  lemma StepPhase(s: Server, h: Happening)
    requires Accounted(s) && Step(s, h).Some?
    ensures var t := Step(s, h).value;
            && (s.phase.Serving? ==>
                  && (t.phase.Serving? <==> !FailsNow(s, h) && !(t.inputClosed && t.active.None?))
                  && (!t.phase.Serving? ==> (t.phase.Returned? <==> t.active.None?)))
            && (s.phase.Leaving? ==> if h.Drains? then t.phase.Returned? else t.phase.Leaving?)
            && (s.phase.Returned? ==> t.phase.Returned?)
  {
    hide Arrive, Without, Replied;
    match h
    case Arrives(m, written) =>
      ArriveReply(s, m, written);
      ArriveFields(s, m, written);
    case InputEnds(_) =>
    case Finishes(_) =>
    case Completes(_) => ReceiveAccounted(s);
    case ContextEnds =>
    case Drains =>
  }

  lemma ReplyTraced(hs: Trace, s: Server, h: Happening, r: Reply)
    requires StateTraced(hs, s) && Accounted(s) && Step(s, h).Some?
    ensures RepliesAt(hs + [h], |hs|, r) <==> ReplyNow(s, h) == Some(r)
  {
    hide HandshakeIn, InitializeIn, Busy, Starts, InputEnded, AnswerTo, AnswerNow, Lines, Accounted, OutstandingAt;
    Prefixes(hs, h);
    assert (hs + [h])[|hs|] == h;
    match h
    case Arrives(m, written) => AnswerTraced(hs, s, m, written);
    case Completes(written) =>
      Receivable(s, h);
      var k :| 0 <= k < |hs| && CallTraced(hs, k, s.active.value);
      forall i | 0 <= i < |hs| && OutstandingAt(hs, i) ensures i == k {
        OneOutstanding(hs, i, k);
      }
    case _ =>
  }

  /** A completion is received of the outstanding call. */
  lemma Receivable(s: Server, h: Happening)
    requires Accounted(s) && Step(s, h).Some? && h.Completes?
    ensures s.active.Some?
  {
    ReceiveAccounted(s);
  }

  lemma OneOutstanding(hs: Trace, i: nat, k: nat)
    requires i < |hs| && k < |hs| && OutstandingAt(hs, i) && OutstandingAt(hs, k)
    ensures i == k
  {
    hide HandshakeIn, Busy;
    if i < k {
      BusyAt(hs, i, k);
    } else if k < i {
      BusyAt(hs, k, i);
    }
  }

  lemma BusyAt(hs: Trace, i: nat, n: nat)
    requires i < n <= |hs| && OutstandingAt(hs, i)
    ensures Busy(hs[..n])
  {
    hide HandshakeIn;
    assert hs[..n][..i] == hs[..i] && forall j :: 0 <= j < n ==> hs[..n][j] == hs[j];
    assert OutstandingAt(hs[..n], i);
  }

  lemma RepliesKept(hs: Trace, s: Server, h: Happening)
    requires StateTraced(hs, s) && RepliesTraced(hs, s) && Accounted(s) && Step(s, h).Some?
    ensures RepliesTraced(hs + [h], Step(s, h).value)
  {
    hide Step, StateTraced, Accounted, ReplyNow;
    var all, t := hs + [h], Step(s, h).value;
    StepReply(s, h);
    forall k, r | 0 <= k < |hs| ensures RepliesAt(all, k, r) <==> RepliesAt(hs, k, r) {
      RepliesSame(hs, h, k, r);
    }
    forall r ensures RepliesAt(all, |hs|, r) <==> ReplyNow(s, h) == Some(r) {
      ReplyTraced(hs, s, h, r);
    }
    hide RepliesAt;
    forall r ensures r in t.replies <==> exists k :: 0 <= k < |all| && RepliesAt(all, k, r) {
      if r in s.replies {
        var k :| 0 <= k < |hs| && RepliesAt(hs, k, r);
        assert RepliesAt(all, k, r);
      }
      if ReplyNow(s, h) == Some(r) {
        assert RepliesAt(all, |hs|, r);
      }
      if k :| 0 <= k < |all| && RepliesAt(all, k, r) {
        assert k < |hs| ==> RepliesAt(hs, k, r);
      }
    }
  }

  lemma OverMore(hs: Trace, s: Server, h: Happening)
    requires StateTraced(hs, s) && Step(s, h).Some?
    ensures var t := Step(s, h).value;
            Over(hs + [h]) <==> Over(hs) || FailsNow(s, h) || (t.inputClosed && t.active.None?)
  {
    hide HandshakeIn, InitializeIn, Busy, InputEnded, AnswerTo, AnswerNow, Lines, CallTraced, Step;
    var all, t := hs + [h], Step(s, h).value;
    Prefixes(hs, h);
    assert all[|hs|] == h;
    StateFields(hs, s, h);
    if h.Arrives? {
      AnswerTraced(hs, s, h.message, h.written);
    }
    assert EndsLoop(all, |hs|) <==> FailsNow(s, h) || (t.inputClosed && t.active.None?);
    hide FailsNow;
    forall k | 0 <= k < |hs| ensures EndsLoop(all, k) <==> EndsLoop(hs, k) {
      RepliesSame(hs, h, k, Reply(0, Result));
    }
    hide EndsLoop;
    if Over(hs) {
      var k :| 0 <= k < |hs| && EndsLoop(hs, k);
      assert EndsLoop(all, k);
    }
  }

  lemma PhaseKept(hs: Trace, s: Server, h: Happening)
    requires StateTraced(hs, s) && PhaseTraced(hs, s) && Accounted(s) && Step(s, h).Some?
    ensures PhaseTraced(hs + [h], Step(s, h).value)
  {
    hide Over, FailsNow, CallTraced, HandshakeIn, InitializeIn, InputEnded, Lines;
    OverMore(hs, s, h);
    StepPhase(s, h);
    StateFields(hs, s, h);
    LateSteps(s, h);
    hide Busy, Step, Accounted;
  }

  /** Nothing but the last completion ends a call once the loop is over. */
  lemma LateSteps(s: Server, h: Happening)
    requires Accounted(s) && Step(s, h).Some?
    ensures s.phase.Leaving? ==> (Step(s, h).value.active.None? <==> s.active.None? || h.Drains?)
    ensures s.phase.Returned? ==> Step(s, h).value.active.None?
  {
    hide Arrive, Without, Replied;
  }

  // ---------------------------------------------------------------- any run

  lemma StateKept(hs: Trace, s: Server, h: Happening)
    requires StateTraced(hs, s) && Accounted(s) && Step(s, h).Some?
    ensures StateTraced(hs + [h], Step(s, h).value)
  {
    hide Step, Accounted, HandshakeIn, InitializeIn, InputEnded, Busy, Lines, CallTraced;
    StateFields(hs, s, h);
    if Step(s, h).value.active.Some? {
      CallKept(hs, s, h);
    }
  }

  lemma NothingTraced()
    ensures StateTraced([], START) && StartsTraced([], START) && RepliesTraced([], START) && PhaseTraced([], START)
  {
  }

  /**
    After every run the server is as the run says: handshake, input and the outstanding call
    with what has cancelled it; exactly the lines that asked for a call after the handshake
    with none outstanding have started an execute; the replies are exactly those the lines
    and completions call for; and the loop is over exactly when something has ended it.
   */
  lemma {:induction false} RunTraced(hs: Trace)
    requires Run(hs).Some?
    ensures var s := Run(hs).value;
            StateTraced(hs, s) && StartsTraced(hs, s) && RepliesTraced(hs, s) && PhaseTraced(hs, s)
    decreases |hs|
  {
    hide Step, Accounted, StateTraced, StartsTraced, RepliesTraced, PhaseTraced;
    if hs == [] {
      NothingTraced();
    } else {
      var init, h := hs[..|hs| - 1], hs[|hs| - 1];
      var s := Run(init).value;
      assert init + [h] == hs;
      RunTraced(init);
      RunAccounted(init);
      StateKept(init, s, h);
      StartsKept(init, s, h);
      RepliesKept(init, s, h);
      PhaseKept(init, s, h);
    }
  }
}
