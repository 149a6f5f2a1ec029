/**
  Requests and responses match up: across the two gates of a connection, which share one
  id table, and in the observer's direction-keyed table.
 */
module IdConservation {
  import opened Bytes
  import opened Options
  import opened GateSpec
  import opened ObserverSpec
  import opened ObserverTheorems

  // ---------------------------------------------------------------- marks

  /** What one message does to a table of open requests. */
  datatype Mark<K> = Asks(key: K) | Answers(key: K) | Neither

  /** A request is open if no later message answers it. */
  ghost predicate OpenAt<K(!new)>(log: seq<Mark<K>>, k: K)
  {
    exists i :: 0 <= i < |log| && log[i] == Asks(k) && forall j :: i < j < |log| ==> log[j] != Answers(k)
  }

  /** Each answer is to the latest earlier mark of its key, and that mark is a request. */
  ghost predicate AnswersEarlierRequest<K(!new)>(log: seq<Mark<K>>, j: nat)
    requires j < |log| && log[j].Answers?
  {
    var k := log[j].key;
    exists i :: 0 <= i < j && log[i] == Asks(k) && forall m :: i < m < j ==> log[m] != Asks(k) && log[m] != Answers(k)
  }

  ghost predicate NeverReused<K(!new)>(log: seq<Mark<K>>)
  {
    forall j :: 0 <= j < |log| && log[j].Asks? ==> !OpenAt(log[..j], log[j].key)
  }

  ghost predicate EveryAnswerAsked<K(!new)>(log: seq<Mark<K>>)
  {
    forall j :: 0 <= j < |log| && log[j].Answers? ==> AnswersEarlierRequest(log, j)
  }

  ghost predicate HoldsOpen<K(!new)>(log: seq<Mark<K>>, table: set<K>)
  {
    forall k :: k in table <==> OpenAt(log, k)
  }

  /** No key is reused while open, every answer closes one request, the table holds the open keys. */
  ghost predicate Balanced<K(!new)>(log: seq<Mark<K>>, table: set<K>)
  {
    NeverReused(log) && EveryAnswerAsked(log) && HoldsOpen(log, table)
  }

  lemma OpenExtends<K(!new)>(log: seq<Mark<K>>, mark: Mark<K>, k: K)
    ensures OpenAt(log + [mark], k) <==> mark == Asks(k) || (mark != Answers(k) && OpenAt(log, k))
  {
    var all := log + [mark];
    if mark == Asks(k) {
      assert all[|log|] == Asks(k);
    } else if OpenAt(log, k) {
      var i :| 0 <= i < |log| && log[i] == Asks(k) && forall j :: i < j < |log| ==> log[j] != Answers(k);
      assert all[i] == Asks(k);
      if mark != Answers(k) {
        assert forall j :: i < j < |all| ==> all[j] != Answers(k);
      } else {
        assert all[|log|] == Answers(k);
      }
    }
    if OpenAt(all, k) && mark != Asks(k) {
      var i :| 0 <= i < |all| && all[i] == Asks(k) && forall j :: i < j < |all| ==> all[j] != Answers(k);
      assert i < |log| && log[i] == Asks(k);
      assert forall j :: i < j < |log| ==> log[j] == all[j];
      assert all[|log|] == mark;
    }
  }

  function Table<K>(table: set<K>, mark: Mark<K>): set<K>
  {
    match mark
    case Asks(k) => table + {k}
    case Answers(k) => table - {k}
    case Neither => table
  }

  lemma HoldsOpenStep<K(!new)>(log: seq<Mark<K>>, table: set<K>, mark: Mark<K>)
    requires HoldsOpen(log, table)
    ensures HoldsOpen(log + [mark], Table(table, mark))
  {
    forall k ensures k in Table(table, mark) <==> OpenAt(log + [mark], k) {
      OpenExtends(log, mark, k);
    }
  }

  lemma NeverReusedStep<K(!new)>(log: seq<Mark<K>>, mark: Mark<K>)
    requires NeverReused(log) && (mark.Asks? ==> !OpenAt(log, mark.key))
    ensures NeverReused(log + [mark])
  {
    var all := log + [mark];
    forall j | 0 <= j < |all| && all[j].Asks? ensures !OpenAt(all[..j], all[j].key) {
      assert all[..j] == log[..j];
      assert j == |log| ==> log[..j] == log;
    }
  }

  lemma OpenPrefix<K(!new)>(log: seq<Mark<K>>, k: K, i: nat, m: nat)
    requires i < m <= |log| && log[i] == Asks(k) && forall j :: i < j < |log| ==> log[j] != Answers(k)
    ensures OpenAt(log[..m], k)
  {
    assert log[..m][i] == Asks(k);
  }

  /** An answer to an open key answers the latest mark of that key. */
  lemma AnswerStep<K(!new)>(log: seq<Mark<K>>, mark: Mark<K>)
    requires NeverReused(log) && EveryAnswerAsked(log) && (mark.Answers? ==> OpenAt(log, mark.key))
    ensures EveryAnswerAsked(log + [mark])
  {
    var all := log + [mark];
    forall j | 0 <= j < |all| && all[j].Answers? ensures AnswersEarlierRequest(all, j) {
      var k := all[j].key;
      if j < |log| {
        assert AnswersEarlierRequest(log, j);
        var i :| 0 <= i < j && log[i] == Asks(k) && forall m :: i < m < j ==> log[m] != Asks(k) && log[m] != Answers(k);
        assert all[i] == Asks(k);
      } else {
        var i :| 0 <= i < |log| && log[i] == Asks(k) && forall m :: i < m < |log| ==> log[m] != Answers(k);
        forall m | i < m < |log| ensures log[m] != Asks(k) {
          OpenPrefix(log, k, i, m);
        }
        assert all[i] == Asks(k);
      }
    }
  }

  lemma BalancedStep<K(!new)>(log: seq<Mark<K>>, table: set<K>, mark: Mark<K>)
    requires Balanced(log, table)
    requires mark.Asks? ==> mark.key !in table
    requires mark.Answers? ==> mark.key in table
    ensures Balanced(log + [mark], Table(table, mark))
  {
    HoldsOpenStep(log, table, mark);
    NeverReusedStep(log, mark);
    AnswerStep(log, mark);
  }

  // ---------------------------------------------------------------- the pair of gates

  function MarkOf(g: Gate, text: Octets): Mark<Id>
  {
    match g.policy(text)
    case Refused(_) => Neither
    case Admitted(id) => if id.None? then Neither else if g.server then Answers(id.value) else Asks(id.value)
  }

  function Marks(g: Gate, texts: seq<Octets>): seq<Mark<Id>>
  {
    seq(|texts|, i requires 0 <= i < |texts| => MarkOf(g, texts[i]))
  }

  lemma TakeBalanced(g: Gate, w: Wire, pending: set<Id>, f: Frame, log: seq<Mark<Id>>)
    requires !g.auth && Balanced(log, pending) && TakeFrame(g, w, pending, f).Accepted?
    ensures var t := TakeFrame(g, w, pending, f); Balanced(log + Marks(g, t.texts), t.pending)
  {
    var t := TakeFrame(g, w, pending, f);
    hide Balanced;
    if t.texts == [] {
      assert log + Marks(g, t.texts) == log;
    } else {
      assert |t.texts| == 1 && Marks(g, t.texts) == [MarkOf(g, t.texts[0])];
      BalancedStep(log, pending, MarkOf(g, t.texts[0]));
    }
  }

  lemma {:induction false} DrainBalanced(g: Gate, w: Wire, pending: set<Id>, log: seq<Mark<Id>>)
    requires !g.auth && Balanced(log, pending) && Drain(g, w, pending).Accepted?
    ensures var r := Drain(g, w, pending); Balanced(log + Marks(g, r.texts), r.pending)
    decreases |w.buffer|
  {
    hide NextFrame, TakeFrame, Balanced;
    if w.closed || !NextFrame(g.server, w.buffer).Got? {
      assert log + Marks(g, []) == log;
    } else {
      var f := NextFrame(g.server, w.buffer).frame;
      DrainFrame(g, w, pending, f);
      var w' := w.(buffer := w.buffer[|f.raw|..]);
      var t := TakeFrame(g, w', pending, f);
      TakeBalanced(g, w', pending, f, log);
      hide Drain;
      DrainBalanced(g, t.wire, t.pending, log + Marks(g, t.texts));
      var rest := Drain(g, t.wire, t.pending).texts;
      assert log + Marks(g, t.texts + rest) == (log + Marks(g, t.texts)) + Marks(g, rest);
    }
  }

  lemma FeedBalanced(g: Gate, w: Wire, pending: set<Id>, data: Octets, log: seq<Mark<Id>>)
    requires !g.auth && Balanced(log, pending) && Feed(g, w, pending, data).Accepted?
    ensures var r := Feed(g, w, pending, data); Balanced(log + Marks(g, r.texts), r.pending)
  {
    hide Drain, Balanced;
    var b := w.buffer + data;
    if w.upgraded {
      DrainBalanced(g, More(w, data), pending, log);
    } else if FindHeaderEnd(b).HeaderEnd? {
      var u := More(w, data).(upgraded := true, buffer := b[FindHeaderEnd(b).end..]);
      DrainBalanced(g, u, pending, log);
      assert [] + Drain(g, u, pending).texts == Drain(g, u, pending).texts;
    } else {
      assert log + Marks(g, []) == log;
    }
  }

  /** Two gates of one connection over their shared table, with the log of messages that passed either. */
  datatype GatePair = GatePair(fromClient: Wire, fromServer: Wire, pending: set<Id>, log: seq<Mark<Id>>)

  /** Calls of the two directions in any order, as long as they are accepted. */
  function RunPair(client: Octets -> Verdict, server: Octets -> Verdict, s: GatePair, calls: seq<(Direction, Octets)>)
    : Option<GatePair>
    decreases |calls|
  {
    if calls == [] then Some(s)
    else
      var (d, data) := calls[0];
      var g := if d.Client? then Gate(false, false, client) else Gate(true, false, server);
      var r := Feed(g, if d.Client? then s.fromClient else s.fromServer, s.pending, data);
      if r.Rejected? then None
      else
        var s' := s.(pending := r.pending, log := s.log + Marks(g, r.texts));
        RunPair(client, server, if d.Client? then s'.(fromClient := r.wire) else s'.(fromServer := r.wire), calls[1..])
  }

  /** In every accepted interleaving the shared table is the open requests and every response answers one of them. */
  lemma {:induction false} PairConserves(client: Octets -> Verdict, server: Octets -> Verdict, s: GatePair,
                                         calls: seq<(Direction, Octets)>)
    requires Balanced(s.log, s.pending)
    ensures var r := RunPair(client, server, s, calls);
            r.Some? ==> Balanced(r.value.log, r.value.pending) && s.log <= r.value.log
    decreases |calls|
  {
    hide Feed, Balanced;
    if calls != [] {
      var (d, data) := calls[0];
      var g := if d.Client? then Gate(false, false, client) else Gate(true, false, server);
      var w := if d.Client? then s.fromClient else s.fromServer;
      var r := Feed(g, w, s.pending, data);
      if r.Accepted? {
        FeedBalanced(g, w, s.pending, data, s.log);
        var s' := s.(pending := r.pending, log := s.log + Marks(g, r.texts));
        var next := if d.Client? then s'.(fromClient := r.wire) else s'.(fromServer := r.wire);
        PairConserves(client, server, next, calls[1..]);
      }
    }
  }

  lemma EmptyBalanced()
    ensures Balanced<Id>([], {})
  {
  }

  // ---------------------------------------------------------------- the observer's table

  function ObsMark(c: Config, text: (Direction, Octets)): Mark<(Direction, Id)>
  {
    match c.rpc(text.0, text.1)
    case BadRpc(_) => Neither
    case Request(_, id, _) => if id.Some? then Asks((text.0, id.value)) else Neither
    case Response(id, _, _) => Answers((Opposite(text.0), id))
  }

  function ObsMarks(c: Config, texts: seq<(Direction, Octets)>): seq<Mark<(Direction, Id)>>
  {
    seq(|texts|, i requires 0 <= i < |texts| => ObsMark(c, texts[i]))
  }

  /** The latest mark of `k` is a request of the method `name`. */
  ghost predicate LatestAsks(c: Config, texts: seq<(Direction, Octets)>, k: (Direction, Id), name: string)
  {
    exists i :: 0 <= i < |texts| && AsksAt(c, texts[i], k, name)
      && forall j :: i < j < |texts| ==> ObsMark(c, texts[j]) != Asks(k) && ObsMark(c, texts[j]) != Answers(k)
  }

  predicate AsksAt(c: Config, text: (Direction, Octets), k: (Direction, Id), name: string)
  {
    var rpc := c.rpc(text.0, text.1);
    rpc.Request? && rpc.name == name && rpc.id == Some(k.1) && text.0 == k.0
  }

  ghost predicate TableOf(c: Config, texts: seq<(Direction, Octets)>, pending: map<(Direction, Id), string>)
  {
    && HoldsOpen(ObsMarks(c, texts), pending.Keys) && NeverReused(ObsMarks(c, texts))
    && forall k :: k in pending ==> LatestAsks(c, texts, k, pending[k])
  }

  /**
    A valid connection's table is exactly the requests not answered yet, each with the
    method it asked for, at most 256 of them and no id reused while open; an invalid
    connection has none.
   */
  ghost predicate Tabled(c: Config, l: Link)
  {
    if l.valid then
      !l.overflowed && |l.pending| <= MAX_PENDING && TableOf(c, l.texts, l.pending)
    else l.pending == map[]
  }

  lemma EmitTabled(c: Config, l: Link, d: Direction, e: Event)
    requires Tabled(c, l)
    ensures Tabled(c, Emit(c, l, d, e))
  {
    hide TableOf;
  }

  lemma GapTabled(c: Config, l: Link, d: Direction, reason: string, size: Option<(nat, nat)>)
    requires l.valid || Tabled(c, l)
    requires l.valid ==> !l.overflowed
    ensures Tabled(c, SizedGap(c, l, d, reason, size))
  {
  }

  lemma LatestKept(c: Config, texts: seq<(Direction, Octets)>, text: (Direction, Octets), k: (Direction, Id),
                   name: string)
    requires LatestAsks(c, texts, k, name)
    requires ObsMark(c, text) != Asks(k) && ObsMark(c, text) != Answers(k)
    ensures LatestAsks(c, texts + [text], k, name)
  {
    var i :| 0 <= i < |texts| && AsksAt(c, texts[i], k, name)
      && forall j :: i < j < |texts| ==> ObsMark(c, texts[j]) != Asks(k) && ObsMark(c, texts[j]) != Answers(k);
    assert AsksAt(c, (texts + [text])[i], k, name);
  }

  lemma LatestNew(c: Config, texts: seq<(Direction, Octets)>, text: (Direction, Octets), k: (Direction, Id),
                  name: string)
    requires AsksAt(c, text, k, name)
    ensures LatestAsks(c, texts + [text], k, name)
  {
    assert AsksAt(c, (texts + [text])[|texts|], k, name);
  }

  /** The table after a text that keeps the connection valid. */
  lemma TextTable(c: Config, texts: seq<(Direction, Octets)>, text: (Direction, Octets),
                  before: map<(Direction, Id), string>, pending: map<(Direction, Id), string>)
    requires TableOf(c, texts, before)
    requires var mark := ObsMark(c, text);
             && pending.Keys == Table(before.Keys, mark)
             && (mark.Asks? ==> mark.key !in before && AsksAt(c, text, mark.key, pending[mark.key]))
             && forall k :: k in pending && mark != Asks(k) ==> k in before && pending[k] == before[k]
    ensures TableOf(c, texts + [text], pending)
  {
    var mark, log := ObsMark(c, text), ObsMarks(c, texts);
    assert ObsMarks(c, texts + [text]) == log + [mark];
    assert mark.Asks? ==> !OpenAt(log, mark.key);
    hide HoldsOpen, NeverReused, LatestAsks, OpenAt, ObsMark, ObsMarks, Table, AsksAt;
    HoldsOpenStep(log, before.Keys, mark);
    NeverReusedStep(log, mark);
    forall k | k in pending ensures LatestAsks(c, texts + [text], k, pending[k]) {
      TextNames(c, texts, text, before, pending, k);
    }
  }

  lemma TextNames(c: Config, texts: seq<(Direction, Octets)>, text: (Direction, Octets),
                  before: map<(Direction, Id), string>, pending: map<(Direction, Id), string>, k: (Direction, Id))
    requires k in pending && k in Table(before.Keys, ObsMark(c, text))
    requires ObsMark(c, text) == Asks(k) ==> AsksAt(c, text, k, pending[k])
    requires ObsMark(c, text) != Asks(k) ==>
               k in before && pending[k] == before[k] && LatestAsks(c, texts, k, before[k])
    ensures LatestAsks(c, texts + [text], k, pending[k])
  {
    hide LatestAsks, ObsMark, AsksAt;
    if ObsMark(c, text) == Asks(k) {
      LatestNew(c, texts, text, k, pending[k]);
    } else {
      LatestKept(c, texts, text, k, pending[k]);
    }
  }

  lemma TextTabled(c: Config, l: Link, d: Direction, payload: Octets)
    requires Tabled(c, l) && l.valid
    ensures Tabled(c, ProcessText(c, l, d, payload))
  {
    var l' := l.(texts := l.texts + [(d, payload)]);
    match c.rpc(d, payload)
    case BadRpc(reason) =>
      GapTabled(c, l', d, reason, None);
    case Request(name, id, detail) =>
      RequestTabled(c, l, d, payload, name, id, detail);
    case Response(id, ok, detail) =>
      ResponseTabled(c, l, d, payload, id, ok, detail);
  }

  lemma RequestTabled(c: Config, l: Link, d: Direction, payload: Octets, name: string, id: Option<Id>, detail: string)
    requires Tabled(c, l) && l.valid && c.rpc(d, payload) == Request(name, id, detail)
    ensures Tabled(c, ProcessRequest(c, l.(texts := l.texts + [(d, payload)]), d, name, id, detail))
  {
    hide Emit, SizedGap, TableOf;
    var l' := l.(texts := l.texts + [(d, payload)]);
    if id.Some? && (|l.pending| >= MAX_PENDING || (d, id.value) in l.pending) {
      GapTabled(c, l', d, "pending_requests_too_many", None);
      GapTabled(c, l', d, "duplicate_request_id", None);
    } else {
      var pending := if id.Some? then l.pending[(d, id.value) := name] else l.pending;
      TextTable(c, l.texts, (d, payload), l.pending, pending);
      EmitTabled(c, l'.(pending := pending), d, RpcEvent(d, id, name, detail));
      EmitTabled(c, l'.(pending := pending), d, RpcUnknown(d, id, Some(name), false, detail));
    }
  }

  lemma ResponseTabled(c: Config, l: Link, d: Direction, payload: Octets, id: Id, ok: bool, detail: string)
    requires Tabled(c, l) && l.valid && c.rpc(d, payload) == Response(id, ok, detail)
    ensures Tabled(c, ProcessResponse(c, l.(texts := l.texts + [(d, payload)]), d, id, ok, detail))
  {
    hide Emit, TableOf;
    var l', asked := l.(texts := l.texts + [(d, payload)]), (Opposite(d), id);
    var pending := l.pending - {asked};
    assert pending.Keys == l.pending.Keys - {asked};
    SmallerTable(l.pending, asked);
    TextTable(c, l.texts, (d, payload), l.pending, pending);
    if asked in l.pending {
      var name := l.pending[asked];
      EmitTabled(c, l'.(pending := pending), d, RpcResponse(d, id, name, ok, if ok then detail else ""));
      EmitTabled(c, l'.(pending := pending), d, RpcUnknown(d, Some(id), Some(name), true, ""));
    } else {
      assert pending == l.pending;
      EmitTabled(c, l', d, RpcUnknown(d, Some(id), None, true, ""));
    }
  }

  lemma SmallerTable<K, V>(m: map<K, V>, k: K)
    ensures |m - {k}| <= |m|
  {
    if k !in m {
      assert m - {k} == m;
    } else {
      assert m == (m - {k})[k := m[k]];
    }
  }

  /** What a frame can do to the link: nothing, a control record, a message, or a gap. */
  lemma FrameLink(c: Config, l: Link, p: Parser, d: Direction, fin: bool, opcode: nat, payload: Octets)
    returns (text: Octets, reason: string, size: Option<(nat, nat)>)
    ensures var r := ProcessFrame(c, l, p, d, fin, opcode, payload).0;
            r == l || r == Emit(c, l, d, Control(d, opcode)) || r == ProcessText(c, l, d, text)
            || r == SizedGap(c, l, d, reason, size)
  {
    hide Emit, SizedGap, ProcessText;
    var whole := p.payload + payload;
    text, size := if opcode == 0 then whole else payload, None;
    reason := if opcode == 8 then "invalid_close_payload"
              else if opcode == 0 && p.fragment.None? then "unexpected_continuation"
              else if opcode == 0 && |whole| > c.maxMessage then "message_too_large"
              else if opcode == 0 then "binary_message"
              else if opcode > 2 then "unsupported_opcode"
              else if p.fragment.Some? then "new_data_during_fragment"
              else if |payload| > c.maxMessage then "message_too_large"
              else "binary_message";
    if reason == "message_too_large" {
      size := Some((|text|, c.maxMessage));
    }
  }

  lemma FrameTabled(c: Config, l: Link, p: Parser, d: Direction, fin: bool, opcode: nat, payload: Octets)
    requires Tabled(c, l) && l.valid
    ensures Tabled(c, ProcessFrame(c, l, p, d, fin, opcode, payload).0)
  {
    assert !l.overflowed;
    hide Emit, SizedGap, ProcessText, ProcessFrame, Tabled;
    var text, reason, size := FrameLink(c, l, p, d, fin, opcode, payload);
    EmitTabled(c, l, d, Control(d, opcode));
    TextTabled(c, l, d, text);
    GapTabled(c, l, d, reason, size);
  }

  lemma StepTabled(c: Config, o: Obs, d: Direction)
    requires Tabled(c, o.link) && o.link.valid && FrameStep(c, o, d).Next?
    ensures Tabled(c, FrameStep(c, o, d).obs.link)
  {
    var p := Side(o, d);
    var h := ReadFrameHead(c, d, p.buffer);
    assert !o.link.overflowed;
    hide ReadFrameHead, FramePayload, ProcessFrame, SizedGap, Tabled;
    if h.Unacceptable? {
      GapTabled(c, o.link, d, h.reason, h.size);
    } else {
      FrameCut(c, d, p.buffer, []);
      var payload := FramePayload(d, p.buffer, h.offset, h.total);
      FrameTabled(c, o.link, p.(buffer := p.buffer[h.total..]), d, h.fin, h.opcode, payload);
    }
  }

  lemma {:induction false} FramesTabled(c: Config, o: Obs, d: Direction)
    requires Tabled(c, o.link)
    ensures Tabled(c, ParseFrames(c, o, d).link)
    decreases |Side(o, d).buffer|
  {
    hide FrameStep, Tabled;
    if o.link.valid && FrameStep(c, o, d).Next? {
      StepTabled(c, o, d);
      ParseStep(c, o, d);
      FramesTabled(c, FrameStep(c, o, d).obs, d);
    }
  }

  lemma UpgradeTabled(c: Config, o: Obs, d: Direction)
    requires Tabled(c, o.link) && o.link.valid
    ensures Tabled(c, ParseUpgrade(c, o, d).link)
  {
    assert !o.link.overflowed;
    hide Emit, SizedGap, FindHeaderEnd, TableOf;
    GapTabled(c, o.link, d, "header_too_large", None);
    var b := Side(o, d).buffer;
    if FindHeaderEnd(b).HeaderEnd? {
      var v := c.upgrade(d, b[..FindHeaderEnd(b).end], o.link.key);
      if v.Agreed? {
        EmitTabled(c, if d.Client? then o.link.(key := v.key) else o.link, d, Upgraded(d));
      } else {
        GapTabled(c, o.link, d, v.reason, None);
      }
    }
  }

  /** Every call, of either direction and with any octets, keeps the observer's table exact. */
  lemma ObserveTabled(c: Config, o: Obs, d: Direction, data: Octets)
    requires Tabled(c, o.link)
    ensures Tabled(c, Observe(c, o, d, data).link)
  {
    if o.link.valid {
      assert !o.link.overflowed;
      hide Parse, SizedGap, Tabled;
      GapTabled(c, o.link, d, "input_buffer_too_large", None);
      ParseTabled(c, Push(o, d, data), d);
    }
  }

  lemma ParseTabled(c: Config, o: Obs, d: Direction)
    requires Tabled(c, o.link) && o.link.valid
    ensures Tabled(c, Parse(c, o, d).link)
  {
    hide ParseUpgrade, ParseFrames, Tabled;
    UpgradeTabled(c, o, d);
    FramesTabled(c, o, d);
    FramesTabled(c, ParseUpgrade(c, o, d), d);
  }

  /** Calls of both directions, one after another. */
  function ObserveCalls(c: Config, o: Obs, calls: seq<(Direction, Octets)>): Obs
    decreases |calls|
  {
    if calls == [] then o else ObserveCalls(c, Observe(c, o, calls[0].0, calls[0].1), calls[1..])
  }

  /** From a new connection on, whatever either side sends and however it is cut, the table is exact. */
  lemma RunTabled(c: Config, calls: seq<(Direction, Octets)>)
    ensures Tabled(c, ObserveCalls(c, OPENED, calls).link)
  {
    assert TableOf(c, [], map[]);
    CallsTabled(c, OPENED, calls);
  }

  lemma {:induction false} CallsTabled(c: Config, o: Obs, calls: seq<(Direction, Octets)>)
    requires Tabled(c, o.link)
    ensures Tabled(c, ObserveCalls(c, o, calls).link)
    decreases |calls|
  {
    hide Observe, Tabled;
    if calls != [] {
      ObserveTabled(c, o, calls[0].0, calls[0].1);
      CallsTabled(c, Observe(c, o, calls[0].0, calls[0].1), calls[1..]);
    }
  }

  /** A response is recorded with the method of the one open request it answers, or as unknown if there is none. */
  lemma ResponseNamesItsRequest(c: Config, l: Link, d: Direction, payload: Octets, e: Event)
    requires Tabled(c, l) && l.valid && c.rpc(d, payload).Response?
    requires ProcessText(c, l, d, payload).events == l.events + [Record(l.nextSeq, e)]
    ensures e.RpcResponse? ==> LatestAsks(c, l.texts, (Opposite(d), e.answers), e.name) && e.name in KNOWN_METHODS
    ensures e.RpcUnknown? && e.response ==>
              && e.id.Some?
              && (e.unknown.Some? ==> LatestAsks(c, l.texts, (Opposite(d), e.id.value), e.unknown.value))
              && (e.unknown.None? ==> !OpenAt(ObsMarks(c, l.texts), (Opposite(d), e.id.value)))
  {
    hide LatestAsks, OpenAt, NeverReused, ObsMark;
    var r := ProcessText(c, l, d, payload);
    assert r.events[|l.events|] == Record(l.nextSeq, e);
  }
}
