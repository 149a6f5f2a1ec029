/**
  What the observer has on record of each message: its records of messages are, one by one
  and in order, what the messages handed to the RPC layer say.
 */
module ObserverRows {
  import opened Bytes
  import opened Options
  import opened GateSpec
  import opened ObserverSpec
  import opened ObserverTheorems
  import opened IdConservation

  type Texts = seq<(Direction, Octets)>

  predicate OfMessage(e: Event)
  {
    e.RpcEvent? || e.RpcUnknown? || e.RpcResponse?
  }

  /** The records of messages among all records, in order. */
  function Rows(events: seq<Record>): seq<Event>
    decreases |events|
  {
    if events == [] then []
    else
      var init, last := Rows(events[..|events| - 1]), events[|events| - 1].event;
      if OfMessage(last) then init + [last] else init
  }

  // ---------------------------------------------------------------- what a message says

  /** A known method is recorded by name with its detail, any other as unknown with its name. */
  function RequestRow(d: Direction, name: string, id: Option<Id>, detail: string): Event
  {
    if name in KNOWN_METHODS then RpcEvent(d, id, name, detail) else RpcUnknown(d, id, Some(name), false, detail)
  }

  /** A response to a request of a known method says whether it succeeded, and its detail only then. */
  function ResponseRow(d: Direction, name: string, id: Id, ok: bool, detail: string): Event
  {
    if name in KNOWN_METHODS then RpcResponse(d, id, name, ok, if ok then detail else "")
    else RpcUnknown(d, Some(id), Some(name), true, "")
  }

  /** `e` is what message `i` of `texts` says: of a response, by the request still open that it answers. */
  ghost predicate Says(c: Config, texts: Texts, i: nat, e: Event)
    requires i < |texts|
  {
    var (d, payload) := texts[i];
    match c.rpc(d, payload)
    case BadRpc(_) => false
    case Request(name, id, detail) => e == RequestRow(d, name, id, detail)
    case Response(id, ok, detail) =>
      if OpenAt(ObsMarks(c, texts[..i]), (Opposite(d), id)) then
        exists name :: LatestAsks(c, texts[..i], (Opposite(d), id), name) && e == ResponseRow(d, name, id, ok, detail)
      else e == RpcUnknown(d, Some(id), None, true, "")
  }

  /** Message by message; one more may have been handed on than recorded, the one that ended the connection. */
  ghost predicate Told(c: Config, l: Link)
  {
    var rows := Rows(l.events);
    && |rows| <= |l.texts| <= |rows| + 1
    && (l.valid ==> |rows| == |l.texts|)
    && forall i :: 0 <= i < |rows| ==> Says(c, l.texts, i, rows[i])
  }

  // ---------------------------------------------------------------- one record, one message

  lemma RowsMore(events: seq<Record>, r: Record)
    ensures Rows(events + [r]) == if OfMessage(r.event) then Rows(events) + [r.event] else Rows(events)
  {
    assert (events + [r])[..|events|] == events;
  }

  lemma SaysSame(c: Config, texts: Texts, t: (Direction, Octets), i: nat, e: Event)
    requires i < |texts| && Says(c, texts, i, e)
    ensures Says(c, texts + [t], i, e)
  {
    assert (texts + [t])[..i] == texts[..i] && (texts + [t])[i] == texts[i];
    hide OpenAt, LatestAsks, ObsMarks, RequestRow, ResponseRow;
  }

  /** A record that is of no message. */
  lemma EmitTold(c: Config, l: Link, d: Direction, e: Event)
    requires Told(c, l) && !OfMessage(e)
    ensures Told(c, Emit(c, l, d, e))
  {
    hide Says, Rows;
    RowsMore(l.events, Record(l.nextSeq, e));
    RowsMore(l.events, Record(l.nextSeq + 1, Gap(d, "event_queue_overflow", None)));
  }

  lemma GapTold(c: Config, l: Link, d: Direction, reason: string, size: Option<(nat, nat)>)
    requires Told(c, l)
    ensures Told(c, SizedGap(c, l, d, reason, size))
  {
    hide Says, Rows, Emit;
    EmitTold(c, Invalidate(l), d, Gap(d, reason, size));
  }

  /** The link before the last message `t` is recorded. */
  ghost predicate Owes(c: Config, l: Link, t: (Direction, Octets))
  {
    var rows := Rows(l.events);
    && |l.texts| == |rows| + 1 && l.texts[|rows|] == t
    && forall i :: 0 <= i < |rows| ==> Says(c, l.texts, i, rows[i])
  }

  lemma OwesNow(c: Config, l: Link, t: (Direction, Octets))
    requires Told(c, l) && l.valid
    ensures Owes(c, l.(texts := l.texts + [t]), t)
  {
    hide Says, Rows;
    var rows := Rows(l.events);
    forall i | 0 <= i < |rows| ensures Says(c, l.texts + [t], i, rows[i]) {
      SaysSame(c, l.texts, t, i, rows[i]);
    }
  }

  /** It is recorded, or the connection ends without it. */
  lemma EmitPays(c: Config, l: Link, d: Direction, e: Event, t: (Direction, Octets))
    requires Owes(c, l, t) && OfMessage(e) && Says(c, l.texts, |l.texts| - 1, e) && l.valid && !l.overflowed
    ensures Told(c, Emit(c, l, d, e))
  {
    hide Says, Rows;
    RowsMore(l.events, Record(l.nextSeq, e));
    RowsMore(l.events, Record(l.nextSeq + 1, Gap(d, "event_queue_overflow", None)));
  }

  lemma GapPays(c: Config, l: Link, d: Direction, reason: string, t: (Direction, Octets))
    requires Owes(c, l, t) && l.valid
    ensures Told(c, RaiseGap(c, l, d, reason))
  {
    hide Says, Rows;
    RowsMore(l.events, Record(l.nextSeq, Gap(d, reason, None)));
    RowsMore(l.events, Record(l.nextSeq + 1, Gap(d, "event_queue_overflow", None)));
  }

  lemma RequestTold(c: Config, l: Link, d: Direction, payload: Octets, name: string, id: Option<Id>, detail: string)
    requires Told(c, l) && Tabled(c, l) && l.valid && c.rpc(d, payload) == Request(name, id, detail)
    ensures Told(c, ProcessRequest(c, l.(texts := l.texts + [(d, payload)]), d, name, id, detail))
  {
    hide Emit, SizedGap, Told, Owes, TableOf, OpenAt, LatestAsks, ObsMarks;
    var l', t := l.(texts := l.texts + [(d, payload)]), (d, payload);
    OwesNow(c, l, t);
    GapPays(c, l', d, "pending_requests_too_many", t);
    GapPays(c, l', d, "duplicate_request_id", t);
    var l'' := if id.Some? then l'.(pending := l'.pending[(d, id.value) := name]) else l';
    OwesElse(c, l', l'', t);
    EmitPays(c, l'', d, RequestRow(d, name, id, detail), t);
  }

  lemma OwesElse(c: Config, l: Link, m: Link, t: (Direction, Octets))
    requires Owes(c, l, t) && m.events == l.events && m.texts == l.texts
    ensures Owes(c, m, t)
  {
  }

  lemma ResponseTold(c: Config, l: Link, d: Direction, payload: Octets, id: Id, ok: bool, detail: string)
    requires Told(c, l) && Tabled(c, l) && l.valid && c.rpc(d, payload) == Response(id, ok, detail)
    ensures Told(c, ProcessResponse(c, l.(texts := l.texts + [(d, payload)]), d, id, ok, detail))
  {
    hide Emit, Told, Owes, OpenAt, LatestAsks, ObsMarks;
    var l', t, asked := l.(texts := l.texts + [(d, payload)]), (d, payload), (Opposite(d), id);
    OwesNow(c, l, t);
    assert l'.texts[..|l.texts|] == l.texts && l'.texts[|l.texts|] == t;
    assert asked in l.pending <==> OpenAt(ObsMarks(c, l.texts), asked);
    if asked in l.pending {
      var name, l'' := l.pending[asked], l'.(pending := l'.pending - {asked});
      assert LatestAsks(c, l.texts, asked, name);
      OwesElse(c, l', l'', t);
      assert Says(c, l''.texts, |l.texts|, ResponseRow(d, name, id, ok, detail));
      EmitPays(c, l'', d, ResponseRow(d, name, id, ok, detail), t);
    } else {
      EmitPays(c, l', d, RpcUnknown(d, Some(id), None, true, ""), t);
    }
  }

  lemma TextTold(c: Config, l: Link, d: Direction, payload: Octets)
    requires Told(c, l) && Tabled(c, l) && l.valid
    ensures Told(c, ProcessText(c, l, d, payload))
  {
    hide SizedGap, Told, Tabled, Owes;
    match c.rpc(d, payload)
    case BadRpc(reason) =>
      OwesNow(c, l, (d, payload));
      GapPays(c, l.(texts := l.texts + [(d, payload)]), d, reason, (d, payload));
    case Request(name, id, detail) => RequestTold(c, l, d, payload, name, id, detail);
    case Response(id, ok, detail) => ResponseTold(c, l, d, payload, id, ok, detail);
  }

  lemma FrameTold(c: Config, l: Link, p: Parser, d: Direction, fin: bool, opcode: nat, payload: Octets)
    requires Told(c, l) && Tabled(c, l) && l.valid
    ensures Told(c, ProcessFrame(c, l, p, d, fin, opcode, payload).0)
  {
    hide Emit, SizedGap, ProcessText, ProcessFrame, Told, Tabled;
    var text, reason, size := FrameLink(c, l, p, d, fin, opcode, payload);
    EmitTold(c, l, d, Control(d, opcode));
    TextTold(c, l, d, text);
    GapTold(c, l, d, reason, size);
  }

  lemma StepTold(c: Config, o: Obs, d: Direction)
    requires Told(c, o.link) && Tabled(c, o.link) && o.link.valid && FrameStep(c, o, d).Next?
    ensures Told(c, FrameStep(c, o, d).obs.link)
  {
    hide ReadFrameHead, FramePayload, ProcessFrame, SizedGap, Told, Tabled;
    var p := Side(o, d);
    var h := ReadFrameHead(c, d, p.buffer);
    if h.Unacceptable? {
      GapTold(c, o.link, d, h.reason, h.size);
    } else {
      FrameCut(c, d, p.buffer, []);
      var payload := FramePayload(d, p.buffer, h.offset, h.total);
      FrameTold(c, o.link, p.(buffer := p.buffer[h.total..]), d, h.fin, h.opcode, payload);
    }
  }

  lemma {:induction false} FramesTold(c: Config, o: Obs, d: Direction)
    requires Told(c, o.link) && Tabled(c, o.link)
    ensures Told(c, ParseFrames(c, o, d).link)
    decreases |Side(o, d).buffer|
  {
    hide FrameStep, Told, Tabled;
    if o.link.valid && FrameStep(c, o, d).Next? {
      StepTold(c, o, d);
      StepTabled(c, o, d);
      ParseStep(c, o, d);
      FramesTold(c, FrameStep(c, o, d).obs, d);
    }
  }

  lemma KeyTold(c: Config, l: Link, key: Option<Octets>)
    requires Told(c, l)
    ensures Told(c, l.(key := key))
  {
  }

  lemma UpgradeTold(c: Config, o: Obs, d: Direction)
    requires Told(c, o.link) && o.link.valid
    ensures Told(c, ParseUpgrade(c, o, d).link)
  {
    hide Emit, SizedGap, FindHeaderEnd, Told;
    GapTold(c, o.link, d, "header_too_large", None);
    var b := Side(o, d).buffer;
    if FindHeaderEnd(b).HeaderEnd? {
      var v := c.upgrade(d, b[..FindHeaderEnd(b).end], o.link.key);
      if v.Agreed? {
        KeyTold(c, o.link, v.key);
        EmitTold(c, if d.Client? then o.link.(key := v.key) else o.link, d, Upgraded(d));
      } else {
        GapTold(c, o.link, d, v.reason, None);
      }
    }
  }

  /** Every call keeps the records of messages what the messages say. */
  lemma ObserveTold(c: Config, o: Obs, d: Direction, data: Octets)
    requires Told(c, o.link) && Tabled(c, o.link)
    ensures Told(c, Observe(c, o, d, data).link)
  {
    hide ParseUpgrade, ParseFrames, SizedGap, Told, Tabled;
    if o.link.valid {
      GapTold(c, o.link, d, "input_buffer_too_large", None);
      var o1 := Push(o, d, data);
      NotOverflowed(c, o.link);
      UpgradeTold(c, o1, d);
      UpgradeTabled(c, o1, d);
      FramesTold(c, o1, d);
      FramesTold(c, ParseUpgrade(c, o1, d), d);
    }
  }

  lemma NotOverflowed(c: Config, l: Link)
    requires Tabled(c, l) && l.valid
    ensures !l.overflowed
  {
  }

  lemma {:induction false} CallsTold(c: Config, o: Obs, calls: seq<(Direction, Octets)>)
    requires Told(c, o.link) && Tabled(c, o.link)
    ensures Told(c, ObserveCalls(c, o, calls).link)
    decreases |calls|
  {
    hide Observe, Tabled, Told;
    if calls != [] {
      ObserveTold(c, o, calls[0].0, calls[0].1);
      ObserveTabled(c, o, calls[0].0, calls[0].1);
      CallsTold(c, Observe(c, o, calls[0].0, calls[0].1), calls[1..]);
    }
  }

  /** On every run from a new connection the records of messages are what the messages say, in order. */
  lemma RunTold(c: Config, calls: seq<(Direction, Octets)>)
    ensures Told(c, ObserveCalls(c, OPENED, calls).link)
  {
    assert TableOf(c, [], map[]);
    CallsTold(c, OPENED, calls);
  }

  // ---------------------------------------------------------------- what a response record rests on

  /** A message of this direction that is a successful response with this detail. */
  ghost predicate SuccessSent(c: Config, texts: Texts, d: Direction, id: Id, detail: string)
  {
    exists i :: 0 <= i < |texts| && texts[i].0 == d && c.rpc(d, texts[i].1) == Response(id, true, detail)
  }

  /** Every response recorded as a success was sent as one, with that id and detail. */
  ghost predicate Backed(c: Config, l: Link)
  {
    forall k :: 0 <= k < |l.events| && l.events[k].event.RpcResponse? && l.events[k].event.ok ==>
      SuccessSent(c, l.texts, l.events[k].event.direction, l.events[k].event.answers, l.events[k].event.detail)
  }

  lemma {:induction false} InRows(events: seq<Record>, k: nat) returns (i: nat)
    requires k < |events| && OfMessage(events[k].event)
    ensures i < |Rows(events)| && Rows(events)[i] == events[k].event
    decreases |events|
  {
    if k == |events| - 1 {
      i := |Rows(events)| - 1;
    } else {
      i := InRows(events[..|events| - 1], k);
    }
  }

  lemma ToldBacked(c: Config, l: Link)
    requires Told(c, l)
    ensures Backed(c, l)
  {
    hide Rows, OpenAt, LatestAsks, ObsMarks;
    forall k | 0 <= k < |l.events| && l.events[k].event.RpcResponse? && l.events[k].event.ok
      ensures SuccessSent(c, l.texts, l.events[k].event.direction, l.events[k].event.answers,
                          l.events[k].event.detail) {
      var i := InRows(l.events, k);
      assert Says(c, l.texts, i, l.events[k].event);
    }
  }
}
