/**
  Which call a record comes from: a call of one direction adds records of that direction
  only, and an upgrade is on record exactly if the parser of its direction has it.
 */
module ObserverOrigin {
  import opened Bytes
  import opened Options
  import opened GateSpec
  import opened ObserverSpec
  import opened ObserverTheorems
  import opened ObserverEvidence
  import opened IdConservation

  /** What `m` has on record beyond `l` is of direction `d`, and an upgrade only if `upgrade`. */
  ghost predicate Own(l: Link, m: Link, d: Direction, upgrade: bool)
  {
    && l.events <= m.events
    && forall k :: |l.events| <= k < |m.events| ==>
         m.events[k].event.direction == d && (m.events[k].event.Upgraded? ==> upgrade)
  }

  lemma OwnTwice(l: Link, m: Link, n: Link, d: Direction, upgrade: bool, more: bool)
    requires Own(l, m, d, upgrade) && Own(m, n, d, more)
    ensures Own(l, n, d, upgrade || more)
  {
  }

  /** The records of the link alone matter. */
  lemma OwnSame(l: Link, l': Link, m: Link, d: Direction, upgrade: bool)
    requires l.events == l'.events && Own(l', m, d, upgrade)
    ensures Own(l, m, d, upgrade)
  {
  }

  lemma EmitOwn(c: Config, l: Link, d: Direction, e: Event)
    requires e.direction == d
    ensures Own(l, Emit(c, l, d, e), d, e.Upgraded?)
  {
  }

  lemma GapOwn(c: Config, l: Link, d: Direction, reason: string, size: Option<(nat, nat)>)
    ensures Own(l, SizedGap(c, l, d, reason, size), d, false)
  {
    hide Own, Emit;
    EmitOwn(c, Invalidate(l), d, Gap(d, reason, size));
    OwnItself(l, d);
    OwnSame(l, Invalidate(l), Emit(c, Invalidate(l), d, Gap(d, reason, size)), d, false);
  }

  lemma OwnItself(l: Link, d: Direction)
    ensures Own(l, l, d, false)
  {
  }

  lemma RequestOwn(c: Config, l: Link, d: Direction, name: string, id: Option<Id>, detail: string)
    ensures Own(l, ProcessRequest(c, l, d, name, id, detail), d, false)
  {
    hide Own, Emit, SizedGap;
    GapOwn(c, l, d, "pending_requests_too_many", None);
    GapOwn(c, l, d, "duplicate_request_id", None);
    var l' := if id.Some? then l.(pending := l.pending[(d, id.value) := name]) else l;
    var e := if name in KNOWN_METHODS then RpcEvent(d, id, name, detail)
      else RpcUnknown(d, id, Some(name), false, detail);
    EmitOwn(c, l', d, e);
    OwnSame(l, l', Emit(c, l', d, e), d, false);
  }

  lemma ResponseOwn(c: Config, l: Link, d: Direction, id: Id, ok: bool, detail: string)
    ensures Own(l, ProcessResponse(c, l, d, id, ok, detail), d, false)
  {
    hide Own, Emit;
    var asked := (Opposite(d), id);
    if asked !in l.pending {
      EmitOwn(c, l, d, RpcUnknown(d, Some(id), None, true, ""));
    } else {
      var name, l' := l.pending[asked], l.(pending := l.pending - {asked});
      var e := if name in KNOWN_METHODS then RpcResponse(d, id, name, ok, if ok then detail else "")
               else RpcUnknown(d, Some(id), Some(name), true, "");
      EmitOwn(c, l', d, e);
      OwnSame(l, l', Emit(c, l', d, e), d, false);
    }
  }

  lemma TextOwn(c: Config, l: Link, d: Direction, payload: Octets)
    ensures Own(l, ProcessText(c, l, d, payload), d, false)
  {
    hide Own, SizedGap, ProcessRequest, ProcessResponse;
    var l' := l.(texts := l.texts + [(d, payload)]);
    match c.rpc(d, payload) {
      case BadRpc(reason) => GapOwn(c, l', d, reason, None);
      case Request(name, id, detail) => RequestOwn(c, l', d, name, id, detail);
      case Response(id, ok, detail) => ResponseOwn(c, l', d, id, ok, detail);
    }
    OwnSame(l, l', ProcessText(c, l, d, payload), d, false);
  }

  lemma FrameOwn(c: Config, l: Link, p: Parser, d: Direction, fin: bool, opcode: nat, payload: Octets)
    ensures Own(l, ProcessFrame(c, l, p, d, fin, opcode, payload).0, d, false)
  {
    hide Own, Emit, SizedGap, ProcessText, ProcessFrame;
    var text, reason, size := FrameLink(c, l, p, d, fin, opcode, payload);
    OwnItself(l, d);
    EmitOwn(c, l, d, Control(d, opcode));
    TextOwn(c, l, d, text);
    GapOwn(c, l, d, reason, size);
  }

  lemma StepOwn(c: Config, o: Obs, d: Direction)
    requires o.link.valid && FrameStep(c, o, d).Next?
    ensures var o' := FrameStep(c, o, d).obs;
            Own(o.link, o'.link, d, false) && forall e: Direction :: Side(o', e).upgraded == Side(o, e).upgraded
  {
    hide Own, ReadFrameHead, FramePayload, ProcessFrame, SizedGap;
    var p := Side(o, d);
    var h := ReadFrameHead(c, d, p.buffer);
    if h.Unacceptable? {
      GapOwn(c, o.link, d, h.reason, h.size);
    } else {
      FrameCut(c, d, p.buffer, []);
      var payload := FramePayload(d, p.buffer, h.offset, h.total);
      var q := p.(buffer := p.buffer[h.total..]);
      FrameOwn(c, o.link, q, d, h.fin, h.opcode, payload);
      FrameUpgrade(c, o.link, q, d, h.fin, h.opcode, payload);
    }
  }

  lemma {:induction false} FramesOwn(c: Config, o: Obs, d: Direction)
    ensures var o' := ParseFrames(c, o, d);
            Own(o.link, o'.link, d, false) && forall e: Direction :: Side(o', e).upgraded == Side(o, e).upgraded
    decreases |Side(o, d).buffer|
  {
    hide FrameStep, Own;
    if o.link.valid && FrameStep(c, o, d).Next? {
      var next := FrameStep(c, o, d).obs;
      StepOwn(c, o, d);
      ParseStep(c, o, d);
      FramesOwn(c, next, d);
      OwnTwice(o.link, next.link, ParseFrames(c, next, d).link, d, false, false);
    } else {
      OwnItself(o.link, d);
    }
  }

  /** An upgrade is recorded of this direction, and only where its parser then has it. */
  lemma UpgradeOwn(c: Config, o: Obs, d: Direction)
    requires o.link.valid && !Side(o, d).upgraded
    ensures var o' := ParseUpgrade(c, o, d);
            && Own(o.link, o'.link, d, Side(o', d).upgraded)
            && Side(o', Opposite(d)).upgraded == Side(o, Opposite(d)).upgraded
  {
    hide Own, Emit, SizedGap, FindHeaderEnd;
    OwnItself(o.link, d);
    var b := Side(o, d).buffer;
    var found := FindHeaderEnd(b);
    GapOwn(c, o.link, d, "header_too_large", None);
    if found.HeaderEnd? && found.end <= c.maxHeader {
      var v := c.upgrade(d, b[..found.end], o.link.key);
      if v.Declined? {
        GapOwn(c, o.link, d, v.reason, None);
      } else {
        var l := if d.Client? then o.link.(key := v.key) else o.link;
        EmitOwn(c, l, d, Upgraded(d));
        OwnSame(o.link, l, Emit(c, l, d, Upgraded(d)), d, true);
      }
    }
  }

  /** What a call adds, and that it leaves the other direction's upgrade alone. */
  lemma ObserveOwn(c: Config, o: Obs, d: Direction, data: Octets)
    ensures var o' := Observe(c, o, d, data);
            && Own(o.link, o'.link, d, Side(o', d).upgraded)
            && Side(o', Opposite(d)).upgraded == Side(o, Opposite(d)).upgraded
            && (Side(o, d).upgraded ==> Side(o', d).upgraded)
  {
    hide Own, ParseUpgrade, ParseFrames, SizedGap;
    OwnItself(o.link, d);
    if o.link.valid {
      GapOwn(c, o.link, d, "input_buffer_too_large", None);
      OwnMore(o.link, RaiseGap(c, o.link, d, "input_buffer_too_large"), d);
      var o1 := Push(o, d, data);
      if Side(o1, d).upgraded {
        FramesOwn(c, o1, d);
        OwnMore(o.link, ParseFrames(c, o1, d).link, d);
      } else {
        var o2 := ParseUpgrade(c, o1, d);
        UpgradeOwn(c, o1, d);
        FramesOwn(c, o2, d);
        OwnTwice(o.link, o2.link, ParseFrames(c, o2, d).link, d, Side(o2, d).upgraded, false);
      }
    } else {
      OwnMore(o.link, o.link, d);
    }
  }

  lemma OwnMore(l: Link, m: Link, d: Direction)
    requires Own(l, m, d, false)
    ensures Own(l, m, d, true)
  {
  }

  /** An upgrade on record is one the parser has. */
  ghost predicate Recorded(o: Obs)
  {
    forall d: Direction :: UpgradedBefore(o.link.events, d, |o.link.events|) ==> Side(o, d).upgraded
  }

  lemma ObserveRecorded(c: Config, o: Obs, d: Direction, data: Octets)
    requires Recorded(o)
    ensures Recorded(Observe(c, o, d, data))
  {
    hide Observe;
    var o' := Observe(c, o, d, data);
    ObserveOwn(c, o, d, data);
    forall e: Direction | UpgradedBefore(o'.link.events, e, |o'.link.events|) ensures Side(o', e).upgraded {
      var k :| 0 <= k < |o'.link.events| && o'.link.events[k].event == Upgraded(e);
      if k < |o.link.events| {
        assert o.link.events[k] == o'.link.events[k];
        assert UpgradedBefore(o.link.events, e, |o.link.events|);
      }
    }
  }

  /** After any calls on a new connection records are founded, and upgrades on record are in the parsers. */
  lemma {:induction false} CallsRecorded(c: Config, o: Obs, calls: seq<(Direction, Octets)>)
    requires Evident(o) && Recorded(o)
    ensures var o' := ObserveCalls(c, o, calls); Evident(o') && Recorded(o') && o.link.events <= o'.link.events
    decreases |calls|
  {
    hide Observe, Evident, Recorded;
    if calls != [] {
      var next := Observe(c, o, calls[0].0, calls[0].1);
      ObserveEvident(c, o, calls[0].0, calls[0].1);
      ObserveRecorded(c, o, calls[0].0, calls[0].1);
      EventsGrow(c, o, calls[0].0, calls[0].1);
      CallsRecorded(c, next, calls[1..]);
    }
  }

  lemma OpenedRecorded()
    ensures Evident(OPENED) && Recorded(OPENED)
  {
  }

  /** One call more. */
  lemma {:induction false} CallsSnoc(c: Config, o: Obs, calls: seq<(Direction, Octets)>, i: nat)
    requires i < |calls|
    ensures ObserveCalls(c, o, calls[..i + 1]) == Observe(c, ObserveCalls(c, o, calls[..i]), calls[i].0, calls[i].1)
    decreases i
  {
    hide Observe;
    var next := Observe(c, o, calls[0].0, calls[0].1);
    if i == 0 {
      assert calls[..1][1..] == [] && calls[..0] == [];
    } else {
      assert calls[..i + 1][1..] == calls[1..][..i] && calls[..i][1..] == calls[1..][..i - 1];
      CallsSnoc(c, next, calls[1..], i - 1);
    }
  }

  /** The state of a run before its call `i`. */
  function Reached(c: Config, calls: seq<(Direction, Octets)>, i: nat): Obs
    requires i <= |calls|
  {
    ObserveCalls(c, OPENED, calls[..i])
  }

  /** Record `k` of a run is added by its call `i`. */
  predicate Brings(c: Config, calls: seq<(Direction, Octets)>, i: nat, k: nat)
    requires i < |calls|
  {
    |Reached(c, calls, i).link.events| <= k < |Reached(c, calls, i + 1).link.events|
  }

  /** Every record of a run is brought by one of its calls, and stays as that call has made it. */
  lemma {:induction false} RecordBrought(c: Config, calls: seq<(Direction, Octets)>, n: nat, k: nat) returns (i: nat)
    requires n <= |calls| && k < |Reached(c, calls, n).link.events|
    ensures i < n && Brings(c, calls, i, k)
    ensures Reached(c, calls, i + 1).link.events <= Reached(c, calls, n).link.events
  {
    hide Observe, ObserveCalls;
    if n == 0 {
      NothingReached(c, calls);
      assert false;
    } else if k < |Reached(c, calls, n - 1).link.events| {
      i := RecordBrought(c, calls, n - 1, k);
      CallsSnoc(c, OPENED, calls, n - 1);
      EventsGrow(c, Reached(c, calls, n - 1), calls[n - 1].0, calls[n - 1].1);
    } else {
      i := n - 1;
    }
  }

  lemma NothingReached(c: Config, calls: seq<(Direction, Octets)>)
    ensures Reached(c, calls, 0) == OPENED
  {
  }

  /**
    A client record of a run has both upgrades on record before it exactly if the server's
    parser had its upgrade when the call that brings the record was made.
   */
  lemma UpgradesBeforeIff(c: Config, calls: seq<(Direction, Octets)>, i: nat, k: nat)
    requires i < |calls| && Brings(c, calls, i, k)
    requires var e := Reached(c, calls, i + 1).link.events[k].event; e.RpcEvent? && e.direction.Client?
    ensures var o, events := Reached(c, calls, i), Reached(c, calls, i + 1).link.events;
            && calls[i].0.Client?
            && (UpgradedBefore(events, Client, k) && UpgradedBefore(events, Server, k) <==> o.server.upgraded)
  {
    hide Observe, ObserveCalls;
    var o, o', d, data := Reached(c, calls, i), Reached(c, calls, i + 1), calls[i].0, calls[i].1;
    var events := o'.link.events;
    CallsSnoc(c, OPENED, calls, i);
    OpenedRecorded();
    CallsRecorded(c, OPENED, calls[..i]);
    ObserveOwn(c, o, d, data);
    ObserveEvident(c, o, d, data);
    assert Founded(events, events[k].event, k);
    if o.server.upgraded {
      DeadAddsNothing(c, o, d, data);
      var j :| 0 <= j < |o.link.events| && o.link.events[j].event == Upgraded(Server);
      assert events[j] == o.link.events[j];
    }
    if UpgradedBefore(events, Server, k) {
      var j :| 0 <= j < k && events[j].event == Upgraded(Server);
      assert j < |o.link.events| && o.link.events[j] == events[j];
      assert UpgradedBefore(o.link.events, Server, |o.link.events|);
      assert Side(o, Server).upgraded;
    }
  }

  lemma DeadAddsNothing(c: Config, o: Obs, d: Direction, data: Octets)
    requires |o.link.events| < |Observe(c, o, d, data).link.events|
    ensures o.link.valid
  {
    hide Parse;
  }
}
