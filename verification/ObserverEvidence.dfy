/**
  What the observer's records prove of each other: nothing is recorded of a direction
  before its upgrade, and a response only after the request it names.
 */
module ObserverEvidence {
  import opened Bytes
  import opened Options
  import opened GateSpec
  import opened ObserverSpec
  import opened ObserverTheorems
  import opened IdConservation

  type Records = seq<Record>

  ghost predicate UpgradedBefore(events: Records, d: Direction, n: nat)
    requires n <= |events|
  {
    exists j :: 0 <= j < n && events[j].event == Upgraded(d)
  }

  predicate IsRequest(e: Event, d: Direction, id: Id, name: string)
  {
    e.RpcEvent? && e.direction == d && e.id == Some(id) && e.name == name
  }

  ghost predicate RequestedBefore(events: Records, d: Direction, id: Id, name: string, n: nat)
    requires n <= |events|
  {
    exists j :: 0 <= j < n && IsRequest(events[j].event, d, id, name)
  }

  /** What a record presupposes of the ones before it. */
  ghost predicate Founded(events: Records, e: Event, n: nat)
    requires n <= |events|
  {
    match e
    case Gap(_, _, _) => true
    case Upgraded(_) => true
    case Control(d, _) => UpgradedBefore(events, d, n)
    case RpcEvent(d, _, _, _) => UpgradedBefore(events, d, n)
    case RpcUnknown(d, _, _, _, _) => UpgradedBefore(events, d, n)
    case RpcResponse(d, id, name, _, _) =>
      UpgradedBefore(events, d, n) && RequestedBefore(events, Opposite(d), id, name, n)
  }

  ghost predicate AllFounded(events: Records)
  {
    forall k :: 0 <= k < |events| ==> Founded(events, events[k].event, k)
  }

  lemma FoundedExtends(events: Records, more: Records, e: Event, n: nat)
    requires n <= |events| && Founded(events, e, n)
    ensures Founded(events + more, e, n)
  {
    assert forall j :: 0 <= j < n ==> (events + more)[j] == events[j];
  }

  lemma Appended(events: Records, r: Record)
    requires AllFounded(events) && Founded(events, r.event, |events|)
    ensures AllFounded(events + [r])
  {
    hide Founded;
    var all := events + [r];
    forall k | 0 <= k < |all| ensures Founded(all, all[k].event, k) {
      if k < |events| {
        assert Founded(events, events[k].event, k);
      }
      FoundedExtends(events, [r], all[k].event, k);
    }
  }

  /** Open requests of known methods have their record. */
  ghost predicate PendingRecorded(l: Link)
  {
    forall k :: k in l.pending && l.pending[k] in KNOWN_METHODS ==>
      RequestedBefore(l.events, k.0, k.1, l.pending[k], |l.events|)
  }

  ghost predicate LinkFounded(l: Link)
  {
    AllFounded(l.events) && (l.valid ==> !l.overflowed && PendingRecorded(l))
  }

  lemma PendingExtends(l: Link, m: Link)
    requires PendingRecorded(l) && l.events <= m.events
             && (forall k :: k in m.pending ==> k in l.pending && m.pending[k] == l.pending[k])
    ensures PendingRecorded(m)
  {
    forall k | k in m.pending && m.pending[k] in KNOWN_METHODS
      ensures RequestedBefore(m.events, k.0, k.1, m.pending[k], |m.events|) {
      var j :| 0 <= j < |l.events| && IsRequest(l.events[j].event, k.0, k.1, l.pending[k]);
      assert m.events[j] == l.events[j];
    }
  }

  /** A founded record is appended, or the overflow gap is. */
  lemma EmitFounded(c: Config, l: Link, d: Direction, e: Event)
    requires AllFounded(l.events) && Founded(l.events, e, |l.events|)
    ensures AllFounded(Emit(c, l, d, e).events) && l.events <= Emit(c, l, d, e).events
  {
    hide Founded, AllFounded;
    var r := Emit(c, l, d, e);
    if r.events != l.events {
      var last := r.events[|l.events|];
      assert r.events == l.events + [last];
      assert Founded(l.events, last.event, |l.events|) by {
        GapFounded(l.events, d, "event_queue_overflow", None);
      }
      Appended(l.events, last);
    }
  }

  lemma GapFounded(events: Records, d: Direction, reason: string, size: Option<(nat, nat)>)
    ensures Founded(events, Gap(d, reason, size), |events|)
  {
  }

  lemma EmitKeeps(c: Config, l: Link, d: Direction, e: Event)
    requires LinkFounded(l) && Founded(l.events, e, |l.events|)
    ensures LinkFounded(Emit(c, l, d, e)) && l.events <= Emit(c, l, d, e).events
  {
    EmitFounded(c, l, d, e);
    if Emit(c, l, d, e).valid && l.valid {
      hide AllFounded, Founded;
      PendingExtends(l, Emit(c, l, d, e));
    }
  }

  lemma SizedGapFounded(c: Config, l: Link, d: Direction, reason: string, size: Option<(nat, nat)>)
    requires AllFounded(l.events) && (l.valid ==> !l.overflowed)
    ensures LinkFounded(SizedGap(c, l, d, reason, size)) && l.events <= SizedGap(c, l, d, reason, size).events
  {
    hide Founded, AllFounded;
    GapFounded(l.events, d, reason, size);
    EmitFounded(c, Invalidate(l), d, Gap(d, reason, size));
  }

  lemma RequestFounded(c: Config, l: Link, d: Direction, name: string, id: Option<Id>, detail: string)
    requires LinkFounded(l) && l.valid && UpgradedBefore(l.events, d, |l.events|)
    ensures var r := ProcessRequest(c, l, d, name, id, detail); LinkFounded(r) && l.events <= r.events
  {
    hide AllFounded;
    SizedGapFounded(c, l, d, "pending_requests_too_many", None);
    SizedGapFounded(c, l, d, "duplicate_request_id", None);
    var l' := if id.Some? then l.(pending := l.pending[(d, id.value) := name]) else l;
    var e := if name in KNOWN_METHODS then RpcEvent(d, id, name, detail)
      else RpcUnknown(d, id, Some(name), false, detail);
    EmitFounded(c, l', d, e);
    var r := Emit(c, l', d, e);
    if r.valid {
      assert r.events == l.events + [Record(l.nextSeq, e)];
      assert l'.pending.Keys <= l.pending.Keys + if id.Some? then {(d, id.value)} else {};
      RequestRecorded(l, r, d, name, id, e);
    }
  }

  lemma RequestRecorded(l: Link, r: Link, d: Direction, name: string, id: Option<Id>, e: Event)
    requires PendingRecorded(l) && l.events <= r.events && |r.events| == |l.events| + 1
             && r.events[|l.events|].event == e
    requires name in KNOWN_METHODS ==> e.RpcEvent? && e.direction == d && e.id == id && e.name == name
    requires forall k :: k in r.pending ==>
               (id.Some? && k == (d, id.value) && r.pending[k] == name)
                 || (k in l.pending && r.pending[k] == l.pending[k])
    ensures PendingRecorded(r)
  {
    forall k | k in r.pending && r.pending[k] in KNOWN_METHODS
      ensures RequestedBefore(r.events, k.0, k.1, r.pending[k], |r.events|) {
      if id.Some? && k == (d, id.value) && r.pending[k] == name {
        assert IsRequest(r.events[|l.events|].event, k.0, k.1, name);
      } else {
        var j :| 0 <= j < |l.events| && IsRequest(l.events[j].event, k.0, k.1, l.pending[k]);
        assert r.events[j] == l.events[j];
      }
    }
  }

  lemma ResponseFounded(c: Config, l: Link, d: Direction, id: Id, ok: bool, detail: string)
    requires LinkFounded(l) && l.valid && UpgradedBefore(l.events, d, |l.events|)
    ensures var r := ProcessResponse(c, l, d, id, ok, detail); LinkFounded(r) && l.events <= r.events
  {
    hide AllFounded, Emit;
    var asked := (Opposite(d), id);
    if asked !in l.pending {
      EmitKeeps(c, l, d, RpcUnknown(d, Some(id), None, true, ""));
    } else {
      var name, l' := l.pending[asked], l.(pending := l.pending - {asked});
      PendingExtends(l, l');
      EmitKeeps(c, l', d, RpcUnknown(d, Some(id), Some(name), true, ""));
      if name in KNOWN_METHODS {
        assert RequestedBefore(l.events, Opposite(d), id, name, |l.events|);
        EmitKeeps(c, l', d, RpcResponse(d, id, name, ok, if ok then detail else ""));
      }
    }
  }

  lemma TextFounded(c: Config, l: Link, d: Direction, payload: Octets)
    requires LinkFounded(l) && l.valid && UpgradedBefore(l.events, d, |l.events|)
    ensures var r := ProcessText(c, l, d, payload); LinkFounded(r) && l.events <= r.events
  {
    hide ProcessRequest, ProcessResponse, SizedGap, AllFounded, UpgradedBefore;
    var l' := l.(texts := l.texts + [(d, payload)]);
    PendingExtends(l, l');
    hide PendingRecorded;
    match c.rpc(d, payload)
    case BadRpc(reason) => SizedGapFounded(c, l', d, reason, None);
    case Request(name, id, detail) => RequestFounded(c, l', d, name, id, detail);
    case Response(id, ok, detail) => ResponseFounded(c, l', d, id, ok, detail);
  }

  lemma FrameFounded(c: Config, l: Link, p: Parser, d: Direction, fin: bool, opcode: nat, payload: Octets)
    requires LinkFounded(l) && l.valid && UpgradedBefore(l.events, d, |l.events|)
    ensures var r := ProcessFrame(c, l, p, d, fin, opcode, payload).0; LinkFounded(r) && l.events <= r.events
  {
    hide Emit, SizedGap, ProcessText, ProcessFrame, UpgradedBefore, AllFounded, PendingRecorded;
    var text, reason, size := FrameLink(c, l, p, d, fin, opcode, payload);
    EmitKeeps(c, l, d, Control(d, opcode));
    TextFounded(c, l, d, text);
    SizedGapFounded(c, l, d, reason, size);
  }

  // ---------------------------------------------------------------- connections

  ghost predicate Evident(o: Obs)
  {
    && LinkFounded(o.link)
    && (o.link.valid ==> forall d: Direction :: Side(o, d).upgraded ==>
        UpgradedBefore(o.link.events, d, |o.link.events|))
  }

  lemma UpgradeExtends(l: Link, m: Link, d: Direction)
    requires UpgradedBefore(l.events, d, |l.events|) && l.events <= m.events
    ensures UpgradedBefore(m.events, d, |m.events|)
  {
    var j :| 0 <= j < |l.events| && l.events[j].event == Upgraded(d);
    assert m.events[j] == l.events[j];
  }

  lemma ConcludeEvident(o: Obs, n: Obs, l: Link)
    requires Evident(o) && o.link.valid && LinkFounded(l) && o.link.events <= l.events
    requires forall d: Direction :: Side(n, d).upgraded ==>
               Side(o, d).upgraded || UpgradedBefore(l.events, d, |l.events|)
    ensures Evident(Conclude(n, l))
  {
    hide LinkFounded, UpgradedBefore;
    forall d: Direction | Side(n, d).upgraded ensures UpgradedBefore(l.events, d, |l.events|) {
      if Side(o, d).upgraded {
        UpgradeExtends(o.link, l, d);
      }
    }
  }

  lemma StepEvident(c: Config, o: Obs, d: Direction)
    requires Evident(o) && o.link.valid && Side(o, d).upgraded && FrameStep(c, o, d).Next?
    ensures Evident(FrameStep(c, o, d).obs)
    ensures FrameStep(c, o, d).obs.link.valid ==> Side(FrameStep(c, o, d).obs, d).upgraded
  {
    var p := Side(o, d);
    var h := ReadFrameHead(c, d, p.buffer);
    assert LinkFounded(o.link) && UpgradedBefore(o.link.events, d, |o.link.events|);
    hide ReadFrameHead, FramePayload, SizedGap, AllFounded, UpgradedBefore, PendingRecorded, Evident;
    if h.Unacceptable? {
      SizedGapFounded(c, o.link, d, h.reason, h.size);
      ConcludeEvident(o, o, SizedGap(c, o.link, d, h.reason, h.size));
    } else {
      FrameCut(c, d, p.buffer, []);
      var payload := FramePayload(d, p.buffer, h.offset, h.total);
      var q := p.(buffer := p.buffer[h.total..]);
      FrameFounded(c, o.link, q, d, h.fin, h.opcode, payload);
      var r := ProcessFrame(c, o.link, q, d, h.fin, h.opcode, payload);
      assert r.1.upgraded == p.upgraded by { FrameUpgrade(c, o.link, q, d, h.fin, h.opcode, payload); }
      hide ProcessFrame;
      ConcludeEvident(o, WithSide(o, d, r.1), r.0);
    }
  }

  lemma FrameUpgrade(c: Config, l: Link, p: Parser, d: Direction, fin: bool, opcode: nat, payload: Octets)
    ensures ProcessFrame(c, l, p, d, fin, opcode, payload).1.upgraded == p.upgraded
  {
    hide ProcessText, Emit, SizedGap;
  }

  lemma {:induction false} FramesEvident(c: Config, o: Obs, d: Direction)
    requires Evident(o) && (o.link.valid ==> Side(o, d).upgraded)
    ensures Evident(ParseFrames(c, o, d))
    decreases |Side(o, d).buffer|
  {
    hide FrameStep, Evident;
    if o.link.valid && FrameStep(c, o, d).Next? {
      StepEvident(c, o, d);
      ParseStep(c, o, d);
      FramesEvident(c, FrameStep(c, o, d).obs, d);
    }
  }

  lemma UpgradeEvident(c: Config, o: Obs, d: Direction)
    requires Evident(o) && o.link.valid
    ensures Evident(ParseUpgrade(c, o, d))
  {
    var b := Side(o, d).buffer;
    var found := FindHeaderEnd(b);
    hide FindHeaderEnd, Evident;
    assert LinkFounded(o.link) by { EvidentLink(o); }
    hide LinkFounded;
    UpgradeGap(c, o, o, d, "header_too_large");
    if found.HeaderEnd? && found.end <= c.maxHeader {
      CutEvident(c, o, d, b[..found.end], b[found.end..]);
    }
  }

  lemma EvidentLink(o: Obs)
    requires Evident(o)
    ensures LinkFounded(o.link)
  {
  }

  lemma UpgradeGap(c: Config, o: Obs, n: Obs, d: Direction, reason: string)
    requires Evident(o) && o.link.valid && forall e: Direction :: Side(n, e).upgraded == Side(o, e).upgraded
    ensures Evident(Conclude(n, RaiseGap(c, o.link, d, reason)))
  {
    hide SizedGap, AllFounded, PendingRecorded;
    SizedGapFounded(c, o.link, d, reason, None);
    hide Evident;
    ConcludeEvident(o, n, RaiseGap(c, o.link, d, reason));
  }

  lemma CutEvident(c: Config, o: Obs, d: Direction, header: Octets, behind: Octets)
    requires Evident(o) && o.link.valid
    ensures Evident(UpgradeCut(c, o, d, header, behind))
  {
    EvidentLink(o);
    hide Evident;
    var p := Side(o, d).(buffer := behind);
    var v := c.upgrade(d, header, o.link.key);
    if v.Declined? {
      UpgradeGap(c, o, WithSide(o, d, p), d, v.reason);
    } else {
      var l := if d.Client? then o.link.(key := v.key) else o.link;
      PendingExtends(o.link, l);
      EmitKeeps(c, l, d, Upgraded(d));
      var m := Emit(c, l, d, Upgraded(d));
      if m.valid {
        assert m.events[|l.events|].event == Upgraded(d);
        assert UpgradedBefore(m.events, d, |m.events|);
        ConcludeEvident(o, WithSide(o, d, p.(upgraded := true)), m);
      } else {
        InvalidEvident(WithSide(o, d, p.(upgraded := true)), m);
      }
    }
  }

  lemma InvalidEvident(o: Obs, l: Link)
    requires LinkFounded(l) && !l.valid
    ensures Evident(Conclude(o, l))
  {
  }

  /** Every call keeps the records founded, whatever octets it is given. */
  lemma ObserveEvident(c: Config, o: Obs, d: Direction, data: Octets)
    requires Evident(o)
    ensures Evident(Observe(c, o, d, data))
  {
    if o.link.valid {
      if |Side(o, d).buffer| + |data| > BufferLimit(c) {
        UpgradeGap(c, o, o, d, "input_buffer_too_large");
      } else {
        var o1 := Push(o, d, data);
        assert Evident(o1);
        hide ParseUpgrade, ParseFrames, Evident;
        if !Side(o1, d).upgraded {
          UpgradeEvident(c, o1, d);
          var o2 := ParseUpgrade(c, o1, d);
          if o2.link.valid && Side(o2, d).upgraded {
            FramesEvident(c, o2, d);
          }
        } else {
          FramesEvident(c, o1, d);
        }
      }
    }
  }
}
