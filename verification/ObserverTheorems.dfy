/**
  The observer does not depend on how the relay cuts a direction's octets into blocks.
 */
module ObserverTheorems {
  import opened Bytes
  import opened Options
  import opened GateSpec
  import opened ObserverSpec

  // ---------------------------------------------------------------- one step, with more octets behind

  lemma FrameHeadStable(c: Config, d: Direction, b: Octets, more: Octets)
    requires !ReadFrameHead(c, d, b).Unready?
    ensures ReadFrameHead(c, d, b + more) == ReadFrameHead(c, d, b)
  {
    var code := b[1] % 128;
    var offset := if code < 126 then 2 else if code == 126 then 4 else 10;
    if |b| >= offset {
      assert (b + more)[2..offset] == b[2..offset];
    }
  }

  lemma FrameCut(c: Config, d: Direction, b: Octets, more: Octets)
    requires ReadFrameHead(c, d, b).Framed?
    ensures var h := ReadFrameHead(c, d, b);
            && 2 <= h.offset && h.offset + MaskSize(d) <= h.total
            && (h.total <= |b| ==>
                  && FramePayload(d, b + more, h.offset, h.total) == FramePayload(d, b, h.offset, h.total)
                  && (b + more)[h.total..] == b[h.total..] + more)
  {
    hide Unmask, BigEndian;
    var h := ReadFrameHead(c, d, b);
    if h.total <= |b| {
      var m := h.offset + MaskSize(d);
      assert (b + more)[m..h.total] == b[m..h.total] && (b + more)[h.offset..m] == b[h.offset..m];
    }
  }

  /** A gap always invalidates. */
  lemma GapInvalidates(c: Config, l: Link, d: Direction, reason: string, size: Option<(nat, nat)>)
    ensures !SizedGap(c, l, d, reason, size).valid
  {
  }

  lemma ConcludePush(o: Obs, d: Direction, l: Link, more: Octets)
    requires o.link.valid
    ensures Conclude(Push(o, d, more), l) == Push(Conclude(o, l), d, more)
  {
  }

  /** A step taken with more octets in the buffer is the same step, with those octets behind it. */
  lemma StepPush(c: Config, o: Obs, d: Direction, more: Octets)
    requires o.link.valid && FrameStep(c, o, d).Next?
    ensures FrameStep(c, Push(o, d, more), d) == Next(Push(FrameStep(c, o, d).obs, d, more))
  {
    var p := Side(o, d);
    var h := ReadFrameHead(c, d, p.buffer);
    FrameHeadStable(c, d, p.buffer, more);
    if h.Unacceptable? {
      hide ReadFrameHead, SizedGap;
      ConcludePush(o, d, SizedGap(c, o.link, d, h.reason, h.size), more);
    } else {
      FrameCut(c, d, p.buffer, more);
      hide ReadFrameHead, FramePayload, ProcessText, SizedGap, Emit;
      var payload := FramePayload(d, p.buffer, h.offset, h.total);
      var cut := p.(buffer := p.buffer[h.total..]);
      var (l, p') := ProcessFrame(c, o.link, cut, d, h.fin, h.opcode, payload);
      FrameBufferKept(c, o.link, cut, d, h.fin, h.opcode, payload, more);
      hide ProcessFrame;
      ConcludePush(WithSide(o, d, p'), d, l, more);
    }
  }

  /** Processing a frame neither reads nor writes the buffer. */
  lemma FrameBufferKept(c: Config, l: Link, p: Parser, d: Direction, fin: bool, opcode: nat, payload: Octets,
                        more: Octets)
    ensures var (l', p') := ProcessFrame(c, l, p, d, fin, opcode, payload);
            ProcessFrame(c, l, p.(buffer := p.buffer + more), d, fin, opcode, payload)
              == (l', p'.(buffer := p.buffer + more)) && p'.buffer == p.buffer
  {
    hide ProcessText, SizedGap, Emit;
  }

  // ---------------------------------------------------------------- the loop and the handshake

  lemma ParseStep(c: Config, o: Obs, d: Direction)
    requires o.link.valid && FrameStep(c, o, d).Next?
    ensures ParseFrames(c, o, d) == ParseFrames(c, FrameStep(c, o, d).obs, d)
    ensures |Side(FrameStep(c, o, d).obs, d).buffer| < |Side(o, d).buffer|
  {
    StepShrinks(c, o, d);
  }

  /** Parsing what is there and then the rest is parsing everything. */
  lemma {:induction false} ParseFramesPush(c: Config, o: Obs, d: Direction, more: Octets)
    ensures ParseFrames(c, Push(ParseFrames(c, o, d), d, more), d) == ParseFrames(c, Push(o, d, more), d)
    ensures |Side(ParseFrames(c, o, d), d).buffer| <= |Side(o, d).buffer|
    ensures Side(ParseFrames(c, o, d), d).upgraded == Side(o, d).upgraded
    decreases |Side(o, d).buffer|
  {
    hide FrameStep;
    if o.link.valid && FrameStep(c, o, d).Next? {
      var o' := FrameStep(c, o, d).obs;
      StepPush(c, o, d, more);
      ParseStep(c, o, d);
      StepUpgraded(c, o, d);
      ParseFramesPush(c, o', d, more);
      ParseStep(c, Push(o, d, more), d);
    }
  }

  lemma StepUpgraded(c: Config, o: Obs, d: Direction)
    requires o.link.valid && FrameStep(c, o, d).Next?
    ensures Side(FrameStep(c, o, d).obs, d).upgraded == Side(o, d).upgraded
  {
    hide ReadFrameHead, FramePayload, ProcessText, SizedGap, Emit;
  }

  lemma UpgradePush(c: Config, o: Obs, d: Direction, more: Octets)
    requires o.link.valid && FindHeaderEnd(Side(o, d).buffer).HeaderEnd?
    ensures ParseUpgrade(c, Push(o, d, more), d) == Push(ParseUpgrade(c, o, d), d, more)
  {
    var b := Side(o, d).buffer;
    var end := FindHeaderEnd(b).end;
    HeaderEndStable(b, more);
    assert (b + more)[..end] == b[..end] && (b + more)[end..] == b[end..] + more;
    hide FindHeaderEnd, Emit, SizedGap, Conclude;
    if end > c.maxHeader {
      ConcludePush(o, d, RaiseGap(c, o.link, d, "header_too_large"), more);
    } else {
      UpgradeCutPush(c, o, d, b[..end], b[end..], more);
    }
  }

  lemma UpgradeCutPush(c: Config, o: Obs, d: Direction, header: Octets, behind: Octets, more: Octets)
    requires o.link.valid
    ensures UpgradeCut(c, Push(o, d, more), d, header, behind + more)
            == Push(UpgradeCut(c, o, d, header, behind), d, more)
  {
    var p := Side(o, d).(buffer := behind);
    hide Emit, SizedGap;
    match c.upgrade(d, header, o.link.key)
    case Declined(reason) =>
      ConcludePush(WithSide(o, d, p), d, RaiseGap(c, o.link, d, reason), more);
    case Agreed(key) =>
      var l := if d.Client? then o.link.(key := key) else o.link;
      ConcludePush(WithSide(o, d, p.(upgraded := true)), d, Emit(c, l, d, Upgraded(d)), more);
  }

  lemma UpgradeShrinks(c: Config, o: Obs, d: Direction)
    ensures var r := ParseUpgrade(c, o, d);
            && |Side(r, d).buffer| <= |Side(o, d).buffer|
            && (o.link.valid && r.link.valid && FindHeaderEnd(Side(o, d).buffer).HeaderEnd? ==> Side(r, d).upgraded)
  {
    hide FindHeaderEnd, Emit, SizedGap;
    GapInvalidates(c, o.link, d, "header_too_large", None);
    var b := Side(o, d).buffer;
    if FindHeaderEnd(b).HeaderEnd? {
      var v := c.upgrade(d, b[..FindHeaderEnd(b).end], o.link.key);
      if v.Declined? {
        GapInvalidates(c, o.link, d, v.reason, None);
      }
    }
  }

  lemma ParsePush(c: Config, o: Obs, d: Direction, more: Octets)
    requires o.link.valid
    ensures var r := Parse(c, o, d);
            Parse(c, Push(o, d, more), d) == if r.link.valid then Parse(c, Push(r, d, more), d) else r
    ensures |Side(Parse(c, o, d), d).buffer| <= |Side(o, d).buffer|
  {
    hide ParseUpgrade, FrameStep, Emit;
    if Side(o, d).upgraded {
      ParseFramesPush(c, o, d, more);
    } else if FindHeaderEnd(Side(o, d).buffer).HeaderEnd? {
      UpgradePush(c, o, d, more);
      UpgradeShrinks(c, o, d);
      ParseFramesPush(c, ParseUpgrade(c, o, d), d, more);
    } else {
      ParsePushHeaderless(c, o, d, more);
    }
  }

  lemma ParsePushHeaderless(c: Config, o: Obs, d: Direction, more: Octets)
    requires o.link.valid && !Side(o, d).upgraded && FindHeaderEnd(Side(o, d).buffer).NoHeaderEnd?
    ensures var r := Parse(c, o, d);
            Parse(c, Push(o, d, more), d) == if r.link.valid then Parse(c, Push(r, d, more), d) else r
    ensures |Side(Parse(c, o, d), d).buffer| <= |Side(o, d).buffer|
  {
    HeaderEndStable(Side(o, d).buffer, more);
    hide FindHeaderEnd, ParseFrames, Emit;
    GapInvalidates(c, o.link, d, "header_too_large", None);
  }

  // ---------------------------------------------------------------- chunk independence

  /**
    Two blocks against one: same connection state, same pending table, same records,
    including which gap is raised.
   */
  lemma ObserveSplit(c: Config, o: Obs, d: Direction, a: Octets, b: Octets)
    requires |Side(o, d).buffer| + |a| + |b| <= BufferLimit(c)
    ensures Observe(c, Observe(c, o, d, a), d, b) == Observe(c, o, d, a + b)
  {
    hide Parse;
    if o.link.valid {
      var oa := Push(o, d, a);
      assert Side(o, d).buffer + a + b == Side(o, d).buffer + (a + b);
      assert Push(oa, d, b) == Push(o, d, a + b);
      ParsePush(c, oa, d, b);
    }
  }

  lemma ObserveGrowth(c: Config, o: Obs, d: Direction, a: Octets)
    ensures |Side(Observe(c, o, d, a), d).buffer| <= |Side(o, d).buffer| + |a|
  {
    hide Parse, Emit;
    if o.link.valid {
      ParsePush(c, Push(o, d, a), d, []);
    }
  }

  /** Feeding any pieces of a block within the buffer limit is feeding the block. */
  lemma {:induction false} PiecesToBlock(c: Config, o: Obs, d: Direction, pieces: seq<Octets>)
    requires |Side(o, d).buffer| + |Flatten(pieces)| <= BufferLimit(c) && pieces != []
    ensures ObserveAll(c, o, d, pieces) == Observe(c, o, d, Flatten(pieces))
    decreases |pieces|
  {
    hide Observe;
    var first, rest := pieces[0], pieces[1..];
    var o' := Observe(c, o, d, first);
    if rest == [] {
      assert first + Flatten(rest) == first;
    } else {
      ObserveGrowth(c, o, d, first);
      PiecesToBlock(c, o', d, rest);
      ObserveSplit(c, o, d, first, Flatten(rest));
    }
  }

  // ---------------------------------------------------------------- the records

  /** Records and message history are only ever appended to. */
  predicate Grows(l: Link, l': Link)
  {
    l.events <= l'.events && l.texts <= l'.texts
  }

  lemma GrowsRecords(l: Link, l': Link)
    requires Grows(l, l')
    ensures |l.events| <= |l'.events| && l.events + l'.events[|l.events|..] == l'.events
  {
  }

  lemma EmitGrows(c: Config, l: Link, d: Direction, e: Event)
    ensures Grows(l, Emit(c, l, d, e)) && l.texts == Emit(c, l, d, e).texts
  {
  }

  lemma GapGrows(c: Config, l: Link, d: Direction, reason: string, size: Option<(nat, nat)>)
    ensures Grows(l, SizedGap(c, l, d, reason, size)) && l.texts == SizedGap(c, l, d, reason, size).texts
  {
  }

  lemma RequestGrows(c: Config, l: Link, d: Direction, name: string, id: Option<Id>, detail: string)
    ensures var r := ProcessRequest(c, l, d, name, id, detail); Grows(l, r) && r.texts == l.texts
  {
    hide Emit, SizedGap;
    GapGrows(c, l, d, "pending_requests_too_many", None);
    GapGrows(c, l, d, "duplicate_request_id", None);
    var l' := if id.Some? then l.(pending := l.pending[(d, id.value) := name]) else l;
    EmitGrows(c, l', d, RpcEvent(d, id, name, detail));
    EmitGrows(c, l', d, RpcUnknown(d, id, Some(name), false, detail));
  }

  lemma ResponseGrows(c: Config, l: Link, d: Direction, id: Id, ok: bool, detail: string)
    ensures var r := ProcessResponse(c, l, d, id, ok, detail); Grows(l, r) && r.texts == l.texts
  {
    hide Emit;
    var asked := (Opposite(d), id);
    if asked !in l.pending {
      EmitGrows(c, l, d, RpcUnknown(d, Some(id), None, true, ""));
    } else {
      var name, l' := l.pending[asked], l.(pending := l.pending - {asked});
      EmitGrows(c, l', d, RpcResponse(d, id, name, ok, if ok then detail else ""));
      EmitGrows(c, l', d, RpcUnknown(d, Some(id), Some(name), true, ""));
    }
  }

  lemma TextGrows(c: Config, l: Link, d: Direction, payload: Octets)
    ensures var r := ProcessText(c, l, d, payload);
            Grows(l, r) && r.texts == l.texts + [(d, payload)]
  {
    hide ProcessRequest, ProcessResponse, SizedGap;
    var l' := l.(texts := l.texts + [(d, payload)]);
    match c.rpc(d, payload)
    case BadRpc(reason) => GapGrows(c, l', d, reason, None);
    case Request(name, id, detail) => RequestGrows(c, l', d, name, id, detail);
    case Response(id, ok, detail) => ResponseGrows(c, l', d, id, ok, detail);
  }

  lemma GrowsItself(l: Link)
    ensures Grows(l, l)
  {
  }

  lemma FrameGrows(c: Config, l: Link, p: Parser, d: Direction, fin: bool, opcode: nat, payload: Octets)
    ensures Grows(l, ProcessFrame(c, l, p, d, fin, opcode, payload).0)
  {
    hide Emit, SizedGap, ProcessText, Grows;
    forall reason, size {
      GapGrows(c, l, d, reason, size);
    }
    GrowsItself(l);
    EmitGrows(c, l, d, Control(d, opcode));
    TextGrows(c, l, d, payload);
    TextGrows(c, l, d, p.payload + payload);
  }

  lemma StepGrows(c: Config, o: Obs, d: Direction)
    requires FrameStep(c, o, d).Next?
    ensures Grows(o.link, FrameStep(c, o, d).obs.link)
  {
    var p := Side(o, d);
    var h := ReadFrameHead(c, d, p.buffer);
    hide ReadFrameHead, FramePayload, ProcessFrame, SizedGap;
    if h.Unacceptable? {
      GapGrows(c, o.link, d, h.reason, h.size);
    } else {
      FrameCut(c, d, p.buffer, []);
      var payload := FramePayload(d, p.buffer, h.offset, h.total);
      FrameGrows(c, o.link, p.(buffer := p.buffer[h.total..]), d, h.fin, h.opcode, payload);
    }
  }

  lemma {:induction false} FramesGrow(c: Config, o: Obs, d: Direction)
    ensures Grows(o.link, ParseFrames(c, o, d).link)
    decreases |Side(o, d).buffer|
  {
    hide FrameStep;
    if o.link.valid && FrameStep(c, o, d).Next? {
      StepGrows(c, o, d);
      ParseStep(c, o, d);
      FramesGrow(c, FrameStep(c, o, d).obs, d);
    }
  }

  lemma UpgradeGrows(c: Config, o: Obs, d: Direction)
    ensures Grows(o.link, ParseUpgrade(c, o, d).link) && ParseUpgrade(c, o, d).link.texts == o.link.texts
  {
    hide Emit, SizedGap, FindHeaderEnd;
    forall reason {
      GapGrows(c, o.link, d, reason, None);
    }
    var b := Side(o, d).buffer;
    if FindHeaderEnd(b).HeaderEnd? {
      var v := c.upgrade(d, b[..FindHeaderEnd(b).end], o.link.key);
      if v.Agreed? {
        EmitGrows(c, if d.Client? then o.link.(key := v.key) else o.link, d, Upgraded(d));
      }
    }
  }

  lemma EventsGrow(c: Config, o: Obs, d: Direction, data: Octets)
    ensures Grows(o.link, Observe(c, o, d, data).link)
  {
    hide ParseUpgrade, ParseFrames, SizedGap;
    GapGrows(c, o.link, d, "input_buffer_too_large", None);
    var o1 := Push(o, d, data);
    UpgradeGrows(c, o1, d);
    FramesGrow(c, o1, d);
    FramesGrow(c, ParseUpgrade(c, o1, d), d);
  }
}
