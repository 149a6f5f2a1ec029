/**
  Which frames a valid connection of the observer stands, and what becomes of its records:
  their numbers, their limit, and the gap that ends them.
 */
module ObserverRules {
  import opened Bytes
  import opened Options
  import opened ObserverSpec
  import opened ObserverTheorems
  import opened IdConservation
  import opened FrameLayout

  // ---------------------------------------------------------------- frames

  /**
    A frame that may come here, within the limits: a whole message is a text; a continuation
    continues an open message; a close frame has an acceptable payload.
   */
  predicate Legal(c: Config, p: Parser, fin: bool, opcode: nat, payload: Octets)
  {
    match opcode
    case 0 =>
      p.fragment.Some? && |p.payload| + |payload| <= c.maxMessage && (fin ==> p.fragment == Some(1))
    case 1 => p.fragment.None? && |payload| <= c.maxMessage
    case 2 => p.fragment.None? && |payload| <= c.maxMessage && !fin
    case 8 => c.closePayload(payload)
    case _ => opcode > 8
  }

  /** What is the matter with a frame that may not come here, with the size and the limit that was exceeded. */
  function Fault(c: Config, p: Parser, opcode: nat, payload: Octets): (string, Option<(nat, nat)>)
  {
    var size := if opcode == 0 then |p.payload| + |payload| else |payload|;
    if opcode == 8 then ("invalid_close_payload", None)
    else if opcode > 2 then ("unsupported_opcode", None)
    else if opcode == 0 && p.fragment.None? then ("unexpected_continuation", None)
    else if opcode > 0 && p.fragment.Some? then ("new_data_during_fragment", None)
    else if size > c.maxMessage then ("message_too_large", Some((size, c.maxMessage)))
    else ("binary_message", None)
  }

  /** The connection is over, and the last record says why, or that the queue was full. */
  predicate Ended(c: Config, l: Link, m: Link, d: Direction, fault: (string, Option<(nat, nat)>))
  {
    && !m.valid && m.texts == l.texts && m.key == l.key && |m.events| == |l.events| + 1 && l.events <= m.events
    && m.events[|l.events|].event ==
       if |m.events| < c.maxEvents then Gap(d, fault.0, fault.1) else Gap(d, "event_queue_overflow", None)
  }

  /** An illegal frame ends the connection; a legal one is recorded, kept, or completes a message. */
  lemma FrameRuled(c: Config, l: Link, p: Parser, d: Direction, fin: bool, opcode: nat, payload: Octets)
    requires l.valid && !l.overflowed
    ensures var (m, q) := ProcessFrame(c, l, p, d, fin, opcode, payload);
            && (!Legal(c, p, fin, opcode, payload) ==> Ended(c, l, m, d, Fault(c, p, opcode, payload)))
            && (Legal(c, p, fin, opcode, payload) ==>
                  if opcode >= 8 then m == Emit(c, l, d, Control(d, opcode)) && q == p
                  else
                    var whole := if opcode == 0 then p.payload + payload else payload;
                    if fin then
                      && m == ProcessText(c, l, d, whole)
                      && q == p.(fragment := None, payload := if opcode == 0 then [] else p.payload)
                    else
                      var fragment := if opcode == 0 then p.fragment else Some(opcode);
                      m == l && q == p.(fragment := fragment, payload := whole))
  {
    hide ProcessText, Emit;
    GapEnds(c, l, d, "invalid_close_payload", None);
    GapEnds(c, l, d, "unexpected_continuation", None);
    GapEnds(c, l, d, "message_too_large", Some((|p.payload + payload|, c.maxMessage)));
    GapEnds(c, l, d, "message_too_large", Some((|payload|, c.maxMessage)));
    GapEnds(c, l, d, "new_data_during_fragment", None);
    GapEnds(c, l, d, "binary_message", None);
    GapEnds(c, l, d, "unsupported_opcode", None);
    hide SizedGap, Ended;
  }

  lemma GapEnds(c: Config, l: Link, d: Direction, reason: string, size: Option<(nat, nat)>)
    requires l.valid && !l.overflowed
    ensures Ended(c, l, SizedGap(c, l, d, reason, size), d, (reason, size))
    ensures !SizedGap(c, l, d, reason, size).valid
  {
  }

  // ---------------------------------------------------------------- records

  /** Records are numbered from 1 on; the gap of an overflow leaves a number out, and is the last. */
  predicate Numbered(l: Link)
  {
    forall k :: 0 <= k < |l.events| ==>
      || l.events[k].seqNo == k + 1
      || (k == |l.events| - 1 && l.overflowed && l.events[k].event.Gap? && l.events[k].seqNo == k + 2)
  }

  /** Valid means no gap; a gap is the last record; the records stay within the queue. */
  ghost predicate Kept(c: Config, l: Link)
  {
    && Numbered(l) && (!l.overflowed ==> l.nextSeq == |l.events| + 1) && (l.overflowed ==> !l.valid)
    && (l.valid <==> forall k :: 0 <= k < |l.events| ==> !l.events[k].event.Gap?)
    && (forall k :: 0 <= k < |l.events| && l.events[k].event.Gap? ==> k == |l.events| - 1)
    && |l.events| <= (if c.maxEvents > 1 then c.maxEvents else 1)
    && (l.valid ==> l.events == [] || |l.events| < c.maxEvents)
  }

  lemma EmitKept(c: Config, l: Link, d: Direction, e: Event)
    requires Kept(c, l) && l.valid && !e.Gap?
    ensures Kept(c, Emit(c, l, d, e))
  {
    var m := Emit(c, l, d, e);
    assert m.events[..|l.events|] == l.events;
    assert m.events[|l.events|].event.Gap? <==> !m.valid;
  }

  lemma EmitValid(c: Config, l: Link, d: Direction, e: Event)
    requires l.valid && Emit(c, l, d, e).valid && !l.overflowed
    ensures Emit(c, l, d, e).events == l.events + [Record(l.nextSeq, e)]
  {
  }

  lemma GapKept(c: Config, l: Link, d: Direction, reason: string, size: Option<(nat, nat)>)
    requires Kept(c, l)
    ensures Kept(c, SizedGap(c, l, d, reason, size))
  {
    var m := SizedGap(c, l, d, reason, size);
    assert m.events[..|l.events|] == l.events;
    if l.valid {
      assert m.events[|l.events|].event.Gap?;
    }
  }

  lemma SameKept(c: Config, l: Link, m: Link)
    requires Kept(c, l)
    requires m.events == l.events && m.valid == l.valid && m.overflowed == l.overflowed && m.nextSeq == l.nextSeq
    ensures Kept(c, m)
  {
  }

  lemma TextKept(c: Config, l: Link, d: Direction, payload: Octets)
    requires Kept(c, l) && l.valid
    ensures Kept(c, ProcessText(c, l, d, payload))
  {
    hide Kept, Emit, SizedGap;
    var l' := l.(texts := l.texts + [(d, payload)]);
    SameKept(c, l, l');
    match c.rpc(d, payload)
    case BadRpc(reason) => GapKept(c, l', d, reason, None);
    case Request(name, id, detail) =>
      GapKept(c, l', d, "pending_requests_too_many", None);
      GapKept(c, l', d, "duplicate_request_id", None);
      var l'' := if id.Some? then l'.(pending := l'.pending[(d, id.value) := name]) else l';
      SameKept(c, l, l'');
      EmitKept(c, l'', d, RpcEvent(d, id, name, detail));
      EmitKept(c, l'', d, RpcUnknown(d, id, Some(name), false, detail));
    case Response(id, ok, detail) =>
      var asked := (Opposite(d), id);
      var l'' := l'.(pending := l'.pending - {asked});
      SameKept(c, l, l'');
      EmitKept(c, l', d, RpcUnknown(d, Some(id), None, true, ""));
      if asked in l'.pending {
        var name := l'.pending[asked];
        EmitKept(c, l'', d, RpcResponse(d, id, name, ok, if ok then detail else ""));
        EmitKept(c, l'', d, RpcUnknown(d, Some(id), Some(name), true, ""));
      }
  }

  lemma StepKept(c: Config, o: Obs, d: Direction)
    requires Kept(c, o.link) && o.link.valid && FrameStep(c, o, d).Next?
    ensures Kept(c, FrameStep(c, o, d).obs.link)
  {
    hide Kept, ReadFrameHead, FramePayload, ProcessFrame, SizedGap, Emit, ProcessText;
    var p := Side(o, d);
    var h := ReadFrameHead(c, d, p.buffer);
    if h.Unacceptable? {
      GapKept(c, o.link, d, h.reason, h.size);
    } else {
      FrameCut(c, d, p.buffer, []);
      var payload := FramePayload(d, p.buffer, h.offset, h.total);
      var q := p.(buffer := p.buffer[h.total..]);
      var text, reason, size := FrameLink(c, o.link, q, d, h.fin, h.opcode, payload);
      EmitKept(c, o.link, d, Control(d, h.opcode));
      TextKept(c, o.link, d, text);
      GapKept(c, o.link, d, reason, size);
    }
  }

  lemma {:induction false} FramesKept(c: Config, o: Obs, d: Direction)
    requires Kept(c, o.link)
    ensures Kept(c, ParseFrames(c, o, d).link)
    decreases |Side(o, d).buffer|
  {
    hide FrameStep, Kept;
    if o.link.valid && FrameStep(c, o, d).Next? {
      StepKept(c, o, d);
      ParseStep(c, o, d);
      FramesKept(c, FrameStep(c, o, d).obs, d);
    }
  }

  lemma UpgradeKept(c: Config, o: Obs, d: Direction)
    requires Kept(c, o.link) && o.link.valid
    ensures Kept(c, ParseUpgrade(c, o, d).link)
  {
    hide Emit, SizedGap, FindHeaderEnd, Kept;
    GapKept(c, o.link, d, "header_too_large", None);
    var b := Side(o, d).buffer;
    if FindHeaderEnd(b).HeaderEnd? {
      var v := c.upgrade(d, b[..FindHeaderEnd(b).end], o.link.key);
      if v.Agreed? {
        var l := if d.Client? then o.link.(key := v.key) else o.link;
        SameKept(c, o.link, l);
        EmitKept(c, l, d, Upgraded(d));
      } else {
        GapKept(c, o.link, d, v.reason, None);
      }
    }
  }

  lemma ObserveKept(c: Config, o: Obs, d: Direction, data: Octets)
    requires Kept(c, o.link)
    ensures Kept(c, Observe(c, o, d, data).link)
  {
    hide ParseUpgrade, ParseFrames, SizedGap, Kept;
    if o.link.valid {
      GapKept(c, o.link, d, "input_buffer_too_large", None);
      var o1 := Push(o, d, data);
      UpgradeKept(c, o1, d);
      FramesKept(c, o1, d);
      FramesKept(c, ParseUpgrade(c, o1, d), d);
    }
  }

  /** On every run: numbers, the queue's limit, and no gap exactly while the connection is valid. */
  lemma {:induction false} RunKept(c: Config, calls: seq<(Direction, Octets)>)
    ensures Kept(c, ObserveCalls(c, OPENED, calls).link)
  {
    assert Kept(c, OPENED.link);
    CallsKept(c, OPENED, calls);
  }

  lemma {:induction false} CallsKept(c: Config, o: Obs, calls: seq<(Direction, Octets)>)
    requires Kept(c, o.link)
    ensures Kept(c, ObserveCalls(c, o, calls).link)
    decreases |calls|
  {
    hide Observe, Kept;
    if calls != [] {
      ObserveKept(c, o, calls[0].0, calls[0].1);
      CallsKept(c, Observe(c, o, calls[0].0, calls[0].1), calls[1..]);
    }
  }

  // ---------------------------------------------------------------- the handshake

  /**
    A call that brings the end of a header within the limit: the direction is upgraded, with
    one record of it, exactly if the header is accepted; the server's is judged by the key
    that the client's has offered.
   */
  lemma HeaderRuled(c: Config, o: Obs, d: Direction, end: nat)
    requires o.link.valid && !o.link.overflowed && !Side(o, d).upgraded
             && FindHeaderEnd(Side(o, d).buffer) == HeaderEnd(end)
    ensures var b, r := Side(o, d).buffer, ParseUpgrade(c, o, d);
            var v := c.upgrade(d, b[..end], o.link.key);
            if end > c.maxHeader || v.Declined? then
              && !Side(r, d).upgraded
              && Ended(c, o.link, r.link, d, (if end > c.maxHeader then "header_too_large" else v.reason, None))
            else
              && Side(r, d).upgraded && (r.link.valid ==> Side(r, d).buffer == b[end..])
              && r.link.key == (if d.Client? then v.key else o.link.key)
              && (r.link.valid ==> r.link.events == o.link.events + [Record(o.link.nextSeq, Upgraded(d))])
  {
    hide FindHeaderEnd;
    GapEnds(c, o.link, d, "header_too_large", None);
    var v := c.upgrade(d, Side(o, d).buffer[..end], o.link.key);
    if v.Declined? {
      GapEnds(c, o.link, d, v.reason, None);
    }
    hide SizedGap, Ended;
    var l := if d.Client? && v.Agreed? then o.link.(key := v.key) else o.link;
    if Emit(c, l, d, Upgraded(d)).valid {
      EmitValid(c, l, d, Upgraded(d));
    }
  }

  /** Without the end of a header the call waits for it, up to the limit. */
  lemma NoHeaderRuled(c: Config, o: Obs, d: Direction)
    requires o.link.valid && !o.link.overflowed && FindHeaderEnd(Side(o, d).buffer).NoHeaderEnd?
    ensures var r := ParseUpgrade(c, o, d);
            if |Side(o, d).buffer| > c.maxHeader then Ended(c, o.link, r.link, d, ("header_too_large", None))
              else r == o
  {
    hide FindHeaderEnd;
    GapEnds(c, o.link, d, "header_too_large", None);
    hide SizedGap, Ended;
  }

  // ---------------------------------------------------------------- the calls

  /** What is the matter with a header that the observer does not read. */
  function HeadFault(c: Config, d: Direction, b: Octets): (string, Option<(nat, nat)>)
    requires 2 <= |b|
  {
    if (b[0] / 16) % 8 != 0 then ("reserved_bits", None)
    else if d.Client? && b[1] < 128 then ("client_frame_unmasked", None)
    else if d.Server? && b[1] >= 128 then ("server_frame_masked", None)
    else if |b| < HeaderSaid(b) || (b[1] % 128 == 127 && b[2] >= 128) then ("invalid_frame_length", None)
    else if b[0] % 16 > 10 then ("unsupported_opcode", None)
    else if b[0] % 16 >= 8 && (b[0] < 128 || LengthSaid(b) > 125) then ("invalid_control_frame", None)
    else ("frame_too_large", Some((LengthSaid(b), c.maxFrame)))
  }

  /** The frame loop ends the connection at a header that it cannot read, and waits for one that is not complete. */
  lemma HeadRuled(c: Config, o: Obs, d: Direction)
    requires o.link.valid && !o.link.overflowed && !ReadFrameHead(c, d, Side(o, d).buffer).Framed?
    ensures var b, r := Side(o, d).buffer, ParseFrames(c, o, d);
            if |b| < 2 || (LawfulSoFar(d, b) && |b| < HeaderSaid(b)) then r == o
            else Ended(c, o.link, r.link, d, HeadFault(c, d, b))
  {
    var b := Side(o, d).buffer;
    var h := ReadFrameHead(c, d, b);
    ObserverHeadIff(c, d, b);
    if h.Unacceptable? {
      GapEnds(c, o.link, d, h.reason, h.size);
      if |b| >= HeaderSaid(b) {
        LengthsAgree(b);
      }
    }
    hide SizedGap, Ended;
  }

  predicate LawfulSoFar(d: Direction, b: Octets)
    requires 2 <= |b|
  {
    (b[0] / 16) % 8 == 0 && (b[1] >= 128 <==> d.Client?)
  }

  /** A call with which the buffer would hold too much ends the connection; any other is parsed. */
  lemma CallRuled(c: Config, o: Obs, d: Direction, data: Octets)
    requires o.link.valid && !o.link.overflowed
    ensures var r, held := Observe(c, o, d, data), |Side(o, d).buffer| + |data|;
            && (held > c.maxMessage + c.maxHeader + 32 ==>
                  Ended(c, o.link, r.link, d, ("input_buffer_too_large", None)))
            && (held <= c.maxMessage + c.maxHeader + 32 ==> r == Parse(c, Push(o, d, data), d))
  {
    GapEnds(c, o.link, d, "input_buffer_too_large", None);
    hide SizedGap, Ended, Parse;
  }
}
