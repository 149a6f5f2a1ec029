/**
  The gate and the observer decode independently.  On what a gate releases they agree:
  the observer hands exactly the messages the gate completed to its RPC layer, in order,
  and stands at a message boundary after every gated call.  Frames written by the
  client encoder decode to themselves in both.
 */
module DecoderAgreement {
  import opened Bytes
  import opened Options
  import opened GateSpec
  import opened GateTheorems
  import opened ObserverSpec
  import opened ObserverTheorems

  function Of(server: bool): Direction
  {
    if server then Server else Client
  }

  /** The observer's limits leave room for everything a gate lets through. */
  predicate Roomy(c: Config)
  {
    c.maxFrame >= MAX_PAYLOAD && c.maxMessage >= MAX_PAYLOAD
  }

  // ---------------------------------------------------------------- one frame

  /** A data frame the gate cuts is the frame the observer cuts. */
  lemma HeadsAgree(server: bool, c: Config, f: Frame, more: Octets)
    requires NextFrame(server, f.raw) == Got(f) && f.opcode <= 2 && Roomy(c)
    ensures var h := ReadFrameHead(c, Of(server), f.raw + more);
            && h.Framed? && h.fin == f.fin && h.opcode == f.opcode && h.total == |f.raw|
            && FramePayload(Of(server), f.raw + more, h.offset, h.total) == f.payload
  {
    hide Unmask, BigEndian;
    var b, d := f.raw, Of(server);
    var g := ReadHead(server, b);
    NextFrameRaw(server, b);
    assert |b| == g.total by { assert b[..g.total] == b; }
    var offset := HeaderLength(b[1] % 128);
    assert ReadFrameHead(c, d, b) == Framed(f.fin, f.opcode, offset, |b|);
    FrameHeadStable(c, d, b, more);
    FrameCut(c, d, b, more);
    var m := offset + MaskSize(d);
    assert b[..|b|] == b && b[m..|b|] == b[m..];
  }

  /** The observer with direction `d` upgraded and its parser in the given position. */
  function At(o: Obs, d: Direction, buffer: Octets, fragment: Option<nat>, payload: Octets): Obs
  {
    WithSide(o, d, Parser(buffer, true, fragment, payload))
  }

  /** The parser stands between messages, or in the middle of a text message. */
  predicate InText(fragment: Option<nat>, payload: Octets, f: Frame)
  {
    && (fragment == None || fragment == Some(1)) && (fragment.None? ==> payload == [])
    && f.opcode == (if fragment.None? then 1 else 0)
    && |payload + f.payload| <= MAX_PAYLOAD
  }

  /** The observer takes the gate's frame off its buffer. */
  lemma ObserveFrame(server: bool, c: Config, o: Obs, f: Frame, more: Octets, fragment: Option<nat>, payload: Octets)
    requires NextFrame(server, f.raw) == Got(f) && Roomy(c) && o.link.valid && f.opcode <= 2
    ensures var d := Of(server);
            var (l, p) := ProcessFrame(c, o.link, Parser(more, true, fragment, payload), d, f.fin, f.opcode, f.payload);
            ParseFrames(c, At(o, d, f.raw + more, fragment, payload), d)
              == ParseFrames(c, Conclude(WithSide(o, d, p), l), d)
  {
    HeadsAgree(server, c, f, more);
    hide NextFrame, ReadFrameHead, FramePayload, ParseFrames, ProcessFrame;
    assert (f.raw + more)[|f.raw|..] == more;
    ParseStep(c, At(o, Of(server), f.raw + more, fragment, payload), Of(server));
  }

  lemma ObserveOpenFrame(server: bool, c: Config, o: Obs, f: Frame, more: Octets, fragment: Option<nat>,
                         payload: Octets)
    requires NextFrame(server, f.raw) == Got(f) && !f.fin && Roomy(c) && o.link.valid && InText(fragment, payload, f)
    ensures var d := Of(server);
            ParseFrames(c, At(o, d, f.raw + more, fragment, payload), d)
            == ParseFrames(c, At(o, d, more, Some(1), payload + f.payload), d)
  {
    hide NextFrame, ParseFrames;
    ObserveFrame(server, c, o, f, more, fragment, payload);
    assert fragment.None? ==> payload + f.payload == f.payload;
  }

  lemma ObserveFinalFrame(server: bool, c: Config, o: Obs, f: Frame, more: Octets, fragment: Option<nat>,
                          payload: Octets)
    requires NextFrame(server, f.raw) == Got(f) && f.fin && Roomy(c) && o.link.valid && InText(fragment, payload, f)
    ensures var d := Of(server);
            ParseFrames(c, At(o, d, f.raw + more, fragment, payload), d)
            == ParseFrames(c, Conclude(At(o, d, more, None, []), ProcessText(c, o.link, d, payload + f.payload)), d)
  {
    hide NextFrame, ParseFrames, ProcessText;
    ObserveFrame(server, c, o, f, more, fragment, payload);
    assert fragment.None? ==> payload + f.payload == f.payload;
  }

  /** Frames of an unfinished message take the observer into the middle of that message. */
  lemma {:induction false} ObserveHeld(server: bool, c: Config, o: Obs, held: seq<Octets>, more: Octets)
    requires Unfinished(server, held) && |Payloads(server, held)| <= MAX_PAYLOAD && Roomy(c) && o.link.valid
    ensures var d := Of(server);
            ParseFrames(c, At(o, d, Flatten(held) + more, None, []), d)
            == ParseFrames(c, At(o, d, more, if held == [] then None else Some(1), Payloads(server, held)), d)
    decreases |held|
  {
    hide NextFrame, ParseFrames;
    if held == [] {
      assert Flatten(held) + more == more;
    } else {
      var init, last := held[..|held| - 1], held[|held| - 1];
      var f := NextFrame(server, last).frame;
      assert held == init + [last];
      assert Flatten(held) + more == Flatten(init) + (last + more) by {
        FlattenSnoc(init, last);
      }
      forall i | 0 <= i < |init| ensures init[i] == held[i] {}
      ObserveHeld(server, c, o, init, last + more);
      ObserveOpenFrame(server, c, o, f, more, if init == [] then None else Some(1), Payloads(server, init));
    }
  }

  // ---------------------------------------------------------------- one call

  /** The RPC layer fed with messages in order, until the connection becomes invalid. */
  function RunTexts(c: Config, l: Link, d: Direction, texts: seq<Octets>): Link
    decreases |texts|
  {
    if texts == [] || !l.valid then l else RunTexts(c, ProcessText(c, l, d, texts[0]), d, texts[1..])
  }

  lemma RunNextText(c: Config, l: Link, d: Direction, first: Octets, rest: seq<Octets>)
    requires l.valid
    ensures RunTexts(c, l, d, [first] + rest) == RunTexts(c, ProcessText(c, l, d, first), d, rest)
  {
    assert ([first] + rest)[1..] == rest;
  }

  lemma ObserveInvalid(c: Config, o: Obs, d: Direction, buffer: Octets, l: Link)
    requires !l.valid
    ensures ParseFrames(c, Conclude(At(o, d, buffer, None, []), l), d) == Conclude(At(o, d, [], None, []), l)
  {
  }

  lemma ObserveMessage(g: Gate, w: Wire, pending: set<Id>, f: Frame, c: Config, o: Obs, more: Octets)
    requires !g.auth && Wellformed(g, w) && Roomy(c) && o.link.valid && f.fin
    requires NextFrame(g.server, f.raw) == Got(f) && |f.payload| <= MAX_PAYLOAD
    requires TakeFrame(g, w, pending, f).Accepted?
    ensures var t, d := TakeFrame(g, w, pending, f), Of(g.server);
            && |t.texts| == 1
            && ParseFrames(c, At(o, d, t.output + more, None, []), d)
            == ParseFrames(c, Conclude(At(o, d, more, None, []), ProcessText(c, o.link, d, t.texts[0])), d)
  {
    hide NextFrame, ParseFrames, ProcessText, Unfinished, Payloads;
    var t, d := TakeFrame(g, w, pending, f), Of(g.server);
    FlattenSnoc(w.held, f.raw);
    assert w.held == [] ==> w.held + [f.raw] == [f.raw];
    if w.held == [] {
      NothingHeld(g, w);
    }
    assert t.output + more == Flatten(w.held) + (f.raw + more);
    ObserveHeld(g.server, c, o, w.held, f.raw + more);
    ObserveFinalFrame(g.server, c, o, f, more, if w.held == [] then None else Some(1), w.payload);
  }

  /** What one drained buffer releases is, to the observer, the messages completed in it. */
  lemma {:induction false} DrainAgrees(g: Gate, w: Wire, pending: set<Id>, c: Config, o: Obs)
    requires !g.auth && Wellformed(g, w) && w.upgraded && Roomy(c) && o.link.valid
    requires Drain(g, w, pending).Accepted?
    ensures var r, d := Drain(g, w, pending), Of(g.server);
            ParseFrames(c, At(o, d, r.output, None, []), d)
            == Conclude(At(o, d, [], None, []), RunTexts(c, o.link, d, r.texts))
    decreases |w.buffer|
  {
    hide NextFrame, TakeFrame, Unfinished, Payloads, ProcessText;
    var d := Of(g.server);
    if !NextFrame(g.server, w.buffer).Got? {
      ParseNothing(c, At(o, d, [], None, []), d);
    } else {
      var f := NextFrame(g.server, w.buffer).frame;
      DrainFrame(g, w, pending, f);
      var w' := w.(buffer := w.buffer[|f.raw|..]);
      var t := TakeFrame(g, w', pending, f);
      TakeFrameWellformed(g, w', pending, f);
      var rest := Drain(g, t.wire, t.pending);
      hide Drain, ParseFrames;
      if f.fin {
        ObserveMessage(g, w', pending, f, c, o, rest.output);
        var l := ProcessText(c, o.link, d, t.texts[0]);
        RunNextText(c, o.link, d, t.texts[0], rest.texts);
        assert t.texts + rest.texts == [t.texts[0]] + rest.texts;
        if l.valid {
          DrainAgrees(g, t.wire, t.pending, c, o.(link := l));
        } else {
          ObserveInvalid(c, o, d, rest.output, l);
        }
      } else {
        OpenTakesNothing(g, w', pending, f);
        DrainAgrees(g, t.wire, t.pending, c, o);
        assert [] + rest.output == rest.output && [] + rest.texts == rest.texts;
      }
    }
  }

  lemma ParseNothing(c: Config, o: Obs, d: Direction)
    requires Side(o, d).buffer == []
    ensures ParseFrames(c, o, d) == o
  {
  }

  lemma OpenTakesNothing(g: Gate, w: Wire, pending: set<Id>, f: Frame)
    requires !g.auth && !f.fin && TakeFrame(g, w, pending, f).Accepted?
    ensures var t := TakeFrame(g, w, pending, f); t.output == [] && t.texts == []
  {
  }

  /** Gate and observer of one direction before a call: same phase, and the observer between messages. */
  predicate Aligned(w: Wire, o: Obs, d: Direction)
  {
    Side(o, d) == if w.upgraded then Parser([], true, None, []) else IDLE
  }

  /** The link once the header released by this call, if there is one, has been accepted. */
  function AfterUpgrade(c: Config, w: Wire, data: Octets, l: Link, d: Direction): Option<Link>
  {
    if w.upgraded then Some(l)
    else
      match FindHeaderEnd(w.buffer + data)
      case NoHeaderEnd => Some(l)
      case HeaderEnd(end) =>
        if end > c.maxHeader then None
        else
          match c.upgrade(d, (w.buffer + data)[..end], l.key)
          case Declined(_) => None
          case Agreed(key) => Some(Emit(c, if d.Client? then l.(key := key) else l, d, Upgraded(d)))
  }

  /**
    One gated call seen by the observer, given an upgrade it accepts and room in its buffer:
    the connection becomes exactly what the completed messages, in order, make of it, and
    while it stays valid the direction is at a message boundary.
   */
  lemma GateAndObserverAgree(g: Gate, w: Wire, pending: set<Id>, data: Octets, c: Config, o: Obs)
    requires !g.auth && Wellformed(g, w) && Roomy(c) && o.link.valid
    requires Feed(g, w, pending, data).Accepted? && Aligned(w, o, Of(g.server))
    requires |Feed(g, w, pending, data).output| <= BufferLimit(c)
    requires AfterUpgrade(c, w, data, o.link, Of(g.server)).Some?
    ensures var r, d := Feed(g, w, pending, data), Of(g.server);
            var o' := Observe(c, o, d, r.output);
            && o'.link == RunTexts(c, AfterUpgrade(c, w, data, o.link, d).value, d, r.texts)
            && (o'.link.valid ==> Aligned(r.wire, o', d) && Side(o', Opposite(d)) == Side(o, Opposite(d)))
  {
    hide NextFrame, TakeFrame, Unfinished, Payloads, Drain, ParseFrames, ProcessText, Emit;
    var d, b := Of(g.server), w.buffer + data;
    if w.upgraded {
      var u := More(w, data);
      DrainAgrees(g, u, pending, c, o);
      DrainWellformed(g, u, pending);
      assert [] + Drain(g, u, pending).output == Drain(g, u, pending).output;
    } else if FindHeaderEnd(b).NoHeaderEnd? {
      var none: Octets := [];
      assert none + none == none && FindHeaderEnd(none).NoHeaderEnd?;
    } else {
      AgreeAtHeader(g, w, pending, data, c, o, FindHeaderEnd(b).end);
    }
  }

  lemma AgreeAtHeader(g: Gate, w: Wire, pending: set<Id>, data: Octets, c: Config, o: Obs, end: nat)
    requires !g.auth && Wellformed(g, w) && Roomy(c) && o.link.valid
    requires Feed(g, w, pending, data).Accepted? && Aligned(w, o, Of(g.server)) && !w.upgraded
    requires |Feed(g, w, pending, data).output| <= BufferLimit(c)
    requires FindHeaderEnd(w.buffer + data) == HeaderEnd(end)
    requires AfterUpgrade(c, w, data, o.link, Of(g.server)).Some?
    ensures var r, d := Feed(g, w, pending, data), Of(g.server);
            var o' := Observe(c, o, d, r.output);
            && o'.link == RunTexts(c, AfterUpgrade(c, w, data, o.link, d).value, d, r.texts)
            && (o'.link.valid ==> Aligned(r.wire, o', d) && Side(o', Opposite(d)) == Side(o, Opposite(d)))
  {
    hide NextFrame, TakeFrame, Unfinished, Payloads, Drain, ParseFrames, ProcessText, Emit;
    var d, b := Of(g.server), w.buffer + data;
    var header, u := b[..end], w.(upgraded := true, buffer := b[end..]);
    var r := Drain(g, u, pending);
    FeedHeader(g, w, pending, data, end, b[end..]);
    DrainWellformed(g, u, pending);
    HeaderEndTight(b, end);
    HeaderEndStable(header, r.output);
    var out := header + r.output;
    assert [] + out == out && out[..end] == header && out[end..] == r.output && [] + r.texts == r.texts;
    hide FindHeaderEnd, Feed;
    var l := AfterUpgrade(c, w, data, o.link, d).value;
    assert ParseUpgrade(c, Push(o, d, out), d) == Conclude(At(o, d, r.output, None, []), l);
    if l.valid {
      DrainAgrees(g, u, pending, c, o.(link := l));
    }
  }

  function Tagged(d: Direction, texts: seq<Octets>): seq<(Direction, Octets)>
  {
    seq(|texts|, i requires 0 <= i < |texts| => (d, texts[i]))
  }

  /** The messages handed to the RPC layer: all of them, or the first ones up to the one that raised a gap. */
  lemma {:induction false} RunTextsHistory(c: Config, l: Link, d: Direction, texts: seq<Octets>) returns (k: nat)
    ensures k <= |texts| && RunTexts(c, l, d, texts).texts == l.texts + Tagged(d, texts[..k])
    ensures RunTexts(c, l, d, texts).valid ==> k == |texts|
    decreases |texts|
  {
    hide ProcessText;
    k := 0;
    if texts != [] && l.valid {
      TextGrows(c, l, d, texts[0]);
      k := RunTextsHistory(c, ProcessText(c, l, d, texts[0]), d, texts[1..]);
      k := k + 1;
      assert Tagged(d, texts[..k]) == [(d, texts[0])] + Tagged(d, texts[1..][..k - 1]);
    }
  }

  // ---------------------------------------------------------------- round trip

  /** `_websocket_frame`: a masked final text frame in one of the two shorter length forms, or a refusal. */
  function EncodeTextFrame(mask: Octets, payload: Octets): Option<Octets>
    requires |mask| == 4
  {
    var n := |payload|;
    if n > MAX_PAYLOAD then None
    else
      var header := if n < 126 then [0x81, 0x80 + n] else [0x81, 0x80 + 126, n / 256, n % 256];
      Some(header + mask + Unmask(mask, payload))
  }

  /** Every payload that fits is encoded; whatever follows, both decoders cut exactly that frame and recover it. */
  lemma EncodedFrameDecodes(mask: Octets, payload: Octets, more: Octets, c: Config)
    requires |mask| == 4 && Roomy(c)
    ensures match EncodeTextFrame(mask, payload)
            case None => |payload| > 65535
            case Some(raw) =>
              && NextFrame(false, raw + more) == Got(Frame(true, 1, payload, raw))
              && var h := ReadFrameHead(c, Client, raw + more);
              && h.Framed? && h.fin && h.opcode == 1 && h.total == |raw|
              && FramePayload(Client, raw + more, h.offset, h.total) == payload
  {
    if |payload| <= MAX_PAYLOAD {
      var raw := EncodeTextFrame(mask, payload).value;
      var f := Frame(true, 1, payload, raw);
      var offset := if |payload| < 126 then 2 else 4;
      EncodedHead(mask, payload);
      UnmaskInvolution(mask, payload);
      hide ReadHead, Unmask;
      assert raw[..|raw|] == raw && raw[offset..offset + 4] == mask && raw[offset + 4..] == Unmask(mask, payload);
      NextFrameStable(false, raw, more);
      HeadsAgree(false, c, f, more);
    }
  }

  lemma EncodedHead(mask: Octets, payload: Octets)
    requires |mask| == 4 && |payload| <= MAX_PAYLOAD
    ensures var raw := EncodeTextFrame(mask, payload).value;
            && ReadHead(false, raw) == Sized(if |payload| < 126 then 2 else 4, |raw|)
            && raw[0] == 0x81
  {
    hide Unmask;
    var raw, n := EncodeTextFrame(mask, payload).value, |payload|;
    if n >= 126 {
      assert raw[2..4] == [n / 256, n % 256];
      BigEndian2(raw[2..4]);
    }
  }
}
