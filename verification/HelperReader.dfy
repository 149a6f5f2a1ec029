/**
  The owner helper's own reading of server frames from its stream: a third decoder.  On
  what the server-side gate releases it reads exactly the messages the gate completed.
 */
module HelperReader {
  import opened Bytes
  import opened Options
  import opened GateSpec
  import opened GateTheorems
  import opened GateRules
  import opened DecoderAgreement

  /** Reading takes from the front of the stream; `rest` is what is still unread. */
  datatype FrameRead = FrameRefused(reason: string) | FrameRead(fin: bool, opcode: nat, payload: Octets, rest: Octets)

  datatype TextRead = TextRefused(reason: string) | TextRead(text: Octets, rest: Octets)

  /** `_read_server_frame`: exact reads in sequence; the end of the stream inside a frame refuses it. */
  function ReadServerFrame(b: Octets): (r: FrameRead)
    ensures r.FrameRead? ==> |r.rest| < |b|
  {
    if |b| < 2 then FrameRefused("websocket_eof")
    else if (b[0] / 16) % 8 != 0 then FrameRefused("websocket_compression_or_reserved")
    else if b[1] >= 128 then FrameRefused("server_frame_masked")
    else if b[1] == 126 then
      if |b| < 4 then FrameRefused("websocket_length") else ReadPayload(b, 4, BigEndian(b[2..4]))
    else if b[1] == 127 then
      if |b| < 10 || b[2] >= 128 then FrameRefused("websocket_length") else ReadPayload(b, 10, BigEndian(b[2..10]))
    else ReadPayload(b, 2, b[1])
  }

  function ReadPayload(b: Octets, header: nat, length: nat): (r: FrameRead)
    requires 2 <= header <= |b|
    ensures r.FrameRead? ==> |r.rest| < |b|
  {
    if length > MAX_PAYLOAD then FrameRefused("websocket_frame_too_large")
    else if |b| < header + length then FrameRefused("websocket_payload")
    else FrameRead(b[0] >= 128, b[0] % 16, b[header..header + length], b[header + length..])
  }

  /** The continuations of an open message whose payload so far is `text`. */
  function ReadRest(b: Octets, text: Octets): TextRead
    decreases |b|
  {
    match ReadServerFrame(b)
    case FrameRefused(reason) => TextRefused(reason)
    case FrameRead(fin, opcode, payload, rest) =>
      if opcode != 0 then TextRefused("websocket_fragment_opcode")
      else if |text + payload| > MAX_PAYLOAD then TextRefused("websocket_message_too_large")
      else if fin then TextRead(text + payload, rest)
      else ReadRest(rest, text + payload)
  }

  /** One text message. */
  function ReadText(b: Octets): TextRead
  {
    match ReadServerFrame(b)
    case FrameRefused(reason) => TextRefused(reason)
    case FrameRead(fin, opcode, payload, rest) =>
      if opcode == 8 then TextRefused("server_close")
      else if opcode != 1 then TextRefused("server_frame_opcode")
      else if fin then TextRead(payload, rest)
      else ReadRest(rest, payload)
  }

  /** `_read_server_text`. */
  method ReadServerText(stream: Octets) returns (r: TextRead)
    ensures r == ReadText(stream)
  {
    hide ReadServerFrame;
    var first := ReadServerFrame(stream);
    if first.FrameRefused? {
      return TextRefused(first.reason);
    }
    if first.opcode == 8 {
      return TextRefused("server_close");
    }
    if first.opcode != 1 {
      return TextRefused("server_frame_opcode");
    }
    var fin, text, rest := first.fin, first.payload, first.rest;
    while !fin
      invariant ReadText(stream) == if fin then TextRead(text, rest) else ReadRest(rest, text)
      decreases |rest|, if fin then 0 else 1
    {
      var frame := ReadServerFrame(rest);
      if frame.FrameRefused? {
        return TextRefused(frame.reason);
      }
      if frame.opcode != 0 {
        return TextRefused("websocket_fragment_opcode");
      }
      if |text + frame.payload| > MAX_PAYLOAD {
        return TextRefused("websocket_message_too_large");
      }
      fin, text, rest := frame.fin, text + frame.payload, frame.rest;
    }
    return TextRead(text, rest);
  }

  // ---------------------------------------------------------------- agreement with the gate

  /** The reader takes a frame exactly where the server-side gate cuts one, and the same one. */
  lemma FramesAgree(b: Octets)
    ensures match NextFrame(true, b)
            case Got(f) => |f.raw| <= |b| && ReadServerFrame(b) == FrameRead(f.fin, f.opcode, f.payload, b[|f.raw|..])
            case _ => ReadServerFrame(b).FrameRefused?
  {
    hide BigEndian, Unmask;
    var head := ReadHead(true, b);
    if head.Sized? && head.total <= |b| {
      assert b[..head.total][head.header..] == b[head.header..head.total];
    }
  }

  lemma FrameThenMore(f: Frame, more: Octets)
    requires NextFrame(true, f.raw) == Got(f)
    ensures ReadServerFrame(f.raw + more) == FrameRead(f.fin, f.opcode, f.payload, more)
  {
    hide NextFrame;
    NextFrameStable(true, f.raw, more);
    FramesAgree(f.raw + more);
    assert (f.raw + more)[|f.raw|..] == more;
  }

  /** An open text frame starts a message, an open continuation goes on with it. */
  lemma OpenFrameThenMore(f: Frame, more: Octets, text: Octets)
    requires NextFrame(true, f.raw) == Got(f) && !f.fin
    ensures f.opcode == 1 ==> ReadText(f.raw + more) == ReadRest(more, f.payload)
    ensures f.opcode == 0 && |text + f.payload| <= MAX_PAYLOAD ==>
              ReadRest(f.raw + more, text) == ReadRest(more, text + f.payload)
  {
    hide NextFrame, ReadServerFrame;
    FrameThenMore(f, more);
  }

  /** Held frames take the reader into the middle of their message. */
  lemma {:induction false} HeldThenMore(held: seq<Octets>, more: Octets)
    requires held != [] && Unfinished(true, held) && |Payloads(true, held)| <= MAX_PAYLOAD
    ensures ReadText(Flatten(held) + more) == ReadRest(more, Payloads(true, held))
    decreases |held|
  {
    hide NextFrame, ReadText, ReadRest, Flatten;
    var init, last := held[..|held| - 1], held[|held| - 1];
    var f := NextFrame(true, last).frame;
    assert held == init + [last];
    FlattenSnoc(init, last);
    assert Flatten(held) + more == Flatten(init) + (last + more);
    assert Payloads(true, held) == Payloads(true, init) + f.payload;
    OpenFrameThenMore(f, more, Payloads(true, init));
    if init == [] {
      assert Flatten(held) == last by { FlattenOne(last); }
      assert Payloads(true, init) + f.payload == f.payload;
    } else {
      InitUnfinished(init, last);
      HeldThenMore(init, last + more);
    }
  }

  lemma FlattenOne(x: Octets)
    ensures Flatten([x]) == x
  {
    FlattenSnoc([], x);
    assert [] + [x] == [x] && Flatten([]) + x == x;
  }

  lemma InitUnfinished(init: seq<Octets>, last: Octets)
    requires Unfinished(true, init + [last])
    ensures Unfinished(true, init)
  {
    hide NextFrame;
    forall i | 0 <= i < |init| ensures init[i] == (init + [last])[i] {}
  }

  /** The frames of a completed message are read as that message. */
  lemma CompletedIsRead(g: Gate, w: Wire, pending: set<Id>, f: Frame, more: Octets)
    requires !g.auth && g.server && Wellformed(g, w) && f.fin && NextFrame(true, f.raw) == Got(f)
    requires TakeFrame(g, w, pending, f).Accepted? && |f.payload| <= MAX_PAYLOAD
    ensures var t := TakeFrame(g, w, pending, f);
            |t.texts| == 1 && ReadText(t.output + more) == TextRead(t.texts[0], more)
  {
    hide NextFrame, ReadServerFrame, Unfinished, Payloads;
    var t := TakeFrame(g, w, pending, f);
    FlattenSnoc(w.held, f.raw);
    FrameThenMore(f, more);
    if w.held == [] {
      NothingHeld(g, w);
      assert w.held + [f.raw] == [f.raw];
      assert t.output + more == f.raw + more && w.payload + f.payload == f.payload by {
        assert Flatten([]) == [] && [] + f.raw == f.raw;
      }
    } else {
      HeldThenMore(w.held, f.raw + more);
      assert t.output + more == Flatten(w.held) + (f.raw + more);
    }
  }

  /** Reading messages until the stream is exhausted. */
  function ReadTexts(b: Octets, count: nat): Option<seq<Octets>>
    decreases count
  {
    if count == 0 then (if b == [] then Some([]) else None)
    else
      match ReadText(b)
      case TextRefused(_) => None
      case TextRead(text, rest) =>
        var others := ReadTexts(rest, count - 1);
        if others.None? then None else Some([text] + others.value)
  }

  /** What a drained buffer releases is read back as the messages completed in it, with nothing left over. */
  lemma {:induction false} ReleasedIsRead(g: Gate, w: Wire, pending: set<Id>)
    requires !g.auth && g.server && Wellformed(g, w) && w.upgraded && Drain(g, w, pending).Accepted?
    ensures var r := Drain(g, w, pending); ReadTexts(r.output, |r.texts|) == Some(r.texts)
    decreases |w.buffer|
  {
    hide NextFrame, TakeFrame, Unfinished, Payloads, ReadText;
    if NextFrame(g.server, w.buffer).Got? {
      var f := NextFrame(g.server, w.buffer).frame;
      DrainFrame(g, w, pending, f);
      var w' := w.(buffer := w.buffer[|f.raw|..]);
      var t := TakeFrame(g, w', pending, f);
      TakeFrameWellformed(g, w', pending, f);
      var rest := Drain(g, t.wire, t.pending);
      hide Drain;
      ReleasedIsRead(g, t.wire, t.pending);
      if f.fin {
        CompletedIsRead(g, w', pending, f, rest.output);
        assert t.texts == [t.texts[0]];
        assert |t.texts + rest.texts| == 1 + |rest.texts|;
      } else {
        OpenTakesNothing(g, w', pending, f);
        assert [] + rest.output == rest.output && [] + rest.texts == rest.texts;
      }
    }
  }

  // ---------------------------------------------------------------- exactly the messages

  /** The stream begins with the frames of one text message of at most 65535 octets, or with the rest of an open one. */
  ghost predicate BeginsWith(b: Octets, open: bool, sofar: Octets, text: Octets, rest: Octets, fs: seq<Frame>)
  {
    && IsMessage(true, open, fs) && b == RawOf(fs) + rest && text == sofar + PayloadOf(fs) && |text| <= MAX_PAYLOAD
  }

  lemma FirstRead(b: Octets, open: bool, fs: seq<Frame>, rest: Octets)
    requires IsMessage(true, open, fs) && b == RawOf(fs) + rest
    ensures ReadServerFrame(b) == FrameRead(fs[0].fin, fs[0].opcode, fs[0].payload, RawOf(fs[1..]) + rest)
    ensures fs[0].opcode == (if open then 0 else 1) && (fs[0].fin <==> |fs| == 1) && |fs[0].payload| <= MAX_PAYLOAD
    ensures |fs| > 1 ==> IsMessage(true, true, fs[1..])
    ensures RawOf(fs) == fs[0].raw + RawOf(fs[1..]) && PayloadOf(fs) == fs[0].payload + PayloadOf(fs[1..])
  {
    hide NextFrame, ReadServerFrame;
    var f := fs[0];
    assert NextFrame(true, f.raw) == Got(f);
    NextFrameRaw(true, f.raw);
    assert b == f.raw + (RawOf(fs[1..]) + rest);
    FrameThenMore(f, RawOf(fs[1..]) + rest);
  }

  /** The rest of an open message that is there is read. */
  lemma {:induction false} RestIsRead(b: Octets, sofar: Octets, text: Octets, rest: Octets, fs: seq<Frame>)
    requires BeginsWith(b, true, sofar, text, rest, fs)
    ensures ReadRest(b, sofar) == TextRead(text, rest)
    decreases |fs|
  {
    hide NextFrame, ReadServerFrame, IsMessage;
    FirstRead(b, true, fs, rest);
    var f := fs[0];
    assert |sofar + f.payload| <= |text|;
    if |fs| == 1 {
      assert RawOf(fs[1..]) + rest == rest && sofar + PayloadOf(fs) == sofar + f.payload;
    } else {
      assert text == (sofar + f.payload) + PayloadOf(fs[1..]);
      RestIsRead(RawOf(fs[1..]) + rest, sofar + f.payload, text, rest, fs[1..]);
    }
  }

  lemma ServerFrameCut(b: Octets) returns (f: Frame)
    requires ReadServerFrame(b).FrameRead?
    ensures NextFrame(true, f.raw) == Got(f)
    ensures var r := ReadServerFrame(b);
            b == f.raw + r.rest && f.fin == r.fin && f.opcode == r.opcode && f.payload == r.payload
  {
    hide NextFrame, ReadServerFrame;
    FramesAgree(b);
    f := NextFrame(true, b).frame;
    NextFrameRaw(true, b);
    assert b == b[..|f.raw|] + b[|f.raw|..];
  }

  /** One frame more in front. */
  lemma FrameBefore(f: Frame, open: bool, fs: seq<Frame>)
    requires NextFrame(true, f.raw) == Got(f) && f.opcode == (if open then 0 else 1)
    requires if f.fin then fs == [] else IsMessage(true, true, fs)
    ensures IsMessage(true, open, [f] + fs)
    ensures RawOf([f] + fs) == f.raw + RawOf(fs) && PayloadOf([f] + fs) == f.payload + PayloadOf(fs)
  {
    hide NextFrame;
    assert ([f] + fs)[1..] == fs;
    forall k | 0 <= k < |[f] + fs|
      ensures var g := ([f] + fs)[k];
              NextFrame(true, g.raw) == Got(g) && g.opcode == (if k == 0 && !open then 1 else 0)
                && (g.fin <==> k == |fs|) {
      if k > 0 {
        assert ([f] + fs)[k] == fs[k - 1];
      }
    }
  }

  /** What is read of an open message is there. */
  lemma {:induction false} ReadRestIs(b: Octets, sofar: Octets) returns (fs: seq<Frame>)
    requires ReadRest(b, sofar).TextRead?
    ensures BeginsWith(b, true, sofar, ReadRest(b, sofar).text, ReadRest(b, sofar).rest, fs)
    decreases |b|
  {
    hide NextFrame, ReadServerFrame, IsMessage, RawOf, PayloadOf;
    var f := ServerFrameCut(b);
    var r := ReadServerFrame(b);
    if f.fin {
      fs := [f];
      FrameBefore(f, true, []);
      NoFrames();
      assert [f] + [] == [f] && f.raw + [] == f.raw && f.payload + [] == f.payload;
    } else {
      var more := ReadRestIs(r.rest, sofar + f.payload);
      fs := [f] + more;
      FrameBefore(f, true, more);
      Regroup(b, sofar, f, r.rest, more, ReadRest(b, sofar).rest);
    }
  }

  lemma NoFrames()
    ensures RawOf([]) == [] && PayloadOf([]) == []
  {
  }

  lemma Regroup(b: Octets, sofar: Octets, f: Frame, behind: Octets, fs: seq<Frame>, rest: Octets)
    requires b == f.raw + behind && behind == RawOf(fs) + rest
    ensures b == (f.raw + RawOf(fs)) + rest
            && (sofar + f.payload) + PayloadOf(fs) == sofar + (f.payload + PayloadOf(fs))
  {
    hide RawOf, PayloadOf;
    Associative(f.raw, RawOf(fs), rest);
    Associative(sofar, f.payload, PayloadOf(fs));
  }

  /** The reader takes a text exactly if the stream begins with the frames of that message. */
  lemma ReadTextIff(b: Octets, text: Octets, rest: Octets)
    ensures ReadText(b) == TextRead(text, rest) <==> exists fs: seq<Frame> :: BeginsWith(b, false, [], text, rest, fs)
  {
    hide NextFrame, ReadServerFrame, ReadRest, IsMessage, RawOf, PayloadOf;
    if ReadText(b) == TextRead(text, rest) {
      var f := ServerFrameCut(b);
      var r := ReadServerFrame(b);
      if f.fin {
        FrameBefore(f, false, []);
        NoFrames();
        assert [f] + [] == [f] && f.raw + [] == f.raw && f.payload + [] == f.payload && [] + f.payload == f.payload;
        PayloadWithin(f);
        assert BeginsWith(b, false, [], text, rest, [f]);
      } else {
        var more := ReadRestIs(r.rest, f.payload);
        FrameBefore(f, false, more);
        Regroup(b, [], f, r.rest, more, rest);
        assert [] + f.payload == f.payload;
        assert BeginsWith(b, false, [], text, rest, [f] + more);
      }
    }
    if fs: seq<Frame> :| BeginsWith(b, false, [], text, rest, fs) {
      FirstRead(b, false, fs, rest);
      NoFrames();
      var f := fs[0];
      if |fs| == 1 {
        assert fs[1..] == [] && [] + rest == rest && [] + (f.payload + []) == f.payload;
      } else {
        assert [] + (f.payload + PayloadOf(fs[1..])) == f.payload + PayloadOf(fs[1..]);
        RestIsRead(RawOf(fs[1..]) + rest, f.payload, text, rest, fs[1..]);
      }
    }
  }

  lemma PayloadWithin(f: Frame)
    requires NextFrame(true, f.raw) == Got(f)
    ensures |f.payload| <= MAX_PAYLOAD
  {
    hide NextFrame;
    NextFrameRaw(true, f.raw);
  }
}
