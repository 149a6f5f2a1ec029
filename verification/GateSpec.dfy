/**
  What the relay's byte gates compute, as functions on values.

  `NativeWebSocketGate` and its subclass `AuthWebSocketGate` share the frame
  decoder and the treatment of text and continuation frames; they differ in the
  control frames (the native gate refuses all of them), in the pending-id table
  and in the header bound.  JSON decoding and the RPC policy are one function of
  the message payload, `Gate.policy`.
 */
module GateSpec {
  import opened Bytes
  import opened Options

  /** A JSON-RPC id. */
  datatype Id = Number(n: int) | Text(s: string)

  /** The policy's answer for one complete message, with the message's id if it has one. */
  datatype Verdict = Refused(reason: string) | Admitted(id: Option<Id>)

  datatype Gate = Gate(server: bool, auth: bool, policy: Octets -> Verdict)

  const MAX_PAYLOAD := 65535
  const MAX_HANDSHAKE := 65536
  const MAX_CHUNK := 4 * 1024 * 1024

  // ---------------------------------------------------------------- frames

  datatype Frame = Frame(fin: bool, opcode: nat, payload: Octets, raw: Octets)

  datatype Parsed = NeedMore | Malformed(reason: string) | Got(frame: Frame)

  function HeaderLength(code: nat): nat
  {
    if code == 126 then 4 else if code == 127 then 10 else 2
  }

  function PayloadLength(b: Octets, code: nat): nat
    requires HeaderLength(code) <= |b|
  {
    if code == 126 || code == 127 then BigEndian(b[2..HeaderLength(code)]) else code
  }

  /** What the octets before the payload say: the size of the header, and of header, mask and payload together. */
  datatype Head = Short | Bad(reason: string) | Sized(header: nat, total: nat)

  /** The checks of the gate's decoder, in the gate's order. */
  function ReadHead(server: bool, b: Octets): Head
  {
    if |b| < 2 then Short
    else if (b[0] / 16) % 8 != 0 then Bad("websocket_compression_or_reserved")
    else if (b[1] >= 128) == server then Bad("websocket_mask_direction")
    else
      var code := b[1] % 128;
      if |b| < HeaderLength(code) then Short
      else if code == 127 && b[2] >= 128 then Bad("websocket_length")
      else
        var length := PayloadLength(b, code);
        if length > MAX_PAYLOAD then Bad("websocket_frame_too_large")
        else Sized(HeaderLength(code), HeaderLength(code) + MaskLength(server) + length)
  }

  function MaskLength(server: bool): nat
  {
    if server then 0 else 4
  }

  function CutFrame(server: bool, b: Octets, header: nat, total: nat): Frame
    requires 2 <= header && header + MaskLength(server) <= total <= |b|
  {
    var raw := b[..total];
    var payload := if server then raw[header..] else Unmask(raw[header..header + 4], raw[header + 4..]);
    Frame(b[0] >= 128, b[0] % 16, payload, raw)
  }

  /** The gate's decoder at the head of its buffer. */
  function NextFrame(server: bool, b: Octets): Parsed
  {
    match ReadHead(server, b)
    case Short => NeedMore
    case Bad(reason) => Malformed(reason)
    case Sized(header, total) => if |b| < total then NeedMore else Got(CutFrame(server, b, header, total))
  }

  lemma ReadHeadStable(server: bool, b: Octets, more: Octets)
    requires !ReadHead(server, b).Short?
    ensures ReadHead(server, b + more) == ReadHead(server, b)
  {
    var h := HeaderLength(b[1] % 128);
    if |b| >= h {
      assert (b + more)[2..h] == b[2..h];
    }
  }

  lemma NextFrameStable(server: bool, b: Octets, more: Octets)
    requires !NextFrame(server, b).NeedMore?
    ensures NextFrame(server, b + more) == NextFrame(server, b)
  {
    ReadHeadStable(server, b, more);
    var head := ReadHead(server, b);
    hide ReadHead, Unmask;
    if head.Sized? {
      assert (b + more)[..head.total] == b[..head.total];
    }
  }

  /** A decoded frame is a prefix of the buffer, at least two octets long, and decodes on its own. */
  lemma NextFrameRaw(server: bool, b: Octets)
    requires NextFrame(server, b).Got?
    ensures var f := NextFrame(server, b).frame;
            && 2 <= |f.raw| <= |b| && f.raw == b[..|f.raw|]
            && |f.payload| <= MAX_PAYLOAD
            && NextFrame(server, f.raw) == Got(f)
  {
    var f := NextFrame(server, b).frame;
    var head := ReadHead(server, b);
    assert f.raw == b[..head.total] && f.raw[..head.total] == f.raw;
    assert f.raw + b[head.total..] == b;
    assert !ReadHead(server, f.raw).Short? && 2 <= head.header && head.total <= head.header + 4 + MAX_PAYLOAD by {
      hide CutFrame, Unmask, BigEndian;
      assert f.raw[2..head.header] == b[2..head.header];
    }
    ReadHeadStable(server, f.raw, b[head.total..]);
  }

  /** An undecodable remainder is shorter than the largest frame of its direction. */
  lemma NeedMoreBound(server: bool, b: Octets)
    requires NextFrame(server, b).NeedMore?
    ensures |b| <= if server then 65544 else 65548
  {
  }

  // ---------------------------------------------------------------- gate state

  /** `held` are the raw frames of the message being assembled, `payload` their unmasked payload. */
  datatype Wire = Wire(upgraded: bool, closed: bool, buffer: Octets, payload: Octets, held: seq<Octets>)

  const FRESH := Wire(false, false, [], [], [])

  datatype Outcome =
    | Accepted(wire: Wire, pending: set<Id>, output: Octets, texts: seq<Octets>)
    | Rejected(reason: string, wire: Wire, pending: set<Id>)

  function More(w: Wire, more: Octets): Wire
  {
    w.(buffer := w.buffer + more)
  }

  /** Continue an accepted step with what happens next; output and texts accumulate in order. */
  function Then(first: Outcome, next: Outcome): Outcome
    requires first.Accepted?
  {
    if next.Accepted?
    then Accepted(next.wire, next.pending, first.output + next.output, first.texts + next.texts)
    else next
  }

  /** The whole message is in `w.payload`: ask the policy, update the id table, release the frames. */
  function CompleteMessage(g: Gate, w: Wire, pending: set<Id>): Outcome
  {
    match g.policy(w.payload)
    case Refused(reason) => Rejected(reason, w, pending)
    case Admitted(id) =>
      if !g.auth && id.Some? && (id.value in pending) != g.server
      then Rejected(if g.server then "response_id_mismatch" else "rpc_id_reused", w, pending)
      else
        var pending' := if g.auth || id.None? then pending
                        else if g.server then pending - {id.value}
                        else pending + {id.value};
        Accepted(w.(payload := [], held := []), pending', Flatten(w.held), [w.payload])
  }

  /** One decoded frame; `w.buffer` is what follows it. */
  function TakeFrame(g: Gate, w: Wire, pending: set<Id>, f: Frame): (r: Outcome)
    ensures r.wire.buffer == w.buffer
  {
    if f.opcode == 1 then
      if w.held != [] then Rejected("websocket_fragment_start", w, pending)
      else
        var w' := w.(payload := w.payload + f.payload, held := [f.raw]);
        if f.fin then CompleteMessage(g, w', pending) else Accepted(w', pending, [], [])
    else if f.opcode == 0 then
      if w.held == [] then Rejected("websocket_fragment_continuation", w, pending)
      else
        var w' := w.(payload := w.payload + f.payload, held := w.held + [f.raw]);
        if |w'.payload| > MAX_PAYLOAD then Rejected("websocket_message_too_large", w', pending)
        else if f.fin then CompleteMessage(g, w', pending) else Accepted(w', pending, [], [])
    else if g.auth && 8 <= f.opcode <= 10 then
      if !f.fin || |f.payload| > 125 || (f.opcode == 8 && |f.payload| == 1)
      then Rejected("websocket_control_frame", w, pending)
      else if f.opcode == 8 then
        if w.buffer != [] then Rejected("websocket_after_close", w, pending)
        else Accepted(w.(payload := [], held := [], closed := true), pending, f.raw, [])
      else Accepted(w, pending, f.raw, [])
    else Rejected("websocket_frame_opcode", w, pending)
  }

  /** The gate's loop: decode and take frames until the buffer holds no whole frame. */
  function Drain(g: Gate, w: Wire, pending: set<Id>): Outcome
    decreases |w.buffer|
  {
    if w.closed then Accepted(w, pending, [], [])
    else
      match NextFrame(g.server, w.buffer)
      case NeedMore => Accepted(w, pending, [], [])
      case Malformed(reason) => Rejected(reason, w, pending)
      case Got(f) =>
        NextFrameRaw(g.server, w.buffer);
        var t := TakeFrame(g, w.(buffer := w.buffer[|f.raw|..]), pending, f);
        if t.Rejected? then t else Then(t, Drain(g, t.wire, t.pending))
  }

  /** What draining does with the frame at the head, for proofs that keep `Drain` folded. */
  lemma DrainFrame(g: Gate, w: Wire, pending: set<Id>, f: Frame)
    requires !w.closed && NextFrame(g.server, w.buffer) == Got(f)
    ensures 2 <= |f.raw| <= |w.buffer| && f.raw + w.buffer[|f.raw|..] == w.buffer
    ensures NextFrame(g.server, f.raw) == Got(f) && |f.payload| <= MAX_PAYLOAD
    ensures var t := TakeFrame(g, w.(buffer := w.buffer[|f.raw|..]), pending, f);
            Drain(g, w, pending) == if t.Rejected? then t else Then(t, Drain(g, t.wire, t.pending))
  {
    NextFrameRaw(g.server, w.buffer);
  }

  lemma DrainClosed(g: Gate, w: Wire, pending: set<Id>)
    requires w.closed
    ensures Drain(g, w, pending) == Accepted(w, pending, [], [])
  {
  }

  /** One call of `feed`. */
  function Feed(g: Gate, w: Wire, pending: set<Id>, data: Octets): Outcome
  {
    if |data| > MAX_CHUNK || (g.auth && w.closed) then Rejected("wire_chunk", w, pending)
    else
      var w' := More(w, data);
      if w.upgraded then Drain(g, w', pending)
      else
        match FindHeaderEnd(w'.buffer)
        case NoHeaderEnd =>
          if |w'.buffer| > MAX_HANDSHAKE then Rejected("websocket_handshake_size", w', pending)
          else Accepted(w', pending, [], [])
        case HeaderEnd(end) =>
          if g.auth && end > MAX_HANDSHAKE then Rejected("websocket_handshake_size", w', pending)
          else
            Then(Accepted(w', pending, w'.buffer[..end], []),
                 Drain(g, w'.(upgraded := true, buffer := w'.buffer[end..]), pending))
  }

  /** A run: the calls in order, stopping at the first rejection. */
  function FeedAll(g: Gate, w: Wire, pending: set<Id>, chunks: seq<Octets>): Outcome
    decreases |chunks|
  {
    if chunks == [] then Accepted(w, pending, [], [])
    else
      var first := Feed(g, w, pending, chunks[0]);
      if first.Rejected? then first
      else Then(first, FeedAll(g, first.wire, first.pending, chunks[1..]))
  }
}
