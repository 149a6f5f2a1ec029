/**
  What the side-channel observer computes for one connection, as functions on values.

  The header acceptance and the decoding of one text message (UTF-8, JSON, JSON-RPC
  shape, id and size limits) are the functions `upgrade` and `rpc` of the configuration.
 */
module ObserverSpec {
  import opened Bytes
  import opened Options
  import opened GateSpec

  datatype Direction = Client | Server

  function Opposite(d: Direction): Direction
  {
    if d.Client? then Server else Client
  }

  datatype Parser = Parser(buffer: Octets, upgraded: bool, fragment: Option<nat>, payload: Octets)

  const IDLE := Parser([], false, None, [])

  /** Acceptance of an upgrade header; a client header offers the key the server must answer. */
  datatype Upgrade = Declined(reason: string) | Agreed(key: Option<Octets>)

  /** One decoded text message. */
  datatype Rpc =
    | BadRpc(reason: string)
    | Request(name: string, id: Option<Id>, detail: string)
    | Response(answers: Id, ok: bool, detail: string)

  datatype Config = Config(
    maxHeader: nat, maxFrame: nat, maxMessage: nat, maxEvents: nat,
    upgrade: (Direction, Octets, Option<Octets>) -> Upgrade,
    closePayload: Octets -> bool,
    rpc: (Direction, Octets) -> Rpc)

  datatype Event =
    | Gap(direction: Direction, reason: string, size: Option<(nat, nat)>)
    | Upgraded(direction: Direction)
    | Control(direction: Direction, opcode: nat)
    | RpcEvent(direction: Direction, id: Option<Id>, name: string, detail: string)
    | RpcUnknown(direction: Direction, id: Option<Id>, unknown: Option<string>, response: bool, detail: string)
    | RpcResponse(direction: Direction, answers: Id, name: string, ok: bool, detail: string)

  datatype Record = Record(seqNo: nat, event: Event)

  /**
    A connection without its two parsers, and the event queue.  `texts` is the history of
    the messages handed to the RPC layer.
   */
  datatype Link = Link(
    valid: bool, overflowed: bool, key: Option<Octets>, pending: map<(Direction, Id), string>,
    events: seq<Record>, nextSeq: nat, texts: seq<(Direction, Octets)>)

  datatype Obs = Obs(link: Link, client: Parser, server: Parser)

  /** A new connection. */
  const OPENED := Obs(Link(true, false, None, map[], [], 1, []), IDLE, IDLE)

  const MAX_PENDING := 256

  const KNOWN_METHODS: set<string> := {
    "initialize", "initialized", "thread/start", "thread/resume", "thread/fork",
    "thread/read", "thread/inject_items", "thread/subscribe", "thread/unsubscribe", "thread/started",
    "skills/list"}

  function BufferLimit(c: Config): nat
  {
    c.maxMessage + c.maxHeader + 32
  }

  function Side(o: Obs, d: Direction): Parser
  {
    if d.Client? then o.client else o.server
  }

  function WithSide(o: Obs, d: Direction, p: Parser): Obs
  {
    if d.Client? then o.(client := p) else o.(server := p)
  }

  // ---------------------------------------------------------------- events

  function Cleared(p: Parser): Parser
  {
    p.(buffer := [], payload := [], fragment := None)
  }

  function Invalidate(l: Link): Link
  {
    l.(valid := false, pending := map[])
  }

  /** A connection that has become invalid loses what its parsers hold. */
  function Conclude(o: Obs, l: Link): Obs
  {
    if l.valid then o.(link := l) else Obs(l, Cleared(o.client), Cleared(o.server))
  }

  /** Append an event, or the one overflow gap that ends the connection's records. */
  function Emit(c: Config, l: Link, d: Direction, e: Event): Link
  {
    if l.overflowed then l
    else if |l.events| + 1 >= c.maxEvents then
      Invalidate(l).(overflowed := true, nextSeq := l.nextSeq + 2,
                     events := l.events + [Record(l.nextSeq + 1, Gap(d, "event_queue_overflow", None))])
    else
      l.(nextSeq := l.nextSeq + 1, events := l.events + [Record(l.nextSeq, e)])
  }

  function SizedGap(c: Config, l: Link, d: Direction, reason: string, size: Option<(nat, nat)>): Link
  {
    if l.valid then Emit(c, Invalidate(l), d, Gap(d, reason, size)) else l
  }

  function RaiseGap(c: Config, l: Link, d: Direction, reason: string): Link
  {
    SizedGap(c, l, d, reason, None)
  }

  // ---------------------------------------------------------------- messages

  function ProcessRequest(c: Config, l: Link, d: Direction, name: string, id: Option<Id>, detail: string): Link
  {
    if id.Some? && |l.pending| >= MAX_PENDING then RaiseGap(c, l, d, "pending_requests_too_many")
    else if id.Some? && (d, id.value) in l.pending then RaiseGap(c, l, d, "duplicate_request_id")
    else
      var l' := if id.Some? then l.(pending := l.pending[(d, id.value) := name]) else l;
      Emit(c, l', d, if name in KNOWN_METHODS then RpcEvent(d, id, name, detail)
                     else RpcUnknown(d, id, Some(name), false, detail))
  }

  function ProcessResponse(c: Config, l: Link, d: Direction, id: Id, ok: bool, detail: string): Link
  {
    var asked := (Opposite(d), id);
    if asked !in l.pending then Emit(c, l, d, RpcUnknown(d, Some(id), None, true, ""))
    else
      var name := l.pending[asked];
      Emit(c, l.(pending := l.pending - {asked}), d,
           if name in KNOWN_METHODS then RpcResponse(d, id, name, ok, if ok then detail else "")
           else RpcUnknown(d, Some(id), Some(name), true, ""))
  }

  function ProcessText(c: Config, l: Link, d: Direction, payload: Octets): Link
  {
    var l' := l.(texts := l.texts + [(d, payload)]);
    match c.rpc(d, payload)
    case BadRpc(reason) => RaiseGap(c, l', d, reason)
    case Request(name, id, detail) => ProcessRequest(c, l', d, name, id, detail)
    case Response(id, ok, detail) => ProcessResponse(c, l', d, id, ok, detail)
  }

  // ---------------------------------------------------------------- frames

  datatype FrameHead =
    | Unready
    | Unacceptable(reason: string, size: Option<(nat, nat)>)
    | Framed(fin: bool, opcode: nat, offset: nat, total: nat)

  function MaskSize(d: Direction): nat
  {
    if d.Client? then 4 else 0
  }

  /** The observer's reading of a frame header, with the checks in the observer's order. */
  function ReadFrameHead(c: Config, d: Direction, b: Octets): FrameHead
  {
    if |b| < 2 then Unready
    else if (b[0] / 16) % 8 != 0 then Unacceptable("reserved_bits", None)
    else if (b[1] >= 128) != d.Client? then
      Unacceptable(if d.Client? then "client_frame_unmasked" else "server_frame_masked", None)
    else
      var fin, opcode, code := b[0] >= 128, b[0] % 16, b[1] % 128;
      var offset := if code < 126 then 2 else if code == 126 then 4 else 10;
      if |b| < offset then Unready
      else if code == 127 && b[2] >= 128 then Unacceptable("invalid_frame_length", None)
      else
        var length := if code < 126 then code else BigEndian(b[2..offset]);
        if opcode >= 11 then Unacceptable("unsupported_opcode", None)
        else if opcode >= 8 && (!fin || length > 125) then Unacceptable("invalid_control_frame", None)
        else if length > c.maxFrame then Unacceptable("frame_too_large", Some((length, c.maxFrame)))
        else Framed(fin, opcode, offset, offset + MaskSize(d) + length)
  }

  function FramePayload(d: Direction, b: Octets, offset: nat, total: nat): Octets
    requires offset + MaskSize(d) <= total <= |b|
  {
    if d.Client? then Unmask(b[offset..offset + 4], b[offset + 4..total]) else b[offset..total]
  }

  /** A whole frame, already cut off `p.buffer`: what becomes of the link and of the parser. */
  function ProcessFrame(c: Config, l: Link, p: Parser, d: Direction, fin: bool, opcode: nat, payload: Octets)
    : (Link, Parser)
  {
    if opcode >= 8 then
      (if opcode == 8 && !c.closePayload(payload) then RaiseGap(c, l, d, "invalid_close_payload")
       else Emit(c, l, d, Control(d, opcode)), p)
    else if opcode == 0 then
      if p.fragment.None? then (RaiseGap(c, l, d, "unexpected_continuation"), p)
      else
        var whole := p.payload + payload;
        if |whole| > c.maxMessage then (SizedGap(c, l, d, "message_too_large", Some((|whole|, c.maxMessage))), p)
        else if !fin then (l, p.(payload := whole))
        else
          (if p.fragment.value == 1 then ProcessText(c, l, d, whole) else RaiseGap(c, l, d, "binary_message"),
           p.(fragment := None, payload := []))
    else if opcode <= 2 then
      if p.fragment.Some? then (RaiseGap(c, l, d, "new_data_during_fragment"), p)
      else if |payload| > c.maxMessage then
        (SizedGap(c, l, d, "message_too_large", Some((|payload|, c.maxMessage))), p)
      else if !fin then (l, p.(fragment := Some(opcode), payload := payload))
      else (if opcode == 1 then ProcessText(c, l, d, payload) else RaiseGap(c, l, d, "binary_message"), p)
    else (RaiseGap(c, l, d, "unsupported_opcode"), p)
  }

  datatype Step = Wait | Next(obs: Obs)

  /** One turn of the frame loop. */
  function FrameStep(c: Config, o: Obs, d: Direction): Step
  {
    var p := Side(o, d);
    match ReadFrameHead(c, d, p.buffer)
    case Unready => Wait
    case Unacceptable(reason, size) => Next(Conclude(o, SizedGap(c, o.link, d, reason, size)))
    case Framed(fin, opcode, offset, total) =>
      if |p.buffer| < total then Wait
      else
        var payload := FramePayload(d, p.buffer, offset, total);
        var (l, p') := ProcessFrame(c, o.link, p.(buffer := p.buffer[total..]), d, fin, opcode, payload);
        Next(Conclude(WithSide(o, d, p'), l))
  }

  function ParseFrames(c: Config, o: Obs, d: Direction): Obs
    decreases |Side(o, d).buffer|
  {
    if !o.link.valid then o
    else
      match FrameStep(c, o, d)
      case Wait => o
      case Next(o') =>
        StepShrinks(c, o, d);
        ParseFrames(c, o', d)
  }

  // ---------------------------------------------------------------- handshake and calls

  /** A header cut off the buffer, `behind` left in it: the connection goes on only if it is accepted. */
  function UpgradeCut(c: Config, o: Obs, d: Direction, header: Octets, behind: Octets): Obs
  {
    var p := Side(o, d).(buffer := behind);
    match c.upgrade(d, header, o.link.key)
    case Declined(reason) => Conclude(WithSide(o, d, p), RaiseGap(c, o.link, d, reason))
    case Agreed(key) =>
      var l := if d.Client? then o.link.(key := key) else o.link;
      Conclude(WithSide(o, d, p.(upgraded := true)), Emit(c, l, d, Upgraded(d)))
  }

  function ParseUpgrade(c: Config, o: Obs, d: Direction): Obs
  {
    var b := Side(o, d).buffer;
    match FindHeaderEnd(b)
    case NoHeaderEnd =>
      if |b| > c.maxHeader then Conclude(o, RaiseGap(c, o.link, d, "header_too_large")) else o
    case HeaderEnd(end) =>
      if end > c.maxHeader then Conclude(o, RaiseGap(c, o.link, d, "header_too_large"))
      else UpgradeCut(c, o, d, b[..end], b[end..])
  }

  /** The parser's buffer grows, unless the connection is already invalid. */
  function Push(o: Obs, d: Direction, data: Octets): Obs
  {
    if o.link.valid then WithSide(o, d, Side(o, d).(buffer := Side(o, d).buffer + data)) else o
  }

  /** One call of `feed` on an open connection. */
  function Observe(c: Config, o: Obs, d: Direction, data: Octets): Obs
  {
    if !o.link.valid then o
    else if |Side(o, d).buffer| + |data| > BufferLimit(c) then
      Conclude(o, RaiseGap(c, o.link, d, "input_buffer_too_large"))
    else Parse(c, Push(o, d, data), d)
  }

  function Parse(c: Config, o: Obs, d: Direction): Obs
  {
    var o' := if Side(o, d).upgraded then o else ParseUpgrade(c, o, d);
    if o'.link.valid && Side(o', d).upgraded then ParseFrames(c, o', d) else o'
  }

  function ObserveAll(c: Config, o: Obs, d: Direction, pieces: seq<Octets>): Obs
    decreases |pieces|
  {
    if pieces == [] then o else ObserveAll(c, Observe(c, o, d, pieces[0]), d, pieces[1..])
  }

  // ---------------------------------------------------------------- termination

  /** Every turn of the frame loop takes at least a header off the buffer. */
  lemma StepShrinks(c: Config, o: Obs, d: Direction)
    requires o.link.valid && FrameStep(c, o, d).Next?
    ensures |Side(FrameStep(c, o, d).obs, d).buffer| + 2 <= |Side(o, d).buffer|
  {
    hide ReadFrameHead, ProcessFrame, FramePayload;
    HeadTotal(c, d, Side(o, d).buffer);
    var h := ReadFrameHead(c, d, Side(o, d).buffer);
    if h.Framed? {
      var p := Side(o, d);
      var payload := FramePayload(d, p.buffer, h.offset, h.total);
      BufferKept(c, o.link, p.(buffer := p.buffer[h.total..]), d, h.fin, h.opcode, payload);
    }
  }

  lemma HeadTotal(c: Config, d: Direction, b: Octets)
    ensures ReadFrameHead(c, d, b).Framed? ==>
              var h := ReadFrameHead(c, d, b); h.offset >= 2 && h.offset + MaskSize(d) <= h.total
    ensures ReadFrameHead(c, d, b).Unacceptable? ==> |b| >= 2
  {
    hide BigEndian;
  }

  lemma BufferKept(c: Config, l: Link, p: Parser, d: Direction, fin: bool, opcode: nat, payload: Octets)
    ensures ProcessFrame(c, l, p, d, fin, opcode, payload).1.buffer == p.buffer
  {
    hide ProcessText, SizedGap, Emit;
  }
}
