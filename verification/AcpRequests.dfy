/**
  The begin and receive requests of an ACP session: what their decoders accept, and the text
  a stored request has.  Strings are octets.
 */
module AcpRequests {
  import opened JsonText

  const MAX_INT64 := 9223372036854775807

  /** What a prompt is bound to, and all that a reservation records. */
  datatype Prompt = Prompt(
    binding: string, epoch: int, session: string, batch: string, attempt: string, render: string, prompt: string,
    ordinal: int)

  datatype Begin = Begin(prompt: Prompt, request: string, capability: string, control: string, token: string)

  datatype Receive = Receive(begin: Begin, rpc: int, response: string, stop: string)

  /**
    The digests that make up names and request ids, the character and path checks of a text,
    and the quoting of a JSON string.
   */
  datatype Host = Host(
    reservationDigest: Prompt -> string, receiptDigest: (string, int, string) -> string,
    beginId: Prompt -> string, receiveId: (Prompt, int, string, string) -> string,
    plain: string -> bool, clean: string -> bool, quote: string -> string)

  predicate HexDigit(c: char)
  {
    '0' <= c <= '9' || 'a' <= c <= 'f'
  }

  /** 64 lower-case hex digits. */
  predicate Digest(s: string)
  {
    |s| == 64 && forall i :: 0 <= i < 64 ==> HexDigit(s[i])
  }

  ghost predicate Honest(m: Host)
  {
    && (forall p :: Digest(m.reservationDigest(p))) && (forall b, e, a :: Digest(m.receiptDigest(b, e, a)))
    && Quoting(m.quote)
  }

  // ---------------------------------------------------------------- decoders

  predicate AcpText(m: Host, s: string, max: nat)
  {
    1 <= |s| <= max && m.plain(s)
  }

  predicate AcpPath(m: Host, s: string)
  {
    AcpText(m, s, 4096) && m.clean(s)
  }

  /** The fields both requests have; the schema version and the owner mode are constants. */
  predicate BeginFields(m: Host, b: Begin)
  {
    var p := b.prompt;
    && AcpText(m, p.binding, 128) && 0 < p.epoch <= MAX_INT64 && AcpText(m, b.request, 128)
    && AcpPath(m, b.capability) && AcpPath(m, b.control)
    && AcpText(m, p.session, 512) && AcpText(m, p.batch, 128) && AcpText(m, p.attempt, 128) && AcpText(m, b.token, 256)
    && Digest(p.render) && Digest(p.prompt) && 0 < p.ordinal <= MAX_INT64
  }

  predicate DecodesBegin(m: Host, b: Begin)
  {
    BeginFields(m, b) && b.request == m.beginId(b.prompt)
  }

  predicate DecodesReceive(m: Host, q: Receive)
  {
    && BeginFields(m, q.begin) && 0 < q.rpc <= MAX_INT64 && Digest(q.response) && AcpText(m, q.stop, 128)
    && q.begin.request == m.receiveId(q.begin.prompt, q.rpc, q.response, q.stop)
  }

  // ---------------------------------------------------------------- stored text

  function OwnerText(m: Host, b: Begin): string
  {
    "{\"schema_version\":1,\"binding_id\":" + m.quote(b.prompt.binding) + ",\"owner_epoch\":" + Decimal(b.prompt.epoch)
    + ",\"request_id\":" + m.quote(b.request) + ",\"owner_mode\":\"local\",\"owner_capability_file\":"
    + m.quote(b.capability) + ",\"control_file\":" + m.quote(b.control)
  }

  function BatchText(m: Host, b: Begin): string
  {
    ",\"native_session_id\":" + m.quote(b.prompt.session) + ",\"batch_id\":" + m.quote(b.prompt.batch)
    + ",\"attempt_id\":" + m.quote(b.prompt.attempt) + ",\"claim_token\":" + m.quote(b.token)
    + ",\"render_sha256\":" + m.quote(b.prompt.render) + ",\"prompt_sha256\":" + m.quote(b.prompt.prompt)
  }

  /** The line stored for a completed prompt, without its newline. */
  function ReceiptText(m: Host, q: Receive): string
  {
    OwnerText(m, q.begin) + BatchText(m, q.begin) + ",\"turn_ordinal\":" + Decimal(q.begin.prompt.ordinal)
    + ",\"rpc_request_id\":" + Decimal(q.rpc) + ",\"response_sha256\":" + m.quote(q.response)
    + ",\"stop_reason\":" + m.quote(q.stop) + "}"
  }

  /** The record of a reservation, without its newline. */
  function ReservationText(m: Host, p: Prompt): string
  {
    "{\"version\":1,\"binding_id\":" + m.quote(p.binding) + ",\"owner_epoch\":" + Decimal(p.epoch)
    + ",\"native_session_id\":" + m.quote(p.session) + ",\"batch_id\":" + m.quote(p.batch)
    + ",\"attempt_id\":" + m.quote(p.attempt) + ",\"render_sha256\":" + m.quote(p.render)
    + ",\"prompt_sha256\":" + m.quote(p.prompt) + ",\"turn_ordinal\":" + Decimal(p.ordinal) + "}"
  }

  lemma Int64Digits(n: int)
    requires 0 < n <= MAX_INT64
    ensures 1 <= |Decimal(n)| <= 19
  {
    assert Power(19) == 10000000000000000000 by {
      assert Power(10) == 10000000000;
    }
    DigitsBound(n, 19, 10000000000000000000);
    DecimalDigits(n);
  }

  lemma OwnerTextSize(m: Host, b: Begin)
    requires Honest(m) && BeginFields(m, b)
    ensures |OwnerText(m, b)| <= 51200
  {
    Int64Digits(b.prompt.epoch);
    assert |m.quote(b.prompt.binding)| <= 770 && |m.quote(b.request)| <= 770;
    assert |m.quote(b.capability)| <= 24578 && |m.quote(b.control)| <= 24578;
    hide Honest, BeginFields, Decimal;
  }

  lemma BatchTextSize(m: Host, b: Begin)
    requires Honest(m) && BeginFields(m, b)
    ensures |BatchText(m, b)| <= 7500
  {
    assert |m.quote(b.prompt.session)| <= 3074 && |m.quote(b.prompt.batch)| <= 770
           && |m.quote(b.prompt.attempt)| <= 770;
    assert |m.quote(b.token)| <= 1538 && |m.quote(b.prompt.render)| <= 386 && |m.quote(b.prompt.prompt)| <= 386;
    hide Honest, BeginFields;
  }

  /** A receive request that decodes is stored in at most 64 KiB. */
  lemma ReceiptFits(m: Host, q: Receive)
    requires Honest(m) && DecodesReceive(m, q)
    ensures 1 <= |ReceiptText(m, q)| + 1 <= 65536
  {
    OwnerTextSize(m, q.begin);
    BatchTextSize(m, q.begin);
    Int64Digits(q.begin.prompt.ordinal);
    Int64Digits(q.rpc);
    assert |m.quote(q.response)| <= 386 && |m.quote(q.stop)| <= 770;
    hide Honest, DecodesReceive, OwnerText, BatchText, Decimal;
  }

  /** So is the record of a reservation. */
  lemma ReservationFits(m: Host, b: Begin)
    requires Honest(m) && DecodesBegin(m, b)
    ensures 1 <= |ReservationText(m, b.prompt)| + 1 <= 65536
  {
    var p := b.prompt;
    Int64Digits(p.epoch);
    Int64Digits(p.ordinal);
    assert |m.quote(p.binding)| <= 770 && |m.quote(p.session)| <= 3074 && |m.quote(p.batch)| <= 770;
    assert |m.quote(p.attempt)| <= 770 && |m.quote(p.render)| <= 386 && |m.quote(p.prompt)| <= 386;
    hide Honest, DecodesBegin, Decimal;
  }
}
