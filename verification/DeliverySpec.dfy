/**
  The durable delivery ledger: one directory of artifacts per batch, and the status each
  batch moves through.  Hashes, and the quoting of a JSON string, are functions of their text.
 */
module DeliverySpec {
  import opened Options
  import opened JsonText
  import opened BatchSpec

  /** `seedHash` digests what a delivery id is made of: thread, epoch, task and source events. */
  datatype Env = Env(
    goHash: Intent -> string, sha: string -> string, quote: string -> string,
    seedHash: (string, int, string, seq<SourceEvent>) -> string)

  /** `persisted` is the canonical JSON of the whole attachment, as the ledger stores it. */
  datatype Attachment = Attachment(thread: string, epoch: int, ownerContext: string, persisted: string)

  /** An event as its task reports it. */
  datatype TaskEvent = TaskEvent(
    version: int, task: string, id: string, slot: string, kind: string, revision: int, workRevision: int,
      payloadHash: string)

  /** The ledger's own record of an event beside its projection. */
  datatype SourceEvent = SourceEvent(
    nativeId: string, nativeSlot: string, id: string, revision: int, payloadHash: string, slot: string, kind: string,
    workRevision: int)

  datatype Phase = Pending | Sending | TransportAccepted | DeliveryUncertain | HistoryConfirmed | ControllerAcked

  datatype StatusFile = StatusFile(
    version: int, delivery: string, thread: string, epoch: int, revision: int, phase: Phase, transport: string,
    reason: Option<string>, turn: Option<string>, item: Option<string>, proof: Option<string>, ack: Option<string>)

  datatype SendClaim = SendClaim(
    version: int, status: string, delivery: string, thread: string, epoch: int, revision: int, intentHash: string)

  datatype OwnerBinding = OwnerBinding(version: int, ownerContext: string, nonce: string, thread: string, revision: int)

  datatype BatchDir = BatchDir(
    owner: Attachment, binding: OwnerBinding, intent: Intent, claim: SendClaim, task: string, source: seq<SourceEvent>,
    status: StatusFile)

  datatype Envelope = Envelope(
    version: int, delivery: string, thread: string, epoch: int, events: seq<Event>, payloadHash: string)

  datatype Batch = Batch(
    id: string, task: string, thread: string, epoch: int, phase: Phase, envelope: Envelope, source: seq<SourceEvent>,
    proof: Option<string>, turn: Option<string>, item: Option<string>)

  /** `stages` are the hidden directories of batches whose preparation died. */
  datatype Ledger = Ledger(dirs: map<string, BatchDir>, stages: set<string>)

  const DELIVERABLE := ["question", "result", "failed", "launch_rejected", "unknown", "stopped"]

  predicate Blocking(p: Phase)
  {
    p.Pending? || p.Sending? || p.TransportAccepted? || p.DeliveryUncertain?
  }

  // ---------------------------------------------------------------- texts

  function EventText(env: Env, e: Event): string
  {
    "{\"action_slot\":" + env.quote(e.slot) + ",\"event_id\":" + env.quote(e.id) + ",\"event_revision\":"
    + Decimal(e.revision) + ",\"kind\":" + env.quote(e.kind) + ",\"payload_hash\":" + env.quote(e.payloadHash) + "}"
  }

  function EventsText(env: Env, events: seq<Event>): string
    decreases |events|
  {
    if events == [] then ""
    else
      EventsText(env, events[..|events| - 1]) + (if |events| == 1 then "" else ",")
      + EventText(env, events[|events| - 1])
  }

  /** The canonical JSON of an intent: keys in order, nothing between tokens. */
  function IntentText(env: Env, i: Intent): string
  {
    "{\"controller_epoch\":" + Decimal(i.epoch) + ",\"controller_thread\":" + env.quote(i.controller)
    + ",\"delivery_id\":" + env.quote(i.delivery) + ",\"events\":[" + EventsText(env, i.events) + "],\"nonce\":"
    + env.quote(i.nonce) + ",\"payload_hash\":" + env.quote(i.payloadHash) + ",\"revision\":" + Decimal(i.revision)
    + ",\"state\":" + env.quote(i.state) + ",\"version\":" + Decimal(i.version) + "}"
  }

  /** The canonical JSON of an envelope, or of its body when `hash` is absent. */
  function EnvelopeText(env: Env, e: Envelope, hash: bool): string
  {
    "{\"controller_epoch\":" + Decimal(e.epoch) + ",\"controller_thread_id\":" + env.quote(e.thread)
    + ",\"delivery_id\":" + env.quote(e.delivery) + ",\"events\":[" + EventsText(env, e.events) + "]"
    + (if hash then ",\"payload_hash\":" + env.quote(e.payloadHash) else "") + ",\"version\":" + Decimal(e.version)
      + "}"
  }

  function Field(env: Env, key: string, value: Option<string>): string
  {
    if value.None? then "" else key + env.quote(value.value)
  }

  function PhaseName(p: Phase): string
  {
    match p
    case Pending => "pending"
    case Sending => "sending"
    case TransportAccepted => "transport_accepted"
    case DeliveryUncertain => "delivery_uncertain"
    case HistoryConfirmed => "history_confirmed"
    case ControllerAcked => "controller_acked"
  }

  function ClaimText(env: Env, c: SendClaim): string
  {
    "{\"controller_epoch\":" + Decimal(c.epoch) + ",\"controller_thread\":" + env.quote(c.thread) + ",\"delivery_id\":"
    + env.quote(c.delivery) + ",\"intent_sha256\":" + env.quote(c.intentHash) + ",\"revision\":" + Decimal(c.revision)
    + ",\"status\":" + env.quote(c.status) + ",\"version\":" + Decimal(c.version) + "}"
  }

  function BindingText(env: Env, b: OwnerBinding): string
  {
    "{\"controller_thread\":" + env.quote(b.thread) + ",\"nonce\":" + env.quote(b.nonce) + ",\"owner_context_sha256\":"
    + env.quote(b.ownerContext) + ",\"revision\":" + Decimal(b.revision) + ",\"version\":" + Decimal(b.version) + "}"
  }

  function StatusText(env: Env, s: StatusFile): string
  {
    StatusFields(env, s) + ",\"controller_thread\":" + env.quote(s.thread) + ",\"delivery_id\":" + env.quote(s.delivery)
    + ",\"revision\":" + Decimal(s.revision) + ",\"state\":" + env.quote(PhaseName(s.phase)) + ",\"transport_status\":"
    + env.quote(s.transport) + ",\"version\":" + Decimal(s.version) + "}"
  }

  /** The fields a transition adds, with the epoch between them; their order in the file does not matter here. */
  function StatusFields(env: Env, s: StatusFile): string
  {
    "{\"controller_epoch\":" + Decimal(s.epoch) + Field(env, ",\"controller_ack_sha256\":", s.ack)
    + Field(env, ",\"history_proof_sha256\":", s.proof) + Field(env, ",\"native_item_id\":", s.item)
    + Field(env, ",\"native_turn_id\":", s.turn) + Field(env, ",\"uncertain_reason\":", s.reason)
  }

  function SourceEventText(env: Env, e: SourceEvent): string
  {
    "{\"action_slot\":" + env.quote(e.slot) + ",\"event_id\":" + env.quote(e.id) + ",\"event_revision\":"
    + Decimal(e.revision) + ",\"kind\":" + env.quote(e.kind) + ",\"native_action_slot\":" + env.quote(e.nativeSlot)
    + ",\"native_event_id\":" + env.quote(e.nativeId) + ",\"payload_hash\":" + env.quote(e.payloadHash)
    + ",\"work_revision\":" + Decimal(e.workRevision) + "}"
  }

  function SourceEventsText(env: Env, events: seq<SourceEvent>): string
    decreases |events|
  {
    if events == [] then ""
    else
      SourceEventsText(env, events[..|events| - 1]) + (if |events| == 1 then "" else ",")
      + SourceEventText(env, events[|events| - 1])
  }

  function SourceText(env: Env, task: string, events: seq<SourceEvent>): string
  {
    "{\"events\":[" + SourceEventsText(env, events) + "],\"task_id\":" + env.quote(task) + ",\"version\":1}"
  }

  const LEDGER_LIMIT := 128 * 1024

  /** The ledger's own limit on the files of a batch, each with a newline. */
  predicate Readable(env: Env, d: BatchDir)
  {
    && |IntentText(env, d.intent)| < LEDGER_LIMIT && |ClaimText(env, d.claim)| < LEDGER_LIMIT
    && |StatusText(env, d.status)| < LEDGER_LIMIT && |SourceText(env, d.task, d.source)| < LEDGER_LIMIT
    && |d.owner.persisted| < LEDGER_LIMIT
  }

  // ---------------------------------------------------------------- projection

  function Alias(env: Env, prefix: string, value: string): string
  {
    var digest := env.sha(value);
    prefix + if |digest| < 32 then digest else digest[..32]
  }

  /** The checks on one reported event, in order. */
  function RowError(task: string, e: TaskEvent): Option<string>
  {
    if e.version != 1 || e.task != task then Some("event_owner")
    else if !(1 <= |e.id| <= 256 && 1 <= |e.slot| <= 256) then Some("event_identity")
    else if e.revision < 1 || e.workRevision < 1 then Some("event_revision")
    else if e.kind !in DELIVERABLE || !SafeHash(e.payloadHash) then Some("event_delivery_class")
    else None
  }

  function NativeEvent(env: Env, e: TaskEvent): Event
  {
    Event(Alias(env, "e_", e.id), e.revision, if e.kind == "question" then e.kind else "result", e.payloadHash,
          Alias(env, "s_", e.slot))
  }

  function SourceOf(env: Env, e: TaskEvent): SourceEvent
  {
    SourceEvent(Alias(env, "e_", e.id), Alias(env, "s_", e.slot), e.id, e.revision, e.payloadHash, e.slot, e.kind,
                e.workRevision)
  }

  predicate Clashes(events: seq<Event>, e: Event)
  {
    exists k :: 0 <= k < |events| && (events[k].id == e.id || events[k].slot == e.slot)
  }

  function ProjectRows(env: Env, task: string, rows: seq<TaskEvent>): (r: Result<(seq<Event>, seq<SourceEvent>)>)
    ensures r.Success? ==> |r.value.0| == |r.value.1| == |rows|
    decreases |rows|
  {
    if rows == [] then Success(([], []))
    else
      var init, e := ProjectRows(env, task, rows[..|rows| - 1]), rows[|rows| - 1];
      if init.Failure? then init
      else if RowError(task, e).Some? then Failure(RowError(task, e).value)
      else if Clashes(init.value.0, NativeEvent(env, e)) then Failure("event_alias_conflict")
      else Success((init.value.0 + [NativeEvent(env, e)], init.value.1 + [SourceOf(env, e)]))
  }

  function Project(env: Env, task: string, rows: seq<TaskEvent>): Result<(seq<Event>, seq<SourceEvent>)>
  {
    if !SafeName(task) || !(1 <= |rows| <= 8) then Failure("events_shape") else ProjectRows(env, task, rows)
  }

  function DeliveryId(env: Env, a: Attachment, task: string, source: seq<SourceEvent>): string
  {
    var digest := env.seedHash(a.thread, a.epoch, task, source);
    "d_" + if |digest| < 40 then digest else digest[..40]
  }

  // ---------------------------------------------------------------- artifacts

  function NewIntent(env: Env, id: string, a: Attachment, events: seq<Event>): Intent
  {
    var i := Intent(1, id, id, a.thread, a.epoch, 1, "prepared", events, "");
    i.(payloadHash := BatchHash(env.goHash, i))
  }

  function NewClaim(env: Env, i: Intent): SendClaim
  {
    SendClaim(1, "claimed", i.delivery, i.controller, i.epoch, 1, env.sha(IntentText(env, i)))
  }

  function NewBatch(env: Env, id: string, a: Attachment, task: string, events: seq<Event>,
                    source: seq<SourceEvent>): BatchDir
  {
    var i := NewIntent(env, id, a, events);
    BatchDir(a, OwnerBinding(1, a.ownerContext, id, a.thread, 1), i, NewClaim(env, i), task, source,
             StatusFile(1, id, a.thread, a.epoch, 1, Pending, "ready", None, None, None, None, None))
  }

  function NativeEnvelope(env: Env, i: Intent): Envelope
  {
    var e := Envelope(1, i.delivery, i.controller, i.epoch, i.events, "");
    e.(payloadHash := env.sha(EnvelopeText(env, e, false)))
  }

  predicate Mapped(source: seq<SourceEvent>, events: seq<Event>)
  {
    && |source| == |events|
    && forall k :: 0 <= k < |events| ==>
         && source[k].nativeId == events[k].id && source[k].nativeSlot == events[k].slot
         && source[k].payloadHash == events[k].payloadHash && source[k].revision == events[k].revision
  }

  predicate LedgerId(id: string)
  {
    SafeName(id) && 2 <= |id| && id[..2] == "d_"
  }

  /** Reading a batch back, with every cross-check of its artifacts. */
  function Load(env: Env, l: Ledger, id: string): Result<Batch>
  {
    if !LedgerId(id) then Failure("delivery_id")
    else if id !in l.dirs then Failure("delivery_missing")
    else
      var d := l.dirs[id];
      var i, s := d.intent, d.status;
      if !Readable(env, d) then Failure("ledger_file")
      else if !(i.delivery == id == d.claim.delivery && s.delivery == id) then Failure("delivery_changed")
      else if !(i.controller == s.thread == d.owner.thread) then Failure("delivery_owner_changed")
      else if !(i.epoch == s.epoch == d.owner.epoch) then Failure("delivery_epoch_changed")
      else if i.payloadHash != BatchHash(env.goHash, i) then Failure("intent_hash")
      else if d.claim.intentHash != env.sha(IntentText(env, i)) || d.claim.status != "claimed"
        then Failure("claim_changed")
      else if d.task == "" || !Mapped(d.source, i.events) then Failure("source_mapping")
      else if s.proof.Some? && !SafeHash(s.proof.value) then Failure("history_proof")
      else Success(Batch(id, d.task, i.controller, i.epoch, s.phase, NativeEnvelope(env, i), d.source, s.proof,
                         s.turn, s.item))
  }

  // ---------------------------------------------------------------- operations

  ghost predicate Holds(l: Ledger, id: string, thread: string)
  {
    id in l.dirs && l.dirs[id].owner.thread == thread && Blocking(l.dirs[id].status.phase)
  }

  /**
    The scan of the other batches, in the order they are listed: the first that cannot be
    read or blocks the thread.
   */
  function ScanError(env: Env, l: Ledger, thread: string, listing: seq<string>): Option<string>
    decreases |listing|
  {
    if listing == [] then None
    else
      match Load(env, l, listing[0])
      case Failure(code) => Some(code)
      case Success(b) =>
        if b.thread == thread && Blocking(b.phase) then Some(SlotCode(b.phase))
        else ScanError(env, l, thread, listing[1..])
  }

  function SlotCode(p: Phase): string
  {
    if p.DeliveryUncertain? then "delivery_slot_uncertain" else "delivery_slot_busy"
  }

  /** A preparation that dies leaves only its stage. */
  function PrepareAndClaim(env: Env, l: Ledger, a: Attachment, task: string, rows: seq<TaskEvent>,
                           listing: seq<string>, dies: bool)
    : (Ledger, Result<Batch>)
  {
    match Project(env, task, rows)
    case Failure(code) => (l, Failure(code))
    case Success((events, source)) =>
      var id := DeliveryId(env, a, task, source);
      if id in l.dirs then
        (l, match Load(env, l, id)
            case Failure(code) => Failure(code)
            case Success(b) => if b.source == source then Success(b) else Failure("delivery_conflict"))
      else
        match ScanError(env, l, a.thread, listing)
        case Some(code) => (l, Failure(code))
        case None =>
          if id in l.stages then (l.(stages := l.stages - {id}), Failure("stage_exists"))
          else if dies then (l.(stages := l.stages + {id}), Failure("died"))
          else
            var l' := l.(dirs := l.dirs[id := NewBatch(env, id, a, task, events, source)]);
            (l', Load(env, l', id))
  }

  datatype Mark =
    | Send
    | Accept(turn: string)
    | DeclareUncertain(reason: string)
    | Confirm(proof: string, turn: string, item: string)
    | AckBy(ack: string)

  function MarkError(m: Mark): Option<string>
  {
    match m
    case Send => None
    case Accept(turn) => if SafeName(turn) then None else Some("native_turn")
    case DeclareUncertain(reason) => if SafeName(reason) then None else Some("uncertain_reason")
    case Confirm(proof, turn, item) =>
      if SafeHash(proof) && SafeName(turn) && SafeName(item) then None else Some("history_proof")
    case AckBy(ack) => if SafeHash(ack) then None else Some("controller_ack")
  }

  predicate MayFollow(p: Phase, m: Mark)
  {
    match m
    case Send => p.Pending?
    case Accept(_) => p.Sending?
    case DeclareUncertain(_) => p.Sending? || p.TransportAccepted? || p.DeliveryUncertain?
    case Confirm(_, _, _) => p.Sending? || p.TransportAccepted? || p.DeliveryUncertain?
    case AckBy(_) => p.HistoryConfirmed?
  }

  function Marked(s: StatusFile, m: Mark): StatusFile
  {
    match m
    case Send => s.(phase := Sending, transport := "ready")
    case Accept(turn) => s.(phase := TransportAccepted, transport := "accepted", turn := Some(turn))
    case DeclareUncertain(reason) => s.(phase := DeliveryUncertain, transport := "uncertain", reason := Some(reason))
    case Confirm(proof, turn, item) =>
      s.(phase := HistoryConfirmed, transport := "confirmed", proof := Some(proof), turn := Some(turn),
         item := Some(item))
    case AckBy(ack) => s.(phase := ControllerAcked, ack := Some(ack))
  }

  /** One locked transition; for a confirmation, the second of its two locked sections. */
  function MarkBatch(env: Env, l: Ledger, id: string, m: Mark): (Ledger, Result<Batch>)
  {
    if MarkError(m).Some? then (l, Failure(MarkError(m).value))
    else
      match Load(env, l, id)
      case Failure(code) => (l, Failure(code))
      case Success(b) =>
        if !MayFollow(b.phase, m) then (l, Failure("delivery_transition"))
        else if id !in l.dirs then (l, Failure("delivery_missing"))
        else
          var l' := l.(dirs := l.dirs[id := l.dirs[id].(status := Marked(l.dirs[id].status, m))]);
          (l', Load(env, l', id))
  }

  /** The first locked section of a confirmation: why it stops there, if it does. */
  function ConfirmCheck(env: Env, l: Ledger, id: string, m: Mark): Option<string>
    requires m.Confirm?
  {
    if MarkError(m).Some? then MarkError(m)
    else
      match Load(env, l, id)
      case Failure(code) => Some(code)
      case Success(b) => if b.turn.Some? && b.turn.value != m.turn then Some("native_turn_changed") else None
  }

  /** One locked section of the ledger; `order` is how a directory of these names happens to be listed. */
  datatype Op =
    | PrepareOp(owner: Attachment, task: string, rows: seq<TaskEvent>, order: set<string> -> seq<string>, dies: bool)
    | MarkOp(id: string, mark: Mark)

  function Apply(env: Env, l: Ledger, op: Op): (Ledger, Result<Batch>)
  {
    match op
    case PrepareOp(a, task, rows, order, dies) => PrepareAndClaim(env, l, a, task, rows, order(l.dirs.Keys), dies)
    case MarkOp(id, m) => MarkBatch(env, l, id, m)
  }

  function ApplyAll(env: Env, l: Ledger, ops: seq<Op>): Ledger
    decreases |ops|
  {
    if ops == [] then l else ApplyAll(env, Apply(env, l, ops[0]).0, ops[1..])
  }

  /** `confirm_history`: its check, then whatever other owners of the ledger do, then its transition. */
  function ConfirmHistory(env: Env, l: Ledger, id: string, m: Mark, between: seq<Op>): (Ledger, Result<Batch>)
    requires m.Confirm?
  {
    match ConfirmCheck(env, l, id, m)
    case Some(code) => (l, Failure(code))
    case None => MarkBatch(env, ApplyAll(env, l, between), id, m)
  }
}
