/**
  The consumer's checks on a prepared batch, the two independent envelope checkers, and
  exactly which prepared batches pass them.
 */
module DeliveryAdapter {
  import opened Options
  import opened JsonText
  import opened BatchSpec
  import opened DeliverySpec
  import opened DeliveryTheorems
  import opened DeliverySizes

  const MAX_FILE := 4096
  const MAX_OUTPUT := 65536

  /** What the adapter is told of the live owner. */
  datatype Binding = Binding(thread: string, epoch: int, nonce: string, revision: int)

  // ---------------------------------------------------------------- files

  /** A file holds its text and a newline. */
  predicate Fits(text: string)
  {
    |text| + 1 <= MAX_FILE
  }

  // ---------------------------------------------------------------- the adapter

  function ValidateGoIntent(env: Env, i: Intent, b: Binding, uncertainToo: bool): Result<Intent>
  {
    if i.version != 1 || !SafeName(i.delivery) then Failure("intent_identity")
    else if i.nonce != b.nonce || i.controller != b.thread then Failure("owner_mismatch")
    else if b.epoch <= 0 || i.epoch != b.epoch then Failure("epoch_mismatch")
    else if i.revision != b.revision || !(i.state == "prepared" || (uncertainToo && i.state == "transport_uncertain"))
    then Failure("revision_mismatch")
    else if !ValidEvents(i.events) then Failure("event_shape")
    else if !SafeHash(i.payloadHash) || i.payloadHash != BatchHash(env.goHash, i) then Failure("intent_hash")
    else Success(i)
  }

  /** The statuses of a batch that may have been sent and has no proof of it yet. */
  predicate MayBeSent(p: Phase)
  {
    p.Sending? || p.TransportAccepted? || p.DeliveryUncertain?
  }

  function ExternalStatus(env: Env, ctx: string, b: Binding, d: BatchDir, reconcile: bool): Option<string>
  {
    var s := d.status;
    if !Fits(BindingText(env, d.binding)) then Some("claim_file")
    else if d.binding != OwnerBinding(1, ctx, b.nonce, b.thread, b.revision) then Some("owner_context_mismatch")
    else if !Fits(StatusText(env, s)) then Some("claim_file")
    else if !(s.phase.Sending? || (reconcile && (s.phase.TransportAccepted? || s.phase.DeliveryUncertain?)))
         || s.delivery != d.intent.delivery || s.thread != b.thread || s.epoch != b.epoch || s.revision != b.revision
    then Some("claim_not_current")
    else if s.transport != (if s.phase.Sending? then "ready" else if s.phase.TransportAccepted? then "accepted"
                            else "uncertain")
    then Some("claim_not_current")
    else if !Fits(ClaimText(env, d.claim)) then Some("claim_file")
    else None
  }

  /** `attach_external_claim`: adopt a batch for its one send. */
  function Attach(env: Env, ctx: string, b: Binding, d: BatchDir): Result<Envelope>
  {
    if !Fits(BindingText(env, d.binding)) then Failure("claim_file")
    else if d.binding != OwnerBinding(1, ctx, b.nonce, b.thread, b.revision) then Failure("owner_context_mismatch")
    else if !Fits(IntentText(env, d.intent)) then Failure("claim_file")
    else
      match ValidateGoIntent(env, d.intent, b, false)
      case Failure(code) => Failure(code)
      case Success(i) =>
        if !Fits(ClaimText(env, d.claim)) then Failure("claim_file")
        else if d.claim.status != "claimed" || d.claim.delivery != i.delivery || d.claim.thread != b.thread
             || d.claim.epoch != b.epoch || d.claim.revision != b.revision
             || d.claim.intentHash != env.sha(IntentText(env, i))
        then Failure("claim_artifact")
        else
          match ExternalStatus(env, ctx, b, d, false)
          case Some(code) => Failure(code)
          case None => Success(NativeEnvelope(env, i))
  }

  /** `reconcile_external_claim`: adopt a batch that may have been sent, for inspection only. */
  function Reconcile(env: Env, ctx: string, b: Binding, d: BatchDir): Result<Envelope>
  {
    if !Fits(BindingText(env, d.binding)) then Failure("claim_file")
    else if d.binding != OwnerBinding(1, ctx, b.nonce, b.thread, b.revision) then Failure("owner_context_mismatch")
    else if !Fits(IntentText(env, d.intent)) then Failure("claim_file")
    else
      match ValidateGoIntent(env, d.intent, b, true)
      case Failure(code) => Failure(code)
      case Success(i) =>
        match ExternalStatus(env, ctx, b, d, true)
        case Some(code) => Failure(code)
        case None => Success(NativeEnvelope(env, i))
  }

  // ---------------------------------------------------------------- envelope checkers

  /** The history auditor's `envelope`. */
  predicate AuditAccepts(env: Env, e: Envelope)
  {
    && e.version == 1 && SafeName(e.delivery) && SafeName(e.thread) && ValidRevision(e.epoch) && ValidEvents(e.events)
    && e.payloadHash == env.sha(EnvelopeText(env, e, false))
  }

  /** The helper's `_parse_delivery_output` of the envelope's text. */
  predicate HelperAccepts(env: Env, e: Envelope, owner: string)
  {
    && 0 < |EnvelopeText(env, e, true)| <= MAX_OUTPUT
    && e.version == 1 && SafeName(e.delivery) && e.thread == owner && SafeName(e.thread) && ValidRevision(e.epoch)
    && ValidEvents(e.events) && env.sha(EnvelopeText(env, e, false)) == e.payloadHash
  }

  // ---------------------------------------------------------------- what the adapter accepts

  predicate Bounded(events: seq<Event>)
  {
    forall k :: 0 <= k < |events| ==> events[k].revision <= MAX_REVISION
  }

  /** What makes a prepared batch deliverable: event revisions the checkers accept. */
  predicate Deliverable(d: BatchDir)
  {
    Bounded(d.intent.events)
  }

  /** An attachment as the bridge makes it. */
  predicate Attached(a: Attachment)
  {
    ValidOwner(a) && SafeHash(a.ownerContext)
  }

  /** The files with the owner's epoch in them are within the adapter's limit. */
  predicate FilesFit(env: Env, d: BatchDir)
  {
    Fits(IntentText(env, d.intent)) && Fits(ClaimText(env, d.claim)) && Fits(StatusText(env, d.status))
  }

  /** For an epoch of at most 1,000,000 they always are. */
  lemma DeliverableFits(env: Env, id: string, d: BatchDir)
    requires Honest(env) && Quotes(env) && GoodDir(env, id, d) && Deliverable(d) && d.owner.epoch <= MAX_REVISION
    ensures FilesFit(env, d)
  {
    hide Decimal, IntentText, ClaimText, StatusText, Quotes, Honest;
    assert EventDigits(d.intent.events, 7) by {
      BoundedDigits(d.intent.events);
    }
    DecimalSize(d.owner.epoch);
    PreparedIntentSize(env, id, d, 7);
    PreparedClaimSize(env, id, d, 7);
    StatusSize(env, d.status, id, d.owner, 7);
    hide GoodDir, EventDigits;
  }

  lemma BoundedDigits(events: seq<Event>)
    requires NativeEvents(events) && Bounded(events)
    ensures EventDigits(events, 7)
  {
    hide Decimal, SafeName, SafeHash;
    forall k | 0 <= k < |events| ensures |Decimal(events[k].revision)| <= 7 {
      assert NativeRow(events[k]);
      DecimalSize(events[k].revision);
    }
  }

  lemma BindingFits(env: Env, id: string, d: BatchDir)
    requires Quotes(env) && GoodDir(env, id, d) && Attached(d.owner)
    ensures Fits(BindingText(env, d.binding))
  {
    hide BindingText, IntentText, Decimal, Mapped, NativeEvents, GoodStatus, BatchHash, SourceRows;
    DecimalSize(1);
    BindingSize(env, d.binding);
  }

  lemma ValidatesIff(env: Env, id: string, d: BatchDir, uncertainToo: bool)
    requires Honest(env) && GoodDir(env, id, d)
    ensures var b := Binding(d.owner.thread, d.owner.epoch, id, 1);
            ValidateGoIntent(env, d.intent, b, uncertainToo) ==
            if Deliverable(d) then Success(d.intent) else Failure("event_shape")
  {
    var i := d.intent;
    assert ValidEvents(i.events) <==> Bounded(i.events) by {
      ValidEventsIff(i.events);
    }
    assert SafeHash(i.payloadHash) by {
      assert SafeHash(env.goHash(i.(payloadHash := "", state := "")));
    }
    assert i.(payloadHash := "", state := "")
        == Intent(1, id, id, i.controller, i.epoch, 1, "prepared", i.events, "").(payloadHash := "", state := "");
    hide ValidEvents, Bounded, Honest, SafeName, SafeHash, NativeEvents, Mapped, GoodStatus, IntentText, SourceRows;
  }

  lemma ValidEventsIff(events: seq<Event>)
    requires NativeEvents(events) && 1 <= |events| <= 8
    ensures ValidEvents(events) <==> Bounded(events)
  {
    hide SafeName, SafeHash;
    forall k | 0 <= k < |events| ensures ValidEvent(events[k]) <==> events[k].revision <= MAX_REVISION {
      assert NativeRow(events[k]);
    }
  }

  lemma StatusAgrees(env: Env, id: string, d: BatchDir, reconcile: bool)
    requires Quotes(env) && GoodDir(env, id, d) && Attached(d.owner)
    ensures var b, p := Binding(d.owner.thread, d.owner.epoch, id, 1), d.status.phase;
            ExternalStatus(env, d.owner.ownerContext, b, d, reconcile).None? <==>
            && (p.Sending? || (reconcile && MayBeSent(p)))
            && Fits(StatusText(env, d.status)) && Fits(ClaimText(env, d.claim))
  {
    hide Fits, BindingText, StatusText, ClaimText, NativeEvents, Mapped, SafeName, SafeHash, IntentText, BatchHash,
      SourceRows;
    BindingFits(env, id, d);
    PreparedArtifacts(env, id, d);
    PreparedParts(env, id, d);
    hide GoodDir;
  }

  lemma PreparedArtifacts(env: Env, id: string, d: BatchDir)
    requires GoodDir(env, id, d)
    ensures d.binding == OwnerBinding(1, d.owner.ownerContext, id, d.owner.thread, 1)
    ensures d.claim == SendClaim(1, "claimed", id, d.owner.thread, d.owner.epoch, 1, env.sha(IntentText(env, d.intent)))
    ensures d.intent.delivery == id
  {
    hide NativeEvents, Mapped, GoodStatus, SafeName, IntentText, BatchHash, SourceRows;
  }

  /**
    Every batch of a sound ledger, with its own owner and context: the adapter attaches it
    exactly when it is sending, its event revisions are at most 1,000,000 and its files are
    within 4096 octets, and then on the ledger's own envelope.
   */
  lemma AttachIff(env: Env, l: Ledger, id: string)
    requires Honest(env) && Quotes(env) && Sound(env, l) && id in l.dirs && Attached(l.dirs[id].owner)
    ensures var d := l.dirs[id];
            var r := Attach(env, d.owner.ownerContext, Binding(d.owner.thread, d.owner.epoch, id, 1), d);
            && (r.Success? <==> d.status.phase.Sending? && Deliverable(d) && FilesFit(env, d))
            && (r.Success? ==> r == Success(BatchOf(env, id, d).envelope))
            && (Deliverable(d) && d.owner.epoch <= MAX_REVISION ==> FilesFit(env, d))
  {
    var d := l.dirs[id];
    assert GoodDir(env, id, d);
    hide Attach, GoodDir, Attached, Deliverable, FilesFit, BatchOf, Quotes, Honest, Sound;
    AttachDir(env, id, d);
    if Deliverable(d) && d.owner.epoch <= MAX_REVISION {
      DeliverableFits(env, id, d);
    }
  }

  lemma AttachDir(env: Env, id: string, d: BatchDir)
    requires Honest(env) && Quotes(env) && GoodDir(env, id, d) && Attached(d.owner)
    ensures var r := Attach(env, d.owner.ownerContext, Binding(d.owner.thread, d.owner.epoch, id, 1), d);
            && (r.Success? <==> d.status.phase.Sending? && Deliverable(d) && FilesFit(env, d))
            && (r.Success? ==> r == Success(BatchOf(env, id, d).envelope))
  {
    hide ValidateGoIntent, ExternalStatus, Fits, BindingText, ClaimText, StatusText, IntentText, GoodDir, Attached,
      Honest, Quotes, Deliverable, NativeEnvelope;
    ValidatesIff(env, id, d, false);
    StatusAgrees(env, id, d, false);
    BindingFits(env, id, d);
    PreparedArtifacts(env, id, d);
  }

  /** For inspection it is also adopted once transport was accepted or is uncertain. */
  lemma ReconcileIff(env: Env, l: Ledger, id: string)
    requires Honest(env) && Quotes(env) && Sound(env, l) && id in l.dirs && Attached(l.dirs[id].owner)
    ensures var d := l.dirs[id];
            var r := Reconcile(env, d.owner.ownerContext, Binding(d.owner.thread, d.owner.epoch, id, 1), d);
            && (r.Success? <==> MayBeSent(d.status.phase) && Deliverable(d) && FilesFit(env, d))
            && (r.Success? ==> r == Success(BatchOf(env, id, d).envelope))
            && (Deliverable(d) && d.owner.epoch <= MAX_REVISION ==> FilesFit(env, d))
  {
    var d := l.dirs[id];
    assert GoodDir(env, id, d);
    hide Reconcile, GoodDir, Attached, Deliverable, FilesFit, BatchOf, Quotes, Honest, Sound;
    ReconcileDir(env, id, d);
    if Deliverable(d) && d.owner.epoch <= MAX_REVISION {
      DeliverableFits(env, id, d);
    }
  }

  lemma ReconcileDir(env: Env, id: string, d: BatchDir)
    requires Honest(env) && Quotes(env) && GoodDir(env, id, d) && Attached(d.owner)
    ensures var r := Reconcile(env, d.owner.ownerContext, Binding(d.owner.thread, d.owner.epoch, id, 1), d);
            && (r.Success? <==> MayBeSent(d.status.phase) && Deliverable(d) && FilesFit(env, d))
            && (r.Success? ==> r == Success(BatchOf(env, id, d).envelope))
  {
    hide ValidateGoIntent, ExternalStatus, Fits, BindingText, ClaimText, StatusText, IntentText, GoodDir, Attached,
      Honest, Quotes, Deliverable, NativeEnvelope;
    ValidatesIff(env, id, d, true);
    StatusAgrees(env, id, d, true);
    BindingFits(env, id, d);
    PreparedArtifacts(env, id, d);
  }

  lemma EnvelopeSize(env: Env, e: Envelope)
    requires |env.quote(e.thread)| <= 770 && |env.quote(e.delivery)| <= 66 && |env.quote(e.payloadHash)| == 66
    requires |EventsText(env, e.events)| <= 2288 && |Decimal(e.epoch)| <= 7 && |Decimal(e.version)| <= 7
    ensures 0 < |EnvelopeText(env, e, true)| <= MAX_OUTPUT
  {
    hide EventsText, Decimal;
  }

  lemma EnvelopeFits(env: Env, id: string, d: BatchDir)
    requires Honest(env) && Quotes(env) && GoodDir(env, id, d) && Deliverable(d) && d.owner.epoch <= MAX_REVISION
    ensures 0 < |EnvelopeText(env, NativeEnvelope(env, d.intent), true)| <= MAX_OUTPUT
  {
    hide EventsText, EnvelopeText, Decimal, NativeEvents, Mapped, GoodStatus, IntentText, BatchHash, SourceRows,
      Bounded, EventDigits;
    var e := NativeEnvelope(env, d.intent);
    BoundedDigits(e.events);
    EventsSize(env, e.events, 7);
    DecimalSize(e.epoch);
    DecimalSize(1);
    assert SafeHash(e.payloadHash);
    EnvelopeSize(env, e);
  }

  /**
    Both envelope checkers accept the ledger's envelope exactly when its event revisions and
    its epoch are at most 1,000,000 and its thread id is a safe name.
   */
  lemma EnvelopeAcceptedIff(env: Env, l: Ledger, id: string)
    requires Honest(env) && Quotes(env) && Sound(env, l) && id in l.dirs
    ensures var d := l.dirs[id];
            var e, ok := BatchOf(env, id, d).envelope, SafeName(d.owner.thread) && d.owner.epoch <= MAX_REVISION
              && Deliverable(d);
            (AuditAccepts(env, e) <==> ok) && (HelperAccepts(env, e, d.owner.thread) <==> ok)
  {
    var d := l.dirs[id];
    assert GoodDir(env, id, d);
    hide Sound, ValidEvents, GoodDir, SafeName, Quotes, Honest, NativeEvents, SourceRows, GoodStatus, Bounded,
      AuditAccepts, HelperAccepts, NativeEnvelope;
    PreparedParts(env, id, d);
    ValidEventsIff(d.intent.events);
    assert Deliverable(d) <==> ValidEvents(d.intent.events);
    if Deliverable(d) && d.owner.epoch <= MAX_REVISION {
      EnvelopeFits(env, id, d);
    }
    IntentAcceptedIff(env, d.intent);
  }

  /** Of any envelope of a named batch with a positive epoch. */
  lemma IntentAcceptedIff(env: Env, i: Intent)
    requires SafeName(i.delivery) && i.epoch > 0
    requires ValidEvents(i.events) && i.epoch <= MAX_REVISION ==>
               0 < |EnvelopeText(env, NativeEnvelope(env, i), true)| <= MAX_OUTPUT
    ensures var e, ok := NativeEnvelope(env, i), SafeName(i.controller) && i.epoch <= MAX_REVISION
            && ValidEvents(i.events);
            (AuditAccepts(env, e) <==> ok) && (HelperAccepts(env, e, i.controller) <==> ok)
  {
    var e := NativeEnvelope(env, i);
    assert e.(payloadHash := "") == Envelope(1, i.delivery, i.controller, i.epoch, i.events, "");
    hide ValidEvents, SafeName, EventsText, Decimal;
  }

  // ---------------------------------------------------------------- prepared and not accepted

  function PlainRow(revision: int): TaskEvent
  {
    TaskEvent(1, "t", "e", "s", "result", revision, 1, seq(64, _ => '0'))
  }

  lemma PlainRowProjects(env: Env, revision: int)
    requires revision >= 1
    ensures Project(env, "t", [PlainRow(revision)]) ==
            Success(([NativeEvent(env, PlainRow(revision))], [SourceOf(env, PlainRow(revision))]))
  {
    var row := PlainRow(revision);
    assert RowError("t", row) == None && SafeName("t");
    hide RowError, SafeName, NativeEvent, SourceOf;
    assert [row][..0] == [] && ProjectRows(env, "t", []) == Success(([], []));
    assert [] + [NativeEvent(env, row)] == [NativeEvent(env, row)] && [] + [SourceOf(env, row)] == [SourceOf(env, row)];
  }

  /** On an empty ledger such a row is prepared and reads back. */
  lemma PlainRowPrepared(env: Env, a: Attachment, revision: int) returns (id: string)
    requires Honest(env) && Quotes(env) && ValidOwner(a) && 1 <= revision <= MAX_REVISION + 1
    requires |a.persisted| < LEDGER_LIMIT && |Decimal(a.epoch)| <= 4300
    ensures var r := PrepareAndClaim(env, Ledger(map[], {}), a, "t", [PlainRow(revision)], [], false);
            && r.1.Success? && Sound(env, r.0) && id in r.0.dirs && r.1.value.id == id && r.1 == Load(env, r.0, id)
            && r.0.dirs[id].owner == a && r.0.dirs[id].status.phase == Pending
            && r.0.dirs[id].intent.events == [NativeEvent(env, PlainRow(revision))]
  {
    hide Project, DeliveryId, Load, GoodDir, Honest, Quotes, PlainRow, NativeEvent, SourceOf, Decimal, EventDigits,
      SourceDigits, Readable, IntentText, Sound, BatchHash;
    var row, l := PlainRow(revision), Ledger(map[], {});
    PlainRowProjects(env, revision);
    id := DeliveryId(env, a, "t", [SourceOf(env, row)]);
    var d := NewBatch(env, id, a, "t", [NativeEvent(env, row)], [SourceOf(env, row)]);
    NothingSound(env);
    NewBatchGood(env, l, a, "t", [row]);
    RowDigits(env, revision);
    PrepareSound(env, l, a, "t", [row], [], false);
    PreparedReadable(env, id, d);
    LoadGood(env, l.(dirs := l.dirs[id := d]), id);
  }

  lemma NothingSound(env: Env)
    ensures Sound(env, Ledger(map[], {}))
  {
  }

  lemma RowDigits(env: Env, revision: int)
    requires 1 <= revision <= MAX_REVISION + 1
    ensures EventDigits([NativeEvent(env, PlainRow(revision))], 4300)
    ensures SourceDigits([SourceOf(env, PlainRow(revision))], 4300)
  {
    DigitsBound(revision, 7, 10_000_000);
    DecimalSize(1);
    hide Decimal;
  }

  /** Event revisions that the checkers do not accept are refused by all four of them, whatever else they are told. */
  lemma UnboundedRefused(env: Env, d: BatchDir, ctx: string, b: Binding, owner: string)
    requires !ValidEvents(d.intent.events)
    ensures Attach(env, ctx, b, d).Failure? && Reconcile(env, ctx, b, d).Failure?
    ensures var e := NativeEnvelope(env, d.intent); !AuditAccepts(env, e) && !HelperAccepts(env, e, owner)
  {
    hide ValidEvents, SafeName, SafeHash, EnvelopeText, ExternalStatus, Fits, BindingText, IntentText, ClaimText,
      BatchHash;
  }

  /** The ledger prepares a batch with an event revision of 1,000,001, and no checker accepts it, in any status. */
  lemma PreparedButUndeliverable(env: Env, a: Attachment, s: StatusFile, ctx: string, b: Binding, owner: string)
    requires Honest(env) && Quotes(env) && ValidOwner(a) && |a.persisted| < LEDGER_LIMIT && |Decimal(a.epoch)| <= 4300
    ensures var r := PrepareAndClaim(env, Ledger(map[], {}), a, "t", [PlainRow(MAX_REVISION + 1)], [], false);
            && r.1.Success? && r.1.value.id in r.0.dirs
            && var d := r.0.dirs[r.1.value.id].(status := s);
            && Attach(env, ctx, b, d).Failure? && Reconcile(env, ctx, b, d).Failure?
            && var e := NativeEnvelope(env, d.intent);
            !AuditAccepts(env, e) && !HelperAccepts(env, e, owner)
  {
    hide PrepareAndClaim, Attach, Reconcile, AuditAccepts, HelperAccepts, Honest, Quotes, Sound, Decimal,
      NativeEnvelope;
    var id := PlainRowPrepared(env, a, MAX_REVISION + 1);
    var r := PrepareAndClaim(env, Ledger(map[], {}), a, "t", [PlainRow(MAX_REVISION + 1)], [], false);
    var d := r.0.dirs[id].(status := s);
    assert d.intent.events[0].revision == MAX_REVISION + 1;
    assert !ValidEvent(d.intent.events[0]);
    UnboundedRefused(env, d, ctx, b, owner);
  }

  /**
    A thread id of 65 to 128 characters: the ledger prepares the batch, the adapter attaches
    it once it is sending, and both envelope checkers refuse what would be sent.
   */
  lemma LongThreadUndeliverable(env: Env, a: Attachment)
    requires Honest(env) && Quotes(env) && Attached(a) && 65 <= |a.thread| && a.epoch <= MAX_REVISION
    requires |a.persisted| < LEDGER_LIMIT
    ensures var r := PrepareAndClaim(env, Ledger(map[], {}), a, "t", [PlainRow(1)], [], false);
            && r.1.Success? && r.1.value.id in r.0.dirs
            && var id := r.1.value.id;
            var sending := MarkBatch(env, r.0, id, Send).0;
            && id in sending.dirs
            && var d := sending.dirs[id];
            && Attach(env, a.ownerContext, Binding(a.thread, a.epoch, id, 1), d) == Success(r.1.value.envelope)
            && !AuditAccepts(env, r.1.value.envelope) && !HelperAccepts(env, r.1.value.envelope, a.thread)
  {
    hide PrepareAndClaim, Attach, AuditAccepts, HelperAccepts, Honest, Quotes, Sound, Decimal, NativeEnvelope,
      MarkBatch, GoodDir, Load, FilesFit, Readable;
    assert |Decimal(a.epoch)| <= 4300 by { DecimalSize(a.epoch); }
    var id := PlainRowPrepared(env, a, 1);
    var r := PrepareAndClaim(env, Ledger(map[], {}), a, "t", [PlainRow(1)], [], false);
    MarkSound(env, r.0, id, Send);
    SendPrepared(env, r.0, id);
    var sending := MarkBatch(env, r.0, id, Send).0;
    AttachIff(env, sending, id);
    EnvelopeAcceptedIff(env, sending, id);
  }

  lemma SendPrepared(env: Env, l: Ledger, id: string)
    requires Sound(env, l) && id in l.dirs && l.dirs[id].status.phase.Pending? && Load(env, l, id).Success?
    ensures var l' := MarkBatch(env, l, id, Send).0;
            && id in l'.dirs && l'.dirs[id].status.phase.Sending?
            && l'.dirs[id].(status := l.dirs[id].status) == l.dirs[id]
            && BatchOf(env, id, l'.dirs[id]).envelope == Load(env, l, id).value.envelope
  {
    hide Load, GoodDir, Readable, NativeEnvelope, BatchHash;
    LoadGood(env, l, id);
    MarkApplies(env, l, id, Send);
    hide MarkBatch, Sound;
  }
}
