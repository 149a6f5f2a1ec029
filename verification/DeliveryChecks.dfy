/**
  What the consumers of a delivery check, of any directory and any envelope, and that the
  checks made in different places agree.
 */
module DeliveryChecks {
  import opened Options
  import opened BatchSpec
  import opened DeliverySpec
  import opened DeliveryTheorems
  import opened DeliveryAdapter

  // ---------------------------------------------------------------- the adapter, of any directory

  /** An intent of this owner at this revision, in one of these states, that hashes to what it says. */
  predicate IntentFor(env: Env, b: Binding, i: Intent, uncertainToo: bool)
  {
    && i.version == 1 && SafeName(i.delivery) && i.nonce == b.nonce && i.controller == b.thread
    && i.epoch == b.epoch > 0 && i.revision == b.revision
    && (i.state == "prepared" || (uncertainToo && i.state == "transport_uncertain"))
    && ValidEvents(i.events) && SafeHash(i.payloadHash)
    && i.payloadHash == env.goHash(i.(payloadHash := "", state := ""))
  }

  /** A claim of this intent for the same owner. */
  predicate ClaimFor(env: Env, b: Binding, i: Intent, c: SendClaim)
  {
    && c.status == "claimed" && c.delivery == i.delivery && c.thread == b.thread && c.epoch == b.epoch
    && c.revision == b.revision && c.intentHash == env.sha(IntentText(env, i))
  }

  /** A status of this delivery and owner, in one of these phases, with the transport that goes with it. */
  predicate StatusFor(b: Binding, i: Intent, s: StatusFile, mayHaveBeenSent: bool)
  {
    && (s.phase.Sending? || (mayHaveBeenSent && (s.phase.TransportAccepted? || s.phase.DeliveryUncertain?)))
    && s.delivery == i.delivery && s.thread == b.thread && s.epoch == b.epoch && s.revision == b.revision
    && (s.phase.Sending? ==> s.transport == "ready") && (s.phase.TransportAccepted? ==> s.transport == "accepted")
    && (s.phase.DeliveryUncertain? ==> s.transport == "uncertain")
  }

  /** All files are small, and the binding names this owner and context. */
  predicate FilesFor(env: Env, ctx: string, b: Binding, d: BatchDir)
  {
    && Fits(BindingText(env, d.binding)) && Fits(IntentText(env, d.intent)) && Fits(ClaimText(env, d.claim))
    && Fits(StatusText(env, d.status)) && d.binding == OwnerBinding(1, ctx, b.nonce, b.thread, b.revision)
  }

  lemma IntentIff(env: Env, i: Intent, b: Binding, uncertainToo: bool)
    ensures ValidateGoIntent(env, i, b, uncertainToo) == Success(i) <==> IntentFor(env, b, i, uncertainToo)
    ensures ValidateGoIntent(env, i, b, uncertainToo).Success? <==> IntentFor(env, b, i, uncertainToo)
  {
    hide ValidEvents, SafeName, SafeHash;
  }

  lemma StatusIff(env: Env, ctx: string, b: Binding, d: BatchDir, reconcile: bool)
    ensures ExternalStatus(env, ctx, b, d, reconcile).None? <==>
            && Fits(BindingText(env, d.binding)) && Fits(ClaimText(env, d.claim)) && Fits(StatusText(env, d.status))
            && d.binding == OwnerBinding(1, ctx, b.nonce, b.thread, b.revision)
            && StatusFor(b, d.intent, d.status, reconcile)
  {
    hide Fits, BindingText, ClaimText, StatusText;
  }

  /** Any directory is attached exactly if it is all of this, and then its intent is what is sent. */
  lemma AttachAnyIff(env: Env, ctx: string, b: Binding, d: BatchDir)
    ensures var r := Attach(env, ctx, b, d);
            && (r.Success? <==>
                  && FilesFor(env, ctx, b, d) && IntentFor(env, b, d.intent, false)
                  && ClaimFor(env, b, d.intent, d.claim) && StatusFor(b, d.intent, d.status, false))
            && (r.Success? ==> r.value == NativeEnvelope(env, d.intent))
  {
    hide ValidateGoIntent, ExternalStatus, IntentFor, StatusFor, Fits, BindingText, ClaimText, StatusText, IntentText,
      NativeEnvelope;
    IntentIff(env, d.intent, b, false);
    StatusIff(env, ctx, b, d, false);
  }

  /** For inspection the claim is not looked into, and it may have been sent. */
  lemma ReconcileAnyIff(env: Env, ctx: string, b: Binding, d: BatchDir)
    ensures var r := Reconcile(env, ctx, b, d);
            && (r.Success? <==>
                  && FilesFor(env, ctx, b, d) && IntentFor(env, b, d.intent, true)
                  && StatusFor(b, d.intent, d.status, true))
            && (r.Success? ==> r.value == NativeEnvelope(env, d.intent))
  {
    hide ValidateGoIntent, ExternalStatus, IntentFor, StatusFor, Fits, BindingText, ClaimText, StatusText, IntentText,
      NativeEnvelope;
    IntentIff(env, d.intent, b, true);
    StatusIff(env, ctx, b, d, true);
  }

  // ---------------------------------------------------------------- checks that agree

  /** The two readers of the batch commands' intent take the same ones: for the task's owner at epoch 1. */
  lemma IntentReadersAgree(env: Env, c: Control, i: Intent)
    requires Honest(env)
    ensures ValidateGoIntent(env, i, Binding(c.controller, 1, c.nonce, i.revision), true).Success?
            && ValidRevision(i.revision) <==>
            ValidIntent(env.goHash, c, i)
  {
    IntentIff(env, i, Binding(c.controller, 1, c.nonce, i.revision), true);
    assert SafeHash(env.goHash(i.(payloadHash := "", state := "")));
    hide ValidateGoIntent, ValidEvents, SafeName, SafeHash;
  }

  /** The helper takes what the auditor takes, of its own thread, and within its output limit. */
  lemma EnvelopeCheckersAgree(env: Env, e: Envelope, owner: string)
    ensures HelperAccepts(env, e, owner) <==>
            AuditAccepts(env, e) && e.thread == owner && 0 < |EnvelopeText(env, e, true)| <= MAX_OUTPUT
  {
    hide EnvelopeText, ValidEvents, SafeName;
  }

  /**
    An envelope that a checker accepts is of this version, its names, epoch and events are
    valid, and it hashes to what it says.
   */
  lemma AuditAcceptsIff(env: Env, e: Envelope)
    ensures AuditAccepts(env, e) <==>
            && e.version == 1 && SafeName(e.delivery) && SafeName(e.thread) && 1 <= e.epoch <= 1_000_000
            && 1 <= |e.events| <= 8 && (forall k :: 0 <= k < |e.events| ==> ValidEvent(e.events[k]))
            && (forall j, k :: 0 <= j < k < |e.events| ==>
                  e.events[j].id != e.events[k].id && e.events[j].slot != e.events[k].slot)
            && e.payloadHash == env.sha(EnvelopeText(env, e.(payloadHash := ""), false))
  {
    HashFree(env, e);
    hide EnvelopeText, ValidEvent, SafeName;
  }

  /** The body that is hashed leaves the hash out. */
  lemma HashFree(env: Env, e: Envelope)
    ensures EnvelopeText(env, e.(payloadHash := ""), false) == EnvelopeText(env, e, false)
  {
    hide EventsText;
  }
}
