/**
  How long the files of a prepared batch are: a constant and the digits of the numbers in
  them.
 */
module DeliverySizes {
  import opened Options
  import opened JsonText
  import opened BatchSpec
  import opened DeliverySpec
  import opened DeliveryTheorems

  /** Quoting adds two quotes to a string that needs no escape, and at most six-fold escapes. */
  ghost predicate Quotes(env: Env)
  {
    && (forall s :: SafeName(s) || SafeHash(s) ==> |env.quote(s)| == |s| + 2)
    && (forall s :: |env.quote(s)| <= 6 * |s| + 2)
  }

  lemma PreparedParts(env: Env, id: string, d: BatchDir)
    requires GoodDir(env, id, d)
    ensures SafeName(id) && SafeName(d.task) && ValidOwner(d.owner) && GoodStatus(d.status, id, d.owner)
    ensures NativeEvents(d.intent.events) && 1 <= |d.intent.events| <= 8 && SourceRows(d.source) && |d.source| <= 8
    ensures d.intent.delivery == id && d.intent.controller == d.owner.thread && d.intent.epoch == d.owner.epoch
    ensures d.status.epoch == d.owner.epoch
  {
    hide NativeEvents, SourceRows, SafeName, IntentText, BatchHash;
  }

  predicate EventDigits(events: seq<Event>, digits: nat)
  {
    forall k :: 0 <= k < |events| ==> |Decimal(events[k].revision)| <= digits
  }

  lemma EventSize(env: Env, e: Event, digits: nat)
    requires Quotes(env) && NativeRow(e) && |Decimal(e.revision)| <= digits
    ensures |EventText(env, e)| <= 278 + digits
  {
    assert SafeName("question") && SafeName("result");
    assert |env.quote(e.slot)| <= 66 && |env.quote(e.id)| <= 66 && |env.quote(e.kind)| <= 10
           && |env.quote(e.payloadHash)| == 66;
    hide Quotes, NativeRow, SafeName, SafeHash, Decimal;
  }

  lemma {:induction false} EventsSize(env: Env, events: seq<Event>, digits: nat)
    requires Quotes(env) && NativeEvents(events) && EventDigits(events, digits)
    ensures |EventsText(env, events)| <= (279 + digits) * |events|
    decreases |events|
  {
    hide Quotes, EventText, Decimal;
    if events != [] {
      EventsSize(env, events[..|events| - 1], digits);
      EventSize(env, events[|events| - 1], digits);
    }
  }

  lemma IntentSize(env: Env, i: Intent, events: nat, digits: nat)
    requires |env.quote(i.controller)| <= 770 && |env.quote(i.delivery)| <= 66 && |env.quote(i.nonce)| <= 66
    requires |env.quote(i.payloadHash)| == 66 && |env.quote(i.state)| == 10 && |EventsText(env, i.events)| <= events
    requires |Decimal(i.epoch)| <= digits && |Decimal(i.revision)| <= 7 && |Decimal(i.version)| <= 7
    ensures |IntentText(env, i)| <= 1150 + events + digits
  {
    hide EventsText, Decimal;
  }

  /** The intent of a prepared batch. */
  lemma PreparedIntentSize(env: Env, id: string, d: BatchDir, digits: nat)
    requires Honest(env) && Quotes(env) && GoodDir(env, id, d)
    requires EventDigits(d.intent.events, digits) && |Decimal(d.owner.epoch)| <= digits
    ensures |IntentText(env, d.intent)| <= 1150 + 8 * (279 + digits) + digits
  {
    hide EventsText, Decimal, IntentText, Mapped, NativeEvents, EventDigits, GoodStatus, SourceRows;
    var i := d.intent;
    EventsSize(env, i.events, digits);
    assert (279 + digits) * |i.events| <= 8 * (279 + digits);
    DecimalSize(1);
    assert SafeHash(i.payloadHash) by {
      assert SafeHash(env.goHash(Intent(1, id, id, d.owner.thread, d.owner.epoch, 1, "", i.events, "")));
    }
    assert SafeName(i.state);
    IntentSize(env, i, 8 * (279 + digits), digits);
  }

  lemma ClaimSize(env: Env, c: SendClaim, digits: nat)
    requires |env.quote(c.thread)| <= 770 && |env.quote(c.delivery)| <= 66 && |env.quote(c.intentHash)| == 66
    requires |env.quote(c.status)| == 9
    requires |Decimal(c.epoch)| <= digits && |Decimal(c.revision)| <= 7 && |Decimal(c.version)| <= 7
    ensures |ClaimText(env, c)| <= 1100 + digits
  {
    hide Decimal;
  }

  lemma PreparedClaimSize(env: Env, id: string, d: BatchDir, digits: nat)
    requires Honest(env) && Quotes(env) && GoodDir(env, id, d) && |Decimal(d.owner.epoch)| <= digits
    ensures |ClaimText(env, d.claim)| <= 1100 + digits
  {
    hide ClaimText, IntentText, Decimal, Mapped, NativeEvents, GoodStatus, BatchHash, SourceRows;
    DecimalSize(1);
    assert SafeName(d.claim.status) && SafeHash(d.claim.intentHash);
    ClaimSize(env, d.claim, digits);
  }

  lemma BindingSize(env: Env, b: OwnerBinding)
    requires |env.quote(b.thread)| <= 770 && |env.quote(b.nonce)| <= 66 && |env.quote(b.ownerContext)| == 66
    requires |Decimal(b.revision)| <= 7 && |Decimal(b.version)| <= 7
    ensures |BindingText(env, b)| <= 1100
  {
    hide Decimal;
  }

  lemma FieldSize(env: Env, key: string, value: Option<string>)
    requires Quotes(env) && |key| <= 30 && (value.Some? ==> SafeName(value.value) || SafeHash(value.value))
    ensures |Field(env, key, value)| <= 96
  {
  }

  lemma StatusFieldsSize(env: Env, s: StatusFile, id: string, a: Attachment, digits: nat)
    requires Quotes(env) && GoodStatus(s, id, a) && |Decimal(s.epoch)| <= digits
    ensures |StatusFields(env, s)| <= 600 + digits
  {
    hide Field, SafeName, SafeHash, Decimal, TransportOf;
    FieldSize(env, ",\"controller_ack_sha256\":", s.ack);
    FieldSize(env, ",\"history_proof_sha256\":", s.proof);
    FieldSize(env, ",\"native_item_id\":", s.item);
    FieldSize(env, ",\"native_turn_id\":", s.turn);
    FieldSize(env, ",\"uncertain_reason\":", s.reason);
    hide Quotes, GoodStatus;
  }

  lemma StatusSize(env: Env, s: StatusFile, id: string, a: Attachment, digits: nat)
    requires Quotes(env) && GoodStatus(s, id, a) && ValidOwner(a) && SafeName(id) && |Decimal(s.epoch)| <= digits
    ensures |StatusText(env, s)| <= 1800 + digits
  {
    StatusFieldsSize(env, s, id, a, digits);
    DecimalSize(1);
    assert |env.quote(s.thread)| <= 770 && |env.quote(s.delivery)| <= 66;
    assert |env.quote(PhaseName(s.phase))| <= 116 && |env.quote(s.transport)| <= 62;
    hide Quotes, GoodStatus, SafeName, SafeHash, Decimal, PhaseName, StatusFields;
  }

  // ---------------------------------------------------------------- the ledger's own limit

  predicate SourceDigits(source: seq<SourceEvent>, digits: nat)
  {
    forall k :: 0 <= k < |source| ==>
      |Decimal(source[k].revision)| <= digits && |Decimal(source[k].workRevision)| <= digits
  }

  lemma KindSize(env: Env, kind: string)
    requires Quotes(env) && kind in DELIVERABLE
    ensures |env.quote(kind)| <= 92
  {
    assert |kind| <= 15;
  }

  lemma SourceEventSize(env: Env, e: SourceEvent, digits: nat)
    requires Quotes(env) && SourceRow(e) && |Decimal(e.revision)| <= digits && |Decimal(e.workRevision)| <= digits
    ensures |SourceEventText(env, e)| <= 3600 + 2 * digits
  {
    KindSize(env, e.kind);
    assert |env.quote(e.slot)| <= 1538 && |env.quote(e.id)| <= 1538 && |env.quote(e.payloadHash)| == 66;
    assert |env.quote(e.nativeSlot)| <= 66 && |env.quote(e.nativeId)| <= 66;
    hide Quotes, SourceRow, SafeName, SafeHash, Decimal;
  }

  lemma {:induction false} SourceEventsSize(env: Env, source: seq<SourceEvent>, digits: nat)
    requires Quotes(env) && SourceRows(source) && SourceDigits(source, digits)
    ensures |SourceEventsText(env, source)| <= (3601 + 2 * digits) * |source|
    decreases |source|
  {
    hide Quotes, SourceEventText, SourceRow, Decimal;
    if source != [] {
      SourceEventsSize(env, source[..|source| - 1], digits);
      SourceEventSize(env, source[|source| - 1], digits);
    }
  }

  lemma SourceSize(env: Env, task: string, source: seq<SourceEvent>, events: nat)
    requires Quotes(env) && SafeName(task) && |SourceEventsText(env, source)| <= events
    ensures |SourceText(env, task, source)| <= 120 + events
  {
    assert |env.quote(task)| <= 66;
    hide Quotes, SafeName, SourceEventsText;
  }

  /** Numbers of at most 4300 digits keep every file of a batch within the limit at which the ledger reads it. */
  lemma PreparedReadable(env: Env, id: string, d: BatchDir)
    requires Honest(env) && Quotes(env) && GoodDir(env, id, d) && |d.owner.persisted| < LEDGER_LIMIT
    requires EventDigits(d.intent.events, 4300) && SourceDigits(d.source, 4300) && |Decimal(d.owner.epoch)| <= 4300
    ensures Readable(env, d)
  {
    hide IntentText, ClaimText, StatusText, SourceText, Honest, Quotes, GoodDir, Decimal, EventDigits, SourceDigits,
      GoodStatus, SourceRows, NativeEvents, SafeName;
    PreparedParts(env, id, d);
    PreparedIntentSize(env, id, d, 4300);
    PreparedClaimSize(env, id, d, 4300);
    StatusSize(env, d.status, id, d.owner, 4300);
    SourceEventsSize(env, d.source, 4300);
    SourceSize(env, d.task, d.source, 97608);
  }
}
