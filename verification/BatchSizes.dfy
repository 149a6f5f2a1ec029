/**
  The text of each record as the batch commands write it, and its size against the limit
  that every later read of the record makes.
 */
module BatchSizes {
  import opened JsonText
  import opened BatchSpec
  import opened BatchTheorems

  const MAX_RECORD := 4096

  type Quote = string -> string

  /** Quoting a string that needs no escape adds its two quotes. */
  ghost predicate Plain(quote: Quote)
  {
    forall s :: SafeName(s) || SafeHash(s) ==> |quote(s)| == |s| + 2
  }

  /** Every hash is 64 hexadecimal digits. */
  ghost predicate Hashes(h: Hasher)
  {
    forall i :: SafeHash(h(i))
  }

  // ---------------------------------------------------------------- texts

  function EventJson(q: Quote, e: Event): string
  {
    "{\"event_id\":" + q(e.id) + ",\"event_revision\":" + Decimal(e.revision) + ",\"kind\":" + q(e.kind)
    + ",\"payload_hash\":" + q(e.payloadHash) + ",\"action_slot\":" + q(e.slot) + "}"
  }

  function EventsJson(q: Quote, events: seq<Event>): string
    decreases |events|
  {
    if events == [] then ""
    else
      EventsJson(q, events[..|events| - 1]) + (if |events| == 1 then "" else ",")
      + EventJson(q, events[|events| - 1])
  }

  function IntentJson(q: Quote, i: Intent): string
  {
    "{\"version\":" + Decimal(i.version) + ",\"delivery_id\":" + q(i.delivery) + ",\"nonce\":" + q(i.nonce)
    + ",\"controller_thread\":" + q(i.controller) + ",\"controller_epoch\":" + Decimal(i.epoch) + ",\"revision\":"
    + Decimal(i.revision) + ",\"state\":" + q(i.state) + ",\"events\":[" + EventsJson(q, i.events)
    + "],\"payload_hash\":" + q(i.payloadHash) + "}"
  }

  function ControlJson(q: Quote, c: Control): string
  {
    "{\"version\":" + Decimal(c.version) + ",\"nonce\":" + q(c.nonce) + ",\"controller_thread\":" + q(c.controller)
    + ",\"revision\":" + Decimal(c.revision) + ",\"cancelled\":" + (if c.cancelled then "true" else "false") + "}"
  }

  function ClaimJson(q: Quote, c: Claim): string
  {
    "{\"version\":" + Decimal(c.version) + ",\"status\":" + q(c.status) + ",\"delivery_id\":" + q(c.delivery)
    + ",\"nonce\":" + q(c.nonce) + ",\"controller_thread\":" + q(c.controller) + ",\"revision\":"
      + Decimal(c.revision) + "}"
  }

  function AckJson(q: Quote, a: Ack): string
  {
    "{\"version\":" + Decimal(a.version) + ",\"status\":" + q(a.status) + ",\"delivery_id\":" + q(a.delivery)
    + ",\"nonce\":" + q(a.nonce) + ",\"controller_thread\":" + q(a.controller) + ",\"controller_epoch\":"
      + Decimal(a.epoch)
    + ",\"revision\":" + Decimal(a.revision) + AckEventJson(q, a) + ",\"command_id\":" + q(a.command) + ",\"decision\":"
    + q(a.decision) + ",\"decision_count\":" + Decimal(a.decisionCount) + ",\"effect_count\":"
      + Decimal(a.effectCount) + "}"
  }

  function AckEventJson(q: Quote, a: Ack): string
  {
    ",\"event_id\":" + q(a.event.id) + ",\"event_revision\":" + Decimal(a.event.revision) + ",\"event_hash\":"
    + q(a.event.payloadHash) + ",\"action_slot\":" + q(a.event.slot)
  }

  /**
    The record's file: its text and a newline within the limit of a read.  The worker's own
    record is not written here.
   */
  predicate Fits(q: Quote, x: Record)
  {
    match x
    case OfControl(c) => |ControlJson(q, c)| + 1 <= MAX_RECORD
    case OfJob(_) => true
    case OfIntent(i) => |IntentJson(q, i)| + 1 <= MAX_RECORD
    case OfClaim(c) => |ClaimJson(q, c)| + 1 <= MAX_RECORD
    case OfAck(a) => |AckJson(q, a)| + 1 <= MAX_RECORD
  }

  // ---------------------------------------------------------------- sizes

  lemma EventJsonSize(q: Quote, e: Event)
    requires Plain(q) && ValidEvent(e)
    ensures |EventJson(q, e)| <= 285
  {
    DecimalSize(e.revision);
    assert SafeName("progress") && SafeName("question") && SafeName("result");
    assert |q(e.id)| <= 66 && |q(e.slot)| <= 66 && |q(e.payloadHash)| == 66 && |q(e.kind)| <= 10;
    hide Plain, Decimal, SafeName, SafeHash;
  }

  lemma {:induction false} EventsJsonSize(q: Quote, events: seq<Event>)
    requires Plain(q) && forall k :: 0 <= k < |events| ==> ValidEvent(events[k])
    ensures |EventsJson(q, events)| <= 286 * |events|
    decreases |events|
  {
    hide Plain, ValidEvent, EventJson;
    if events != [] {
      EventsJsonSize(q, events[..|events| - 1]);
      EventJsonSize(q, events[|events| - 1]);
    }
  }

  lemma ControlFits(q: Quote, c: Control)
    requires Plain(q) && c.version == 1 && SafeName(c.nonce) && SafeName(c.controller) && ValidRevision(c.revision)
    ensures Fits(q, OfControl(c))
  {
    DecimalSize(1);
    DecimalSize(c.revision);
    assert |q(c.nonce)| <= 66 && |q(c.controller)| <= 66;
    hide Plain, Decimal, SafeName;
  }

  lemma IntentFits(q: Quote, h: Hasher, c: Control, i: Intent)
    requires Plain(q) && Hashes(h) && SafeName(c.nonce) && SafeName(c.controller) && ValidIntent(h, c, i)
    ensures Fits(q, OfIntent(i))
  {
    hide IntentJson, EventsJson, Decimal;
    DecimalSize(1);
    DecimalSize(i.revision);
    EventsJsonSize(q, i.events);
    assert SafeName("prepared") && SafeName("transport_uncertain");
    assert SafeHash(i.payloadHash);
    IntentJsonSize(q, i);
  }

  lemma IntentJsonSize(q: Quote, i: Intent)
    requires |q(i.delivery)| <= 66 && |q(i.nonce)| <= 66 && |q(i.controller)| <= 66 && |q(i.state)| <= 21
             && |q(i.payloadHash)| == 66
    requires |Decimal(i.version)| <= 7 && |Decimal(i.epoch)| <= 7 && |Decimal(i.revision)| <= 7
             && |EventsJson(q, i.events)| <= 2288
    ensures |IntentJson(q, i)| < MAX_RECORD
  {
    hide Decimal, EventsJson;
  }

  lemma ClaimFits(q: Quote, i: Intent, c: Claim)
    requires Plain(q) && SafeName(i.delivery) && SafeName(i.nonce) && SafeName(i.controller)
             && ValidRevision(i.revision)
    requires ValidClaim(i, c)
    ensures Fits(q, OfClaim(c))
  {
    DecimalSize(1);
    DecimalSize(c.revision);
    assert SafeName("claimed");
    assert |q(c.delivery)| <= 66 && |q(c.nonce)| <= 66 && |q(c.controller)| <= 66 && |q(c.status)| <= 9;
    hide Plain, Decimal, SafeName;
  }

  lemma AckFits(q: Quote, i: Intent, e: Event, a: Ack)
    requires Plain(q) && SafeName(i.delivery) && SafeName(i.nonce) && SafeName(i.controller)
             && ValidRevision(i.revision)
    requires i.epoch == 1 && ValidEvent(e) && ValidAck(i, e, a)
    ensures Fits(q, OfAck(a))
  {
    hide AckJson, AckEventJson, Decimal, ValidEvent, ValidDecision;
    AckEventFits(q, e, a);
    DecimalSize(1);
    DecimalSize(a.revision);
    DecimalSize(a.effectCount);
    DecisionSafe(a.decision);
    hide SafeName;
    AckJsonSize(q, a);
  }

  lemma DecisionSafe(decision: string)
    requires ValidDecision(decision)
    ensures SafeName(decision) && SafeName("acknowledged")
  {
  }

  lemma AckJsonSize(q: Quote, a: Ack)
    requires |q(a.delivery)| <= 66 && |q(a.nonce)| <= 66 && |q(a.controller)| <= 66 && |q(a.status)| <= 66
    requires |q(a.command)| <= 66 && |q(a.decision)| <= 66 && |AckEventJson(q, a)| <= 300
    requires |Decimal(a.version)| <= 7 && |Decimal(a.epoch)| <= 7 && |Decimal(a.revision)| <= 7
    requires |Decimal(a.decisionCount)| <= 7 && |Decimal(a.effectCount)| <= 7
    ensures |AckJson(q, a)| < MAX_RECORD
  {
    hide Decimal, AckEventJson;
  }

  lemma AckEventFits(q: Quote, e: Event, a: Ack)
    requires Plain(q) && ValidEvent(e) && a.event == e.(kind := "")
    ensures |AckEventJson(q, a)| <= 300
  {
    DecimalSize(e.revision);
    assert |q(e.id)| <= 66 && |q(e.slot)| <= 66 && |q(e.payloadHash)| == 66;
    hide Plain, Decimal, SafeName, SafeHash;
  }

  /** Good records read back: none is over the limit, so no command is refused for the size of a record. */
  lemma GoodFits(q: Quote, h: Hasher, v: Records)
    requires Plain(q) && Hashes(h) && Good(h, v)
    ensures forall d :: d in v ==> Fits(q, v[d])
  {
    hide Fits, Plain, Hashes, ValidEvent, SafeName;
    var c := v[ControlRecord].control;
    ControlFits(q, c);
    if IntentRecord in v {
      var i := v[IntentRecord].intent;
      IntentFits(q, h, c, i);
      if ClaimRecord in v {
        ClaimFits(q, i, v[ClaimRecord].claim);
      }
      forall id | AckRecord(id) in v ensures Fits(q, v[AckRecord(id)]) {
        assert GoodAck(v, id);
        FindEventFinds(i.events, id);
        AckFits(q, i, FindEvent(i.events, id).value, v[AckRecord(id)].ack);
      }
    }
    if JobRecord in v {
      JobFits(q, v[JobRecord]);
    }
    forall d | d in v ensures Fits(q, v[d]) {
      match d
      case ControlRecord =>
      case JobRecord =>
      case IntentRecord =>
      case ClaimRecord =>
      case AckRecord(id) => assert GoodAck(v, id);
    }
  }

  lemma JobFits(q: Quote, x: Record)
    requires x.OfJob?
    ensures Fits(q, x)
  {
  }
}
