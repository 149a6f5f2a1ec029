/**
  What each command answers, and to whom: its reply and its commit by the request and the
  published records.
 */
module BatchAnswers {
  import opened Options
  import opened BatchSpec
  import opened BatchTheorems

  // ---------------------------------------------------------------- who is answered

  /** Usable arguments for this task. */
  predicate Addressed(v: Records, r: Request)
    requires GoodControl(v)
  {
    AcceptableArguments(r) && r.nonce == v[ControlRecord].control.nonce
  }

  /** The controller's own request at the current revision of a task that is not cancelled. */
  predicate Current(v: Records, r: Request)
    requires GoodControl(v)
  {
    var c := v[ControlRecord].control;
    Addressed(v, r) && r.controller == c.controller && !c.cancelled && r.revision == c.revision
  }

  /** Anything but status is refused to others: nothing is committed, and the first failing check is the reason. */
  lemma RefusedToOthers(h: Hasher, v: Records, r: Request)
    requires Good(h, v) && !r.command.Status? && !Current(v, r)
    ensures var c := v[ControlRecord].control;
            Decide(h, v, r) == Decision(Refused(
              if !AcceptableArguments(r) then "invalid_args"
              else if r.nonce != c.nonce then "nonce_mismatch"
              else if r.controller != c.controller then "owner_mismatch"
              else if c.cancelled then "cancelled" else "stale_revision"), None)
  {
    hide AcceptableArguments, GoodIntent, GoodClaim, GoodJob, GoodAck, DecideStatus, DecideRevise, DecidePrepare,
      ReadIntent;
  }

  /** A current request reaches its command's own decision. */
  lemma CurrentDecides(h: Hasher, v: Records, r: Request)
    requires Good(h, v) && !r.command.Status? && Current(v, r)
    ensures var c := v[ControlRecord].control;
            Decide(h, v, r) ==
            (match r.command
             case Revise(cancel) => DecideRevise(v, c, cancel)
             case Prepare(delivery, events) => DecidePrepare(h, v, c, delivery, events)
             case _ => OnIntent(v, r.command))
  {
    hide AcceptableArguments, GoodClaim, GoodJob, GoodAck, DecideStatus, DecideRevise, DecidePrepare, DecideClaim,
      DecideAck, ValidIntent;
  }

  /** What the commands on a published intent decide. */
  function OnIntent(v: Records, command: Command): Decision
    requires GoodControl(v) && (IntentRecord in v ==> v[IntentRecord].OfIntent?)
  {
    if IntentRecord !in v then Refuse("batch_intent_missing")
    else
      var i := v[IntentRecord].intent;
      if i.revision != v[ControlRecord].control.revision then Refuse("stale_revision")
      else
        match command
        case ClaimSend => DecideClaim(v, i)
        case Acknowledge(_, _, _, _, _, _) => DecideAck(v, i, command)
        case _ =>
          Decision(Prepared(i.(state := "transport_uncertain")),
                   Some((IntentRecord, OfIntent(i.(state := "transport_uncertain")))))
  }

  // ---------------------------------------------------------------- acknowledge

  /** The event a command line names, by all that it says of it. */
  predicate Names(a: Command, e: Event)
    requires a.Acknowledge?
  {
    e.id == a.eventId && e.revision == a.eventRevision && e.payloadHash == a.eventHash && e.slot == a.slot
  }

  predicate NamesOne(a: Command, events: seq<Event>)
    requires a.Acknowledge?
  {
    exists k :: 0 <= k < |events| && Names(a, events[k])
  }

  lemma FoundIsNamed(h: Hasher, v: Records, a: Command)
    requires Good(h, v) && IntentRecord in v && v[IntentRecord].OfIntent? && a.Acknowledge?
    ensures var events := v[IntentRecord].intent.events;
            NamesOne(a, events) <==> FindEvent(events, a.eventId).Some? && Names(a, FindEvent(events, a.eventId).value)
  {
    var events := v[IntentRecord].intent.events;
    EventsApart(h, v);
    FindEventFinds(events, a.eventId);
    hide FindEvent, Good;
    if NamesOne(a, events) {
      var k :| 0 <= k < |events| && Names(a, events[k]);
      EventFound(events, k);
    }
  }

  /**
    An acknowledgement on a published intent of this revision: `event_mismatch` exactly if no
    event has the id, revision, hash and slot that the command names; a stored one is returned
    if it decides the same, and is a conflict otherwise; else a new one of that event, with
    the command's id and decision, is published.
   */
  lemma AckAnswers(h: Hasher, v: Records, r: Request)
    requires Good(h, v) && Current(v, r) && r.command.Acknowledge?
    requires IntentRecord in v && v[IntentRecord].intent.revision == r.revision
    ensures var d, i, a, dest := Decide(h, v, r), v[IntentRecord].intent, r.command, AckRecord(r.command.eventId);
            && (d.reply == Refused("event_mismatch") <==> !NamesOne(a, i.events))
            && (!NamesOne(a, i.events) ==> d.commit.None?)
            && (NamesOne(a, i.events) && dest in v ==>
                  && d.commit.None?
                  && d.reply == if v[dest].ack.decision == a.decision then Acknowledged(v[dest].ack)
                                else Refused("decision_conflict"))
            && (NamesOne(a, i.events) && dest !in v ==>
                  d.reply.Acknowledged? && d.commit == Some((dest, OfAck(d.reply.ack))))
            && (d.reply.Acknowledged? ==>
                  Acknowledges(i, a, d.reply.ack) && (dest !in v ==> d.reply.ack.command == a.command))
  {
    hide Decide, AcceptableArguments, FindEvent, DecideAck, NamesOne, Acknowledges;
    CurrentDecides(h, v, r);
    FoundIsNamed(h, v, r.command);
    AckDecided(h, v, r.command);
    hide Good;
  }

  lemma AckDecided(h: Hasher, v: Records, a: Command)
    requires Good(h, v) && IntentRecord in v && v[IntentRecord].OfIntent? && a.Acknowledge?
    ensures var i, dest := v[IntentRecord].intent, AckRecord(a.eventId);
            var d, found := DecideAck(v, i, a), FindEvent(i.events, a.eventId);
            if found.None? || !Names(a, found.value) then d == Refuse("event_mismatch")
            else
              && d.reply != Refused("event_mismatch")
              && (dest in v ==>
                    && v[dest].OfAck? && d.commit.None?
                    && d.reply == if v[dest].ack.decision == a.decision then Acknowledged(v[dest].ack)
                                  else Refused("decision_conflict"))
              && (dest !in v ==>
                    d.reply.Acknowledged? && d.commit == Some((dest, OfAck(d.reply.ack)))
                      && d.reply.ack.command == a.command)
              && (d.reply.Acknowledged? ==> Acknowledges(i, a, d.reply.ack))
  {
    FindEventFinds(v[IntentRecord].intent.events, a.eventId);
    hide FindEvent;
    assert "event_mismatch"[0] != "decision_conflict"[0];
    if AckRecord(a.eventId) in v {
      assert GoodAck(v, a.eventId);
    }
    hide GoodIntent, GoodClaim, GoodJob, ValidDecision, SafeName;
  }

  /** The acknowledgement is of the event the command names, of this intent, and decides what the command says. */
  predicate Acknowledges(i: Intent, a: Command, x: Ack)
    requires a.Acknowledge?
  {
    && x.delivery == i.delivery && x.nonce == i.nonce && x.controller == i.controller && x.revision == i.revision
    && x.event == Event(a.eventId, a.eventRevision, "", a.eventHash, a.slot)
    && x.decision == a.decision && x.effectCount == if a.decision == "handled" then 1 else 0
  }

  /** Whoever gets an acknowledgement as its answer named that event of the published intent. */
  lemma AcknowledgedNamed(h: Hasher, v: Records, r: Request)
    requires Good(h, v) && Decide(h, v, r).reply.Acknowledged?
    ensures r.command.Acknowledge? && Current(v, r) && IntentRecord in v && v[IntentRecord].OfIntent?
    ensures var i := v[IntentRecord].intent;
            i.revision == r.revision && NamesOne(r.command, i.events)
              && Acknowledges(i, r.command, Decide(h, v, r).reply.ack)
  {
    hide Decide, AcceptableArguments, NamesOne, Acknowledges, DecideAck;
    if !r.command.Status? && !Current(v, r) {
      RefusedToOthers(h, v, r);
    } else if !r.command.Status? {
      CurrentDecides(h, v, r);
      if r.command.Acknowledge? && IntentRecord in v && v[IntentRecord].intent.revision == r.revision {
        AckAnswers(h, v, r);
      }
    } else {
      StatusOnlyReports(h, v, r);
    }
    hide GoodJob, GoodIntent, GoodClaim, GoodAck, ReadJob;
  }

  lemma StatusOnlyReports(h: Hasher, v: Records, r: Request)
    requires r.command.Status?
    ensures Decide(h, v, r).reply.Reported? || Decide(h, v, r).reply.Refused?
  {
    hide ReadAcks, ReadIntent, ReadClaim, ReadControl, AcceptableArguments;
  }

  // ---------------------------------------------------------------- prepare, claim, mark uncertain, revise

  /** A preparation publishes the delivery and events of its command, once. */
  lemma PrepareAnswers(h: Hasher, v: Records, r: Request)
    requires Good(h, v) && Current(v, r) && r.command.Prepare?
    ensures var d, c := Decide(h, v, r), v[ControlRecord].control;
            if IntentRecord in v then d == Refuse("batch_intent_exists")
            else if r.command.events.None? || !ValidEvents(r.command.events.value) then d == Refuse("invalid_args")
            else
              && d.reply.Prepared? && d.commit == Some((IntentRecord, OfIntent(d.reply.intent)))
              && var i := d.reply.intent;
                 && i.delivery == r.command.delivery && i.events == r.command.events.value && i.state == "prepared"
                 && i.nonce == c.nonce && i.controller == c.controller && i.revision == c.revision
                 && i.version == i.epoch == 1
                 && i.payloadHash == h(i.(payloadHash := "", state := ""))
  {
    hide Decide, ValidEvents, AcceptableArguments, GoodIntent, GoodClaim, GoodJob, GoodAck;
    CurrentDecides(h, v, r);
    var c := v[ControlRecord].control;
    if IntentRecord !in v && r.command.events.Some? {
      var i := Intent(1, r.command.delivery, c.nonce, c.controller, 1, c.revision, "prepared", r.command.events.value,
                      "");
      assert i.(payloadHash := "", state := "") == i.(payloadHash := BatchHash(h, i)).(payloadHash := "", state := "");
    }
  }

  /** Every event of the intent has its acknowledgement. */
  predicate AllAnswered(v: Records)
    requires IntentRecord in v && v[IntentRecord].OfIntent?
  {
    var events := v[IntentRecord].intent.events;
    forall k :: 0 <= k < |events| ==> AckRecord(events[k].id) in v
  }

  /** The acknowledgements that are published of these events, in their order. */
  function StoredAcks(v: Records, events: seq<Event>): seq<Ack>
    decreases |events|
  {
    if events == [] then []
    else
      var n := |events| - 1;
      var dest := AckRecord(events[n].id);
      StoredAcks(v, events[..n]) + if dest in v && v[dest].OfAck? then [v[dest].ack] else []
  }

  lemma CompleteIffAnswered(h: Hasher, v: Records)
    requires Good(h, v) && IntentRecord in v && v[IntentRecord].OfIntent?
    ensures var i := v[IntentRecord].intent;
            && ReadAcks(v, i, i.events).Ok? && ReadAcks(v, i, i.events).value == StoredAcks(v, i.events)
            && (|ReadAcks(v, i, i.events).value| == |i.events| <==> AllAnswered(v))
            && (ReadAcks(v, i, i.events).value == [] <==> forall k :: 0 <= k < |i.events| ==>
                  AckRecord(i.events[k].id) !in v)
  {
    hide Good, ReadAcks;
    var i := v[IntentRecord].intent;
    ReadsInOrder(h, v, |i.events|);
    assert i.events[..|i.events|] == i.events;
  }

  /** The acknowledgements read of the first events are as many as are published of them, each of its event. */
  lemma {:induction false} ReadsInOrder(h: Hasher, v: Records, n: nat)
    requires Good(h, v) && IntentRecord in v && v[IntentRecord].OfIntent? && n <= |v[IntentRecord].intent.events|
    ensures var i := v[IntentRecord].intent;
            var r := ReadAcks(v, i, i.events[..n]);
            && r.Ok? && |r.value| <= n && r.value == StoredAcks(v, i.events[..n])
            && (|r.value| == n <==> forall k :: 0 <= k < n ==> AckRecord(i.events[k].id) in v)
            && (r.value == [] <==> forall k :: 0 <= k < n ==> AckRecord(i.events[k].id) !in v)
  {
    hide Good, ReadAck;
    var i := v[IntentRecord].intent;
    if n > 0 {
      ReadsInOrder(h, v, n - 1);
      ReadAckGood(h, v, n - 1);
      ReadAcksSnoc(v, i, i.events, n - 1);
      assert i.events[..n][..n - 1] == i.events[..n - 1];
      hide ReadAcks;
    }
  }

  /** A claim is granted exactly to a prepared batch without a claim that has an event left to send. */
  lemma ClaimAnswers(h: Hasher, v: Records, r: Request)
    requires Good(h, v) && Current(v, r) && r.command.ClaimSend?
    requires IntentRecord in v && v[IntentRecord].intent.revision == r.revision
    ensures var d, i := Decide(h, v, r), v[IntentRecord].intent;
            if i.state == "transport_uncertain" then d == Refuse("transport_uncertain")
            else if ClaimRecord in v then d == Refuse("claim_exists")
            else if AllAnswered(v) then d == Refuse("batch_complete")
            else
              && d.reply == Claimed(Claim(1, "claimed", i.delivery, i.nonce, i.controller, i.revision))
              && d.commit == Some((ClaimRecord, OfClaim(d.reply.claim)))
  {
    hide Decide, AcceptableArguments, ReadAcks, AllAnswered, StoredAcks;
    CurrentDecides(h, v, r);
    CompleteIffAnswered(h, v);
    hide GoodAck, GoodIntent, GoodJob;
  }

  /** Marking it uncertain changes nothing else of the intent. */
  lemma UncertainAnswers(h: Hasher, v: Records, r: Request)
    requires Good(h, v) && Current(v, r) && r.command.Uncertain?
    requires IntentRecord in v && v[IntentRecord].intent.revision == r.revision
    ensures var d, i := Decide(h, v, r), v[IntentRecord].intent;
            && d.reply.Prepared? && d.commit == Some((IntentRecord, OfIntent(d.reply.intent)))
            && d.reply.intent.state == "transport_uncertain" && d.reply.intent.(state := i.state) == i
  {
    hide Decide, AcceptableArguments, GoodAck, GoodJob;
    CurrentDecides(h, v, r);
  }

  /** Without a published intent, or for another revision of it, none of these is done. */
  lemma NoIntentAnswers(h: Hasher, v: Records, r: Request)
    requires Good(h, v) && Current(v, r) && (r.command.ClaimSend? || r.command.Uncertain? || r.command.Acknowledge?)
    ensures IntentRecord !in v ==> Decide(h, v, r) == Refuse("batch_intent_missing")
    ensures IntentRecord in v && v[IntentRecord].intent.revision != r.revision ==>
              Decide(h, v, r) == Refuse("stale_revision")
  {
    hide Decide, AcceptableArguments, GoodAck, GoodJob;
    CurrentDecides(h, v, r);
  }

  /** A revision goes up by one and cancels exactly if the command says so. */
  lemma ReviseAnswers(h: Hasher, v: Records, r: Request)
    requires Good(h, v) && Current(v, r) && r.command.Revise?
    ensures var d, c := Decide(h, v, r), v[ControlRecord].control;
            if JobRecord !in v then d == Refuse("job_missing")
            else if c.revision >= 1_000_000 then d == Refuse("revision_limit")
            else
              && d.reply.Revised? && d.commit == Some((ControlRecord, OfControl(d.reply.control)))
              && d.reply.control == c.(revision := r.revision + 1, cancelled := r.command.cancel)
  {
    hide Decide, AcceptableArguments, GoodAck, GoodIntent, GoodClaim;
    CurrentDecides(h, v, r);
  }

  // ---------------------------------------------------------------- the worker

  /** The job of a worker under the control of a thread, or of none. */
  predicate JobOf(w: Work, j: Job, controller: string, revision: int)
  {
    j == Job(1, "started", w.nonce, w.worker, true, "job.json", "result.json", controller, revision)
  }

  /**
    Under a control record a worker publishes its job exactly if it is the first, of this task
    and of the thread that started it; the job names that thread at revision 1.
   */
  lemma WorkAnswers(h: Hasher, v: Records, w: Work)
    requires Good(h, v)
    ensures var c, d := v[ControlRecord].control, DecideWork(v, w);
            && (d.reply.Started? <==> JobRecord !in v && w.nonce == c.nonce && w.thread == c.controller)
            && (d.reply.Started? ==>
                  d.commit == Some((JobRecord, OfJob(d.reply.job))) && JobOf(w, d.reply.job, w.thread, 1))
            && (!d.reply.Started? ==> d.reply.Refused? && d.commit.None?)
  {
    hide GoodIntent, GoodClaim, GoodAck, SafeName;
  }

  /** Without one it publishes the first job, of no controller. */
  lemma UncontrolledWork(v: Records, w: Work)
    requires ControlRecord !in v
    ensures var d := DecideWork(v, w);
            if JobRecord in v then d == Refuse("start_failed")
            else d.reply.Started? && d.commit == Some((JobRecord, OfJob(d.reply.job))) && JobOf(w, d.reply.job, "", 0)
  {
  }

  // ---------------------------------------------------------------- status

  /** What a report says, by the records: the first word that applies. */
  predicate Tells(v: Records, x: Report)
    requires GoodControl(v) && IntentRecord in v && v[IntentRecord].OfIntent?
  {
    var c, i := v[ControlRecord].control, v[IntentRecord].intent;
    var none := forall k :: 0 <= k < |i.events| ==> AckRecord(i.events[k].id) !in v;
    && (x.uncertain <==> i.state == "transport_uncertain") && (x.claimed <==> ClaimRecord in v)
    && (x.business == "complete" <==> i.state == "prepared" && AllAnswered(v))
    && (x.business == "prepared" <==> i.state == "prepared" && none)
    && (x.business == "partial" <==> i.state == "transport_uncertain" || (!none && !AllAnswered(v)))
    && (x.overall == "cancelled" <==> c.cancelled)
    && (x.overall == "stale" <==> !c.cancelled && i.revision != c.revision)
    && (x.overall == "uncertain" <==> !c.cancelled && i.revision == c.revision && i.state == "transport_uncertain")
    && (!c.cancelled && i.revision == c.revision && i.state == "prepared" ==> x.overall == x.business)
    && (x.pending == 0 <==> AllAnswered(v))
    && x.acks == StoredAcks(v, i.events) && x.pending == |i.events| - |x.acks|
  }

  lemma StatusAnswers(h: Hasher, v: Records, r: Request)
    requires Good(h, v) && Addressed(v, r) && r.command.Status? && IntentRecord in v
    ensures var d := Decide(h, v, r); d.reply.Reported? && d.commit.None? && Tells(v, d.reply.report)
  {
    hide AcceptableArguments, ReadAcks, AllAnswered, Tells, StoredAcks;
    var c, i := v[ControlRecord].control, v[IntentRecord].intent;
    CompleteIffAnswered(h, v);
    ReadsUndamaged(h, v);
    assert Decide(h, v, r) == Decision(Reported(ReportOf(c, i, ReadAcks(v, i, i.events).value, ClaimRecord in v)),
                                       None);
    ReportTells(h, v, ReadAcks(v, i, i.events).value);
  }

  lemma ReportTells(h: Hasher, v: Records, acks: seq<Ack>)
    requires Good(h, v) && IntentRecord in v && v[IntentRecord].OfIntent? && |acks| <= |v[IntentRecord].intent.events|
    requires var i := v[IntentRecord].intent;
             && acks == StoredAcks(v, i.events) && (|acks| == |i.events| <==> AllAnswered(v))
             && (acks == [] <==> forall k :: 0 <= k < |i.events| ==> AckRecord(i.events[k].id) !in v)
    ensures Tells(v, ReportOf(v[ControlRecord].control, v[IntentRecord].intent, acks, ClaimRecord in v))
  {
    hide AllAnswered, ValidEvent, GoodClaim, GoodAck, GoodJob, StoredAcks;
  }
}
