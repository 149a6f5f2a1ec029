/**
  What holds of the published records of a batch whatever commands run, in whatever order,
  and wherever each of them dies.
 */
module BatchTheorems {
  import opened Options
  import opened BatchSpec

  // ---------------------------------------------------------------- the invariant

  predicate GoodControl(v: Records)
  {
    && ControlRecord in v && v[ControlRecord].OfControl?
    && var c := v[ControlRecord].control;
    c.version == 1 && SafeName(c.nonce) && SafeName(c.controller) && ValidRevision(c.revision)
  }

  /** The job is this task's, and nothing is revised or cancelled before there is one. */
  predicate GoodJob(v: Records)
    requires GoodControl(v)
  {
    var c := v[ControlRecord].control;
    if JobRecord in v then ReadJob(v, c).Ok? else c.revision == 1 && !c.cancelled
  }

  predicate GoodIntent(h: Hasher, v: Records)
    requires GoodControl(v)
  {
    var c := v[ControlRecord].control;
    IntentRecord in v ==>
      && v[IntentRecord].OfIntent? && ValidIntent(h, c, v[IntentRecord].intent)
      && v[IntentRecord].intent.revision <= c.revision
  }

  predicate GoodClaim(v: Records)
  {
    ClaimRecord in v ==>
      && IntentRecord in v && v[IntentRecord].OfIntent? && v[ClaimRecord].OfClaim?
      && ValidClaim(v[IntentRecord].intent, v[ClaimRecord].claim)
  }

  predicate GoodAck(v: Records, id: string)
    requires AckRecord(id) in v
  {
    && IntentRecord in v && v[IntentRecord].OfIntent? && v[AckRecord(id)].OfAck?
    && var found := FindEvent(v[IntentRecord].intent.events, id);
    found.Some? && ValidAck(v[IntentRecord].intent, found.value, v[AckRecord(id)].ack)
  }

  /**
    One control record, at most one job and one intent, and a claim and acknowledgements
    only of that intent and its events.
   */
  ghost predicate Good(h: Hasher, v: Records)
  {
    && GoodControl(v) && GoodJob(v) && GoodIntent(h, v) && GoodClaim(v)
    && forall id :: AckRecord(id) in v ==> GoodAck(v, id)
  }

  lemma {:induction false} FindEventFinds(events: seq<Event>, id: string)
    ensures var f := FindEvent(events, id);
            if f.Some? then f.value in events && f.value.id == id
            else forall k :: 0 <= k < |events| ==> events[k].id != id
    decreases |events|
  {
    if events != [] && events[0].id != id {
      FindEventFinds(events[1..], id);
      var f := FindEvent(events[1..], id);
      if f.Some? {
        assert f.value in events[1..];
      } else {
        forall k | 0 <= k < |events| ensures events[k].id != id {
          assert k > 0 ==> events[1..][k - 1] == events[k];
        }
      }
    }
  }

  lemma {:induction false} EventFound(events: seq<Event>, k: nat)
    requires k < |events| && forall i, j :: 0 <= i < j < |events| ==> events[i].id != events[j].id
    ensures FindEvent(events, events[k].id) == Some(events[k])
    decreases |events|
  {
    if k > 0 {
      var rest := events[1..];
      forall i, j | 0 <= i < j < |rest| ensures rest[i].id != rest[j].id {
        assert rest[i] == events[i + 1] && rest[j] == events[j + 1];
      }
      EventFound(rest, k - 1);
    }
  }

  // ---------------------------------------------------------------- reads of good records

  lemma ReadAckGood(h: Hasher, v: Records, k: nat)
    requires Good(h, v) && IntentRecord in v && k < |v[IntentRecord].intent.events|
    ensures var i, e := v[IntentRecord].intent, v[IntentRecord].intent.events[k];
            if AckRecord(e.id) in v then
              && v[AckRecord(e.id)].OfAck? && ReadAck(v, i, e) == Ok(v[AckRecord(e.id)].ack)
              && v[AckRecord(e.id)].ack.effectCount == EffectCount(v[AckRecord(e.id)].ack.decision)
            else ReadAck(v, i, e) == Missing
  {
    var i := v[IntentRecord].intent;
    assert ValidEvents(i.events);
    EventFound(i.events, k);
    if AckRecord(i.events[k].id) in v {
      assert GoodAck(v, i.events[k].id);
    }
  }

  /** The events among the first ones whose acknowledgement is published. */
  ghost function Answered(v: Records, events: seq<Event>): set<string>
  {
    set k | 0 <= k < |events| && AckRecord(events[k].id) in v :: events[k].id
  }

  function Effects(acks: seq<Ack>): int
    decreases |acks|
  {
    if acks == [] then 0 else Effects(acks[..|acks| - 1]) + acks[|acks| - 1].effectCount
  }

  ghost function Handled(v: Records, ids: set<string>): set<string>
  {
    set id | id in ids && AckRecord(id) in v && v[AckRecord(id)].OfAck? && v[AckRecord(id)].ack.decision == "handled"
  }

  lemma EventsApart(h: Hasher, v: Records)
    requires Good(h, v) && IntentRecord in v
    ensures v[IntentRecord].OfIntent?
    ensures var events := v[IntentRecord].intent.events;
            forall i, j :: 0 <= i < j < |events| ==> events[i].id != events[j].id
  {
    hide GoodAck, GoodClaim, GoodJob;
  }

  /** What reading the acknowledgements of some events is to give. */
  ghost predicate Collects(v: Records, i: Intent, events: seq<Event>)
  {
    var r, ids := ReadAcks(v, i, events), Answered(v, events);
    r.Ok? && |r.value| == |ids| && Effects(r.value) == |Handled(v, ids)|
  }

  lemma CollectsMore(h: Hasher, v: Records, n: nat)
    requires Good(h, v) && IntentRecord in v && v[IntentRecord].OfIntent? && n < |v[IntentRecord].intent.events|
    requires AckRecord(v[IntentRecord].intent.events[n].id) in v
    requires Collects(v, v[IntentRecord].intent, v[IntentRecord].intent.events[..n])
    ensures Collects(v, v[IntentRecord].intent, v[IntentRecord].intent.events[..n + 1])
  {
    hide Good, ReadAcks, ReadAck, Effects, Answered, Handled;
    var i, id := v[IntentRecord].intent, v[IntentRecord].intent.events[n].id;
    EventsApart(h, v);
    AnsweredSnoc(v, i.events, n);
    ReadAckGood(h, v, n);
    ReadAcksSnoc(v, i, i.events, n);
    EffectsSnoc(ReadAcks(v, i, i.events[..n]).value, v[AckRecord(id)].ack);
    HandledMore(v, Answered(v, i.events[..n]), id);
  }

  lemma CollectsSame(h: Hasher, v: Records, n: nat)
    requires Good(h, v) && IntentRecord in v && v[IntentRecord].OfIntent? && n < |v[IntentRecord].intent.events|
    requires AckRecord(v[IntentRecord].intent.events[n].id) !in v
    requires Collects(v, v[IntentRecord].intent, v[IntentRecord].intent.events[..n])
    ensures Collects(v, v[IntentRecord].intent, v[IntentRecord].intent.events[..n + 1])
  {
    hide Good, ReadAcks, ReadAck, Effects, Answered, Handled;
    var i := v[IntentRecord].intent;
    EventsApart(h, v);
    AnsweredSnoc(v, i.events, n);
    ReadAckGood(h, v, n);
    ReadAcksSnoc(v, i, i.events, n);
  }

  lemma CollectsNothing(v: Records, i: Intent)
    ensures Collects(v, i, [])
  {
    assert Answered(v, []) == {} && Handled(v, {}) == {};
  }

  /** Reading acknowledgements succeeds, finds each published one once, and adds up the handled ones. */
  lemma {:induction false} ReadAcksGood(h: Hasher, v: Records, n: nat)
    requires Good(h, v) && IntentRecord in v && n <= |v[IntentRecord].intent.events|
    ensures Collects(v, v[IntentRecord].intent, v[IntentRecord].intent.events[..n])
  {
    hide Good, Collects;
    EventsApart(h, v);
    var i := v[IntentRecord].intent;
    if n == 0 {
      CollectsNothing(v, i);
      assert i.events[..n] == [];
    } else {
      ReadAcksGood(h, v, n - 1);
      if AckRecord(i.events[n - 1].id) in v {
        CollectsMore(h, v, n - 1);
      } else {
        CollectsSame(h, v, n - 1);
      }
    }
  }

  lemma ReadAcksSnoc(v: Records, i: Intent, events: seq<Event>, n: nat)
    requires n < |events| && ReadAcks(v, i, events[..n]).Ok? && !ReadAck(v, i, events[n]).Bad?
    ensures ReadAcks(v, i, events[..n + 1]) ==
            var before, last := ReadAcks(v, i, events[..n]), ReadAck(v, i, events[n]);
            if last.Ok? then Ok(before.value + [last.value]) else before
  {
    assert events[..n + 1][..n] == events[..n];
  }

  lemma EffectsSnoc(acks: seq<Ack>, a: Ack)
    ensures Effects(acks + [a]) == Effects(acks) + a.effectCount
  {
    assert (acks + [a])[..|acks|] == acks;
  }

  lemma AnsweredSnoc(v: Records, events: seq<Event>, n: nat)
    requires n < |events| && forall i, j :: 0 <= i < j < |events| ==> events[i].id != events[j].id
    ensures var ids := Answered(v, events[..n]);
            && events[n].id !in ids
            && Answered(v, events[..n + 1]) == if AckRecord(events[n].id) in v then ids + {events[n].id} else ids
  {
    var more := Answered(v, events[..n + 1]);
    forall id ensures id in more <==>
        id in Answered(v, events[..n]) || (id == events[n].id && AckRecord(events[n].id) in v) {
      if id in Answered(v, events[..n]) {
        var k :| 0 <= k < n && AckRecord(events[..n][k].id) in v && events[..n][k].id == id;
        assert events[..n + 1][k].id == id;
      }
      if id == events[n].id && AckRecord(events[n].id) in v {
        assert events[..n + 1][n].id == id;
      }
    }
  }

  lemma HandledMore(v: Records, ids: set<string>, id: string)
    requires id !in ids && AckRecord(id) in v && v[AckRecord(id)].OfAck?
    ensures |Handled(v, ids + {id})| ==
            |Handled(v, ids)| + if v[AckRecord(id)].ack.decision == "handled" then 1 else 0
  {
    if v[AckRecord(id)].ack.decision == "handled" {
      assert Handled(v, ids + {id}) == Handled(v, ids) + {id};
    } else {
      assert Handled(v, ids + {id}) == Handled(v, ids);
    }
  }

  /** Every published acknowledgement is of an event of the intent. */
  lemma AnsweredAll(h: Hasher, v: Records, id: string)
    requires Good(h, v) && AckRecord(id) in v
    ensures id in Answered(v, v[IntentRecord].intent.events)
  {
    assert GoodAck(v, id);
    FindEventFinds(v[IntentRecord].intent.events, id);
    var f := FindEvent(v[IntentRecord].intent.events, id).value;
    var k :| 0 <= k < |v[IntentRecord].intent.events| && v[IntentRecord].intent.events[k] == f;
    assert AckRecord(v[IntentRecord].intent.events[k].id) in v;
  }

  /** A status report on good records: it never fails on them, and its effects are the handled acknowledgements. */
  lemma StatusCounts(h: Hasher, v: Records, r: Request)
    requires Good(h, v) && AcceptableArguments(r) && r.command.Status?
    requires IntentRecord in v && r.nonce == v[ControlRecord].control.nonce
    ensures var d, ids := Decide(h, v, r), Answered(v, v[IntentRecord].intent.events);
            && d.reply.Reported? && d.commit.None?
            && |d.reply.report.acks| == |ids| && d.reply.report.pending == |v[IntentRecord].intent.events| - |ids|
            && Effects(d.reply.report.acks) == |Handled(v, ids)|
            && (forall id :: AckRecord(id) in v ==> id in ids)
  {
    var i := v[IntentRecord].intent;
    ReadAcksGood(h, v, |i.events|);
    assert i.events[..|i.events|] == i.events;
    forall id | AckRecord(id) in v ensures id in Answered(v, i.events) {
      AnsweredAll(h, v, id);
    }
    hide ReadAcks, Answered, Handled, Effects, GoodAck, GoodJob, ValidIntent;
  }

  // ---------------------------------------------------------------- one command

  /** What a commit can be: each record is published once, and only two are ever replaced. */
  predicate LawfulCommit(h: Hasher, v: Records, d: Dest, x: Record)
    requires GoodControl(v) && GoodIntent(h, v)
  {
    var c := v[ControlRecord].control;
    !c.cancelled &&
    match d
    case JobRecord =>
      && d !in v && x.OfJob? && x.job.worker > 0
      && x.job == StartedJob(Work(c.nonce, c.controller, x.job.worker), c.controller, c.revision)
    case ControlRecord =>
      && JobRecord in v && x.OfControl? 
      && x.control == c.(revision := c.revision + 1, cancelled := x.control.cancelled)
      && ValidRevision(x.control.revision)
    case IntentRecord =>
      && x.OfIntent? && ValidIntent(h, c, x.intent) && x.intent.revision == c.revision
      && (d in v ==> x.intent == v[d].intent.(state := "transport_uncertain"))
    case ClaimRecord =>
      && d !in v && IntentRecord in v && v[IntentRecord].intent.revision == c.revision
      && v[IntentRecord].intent.state == "prepared" && x.OfClaim? && ValidClaim(v[IntentRecord].intent, x.claim)
    case AckRecord(id) =>
      && d !in v && IntentRecord in v && v[IntentRecord].intent.revision == c.revision
      && FindEvent(v[IntentRecord].intent.events, id).Some?
      && x.OfAck? && ValidAck(v[IntentRecord].intent, FindEvent(v[IntentRecord].intent.events, id).value, x.ack)
  }

  lemma ClaimLawful(h: Hasher, v: Records, i: Intent)
    requires Good(h, v) && IntentRecord in v && i == v[IntentRecord].intent
    requires !v[ControlRecord].control.cancelled && i.revision == v[ControlRecord].control.revision
    ensures var d := DecideClaim(v, i);
            d.commit.Some? ==> LawfulCommit(h, v, d.commit.value.0, d.commit.value.1)
  {
    hide ReadAcks, GoodAck;
  }

  lemma AckLawful(h: Hasher, v: Records, i: Intent, a: Command)
    requires Good(h, v) && IntentRecord in v && i == v[IntentRecord].intent && a.Acknowledge?
    requires !v[ControlRecord].control.cancelled && i.revision == v[ControlRecord].control.revision
    requires SafeName(a.command) && ValidDecision(a.decision)
    ensures var d := DecideAck(v, i, a);
            d.commit.Some? ==> LawfulCommit(h, v, d.commit.value.0, d.commit.value.1)
  {
    FindEventFinds(i.events, a.eventId);
  }

  lemma PrepareLawful(h: Hasher, v: Records, delivery: string, events: Option<seq<Event>>)
    requires Good(h, v) && !v[ControlRecord].control.cancelled && SafeName(delivery)
    ensures var d := DecidePrepare(h, v, v[ControlRecord].control, delivery, events);
            d.commit.Some? ==> LawfulCommit(h, v, d.commit.value.0, d.commit.value.1)
  {
    hide ValidEvents, SafeName, GoodAck;
  }

  lemma CommitLawful(h: Hasher, v: Records, r: Request)
    requires Good(h, v) && Decide(h, v, r).commit.Some?
    ensures var d := Decide(h, v, r).commit.value; LawfulCommit(h, v, d.0, d.1)
  {
    var c := v[ControlRecord].control;
    hide DecideClaim, DecideAck, DecidePrepare, LawfulCommit, DecideStatus, GoodAck, ValidIntent, SafeName;
    if r.command.Prepare? {
      PrepareLawful(h, v, r.command.delivery, r.command.events);
    } else if r.command.Status? {
      StatusCommitsNothing(h, v, c);
    } else if r.command.Revise? {
      ReviseLawful(h, v, r.command.cancel);
    } else {
      var i := v[IntentRecord].intent;
      match r.command
      case ClaimSend => ClaimLawful(h, v, i);
      case Uncertain => UncertainLawful(h, v, i);
      case Acknowledge(_, _, _, _, _, _) => AckLawful(h, v, i, r.command);
    }
  }

  lemma StatusCommitsNothing(h: Hasher, v: Records, c: Control)
    ensures DecideStatus(h, v, c).commit.None?
  {
  }

  lemma ReviseLawful(h: Hasher, v: Records, cancel: bool)
    requires Good(h, v) && !v[ControlRecord].control.cancelled
    ensures var d := DecideRevise(v, v[ControlRecord].control, cancel);
            d.commit.Some? ==> LawfulCommit(h, v, d.commit.value.0, d.commit.value.1)
  {
  }

  lemma UncertainLawful(h: Hasher, v: Records, i: Intent)
    requires Good(h, v) && IntentRecord in v && i == v[IntentRecord].intent
    requires !v[ControlRecord].control.cancelled && i.revision == v[ControlRecord].control.revision
    ensures LawfulCommit(h, v, IntentRecord, OfIntent(i.(state := "transport_uncertain")))
  {
    var i' := i.(state := "transport_uncertain");
    assert i'.(payloadHash := "", state := "") == i.(payloadHash := "", state := "");
    hide ValidEvents, SafeName;
  }

  /** A lawful commit keeps the records good. */
  lemma CommitGood(h: Hasher, v: Records, d: Dest, x: Record)
    requires Good(h, v) && LawfulCommit(h, v, d, x)
    ensures Good(h, v[d := x])
  {
    var v' := v[d := x];
    assert GoodControl(v') && GoodJob(v') by {
      hide GoodIntent, GoodClaim, GoodAck, ValidIntent, SafeChar;
    }
    hide ValidEvents, SafeName, ValidDecision, FindEvent, GoodJob;
    forall id | AckRecord(id) in v' ensures GoodAck(v', id) {
      if AckRecord(id) in v {
        assert GoodAck(v, id);
      }
    }
  }

  // ---------------------------------------------------------------- what never changes

  /** Cancelled, or revised past the intent. */
  predicate Frozen(v: Records)
    requires GoodControl(v)
  {
    var c := v[ControlRecord].control;
    c.cancelled || (IntentRecord in v && v[IntentRecord].OfIntent? && c.revision > v[IntentRecord].intent.revision)
  }

  /**
    Later records of the same task: the control record only moves up and stays cancelled,
    an intent only becomes uncertain, the job, claims and acknowledgements never change, and once
    frozen nothing but the control record does.
   */
  ghost predicate Evolves(v: Records, v': Records)
    requires GoodControl(v) && GoodControl(v')
  {
    var c, c' := v[ControlRecord].control, v'[ControlRecord].control;
    && c'.nonce == c.nonce && c'.controller == c.controller && c.revision <= c'.revision && (c.cancelled ==> c' == c)
    && (forall d :: d in v ==> d in v')
    && (forall d :: d in v && (d.JobRecord? || d.ClaimRecord? || d.AckRecord?) ==> v'[d] == v[d])
    && (IntentRecord in v && v[IntentRecord].OfIntent? ==>
          v'[IntentRecord] == v[IntentRecord]
          || v'[IntentRecord] == OfIntent(v[IntentRecord].intent.(state := "transport_uncertain")))
    && (Frozen(v) ==> Frozen(v') && forall d :: d in v' && d != ControlRecord ==> d in v && v'[d] == v[d])
  }

  lemma CommitEvolves(h: Hasher, v: Records, d: Dest, x: Record)
    requires Good(h, v) && LawfulCommit(h, v, d, x)
    ensures GoodControl(v[d := x]) && Evolves(v, v[d := x])
  {
    if d == JobRecord && IntentRecord in v {
      assert v[IntentRecord].intent.revision == 1;
    }
    hide ValidIntent, ValidAck, ValidClaim, FindEvent, SafeName, GoodAck;
  }

  lemma WorkLawful(h: Hasher, v: Records, w: Work)
    requires Good(h, v) && DecideWork(v, w).commit.Some?
    ensures var d := DecideWork(v, w).commit.value; LawfulCommit(h, v, d.0, d.1)
  {
    hide GoodIntent, GoodClaim, GoodAck, SafeName;
  }

  lemma ErrandLawful(h: Hasher, v: Records, e: Errand)
    requires Good(h, v) && DecideErrand(h, v, e).commit.Some?
    ensures var d := DecideErrand(h, v, e).commit.value; LawfulCommit(h, v, d.0, d.1)
  {
    hide Decide, DecideWork, LawfulCommit, Good;
    match e
    case Commanded(request) => CommitLawful(h, v, request);
    case Working(work) => WorkLawful(h, v, work);
  }

  /** Whether or not a process reaches its commit, the records stay good and only evolve. */
  lemma ErrandSafe(h: Hasher, v: Records, e: Errand, committed: bool)
    requires Good(h, v)
    ensures Good(h, After(h, v, e, committed)) && Evolves(v, After(h, v, e, committed))
  {
    hide DecideErrand, LawfulCommit;
    if committed && DecideErrand(h, v, e).commit.Some? {
      var d := DecideErrand(h, v, e).commit.value;
      ErrandLawful(h, v, e);
      CommitGood(h, v, d.0, d.1);
      CommitEvolves(h, v, d.0, d.1);
    }
  }

  /**
    Whenever the task's worker comes to publish its job, the control record is still the one
    of the start: the worker is refused exactly if another one has published.
   */
  lemma JobPublished(h: Hasher, v: Records, w: Work)
    requires Good(h, v) && w.nonce == v[ControlRecord].control.nonce && w.thread == v[ControlRecord].control.controller
    ensures JobRecord !in v ==> DecideWork(v, w).reply == Started(StartedJob(w, w.thread, 1))
    ensures JobRecord in v ==> DecideWork(v, w).reply.Refused?
  {
    hide GoodIntent, GoodClaim, GoodAck, SafeName;
  }

  // ---------------------------------------------------------------- whole histories

  function AfterAll(h: Hasher, v: Records, errands: seq<(Errand, bool)>): Records
    decreases |errands|
  {
    if errands == [] then v else AfterAll(h, After(h, v, errands[0].0, errands[0].1), errands[1..])
  }

  lemma EvolvesTransitive(h: Hasher, u: Records, v: Records, w: Records)
    requires Good(h, u) && Good(h, v) && Good(h, w) && Evolves(u, v) && Evolves(v, w)
    ensures Evolves(u, w)
  {
    hide ValidIntent, ValidClaim, GoodAck, SafeName;
  }

  /** Any commands and workers, each dying or not: good records evolve, so the first ones bind all later ones. */
  lemma {:induction false} HistorySafe(h: Hasher, v: Records, errands: seq<(Errand, bool)>)
    requires Good(h, v)
    ensures Good(h, AfterAll(h, v, errands)) && Evolves(v, AfterAll(h, v, errands))
    decreases |errands|
  {
    hide Good, Evolves, After;
    if errands != [] {
      var v' := After(h, v, errands[0].0, errands[0].1);
      ErrandSafe(h, v, errands[0].0, errands[0].1);
      HistorySafe(h, v', errands[1..]);
      EvolvesTransitive(h, v, v', AfterAll(h, v', errands[1..]));
    } else {
      EvolvesItself(h, v);
    }
  }

  lemma EvolvesItself(h: Hasher, v: Records)
    requires Good(h, v)
    ensures Evolves(v, v)
  {
  }

  // ---------------------------------------------------------------- replies

  /** On good records no command reports a damaged artifact. */
  lemma NoDamage(h: Hasher, v: Records, r: Request)
    requires Good(h, v)
    ensures Decide(h, v, r).reply != Reply.Refused("invalid_artifact")
  {
    hide ReadAcks, ReadAck, ReadClaim, ReadJob, ReadIntent, FindEvent, Good, AcceptableArguments, ValidIntent,
      ValidEvents;
    IntentUndamaged(h, v, r.nonce);
    if IntentRecord in v {
      ReadsUndamaged(h, v);
      FoundUndamaged(h, v, if r.command.Acknowledge? then r.command.eventId else "");
    }
    hide ReadControl, Frozen;
    var c := ReadControl(v, r.nonce);
    if AcceptableArguments(r) && c.Ok? {
      if r.command.Status? {
        hide ReportOf;
        assert DecideStatus(h, v, c.value).reply != Reply.Refused("invalid_artifact");
      } else if r.command.Prepare? {
        var Prepare(delivery, events) := r.command;
        assert DecidePrepare(h, v, c.value, delivery, events).reply != Reply.Refused("invalid_artifact");
      } else if r.command.Revise? {
        assert DecideRevise(v, c.value, r.command.cancel).reply != Reply.Refused("invalid_artifact");
      } else if IntentRecord in v {
        var i := v[IntentRecord].intent;
        if r.command.Acknowledge? {
          assert DecideAck(v, i, r.command).reply != Reply.Refused("invalid_artifact");
        } else {
          assert DecideClaim(v, i).reply != Reply.Refused("invalid_artifact");
        }
      }
    }
  }

  lemma IntentUndamaged(h: Hasher, v: Records, nonce: string)
    requires Good(h, v)
    ensures GoodControl(v) && ReadControl(v, nonce) != Bad("invalid_artifact")
    ensures ReadControl(v, nonce).Ok? ==> ReadControl(v, nonce).value == v[ControlRecord].control
    ensures !ReadControl(v, nonce).Missing? && ReadJob(v, v[ControlRecord].control) != Bad("invalid_artifact")
    ensures var r := ReadIntent(h, v, v[ControlRecord].control);
            if IntentRecord in v then v[IntentRecord].OfIntent? && r == Ok(v[IntentRecord].intent)
            else r == Bad("batch_intent_missing")
  {
  }

  lemma ReadsUndamaged(h: Hasher, v: Records)
    requires Good(h, v) && IntentRecord in v && v[IntentRecord].OfIntent?
    ensures var i := v[IntentRecord].intent; ReadAcks(v, i, i.events).Ok? && !ReadClaim(v, i).Bad?
  {
    var i := v[IntentRecord].intent;
    ReadAcksGood(h, v, |i.events|);
    assert i.events[..|i.events|] == i.events;
  }

  lemma FoundUndamaged(h: Hasher, v: Records, id: string)
    requires Good(h, v) && IntentRecord in v && v[IntentRecord].OfIntent?
    ensures var i := v[IntentRecord].intent;
            FindEvent(i.events, id).Some? ==> !ReadAck(v, i, FindEvent(i.events, id).value).Bad?
  {
    var i := v[IntentRecord].intent;
    FindEventFinds(i.events, id);
    if FindEvent(i.events, id).Some? {
      var k :| 0 <= k < |i.events| && i.events[k] == FindEvent(i.events, id).value;
      ReadAckGood(h, v, k);
    }
  }

  /** Sending is allowed exactly when the controller's claim at the current revision would be granted. */
  lemma SendAllowedIffClaimable(h: Hasher, v: Records, status: Request, claim: Request)
    requires Good(h, v) && AcceptableArguments(status) && AcceptableArguments(claim)
    requires status.command.Status? && claim.command.ClaimSend?
    requires var c := v[ControlRecord].control;
             status.nonce == claim.nonce == c.nonce && claim.controller == c.controller && claim.revision == c.revision
    ensures Decide(h, v, claim).reply.Claimed? <==>
            var d := Decide(h, v, status); d.reply.Reported? && d.reply.report.sendAllowed
  {
    hide ReadAcks, GoodAck, SafeName, ValidEvents;
  }

  /** The records a start leaves. */
  lemma StartGood(h: Hasher, nonce: string, controller: string)
    requires SafeName(nonce) && SafeName(controller)
    ensures Good(h, map[ControlRecord := OfControl(Control(1, nonce, controller, 1, false))])
  {
    hide SafeName;
  }
}
