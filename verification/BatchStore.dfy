/**
  The batch and revise commands over the directory.  Whatever system call a command dies
  at, the published records are those of its decision, either with or without its commit.
 */
module BatchStore {
  import opened Options
  import opened FileStore
  import opened BatchSpec
  import opened BatchTheorems
  import opened BatchAnswers

  type Store = Directory<Dest, Record>

  method LoadControl(dir: Store, nonce: string) returns (r: Reading<Control>)
    requires Sound(dir.fs)
    ensures r == ReadControl(View(dir.fs), nonce)
  {
    ViewReads(dir.fs, ControlRecord);
    var read := ReadTarget(dir.fs, ControlRecord);
    if read.NotFound? {
      return Bad("control_missing");
    }
    if !read.Found? || !read.content.OfControl? {
      return Bad("invalid_artifact");
    }
    var c := read.content.control;
    if c.nonce != nonce {
      return Bad("nonce_mismatch");
    }
    if c.version != 1 || !SafeName(c.controller) || !ValidRevision(c.revision) {
      return Bad("invalid_artifact");
    }
    return Ok(c);
  }

  /** The record of the worker that was started for this control record. */
  method LoadJob(dir: Store, c: Control) returns (r: Reading<Job>)
    requires Sound(dir.fs)
    ensures r == ReadJob(View(dir.fs), c)
  {
    ViewReads(dir.fs, JobRecord);
    var read := ReadTarget(dir.fs, JobRecord);
    if read.NotFound? {
      return Bad("job_missing");
    }
    if !read.Found? || !read.content.OfJob? {
      return Bad("invalid_artifact");
    }
    var j := read.content.job;
    if j.nonce != c.nonce {
      return Bad("nonce_mismatch");
    }
    if !ValidJob(j) || j.controller != c.controller || j.revision != 1 || c.revision < j.revision {
      return Bad("invalid_artifact");
    }
    return Ok(j);
  }

  method LoadIntent(dir: Store, h: Hasher, c: Control) returns (r: Reading<Intent>)
    requires Sound(dir.fs)
    ensures r == ReadIntent(h, View(dir.fs), c)
  {
    ViewReads(dir.fs, IntentRecord);
    var read := ReadTarget(dir.fs, IntentRecord);
    if read.NotFound? {
      return Bad("batch_intent_missing");
    }
    if !read.Found? || !read.content.OfIntent? || !ValidIntent(h, c, read.content.intent) {
      return Bad("invalid_artifact");
    }
    return Ok(read.content.intent);
  }

  method LoadAck(dir: Store, i: Intent, e: Event) returns (r: Reading<Ack>)
    requires Sound(dir.fs)
    ensures r == ReadAck(View(dir.fs), i, e)
  {
    ViewReads(dir.fs, AckRecord(e.id));
    var read := ReadTarget(dir.fs, AckRecord(e.id));
    if read.NotFound? {
      return Missing;
    }
    if !read.Found? || !read.content.OfAck? || !ValidAck(i, e, read.content.ack) {
      return Bad("invalid_artifact");
    }
    return Ok(read.content.ack);
  }

  method LoadClaim(dir: Store, i: Intent) returns (r: Reading<Claim>)
    requires Sound(dir.fs)
    ensures r == ReadClaim(View(dir.fs), i)
  {
    ViewReads(dir.fs, ClaimRecord);
    var read := ReadTarget(dir.fs, ClaimRecord);
    if read.NotFound? {
      return Missing;
    }
    if !read.Found? || !read.content.OfClaim? || !ValidClaim(i, read.content.claim) {
      return Bad("invalid_artifact");
    }
    return Ok(read.content.claim);
  }

  /** The acknowledgements in the order of the intent's events, and how many are missing. */
  method LoadAcks(dir: Store, i: Intent) returns (r: Reading<seq<Ack>>, pending: nat)
    requires Sound(dir.fs)
    ensures r == ReadAcks(View(dir.fs), i, i.events)
    ensures r.Ok? ==> pending == |i.events| - |r.value|
  {
    hide Sound, View, ValidAck;
    ghost var v := View(dir.fs);
    var acks: seq<Ack> := [];
    pending := 0;
    for n := 0 to |i.events|
      invariant ReadAcks(v, i, i.events[..n]) == Ok(acks) && pending == n - |acks|
    {
      assert i.events[..n + 1][..n] == i.events[..n];
      var ack := LoadAck(dir, i, i.events[n]);
      match ack {
        case Ok(a) => acks := acks + [a];
        case Missing => pending := pending + 1;
        case Bad(reason) =>
          BadAcks(v, i, i.events, n, reason);
          return Bad(reason), 0;
      }
    }
    assert i.events[..|i.events|] == i.events;
    r := Ok(acks);
  }

  /** One unreadable acknowledgement fails the whole reading. */
  lemma {:induction false} BadAcks(v: Records, i: Intent, events: seq<Event>, n: nat, reason: string)
    requires n < |events| && ReadAcks(v, i, events[..n]).Ok? && ReadAck(v, i, events[n]) == Bad(reason)
    ensures ReadAcks(v, i, events) == Bad(reason)
    decreases |events|
  {
    hide ReadAck;
    var last := |events| - 1;
    if n < last {
      assert events[..last][..n] == events[..n];
      BadAcks(v, i, events[..last], n, reason);
    }
  }

  /** A command that lived to its reply did all of its decision; one that died did all or nothing of it. */
  ghost predicate Fulfils(v: Records, d: Decision, v': Records, reply: Option<Reply>)
  {
    match reply
    case Some(x) => x == d.reply && v' == Committed(v, d)
    case None => v' == v || v' == Committed(v, d)
  }

  /** Recover a stage left behind, then reply. */
  method Recover(dir: Store, n: Name<Dest>, reply: Reply) returns (r: Option<Reply>)
    requires Sound(dir.fs) && !n.Target?
    modifies dir
    ensures Sound(dir.fs) && Fulfils(old(View(dir.fs)), Decision(reply, None), View(dir.fs), r)
  {
    hide Sound, View;
    var io := dir.ClearStage(n);
    r := if io == Died then None else Some(reply);
  }

  method PublishRecord(dir: Store, d: Dest, x: Record, reply: Reply) returns (r: Option<Reply>)
    requires Sound(dir.fs) && d !in View(dir.fs)
    modifies dir
    ensures Sound(dir.fs) && Fulfils(old(View(dir.fs)), Decision(reply, Some((d, x))), View(dir.fs), r)
  {
    hide Sound, View;
    var io := dir.Publish(d, x);
    r := if io == Died then None else Some(reply);
  }

  method ReplaceRecord(dir: Store, stage: Name<Dest>, d: Dest, x: Record, reply: Reply) returns (r: Option<Reply>)
    requires Sound(dir.fs) && (stage == Stage(d) || stage == Spare)
    modifies dir
    ensures Sound(dir.fs) && Fulfils(old(View(dir.fs)), Decision(reply, Some((d, x))), View(dir.fs), r)
  {
    hide Sound, View;
    var io := dir.Replace(stage, d, x);
    r := if io == Died then None else Some(reply);
  }

  method StatusCommand(dir: Store, h: Hasher, c: Control) returns (r: Reply)
    requires Sound(dir.fs)
    ensures DecideStatus(h, View(dir.fs), c) == Decision(r, None)
  {
    hide Sound, View, ReadAcks, ReadIntent, ReadClaim;
    var intent := LoadIntent(dir, h, c);
    if !intent.Ok? {
      return Refused(if intent.Bad? then intent.reason else "batch_intent_missing");
    }
    var i := intent.value;
    var acks, pending := LoadAcks(dir, i);
    if !acks.Ok? {
      return Refused(if acks.Bad? then acks.reason else "invalid_artifact");
    }
    var claim := LoadClaim(dir, i);
    if claim.Bad? {
      return Refused(claim.reason);
    }
    return Reported(ReportOf(c, i, acks.value, claim.Ok?));
  }

  method PrepareCommand(dir: Store, h: Hasher, c: Control, delivery: string, events: Option<seq<Event>>)
    returns (r: Option<Reply>)
    requires Sound(dir.fs)
    modifies dir
    ensures Sound(dir.fs)
    ensures Fulfils(old(View(dir.fs)), DecidePrepare(h, old(View(dir.fs)), c, delivery, events), View(dir.fs), r)
  {
    hide Sound, View, ValidEvents, BatchHash;
    ViewReads(dir.fs, IntentRecord);
    TargetRead(dir.fs, IntentRecord);
    if Target(IntentRecord) in dir.fs.names {
      r := Recover(dir, Stage(IntentRecord), Refused("batch_intent_exists"));
      return;
    }
    if events.None? || !ValidEvents(events.value) {
      return Some(Refused("invalid_args"));
    }
    var i := Intent(1, delivery, c.nonce, c.controller, 1, c.revision, "prepared", events.value, "");
    i := i.(payloadHash := BatchHash(h, i));
    r := PublishRecord(dir, IntentRecord, OfIntent(i), Prepared(i));
  }

  method ClaimCommand(dir: Store, i: Intent) returns (r: Option<Reply>)
    requires Sound(dir.fs)
    modifies dir
    ensures Sound(dir.fs) && Fulfils(old(View(dir.fs)), DecideClaim(old(View(dir.fs)), i), View(dir.fs), r)
  {
    hide Sound, View, ReadAcks, ValidClaim;
    if i.state == "transport_uncertain" {
      return Some(Refused("transport_uncertain"));
    }
    var existing := LoadClaim(dir, i);
    if existing.Ok? {
      r := Recover(dir, Stage(ClaimRecord), Refused("claim_exists"));
      return;
    }
    if existing.Bad? {
      return Some(Refused(existing.reason));
    }
    var acks, pending := LoadAcks(dir, i);
    if !acks.Ok? {
      return Some(Refused(if acks.Bad? then acks.reason else "invalid_artifact"));
    }
    if pending == 0 {
      return Some(Refused("batch_complete"));
    }
    var claim := Claim(1, "claimed", i.delivery, i.nonce, i.controller, i.revision);
    r := PublishRecord(dir, ClaimRecord, OfClaim(claim), Claimed(claim));
  }

  method AckCommand(dir: Store, i: Intent, a: Command) returns (r: Option<Reply>)
    requires Sound(dir.fs) && a.Acknowledge?
    modifies dir
    ensures Sound(dir.fs) && Fulfils(old(View(dir.fs)), DecideAck(old(View(dir.fs)), i, a), View(dir.fs), r)
  {
    hide Sound, View, ValidAck;
    var found: Option<Event> := None;
    for n := 0 to |i.events|
      invariant found.None? && FindEvent(i.events, a.eventId) == FindEvent(i.events[n..], a.eventId)
    {
      assert i.events[n..][1..] == i.events[n + 1..];
      if i.events[n].id == a.eventId {
        found := Some(i.events[n]);
        break;
      }
    }
    if found.None? || found.value.revision != a.eventRevision || found.value.payloadHash != a.eventHash
       || found.value.slot != a.slot {
      return Some(Refused("event_mismatch"));
    }
    var e := found.value;
    var existing := LoadAck(dir, i, e);
    if existing.Ok? {
      if existing.value.decision != a.decision {
        return Some(Refused("decision_conflict"));
      }
      r := Recover(dir, Stage(AckRecord(e.id)), Acknowledged(existing.value));
      return;
    }
    if existing.Bad? {
      return Some(Refused(existing.reason));
    }
    var ack := Ack(1, "acknowledged", i.delivery, i.nonce, i.controller, i.epoch, i.revision, e.(kind := ""),
                   a.command, a.decision, 1, EffectCount(a.decision));
    r := PublishRecord(dir, AckRecord(e.id), OfAck(ack), Acknowledged(ack));
  }

  method ReviseCommand(dir: Store, c: Control, cancel: bool) returns (r: Option<Reply>)
    requires Sound(dir.fs)
    modifies dir
    ensures Sound(dir.fs) && Fulfils(old(View(dir.fs)), DecideRevise(old(View(dir.fs)), c, cancel), View(dir.fs), r)
  {
    hide Sound, View, ReadJob;
    var job := LoadJob(dir, c);
    if !job.Ok? {
      return Some(Refused(if job.Bad? then job.reason else "job_missing"));
    }
    if !ValidRevision(c.revision + 1) {
      return Some(Refused("revision_limit"));
    }
    var c' := c.(revision := c.revision + 1, cancelled := cancel);
    r := ReplaceRecord(dir, Spare, ControlRecord, OfControl(c'), Revised(c'));
  }

  /** One command under the lock; no reply means that the process died. */
  method RunCommand(dir: Store, h: Hasher, r: Request) returns (reply: Option<Reply>)
    requires Sound(dir.fs)
    modifies dir
    ensures Sound(dir.fs)
    ensures Fulfils(old(View(dir.fs)), Decide(h, old(View(dir.fs)), r), View(dir.fs), reply)
  {
    hide Sound, View, AcceptableArguments, ReadControl, ReadIntent;
    hide DecideStatus, DecidePrepare, DecideClaim, DecideAck, DecideRevise;
    if !AcceptableArguments(r) {
      return Some(Refused("invalid_args"));
    }
    var control := LoadControl(dir, r.nonce);
    if !control.Ok? {
      return Some(Refused(if control.Bad? then control.reason else "control_missing"));
    }
    var c := control.value;
    if r.command.Status? {
      var report := StatusCommand(dir, h, c);
      return Some(report);
    }
    if c.controller != r.controller {
      return Some(Refused("owner_mismatch"));
    }
    if c.cancelled {
      return Some(Refused("cancelled"));
    }
    if c.revision != r.revision {
      return Some(Refused("stale_revision"));
    }
    if r.command.Revise? {
      reply := ReviseCommand(dir, c, r.command.cancel);
      return;
    }
    if r.command.Prepare? {
      reply := PrepareCommand(dir, h, c, r.command.delivery, r.command.events);
      return;
    }
    var intent := LoadIntent(dir, h, c);
    if !intent.Ok? {
      return Some(Refused(if intent.Bad? then intent.reason else "batch_intent_missing"));
    }
    var i := intent.value;
    if i.revision != c.revision {
      return Some(Refused("stale_revision"));
    }
    if r.command.ClaimSend? {
      reply := ClaimCommand(dir, i);
    } else if r.command.Uncertain? {
      i := i.(state := "transport_uncertain");
      reply := ReplaceRecord(dir, Stage(IntentRecord), IntentRecord, OfIntent(i), Prepared(i));
    } else {
      reply := AckCommand(dir, i, r.command);
    }
  }

  /** The worker's publication of its job, which it makes without the lock. */
  method WorkerCommand(dir: Store, w: Work) returns (r: Option<Reply>)
    requires Sound(dir.fs)
    modifies dir
    ensures Sound(dir.fs) && Fulfils(old(View(dir.fs)), DecideWork(old(View(dir.fs)), w), View(dir.fs), r)
  {
    hide Sound, View, SafeName;
    ViewReads(dir.fs, ControlRecord);
    TargetRead(dir.fs, ControlRecord);
    var job := StartedJob(w, "", 0);
    if Target(ControlRecord) in dir.fs.names {
      var control := LoadControl(dir, w.nonce);
      if !control.Ok? || control.value.revision != 1 || control.value.cancelled
        || control.value.controller != w.thread {
        return Some(Refused("invalid_artifact"));
      }
      job := StartedJob(w, control.value.controller, control.value.revision);
    }
    var io := dir.Publish(JobRecord, OfJob(job));
    r := match io
      case Died => None
      case Done => Some(Started(job))
      case Failed(_) => Some(Refused("start_failed"));
  }

  method RunErrand(dir: Store, h: Hasher, e: Errand) returns (reply: Option<Reply>)
    requires Sound(dir.fs)
    modifies dir
    ensures Sound(dir.fs)
    ensures Fulfils(old(View(dir.fs)), DecideErrand(h, old(View(dir.fs)), e), View(dir.fs), reply)
  {
    hide Sound, View, Decide, DecideWork, Fulfils;
    match e
    case Commanded(request) => reply := RunCommand(dir, h, request);
    case Working(work) => reply := WorkerCommand(dir, work);
  }

  /**
    Processes one after another, commands and workers, each with its own time of death: the
    records stay good and evolve, and every process does all of its decision with its exact
    reply, or dies with all or nothing of it done.
   */
  method RunAll(fs: Fs<Dest, Record>, h: Hasher, errands: seq<(Errand, nat)>)
    returns (last: Fs<Dest, Record>, replies: seq<Option<Reply>>, ghost between: seq<Records>)
    requires Sound(fs) && Good(h, View(fs))
    ensures Sound(last) && Good(h, View(last)) && Evolves(View(fs), View(last))
    ensures Explains(h, errands, replies, between) && forall v :: v in between ==> Good(h, v)
    ensures between[0] == View(fs) && between[|errands|] == View(last)
  {
    hide Sound, View, Good, Evolves, DecideErrand, Fulfils;
    last, replies, between := fs, [], [View(fs)];
    GoodControlView(h, fs);
    EvolvesItself(h, View(fs));
    for n := 0 to |errands|
      invariant Sound(last) && Good(h, View(last)) && GoodControl(View(last)) && GoodControl(View(fs))
      invariant Evolves(View(fs), View(last))
      invariant Explains(h, errands[..n], replies, between) && forall v :: v in between ==> Good(h, v)
      invariant between[0] == View(fs) && between[n] == View(last)
    {
      var dir := new Directory(last, errands[n].1);
      ghost var v := View(last);
      var e := errands[n].0;
      var reply := RunErrand(dir, h, e);
      last := dir.fs;
      FulfilsAfter(h, v, e, View(last), reply);
      ErrandSafe(h, v, e, true);
      ErrandSafe(h, v, e, false);
      GoodControlView(h, last);
      EvolvesTransitive(h, View(fs), v, View(last));
      assert errands[..n + 1] == errands[..n] + [errands[n]];
      replies, between := replies + [reply], between + [View(last)];
    }
    assert errands[..|errands|] == errands;
  }

  /** Replies and the records between the processes that account for each process by its decision. */
  ghost predicate Explains(h: Hasher, errands: seq<(Errand, nat)>, replies: seq<Option<Reply>>, between: seq<Records>)
  {
    && |replies| == |errands| && |between| == |errands| + 1
    && forall n :: 0 <= n < |errands| ==>
         Fulfils(between[n], DecideErrand(h, between[n], errands[n].0), between[n + 1], replies[n])
  }

  /** In such a run an acknowledgement answers only a command that named its event, on the records it found. */
  lemma RunAcknowledges(h: Hasher, errands: seq<(Errand, nat)>, replies: seq<Option<Reply>>, between: seq<Records>,
                        n: nat)
    requires Explains(h, errands, replies, between) && (forall v :: v in between ==> Good(h, v))
    requires n < |errands| && replies[n].Some? && replies[n].value.Acknowledged?
    ensures errands[n].0.Commanded? && errands[n].0.request.command.Acknowledge?
    ensures IntentRecord in between[n] && between[n][IntentRecord].OfIntent?
    ensures var i, a := between[n][IntentRecord].intent, errands[n].0.request.command;
            NamesOne(a, i.events) && Acknowledges(i, a, replies[n].value.ack)
  {
    hide Good, Decide, DecideWork, NamesOne, Acknowledges;
    var v, e := between[n], errands[n].0;
    assert Fulfils(v, DecideErrand(h, v, e), between[n + 1], replies[n]);
    match e
    case Commanded(request) => AcknowledgedNamed(h, v, request);
    case Working(work) => WorkReplies(v, work);
  }

  lemma WorkReplies(v: Records, w: Work)
    ensures !DecideWork(v, w).reply.Acknowledged?
  {
    hide ReadControl;
  }

  lemma FulfilsAfter(h: Hasher, v: Records, e: Errand, v': Records, reply: Option<Reply>)
    requires Fulfils(v, DecideErrand(h, v, e), v', reply)
    ensures v' == After(h, v, e, true) || v' == After(h, v, e, false)
  {
    hide DecideErrand;
  }

  lemma GoodControlView(h: Hasher, fs: Fs<Dest, Record>)
    requires Good(h, View(fs))
    ensures GoodControl(View(fs))
  {
  }
}
