/**
  The batch commands of a controlled task: what each decides from the published records,
  and the one record it may commit.  The hash of an intent is a function of the intent.
 */
module BatchSpec {
  import opened Options

  const MAX_REVISION := 1_000_000
  const MAX_EVENTS := 8

  datatype Control = Control(version: int, nonce: string, controller: string, revision: int, cancelled: bool)

  datatype Event = Event(id: string, revision: int, kind: string, payloadHash: string, slot: string)

  datatype Intent = Intent(
    version: int, delivery: string, nonce: string, controller: string, epoch: int, revision: int,
    state: string, events: seq<Event>, payloadHash: string)

  datatype Claim = Claim(version: int, status: string, delivery: string, nonce: string, controller: string,
                         revision: int)

  datatype Ack = Ack(
    version: int, status: string, delivery: string, nonce: string, controller: string, epoch: int, revision: int,
    event: Event, command: string, decision: string, decisionCount: int, effectCount: int)

  /** What the worker records when it has started; `timed` says whether its time of creation can be parsed. */
  datatype Job = Job(
    version: int, status: string, nonce: string, worker: int, timed: bool, jobFile: string, resultFile: string,
    controller: string, revision: int)

  /** The record files; an acknowledgement file is named after its event. */
  datatype Dest = ControlRecord | JobRecord | IntentRecord | ClaimRecord | AckRecord(eventId: string)

  datatype Record =
    | OfControl(control: Control) | OfJob(job: Job) | OfIntent(intent: Intent) | OfClaim(claim: Claim) | OfAck(ack: Ack)

  type Records = map<Dest, Record>

  type Hasher = Intent -> string

  // ---------------------------------------------------------------- checks

  predicate ValidRevision(revision: int)
  {
    1 <= revision <= MAX_REVISION
  }

  predicate SafeChar(c: char)
  {
    'A' <= c <= 'Z' || 'a' <= c <= 'z' || '0' <= c <= '9' || c == '_' || c == '-'
  }

  predicate SafeName(s: string)
  {
    1 <= |s| <= 64 && forall i :: 0 <= i < |s| ==> SafeChar(s[i])
  }

  predicate SafeHash(s: string)
  {
    |s| == 64 && forall i :: 0 <= i < |s| ==> '0' <= s[i] <= '9' || 'a' <= s[i] <= 'f'
  }

  predicate ValidDecision(decision: string)
  {
    decision in ["handled", "waiting_user", "stale", "rejected"]
  }

  function EffectCount(decision: string): int
  {
    if decision == "handled" then 1 else 0
  }

  predicate ValidEvent(e: Event)
  {
    && SafeName(e.id) && ValidRevision(e.revision) && e.kind in ["progress", "question", "result"]
    && SafeHash(e.payloadHash) && SafeName(e.slot)
  }

  predicate ValidEvents(events: seq<Event>)
  {
    && 1 <= |events| <= MAX_EVENTS
    && (forall i :: 0 <= i < |events| ==> ValidEvent(events[i]))
    && (forall i, j :: 0 <= i < j < |events| ==> events[i].id != events[j].id && events[i].slot != events[j].slot)
  }

  /** The hash of an intent leaves out its state and the hash itself. */
  function BatchHash(h: Hasher, i: Intent): string
  {
    h(i.(payloadHash := "", state := ""))
  }

  predicate ValidIntent(h: Hasher, c: Control, i: Intent)
  {
    && i.version == 1 && SafeName(i.delivery) && i.nonce == c.nonce && i.controller == c.controller && i.epoch == 1
    && ValidRevision(i.revision) && (i.state == "prepared" || i.state == "transport_uncertain")
    && i.payloadHash == BatchHash(h, i) && ValidEvents(i.events)
  }

  predicate ValidClaim(i: Intent, c: Claim)
  {
    c == Claim(1, "claimed", i.delivery, i.nonce, i.controller, i.revision)
  }

  /** The acknowledgement repeats the intent and the event's id, revision, hash and slot. */
  predicate ValidAck(i: Intent, e: Event, a: Ack)
  {
    && a.version == 1 && a.status == "acknowledged" && a.delivery == i.delivery && a.nonce == i.nonce
    && a.controller == i.controller && a.epoch == i.epoch && a.revision == i.revision
    && a.event == e.(kind := "")
    && SafeName(a.command) && ValidDecision(a.decision) && a.decisionCount == 1
    && a.effectCount == EffectCount(a.decision)
  }

  // ---------------------------------------------------------------- reads

  /** A record that was read, is not there, or is refused. */
  datatype Reading<T> = Ok(value: T) | Missing | Bad(reason: string)

  function ReadControl(v: Records, nonce: string): Reading<Control>
  {
    if ControlRecord !in v then Bad("control_missing")
    else if !v[ControlRecord].OfControl? then Bad("invalid_artifact")
    else
      var c := v[ControlRecord].control;
      if c.nonce != nonce then Bad("nonce_mismatch")
      else if c.version != 1 || !SafeName(c.controller) || !ValidRevision(c.revision) then Bad("invalid_artifact")
      else Ok(c)
  }

  predicate ValidJob(j: Job)
  {
    && j.version == 1 && j.status == "started" && j.worker > 0 && j.timed
    && j.jobFile == "job.json" && j.resultFile == "result.json"
    && (j.controller == "" ==> j.revision == 0)
    && (j.controller != "" ==> SafeName(j.controller) && j.revision == 1)
  }

  /** The job of the control record's task. */
  function ReadJob(v: Records, c: Control): Reading<Job>
  {
    if JobRecord !in v then Bad("job_missing")
    else if !v[JobRecord].OfJob? then Bad("invalid_artifact")
    else
      var j := v[JobRecord].job;
      if j.nonce != c.nonce then Bad("nonce_mismatch")
      else if !ValidJob(j) || j.controller != c.controller || j.revision != 1 || c.revision < j.revision then
        Bad("invalid_artifact")
      else Ok(j)
  }

  function ReadIntent(h: Hasher, v: Records, c: Control): Reading<Intent>
  {
    if IntentRecord !in v then Bad("batch_intent_missing")
    else if !v[IntentRecord].OfIntent? || !ValidIntent(h, c, v[IntentRecord].intent) then Bad("invalid_artifact")
    else Ok(v[IntentRecord].intent)
  }

  function ReadAck(v: Records, i: Intent, e: Event): Reading<Ack>
  {
    if AckRecord(e.id) !in v then Missing
    else if !v[AckRecord(e.id)].OfAck? || !ValidAck(i, e, v[AckRecord(e.id)].ack) then Bad("invalid_artifact")
    else Ok(v[AckRecord(e.id)].ack)
  }

  function ReadClaim(v: Records, i: Intent): Reading<Claim>
  {
    if ClaimRecord !in v then Missing
    else if !v[ClaimRecord].OfClaim? || !ValidClaim(i, v[ClaimRecord].claim) then Bad("invalid_artifact")
    else Ok(v[ClaimRecord].claim)
  }

  /** The acknowledgements of some events in order, unless one is unreadable. */
  function ReadAcks(v: Records, i: Intent, events: seq<Event>): (r: Reading<seq<Ack>>)
    ensures r.Ok? ==> |r.value| <= |events|
    decreases |events|
  {
    if events == [] then Ok([])
    else
      var last := |events| - 1;
      var init := ReadAcks(v, i, events[..last]);
      if !init.Ok? then init
      else
        match ReadAck(v, i, events[last])
        case Ok(a) => Ok(init.value + [a])
        case Missing => init
        case Bad(reason) => Bad(reason)
  }

  // ---------------------------------------------------------------- commands

  datatype Command =
    | Status
    | Prepare(delivery: string, events: Option<seq<Event>>)
    | ClaimSend
    | Uncertain
    | Acknowledge(eventId: string, eventRevision: int, eventHash: string, slot: string, command: string,
                  decision: string)
    | Revise(cancel: bool)

  /** A command line; `events` in `Prepare` is the decoded event list, `None` if it does not decode. */
  datatype Request = Request(nonce: string, controller: string, revision: int, command: Command)

  datatype Report = Report(
    overall: string, uncertain: bool, business: string, sendAllowed: bool, claimed: bool, acks: seq<Ack>, pending: nat)

  datatype Reply =
    | Refused(reason: string)
    | Reported(report: Report)
    | Prepared(intent: Intent)
    | Claimed(claim: Claim)
    | Acknowledged(ack: Ack)
    | Revised(control: Control)
    | Started(job: Job)

  /** What a command replies, and the record it publishes or replaces first, if any. */
  datatype Decision = Decision(reply: Reply, commit: Option<(Dest, Record)>)

  function Refuse(reason: string): Decision
  {
    Decision(Refused(reason), None)
  }

  /** The argument checks made before the directory is opened. */
  predicate AcceptableArguments(r: Request)
  {
    && SafeName(r.nonce)
    && (!r.command.Status? ==> ValidRevision(r.revision))
    && (r.command.Revise? ==> SafeName(r.controller))
    && match r.command
       case Prepare(delivery, _) => SafeName(delivery)
       case Acknowledge(eventId, eventRevision, eventHash, slot, command, decision) =>
         && SafeName(eventId) && ValidRevision(eventRevision) && SafeHash(eventHash) && SafeName(slot)
         && SafeName(command) && ValidDecision(decision)
       case _ => true
  }

  function Decide(h: Hasher, v: Records, r: Request): Decision
  {
    if !AcceptableArguments(r) then Refuse("invalid_args")
    else
      match ReadControl(v, r.nonce)
      case Bad(reason) => Refuse(reason)
      case Missing => Refuse("control_missing")
      case Ok(c) =>
        if r.command.Status? then DecideStatus(h, v, c)
        else if c.controller != r.controller then Refuse("owner_mismatch")
        else if c.cancelled then Refuse("cancelled")
        else if c.revision != r.revision then Refuse("stale_revision")
        else if r.command.Revise? then DecideRevise(v, c, r.command.cancel)
        else if r.command.Prepare? then DecidePrepare(h, v, c, r.command.delivery, r.command.events)
        else
          match ReadIntent(h, v, c)
          case Bad(reason) => Refuse(reason)
          case Missing => Refuse("batch_intent_missing")
          case Ok(i) =>
            if i.revision != c.revision then Refuse("stale_revision")
            else if r.command.ClaimSend? then DecideClaim(v, i)
            else if r.command.Uncertain? then
              var i' := i.(state := "transport_uncertain");
              Decision(Prepared(i'), Some((IntentRecord, OfIntent(i'))))
            else DecideAck(v, i, r.command)
  }

  function DecideStatus(h: Hasher, v: Records, c: Control): Decision
  {
    match ReadIntent(h, v, c)
    case Bad(reason) => Refuse(reason)
    case Missing => Refuse("batch_intent_missing")
    case Ok(i) =>
      match ReadAcks(v, i, i.events)
      case Bad(reason) => Refuse(reason)
      case Missing => Refuse("invalid_artifact")
      case Ok(acks) =>
        if ReadClaim(v, i).Bad? then Refuse(ReadClaim(v, i).reason)
        else Decision(Reported(ReportOf(c, i, acks, ReadClaim(v, i).Ok?)), None)
  }

  function ReportOf(c: Control, i: Intent, acks: seq<Ack>, claimed: bool): Report
    requires |acks| <= |i.events|
  {
    var pending, uncertain := |i.events| - |acks|, i.state == "transport_uncertain";
    var business := if !uncertain && pending == 0 then "complete"
                    else if !uncertain && acks == [] then "prepared" else "partial";
    Report(if c.cancelled then "cancelled" else if c.revision != i.revision then "stale"
           else if uncertain then "uncertain" else business,
           uncertain, business,
           !uncertain && !claimed && pending > 0 && !c.cancelled && c.revision == i.revision, claimed, acks, pending)
  }

  function DecideRevise(v: Records, c: Control, cancel: bool): Decision
  {
    if !ReadJob(v, c).Ok? then Refuse(if ReadJob(v, c).Bad? then ReadJob(v, c).reason else "job_missing")
    else if !ValidRevision(c.revision + 1) then Refuse("revision_limit")
    else
      var c' := c.(revision := c.revision + 1, cancelled := cancel);
      Decision(Revised(c'), Some((ControlRecord, OfControl(c'))))
  }

  function DecidePrepare(h: Hasher, v: Records, c: Control, delivery: string, events: Option<seq<Event>>): Decision
  {
    if IntentRecord in v then Refuse("batch_intent_exists")
    else if events.None? || !ValidEvents(events.value) then Refuse("invalid_args")
    else
      var i := Intent(1, delivery, c.nonce, c.controller, 1, c.revision, "prepared", events.value, "");
      var i' := i.(payloadHash := BatchHash(h, i));
      Decision(Prepared(i'), Some((IntentRecord, OfIntent(i'))))
  }

  function DecideClaim(v: Records, i: Intent): Decision
  {
    if i.state == "transport_uncertain" then Refuse("transport_uncertain")
    else
      match ReadClaim(v, i)
      case Ok(_) => Refuse("claim_exists")
      case Bad(reason) => Refuse(reason)
      case Missing =>
        match ReadAcks(v, i, i.events)
        case Bad(reason) => Refuse(reason)
        case Missing => Refuse("invalid_artifact")
        case Ok(acks) =>
          if |acks| == |i.events| then Refuse("batch_complete")
          else
            var c := Claim(1, "claimed", i.delivery, i.nonce, i.controller, i.revision);
            Decision(Claimed(c), Some((ClaimRecord, OfClaim(c))))
  }

  /** The event of that id, if there is one. */
  function FindEvent(events: seq<Event>, id: string): Option<Event>
    decreases |events|
  {
    if events == [] then None
    else if events[0].id == id then Some(events[0])
    else FindEvent(events[1..], id)
  }

  function DecideAck(v: Records, i: Intent, a: Command): Decision
    requires a.Acknowledge?
  {
    var found := FindEvent(i.events, a.eventId);
    if found.None? || found.value.revision != a.eventRevision || found.value.payloadHash != a.eventHash
       || found.value.slot != a.slot
    then Refuse("event_mismatch")
    else
      var e := found.value;
      match ReadAck(v, i, e)
      case Ok(existing) =>
        if existing.decision != a.decision then Refuse("decision_conflict") else Decision(Acknowledged(existing), None)
      case Bad(reason) => Refuse(reason)
      case Missing =>
        var ack := Ack(1, "acknowledged", i.delivery, i.nonce, i.controller, i.epoch, i.revision, e.(kind := ""),
                       a.command, a.decision, 1, EffectCount(a.decision));
        Decision(Acknowledged(ack), Some((AckRecord(e.id), OfAck(ack))))
  }

  // ---------------------------------------------------------------- the worker

  type Pid = p: int | p > 0 witness 1

  /** The worker that a start leaves behind, with the controller thread of its environment. */
  datatype Work = Work(nonce: string, thread: string, worker: Pid)

  /** What the worker records of itself. */
  function StartedJob(w: Work, controller: string, revision: int): Job
  {
    Job(1, "started", w.nonce, w.worker, true, "job.json", "result.json", controller, revision)
  }

  function PublishJob(v: Records, j: Job): Decision
  {
    if JobRecord in v then Refuse("start_failed") else Decision(Started(j), Some((JobRecord, OfJob(j))))
  }

  /** A task without a control record has a job without a controller. */
  function DecideWork(v: Records, w: Work): Decision
  {
    if ControlRecord !in v then PublishJob(v, StartedJob(w, "", 0))
    else
      match ReadControl(v, w.nonce)
      case Bad(_) => Refuse("invalid_artifact")
      case Missing => Refuse("invalid_artifact")
      case Ok(c) =>
        if c.revision != 1 || c.cancelled || c.controller != w.thread then Refuse("invalid_artifact")
        else PublishJob(v, StartedJob(w, c.controller, c.revision))
  }

  // ---------------------------------------------------------------- any process

  /** What a process of the task is there for: a command line, or the worker's publication of its job. */
  datatype Errand = Commanded(request: Request) | Working(work: Work)

  function DecideErrand(h: Hasher, v: Records, e: Errand): Decision
  {
    match e
    case Commanded(request) => Decide(h, v, request)
    case Working(work) => DecideWork(v, work)
  }

  /** The published records with a decision's commit. */
  function Committed(v: Records, d: Decision): Records
  {
    if d.commit.Some? then v[d.commit.value.0 := d.commit.value.1] else v
  }

  /** The published records after a process: unchanged, or with its commit if it got that far. */
  function After(h: Hasher, v: Records, e: Errand, committed: bool): Records
  {
    if committed then Committed(v, DecideErrand(h, v, e)) else v
  }
}
