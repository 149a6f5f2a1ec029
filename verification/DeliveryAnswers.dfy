/**
  What the ledger does for its callers: which events it takes and what it makes of them, when
  a preparation goes through, what a delivery is sent as, what each transition records, and
  which directories it reads at all.
 */
module DeliveryAnswers {
  import opened Options
  import opened BatchSpec
  import opened DeliverySpec
  import opened DeliveryTheorems

  // ---------------------------------------------------------------- projection

  /** An event the ledger takes: of this task, identified, revised, of a known kind, with a hash. */
  predicate Acceptable(task: string, e: TaskEvent)
  {
    && e.version == 1 && e.task == task && e.revision > 0 && e.workRevision > 0 && SafeHash(e.payloadHash)
    && 1 <= |e.id| <= 256 && 1 <= |e.slot| <= 256
    && (e.kind == "question" || e.kind == "result" || e.kind == "failed" || e.kind == "launch_rejected"
        || e.kind == "unknown" || e.kind == "stopped")
  }

  /** No two events share an id or a slot once these are shortened. */
  predicate Apart(env: Env, rows: seq<TaskEvent>)
  {
    forall j, k :: 0 <= j < k < |rows| ==>
      && Alias(env, "e_", rows[j].id) != Alias(env, "e_", rows[k].id)
      && Alias(env, "s_", rows[j].slot) != Alias(env, "s_", rows[k].slot)
  }

  /** What is delivered of an event: a question stays one, everything else is a result. */
  predicate DeliversRow(env: Env, row: TaskEvent, e: Event)
  {
    && e.id == Alias(env, "e_", row.id) && e.slot == Alias(env, "s_", row.slot)
    && e.revision == row.revision && e.payloadHash == row.payloadHash
    && (e.kind == "question" <==> row.kind == "question") && (e.kind == "result" <==> row.kind != "question")
  }

  /** What the ledger keeps of an event: all that its task said, beside the names it goes by. */
  predicate KeepsRow(env: Env, row: TaskEvent, s: SourceEvent)
  {
    && s.nativeId == Alias(env, "e_", row.id) && s.nativeSlot == Alias(env, "s_", row.slot)
    && s.id == row.id && s.slot == row.slot && s.revision == row.revision && s.payloadHash == row.payloadHash
    && s.kind == row.kind && s.workRevision == row.workRevision
  }

  predicate Mirrors(env: Env, rows: seq<TaskEvent>, events: seq<Event>, source: seq<SourceEvent>)
  {
    && |events| == |source| == |rows|
    && forall k :: 0 <= k < |rows| ==> DeliversRow(env, rows[k], events[k]) && KeepsRow(env, rows[k], source[k])
  }

  lemma RowIff(env: Env, task: string, e: TaskEvent)
    ensures RowError(task, e).None? <==> Acceptable(task, e)
    ensures DeliversRow(env, e, NativeEvent(env, e)) && KeepsRow(env, e, SourceOf(env, e))
  {
    hide Alias, SafeHash;
  }

  lemma {:induction false} ProjectRowsIff(env: Env, task: string, rows: seq<TaskEvent>)
    ensures ProjectRows(env, task, rows).Success? <==>
            (forall k :: 0 <= k < |rows| ==> Acceptable(task, rows[k])) && Apart(env, rows)
    ensures var r := ProjectRows(env, task, rows); r.Success? ==> Mirrors(env, rows, r.value.0, r.value.1)
    decreases |rows|
  {
    hide RowError, Acceptable, Alias, DeliversRow, KeepsRow, NativeEvent, SourceOf;
    if rows != [] {
      var n := |rows| - 1;
      var init := ProjectRows(env, task, rows[..n]);
      ProjectRowsIff(env, task, rows[..n]);
      RowIff(env, task, rows[n]);
      LastApart(env, rows);
      if init.Success? {
        ClashIff(env, rows, init.value.0, init.value.1);
      }
    }
  }

  lemma LastApart(env: Env, rows: seq<TaskEvent>)
    requires rows != []
    ensures var n := |rows| - 1;
            Apart(env, rows) <==>
            Apart(env, rows[..n]) && forall j :: 0 <= j < n ==> Differ(env, rows[j], rows[n])
  {
    hide Alias;
    var n := |rows| - 1;
    if Apart(env, rows[..n]) && forall j :: 0 <= j < n ==> Differ(env, rows[j], rows[n]) {
      forall j, k | 0 <= j < k < |rows|
        ensures Alias(env, "e_", rows[j].id) != Alias(env, "e_", rows[k].id)
             && Alias(env, "s_", rows[j].slot) != Alias(env, "s_", rows[k].slot) {
        if k < n {
          assert rows[..n][j] == rows[j] && rows[..n][k] == rows[k];
        } else {
          assert Differ(env, rows[j], rows[n]);
        }
      }
    }
  }

  predicate Differ(env: Env, x: TaskEvent, y: TaskEvent)
  {
    Alias(env, "e_", x.id) != Alias(env, "e_", y.id) && Alias(env, "s_", x.slot) != Alias(env, "s_", y.slot)
  }

  lemma ClashIff(env: Env, rows: seq<TaskEvent>, events: seq<Event>, source: seq<SourceEvent>)
    requires rows != [] && Mirrors(env, rows[..|rows| - 1], events, source)
    ensures var n := |rows| - 1;
            Clashes(events, NativeEvent(env, rows[n])) <==> !(forall j :: 0 <= j < n ==> Differ(env, rows[j], rows[n]))
  {
    hide Alias, KeepsRow;
    var n := |rows| - 1;
    RowIff(env, "", rows[n]);
    forall j | 0 <= j < n ensures DeliversRow(env, rows[j], events[j]) {
      assert rows[..n][j] == rows[j];
    }
    hide NativeEvent;
  }

  /** A list of events is taken exactly if all are acceptable and stay apart, and then it is mirrored in order. */
  lemma ProjectIff(env: Env, task: string, rows: seq<TaskEvent>)
    ensures var r := Project(env, task, rows);
            && (r.Success? <==>
                  && SafeName(task) && 1 <= |rows| <= 8 && Apart(env, rows)
                  && forall k :: 0 <= k < |rows| ==> Acceptable(task, rows[k]))
            && (r.Success? ==> Mirrors(env, rows, r.value.0, r.value.1))
  {
    hide ProjectRows, SafeName, Acceptable, Apart, Mirrors;
    ProjectRowsIff(env, task, rows);
  }

  // ---------------------------------------------------------------- a new batch, as it is sent

  /** The envelope of a batch of these events for this owner. */
  predicate Envelops(env: Env, a: Attachment, rows: seq<TaskEvent>, e: Envelope)
  {
    && e.version == 1 && e.thread == a.thread && e.epoch == a.epoch && |e.events| == |rows|
    && (forall k :: 0 <= k < |rows| ==> DeliversRow(env, rows[k], e.events[k]))
    && e.payloadHash == env.sha(EnvelopeText(env, e.(payloadHash := ""), false))
  }

  /** A prepared batch is pending, and what is sent of it are exactly the events it was prepared for, in order. */
  lemma PrepareDelivers(env: Env, l: Ledger, a: Attachment, task: string, rows: seq<TaskEvent>, listing: seq<string>)
    requires Honest(env) && Sound(env, l) && ValidOwner(a)
    requires PrepareAndClaim(env, l, a, task, rows, listing, false).1.Success?
    requires PrepareAndClaim(env, l, a, task, rows, listing, false).0 != l
    ensures var b := PrepareAndClaim(env, l, a, task, rows, listing, false).1.value;
            && b.id !in l.dirs && b.task == task && b.thread == a.thread && b.epoch == a.epoch && b.phase.Pending?
            && b.proof.None? && b.turn.None? && b.item.None?
            && b.envelope.delivery == b.id && Envelops(env, a, rows, b.envelope)
            && |b.source| == |rows| && (forall k :: 0 <= k < |rows| ==> KeepsRow(env, rows[k], b.source[k]))
            && b.id == "d_" + First(env.seedHash(a.thread, a.epoch, task, b.source), 40)
  {
    hide Project, Load, ScanError, Honest, Sound, DeliversRow, KeepsRow, DeliveryId, EnvelopeText, NewBatch,
      GoodDir, Readable, NativeEnvelope, SlotCode;
    ProjectIff(env, task, rows);
    var (events, source) := Project(env, task, rows).value;
    var id := DeliveryId(env, a, task, source);
    NewBatchGood(env, l, a, task, rows);
    var d := NewBatch(env, id, a, task, events, source);
    LoadGood(env, l.(dirs := l.dirs[id := d]), id);
    IdOf(env, a, task, source);
    EnvelopeOfNew(env, id, a, task, events, source);
  }

  function First(s: string, n: nat): string
  {
    if |s| < n then s else s[..n]
  }

  lemma IdOf(env: Env, a: Attachment, task: string, source: seq<SourceEvent>)
    ensures DeliveryId(env, a, task, source) == "d_" + First(env.seedHash(a.thread, a.epoch, task, source), 40)
  {
  }

  lemma EnvelopeOfNew(env: Env, id: string, a: Attachment, task: string, events: seq<Event>, source: seq<SourceEvent>)
    ensures var d := NewBatch(env, id, a, task, events, source);
            var e := NativeEnvelope(env, d.intent);
            && d.task == task && d.owner == a && d.source == source
            && d.status.phase.Pending? && d.status.proof.None? && d.status.turn.None? && d.status.item.None?
            && e.version == 1 && e.delivery == id && e.thread == a.thread && e.epoch == a.epoch && e.events == events
            && e.payloadHash == env.sha(EnvelopeText(env, e.(payloadHash := ""), false))
  {
    hide EnvelopeText, IntentText, BatchHash;
    var d := NewBatch(env, id, a, task, events, source);
    var e := Envelope(1, id, a.thread, a.epoch, events, "");
    assert NativeEnvelope(env, d.intent).(payloadHash := "") == e;
  }

  // ---------------------------------------------------------------- when a preparation goes through

  ghost predicate Blocked(l: Ledger, thread: string)
  {
    exists o :: Holds(l, o, thread)
  }

  ghost predicate BlockedUncertain(l: Ledger, thread: string)
  {
    exists o :: Holds(l, o, thread) && l.dirs[o].status.phase.DeliveryUncertain?
  }

  ghost predicate AllReadable(env: Env, l: Ledger)
  {
    forall id :: id in l.dirs ==> Readable(env, l.dirs[id])
  }

  /** The answer to a preparation of projected events, and the ledger after it. */
  ghost predicate Answered(env: Env, l: Ledger, a: Attachment, task: string, events: seq<Event>,
                           source: seq<SourceEvent>,
                           r: (Ledger, Result<Batch>))
  {
    var id := DeliveryId(env, a, task, source);
    if id in l.dirs then
      r == (l, if l.dirs[id].source == source then Success(BatchOf(env, id, l.dirs[id]))
            else Failure("delivery_conflict"))
    else if Blocked(l, a.thread) then
      && r.0 == l && r.1.Failure? && (r.1.code == "delivery_slot_busy" || r.1.code == "delivery_slot_uncertain")
      && (r.1.code == "delivery_slot_uncertain" <==> BlockedUncertain(l, a.thread))
    else if id in l.stages then r == (l.(stages := l.stages - {id}), Failure("stage_exists"))
    else
      var d := NewBatch(env, id, a, task, events, source);
      r == (l.(dirs := l.dirs[id := d]), if Readable(env, d) then Success(BatchOf(env, id, d))
            else Failure("ledger_file"))
  }

  /**
    Where every batch can be read, in any order of the listing: a preparation is answered with
    the batch it has made before, refused while a batch of the thread is under way, refused
    once where another has died at it, and else it goes through.
   */
  lemma PrepareIff(env: Env, l: Ledger, a: Attachment, task: string, rows: seq<TaskEvent>, listing: seq<string>)
    requires Honest(env) && Sound(env, l) && ValidOwner(a) && Covers(listing, l) && Project(env, task, rows).Success?
    requires AllReadable(env, l)
    ensures var (events, source) := Project(env, task, rows).value;
            Answered(env, l, a, task, events, source, PrepareAndClaim(env, l, a, task, rows, listing, false))
  {
    hide Project, Load, ScanError, Honest, DeliveryId, NewBatch, GoodDir, Readable, NativeEnvelope, SlotCode, Holds,
      Blocked, BlockedUncertain, Sound, BatchOf;
    var (events, source) := Project(env, task, rows).value;
    var id := DeliveryId(env, a, task, source);
    if id in l.dirs {
      LoadSound(env, l, id);
      SourceOfBatch(env, id, l.dirs[id]);
    } else {
      var d := NewBatch(env, id, a, task, events, source);
      ScanBlocked(env, l, a.thread, listing);
      NewBatchGood(env, l, a, task, rows);
      LoadGood(env, l.(dirs := l.dirs[id := d]), id);
    }
  }

  lemma LoadSound(env: Env, l: Ledger, id: string)
    requires Sound(env, l) && id in l.dirs && Readable(env, l.dirs[id])
    ensures Load(env, l, id) == Success(BatchOf(env, id, l.dirs[id]))
  {
    hide GoodDir, Load, Readable, BatchOf;
    assert GoodDir(env, id, l.dirs[id]);
    LoadGood(env, l, id);
  }

  lemma SourceOfBatch(env: Env, id: string, d: BatchDir)
    ensures BatchOf(env, id, d).source == d.source
  {
  }

  /** The scan stops exactly at a batch of the thread that is under way. */
  lemma ScanBlocked(env: Env, l: Ledger, thread: string, listing: seq<string>)
    requires Sound(env, l) && Covers(listing, l) && AllReadable(env, l)
    ensures ScanError(env, l, thread, listing).Some? <==> Blocked(l, thread)
    ensures var e := ScanError(env, l, thread, listing);
            e.Some? ==>
              && (e.value == "delivery_slot_busy" || e.value == "delivery_slot_uncertain")
              && (e.value == "delivery_slot_uncertain" <==> BlockedUncertain(l, thread))
  {
    hide Readable, GoodDir, ScanError, EntryError, Sound;
    ScanFinds(env, l, thread, listing);
    if ScanError(env, l, thread, listing).None? {
      NobodyHolds(env, l, thread, listing);
    } else {
      var k :| 0 <= k < |listing| && EntryError(env, l, thread, listing[k]) == ScanError(env, l, thread, listing);
      EntryHolds(env, l, thread, listing[k]);
      forall o | Holds(l, o, thread) ensures o == listing[k] {
        OneHolds(env, l, thread, o, listing[k]);
      }
    }
  }

  lemma EntryHolds(env: Env, l: Ledger, thread: string, id: string)
    requires id in l.dirs && Readable(env, l.dirs[id]) && EntryError(env, l, thread, id).Some?
    ensures Holds(l, id, thread)
    ensures var code := EntryError(env, l, thread, id).value;
            && (code == "delivery_slot_busy" || code == "delivery_slot_uncertain")
            && (code == "delivery_slot_uncertain" <==> l.dirs[id].status.phase.DeliveryUncertain?)
  {
    hide Readable;
    assert "delivery_slot_busy"[14] != "delivery_slot_uncertain"[14];
  }

  lemma OneHolds(env: Env, l: Ledger, thread: string, i: string, j: string)
    requires Sound(env, l) && Holds(l, i, thread) && Holds(l, j, thread)
    ensures i == j
  {
    hide GoodDir, Holds;
  }

  // ---------------------------------------------------------------- transitions

  /** The steps a delivery may make. */
  const STEPS: seq<(Phase, Phase)> := [
    (Pending, Sending), (Sending, TransportAccepted),
    (Sending, DeliveryUncertain), (TransportAccepted, DeliveryUncertain), (DeliveryUncertain, DeliveryUncertain),
    (Sending, HistoryConfirmed), (TransportAccepted, HistoryConfirmed), (DeliveryUncertain, HistoryConfirmed),
    (HistoryConfirmed, ControllerAcked)]

  function Target(m: Mark): Phase
  {
    match m
    case Send => Sending
    case Accept(_) => TransportAccepted
    case DeclareUncertain(_) => DeliveryUncertain
    case Confirm(_, _, _) => HistoryConfirmed
    case AckBy(_) => ControllerAcked
  }

  /** The values a transition is given have the form they are to have. */
  predicate WellGiven(m: Mark)
  {
    match m
    case Send => true
    case Accept(turn) => SafeName(turn)
    case DeclareUncertain(reason) => SafeName(reason)
    case Confirm(proof, turn, item) => SafeHash(proof) && SafeName(turn) && SafeName(item)
    case AckBy(ack) => SafeHash(ack)
  }

  /** A transition of a batch of the ledger takes effect exactly if it is well given and one of the steps. */
  lemma EffectiveIff(env: Env, l: Ledger, id: string, m: Mark)
    requires id in l.dirs && GoodDir(env, id, l.dirs[id])
    ensures Effective(env, l, id, MarkOp(id, m)) <==>
            Readable(env, l.dirs[id]) && WellGiven(m) && (l.dirs[id].status.phase, Target(m)) in STEPS
  {
    hide Load, GoodDir, Readable, SafeName, SafeHash, NativeEnvelope;
    LoadGood(env, l, id);
  }

  datatype Field = TransportField | TurnField | ItemField | ProofField | AckField | ReasonField

  function FieldOf(s: StatusFile, f: Field): Option<string>
  {
    match f
    case TransportField => Some(s.transport)
    case TurnField => s.turn
    case ItemField => s.item
    case ProofField => s.proof
    case AckField => s.ack
    case ReasonField => s.reason
  }

  /** What a transition states of a field. */
  function States(m: Mark, f: Field): Option<string>
  {
    match (m, f)
    case (Accept(turn), TurnField) => Some(turn)
    case (Confirm(_, turn, _), TurnField) => Some(turn)
    case (Confirm(_, _, item), ItemField) => Some(item)
    case (Confirm(proof, _, _), ProofField) => Some(proof)
    case (AckBy(ack), AckField) => Some(ack)
    case (DeclareUncertain(reason), ReasonField) => Some(reason)
    case (Send, TransportField) => Some("ready")
    case (Accept(_), TransportField) => Some("accepted")
    case (DeclareUncertain(_), TransportField) => Some("uncertain")
    case (Confirm(_, _, _), TransportField) => Some("confirmed")
    case _ => None
  }

  /** The last that an effective transition of the batch states of the field. */
  function LastOf(env: Env, l: Ledger, id: string, ops: seq<Op>, f: Field): Option<string>
    decreases |ops|
  {
    if ops == [] then None
    else
      var later := LastOf(env, Apply(env, l, ops[0]).0, id, ops[1..], f);
      if later.Some? then later else if Effective(env, l, id, ops[0]) then States(ops[0].mark, f) else None
  }

  /** Where the last effective transition has led. */
  function LastPhase(env: Env, l: Ledger, id: string, ops: seq<Op>): Option<Phase>
    decreases |ops|
  {
    if ops == [] then None
    else
      var later := LastPhase(env, Apply(env, l, ops[0]).0, id, ops[1..]);
      if later.Some? then later else if Effective(env, l, id, ops[0]) then Some(Target(ops[0].mark)) else None
  }

  lemma MarkStates(s: StatusFile, m: Mark, f: Field)
    ensures FieldOf(Marked(s, m), f) == if States(m, f).Some? then States(m, f) else FieldOf(s, f)
    ensures Marked(s, m).phase == Target(m)
  {
  }

  lemma ApplyStates(env: Env, l: Ledger, id: string, op: Op, f: Field)
    requires id in l.dirs
    ensures var l' := Apply(env, l, op).0;
            && id in l'.dirs
            && FieldOf(l'.dirs[id].status, f) ==
               (if Effective(env, l, id, op) && States(op.mark, f).Some? then States(op.mark, f)
                else FieldOf(l.dirs[id].status, f))
            && l'.dirs[id].status.phase == (if Effective(env, l, id, op) then Target(op.mark)
                                            else l.dirs[id].status.phase)
  {
    hide Load, MarkError, MayFollow, Marked, States, FieldOf, Target;
    match op
    case PrepareOp(a, task, rows, order, dies) =>
      hide PrepareAndClaim, Project, DeliveryId, NewBatch, ScanError;
      PrepareChanges(env, l, a, task, rows, order(l.dirs.Keys), dies);
    case MarkOp(other, m) =>
      LoadFinds(env, l, other);
      if other in l.dirs {
        MarkStates(l.dirs[other].status, m, f);
      }
  }

  /**
    Whatever operations there were, the status of a batch is where the last effective one has
    led, and has recorded what the last one stated of each field.
   */
  lemma {:induction false} StatusTold(env: Env, l: Ledger, id: string, ops: seq<Op>, f: Field)
    requires id in l.dirs
    ensures var l', told, phase := ApplyAll(env, l, ops), LastOf(env, l, id, ops, f), LastPhase(env, l, id, ops);
            && id in l'.dirs
            && FieldOf(l'.dirs[id].status, f) == (if told.Some? then told else FieldOf(l.dirs[id].status, f))
            && l'.dirs[id].status.phase == (if phase.Some? then phase.value else l.dirs[id].status.phase)
    decreases |ops|
  {
    hide Apply, Effective, States, FieldOf, Target;
    if ops != [] {
      ApplyStates(env, l, id, ops[0], f);
      StatusTold(env, Apply(env, l, ops[0]).0, id, ops[1..], f);
    }
  }

  // ---------------------------------------------------------------- any directory

  /** Nothing in the directory contradicts itself: names, owner, epoch, hashes, mapping and proof. */
  predicate Untampered(env: Env, id: string, d: BatchDir)
  {
    var i, c, s := d.intent, d.claim, d.status;
    && i.delivery == id && c.delivery == id && s.delivery == id
    && i.controller == d.owner.thread && s.thread == d.owner.thread && i.epoch == d.owner.epoch
    && s.epoch == d.owner.epoch
    && i.payloadHash == env.goHash(i.(payloadHash := "", state := ""))
    && c.status == "claimed" && c.intentHash == env.sha(IntentText(env, i))
    && d.task != "" && |d.source| == |i.events|
    && (forall k :: 0 <= k < |i.events| ==>
          && d.source[k].nativeId == i.events[k].id && d.source[k].nativeSlot == i.events[k].slot
          && d.source[k].payloadHash == i.events[k].payloadHash && d.source[k].revision == i.events[k].revision)
    && (s.proof.Some? ==> SafeHash(s.proof.value))
  }

  /** Whatever is on the disk, a batch is read exactly if it is within the limit and nothing in it was altered. */
  lemma LoadIff(env: Env, l: Ledger, id: string)
    ensures var r := Load(env, l, id);
            && (r.Success? <==>
                  LedgerId(id) && id in l.dirs && Readable(env, l.dirs[id]) && Untampered(env, id, l.dirs[id]))
            && (r.Success? ==> r.value == BatchOf(env, id, l.dirs[id]))
  {
    hide Readable, IntentText, NativeEnvelope, SafeHash, LedgerId;
  }
}
