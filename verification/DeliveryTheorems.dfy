/**
  Every reachable ledger: its batches read back, at most one of a thread holds the slot, and
  a batch's artifacts, proof and turn never change while its status only moves forward.
 */
module DeliveryTheorems {
  import opened Options
  import opened BatchSpec
  import opened DeliverySpec

  /** What is known of the hashes, and of quoting a string. */
  ghost predicate Honest(env: Env)
  {
    && (forall t :: SafeHash(env.sha(t)))
    && (forall i :: SafeHash(env.goHash(i)))
    && (forall t, n, k, s :: SafeHash(env.seedHash(t, n, k, s)))
  }

  function TransportOf(p: Phase): string
  {
    match p
    case Pending => "ready"
    case Sending => "ready"
    case TransportAccepted => "accepted"
    case DeliveryUncertain => "uncertain"
    case HistoryConfirmed => "confirmed"
    case ControllerAcked => "confirmed"
  }

  predicate Confirmed(p: Phase)
  {
    p.HistoryConfirmed? || p.ControllerAcked?
  }

  predicate GoodStatus(s: StatusFile, id: string, a: Attachment)
  {
    && s.version == 1 && s.delivery == id && s.thread == a.thread && s.epoch == a.epoch && s.revision == 1
    && s.transport == TransportOf(s.phase)
    && (s.proof.Some? <==> Confirmed(s.phase)) && (s.proof.Some? ==> SafeHash(s.proof.value))
    && (s.item.Some? <==> Confirmed(s.phase)) && (s.item.Some? ==> SafeName(s.item.value))
    && (s.phase.Pending? || s.phase.Sending? ==> s.turn.None?) && (Confirmed(s.phase) ==> s.turn.Some?)
    && (s.turn.Some? ==> SafeName(s.turn.value)) && (s.reason.Some? ==> SafeName(s.reason.value))
    && (s.ack.Some? <==> s.phase.ControllerAcked?) && (s.ack.Some? ==> SafeHash(s.ack.value))
  }

  predicate NativeRow(e: Event)
  {
    SafeName(e.id) && SafeName(e.slot) && e.revision >= 1 && e.kind in ["question", "result"] && SafeHash(e.payloadHash)
  }

  /** Projected events: safe aliases, all different. */
  predicate NativeEvents(events: seq<Event>)
  {
    && (forall k :: 0 <= k < |events| ==> NativeRow(events[k]))
    && (forall j, k :: 0 <= j < k < |events| ==> events[j].id != events[k].id && events[j].slot != events[k].slot)
  }

  predicate SourceRow(e: SourceEvent)
  {
    && SafeName(e.nativeId) && SafeName(e.nativeSlot) && 1 <= |e.id| <= 256 && 1 <= |e.slot| <= 256
    && e.kind in DELIVERABLE && SafeHash(e.payloadHash)
  }

  predicate SourceRows(source: seq<SourceEvent>)
  {
    forall k :: 0 <= k < |source| ==> SourceRow(source[k])
  }

  predicate ValidOwner(a: Attachment)
  {
    1 <= |a.thread| <= 128 && a.epoch > 0
  }

  /** A batch directory as it was prepared, except for its status. */
  predicate GoodDir(env: Env, id: string, d: BatchDir)
  {
    && LedgerId(id) && ValidOwner(d.owner) && SafeName(d.task)
    && d == NewBatch(env, id, d.owner, d.task, d.intent.events, d.source).(status := d.status)
    && 1 <= |d.intent.events| <= 8 && NativeEvents(d.intent.events)
    && Mapped(d.source, d.intent.events) && SourceRows(d.source)
    && GoodStatus(d.status, id, d.owner)
  }

  /** At most one batch of a thread blocks it. */
  ghost predicate SlotExclusive(l: Ledger)
  {
    forall i, j, t :: Holds(l, i, t) && Holds(l, j, t) ==> i == j
  }

  ghost predicate Sound(env: Env, l: Ledger)
  {
    SlotExclusive(l) && forall id :: id in l.dirs ==> GoodDir(env, id, l.dirs[id])
  }

  function Rank(p: Phase): nat
  {
    match p
    case Pending => 0
    case Sending => 1
    case TransportAccepted => 2
    case DeliveryUncertain => 3
    case HistoryConfirmed => 4
    case ControllerAcked => 5
  }

  predicate Kept<T(==)>(x: Option<T>, y: Option<T>)
  {
    x.None? || x == y
  }

  /**
    A status moves up its rank, or stays, or declares uncertainty again; what it has recorded
    stays, except that a confirmation states the turn.
   */
  predicate Advances(s: StatusFile, t: StatusFile)
  {
    && (s == t || Rank(s.phase) < Rank(t.phase) || (s.phase == t.phase == DeliveryUncertain))
    && Kept(s.proof, t.proof) && Kept(s.item, t.item) && Kept(s.ack, t.ack)
    && (Kept(s.turn, t.turn) || (!Confirmed(s.phase) && Confirmed(t.phase)))
  }

  ghost predicate Evolves(l: Ledger, l': Ledger)
  {
    forall id :: id in l.dirs ==>
      && id in l'.dirs && l'.dirs[id].(status := l.dirs[id].status) == l.dirs[id]
      && Advances(l.dirs[id].status, l'.dirs[id].status)
  }

  // ---------------------------------------------------------------- projection

  lemma AliasSafe(env: Env, prefix: string, value: string)
    requires Honest(env) && prefix in ["e_", "s_"]
    ensures SafeName(Alias(env, prefix, value))
  {
    assert SafeHash(env.sha(value));
    var alias := Alias(env, prefix, value);
    forall i | 0 <= i < |alias| ensures SafeChar(alias[i]) {
    }
  }

  lemma RowGood(env: Env, task: string, e: TaskEvent)
    requires Honest(env) && RowError(task, e).None?
    ensures NativeRow(NativeEvent(env, e)) && SourceRow(SourceOf(env, e))
    ensures KindKept(e, NativeEvent(env, e), SourceOf(env, e)) && Mapped([SourceOf(env, e)], [NativeEvent(env, e)])
  {
    AliasSafe(env, "e_", e.id);
    AliasSafe(env, "s_", e.slot);
    hide Alias, SafeName, SafeHash;
  }

  /** A question is delivered as a question and nothing else is; the source keeps the kind as it was. */
  predicate KindKept(e: TaskEvent, native: Event, source: SourceEvent)
  {
    (native.kind == "question" <==> e.kind == "question") && source.kind == e.kind
  }

  predicate KindsKept(rows: seq<TaskEvent>, events: seq<Event>, source: seq<SourceEvent>)
  {
    |rows| == |events| == |source| && forall k :: 0 <= k < |rows| ==> KindKept(rows[k], events[k], source[k])
  }

  /** One more event that stays apart from the others. */
  lemma OneMoreGood(rows: seq<TaskEvent>, events: seq<Event>, source: seq<SourceEvent>, e: TaskEvent, native: Event,
                    src: SourceEvent)
    requires NativeEvents(events) && Mapped(source, events) && SourceRows(source) && KindsKept(rows, events, source)
    requires NativeRow(native) && SourceRow(src) && KindKept(e, native, src) && Mapped([src], [native])
    requires !Clashes(events, native)
    ensures NativeEvents(events + [native]) && Mapped(source + [src], events + [native]) && SourceRows(source + [src])
    ensures KindsKept(rows + [e], events + [native], source + [src])
  {
    hide NativeRow, SourceRow, KindKept;
    assert [src][0] == src && [native][0] == native;
  }

  lemma {:induction false} ProjectRowsGood(env: Env, task: string, rows: seq<TaskEvent>)
    requires Honest(env) && ProjectRows(env, task, rows).Success?
    ensures var (events, source) := ProjectRows(env, task, rows).value;
            && NativeEvents(events) && Mapped(source, events) && SourceRows(source) && KindsKept(rows, events, source)
    decreases |rows|
  {
    hide Honest, RowError, NativeEvents, Mapped, SourceRows, KindsKept, NativeRow, SourceRow, KindKept, Clashes,
      NativeEvent, SourceOf;
    if rows == [] {
      NothingProjected();
    } else {
      var init, e := rows[..|rows| - 1], rows[|rows| - 1];
      ProjectRowsGood(env, task, init);
      RowGood(env, task, e);
      var (events, source) := ProjectRows(env, task, init).value;
      OneMoreGood(init, events, source, e, NativeEvent(env, e), SourceOf(env, e));
      assert init + [e] == rows;
    }
  }

  lemma NothingProjected()
    ensures NativeEvents([]) && Mapped([], []) && SourceRows([]) && KindsKept([], [], [])
  {
  }

  lemma DeliveryIdGood(env: Env, a: Attachment, task: string, source: seq<SourceEvent>)
    requires Honest(env)
    ensures LedgerId(DeliveryId(env, a, task, source))
  {
    assert SafeHash(env.seedHash(a.thread, a.epoch, task, source));
    var id := DeliveryId(env, a, task, source);
    forall i | 0 <= i < |id| ensures SafeChar(id[i]) {
    }
  }

  // ---------------------------------------------------------------- reading back

  function BatchOf(env: Env, id: string, d: BatchDir): Batch
  {
    Batch(id, d.task, d.owner.thread, d.owner.epoch, d.status.phase, NativeEnvelope(env, d.intent), d.source,
          d.status.proof, d.status.turn, d.status.item)
  }

  /** A prepared batch reads back, with its present status, exactly while its files are within the ledger's limit. */
  lemma LoadGood(env: Env, l: Ledger, id: string)
    requires id in l.dirs && GoodDir(env, id, l.dirs[id])
    ensures Load(env, l, id) ==
            if Readable(env, l.dirs[id]) then Success(BatchOf(env, id, l.dirs[id])) else Failure("ledger_file")
  {
    hide IntentText, NativeEnvelope, NativeEvents, SafeHash, Readable;
    var i := l.dirs[id].intent;
    assert i.(payloadHash := "", state := "")
        == Intent(1, id, id, i.controller, i.epoch, 1, "prepared", i.events, "").(payloadHash := "", state := "");
  }

  // ---------------------------------------------------------------- the scan

  predicate Covers(listing: seq<string>, l: Ledger)
  {
    (forall id :: id in listing ==> id in l.dirs) && forall id :: id in l.dirs ==> id in listing
  }

  /** What one batch means for a preparation on a thread. */
  function EntryError(env: Env, l: Ledger, thread: string, id: string): Option<string>
    requires id in l.dirs
  {
    var d := l.dirs[id];
    if !Readable(env, d) then Some("ledger_file")
    else if d.owner.thread == thread && Blocking(d.status.phase) then Some(SlotCode(d.status.phase))
    else None
  }

  /** The scan reports the first batch in its way, and passes exactly if there is none. */
  lemma {:induction false} ScanFinds(env: Env, l: Ledger, thread: string, listing: seq<string>)
    requires Sound(env, l) && forall k :: 0 <= k < |listing| ==> listing[k] in l.dirs
    ensures match ScanError(env, l, thread, listing)
            case None => forall k :: 0 <= k < |listing| ==> EntryError(env, l, thread, listing[k]).None?
            case Some(code) => exists k :: 0 <= k < |listing| && EntryError(env, l, thread, listing[k]) == Some(code)
    decreases |listing|
  {
    hide ScanError, EntryError, GoodDir, Sound;
    if listing == [] {
      ScanNothing(env, l, thread);
    } else {
      var rest := listing[1..];
      ScanStep(env, l, thread, listing);
      ScanFinds(env, l, thread, rest);
      assert forall k :: 0 <= k < |rest| ==> rest[k] == listing[k + 1];
      assert forall k :: 0 < k < |listing| ==> listing[k] == rest[k - 1];
    }
  }

  lemma ScanNothing(env: Env, l: Ledger, thread: string)
    ensures ScanError(env, l, thread, []) == None
  {
  }

  lemma ScanStep(env: Env, l: Ledger, thread: string, listing: seq<string>)
    requires Sound(env, l) && listing != [] && listing[0] in l.dirs
    ensures var first := EntryError(env, l, thread, listing[0]);
            ScanError(env, l, thread, listing) == if first.Some? then first else ScanError(env, l, thread, listing[1..])
  {
    hide Load, Readable, GoodDir, SlotCode, NativeEnvelope;
    LoadGood(env, l, listing[0]);
    hide Sound;
  }

  /** Where every batch can be read, the result of the scan does not depend on the order of the listing. */
  lemma ScanOrderFree(env: Env, l: Ledger, thread: string, listing: seq<string>, other: seq<string>)
    requires Sound(env, l) && Covers(listing, l) && Covers(other, l)
    requires forall id :: id in l.dirs ==> Readable(env, l.dirs[id])
    ensures ScanError(env, l, thread, listing) == ScanError(env, l, thread, other)
  {
    hide Readable, GoodDir;
    ScanFinds(env, l, thread, listing);
    ScanFinds(env, l, thread, other);
    forall i, j | i in l.dirs && j in l.dirs && EntryError(env, l, thread, i).Some?
      && EntryError(env, l, thread, j).Some?
      ensures i == j {
      assert Holds(l, i, thread) && Holds(l, j, thread);
    }
    hide ScanError, EntryError;
  }

  // ---------------------------------------------------------------- one operation

  lemma NewBatchGood(env: Env, l: Ledger, a: Attachment, task: string, rows: seq<TaskEvent>)
    requires Honest(env) && Sound(env, l) && ValidOwner(a) && Project(env, task, rows).Success?
    ensures var (events, source) := Project(env, task, rows).value;
            var id := DeliveryId(env, a, task, source);
            GoodDir(env, id, NewBatch(env, id, a, task, events, source))
  {
    ProjectRowsGood(env, task, rows);
    var (events, source) := Project(env, task, rows).value;
    DeliveryIdGood(env, a, task, source);
    hide SafeName, SafeHash, NativeEvents, Mapped, SourceRows, IntentText, BatchHash;
  }

  lemma SlotAdded(l: Ledger, id: string, d: BatchDir)
    requires SlotExclusive(l) && id !in l.dirs && forall o :: !Holds(l, o, d.owner.thread)
    ensures SlotExclusive(l.(dirs := l.dirs[id := d]))
  {
    var l' := l.(dirs := l.dirs[id := d]);
    forall i, j, t | Holds(l', i, t) && Holds(l', j, t) ensures i == j {
      assert i != id ==> Holds(l, i, t);
      assert j != id ==> Holds(l, j, t);
    }
  }

  lemma PrepareSound(env: Env, l: Ledger, a: Attachment, task: string, rows: seq<TaskEvent>, listing: seq<string>,
                     dies: bool)
    requires Honest(env) && Sound(env, l) && ValidOwner(a) && Covers(listing, l)
    ensures var l' := PrepareAndClaim(env, l, a, task, rows, listing, dies).0; Sound(env, l') && Evolves(l, l')
  {
    hide Project, DeliveryId, NewBatch, GoodDir, Honest, ScanError, PrepareAndClaim, Sound, Evolves, EntryError, Covers;
    var l' := PrepareAndClaim(env, l, a, task, rows, listing, dies).0;
    PrepareChanges(env, l, a, task, rows, listing, dies);
    if l'.dirs == l.dirs {
      SameDirs(env, l, l');
    } else {
      var (events, source) := Project(env, task, rows).value;
      var id := DeliveryId(env, a, task, source);
      NewBatchGood(env, l, a, task, rows);
      OwnerOfNew(env, id, a, task, events, source);
      NobodyHolds(env, l, a.thread, listing);
      AddedSound(env, l, id, NewBatch(env, id, a, task, events, source));
    }
  }

  lemma SameDirs(env: Env, l: Ledger, l': Ledger)
    requires Sound(env, l) && l'.dirs == l.dirs
    ensures Sound(env, l') && Evolves(l, l')
  {
    hide GoodDir;
    assert forall i, t :: Holds(l', i, t) <==> Holds(l, i, t);
  }

  lemma AddedSound(env: Env, l: Ledger, id: string, d: BatchDir)
    requires Sound(env, l) && id !in l.dirs && GoodDir(env, id, d) && forall o :: !Holds(l, o, d.owner.thread)
    ensures var l' := l.(dirs := l.dirs[id := d]); Sound(env, l') && Evolves(l, l')
  {
    hide GoodDir, SlotExclusive, Holds;
    SlotAdded(l, id, d);
  }

  lemma PrepareChanges(env: Env, l: Ledger, a: Attachment, task: string, rows: seq<TaskEvent>, listing: seq<string>,
                       dies: bool)
    ensures var l' := PrepareAndClaim(env, l, a, task, rows, listing, dies).0;
            l'.dirs == l.dirs ||
            (Project(env, task, rows).Success? && ScanError(env, l, a.thread, listing).None?
             && var (events, source) := Project(env, task, rows).value;
             var id := DeliveryId(env, a, task, source);
             id !in l.dirs && l' == l.(dirs := l.dirs[id := NewBatch(env, id, a, task, events, source)]))
  {
    hide Project, DeliveryId, NewBatch, ScanError, Load;
  }

  lemma NobodyHolds(env: Env, l: Ledger, thread: string, listing: seq<string>)
    requires Sound(env, l) && Covers(listing, l) && ScanError(env, l, thread, listing).None?
    ensures forall o :: !Holds(l, o, thread)
  {
    hide Readable, GoodDir, ScanError;
    ScanFinds(env, l, thread, listing);
    hide Sound;
    forall o ensures !Holds(l, o, thread) {
      if o in l.dirs {
        assert o in listing;
        var k :| 0 <= k < |listing| && listing[k] == o;
        assert EntryError(env, l, thread, listing[k]).None?;
      }
    }
  }

  lemma OwnerOfNew(env: Env, id: string, a: Attachment, task: string, events: seq<Event>, source: seq<SourceEvent>)
    ensures NewBatch(env, id, a, task, events, source).owner == a
  {
  }

  lemma MarkedGood(s: StatusFile, id: string, a: Attachment, m: Mark)
    requires GoodStatus(s, id, a) && MarkError(m).None? && MayFollow(s.phase, m)
    ensures GoodStatus(Marked(s, m), id, a) && Advances(s, Marked(s, m))
    ensures Blocking(Marked(s, m).phase) ==> Blocking(s.phase)
  {
  }

  /** A mark that changes the ledger rewrites one status, as the checks allow. */
  lemma MarkChanges(env: Env, l: Ledger, id: string, m: Mark)
    requires id in l.dirs ==> GoodDir(env, id, l.dirs[id])
    ensures var l' := MarkBatch(env, l, id, m).0;
            l' == l ||
            (id in l.dirs
             && l' == l.(dirs := l.dirs[id := l.dirs[id].(status := Marked(l.dirs[id].status, m))])
             && MarkError(m).None? && MayFollow(l.dirs[id].status.phase, m))
  {
    hide Load, GoodDir, MarkError, MayFollow, Marked, NativeEnvelope, Readable;
    if id in l.dirs {
      LoadGood(env, l, id);
    }
  }

  lemma RemarkedDir(env: Env, id: string, d: BatchDir, m: Mark)
    requires GoodDir(env, id, d) && MarkError(m).None? && MayFollow(d.status.phase, m)
    ensures GoodDir(env, id, d.(status := Marked(d.status, m))) && Advances(d.status, Marked(d.status, m))
    ensures Blocking(Marked(d.status, m).phase) ==> Blocking(d.status.phase)
  {
    MarkedGood(d.status, id, d.owner, m);
    hide Marked, NewBatch, NativeEvents, Mapped, GoodStatus, LedgerId, Advances;
  }

  lemma MarkSound(env: Env, l: Ledger, id: string, m: Mark)
    requires Sound(env, l)
    ensures Sound(env, MarkBatch(env, l, id, m).0) && Evolves(l, MarkBatch(env, l, id, m).0)
  {
    hide MarkBatch, GoodDir, Marked, MayFollow, MarkError;
    var l' := MarkBatch(env, l, id, m).0;
    MarkChanges(env, l, id, m);
    if l' != l {
      RemarkedDir(env, id, l.dirs[id], m);
      hide Advances;
      assert forall i, t :: Holds(l', i, t) ==> Holds(l, i, t);
    }
  }

  ghost predicate ValidOp(op: Op)
  {
    op.PrepareOp? ==> ValidOwner(op.owner) && forall s: set<string>, x :: x in op.order(s) <==> x in s
  }

  /** Every operation keeps a ledger sound and only moves its batches forward. */
  lemma ApplySound(env: Env, l: Ledger, op: Op)
    requires Honest(env) && Sound(env, l) && ValidOp(op)
    ensures Sound(env, Apply(env, l, op).0) && Evolves(l, Apply(env, l, op).0)
  {
    hide Sound, Evolves, PrepareAndClaim, MarkBatch;
    match op
    case PrepareOp(a, task, rows, order, dies) => PrepareSound(env, l, a, task, rows, order(l.dirs.Keys), dies);
    case MarkOp(id, m) => MarkSound(env, l, id, m);
  }

  // ---------------------------------------------------------------- whole runs

  /** The ledgers of a run: the first is given, each next one comes from one operation. */
  ghost function Ledgers(env: Env, l: Ledger, ops: seq<Op>): seq<Ledger>
    decreases |ops|
  {
    if ops == [] then [l] else [l] + Ledgers(env, Apply(env, l, ops[0]).0, ops[1..])
  }

  lemma EvolvesItself(l: Ledger)
    ensures Evolves(l, l)
  {
  }

  lemma EvolvesTransitive(l: Ledger, m: Ledger, n: Ledger)
    requires Evolves(l, m) && Evolves(m, n)
    ensures Evolves(l, n)
  {
  }

  /** On every run every ledger is sound, and each evolves from every earlier one. */
  lemma {:induction false} RunSafe(env: Env, l: Ledger, ops: seq<Op>, j: nat)
    requires Honest(env) && Sound(env, l) && (forall k :: 0 <= k < |ops| ==> ValidOp(ops[k]))
    requires j < |Ledgers(env, l, ops)|
    ensures Sound(env, Ledgers(env, l, ops)[j]) && Evolves(l, Ledgers(env, l, ops)[j])
    decreases |ops|
  {
    hide Sound, Evolves, Apply, Honest;
    if j > 0 {
      var l' := Apply(env, l, ops[0]).0;
      ApplySound(env, l, ops[0]);
      RunSafe(env, l', ops[1..], j - 1);
      EvolvesTransitive(l, l', Ledgers(env, l', ops[1..])[j - 1]);
    } else {
      EvolvesItself(l);
    }
  }

  lemma {:induction false} RunEvolves(env: Env, l: Ledger, ops: seq<Op>, i: nat, j: nat)
    requires Honest(env) && Sound(env, l) && (forall k :: 0 <= k < |ops| ==> ValidOp(ops[k]))
    requires i <= j < |Ledgers(env, l, ops)|
    ensures Evolves(Ledgers(env, l, ops)[i], Ledgers(env, l, ops)[j])
    decreases |ops|
  {
    hide Sound, Evolves, Apply, Honest;
    if i == 0 {
      RunSafe(env, l, ops, j);
    } else {
      ApplySound(env, l, ops[0]);
      RunEvolves(env, Apply(env, l, ops[0]).0, ops[1..], i - 1, j - 1);
    }
  }

  predicate IsSending(l: Ledger, id: string)
  {
    id in l.dirs && l.dirs[id].status.phase.Sending?
  }

  /** A delivery that has left `sending` is never sending again: it enters that status at most once. */
  lemma SendingOnce(env: Env, l: Ledger, ops: seq<Op>, id: string, i: nat, j: nat, k: nat)
    requires Honest(env) && Sound(env, l) && (forall n :: 0 <= n < |ops| ==> ValidOp(ops[n]))
    requires i < j < k < |Ledgers(env, l, ops)|
    requires IsSending(Ledgers(env, l, ops)[i], id) && !IsSending(Ledgers(env, l, ops)[j], id)
    ensures !IsSending(Ledgers(env, l, ops)[k], id)
  {
    hide Ledgers, Honest, Sound;
    RunEvolves(env, l, ops, i, j);
    RunEvolves(env, l, ops, j, k);
  }

  /** Preparing the same events again, at any later time, reads back the same batch and changes nothing. */
  lemma PrepareIdempotent(env: Env, l: Ledger, a: Attachment, task: string, rows: seq<TaskEvent>, listing: seq<string>,
                          later: Ledger, order: seq<string>, dies: bool)
    requires Honest(env) && Sound(env, l) && ValidOwner(a) && Sound(env, later) && Covers(listing, l)
    requires var first := PrepareAndClaim(env, l, a, task, rows, listing, false);
             first.1.Success? && Evolves(first.0, later)
    ensures var b := PrepareAndClaim(env, l, a, task, rows, listing, false).1.value;
            var again := PrepareAndClaim(env, later, a, task, rows, order, dies);
            && again.0 == later && b.id in later.dirs && (again.1.Success? <==> Readable(env, later.dirs[b.id]))
            && (again.1.Success? ==>
                  && again.1.value.(phase := b.phase, proof := b.proof, turn := b.turn, item := b.item) == b
                  && Rank(b.phase) <= Rank(again.1.value.phase))
  {
    hide PrepareAndClaim, Load, Project, DeliveryId, GoodDir, NativeEnvelope, Readable;
    FirstPrepared(env, l, a, task, rows, listing);
    var first := PrepareAndClaim(env, l, a, task, rows, listing, false);
    PrepareSound(env, l, a, task, rows, listing, false);
    var (events, source) := Project(env, task, rows).value;
    var id := DeliveryId(env, a, task, source);
    LoadGood(env, first.0, id);
    LoadGood(env, later, id);
    PreparedAgain(env, later, a, task, rows, order, dies);
  }

  lemma FirstPrepared(env: Env, l: Ledger, a: Attachment, task: string, rows: seq<TaskEvent>, listing: seq<string>)
    requires PrepareAndClaim(env, l, a, task, rows, listing, false).1.Success?
    ensures Project(env, task, rows).Success?
    ensures var first, source := PrepareAndClaim(env, l, a, task, rows, listing, false),
            Project(env, task, rows).value.1;
            var id := DeliveryId(env, a, task, source);
            && id in first.0.dirs && first.0.dirs[id].source == source && Load(env, first.0, id) == first.1
  {
    hide Project, DeliveryId, NativeEnvelope, IntentText, Readable, ScanError;
  }

  lemma PreparedAgain(env: Env, l: Ledger, a: Attachment, task: string, rows: seq<TaskEvent>, order: seq<string>,
                      dies: bool)
    requires Project(env, task, rows).Success?
    requires var source := Project(env, task, rows).value.1;
             var id := DeliveryId(env, a, task, source);
             id in l.dirs && (Load(env, l, id).Success? ==> Load(env, l, id).value.source == source)
    ensures PrepareAndClaim(env, l, a, task, rows, order, dies) ==
            (l, Load(env, l, DeliveryId(env, a, task, Project(env, task, rows).value.1)))
  {
    hide Project, DeliveryId, Load;
  }

  /** A preparation that dies costs one refused attempt, which clears its stage; the next one goes through. */
  lemma DeadStageRecovers(env: Env, l: Ledger, a: Attachment, task: string, rows: seq<TaskEvent>, listing: seq<string>)
    requires Honest(env) && Sound(env, l) && ValidOwner(a) && Project(env, task, rows).Success?
    requires ScanError(env, l, a.thread, listing).None?
    requires var id := DeliveryId(env, a, task, Project(env, task, rows).value.1); id !in l.dirs && id !in l.stages
    ensures var dead := PrepareAndClaim(env, l, a, task, rows, listing, true).0;
            var (events, source) := Project(env, task, rows).value;
            var id := DeliveryId(env, a, task, source);
            var next := PrepareAndClaim(env, l, a, task, rows, listing, false);
            && dead.dirs == l.dirs
            && PrepareAndClaim(env, dead, a, task, rows, listing, false) == (l, Failure("stage_exists"))
            && next.0.dirs == l.dirs[id := NewBatch(env, id, a, task, events, source)]
            && (next.1.Success? <==> Readable(env, next.0.dirs[id]))
  {
    hide Load, NewBatch, GoodDir, Project, DeliveryId, Readable;
    var (events, source) := Project(env, task, rows).value;
    var id := DeliveryId(env, a, task, source);
    var dead := l.(stages := l.stages + {id});
    assert l.stages + {id} - {id} == l.stages;
    ScanAgain(env, l, dead, a.thread, listing);
    NewBatchGood(env, l, a, task, rows);
    LoadGood(env, l.(dirs := l.dirs[id := NewBatch(env, id, a, task, events, source)]), id);
    hide ScanError;
  }

  lemma LoadAgain(env: Env, l: Ledger, m: Ledger, id: string)
    requires l.dirs == m.dirs
    ensures Load(env, l, id) == Load(env, m, id)
  {
    hide Readable, NativeEnvelope, IntentText, Mapped, SafeHash, LedgerId, BatchHash;
  }

  lemma {:induction false} ScanAgain(env: Env, l: Ledger, m: Ledger, thread: string, listing: seq<string>)
    requires l.dirs == m.dirs
    ensures ScanError(env, l, thread, listing) == ScanError(env, m, thread, listing)
    decreases |listing|
  {
    if listing != [] {
      LoadAgain(env, l, m, listing[0]);
      hide Load;
      ScanAgain(env, l, m, thread, listing[1..]);
    }
  }

  // ---------------------------------------------------------------- confirmations in two sections

  lemma {:induction false} ApplyAllSound(env: Env, l: Ledger, ops: seq<Op>)
    requires Honest(env) && Sound(env, l) && forall k :: 0 <= k < |ops| ==> ValidOp(ops[k])
    ensures Sound(env, ApplyAll(env, l, ops)) && Evolves(l, ApplyAll(env, l, ops))
    decreases |ops|
  {
    hide Sound, Evolves, Apply, Honest, ValidOp;
    if ops == [] {
      EvolvesItself(l);
    } else {
      var l' := Apply(env, l, ops[0]).0;
      ApplySound(env, l, ops[0]);
      ApplyAllSound(env, l', ops[1..]);
      EvolvesTransitive(l, l', ApplyAll(env, l', ops[1..]));
    }
  }

  function TurnOf(l: Ledger, id: string): Option<string>
  {
    if id in l.dirs then l.dirs[id].status.turn else None
  }

  /** A transition of this batch that takes effect. */
  predicate Effective(env: Env, l: Ledger, id: string, op: Op)
  {
    && op.MarkOp? && op.id == id && MarkError(op.mark).None?
    && Load(env, l, id).Success? && MayFollow(Load(env, l, id).value.phase, op.mark)
  }

  /** The turn a transition states: an acceptance and a confirmation do. */
  function Stated(m: Mark): Option<string>
  {
    match m
    case Accept(turn) => Some(turn)
    case Confirm(_, turn, _) => Some(turn)
    case _ => None
  }

  /** The last turn that an effective one of these operations states for the batch. */
  function LastStated(env: Env, l: Ledger, id: string, ops: seq<Op>): Option<string>
    decreases |ops|
  {
    if ops == [] then None
    else
      var later := LastStated(env, Apply(env, l, ops[0]).0, id, ops[1..]);
      if later.Some? then later else if Effective(env, l, id, ops[0]) then Stated(ops[0].mark) else None
  }

  lemma NewTurn(env: Env, id: string, a: Attachment, task: string, events: seq<Event>, source: seq<SourceEvent>)
    ensures NewBatch(env, id, a, task, events, source).status.turn.None?
  {
  }

  lemma PrepareTurn(env: Env, l: Ledger, id: string, op: Op)
    requires op.PrepareOp?
    ensures TurnOf(Apply(env, l, op).0, id) == TurnOf(l, id)
  {
    hide PrepareAndClaim, Project, DeliveryId, NewBatch, ScanError;
    PrepareChanges(env, l, op.owner, op.task, op.rows, op.order(l.dirs.Keys), op.dies);
    if Project(env, op.task, op.rows).Success? {
      var (events, source) := Project(env, op.task, op.rows).value;
      NewTurn(env, DeliveryId(env, op.owner, op.task, source), op.owner, op.task, events, source);
    }
  }

  lemma MarkedTurn(s: StatusFile, m: Mark)
    ensures Marked(s, m).turn == if Stated(m).Some? then Stated(m) else s.turn
  {
  }

  lemma MarkTurn(env: Env, l: Ledger, id: string, op: Op)
    requires op.MarkOp?
    ensures var turn := if Effective(env, l, id, op) then Stated(op.mark) else None;
            TurnOf(Apply(env, l, op).0, id) == if turn.Some? then turn else TurnOf(l, id)
  {
    hide Load, MarkError, MayFollow, Marked, Stated;
    LoadFinds(env, l, op.id);
    if op.id in l.dirs {
      MarkedTurn(l.dirs[op.id].status, op.mark);
    }
  }

  lemma ApplyTurn(env: Env, l: Ledger, id: string, op: Op)
    ensures var turn := if Effective(env, l, id, op) then Stated(op.mark) else None;
            TurnOf(Apply(env, l, op).0, id) == if turn.Some? then turn else TurnOf(l, id)
  {
    hide Apply, Stated, TurnOf;
    if op.PrepareOp? {
      PrepareTurn(env, l, id, op);
    } else {
      MarkTurn(env, l, id, op);
    }
  }

  /** The turn recorded for a batch is the last one stated since, or the one recorded before. */
  lemma {:induction false} ApplyAllTurn(env: Env, l: Ledger, id: string, ops: seq<Op>)
    ensures var turn := LastStated(env, l, id, ops);
            TurnOf(ApplyAll(env, l, ops), id) == if turn.Some? then turn else TurnOf(l, id)
    decreases |ops|
  {
    hide Apply, Effective, Stated;
    if ops != [] {
      ApplyTurn(env, l, id, ops[0]);
      ApplyAllTurn(env, Apply(env, l, ops[0]).0, id, ops[1..]);
    }
  }

  /**
    A confirmation that succeeds records its own turn.  That keeps whatever turn had been
    recorded exactly if the last turn stated between its two sections, if any, is the same.
   */
  lemma ConfirmKeepsTurnIff(env: Env, l: Ledger, id: string, m: Mark, between: seq<Op>)
    requires Honest(env) && Sound(env, l) && m.Confirm? && forall k :: 0 <= k < |between| ==> ValidOp(between[k])
    requires ConfirmCheck(env, l, id, m).None? && ConfirmHistory(env, l, id, m, between).1.Success?
    ensures var locked, after := ApplyAll(env, l, between), ConfirmHistory(env, l, id, m, between).0;
            && Sound(env, after) && Evolves(l, after) && TurnOf(after, id) == Some(m.turn)
            && Kept(TurnOf(l, id), TurnOf(after, id))
            && (Kept(TurnOf(locked, id), TurnOf(after, id)) <==>
                LastStated(env, l, id, between) in {None, Some(m.turn)})
  {
    hide Sound, Evolves, Apply, Honest, ConfirmCheck, Load, GoodDir, MarkBatch, ApplyAll, ValidOp, Marked, LastStated;
    var locked := ApplyAll(env, l, between);
    ApplyAllSound(env, l, between);
    ApplyAllTurn(env, l, id, between);
    CheckedTurn(env, l, id, m);
    MarkSound(env, locked, id, m);
    MarkSucceeds(env, locked, id, m);
    EvolvesTransitive(l, locked, MarkBatch(env, locked, id, m).0);
  }

  /** What the first section of a confirmation checks. */
  lemma CheckedTurn(env: Env, l: Ledger, id: string, m: Mark)
    requires Sound(env, l) && m.Confirm? && ConfirmCheck(env, l, id, m).None?
    ensures TurnOf(l, id) in {None, Some(m.turn)}
  {
    hide Load, GoodDir, Readable, NativeEnvelope;
    LoadFinds(env, l, id);
    LoadGood(env, l, id);
  }

  lemma LoadFinds(env: Env, l: Ledger, id: string)
    ensures Load(env, l, id).Success? ==> id in l.dirs
  {
  }

  lemma MarkSucceeds(env: Env, l: Ledger, id: string, m: Mark)
    requires MarkBatch(env, l, id, m).1.Success?
    ensures var l' := MarkBatch(env, l, id, m).0;
            && id in l.dirs && l' == l.(dirs := l.dirs[id := l.dirs[id].(status := Marked(l.dirs[id].status, m))])
            && (m.Confirm? ==> TurnOf(l', id) == Some(m.turn))
  {
    hide Load, MarkError, MayFollow;
  }

  /** With nobody else at work a recorded turn is kept. */
  lemma ConfirmAloneKeepsTurn(env: Env, l: Ledger, id: string, m: Mark)
    requires Honest(env) && Sound(env, l) && m.Confirm? && ConfirmHistory(env, l, id, m, []).1.Success?
    ensures Kept(TurnOf(l, id), TurnOf(ConfirmHistory(env, l, id, m, []).0, id))
  {
    hide ApplyAll, LastStated, ConfirmCheck, MarkBatch, Sound, Evolves, Honest;
    ConfirmKeepsTurnIff(env, l, id, m, []);
  }

  lemma SendingHasNoTurn(env: Env, id: string, d: BatchDir)
    requires GoodDir(env, id, d) && d.status.phase.Sending?
    ensures d.status.turn.None?
  {
    hide NativeEvents, SourceRows, SafeName, BatchHash;
  }

  /** A transition of a readable batch that its status allows. */
  lemma MarkApplies(env: Env, l: Ledger, id: string, m: Mark)
    requires id in l.dirs && GoodDir(env, id, l.dirs[id]) && Readable(env, l.dirs[id])
    requires MarkError(m).None? && MayFollow(l.dirs[id].status.phase, m)
    ensures MarkBatch(env, l, id, m).0 == l.(dirs := l.dirs[id := l.dirs[id].(status := Marked(l.dirs[id].status, m))])
  {
    hide Load, GoodDir, Readable, NativeEnvelope, MarkError, Marked;
    LoadGood(env, l, id);
  }

  /** A confirmation that another owner's acceptance overtakes replaces the turn that was accepted. */
  lemma ConfirmMayReplaceTurn(env: Env, l: Ledger, id: string, m: Mark, turn: string)
    requires Honest(env) && Sound(env, l) && m.Confirm? && MarkError(m).None? && SafeName(turn) && turn != m.turn
    requires id in l.dirs && l.dirs[id].status.phase.Sending? && Readable(env, l.dirs[id])
    requires Readable(env, l.dirs[id].(status := Marked(l.dirs[id].status, Accept(turn))))
    ensures var between := [MarkOp(id, Accept(turn))];
            && ConfirmCheck(env, l, id, m).None?
            && TurnOf(ApplyAll(env, l, between), id) == Some(turn)
            && TurnOf(ConfirmHistory(env, l, id, m, between).0, id) == Some(m.turn)
  {
    hide GoodDir, Readable, SafeName, SafeHash, Load, MarkBatch, NativeEnvelope;
    var d := l.dirs[id];
    var accepted := l.(dirs := l.dirs[id := d.(status := Marked(d.status, Accept(turn)))]);
    SendingHasNoTurn(env, id, d);
    LoadGood(env, l, id);
    MarkApplies(env, l, id, Accept(turn));
    RemarkedDir(env, id, d, Accept(turn));
    MarkApplies(env, accepted, id, m);
    assert ApplyAll(env, accepted, []) == accepted;
    hide Sound;
  }
}
