/**
  The ledger as its owner runs it, one locked operation at a time, against the functions of
  `DeliverySpec`; the order in which the directory is listed makes no difference.
 */
module DeliveryLedger {
  import opened Options
  import opened BatchSpec
  import opened DeliverySpec
  import opened DeliveryTheorems

  /** `_project_events`. */
  method ProjectEvents(env: Env, task: string, rows: seq<TaskEvent>)
    returns (r: Result<(seq<Event>, seq<SourceEvent>)>)
    ensures r == Project(env, task, rows)
  {
    hide SafeName, SafeHash, RowError, NativeEvent, SourceOf;
    if !SafeName(task) || !(1 <= |rows| <= 8) {
      return Failure("events_shape");
    }
    var native: seq<Event>, source: seq<SourceEvent> := [], [];
    var aliases: set<string>, slots: set<string> := {}, {};
    for n := 0 to |rows|
      invariant ProjectRows(env, task, rows[..n]) == Success((native, source))
      invariant forall x :: x in aliases <==> UsesId(native, x)
      invariant forall x :: x in slots <==> UsesSlot(native, x)
    {
      assert rows[..n + 1][..n] == rows[..n];
      var e := rows[n];
      if RowError(task, e).Some? {
        FailedRow(env, task, rows, n);
        return Failure(RowError(task, e).value);
      }
      var event := NativeEvent(env, e);
      assert Clashes(native, event) <==> UsesId(native, event.id) || UsesSlot(native, event.slot);
      if event.id in aliases || event.slot in slots {
        FailedRow(env, task, rows, n);
        return Failure("event_alias_conflict");
      }
      UsedNow(native, event);
      native, source := native + [event], source + [SourceOf(env, e)];
      aliases, slots := aliases + {event.id}, slots + {event.slot};
    }
    assert rows[..|rows|] == rows;
    return Success((native, source));
  }

  ghost predicate UsesId(events: seq<Event>, x: string)
  {
    exists k :: 0 <= k < |events| && events[k].id == x
  }

  ghost predicate UsesSlot(events: seq<Event>, x: string)
  {
    exists k :: 0 <= k < |events| && events[k].slot == x
  }

  lemma UsedNow(events: seq<Event>, e: Event)
    ensures forall x :: UsesId(events + [e], x) <==> UsesId(events, x) || x == e.id
    ensures forall x :: UsesSlot(events + [e], x) <==> UsesSlot(events, x) || x == e.slot
  {
    var more := events + [e];
    assert more[|events|] == e;
    assert forall k :: 0 <= k < |events| ==> more[k] == events[k];
  }

  /** The first row that fails fails the projection. */
  lemma {:induction false} FailedRow(env: Env, task: string, rows: seq<TaskEvent>, n: nat)
    requires n < |rows| && ProjectRows(env, task, rows[..n + 1]).Failure?
    ensures ProjectRows(env, task, rows) == ProjectRows(env, task, rows[..n + 1])
    decreases |rows|
  {
    if n + 1 == |rows| {
      assert rows[..n + 1] == rows;
    } else {
      var init := rows[..|rows| - 1];
      assert init[..n + 1] == rows[..n + 1];
      FailedRow(env, task, init, n);
    }
  }

  class DurableLedger {
    const env: Env
    var dirs: map<string, BatchDir>
    var stages: set<string>

    ghost predicate Valid()
      reads this
    {
      Honest(env) && Sound(env, State())
    }

    function State(): Ledger
      reads this
    {
      Ledger(dirs, stages)
    }

    constructor (env: Env)
      requires Honest(env)
      ensures Valid() && this.env == env && State() == Ledger(map[], {})
    {
      this.env, dirs, stages := env, map[], {};
    }

    /**
      Prepare and claim a batch.  `listing` is the directory in the order it happens to be
      listed, and `dies` whether the process ends before the batch directory appears.
     */
    method Prepare(a: Attachment, task: string, rows: seq<TaskEvent>, listing: seq<string>, dies: bool)
      returns (r: Result<Batch>)
      requires Valid() && ValidOwner(a) && Covers(listing, State())
      modifies this
      ensures Valid() && Evolves(old(State()), State())
      ensures (State(), r) == PrepareAndClaim(env, old(State()), a, task, rows, listing, dies)
    {
      hide NewBatch, GoodDir, NativeEnvelope, Load, Project, DeliveryId, Honest, Sound, Evolves, SlotCode;
      PrepareSound(env, State(), a, task, rows, listing, dies);
      var projected := ProjectEvents(env, task, rows);
      if projected.Failure? {
        return Failure(projected.code);
      }
      var (events, source) := projected.value;
      var id := DeliveryId(env, a, task, source);
      if id in dirs {
        var existing := Load(env, State(), id);
        return if existing.Failure? then Failure(existing.code)
               else if existing.value.source == source then existing
               else Failure("delivery_conflict");
      }
      for n := 0 to |listing|
        invariant State() == old(State())
        invariant ScanError(env, State(), a.thread, listing) == ScanError(env, State(), a.thread, listing[n..])
      {
        assert listing[n..][1..] == listing[n + 1..];
        var batch := Load(env, State(), listing[n]);
        if batch.Failure? {
          return Failure(batch.code);
        }
        if batch.value.thread == a.thread && Blocking(batch.value.phase) {
          return Failure(SlotCode(batch.value.phase));
        }
      }
      if id in stages {
        stages := stages - {id};
        return Failure("stage_exists");
      }
      if dies {
        stages := stages + {id};
        return Failure("died");
      }
      dirs := dirs[id := NewBatch(env, id, a, task, events, source)];
      r := Load(env, State(), id);
    }

    /** The status transitions: sending, accepted, uncertain, history confirmed, acknowledged. */
    method Transition(id: string, m: Mark) returns (r: Result<Batch>)
      requires Valid()
      modifies this
      ensures Valid() && Evolves(old(State()), State())
      ensures (State(), r) == MarkBatch(env, old(State()), id, m)
    {
      hide Sound, Evolves, Honest, Load, Marked, MarkError, MayFollow;
      MarkSound(env, State(), id, m);
      if MarkError(m).Some? {
        return Failure(MarkError(m).value);
      }
      var batch := Load(env, State(), id);
      if batch.Failure? {
        return Failure(batch.code);
      }
      if !MayFollow(batch.value.phase, m) {
        return Failure("delivery_transition");
      }
      if id !in dirs {
        return Failure("delivery_missing");
      }
      dirs := dirs[id := dirs[id].(status := Marked(dirs[id].status, m))];
      r := Load(env, State(), id);
    }

    method Perform(op: Op) returns (r: Result<Batch>)
      requires Valid() && ValidOp(op)
      modifies this
      ensures Valid() && Evolves(old(State()), State())
      ensures (State(), r) == Apply(env, old(State()), op)
    {
      hide Sound, Evolves, Honest, MarkBatch, PrepareAndClaim;
      match op {
        case PrepareOp(a, task, rows, order, dies) => r := Prepare(a, task, rows, order(dirs.Keys), dies);
        case MarkOp(id, m) => r := Transition(id, m);
      }
    }

    /** A confirmation: check under the lock, then transition under the lock; `between` is what happens meanwhile. */
    method Confirm(id: string, m: Mark, between: seq<Op>) returns (r: Result<Batch>)
      requires Valid() && m.Confirm? && forall k :: 0 <= k < |between| ==> ValidOp(between[k])
      modifies this
      ensures Valid() && (State(), r) == ConfirmHistory(env, old(State()), id, m, between)
    {
      hide Sound, Evolves, Honest, MarkBatch, Apply, Load, MarkError, ValidOp;
      if MarkError(m).Some? {
        return Failure(MarkError(m).value);
      }
      var batch := Load(env, State(), id);
      if batch.Failure? {
        return Failure(batch.code);
      }
      if batch.value.turn.Some? && batch.value.turn.value != m.turn {
        return Failure("native_turn_changed");
      }
      for k := 0 to |between|
        invariant Valid()
        invariant ApplyAll(env, State(), between[k..]) == ApplyAll(env, old(State()), between)
      {
        assert between[k..][1..] == between[k + 1..];
        var other := Perform(between[k]);
      }
      r := Transition(id, m);
    }
  }
}
