/**
  The retained task: one worker at a time publishes immutable step files and then a cached
  state that lags behind them; it can die at any point and be resumed under the lock.

  A published step and a replaced state are atomic here: the stage file that carries them
  has a name of its own and becomes visible by one link or one rename.
 */
module RetainedProtocol {
  import opened Options

  const MAX_SEGMENT := 1_000_000

  /** What every file of a task repeats; the hash stands for the record it was computed from. */
  datatype Identity = Identity(version: int, nonce: string, controller: string, revision: int, taskHash: string)

  datatype Task = Task(identity: Identity, total: nat)

  datatype Status = Running | Interrupted | Completed

  datatype State = State(
    identity: Identity, status: Status, segment: nat, completed: nat, pid: nat, startedAt: nat, updatedAt: nat)

  datatype StepFile = StepFile(
    identity: Identity, segment: nat, step: nat, payload: string, count: nat, completedAt: nat)

  datatype Disk = Disk(state: Option<State>, steps: map<nat, StepFile>)

  const DONE := "synthetic_step_complete"

  predicate ValidTask(task: Task)
  {
    1 <= task.total <= 32
  }

  /** The fields a reader checks in the state. */
  predicate ValidState(task: Task, s: State)
  {
    && s.identity == task.identity && 1 <= s.segment <= MAX_SEGMENT && 0 < s.pid && s.completed <= task.total
    && s.startedAt <= s.updatedAt && (s.status == Completed ==> s.completed == task.total)
  }

  // ---------------------------------------------------------------- the worker

  /**
    Where the worker is: about to write a state and go on (`Launching`) or end (`Stopping`),
    waiting for the interval, with a step stamped but not linked, or with it linked and the
    state not yet written.
   */
  datatype Worker =
    | Launching(state: State)
    | Waiting(state: State)
    | Stamped(state: State, step: StepFile)
    | Linked(state: State)
    | Stopping(state: State)

  datatype World = World(disk: Disk, clock: nat, worker: Option<Worker>)

  datatype Action =
    | Tick
    | Start(pid: nat)
    | Resume(pid: nat)
    | Stamp
    | Link
    | WriteState
    | Stop
    | Die

  /** The step files as one instant shows them: what an inspection that takes no time reports. */
  function Snapshot(task: Task, d: Disk): (s: State)
    requires d.state.Some?
  {
    var s, k := d.state.value, |d.steps|;
    s.(completed := k, updatedAt := Latest(s.updatedAt, d.steps, k),
       status := if k == task.total then Completed else s.status)
  }

  /** The latest of `from` and the times of the first `k` steps. */
  function Latest(from: nat, steps: map<nat, StepFile>, k: nat): nat
  {
    if k == 0 then from
    else
      var before := Latest(from, steps, k - 1);
      if k in steps && steps[k].completedAt > before then steps[k].completedAt else before
  }

  /** The state a resumed worker continues from; a completed one is only rewritten if the cache lags. */
  function Resumed(task: Task, d: Disk, pid: nat, now: nat): Option<Worker>
    requires d.state.Some?
  {
    var s := Snapshot(task, d);
    if s.status == Completed then Some(if d.state.value == s then Waiting(s) else Launching(s))
    else if s.segment + 1 > MAX_SEGMENT then None
    else Some(Launching(s.(segment := s.segment + 1, status := Running, pid := pid, startedAt := now,
                           updatedAt := now)))
  }

  /** The state after the stamped step has been linked. */
  function Advanced(task: Task, s: State, step: StepFile): State
  {
    s.(completed := step.step, updatedAt := step.completedAt,
       status := if step.step == task.total then Completed else s.status)
  }

  /** The state a worker leaves when it is stopped. */
  function Stopped(task: Task, s: State, now: nat): State
  {
    if s.completed == task.total then s.(status := Completed) else s.(status := Interrupted, updatedAt := now)
  }

  /** The world after an action, if the action is possible. */
  function Act(task: Task, w: World, a: Action): Option<World>
  {
    match a
    case Tick => Some(w.(clock := w.clock + 1))
    case Start(pid) =>
      if w.worker.Some? || w.disk != Disk(None, map[]) || pid == 0 then None
      else Some(w.(worker := Some(Launching(State(task.identity, Running, 1, 0, pid, w.clock, w.clock)))))
    case Resume(pid) =>
      if w.worker.Some? || w.disk.state.None? || pid == 0 then None
      else Some(w.(worker := Resumed(task, w.disk, pid, w.clock)))
    case Stamp =>
      if w.worker.None? || !w.worker.value.Waiting? || w.worker.value.state.completed >= task.total then None
      else
        var s := w.worker.value.state;
        Some(w.(worker := Some(Stamped(s, StepFile(task.identity, s.segment, s.completed + 1, DONE, 1, w.clock)))))
    case Link =>
      if w.worker.None? || !w.worker.value.Stamped? then None
      else
        var Stamped(s, step) := w.worker.value;
        if step.step in w.disk.steps then Some(w.(worker := None))
        else Some(w.(disk := w.disk.(steps := w.disk.steps[step.step := step]),
                     worker := Some(Linked(Advanced(task, s, step)))))
    case WriteState =>
      if w.worker.None? then None
      else
        (match w.worker.value
         case Launching(s) => Some(w.(disk := w.disk.(state := Some(s)), worker := Some(Waiting(s))))
         case Linked(s) => Some(w.(disk := w.disk.(state := Some(s)), worker := Some(Waiting(s))))
         case Stopping(s) => Some(w.(disk := w.disk.(state := Some(s)), worker := None))
         case _ => None)
    case Stop =>
      if w.worker.None? || !(w.worker.value.Waiting? || w.worker.value.Linked?) then None
      else Some(w.(worker := Some(Stopping(Stopped(task, w.worker.value.state, w.clock)))))
    case Die => Some(w.(worker := None))
  }

  // ---------------------------------------------------------------- the invariant

  predicate GenuineStep(task: Task, n: nat, step: StepFile)
  {
    step.identity == task.identity && step.step == n && step.payload == DONE && step.count == 1 && 1 <= step.segment
  }

  /** The steps are exactly 1 to their number, genuine, with segments that never decrease. */
  ghost predicate Prefix(task: Task, steps: map<nat, StepFile>)
  {
    && |steps| <= task.total
    && (forall n :: n in steps <==> 1 <= n <= |steps|)
    && (forall n :: n in steps ==> GenuineStep(task, n, steps[n]))
    && (forall n, m :: n in steps && m in steps && n <= m ==> steps[n].segment <= steps[m].segment)
  }

  /** The cached state lags the steps by at most one, and none is from a later segment. */
  ghost predicate Consistent(task: Task, d: Disk)
  {
    && Prefix(task, d.steps)
    && match d.state
       case None => d.steps == map[]
       case Some(s) =>
         && ValidState(task, s)
         && s.completed <= |d.steps| <= s.completed + 1
         && (s.completed == task.total ==> s.status == Completed)
         && (forall n :: n in d.steps ==> d.steps[n].segment <= s.segment)
         && (forall n :: n in d.steps && n <= s.completed ==> d.steps[n].completedAt <= s.updatedAt)
  }

  function Rank(s: Status): nat
  {
    match s
    case Running => 0
    case Interrupted => 1
    case Completed => 2
  }

  /** A later state of the same task. */
  predicate Later(s: State, t: State)
  {
    || s.segment < t.segment
    || (s.segment == t.segment && s.completed < t.completed)
    || (s.segment == t.segment && s.completed == t.completed && Rank(s.status) < Rank(t.status))
  }

  predicate NotBefore(s: Option<State>, t: Option<State>)
  {
    s.None? || s == t || (t.Some? && Later(s.value, t.value))
  }

  /** Steps are only added, none is altered, and the state is kept or replaced by a later one. */
  ghost predicate Follows(d: Disk, d': Disk)
  {
    && (forall n :: n in d.steps ==> n in d'.steps && d'.steps[n] == d.steps[n])
    && NotBefore(d.state, d'.state)
  }

  /** Nothing on the disk is from the future. */
  ghost predicate Past(d: Disk, clock: nat)
  {
    && (forall n :: n in d.steps ==> d.steps[n].completedAt <= clock)
    && (d.state.Some? ==> d.state.value.updatedAt <= clock)
  }

  /** The state a worker is about to write, now or after its step is linked, belongs on the disk. */
  ghost predicate Writable(task: Task, d: Disk, s: State)
  {
    Consistent(task, d.(state := Some(s))) && s.completed == |d.steps| && NotBefore(d.state, Some(s))
  }

  ghost predicate Sound(task: Task, w: World)
  {
    && Consistent(task, w.disk) && Past(w.disk, w.clock)
    && (w.worker.Some? ==>
          && Writable(task, w.disk, w.worker.value.state)
          && w.worker.value.state.updatedAt <= w.clock
          && match w.worker.value
             case Launching(s) => s.completed < task.total ==> s.status == Running
             case Waiting(s) => w.disk.state == Some(s) && (s.completed < task.total ==> s.status == Running)
             case Stamped(s, step) =>
               && w.disk.state == Some(s) && s.status == Running && s.completed < task.total
               && GenuineStep(task, s.completed + 1, step) && step.segment == s.segment
               && s.updatedAt <= step.completedAt <= w.clock
             case Linked(s) =>
               && (s.completed < task.total ==> s.status == Running)
               && w.disk.state.Some? && w.disk.state.value.segment == s.segment
               && w.disk.state.value.completed < s.completed
             case Stopping(s) => true)
  }
}
