/**
  Whatever the crashes and resumes: the steps stay a prefix, the cache lags by at most one,
  no step changes, and the cached state never returns to an earlier value.
 */
module RetainedTheorems {
  import opened Options
  import opened RetainedProtocol

  const EMPTY := World(Disk(None, map[]), 0, None)

  lemma EmptySound(task: Task)
    requires ValidTask(task)
    ensures Sound(task, EMPTY)
  {
  }

  lemma {:induction false} LatestBounds(from: nat, steps: map<nat, StepFile>, k: nat, clock: nat)
    ensures from <= Latest(from, steps, k)
    ensures forall n :: 1 <= n <= k && n in steps ==> steps[n].completedAt <= Latest(from, steps, k)
    ensures from <= clock && (forall n :: n in steps ==> steps[n].completedAt <= clock) ==>
            Latest(from, steps, k) <= clock
    ensures (forall n :: 1 <= n <= k && n in steps ==> steps[n].completedAt <= from) && 0 !in steps ==>
            Latest(from, steps, k) == from
  {
    if k > 0 {
      LatestBounds(from, steps, k - 1, clock);
    }
  }

  // ---------------------------------------------------------------- one action

  lemma StartSound(task: Task, w: World, pid: nat)
    requires ValidTask(task) && Sound(task, w) && Act(task, w, Start(pid)).Some?
    ensures Sound(task, Act(task, w, Start(pid)).value)
  {
  }

  lemma SnapshotWritable(task: Task, d: Disk, clock: nat)
    requires ValidTask(task) && Consistent(task, d) && Past(d, clock) && d.state.Some?
    ensures var s := Snapshot(task, d);
            && Writable(task, d, s) && s.updatedAt <= clock
            && (s.completed == d.state.value.completed ==> s == d.state.value)
  {
    LatestBounds(d.state.value.updatedAt, d.steps, |d.steps|, clock);
  }

  lemma ResumeSound(task: Task, w: World, pid: nat)
    requires ValidTask(task) && Sound(task, w) && Act(task, w, Resume(pid)).Some?
    ensures Sound(task, Act(task, w, Resume(pid)).value)
  {
    SnapshotWritable(task, w.disk, w.clock);
    var s := Snapshot(task, w.disk);
    if s.status != Completed && s.segment + 1 <= MAX_SEGMENT {
      var t := Resumed(task, w.disk, pid, w.clock).value.state;
      assert Later(w.disk.state.value, t);
    }
  }

  lemma StampSound(task: Task, w: World)
    requires Sound(task, w) && Act(task, w, Stamp).Some?
    ensures Sound(task, Act(task, w, Stamp).value)
  {
  }

  lemma LinkSound(task: Task, w: World)
    requires Sound(task, w) && Act(task, w, Link).Some?
    ensures Sound(task, Act(task, w, Link).value)
    ensures w.worker.value.step.step !in w.disk.steps
  {
    hide Prefix;
    var Stamped(s, step) := w.worker.value;
    var d := w.disk;
    var d' := d.(steps := d.steps[step.step := step]);
    var s' := Advanced(task, s, step);
    LinkConsistent(task, d, s, step);
    hide Consistent;
    assert Past(d', w.clock);
    assert Writable(task, d', s');
    assert Act(task, w, Link).value == w.(disk := d', worker := Some(Linked(s')));
  }

  lemma LinkConsistent(task: Task, d: Disk, s: State, step: StepFile)
    requires Consistent(task, d) && d.state == Some(s) && s.completed == |d.steps| < task.total && s.status == Running
    requires GenuineStep(task, s.completed + 1, step) && step.segment == s.segment && s.updatedAt <= step.completedAt
    ensures step.step !in d.steps
    ensures var d' := d.(steps := d.steps[step.step := step]);
            && |d'.steps| == step.step
            && Consistent(task, d') && Consistent(task, d'.(state := Some(Advanced(task, s, step))))
  {
    AddStep(task, d.steps, step.step, step);
    hide Prefix;
    WithStep(task, d, step, s);
    forall n | n in d.steps ensures d.steps[n].completedAt <= step.completedAt {
    }
    WithStep(task, d, step, Advanced(task, s, step));
  }

  lemma WithStep(task: Task, d: Disk, step: StepFile, s: State)
    requires Prefix(task, d.steps[step.step := step]) && ValidState(task, s) && s.segment == step.segment
    requires s.completed <= step.step == |d.steps[step.step := step]| <= s.completed + 1
    requires s.completed == task.total ==> s.status == Completed
    requires forall n :: n in d.steps ==> d.steps[n].segment <= s.segment && d.steps[n].completedAt <= s.updatedAt
    requires s.completed == step.step ==> step.completedAt <= s.updatedAt
    ensures Consistent(task, Disk(Some(s), d.steps[step.step := step]))
  {
    hide Prefix, ValidState;
  }

  lemma AddStep(task: Task, steps: map<nat, StepFile>, n: nat, step: StepFile)
    requires Prefix(task, steps) && n == |steps| + 1 <= task.total && GenuineStep(task, n, step)
    requires forall m :: m in steps ==> steps[m].segment <= step.segment
    ensures n !in steps && |steps[n := step]| == n && Prefix(task, steps[n := step])
  {
  }

  lemma WriteSound(task: Task, w: World)
    requires Sound(task, w) && Act(task, w, WriteState).Some?
    ensures Sound(task, Act(task, w, WriteState).value)
  {
  }

  lemma StopSound(task: Task, w: World)
    requires Sound(task, w) && Act(task, w, Stop).Some?
    ensures Sound(task, Act(task, w, Stop).value)
  {
    hide Prefix, GenuineStep;
    var s := w.worker.value.state;
    assert Consistent(task, w.disk.(state := Some(Stopped(task, s, w.clock))));
    hide Consistent;
  }

  lemma ActFollows(task: Task, w: World, a: Action)
    requires Sound(task, w) && Act(task, w, a).Some?
    ensures Follows(w.disk, Act(task, w, a).value.disk)
  {
    hide Consistent, Resumed, Advanced, Stopped;
    if a.Link? {
      LinkSound(task, w);
    }
  }

  /** Every action keeps the invariant and only moves the disk forward. */
  lemma ActSound(task: Task, w: World, a: Action)
    requires ValidTask(task) && Sound(task, w) && Act(task, w, a).Some?
    ensures Sound(task, Act(task, w, a).value) && Follows(w.disk, Act(task, w, a).value.disk)
  {
    ActFollows(task, w, a);
    match a
    case Tick => TickSound(task, w);
    case Start(pid) => StartSound(task, w, pid);
    case Resume(pid) => ResumeSound(task, w, pid);
    case Stamp => StampSound(task, w);
    case Link => LinkSound(task, w);
    case WriteState => WriteSound(task, w);
    case Stop => StopSound(task, w);
    case Die => assert Sound(task, w.(worker := None));
  }

  lemma TickSound(task: Task, w: World)
    requires Sound(task, w)
    ensures Sound(task, w.(clock := w.clock + 1))
  {
    hide Consistent;
  }

  // ---------------------------------------------------------------- whole runs

  /** The worlds of a run: from the empty directory, one action at a time. */
  ghost predicate IsRun(task: Task, run: seq<World>)
  {
    && run != [] && run[0] == EMPTY
    && forall i :: 0 < i < |run| ==> Moved(task, run, i)
  }

  ghost predicate Moved(task: Task, run: seq<World>, i: nat)
    requires 0 < i < |run|
  {
    exists a :: Moves(task, run, i, a)
  }

  predicate Moves(task: Task, run: seq<World>, i: nat, a: Action)
    requires 0 < i < |run|
  {
    Act(task, run[i - 1], a) == Some(run[i])
  }

  lemma {:induction false} RunSound(task: Task, run: seq<World>, i: nat)
    requires ValidTask(task) && IsRun(task, run) && i < |run|
    ensures Sound(task, run[i])
    ensures i > 0 ==> Follows(run[i - 1].disk, run[i].disk)
  {
    hide Act, Sound, Follows;
    if i == 0 {
      EmptySound(task);
    } else {
      RunSound(task, run, i - 1);
      assert Moved(task, run, i);
      var a :| Moves(task, run, i, a);
      ActSound(task, run[i - 1], a);
    }
  }

  lemma FollowsItself(d: Disk)
    ensures Follows(d, d)
  {
  }

  lemma FollowsTransitive(d: Disk, e: Disk, f: Disk)
    requires Follows(d, e) && Follows(e, f)
    ensures Follows(d, f)
  {
  }

  /** The state of a later instant is the same or a later one, and every step is still there unchanged. */
  lemma {:induction false} RunFollows(task: Task, run: seq<World>, i: nat, j: nat)
    requires ValidTask(task) && IsRun(task, run) && i <= j < |run|
    ensures Follows(run[i].disk, run[j].disk)
    decreases j - i
  {
    hide IsRun, Sound, Follows;
    if i < j {
      RunFollows(task, run, i, j - 1);
      RunSound(task, run, j);
      FollowsTransitive(run[i].disk, run[j - 1].disk, run[j].disk);
    } else {
      FollowsItself(run[i].disk);
    }
  }

  /** A state seen twice was there all the time in between. */
  lemma NoReturn(d: Disk, e: Disk, f: Disk)
    requires Follows(d, e) && Follows(e, f) && d.state == f.state
    ensures e.state == d.state
  {
  }

  /** On every run: the crash and resume invariant, and no step is ever linked over another. */
  lemma RunInvariant(task: Task, run: seq<World>, i: nat)
    requires ValidTask(task) && IsRun(task, run) && i < |run|
    ensures var d := run[i].disk;
            && Prefix(task, d.steps)
            && (d.state.Some? ==>
                  && ValidState(task, d.state.value) && 0 <= |d.steps| - d.state.value.completed <= 1
                  && forall n :: n in d.steps ==> d.steps[n].segment <= d.state.value.segment)
            && (run[i].worker.Some? && run[i].worker.value.Stamped? ==> run[i].worker.value.step.step !in d.steps)
  {
    hide Act;
    RunSound(task, run, i);
  }
}
