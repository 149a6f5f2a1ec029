/**
  What a worker of the retained task gets done: how it begins, goes on step by step, ends,
  and what it leaves when it is stopped or dies.
 */
module RetainedLife {
  import opened Options
  import opened RetainedProtocol
  import opened RetainedTheorems

  /** The world after some actions, if each is possible. */
  function Acts(task: Task, w: World, actions: seq<Action>): Option<World>
    decreases |actions|
  {
    if actions == [] then Some(w)
    else
      match Act(task, w, actions[0])
      case None => None
      case Some(next) => Acts(task, next, actions[1..])
  }

  lemma ActsTwo(task: Task, w: World, a: Action, b: Action)
    ensures Acts(task, w, [a, b]) == if Act(task, w, a).None? then None else Act(task, Act(task, w, a).value, b)
  {
    assert [a, b][1..] == [b] && [b][1..] == [];
    assert forall v: World :: Acts(task, v, []) == Some(v);
    hide Act;
  }

  lemma ActsThree(task: Task, w: World, a: Action, b: Action, c: Action)
    ensures Acts(task, w, [a, b, c]) ==
            if Act(task, w, a).None? then None else Acts(task, Act(task, w, a).value, [b, c])
  {
    assert [a, b, c][1..] == [b, c];
    hide Act;
  }

  // ---------------------------------------------------------------- begin

  /** A worker starts on an empty directory only: running, at segment 1, with nothing completed. */
  lemma StartBegins(task: Task, w: World, pid: nat)
    requires Sound(task, w)
    ensures var r := Acts(task, w, [Start(pid), WriteState]);
            if w.worker.Some? || w.disk != Disk(None, map[]) || pid == 0 then r.None?
            else
              var s := State(task.identity, Running, 1, 0, pid, w.clock, w.clock);
              r == Some(World(Disk(Some(s), map[]), w.clock, Some(Waiting(s))))
  {
    hide Sound;
    ActsTwo(task, w, Start(pid), WriteState);
  }

  /**
    A worker is resumed only where none is alive and a state is there: what is complete is
    only written down, if need be; else it runs on from the snapshot, in the next segment.
   */
  lemma ResumeBegins(task: Task, w: World, pid: nat)
    requires Sound(task, w) && w.worker.None? && w.disk.state.Some? && pid > 0
    ensures var s, r := Snapshot(task, w.disk), Acts(task, w, [Resume(pid), WriteState]);
            if s.status == Completed then
              if w.disk.state == Some(s) then Act(task, w, Resume(pid)) == Some(w.(worker := Some(Waiting(s))))
              else r == Some(w.(disk := w.disk.(state := Some(s)), worker := Some(Waiting(s))))
            else if s.segment >= 1_000_000 then Act(task, w, Resume(pid)) == Some(w)
            else
              var t := State(s.identity, Running, s.segment + 1, |w.disk.steps|, pid, w.clock, w.clock);
              r == Some(w.(disk := w.disk.(state := Some(t)), worker := Some(Waiting(t))))
  {
    hide Sound, Latest;
    ActsTwo(task, w, Resume(pid), WriteState);
  }

  lemma NoSecondWorker(task: Task, w: World, pid: nat)
    ensures w.worker.Some? ==> Act(task, w, Start(pid)).None? && Act(task, w, Resume(pid)).None?
    ensures w.disk.state.None? ==> Act(task, w, Resume(pid)).None?
  {
  }

  // ---------------------------------------------------------------- go on

  /**
    A waiting worker with steps left publishes the next one, of its own segment and time, and
    then the state that counts it, completed exactly with the last step.
   */
  lemma StepGoesOn(task: Task, w: World)
    requires Sound(task, w) && w.worker.Some? && w.worker.value.Waiting? && w.worker.value.state.completed < task.total
    ensures var s, n := w.worker.value.state, w.worker.value.state.completed + 1;
            var step := StepFile(task.identity, s.segment, n, DONE, 1, w.clock);
            var t := s.(completed := n, updatedAt := w.clock, status := if n == task.total then Completed else Running);
            n !in w.disk.steps
            && Acts(task, w, [Stamp, Link, WriteState])
               == Some(World(Disk(Some(t), w.disk.steps[n := step]), w.clock, Some(Waiting(t))))
  {
    var s := w.worker.value.state;
    NextIsFree(task, w);
    hide Sound, Latest;
    ActsThree(task, w, Stamp, Link, WriteState);
    ActsTwo(task, Act(task, w, Stamp).value, Link, WriteState);
  }

  lemma NextIsFree(task: Task, w: World)
    requires Sound(task, w) && w.worker.Some? && w.worker.value.Waiting? && w.worker.value.state.completed < task.total
    ensures w.worker.value.state.completed + 1 !in w.disk.steps && w.worker.value.state.status == Running
  {
    hide GenuineStep;
  }

  /** Undisturbed it gets to the end: every step is there and the state is completed. */
  lemma {:induction false} RunsToEnd(task: Task, w: World) returns (actions: seq<Action>)
    requires ValidTask(task) && Sound(task, w) && w.worker.Some? && w.worker.value.Waiting?
    ensures Acts(task, w, actions).Some?
    ensures var v := Acts(task, w, actions).value;
            && Sound(task, v) && v.disk.state.Some? && v.disk.state.value.completed == |v.disk.steps| == task.total
            && v.disk.state.value.status == Completed && Follows(w.disk, v.disk)
    decreases task.total - w.worker.value.state.completed
  {
    if w.worker.value.state.completed >= task.total {
      actions := [];
      DoneIsCompleted(task, w);
      FollowsItself(w.disk);
    } else {
      var next := ThreeSound(task, w);
      StepGoesOn(task, w);
      hide Sound, Follows, Act;
      var rest := RunsToEnd(task, next);
      actions := [Stamp, Link, WriteState] + rest;
      ActsThen(task, w, [Stamp, Link, WriteState], rest);
      FollowsTwice(w.disk, next.disk, Acts(task, next, rest).value.disk);
    }
  }

  lemma DoneIsCompleted(task: Task, w: World)
    requires Sound(task, w) && w.worker.Some? && w.worker.value.Waiting? && w.worker.value.state.completed >= task.total
    ensures w.disk.state.Some? && w.disk.state.value.completed == |w.disk.steps| == task.total
    ensures w.disk.state.value.status == Completed
  {
    hide GenuineStep;
  }

  lemma ThreeSound(task: Task, w: World) returns (next: World)
    requires ValidTask(task) && Sound(task, w) && w.worker.Some? && w.worker.value.Waiting?
    requires w.worker.value.state.completed < task.total
    ensures Acts(task, w, [Stamp, Link, WriteState]) == Some(next) && Sound(task, next) && Follows(w.disk, next.disk)
    ensures next.worker.Some? && next.worker.value.Waiting?
    ensures next.worker.value.state.completed == w.worker.value.state.completed + 1
  {
    StepGoesOn(task, w);
    hide Sound, Follows, Act;
    ActsThree(task, w, Stamp, Link, WriteState);
    var a := Act(task, w, Stamp).value;
    ActsTwo(task, a, Link, WriteState);
    var b := Act(task, a, Link).value;
    next := Act(task, b, WriteState).value;
    ActSound(task, w, Stamp);
    ActSound(task, a, Link);
    ActSound(task, b, WriteState);
    FollowsTwice(w.disk, a.disk, b.disk);
    FollowsTwice(w.disk, b.disk, next.disk);
  }

  lemma FollowsTwice(d: Disk, e: Disk, f: Disk)
    requires Follows(d, e) && Follows(e, f)
    ensures Follows(d, f)
  {
  }

  lemma {:induction false} ActsThen(task: Task, w: World, first: seq<Action>, rest: seq<Action>)
    requires Acts(task, w, first).Some?
    ensures Acts(task, w, first + rest) == Acts(task, Acts(task, w, first).value, rest)
    decreases |first|
  {
    hide Act;
    if first == [] {
      assert first + rest == rest;
    } else {
      assert (first + rest)[1..] == first[1..] + rest;
      ActsThen(task, Act(task, w, first[0]).value, first[1..], rest);
    }
  }

  // ---------------------------------------------------------------- end

  /**
    A worker that is stopped between steps writes down what it has counted and ends: its
    state is then interrupted, now, unless all is completed.
   */
  lemma StopLeaves(task: Task, w: World)
    requires Sound(task, w) && w.worker.Some? && (w.worker.value.Waiting? || w.worker.value.Linked?)
    ensures var s := w.worker.value.state;
            var t := if s.completed == task.total then s.(status := Completed)
                     else s.(status := Interrupted, updatedAt := w.clock);
            Acts(task, w, [Stop, WriteState]) == Some(w.(disk := w.disk.(state := Some(t)), worker := None))
  {
    hide Sound;
    ActsTwo(task, w, Stop, WriteState);
  }

  /** One that dies leaves the directory as it is. */
  lemma DeathLeaves(task: Task, w: World)
    ensures Act(task, w, Die) == Some(w.(worker := None))
  {
  }

  /** Stopped and resumed it goes on behind the last step it has published. */
  lemma StoppedResumes(task: Task, w: World, pid: nat)
    requires ValidTask(task) && Sound(task, w) && w.worker.Some? && w.worker.value.Waiting? && pid > 0
    requires w.worker.value.state.completed < task.total && w.worker.value.state.segment < 1_000_000
    ensures var s, r := w.worker.value.state, Acts(task, w, [Stop, WriteState, Resume(pid), WriteState]);
            && r.Some? && r.value.disk.steps == w.disk.steps
            && r.value.worker == Some(Waiting(State(s.identity, Running, s.segment + 1, s.completed, pid, w.clock,
                                                    w.clock)))
            && r.value.disk.state == Some(r.value.worker.value.state)
  {
    StopLeaves(task, w);
    var s := w.worker.value.state;
    var t := s.(status := Interrupted, updatedAt := w.clock);
    var v := w.(disk := w.disk.(state := Some(t)), worker := None);
    assert Acts(task, w, [Stop, WriteState]) == Some(v);
    StoppedSound(task, w, v);
    CountedAll(task, w);
    hide Sound, Act, Latest;
    ResumeBegins(task, v, pid);
    assert [Stop, WriteState] + [Resume(pid), WriteState] == [Stop, WriteState, Resume(pid), WriteState];
    ActsThen(task, w, [Stop, WriteState], [Resume(pid), WriteState]);
  }

  lemma CountedAll(task: Task, w: World)
    requires Sound(task, w) && w.worker.Some? && w.worker.value.Waiting?
    ensures |w.disk.steps| == w.worker.value.state.completed
  {
    hide GenuineStep;
  }

  lemma StoppedSound(task: Task, w: World, v: World)
    requires ValidTask(task) && Sound(task, w) && Acts(task, w, [Stop, WriteState]) == Some(v)
    ensures Sound(task, v)
  {
    hide Sound, Act;
    ActsTwo(task, w, Stop, WriteState);
    ActSound(task, w, Stop);
    ActSound(task, Act(task, w, Stop).value, WriteState);
  }

  // ---------------------------------------------------------------- the snapshot

  /** The snapshot's time is the latest of the state's and those of its steps. */
  lemma {:induction false} LatestIs(from: nat, steps: map<nat, StepFile>, k: nat)
    ensures var t := Latest(from, steps, k);
            && from <= t && (forall n :: 1 <= n <= k && n in steps ==> steps[n].completedAt <= t)
            && (t == from || exists n :: 1 <= n <= k && n in steps && steps[n].completedAt == t)
  {
    if k > 0 {
      LatestIs(from, steps, k - 1);
    }
  }
}
