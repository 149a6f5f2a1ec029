/**
  The lock-free inspector: it reads the state, every step and the state again, each at its
  own instant of a run, and its answer is what one single instant of the call would show.
 */
module RetainedInspector {
  import opened Options
  import opened RetainedProtocol
  import opened RetainedTheorems

  datatype Failure = NotExist | InvalidArtifact | SnapshotChanged

  datatype ReadResult = Fails(reason: Failure) | Reads(state: State)

  const ATTEMPTS := 3

  /** The disk at every instant: consistent, and only moving forward. */
  ghost predicate History(task: Task, disks: seq<Disk>)
  {
    && (forall i :: 0 <= i < |disks| ==> Consistent(task, disks[i]))
    && (forall i, j :: 0 <= i <= j < |disks| ==> Follows(disks[i], disks[j]))
  }

  function Disks(run: seq<World>): seq<Disk>
  {
    seq(|run|, i requires 0 <= i < |run| => run[i].disk)
  }

  /** Every run of the protocol is such a history. */
  lemma RunHistory(task: Task, run: seq<World>)
    requires ValidTask(task) && IsRun(task, run)
    ensures History(task, Disks(run))
  {
    hide IsRun, Follows, Consistent;
    forall i | 0 <= i < |run| ensures Consistent(task, Disks(run)[i]) {
      RunSound(task, run, i);
    }
    forall i, j | 0 <= i <= j < |run| ensures Follows(Disks(run)[i], Disks(run)[j]) {
      RunFollows(task, run, i, j);
    }
  }

  /** The instants of the reads of one call, in order. */
  predicate Schedule(times: seq<nat>, instants: nat)
  {
    && (forall k :: 0 <= k < |times| ==> times[k] < instants)
    && (forall k, l :: 0 <= k <= l < |times| ==> times[k] <= times[l])
  }

  /** The answer is what the disk showed at some instant between `lo` and `hi`. */
  ghost predicate ShownBetween(task: Task, disks: seq<Disk>, lo: nat, hi: nat, s: State)
  {
    exists p :: lo <= p <= hi < |disks| && disks[p].state.Some? && s == Snapshot(task, disks[p])
  }

  predicate AcceptableStep(task: Task, s: State, n: nat, previous: nat, step: StepFile)
  {
    && step.identity == task.identity && 1 <= step.segment <= s.segment && previous <= step.segment
    && step.step == n && step.payload == DONE && step.count == 1
  }

  // ---------------------------------------------------------------- the scan

  /** What the scan has gathered from steps 1 to `n`, the last read on disk `d`. */
  datatype Scan = Scan(count: nat, previous: nat, gap: bool, updatedAt: nat)

  /** While the state stays `s`: every step it counts has been found, and of the others those on disk `shown`. */
  predicate Scanned(s: State, d: Disk, n: nat, shown: Disk, scan: Scan)
  {
    && scan.count <= n
    && (if n <= s.completed then scan.count == n && !scan.gap && shown == d else scan.count == |shown.steps|)
    && scan.previous == SegmentOf(d.steps, scan.count)
    && scan.updatedAt == Latest(s.updatedAt, d.steps, scan.count)
  }

  function SegmentOf(steps: map<nat, StepFile>, n: nat): nat
  {
    if n > 0 && n in steps then steps[n].segment else 0
  }

  function Found(scan: Scan, n: nat, step: StepFile): Scan
  {
    Scan(n, step.segment, scan.gap, if step.completedAt > scan.updatedAt then step.completedAt else scan.updatedAt)
  }

  lemma {:induction false} LatestSame(from: nat, steps: map<nat, StepFile>, more: map<nat, StepFile>, k: nat)
    requires forall n :: 1 <= n <= k ==> n in steps && n in more && steps[n] == more[n]
    ensures Latest(from, steps, k) == Latest(from, more, k)
  {
    if k > 0 {
      LatestSame(from, steps, more, k - 1);
    }
  }

  lemma ScanStart(s: State, d: Disk)
    ensures Scanned(s, d, 0, d, Scan(0, 0, false, s.updatedAt))
  {
  }

  /** A step absent on a disk where the state is unchanged is none of those the state counts. */
  lemma ScanAbsent(task: Task, s: State, d: Disk, e: Disk, n: nat, shown: Disk, scan: Scan)
    requires Consistent(task, d) && Consistent(task, e) && Follows(d, e) && d.state == e.state == Some(s)
    requires Scanned(s, d, n, shown, scan) && n + 1 !in e.steps && scan.count <= |d.steps|
    ensures n >= s.completed
    ensures Scanned(s, e, n + 1, if n == s.completed then e else shown, scan.(gap := true))
    ensures scan.count <= |e.steps|
  {
    hide GenuineStep, ValidState;
    LatestSame(s.updatedAt, d.steps, e.steps, scan.count);
    hide Latest;
  }

  /** A step present there is acceptable, and only the first the state does not count can be one more. */
  lemma ScanPresent(task: Task, s: State, d: Disk, e: Disk, n: nat, shown: Disk, scan: Scan)
    requires Consistent(task, d) && Consistent(task, e) && Follows(d, e) && d.state == e.state == Some(s)
    requires Scanned(s, d, n, shown, scan) && n + 1 in e.steps
    ensures n <= s.completed && !scan.gap && AcceptableStep(task, s, n + 1, scan.previous, e.steps[n + 1])
    ensures Scanned(s, e, n + 1, e, Found(scan, n + 1, e.steps[n + 1])) && n + 1 <= |e.steps|
  {
    PresentFacts(task, s, d, e, n);
    hide Consistent, Follows;
    ScanFound(task, s, d, e, n, shown, scan);
  }

  lemma ScanFound(task: Task, s: State, d: Disk, e: Disk, n: nat, shown: Disk, scan: Scan)
    requires Scanned(s, d, n, shown, scan) && n <= s.completed && n + 1 in e.steps
    requires forall m :: 1 <= m <= n ==> m in d.steps && m in e.steps && d.steps[m] == e.steps[m]
    requires GenuineStep(task, n + 1, e.steps[n + 1]) && e.steps[n + 1].segment <= s.segment
    requires n + 1 <= |e.steps| && (n == s.completed ==> |e.steps| == n + 1)
    requires n > 0 ==> e.steps[n].segment <= e.steps[n + 1].segment
    ensures !scan.gap && AcceptableStep(task, s, n + 1, scan.previous, e.steps[n + 1])
    ensures Scanned(s, e, n + 1, e, Found(scan, n + 1, e.steps[n + 1]))
  {
    LatestSame(s.updatedAt, d.steps, e.steps, n);
  }

  lemma PresentFacts(task: Task, s: State, d: Disk, e: Disk, n: nat)
    requires Consistent(task, d) && Consistent(task, e) && Follows(d, e) && d.state == e.state == Some(s)
    requires n + 1 in e.steps
    ensures n <= s.completed && n + 1 <= |e.steps| && (n == s.completed ==> |e.steps| == n + 1)
    ensures forall m :: 1 <= m <= n ==> m in d.steps && m in e.steps && d.steps[m] == e.steps[m]
    ensures GenuineStep(task, n + 1, e.steps[n + 1]) && e.steps[n + 1].segment <= s.segment
    ensures n > 0 ==> n in e.steps && e.steps[n].segment <= e.steps[n + 1].segment
  {
    hide ValidState, GenuineStep;
  }

  /** One step read at instant `u`, if the state there is still the one read at `lo`. */
  lemma ReadMeans(task: Task, disks: seq<Disk>, s: State, lo: nat, t: nat, u: nat, n: nat, shown: nat, scan: Scan)
    requires History(task, disks) && lo <= t <= u < |disks| && shown < |disks|
    requires disks[lo].state == disks[u].state == Some(s)
    ensures disks[t].state == Some(s)
    ensures Scanned(s, disks[t], n, disks[shown], scan) && scan.count <= |disks[t].steps| ==>
              var e := disks[u];
              if n + 1 in e.steps then
                && n <= s.completed && !scan.gap && AcceptableStep(task, s, n + 1, scan.previous, e.steps[n + 1])
                && Scanned(s, e, n + 1, e, Found(scan, n + 1, e.steps[n + 1])) && n + 1 <= |e.steps|
              else
                && n >= s.completed && scan.count <= |e.steps|
                && Scanned(s, e, n + 1, if n == s.completed then e else disks[shown], scan.(gap := true))
  {
    var d, e := disks[t], disks[u];
    assert Consistent(task, d) && Consistent(task, e) && Follows(disks[lo], d) && Follows(d, e);
    NoReturn(disks[lo], d, e);
    hide Consistent, Follows, Scanned;
    if Scanned(s, d, n, disks[shown], scan) && scan.count <= |d.steps| {
      if n + 1 in e.steps {
        ScanPresent(task, s, d, e, n, disks[shown], scan);
      } else {
        ScanAbsent(task, s, d, e, n, disks[shown], scan);
      }
    }
  }

  function Answer(task: Task, s: State, scan: Scan): State
  {
    s.(completed := scan.count, updatedAt := scan.updatedAt,
       status := if scan.count == task.total then Completed else s.status)
  }

  /** A full scan with an unchanged state before and after it is what the disk showed at `shown`. */
  lemma AnswerShown(task: Task, disks: seq<Disk>, s: State, lo: nat, t: nat, u: nat, shown: nat, scan: Scan)
    requires History(task, disks) && lo <= shown <= t <= u < |disks|
    requires disks[lo].state == disks[u].state == Some(s)
    ensures disks[t].state == Some(s)
    ensures Scanned(s, disks[t], task.total, disks[shown], scan) ==>
              s.completed <= scan.count && ShownBetween(task, disks, lo, u, Answer(task, s, scan))
  {
    var d, e := disks[t], disks[shown];
    assert Consistent(task, d) && Consistent(task, e) && Follows(disks[lo], e) && Follows(e, d) && Follows(d, disks[u]);
    assert Follows(disks[lo], d) && Follows(e, disks[u]);
    NoReturn(disks[lo], d, disks[u]);
    NoReturn(disks[lo], e, disks[u]);
    hide Consistent, Follows, Scanned, History, Snapshot;
    if Scanned(s, d, task.total, e, scan) {
      AnswerIsSnapshot(task, s, d, e, scan);
    }
  }

  lemma AnswerIsSnapshot(task: Task, s: State, d: Disk, e: Disk, scan: Scan)
    requires Consistent(task, d) && Consistent(task, e) && Follows(e, d) && d.state == e.state == Some(s)
    requires Scanned(s, d, task.total, e, scan)
    ensures s.completed <= scan.count && Answer(task, s, scan) == Snapshot(task, e)
  {
    hide ValidState, GenuineStep;
    assert scan.count == |e.steps|;
    LatestSame(s.updatedAt, e.steps, d.steps, scan.count);
  }

  lemma StateValid(task: Task, disks: seq<Disk>, i: nat)
    requires History(task, disks) && i < |disks| && disks[i].state.Some?
    ensures ValidState(task, disks[i].state.value)
  {
    assert Consistent(task, disks[i]);
  }

  // ---------------------------------------------------------------- a disk that does not change

  /** The scan of steps 1 to `n` of one disk, unless a step is not acceptable. */
  function Scanning(task: Task, s: State, steps: map<nat, StepFile>, n: nat): Option<Scan>
  {
    if n == 0 then Some(Scan(0, 0, false, s.updatedAt))
    else
      match Scanning(task, s, steps, n - 1)
      case None => None
      case Some(scan) =>
        if n !in steps then Some(scan.(gap := true))
        else if scan.gap || !AcceptableStep(task, s, n, scan.previous, steps[n]) then None
        else Some(Found(scan, n, steps[n]))
  }

  /** What is read of one disk. */
  function Inspect(task: Task, d: Disk): ReadResult
  {
    match d.state
    case None => Fails(NotExist)
    case Some(s) =>
      if !ValidState(task, s) then Fails(InvalidArtifact)
      else
        match Scanning(task, s, d.steps, task.total)
        case None => Fails(InvalidArtifact)
        case Some(scan) => if s.completed > scan.count then Fails(InvalidArtifact) else Reads(Answer(task, s, scan))
  }

  /** Of the first `n` steps exactly the first `k` are there, genuine, in segments that go up to the state's. */
  predicate StepsIntact(task: Task, s: State, steps: map<nat, StepFile>, n: nat, k: nat)
  {
    && k <= n
    && (forall m :: 1 <= m <= n ==> (m in steps <==> m <= k))
    && forall m :: 1 <= m <= k ==> m in steps && GenuineStep(task, m, steps[m]) && steps[m].segment <= s.segment
                                   && (m > 1 && m - 1 in steps ==> steps[m - 1].segment <= steps[m].segment)
  }

  ghost predicate Intact(task: Task, d: Disk)
  {
    && d.state.Some? && ValidState(task, d.state.value)
    && exists k :: d.state.value.completed <= k && StepsIntact(task, d.state.value, d.steps, task.total, k)
  }

  /** One step more is intact: the next one of those that are there, or none of them. */
  lemma IntactMore(task: Task, s: State, steps: map<nat, StepFile>, n: nat, k: nat)
    ensures StepsIntact(task, s, steps, n + 1, k) <==>
            if n + 1 in steps then
              k == n + 1 && StepsIntact(task, s, steps, n, n)
                && AcceptableStep(task, s, n + 1, SegmentOf(steps, n), steps[n + 1])
            else k <= n && StepsIntact(task, s, steps, n, k)
  {
    if StepsIntact(task, s, steps, n + 1, k) {
      assert n + 1 in steps <==> n + 1 <= k;
      assert n > 0 ==> (n in steps <==> n <= k);
    }
    if n + 1 in steps && StepsIntact(task, s, steps, n, n) {
      assert n > 0 ==> n in steps;
    }
  }

  lemma {:induction false} ScanningMeans(task: Task, s: State, steps: map<nat, StepFile>, n: nat)
    ensures match Scanning(task, s, steps, n)
            case None => forall k :: !StepsIntact(task, s, steps, n, k)
            case Some(scan) =>
              && StepsIntact(task, s, steps, n, scan.count) && (scan.gap <==> scan.count < n)
              && scan.previous == SegmentOf(steps, scan.count)
              && scan.updatedAt == Latest(s.updatedAt, steps, scan.count)
  {
    if n > 0 {
      hide StepsIntact, AcceptableStep, Latest;
      ScanningMeans(task, s, steps, n - 1);
      LatestNext(s.updatedAt, steps, n);
      forall k: nat ensures StepsIntact(task, s, steps, n, k) <==>
          if n in steps then
            && k == n && StepsIntact(task, s, steps, n - 1, n - 1)
            && AcceptableStep(task, s, n, SegmentOf(steps, n - 1), steps[n])
          else k <= n - 1 && StepsIntact(task, s, steps, n - 1, k) {
        IntactMore(task, s, steps, n - 1, k);
      }
      var before := Scanning(task, s, steps, n - 1);
      if before.Some? {
        IntactWithin(task, s, steps, n - 1, before.value.count);
        if StepsIntact(task, s, steps, n - 1, n - 1) {
          OneCount(task, s, steps, n - 1, n - 1, before.value.count);
        }
      }
    }
  }

  lemma LatestNext(from: nat, steps: map<nat, StepFile>, k: nat)
    requires k > 0
    ensures Latest(from, steps, k) ==
            var before := Latest(from, steps, k - 1);
            if k in steps && steps[k].completedAt > before then steps[k].completedAt else before
  {
  }

  lemma IntactWithin(task: Task, s: State, steps: map<nat, StepFile>, n: nat, k: nat)
    requires StepsIntact(task, s, steps, n, k)
    ensures k <= n
  {
  }

  lemma {:induction false} ScanningRefused(task: Task, s: State, steps: map<nat, StepFile>, n: nat, m: nat)
    requires n <= m && Scanning(task, s, steps, n).None?
    ensures Scanning(task, s, steps, m).None?
    decreases m
  {
    hide AcceptableStep;
    if n < m {
      ScanningRefused(task, s, steps, n, m - 1);
    }
  }

  /**
    Of a disk that does not change, whatever is on it: damage is reported exactly if state or
    steps are not intact, and else the answer is the state with the steps that are there.
   */
  lemma InspectIff(task: Task, d: Disk)
    ensures var r := Inspect(task, d);
            && (r == Fails(NotExist) <==> d.state.None?)
            && (r == Fails(InvalidArtifact) <==> d.state.Some? && !Intact(task, d))
            && (r.Reads? <==> Intact(task, d))
            && (r.Reads? ==>
                  var s, t := d.state.value, r.state;
                  && StepsIntact(task, s, d.steps, task.total, t.completed) && s.completed <= t.completed
                  && t == s.(completed := t.completed, updatedAt := Latest(s.updatedAt, d.steps, t.completed),
                             status := if t.completed == task.total then Completed else s.status))
  {
    if d.state.Some? {
      var s := d.state.value;
      ScanningMeans(task, s, d.steps, task.total);
      var scan := Scanning(task, s, d.steps, task.total);
      forall k | scan.Some? && StepsIntact(task, s, d.steps, task.total, k) ensures k == scan.value.count {
        OneCount(task, s, d.steps, task.total, k, scan.value.count);
      }
      hide StepsIntact, Scanning, ValidState, Latest;
    }
  }

  lemma OneCount(task: Task, s: State, steps: map<nat, StepFile>, n: nat, j: nat, k: nat)
    requires StepsIntact(task, s, steps, n, j) && StepsIntact(task, s, steps, n, k)
    ensures j == k
  {
    assert j < k ==> (j + 1 in steps <==> j + 1 <= j);
    assert k < j ==> (k + 1 in steps <==> k + 1 <= k);
  }

  lemma InspectEarly(task: Task, d: Disk)
    ensures d.state.None? ==> Inspect(task, d) == Fails(NotExist)
    ensures d.state.Some? && !ValidState(task, d.state.value) ==> Inspect(task, d) == Fails(InvalidArtifact)
  {
  }

  lemma InspectLate(task: Task, d: Disk, refused: bool, scan: Scan)
    requires d.state.Some? && ValidState(task, d.state.value)
    requires Scanning(task, d.state.value, d.steps, task.total) == if refused then None else Some(scan)
    ensures Inspect(task, d) ==
            if refused || d.state.value.completed > scan.count then Fails(InvalidArtifact)
            else Reads(Answer(task, d.state.value, scan))
  {
    hide Scanning, ValidState;
  }

  /** Every read of the call sees this disk, and no file is replaced under it. */
  ghost predicate Still(disks: seq<Disk>, times: seq<nat>, replaced: seq<bool>, d: Disk)
    requires |times| == |replaced| && Schedule(times, |disks|)
  {
    forall k :: 0 <= k < |times| ==> disks[times[k]] == d && !replaced[k]
  }

  // ---------------------------------------------------------------- the call

  /** Reads done at `times[from]` to `times[used - 1]`; without an answer the call starts over. */
  ghost predicate AttemptMeans(task: Task, disks: seq<Disk>, times: seq<nat>, replaced: seq<bool>,
                               from: nat, used: nat, r: Option<ReadResult>)
    requires from < used <= |times| == |replaced| && Schedule(times, |disks|)
  {
    match r
    case None =>
      || (exists k :: from <= k < used && replaced[k])
      || disks[times[from]].state != disks[times[used - 1]].state
    case Some(Fails(reason)) => reason == NotExist && disks[times[from]].state.None?
    case Some(Reads(s)) => ShownBetween(task, disks, times[from], times[used - 1], s)
  }

  /** One turn of the inspector: state, steps, state again. */
  method ReadOnce(task: Task, disks: seq<Disk>, times: seq<nat>, replaced: seq<bool>, from: nat)
    returns (r: Option<ReadResult>, used: nat)
    requires ValidTask(task) && Schedule(times, |disks|)
    requires |times| == |replaced| && from + task.total + 2 <= |times|
    ensures from < used <= from + task.total + 2
    ensures History(task, disks) ==> AttemptMeans(task, disks, times, replaced, from, used, r)
    ensures forall d :: Still(disks, times, replaced, d) ==> r == Some(Inspect(task, d))
  {
    hide History, Latest, Scanned, ShownBetween, ValidState, AcceptableStep, Inspect;
    ghost var now := disks[times[from]];
    assert forall d :: Still(disks, times, replaced, d) ==> d == now;
    ghost var still := Still(disks, times, replaced, now);
    InspectEarly(task, now);
    used := from + 1;
    if replaced[from] {
      return None, used;
    }
    ghost var lo := times[from];
    var first := disks[times[from]].state;
    if first.None? {
      return Some(Fails(NotExist)), used;
    }
    var original := first.value;
    if History(task, disks) {
      StateValid(task, disks, lo);
    }
    if !ValidState(task, original) {
      return Some(Fails(InvalidArtifact)), used;
    }
    var scan, n, refused := Scan(0, 0, false, original.updatedAt), 0, false;
    ghost var shown, t := lo, lo;
    ScanStart(original, disks[lo]);
    while n < task.total && !refused
      invariant n <= task.total && used == from + 1 + n && t == times[used - 1]
      invariant lo <= shown <= t
      invariant History(task, disks) && disks[t].state == first ==>
          !refused && Scanned(original, disks[t], n, disks[shown], scan) && scan.count <= |disks[t].steps|
      invariant still ==> Scanning(task, original, now.steps, n) == if refused then None else Some(scan)
      decreases task.total - n, if refused then 0 else 1
    {
      ghost var u, settled := times[used], n <= original.completed;
      if History(task, disks) && disks[u].state == first {
        ReadMeans(task, disks, original, lo, t, u, n, shown, scan);
      }
      var steps := disks[times[used]].steps;
      n, used := n + 1, used + 1;
      if n !in steps {
        scan := scan.(gap := true);
      } else if scan.gap || !AcceptableStep(task, original, n, scan.previous, steps[n]) {
        refused := true;
      } else {
        scan := Found(scan, n, steps[n]);
      }
      shown, t := if settled then u else shown, u;
    }
    if still {
      if refused {
        ScanningRefused(task, original, now.steps, n, task.total);
      }
      InspectLate(task, now, refused, scan);
    }
    used := used + 1;
    ghost var u := times[used - 1];
    var after := disks[times[used - 1]].state;
    if History(task, disks) && after == first {
      AnswerShown(task, disks, original, lo, t, u, shown, scan);
    }
    if replaced[used - 1] || after != first {
      return None, used;
    }
    if refused || original.completed > scan.count {
      return Some(Fails(InvalidArtifact)), used;
    }
    return Some(Reads(Answer(task, original, scan))), used;
  }

  /** Whether a call that gave up was disturbed each time: a state replaced under a read, or a state that changed. */
  ghost predicate Disturbed(disks: seq<Disk>, times: seq<nat>, replaced: seq<bool>, from: nat, used: nat)
    requires from <= used <= |times| == |replaced| && Schedule(times, |disks|)
  {
    || (exists k :: from <= k < used && replaced[k])
    || exists k, l :: from <= k < l < used && disks[times[k]].state != disks[times[l]].state
  }

  /**
    The inspector: up to three attempts.  On any history it never reports an invalid
    artifact; an answer is the whole snapshot of one instant between the first and the last
    of the `used` reads that the call did, its count the number of steps published then; and
    it gives up only if it was disturbed.
   */
  method ReadState(task: Task, disks: seq<Disk>, times: seq<nat>, replaced: seq<bool>)
    returns (r: ReadResult, used: nat)
    requires ValidTask(task) && Schedule(times, |disks|)
    requires |times| == |replaced| == ATTEMPTS * (task.total + 2)
    ensures 0 < used <= |times|
    ensures History(task, disks) ==>
              && r != Fails(InvalidArtifact)
              && (r == Fails(NotExist) ==> disks[times[0]].state.None?)
              && (r == Fails(SnapshotChanged) ==> Disturbed(disks, times, replaced, 0, used))
              && (r.Reads? ==> ShownBetween(task, disks, times[0], times[used - 1], r.state))
    ensures forall d :: Still(disks, times, replaced, d) ==> r == Inspect(task, d)
  {
    hide History, ShownBetween, Still, Inspect;
    var attempt := 0;
    used := 0;
    while attempt < ATTEMPTS
      invariant attempt <= used <= attempt * (task.total + 2) && attempt <= ATTEMPTS
      invariant History(task, disks) && attempt > 0 ==> Disturbed(disks, times, replaced, 0, used)
      invariant attempt > 0 ==> forall d :: !Still(disks, times, replaced, d)
    {
      var from := used;
      var once;
      once, used := ReadOnce(task, disks, times, replaced, from);
      if once.Some? {
        if History(task, disks) {
          Answered(task, disks, times, replaced, from, used, once);
        }
        return once.value, used;
      }
      attempt := attempt + 1;
    }
    return Fails(SnapshotChanged), used;
  }

  lemma Answered(task: Task, disks: seq<Disk>, times: seq<nat>, replaced: seq<bool>,
                 from: nat, used: nat, r: Option<ReadResult>)
    requires from < used <= |times| == |replaced| && Schedule(times, |disks|) && History(task, disks)
    requires AttemptMeans(task, disks, times, replaced, from, used, r) && r.Some?
    ensures match r.value
            case Fails(reason) => reason == NotExist && disks[times[0]].state.None?
            case Reads(s) => ShownBetween(task, disks, times[0], times[used - 1], s)
  {
    assert Follows(disks[times[0]], disks[times[from]]);
  }

  /** Under the lock nothing moves: the read a resume starts from is exactly the snapshot. */
  method ReadUnderLock(task: Task, d: Disk) returns (r: ReadResult)
    requires ValidTask(task)
    ensures Consistent(task, d) ==> r == if d.state.None? then Fails(NotExist) else Reads(Snapshot(task, d))
    ensures r == Inspect(task, d)
  {
    var n := ATTEMPTS * (task.total + 2);
    var times, replaced := seq(n, _ => 0), seq(n, _ => false);
    var used;
    r, used := ReadState(task, [d], times, replaced);
    FollowsItself(d);
    hide Consistent, Follows, Snapshot, Inspect;
    assert Still([d], times, replaced, d);
    assert [d][0] == d && times[0] == times[used - 1] == 0;
    assert Consistent(task, d) ==> History(task, [d]);
    assert |times| == n && !Disturbed([d], times, replaced, 0, used);
    if Consistent(task, d) && r.Reads? {
      assert ShownBetween(task, [d], 0, 0, r.state);
      assert d.state.Some? && r.state == Snapshot(task, d);
    }
    assert Consistent(task, d) && r.Fails? ==> r.reason == NotExist;
  }
}
