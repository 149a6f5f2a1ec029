/**
  The server's upgrade and the client's initialize request: a ready session need not have
  seen them in that order, and exactly when it has.
 */
module OwnerOrder {
  import opened Options
  import opened GateSpec
  import opened ObserverSpec
  import opened ObserverEvidence
  import opened OwnerReadiness

  predicate AsksInitialize(e: Event)
  {
    e.RpcEvent? && e.direction.Client? && KindOf(e.name).Initialize?
  }

  // ---------------------------------------------------------------- the exact condition

  lemma FollowUpgradesExactly(l: Lease, s: Session, e: Event, d: Direction)
    ensures d in Follow(l, s, e).upgrades <==> d in s.upgrades || e == Upgraded(d)
  {
    hide Advance, Home, IsHome, IsTurn;
  }

  /** The upgrades a session has seen are exactly those recorded. */
  lemma {:induction false} UpgradesExact(l: Lease, events: seq<Record>, d: Direction)
    ensures d in FollowAll(l, Opened(true), events).upgrades <==> UpgradedBefore(events, d, |events|)
    decreases |events|
  {
    hide Follow;
    if events != [] {
      var init, last := events[..|events| - 1], events[|events| - 1];
      UpgradesExact(l, init, d);
      FollowUpgradesExactly(l, FollowAll(l, Opened(true), init), last.event, d);
      assert forall k :: 0 <= k < |init| ==> init[k] == events[k];
    }
  }

  lemma ClientInitialize(l: Lease, s: Progress, id: Option<Id>, name: string, detail: string)
    ensures var r := ClientRequest(l, s, id, name, detail);
            && (s.initializeSeen ==> r.initializeSeen)
            && (KindOf(name).Initialize? && r.valid ==> !s.initializeSeen && r.initializeSeen)
  {
    hide KindOf;
    match KindOf(name)
    case Initialize =>
    case InitializedNote =>
    case ThreadResume =>
    case SkillsList =>
    case ThreadStart =>
    case _ =>
  }

  lemma ResponseInitialize(l: Lease, s: Progress, e: Event)
    requires e.RpcResponse?
    ensures s.initializeSeen ==> RpcRow(l, s, e).initializeSeen
  {
    hide KindOf;
    match KindOf(e.name)
    case ThreadResume =>
    case SkillsList =>
    case ThreadStart =>
    case _ =>
  }

  lemma AdvanceInitialize(l: Lease, s: Progress, e: Event)
    ensures s.initializeSeen ==> Advance(l, s, e).initializeSeen
    ensures AsksInitialize(e) && Advance(l, s, e).valid ==> !s.initializeSeen && Advance(l, s, e).initializeSeen
  {
    hide KindOf, ClientRequest, ResumeResponse, SkillsResponse, StartResponse;
    if e.RpcEvent? && e.direction.Client? {
      ClientInitialize(l, s, e.id, e.name, e.detail);
    } else if e.RpcResponse? {
      ResponseInitialize(l, s, e);
    }
  }

  /** A second initialize request ends the session. */
  lemma InitializeOnce(l: Lease, s: Session, e: Event)
    requires Follow(l, s, e).progress.valid
    ensures s.progress.valid && (AsksInitialize(e) ==> !s.progress.initializeSeen)
  {
    hide Advance, KindOf, IsHome, IsTurn;
    if !s.progress.valid {
      InvalidStays(l, s, e);
    }
    AdvanceInitialize(l, s.progress, e);
  }

  lemma InitializeKept(l: Lease, s: Session, e: Event)
    requires Follow(l, s, e).progress.valid && (AsksInitialize(e) || s.progress.initializeSeen)
    ensures Follow(l, s, e).progress.initializeSeen
  {
    hide Advance, KindOf, IsHome, IsTurn;
    AdvanceInitialize(l, s.progress, e);
  }

  lemma {:induction false} OneInitialize(l: Lease, events: seq<Record>, i: nat, j: nat)
    requires i <= j < |events| && AsksInitialize(events[i].event) && AsksInitialize(events[j].event)
    requires FollowAll(l, Opened(true), events).progress.valid
    ensures i == j && FollowAll(l, Opened(true), events).progress.initializeSeen
    decreases |events|
  {
    hide Follow, AsksInitialize;
    var init, last := events[..|events| - 1], events[|events| - 1];
    var before := FollowAll(l, Opened(true), init);
    InitializeOnce(l, before, last.event);
    assert forall k :: 0 <= k < |init| ==> init[k] == events[k];
    if j < |init| {
      OneInitialize(l, init, i, j);
    } else if i < |init| {
      OneInitialize(l, init, i, i);
    }
    InitializeKept(l, before, last.event);
  }

  /**
    A ready session has exactly one initialize request, and both upgrades before it exactly
    if the session that followed it had the server's among the upgrades it had seen.
   */
  lemma BothUpgradesFirstIff(l: Lease, events: seq<Record>, k: nat)
    requires AllFounded(events) && Ready(FollowAll(l, Opened(true), events))
    requires k < |events| && AsksInitialize(events[k].event)
    ensures forall j :: 0 <= j < |events| && AsksInitialize(events[j].event) ==> j == k
    ensures UpgradedBefore(events, Client, k) && UpgradedBefore(events, Server, k) <==>
            Server in FollowAll(l, Opened(true), events[..k]).upgrades
  {
    assert Founded(events, events[k].event, k);
    UpgradesExact(l, events[..k], Server);
    assert UpgradedBefore(events[..k], Server, k) <==> UpgradedBefore(events, Server, k) by {
      assert forall j :: 0 <= j < k ==> events[..k][j] == events[j];
    }
    hide AllFounded, AsksInitialize, FollowAll;
    forall j | 0 <= j < |events| && AsksInitialize(events[j].event) ensures j == k {
      if j < k {
        OneInitialize(l, events, j, k);
      } else {
        OneInitialize(l, events, k, j);
      }
    }
  }

  // ---------------------------------------------------------------- a ready session with initialize first

  /** A fresh-thread lease whose records all name the expected directory and one thread. */
  function AnyLease(): Lease
  {
    Lease(Some("/w"), None, (detail: string) => true, (thread: string) => true, (detail: string) => Some("/w"),
          (detail: string) => Some("t"), (detail: string) => Some("/w"))
  }

  /** The client does not wait for the answer to its upgrade before it initializes. */
  const PIPELINED: seq<Record> := [
    Record(1, Upgraded(Client)),
    Record(2, RpcEvent(Client, Some(Number(1)), "initialize", "")),
    Record(3, Upgraded(Server)),
    Record(4, RpcResponse(Server, Number(1), "initialize", true, "")),
    Record(5, RpcEvent(Client, None, "initialized", "")),
    Record(6, RpcEvent(Client, Some(Number(2)), "thread/start", "")),
    Record(7, RpcResponse(Server, Number(2), "thread/start", true, "")),
    Record(8, RpcEvent(Server, None, "thread/started", ""))]

  lemma FollowMore(l: Lease, events: seq<Record>, n: nat)
    requires n < |events|
    ensures FollowAll(l, Opened(true), events[..n + 1])
            == Follow(l, FollowAll(l, Opened(true), events[..n]), events[n].event)
  {
    assert events[..n + 1][..n] == events[..n];
  }

  lemma PipelinedFounded()
    ensures AllFounded(PIPELINED)
  {
    var events := PIPELINED;
    assert events[0].event == Upgraded(Client) && events[2].event == Upgraded(Server);
    assert IsRequest(events[1].event, Client, Number(1), "initialize");
    assert IsRequest(events[5].event, Client, Number(2), "thread/start");
  }

  /** The session after the first `n` of these records. */
  function PipelinedSession(n: nat): Session
  {
    var s := Opened(true);
    if n == 0 then s
    else
      var p := s.progress;
      var p2 := p.(initializeSeen := true);
      var p4 := p2.(homeMatch := Some(true));
      var p5 := p4.(initialized := true);
      var p6 := p5.(startRequest := Some(Number(2)), threadTouched := true);
      var p7 := p6.(thread := Some("t"));
      if n == 1 then s.(upgrades := {Client})
      else if n == 2 then s.(upgrades := {Client}, progress := p2, rows := 1)
      else
        var t := s.(upgrades := {Client, Server});
        if n == 3 then t.(progress := p2, rows := 1)
        else if n == 4 then t.(progress := p4, rows := 2)
        else if n == 5 then t.(progress := p5, rows := 3)
        else if n == 6 then t.(progress := p6, rows := 4)
        else if n == 7 then t.(progress := p7, rows := 5)
        else t.(progress := p7.(started := Some("t")), rows := 6)
  }

  /** What each of these records asks or answers; none is about a turn. */
  lemma PipelinedKinds()
    ensures KindOf("initialize").Initialize? && KindOf("initialized").InitializedNote?
    ensures KindOf("thread/start").ThreadStart? && KindOf("thread/started").ThreadStartedNote?
  {
  }

  const TURNS := ["turn/start", "turn/steer"]

  lemma NoTurnNames()
    ensures "initialize" !in TURNS && "initialized" !in TURNS && "thread/start" !in TURNS && "thread/started" !in TURNS
  {
    assert "initialize"[0] == 'i' && "initialized"[0] == 'i' && "thread/start"[1] == 'h' && "thread/started"[1] == 'h';
    assert forall name :: name in TURNS ==> name[0] == 't' && name[1] == 'u';
  }

  lemma PipelinedNoTurn(n: nat)
    requires n < 8
    ensures !IsTurn(PIPELINED[n].event, TURNS[0]) && !IsTurn(PIPELINED[n].event, TURNS[1])
  {
    NoTurnNames();
    var name := MethodOf(PIPELINED[n].event);
    assert name.Some? ==> name.value in ["initialize", "initialized", "thread/start", "thread/started"];
  }

  lemma PipelinedNext(n: nat)
    requires n < 8
    ensures Follow(AnyLease(), PipelinedSession(n), PIPELINED[n].event) == PipelinedSession(n + 1)
  {
    hide KindOf, IsTurn;
    PipelinedKinds();
    PipelinedNoTurn(n);
    if n < 4 {
      if n < 2 {
        assert n == 0 || n == 1;
      } else {
        assert n == 2 || n == 3;
      }
    } else if n < 6 {
      assert n == 4 || n == 5;
    } else {
      assert n == 6 || n == 7;
    }
  }

  lemma {:induction false} PipelinedRun(n: nat)
    requires n <= 8
    ensures FollowAll(AnyLease(), Opened(true), PIPELINED[..n]) == PipelinedSession(n)
  {
    hide Follow;
    if n > 0 {
      PipelinedRun(n - 1);
      FollowMore(AnyLease(), PIPELINED, n - 1);
      PipelinedNext(n - 1);
    }
  }

  lemma PipelinedReady()
    ensures Ready(FollowAll(AnyLease(), Opened(true), PIPELINED))
  {
    PipelinedRun(8);
    assert PIPELINED[..8] == PIPELINED;
    hide FollowAll;
  }

  /** Records an observer can make, a ready session, and an initialize request before the server's upgrade. */
  lemma InitializeMayComeFirst()
    ensures AllFounded(PIPELINED) && Ready(FollowAll(AnyLease(), Opened(true), PIPELINED)) && AnyLease().resume.None?
    ensures AsksInitialize(PIPELINED[1].event) && !UpgradedBefore(PIPELINED, Server, 1)
  {
    PipelinedFounded();
    PipelinedReady();
    hide FollowAll, Ready;
  }
}
