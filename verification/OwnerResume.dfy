/**
  Readiness for a lease that resumes a thread: what a ready session has seen instead of a
  thread/start.
 */
module OwnerResume {
  import opened Options
  import opened GateSpec
  import opened ObserverSpec
  import opened ObserverEvidence
  import opened OwnerReadiness

  predicate ResumeAsked(l: Lease, e: Event, id: Option<Id>)
  {
    e.RpcEvent? && e.direction.Client? && KindOf(e.name).ThreadResume? && e.id == id && l.threadOf(e.detail) == l.resume
  }

  predicate ResumeAccepted(l: Lease, e: Event, id: Id)
  {
    && e.RpcResponse? && e.direction.Server? && KindOf(e.name).ThreadResume? && e.ok && e.answers == id
    && l.threadOf(e.detail) == l.resume && l.threadCwdOf(e.detail) == l.cwd
  }

  predicate SkillsAsked(e: Event, id: Option<Id>)
  {
    e.RpcEvent? && e.direction.Client? && KindOf(e.name).SkillsList? && e.id == id
  }

  predicate SkillsAnswered(e: Event, id: Id)
  {
    e.RpcResponse? && e.direction.Server? && KindOf(e.name).SkillsList? && e.ok && e.answers == id
  }

  /** A skills/list asked after record `from`. */
  ghost predicate SkillsOpen(events: seq<Record>, from: nat, id: Option<Id>)
  {
    exists i :: from < i < |events| && SkillsAsked(events[i].event, id)
  }

  /** A skills/list asked after record `from`, and answered after that. */
  ghost predicate SkillsDone(events: seq<Record>, from: nat)
  {
    exists i, j, id :: from < i < j < |events| && SkillsAsked(events[i].event, Some(id))
      && SkillsAnswered(events[j].event, id)
  }

  /** What a valid session of a resuming lease remembers has happened, in this order. */
  ghost predicate SeenResume(l: Lease, events: seq<Record>, s: Progress, m: Milestones)
  {
    && s.startRequest.None? && (s.thread.Some? <==> s.resumed)
    && (s.homeMatch == Some(true) ==> m.home < |events| && HomeAccepted(l, events[m.home].event))
    && (s.initialized ==>
          s.homeMatch == Some(true) && m.home < m.initialized < |events| && Initialized(events[m.initialized].event))
    && (s.resumeRequest.Some? ==>
          s.initialized && m.initialized < m.asked < |events| && ResumeAsked(l, events[m.asked].event, s.resumeRequest))
    && (s.resumeRequest.Some? || s.resumed ==> s.threadTouched)
    && (s.resumed ==>
          && s.resumeRequest.Some? && m.asked < m.accepted < |events| && s.thread == l.resume && IsThread(l, l.resume)
          && ResumeAccepted(l, events[m.accepted].event, s.resumeRequest.value))
    && (s.started.Some? ==>
          && s.thread == s.started && m.accepted < m.announced < |events|
          && Announced(l, events[m.announced].event, s.thread.value))
    && (forall id :: id in s.skillsPending ==> s.resumed && SkillsOpen(events, m.accepted, id))
    && (s.barrier ==> s.resumed && SkillsDone(events, m.accepted))
  }

  function NextResume(s: Progress, e: Event, m: Milestones, n: nat): Milestones
  {
    Milestones(
      if s.homeMatch != Some(true) then n else m.home,
      if !s.initialized then n else m.initialized,
      if s.resumeRequest.None? then n else m.asked,
      if !s.resumed then n else m.accepted,
      if s.started.None? then n else m.announced)
  }

  lemma SkillsExtend(events: seq<Record>, r: Record, from: nat)
    ensures forall id :: SkillsOpen(events, from, id) ==> SkillsOpen(events + [r], from, id)
    ensures SkillsDone(events, from) ==> SkillsDone(events + [r], from)
  {
    var all := events + [r];
    assert forall k :: 0 <= k < |events| ==> all[k] == events[k];
    forall id | SkillsOpen(events, from, id) ensures SkillsOpen(all, from, id) {
      var i :| from < i < |events| && SkillsAsked(events[i].event, id);
      assert SkillsAsked(all[i].event, id);
    }
    if SkillsDone(events, from) {
      var i, j, id :| from < i < j < |events| && SkillsAsked(events[i].event, Some(id))
        && SkillsAnswered(events[j].event, id);
      assert SkillsAsked(all[i].event, Some(id)) && SkillsAnswered(all[j].event, id);
    }
  }

  lemma ResumeExtends(l: Lease, events: seq<Record>, r: Record, s: Progress, m: Milestones)
    requires SeenResume(l, events, s, m)
    ensures SeenResume(l, events + [r], s, m) && SeenResume(l, events + [r], s, NextResume(s, r.event, m, |events|))
  {
    hide SkillsOpen, SkillsDone, KindOf;
    SkillsExtend(events, r, m.accepted);
  }

  lemma SkillsAskedNow(events: seq<Record>, r: Record, from: nat, id: Option<Id>)
    requires SkillsAsked(r.event, id) && from < |events|
    ensures SkillsOpen(events + [r], from, id)
  {
    assert (events + [r])[|events|] == r;
  }

  lemma SkillsAnsweredNow(events: seq<Record>, r: Record, from: nat, id: Id)
    requires SkillsAnswered(r.event, id) && SkillsOpen(events, from, Some(id))
    ensures SkillsDone(events + [r], from)
  {
    var all := events + [r];
    var i :| from < i < |events| && SkillsAsked(events[i].event, Some(id));
    assert all[i] == events[i] && all[|events|] == r;
  }

  lemma ClientResumes(l: Lease, events: seq<Record>, r: Record, s: Progress, m: Milestones)
    requires SeenResume(l, events, s, m) && l.resume.Some? && r.event.RpcEvent? && r.event.direction.Client?
    ensures var e := r.event;
            var s' := ClientRequest(l, s, e.id, e.name, e.detail);
            s'.valid ==> SeenResume(l, events + [r], s', NextResume(s, e, m, |events|))
  {
    hide KindOf, SkillsOpen, SkillsDone;
    ResumeExtends(l, events, r, s, m);
    var all, e := events + [r], r.event;
    assert all[|events|] == r;
    match KindOf(e.name)
    case Initialize =>
    case InitializedNote =>
    case ThreadResume =>
    case SkillsList =>
      if s.resumed {
        SkillsAskedNow(events, r, m.accepted, e.id);
      }
    case ThreadStart =>
    case ThreadStartedNote =>
    case Other =>
  }

  lemma ResponseResumes(l: Lease, events: seq<Record>, r: Record, s: Progress, m: Milestones)
    requires SeenResume(l, events, s, m) && l.resume.Some? && r.event.RpcResponse?
    ensures var s' := RpcRow(l, s, r.event);
            s'.valid ==> SeenResume(l, events + [r], s', NextResume(s, r.event, m, |events|))
  {
    hide KindOf, SkillsOpen, SkillsDone;
    ResumeExtends(l, events, r, s, m);
    var all, e := events + [r], r.event;
    assert all[|events|] == r;
    match KindOf(e.name)
    case ThreadResume =>
    case SkillsList =>
      if s.resumed && Some(e.answers) in s.skillsPending && e.ok && e.direction.Server? {
        SkillsAnsweredNow(events, r, m.accepted, e.answers);
      }
    case ThreadStart =>
    case _ =>
  }

  lemma AnnounceResumes(l: Lease, events: seq<Record>, r: Record, s: Progress, m: Milestones)
    requires SeenResume(l, events, s, m) && r.event.RpcEvent? && r.event.direction.Server?
    requires KindOf(r.event.name).ThreadStartedNote?
    ensures var s' := ThreadStarted(l, s, r.event.direction, r.event.detail);
            s'.valid ==> SeenResume(l, events + [r], s', NextResume(s, r.event, m, |events|))
  {
    hide KindOf, SkillsOpen, SkillsDone;
    ResumeExtends(l, events, r, s, m);
    assert (events + [r])[|events|] == r;
  }

  lemma RowResumes(l: Lease, events: seq<Record>, r: Record, s: Progress, m: Milestones)
    requires SeenResume(l, events, s, m) && l.resume.Some?
    ensures var s' := Advance(l, s, r.event);
            s'.valid ==> SeenResume(l, events + [r], s', NextResume(s, r.event, m, |events|))
  {
    var e := r.event;
    ResumeExtends(l, events, r, s, m);
    if e.RpcResponse? {
      ResponseResumes(l, events, r, s, m);
      if IsHome(e) && RpcRow(l, s, e).valid {
        HomeLeaves(l, s, e);
        HomeResumes(l, events, r, RpcRow(l, s, e), NextResume(s, e, m, |events|));
      }
    } else if e.RpcEvent? && e.direction.Client? {
      ClientResumes(l, events, r, s, m);
    } else if e.RpcEvent? && KindOf(e.name).ThreadStartedNote? {
      AnnounceResumes(l, events, r, s, m);
    }
    hide SeenResume, KindOf, ClientRequest, ThreadStarted, ResumeResponse, SkillsResponse, StartResponse,
      NextResume, Home;
  }

  lemma HomeResumes(l: Lease, events: seq<Record>, r: Record, s: Progress, m: Milestones)
    requires IsHome(r.event) && SeenResume(l, events + [r], s, m) && (s.homeMatch != Some(true) ==> m.home == |events|)
    ensures var s' := Home(l, s, r.event); s'.valid ==> SeenResume(l, events + [r], s', m)
  {
    hide KindOf, IsTurn, SkillsOpen, SkillsDone;
    assert (events + [r])[|events|] == r;
  }

  lemma FollowResumes(l: Lease, events: seq<Record>, r: Record, s: Session, m: Milestones)
    requires SeenResume(l, events, s.progress, m) && l.resume.Some?
    ensures var s' := Follow(l, s, r.event);
            s'.progress.valid ==> SeenResume(l, events + [r], s'.progress, NextResume(s.progress, r.event, m, |events|))
  {
    hide Advance, Counted, IsHome, SeenResume, NextResume;
    ResumeExtends(l, events, r, s.progress, m);
    if IsRow(r.event) {
      RowResumes(l, events, r, s.progress, m);
    }
  }

  lemma {:induction false} SessionResumes(l: Lease, events: seq<Record>) returns (m: Milestones)
    requires l.resume.Some?
    ensures var s := FollowAll(l, Opened(true), events);
            s.progress.valid ==> SeenResume(l, events, s.progress, m) && Quiet(events, s) && Upgrades(events, s)
    decreases |events|
  {
    hide Follow, SeenResume, Quiet, Upgrades, NextResume;
    m := Milestones(0, 0, 0, 0, 0);
    if events == [] {
      NothingResumed(l, m);
    } else {
      var init, r := events[..|events| - 1], events[|events| - 1];
      var before := FollowAll(l, Opened(true), init);
      m := SessionResumes(l, init);
      assert init + [r] == events;
      if before.progress.valid {
        FollowResumes(l, init, r, before, m);
        FollowQuiet(l, init, r, before);
        FollowUpgrades(l, init, r, before);
      } else {
        InvalidStays(l, before, r.event);
      }
      m := NextResume(before.progress, r.event, m, |init|);
    }
  }

  lemma NothingResumed(l: Lease, m: Milestones)
    ensures SeenResume(l, [], Opened(true).progress, m) && Quiet([], Opened(true)) && Upgrades([], Opened(true))
  {
  }

  /**
    The handshake of a resumed thread: as for a new one up to initialized, then
    thread/resume of the expected thread and its response, then thread/started or a
    skills/list that was answered.
   */
  ghost predicate Resumption(l: Lease, events: seq<Record>, clientUp: nat, serverUp: nat, asked: nat, m: Milestones,
                             id: Id)
  {
    && clientUp < asked < m.home < m.initialized < m.asked < m.accepted < |events| && serverUp < m.home
    && events[clientUp].event == Upgraded(Client) && events[serverUp].event == Upgraded(Server)
    && HomeAccepted(l, events[m.home].event)
    && IsRequest(events[asked].event, Client, events[m.home].event.answers, "initialize")
    && Initialized(events[m.initialized].event)
    && ResumeAsked(l, events[m.asked].event, Some(id))
    && IsThread(l, l.resume) && ResumeAccepted(l, events[m.accepted].event, id)
    && ((m.accepted < m.announced < |events| && Announced(l, events[m.announced].event, l.resume.value))
        || SkillsDone(events, m.accepted))
    && forall k :: 0 <= k < |events| ==>
         && !events[k].event.Gap?
         && !IsTurn(events[k].event, "turn/start") && !IsTurn(events[k].event, "turn/steer")
  }

  /** A ready session of a resuming lease has seen that handshake, no gap and no turn. */
  lemma ReadyMeansResumed(l: Lease, events: seq<Record>)
    returns (clientUp: nat, serverUp: nat, asked: nat, m: Milestones, id: Id)
    requires l.resume.Some? && AllFounded(events) && Ready(FollowAll(l, Opened(true), events))
    ensures Resumption(l, events, clientUp, serverUp, asked, m, id)
  {
    hide FollowAll, SkillsOpen, SkillsDone;
    m := SessionResumes(l, events);
    var s := FollowAll(l, Opened(true), events);
    id := s.progress.resumeRequest.value;
    clientUp, serverUp, asked := HomeFounded(events, m.home);
    hide AllFounded, KindOf, IsTurn;
  }

  ghost predicate ResumptionDone(l: Lease, events: seq<Record>)
  {
    exists clientUp, serverUp, asked, m, id :: Resumption(l, events, clientUp, serverUp, asked, m, id)
  }
}
