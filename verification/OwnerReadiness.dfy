/**
  The readiness automaton of an owner connection: it follows the observer's records and
  publishes ready once, after a whole handshake with no gap and no turn.

  What a record says of working directory, thread and home is read out of its `detail`.
 */
module OwnerReadiness {
  import opened Options
  import opened GateSpec
  import opened ObserverSpec
  import opened ObserverEvidence

  const MAX_ROWS := 4096

  /** `resume` is the thread a lease expects to be resumed; a fresh-thread lease has none. */
  datatype Lease = Lease(
    cwd: Option<string>, resume: Option<string>, homeMatches: string -> bool, isThreadId: string -> bool,
    cwdOf: string -> Option<string>, threadOf: string -> Option<string>, threadCwdOf: string -> Option<string>)

  /** What is remembered of initialize and of the thread; once not `valid`, never again. */
  datatype Progress = Progress(
    valid: bool, initializeSeen: bool, homeMatch: Option<bool>, initialized: bool,
    threadTouched: bool, thread: Option<string>, startRequest: Option<Id>, started: Option<string>,
    resumeRequest: Option<Id>, resumed: bool, skillsPending: set<Option<Id>>, barrier: bool)

  datatype Session = Session(
    progress: Progress, closed: bool, upgrades: set<Direction>, turnStarts: nat, turnSteers: nat, rows: nat,
      published: bool)

  /** A new epoch; without a lease it is never valid. */
  function Opened(leased: bool): Session
  {
    Session(Progress(leased, false, None, false, false, None, None, None, None, false, {}, false), false, {}, 0, 0, 0,
            false)
  }

  function Fail(s: Progress): Progress
  {
    s.(valid := false)
  }

  function FailIf(s: Progress, bad: bool): Progress
  {
    if bad then Fail(s) else s
  }

  function MethodOf(e: Event): Option<string>
  {
    match e
    case RpcEvent(_, _, name, _) => Some(name)
    case RpcUnknown(_, _, unknown, _, _) => unknown
    case RpcResponse(_, _, name, _, _) => Some(name)
    case _ => None
  }

  predicate IsTurn(e: Event, name: string)
  {
    MethodOf(e) == Some(name) && (e.RpcEvent? || (e.RpcUnknown? && !e.response))
  }

  function IsThread(l: Lease, id: Option<string>): bool
  {
    id.Some? && l.isThreadId(id.value)
  }

  /** The methods the automaton tells apart. */
  datatype Kind = Initialize | InitializedNote | ThreadResume | SkillsList | ThreadStart | ThreadStartedNote | Other

  function KindOf(name: string): Kind
  {
    if name == "initialize" then Initialize
    else if name == "initialized" then InitializedNote
    else if name == "thread/resume" then ThreadResume
    else if name == "skills/list" then SkillsList
    else if name == "thread/start" then ThreadStart
    else if name == "thread/started" then ThreadStartedNote
    else Other
  }

  /** A request or notification of the client. */
  function ClientRequest(l: Lease, s: Progress, id: Option<Id>, name: string, detail: string): (r: Progress)
    ensures !s.valid ==> !r.valid
  {
    match KindOf(name)
    case Initialize => FailIf(s, s.initializeSeen).(initializeSeen := true)
    case InitializedNote => FailIf(s, s.initialized || s.homeMatch != Some(true)).(initialized := true)
    case ThreadResume =>
      FailIf(s, !s.initialized || s.threadTouched || !IsThread(l, l.resume) || l.threadOf(detail) != l.resume)
        .(resumeRequest := id, threadTouched := true)
    case SkillsList =>
      if s.resumed then s.(skillsPending := s.skillsPending + {id}, threadTouched := true) else s
    case ThreadStart =>
      FailIf(s, l.resume.Some? || !s.initialized || s.thread.Some? || l.cwdOf(detail) != l.cwd)
        .(startRequest := id, threadTouched := true)
    case _ => s
  }

  function ResumeResponse(l: Lease, s: Progress, d: Direction, id: Id, ok: bool, detail: string): (r: Progress)
    ensures !s.valid ==> !r.valid
  {
    if !ok || d.Client? || s.resumeRequest != Some(id) || s.resumed || !IsThread(l, l.resume)
       || l.threadOf(detail) != l.resume || l.threadCwdOf(detail) != l.cwd
    then Fail(s)
    else s.(thread := l.resume, resumed := true, threadTouched := true)
  }

  function SkillsResponse(s: Progress, d: Direction, id: Id, ok: bool): (r: Progress)
    ensures !s.valid ==> !r.valid
  {
    if Some(id) !in s.skillsPending then s
    else
      var s' := s.(skillsPending := s.skillsPending - {Some(id)});
      if ok && d.Server? then s'.(barrier := true) else Fail(s')
  }

  function StartResponse(l: Lease, s: Progress, d: Direction, id: Id, detail: string): (r: Progress)
    ensures !s.valid ==> !r.valid
  {
    if d.Client? || s.startRequest != Some(id) || !IsThread(l, l.threadOf(detail)) || l.threadCwdOf(detail) != l.cwd
       || s.thread.Some?
    then Fail(s)
    else s.(thread := l.threadOf(detail), threadTouched := true)
  }

  function ThreadStarted(l: Lease, s: Progress, d: Direction, detail: string): (r: Progress)
    ensures !s.valid ==> !r.valid
  {
    var id := l.threadOf(detail);
    if d.Client? || !IsThread(l, id) || s.thread != id || s.started.Some? then Fail(s)
    else s.(started := id, threadTouched := true)
  }

  /** One RPC record, once it has been counted. */
  function RpcRow(l: Lease, s: Progress, e: Event): (r: Progress)
    ensures !s.valid ==> !r.valid
  {
    match e
    case RpcEvent(d, id, name, detail) =>
      if d.Client? then ClientRequest(l, s, id, name, detail)
      else if KindOf(name).ThreadStartedNote? then ThreadStarted(l, s, d, detail)
      else s
    case RpcResponse(d, id, name, ok, detail) =>
      (match KindOf(name)
       case ThreadResume => ResumeResponse(l, s, d, id, ok, detail)
       case SkillsList => if s.resumed then SkillsResponse(s, d, id, ok) else s
       case ThreadStart => if ok then StartResponse(l, s, d, id, detail) else s
       case _ => s)
    case RpcUnknown(_, _, unknown, response, _) => FailIf(s, response && unknown.None?)
    case _ => s
  }

  function Counted(s: Session, e: Event): Session
  {
    s.(rows := s.rows + 1,
       turnStarts := s.turnStarts + if IsTurn(e, "turn/start") then 1 else 0,
       turnSteers := s.turnSteers + if IsTurn(e, "turn/steer") then 1 else 0)
  }

  /** The digest of an initialize response, recorded after the response itself. */
  predicate IsHome(e: Event)
  {
    e.RpcResponse? && e.direction.Server? && KindOf(e.name).Initialize? && e.ok
  }

  function Home(l: Lease, s: Progress, e: Event): Progress
    requires IsHome(e)
  {
    FailIf(s, !l.homeMatches(e.detail)).(initializeSeen := true, homeMatch := Some(l.homeMatches(e.detail)))
  }

  /** An RPC record and, after an initialize response, the home it names. */
  function Advance(l: Lease, s: Progress, e: Event): Progress
  {
    var s' := RpcRow(l, s, e);
    if IsHome(e) then Home(l, s', e) else s'
  }

  predicate IsRow(e: Event)
  {
    e.RpcEvent? || e.RpcUnknown? || e.RpcResponse?
  }

  /** One record of the observer. */
  function Follow(l: Lease, s: Session, e: Event): Session
  {
    if e.Gap? then s.(progress := Fail(s.progress))
    else if e.Upgraded? then s.(upgrades := s.upgrades + {e.direction})
    else if !IsRow(e) then s
    else if s.rows >= MAX_ROWS then
      s.(progress := if IsHome(e) then Home(l, Fail(s.progress), e) else Fail(s.progress))
    else Counted(s, e).(progress := Advance(l, s.progress, e))
  }

  function FollowAll(l: Lease, s: Session, events: seq<Record>): Session
    decreases |events|
  {
    if events == [] then s else Follow(l, FollowAll(l, s, events[..|events| - 1]), events[|events| - 1].event)
  }

  predicate Ready(s: Session)
  {
    var p := s.progress;
    && p.valid && !s.closed && !s.published && s.upgrades == {Client, Server} && p.initialized
    && p.homeMatch == Some(true) && p.thread.Some? && (p.thread == p.started || p.barrier)
    && s.turnStarts == 0 && s.turnSteers == 0
  }

  // ---------------------------------------------------------------- validity never returns

  lemma InvalidAdvance(l: Lease, s: Progress, e: Event)
    requires !s.valid
    ensures !Advance(l, s, e).valid
  {
    hide RpcRow, IsHome;
  }

  lemma InvalidStays(l: Lease, s: Session, e: Event)
    requires !s.progress.valid
    ensures !Follow(l, s, e).progress.valid
  {
    hide Advance, IsHome, IsTurn;
    InvalidAdvance(l, s.progress, e);
  }

  lemma {:induction false} InvalidForever(l: Lease, s: Session, events: seq<Record>)
    requires !s.progress.valid
    ensures !FollowAll(l, s, events).progress.valid
    decreases |events|
  {
    hide Follow;
    if events != [] {
      InvalidForever(l, s, events[..|events| - 1]);
      InvalidStays(l, FollowAll(l, s, events[..|events| - 1]), events[|events| - 1].event);
    }
  }

  lemma {:induction false} FollowAllSplit(l: Lease, s: Session, first: seq<Record>, rest: seq<Record>)
    ensures FollowAll(l, s, first + rest) == FollowAll(l, FollowAll(l, s, first), rest)
    decreases |rest|
  {
    hide Follow;
    if rest == [] {
      assert first + rest == first;
    } else {
      FollowAllSplit(l, s, first, rest[..|rest| - 1]);
      assert (first + rest)[..|first + rest| - 1] == first + rest[..|rest| - 1];
    }
  }

  // ---------------------------------------------------------------- what a valid session has seen

  predicate HomeAccepted(l: Lease, e: Event)
  {
    IsHome(e) && l.homeMatches(e.detail)
  }

  predicate Initialized(e: Event)
  {
    e.RpcEvent? && e.direction.Client? && KindOf(e.name).InitializedNote?
  }

  predicate StartAsked(l: Lease, e: Event, id: Option<Id>)
  {
    e.RpcEvent? && e.direction.Client? && KindOf(e.name).ThreadStart? && e.id == id && l.cwdOf(e.detail) == l.cwd
  }

  predicate StartAccepted(l: Lease, e: Event, id: Id, thread: string)
  {
    && e.RpcResponse? && e.direction.Server? && KindOf(e.name).ThreadStart? && e.ok && e.answers == id
    && l.threadOf(e.detail) == Some(thread) && l.isThreadId(thread) && l.threadCwdOf(e.detail) == l.cwd
  }

  predicate Announced(l: Lease, e: Event, thread: string)
  {
    e.RpcEvent? && e.direction.Server? && KindOf(e.name).ThreadStartedNote? && l.threadOf(e.detail) == Some(thread)
  }

  /** Where the milestones of the handshake are in the records. */
  datatype Milestones = Milestones(home: nat, initialized: nat, asked: nat, accepted: nat, announced: nat)

  ghost predicate Quiet(events: seq<Record>, s: Session)
  {
    && (forall k :: 0 <= k < |events| ==> !events[k].event.Gap?)
    && (s.turnStarts == 0 && s.turnSteers == 0 ==>
          forall k :: 0 <= k < |events| ==>
            !IsTurn(events[k].event, "turn/start") && !IsTurn(events[k].event, "turn/steer"))
  }

  ghost predicate Upgrades(events: seq<Record>, s: Session)
  {
    forall d: Direction :: d in s.upgrades ==> UpgradedBefore(events, d, |events|)
  }

  /** What a valid session of a fresh-thread lease remembers has happened, in this order. */
  predicate Seen(l: Lease, events: seq<Record>, s: Progress, m: Milestones)
  {
    && !s.resumed && !s.barrier
    && (s.homeMatch == Some(true) ==> m.home < |events| && HomeAccepted(l, events[m.home].event))
    && (s.initialized ==>
          s.homeMatch == Some(true) && m.home < m.initialized < |events| && Initialized(events[m.initialized].event))
    && (s.startRequest.Some? ==>
          s.initialized && m.initialized < m.asked < |events| && StartAsked(l, events[m.asked].event, s.startRequest))
    && (s.thread.Some? ==>
          && s.startRequest.Some? && m.asked < m.accepted < |events|
          && StartAccepted(l, events[m.accepted].event, s.startRequest.value, s.thread.value))
    && (s.started.Some? ==>
          && s.thread == s.started && m.accepted < m.announced < |events|
          && Announced(l, events[m.announced].event, s.thread.value))
  }

  /** The milestones after one more record. */
  function Next(s: Progress, e: Event, m: Milestones, n: nat): Milestones
  {
    Milestones(
      if s.homeMatch != Some(true) then n else m.home,
      if !s.initialized then n else m.initialized,
      if e.RpcEvent? && e.direction.Client? && KindOf(e.name).ThreadStart? then n else m.asked,
      if s.thread.None? then n else m.accepted,
      if s.started.None? then n else m.announced)
  }

  lemma SeenExtends(l: Lease, events: seq<Record>, r: Record, s: Progress, m: Milestones)
    requires Seen(l, events, s, m)
    ensures Seen(l, events + [r], s, m)
  {
    hide KindOf, IsTurn;
  }

  lemma ClientSeen(l: Lease, events: seq<Record>, r: Record, s: Progress, m: Milestones)
    requires Seen(l, events, s, m) && l.resume.None? && r.event.RpcEvent? && r.event.direction.Client?
    ensures var e := r.event;
            var s' := ClientRequest(l, s, e.id, e.name, e.detail);
            s'.valid ==> Seen(l, events + [r], s', Next(s, e, m, |events|))
  {
    hide KindOf, IsTurn;
    SeenExtends(l, events, r, s, m);
    var all, e := events + [r], r.event;
    assert all[|events|] == r;
    match KindOf(e.name)
    case Initialize =>
    case InitializedNote =>
    case ThreadResume =>
    case SkillsList =>
    case ThreadStart =>
    case ThreadStartedNote =>
    case Other =>
  }

  lemma StartSeen(l: Lease, events: seq<Record>, r: Record, s: Progress, m: Milestones)
    requires Seen(l, events, s, m) && r.event.RpcResponse? && KindOf(r.event.name).ThreadStart? && r.event.ok
    ensures var e := r.event;
            var s' := StartResponse(l, s, e.direction, e.answers, e.detail);
            s'.valid ==> Seen(l, events + [r], s', Next(s, e, m, |events|))
  {
    hide KindOf, IsTurn;
    SeenExtends(l, events, r, s, m);
  }

  lemma AnnounceSeen(l: Lease, events: seq<Record>, r: Record, s: Progress, m: Milestones)
    requires Seen(l, events, s, m) && r.event.RpcEvent? && r.event.direction.Server?
             && KindOf(r.event.name).ThreadStartedNote?
    ensures var e := r.event;
            var s' := ThreadStarted(l, s, e.direction, e.detail);
            s'.valid ==> Seen(l, events + [r], s', Next(s, e, m, |events|))
  {
    hide KindOf, IsTurn;
    SeenExtends(l, events, r, s, m);
  }

  lemma RpcSeen(l: Lease, events: seq<Record>, r: Record, s: Progress, m: Milestones)
    requires Seen(l, events, s, m) && l.resume.None?
    ensures var s' := RpcRow(l, s, r.event);
            s'.valid ==> Seen(l, events + [r], s', Next(s, r.event, m, |events|))
  {
    hide KindOf, IsTurn;
    SeenExtends(l, events, r, s, m);
    var e := r.event;
    hide ClientRequest, StartResponse, ThreadStarted;
    if e.RpcEvent? && e.direction.Client? {
      ClientSeen(l, events, r, s, m);
    } else if e.RpcEvent? && KindOf(e.name).ThreadStartedNote? {
      AnnounceSeen(l, events, r, s, m);
    } else if e.RpcResponse? && KindOf(e.name).ThreadStart? && e.ok {
      StartSeen(l, events, r, s, m);
    }
  }

  lemma HomeSeen(l: Lease, events: seq<Record>, r: Record, s: Progress, m: Milestones)
    requires IsHome(r.event) && Seen(l, events + [r], s, m) && (s.homeMatch != Some(true) ==> m.home == |events|)
    ensures var s' := Home(l, s, r.event); s'.valid ==> Seen(l, events + [r], s', m)
  {
    hide KindOf, IsTurn;
  }

  lemma AdvanceSeen(l: Lease, events: seq<Record>, r: Record, s: Progress, m: Milestones)
    requires Seen(l, events, s, m) && l.resume.None?
    ensures var s' := Advance(l, s, r.event);
            s'.valid ==> Seen(l, events + [r], s', Next(s, r.event, m, |events|))
  {
    hide KindOf, RpcRow, Seen;
    RpcSeen(l, events, r, s, m);
    if IsHome(r.event) && RpcRow(l, s, r.event).valid {
      HomeLeaves(l, s, r.event);
      HomeSeen(l, events, r, RpcRow(l, s, r.event), Next(s, r.event, m, |events|));
    }
  }

  lemma FollowSeen(l: Lease, events: seq<Record>, r: Record, s: Session, m: Milestones)
    requires Seen(l, events, s.progress, m) && l.resume.None?
    ensures var s' := Follow(l, s, r.event);
            s'.progress.valid ==> Seen(l, events + [r], s'.progress, Next(s.progress, r.event, m, |events|))
  {
    hide KindOf, Advance, Counted, IsHome, Seen;
    if IsRow(r.event) {
      AdvanceSeen(l, events, r, s.progress, m);
      hide Next;
    } else {
      NotARow(l, events, r, s.progress, m);
      hide Next;
    }
  }

  lemma NotARow(l: Lease, events: seq<Record>, r: Record, s: Progress, m: Milestones)
    requires Seen(l, events, s, m) && !IsRow(r.event)
    ensures Seen(l, events + [r], s, Next(s, r.event, m, |events|))
  {
    hide KindOf;
    SeenExtends(l, events, r, s, m);
  }

  lemma HomeLeaves(l: Lease, s: Progress, e: Event)
    requires IsHome(e)
    ensures RpcRow(l, s, e).homeMatch == s.homeMatch
  {
    hide KindOf, IsTurn;
  }

  /** The kinds of record a valid session has counted: no gap, and its turns. */
  lemma FollowQuiet(l: Lease, events: seq<Record>, r: Record, s: Session)
    requires Quiet(events, s)
    ensures var s' := Follow(l, s, r.event); s'.progress.valid ==> Quiet(events + [r], s')
  {
    hide Advance, IsHome;
    var s', e := Follow(l, s, r.event), r.event;
    assert !IsRow(e) ==> !IsTurn(e, "turn/start") && !IsTurn(e, "turn/steer");
    assert forall k :: 0 <= k < |events| ==> (events + [r])[k] == events[k];
    hide IsTurn;
  }

  lemma FollowUpgrades(l: Lease, events: seq<Record>, r: Record, s: Session)
    requires Upgrades(events, s)
    ensures Upgrades(events + [r], Follow(l, s, r.event))
  {
    hide Advance, Home, IsHome, IsTurn;
    var s', all := Follow(l, s, r.event), events + [r];
    forall d: Direction | d in s'.upgrades ensures UpgradedBefore(all, d, |all|) {
      if d in s.upgrades {
        var j :| 0 <= j < |events| && events[j].event == Upgraded(d);
        assert all[j] == events[j];
      } else {
        assert all[|events|].event == Upgraded(d);
      }
    }
  }

  /** Following any records from a fresh epoch, a valid session has seen what it says, in order. */
  lemma {:induction false} SessionSeen(l: Lease, events: seq<Record>) returns (m: Milestones)
    requires l.resume.None?
    ensures var s := FollowAll(l, Opened(true), events);
            s.progress.valid ==> Seen(l, events, s.progress, m) && Quiet(events, s) && Upgrades(events, s)
    decreases |events|
  {
    hide Follow, Seen, Quiet, Upgrades;
    m := Milestones(0, 0, 0, 0, 0);
    if events == [] {
      NothingSeen(l, m);
    } else {
      var init, r := events[..|events| - 1], events[|events| - 1];
      var before := FollowAll(l, Opened(true), init);
      m := SessionSeen(l, init);
      assert init + [r] == events;
      if before.progress.valid {
        FollowSeen(l, init, r, before, m);
        FollowQuiet(l, init, r, before);
        FollowUpgrades(l, init, r, before);
      } else {
        InvalidStays(l, before, r.event);
      }
      m := Next(before.progress, r.event, m, |init|);
    }
  }

  lemma NothingSeen(l: Lease, m: Milestones)
    ensures Seen(l, [], Opened(true).progress, m) && Quiet([], Opened(true)) && Upgrades([], Opened(true))
  {
  }

  // ---------------------------------------------------------------- the theorem

  /** The whole handshake: client upgrade, initialize, home, initialized, thread/start, its response, thread/started. */
  ghost predicate Handshake(l: Lease, events: seq<Record>, clientUp: nat, serverUp: nat, asked: nat, m: Milestones,
                            id: Id,
                            thread: string)
  {
    && clientUp < asked < m.home < m.initialized < m.asked < m.accepted < m.announced < |events| && serverUp < m.home
    && events[clientUp].event == Upgraded(Client) && events[serverUp].event == Upgraded(Server)
    && HomeAccepted(l, events[m.home].event)
    && IsRequest(events[asked].event, Client, events[m.home].event.answers, "initialize")
    && Initialized(events[m.initialized].event)
    && StartAsked(l, events[m.asked].event, Some(id))
    && StartAccepted(l, events[m.accepted].event, id, thread)
    && Announced(l, events[m.announced].event, thread)
    && forall k :: 0 <= k < |events| ==>
         && !events[k].event.Gap?
         && !IsTurn(events[k].event, "turn/start") && !IsTurn(events[k].event, "turn/steer")
  }

  /**
    For a fresh-thread lease, and records the observer can make, a ready session has seen the
    whole handshake in order, no gap and no turn.
   */
  lemma ReadyMeansHandshake(l: Lease, events: seq<Record>)
    returns (clientUp: nat, serverUp: nat, asked: nat, m: Milestones, id: Id, thread: string)
    requires l.resume.None? && AllFounded(events) && Ready(FollowAll(l, Opened(true), events))
    ensures Handshake(l, events, clientUp, serverUp, asked, m, id, thread)
  {
    m := SessionSeen(l, events);
    var s := FollowAll(l, Opened(true), events);
    id, thread := s.progress.startRequest.value, s.progress.thread.value;
    var home := events[m.home].event;
    clientUp, serverUp, asked := HomeFounded(events, m.home);
    hide AllFounded, KindOf, IsTurn, FollowAll;
  }

  lemma HomeFounded(events: seq<Record>, h: nat) returns (clientUp: nat, serverUp: nat, asked: nat)
    requires AllFounded(events) && h < |events| && IsHome(events[h].event)
    ensures clientUp < asked < h && serverUp < h
    ensures events[clientUp].event == Upgraded(Client) && events[serverUp].event == Upgraded(Server)
    ensures IsRequest(events[asked].event, Client, events[h].event.answers, "initialize")
  {
    var home := events[h].event;
    assert Founded(events, home, h);
    assert UpgradedBefore(events, Server, h) && RequestedBefore(events, Client, home.answers, "initialize", h);
    serverUp :| 0 <= serverUp < h && events[serverUp].event == Upgraded(Server);
    asked :| 0 <= asked < h && IsRequest(events[asked].event, Client, home.answers, "initialize");
    assert Founded(events, events[asked].event, asked);
    assert UpgradedBefore(events, Client, asked);
    clientUp :| 0 <= clientUp < asked && events[clientUp].event == Upgraded(Client);
  }

  ghost predicate HandshakeDone(l: Lease, events: seq<Record>)
  {
    exists clientUp, serverUp, asked, m, id, thread :: Handshake(l, events, clientUp, serverUp, asked, m, id, thread)
  }
}
