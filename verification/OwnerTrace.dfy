/**
  When a session is ready, told from its records alone: which records end it, and what must
  have been among them.
 */
module OwnerTrace {
  import opened Options
  import opened GateSpec
  import opened ObserverSpec
  import opened ObserverEvidence
  import opened OwnerReadiness
  import opened OwnerOrder

  type Told = seq<Record>

  // ---------------------------------------------------------------- kinds of records

  predicate Asks(e: Event, kind: Kind)
  {
    e.RpcEvent? && e.direction.Client? && KindOf(e.name) == kind
  }

  predicate Answers(e: Event, kind: Kind)
  {
    e.RpcResponse? && KindOf(e.name) == kind
  }

  predicate AsksFirst(e: Event) { Asks(e, Initialize) }
  predicate NotesFirst(e: Event) { Asks(e, InitializedNote) }
  predicate AsksResume(e: Event) { Asks(e, ThreadResume) }
  predicate AsksSkills(e: Event) { Asks(e, SkillsList) }
  predicate AsksStart(e: Event) { Asks(e, ThreadStart) }
  predicate AnswersResume(e: Event) { Answers(e, ThreadResume) }
  predicate AnswersSkills(e: Event) { Answers(e, SkillsList) }
  predicate StartsThread(e: Event) { Answers(e, ThreadStart) && e.ok }
  predicate NotesStarted(e: Event) { e.RpcEvent? && e.direction.Server? && KindOf(e.name).ThreadStartedNote? }
  predicate TurnsBegin(e: Event) { IsTurn(e, "turn/start") || IsTurn(e, "turn/steer") }

  // ---------------------------------------------------------------- what has been told

  ghost predicate Ever(events: Told, p: Event -> bool)
  {
    exists k :: 0 <= k < |events| && p(events[k].event)
  }

  /** The id of the last such record. */
  function LastId(events: Told, p: Event -> bool): Option<Id>
    decreases |events|
  {
    if events == [] then None
    else
      var last := events[|events| - 1].event;
      if p(last) then (if last.RpcEvent? then last.id else None) else LastId(events[..|events| - 1], p)
  }

  /** The thread that the last such record names. */
  function LastThread(l: Lease, events: Told, p: Event -> bool): Option<string>
    decreases |events|
  {
    if events == [] then None
    else
      var last := events[|events| - 1].event;
      if p(last) && (last.RpcEvent? || last.RpcResponse?) then l.threadOf(last.detail)
      else LastThread(l, events[..|events| - 1], p)
  }

  ghost function ThreadTold(l: Lease, events: Told): Option<string>
  {
    if Ever(events, AnswersResume) then l.resume else LastThread(l, events, StartsThread)
  }

  /** A skills/list asked once the thread was resumed, and not answered since. */
  ghost predicate SkillsWait(events: Told, id: Option<Id>)
  {
    exists k :: 0 <= k < |events| && SkillsFrom(events, k, id)
  }

  ghost predicate SkillsFrom(events: Told, k: nat, id: Option<Id>)
    requires k < |events|
  {
    && AsksSkills(events[k].event) && events[k].event.id == id && Ever(events[..k], AnswersResume)
    && forall j :: k < j < |events| ==> !(AnswersSkills(events[j].event) && Some(events[j].event.answers) == id)
  }

  /** A thread was asked for, named, announced, or used. */
  ghost predicate Touched(events: Told)
  {
    || Ever(events, AsksResume) || Ever(events, AsksStart) || Ever(events, AnswersResume) || Ever(events, StartsThread)
    || Ever(events, NotesStarted) || exists k :: 0 <= k < |events| && TouchesSkills(events, k)
  }

  ghost predicate TouchesSkills(events: Told, k: nat)
    requires k < |events|
  {
    AsksSkills(events[k].event) && Ever(events[..k], AnswersResume)
  }

  /** A skills/list that was waiting has been answered. */
  ghost predicate SkillsDone(events: Told)
  {
    exists k :: 0 <= k < |events| && SkillsAnsweredAt(events, k)
  }

  ghost predicate SkillsAnsweredAt(events: Told, k: nat)
    requires k < |events|
  {
    AnswersSkills(events[k].event) && SkillsWait(events[..k], Some(events[k].event.answers))
  }

  function RowCount(events: Told): nat
    decreases |events|
  {
    if events == [] then 0 else RowCount(events[..|events| - 1]) + if IsRow(events[|events| - 1].event) then 1 else 0
  }

  // ---------------------------------------------------------------- what may be told next

  /** A record that does not end a session with these records. */
  ghost predicate Allowed(l: Lease, events: Told, e: Event)
  {
    && !e.Gap?
    && (AsksFirst(e) ==> !Ever(events, AsksFirst) && !Ever(events, IsHome))
    && (IsHome(e) ==> l.homeMatches(e.detail))
    && (NotesFirst(e) ==> Ever(events, IsHome) && !Ever(events, NotesFirst))
    && (AsksResume(e) ==>
          Ever(events, NotesFirst) && !Touched(events) && IsThread(l, l.resume) && l.threadOf(e.detail) == l.resume)
    && (AsksStart(e) ==>
          l.resume.None? && Ever(events, NotesFirst) && ThreadTold(l, events).None? && l.cwdOf(e.detail) == l.cwd)
    && (AnswersResume(e) ==>
          && e.ok && e.direction.Server? && LastId(events, AsksResume) == Some(e.answers)
          && !Ever(events, AnswersResume)
          && IsThread(l, l.resume) && l.threadOf(e.detail) == l.resume && l.threadCwdOf(e.detail) == l.cwd)
    && (AnswersSkills(e) && SkillsWait(events, Some(e.answers)) ==> e.ok && e.direction.Server?)
    && (StartsThread(e) ==>
          && e.direction.Server? && LastId(events, AsksStart) == Some(e.answers) && ThreadTold(l, events).None?
          && IsThread(l, l.threadOf(e.detail)) && l.threadCwdOf(e.detail) == l.cwd)
    && (NotesStarted(e) ==>
          && IsThread(l, l.threadOf(e.detail)) && l.threadOf(e.detail) == ThreadTold(l, events)
          && !Ever(events, NotesStarted))
    && (e.RpcUnknown? ==> !(e.response && e.unknown.None?))
  }

  ghost predicate Lawful(l: Lease, events: Told)
  {
    RowCount(events) <= MAX_ROWS && forall k :: 0 <= k < |events| ==> Allowed(l, events[..k], events[k].event)
  }

  // ---------------------------------------------------------------- one record more

  lemma EverMore(events: Told, r: Record, p: Event -> bool)
    ensures Ever(events + [r], p) <==> Ever(events, p) || p(r.event)
  {
    var all := events + [r];
    assert all[|events|] == r;
    if Ever(events, p) {
      var k :| 0 <= k < |events| && p(events[k].event);
      assert p(all[k].event);
    }
  }

  lemma AllMore(events: Told, r: Record)
    ensures Ever(events + [r], AsksFirst) <==> Ever(events, AsksFirst) || AsksFirst(r.event)
    ensures Ever(events + [r], IsHome) <==> Ever(events, IsHome) || IsHome(r.event)
    ensures Ever(events + [r], NotesFirst) <==> Ever(events, NotesFirst) || NotesFirst(r.event)
    ensures Ever(events + [r], AsksResume) <==> Ever(events, AsksResume) || AsksResume(r.event)
    ensures Ever(events + [r], AsksStart) <==> Ever(events, AsksStart) || AsksStart(r.event)
    ensures Ever(events + [r], AnswersResume) <==> Ever(events, AnswersResume) || AnswersResume(r.event)
    ensures Ever(events + [r], StartsThread) <==> Ever(events, StartsThread) || StartsThread(r.event)
    ensures Ever(events + [r], NotesStarted) <==> Ever(events, NotesStarted) || NotesStarted(r.event)
    ensures Ever(events + [r], TurnsBegin) <==> Ever(events, TurnsBegin) || TurnsBegin(r.event)
  {
    hide Ever;
    EverMore(events, r, AsksFirst);
    EverMore(events, r, IsHome);
    EverMore(events, r, NotesFirst);
    EverMore(events, r, AsksResume);
    EverMore(events, r, AsksStart);
    EverMore(events, r, AnswersResume);
    EverMore(events, r, StartsThread);
    EverMore(events, r, NotesStarted);
    EverMore(events, r, TurnsBegin);
  }

  lemma LastMore(l: Lease, events: Told, r: Record, p: Event -> bool)
    ensures LastId(events + [r], p) ==
            if p(r.event) then (if r.event.RpcEvent? then r.event.id else None) else LastId(events, p)
    ensures LastThread(l, events + [r], p) ==
            if p(r.event) && (r.event.RpcEvent? || r.event.RpcResponse?) then l.threadOf(r.event.detail)
            else LastThread(l, events, p)
  {
    assert (events + [r])[..|events|] == events;
  }

  lemma SkillsMore(events: Told, r: Record, id: Option<Id>)
    ensures SkillsWait(events + [r], id) <==>
            || (AsksSkills(r.event) && r.event.id == id && Ever(events, AnswersResume))
            || (SkillsWait(events, id) && !(AnswersSkills(r.event) && Some(r.event.answers) == id))
  {
    var all, n := events + [r], |events|;
    hide Ever, KindOf;
    assert all[..n] == events && all[n] == r;
    assert SkillsFrom(all, n, id) <==> AsksSkills(r.event) && r.event.id == id && Ever(events, AnswersResume);
    forall k | 0 <= k < n
      ensures SkillsFrom(all, k, id) <==>
                SkillsFrom(events, k, id) && !(AnswersSkills(r.event) && Some(r.event.answers) == id) {
      assert all[..k] == events[..k] && all[k] == events[k];
      SkillsFromMore(events, r, k, id);
    }
    hide SkillsFrom;
    if SkillsWait(events, id) && !(AnswersSkills(r.event) && Some(r.event.answers) == id) {
      var k :| 0 <= k < n && SkillsFrom(events, k, id);
      assert SkillsFrom(all, k, id);
    }
  }

  lemma SkillsFromMore(events: Told, r: Record, k: nat, id: Option<Id>)
    requires k < |events|
    ensures SkillsFrom(events + [r], k, id) <==>
            SkillsFrom(events, k, id) && !(AnswersSkills(r.event) && Some(r.event.answers) == id)
  {
    hide Ever, KindOf, AsksSkills, AnswersSkills;
    var all := events + [r];
    assert all[..k] == events[..k] && all[|events|] == r;
    assert forall j :: 0 <= j < |events| ==> all[j] == events[j];
  }

  lemma TouchesMore(events: Told, r: Record)
    ensures Touched(events + [r]) <==>
            || Touched(events)
            || AsksResume(r.event) || AsksStart(r.event) || AnswersResume(r.event) || StartsThread(r.event)
            || NotesStarted(r.event) || (AsksSkills(r.event) && Ever(events, AnswersResume))
  {
    hide Ever, KindOf, AsksResume, AsksStart, AnswersResume, StartsThread, NotesStarted, AsksSkills;
    AllMore(events, r);
    var all, n := events + [r], |events|;
    assert all[..n] == events && all[n] == r;
    assert forall k :: 0 <= k < n ==> all[..k] == events[..k] && all[k] == events[k];
    assert TouchesSkills(all, n) <==> AsksSkills(r.event) && Ever(events, AnswersResume);
    assert forall k :: 0 <= k < n ==> (TouchesSkills(all, k) <==> TouchesSkills(events, k));
    hide TouchesSkills;
  }

  lemma DoneMore(events: Told, r: Record)
    ensures SkillsDone(events + [r]) <==>
            SkillsDone(events) || (AnswersSkills(r.event) && SkillsWait(events, Some(r.event.answers)))
  {
    hide SkillsWait, KindOf;
    var all, n := events + [r], |events|;
    assert all[..n] == events && all[n] == r;
    assert forall k :: 0 <= k < n ==> all[..k] == events[..k] && all[k] == events[k];
    assert forall k :: 0 <= k < n ==> (SkillsAnsweredAt(all, k) <==> SkillsAnsweredAt(events, k));
    assert SkillsAnsweredAt(all, n) <==> AnswersSkills(r.event) && SkillsWait(events, Some(r.event.answers));
    hide SkillsAnsweredAt;
  }

  /** All that one record more changes. */
  lemma EverythingMore(l: Lease, events: Told, r: Record)
    ensures var all, e := events + [r], r.event;
            && LastId(all, AsksResume) == (if AsksResume(e) then e.id else LastId(events, AsksResume))
            && LastId(all, AsksStart) == (if AsksStart(e) then e.id else LastId(events, AsksStart))
            && ThreadTold(l, all) ==
               (if Ever(events, AnswersResume) || AnswersResume(e) then l.resume
                else if StartsThread(e) then l.threadOf(e.detail) else ThreadTold(l, events))
            && (Ever(events, AnswersResume) ==> ThreadTold(l, events) == l.resume)
            && LastThread(l, all, NotesStarted) ==
               (if NotesStarted(e) then l.threadOf(e.detail) else LastThread(l, events, NotesStarted))
  {
    hide Ever, KindOf;
    AllMore(events, r);
    LastMore(l, events, r, AsksResume);
    LastMore(l, events, r, AsksStart);
    LastMore(l, events, r, StartsThread);
    LastMore(l, events, r, NotesStarted);
  }

  lemma WaitingMore(events: Told, r: Record)
    ensures forall id ::
              SkillsWait(events + [r], id) <==>
              || (AsksSkills(r.event) && r.event.id == id && Ever(events, AnswersResume))
              || (SkillsWait(events, id) && !(AnswersSkills(r.event) && Some(r.event.answers) == id))
  {
    forall id
      ensures SkillsWait(events + [r], id) <==>
              || (AsksSkills(r.event) && r.event.id == id && Ever(events, AnswersResume))
              || (SkillsWait(events, id) && !(AnswersSkills(r.event) && Some(r.event.answers) == id)) {
      SkillsMore(events, r, id);
    }
  }

  // ---------------------------------------------------------------- what a valid session remembers

  /** All of what has been told that matters for what may be told next, but for the waiting skills/list. */
  datatype Memory = Memory(
    asked: bool, home: bool, noted: bool, resumeId: Option<Id>, startId: Option<Id>, resumed: bool,
    thread: Option<string>, announced: bool, started: Option<string>, touched: bool, done: bool)

  ghost function MemoryOf(l: Lease, events: Told): Memory
  {
    Memory(Ever(events, AsksFirst), Ever(events, IsHome), Ever(events, NotesFirst), LastId(events, AsksResume),
           LastId(events, AsksStart), Ever(events, AnswersResume), ThreadTold(l, events), Ever(events, NotesStarted),
           LastThread(l, events, NotesStarted), Touched(events), SkillsDone(events))
  }

  /** A progress with this memory. */
  function ToProgress(m: Memory, waiting: set<Option<Id>>): Progress
  {
    Progress(true, m.asked || m.home, if m.home then Some(true) else None, m.noted, m.touched, m.thread, m.startId,
             m.started, m.resumeId, m.resumed, waiting, m.done)
  }

  predicate Answered(waiting: set<Option<Id>>, e: Event)
  {
    AnswersSkills(e) && Some(e.answers) in waiting
  }

  function NextMemory(l: Lease, m: Memory, waiting: set<Option<Id>>, e: Event): Memory
  {
    Memory(
      m.asked || AsksFirst(e), m.home || IsHome(e), m.noted || NotesFirst(e),
      if AsksResume(e) then e.id else m.resumeId, if AsksStart(e) then e.id else m.startId,
      m.resumed || AnswersResume(e),
      if m.resumed || AnswersResume(e) then l.resume else if StartsThread(e) then l.threadOf(e.detail) else m.thread,
      m.announced || NotesStarted(e), if NotesStarted(e) then l.threadOf(e.detail) else m.started,
      m.touched || AsksResume(e) || AsksStart(e) || AnswersResume(e) || StartsThread(e) || NotesStarted(e)
        || (AsksSkills(e) && m.resumed),
      m.done || Answered(waiting, e))
  }

  function NextWaiting(m: Memory, waiting: set<Option<Id>>, e: Event): set<Option<Id>>
  {
    if AsksSkills(e) && m.resumed then waiting + {e.id}
    else if Answered(waiting, e) then waiting - {Some(e.answers)}
    else waiting
  }

  predicate MayFollow(l: Lease, m: Memory, waiting: set<Option<Id>>, e: Event)
  {
    && !e.Gap?
    && (AsksFirst(e) ==> !m.asked && !m.home)
    && (IsHome(e) ==> l.homeMatches(e.detail))
    && (NotesFirst(e) ==> m.home && !m.noted)
    && (AsksResume(e) ==> m.noted && !m.touched && IsThread(l, l.resume) && l.threadOf(e.detail) == l.resume)
    && (AsksStart(e) ==> l.resume.None? && m.noted && m.thread.None? && l.cwdOf(e.detail) == l.cwd)
    && (AnswersResume(e) ==>
          && e.ok && e.direction.Server? && m.resumeId == Some(e.answers) && !m.resumed
          && IsThread(l, l.resume) && l.threadOf(e.detail) == l.resume && l.threadCwdOf(e.detail) == l.cwd)
    && (Answered(waiting, e) ==> e.ok && e.direction.Server?)
    && (StartsThread(e) ==>
          && e.direction.Server? && m.startId == Some(e.answers) && m.thread.None?
          && IsThread(l, l.threadOf(e.detail)) && l.threadCwdOf(e.detail) == l.cwd)
    && (NotesStarted(e) ==>
          IsThread(l, l.threadOf(e.detail)) && l.threadOf(e.detail) == m.thread && !m.announced)
    && (e.RpcUnknown? ==> !(e.response && e.unknown.None?))
  }

  predicate Consistent(l: Lease, m: Memory, waiting: set<Option<Id>>)
  {
    && (m.announced <==> m.started.Some?) && (m.resumed ==> m.thread == l.resume && l.resume.Some?)
    && (!m.resumed ==> waiting == {})
  }

  /** One row: the automaton goes on exactly if the row may follow, and remembers it. */
  ghost predicate Goes(l: Lease, m: Memory, waiting: set<Option<Id>>, e: Event, q: Progress)
  {
    && (q.valid <==> MayFollow(l, m, waiting, e))
    && (q.valid ==>
          && q == ToProgress(NextMemory(l, m, waiting, e), NextWaiting(m, waiting, e))
          && Consistent(l, NextMemory(l, m, waiting, e), NextWaiting(m, waiting, e)))
  }

  lemma InitializeGoes(l: Lease, m: Memory, waiting: set<Option<Id>>, e: Event)
    requires Consistent(l, m, waiting) && Asks(e, Initialize)
    ensures Goes(l, m, waiting, e, Advance(l, ToProgress(m, waiting), e))
  {
    hide KindOf;
  }

  lemma InitializedGoes(l: Lease, m: Memory, waiting: set<Option<Id>>, e: Event)
    requires Consistent(l, m, waiting) && Asks(e, InitializedNote)
    ensures Goes(l, m, waiting, e, Advance(l, ToProgress(m, waiting), e))
  {
    hide KindOf;
  }

  lemma AskResumeGoes(l: Lease, m: Memory, waiting: set<Option<Id>>, e: Event)
    requires Consistent(l, m, waiting) && Asks(e, ThreadResume)
    ensures Goes(l, m, waiting, e, Advance(l, ToProgress(m, waiting), e))
  {
    hide KindOf;
  }

  lemma AskSkillsGoes(l: Lease, m: Memory, waiting: set<Option<Id>>, e: Event)
    requires Consistent(l, m, waiting) && Asks(e, SkillsList)
    ensures Goes(l, m, waiting, e, Advance(l, ToProgress(m, waiting), e))
  {
    hide KindOf;
  }

  lemma AskStartGoes(l: Lease, m: Memory, waiting: set<Option<Id>>, e: Event)
    requires Consistent(l, m, waiting) && Asks(e, ThreadStart)
    ensures Goes(l, m, waiting, e, Advance(l, ToProgress(m, waiting), e))
  {
    hide KindOf;
  }

  lemma ClientGoes(l: Lease, m: Memory, waiting: set<Option<Id>>, e: Event)
    requires Consistent(l, m, waiting) && e.RpcEvent? && e.direction.Client?
    ensures Goes(l, m, waiting, e, Advance(l, ToProgress(m, waiting), e))
  {
    hide KindOf, Goes, Advance, Consistent;
    match KindOf(e.name)
    case Initialize => InitializeGoes(l, m, waiting, e);
    case InitializedNote => InitializedGoes(l, m, waiting, e);
    case ThreadResume => AskResumeGoes(l, m, waiting, e);
    case SkillsList => AskSkillsGoes(l, m, waiting, e);
    case ThreadStart => AskStartGoes(l, m, waiting, e);
    case _ => OtherGoes(l, m, waiting, e);
  }

  lemma OtherGoes(l: Lease, m: Memory, waiting: set<Option<Id>>, e: Event)
    requires Consistent(l, m, waiting) && e.RpcEvent? && e.direction.Client?
    requires KindOf(e.name).ThreadStartedNote? || KindOf(e.name).Other?
    ensures Goes(l, m, waiting, e, Advance(l, ToProgress(m, waiting), e))
  {
    hide KindOf;
  }

  lemma StartedGoes(l: Lease, m: Memory, waiting: set<Option<Id>>, e: Event)
    requires Consistent(l, m, waiting) && NotesStarted(e)
    ensures Goes(l, m, waiting, e, Advance(l, ToProgress(m, waiting), e))
  {
    hide KindOf;
  }

  lemma ServerOtherGoes(l: Lease, m: Memory, waiting: set<Option<Id>>, e: Event)
    requires Consistent(l, m, waiting) && e.RpcEvent? && e.direction.Server? && !KindOf(e.name).ThreadStartedNote?
    ensures Goes(l, m, waiting, e, Advance(l, ToProgress(m, waiting), e))
  {
    hide KindOf;
  }

  lemma ServerGoes(l: Lease, m: Memory, waiting: set<Option<Id>>, e: Event)
    requires Consistent(l, m, waiting) && e.RpcEvent? && e.direction.Server?
    ensures Goes(l, m, waiting, e, Advance(l, ToProgress(m, waiting), e))
  {
    hide KindOf, Goes, Advance, Consistent;
    if KindOf(e.name).ThreadStartedNote? {
      StartedGoes(l, m, waiting, e);
    } else {
      ServerOtherGoes(l, m, waiting, e);
    }
  }

  lemma HomeGoes(l: Lease, m: Memory, waiting: set<Option<Id>>, e: Event)
    requires Consistent(l, m, waiting) && Answers(e, Initialize)
    ensures Goes(l, m, waiting, e, Advance(l, ToProgress(m, waiting), e))
  {
    OnlyHome(l, m, waiting, e);
    AdvanceHome(l, ToProgress(m, waiting), e);
    hide KindOf, MayFollow, NextMemory, NextWaiting, Advance, IsHome;
  }

  lemma AdvanceHome(l: Lease, s: Progress, e: Event)
    requires Answers(e, Initialize)
    ensures Advance(l, s, e) == if IsHome(e) then Home(l, s, e) else s
  {
    hide KindOf;
  }

  lemma OnlyHome(l: Lease, m: Memory, waiting: set<Option<Id>>, e: Event)
    requires Consistent(l, m, waiting) && Answers(e, Initialize)
    ensures MayFollow(l, m, waiting, e) <==> (IsHome(e) ==> l.homeMatches(e.detail))
    ensures NextMemory(l, m, waiting, e) == m.(home := m.home || IsHome(e)) && NextWaiting(m, waiting, e) == waiting
  {
    hide KindOf;
  }

  lemma ResumedGoes(l: Lease, m: Memory, waiting: set<Option<Id>>, e: Event)
    requires Consistent(l, m, waiting) && Answers(e, ThreadResume)
    ensures Goes(l, m, waiting, e, Advance(l, ToProgress(m, waiting), e))
  {
    hide KindOf;
  }

  lemma SkillsGoes(l: Lease, m: Memory, waiting: set<Option<Id>>, e: Event)
    requires Consistent(l, m, waiting) && Answers(e, SkillsList)
    ensures Goes(l, m, waiting, e, Advance(l, ToProgress(m, waiting), e))
  {
    hide KindOf;
  }

  lemma StartGoes(l: Lease, m: Memory, waiting: set<Option<Id>>, e: Event)
    requires Consistent(l, m, waiting) && Answers(e, ThreadStart)
    ensures Goes(l, m, waiting, e, Advance(l, ToProgress(m, waiting), e))
  {
    hide KindOf;
  }

  lemma ResponseOtherGoes(l: Lease, m: Memory, waiting: set<Option<Id>>, e: Event)
    requires Consistent(l, m, waiting) && (Answers(e, InitializedNote) || Answers(e, ThreadStartedNote)
                                           || Answers(e, Kind.Other))
    ensures Goes(l, m, waiting, e, Advance(l, ToProgress(m, waiting), e))
  {
    hide KindOf;
  }

  lemma ResponseGoes(l: Lease, m: Memory, waiting: set<Option<Id>>, e: Event)
    requires Consistent(l, m, waiting) && e.RpcResponse?
    ensures Goes(l, m, waiting, e, Advance(l, ToProgress(m, waiting), e))
  {
    hide KindOf, Goes, Advance, Consistent;
    match KindOf(e.name)
    case Initialize => HomeGoes(l, m, waiting, e);
    case ThreadResume => ResumedGoes(l, m, waiting, e);
    case SkillsList => SkillsGoes(l, m, waiting, e);
    case ThreadStart => StartGoes(l, m, waiting, e);
    case _ => ResponseOtherGoes(l, m, waiting, e);
  }

  lemma RowGoes(l: Lease, m: Memory, waiting: set<Option<Id>>, e: Event)
    requires Consistent(l, m, waiting) && IsRow(e)
    ensures Goes(l, m, waiting, e, Advance(l, ToProgress(m, waiting), e))
  {
    if e.RpcUnknown? {
    } else {
      hide Advance, Goes;
      if e.RpcResponse? {
        ResponseGoes(l, m, waiting, e);
      } else if e.direction.Client? {
        ClientGoes(l, m, waiting, e);
      } else {
        ServerGoes(l, m, waiting, e);
      }
    }
  }

  // ---------------------------------------------------------------- the session by its records

  ghost predicate Waits(events: Told, waiting: set<Option<Id>>)
  {
    forall id :: id in waiting <==> SkillsWait(events, id)
  }

  /** A valid session is what its records say. */
  ghost predicate Remembers(l: Lease, events: Told, s: Session)
  {
    && s.progress == ToProgress(MemoryOf(l, events), s.progress.skillsPending)
    && Waits(events, s.progress.skillsPending) && Consistent(l, MemoryOf(l, events), s.progress.skillsPending)
    && s.rows == RowCount(events) <= MAX_ROWS && (s.turnStarts == s.turnSteers == 0 <==> !Ever(events, TurnsBegin))
    && !s.closed && !s.published
  }

  lemma MemoryMore(l: Lease, events: Told, r: Record, waiting: set<Option<Id>>)
    requires Waits(events, waiting)
    ensures MemoryOf(l, events + [r]) == NextMemory(l, MemoryOf(l, events), waiting, r.event)
    ensures Waits(events + [r], NextWaiting(MemoryOf(l, events), waiting, r.event))
  {
    hide Ever, LastId, LastThread, ThreadTold, SkillsWait, SkillsDone, Touched, KindOf;
    AllMore(events, r);
    EverythingMore(l, events, r);
    WaitingMore(events, r);
    TouchesMore(events, r);
    DoneMore(events, r);
    WaitsAfterResume(events);
  }

  lemma WaitsAfterResume(events: Told)
    ensures forall id :: SkillsWait(events, id) ==> Ever(events, AnswersResume)
  {
    forall id | SkillsWait(events, id) ensures Ever(events, AnswersResume) {
      var k :| 0 <= k < |events| && SkillsFrom(events, k, id);
      var j :| 0 <= j < k && AnswersResume(events[..k][j].event);
      assert AnswersResume(events[j].event);
    }
  }

  lemma AllowedFollows(l: Lease, events: Told, e: Event, waiting: set<Option<Id>>)
    requires Waits(events, waiting)
    ensures Allowed(l, events, e) <==> MayFollow(l, MemoryOf(l, events), waiting, e)
  {
    hide Ever, LastId, LastThread, ThreadTold, SkillsWait, SkillsDone, Touched, KindOf;
  }

  lemma CountMore(events: Told, r: Record)
    ensures RowCount(events + [r]) == RowCount(events) + if IsRow(r.event) then 1 else 0
  {
    assert (events + [r])[..|events|] == events;
  }

  /** A record that is no row is of no kind that matters here. */
  lemma NoRow(l: Lease, m: Memory, waiting: set<Option<Id>>, e: Event)
    requires !IsRow(e) && Consistent(l, m, waiting)
    ensures NextMemory(l, m, waiting, e) == m && NextWaiting(m, waiting, e) == waiting && !TurnsBegin(e)
    ensures MayFollow(l, m, waiting, e) <==> !e.Gap?
  {
    hide KindOf;
  }

  lemma TurnsMore(events: Told, r: Record)
    ensures Ever(events + [r], TurnsBegin) <==> Ever(events, TurnsBegin) || TurnsBegin(r.event)
  {
    EverMore(events, r, TurnsBegin);
  }

  /** A row after the limit ends the session; one within it counts. */
  lemma FollowCounts(l: Lease, s: Session, e: Event)
    requires IsRow(e) && s.progress.valid
    ensures var t := Follow(l, s, e);
            if s.rows >= MAX_ROWS then !t.progress.valid
            else
              && t.progress == Advance(l, s.progress, e) && t.rows == s.rows + 1 && t.closed == s.closed
              && t.published == s.published
              && (t.turnStarts == t.turnSteers == 0 <==> s.turnStarts == s.turnSteers == 0 && !TurnsBegin(e))
  {
    hide Advance, KindOf;
  }

  lemma FollowRemembers(l: Lease, events: Told, r: Record, s: Session)
    requires Remembers(l, events, s)
    ensures var t, count := Follow(l, s, r.event), RowCount(events + [r]);
            && (t.progress.valid <==> Allowed(l, events, r.event) && count <= MAX_ROWS)
            && (t.progress.valid ==> Remembers(l, events + [r], t))
  {
    hide Ever, Allowed, MayFollow, NextMemory, NextWaiting, MemoryOf, Waits, ToProgress, Consistent, Advance, RowCount,
      TurnsBegin;
    var m, waiting, e := MemoryOf(l, events), s.progress.skillsPending, r.event;
    MemoryMore(l, events, r, waiting);
    AllowedFollows(l, events, e, waiting);
    CountMore(events, r);
    TurnsMore(events, r);
    ValidProgress(m, waiting);
    if IsRow(e) {
      RowGoes(l, m, waiting, e);
      FollowCounts(l, s, e);
      SkillsOfProgress(NextMemory(l, m, waiting, e), NextWaiting(m, waiting, e));
    } else {
      NoRow(l, m, waiting, e);
    }
  }

  lemma ValidProgress(m: Memory, waiting: set<Option<Id>>)
    ensures ToProgress(m, waiting).valid
  {
  }

  lemma SkillsOfProgress(m: Memory, waiting: set<Option<Id>>)
    ensures ToProgress(m, waiting).skillsPending == waiting
  {
  }

  lemma LawfulMore(l: Lease, events: Told, r: Record)
    ensures Lawful(l, events + [r]) <==>
            Lawful(l, events) && Allowed(l, events, r.event) && RowCount(events + [r]) <= MAX_ROWS
  {
    hide Allowed;
    var all := events + [r];
    CountMore(events, r);
    assert all[..|events|] == events && all[|events|] == r;
    assert forall k :: 0 <= k < |events| ==> all[..k] == events[..k] && all[k] == events[k];
    if Lawful(l, all) {
      assert Allowed(l, all[..|events|], all[|events|].event);
      forall k | 0 <= k < |events| ensures Allowed(l, events[..k], events[k].event) {
        assert Allowed(l, all[..k], all[k].event);
      }
    }
  }

  lemma NothingTold(l: Lease)
    ensures Remembers(l, [], Opened(true)) && Lawful(l, [])
  {
    assert forall id :: !SkillsWait([], id);
  }

  /**
    A session is valid exactly if each of its records was allowed after the ones before, and
    then it is what they say.
   */
  lemma {:induction false} SessionTold(l: Lease, events: Told)
    ensures var s := FollowAll(l, Opened(true), events);
            (s.progress.valid <==> Lawful(l, events)) && (s.progress.valid ==> Remembers(l, events, s))
    decreases |events|
  {
    hide Follow, Remembers, Lawful;
    if events == [] {
      NothingTold(l);
    } else {
      var init, r := events[..|events| - 1], events[|events| - 1];
      assert init + [r] == events;
      SessionTold(l, init);
      LawfulMore(l, init, r);
      var s := FollowAll(l, Opened(true), init);
      if s.progress.valid {
        FollowRemembers(l, init, r, s);
      } else {
        InvalidStays(l, s, r.event);
      }
    }
  }

  /** What has to be told for ready. */
  ghost predicate ReadyTold(l: Lease, events: Told)
  {
    && Lawful(l, events)
    && UpgradedBefore(events, Client, |events|) && UpgradedBefore(events, Server, |events|)
    && Ever(events, NotesFirst) && ThreadTold(l, events).Some?
    && (ThreadTold(l, events) == LastThread(l, events, NotesStarted) || SkillsDone(events))
    && !Ever(events, TurnsBegin)
  }

  /** A session is ready exactly if its records say so. */
  lemma ReadyIff(l: Lease, events: Told)
    ensures Ready(FollowAll(l, Opened(true), events)) <==> ReadyTold(l, events)
  {
    SessionTold(l, events);
    UpgradesExact(l, events, Client);
    UpgradesExact(l, events, Server);
    var s := FollowAll(l, Opened(true), events);
    hide FollowAll, Lawful, LastThread, ThreadTold, SkillsDone, Touched, LastId, KindOf, UpgradedBefore;
    AllDirections(s.upgrades);
    if Lawful(l, events) && Ever(events, NotesFirst) {
      NotedAfterHome(l, events);
    }
    hide Ever;
  }

  lemma AllDirections(ds: set<Direction>)
    ensures ds == {Client, Server} <==> Client in ds && Server in ds
  {
    if Client in ds && Server in ds {
      forall d: Direction ensures d in ds <==> d in {Client, Server} {
        assert d == Client || d == Server;
      }
    }
  }

  lemma NotedAfterHome(l: Lease, events: Told)
    requires Lawful(l, events) && Ever(events, NotesFirst)
    ensures Ever(events, IsHome)
  {
    hide KindOf, IsHome;
    var k :| 0 <= k < |events| && NotesFirst(events[k].event);
    assert Allowed(l, events[..k], events[k].event);
    var j :| 0 <= j < k && IsHome(events[..k][j].event);
    assert IsHome(events[j].event);
  }
}
