/**
  The metadata sink: it feeds relayed chunks to the observer, follows its records, and
  publishes ready once.
 */
module OwnerSink {
  import opened Bytes
  import opened ObserverSpec
  import opened ObserverEvidence
  import opened IdConservation
  import opened ObserverRows
  import opened Observer
  import opened OwnerReadiness
  import opened OwnerResume

  lemma FollowOneApart(l: Lease, s: Session, e: Event, closed: bool, published: bool)
    ensures Follow(l, s.(closed := closed, published := published), e)
            == Follow(l, s, e).(closed := closed, published := published)
  {
    hide Advance, IsTurn, Fail, Home, IsHome;
    if e.Gap? {
    } else if e.Upgraded? {
    } else if !IsRow(e) {
    } else if s.rows >= MAX_ROWS {
    } else {
    }
  }

  /** Closing and publishing change nothing of what the records change. */
  lemma {:induction false} FollowApart(l: Lease, s: Session, events: seq<Record>, closed: bool, published: bool)
    ensures FollowAll(l, s.(closed := closed, published := published), events)
            == FollowAll(l, s, events).(closed := closed, published := published)
    decreases |events|
  {
    hide Follow;
    if events != [] {
      var init, e := events[..|events| - 1], events[|events| - 1].event;
      FollowApart(l, s, init, closed, published);
      FollowOneApart(l, FollowAll(l, s, init), e, closed, published);
    }
  }

  /** A direction is between messages once its handshake is done and it holds nothing. */
  predicate AtBoundary(p: Parser)
  {
    p.upgraded && p.buffer == [] && p.fragment.None?
  }

  /** The metadata sink of one leased connection; `receipts` counts what it has published. */
  class MetadataSink {
    const lease: Lease
    const leased: bool
    const observer: ConnectionObserver
    var session: Session
    var receipts: nat

    ghost predicate Valid()
      reads this, observer
    {
      && observer.Valid() && Evident(observer.State())
      && Tabled(observer.limits, observer.State().link) && Told(observer.limits, observer.State().link)
      && receipts == (if session.published then 1 else 0)
      && (session.progress.valid ==>
            session == FollowAll(lease, Opened(leased), observer.events)
                         .(closed := session.closed, published := session.published))
    }

    constructor (lease: Lease, leased: bool, limits: Config)
      ensures Valid() && fresh(observer) && this.lease == lease && this.leased == leased
      ensures session == Opened(leased) && receipts == 0 && observer.limits == limits
    {
      this.lease, this.leased := lease, leased;
      observer := new ConnectionObserver(limits);
      session, receipts := Opened(leased), 0;
      new;
      OpenedTold(observer.limits);
    }

    /** Decoder and relay gaps end the session. */
    method OnGap()
      requires Valid()
      modifies this
      ensures Valid() && !session.progress.valid && receipts == old(receipts)
    {
      session := session.(progress := session.progress.(valid := false));
    }

    method OnClose()
      requires Valid()
      modifies this
      ensures Valid() && session == old(session).(closed := true) && receipts == old(receipts)
    {
      session := session.(closed := true);
    }

    method FollowRecords(added: seq<Record>)
      modifies this`session
      ensures session == FollowAll(lease, old(session), added)
    {
      hide Follow;
      ghost var before := session;
      for k := 0 to |added|
        invariant session == FollowAll(lease, before, added[..k])
      {
        assert added[..k + 1][..k] == added[..k];
        session := Follow(lease, session, added[k].event);
      }
      assert added[..|added|] == added;
    }

    /** One chunk through the observer, and its records followed. */
    method FollowChunk(d: Direction, data: Octets)
      requires Valid()
      modifies this`session, observer
      ensures Valid() && receipts == old(receipts)
      ensures observer.State() == Observe(observer.limits, old(observer.State()), d, data)
      ensures old(observer.events) <= observer.events
      ensures session == FollowAll(lease, old(session), observer.events[|old(observer.events)|..])
      ensures session.published == old(session.published) && session.closed == old(session.closed)
      ensures !old(session.progress.valid) ==> !session.progress.valid
    {
      hide Evident, FollowAll, Observe, Tabled, Told;
      ghost var events, s := observer.events, session;
      ObserveEvident(observer.limits, observer.State(), d, data);
      ObserveTabled(observer.limits, observer.State(), d, data);
      ObserveTold(observer.limits, observer.State(), d, data);
      var added := observer.Feed(d, data);
      FollowRecords(added);
      Followed(lease, leased, s, session, events, added);
      assert observer.events[|events|..] == added;
    }

    /**
      One relayed chunk.  Ready is looked at after the whole chunk has been parsed: it is
      published exactly if the records followed so far are ready and both directions are at
      a message boundary; at most once in the epoch, and only after the whole handshake, of a
      fresh thread or of a resumed one as the lease says, in which every success on record
      is one that was sent; an invalid session stays so.
     */
    method OnData(d: Direction, data: Octets)
      requires Valid()
      modifies this, observer
      ensures Valid() && old(receipts) <= receipts <= 1
      ensures observer.State() == Observe(observer.limits, old(observer.State()), d, data)
      ensures !old(session.progress.valid) ==> !session.progress.valid && receipts == old(receipts)
      ensures old(observer.events) <= observer.events
      ensures var followed := FollowAll(lease, old(session), observer.events[|old(observer.events)|..]);
              && (receipts > old(receipts) <==>
                    Ready(followed) && AtBoundary(observer.client) && AtBoundary(observer.server) && observer.valid)
              && session == followed.(published := followed.published || receipts > old(receipts))
      ensures receipts > old(receipts) ==>
                && !session.closed && Backed(observer.limits, observer.State().link)
                && if lease.resume.None? then HandshakeDone(lease, observer.events)
                else ResumptionDone(lease, observer.events)
    {
      hide Ready, Evident, FollowAll, Observe, Handshake, Resumption, Tabled, Told, Backed;
      FollowChunk(d, data);
      EvidentFounded(observer.State());
      ToldBacked(observer.limits, observer.State().link);
      if Ready(session) && AtBoundary(observer.client) && AtBoundary(observer.server) && observer.valid {
        ReadyUnpublished(session);
        Published(lease, leased, session, observer.events);
        receipts := receipts + 1;
        session := session.(published := true);
      }
    }
  }

  lemma OpenedTold(c: Config)
    ensures Told(c, OPENED.link) && Tabled(c, OPENED.link)
  {
    assert TableOf(c, [], map[]);
  }

  lemma EvidentFounded(o: Obs)
    requires Evident(o)
    ensures AllFounded(o.link.events)
  {
  }

  lemma ReadyUnpublished(s: Session)
    requires Ready(s)
    ensures s.progress.valid && !s.published && !s.closed
  {
  }

  /** The session keeps following all records, as long as it is valid. */
  lemma Followed(l: Lease, leased: bool, s: Session, s': Session, events: seq<Record>, added: seq<Record>)
    requires s' == FollowAll(l, s, added)
    requires s.progress.valid ==>
               s == FollowAll(l, Opened(leased), events).(closed := s.closed, published := s.published)
    ensures s'.closed == s.closed && s'.published == s.published
    ensures !s.progress.valid ==> !s'.progress.valid
    ensures s'.progress.valid ==>
              s' == FollowAll(l, Opened(leased), events + added).(closed := s'.closed, published := s'.published)
  {
    hide FollowAll;
    FollowApart(l, s, added, s.closed, s.published);
    if s.progress.valid {
      var t := FollowAll(l, Opened(leased), events);
      FollowApart(l, t, added, s.closed, s.published);
      FollowAllSplit(l, Opened(leased), events, added);
    } else {
      InvalidForever(l, s, added);
    }
  }

  /** The session's records are those of a leased one, and ready is what they make of it. */
  lemma ReadyRecords(l: Lease, leased: bool, s: Session, events: seq<Record>)
    requires Ready(s) && s == FollowAll(l, Opened(leased), events).(closed := s.closed, published := s.published)
    ensures leased && Ready(FollowAll(l, Opened(true), events))
  {
    hide FollowAll;
    if leased {
      FollowApart(l, Opened(true), events, false, false);
    } else {
      InvalidForever(l, Opened(false), events);
    }
  }

  lemma Published(l: Lease, leased: bool, s: Session, events: seq<Record>)
    requires AllFounded(events) && Ready(s)
    requires s == FollowAll(l, Opened(leased), events).(closed := s.closed, published := s.published)
    ensures if l.resume.None? then HandshakeDone(l, events) else ResumptionDone(l, events)
  {
    hide FollowAll, AllFounded, Handshake, Resumption, Ready;
    ReadyRecords(l, leased, s, events);
    if l.resume.None? {
      var clientUp, serverUp, asked, m, id, thread := ReadyMeansHandshake(l, events);
      assert Handshake(l, events, clientUp, serverUp, asked, m, id, thread);
    } else {
      var clientUp, serverUp, asked, m, id := ReadyMeansResumed(l, events);
      assert Resumption(l, events, clientUp, serverUp, asked, m, id);
    }
  }
}
