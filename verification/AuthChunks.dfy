/**
  The auth gate and the way its stream is cut into calls.  It bounds the whole header, so no
  cut stalls; and a close frame ends it, so that nothing, not even an empty call, may follow.
 */
module AuthChunks {
  import opened Bytes
  import opened GateSpec
  import opened GateTheorems

  /** One call that meets a close frame with nothing behind it leaves the gate closed; octets behind it are refused. */
  ghost predicate Ends(g: Gate, first: Outcome, b: Octets, whole: Outcome)
  {
    && first.Accepted? && Feed(g, first.wire, first.pending, b).Rejected?
    && if b == [] then whole == first else whole.Rejected?
  }

  /** What two calls are to one, if the first leaves the gate open or closed. */
  ghost predicate Divides(g: Gate, first: Outcome, b: Octets, whole: Outcome)
  {
    if first.wire.closed then Ends(g, first, b, whole)
    else Splits(first, Feed(g, first.wire, first.pending, b), b, whole)
  }

  lemma MoreNothing(w: Wire)
    ensures More(w, []) == w
  {
    assert w.buffer + [] == w.buffer;
  }

  lemma FeedOpen(g: Gate, w: Wire, pending: set<Id>, data: Octets)
    requires w.upgraded && !w.closed && |data| <= MAX_CHUNK
    ensures Feed(g, w, pending, data) == Drain(g, More(w, data), pending)
  {
  }

  lemma DrainUpgraded(g: Gate, w: Wire, pending: set<Id>)
    requires Wellformed(g, w) && w.upgraded
    ensures Drain(g, w, pending).Accepted? ==> Drain(g, w, pending).wire.upgraded
  {
    hide Drain, Wellformed;
    DrainWellformed(g, w, pending);
  }

  /** After the header has been released, or with none, as `header` says. */
  lemma DrainDivides(g: Gate, u: Wire, pending: set<Id>, header: Outcome, b: Octets)
    requires g.auth && Wellformed(g, u) && u.upgraded && !u.closed && header.Accepted? && |b| <= MAX_CHUNK
    ensures Divides(g, Then(header, Drain(g, u, pending)), b, Then(header, Drain(g, More(u, b), pending)))
  {
    hide NextFrame, TakeFrame, Drain, Wellformed, Unfinished, Payloads;
    DrainMore(g, u, pending, b);
    DrainUpgraded(g, u, pending);
    var d := Drain(g, u, pending);
    if d.wire.closed {
      MoreNothing(u);
    } else {
      SplitsBehind(header, d, Drain(g, More(d.wire, b), d.pending), b, Drain(g, More(u, b), pending));
      if d.Accepted? {
        FeedOpen(g, d.wire, d.pending, b);
      }
    }
  }

  lemma MoreWellformed(g: Gate, w: Wire, a: Octets)
    requires Wellformed(g, w) && !w.closed
    ensures Wellformed(g, More(w, a)) && !More(w, a).closed
  {
    hide Unfinished, Payloads;
  }

  /** A header that ends in these octets. */
  lemma FeedHeaded(g: Gate, w: Wire, pending: set<Id>, data: Octets, end: nat)
    requires g.auth && !w.upgraded && !w.closed && |data| <= MAX_CHUNK
             && FindHeaderEnd(w.buffer + data) == HeaderEnd(end)
    ensures Feed(g, w, pending, data) ==
            if end > MAX_HANDSHAKE then Rejected("websocket_handshake_size", More(w, data), pending)
            else Then(Accepted(w, pending, (w.buffer + data)[..end], []),
                      Drain(g, w.(upgraded := true, buffer := (w.buffer + data)[end..]), pending))
  {
    hide NextFrame, TakeFrame, Drain, FindHeaderEnd;
  }

  lemma FeedHeadless(g: Gate, w: Wire, pending: set<Id>, data: Octets)
    requires g.auth && !w.upgraded && !w.closed && |data| <= MAX_CHUNK && FindHeaderEnd(w.buffer + data).NoHeaderEnd?
    ensures Feed(g, w, pending, data) ==
            if |w.buffer + data| > MAX_HANDSHAKE then Rejected("websocket_handshake_size", More(w, data), pending)
            else Accepted(More(w, data), pending, [], [])
  {
    hide FindHeaderEnd;
  }

  lemma HeadedDivides(g: Gate, w: Wire, pending: set<Id>, a: Octets, b: Octets, end: nat)
    requires g.auth && Wellformed(g, w) && !w.upgraded && |a| + |b| <= MAX_CHUNK
    requires FindHeaderEnd(w.buffer + a) == HeaderEnd(end) == FindHeaderEnd(w.buffer + (a + b))
    ensures Divides(g, Feed(g, w, pending, a), b, Feed(g, w, pending, a + b))
  {
    hide NextFrame, TakeFrame, Drain, Feed, FindHeaderEnd, Unfinished, Payloads;
    FeedHeaded(g, w, pending, a, end);
    FeedHeaded(g, w, pending, a + b, end);
    assert w.buffer + a + b == w.buffer + (a + b);
    if end <= MAX_HANDSHAKE {
      CutBefore(w.buffer, a, b, end);
      var u := w.(upgraded := true, buffer := (w.buffer + a)[end..]);
      DrainDivides(g, u, pending, Accepted(w, pending, (w.buffer + a)[..end], []), b);
    }
  }

  lemma HeadlessDivides(g: Gate, w: Wire, pending: set<Id>, a: Octets, b: Octets)
    requires g.auth && Wellformed(g, w) && !w.upgraded && |a| + |b| <= MAX_CHUNK
    requires FindHeaderEnd(w.buffer + a).NoHeaderEnd?
    ensures Divides(g, Feed(g, w, pending, a), b, Feed(g, w, pending, a + b))
  {
    hide NextFrame, TakeFrame, Drain, Feed, FindHeaderEnd, Wellformed;
    var wa := More(w, a);
    assert wa.buffer + b == w.buffer + (a + b);
    assert !w.closed by { MoreClosed(g, w); }
    FeedHeadless(g, w, pending, a);
    HeaderEndStable(wa.buffer, b);
    if |wa.buffer| > MAX_HANDSHAKE {
      if FindHeaderEnd(wa.buffer + b).HeaderEnd? {
        FeedHeaded(g, w, pending, a + b, FindHeaderEnd(wa.buffer + b).end);
      } else {
        FeedHeadless(g, w, pending, a + b);
      }
    } else {
      FeedLater(g, w, pending, a, b);
      ThenNothing(wa, pending, Feed(g, wa, pending, b));
    }
  }

  lemma MoreClosed(g: Gate, w: Wire)
    requires Wellformed(g, w) && !w.upgraded
    ensures !w.closed
  {
  }

  /** Octets of an unfinished header may arrive in a call of their own. */
  lemma FeedLater(g: Gate, w: Wire, pending: set<Id>, a: Octets, b: Octets)
    requires !w.upgraded && !w.closed && |a| + |b| <= MAX_CHUNK
    ensures Feed(g, More(w, a), pending, b) == Feed(g, w, pending, a + b)
  {
    hide Drain, FindHeaderEnd;
    assert More(More(w, a), b) == More(w, a + b) by {
      assert w.buffer + a + b == w.buffer + (a + b);
    }
  }

  /** Two calls against one call with the same octets, rejections and the close frame included. */
  lemma AuthFeedSplit(g: Gate, w: Wire, pending: set<Id>, a: Octets, b: Octets)
    requires g.auth && Wellformed(g, w) && !w.closed && |a| + |b| <= MAX_CHUNK
    ensures Divides(g, Feed(g, w, pending, a), b, Feed(g, w, pending, a + b))
  {
    hide NextFrame, TakeFrame, Drain, Feed, FindHeaderEnd, Wellformed, Divides;
    if w.upgraded {
      var wa := More(w, a);
      MoreWellformed(g, w, a);
      assert More(wa, b) == More(w, a + b) by {
        assert w.buffer + a + b == w.buffer + (a + b);
      }
      FeedOpen(g, w, pending, a);
      FeedOpen(g, w, pending, a + b);
      DrainDivides(g, wa, pending, Accepted(w, pending, [], []), b);
      ThenNothing(w, pending, Drain(g, wa, pending));
      ThenNothing(w, pending, Drain(g, More(wa, b), pending));
    } else if FindHeaderEnd(w.buffer + a).NoHeaderEnd? {
      HeadlessDivides(g, w, pending, a, b);
    } else {
      HeaderEndStable(w.buffer + a, b);
      assert w.buffer + a + b == w.buffer + (a + b);
      HeadedDivides(g, w, pending, a, b, FindHeaderEnd(w.buffer + a).end);
    }
  }

  lemma FeedEmpty(g: Gate, w: Wire, pending: set<Id>)
    requires Settled(g, w) && !w.closed
    ensures Feed(g, w, pending, []) == Accepted(w, pending, [], [])
  {
    MoreNothing(w);
    hide FindHeaderEnd;
  }

  /** A closed gate takes no call. */
  lemma FeedClosed(g: Gate, w: Wire, pending: set<Id>, chunks: seq<Octets>)
    requires g.auth && w.closed
    ensures FeedAll(g, w, pending, chunks).Accepted? <==> chunks == []
    ensures chunks == [] ==> FeedAll(g, w, pending, chunks) == Accepted(w, pending, [], [])
  {
  }

  lemma {:induction false} FlattenNothing(chunks: seq<Octets>)
    requires Flatten(chunks) == [] && chunks != []
    ensures chunks[|chunks| - 1] == []
  {
    if |chunks| > 1 {
      FlattenNothing(chunks[1..]);
    }
  }

  /** The last of these calls brings something. */
  predicate LastBrings(chunks: seq<Octets>)
  {
    chunks != [] && chunks[|chunks| - 1] != []
  }

  /**
    Every way of cutting a stream into calls: they are accepted exactly if one call with the
    whole stream is and, where a close frame ends it, no empty call follows; and then output,
    messages and state are the same.
   */
  lemma {:induction false} AuthChunksIff(g: Gate, w: Wire, pending: set<Id>, chunks: seq<Octets>)
    requires g.auth && Wellformed(g, w) && Settled(g, w) && !w.closed && |Flatten(chunks)| <= MAX_CHUNK
    ensures var r, whole := FeedAll(g, w, pending, chunks), Feed(g, w, pending, Flatten(chunks));
            && (r.Accepted? <==> whole.Accepted? && (whole.wire.closed ==> LastBrings(chunks)))
            && (r.Accepted? ==> r == whole)
    decreases |chunks|
  {
    hide NextFrame, TakeFrame, Drain, Feed, Wellformed, Settled;
    if chunks == [] {
      FeedEmpty(g, w, pending);
    } else {
      var a, rest := chunks[0], Flatten(chunks[1..]);
      var first := Feed(g, w, pending, a);
      AuthFeedSplit(g, w, pending, a, rest);
      FeedWellformed(g, w, pending, a);
      if first.Accepted? && !first.wire.closed {
        AuthChunksIff(g, first.wire, first.pending, chunks[1..]);
      } else if first.Accepted? {
        FeedClosed(g, first.wire, first.pending, chunks[1..]);
        FeedEmpty(g, w, pending);
        if rest == [] && chunks[1..] != [] {
          FlattenNothing(chunks[1..]);
        }
      }
    }
  }
}
