/**
  Theorems about the native gate's byte stream: what one call and a whole run keep,
  how much can stay behind in the gate, and independence from the way the stream is
  cut into calls.
 */
module GateTheorems {
  import opened Bytes
  import opened GateSpec

  // ---------------------------------------------------------------- invariant

  /** `held` is the front of one unfinished text message: a text frame, then continuations, none final. */
  ghost predicate Unfinished(server: bool, held: seq<Octets>)
  {
    forall i :: 0 <= i < |held| ==>
      var p := NextFrame(server, held[i]);
      p.Got? && p.frame.raw == held[i] && !p.frame.fin && p.frame.opcode == if i == 0 then 1 else 0
  }

  /** The unmasked payload carried by raw frames. */
  ghost function Payloads(server: bool, held: seq<Octets>): Octets
  {
    if held == [] then []
    else
      var last := NextFrame(server, held[|held| - 1]);
      Payloads(server, held[..|held| - 1]) + if last.Got? then last.frame.payload else []
  }

  ghost predicate Wellformed(g: Gate, w: Wire)
  {
    && (!w.upgraded ==> !w.closed && w.held == [])
    && (w.closed ==> g.auth && w.buffer == [] && w.held == [])
    && Unfinished(g.server, w.held)
    && w.payload == Payloads(g.server, w.held)
    && |w.payload| <= MAX_PAYLOAD
  }

  /** Between calls nothing decodable is left in the buffer. */
  ghost predicate Settled(g: Gate, w: Wire)
  {
    if w.closed then w.buffer == []
    else if w.upgraded then NextFrame(g.server, w.buffer).NeedMore?
    else FindHeaderEnd(w.buffer).NoHeaderEnd? && |w.buffer| <= MAX_HANDSHAKE
  }

  lemma NothingHeld(g: Gate, w: Wire)
    requires Wellformed(g, w) && w.held == []
    ensures w.payload == []
  {
  }

  lemma HoldFrame(server: bool, held: seq<Octets>, f: Frame)
    requires Unfinished(server, held)
    requires NextFrame(server, f.raw) == Got(f) && !f.fin
    requires f.opcode == if held == [] then 1 else 0
    ensures Unfinished(server, held + [f.raw])
    ensures Payloads(server, held + [f.raw]) == Payloads(server, held) + f.payload
  {
    var all := held + [f.raw];
    assert all[..|all| - 1] == held;
  }

  lemma TakeFrameWellformed(g: Gate, w: Wire, pending: set<Id>, f: Frame)
    requires Wellformed(g, w) && w.upgraded && !w.closed
    requires NextFrame(g.server, f.raw) == Got(f) && |f.payload| <= MAX_PAYLOAD
    ensures var r := TakeFrame(g, w, pending, f);
            r.Accepted? ==> Wellformed(g, r.wire) && r.wire.upgraded
  {
    hide NextFrame, Flatten;
    var r := TakeFrame(g, w, pending, f);
    if r.Accepted? && f.opcode <= 1 && !f.fin {
      assert f.opcode == 1 ==> w.held == [] && w.held + [f.raw] == [f.raw];
      HoldFrame(g.server, w.held, f);
    }
  }

  lemma TakeFrameConserves(g: Gate, w: Wire, pending: set<Id>, f: Frame)
    requires !g.auth && !w.closed
    ensures var r := TakeFrame(g, w, pending, f);
            r.Accepted? ==> !r.wire.closed && r.output + Flatten(r.wire.held) == Flatten(w.held) + f.raw
  {
    FlattenSnoc(w.held, f.raw);
    assert w.held == [] ==> w.held + [f.raw] == [f.raw];
  }

  lemma {:induction false} DrainWellformed(g: Gate, w: Wire, pending: set<Id>)
    requires Wellformed(g, w) && w.upgraded
    ensures var r := Drain(g, w, pending);
            r.Accepted? ==> Wellformed(g, r.wire) && Settled(g, r.wire) && r.wire.upgraded
    decreases |w.buffer|
  {
    hide NextFrame, TakeFrame, Unfinished, Payloads;
    if !w.closed && NextFrame(g.server, w.buffer).Got? {
      var f := NextFrame(g.server, w.buffer).frame;
      DrainFrame(g, w, pending, f);
      hide Drain;
      var w' := w.(buffer := w.buffer[|f.raw|..]);
      TakeFrameWellformed(g, w', pending, f);
      var t := TakeFrame(g, w', pending, f);
      if t.Accepted? {
        DrainWellformed(g, t.wire, t.pending);
      }
    }
  }

  /** Conservation composes: what the first step keeps back is what the second starts from. */
  lemma Chain(out1: Octets, kept1: Octets, in1: Octets, out2: Octets, kept2: Octets, rest: Octets)
    requires out1 + kept1 == in1 && out2 + kept2 == kept1 + rest
    ensures (out1 + out2) + kept2 == in1 + rest
  {
    assert (out1 + out2) + kept2 == out1 + (out2 + kept2);
    assert out1 + (kept1 + rest) == (out1 + kept1) + rest;
  }

  /** What a gate has received and not yet released. */
  function Kept(w: Wire): Octets
  {
    Flatten(w.held) + w.buffer
  }

  /** Conservation over the loop: nothing is lost, duplicated or reordered. */
  lemma {:induction false} DrainConserves(g: Gate, w: Wire, pending: set<Id>)
    requires Wellformed(g, w) && w.upgraded && !g.auth
    ensures var r := Drain(g, w, pending);
            r.Accepted? ==> r.output + Kept(r.wire) == Kept(w)
    decreases |w.buffer|
  {
    hide NextFrame, TakeFrame, Unfinished, Payloads, Flatten;
    if NextFrame(g.server, w.buffer).Got? {
      var f := NextFrame(g.server, w.buffer).frame;
      DrainFrame(g, w, pending, f);
      hide Drain;
      var rest := w.buffer[|f.raw|..];
      var w' := w.(buffer := rest);
      TakeFrameWellformed(g, w', pending, f);
      TakeFrameConserves(g, w', pending, f);
      var t := TakeFrame(g, w', pending, f);
      if t.Accepted? {
        DrainConserves(g, t.wire, t.pending);
        var d := Drain(g, t.wire, t.pending);
        if d.Accepted? {
          var h := Flatten(w.held);
          assert d.output + Kept(d.wire) == Flatten(t.wire.held) + rest;
          Chain(t.output, Flatten(t.wire.held), h + f.raw, d.output, Kept(d.wire), rest);
          assert h + f.raw + rest == h + w.buffer by { assert f.raw + rest == w.buffer; }
        }
      }
    }
  }

  /** One accepted call leaves the gate well formed, with nothing decodable in its buffer. */
  lemma FeedWellformed(g: Gate, w: Wire, pending: set<Id>, data: Octets)
    requires Wellformed(g, w)
    ensures var r := Feed(g, w, pending, data);
            r.Accepted? ==> Wellformed(g, r.wire) && Settled(g, r.wire)
  {
    hide NextFrame, TakeFrame, Unfinished, Payloads, Drain;
    var w' := More(w, data);
    if w.closed {
    } else if w.upgraded {
      DrainWellformed(g, w', pending);
    } else if FindHeaderEnd(w'.buffer).HeaderEnd? {
      DrainWellformed(g, w'.(upgraded := true, buffer := w'.buffer[FindHeaderEnd(w'.buffer).end..]), pending);
    }
  }

  /** How much can stay behind after an accepted call, in each phase and direction. */
  lemma FeedBounded(g: Gate, w: Wire, pending: set<Id>, data: Octets)
    requires Wellformed(g, w)
    ensures var r := Feed(g, w, pending, data);
            r.Accepted? ==>
              && |r.wire.payload| <= 65535
              && |r.wire.buffer| <= if !r.wire.upgraded then 65536 else if g.server then 65544 else 65548
  {
    var r := Feed(g, w, pending, data);
    FeedWellformed(g, w, pending, data);
    if r.Accepted? && r.wire.upgraded && !r.wire.closed {
      NeedMoreBound(g.server, r.wire.buffer);
    }
  }

  /** One accepted call of the native gate: output and what is kept are exactly what was kept, and the data. */
  lemma FeedConserves(g: Gate, w: Wire, pending: set<Id>, data: Octets)
    requires Wellformed(g, w) && !g.auth
    ensures var r := Feed(g, w, pending, data);
            r.Accepted? ==> r.output + Kept(r.wire) == Kept(w) + data
  {
    hide NextFrame, TakeFrame, Unfinished, Payloads, Drain;
    var w' := More(w, data);
    assert Kept(w') == Kept(w) + data;
    if w.upgraded {
      DrainConserves(g, w', pending);
    } else if FindHeaderEnd(w'.buffer).HeaderEnd? {
      var end := FindHeaderEnd(w'.buffer).end;
      var u := w'.(upgraded := true, buffer := w'.buffer[end..]);
      DrainConserves(g, u, pending);
      var d := Drain(g, u, pending);
      assert w'.buffer == w'.buffer[..end] + u.buffer;
      if d.Accepted? {
        Chain(w'.buffer[..end], [], w'.buffer[..end], d.output, Kept(d.wire), u.buffer);
      }
    }
  }

  /** Conservation over whole runs of the native gate. */
  lemma {:induction false} RunConserves(g: Gate, w: Wire, pending: set<Id>, chunks: seq<Octets>)
    requires !g.auth && Wellformed(g, w)
    ensures var r := FeedAll(g, w, pending, chunks);
            r.Accepted? ==> Wellformed(g, r.wire) && r.output + Kept(r.wire) == Kept(w) + Flatten(chunks)
    decreases |chunks|
  {
    hide NextFrame, TakeFrame, Unfinished, Payloads, Drain, Feed;
    if chunks != [] {
      FeedWellformed(g, w, pending, chunks[0]);
      FeedConserves(g, w, pending, chunks[0]);
      var first := Feed(g, w, pending, chunks[0]);
      if first.Accepted? {
        RunConserves(g, first.wire, first.pending, chunks[1..]);
        var r := FeedAll(g, first.wire, first.pending, chunks[1..]);
        if r.Accepted? {
          var rest := Flatten(chunks[1..]);
          Chain(first.output, Kept(first.wire), Kept(w) + chunks[0], r.output, Kept(r.wire), rest);
          assert Kept(w) + chunks[0] + rest == Kept(w) + (chunks[0] + rest);
        }
      }
    }
  }

  // ---------------------------------------------------------------- chunk independence

  lemma ThenAssociative(a: Outcome, b: Outcome, c: Outcome)
    requires a.Accepted? && b.Accepted?
    ensures Then(Then(a, b), c) == Then(a, Then(b, c))
  {
    if c.Accepted? {
      assert (a.output + b.output) + c.output == a.output + (b.output + c.output);
      assert (a.texts + b.texts) + c.texts == a.texts + (b.texts + c.texts);
    }
  }

  lemma ThenNothing(w: Wire, pending: set<Id>, next: Outcome)
    ensures Then(Accepted(w, pending, [], []), next) == next
  {
    if next.Accepted? {
      assert [] + next.output == next.output && [] + next.texts == next.texts;
    }
  }

  /**
    `whole` is what the two steps `first` and `second` do together: their composition, or the
    first one's rejection with the octets `more` it never saw still in the buffer.
   */
  predicate Splits(first: Outcome, second: Outcome, more: Octets, whole: Outcome)
  {
    whole == if first.Accepted? then Then(first, second)
             else Rejected(first.reason, More(first.wire, more), first.pending)
  }

  lemma TakeFrameMore(g: Gate, w: Wire, pending: set<Id>, f: Frame, more: Octets)
    requires !w.closed
    ensures var r := TakeFrame(g, w, pending, f);
            if r.wire.closed then r.Accepted? && (more != [] ==> TakeFrame(g, More(w, more), pending, f).Rejected?)
            else TakeFrame(g, More(w, more), pending, f) == r.(wire := More(r.wire, more))
  {
  }

  lemma SplitsBehind(t: Outcome, first: Outcome, second: Outcome, more: Octets, whole: Outcome)
    requires t.Accepted? && Splits(first, second, more, whole)
    ensures Splits(Then(t, first), second, more, Then(t, whole))
  {
    if first.Accepted? {
      ThenAssociative(t, first, second);
    }
  }

  /** Draining a longer buffer is draining the shorter one and then going on with the rest. */
  lemma {:induction false} DrainMore(g: Gate, w: Wire, pending: set<Id>, more: Octets)
    requires !w.closed
    ensures var r, whole := Drain(g, w, pending), Drain(g, More(w, more), pending);
            if r.wire.closed then r.Accepted? && (more != [] ==> whole.Rejected?)
            else Splits(r, Drain(g, More(r.wire, more), r.pending), more, whole)
    decreases |w.buffer|
  {
    hide NextFrame, TakeFrame;
    var p := NextFrame(g.server, w.buffer);
    if p.NeedMore? {
      ThenNothing(w, pending, Drain(g, More(w, more), pending));
    } else {
      NextFrameStable(g.server, w.buffer, more);
      if p.Got? {
        var f := p.frame;
        DrainFrame(g, w, pending, f);
        DrainFrame(g, More(w, more), pending, f);
        hide Drain;
        var w' := w.(buffer := w.buffer[|f.raw|..]);
        assert (w.buffer + more)[|f.raw|..] == w'.buffer + more;
        assert More(w, more).(buffer := (w.buffer + more)[|f.raw|..]) == More(w', more);
        TakeFrameMore(g, w', pending, f, more);
        var t := TakeFrame(g, w', pending, f);
        if t.wire.closed {
          DrainClosed(g, t.wire, t.pending);
        } else if t.Accepted? {
          DrainMore(g, t.wire, t.pending, more);
          var d := Drain(g, t.wire, t.pending);
          if !d.wire.closed {
            SplitsBehind(t, d, Drain(g, More(d.wire, more), d.pending), more, Drain(g, More(t.wire, more), t.pending));
          }
        }
      }
    }
  }

  lemma DrainStaysOpen(g: Gate, w: Wire, pending: set<Id>)
    requires !g.auth && !w.closed
    ensures Drain(g, w, pending).wire.closed == false
    ensures Drain(g, w, pending).wire.upgraded == w.upgraded
    decreases |w.buffer|
  {
    hide NextFrame;
    if NextFrame(g.server, w.buffer).Got? {
      var f := NextFrame(g.server, w.buffer).frame;
      DrainFrame(g, w, pending, f);
      var t := TakeFrame(g, w.(buffer := w.buffer[|f.raw|..]), pending, f);
      if t.Accepted? {
        DrainStaysOpen(g, t.wire, t.pending);
      }
    }
  }

  /** The header is not complete after `a` and the buffer is already over the bound. */
  predicate Stalled(w: Wire, a: Octets)
  {
    !w.upgraded && FindHeaderEnd(w.buffer + a).NoHeaderEnd? && |w.buffer + a| > MAX_HANDSHAKE
  }

  lemma DrainSplits(g: Gate, u: Wire, pending: set<Id>, header: Outcome, b: Octets)
    requires !g.auth && u.upgraded && !u.closed && header.Accepted?
    ensures var d := Drain(g, u, pending);
            && d.wire.upgraded && !d.wire.closed
            && Splits(Then(header, d), Drain(g, More(d.wire, b), d.pending), b,
                      Then(header, Drain(g, More(u, b), pending)))
  {
    hide NextFrame, TakeFrame, Drain;
    DrainMore(g, u, pending, b);
    DrainStaysOpen(g, u, pending);
    var d := Drain(g, u, pending);
    SplitsBehind(header, d, Drain(g, More(d.wire, b), d.pending), b, Drain(g, More(u, b), pending));
  }

  lemma FeedUpgraded(g: Gate, w: Wire, pending: set<Id>, data: Octets)
    requires !g.auth && w.upgraded && |data| <= MAX_CHUNK
    ensures Feed(g, w, pending, data) == Drain(g, More(w, data), pending)
  {
  }

  lemma FeedHeader(g: Gate, w: Wire, pending: set<Id>, data: Octets, end: nat, behind: Octets)
    requires !g.auth && !w.upgraded && |data| <= MAX_CHUNK
    requires FindHeaderEnd(w.buffer + data) == HeaderEnd(end)
    requires behind == (w.buffer + data)[end..]
    ensures Feed(g, w, pending, data)
         == Then(Accepted(w, pending, (w.buffer + data)[..end], []),
                 Drain(g, w.(upgraded := true, buffer := behind), pending))
  {
  }

  /** `FeedSplit` where `a` completes the header. */
  lemma FeedSplitAtHeader(g: Gate, w: Wire, pending: set<Id>, a: Octets, b: Octets, end: nat)
    requires !g.auth && !w.upgraded && !w.closed && |a| + |b| <= MAX_CHUNK
    requires FindHeaderEnd(w.buffer + a) == HeaderEnd(end) == FindHeaderEnd(w.buffer + (a + b))
    ensures var first := Feed(g, w, pending, a);
            Splits(first, Feed(g, first.wire, first.pending, b), b, Feed(g, w, pending, a + b))
  {
    hide NextFrame, TakeFrame, Drain, Feed, FindHeaderEnd;
    var behind := (w.buffer + a)[end..];
    var header := Accepted(w, pending, (w.buffer + a)[..end], []);
    var u := w.(upgraded := true, buffer := behind);
    CutBefore(w.buffer, a, b, end);
    FeedHeader(g, w, pending, a, end, behind);
    FeedHeader(g, w, pending, a + b, end, behind + b);
    DrainSplits(g, u, pending, header, b);
    var d := Drain(g, u, pending);
    FeedUpgraded(g, d.wire, d.pending, b);
  }

  /** Two calls against one call with the same octets, rejections included. */
  lemma FeedSplit(g: Gate, w: Wire, pending: set<Id>, a: Octets, b: Octets)
    requires !g.auth && Wellformed(g, w)
    requires |a| + |b| <= MAX_CHUNK
    ensures var first := Feed(g, w, pending, a);
            if Stalled(w, a) then first.Rejected?
            else Splits(first, Feed(g, first.wire, first.pending, b), b, Feed(g, w, pending, a + b))
  {
    hide NextFrame, TakeFrame, Unfinished, Payloads, Drain;
    var wa := More(w, a);
    assert wa.buffer + b == w.buffer + (a + b);
    if w.upgraded {
      DrainMore(g, wa, pending, b);
      DrainStaysOpen(g, wa, pending);
    } else {
      HeaderEndStable(wa.buffer, b);
      if FindHeaderEnd(wa.buffer).NoHeaderEnd? {
        ThenNothing(wa, pending, Feed(g, wa, pending, b));
      } else {
        FeedSplitAtHeader(g, w, pending, a, b, FindHeaderEnd(wa.buffer).end);
      }
    }
  }

  /** Exactly when two calls are accepted: the single call is, and the header did not stall in between. */
  lemma SplitAcceptedIff(g: Gate, w: Wire, pending: set<Id>, a: Octets, b: Octets)
    requires !g.auth && Wellformed(g, w)
    requires |a| + |b| <= MAX_CHUNK
    ensures FeedAll(g, w, pending, [a, b]).Accepted? <==> Feed(g, w, pending, a + b).Accepted? && !Stalled(w, a)
  {
    FeedSplit(g, w, pending, a, b);
    var first := Feed(g, w, pending, a);
    if first.Accepted? {
      var second := Feed(g, first.wire, first.pending, b);
      assert [a, b][1..] == [b];
      assert FeedAll(g, first.wire, first.pending, [b])
          == if second.Rejected? then second else Then(second, FeedAll(g, second.wire, second.pending, [b][1..]));
    }
  }

  lemma FeedNothing(g: Gate, w: Wire, pending: set<Id>)
    requires !g.auth && Settled(g, w) && Wellformed(g, w)
    ensures Feed(g, w, pending, []) == Accepted(w, pending, [], [])
  {
    assert w.buffer + [] == w.buffer;
    assert More(w, []) == w;
  }

  /**
    Every way of cutting a stream into calls: if the calls are all accepted, one call with
    the whole stream gives the same output, the same completed messages, the same id table
    and the same final state.
   */
  lemma {:induction false} ChunksToWhole(g: Gate, w: Wire, pending: set<Id>, chunks: seq<Octets>)
    requires !g.auth && Wellformed(g, w) && Settled(g, w)
    requires |Flatten(chunks)| <= MAX_CHUNK
    ensures var r := FeedAll(g, w, pending, chunks);
            r.Accepted? ==> Feed(g, w, pending, Flatten(chunks)) == r
    decreases |chunks|
  {
    hide NextFrame, TakeFrame, Unfinished, Payloads, Drain, Feed;
    if chunks == [] {
      FeedNothing(g, w, pending);
    } else {
      var rest := Flatten(chunks[1..]);
      var first := Feed(g, w, pending, chunks[0]);
      if first.Accepted? {
        FeedWellformed(g, w, pending, chunks[0]);
        ChunksToWhole(g, first.wire, first.pending, chunks[1..]);
        FeedSplit(g, w, pending, chunks[0], rest);
      }
    }
  }

  /** The upgrade header, where the stream still has to deliver it, ends within the bound. */
  predicate HeaderWithinBound(w: Wire, data: Octets)
  {
    !w.upgraded ==>
      match FindHeaderEnd(w.buffer + data)
      case NoHeaderEnd => true
      case HeaderEnd(end) => end <= MAX_HANDSHAKE
  }

  lemma NotStalled(g: Gate, w: Wire, pending: set<Id>, a: Octets, rest: Octets)
    requires HeaderWithinBound(w, a + rest) && Feed(g, w, pending, a + rest).Accepted?
    ensures !Stalled(w, a)
  {
    hide NextFrame, TakeFrame, Drain;
    HeaderEndStable(w.buffer + a, rest);
    assert w.buffer + a + rest == w.buffer + (a + rest);
  }

  lemma HeaderStaysWithinBound(g: Gate, w: Wire, pending: set<Id>, a: Octets, rest: Octets)
    requires Wellformed(g, w) && HeaderWithinBound(w, a + rest)
    requires Feed(g, w, pending, a).Accepted?
    ensures HeaderWithinBound(Feed(g, w, pending, a).wire, rest)
  {
    hide NextFrame, TakeFrame, Unfinished, Payloads, Drain;
    var wa := More(w, a);
    HeaderEndStable(wa.buffer, rest);
    assert wa.buffer + rest == w.buffer + (a + rest);
    if w.closed {
    } else if w.upgraded {
      DrainWellformed(g, wa, pending);
    } else if FindHeaderEnd(wa.buffer).HeaderEnd? {
      DrainWellformed(g, wa.(upgraded := true, buffer := wa.buffer[FindHeaderEnd(wa.buffer).end..]), pending);
    }
  }

  /** The converse: a stream accepted in one call, with a header within the bound, is accepted in any pieces. */
  lemma {:induction false} WholeToChunks(g: Gate, w: Wire, pending: set<Id>, chunks: seq<Octets>)
    requires !g.auth && Wellformed(g, w) && Settled(g, w)
    requires |Flatten(chunks)| <= MAX_CHUNK && HeaderWithinBound(w, Flatten(chunks))
    requires Feed(g, w, pending, Flatten(chunks)).Accepted?
    ensures FeedAll(g, w, pending, chunks) == Feed(g, w, pending, Flatten(chunks))
    decreases |chunks|
  {
    hide NextFrame, TakeFrame, Unfinished, Payloads, Drain, Feed;
    if chunks == [] {
      FeedNothing(g, w, pending);
    } else {
      var a, rest := chunks[0], Flatten(chunks[1..]);
      FeedSplit(g, w, pending, a, rest);
      FeedWellformed(g, w, pending, a);
      HeaderEndStable(w.buffer + a, rest);
      assert w.buffer + a + rest == w.buffer + Flatten(chunks);
      var first := Feed(g, w, pending, a);
      assert !Stalled(w, a) by { NotStalled(g, w, pending, a, rest); }
      HeaderStaysWithinBound(g, w, pending, a, rest);
      WholeToChunks(g, first.wire, first.pending, chunks[1..]);
    }
  }
}
