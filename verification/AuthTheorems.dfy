/**
  Theorems about `AuthWebSocketGate`: what it forwards is a projection of what it
  receives, forwarding is idempotent, and a helper gate chained behind it never holds
  anything back.
 */
module AuthTheorems {
  import opened Bytes
  import opened GateSpec
  import opened GateTheorems

  const OPEN := Wire(true, false, [], [], [])

  // ---------------------------------------------------------------- replaying released frames

  /** A second decoder reading held frames rebuilds exactly the message under assembly. */
  lemma {:induction false} DrainHeld(g: Gate, pending: set<Id>, held: seq<Octets>, more: Octets)
    requires Unfinished(g.server, held) && |Payloads(g.server, held)| <= MAX_PAYLOAD
    ensures Drain(g, OPEN.(buffer := Flatten(held) + more), pending)
         == Drain(g, Wire(true, false, more, Payloads(g.server, held), held), pending)
    decreases |held|
  {
    hide NextFrame, TakeFrame, Drain, Unfinished;
    if held == [] {
      assert Flatten(held) + more == more;
    } else {
      var init, last := held[..|held| - 1], held[|held| - 1];
      assert held == init + [last];
      UnfinishedPrefix(g.server, init, last);
      assert Flatten(held) + more == Flatten(init) + (last + more) by {
        FlattenSnoc(init, last);
      }
      DrainHeld(g, pending, init, last + more);
      TakeHeld(g, pending, init, last, more);
    }
  }

  lemma UnfinishedPrefix(server: bool, init: seq<Octets>, last: Octets)
    requires Unfinished(server, init + [last])
    ensures Unfinished(server, init)
    ensures |Payloads(server, init)| <= |Payloads(server, init + [last])|
  {
    hide NextFrame;
    var held := init + [last];
    assert held[..|held| - 1] == init;
    forall i | 0 <= i < |init| ensures init[i] == held[i] {}
  }

  lemma TakeHeld(g: Gate, pending: set<Id>, init: seq<Octets>, last: Octets, more: Octets)
    requires Unfinished(g.server, init + [last]) && |Payloads(g.server, init + [last])| <= MAX_PAYLOAD
    ensures Drain(g, Wire(true, false, last + more, Payloads(g.server, init), init), pending)
         == Drain(g, Wire(true, false, more, Payloads(g.server, init + [last]), init + [last]), pending)
  {
    var held := init + [last];
    assert held[|init|] == last && held[..|held| - 1] == init;
    var f := NextFrame(g.server, last).frame;
    NextFrameStable(g.server, last, more);
    hide NextFrame;
    var w := Wire(true, false, last + more, Payloads(g.server, init), init);
    DrainFrame(g, w, pending, f);
    assert (last + more)[|last|..] == more;
    var t := TakeFrame(g, w.(buffer := more), pending, f);
    assert Payloads(g.server, held) == Payloads(g.server, init) + f.payload;
    assert init == [] ==> held == [last] && Payloads(g.server, init) == [];
    assert t == Accepted(Wire(true, false, more, Payloads(g.server, held), held), pending, [], []);
    hide Drain;
    ThenNothing(t.wire, pending, Drain(g, t.wire, pending));
  }

  /** The second gate passed on what it was given, and holds nothing. */
  predicate Transparent(d: Outcome, input: Octets, texts: seq<Octets>, closed: bool)
  {
    d.Accepted? ==> d.wire == OPEN.(closed := closed) && d.output == input && d.texts == texts
  }

  lemma DrainOpen(g: Gate, pending: set<Id>, closed: bool)
    ensures Drain(g, OPEN.(closed := closed), pending) == Accepted(OPEN.(closed := closed), pending, [], [])
  {
  }

  lemma ThenDone(first: Outcome)
    requires first.Accepted?
    ensures Then(first, Accepted(first.wire, first.pending, [], [])) == first
  {
    assert first.output + [] == first.output && first.texts + [] == first.texts;
  }

  /** One frame is all that is left in the buffer. */
  lemma DrainLast(g: Gate, w: Wire, pending: set<Id>, f: Frame)
    requires !w.closed && w.buffer == f.raw && NextFrame(g.server, f.raw) == Got(f)
    ensures var t := TakeFrame(g, w.(buffer := []), pending, f);
            Drain(g, w, pending) == if t.Rejected? then t else Then(t, Drain(g, t.wire, t.pending))
  {
    hide NextFrame, TakeFrame;
    DrainFrame(g, w, pending, f);
    assert w.buffer[|f.raw|..] == [];
  }

  lemma ReplayControl(g: Gate, g2: Gate, w: Wire, pending: set<Id>, p2: set<Id>, f: Frame)
    requires g.auth && g2.server == g.server && f.opcode > 1
    requires NextFrame(g.server, f.raw) == Got(f)
    requires TakeFrame(g, w, pending, f).Accepted? && !w.closed
    ensures var t := TakeFrame(g, w, pending, f);
            var d := Drain(g2, OPEN.(buffer := t.output), p2);
            Transparent(d, t.output, t.texts, t.wire.closed) && (g2 == g ==> d.Accepted?)
  {
    hide NextFrame;
    var t := TakeFrame(g, w, pending, f);
    DrainLast(g2, OPEN.(buffer := f.raw), p2, f);
    var t2 := TakeFrame(g2, OPEN, p2, f);
    if t2.Accepted? {
      DrainOpen(g2, t2.pending, t.wire.closed);
      ThenDone(t2);
    }
  }

  lemma ReplayMessage(g: Gate, g2: Gate, w: Wire, pending: set<Id>, p2: set<Id>, f: Frame)
    requires g.auth && g2.server == g.server && f.opcode <= 1 && f.fin
    requires Wellformed(g, w) && !w.closed && NextFrame(g.server, f.raw) == Got(f)
    requires TakeFrame(g, w, pending, f).Accepted? && |w.payload + f.payload| <= MAX_PAYLOAD
    ensures var t := TakeFrame(g, w, pending, f);
            var d := Drain(g2, OPEN.(buffer := t.output), p2);
            Transparent(d, t.output, t.texts, t.wire.closed) && (g2 == g ==> d.Accepted?)
  {
    hide NextFrame, Unfinished, Payloads, Drain;
    var t := TakeFrame(g, w, pending, f);
    FlattenSnoc(w.held, f.raw);
    assert w.held == [] ==> w.held + [f.raw] == [f.raw];
    assert t.output == Flatten(w.held) + f.raw;
    assert Wellformed(g, w);
    DrainHeld(g2, p2, w.held, f.raw);
    var u := Wire(true, false, f.raw, w.payload, w.held);
    DrainLast(g2, u, p2, f);
    var t2 := TakeFrame(g2, u.(buffer := []), p2, f);
    if t2.Accepted? {
      DrainOpen(g2, t2.pending, false);
      ThenDone(t2);
    }
  }

  lemma ReplayFrame(g: Gate, g2: Gate, w: Wire, pending: set<Id>, p2: set<Id>, f: Frame)
    requires g.auth && g2.server == g.server
    requires Wellformed(g, w) && !w.closed && NextFrame(g.server, f.raw) == Got(f) && |f.payload| <= MAX_PAYLOAD
    requires TakeFrame(g, w, pending, f).Accepted?
    ensures var t := TakeFrame(g, w, pending, f);
            var d := Drain(g2, OPEN.(buffer := t.output), p2);
            Transparent(d, t.output, t.texts, t.wire.closed) && (g2 == g ==> d.Accepted?)
  {
    hide NextFrame, Unfinished, Payloads;
    if f.opcode > 1 {
      ReplayControl(g, g2, w, pending, p2, f);
    } else if f.fin {
      if w.held == [] {
        NothingHeld(g, w);
      }
      ReplayMessage(g, g2, w, pending, p2, f);
    } else {
      DrainOpen(g2, p2, false);
    }
  }

  /** What one drained buffer releases passes a second gate unchanged; the same gate accepts it. */
  lemma {:induction false} ReplayDrain(g: Gate, g2: Gate, w: Wire, pending: set<Id>, p2: set<Id>)
    requires g.auth && g2.server == g.server
    requires Wellformed(g, w) && w.upgraded && Drain(g, w, pending).Accepted?
    ensures var d := Drain(g, w, pending);
            var d2 := Drain(g2, OPEN.(buffer := d.output, closed := w.closed), p2);
            Transparent(d2, d.output, d.texts, d.wire.closed) && (g2 == g ==> d2.Accepted?)
    decreases |w.buffer|
  {
    hide NextFrame, TakeFrame, Unfinished, Payloads;
    if w.closed || !NextFrame(g.server, w.buffer).Got? {
      DrainOpen(g2, p2, w.closed);
    } else {
      var f := NextFrame(g.server, w.buffer).frame;
      DrainFrame(g, w, pending, f);
      var w' := w.(buffer := w.buffer[|f.raw|..]);
      var t := TakeFrame(g, w', pending, f);
      TakeFrameWellformed(g, w', pending, f);
      ReplayFrame(g, g2, w', pending, p2, f);
      var r2 := Drain(g2, OPEN.(buffer := t.output), p2);
      if t.wire.closed {
        DrainClosed(g, t.wire, t.pending);
        hide Drain;
        ThenDone(t);
      } else {
        var rest := Drain(g, t.wire, t.pending);
        DrainMore(g2, OPEN.(buffer := t.output), p2, rest.output);
        assert [] + rest.output == rest.output;
        if r2.Accepted? {
          ReplayDrain(g, g2, t.wire, t.pending, r2.pending);
        }
        hide Drain;
      }
    }
  }

  // ---------------------------------------------------------------- chaining and idempotence

  /** A second gate fed with a first gate's output is always at a message boundary. */
  predicate InStep(first: Wire, second: Wire)
  {
    second == if first.upgraded then OPEN.(closed := first.closed) else FRESH
  }

  /**
    One accepted call of an auth gate, its output fed to a second gate: if that gate accepts
    too, its output equals its input and it holds nothing.  The same gate as second gate
    accepts exactly when the output fits one call.
   */
  lemma ReplayFeed(g: Gate, g2: Gate, w: Wire, pending: set<Id>, w2: Wire, p2: set<Id>, data: Octets)
    requires g.auth && g2.server == g.server
    requires Wellformed(g, w) && InStep(w, w2) && Feed(g, w, pending, data).Accepted?
    ensures var d := Feed(g, w, pending, data);
            var d2 := Feed(g2, w2, p2, d.output);
            && (d2.Accepted? ==> InStep(d.wire, d2.wire) && d2.output == d.output && d2.texts == d.texts)
            && (g2 == g ==> (d2.Accepted? <==> |d.output| <= MAX_CHUNK))
  {
    hide NextFrame, TakeFrame, Unfinished, Payloads, Drain;
    var d := Feed(g, w, pending, data);
    var b := w.buffer + data;
    if w.upgraded {
      ReplayDrain(g, g2, More(w, data), pending, p2);
      DrainWellformed(g, More(w, data), pending);
      assert [] + d.output == d.output;
    } else if FindHeaderEnd(b).HeaderEnd? {
      ReplayHeader(g, g2, w, pending, p2, data, FindHeaderEnd(b).end);
    } else {
      assert [] + d.output == [];
    }
  }

  lemma ReplayHeader(g: Gate, g2: Gate, w: Wire, pending: set<Id>, p2: set<Id>, data: Octets, end: nat)
    requires g.auth && g2.server == g.server && Wellformed(g, w) && !w.upgraded
    requires FindHeaderEnd(w.buffer + data) == HeaderEnd(end) && Feed(g, w, pending, data).Accepted?
    ensures var d := Feed(g, w, pending, data);
            var d2 := Feed(g2, FRESH, p2, d.output);
            && (d2.Accepted? ==> InStep(d.wire, d2.wire) && d2.output == d.output && d2.texts == d.texts)
            && (g2 == g ==> (d2.Accepted? <==> |d.output| <= MAX_CHUNK))
  {
    hide NextFrame, TakeFrame, Unfinished, Payloads, Drain;
    var b := w.buffer + data;
    var u := w.(upgraded := true, buffer := b[end..]);
    var r := Drain(g, u, pending);
    assert Feed(g, w, pending, data) == Then(Accepted(More(w, data), pending, b[..end], []), r);
    ReplayDrain(g, g2, u, pending, p2);
    DrainWellformed(g, u, pending);
    var out := b[..end] + r.output;
    HeaderEndTight(b, end);
    HeaderEndStable(b[..end], r.output);
    assert [] + out == out && out[end..] == r.output && out[..end] == b[..end];
    assert [] + r.texts == r.texts;
    var r2 := Drain(g2, OPEN.(buffer := r.output), p2);
    assert |out| <= MAX_CHUNK ==> Feed(g2, FRESH, p2, out) == Then(Accepted(More(FRESH, out), p2, out[..end], []), r2);
  }

  /** What an accepted run returns, call by call. */
  function CallOutputs(g: Gate, w: Wire, pending: set<Id>, chunks: seq<Octets>): seq<Octets>
    decreases |chunks|
  {
    if chunks == [] then []
    else
      var first := Feed(g, w, pending, chunks[0]);
      if first.Rejected? then []
      else [first.output] + CallOutputs(g, first.wire, first.pending, chunks[1..])
  }

  /** Idempotence over whole runs: a fresh auth gate returns a first gate's output unchanged. */
  lemma {:induction false} RunIdempotent(g: Gate, w: Wire, pending: set<Id>, w2: Wire, p2: set<Id>, chunks: seq<Octets>)
    requires g.auth && Wellformed(g, w) && InStep(w, w2)
    requires FeedAll(g, w, pending, chunks).Accepted?
    requires forall out | out in CallOutputs(g, w, pending, chunks) :: |out| <= MAX_CHUNK
    ensures var outputs := CallOutputs(g, w, pending, chunks);
            var again := FeedAll(g, w2, p2, outputs);
            && Flatten(outputs) == FeedAll(g, w, pending, chunks).output
            && again.Accepted? && again.output == FeedAll(g, w, pending, chunks).output
            && CallOutputs(g, w2, p2, outputs) == outputs
    decreases |chunks|
  {
    hide Feed, Unfinished, Payloads, NextFrame;
    if chunks != [] {
      var first := Feed(g, w, pending, chunks[0]);
      var outputs := CallOutputs(g, w, pending, chunks);
      var rest := CallOutputs(g, first.wire, first.pending, chunks[1..]);
      assert outputs[0] == first.output && outputs[1..] == rest;
      assert outputs == [first.output] + rest;
      FeedWellformed(g, w, pending, chunks[0]);
      ReplayFeed(g, g, w, pending, w2, p2, chunks[0]);
      var second := Feed(g, w2, p2, first.output);
      RunIdempotent(g, first.wire, first.pending, second.wire, second.pending, chunks[1..]);
    }
  }
}
