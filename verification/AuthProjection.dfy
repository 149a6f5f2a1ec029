/**
  What an auth gate forwards, frame by frame: data frames keep their order, control
  frames keep theirs, a control frame overtakes only frames of a message still being
  assembled, and nothing follows a close frame.
 */
module AuthProjection {
  import opened Bytes
  import opened GateSpec
  import opened GateTheorems
  import opened AuthTheorems

  // ---------------------------------------------------------------- frame sequences

  predicate IsControl(f: Frame)
  {
    f.opcode >= 8
  }

  function Select(fs: seq<Frame>, control: bool): seq<Frame>
  {
    if fs == [] then []
    else
      var last := fs[|fs| - 1];
      Select(fs[..|fs| - 1], control) + if IsControl(last) == control then [last] else []
  }

  function Data(fs: seq<Frame>): seq<Frame>
  {
    Select(fs, false)
  }

  function Controls(fs: seq<Frame>): seq<Frame>
  {
    Select(fs, true)
  }

  function Raws(fs: seq<Frame>): Octets
  {
    if fs == [] then [] else Raws(fs[..|fs| - 1]) + fs[|fs| - 1].raw
  }

  /** Frames of one message whose final frame has not come. */
  predicate StillOpen(fs: seq<Frame>)
  {
    forall i :: 0 <= i < |fs| ==> !fs[i].fin && !IsControl(fs[i])
  }

  /** `forwarded` has all data frames of `arrived` except those of a message still being assembled. */
  predicate UpToOpenMessage(arrived: seq<Frame>, forwarded: seq<Frame>)
  {
    Data(forwarded) <= Data(arrived) && StillOpen(Data(arrived)[|Data(forwarded)|..])
  }

  /**
    The control frame `forwarded[k]` arrived after the same control frames, and overtook
    only data of a message then open.
   */
  predicate OvertakesOpenMessageOnly(arrived: seq<Frame>, forwarded: seq<Frame>, k: nat)
    requires k < |forwarded|
  {
    exists i :: 0 <= i < |arrived| && arrived[i] == forwarded[k]
      && Controls(arrived[..i]) == Controls(forwarded[..k])
      && UpToOpenMessage(arrived[..i], forwarded[..k])
  }

  predicate Projected(arrived: seq<Frame>, forwarded: seq<Frame>)
  {
    && UpToOpenMessage(arrived, forwarded)
    && Controls(arrived) == Controls(forwarded)
    && (forall k :: 0 <= k < |forwarded| && IsControl(forwarded[k]) ==> OvertakesOpenMessageOnly(arrived, forwarded, k))
  }

  function Remainder(arrived: seq<Frame>, forwarded: seq<Frame>): seq<Frame>
    requires Data(forwarded) <= Data(arrived)
  {
    Data(arrived)[|Data(forwarded)|..]
  }

  lemma {:induction false} SelectConcat(a: seq<Frame>, b: seq<Frame>, control: bool)
    ensures Select(a + b, control) == Select(a, control) + Select(b, control)
    decreases |b|
  {
    if b == [] {
      assert a + b == a;
    } else {
      var c := a + b;
      assert c[..|c| - 1] == a + b[..|b| - 1] && c[|c| - 1] == b[|b| - 1];
      SelectConcat(a, b[..|b| - 1], control);
    }
  }

  lemma {:induction false} RawsConcat(a: seq<Frame>, b: seq<Frame>)
    ensures Raws(a + b) == Raws(a) + Raws(b)
    decreases |b|
  {
    if b == [] {
      assert a + b == a;
    } else {
      var c := a + b;
      var init, last := b[..|b| - 1], b[|b| - 1];
      assert c[..|c| - 1] == a + init && c[|c| - 1] == last;
      RawsConcat(a, init);
      assert (Raws(a) + Raws(init)) + last.raw == Raws(a) + (Raws(init) + last.raw);
    }
  }

  lemma ConcatSplits(a: seq<Frame>, b: seq<Frame>)
    ensures Data(a + b) == Data(a) + Data(b)
    ensures Controls(a + b) == Controls(a) + Controls(b)
  {
    SelectConcat(a, b, false);
    SelectConcat(a, b, true);
  }

  lemma {:induction false} OpenIsData(fs: seq<Frame>)
    requires StillOpen(fs)
    ensures Data(fs) == fs && Controls(fs) == []
  {
    if fs != [] {
      OpenIsData(fs[..|fs| - 1]);
      assert fs == fs[..|fs| - 1] + [fs[|fs| - 1]];
    }
  }

  lemma One(f: Frame)
    ensures Data([f]) == if IsControl(f) then [] else [f]
    ensures Controls([f]) == if IsControl(f) then [f] else []
  {
    var fs := [f];
    assert fs[..|fs| - 1] == [] && fs[|fs| - 1] == f;
    assert Select(fs, false) == Select([], false) + if IsControl(f) then [] else [f];
    assert Select(fs, true) == Select([], true) + if IsControl(f) then [f] else [];
  }

  // ---------------------------------------------------------------- one step

  /** What was said of earlier forwarded control frames stays true when both sequences grow. */
  lemma OvertakingStable(a: seq<Frame>, e: seq<Frame>, a': seq<Frame>, e': seq<Frame>, k: nat)
    requires k < |e| && OvertakesOpenMessageOnly(a, e, k)
    ensures OvertakesOpenMessageOnly(a + a', e + e', k)
  {
    var i :| 0 <= i < |a| && a[i] == e[k] && Controls(a[..i]) == Controls(e[..k]) && UpToOpenMessage(a[..i], e[..k]);
    assert (a + a')[..i] == a[..i] && (e + e')[..k] == e[..k] && (a + a')[i] == a[i];
  }

  /** A non-final data frame arrives and is kept. */
  lemma StepOpen(a: seq<Frame>, e: seq<Frame>, f: Frame)
    requires Projected(a, e) && !IsControl(f) && !f.fin
    ensures Projected(a + [f], e) && Remainder(a + [f], e) == Remainder(a, e) + [f]
  {
    ConcatSplits(a, [f]);
    One(f);
    assert e + [] == e;
    forall k | 0 <= k < |e| && IsControl(e[k]) ensures OvertakesOpenMessageOnly(a + [f], e, k) {
      OvertakingStable(a, e, [f], [], k);
    }
  }

  lemma MessageSplits(a: seq<Frame>, e: seq<Frame>, f: Frame)
    requires Projected(a, e) && !IsControl(f)
    ensures var e' := Remainder(a, e) + [f];
            && Data(a + [f]) == Data(e + e') && Controls(a + [f]) == Controls(e + e')
            && (forall i :: 0 <= i < |e'| ==> !IsControl(e'[i]))
  {
    hide OvertakesOpenMessageOnly, Select;
    var u := Remainder(a, e);
    ConcatSplits(a, [f]);
    ConcatSplits(u, [f]);
    ConcatSplits(e, u + [f]);
    One(f);
    OpenIsData(u);
    assert Data(a) == Data(e) + u;
    assert Data(e) + u + [f] == Data(e) + (u + [f]);
    assert Controls(e) + ([] + []) == Controls(e) + [];
  }

  /** A final data frame arrives and the whole message is forwarded. */
  lemma StepMessage(a: seq<Frame>, e: seq<Frame>, f: Frame)
    requires Projected(a, e) && !IsControl(f)
    ensures var e' := Remainder(a, e) + [f];
            Projected(a + [f], e + e') && Remainder(a + [f], e + e') == []
  {
    var e' := Remainder(a, e) + [f];
    MessageSplits(a, e, f);
    hide Select;
    forall k | 0 <= k < |e + e'| && IsControl((e + e')[k]) ensures OvertakesOpenMessageOnly(a + [f], e + e', k) {
      assert k < |e|;
      OvertakingStable(a, e, [f], e', k);
    }
  }

  /** A control frame arrives and is forwarded at once. */
  lemma StepControl(a: seq<Frame>, e: seq<Frame>, f: Frame)
    requires Projected(a, e) && IsControl(f)
    ensures Projected(a + [f], e + [f]) && Remainder(a + [f], e + [f]) == Remainder(a, e)
  {
    ConcatSplits(a, [f]);
    ConcatSplits(e, [f]);
    One(f);
    hide Select;
    var a', e' := a + [f], e + [f];
    forall k | 0 <= k < |e'| && IsControl(e'[k]) ensures OvertakesOpenMessageOnly(a', e', k) {
      if k < |e| {
        OvertakingStable(a, e, [f], [f], k);
      } else {
        assert a'[|a|] == e'[k] && a'[..|a|] == a && e'[..k] == e;
      }
    }
  }

  // ---------------------------------------------------------------- one call

  /** The frames a decoder of this direction cuts off a buffer. */
  function Frames(server: bool, b: Octets): seq<Frame>
    decreases |b|
  {
    var p := NextFrame(server, b);
    if !p.Got? then []
    else
      NextFrameRaw(server, b);
      [p.frame] + Frames(server, b[|p.frame.raw|..])
  }

  function Decoded(server: bool, held: seq<Octets>): seq<Frame>
    requires Unfinished(server, held)
  {
    seq(|held|, i requires 0 <= i < |held| => NextFrame(server, held[i]).frame)
  }

  lemma FramesOfNothing(server: bool)
    ensures Frames(server, []) == []
  {
  }

  lemma FramesFirst(server: bool, raw: Octets, more: Octets, f: Frame)
    requires NextFrame(server, raw) == Got(f) && f.raw == raw
    ensures Frames(server, raw + more) == [f] + Frames(server, more)
  {
    NextFrameStable(server, raw, more);
    hide NextFrame;
    assert (raw + more)[|raw|..] == more;
  }

  /** Held frames, forwarded back to back, decode to themselves. */
  lemma {:induction false} FramesOfHeld(server: bool, held: seq<Octets>, more: Octets)
    requires Unfinished(server, held)
    ensures Frames(server, Flatten(held) + more) == Decoded(server, held) + Frames(server, more)
    decreases |held|
  {
    hide NextFrame;
    if held == [] {
      assert Flatten(held) + more == more;
    } else {
      var init, last := held[..|held| - 1], held[|held| - 1];
      assert held == init + [last];
      UnfinishedPrefix(server, init, last);
      assert Flatten(held) + more == Flatten(init) + (last + more) by {
        FlattenSnoc(init, last);
      }
      FramesOfHeld(server, init, last + more);
      var f := NextFrame(server, last).frame;
      FramesFirst(server, last, more, f);
      assert Decoded(server, held) == Decoded(server, init) + [f];
    }
  }

  lemma DecodedOpen(server: bool, held: seq<Octets>)
    requires Unfinished(server, held)
    ensures StillOpen(Decoded(server, held))
    ensures Raws(Decoded(server, held)) == Flatten(held)
    decreases |held|
  {
    hide NextFrame;
    if held != [] {
      var init, last := held[..|held| - 1], held[|held| - 1];
      assert held == init + [last];
      UnfinishedPrefix(server, init, last);
      FlattenSnoc(init, last);
      DecodedOpen(server, init);
      var d := Decoded(server, held);
      assert d[..|d| - 1] == Decoded(server, init);
    }
  }

  /** The ghost history of an auth gate: frames arrived, frames forwarded, and how they meet the wire state. */
  ghost predicate Tracks(server: bool, held: seq<Octets>, closed: bool, arrived: seq<Frame>, forwarded: seq<Frame>)
  {
    && Projected(arrived, forwarded)
    && Unfinished(server, held)
    && (!closed ==> Remainder(arrived, forwarded) == Decoded(server, held))
    && (forall k :: 0 <= k < |forwarded| && forwarded[k].opcode == 8 ==> closed && k == |forwarded| - 1)
    && (closed ==> forwarded != [] && forwarded[|forwarded| - 1].opcode == 8)
  }

  /** The frames released when `f` is accepted. */
  function ReleasedBy(server: bool, held: seq<Octets>, f: Frame): seq<Frame>
    requires Unfinished(server, held)
  {
    if IsControl(f) then [f] else if f.fin then Decoded(server, held) + [f] else []
  }

  lemma MessageReleases(server: bool, held: seq<Octets>, f: Frame, more: Octets)
    requires Unfinished(server, held) && NextFrame(server, f.raw) == Got(f)
    ensures Flatten(held + [f.raw]) == Raws(Decoded(server, held) + [f])
    ensures Frames(server, Flatten(held + [f.raw]) + more) == (Decoded(server, held) + [f]) + Frames(server, more)
  {
    hide NextFrame, Unfinished, Frames, Raws;
    FlattenSnoc(held, f.raw);
    assert (Flatten(held) + f.raw) + more == Flatten(held) + (f.raw + more);
    FramesOfHeld(server, held, f.raw + more);
    FramesFirst(server, f.raw, more, f);
    DecodedOpen(server, held);
    RawsSnoc(Decoded(server, held), f);
  }

  lemma RawsSnoc(fs: seq<Frame>, f: Frame)
    ensures Raws(fs + [f]) == Raws(fs) + f.raw
  {
    assert (fs + [f])[..|fs + [f]| - 1] == fs;
  }

  lemma TakeReleases(g: Gate, w: Wire, pending: set<Id>, f: Frame, more: Octets)
    requires g.auth && Unfinished(g.server, w.held) && NextFrame(g.server, f.raw) == Got(f)
    requires TakeFrame(g, w, pending, f).Accepted?
    ensures var out := TakeFrame(g, w, pending, f).output;
            && Raws(ReleasedBy(g.server, w.held, f)) == out
            && Frames(g.server, out + more) == ReleasedBy(g.server, w.held, f) + Frames(g.server, more)
  {
    hide NextFrame, Unfinished, Frames, Flatten;
    var t := TakeFrame(g, w, pending, f);
    if IsControl(f) {
      FramesFirst(g.server, f.raw, more, f);
      RawsSnoc([], f);
      assert [] + [f] == [f];
    } else if f.fin {
      assert w.held == [] ==> w.held + [f.raw] == [f.raw];
      MessageReleases(g.server, w.held, f, more);
    } else {
      assert [] + more == more;
    }
  }

  lemma TakeTracks(g: Gate, w: Wire, pending: set<Id>, f: Frame, arrived: seq<Frame>, forwarded: seq<Frame>)
    requires g.auth && Wellformed(g, w) && !w.closed && Tracks(g.server, w.held, w.closed, arrived, forwarded)
    requires NextFrame(g.server, f.raw) == Got(f) && TakeFrame(g, w, pending, f).Accepted?
    ensures var t := TakeFrame(g, w, pending, f);
            Tracks(g.server, t.wire.held, t.wire.closed, arrived + [f], forwarded + ReleasedBy(g.server, w.held, f))
  {
    hide NextFrame, Projected, Payloads, Data, Select;
    var t := TakeFrame(g, w, pending, f);
    if IsControl(f) {
      StepControl(arrived, forwarded, f);
    } else if f.fin {
      StepMessage(arrived, forwarded, f);
    } else {
      StepOpen(arrived, forwarded, f);
      assert forwarded + [] == forwarded;
      assert w.held == [] ==> w.held + [f.raw] == [f.raw];
      HoldFrame(g.server, w.held, f);
      assert Decoded(g.server, w.held + [f.raw]) == Decoded(g.server, w.held) + [f];
    }
  }

  /** The loop keeps the history: frames cut off the buffer arrive, the output's frames are forwarded. */
  lemma {:induction false} DrainTracks(g: Gate, w: Wire, pending: set<Id>, arrived: seq<Frame>, forwarded: seq<Frame>)
    requires g.auth && Wellformed(g, w) && w.upgraded && Tracks(g.server, w.held, w.closed, arrived, forwarded)
    requires Drain(g, w, pending).Accepted?
    ensures var d := Drain(g, w, pending);
            && Tracks(g.server, d.wire.held, d.wire.closed,
                      arrived + Frames(g.server, w.buffer), forwarded + Frames(g.server, d.output))
            && Raws(Frames(g.server, w.buffer)) + d.wire.buffer == w.buffer
            && Raws(Frames(g.server, d.output)) == d.output
    decreases |w.buffer|
  {
    hide NextFrame, TakeFrame, Unfinished, Payloads, Tracks;
    var d := Drain(g, w, pending);
    if w.closed || !NextFrame(g.server, w.buffer).Got? {
      FramesOfNothing(g.server);
      assert arrived + [] == arrived && forwarded + [] == forwarded;
    } else {
      var f := NextFrame(g.server, w.buffer).frame;
      DrainFrame(g, w, pending, f);
      var w' := w.(buffer := w.buffer[|f.raw|..]);
      var t := TakeFrame(g, w', pending, f);
      TakeFrameWellformed(g, w', pending, f);
      TakeTracks(g, w', pending, f, arrived, forwarded);
      var out := ReleasedBy(g.server, w.held, f);
      var rest := Drain(g, t.wire, t.pending);
      DrainTracks(g, t.wire, t.pending, arrived + [f], forwarded + out);
      TakeReleases(g, w', pending, f, rest.output);
      var more := Frames(g.server, w'.buffer);
      assert Frames(g.server, w.buffer) == [f] + more;
      hide Drain, Frames, Raws, ReleasedBy, Wellformed;
      assert arrived + ([f] + more) == (arrived + [f]) + more;
      var e := Frames(g.server, rest.output);
      assert forwarded + (out + e) == (forwarded + out) + e;
      RawsConcat([f], more);
      RawsSnoc([], f);
      RawsConcat(out, e);
      FirstOf(f, more, w.buffer, w'.buffer, rest.wire.buffer);
    }
  }

  lemma FirstOf(f: Frame, more: seq<Frame>, whole: Octets, behind: Octets, left: Octets)
    requires f.raw + behind == whole && Raws(more) + left == behind
    ensures Raws([f] + more) + left == whole
  {
    RawsConcat([f], more);
    RawsSnoc([], f);
    assert [] + [f] == [f] && Raws([f]) == f.raw;
    assert (f.raw + Raws(more)) + left == f.raw + (Raws(more) + left);
  }

  // ---------------------------------------------------------------- runs

  /** Everything an auth gate has received and returned, in terms of header and frames. */
  datatype History = History(received: Octets, returned: Octets, header: Octets,
                             arrived: seq<Frame>, forwarded: seq<Frame>)

  ghost predicate Explains(g: Gate, w: Wire, h: History)
  {
    && Tracks(g.server, w.held, w.closed, h.arrived, h.forwarded)
    && (if w.upgraded then
          && FindHeaderEnd(h.header) == HeaderEnd(|h.header|)
          && h.received == h.header + Raws(h.arrived) + w.buffer
          && h.returned == h.header + Raws(h.forwarded)
        else
          h.received == w.buffer && h.returned == h.header == [] && h.arrived == h.forwarded == [])
  }

  lemma FreshExplained(g: Gate)
    ensures Explains(g, FRESH, History([], [], [], [], [])) && Wellformed(g, FRESH)
  {
  }

  /** One accepted call extends the history by the data, the output and their frames. */
  lemma FeedExplained(g: Gate, w: Wire, pending: set<Id>, data: Octets, h: History) returns (h': History)
    requires g.auth && Wellformed(g, w) && Explains(g, w, h)
    requires Feed(g, w, pending, data).Accepted?
    ensures Explains(g, Feed(g, w, pending, data).wire, h')
    ensures h'.received == h.received + data
    ensures h'.returned == h.returned + Feed(g, w, pending, data).output
    ensures h.arrived <= h'.arrived && h.forwarded <= h'.forwarded
  {
    hide NextFrame, TakeFrame, Unfinished, Payloads, Tracks, Drain, Frames, Raws;
    var d := Feed(g, w, pending, data);
    var b := w.buffer + data;
    if w.upgraded {
      DrainTracks(g, More(w, data), pending, h.arrived, h.forwarded);
      DrainWellformed(g, More(w, data), pending);
      var a, e := Frames(g.server, b), Frames(g.server, d.output);
      RawsConcat(h.arrived, a);
      RawsConcat(h.forwarded, e);
      h' := History(h.received + data, h.returned + d.output, h.header, h.arrived + a, h.forwarded + e);
      assert (h.header + Raws(h.arrived) + w.buffer) + data == (h.header + Raws(h.arrived)) + b;
      assert (h.header + Raws(h.arrived)) + (Raws(a) + d.wire.buffer)
             == h.header + (Raws(h.arrived) + Raws(a)) + d.wire.buffer;
      assert (h.header + Raws(h.forwarded)) + Raws(e) == h.header + (Raws(h.forwarded) + Raws(e));
    } else if FindHeaderEnd(b).HeaderEnd? {
      h' := HeaderExplained(g, w, pending, data, h, FindHeaderEnd(b).end);
    } else {
      h' := h.(received := b);
      assert [] + d.output == [];
    }
  }

  lemma HeaderExplained(g: Gate, w: Wire, pending: set<Id>, data: Octets, h: History, end: nat) returns (h': History)
    requires g.auth && Wellformed(g, w) && Explains(g, w, h) && !w.upgraded
    requires FindHeaderEnd(w.buffer + data) == HeaderEnd(end) && Feed(g, w, pending, data).Accepted?
    ensures Explains(g, Feed(g, w, pending, data).wire, h')
    ensures h'.received == h.received + data
    ensures h'.returned == h.returned + Feed(g, w, pending, data).output
    ensures h.arrived <= h'.arrived && h.forwarded <= h'.forwarded
  {
    hide NextFrame, TakeFrame, Unfinished, Payloads, Drain, Frames, Raws, Feed;
    var b := w.buffer + data;
    var u := w.(upgraded := true, buffer := b[end..]);
    var r := Drain(g, u, pending);
    AuthFeedHeader(g, w, pending, data, end, b[end..]);
    DrainTracks(g, u, pending, [], []);
    DrainWellformed(g, u, pending);
    HeaderEndTight(b, end);
    hide Tracks;
    var a, e := Frames(g.server, u.buffer), Frames(g.server, r.output);
    assert [] + a == a && [] + e == e;
    h' := History(b, b[..end] + r.output, b[..end], a, e);
    assert b[..end] + (Raws(a) + r.wire.buffer) == b[..end] + Raws(a) + r.wire.buffer;
    assert b[..end] + b[end..] == b;
    assert [] + (b[..end] + r.output) == b[..end] + r.output;
  }

  lemma AuthFeedHeader(g: Gate, w: Wire, pending: set<Id>, data: Octets, end: nat, behind: Octets)
    requires !w.upgraded && FindHeaderEnd(w.buffer + data) == HeaderEnd(end)
    requires behind == (w.buffer + data)[end..]
    requires Feed(g, w, pending, data).Accepted?
    ensures Feed(g, w, pending, data)
         == Then(Accepted(w, pending, (w.buffer + data)[..end], []),
                 Drain(g, w.(upgraded := true, buffer := behind), pending))
  {
  }
}
