/**
  Inputs at which the gates' limits show: a stream that one cutting makes a gate reject, and
  an accepted call of the auth gate whose output the next gate does not take.
 */
module GateLimits {
  import opened Bytes
  import opened GateSpec
  import opened GateTheorems
  import opened AuthTheorems

  // ---------------------------------------------------------------- a stalled handshake

  /** A request line that goes on for 65537 octets, and the end of its header. */
  const LONG_LINE: Octets := seq(65537, _ => 65)

  lemma NoTerminatorIn(b: Octets, n: nat)
    requires n <= |b| && forall i :: 0 <= i < n ==> b[i] == 65
    ensures forall i :: 0 <= i < n ==> !TerminatorAt(b, i)
  {
    forall i | 0 <= i < n && i + 4 <= |b| ensures !TerminatorAt(b, i) {
      assert b[i..i + 4][0] == b[i];
    }
  }

  lemma LongLineHasNoEnd()
    ensures FindHeaderEnd(LONG_LINE) == NoHeaderEnd
    ensures FindHeaderEnd(LONG_LINE + CRLF_CRLF) == HeaderEnd(65541)
  {
    var line, whole := LONG_LINE, LONG_LINE + CRLF_CRLF;
    NoTerminatorIn(line, 65537);
    NoTerminatorIn(whole, 65537);
    FirstAt(line, 0, 65537);
    FirstAt(whole, 0, 65537);
    assert whole[65537..65541] == CRLF_CRLF && TerminatorAt(whole, 65537);
  }

  /** The search passes by offsets without a terminator. */
  lemma {:induction false} FirstAt(b: Octets, from: nat, n: nat)
    requires from <= n <= |b| && forall i :: from <= i < n ==> !TerminatorAt(b, i)
    ensures FindHeaderEnd(b, from) == FindHeaderEnd(b, n)
    decreases n - from
  {
    if from < n {
      FirstAt(b, from + 1, n);
    }
  }

  /** The whole stream is accepted in one call, and rejected when it is cut before the end of its header. */
  lemma StalledSplit(g: Gate, pending: set<Id>)
    requires !g.auth
    ensures Feed(g, FRESH, pending, LONG_LINE + CRLF_CRLF).Accepted?
    ensures Feed(g, FRESH, pending, LONG_LINE).Rejected? && Stalled(FRESH, LONG_LINE)
    ensures FeedAll(g, FRESH, pending, [LONG_LINE, CRLF_CRLF]).Rejected?
  {
    var whole := LONG_LINE + CRLF_CRLF;
    LongLineHasNoEnd();
    assert [] + whole == whole && [] + LONG_LINE == LONG_LINE && whole[65541..] == [];
    hide FindHeaderEnd, TakeFrame;
    DrainOpen(g, pending, false);
    assert FRESH.(upgraded := true, buffer := []) == OPEN.(closed := false);
    hide Drain;
  }

  // ---------------------------------------------------------------- an oversized output

  /** An open text frame and `n` empty continuations of it, unmasked as a server sends them. */
  function OpenFrames(n: nat): seq<Octets>
  {
    if n == 0 then [[1, 0]] else OpenFrames(n - 1) + [[0, 0]]
  }

  lemma EmptyFrames()
    ensures NextFrame(true, [1, 0]) == Got(Frame(false, 1, [], [1, 0]))
    ensures NextFrame(true, [0, 0]) == Got(Frame(false, 0, [], [0, 0]))
  {
  }

  lemma {:induction false} OpenFramesHeld(n: nat)
    ensures Unfinished(true, OpenFrames(n)) && Payloads(true, OpenFrames(n)) == []
    ensures OpenFrames(n) != [] && |Flatten(OpenFrames(n))| == 2 * (n + 1)
  {
    EmptyFrames();
    hide NextFrame;
    if n == 0 {
      HoldFrame(true, [], Frame(false, 1, [], [1, 0]));
      assert [] + [[1, 0]] == [[1, 0]];
      FlattenSnoc([], [1, 0]);
    } else {
      OpenFramesHeld(n - 1);
      HoldFrame(true, OpenFrames(n - 1), Frame(false, 0, [], [0, 0]));
      FlattenSnoc(OpenFrames(n - 1), [0, 0]);
    }
  }

  function LastFrame(text: Octets): Octets
    requires |text| <= 125
  {
    [128, |text|] + text
  }

  lemma LastFrameDecodes(text: Octets)
    requires |text| <= 125
    ensures NextFrame(true, LastFrame(text)) == Got(Frame(true, 0, text, LastFrame(text)))
  {
    var b := LastFrame(text);
    assert b[..|b|] == b && b[2..] == text;
  }

  /** The open frames of one call of exactly 4 MiB. */
  function ManyFrames(): seq<Octets>
  {
    OpenFrames(2097151)
  }

  lemma HoldMany(g: Gate)
    requires g.auth && g.server
    ensures Feed(g, OPEN, {}, Flatten(ManyFrames())) == Accepted(OPEN.(held := ManyFrames()), {}, [], [])
    ensures |Flatten(ManyFrames())| == MAX_CHUNK && Unfinished(true, ManyFrames()) && ManyFrames() != []
  {
    hide OpenFrames, NextFrame, TakeFrame, Unfinished, Payloads, Drain, Flatten;
    OpenFramesHeld(2097151);
    HoldFrames(g, ManyFrames());
  }

  lemma HoldFrames(g: Gate, held: seq<Octets>)
    requires g.auth && g.server && Unfinished(true, held) && Payloads(true, held) == [] && |Flatten(held)| <= MAX_CHUNK
    ensures Feed(g, OPEN, {}, Flatten(held)) == Accepted(OPEN.(held := held), {}, [], [])
  {
    hide NextFrame, TakeFrame, Unfinished, Payloads, Drain, Flatten;
    DrainHeld(g, {}, held, []);
    EmptyBuffer(g, OPEN.(held := held));
    assert Flatten(held) + [] == Flatten(held) && [] + Flatten(held) == Flatten(held);
  }

  lemma EmptyBuffer(g: Gate, w: Wire)
    requires w.buffer == [] && !w.closed
    ensures Drain(g, w, {}) == Accepted(w, {}, [], [])
  {
  }

  lemma ReleaseMany(g: Gate, held: seq<Octets>, text: Octets)
    requires g.auth && g.server && held != [] && |text| <= 125 && g.policy(text).Admitted?
    ensures var r := Feed(g, OPEN.(held := held), {}, LastFrame(text));
            r == Accepted(OPEN, {}, Flatten(held) + LastFrame(text), [text])
  {
    hide NextFrame, TakeFrame, Drain, Flatten, LastFrame;
    var w, b := OPEN.(held := held), LastFrame(text);
    var f := Frame(true, 0, text, b);
    LastFrameDecodes(text);
    LastFrameTaken(g, held, text);
    assert [] + b == b;
    DrainLast(g, w.(buffer := b), {}, f);
    EmptyBuffer(g, OPEN);
    assert Flatten(held) + b + [] == Flatten(held) + b && [text] + [] == [text];
    assert |b| <= MAX_CHUNK by {
      LastFrameShort(text);
    }
  }

  lemma LastFrameShort(text: Octets)
    requires |text| <= 125
    ensures |LastFrame(text)| <= MAX_CHUNK
  {
  }

  lemma LastFrameTaken(g: Gate, held: seq<Octets>, text: Octets)
    requires g.auth && g.server && held != [] && |text| <= 125 && g.policy(text).Admitted?
    ensures TakeFrame(g, OPEN.(held := held), {}, Frame(true, 0, text, LastFrame(text)))
            == Accepted(OPEN, {}, Flatten(held) + LastFrame(text), [text])
  {
    hide Flatten, LastFrame;
    assert [] + text == text;
    FlattenSnoc(held, LastFrame(text));
  }

  /**
    Three accepted calls of an auth gate on a server stream: the header, 4 MiB of one open
    message, and its short last frame.  The last call's output is more than 4 MiB, so that
    no gate behind it takes it in a call.
   */
  lemma OversizedOutput(g: Gate, text: Octets, second: Gate, w: Wire, pending: set<Id>)
    requires g.auth && g.server && |text| <= 125 && g.policy(text).Admitted?
    ensures var first := Feed(g, FRESH, {}, CRLF_CRLF);
            && first.Accepted?
            && var many := Feed(g, first.wire, first.pending, Flatten(ManyFrames()));
            && many.Accepted?
            && var last := Feed(g, many.wire, many.pending, LastFrame(text));
            && last.Accepted? && |last.output| > MAX_CHUNK
            && Feed(second, w, pending, last.output).Rejected?
  {
    assert Feed(g, FRESH, {}, CRLF_CRLF) == Accepted(OPEN, {}, CRLF_CRLF, []) by {
      assert [] + CRLF_CRLF == CRLF_CRLF && TerminatorAt(CRLF_CRLF, 0) && FindHeaderEnd(CRLF_CRLF) == HeaderEnd(4);
      assert CRLF_CRLF[4..] == [] && CRLF_CRLF[..4] == CRLF_CRLF && CRLF_CRLF + [] == CRLF_CRLF;
      EmptyBuffer(g, OPEN);
    }
    HoldMany(g);
    ReleaseMany(g, ManyFrames(), text);
    hide ManyFrames, LastFrame, NextFrame, Drain, TakeFrame, FindHeaderEnd;
  }
}
