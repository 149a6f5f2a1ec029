/**
  What gets through a gate and what does not, message by message: the policy and the id table
  decide on each complete message, a control frame passes on its own, and a frame that may not
  come at that place ends the stream.
 */
module GateRules {
  import opened Bytes
  import opened Options
  import opened GateSpec
  import opened GateTheorems

  // ---------------------------------------------------------------- only what the policy admits

  predicate AllAdmitted(g: Gate, texts: seq<Octets>)
  {
    forall t :: t in texts ==> g.policy(t).Admitted?
  }

  lemma TakeAdmits(g: Gate, w: Wire, pending: set<Id>, f: Frame)
    requires TakeFrame(g, w, pending, f).Accepted?
    ensures AllAdmitted(g, TakeFrame(g, w, pending, f).texts)
  {
    hide Flatten;
  }

  lemma {:induction false} DrainAdmits(g: Gate, w: Wire, pending: set<Id>)
    ensures Drain(g, w, pending).Accepted? ==> AllAdmitted(g, Drain(g, w, pending).texts)
    decreases |w.buffer|
  {
    hide NextFrame, TakeFrame;
    if !w.closed && NextFrame(g.server, w.buffer).Got? {
      var f := NextFrame(g.server, w.buffer).frame;
      DrainFrame(g, w, pending, f);
      hide Drain;
      var w' := w.(buffer := w.buffer[|f.raw|..]);
      var t := TakeFrame(g, w', pending, f);
      if t.Accepted? {
        TakeAdmits(g, w', pending, f);
        DrainAdmits(g, t.wire, t.pending);
      }
    }
  }

  /** An accepted call has completed only messages that the policy admits. */
  lemma FeedAdmits(g: Gate, w: Wire, pending: set<Id>, data: Octets)
    ensures Feed(g, w, pending, data).Accepted? ==> AllAdmitted(g, Feed(g, w, pending, data).texts)
  {
    hide Drain;
    var w' := More(w, data);
    DrainAdmits(g, w', pending);
    if FindHeaderEnd(w'.buffer).HeaderEnd? {
      DrainAdmits(g, w'.(upgraded := true, buffer := w'.buffer[FindHeaderEnd(w'.buffer).end..]), pending);
    }
    hide FindHeaderEnd;
  }

  /** So has a whole run. */
  lemma {:induction false} RunAdmits(g: Gate, w: Wire, pending: set<Id>, chunks: seq<Octets>)
    ensures FeedAll(g, w, pending, chunks).Accepted? ==> AllAdmitted(g, FeedAll(g, w, pending, chunks).texts)
    decreases |chunks|
  {
    hide Feed;
    if chunks != [] {
      FeedAdmits(g, w, pending, chunks[0]);
      var first := Feed(g, w, pending, chunks[0]);
      if first.Accepted? {
        RunAdmits(g, first.wire, first.pending, chunks[1..]);
      }
    }
  }

  // ---------------------------------------------------------------- one message

  /**
    The frames of one message, or of the rest of one that is `open`: a text frame,
    continuations, the last one final.
   */
  predicate IsMessage(server: bool, open: bool, fs: seq<Frame>)
  {
    && fs != []
    && forall k :: 0 <= k < |fs| ==>
         && NextFrame(server, fs[k].raw) == Got(fs[k])
         && fs[k].opcode == (if k == 0 && !open then 1 else 0)
         && (fs[k].fin <==> k == |fs| - 1)
  }

  function RawOf(fs: seq<Frame>): Octets
  {
    if fs == [] then [] else fs[0].raw + RawOf(fs[1..])
  }

  function PayloadOf(fs: seq<Frame>): Octets
  {
    if fs == [] then [] else fs[0].payload + PayloadOf(fs[1..])
  }

  /** Why a complete message is stopped: the policy refuses it, or its id is not one that may come now. */
  function Objection(g: Gate, pending: set<Id>, text: Octets): Option<string>
  {
    match g.policy(text)
    case Refused(reason) => Some(reason)
    case Admitted(None) => None
    case Admitted(Some(id)) =>
      if g.auth then None
      else if g.server && id !in pending then Some("response_id_mismatch")
      else if !g.server && id in pending then Some("rpc_id_reused")
      else None
  }

  /** The native gates' table after a message: a client's id is open, a server's closes it. */
  function TableAfter(g: Gate, pending: set<Id>, text: Octets): set<Id>
  {
    match g.policy(text)
    case Admitted(Some(id)) => if g.auth then pending else if g.server then pending - {id} else pending + {id}
    case _ => pending
  }

  /**
    The message at the head of the buffer, `open` as far as it is held: it stops the stream if
    it is too large or there is an objection; else all its frames pass at once and unchanged,
    it is completed, and the gate goes on behind it.
   */
  ghost predicate Decides(g: Gate, w: Wire, pending: set<Id>, fs: seq<Frame>, more: Octets, r: Outcome)
  {
    var text := w.payload + PayloadOf(fs);
    if |text| > MAX_PAYLOAD then r.Rejected? && r.reason == "websocket_message_too_large"
    else if Objection(g, pending, text).Some? then r.Rejected? && r.reason == Objection(g, pending, text).value
    else
      var next := w.(held := [], payload := [], buffer := more);
      r == Then(Accepted(next, TableAfter(g, pending, text), Flatten(w.held) + RawOf(fs), [text]),
                Drain(g, next, TableAfter(g, pending, text)))
  }

  lemma CompletionDecides(g: Gate, w: Wire, pending: set<Id>)
    ensures var r := CompleteMessage(g, w, pending);
            if Objection(g, pending, w.payload).Some? then
              r == Rejected(Objection(g, pending, w.payload).value, w, pending)
            else
              r == Accepted(w.(held := [], payload := []), TableAfter(g, pending, w.payload), Flatten(w.held),
                            [w.payload])
  {
    hide Flatten;
  }

  /** A frame of a message, taken: too large, kept, or the end of the message. */
  lemma DataTaken(g: Gate, w: Wire, pending: set<Id>, f: Frame)
    requires f.opcode == if w.held == [] then 1 else 0
    requires w.held == [] ==> w.payload == [] && |f.payload| <= MAX_PAYLOAD
    ensures var w' := w.(payload := w.payload + f.payload, held := w.held + [f.raw]);
            TakeFrame(g, w, pending, f) ==
            if |w'.payload| > MAX_PAYLOAD then Rejected("websocket_message_too_large", w', pending)
            else if f.fin then CompleteMessage(g, w', pending) else Accepted(w', pending, [], [])
  {
    hide CompleteMessage;
    assert w.held == [] ==> w.held + [f.raw] == [f.raw] && w.payload + f.payload == f.payload;
  }

  lemma FirstOfMessage(g: Gate, w: Wire, pending: set<Id>, fs: seq<Frame>, more: Octets)
    requires !w.closed && IsMessage(g.server, w.held != [], fs) && w.buffer == RawOf(fs) + more
    ensures NextFrame(g.server, w.buffer) == Got(fs[0]) && NextFrame(g.server, fs[0].raw) == Got(fs[0])
    ensures |fs[0].payload| <= MAX_PAYLOAD && 2 <= |fs[0].raw| <= |w.buffer|
    ensures w.buffer[|fs[0].raw|..] == RawOf(fs[1..]) + more
  {
    hide NextFrame;
    var f := fs[0];
    assert NextFrame(g.server, f.raw) == Got(f);
    NextFrameRaw(g.server, f.raw);
    assert w.buffer == f.raw + (RawOf(fs[1..]) + more);
    NextFrameStable(g.server, f.raw, RawOf(fs[1..]) + more);
  }

  lemma RestOfMessage(server: bool, open: bool, fs: seq<Frame>)
    requires IsMessage(server, open, fs) && |fs| > 1
    ensures IsMessage(server, true, fs[1..]) && !fs[0].fin
  {
    hide NextFrame;
  }

  lemma LastOfMessage(server: bool, open: bool, fs: seq<Frame>)
    requires IsMessage(server, open, fs)
    ensures fs[0].fin <==> |fs| == 1
    ensures fs[0].opcode == if open then 0 else 1
  {
    hide NextFrame;
  }

  lemma {:induction false} MessageDecided(g: Gate, w: Wire, pending: set<Id>, fs: seq<Frame>, more: Octets)
    requires Wellformed(g, w) && w.upgraded && !w.closed
    requires IsMessage(g.server, w.held != [], fs) && w.buffer == RawOf(fs) + more
    ensures Decides(g, w, pending, fs, more, Drain(g, w, pending))
    decreases |fs|
  {
    hide NextFrame, TakeFrame, CompleteMessage, Unfinished, Payloads, IsMessage, Drain, Decides, Flatten;
    NotEmpty(g.server, w.held != [], fs);
    var f, open := fs[0], w.held != [];
    FirstOfMessage(g, w, pending, fs, more);
    LastOfMessage(g.server, open, fs);
    DrainFrame(g, w, pending, f);
    NothingHeldYet(g, w);
    var v := w.(buffer := RawOf(fs[1..]) + more);
    DataTaken(g, v, pending, f);
    var u := v.(payload := w.payload + f.payload, held := w.held + [f.raw]);
    if |u.payload| > MAX_PAYLOAD {
      TooLargeDecides(g, w, pending, fs, more, Drain(g, w, pending));
    } else if |fs| == 1 {
      LastDecides(g, w, pending, fs, more, u);
    } else {
      RestOfMessage(g.server, open, fs);
      TakenWellformed(g, v, pending, f);
      MessageDecided(g, u, pending, fs[1..], more);
      ThenNothing(u, pending, Drain(g, u, pending));
      RestDecides(g, w, pending, fs, more, u, Drain(g, u, pending));
    }
  }

  lemma NotEmpty(server: bool, open: bool, fs: seq<Frame>)
    requires IsMessage(server, open, fs)
    ensures fs != []
  {
    hide NextFrame;
  }

  lemma TooLargeDecides(g: Gate, w: Wire, pending: set<Id>, fs: seq<Frame>, more: Octets, r: Outcome)
    requires fs != [] && |w.payload + fs[0].payload| > MAX_PAYLOAD
    requires r.Rejected? && r.reason == "websocket_message_too_large"
    ensures Decides(g, w, pending, fs, more, r)
  {
    hide Objection, TableAfter, Drain;
  }

  /** The frame that ends the message. */
  lemma LastDecides(g: Gate, w: Wire, pending: set<Id>, fs: seq<Frame>, more: Octets, u: Wire)
    requires |fs| == 1
    requires u == w.(buffer := RawOf(fs[1..]) + more, payload := w.payload + fs[0].payload,
                     held := w.held + [fs[0].raw])
    requires |u.payload| <= MAX_PAYLOAD
    ensures var t := CompleteMessage(g, u, pending);
            Decides(g, w, pending, fs, more, if t.Rejected? then t else Then(t, Drain(g, t.wire, t.pending)))
  {
    hide Drain, CompleteMessage, Objection, TableAfter, Flatten;
    assert RawOf(fs[1..]) + more == more && RawOf(fs) == fs[0].raw + [] && PayloadOf(fs) == fs[0].payload + [];
    CompletionDecides(g, u, pending);
    FlattenSnoc(w.held, fs[0].raw);
    assert w.payload + PayloadOf(fs) == u.payload && Flatten(w.held) + RawOf(fs) == Flatten(u.held);
  }

  /** One held frame does not change what the message is decided to be. */
  lemma RestDecides(g: Gate, w: Wire, pending: set<Id>, fs: seq<Frame>, more: Octets, u: Wire, r: Outcome)
    requires fs != [] && Decides(g, u, pending, fs[1..], more, r)
    requires u == w.(buffer := u.buffer, payload := w.payload + fs[0].payload, held := w.held + [fs[0].raw])
    ensures Decides(g, w, pending, fs, more, r)
  {
    hide Drain, Objection, TableAfter, Flatten;
    Joined(w, fs);
    hide RawOf, PayloadOf;
    assert u.(held := [], payload := [], buffer := more) == w.(held := [], payload := [], buffer := more);
  }

  lemma Joined(w: Wire, fs: seq<Frame>)
    requires fs != []
    ensures w.payload + PayloadOf(fs) == (w.payload + fs[0].payload) + PayloadOf(fs[1..])
    ensures Flatten(w.held) + RawOf(fs) == Flatten(w.held + [fs[0].raw]) + RawOf(fs[1..])
  {
    hide Flatten;
    var f, payload, raws, held := fs[0], PayloadOf(fs[1..]), RawOf(fs[1..]), Flatten(w.held);
    assert PayloadOf(fs) == f.payload + payload && RawOf(fs) == f.raw + raws;
    hide PayloadOf, RawOf;
    FlattenSnoc(w.held, f.raw);
    Associative(w.payload, f.payload, payload);
    Associative(held, f.raw, raws);
  }

  lemma Associative(a: Octets, b: Octets, c: Octets)
    ensures a + (b + c) == (a + b) + c
  {
  }

  lemma NothingHeldYet(g: Gate, w: Wire)
    requires Wellformed(g, w)
    ensures w.held == [] ==> w.payload == []
  {
  }

  lemma TakenWellformed(g: Gate, v: Wire, pending: set<Id>, f: Frame)
    requires Wellformed(g, v) && v.upgraded && !v.closed && NextFrame(g.server, f.raw) == Got(f)
             && |f.payload| <= MAX_PAYLOAD
    requires TakeFrame(g, v, pending, f).Accepted?
    ensures Wellformed(g, TakeFrame(g, v, pending, f).wire)
  {
    hide NextFrame, TakeFrame, Wellformed;
    TakeFrameWellformed(g, v, pending, f);
  }

  // ---------------------------------------------------------------- one frame

  /** A data frame that may come here: a text frame if no message is open, a continuation if one is. */
  predicate InPlace(w: Wire, f: Frame)
  {
    f.opcode == if w.held == [] then 1 else 0
  }

  /** Close, ping and pong as RFC 6455, section 5.5, has them; nothing may follow a close. */
  predicate GoodControl(f: Frame, behind: Octets)
  {
    f.fin && |f.payload| <= 125 && (f.opcode == 8 ==> |f.payload| != 1 && behind == [])
  }

  /** Why a frame that may not come here is refused. */
  function Misplaced(g: Gate, w: Wire, f: Frame): string
  {
    if f.opcode == 1 then "websocket_fragment_start"
    else if f.opcode == 0 then "websocket_fragment_continuation"
    else if g.auth && f.opcode in {8, 9, 10} then
      (if f.fin && |f.payload| <= 125 && !(f.opcode == 8 && |f.payload| == 1) then "websocket_after_close"
       else "websocket_control_frame")
    else "websocket_frame_opcode"
  }

  /**
    The frame at the head of the buffer: one in the middle of a message is kept back; a good
    control frame passes the auth gate at once, and a close ends it; any other frame that is
    not in its place ends the stream.
   */
  lemma FrameDecided(g: Gate, w: Wire, pending: set<Id>, f: Frame)
    requires Wellformed(g, w) && w.upgraded && !w.closed && NextFrame(g.server, w.buffer) == Got(f)
    ensures |f.raw| <= |w.buffer|
    ensures var r, v, text := Drain(g, w, pending), w.(buffer := w.buffer[|f.raw|..]), w.payload + f.payload;
            && (InPlace(w, f) && !f.fin && |text| <= MAX_PAYLOAD ==>
                  r == Drain(g, v.(payload := text, held := w.held + [f.raw]), pending))
            && (g.auth && f.opcode in {9, 10} && GoodControl(f, v.buffer) ==>
                  r == Then(Accepted(v, pending, f.raw, []), Drain(g, v, pending)))
            && (g.auth && f.opcode == 8 && GoodControl(f, v.buffer) ==>
                  r == Accepted(v.(payload := [], held := [], closed := true), pending, f.raw, []))
            && (!InPlace(w, f) && !(g.auth && f.opcode in {8, 9, 10} && GoodControl(f, v.buffer)) ==>
                  r.Rejected? && r.reason == Misplaced(g, w, f))
  {
    DrainFrame(g, w, pending, f);
    NothingHeldYet(g, w);
    hide NextFrame, Drain, TakeFrame, Wellformed, GoodControl, Misplaced;
    var v := w.(buffer := w.buffer[|f.raw|..]);
    if InPlace(w, f) {
      hide CompleteMessage;
      DataTaken(g, v, pending, f);
      var u := v.(payload := w.payload + f.payload, held := w.held + [f.raw]);
      ThenNothing(u, pending, Drain(g, u, pending));
      ControlIsNotData(w, f);
    } else {
      OtherTaken(g, v, pending, f);
      var t := v.(payload := [], held := [], closed := true);
      DrainClosed(g, t, pending);
      assert f.raw + [] == f.raw;
    }
  }

  lemma ControlIsNotData(w: Wire, f: Frame)
    ensures InPlace(w, f) ==> f.opcode !in {8, 9, 10}
  {
  }

  lemma OtherTaken(g: Gate, v: Wire, pending: set<Id>, f: Frame)
    requires !InPlace(v, f) && !v.closed
    ensures TakeFrame(g, v, pending, f) ==
            if g.auth && f.opcode in {8, 9, 10} && GoodControl(f, v.buffer) then
              Accepted(if f.opcode == 8 then v.(payload := [], held := [], closed := true) else v, pending, f.raw, [])
            else Rejected(Misplaced(g, v, f), v, pending)
  {
    hide CompleteMessage;
  }

  /** Octets that are no frame end the stream; an incomplete frame waits. */
  lemma NoFrameDecided(g: Gate, w: Wire, pending: set<Id>)
    requires !w.closed && !NextFrame(g.server, w.buffer).Got?
    ensures var p, r := NextFrame(g.server, w.buffer), Drain(g, w, pending);
            if p.Malformed? then r == Rejected(p.reason, w, pending) else r == Accepted(w, pending, [], [])
  {
    hide NextFrame;
  }
}
