/**
  `AuthWebSocketGate` and the chain of an auth gate and a helper gate, as objects.
 */
module AuthGate {
  import opened Bytes
  import opened GateSpec
  import opened GateTheorems
  import opened GateRules
  import opened NativeGate
  import opened AuthTheorems
  import opened AuthProjection

  class AuthWebSocketGate {
    const gate: Gate
    var buffer: Octets
    var handshakeDone: bool
    var fragmentPayload: Octets
    var fragmentFrames: seq<Octets>
    var authClosed: bool

    ghost var history: History
    ghost var completed: seq<Octets>
    ghost var refused: bool

    ghost function State(): Wire
      reads this
    {
      Wire(handshakeDone, authClosed, buffer, fragmentPayload, fragmentFrames)
    }

    /**
      Only what the policy admits has been completed; until a rejection the history explains
      every octet received and returned.
     */
    ghost predicate Valid()
      reads this
    {
      && gate.auth && AllAdmitted(gate, completed)
      && (!refused ==> Wellformed(gate, State()) && Settled(gate, State()) && Explains(gate, State(), history))
    }

    constructor (server: bool, policy: Octets -> Verdict)
      ensures Valid() && !refused && State() == FRESH && gate == Gate(server, true, policy)
      ensures history == History([], [], [], [], [])
    {
      gate := Gate(server, true, policy);
      buffer, handshakeDone, fragmentPayload, fragmentFrames, authClosed := [], false, [], [], false;
      history, completed, refused := History([], [], [], [], []), [], false;
      new;
      FreshExplained(gate);
    }

    /** The end of a message: policy, then release of the held frames; no id table. */
    method CompleteAuthMessage() returns (r: Reply)
      requires gate.auth
      modifies this`fragmentPayload, this`fragmentFrames
      ensures var o := GateSpec.CompleteMessage(gate, old(State()), {});
              && State() == o.wire && o.pending == {}
              && r == (if o.Accepted? then Released(o.output) else Refusal(o.reason))
    {
      var verdict := gate.policy(fragmentPayload);
      if verdict.Refused? {
        return Refusal(verdict.reason);
      }
      var frames := fragmentFrames;
      fragmentFrames, fragmentPayload := [], [];
      r := Released(Flatten(frames));
    }

    /** The branches of the loop for one decoded frame. */
    method TakeFrame(f: Frame) returns (r: Reply)
      requires gate.auth && !authClosed
      modifies this`fragmentPayload, this`fragmentFrames, this`authClosed
      ensures var o := GateSpec.TakeFrame(gate, old(State()), {}, f);
              && State() == o.wire && o.pending == {}
              && r == (if o.Accepted? then Released(o.output) else Refusal(o.reason))
    {
      if f.opcode == 1 {
        if fragmentFrames != [] {
          return Refusal("websocket_fragment_start");
        }
        fragmentPayload, fragmentFrames := fragmentPayload + f.payload, [f.raw];
        if f.fin {
          r := CompleteAuthMessage();
          return;
        }
        r := Released([]);
      } else if f.opcode == 0 {
        if fragmentFrames == [] {
          return Refusal("websocket_fragment_continuation");
        }
        fragmentPayload, fragmentFrames := fragmentPayload + f.payload, fragmentFrames + [f.raw];
        if |fragmentPayload| > 65535 {
          return Refusal("websocket_message_too_large");
        }
        if f.fin {
          r := CompleteAuthMessage();
          return;
        }
        r := Released([]);
      } else if f.opcode in {8, 9, 10} {
        if !f.fin || |f.payload| > 125 || (f.opcode == 8 && |f.payload| == 1) {
          return Refusal("websocket_control_frame");
        }
        if f.opcode == 8 {
          if buffer != [] {
            return Refusal("websocket_after_close");
          }
          fragmentFrames, fragmentPayload, authClosed := [], [], true;
        }
        r := Released(f.raw);
      } else {
        r := Refusal("websocket_frame_opcode");
      }
    }

    method DrainBuffer(header: Octets) returns (r: Reply, ghost o: Outcome)
      requires gate.auth && handshakeDone && !authClosed
      modifies this`buffer, this`fragmentPayload, this`fragmentFrames, this`authClosed
      ensures o == Then(Accepted(old(State()), {}, header, []), Drain(gate, old(State()), {}))
      ensures State() == o.wire
      ensures r == (if o.Accepted? then Released(o.output) else Refusal(o.reason))
    {
      var output := header;
      ghost var texts: seq<Octets> := [];
      o := Then(Accepted(State(), {}, header, []), Drain(gate, State(), {}));
      while true
        invariant handshakeDone && !authClosed
        invariant o == Then(Accepted(State(), {}, output, texts), Drain(gate, State(), {}))
        decreases |buffer|
      {
        ghost var w := State();
        var parsed, rest := CutHeadFrame(gate.server, buffer);
        if parsed.NeedMore? {
          return Released(output), o;
        } else if parsed.Malformed? {
          return Refusal(parsed.reason), o;
        }
        DrainFrame(gate, w, {}, parsed.frame);
        hide NextFrame, Drain, GateSpec.TakeFrame;
        assert rest == buffer[|parsed.frame.raw|..];
        buffer := rest;
        var step := TakeFrame(parsed.frame);
        if step.Refusal? {
          return step, o;
        }
        ghost var t := GateSpec.TakeFrame(gate, w.(buffer := rest), {}, parsed.frame);
        ThenAssociative(Accepted(w, {}, output, texts), t, Drain(gate, State(), {}));
        output, texts := output + step.output, texts + t.texts;
        if authClosed {
          DrainClosed(gate, State(), {});
          assert output + [] == output;
          return Released(output), o;
        }
      }
    }

    method FeedAuth(data: Octets) returns (r: Reply)
      requires gate.auth
      modifies this`buffer, this`handshakeDone, this`fragmentPayload, this`fragmentFrames, this`authClosed
      ensures var o := GateSpec.Feed(gate, old(State()), {}, data);
              && State() == o.wire
              && r == (if o.Accepted? then Released(o.output) else Refusal(o.reason))
    {
      hide NextFrame, Drain, GateSpec.TakeFrame;
      if |data| > MAX_CHUNK || authClosed {
        return Refusal("wire_chunk");
      }
      buffer := buffer + data;
      var header: Octets := [];
      if !handshakeDone {
        var marker := FindHeaderEnd(buffer);
        if marker.NoHeaderEnd? {
          return if |buffer| > MAX_HANDSHAKE then Refusal("websocket_handshake_size") else Released([]);
        }
        if marker.end > MAX_HANDSHAKE {
          return Refusal("websocket_handshake_size");
        }
        header, buffer := buffer[..marker.end], buffer[marker.end..];
        handshakeDone := true;
      }
      ghost var w := State();
      ghost var o;
      r, o := DrainBuffer(header);
      ThenNothing(w, {}, Drain(gate, w, {}));
    }

    /** One call; a rejection also drops everything the gate was holding. */
    method Feed(data: Octets) returns (r: Reply)
      requires Valid()
      modifies this
      ensures Valid()
      ensures var o := GateSpec.Feed(gate, old(State()), {}, data);
              && r == (if o.Accepted? then Released(o.output) else Refusal(o.reason))
              && State() == (if o.Accepted? then o.wire else o.wire.(buffer := [], payload := [], held := []))
              && completed == old(completed) + if o.Accepted? then o.texts else []
      ensures refused == (old(refused) || r.Refusal?)
      ensures r.Released? && !refused ==>
                && history.received == old(history).received + data
                && history.returned == old(history).returned + r.output
                && old(history).arrived <= history.arrived && old(history).forwarded <= history.forwarded
    {
      hide NextFrame, Drain, GateSpec.TakeFrame, Unfinished, Payloads, Explains;
      ghost var w := State();
      FeedAdmits(gate, w, {}, data);
      r := FeedAuth(data);
      completed := completed + (if r.Released? then GateSpec.Feed(gate, w, {}, data).texts else []);
      if r.Refusal? {
        buffer, fragmentPayload, fragmentFrames, refused := [], [], [], true;
      } else if !refused {
        FeedWellformed(gate, w, {}, data);
        history := FeedExplained(gate, w, {}, data, history);
      }
    }
  }

  /** `_chain_wire_gates`: the helper gate sees only what the auth gate forwards, and only if there is any. */
  class ChainedGate {
    const first: AuthWebSocketGate
    const second: NativeWebSocketGate

    ghost predicate Valid()
      reads this, first, second, second.pendingIds
    {
      && first.Valid() && second.Valid() && first.gate.server == second.gate.server
      && (!first.refused && !second.refused ==> InStep(first.State(), second.State()))
    }

    constructor (first: AuthWebSocketGate, second: NativeWebSocketGate)
      requires first.Valid() && second.Valid() && first.gate.server == second.gate.server
      requires first.State() == second.State() == FRESH
      ensures Valid() && this.first == first && this.second == second
    {
      this.first, this.second := first, second;
    }

    /** An accepted call forwards exactly what the auth gate forwarded; the helper gate keeps nothing. */
    method Call(data: Octets) returns (r: Reply)
      requires Valid() && !first.refused && !second.refused
      modifies first, second, second.pendingIds
      ensures Valid()
      ensures var o := GateSpec.Feed(first.gate, old(first.State()), {}, data);
              if o.Rejected? then r == Refusal(o.reason)
              else r.Released? ==>
                && r.output == o.output
                && second.buffer == [] && second.fragmentFrames == [] && second.fragmentPayload == []
                && second.handshakeDone == first.handshakeDone
      ensures r.Refusal? <==> first.refused || second.refused
    {
      hide NextFrame, Drain, GateSpec.TakeFrame, Unfinished, Payloads, Explains, GateSpec.Feed;
      ghost var w, w2, p2 := first.State(), second.State(), second.pendingIds.ids;
      r := first.Feed(data);
      if r.Refusal? {
        return;
      }
      ReplayFeed(first.gate, second.gate, w, {}, w2, p2, data);
      if r.output == [] {
        Quiet(first.gate, w, data);
        return;
      }
      r := second.Feed(r.output);
    }
  }

  lemma TakeShows(g: Gate, w: Wire, pending: set<Id>, f: Frame)
    requires !w.closed && |f.raw| >= 2
    ensures var t := TakeFrame(g, w, pending, f);
            t.Accepted? && t.output == [] ==> !t.wire.closed && t.wire.upgraded == w.upgraded
    ensures TakeFrame(g, w, pending, f).wire.closed ==> TakeFrame(g, w, pending, f).Accepted?
  {
  }

  /** A drained close frame is forwarded. */
  lemma {:induction false} ClosingShows(g: Gate, w: Wire, pending: set<Id>)
    requires !w.closed
    ensures var d := Drain(g, w, pending);
            d.Accepted? && d.output == [] ==> !d.wire.closed && d.wire.upgraded == w.upgraded
    decreases |w.buffer|
  {
    hide NextFrame, TakeFrame;
    if NextFrame(g.server, w.buffer).Got? {
      var f := NextFrame(g.server, w.buffer).frame;
      DrainFrame(g, w, pending, f);
      var w' := w.(buffer := w.buffer[|f.raw|..]);
      TakeShows(g, w', pending, f);
      var t := TakeFrame(g, w', pending, f);
      hide Drain;
      if t.Accepted? && t.output == [] {
        ClosingShows(g, t.wire, t.pending);
      }
    }
  }

  /** A call that forwards nothing leaves the handshake phase as it was. */
  lemma Quiet(g: Gate, w: Wire, data: Octets)
    requires g.auth && Feed(g, w, {}, data).Accepted? && Feed(g, w, {}, data).output == []
    requires Wellformed(g, w)
    ensures var d := Feed(g, w, {}, data);
            d.wire.upgraded == w.upgraded && !d.wire.closed && !w.closed
  {
    hide NextFrame, TakeFrame, Drain;
    var b := w.buffer + data;
    if w.upgraded {
      ClosingShows(g, More(w, data), {});
    } else if FindHeaderEnd(b).HeaderEnd? {
      AuthFeedHeader(g, w, {}, data, FindHeaderEnd(b).end, b[FindHeaderEnd(b).end..]);
    }
  }
}
