/**
  The byte gates as objects: `NativeWebSocketGate` and `AuthWebSocketGate` update
  their buffer, fragment and id-table fields frame by frame.  Each `Feed` is proved
  to compute `GateSpec.Feed`, and the native gate carries a history of everything it
  received and released.
 */
module NativeGate {
  import opened Bytes
  import opened GateSpec
  import opened GateTheorems
  import opened GateRules

  /** What a call of a gate gives its caller: octets to forward, or an exception with a reason. */
  datatype Reply = Released(output: Octets) | Refusal(reason: string)

  /** `_frame`: cut one frame off the buffer, if a whole one is there. */
  method CutHeadFrame(server: bool, buffer: Octets) returns (parsed: Parsed, rest: Octets)
    ensures parsed == NextFrame(server, buffer)
    ensures if parsed.Got? then parsed.frame.raw + rest == buffer && |rest| < |buffer| else rest == buffer
  {
    hide Unmask, BigEndian;
    rest := buffer;
    if |buffer| < 2 {
      return NeedMore, buffer;
    }
    var first, second := buffer[0], buffer[1];
    if (first / 16) % 8 != 0 {
      return Malformed("websocket_compression_or_reserved"), buffer;
    }
    var fin, opcode, masked := first >= 128, first % 16, second >= 128;
    if masked == server {
      return Malformed("websocket_mask_direction"), buffer;
    }
    var length: nat, header: nat := second % 128, 2;
    if length == 126 {
      if |buffer| < 4 {
        return NeedMore, buffer;
      }
      length, header := BigEndian(buffer[2..4]), 4;
    } else if length == 127 {
      if |buffer| < 10 {
        return NeedMore, buffer;
      }
      if buffer[2] >= 128 {
        return Malformed("websocket_length"), buffer;
      }
      length, header := BigEndian(buffer[2..10]), 10;
    }
    if length > MAX_PAYLOAD {
      return Malformed("websocket_frame_too_large"), buffer;
    }
    var total := header + (if masked then 4 else 0) + length;
    assert ReadHead(server, buffer) == Sized(header, total);
    hide ReadHead;
    if |buffer| < total {
      return NeedMore, buffer;
    }
    var raw := buffer[..total];
    rest := buffer[total..];
    var payload := if masked then Unmask(raw[header..header + 4], raw[header + 4..]) else raw[header..];
    parsed := Got(Frame(fin, opcode, payload, raw));
  }

  /** The set of request ids without an answer yet; the two gates of one connection share it. */
  class PendingIds {
    var ids: set<Id>

    constructor ()
      ensures ids == {}
    {
      ids := {};
    }
  }

  class NativeWebSocketGate {
    const gate: Gate
    const pendingIds: PendingIds
    var buffer: Octets
    var handshakeDone: bool
    var fragmentPayload: Octets
    var fragmentFrames: seq<Octets>

    ghost var received: Octets          // everything fed in
    ghost var released: Octets          // everything returned
    ghost var completed: seq<Octets>    // payloads of the messages that passed
    ghost var refused: bool             // some call was rejected

    ghost function State(): Wire
      reads this
    {
      Wire(handshakeDone, false, buffer, fragmentPayload, fragmentFrames)
    }

    /**
      Only what the policy admits has been completed; until a rejection nothing is lost,
      nothing decodable waits, and what waits is bounded.
     */
    ghost predicate Valid()
      reads this
    {
      && !gate.auth && AllAdmitted(gate, completed)
      && (!refused ==>
            && Wellformed(gate, State()) && Settled(gate, State())
            && released + Kept(State()) == received
            && |fragmentPayload| <= 65535
            && |buffer| <= if !handshakeDone then 65536 else if gate.server then 65544 else 65548)
    }

    constructor (server: bool, policy: Octets -> Verdict, pendingIds: PendingIds)
      ensures Valid() && !refused && State() == FRESH
      ensures gate == Gate(server, false, policy) && this.pendingIds == pendingIds
      ensures received == released == [] && completed == []
    {
      gate, this.pendingIds := Gate(server, false, policy), pendingIds;
      buffer, handshakeDone, fragmentPayload, fragmentFrames := [], false, [], [];
      received, released, completed, refused := [], [], [], false;
    }

    /** The end of a message: policy, id table, release of the held frames. */
    method CompleteMessage() returns (r: Reply)
      requires !gate.auth
      modifies this`fragmentPayload, this`fragmentFrames, pendingIds
      ensures var o := GateSpec.CompleteMessage(gate, old(State()), old(pendingIds.ids));
              && State() == o.wire && pendingIds.ids == o.pending
              && r == (if o.Accepted? then Released(o.output) else Refusal(o.reason))
    {
      var verdict := gate.policy(fragmentPayload);
      if verdict.Refused? {
        return Refusal(verdict.reason);
      }
      if verdict.id.Some? {
        var id := verdict.id.value;
        if gate.server {
          if id !in pendingIds.ids {
            return Refusal("response_id_mismatch");
          }
          pendingIds.ids := pendingIds.ids - {id};
        } else {
          if id in pendingIds.ids {
            return Refusal("rpc_id_reused");
          }
          pendingIds.ids := pendingIds.ids + {id};
        }
      }
      var frames := fragmentFrames;
      fragmentFrames, fragmentPayload := [], [];
      r := Released(Flatten(frames));
    }

    /** The branches of the loop for one decoded frame. */
    method TakeFrame(f: Frame) returns (r: Reply)
      requires !gate.auth
      modifies this`fragmentPayload, this`fragmentFrames, pendingIds
      ensures var o := GateSpec.TakeFrame(gate, old(State()), old(pendingIds.ids), f);
              && State() == o.wire && pendingIds.ids == o.pending
              && r == (if o.Accepted? then Released(o.output) else Refusal(o.reason))
    {
      if f.opcode == 1 {
        if fragmentFrames != [] {
          return Refusal("websocket_fragment_start");
        }
        fragmentPayload, fragmentFrames := fragmentPayload + f.payload, [f.raw];
        if f.fin {
          r := CompleteMessage();
          return;
        }
      } else if f.opcode == 0 {
        if fragmentFrames == [] {
          return Refusal("websocket_fragment_continuation");
        }
        fragmentPayload, fragmentFrames := fragmentPayload + f.payload, fragmentFrames + [f.raw];
        if |fragmentPayload| > 65535 {
          return Refusal("websocket_message_too_large");
        }
        if f.fin {
          r := CompleteMessage();
          return;
        }
      } else {
        return Refusal("websocket_frame_opcode");
      }
      r := Released([]);
    }

    /** The loop of `_feed`; `done` is what the call has produced so far. */
    method DrainBuffer(header: Octets) returns (r: Reply, ghost o: Outcome)
      requires !gate.auth && handshakeDone
      modifies this`buffer, this`fragmentPayload, this`fragmentFrames, pendingIds
      ensures o == Then(Accepted(old(State()), old(pendingIds.ids), header, []),
                        Drain(gate, old(State()), old(pendingIds.ids)))
      ensures State() == o.wire && pendingIds.ids == o.pending
      ensures r == (if o.Accepted? then Released(o.output) else Refusal(o.reason))
    {
      var output := header;
      ghost var texts: seq<Octets> := [];
      o := Then(Accepted(State(), pendingIds.ids, header, []), Drain(gate, State(), pendingIds.ids));
      while true
        invariant handshakeDone
        invariant o == Then(Accepted(State(), pendingIds.ids, output, texts), Drain(gate, State(), pendingIds.ids))
        decreases |buffer|
      {
        ghost var w, p := State(), pendingIds.ids;
        var parsed, rest := CutHeadFrame(gate.server, buffer);
        if parsed.NeedMore? {
          return Released(output), o;
        } else if parsed.Malformed? {
          return Refusal(parsed.reason), o;
        }
        DrainFrame(gate, w, p, parsed.frame);
        hide NextFrame, Drain, GateSpec.TakeFrame;
        assert rest == buffer[|parsed.frame.raw|..];
        buffer := rest;
        var step := TakeFrame(parsed.frame);
        if step.Refusal? {
          return step, o;
        }
        ghost var t := GateSpec.TakeFrame(gate, w.(buffer := rest), p, parsed.frame);
        ThenAssociative(Accepted(w, p, output, texts), t, Drain(gate, State(), pendingIds.ids));
        output, texts := output + step.output, texts + t.texts;
      }
    }

    /** One call of the gate. */
    method Feed(data: Octets) returns (r: Reply)
      requires Valid()
      modifies this, pendingIds
      ensures Valid()
      ensures var o := GateSpec.Feed(gate, old(State()), old(pendingIds.ids), data);
              && State() == o.wire && pendingIds.ids == o.pending
              && r == (if o.Accepted? then Released(o.output) else Refusal(o.reason))
              && completed == old(completed) + if o.Accepted? then o.texts else []
      ensures refused == (old(refused) || r.Refusal?)
      ensures r.Released? ==> received == old(received) + data && released == old(released) + r.output
    {
      hide NextFrame, Drain, GateSpec.TakeFrame, Unfinished, Payloads, Flatten;
      ghost var w, p := State(), pendingIds.ids;
      FeedAdmits(gate, w, p, data);
      ghost var o := GateSpec.Feed(gate, w, p, data);
      if !refused {
        FeedWellformed(gate, w, p, data);
        FeedBounded(gate, w, p, data);
        FeedConserves(gate, w, p, data);
      }
      r := Run(data);
      if r.Refusal? {
        refused := true;
      } else {
        if !refused {
          Chain(released, Kept(w), received, r.output, Kept(State()), data);
        }
        received, released, completed := received + data, released + r.output, completed + o.texts;
      }
    }

    method Run(data: Octets) returns (r: Reply)
      requires !gate.auth
      modifies this`buffer, this`handshakeDone, this`fragmentPayload, this`fragmentFrames, pendingIds
      ensures var o := GateSpec.Feed(gate, old(State()), old(pendingIds.ids), data);
              && State() == o.wire && pendingIds.ids == o.pending
              && r == (if o.Accepted? then Released(o.output) else Refusal(o.reason))
    {
      hide NextFrame, Drain, GateSpec.TakeFrame;
      if |data| > MAX_CHUNK {
        return Refusal("wire_chunk");
      }
      buffer := buffer + data;
      var header: Octets := [];
      if !handshakeDone {
        var marker := FindHeaderEnd(buffer);
        if marker.NoHeaderEnd? {
          return if |buffer| > MAX_HANDSHAKE then Refusal("websocket_handshake_size") else Released([]);
        }
        header, buffer := buffer[..marker.end], buffer[marker.end..];
        handshakeDone := true;
      }
      ghost var w, p := State(), pendingIds.ids;
      ghost var o;
      r, o := DrainBuffer(header);
      ThenNothing(w, p, Drain(gate, w, p));
    }
  }
}
