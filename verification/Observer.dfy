/**
  The observer of one connection, as the object the relay feeds: parsers, pending table
  and event queue are updated in place.  `Feed` is proved to compute `ObserverSpec.Observe`.
 */
module Observer {
  import opened Bytes
  import opened Options
  import opened GateSpec
  import opened ObserverSpec
  import opened ObserverTheorems

  class ConnectionObserver {
    const limits: Config
    var valid: bool
    var overflowed: bool
    var clientKey: Option<Octets>
    var client: Parser
    var server: Parser
    var pending: map<(Direction, Id), string>
    var events: seq<Record>
    var nextSequence: nat

    ghost var texts: seq<(Direction, Octets)>   // messages handed to the RPC layer

    ghost function CurrentLink(): Link
      reads this
    {
      Link(valid, overflowed, clientKey, pending, events, nextSequence, texts)
    }

    ghost function State(): Obs
      reads this
    {
      Obs(CurrentLink(), client, server)
    }

    /** An invalid connection holds no octets and no pending request. */
    ghost predicate Valid()
      reads this
    {
      !valid ==> client == Cleared(client) && server == Cleared(server) && pending == map[]
    }

    constructor (limits: Config)
      ensures Valid() && this.limits == limits
      ensures State() == OPENED
    {
      this.limits := limits;
      valid, overflowed, clientKey, client, server := true, false, None, IDLE, IDLE;
      pending, events, nextSequence, texts := map[], [], 1, [];
    }

    method InvalidateConnection()
      modifies this
      ensures State() == Obs(Invalidate(old(CurrentLink())), Cleared(old(client)), Cleared(old(server)))
      ensures Valid()
    {
      valid := false;
      client := client.(buffer := [], payload := [], fragment := None);
      server := server.(buffer := [], payload := [], fragment := None);
      pending := map[];
    }

    method EmitEvent(d: Direction, e: Event)
      requires Valid()
      modifies this
      ensures Valid()
      ensures State() == Conclude(old(State()), Emit(limits, old(CurrentLink()), d, e))
    {
      if overflowed {
        return;
      }
      var record := Record(nextSequence, e);
      nextSequence := nextSequence + 1;
      if |events| + 1 >= limits.maxEvents {
        InvalidateConnection();
        overflowed := true;
        var overflow := Record(nextSequence, Gap(d, "event_queue_overflow", None));
        nextSequence := nextSequence + 1;
        events := events + [overflow];
        return;
      }
      events := events + [record];
    }

    method RecordGap(d: Direction, reason: string, size: Option<(nat, nat)>)
      requires Valid()
      modifies this
      ensures Valid()
      ensures State() == Conclude(old(State()), SizedGap(limits, old(CurrentLink()), d, reason, size))
    {
      if valid {
        InvalidateConnection();
        EmitEvent(d, Gap(d, reason, size));
      }
    }

    method HandleRequest(d: Direction, name: string, id: Option<Id>, detail: string)
      requires Valid() && valid
      modifies this
      ensures Valid()
      ensures State() == Conclude(old(State()), ProcessRequest(limits, old(CurrentLink()), d, name, id, detail))
    {
      if id.Some? {
        if |pending| >= MAX_PENDING {
          RecordGap(d, "pending_requests_too_many", None);
          return;
        }
        if (d, id.value) in pending {
          RecordGap(d, "duplicate_request_id", None);
          return;
        }
        pending := pending[(d, id.value) := name];
      }
      if name !in KNOWN_METHODS {
        EmitEvent(d, RpcUnknown(d, id, Some(name), false, detail));
      } else {
        EmitEvent(d, RpcEvent(d, id, name, detail));
      }
    }

    method HandleResponse(d: Direction, id: Id, ok: bool, detail: string)
      requires Valid() && valid
      modifies this
      ensures Valid()
      ensures State() == Conclude(old(State()), ProcessResponse(limits, old(CurrentLink()), d, id, ok, detail))
    {
      var asked := (Opposite(d), id);
      if asked !in pending {
        EmitEvent(d, RpcUnknown(d, Some(id), None, true, ""));
        return;
      }
      var name := pending[asked];
      pending := pending - {asked};
      if name !in KNOWN_METHODS {
        EmitEvent(d, RpcUnknown(d, Some(id), Some(name), true, ""));
      } else if !ok {
        EmitEvent(d, RpcResponse(d, id, name, false, ""));
      } else {
        EmitEvent(d, RpcResponse(d, id, name, true, detail));
      }
    }

    method HandleText(d: Direction, payload: Octets)
      requires Valid() && valid
      modifies this
      ensures Valid()
      ensures State() == Conclude(old(State()), ProcessText(limits, old(CurrentLink()), d, payload))
    {
      texts := texts + [(d, payload)];
      match limits.rpc(d, payload)
      case BadRpc(reason) => RecordGap(d, reason, None);
      case Request(name, id, detail) => HandleRequest(d, name, id, detail);
      case Response(id, ok, detail) => HandleResponse(d, id, ok, detail);
    }

    method SetSide(d: Direction, p: Parser)
      modifies this`client, this`server
      ensures State() == WithSide(old(State()), d, p)
    {
      if d.Client? {
        client := p;
      } else {
        server := p;
      }
    }

    /** A whole frame; `p` is the parser with the frame cut off its buffer. */
    method HandleFrame(d: Direction, fin: bool, opcode: nat, payload: Octets)
      requires Valid() && valid
      modifies this
      ensures Valid()
      ensures var (l, p) := ProcessFrame(limits, old(CurrentLink()), Side(old(State()), d), d, fin, opcode, payload);
              State() == Conclude(WithSide(old(State()), d, p), l)
    {
      hide Emit, SizedGap, ProcessText;
      var p := if d.Client? then client else server;
      if opcode >= 8 {
        if opcode == 8 && !limits.closePayload(payload) {
          RecordGap(d, "invalid_close_payload", None);
          return;
        }
        EmitEvent(d, Control(d, opcode));
      } else if opcode == 0 {
        if p.fragment.None? {
          RecordGap(d, "unexpected_continuation", None);
          return;
        }
        if |p.payload| + |payload| > limits.maxMessage {
          RecordGap(d, "message_too_large", Some((|p.payload| + |payload|, limits.maxMessage)));
          return;
        }
        p := p.(payload := p.payload + payload);
        if !fin {
          SetSide(d, p);
          return;
        }
        var opcode', whole := p.fragment.value, p.payload;
        SetSide(d, p.(fragment := None, payload := []));
        if opcode' == 1 {
          HandleText(d, whole);
        } else {
          RecordGap(d, "binary_message", None);
        }
      } else if opcode == 1 || opcode == 2 {
        if p.fragment.Some? {
          RecordGap(d, "new_data_during_fragment", None);
          return;
        }
        if |payload| > limits.maxMessage {
          RecordGap(d, "message_too_large", Some((|payload|, limits.maxMessage)));
          return;
        }
        if !fin {
          SetSide(d, p.(fragment := Some(opcode), payload := payload));
        } else if opcode == 1 {
          HandleText(d, payload);
        } else {
          RecordGap(d, "binary_message", None);
        }
      } else {
        RecordGap(d, "unsupported_opcode", None);
      }
    }

    /** The frame loop. */
    method ParseBufferedFrames(d: Direction)
      requires Valid()
      modifies this
      ensures Valid()
      ensures State() == ParseFrames(limits, old(State()), d)
    {
      hide ReadFrameHead, FramePayload, ProcessFrame;
      while valid
        invariant Valid()
        invariant ParseFrames(limits, State(), d) == ParseFrames(limits, old(State()), d)
        decreases |Side(State(), d).buffer|
      {
        ghost var o := State();
        if FrameStep(limits, o, d).Next? {
          ParseStep(limits, o, d);
        }
        var p := if d.Client? then client else server;
        var head := ReadFrameHead(limits, d, p.buffer);
        if head.Framed? {
          FrameCut(limits, d, p.buffer, []);
        }
        match head {
          case Unready => return;
          case Unacceptable(reason, size) =>
            RecordGap(d, reason, size);
          case Framed(fin, opcode, offset, total) =>
            if |p.buffer| < total {
              return;
            }
            var payload := FramePayload(d, p.buffer, offset, total);
            SetSide(d, p.(buffer := p.buffer[total..]));
            HandleFrame(d, fin, opcode, payload);
        }
      }
    }

    /** The upgrade header; true if parsing may go on to frames. */
    method ParseUpgradeHeader(d: Direction) returns (proceed: bool)
      requires Valid() && valid && !Side(State(), d).upgraded
      modifies this
      ensures Valid()
      ensures State() == ParseUpgrade(limits, old(State()), d)
      ensures proceed == Side(State(), d).upgraded
    {
      hide Emit, SizedGap;
      var p := if d.Client? then client else server;
      var marker := FindHeaderEnd(p.buffer);
      if marker.NoHeaderEnd? {
        if |p.buffer| > limits.maxHeader {
          RecordGap(d, "header_too_large", None);
        }
        return false;
      }
      if marker.end > limits.maxHeader {
        RecordGap(d, "header_too_large", None);
        return false;
      }
      var header := p.buffer[..marker.end];
      p := p.(buffer := p.buffer[marker.end..]);
      SetSide(d, p);
      match limits.upgrade(d, header, clientKey) {
        case Declined(reason) =>
          RecordGap(d, reason, None);
          return false;
        case Agreed(key) =>
          if d.Client? {
            clientKey := key;
          }
          SetSide(d, p.(upgraded := true));
          EmitEvent(d, Upgraded(d));
          return true;
      }
    }

    /** One block of relayed octets in direction `d`; the result is the records it added. */
    method Feed(d: Direction, data: Octets) returns (added: seq<Record>)
      requires Valid()
      modifies this
      ensures Valid()
      ensures State() == Observe(limits, old(State()), d, data)
      ensures old(events) + added == events
    {
      hide ParseFrames, ParseUpgrade, Emit, SizedGap, Conclude, Grows;
      var before := |events|;
      ghost var o := State();
      EventsGrow(limits, o, d, data);
      if valid {
        var p := if d.Client? then client else server;
        if |p.buffer| + |data| > limits.maxMessage + limits.maxHeader + 32 {
          RecordGap(d, "input_buffer_too_large", None);
        } else {
          SetSide(d, p.(buffer := p.buffer + data));
          var proceed := true;
          if !p.upgraded {
            proceed := ParseUpgradeHeader(d);
          }
          if proceed && valid {
            ParseBufferedFrames(d);
          }
        }
      }
      GrowsRecords(o.link, CurrentLink());
      added := events[before..];
    }
  }
}
