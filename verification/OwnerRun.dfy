/**
  Octets that make a session ready although the client initializes before the server has
  answered its upgrade: the calls of a relay, and the records an observer makes of them.
 */
module OwnerRun {
  import opened Bytes
  import opened Options
  import opened GateSpec
  import opened ObserverSpec
  import opened ObserverTheorems
  import opened ObserverEvidence
  import opened IdConservation
  import opened ObserverOrigin
  import opened OwnerReadiness
  import opened OwnerResume
  import opened OwnerOrder

  // ---------------------------------------------------------------- single calls

  /** A call that brings one whole text frame to a direction between messages. */
  lemma OneMessage(c: Config, o: Obs, d: Direction, frame: Octets, offset: nat, payload: Octets)
    requires o.link.valid && Side(o, d) == Parser([], true, None, []) && |frame| <= BufferLimit(c)
    requires ReadFrameHead(c, d, frame) == Framed(true, 1, offset, |frame|) && |frame| >= offset + MaskSize(d)
    requires FramePayload(d, frame, offset, |frame|) == payload && |payload| <= c.maxMessage
    requires ProcessText(c, o.link, d, payload).valid
    ensures Observe(c, o, d, frame) == o.(link := ProcessText(c, o.link, d, payload))
  {
    hide ReadFrameHead, FramePayload, ProcessText;
    var o1 := Push(o, d, frame);
    assert [] + frame == frame && frame[|frame|..] == [];
    assert FrameStep(c, o1, d) == Next(o.(link := ProcessText(c, o.link, d, payload)));
    ParseStep(c, o1, d);
    NothingLeft(c, o.(link := ProcessText(c, o.link, d, payload)), d);
    hide FrameStep, ParseFrames;
  }

  lemma NothingLeft(c: Config, o: Obs, d: Direction)
    requires Side(o, d).buffer == []
    ensures ParseFrames(c, o, d) == o
  {
  }

  /** A call that brings exactly the header. */
  lemma OneHeader(c: Config, o: Obs, d: Direction, header: Octets)
    requires o.link.valid && Side(o, d) == IDLE && |header| <= c.maxHeader
    requires FindHeaderEnd(header) == HeaderEnd(|header|) && c.upgrade(d, header, o.link.key) == Agreed(None)
    requires o.link.key.None? && Emit(c, o.link, d, Upgraded(d)).valid
    ensures Observe(c, o, d, header)
         == WithSide(o, d, Parser([], true, None, [])).(link := Emit(c, o.link, d, Upgraded(d)))
  {
    hide FindHeaderEnd, Emit;
    assert [] + header == header && header[..|header|] == header && header[|header|..] == [];
    assert o.link.(key := None) == o.link;
    var o' := WithSide(o, d, Parser([], true, None, [])).(link := Emit(c, o.link, d, Upgraded(d)));
    assert ParseUpgrade(c, Push(o, d, header), d) == o';
    hide ParseUpgrade;
    NothingLeft(c, o', d);
  }

  // ---------------------------------------------------------------- the relay's calls

  /** Messages of one octet, by what it says; every header is accepted. */
  function SmallRpc(payload: Octets): Rpc
  {
    if payload == [0] then Request("initialize", Some(Number(1)), "")
    else if payload == [1] then Response(Number(1), true, "")
    else if payload == [2] then Request("initialized", None, "")
    else if payload == [3] then Request("thread/start", Some(Number(2)), "")
    else if payload == [4] then Response(Number(2), true, "")
    else if payload == [5] then Request("thread/started", None, "")
    else BadRpc("invalid_json")
  }

  function SmallConfig(): Config
  {
    Config(65536, 65535, 65535, 1024, (d: Direction, header: Octets, key: Option<Octets>) => Agreed(None),
           (payload: Octets) => true, (d: Direction, payload: Octets) => SmallRpc(payload))
  }

  /** A text frame of one octet, as each direction sends it. */
  function TextFrame(d: Direction, x: Octet): Octets
  {
    if d.Client? then [0x81, 0x81, 0, 0, 0, 0, x] else [0x81, 1, x]
  }

  lemma TextFrameRead(c: Config, d: Direction, x: Octet)
    requires c.maxFrame >= 1
    ensures ReadFrameHead(c, d, TextFrame(d, x)) == Framed(true, 1, 2, |TextFrame(d, x)|)
    ensures FramePayload(d, TextFrame(d, x), 2, |TextFrame(d, x)|) == [x]
  {
    if d.Client? {
      XorZero(x);
      assert TextFrame(d, x)[2..6] == [0, 0, 0, 0] && TextFrame(d, x)[6..7] == [x];
    } else {
      assert TextFrame(d, x)[2..3] == [x];
    }
  }

  lemma XorZero(x: Octet)
    ensures Xor(x, 0) == x
  {
    assert Power2(8) == 256 by { assert Power2(4) == 16; }
    XorBitsZero(x, 8);
  }

  lemma {:induction false} XorBitsZero(a: nat, width: nat)
    requires a < Power2(width)
    ensures XorBits(a, 0, width) == a
  {
    if width > 0 {
      XorBitsZero(a / 2, width - 1);
    }
  }

  /** The direction of each call and the octet of its message; the two headers have none. */
  const SENT: seq<(Direction, Option<Octet>)> := [
    (Client, None), (Client, Some(0)), (Server, None), (Server, Some(1)),
    (Client, Some(2)), (Client, Some(3)), (Server, Some(4)), (Server, Some(5))]

  function CallOf(n: nat): (Direction, Octets)
    requires n < 8
  {
    var (d, x) := SENT[n];
    (d, if x.None? then CRLF_CRLF else TextFrame(d, x.value))
  }

  const CALLS: seq<(Direction, Octets)> := seq(8, n requires 0 <= n < 8 => CallOf(n))

  // ---------------------------------------------------------------- what the observer makes of them

  function TextsOf(n: nat): seq<(Direction, Octets)>
    requires n <= 8
  {
    if n == 0 then []
    else if SENT[n - 1].1.None? then TextsOf(n - 1)
    else TextsOf(n - 1) + [(SENT[n - 1].0, [SENT[n - 1].1.value])]
  }

  function OpenOf(n: nat): map<(Direction, Id), string>
  {
    if n == 2 || n == 3 then map[(Client, Number(1)) := "initialize"]
    else if n == 6 then map[(Client, Number(2)) := "thread/start"]
    else map[]
  }

  function ParserOf(upgraded: bool): Parser
  {
    Parser([], upgraded, None, [])
  }

  /** The observer after the first `n` calls. */
  function After(n: nat): Obs
    requires n <= 8
  {
    Obs(Link(true, false, None, OpenOf(n), PIPELINED[..n], n + 1, TextsOf(n)), ParserOf(n >= 1), ParserOf(n >= 3))
  }

  lemma RecordNext(n: nat)
    requires n < 8
    ensures PIPELINED[n].seqNo == n + 1 && PIPELINED[..n + 1] == PIPELINED[..n] + [PIPELINED[n]]
  {
  }

  lemma EmitNext(n: nat, l: Link)
    requires n < 8 && l.events == PIPELINED[..n] && l.nextSeq == n + 1 && l.valid && !l.overflowed
    ensures Emit(SmallConfig(), l, SENT[n].0, PIPELINED[n].event)
         == l.(events := PIPELINED[..n + 1], nextSeq := n + 2)
  {
    RecordNext(n);
  }

  lemma HeaderCall(n: nat)
    requires n == 0 || n == 2
    ensures Observe(SmallConfig(), After(n), CallOf(n).0, CallOf(n).1) == After(n + 1)
  {
    hide Observe;
    var c, o, d := SmallConfig(), After(n), SENT[n].0;
    assert TerminatorAt(CRLF_CRLF, 0) && FindHeaderEnd(CRLF_CRLF) == HeaderEnd(4);
    hide FindHeaderEnd;
    EmitNext(n, o.link);
    assert PIPELINED[n].event == Upgraded(d);
    hide Emit;
    OneHeader(c, o, d, CRLF_CRLF);
  }

  lemma NamesKnown()
    ensures "initialize" in KNOWN_METHODS && "initialized" in KNOWN_METHODS
    ensures "thread/start" in KNOWN_METHODS && "thread/started" in KNOWN_METHODS
  {
  }

  lemma RequestNext(n: nat, name: string, id: Option<Id>)
    requires n < 8 && SENT[n].1.Some? && SmallRpc([SENT[n].1.value]) == Request(name, id, "") && name in KNOWN_METHODS
    requires PIPELINED[n].event == RpcEvent(SENT[n].0, id, name, "")
    requires |OpenOf(n)| < MAX_PENDING && (id.Some? ==> (SENT[n].0, id.value) !in OpenOf(n))
    requires OpenOf(n + 1) == if id.Some? then OpenOf(n)[(SENT[n].0, id.value) := name] else OpenOf(n)
    ensures ProcessText(SmallConfig(), After(n).link, SENT[n].0, [SENT[n].1.value]) == After(n + 1).link
  {
    hide Emit, SizedGap, OpenOf, SmallRpc;
    EmitNext(n, After(n).link.(texts := TextsOf(n + 1), pending := OpenOf(n + 1)));
    hide TextsOf;
  }

  lemma ResponseNext(n: nat, name: string, id: Id)
    requires n < 8 && SENT[n].1.Some? && SmallRpc([SENT[n].1.value]) == Response(id, true, "") && name in KNOWN_METHODS
    requires PIPELINED[n].event == RpcResponse(SENT[n].0, id, name, true, "")
    requires var asked := (Opposite(SENT[n].0), id);
             asked in OpenOf(n) && OpenOf(n)[asked] == name && OpenOf(n + 1) == OpenOf(n) - {asked}
    ensures ProcessText(SmallConfig(), After(n).link, SENT[n].0, [SENT[n].1.value]) == After(n + 1).link
  {
    hide Emit, SizedGap, OpenOf, SmallRpc;
    EmitNext(n, After(n).link.(texts := TextsOf(n + 1), pending := OpenOf(n + 1)));
    hide TextsOf;
  }

  /** The message of call `n`, handed to the RPC layer. */
  lemma TextNext(n: nat)
    requires n < 8 && SENT[n].1.Some?
    ensures ProcessText(SmallConfig(), After(n).link, SENT[n].0, [SENT[n].1.value]) == After(n + 1).link
  {
    hide ProcessText, After, SmallConfig;
    NamesKnown();
    if n == 1 {
      RequestNext(n, "initialize", Some(Number(1)));
    } else if n == 3 {
      ResponseNext(n, "initialize", Number(1));
    } else if n == 4 {
      RequestNext(n, "initialized", None);
    } else if n == 5 {
      RequestNext(n, "thread/start", Some(Number(2)));
    } else if n == 6 {
      ResponseNext(n, "thread/start", Number(2));
    } else {
      RequestNext(n, "thread/started", None);
    }
  }

  lemma MessageCall(n: nat)
    requires n < 8 && SENT[n].1.Some?
    ensures Observe(SmallConfig(), After(n), CallOf(n).0, CallOf(n).1) == After(n + 1)
  {
    hide Observe, ProcessText, TextFrame, ReadFrameHead, FramePayload;
    var c, d, x := SmallConfig(), SENT[n].0, SENT[n].1.value;
    TextFrameRead(c, d, x);
    TextNext(n);
    TextFrameShort(d, x);
    OneMessage(c, After(n), d, TextFrame(d, x), 2, [x]);
  }

  lemma TextFrameShort(d: Direction, x: Octet)
    ensures 2 + MaskSize(d) <= |TextFrame(d, x)| <= 7
  {
  }

  lemma {:induction false} ReachedAfter(n: nat)
    requires n <= 8
    ensures Reached(SmallConfig(), CALLS, n) == After(n)
  {
    hide Observe, CallOf, SmallConfig;
    if n == 0 {
      NothingReached(SmallConfig(), CALLS);
    } else {
      hide After, ObserveCalls;
      ReachedAfter(n - 1);
      CallsSnoc(SmallConfig(), OPENED, CALLS, n - 1);
      assert CALLS[n - 1] == CallOf(n - 1);
      if n == 1 || n == 3 {
        HeaderCall(n - 1);
      } else {
        MessageCall(n - 1);
      }
    }
  }

  /**
    Eight calls on a new connection whose records make a session ready, at a boundary of both
    directions, and whose second call brings initialize before the server's parser has its
    upgrade.
   */
  lemma PipelinedRelay()
    ensures var o := Reached(SmallConfig(), CALLS, 8);
            && o.link.valid && o.link.events == PIPELINED && o.client == o.server == ParserOf(true)
            && Ready(FollowAll(AnyLease(), Opened(true), o.link.events))
    ensures Brings(SmallConfig(), CALLS, 1, 1) && AsksInitialize(PIPELINED[1].event)
    ensures !Reached(SmallConfig(), CALLS, 1).server.upgraded
  {
    hide Observe, CallOf, SmallConfig, FollowAll, Ready, Reached;
    assert PIPELINED[..8] == PIPELINED;
    InitializeMayComeFirst();
    ReachedAfter(8);
    ReachedAfter(1);
    ReachedAfter(2);
  }

  // ---------------------------------------------------------------- any run

  lemma InitializeSeen(l: Lease, events: seq<Record>) returns (k: nat)
    requires AllFounded(events) && Ready(FollowAll(l, Opened(true), events))
    ensures k < |events| && AsksInitialize(events[k].event)
  {
    hide Ready, FollowAll, AllFounded;
    if l.resume.None? {
      var clientUp, serverUp, asked, m, id, thread := ReadyMeansHandshake(l, events);
      k := asked;
    } else {
      var clientUp, serverUp, asked, m, id := ReadyMeansResumed(l, events);
      k := asked;
    }
  }

  /**
    In every run that makes a session ready one call brings the one initialize request, and
    both upgrades come before it exactly if the server's parser had its upgrade at that call.
   */
  lemma ReadyOrderIff(l: Lease, c: Config, calls: seq<(Direction, Octets)>) returns (i: nat, k: nat)
    requires Ready(FollowAll(l, Opened(true), Reached(c, calls, |calls|).link.events))
    ensures var events := Reached(c, calls, |calls|).link.events;
            && k < |events| && AsksInitialize(events[k].event)
            && (forall j :: 0 <= j < |events| && AsksInitialize(events[j].event) ==> j == k)
            && i < |calls| && calls[i].0.Client? && Brings(c, calls, i, k)
            && (UpgradedBefore(events, Client, k) && UpgradedBefore(events, Server, k) <==>
                  Reached(c, calls, i).server.upgraded)
  {
    hide Ready, FollowAll, Observe, ObserveCalls, AsksInitialize;
    var events := Reached(c, calls, |calls|).link.events;
    ReachedFounded(c, calls, |calls|);
    k := InitializeSeen(l, events);
    BothUpgradesFirstIff(l, events, k);
    i := RecordBrought(c, calls, |calls|, k);
    var first := Reached(c, calls, i + 1).link.events;
    assert first[k] == events[k];
    ClientAsks(events[k].event);
    UpgradesBeforeIff(c, calls, i, k);
    forall d: Direction ensures UpgradedBefore(events, d, k) <==> UpgradedBefore(first, d, k) {
      assert forall j :: 0 <= j < k ==> events[j] == first[j];
    }
  }

  lemma ClientAsks(e: Event)
    requires AsksInitialize(e)
    ensures e.RpcEvent? && e.direction.Client?
  {
  }

  lemma ReachedFounded(c: Config, calls: seq<(Direction, Octets)>, n: nat)
    requires n <= |calls|
    ensures AllFounded(Reached(c, calls, n).link.events)
  {
    hide ObserveCalls, Recorded, AllFounded;
    OpenedRecorded();
    CallsRecorded(c, OPENED, calls[..n]);
  }
}
