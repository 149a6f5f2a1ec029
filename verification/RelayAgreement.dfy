/**
  Whole runs of a relay: both gates of a connection and the observer of what they release,
  fed in any interleaving.  The observer's RPC layer gets the messages the gates completed.
 */
module RelayAgreement {
  import opened Bytes
  import opened Options
  import opened GateSpec
  import opened GateTheorems
  import opened ObserverSpec
  import opened ObserverTheorems
  import opened DecoderAgreement

  /** `completed` are the messages either gate has completed, in the order in which they did. */
  datatype Relay = Relay(
    fromClient: Wire, fromServer: Wire, pending: set<Id>, obs: Obs, completed: seq<(Direction, Octets)>)

  datatype Policies = Policies(client: Octets -> Verdict, server: Octets -> Verdict)

  function GateOf(p: Policies, d: Direction): Gate
  {
    if d.Client? then Gate(false, false, p.client) else Gate(true, false, p.server)
  }

  function WireOf(s: Relay, d: Direction): Wire
  {
    if d.Client? then s.fromClient else s.fromServer
  }

  /** One call of a direction's gate and the observer's call on its output, if the gate accepts. */
  function Relayed(p: Policies, c: Config, s: Relay, d: Direction, data: Octets): Option<Relay>
  {
    var r := Feed(GateOf(p, d), WireOf(s, d), s.pending, data);
    if r.Rejected? then None
    else
      var s' := s.(pending := r.pending, obs := Observe(c, s.obs, d, r.output),
                   completed := s.completed + Tagged(d, r.texts));
      Some(if d.Client? then s'.(fromClient := r.wire) else s'.(fromServer := r.wire))
  }

  function RelayedAll(p: Policies, c: Config, s: Relay, calls: seq<(Direction, Octets)>): Option<Relay>
    decreases |calls|
  {
    if calls == [] then Some(s)
    else
      var next := Relayed(p, c, s, calls[0].0, calls[0].1);
      if next.None? then None else RelayedAll(p, c, next.value, calls[1..])
  }

  /**
    The RPC layer has been handed the completed messages in order, or the first ones up to
    the observer's first gap; while the connection is valid it has them all and both
    directions are at a message boundary.
   */
  ghost predicate Agrees(p: Policies, s: Relay)
  {
    && Wellformed(GateOf(p, Client), s.fromClient) && Wellformed(GateOf(p, Server), s.fromServer)
    && s.obs.link.texts <= s.completed
    && (s.obs.link.valid ==>
          && s.obs.link.texts == s.completed
          && Aligned(s.fromClient, s.obs, Client) && Aligned(s.fromServer, s.obs, Server))
  }

  // ---------------------------------------------------------------- one call

  /** A header released by the gate that the observer refuses: a gap, and no message handed on. */
  lemma RefusedUpgrade(g: Gate, w: Wire, pending: set<Id>, data: Octets, c: Config, o: Obs)
    requires !g.auth && Wellformed(g, w) && o.link.valid && Feed(g, w, pending, data).Accepted?
    requires Aligned(w, o, Of(g.server)) && AfterUpgrade(c, w, data, o.link, Of(g.server)).None?
    requires |Feed(g, w, pending, data).output| <= BufferLimit(c)
    ensures var o' := Observe(c, o, Of(g.server), Feed(g, w, pending, data).output);
            !o'.link.valid && o'.link.texts == o.link.texts
  {
    hide NextFrame, TakeFrame, Unfinished, Payloads, Drain, ParseFrames, Emit, SizedGap;
    var d, b := Of(g.server), w.buffer + data;
    var end := FindHeaderEnd(b).end;
    var header := b[..end];
    var r := Drain(g, w.(upgraded := true, buffer := b[end..]), pending);
    FeedHeader(g, w, pending, data, end, b[end..]);
    HeaderEndTight(b, end);
    HeaderEndStable(header, r.output);
    var out := header + r.output;
    assert [] + out == out && out[..end] == header;
    hide FindHeaderEnd, Feed;
    var o1 := Push(o, d, out);
    UpgradeGrows(c, o1, d);
    var reason := if end > c.maxHeader then "header_too_large" else c.upgrade(d, header, o.link.key).reason;
    GapInvalidates(c, o.link, d, reason, None);
    assert !ParseUpgrade(c, o1, d).link.valid;
  }

  lemma RefusedBlock(c: Config, o: Obs, d: Direction, data: Octets)
    requires o.link.valid && |Side(o, d).buffer| + |data| > BufferLimit(c)
    ensures var o' := Observe(c, o, d, data); !o'.link.valid && o'.link.texts == o.link.texts
  {
    hide Emit, SizedGap, Parse;
    GapInvalidates(c, o.link, d, "input_buffer_too_large", None);
    GapGrows(c, o.link, d, "input_buffer_too_large", None);
  }

  /** The messages of one gated call that the RPC layer is handed: all, while the connection stays valid. */
  lemma CallAgrees(g: Gate, w: Wire, pending: set<Id>, data: Octets, c: Config, o: Obs) returns (k: nat)
    requires !g.auth && Wellformed(g, w) && Roomy(c) && Feed(g, w, pending, data).Accepted?
    requires o.link.valid ==> Aligned(w, o, Of(g.server))
    ensures var r, d := Feed(g, w, pending, data), Of(g.server);
            var o' := Observe(c, o, d, r.output);
            && k <= |r.texts| && o'.link.texts == o.link.texts + Tagged(d, r.texts[..k])
            && (o'.link.valid ==>
                  && o.link.valid && k == |r.texts|
                  && Aligned(r.wire, o', d) && Side(o', Opposite(d)) == Side(o, Opposite(d)))
  {
    hide Feed, Observe, Wellformed, Aligned, AfterUpgrade, RunTexts, Emit;
    var r, d := Feed(g, w, pending, data), Of(g.server);
    k := 0;
    if !o.link.valid {
      ObserveDead(c, o, d, r.output);
    } else if |r.output| > BufferLimit(c) {
      RefusedBlock(c, o, d, r.output);
    } else if AfterUpgrade(c, w, data, o.link, d).None? {
      RefusedUpgrade(g, w, pending, data, c, o);
    } else {
      GateAndObserverAgree(g, w, pending, data, c, o);
      var l := AfterUpgrade(c, w, data, o.link, d).value;
      UpgradeTexts(c, w, data, o.link, d);
      k := RunTextsHistory(c, l, d, r.texts);
    }
    assert k == 0 ==> o.link.texts + Tagged(d, r.texts[..k]) == o.link.texts;
  }

  lemma ObserveDead(c: Config, o: Obs, d: Direction, data: Octets)
    requires !o.link.valid
    ensures Observe(c, o, d, data) == o
  {
  }

  lemma UpgradeTexts(c: Config, w: Wire, data: Octets, l: Link, d: Direction)
    requires AfterUpgrade(c, w, data, l, d).Some?
    ensures AfterUpgrade(c, w, data, l, d).value.texts == l.texts
  {
    hide FindHeaderEnd;
  }

  /** Every accepted call of either direction keeps the agreement. */
  lemma RelayedAgrees(p: Policies, c: Config, s: Relay, d: Direction, data: Octets)
    requires Roomy(c) && Agrees(p, s) && Relayed(p, c, s, d, data).Some?
    ensures Agrees(p, Relayed(p, c, s, d, data).value)
  {
    hide Feed, Observe, Wellformed, Aligned;
    var g, w := GateOf(p, d), WireOf(s, d);
    FeedWellformed(g, w, s.pending, data);
    var k := CallAgrees(g, w, s.pending, data, c, s.obs);
    var s', r := Relayed(p, c, s, d, data).value, Feed(g, w, s.pending, data);
    TaggedPrefix(d, r.texts, k);
    if s'.obs.link.valid {
      assert r.texts[..k] == r.texts;
      OtherSide(WireOf(s, Opposite(d)), s.obs, s'.obs, Opposite(d));
    } else if s.obs.link.valid {
      PrefixExtends(s.completed, Tagged(d, r.texts[..k]), Tagged(d, r.texts));
    } else {
      ObserveDead(c, s.obs, d, r.output);
    }
  }

  lemma OtherSide(w: Wire, o: Obs, o': Obs, d: Direction)
    requires Side(o', d) == Side(o, d)
    ensures Aligned(w, o', d) <==> Aligned(w, o, d)
  {
  }

  lemma TaggedPrefix(d: Direction, texts: seq<Octets>, k: nat)
    requires k <= |texts|
    ensures Tagged(d, texts[..k]) <= Tagged(d, texts)
  {
  }

  lemma PrefixExtends<T>(a: seq<T>, b: seq<T>, c: seq<T>)
    requires b <= c
    ensures a + b <= a + c
  {
  }

  /** So does every run of calls, in every interleaving, from a fresh connection or from any agreement. */
  lemma {:induction false} RunAgrees(p: Policies, c: Config, s: Relay, calls: seq<(Direction, Octets)>)
    requires Roomy(c) && Agrees(p, s) && RelayedAll(p, c, s, calls).Some?
    ensures Agrees(p, RelayedAll(p, c, s, calls).value)
    ensures s.completed <= RelayedAll(p, c, s, calls).value.completed
    decreases |calls|
  {
    hide Relayed, Agrees;
    if calls != [] {
      var next := Relayed(p, c, s, calls[0].0, calls[0].1).value;
      RelayedAgrees(p, c, s, calls[0].0, calls[0].1);
      RelayedGrows(p, c, s, calls[0].0, calls[0].1);
      RunAgrees(p, c, next, calls[1..]);
    }
  }

  lemma RelayedGrows(p: Policies, c: Config, s: Relay, d: Direction, data: Octets)
    requires Relayed(p, c, s, d, data).Some?
    ensures s.completed <= Relayed(p, c, s, d, data).value.completed
  {
    hide Feed, Observe;
  }

  /** A new connection. */
  lemma FreshAgrees(p: Policies)
    ensures Agrees(p, Relay(FRESH, FRESH, {}, OPENED, []))
  {
  }
}
