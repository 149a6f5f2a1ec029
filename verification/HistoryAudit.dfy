/**
  The offline audit of captured history reads against one delivery envelope: what
  `captured_page_chain_complete` and `matched_history_items` certify.

  Reading a marker's text as strict JSON is a function, `parse`, and so are the checks of an
  envelope, `accepts`.
 */
module HistoryAudit {
  import opened Options
  import opened BatchSpec
  import opened DeliverySpec

  datatype Audit = Audit(intent: Envelope, parse: string -> Option<Envelope>, accepts: Envelope -> bool)

  /** `shaped` says that the item has a delivery marker's keys and no others. */
  datatype Item = Item(
    id: string, kind: string, name: Option<string>, space: Option<string>, output: Option<string>, shaped: bool)

  datatype View = Full | Summary | NotLoaded

  datatype Turn = Turn(id: string, status: string, items: seq<Item>, view: View)

  /** What two pages of one chain share: the method and every parameter but the cursor and the limit. */
  datatype Query = Query(ofTurns: bool, sort: Option<string>, turnId: Option<string>, view: Option<View>)

  datatype Paging = Paging(query: Query, cursor: Option<string>, next: Option<string>, limit: Option<int>)

  datatype Content =
    | Whole(owner: string, paginated: bool, turns: seq<Turn>)
    | TurnPage(paging: Paging, turns: seq<Turn>)
    | ItemPage(paging: Paging, entries: seq<(string, Item)>)

  datatype HistoryRead = HistoryRead(request: int, response: int, thread: string, content: Content)

  type Key = (string, string)

  datatype Scan = Scan(
    matches: set<Key>, observed: map<Key, Envelope>, identities: map<Key, (string, Option<string>, Option<string>)>)

  const NOTHING := Scan({}, map[], map[])

  // ---------------------------------------------------------------- items

  predicate Marker(item: Item)
  {
    item.kind == "functionCallOutput" && item.name == Some("g0_delivery")
  }

  /** One item of a turn, or `None` for an invalid capture. */
  function ScanItem(a: Audit, s: Scan, turn: string, item: Item): Option<Scan>
  {
    var key, identity := (turn, item.id), (item.kind, item.name, item.space);
    if !SafeName(item.id) || (key in s.identities && s.identities[key] != identity) then None
    else
      var s' := s.(identities := s.identities[key := identity]);
      if !Marker(item) then Some(s')
      else if !item.shaped || item.space != Some("orchestration") || item.output.None? then None
      else
        match a.parse(item.output.value)
        case None => None
        case Some(found) =>
          if !a.accepts(found) || (key in s.observed && s.observed[key] != found) then None
          else if found.delivery != a.intent.delivery then Some(s'.(observed := s.observed[key := found]))
          else if found != a.intent || |s.matches + {key}| > 32 then None
          else Some(s'.(observed := s.observed[key := found], matches := s.matches + {key}))
  }

  function ScanAll(a: Audit, items: seq<(string, Item)>): Option<Scan>
    decreases |items|
  {
    if items == [] then Some(NOTHING)
    else
      var init, last := ScanAll(a, items[..|items| - 1]), items[|items| - 1];
      if init.None? then None else ScanItem(a, init.value, last.0, last.1)
  }

  /** An item that carries the intent's delivery id. */
  predicate Carries(a: Audit, entry: (string, Item))
  {
    var item := entry.1;
    Marker(item) && item.output.Some?
    && var found := a.parse(item.output.value);
    found.Some? && found.value.delivery == a.intent.delivery
  }

  function CarrierKeys(a: Audit, items: seq<(string, Item)>): set<Key>
  {
    set k | 0 <= k < |items| && Carries(a, items[k]) :: (items[k].0, items[k].1.id)
  }

  lemma ScanSnoc(a: Audit, items: seq<(string, Item)>, entry: (string, Item))
    requires ScanAll(a, items).Some?
    ensures ScanAll(a, items + [entry]) == ScanItem(a, ScanAll(a, items).value, entry.0, entry.1)
  {
    assert (items + [entry])[..|items|] == items;
  }

  lemma {:induction false} ScanNone(a: Audit, items: seq<(string, Item)>, more: seq<(string, Item)>)
    requires ScanAll(a, items).None?
    ensures ScanAll(a, items + more).None?
    decreases |more|
  {
    hide ScanItem;
    if more == [] {
      assert items + more == items;
    } else {
      ScanNone(a, items, more[..|more| - 1]);
      assert (items + more)[..|items + more| - 1] == items + more[..|more| - 1];
    }
  }

  /** A scan that does not fail matches exactly the keys that carry the delivery id, and all carry the intent. */
  lemma {:induction false} ScanMatches(a: Audit, items: seq<(string, Item)>)
    requires ScanAll(a, items).Some?
    ensures var s := ScanAll(a, items).value;
            && s.matches == CarrierKeys(a, items)
            && (forall k :: 0 <= k < |items| && Carries(a, items[k]) ==>
                  a.parse(items[k].1.output.value) == Some(a.intent))
    decreases |items|
  {
    if items != [] {
      var init, last := items[..|items| - 1], items[|items| - 1];
      ScanMatches(a, init);
      CarrierSnoc(a, init, last);
      assert init + [last] == items;
      hide ScanAll, SafeName;
      assert ScanAll(a, items) == ScanItem(a, ScanAll(a, init).value, last.0, last.1) by {
        ScanSnoc(a, init, last);
      }
      hide CarrierKeys;
      forall k | 0 <= k < |items| && Carries(a, items[k]) ensures a.parse(items[k].1.output.value) == Some(a.intent) {
        assert k < |init| ==> items[k] == init[k];
      }
    }
  }

  lemma CarrierSnoc(a: Audit, items: seq<(string, Item)>, entry: (string, Item))
    ensures CarrierKeys(a, items + [entry]) ==
            CarrierKeys(a, items) + if Carries(a, entry) then {(entry.0, entry.1.id)} else {}
  {
    var all := items + [entry];
    hide Carries;
    forall key ensures key in CarrierKeys(a, all) <==>
        key in CarrierKeys(a, items) || (Carries(a, entry) && key == (entry.0, entry.1.id)) {
      if key in CarrierKeys(a, items) {
        var k :| 0 <= k < |items| && Carries(a, items[k]) && key == (items[k].0, items[k].1.id);
        assert all[k] == items[k];
      }
      if Carries(a, entry) && key == (entry.0, entry.1.id) {
        assert all[|items|] == entry;
      }
    }
  }

  // ---------------------------------------------------------------- history

  function TurnItems(t: Turn, full: bool): seq<(string, Item)>
  {
    if full && t.view.Full? then seq(|t.items|, k requires 0 <= k < |t.items| => (t.id, t.items[k])) else []
  }

  function TurnsItems(turns: seq<Turn>, full: bool): seq<(string, Item)>
    decreases |turns|
  {
    if turns == [] then [] else TurnsItems(turns[..|turns| - 1], full) + TurnItems(turns[|turns| - 1], full)
  }

  /** The items of one read that the audit looks at. */
  function ReadItems(r: HistoryRead): seq<(string, Item)>
  {
    match r.content
    case Whole(_, _, turns) => TurnsItems(turns, true)
    case TurnPage(paging, turns) => TurnsItems(turns, paging.query.view == Some(Full))
    case ItemPage(_, entries) => entries
  }

  function AllItems(history: seq<HistoryRead>): seq<(string, Item)>
    decreases |history|
  {
    if history == [] then [] else AllItems(history[..|history| - 1]) + ReadItems(history[|history| - 1])
  }

  predicate ValidTurn(t: Turn)
  {
    SafeName(t.id) && t.status in ["inProgress", "completed", "failed", "interrupted"] && |t.items| <= 64
  }

  predicate ValidCursor(c: Option<string>)
  {
    c.Some? ==> 0 < |c.value| <= 256
  }

  predicate ValidPaging(p: Paging)
  {
    && ValidCursor(p.cursor) && ValidCursor(p.next) && (p.limit.Some? ==> 1 <= p.limit.value <= 64)
    && (p.query.sort.Some? ==> p.query.sort.value in ["asc", "desc"])
    && (p.query.turnId.Some? ==> SafeName(p.query.turnId.value))
  }

  predicate ValidContent(a: Audit, c: Content)
  {
    match c
    case Whole(owner, _, turns) =>
      owner == a.intent.thread && |turns| <= 64 && forall k :: 0 <= k < |turns| ==> ValidTurn(turns[k])
    case TurnPage(paging, turns) =>
      ValidPaging(paging) && |turns| <= 64 && forall k :: 0 <= k < |turns| ==> ValidTurn(turns[k])
    case ItemPage(paging, entries) =>
      && ValidPaging(paging) && |entries| <= 64
      && forall k :: 0 <= k < |entries| ==>
           && SafeName(entries[k].0)
           && (paging.query.turnId.Some? ==> entries[k].0 == paging.query.turnId.value)
  }

  predicate ValidRead(a: Audit, r: HistoryRead)
  {
    && 1 <= r.request <= 1_000_000 && r.request == r.response && r.thread == a.intent.thread
    && ValidContent(a, r.content)
  }

  // ---------------------------------------------------------------- completeness

  predicate AllFull(c: Content)
  {
    match c
    case Whole(_, _, turns) => forall k :: 0 <= k < |turns| ==> turns[k].view.Full?
    case TurnPage(paging, turns) =>
      paging.query.view == Some(Full) && forall k :: 0 <= k < |turns| ==> turns[k].view.Full?
    case ItemPage(_, _) => true
  }

  /** The reads are one whole thread, or one chain of same-query pages from no cursor to no next cursor. */
  predicate CompleteCapture(history: seq<HistoryRead>)
  {
    && history != []
    && (forall i :: 0 <= i < |history| ==> AllFull(history[i].content))
    && if history[0].content.Whole? then |history| == 1 && !history[0].content.paginated
       else
         && (forall i :: 0 <= i < |history| ==> !history[i].content.Whole?)
         && history[0].content.paging.cursor == None && history[|history| - 1].content.paging.next == None
         && forall i :: 0 < i < |history| ==> Continues(history[i - 1].content.paging, history[i].content.paging)
  }

  predicate Continues(p: Paging, q: Paging)
  {
    p.next.Some? && q.cursor == p.next && q.query == p.query
  }

  /** What the audit remembers of the pages before read `n`. */
  function Previous(history: seq<HistoryRead>, n: nat): Option<Paging>
    requires n <= |history|
  {
    if n == 0 then None
    else if history[n - 1].content.Whole? then Previous(history, n - 1)
    else Some(history[n - 1].content.paging)
  }

  function NextOf(p: Option<Paging>): Option<string>
  {
    if p.None? then None else p.value.next
  }

  /** The audit's own condition on read `n`. */
  predicate KeepsComplete(history: seq<HistoryRead>, n: nat)
    requires n < |history|
  {
    var c, p := history[n].content, Previous(history, n);
    AllFull(c) &&
    if c.Whole? then !c.paginated && |history| == 1
    else c.paging.cursor == NextOf(p) && (p.Some? ==> c.paging.query == p.value.query && p.value.next.Some?)
  }

  predicate KeptComplete(history: seq<HistoryRead>)
  {
    && history != [] && (forall i :: 0 <= i < |history| ==> KeepsComplete(history, i))
    && NextOf(Previous(history, |history|)) == None
  }

  lemma KeptIsComplete(history: seq<HistoryRead>)
    requires KeptComplete(history)
    ensures CompleteCapture(history)
  {
    hide AllFull;
    forall i | 0 <= i < |history| ensures AllFull(history[i].content)
      && (history[i].content.Whole? ==> |history| == 1) {
      assert KeepsComplete(history, i);
    }
    if !history[0].content.Whole? {
      assert KeepsComplete(history, 0);
      forall i | 0 < i < |history| ensures Continues(history[i - 1].content.paging, history[i].content.paging) {
        assert KeepsComplete(history, i);
      }
    }
  }

  lemma CompleteIsKept(history: seq<HistoryRead>)
    requires CompleteCapture(history)
    ensures KeptComplete(history)
  {
    hide AllFull;
    forall i | 0 <= i < |history| ensures KeepsComplete(history, i) {
      assert AllFull(history[i].content);
      if i > 0 {
        assert !history[i - 1].content.Whole? && !history[i].content.Whole?;
        assert Continues(history[i - 1].content.paging, history[i].content.paging);
      }
    }
    if !history[0].content.Whole? {
      assert !history[|history| - 1].content.Whole?;
      assert Previous(history, |history|) == Some(history[|history| - 1].content.paging);
    } else {
      assert Previous(history, 1) == Previous(history, 0);
    }
  }

  /** Every item on every page, whatever the view says. */
  function ShownItems(c: Content): seq<(string, Item)>
  {
    match c
    case Whole(_, _, turns) => ShownTurns(turns)
    case TurnPage(_, turns) => ShownTurns(turns)
    case ItemPage(_, entries) => entries
  }

  function ShownTurns(turns: seq<Turn>): seq<(string, Item)>
    decreases |turns|
  {
    if turns == [] then []
    else
      var t := turns[|turns| - 1];
      ShownTurns(turns[..|turns| - 1]) + seq(|t.items|, k requires 0 <= k < |t.items| => (t.id, t.items[k]))
  }

  function AllShown(history: seq<HistoryRead>): seq<(string, Item)>
    decreases |history|
  {
    if history == [] then []
    else AllShown(history[..|history| - 1]) + ShownItems(history[|history| - 1].content)
  }

  lemma {:induction false} FullTurnsShown(turns: seq<Turn>)
    requires forall k :: 0 <= k < |turns| ==> turns[k].view.Full?
    ensures TurnsItems(turns, true) == ShownTurns(turns)
    decreases |turns|
  {
    if turns != [] {
      FullTurnsShown(turns[..|turns| - 1]);
    }
  }

  /** Of a capture whose reads are all in full, every item of every page is scanned. */
  lemma {:induction false} EveryItemScanned(history: seq<HistoryRead>)
    requires forall i :: 0 <= i < |history| ==> AllFull(history[i].content)
    ensures AllItems(history) == AllShown(history)
    decreases |history|
  {
    if history != [] {
      EveryItemScanned(history[..|history| - 1]);
      var last := history[|history| - 1];
      assert AllFull(last.content);
      match last.content
      case Whole(_, _, turns) => FullTurnsShown(turns);
      case TurnPage(_, turns) => FullTurnsShown(turns);
      case ItemPage(_, _) =>
    }
  }

  // ---------------------------------------------------------------- acknowledgements

  datatype AckRow = AckRow(
    delivery: string, thread: string, epoch: int, eventId: string, eventRevision: int, eventHash: string, slot: string,
    decision: string, command: string, decisionCount: int, effectCount: int)

  predicate ValidAckRow(e: Envelope, r: AckRow)
  {
    && r.delivery == e.delivery && r.thread == e.thread && ValidRevision(r.epoch) && r.epoch == e.epoch
    && (var event := FindEvent(e.events, r.eventId);
        && event.Some? && ValidRevision(r.eventRevision) && r.eventRevision == event.value.revision
        && r.eventHash == event.value.payloadHash && r.slot == event.value.slot)
    && ValidDecision(r.decision) && SafeName(r.command) && r.decisionCount == 1
    && r.effectCount == EffectCount(r.decision)
  }

  /** One decision for each acknowledged event. */
  predicate Consistent(acks: seq<AckRow>)
  {
    forall i, j :: 0 <= i < |acks| && 0 <= j < |acks| && acks[i].eventId == acks[j].eventId ==>
      acks[i].decision == acks[j].decision
  }

  /** Exactly the acknowledged events, each with the decision of its acknowledgements. */
  predicate DecisionsOf(acks: seq<AckRow>, decisions: map<string, string>)
  {
    && (forall i :: 0 <= i < |acks| ==> acks[i].eventId in decisions && decisions[acks[i].eventId] == acks[i].decision)
    && (forall id :: id in decisions ==> exists i :: 0 <= i < |acks| && acks[i].eventId == id)
  }

  method FoldAcks(e: Envelope, acks: seq<AckRow>) returns (r: Option<map<string, string>>)
    ensures r.Some? <==> (forall i :: 0 <= i < |acks| ==> ValidAckRow(e, acks[i])) && Consistent(acks)
    ensures r.Some? ==> DecisionsOf(acks, r.value)
  {
    hide ValidAckRow;
    var decisions: map<string, string> := map[];
    for n := 0 to |acks|
      invariant forall i :: 0 <= i < n ==> ValidAckRow(e, acks[i])
      invariant DecisionsOf(acks[..n], decisions)
    {
      var row := acks[n];
      if !ValidAckRow(e, row) {
        return None;
      }
      if row.eventId in decisions && decisions[row.eventId] != row.decision {
        var i :| 0 <= i < n && acks[..n][i].eventId == row.eventId;
        assert acks[i].eventId == row.eventId && acks[i].decision != row.decision;
        return None;
      }
      DecisionsSnoc(acks[..n], decisions, row);
      assert acks[..n] + [row] == acks[..n + 1];
      decisions := decisions[row.eventId := row.decision];
    }
    assert acks[..|acks|] == acks;
    return Some(decisions);
  }

  lemma DecisionsSnoc(acks: seq<AckRow>, decisions: map<string, string>, row: AckRow)
    requires DecisionsOf(acks, decisions) && (row.eventId in decisions ==> decisions[row.eventId] == row.decision)
    ensures DecisionsOf(acks + [row], decisions[row.eventId := row.decision])
  {
    var all, more := acks + [row], decisions[row.eventId := row.decision];
    forall id | id in more ensures exists i :: 0 <= i < |all| && all[i].eventId == id {
      if id == row.eventId {
        assert all[|acks|].eventId == id;
      } else {
        var i :| 0 <= i < |acks| && acks[i].eventId == id;
        assert all[i].eventId == id;
      }
    }
  }

  // ---------------------------------------------------------------- the audit

  /** The audit while it runs; `complete` and the last page's cursor and query are kept beside the scan. */
  class Auditor {
    const a: Audit
    var matches: set<Key>
    var observed: map<Key, Envelope>
    var identities: map<Key, (string, Option<string>, Option<string>)>
    var complete: bool
    var previous: Option<Paging>

    function State(): Scan
      reads this
    {
      Scan(matches, observed, identities)
    }

    constructor (a: Audit, complete: bool)
      ensures this.a == a && State() == NOTHING && this.complete == complete && previous == None
    {
      this.a, matches, observed, identities := a, {}, map[], map[];
      this.complete, previous := complete, None;
    }

    method ScanEntry(turn: string, item: Item) returns (ok: bool)
      modifies this`matches, this`observed, this`identities
      ensures ok == ScanItem(a, old(State()), turn, item).Some?
      ensures ok ==> State() == ScanItem(a, old(State()), turn, item).value
    {
      if !SafeName(item.id) {
        return false;
      }
      var key, identity := (turn, item.id), (item.kind, item.name, item.space);
      if key in identities && identities[key] != identity {
        return false;
      }
      identities := identities[key := identity];
      if !Marker(item) {
        return true;
      }
      if !item.shaped || item.space != Some("orchestration") || item.output.None? {
        return false;
      }
      var found := a.parse(item.output.value);
      if found.None? || !a.accepts(found.value) || (key in observed && observed[key] != found.value) {
        return false;
      }
      observed := observed[key := found.value];
      if found.value.delivery != a.intent.delivery {
        return true;
      }
      if found.value != a.intent || |matches + {key}| > 32 {
        return false;
      }
      matches := matches + {key};
      return true;
    }

    /** Entries in order; `seen` are those scanned before. */
    method ScanEntries(entries: seq<(string, Item)>, ghost seen: seq<(string, Item)>) returns (ok: bool)
      requires ScanAll(a, seen) == Some(State())
      modifies this`matches, this`observed, this`identities
      ensures ok == ScanAll(a, seen + entries).Some?
      ensures ok ==> ScanAll(a, seen + entries) == Some(State())
    {
      hide ScanItem, ScanAll;
      assert seen + [] == seen;
      for k := 0 to |entries|
        invariant ScanAll(a, seen + entries[..k]) == Some(State())
      {
        var entry := entries[k];
        ScanSnoc(a, seen + entries[..k], entry);
        assert seen + entries[..k] + [entry] == seen + entries[..k + 1];
        ok := ScanEntry(entry.0, entry.1);
        if !ok {
          ScanNone(a, seen + entries[..k + 1], entries[k + 1..]);
          assert seen + entries[..k + 1] + entries[k + 1..] == seen + entries;
          return false;
        }
      }
      assert entries[..|entries|] == entries;
      return true;
    }

    /** Turns in order; a turn that is not shown in full makes the capture incomplete. */
    method ScanTurns(turns: seq<Turn>, full: bool, ghost seen: seq<(string, Item)>) returns (ok: bool)
      requires ScanAll(a, seen) == Some(State()) && (full || !complete)
      modifies this`matches, this`observed, this`identities, this`complete
      ensures ok == ((forall k :: 0 <= k < |turns| ==> ValidTurn(turns[k]))
                     && ScanAll(a, seen + TurnsItems(turns, full)).Some?)
      ensures ok ==> ScanAll(a, seen + TurnsItems(turns, full)) == Some(State())
      ensures ok ==> complete == (old(complete) && forall k :: 0 <= k < |turns| ==> turns[k].view.Full?)
    {
      hide ScanItem, ScanAll, ValidTurn, TurnsItems, TurnItems;
      NoTurns(seen, turns, full);
      for n := 0 to |turns|
        invariant forall k :: 0 <= k < n ==> ValidTurn(turns[k])
        invariant ScanAll(a, seen + TurnsItems(turns[..n], full)) == Some(State())
        invariant complete == (old(complete) && forall k :: 0 <= k < n ==> turns[k].view.Full?)
      {
        var t := turns[n];
        if !ValidTurn(t) {
          return false;
        }
        if !full || !t.view.Full? {
          complete := false;
        }
        TurnsSnoc(seen, turns, full, n);
        ok := ScanEntries(TurnItems(t, full), seen + TurnsItems(turns[..n], full));
        if !ok {
          FailedTurn(a, seen, turns, full, n + 1);
          return false;
        }
      }
      assert turns[..|turns|] == turns;
      return true;
    }
  }

  lemma NoTurns(seen: seq<(string, Item)>, turns: seq<Turn>, full: bool)
    ensures seen + TurnsItems(turns[..0], full) == seen
  {
  }

  lemma TurnsSnoc(seen: seq<(string, Item)>, turns: seq<Turn>, full: bool, n: nat)
    requires n < |turns|
    ensures seen + TurnsItems(turns[..n], full) + TurnItems(turns[n], full) == seen + TurnsItems(turns[..n + 1], full)
  {
    hide TurnItems;
    assert turns[..n + 1][..n] == turns[..n];
  }

  /** A turn that fails the scan fails its page. */
  lemma {:induction false} FailedTurn(a: Audit, seen: seq<(string, Item)>, turns: seq<Turn>, full: bool, n: nat)
    requires n <= |turns| && ScanAll(a, seen + TurnsItems(turns[..n], full)).None?
    ensures ScanAll(a, seen + TurnsItems(turns, full)).None?
    decreases |turns| - n
  {
    hide ScanAll, TurnsItems, TurnItems;
    if n == |turns| {
      assert turns[..n] == turns;
    } else {
      TurnsSnoc(seen, turns, full, n);
      ScanNone(a, seen + TurnsItems(turns[..n], full), TurnItems(turns[n], full));
      FailedTurn(a, seen, turns, full, n + 1);
    }
  }

  // ---------------------------------------------------------------- the whole call

  datatype AuditReport = AuditReport(matched: nat, complete: bool, decisions: map<string, string>)

  predicate DistinctRequests(history: seq<HistoryRead>)
  {
    forall i, j :: 0 <= i < j < |history| ==> history[i].request != history[j].request
  }

  /** Every check of the audit. */
  predicate Acceptable(a: Audit, history: seq<HistoryRead>, acks: seq<AckRow>)
  {
    && a.accepts(a.intent) && |history| <= 16 && |acks| <= 32
    && (forall i :: 0 <= i < |history| ==> ValidRead(a, history[i])) && DistinctRequests(history)
    && ScanAll(a, AllItems(history)).Some?
    && (forall i :: 0 <= i < |acks| ==> ValidAckRow(a.intent, acks[i])) && Consistent(acks)
  }

  /** One read: its own checks, its items, and whether the capture is still complete. */
  method AuditRead(auditor: Auditor, a: Audit, history: seq<HistoryRead>, n: nat) returns (ok: bool)
    requires n < |history| && auditor.a == a && ScanAll(a, AllItems(history[..n])) == Some(auditor.State())
    requires auditor.previous == Previous(history, n)
    modifies auditor
    ensures ok == (ValidRead(a, history[n]) && ScanAll(a, AllItems(history[..n + 1])).Some?)
    ensures ok ==> ScanAll(a, AllItems(history[..n + 1])) == Some(auditor.State())
    ensures ok ==> auditor.complete == (old(auditor.complete) && KeepsComplete(history, n))
    ensures ok ==> auditor.previous == Previous(history, n + 1)
  {
    hide ScanAll, ValidTurn, ValidPaging, AllItems, TurnsItems;
    var read := history[n];
    ghost var seen := AllItems(history[..n]);
    ReadsSnoc(history, n);
    if !(1 <= read.request <= 1_000_000) || read.request != read.response || read.thread != a.intent.thread {
      return false;
    }
    match read.content {
      case Whole(owner, paginated, turns) =>
        if owner != a.intent.thread || |turns| > 64 {
          return false;
        }
        if paginated || |history| != 1 {
          auditor.complete := false;
        }
        ok := auditor.ScanTurns(turns, true, seen);
      case TurnPage(paging, turns) =>
        if |turns| > 64 || !ValidPaging(paging) {
          return false;
        }
        if paging.cursor != NextOf(auditor.previous)
           || (auditor.previous.Some? && (paging.query != auditor.previous.value.query
                                          || auditor.previous.value.next.None?)) {
          auditor.complete := false;
        }
        auditor.previous := Some(paging);
        if paging.query.view != Some(Full) {
          auditor.complete := false;
        }
        ok := auditor.ScanTurns(turns, paging.query.view == Some(Full), seen);
      case ItemPage(paging, entries) =>
        if |entries| > 64 || !ValidPaging(paging) {
          return false;
        }
        if paging.cursor != NextOf(auditor.previous)
           || (auditor.previous.Some? && (paging.query != auditor.previous.value.query
                                          || auditor.previous.value.next.None?)) {
          auditor.complete := false;
        }
        auditor.previous := Some(paging);
        if exists k :: 0 <= k < |entries| && (!SafeName(entries[k].0)
             || (paging.query.turnId.Some? && entries[k].0 != paging.query.turnId.value)) {
          return false;
        }
        ok := auditor.ScanEntries(entries, seen);
    }
  }

  lemma ReadsSnoc(history: seq<HistoryRead>, n: nat)
    requires n < |history|
    ensures AllItems(history[..n + 1]) == AllItems(history[..n]) + ReadItems(history[n])
  {
    hide ReadItems;
    assert history[..n + 1][..n] == history[..n];
  }

  /** A read that fails the scan fails the audit. */
  lemma {:induction false} FailedRead(a: Audit, history: seq<HistoryRead>, n: nat)
    requires n <= |history| && ScanAll(a, AllItems(history[..n])).None?
    ensures ScanAll(a, AllItems(history)).None?
    decreases |history| - n
  {
    hide ScanAll, AllItems, ReadItems;
    if n == |history| {
      assert history[..n] == history;
    } else {
      ReadsSnoc(history, n);
      ScanNone(a, AllItems(history[..n]), ReadItems(history[n]));
      FailedRead(a, history, n + 1);
    }
  }

  /** All reads in order, with their request ids all different. */
  method AuditReads(auditor: Auditor, a: Audit, history: seq<HistoryRead>) returns (ok: bool)
    requires auditor.a == a && auditor.State() == NOTHING && auditor.previous == None
             && auditor.complete == (history != [])
    modifies auditor
    ensures ok == ((forall i :: 0 <= i < |history| ==> ValidRead(a, history[i])) && DistinctRequests(history)
                   && ScanAll(a, AllItems(history)).Some?)
    ensures ok ==> ScanAll(a, AllItems(history)) == Some(auditor.State())
    ensures ok ==> auditor.complete == (history != [] && forall i :: 0 <= i < |history| ==> KeepsComplete(history, i))
    ensures ok ==> auditor.previous == Previous(history, |history|)
  {
    hide ScanAll, ValidRead, KeepsComplete, ReadItems;
    var requests: set<int> := {};
    ScanNothing(a);
    for n := 0 to |history|
      invariant auditor.a == a && ScanAll(a, AllItems(history[..n])) == Some(auditor.State())
      invariant auditor.previous == Previous(history, n)
      invariant forall i :: 0 <= i < n ==> ValidRead(a, history[i])
      invariant requests == RequestIds(history[..n]) && DistinctRequests(history[..n])
      invariant auditor.complete == (history != [] && forall i :: 0 <= i < n ==> KeepsComplete(history, i))
    {
      RequestsSnoc(history, n);
      if history[n].request in requests {
        RequestReused(history, n);
        return false;
      }
      requests := requests + {history[n].request};
      ok := AuditRead(auditor, a, history, n);
      if !ok {
        if ValidRead(a, history[n]) {
          FailedRead(a, history, n + 1);
        }
        return false;
      }
    }
    assert history[..|history|] == history;
    return true;
  }

  function RequestIds(history: seq<HistoryRead>): set<int>
  {
    set i | 0 <= i < |history| :: history[i].request
  }

  lemma RequestsSnoc(history: seq<HistoryRead>, n: nat)
    requires n < |history|
    ensures RequestIds(history[..n + 1]) == RequestIds(history[..n]) + {history[n].request}
    ensures DistinctRequests(history[..n + 1]) <==>
            DistinctRequests(history[..n]) && history[n].request !in RequestIds(history[..n])
  {
    var before, after := history[..n], history[..n + 1];
    assert after[n] == history[n] && forall i :: 0 <= i < n ==> after[i] == before[i];
    forall q ensures q in RequestIds(after) <==> q in RequestIds(before) || q == history[n].request {
      if q in RequestIds(before) {
        var i :| 0 <= i < n && before[i].request == q;
        assert after[i].request == q;
      }
      if q == history[n].request {
        assert after[n].request == q;
      }
    }
    if history[n].request in RequestIds(before) {
      var i :| 0 <= i < n && before[i].request == history[n].request;
      assert after[i].request == after[n].request;
    }
    if DistinctRequests(after) {
      assert forall i, j :: 0 <= i < j < n ==>
               after[i].request == before[i].request && after[j].request == before[j].request;
    }
  }

  lemma RequestReused(history: seq<HistoryRead>, n: nat)
    requires n < |history| && history[n].request in RequestIds(history[..n])
    ensures !DistinctRequests(history)
  {
    var i :| 0 <= i < n && history[..n][i].request == history[n].request;
    assert history[i].request == history[n].request;
  }

  /**
    `audit`: it succeeds on exactly the acceptable captures.  A complete report means one
    whole thread or one unbroken chain of pages; the count is the number of different
    (turn, item) keys that carry the delivery.
   */
  method RunAudit(a: Audit, history: seq<HistoryRead>, acks: seq<AckRow>) returns (r: Option<AuditReport>)
    ensures r.Some? <==> Acceptable(a, history, acks)
    ensures r.Some? ==>
              && (r.value.complete <==> CompleteCapture(history))
              && r.value.matched == |CarrierKeys(a, AllItems(history))|
              && DecisionsOf(acks, r.value.decisions)
  {
    hide ScanAll, AllItems, ValidRead, DistinctRequests, KeepsComplete, CompleteCapture, Carries;
    hide ValidAckRow, Consistent, DecisionsOf, CarrierKeys;
    if !a.accepts(a.intent) || |history| > 16 || |acks| > 32 {
      return None;
    }
    var auditor := new Auditor(a, history != []);
    var ok := AuditReads(auditor, a, history);
    if !ok {
      return None;
    }
    if NextOf(auditor.previous) != None {
      auditor.complete := false;
    }
    Completeness(history);
    ScanMatches(a, AllItems(history));
    var decisions := FoldAcks(a.intent, acks);
    if decisions.None? {
      return None;
    }
    return Some(AuditReport(|auditor.matches|, auditor.complete, decisions.value));
  }

  lemma ScanNothing(a: Audit)
    ensures ScanAll(a, []) == Some(NOTHING)
  {
  }

  lemma Completeness(history: seq<HistoryRead>)
    ensures CompleteCapture(history) <==> KeptComplete(history)
  {
    if KeptComplete(history) {
      KeptIsComplete(history);
    }
    if CompleteCapture(history) {
      CompleteIsKept(history);
    }
  }

  /** What a complete report certifies of the history itself. */
  lemma CompleteReportCertifies(a: Audit, history: seq<HistoryRead>, acks: seq<AckRow>)
    requires Acceptable(a, history, acks) && CompleteCapture(history)
    ensures CarrierKeys(a, AllItems(history)) == CarrierKeys(a, AllShown(history))
    ensures forall k :: 0 <= k < |AllShown(history)| && Carries(a, AllShown(history)[k]) ==>
              a.parse(AllShown(history)[k].1.output.value) == Some(a.intent)
  {
    hide AllFull, ValidRead, ScanAll;
    EveryItemScanned(history);
    ScanMatches(a, AllItems(history));
  }
}
