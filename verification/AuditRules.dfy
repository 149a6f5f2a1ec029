/**
  Which captured items the audit stands: what makes a scan fail, said of all items at once,
  and that it takes the acknowledgements that the batch command publishes.
 */
module AuditRules {
  import opened Options
  import opened BatchSpec
  import opened BatchTheorems
  import opened DeliverySpec
  import opened HistoryAudit

  type Items = seq<(string, Item)>

  function KeyOf(entry: (string, Item)): Key
  {
    (entry.0, entry.1.id)
  }

  function IdentityOf(item: Item): (string, Option<string>, Option<string>)
  {
    (item.kind, item.name, item.space)
  }

  /** A delivery marker as it has to be: its keys and no others, its name space, an envelope that is accepted. */
  predicate GoodMarker(a: Audit, item: Item)
  {
    && item.shaped && item.space == Some("orchestration") && item.output.Some?
    && a.parse(item.output.value).Some? && a.accepts(a.parse(item.output.value).value)
  }

  /** One item by itself: a safe id; a marker is good, and of this delivery only if it is the intent. */
  predicate GoodItem(a: Audit, item: Item)
  {
    && SafeName(item.id)
    && (Marker(item) ==>
          && GoodMarker(a, item)
          && (a.parse(item.output.value).value.delivery == a.intent.delivery ==>
                a.parse(item.output.value) == Some(a.intent)))
  }

  /** Two captures of one item: the same identity, and the same envelope if both are markers. */
  predicate Agree(a: Audit, x: (string, Item), y: (string, Item))
  {
    KeyOf(x) == KeyOf(y) ==>
      && IdentityOf(x.1) == IdentityOf(y.1)
      && (Marker(x.1) && Marker(y.1) && x.1.output.Some? && y.1.output.Some? ==>
            a.parse(x.1.output.value) == a.parse(y.1.output.value))
  }

  ghost predicate Auditable(a: Audit, items: Items)
  {
    && (forall i :: 0 <= i < |items| ==> GoodItem(a, items[i].1))
    && (forall i, j :: 0 <= i < j < |items| ==> Agree(a, items[i], items[j]))
    && |CarrierKeys(a, items)| <= 32
  }

  ghost predicate Identified(items: Items, identities: map<Key, (string, Option<string>, Option<string>)>)
  {
    && (forall k :: k in identities <==> exists i :: 0 <= i < |items| && KeyOf(items[i]) == k)
    && (forall i :: 0 <= i < |items| ==>
          KeyOf(items[i]) in identities && identities[KeyOf(items[i])] == IdentityOf(items[i].1))
  }

  ghost predicate Observed(a: Audit, items: Items, observed: map<Key, Envelope>)
  {
    && (forall k :: k in observed <==> exists i :: 0 <= i < |items| && MarkerAt(items[i], k))
    && (forall i :: 0 <= i < |items| && Marker(items[i].1) ==>
          && KeyOf(items[i]) in observed && items[i].1.output.Some?
          && a.parse(items[i].1.output.value) == Some(observed[KeyOf(items[i])]))
  }

  predicate MarkerAt(e: (string, Item), k: Key)
  {
    KeyOf(e) == k && Marker(e.1)
  }

  /** What a scan has gathered: of each item its identity, of each marker its envelope. */
  ghost predicate Gathered(a: Audit, items: Items, s: Scan)
  {
    Identified(items, s.identities) && Observed(a, items, s.observed) && s.matches == CarrierKeys(a, items)
  }

  lemma AuditableMore(a: Audit, items: Items, e: (string, Item))
    ensures Auditable(a, items + [e]) <==>
            && Auditable(a, items) && GoodItem(a, e.1) && (forall i :: 0 <= i < |items| ==> Agree(a, items[i], e))
            && |CarrierKeys(a, items + [e])| <= 32
  {
    hide GoodItem, Agree, CarrierKeys;
    var all, n := items + [e], |items|;
    assert all[n] == e && forall i :: 0 <= i < n ==> all[i] == items[i];
    FewerCarriers(a, items, e);
    if Auditable(a, all) {
      forall i | 0 <= i < n ensures GoodItem(a, items[i].1) && Agree(a, items[i], e) {
        assert GoodItem(a, all[i].1) && Agree(a, all[i], all[n]);
      }
      forall i, j | 0 <= i < j < n ensures Agree(a, items[i], items[j]) {
        assert Agree(a, all[i], all[j]);
      }
    }
  }

  lemma FewerCarriers(a: Audit, items: Items, e: (string, Item))
    ensures |CarrierKeys(a, items)| <= |CarrierKeys(a, items + [e])|
  {
    CarrierSnoc(a, items, e);
    hide CarrierKeys, Carries;
    if Carries(a, e) {
      var before, k := CarrierKeys(a, items), KeyOf(e);
      assert before + {k} == before || |before + {k}| == |before| + 1;
    }
  }

  /** What the scan checks of an item against what it has gathered is what the item owes the others. */
  lemma AgreesIff(a: Audit, items: Items, s: Scan, e: (string, Item))
    requires Gathered(a, items, s) && GoodItem(a, e.1)
    ensures (forall i :: 0 <= i < |items| ==> Agree(a, items[i], e)) <==>
            && (KeyOf(e) in s.identities ==> s.identities[KeyOf(e)] == IdentityOf(e.1))
            && (Marker(e.1) && KeyOf(e) in s.observed ==> Some(s.observed[KeyOf(e)]) == a.parse(e.1.output.value))
  {
    hide GoodMarker, CarrierKeys, SafeName, Marker;
    if forall i :: 0 <= i < |items| ==> Agree(a, items[i], e) {
      if KeyOf(e) in s.identities {
        var i :| 0 <= i < |items| && KeyOf(items[i]) == KeyOf(e);
        assert Agree(a, items[i], e);
      }
      if Marker(e.1) && KeyOf(e) in s.observed {
        var i :| 0 <= i < |items| && MarkerAt(items[i], KeyOf(e));
        assert Agree(a, items[i], e);
        MarkerHasOutput(a, e.1);
      }
    }
  }

  lemma MarkerHasOutput(a: Audit, item: Item)
    requires GoodItem(a, item) && Marker(item)
    ensures item.output.Some? && a.parse(item.output.value).Some?
  {
  }

  /** The scan of one more item, by what has been gathered. */
  lemma ItemIff(a: Audit, items: Items, s: Scan, e: (string, Item))
    requires Gathered(a, items, s)
    ensures ScanItem(a, s, e.0, e.1).Some? <==>
            && GoodItem(a, e.1)
            && (KeyOf(e) in s.identities ==> s.identities[KeyOf(e)] == IdentityOf(e.1))
            && (Marker(e.1) && KeyOf(e) in s.observed ==> Some(s.observed[KeyOf(e)]) == a.parse(e.1.output.value))
            && (Carries(a, e) ==> |CarrierKeys(a, items) + {KeyOf(e)}| <= 32)
  {
    hide CarrierKeys, SafeName;
  }

  lemma MoreGathered(a: Audit, items: Items, s: Scan, e: (string, Item))
    requires Gathered(a, items, s) && ScanItem(a, s, e.0, e.1).Some?
    ensures Gathered(a, items + [e], ScanItem(a, s, e.0, e.1).value)
  {
    ItemIff(a, items, s, e);
    CarrierSnoc(a, items, e);
    NextGathered(a, items, s, e);
  }

  /** The scan after an item that it stands. */
  lemma ItemGives(a: Audit, s: Scan, e: (string, Item))
    requires ScanItem(a, s, e.0, e.1).Some?
    ensures ScanItem(a, s, e.0, e.1).value ==
            Scan(if Carries(a, e) then s.matches + {KeyOf(e)} else s.matches,
                 if Marker(e.1) then s.observed[KeyOf(e) := a.parse(e.1.output.value).value] else s.observed,
                 s.identities[KeyOf(e) := IdentityOf(e.1)])
  {
    hide SafeName;
  }

  lemma NextGathered(a: Audit, items: Items, s: Scan, e: (string, Item))
    requires Gathered(a, items, s) && ScanItem(a, s, e.0, e.1).Some? && GoodItem(a, e.1)
    requires KeyOf(e) in s.identities ==> s.identities[KeyOf(e)] == IdentityOf(e.1)
    requires Marker(e.1) && KeyOf(e) in s.observed ==> Some(s.observed[KeyOf(e)]) == a.parse(e.1.output.value)
    requires CarrierKeys(a, items + [e]) == CarrierKeys(a, items) + if Carries(a, e) then {KeyOf(e)} else {}
    ensures Gathered(a, items + [e], ScanItem(a, s, e.0, e.1).value)
  {
    ItemGives(a, s, e);
    if Marker(e.1) {
      MarkerHasOutput(a, e.1);
    }
    hide ScanItem, CarrierKeys, Carries, Marker, GoodItem, Identified, Observed;
    IdentifiedMore(items, s.identities, e);
    ObservedMore(a, items, s.observed, e);
  }

  lemma IdentifiedMore(items: Items, ids: map<Key, (string, Option<string>, Option<string>)>, e: (string, Item))
    requires Identified(items, ids) && (KeyOf(e) in ids ==> ids[KeyOf(e)] == IdentityOf(e.1))
    ensures Identified(items + [e], ids[KeyOf(e) := IdentityOf(e.1)])
  {
    hide IdentityOf;
    var all, n, more := items + [e], |items|, ids[KeyOf(e) := IdentityOf(e.1)];
    assert all[n] == e && forall i :: 0 <= i < n ==> all[i] == items[i];
    forall k ensures k in more <==> exists i :: 0 <= i < |all| && KeyOf(all[i]) == k {
      if k in ids {
        var i :| 0 <= i < n && KeyOf(items[i]) == k;
        assert KeyOf(all[i]) == k;
      }
      assert KeyOf(all[n]) == KeyOf(e);
    }
  }

  lemma ObservedMore(a: Audit, items: Items, observed: map<Key, Envelope>, e: (string, Item))
    requires Observed(a, items, observed)
    requires Marker(e.1) ==>
               && e.1.output.Some? && a.parse(e.1.output.value).Some?
               && (KeyOf(e) in observed ==> Some(observed[KeyOf(e)]) == a.parse(e.1.output.value))
    ensures Observed(a, items + [e],
                     if Marker(e.1) then observed[KeyOf(e) := a.parse(e.1.output.value).value] else observed)
  {
    hide Marker, KeyOf;
    var all, n := items + [e], |items|;
    var more := if Marker(e.1) then observed[KeyOf(e) := a.parse(e.1.output.value).value] else observed;
    assert all[n] == e && forall i :: 0 <= i < n ==> all[i] == items[i];
    forall k ensures k in more <==> exists i :: 0 <= i < |all| && MarkerAt(all[i], k) {
      if k in observed {
        var i :| 0 <= i < n && MarkerAt(items[i], k);
        assert MarkerAt(all[i], k);
      }
      assert MarkerAt(all[n], KeyOf(e)) <==> Marker(e.1);
    }
  }

  lemma NothingGathered(a: Audit)
    ensures Gathered(a, [], NOTHING) && Auditable(a, [])
  {
    assert CarrierKeys(a, []) == {};
  }

  /**
    A scan succeeds exactly on items that are good by themselves, agree with each other where
    they are captures of one item, and carry the delivery under at most 32 keys; it has then
    gathered exactly these.
   */
  lemma {:induction false} ScanIff(a: Audit, items: Items)
    ensures ScanAll(a, items).Some? <==> Auditable(a, items)
    ensures ScanAll(a, items).Some? ==> Gathered(a, items, ScanAll(a, items).value)
    decreases |items|
  {
    hide ScanItem, Auditable, Gathered, GoodItem, Agree, Carries, Marker;
    if items == [] {
      NothingGathered(a);
    } else {
      var init, e := items[..|items| - 1], items[|items| - 1];
      assert init + [e] == items;
      ScanIff(a, init);
      AuditableMore(a, init, e);
      if ScanAll(a, init).Some? {
        var s := ScanAll(a, init).value;
        ItemIff(a, init, s, e);
        CarrierSnoc(a, init, e);
        if GoodItem(a, e.1) {
          AgreesIff(a, init, s, e);
        }
        if ScanItem(a, s, e.0, e.1).Some? {
          MoreGathered(a, init, s, e);
        }
        if !Carries(a, e) {
          WithinBefore(a, init);
        }
      }
    }
  }

  lemma WithinBefore(a: Audit, items: Items)
    requires Auditable(a, items)
    ensures |CarrierKeys(a, items)| <= 32 && CarrierKeys(a, items) + {} == CarrierKeys(a, items)
  {
  }

  // ---------------------------------------------------------------- acknowledgements of the batch command

  /** An acknowledgement as the audit is given it. */
  function RowOfAck(x: Ack): AckRow
  {
    AckRow(x.delivery, x.controller, x.epoch, x.event.id, x.event.revision, x.event.payloadHash, x.event.slot,
           x.decision,
           x.command, x.decisionCount, x.effectCount)
  }

  /** Every acknowledgement that the batch command has published is one that the audit of its envelope takes. */
  lemma PublishedAckTaken(h: Hasher, v: Records, id: string, e: Envelope)
    requires Good(h, v) && AckRecord(id) in v && v[IntentRecord].OfIntent?
    requires var i := v[IntentRecord].intent;
             e.delivery == i.delivery && e.thread == i.controller && e.epoch == i.epoch && e.events == i.events
    ensures ValidAckRow(e, RowOfAck(v[AckRecord(id)].ack))
  {
    assert GoodAck(v, id);
    FindEventFinds(e.events, id);
    assert ValidEvents(e.events);
    hide SafeName, SafeHash, ValidDecision, FindEvent;
  }
}
