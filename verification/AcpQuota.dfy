/**
  The quota of local completion receipts.  Before a prompt is sent its largest possible
  receipt is reserved; the reservation is what makes the later receipt sure to be admitted.

  Names are built from digests, and a stored request is charged the size of its text.
 */
module AcpQuota {
  import opened AcpRequests

  const MAX_ENTRIES := 1024
  const MAX_BYTES := 16 * 1024 * 1024
  const MAX_RECEIPT := 64 * 1024
  const LOCK := ".quota.lock"

  datatype Body = OfReservation(reserved: Prompt) | OfReceipt(received: Receive) | Garbage

  /** `trusted` stands for the owner, mode and link checks of a file. */
  datatype File = File(trusted: bool, size: nat, body: Body)

  type Dir = map<string, File>

  datatype Outcome = Done | Died | Invalid | Capacity | PromptUnknown | Conflict

  // ---------------------------------------------------------------- names and files

  /** `prefix`, 64 lower-case hex digits, ".json". */
  predicate NamedWith(prefix: string, name: string)
  {
    && |name| == |prefix| + 69 && name[..|prefix|] == prefix && name[|prefix| + 64..] == ".json"
    && Digest(name[|prefix|..|prefix| + 64])
  }

  function ReservationName(m: Host, p: Prompt): string
  {
    "reservation-" + m.reservationDigest(p) + ".json"
  }

  /** The receipt of an attempt has one name, whatever it says. */
  function ReceiptNameOf(m: Host, p: Prompt): string
  {
    "receipt-" + m.receiptDigest(p.binding, p.epoch, p.attempt) + ".json"
  }

  function ReceiptName(m: Host, r: Receive): string
  {
    ReceiptNameOf(m, r.begin.prompt)
  }

  predicate Private(f: File)
  {
    f.trusted && 1 <= f.size <= MAX_RECEIPT
  }

  /** The checks on a stored reservation record. */
  predicate ValidRecord(p: Prompt)
  {
    && p.binding != "" && p.epoch != 0 && p.session != "" && p.batch != "" && p.attempt != ""
    && |p.render| == 64 && |p.prompt| == 64 && p.ordinal >= 1
  }

  predicate ValidReservation(m: Host, name: string, f: File)
  {
    Private(f) && f.body.OfReservation? && ValidRecord(f.body.reserved) && ReservationName(m, f.body.reserved) == name
  }

  /** The checks the admission loop makes on one entry. */
  predicate ValidEntry(m: Host, name: string, f: File)
  {
    || (NamedWith("receipt-", name) && Private(f))
    || (NamedWith("reservation-", name) && ValidReservation(m, name, f))
  }

  /** A reservation is charged the largest receipt, a receipt its size. */
  function Charge(name: string, f: File): nat
  {
    if NamedWith("reservation-", name) then MAX_RECEIPT else f.size
  }

  // ---------------------------------------------------------------- totals

  /** The entries an admission counts. */
  function Counted(d: Dir, replacing: string): (names: set<string>)
    ensures names <= d.Keys
  {
    set n | n in d && n != LOCK && n != replacing
  }

  ghost function Total(d: Dir, names: set<string>): nat
    requires names <= d.Keys
    decreases |names|
  {
    if names == {} then 0
    else
      var n :| n in names;
      Charge(n, d[n]) + Total(d, names - {n})
  }

  /** The total does not depend on the order of the entries. */
  lemma {:induction false} TotalAdds(d: Dir, names: set<string>, n: string)
    requires names <= d.Keys && n in names
    ensures Total(d, names) == Charge(n, d[n]) + Total(d, names - {n})
    decreases |names|
  {
    hide Charge;
    var first :| first in names && Total(d, names) == Charge(first, d[first]) + Total(d, names - {first});
    if first != n {
      TotalAdds(d, names - {first}, n);
      TotalAdds(d, names - {n}, first);
      assert names - {first} - {n} == names - {n} - {first};
    }
  }

  lemma {:induction false} TotalSame(d: Dir, e: Dir, names: set<string>)
    requires names <= d.Keys && names <= e.Keys && forall n :: n in names ==> d[n] == e[n]
    ensures Total(d, names) == Total(e, names)
    decreases |names|
  {
    hide Charge;
    if names != {} {
      var n :| n in names;
      TotalAdds(d, names, n);
      TotalAdds(e, names, n);
      TotalSame(d, e, names - {n});
    }
  }

  // ---------------------------------------------------------------- admission

  /** Admission, as a fact about the whole directory. */
  ghost predicate Admits(m: Host, d: Dir, incoming: int, replacing: string)
  {
    var names := Counted(d, replacing);
    && 1 <= incoming <= MAX_RECEIPT
    && (forall n :: n in names ==> ValidEntry(m, n, d[n]))
    && |names| < MAX_ENTRIES && Total(d, names) + incoming <= MAX_BYTES
  }

  /** A listing of at most 1026 names, in any order. */
  predicate Lists(listing: seq<string>, d: Dir)
  {
    && (forall i :: 0 <= i < |listing| ==> listing[i] in d)
    && (forall i, j :: 0 <= i < j < |listing| ==> listing[i] != listing[j])
    && |listing| == if |d| < MAX_ENTRIES + 2 then |d| else MAX_ENTRIES + 2
  }

  function Listed(listing: seq<string>, replacing: string): set<string>
  {
    set i | 0 <= i < |listing| && listing[i] != LOCK && listing[i] != replacing :: listing[i]
  }

  lemma {:induction false} TotalMonotone(d: Dir, some: set<string>, all: set<string>)
    requires some <= all <= d.Keys
    ensures Total(d, some) <= Total(d, all) && |some| <= |all|
    decreases |some|
  {
    hide Charge;
    if some != {} {
      var n :| n in some;
      TotalAdds(d, some, n);
      TotalAdds(d, all, n);
      TotalMonotone(d, some - {n}, all - {n});
    }
  }

  function Names(listing: seq<string>): set<string>
  {
    set i | 0 <= i < |listing| :: listing[i]
  }

  lemma {:induction false} DistinctNames(listing: seq<string>)
    requires forall i, j :: 0 <= i < j < |listing| ==> listing[i] != listing[j]
    ensures |Names(listing)| == |listing|
    decreases |listing|
  {
    if listing != [] {
      var init, last := listing[..|listing| - 1], listing[|listing| - 1];
      DistinctNames(init);
      assert Names(listing) == Names(init) + {last};
      assert last !in Names(init);
    }
  }

  lemma SameSize<T>(some: set<T>, all: set<T>)
    requires some <= all && |some| == |all|
    ensures some == all
  {
    assert |all - some| == 0;
  }

  /** If fewer than 1024 entries are counted, the listing was the whole directory. */
  lemma EverythingListed(d: Dir, listing: seq<string>, replacing: string)
    requires Lists(listing, d) && |Listed(listing, replacing)| < MAX_ENTRIES
    ensures Listed(listing, replacing) == Counted(d, replacing)
  {
    DistinctNames(listing);
    var names, counted := Names(listing), Listed(listing, replacing);
    assert names <= d.Keys;
    assert counted == names - {LOCK, replacing};
    AtMostTwo(names, LOCK, replacing);
    assert |listing| < MAX_ENTRIES + 2;
    SameSize(names, d.Keys);
  }

  lemma AtMostTwo(names: set<string>, x: string, y: string)
    ensures |names - {x, y}| + 2 >= |names|
  {
    assert names == (names - {x, y}) + (names * {x, y});
    assert names * {x, y} <= {x, y};
    SubsetSize(names * {x, y}, {x, y});
    assert |{x, y}| <= 2;
  }

  lemma {:induction false} SubsetSize<T>(some: set<T>, all: set<T>)
    requires some <= all
    ensures |some| <= |all|
    decreases |some|
  {
    if some != {} {
      var x :| x in some;
      SubsetSize(some - {x}, all - {x});
    }
  }

  lemma ListedSnoc(listing: seq<string>, k: nat, replacing: string)
    requires k < |listing| && forall i, j :: 0 <= i < j < |listing| ==> listing[i] != listing[j]
    ensures var before, n := Listed(listing[..k], replacing), listing[k];
            && n !in before
            && Listed(listing[..k + 1], replacing) == if n == LOCK || n == replacing then before else before + {n}
  {
    var before, after := listing[..k], listing[..k + 1];
    assert after[k] == listing[k] && forall i :: 0 <= i < k ==> after[i] == before[i] == listing[i];
  }

  lemma ListedCounted(d: Dir, listing: seq<string>, k: nat, replacing: string)
    requires Lists(listing, d) && k <= |listing|
    ensures Listed(listing[..k], replacing) <= Counted(d, replacing)
  {
  }

  /**
    `admitACPCompletion`: a loop over the listing that stops at the first entry that is
    foreign, or that makes the count or the charge too large.  It admits exactly when the
    whole directory does, whatever the order, and although it lists at most 1026 names.
   */
  method Admit(m: Host, d: Dir, listing: seq<string>, incoming: int, replacing: string) returns (r: Outcome)
    requires Lists(listing, d)
    ensures r == Done || r == Invalid || r == Capacity
    ensures r == Done <==> Admits(m, d, incoming, replacing)
    ensures r == Invalid ==>
              !(1 <= incoming <= MAX_RECEIPT) || exists n :: n in Counted(d, replacing) && !ValidEntry(m, n, d[n])
  {
    hide Charge, ValidEntry, Listed, Counted;
    if incoming <= 0 || incoming > MAX_RECEIPT {
      return Invalid;
    }
    var count, used := 0, 0;
    assert Listed(listing[..0], replacing) == {} by { NoneListed(listing, replacing); }
    for k := 0 to |listing|
      invariant Listed(listing[..k], replacing) <= Counted(d, replacing) <= d.Keys
      invariant forall n :: n in Listed(listing[..k], replacing) ==> ValidEntry(m, n, d[n])
      invariant count == |Listed(listing[..k], replacing)| < MAX_ENTRIES
      invariant used == Total(d, Listed(listing[..k], replacing)) <= MAX_BYTES - incoming
    {
      var n := listing[k];
      ListedSnoc(listing, k, replacing);
      ListedCounted(d, listing, k + 1, replacing);
      if n == LOCK || n == replacing {
        continue;
      }
      ghost var names := Listed(listing[..k + 1], replacing);
      assert n in names;
      if !ValidEntry(m, n, d[n]) {
        return Invalid;
      }
      TotalAdds(d, names, n);
      assert names - {n} == Listed(listing[..k], replacing);
      used := used + Charge(n, d[n]);
      count := count + 1;
      if count >= MAX_ENTRIES || used > MAX_BYTES - incoming {
        TotalMonotone(d, names, Counted(d, replacing));
        return Capacity;
      }
    }
    assert listing[..|listing|] == listing;
    EverythingListed(d, listing, replacing);
    return Done;
  }

  lemma NoneListed(listing: seq<string>, replacing: string)
    ensures Listed(listing[..0], replacing) == {}
  {
  }

  // ---------------------------------------------------------------- the two operations

  function ReservationFile(m: Host, p: Prompt): File
  {
    File(true, |ReservationText(m, p)| + 1, OfReservation(p))
  }

  function ReceiptSize(m: Host, q: Receive): nat
  {
    |ReceiptText(m, q)| + 1
  }

  function ReceiptFile(m: Host, q: Receive): File
  {
    File(true, ReceiptSize(m, q), OfReceipt(q))
  }

  /** What a refused admission reports: capacity, if no entry is foreign. */
  ghost predicate Refusal(m: Host, d: Dir, incoming: int, replacing: string, r: Outcome)
  {
    && (r == Invalid || r == Capacity)
    && (1 <= incoming <= MAX_RECEIPT && (forall n :: n in Counted(d, replacing) ==> ValidEntry(m, n, d[n])) ==>
        r == Capacity)
  }

  ghost predicate Reserves(m: Host, d: Dir, b: Begin, d': Dir, r: Outcome)
  {
    var name := ReservationName(m, b.prompt);
    if !DecodesBegin(m, b) then r == Invalid && d' == d
    else if name in d then r == (if ValidReservation(m, name, d[name]) then PromptUnknown else Invalid) && d' == d
    else if !Admits(m, d, MAX_RECEIPT, "") then Refusal(m, d, MAX_RECEIPT, "", r) && d' == d
    else r == Done && d' == d[name := ReservationFile(m, b.prompt)]
  }

  ghost predicate Persists(m: Host, d: Dir, q: Receive, dies: bool, d': Dir, r: Outcome)
  {
    var name, held := ReceiptName(m, q), ReservationName(m, q.begin.prompt);
    if !DecodesReceive(m, q) then r == Invalid && d' == d
    else if held in d && !ValidReservation(m, held, d[held]) then r == Invalid && d' == d
    else if name !in d && !Admits(m, d, ReceiptSize(m, q), held) then
      Refusal(m, d, ReceiptSize(m, q), held, r) && d' == d
    else if name in d && (!Private(d[name]) || !d[name].body.OfReceipt?) then r == Invalid && d' == d
    else if name in d && d[name].body.received != q then r == Conflict && d' == d
    else
      var stored := if name in d then d else d[name := ReceiptFile(m, q)];
      if dies then r == Died && d' == stored else r == Done && d' == stored - {held}
  }

  /** The receipts directory under its lock. */
  class CompletionStore {
    const m: Host
    var files: Dir

    constructor (m: Host, files: Dir)
      ensures this.m == m && this.files == files
    {
      this.m, this.files := m, files;
    }

    /** `reserveACPPrompt`. */
    method Reserve(b: Begin, listing: seq<string>) returns (r: Outcome)
      requires Lists(listing, files)
      modifies this
      ensures Reserves(m, old(files), b, files, r)
    {
      hide Admits, ValidReservation, ReservationName, DecodesBegin;
      if !DecodesBegin(m, b) {
        return Invalid;
      }
      var name := ReservationName(m, b.prompt);
      if name in files {
        return if ValidReservation(m, name, files[name]) then PromptUnknown else Invalid;
      }
      r := Admit(m, files, listing, MAX_RECEIPT, "");
      if r != Done {
        return;
      }
      files := files[name := ReservationFile(m, b.prompt)];
    }

    /** `persistACPCompletion`; with `dies` the process stops after the receipt is written. */
    method Persist(q: Receive, listing: seq<string>, dies: bool) returns (r: Outcome)
      requires Lists(listing, files)
      modifies this
      ensures Persists(m, old(files), q, dies, files, r)
    {
      hide Admits, ValidReservation, Private, ReceiptText, DecodesReceive;
      var name, held := ReceiptName(m, q), ReservationName(m, q.begin.prompt);
      NamesDiffer(m, q.begin.prompt, q);
      hide ReceiptName, ReservationName;
      if !DecodesReceive(m, q) {
        return Invalid;
      }
      if held in files && !ValidReservation(m, held, files[held]) {
        return Invalid;
      }
      if name !in files {
        r := Admit(m, files, listing, ReceiptSize(m, q), held);
        if r != Done {
          return;
        }
        files := files[name := ReceiptFile(m, q)];
      } else if !Private(files[name]) || !files[name].body.OfReceipt? {
        return Invalid;
      } else if files[name].body.received != q {
        return Conflict;
      }
      if dies {
        return Died;
      }
      files := files - {held};
      return Done;
    }
  }

  lemma NamesDiffer(m: Host, p: Prompt, q: Receive)
    ensures ReservationName(m, p) != ReceiptName(m, q)
  {
    assert ReceiptName(m, q)[2] == 'c' && ReservationName(m, p)[2] == 's';
  }

  // ---------------------------------------------------------------- the guarantee

  function Entries(d: Dir): set<string>
  {
    Counted(d, "")
  }

  /** Every entry is a receipt or a reservation under its own name. */
  ghost predicate Good(m: Host, d: Dir)
  {
    && "" !in d
    && forall n :: n in Entries(d) ==>
         && ValidEntry(m, n, d[n])
         && (NamedWith("receipt-", n) ==> d[n].body.OfReceipt? && ReceiptName(m, d[n].body.received) == n)
  }

  /** At most 1024 entries and 16 MiB of receipts and reservations. */
  ghost predicate Within(d: Dir)
  {
    |Entries(d)| <= MAX_ENTRIES && Total(d, Entries(d)) <= MAX_BYTES
  }

  lemma ReservationNamed(m: Host, p: Prompt)
    requires Honest(m)
    ensures var n := ReservationName(m, p);
            NamedWith("reservation-", n) && !NamedWith("receipt-", n) && n != LOCK && n != ""
  {
    var n, digest := ReservationName(m, p), m.reservationDigest(p);
    assert Digest(digest);
    assert n[..12] == "reservation-" && n[12..76] == digest && n[76..] == ".json";
    assert |n| == 81;
  }

  lemma ReceiptNamed(m: Host, q: Receive)
    requires Honest(m)
    ensures var n := ReceiptName(m, q);
            NamedWith("receipt-", n) && !NamedWith("reservation-", n) && n != LOCK && n != ""
  {
    var n, p := ReceiptName(m, q), q.begin.prompt;
    var digest := m.receiptDigest(p.binding, p.epoch, p.attempt);
    assert Digest(digest);
    assert n[..8] == "receipt-" && n[8..72] == digest && n[72..] == ".json";
    assert |n| == 77;
  }

  /** Adding a file adds its charge. */
  lemma AddFile(d: Dir, n: string, f: File)
    requires n !in d && n != LOCK && n != ""
    ensures var d' := d[n := f];
            && Entries(d') == Entries(d) + {n} && |Entries(d')| == |Entries(d)| + 1
            && Total(d', Entries(d')) == Total(d, Entries(d)) + Charge(n, f)
  {
    hide Charge;
    var d' := d[n := f];
    assert Entries(d') == Entries(d) + {n} && Entries(d') - {n} == Entries(d);
    TotalAdds(d', Entries(d'), n);
    TotalSame(d, d', Entries(d));
  }

  lemma RemoveFile(d: Dir, n: string)
    requires n in d && n != LOCK && n != ""
    ensures var d' := d - {n};
            && Entries(d') == Counted(d, n) - {""} && (("" !in d) ==> Entries(d') == Counted(d, n))
            && |Entries(d')| == |Entries(d)| - 1
            && Total(d', Entries(d')) == Total(d, Entries(d)) - Charge(n, d[n])
  {
    hide Charge;
    var d' := d - {n};
    assert Entries(d) == Entries(d') + {n} && Entries(d) - {n} == Entries(d');
    TotalAdds(d, Entries(d), n);
    TotalSame(d, d', Entries(d'));
  }

  /** A file added and another left out of account: their charges are exchanged. */
  lemma Exchanged(d: Dir, n: string, f: File, held: string)
    requires n !in d && n != LOCK && n != "" && held in d && held != LOCK && held != "" && "" !in d
    ensures var d' := d[n := f];
            && Entries(d' - {held}) == Counted(d', held) && |Counted(d', held)| == |Entries(d)|
            && Total(d' - {held}, Entries(d' - {held})) == Total(d', Counted(d', held))
            && Total(d', Counted(d', held)) == Total(d, Entries(d)) + Charge(n, f) - Charge(held, d[held])
  {
    hide Charge;
    var d' := d[n := f];
    AddFile(d, n, f);
    RemoveFile(d', held);
    assert Entries(d' - {held}) == Counted(d', held);
    TotalSame(d', d' - {held}, Counted(d', held));
  }

  /** In any good directory a held reservation admits a size exactly if that fits in place of its charge. */
  lemma AdmitsReservedIff(m: Host, d: Dir, p: Prompt, size: int)
    requires Honest(m) && Good(m, d) && ReservationName(m, p) in d && 1 <= size <= MAX_RECEIPT
    ensures Admits(m, d, size, ReservationName(m, p)) <==>
            |Entries(d)| <= MAX_ENTRIES && Total(d, Entries(d)) - MAX_RECEIPT + size <= MAX_BYTES
  {
    hide ReservationName, Charge, ValidEntry, NamedWith, Honest;
    var held := ReservationName(m, p);
    ReservationNamed(m, p);
    RemoveFile(d, held);
    ReservationCharge(held, d[held]);
    TotalSame(d, d - {held}, Counted(d, held));
  }

  /** Within the quota a held reservation leaves room for the largest receipt. */
  lemma ReservationGuarantees(m: Host, d: Dir, p: Prompt, size: int)
    requires Honest(m) && Good(m, d) && Within(d) && ReservationName(m, p) in d && 1 <= size <= MAX_RECEIPT
    ensures Admits(m, d, size, ReservationName(m, p))
  {
    hide Honest, Good, Admits, ReservationName;
    AdmitsReservedIff(m, d, p, size);
  }

  lemma ReservationCharge(n: string, f: File)
    requires NamedWith("reservation-", n)
    ensures Charge(n, f) == MAX_RECEIPT
  {
  }

  lemma ReservationGood(m: Host, d: Dir, b: Begin)
    requires Honest(m) && Good(m, d) && DecodesBegin(m, b)
    ensures Good(m, d[ReservationName(m, b.prompt) := ReservationFile(m, b.prompt)])
  {
    ReservationNamed(m, b.prompt);
    ReservationFits(m, b);
    assert ValidRecord(b.prompt);
    hide ReservationName, NamedWith, ReservationText, DecodesBegin, Honest, Digest;
    assert ValidReservation(m, ReservationName(m, b.prompt), ReservationFile(m, b.prompt));
  }

  lemma ReceiptGood(m: Host, d: Dir, q: Receive)
    requires Honest(m) && Good(m, d) && DecodesReceive(m, q)
    ensures Good(m, d[ReceiptName(m, q) := ReceiptFile(m, q)])
  {
    hide ReceiptName, NamedWith, ReceiptText, DecodesReceive, Honest, ValidReservation;
    ReceiptNamed(m, q);
    ReceiptFits(m, q);
    assert Private(ReceiptFile(m, q));
  }

  lemma ReserveGood(m: Host, d: Dir, b: Begin, d': Dir, r: Outcome)
    requires Honest(m) && Good(m, d) && Reserves(m, d, b, d', r)
    ensures Good(m, d')
  {
    hide ReservationName, NamedWith, Good, ValidReservation, DecodesBegin, ReservationFile, Admits;
    if d' != d {
      ReservationGood(m, d, b);
    }
  }

  lemma RemoveGood(m: Host, d: Dir, held: string)
    requires Good(m, d)
    ensures Good(m, d - {held})
  {
    hide ValidEntry, NamedWith;
    forall n | n in Entries(d - {held}) ensures n in Entries(d) {
    }
  }

  /** A death between receipt and release included. */
  lemma PersistGood(m: Host, d: Dir, q: Receive, dies: bool, d': Dir, r: Outcome)
    requires Honest(m) && Good(m, d) && Persists(m, d, q, dies, d', r)
    ensures Good(m, d')
  {
    hide ReceiptName, ReservationName, NamedWith, Good, ValidReservation, DecodesReceive, ReceiptFile, Admits;
    if d' != d {
      var name, held := ReceiptName(m, q), ReservationName(m, q.begin.prompt);
      var stored := if name in d then d else d[name := ReceiptFile(m, q)];
      if name !in d {
        ReceiptGood(m, d, q);
      }
      RemoveGood(m, stored, held);
    }
  }

  lemma ReserveKeeps(m: Host, d: Dir, b: Begin, d': Dir, r: Outcome)
    requires Honest(m) && Good(m, d) && Within(d) && Reserves(m, d, b, d', r)
    ensures Good(m, d') && Within(d')
  {
    if d' != d {
      hide ReservationName, NamedWith, Charge, Good, ValidEntry, DecodesBegin;
      ReservationNamed(m, b.prompt);
      ReservationGood(m, d, b);
      var name := ReservationName(m, b.prompt);
      ReservationCharge(name, ReservationFile(m, b.prompt));
      AddFile(d, name, ReservationFile(m, b.prompt));
      GoodNames(m, d);
    }
  }

  /** What a stored receipt costs: nothing more, once its reservation is gone. */
  lemma StoredWithin(m: Host, d: Dir, q: Receive)
    requires Honest(m) && Good(m, d) && Within(d) && ReceiptName(m, q) !in d
    requires DecodesReceive(m, q) && Admits(m, d, ReceiptSize(m, q), ReservationName(m, q.begin.prompt))
    ensures var stored := d[ReceiptName(m, q) := ReceiptFile(m, q)];
            Good(m, stored) && Within(stored - {ReservationName(m, q.begin.prompt)})
  {
    hide ReceiptName, ReservationName, NamedWith, Charge, Good, ValidEntry, ReceiptText, DecodesReceive, Honest, Digest;
    var name, held := ReceiptName(m, q), ReservationName(m, q.begin.prompt);
    var stored := d[name := ReceiptFile(m, q)];
    ReceiptNamed(m, q);
    ReservationNamed(m, q.begin.prompt);
    ReceiptGood(m, d, q);
    ReceiptCharge(name, ReceiptFile(m, q));
    GoodNames(m, d);
    if held in d {
      ReservationCharge(held, d[held]);
      Exchanged(d, name, ReceiptFile(m, q), held);
      hide Counted, Entries;
    } else {
      AddFile(d, name, ReceiptFile(m, q));
      assert Counted(d, held) == Entries(d) && stored - {held} == stored;
    }
  }

  lemma ReceiptCharge(n: string, f: File)
    requires !NamedWith("reservation-", n)
    ensures Charge(n, f) == f.size
  {
  }

  lemma GoodNames(m: Host, d: Dir)
    requires Good(m, d)
    ensures "" !in d
  {
  }

  lemma RemoveKeeps(m: Host, d: Dir, held: string)
    requires Good(m, d) && Within(d) && held != LOCK && held != ""
    ensures Good(m, d - {held}) && Within(d - {held})
  {
    var d' := d - {held};
    hide ValidEntry, NamedWith, Charge;
    assert Entries(d') <= Entries(d);
    TotalSame(d, d', Entries(d'));
    TotalMonotone(d, Entries(d'), Entries(d));
  }

  lemma PersistKeeps(m: Host, d: Dir, q: Receive, d': Dir, r: Outcome)
    requires Honest(m) && Good(m, d) && Within(d) && Persists(m, d, q, false, d', r)
    ensures Good(m, d') && Within(d')
  {
    hide ReceiptText, DecodesReceive, Honest, ValidReservation;
    var name, held := ReceiptName(m, q), ReservationName(m, q.begin.prompt);
    ReservationNamed(m, q.begin.prompt);
    if r == Done && name !in d {
      StoredWithin(m, d, q);
      var stored := d[name := ReceiptFile(m, q)];
      hide ReceiptName, ReservationName, NamedWith, ValidEntry, Admits;
      assert d' == stored - {held} && Good(m, stored);
      assert Entries(d') <= Entries(stored);
    } else {
      hide ReceiptName, ReservationName, NamedWith, ValidEntry, Admits, Good, Within;
      RemoveKeeps(m, d, held);
    }
  }

  /** A reserved attempt is never refused its receipt for capacity, nor for anything else. */
  lemma ReservedPersists(m: Host, d: Dir, q: Receive, d': Dir, r: Outcome)
    requires Honest(m) && Good(m, d) && Within(d) && Persists(m, d, q, false, d', r)
    requires DecodesReceive(m, q) && ReservationName(m, q.begin.prompt) in d
    requires ReceiptName(m, q) in d ==> d[ReceiptName(m, q)].body == OfReceipt(q)
    ensures r == Done
  {
    var name, held := ReceiptName(m, q), ReservationName(m, q.begin.prompt);
    ReservationNamed(m, q.begin.prompt);
    ReceiptNamed(m, q);
    assert ValidEntry(m, held, d[held]) && (name in d ==> ValidEntry(m, name, d[name]));
    ReceiptFits(m, q);
    hide ReceiptName, ReservationName, NamedWith, Admits, Good, ReceiptText, DecodesReceive, Honest;
    ReservationGuarantees(m, d, q.begin.prompt, ReceiptSize(m, q));
  }

  // ---------------------------------------------------------------- runs

  ghost predicate Step(m: Host, d: Dir, d': Dir)
  {
    (exists b, r :: Reserves(m, d, b, d', r)) || exists q, r :: Persists(m, d, q, false, d', r)
  }

  ghost predicate IsRun(m: Host, run: seq<Dir>)
  {
    && run != [] && run[0] == map[]
    && forall i :: 0 < i < |run| ==> Stepped(m, run, i)
  }

  ghost predicate Stepped(m: Host, run: seq<Dir>, i: nat)
    requires 0 < i < |run|
  {
    Step(m, run[i - 1], run[i])
  }

  /** Any interleaving of locked operations that complete keeps the directory within its quota. */
  lemma {:induction false} RunKeeps(m: Host, run: seq<Dir>, i: nat)
    requires Honest(m) && IsRun(m, run) && i < |run|
    ensures Good(m, run[i]) && Within(run[i])
  {
    hide Reserves, Persists, Good, Within, Honest;
    if i == 0 {
      EmptyWithin(m);
    } else {
      RunKeeps(m, run, i - 1);
      assert Stepped(m, run, i);
      var d, d' := run[i - 1], run[i];
      if b, r :| Reserves(m, d, b, d', r) {
        ReserveKeeps(m, d, b, d', r);
      } else {
        var q, r :| Persists(m, d, q, false, d', r);
        PersistKeeps(m, d, q, d', r);
      }
    }
  }

  lemma EmptyWithin(m: Host)
    ensures Good(m, map[]) && Within(map[])
  {
    assert Entries(map[]) == {};
  }

  // ---------------------------------------------------------------- a death between receipt and release

  lemma GoodEntries(m: Host, d: Dir, held: string)
    requires Good(m, d)
    ensures forall n :: n in Counted(d, held) ==> ValidEntry(m, n, d[n])
  {
    hide ValidEntry, NamedWith;
    forall n | n in Counted(d, held) ensures ValidEntry(m, n, d[n]) {
      assert n in Entries(d);
    }
  }

  /** A process that dies after writing its receipt leaves both the receipt and the reservation charged. */
  lemma DeathAdds(m: Host, d: Dir, q: Receive, dead: Dir)
    requires Honest(m) && Good(m, d) && Persists(m, d, q, true, dead, Died) && ReceiptName(m, q) !in d
    ensures Good(m, dead) && |Entries(dead)| == |Entries(d)| + 1
    ensures Total(dead, Entries(dead)) == Total(d, Entries(d)) + ReceiptSize(m, q)
    ensures forall n :: n in d ==> n in dead && dead[n] == d[n]
  {
    hide ReceiptText, DecodesReceive, Honest, ValidReservation, ReservationName, NamedWith, Admits, Good, Charge;
    assert dead == d[ReceiptName(m, q) := ReceiptFile(m, q)];
    hide ReceiptName;
    ReceiptNamed(m, q);
    ReceiptGood(m, d, q);
    ReceiptCharge(ReceiptName(m, q), ReceiptFile(m, q));
    AddFile(d, ReceiptName(m, q), ReceiptFile(m, q));
  }

  /**
    After such a death in any good directory, and so after any number of them, another
    reserved attempt is admitted exactly if the receipt counted twice still leaves room.
   */
  lemma AfterDeathAdmitsIff(m: Host, d: Dir, q: Receive, dead: Dir, other: Prompt, size: int)
    requires Honest(m) && Good(m, d) && Persists(m, d, q, true, dead, Died) && ReceiptName(m, q) !in d
    requires ReservationName(m, other) in d && 1 <= size <= MAX_RECEIPT
    ensures Admits(m, dead, size, ReservationName(m, other)) <==>
            && |Entries(d)| + 1 <= MAX_ENTRIES
            && Total(d, Entries(d)) + ReceiptSize(m, q) - MAX_RECEIPT + size <= MAX_BYTES
  {
    hide Honest, Good, Persists, Admits, ReservationName, ReceiptName, ReceiptSize;
    DeathAdds(m, d, q, dead);
    AdmitsReservedIff(m, dead, other, size);
  }

  /** Replaying the same request finishes what the dead process began, as if it had not died. */
  lemma ReplayRepairs(m: Host, d: Dir, q: Receive, dead: Dir, d': Dir, r: Outcome)
    requires Honest(m) && Good(m, d)
    requires Persists(m, d, q, true, dead, Died) && Persists(m, dead, q, false, d', r)
    ensures r == Done && Persists(m, d, q, false, d', Done) && (Within(d) ==> Good(m, d') && Within(d'))
  {
    hide ReceiptText, DecodesReceive, Honest, Admits;
    var name, held := ReceiptName(m, q), ReservationName(m, q.begin.prompt);
    ReceiptNamed(m, q);
    NamesDiffer(m, q.begin.prompt, q);
    if DecodesReceive(m, q) {
      ReceiptFits(m, q);
    }
    assert name in d ==> ValidEntry(m, name, d[name]);
    hide ReceiptName, ReservationName, NamedWith, Good, Within, ValidReservation;
    assert Private(dead[name]);
    assert r == Done && d' == dead - {held};
    if Within(d) {
      PersistKeeps(m, d, q, d', Done);
    }
  }

  /**
    A file that a death left partly written: empty, or under a reservation's name, it
    refuses every later admission; part of a receipt is only charged.
   */
  lemma TornFileAdmitsIff(m: Host, d: Dir, n: string, size: nat, incoming: int, replacing: string)
    requires Honest(m) && Good(m, d) && n !in d && n != LOCK && n != replacing
    ensures var torn := d[n := File(true, size, Garbage)];
            var names := Counted(torn, replacing);
            Admits(m, torn, incoming, replacing) <==>
            && NamedWith("receipt-", n) && 1 <= size <= MAX_RECEIPT && 1 <= incoming <= MAX_RECEIPT
            && |names| < MAX_ENTRIES && Total(torn, names) + incoming <= MAX_BYTES
  {
    var torn := d[n := File(true, size, Garbage)];
    GoodEntries(m, d, replacing);
    assert Counted(torn, replacing) == Counted(d, replacing) + {n};
    assert ValidEntry(m, n, torn[n]) <==> NamedWith("receipt-", n) && 1 <= size <= MAX_RECEIPT;
    hide ValidEntry, NamedWith, Good, Honest;
  }
}
