/**
  What the two operations on the receipts directory answer, and what no operation ever does:
  alter a receipt, or hand out a reservation twice.
 */
module AcpAnswers {
  import opened AcpRequests
  import opened AcpQuota

  /** A good directory with room for one more file of this charge. */
  ghost predicate HasRoom(d: Dir, charge: int)
  {
    |Entries(d)| < 1024 && Total(d, Entries(d)) + charge <= 16 * 1024 * 1024
  }

  lemma FreshAdmitsIff(m: Host, d: Dir, size: int)
    requires Good(m, d) && 1 <= size <= MAX_RECEIPT
    ensures Admits(m, d, size, "") <==> HasRoom(d, size)
  {
    hide ValidEntry, NamedWith;
    GoodEntries(m, d, "");
    hide Good;
  }

  /**
    A begin request is answered: invalid, if it does not decode; unknown, if the prompt was
    reserved before; reserved, if 64 KiB are free for its receipt; else there is no capacity.
   */
  lemma ReserveIff(m: Host, d: Dir, b: Begin, d': Dir, r: Outcome)
    requires Honest(m) && Good(m, d) && Reserves(m, d, b, d', r)
    ensures var name := ReservationName(m, b.prompt);
            && (r == Invalid <==> !DecodesBegin(m, b))
            && (r == PromptUnknown <==> DecodesBegin(m, b) && name in d)
            && (r == Done <==> DecodesBegin(m, b) && name !in d && HasRoom(d, 64 * 1024))
            && (r == Capacity <==> DecodesBegin(m, b) && name !in d && !HasRoom(d, 64 * 1024))
            && d' == if r == Done then d[name := ReservationFile(m, b.prompt)] else d
  {
    hide DecodesBegin, ReservationName, Honest, Admits, HasRoom, ReservationFile, NamedWith, ValidReservation;
    FreshAdmitsIff(m, d, MAX_RECEIPT);
    GoodEntries(m, d, "");
    if ReservationName(m, b.prompt) in d {
      ReservedValid(m, d, b.prompt);
    }
    hide Good, ValidEntry;
  }

  lemma ReservedValid(m: Host, d: Dir, p: Prompt)
    requires Honest(m) && Good(m, d) && ReservationName(m, p) in d
    ensures ValidReservation(m, ReservationName(m, p), d[ReservationName(m, p)])
  {
    hide ReservationName, NamedWith, Honest;
    ReservationNamed(m, p);
    assert ValidEntry(m, ReservationName(m, p), d[ReservationName(m, p)]);
  }

  /** What is stored under the name of a receipt. */
  predicate Stored(d: Dir, n: string, q: Receive)
  {
    n in d && d[n].body == OfReceipt(q)
  }

  /**
    The answers to a receive request: invalid, if it does not decode; a conflict, if its attempt
    has another receipt; done, if it has this one or there is room without its reservation,
    and then it is there, the reservation is not, and nothing else has changed.
   */
  ghost predicate PersistAnswered(m: Host, d: Dir, q: Receive, d': Dir, r: Outcome)
  {
    var name, held := ReceiptName(m, q), ReservationName(m, q.begin.prompt);
    var room := Admits(m, d, ReceiptSize(m, q), held);
    && (r == Invalid <==> !DecodesReceive(m, q))
    && (r == Conflict <==> DecodesReceive(m, q) && name in d && !Stored(d, name, q))
    && (r == Done <==> DecodesReceive(m, q) && (Stored(d, name, q) || (name !in d && room)))
    && (r == Capacity <==> DecodesReceive(m, q) && name !in d && !room)
    && (r != Done ==> d' == d)
    && (r == Done ==> Stored(d', name, q) && held !in d' && Apart(d, d', {name, held}))
  }

  lemma PersistIff(m: Host, d: Dir, q: Receive, d': Dir, r: Outcome)
    requires Honest(m) && Good(m, d) && Persists(m, d, q, false, d', r)
    ensures PersistAnswered(m, d, q, d', r)
  {
    hide DecodesReceive, ReservationName, ReceiptName, Honest, Admits, ReceiptSize, NamedWith, ValidReservation;
    NamesDiffer(m, q.begin.prompt, q);
    PersistGood(m, d, q);
    if DecodesReceive(m, q) {
      SizeAllowed(m, q);
    }
    GoodEntries(m, d, ReservationName(m, q.begin.prompt));
    hide Good, ValidEntry;
  }

  /** In a good directory what has the names of an attempt is intact. */
  lemma PersistGood(m: Host, d: Dir, q: Receive)
    requires Honest(m) && Good(m, d)
    ensures var name, held := ReceiptName(m, q), ReservationName(m, q.begin.prompt);
            (held in d ==> ValidReservation(m, held, d[held])) && (name in d ==> HoldsReceipt(d, name))
  {
    hide NamedWith, Honest, ReceiptName;
    ReceiptNamed(m, q);
    if ReservationName(m, q.begin.prompt) in d {
      ReservedValid(m, d, q.begin.prompt);
    }
    if ReceiptName(m, q) in d {
      assert ValidEntry(m, ReceiptName(m, q), d[ReceiptName(m, q)]);
    }
  }

  lemma SizeAllowed(m: Host, q: Receive)
    requires Honest(m) && DecodesReceive(m, q)
    ensures 1 <= ReceiptSize(m, q) <= MAX_RECEIPT
  {
    hide ReceiptText, DecodesReceive, Honest;
    ReceiptFits(m, q);
  }

  // ---------------------------------------------------------------- whatever is in the directory

  /** A private file within the limit of 64 KiB. */
  predicate Kept(d: Dir, n: string)
  {
    n in d && d[n].trusted && 1 <= d[n].size <= 64 * 1024
  }

  /** The reservation of a prompt, intact: nothing is missing of the prompt, and it has this name. */
  predicate HoldsReservation(m: Host, d: Dir, n: string)
  {
    Kept(d, n) && d[n].body.OfReservation? &&
    var p := d[n].body.reserved;
    && p.binding != "" && p.epoch != 0 && p.session != "" && p.batch != "" && p.attempt != ""
    && |p.render| == 64 && |p.prompt| == 64 && p.ordinal >= 1
    && n == "reservation-" + m.reservationDigest(p) + ".json"
  }

  predicate HoldsReceipt(d: Dir, n: string)
  {
    Kept(d, n) && d[n].body.OfReceipt?
  }

  /** Nothing but the files of these names has changed. */
  ghost predicate Apart(d: Dir, d': Dir, names: set<string>)
  {
    forall n :: n !in names ==> (n in d <==> n in d') && (n in d ==> d'[n] == d[n])
  }

  /** A name that is taken is never reserved again, and answers as reserved only if an intact reservation has it. */
  lemma ReserveAnyIff(m: Host, d: Dir, b: Begin, d': Dir, r: Outcome)
    requires Reserves(m, d, b, d', r)
    ensures var name := ReservationName(m, b.prompt);
            && (r == PromptUnknown <==> DecodesBegin(m, b) && HoldsReservation(m, d, name))
            && (r == Done <==> DecodesBegin(m, b) && name !in d && Admits(m, d, 64 * 1024, ""))
            && (r == Capacity ==> DecodesBegin(m, b) && name !in d)
            && (r in {PromptUnknown, Done, Capacity, Invalid}) && (r != Done ==> d' == d)
            && (r == Done ==>
                  name in d' && d'[name].trusted && d'[name].body == OfReservation(b.prompt) && Apart(d, d', {name}))
  {
    hide Admits, DecodesBegin, ReservationText, NamedWith, ValidEntry;
  }

  /** A damaged reservation or receipt of the attempt is in the way; else the request is answered by what is there. */
  lemma PersistAnyIff(m: Host, d: Dir, q: Receive, d': Dir, r: Outcome)
    requires Persists(m, d, q, false, d', r)
    ensures var name, held := ReceiptName(m, q), ReservationName(m, q.begin.prompt);
            var taken := DecodesReceive(m, q) && (held in d ==> HoldsReservation(m, d, held));
            && (r == Conflict <==> taken && HoldsReceipt(d, name) && !Stored(d, name, q))
            && (r == Done <==>
                  taken && if name in d then HoldsReceipt(d, name) && Stored(d, name, q)
                           else Admits(m, d, ReceiptSize(m, q), held))
            && (r == Capacity ==> taken && name !in d)
            && (r in {Conflict, Done, Capacity, Invalid}) && (r != Done ==> d' == d)
            && (r == Done ==> Stored(d', name, q) && held !in d' && Apart(d, d', {name, held}))
  {
    hide Admits, DecodesReceive, ReceiptText, NamedWith, ValidEntry;
    NamesDiffer(m, q.begin.prompt, q);
  }

  // ---------------------------------------------------------------- over any run

  /** An operation that completes or dies after its receipt. */
  ghost predicate AnyStep(m: Host, d: Dir, d': Dir)
  {
    (exists b, r :: Reserves(m, d, b, d', r)) || exists q, dies, r :: Persists(m, d, q, dies, d', r)
  }

  ghost predicate AnyRun(m: Host, run: seq<Dir>)
  {
    run != [] && Good(m, run[0]) && forall i :: 0 < i < |run| ==> AnyNext(m, run, i)
  }

  ghost predicate AnyNext(m: Host, run: seq<Dir>, i: nat)
    requires 0 < i < |run|
  {
    AnyStep(m, run[i - 1], run[i])
  }

  lemma StepKeepsReceipt(m: Host, d: Dir, d': Dir, n: string)
    requires Honest(m) && AnyStep(m, d, d') && n in d && NamedWith("receipt-", n)
    ensures n in d' && d'[n] == d[n]
  {
    hide NamedWith, Honest, Reserves, Persists;
    if b, r :| Reserves(m, d, b, d', r) {
      ReserveKeepsOthers(m, d, b, d', r, n);
    } else {
      var q, dies, r :| Persists(m, d, q, dies, d', r);
      PersistKeepsReceipt(m, d, q, dies, d', r, n);
    }
  }

  lemma ReserveKeepsOthers(m: Host, d: Dir, b: Begin, d': Dir, r: Outcome, n: string)
    requires Reserves(m, d, b, d', r) && n in d
    ensures n in d' && d'[n] == d[n]
  {
    hide DecodesBegin, ReservationName, Admits, ValidReservation, ReservationFile;
  }

  lemma PersistKeepsReceipt(m: Host, d: Dir, q: Receive, dies: bool, d': Dir, r: Outcome, n: string)
    requires Honest(m) && Persists(m, d, q, dies, d', r) && n in d && NamedWith("receipt-", n)
    ensures n in d' && d'[n] == d[n]
  {
    hide DecodesReceive, ReservationName, ReceiptName, Admits, ValidReservation, ReceiptFile, NamedWith, Honest;
    ReservationNamed(m, q.begin.prompt);
  }

  /** Once stored a receipt stays, unaltered, whatever operations follow and die. */
  lemma {:induction false} ReceiptStays(m: Host, run: seq<Dir>, i: nat, j: nat, n: string)
    requires Honest(m) && AnyRun(m, run) && i <= j < |run| && n in run[i] && NamedWith("receipt-", n)
    ensures n in run[j] && run[j][n] == run[i][n]
    decreases j
  {
    hide AnyStep, NamedWith, Honest, Good;
    if i < j {
      ReceiptStays(m, run, i, j - 1, n);
      assert AnyNext(m, run, j);
      StepKeepsReceipt(m, run[j - 1], run[j], n);
    }
  }

  /** A reserved prompt is not reserved again while it is held. */
  lemma ReservedOnce(m: Host, d: Dir, b: Begin, held: Dir, again: Dir, r: Outcome)
    requires Honest(m) && Good(m, d) && Reserves(m, d, b, held, Done) && Reserves(m, held, b, again, r)
    ensures r == PromptUnknown && again == held
  {
    hide Reserves, DecodesBegin, HasRoom, Good, Honest;
    ReserveIff(m, d, b, held, Done);
    ReserveGood(m, d, b, held, Done);
    ReserveIff(m, held, b, again, r);
  }
}
