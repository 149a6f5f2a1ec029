/**
  A directory at its entry limit, reached by completed operations, where the death of one
  process takes the next reserved receipt its place.
 */
module AcpFailure {
  import opened JsonText
  import opened AcpRequests
  import opened AcpQuota

  /** A begin request that decodes and the receive request of its prompt. */
  datatype Attempt = Attempt(begin: Begin, receive: Receive)

  const SMALL := 16000

  /** Decodable attempts of different names with receipts of moderate size. */
  ghost predicate Attempts(m: Host, xs: seq<Attempt>)
  {
    && (forall i :: 0 <= i < |xs| ==> Complete(m, xs[i]))
    && (forall i, j :: 0 <= i < j < |xs| ==>
          && ReservationName(m, xs[i].begin.prompt) != ReservationName(m, xs[j].begin.prompt)
          && ReceiptName(m, xs[i].receive) != ReceiptName(m, xs[j].receive))
  }

  predicate Complete(m: Host, x: Attempt)
  {
    && DecodesBegin(m, x.begin) && DecodesReceive(m, x.receive) && x.receive.begin.prompt == x.begin.prompt
    && ReceiptSize(m, x.receive) <= SMALL
  }

  /** The directory of the first `n` attempts' receipts. */
  function Receipts(m: Host, xs: seq<Attempt>, n: nat): Dir
    requires n <= |xs|
  {
    if n == 0 then map[]
    else
      var q := xs[n - 1].receive;
      Receipts(m, xs, n - 1)[ReceiptName(m, q) := ReceiptFile(m, q)]
  }

  lemma {:induction false} ReceiptsKeys(m: Host, xs: seq<Attempt>, n: nat, name: string)
    requires n <= |xs| && name in Receipts(m, xs, n)
    ensures exists i :: 0 <= i < n && name == ReceiptName(m, xs[i].receive)
  {
    hide ReceiptName, ReceiptFile;
    if name != ReceiptName(m, xs[n - 1].receive) {
      ReceiptsKeys(m, xs, n - 1, name);
    }
  }

  lemma NotYet(m: Host, xs: seq<Attempt>, n: nat, k: nat)
    requires n <= k < |xs| && Attempts(m, xs)
    ensures ReceiptName(m, xs[k].receive) !in Receipts(m, xs, n)
            && ReservationName(m, xs[k].begin.prompt) !in Receipts(m, xs, n)
  {
    hide Complete, ReceiptName, ReservationName, Receipts;
    if ReceiptName(m, xs[k].receive) in Receipts(m, xs, n) {
      ReceiptsKeys(m, xs, n, ReceiptName(m, xs[k].receive));
    }
    if ReservationName(m, xs[k].begin.prompt) in Receipts(m, xs, n) {
      ReceiptsKeys(m, xs, n, ReservationName(m, xs[k].begin.prompt));
      var i :| 0 <= i < n && ReservationName(m, xs[k].begin.prompt) == ReceiptName(m, xs[i].receive);
      NamesDiffer(m, xs[k].begin.prompt, xs[i].receive);
    }
  }

  /** A reservation admitted into a directory with room for it. */
  lemma ReserveOne(m: Host, d: Dir, b: Begin)
    requires Honest(m) && Good(m, d) && DecodesBegin(m, b) && ReservationName(m, b.prompt) !in d
    requires |Entries(d)| < MAX_ENTRIES && Total(d, Entries(d)) + MAX_RECEIPT <= MAX_BYTES
    ensures var d' := d[ReservationName(m, b.prompt) := ReservationFile(m, b.prompt)];
            && Reserves(m, d, b, d', Done) && Good(m, d')
            && |Entries(d')| == |Entries(d)| + 1 && Total(d', Entries(d')) == Total(d, Entries(d)) + MAX_RECEIPT
  {
    hide DecodesBegin, ReservationName, Honest, Charge, ReservationFile, ValidReservation;
    var name := ReservationName(m, b.prompt);
    GoodEntries(m, d, "");
    ReservationGood(m, d, b);
    hide Good, ValidEntry;
    ReservationNamed(m, b.prompt);
    ReservationCharge(name, ReservationFile(m, b.prompt));
    AddFile(d, name, ReservationFile(m, b.prompt));
  }

  lemma Exchange<K, V>(d: map<K, V>, k: K, v: V, n: K, w: V)
    requires k !in d && n != k
    ensures d[k := v][n := w] - {k} == d[n := w]
  {
  }

  /** One attempt from its reservation to its receipt. */
  lemma CompleteOne(m: Host, d: Dir, x: Attempt) returns (held: Dir)
    requires Honest(m) && Good(m, d) && Complete(m, x)
    requires ReservationName(m, x.begin.prompt) !in d && ReceiptName(m, x.receive) !in d
    requires |Entries(d)| < MAX_ENTRIES && Total(d, Entries(d)) + MAX_RECEIPT <= MAX_BYTES
    ensures var d' := d[ReceiptName(m, x.receive) := ReceiptFile(m, x.receive)];
            && Reserves(m, d, x.begin, held, Done) && Persists(m, held, x.receive, false, d', Done)
            && Good(m, d') && |Entries(d')| == |Entries(d)| + 1
            && Total(d', Entries(d')) <= Total(d, Entries(d)) + SMALL
  {
    hide DecodesBegin, DecodesReceive, ReservationName, ReceiptName, Honest, Charge, NamedWith, ReceiptText,
      ReservationFile;
    var name, res := ReceiptName(m, x.receive), ReservationName(m, x.begin.prompt);
    held := d[res := ReservationFile(m, x.begin.prompt)];
    ReserveOne(m, d, x.begin);
    NamesDiffer(m, x.begin.prompt, x.receive);
    ReceiptFits(m, x.receive);
    HeldValid(m, held, x.begin.prompt);
    ReservationGuarantees(m, held, x.begin.prompt, ReceiptSize(m, x.receive));
    Exchange(d, res, ReservationFile(m, x.begin.prompt), name, ReceiptFile(m, x.receive));
    ReceiptNamed(m, x.receive);
    ReceiptGood(m, d, x.receive);
    ReceiptCharge(name, ReceiptFile(m, x.receive));
    AddFile(d, name, ReceiptFile(m, x.receive));
    hide Good, Admits, ValidReservation;
  }

  lemma HeldValid(m: Host, d: Dir, p: Prompt)
    requires Honest(m) && Good(m, d) && ReservationName(m, p) in d
    ensures ValidReservation(m, ReservationName(m, p), d[ReservationName(m, p)])
  {
    hide ReservationName, NamedWith, Honest;
    ReservationNamed(m, p);
    assert ValidEntry(m, ReservationName(m, p), d[ReservationName(m, p)]);
  }

  lemma RunOneMore(m: Host, run: seq<Dir>, d: Dir)
    requires IsRun(m, run) && Step(m, run[|run| - 1], d)
    ensures IsRun(m, run + [d])
  {
    hide Step;
    var more := run + [d];
    forall i | 0 < i < |more| ensures Stepped(m, more, i) {
      if i < |run| {
        assert Stepped(m, run, i);
        assert more[i - 1] == run[i - 1] && more[i] == run[i];
      }
    }
  }

  lemma RunAttempt(m: Host, run: seq<Dir>, x: Attempt) returns (more: seq<Dir>)
    requires Honest(m) && IsRun(m, run) && Good(m, run[|run| - 1]) && Complete(m, x)
    requires ReservationName(m, x.begin.prompt) !in run[|run| - 1] && ReceiptName(m, x.receive) !in run[|run| - 1]
    requires var d := run[|run| - 1]; |Entries(d)| < MAX_ENTRIES && Total(d, Entries(d)) + MAX_RECEIPT <= MAX_BYTES
    ensures var d := run[|run| - 1];
            var d' := d[ReceiptName(m, x.receive) := ReceiptFile(m, x.receive)];
            && IsRun(m, more) && more[|more| - 1] == d'
            && Good(m, d') && |Entries(d')| == |Entries(d)| + 1
            && Total(d', Entries(d')) <= Total(d, Entries(d)) + SMALL
  {
    hide Reserves, Persists, Good, Honest, ReceiptName, ReservationName, Complete, ReceiptFile, Entries, Total, Stepped;
    assert run != [];
    hide IsRun;
    var d := run[|run| - 1];
    var d' := d[ReceiptName(m, x.receive) := ReceiptFile(m, x.receive)];
    var held := CompleteOne(m, d, x);
    RunOneMore(m, run, held);
    RunOneMore(m, run + [held], d');
    more := run + [held] + [d'];
  }

  /** The receipts of `n` attempts, by reserving and persisting one after the other. */
  lemma {:induction false} RunReceipts(m: Host, xs: seq<Attempt>, n: nat) returns (run: seq<Dir>)
    requires Honest(m) && Attempts(m, xs) && n <= |xs| && n <= MAX_ENTRIES - 2
    ensures IsRun(m, run) && run[|run| - 1] == Receipts(m, xs, n)
    ensures var d := Receipts(m, xs, n); Good(m, d) && |Entries(d)| == n && Total(d, Entries(d)) <= SMALL * n
  {
    hide Good, Honest, ReceiptName, ReservationName, Complete, ReceiptFile, Entries, Stepped;
    if n == 0 {
      EmptyWithin(m);
      run := [map[]];
      NoEntries();
    } else {
      run := RunReceipts(m, xs, n - 1);
      NotYet(m, xs, n - 1, n - 1);
      assert Complete(m, xs[n - 1]);
      hide IsRun;
      run := RunAttempt(m, run, xs[n - 1]);
    }
  }

  lemma NoEntries()
    ensures Entries(map[]) == {}
  {
  }

  function TwoReserved(m: Host, d: Dir, a: Prompt, b: Prompt): Dir
  {
    d[ReservationName(m, a) := ReservationFile(m, a)][ReservationName(m, b) := ReservationFile(m, b)]
  }

  /** 1022 receipts and two reservations. */
  function Full(m: Host, xs: seq<Attempt>): Dir
    requires |xs| == MAX_ENTRIES
  {
    TwoReserved(m, Receipts(m, xs, 1022), xs[1022].begin.prompt, xs[1023].begin.prompt)
  }

  lemma TwoReservedNames(m: Host, d: Dir, a: Prompt, b: Prompt, q: Receive)
    requires ReceiptName(m, q) !in d
    ensures var d' := TwoReserved(m, d, a, b);
            ReservationName(m, a) in d' && ReservationName(m, b) in d' && ReceiptName(m, q) !in d'
  {
    NamesDiffer(m, a, q);
    NamesDiffer(m, b, q);
    hide ReservationName, ReceiptName, ReservationFile;
  }

  lemma ReserveTwo(m: Host, d: Dir, a: Begin, b: Begin) returns (d1: Dir)
    requires Honest(m) && Good(m, d) && DecodesBegin(m, a) && DecodesBegin(m, b)
    requires ReservationName(m, a.prompt) !in d && ReservationName(m, b.prompt) !in d
    requires ReservationName(m, a.prompt) != ReservationName(m, b.prompt)
    requires |Entries(d)| == MAX_ENTRIES - 2 && Total(d, Entries(d)) + 2 * MAX_RECEIPT <= MAX_BYTES
    ensures var d' := TwoReserved(m, d, a.prompt, b.prompt);
            && Reserves(m, d, a, d1, Done) && Reserves(m, d1, b, d', Done)
            && Good(m, d') && |Entries(d')| == MAX_ENTRIES && Total(d', Entries(d')) <= MAX_BYTES
  {
    hide Honest, ReservationName, ReservationFile, Good, DecodesBegin, Entries, Reserves;
    d1 := d[ReservationName(m, a.prompt) := ReservationFile(m, a.prompt)];
    ReserveOne(m, d, a);
    ReserveOne(m, d1, b);
  }

  lemma RunReserveTwo(m: Host, run: seq<Dir>, a: Begin, d1: Dir, b: Begin, d2: Dir)
    requires IsRun(m, run) && Reserves(m, run[|run| - 1], a, d1, Done) && Reserves(m, d1, b, d2, Done)
    ensures IsRun(m, run + [d1] + [d2])
  {
    hide Reserves, Persists;
    RunOneMore(m, run, d1);
    RunOneMore(m, run + [d1], d2);
  }

  lemma RunFull(m: Host, xs: seq<Attempt>) returns (run: seq<Dir>)
    requires Honest(m) && Attempts(m, xs) && |xs| == MAX_ENTRIES
    ensures IsRun(m, run) && run[|run| - 1] == Full(m, xs)
    ensures var d := Full(m, xs); Good(m, d) && |Entries(d)| == MAX_ENTRIES && Total(d, Entries(d)) <= MAX_BYTES
  {
    hide Attempts, Complete, Honest, ReceiptName, ReservationName, Receipts, Good, DecodesBegin, Entries, IsRun,
      TwoReserved, Reserves;
    var x, y := xs[1022], xs[1023];
    AttemptFacts(m, xs, 1022, 1023);
    NotYet(m, xs, 1022, 1022);
    NotYet(m, xs, 1022, 1023);
    run := RunReceipts(m, xs, 1022);
    var d := Receipts(m, xs, 1022);
    var d1 := ReserveTwo(m, d, x.begin, y.begin);
    RunReserveTwo(m, run, x.begin, d1, y.begin, Full(m, xs));
    run := run + [d1] + [Full(m, xs)];
  }

  lemma AttemptFacts(m: Host, xs: seq<Attempt>, i: nat, j: nat)
    requires Attempts(m, xs) && i < j < |xs|
    ensures Complete(m, xs[i]) && Complete(m, xs[j]) && DecodesBegin(m, xs[i].begin) && DecodesBegin(m, xs[j].begin)
    ensures ReservationName(m, xs[i].begin.prompt) != ReservationName(m, xs[j].begin.prompt)
    ensures ReceiptName(m, xs[i].receive) != ReceiptName(m, xs[j].receive)
  {
    hide DecodesBegin, DecodesReceive, ReservationName, ReceiptName, ReceiptSize;
  }

  lemma FullNames(m: Host, xs: seq<Attempt>)
    requires Attempts(m, xs) && |xs| == MAX_ENTRIES
    ensures ReservationName(m, xs[1022].begin.prompt) in Full(m, xs)
            && ReservationName(m, xs[1023].begin.prompt) in Full(m, xs)
    ensures ReceiptName(m, xs[1022].receive) !in Full(m, xs) && ReceiptName(m, xs[1023].receive) !in Full(m, xs)
  {
    hide Receipts, TwoReserved, ReceiptName, ReservationName, Complete;
    NotYet(m, xs, 1022, 1022);
    NotYet(m, xs, 1022, 1023);
    var d := Receipts(m, xs, 1022);
    TwoReservedNames(m, d, xs[1022].begin.prompt, xs[1023].begin.prompt, xs[1022].receive);
    TwoReservedNames(m, d, xs[1022].begin.prompt, xs[1023].begin.prompt, xs[1023].receive);
  }

  /**
    The guarantee fails: from a directory that completed operations reach, one process dies
    between its receipt and its release, and the other reserved receipt, of any size, is
    refused for capacity.
   */
  lemma GuaranteeFails(m: Host, xs: seq<Attempt>) returns (run: seq<Dir>, dead: Dir)
    requires Honest(m) && Attempts(m, xs) && |xs| == MAX_ENTRIES
    ensures IsRun(m, run) && run[|run| - 1] == Full(m, xs) && ReservationName(m, xs[1023].begin.prompt) in dead
    ensures Persists(m, Full(m, xs), xs[1022].receive, true, dead, Died)
    ensures Persists(m, dead, xs[1023].receive, false, dead, Capacity)
  {
    hide Honest, ReceiptName, ReservationName, ReceiptFile, Good, Complete, Entries, Full, Persists, IsRun, Attempts;
    var x, y := xs[1022], xs[1023];
    AttemptFacts(m, xs, 1022, 1023);
    run := RunFull(m, xs);
    FullNames(m, xs);
    dead := DieOne(m, Full(m, xs), x);
    RefuseOne(m, Full(m, xs), x, dead, y);
  }

  lemma DieOne(m: Host, d: Dir, x: Attempt) returns (dead: Dir)
    requires Honest(m) && Good(m, d) && Within(d) && Complete(m, x)
    requires ReservationName(m, x.begin.prompt) in d && ReceiptName(m, x.receive) !in d
    ensures dead == d[ReceiptName(m, x.receive) := ReceiptFile(m, x.receive)]
    ensures Persists(m, d, x.receive, true, dead, Died)
  {
    hide Honest, Good, ReceiptText, DecodesReceive, DecodesBegin, Admits, ReceiptName, ReservationName, NamedWith;
    dead := d[ReceiptName(m, x.receive) := ReceiptFile(m, x.receive)];
    ReceiptFits(m, x.receive);
    ReservationGuarantees(m, d, x.begin.prompt, ReceiptSize(m, x.receive));
    HeldValid(m, d, x.begin.prompt);
    hide ValidReservation;
  }

  lemma RefuseOne(m: Host, d: Dir, x: Attempt, dead: Dir, y: Attempt)
    requires Honest(m) && Good(m, d) && |Entries(d)| == MAX_ENTRIES && Complete(m, x) && Complete(m, y)
    requires Persists(m, d, x.receive, true, dead, Died) && ReceiptName(m, x.receive) !in d
    requires ReservationName(m, y.begin.prompt) in d && ReceiptName(m, y.receive) !in dead
    ensures Persists(m, dead, y.receive, false, dead, Capacity) && ReservationName(m, y.begin.prompt) in dead
  {
    hide Honest, Good, ReceiptText, DecodesReceive, DecodesBegin, ReceiptName, ReservationName, NamedWith,
      ValidReservation, ValidEntry;
    DeathAdds(m, d, x.receive, dead);
    ReceiptFits(m, y.receive);
    AfterDeathAdmitsIff(m, d, x.receive, dead, y.begin.prompt, ReceiptSize(m, y.receive));
    HeldValid(m, dead, y.begin.prompt);
    GoodEntries(m, dead, ReservationName(m, y.begin.prompt));
    hide Admits;
  }

  // ---------------------------------------------------------------- such attempts exist

  /** `n` below 4096 as three hexadecimal digits and 61 zeros. */
  function Hex64(n: int): string
  {
    [HexChar(n / 256 % 16), HexChar(n / 16 % 16), HexChar(n % 16)] + seq(61, _ => '0')
  }

  function HexChar(n: nat): char
    requires n < 16
  {
    if n < 10 then ('0' as int + n) as char else ('a' as int + n - 10) as char
  }

  /** A host that tells attempts apart by their epoch. */
  function PlainHost(): Host
  {
    Host((p: Prompt) => Hex64(p.epoch), (b: string, e: int, a: string) => Hex64(e), (p: Prompt) => "r",
         (p: Prompt, rpc: int, response: string, stop: string) => "r", (s: string) => true, (s: string) => true,
         (s: string) => "\"" + s + "\"")
  }

  function AttemptOf(n: nat): Attempt
  {
    var hash := seq(64, _ => '0');
    var b := Begin(Prompt("b", n + 1, "s", "t", "a", hash, hash, 1), "r", "/c", "/d", "k");
    Attempt(b, Receive(b, 4, hash, "end"))
  }

  lemma HexCharDiffers(x: nat, y: nat)
    requires x < 16 && y < 16 && HexChar(x) == HexChar(y)
    ensures x == y
  {
  }

  lemma ThreeDigits(n: nat)
    requires n < 4096
    ensures n == 256 * (n / 256 % 16) + 16 * (n / 16 % 16) + n % 16
  {
    assert n / 256 == n / 16 / 16;
  }

  lemma HexDiffers(m: nat, n: nat)
    requires m < 4096 && n < 4096 && Hex64(m) == Hex64(n)
    ensures m == n
  {
    var x, y := Hex64(m), Hex64(n);
    assert x[0] == y[0] && x[1] == y[1] && x[2] == y[2];
    HexCharDiffers(m / 256 % 16, n / 256 % 16);
    HexCharDiffers(m / 16 % 16, n / 16 % 16);
    HexCharDiffers(m % 16, n % 16);
    hide Hex64, HexChar;
    ThreeDigits(m);
    ThreeDigits(n);
  }

  lemma PlainHonest()
    ensures Honest(PlainHost())
  {
    forall n ensures Digest(Hex64(n)) {
    }
    hide Digest, Hex64;
  }

  lemma PlainTexts(n: nat)
    requires |Decimal(n + 1)| <= 19
    ensures |OwnerText(PlainHost(), AttemptOf(n).begin)| <= 500
    ensures |BatchText(PlainHost(), AttemptOf(n).begin)| <= 500
  {
    hide Decimal, Hex64;
  }

  lemma PlainDecodes(n: nat)
    requires n < MAX_ENTRIES
    ensures DecodesBegin(PlainHost(), AttemptOf(n).begin) && DecodesReceive(PlainHost(), AttemptOf(n).receive)
  {
    hide Hex64;
  }

  lemma PlainAttempt(n: nat)
    requires n < MAX_ENTRIES
    ensures Complete(PlainHost(), AttemptOf(n))
  {
    hide Decimal, DecodesBegin, DecodesReceive, Hex64, OwnerText, BatchText;
    var m, x := PlainHost(), AttemptOf(n);
    PlainDecodes(n);
    Int64Digits(n + 1);
    Int64Digits(1);
    Int64Digits(4);
    PlainTexts(n);
    assert ReceiptSize(m, x.receive) <= SMALL;
  }

  /** The hypotheses of `GuaranteeFails` are met, by small attempts. */
  lemma AttemptsExist(n: nat) returns (m: Host, xs: seq<Attempt>)
    requires n <= MAX_ENTRIES
    ensures Honest(m) && Attempts(m, xs) && |xs| == n
  {
    hide Complete, Honest, PlainHost, ReservationName, ReceiptName, AttemptOf;
    m, xs := PlainHost(), seq(n, i requires 0 <= i < n => AttemptOf(i));
    PlainHonest();
    forall i | 0 <= i < |xs| ensures Complete(m, xs[i]) {
      PlainAttempt(i);
    }
    forall i, j | 0 <= i < j < |xs|
      ensures ReservationName(m, xs[i].begin.prompt) != ReservationName(m, xs[j].begin.prompt)
           && ReceiptName(m, xs[i].receive) != ReceiptName(m, xs[j].receive) {
      PlainNames(i, j);
    }
  }

  lemma PlainNames(i: nat, j: nat)
    requires i < j < MAX_ENTRIES
    ensures var m, x, y := PlainHost(), AttemptOf(i), AttemptOf(j);
            && ReservationName(m, x.begin.prompt) != ReservationName(m, y.begin.prompt)
            && ReceiptName(m, x.receive) != ReceiptName(m, y.receive)
  {
    var m, x, y := PlainHost(), AttemptOf(i), AttemptOf(j);
    assert Hex64(i + 1) != Hex64(j + 1) by {
      if Hex64(i + 1) == Hex64(j + 1) {
        HexDiffers(i + 1, j + 1);
      }
    }
    assert ReservationName(m, x.begin.prompt)[12..76] == Hex64(i + 1)
           && ReservationName(m, y.begin.prompt)[12..76] == Hex64(j + 1);
    assert ReceiptName(m, x.receive)[8..72] == Hex64(i + 1) && ReceiptName(m, y.receive)[8..72] == Hex64(j + 1);
  }
}
