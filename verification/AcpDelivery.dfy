/**
  One controller session delivering batches: begin, reserve, prompt, persist, receive, with
  other sessions at work in the same receipts directory between its own operations.
 */
module AcpDelivery {
  import opened Options
  import opened JsonText
  import opened AcpRequests
  import opened AcpQuota

  const MAX_ORDINAL := MAX_INT64 - 3

  datatype ClaimReply = NothingToDo | ClaimFailed | Claimed(begin: Begin)

  /** The finished turn of a prompt. */
  datatype Turn = Turn(rpc: int, response: string, stop: string)

  /**
    A locked operation of another session on the same directory, whose process may die after
    it has stored a receipt.
   */
  datatype OtherOp = OtherReserve(begin: Begin) | OtherPersist(receive: Receive, dies: bool)

  /**
    What one turn of the delivery loop meets: cancellation, the claim's reply, whether the
    begin was committed, the prompt's turn if it did not fail, whether the receipt was taken,
    and what other sessions do before the reservation and during the prompt.
   */
  datatype Round = Round(
    stopped: bool, claim: ClaimReply, committed: bool, turn: Option<Turn>, received: bool,
    before: seq<OtherOp>, during: seq<OtherOp>)

  /** What the session has done to the outside, in order. */
  datatype Act = Began(b: Begin) | Reserved(b: Begin) | Prompted(b: Begin) | Stored(q: Receive) | Confirmed(b: Begin)

  datatype Ending =
    | Waiting | Cancelled | ClaimError | BeginError | ReserveError(outcome: AcpQuota.Outcome) | PromptError
    | PersistError(outcome: AcpQuota.Outcome) | ReceiveError | OrdinalsExhausted

  // ---------------------------------------------------------------- other sessions

  function PromptOf(op: OtherOp): Prompt
  {
    if op.OtherReserve? then op.begin.prompt else op.receive.begin.prompt
  }

  /** The names that a session of this binding may work on, of the prompts in play. */
  ghost predicate Ours(m: Host, prompts: set<Prompt>, binding: string, n: string)
  {
    exists p :: p in prompts && p.binding == binding && (n == ReservationName(m, p) || n == ReceiptNameOf(m, p))
  }

  /** Names tell the prompts in play apart, and those of receipts their attempts. */
  ghost predicate Distinct(m: Host, prompts: set<Prompt>)
  {
    forall p, q :: p in prompts && q in prompts ==>
      && (m.reservationDigest(p) == m.reservationDigest(q) ==> p == q)
      && (m.receiptDigest(p.binding, p.epoch, p.attempt) == m.receiptDigest(q.binding, q.epoch, q.attempt) ==>
            p.binding == q.binding && SameAttempt(p, q))
  }

  predicate SameAttempt(p: Prompt, q: Prompt)
  {
    p.epoch == q.epoch && p.attempt == q.attempt
  }

  predicate Dies(op: OtherOp)
  {
    op.OtherPersist? && op.dies
  }

  predicate Quiet(ops: seq<OtherOp>)
  {
    forall k :: 0 <= k < |ops| ==> !Dies(ops[k])
  }

  /** Others keep the directory good, and within its quota if they are `quiet`, and leave our names alone. */
  ghost predicate Interferes(m: Host, prompts: set<Prompt>, binding: string, d: Dir, d': Dir, quiet: bool)
  {
    && Good(m, d') && (quiet && Within(d) ==> Within(d'))
    && forall n :: Ours(m, prompts, binding, n) ==> (n in d <==> n in d') && (n in d && n in d' ==> d[n] == d'[n])
  }

  /** The operations of others are of prompts in play with other bindings. */
  predicate Foreign(prompts: set<Prompt>, binding: string, ops: seq<OtherOp>)
  {
    forall k :: 0 <= k < |ops| ==> PromptOf(ops[k]) in prompts && PromptOf(ops[k]).binding != binding
  }

  lemma NamesApart(m: Host, p: Prompt, q: Prompt)
    requires Honest(m)
    ensures ReservationName(m, p) == ReservationName(m, q) ==> m.reservationDigest(p) == m.reservationDigest(q)
    ensures ReceiptNameOf(m, p) == ReceiptNameOf(m, q) ==>
              m.receiptDigest(p.binding, p.epoch, p.attempt) == m.receiptDigest(q.binding, q.epoch, q.attempt)
    ensures ReservationName(m, p) != ReceiptNameOf(m, q)
  {
    var x, y := m.reservationDigest(p), m.reservationDigest(q);
    var u, v := m.receiptDigest(p.binding, p.epoch, p.attempt), m.receiptDigest(q.binding, q.epoch, q.attempt);
    assert Digest(x) && Digest(y) && Digest(u) && Digest(v);
    assert ReservationName(m, p)[12..76] == x && ReservationName(m, q)[12..76] == y;
    assert ReceiptNameOf(m, p)[8..72] == u && ReceiptNameOf(m, q)[8..72] == v;
    assert ReceiptNameOf(m, q)[2] == 'c' && ReservationName(m, p)[2] == 's';
  }

  /** A prompt of another binding has no name of ours. */
  lemma NotOurs(m: Host, prompts: set<Prompt>, binding: string, p: Prompt)
    requires Honest(m) && Distinct(m, prompts) && p in prompts && p.binding != binding
    ensures !Ours(m, prompts, binding, ReservationName(m, p)) && !Ours(m, prompts, binding, ReceiptNameOf(m, p))
  {
    hide Honest, ReservationName, ReceiptNameOf;
    forall q | q in prompts && q.binding == binding
      ensures ReservationName(m, p) != ReservationName(m, q) && ReservationName(m, p) != ReceiptNameOf(m, q)
           && ReceiptNameOf(m, p) != ReservationName(m, q) && ReceiptNameOf(m, p) != ReceiptNameOf(m, q) {
      NamesApart(m, p, q);
      NamesApart(m, q, p);
    }
  }

  /** What another session's operation does. */
  ghost predicate Does(m: Host, d: Dir, op: OtherOp, d': Dir, r: AcpQuota.Outcome)
  {
    match op
    case OtherReserve(b) => Reserves(m, d, b, d', r)
    case OtherPersist(q, dies) => Persists(m, d, q, dies, d', r)
  }

  lemma DoesElsewhere(m: Host, d: Dir, op: OtherOp, d': Dir, r: AcpQuota.Outcome, n: string)
    requires Does(m, d, op, d', r) && n != ReservationName(m, PromptOf(op)) && n != ReceiptNameOf(m, PromptOf(op))
    ensures (n in d <==> n in d') && (n in d ==> d[n] == d'[n])
  {
    hide Reserves, Persists, ReservationName, ReceiptNameOf;
    match op {
      case OtherReserve(b) => ReservesElsewhere(m, d, b, d', r, n);
      case OtherPersist(q, dies) => PersistsElsewhere(m, d, q, dies, d', r, n);
    }
  }

  lemma ReservesElsewhere(m: Host, d: Dir, b: Begin, d': Dir, r: AcpQuota.Outcome, n: string)
    requires Reserves(m, d, b, d', r) && n != ReservationName(m, b.prompt)
    ensures (n in d <==> n in d') && (n in d ==> d[n] == d'[n])
  {
    hide Admits, ValidReservation, ReservationName, DecodesBegin, ReservationFile;
  }

  lemma PersistsElsewhere(m: Host, d: Dir, q: Receive, dies: bool, d': Dir, r: AcpQuota.Outcome, n: string)
    requires Persists(m, d, q, dies, d', r)
    requires n != ReservationName(m, q.begin.prompt) && n != ReceiptNameOf(m, q.begin.prompt)
    ensures (n in d <==> n in d') && (n in d ==> d[n] == d'[n])
  {
    hide Admits, ValidReservation, ReservationName, ReceiptNameOf, DecodesReceive, ReceiptFile, ReceiptSize;
  }

  /** Every operation of a session with another binding is such an interference, a death after its receipt included. */
  lemma OthersInterfere(m: Host, prompts: set<Prompt>, binding: string, d: Dir, op: OtherOp, d': Dir,
                        r: AcpQuota.Outcome)
    requires Honest(m) && Distinct(m, prompts) && Good(m, d)
    requires PromptOf(op) in prompts && PromptOf(op).binding != binding && Does(m, d, op, d', r)
    ensures Interferes(m, prompts, binding, d, d', !Dies(op))
  {
    hide Honest, Distinct, Good, Within, Reserves, Persists, ReservationName, ReceiptNameOf;
    NotOurs(m, prompts, binding, PromptOf(op));
    OthersKeep(m, d, op, d', r);
    forall n | Ours(m, prompts, binding, n) ensures (n in d <==> n in d') && (n in d && n in d' ==> d[n] == d'[n]) {
      DoesElsewhere(m, d, op, d', r, n);
    }
    hide Ours, Does;
  }

  lemma OthersKeep(m: Host, d: Dir, op: OtherOp, d': Dir, r: AcpQuota.Outcome)
    requires Honest(m) && Good(m, d) && Does(m, d, op, d', r)
    ensures Good(m, d') && (!Dies(op) && Within(d) ==> Within(d'))
  {
    hide Honest, Good, Within, Reserves, Persists;
    match op {
      case OtherReserve(b) =>
        ReserveGood(m, d, b, d', r);
        if Within(d) {
          ReserveKeeps(m, d, b, d', r);
        }
      case OtherPersist(q, dies) =>
        PersistGood(m, d, q, dies, d', r);
        if !dies && Within(d) {
          PersistKeeps(m, d, q, d', r);
        }
    }
  }

  lemma InterfereTwice(m: Host, prompts: set<Prompt>, binding: string, d: Dir, e: Dir, f: Dir, quiet: bool, more: bool)
    requires Interferes(m, prompts, binding, d, e, quiet) && Interferes(m, prompts, binding, e, f, more)
    ensures Interferes(m, prompts, binding, d, f, quiet && more)
  {
    hide Good, Within, Ours;
  }

  /** Two prompts can be told apart by some host: the hypotheses on names can be met. */
  lemma DistinctPossible(p: Prompt, q: Prompt, quote: string -> string) returns (m: Host)
    requires p != q && Quoting(quote)
    ensures Honest(m) && Distinct(m, {p, q})
  {
    var zeros, ones := seq(64, _ => '0'), seq(64, _ => '1');
    m := Host((x: Prompt) => if x == p then zeros else ones,
              (b: string, e: int, a: string) =>
                if b == p.binding && e == p.epoch && a == p.attempt then zeros else ones,
              (x: Prompt) => "", (x: Prompt, rpc: int, response: string, stop: string) => "",
              (s: string) => true, (s: string) => true, quote);
    assert Digest(zeros) && Digest(ones) && zeros[0] != ones[0];
  }

  // ---------------------------------------------------------------- what the session does

  /** What may come directly before an act. */
  predicate Follows(before: Option<Act>, a: Act)
  {
    match a
    case Began(_) => before.None? || before.value.Confirmed?
    case Reserved(b) => before == Some(Began(b))
    case Prompted(b) => before == Some(Reserved(b))
    case Stored(q) => before.Some? && before.value.Prompted? && before.value.b.prompt == q.begin.prompt
    case Confirmed(b) => before.Some? && before.value.Stored? && before.value.q.begin.prompt == b.prompt
  }

  function Before(log: seq<Act>, k: nat): Option<Act>
    requires k <= |log|
  {
    if k == 0 then None else Some(log[k - 1])
  }

  function Confirmations(log: seq<Act>): nat
    decreases |log|
  {
    if log == [] then 0
    else Confirmations(log[..|log| - 1]) + if log[|log| - 1].Confirmed? then 1 else 0
  }

  /** Each prompt right after its own reservation, each receipt right after its prompt, ordinals 1, 2, 3, ... */
  predicate Lawful(log: seq<Act>)
  {
    && (forall k :: 0 <= k < |log| ==> Follows(Before(log, k), log[k]))
    && (forall k :: 0 <= k < |log| && log[k].Began? ==> log[k].b.prompt.ordinal == Confirmations(log[..k]) + 1)
  }

  lemma LawfulMore(log: seq<Act>, a: Act)
    requires Lawful(log) && Follows(Before(log, |log|), a)
             && (a.Began? ==> a.b.prompt.ordinal == Confirmations(log) + 1)
    ensures Lawful(log + [a]) && Confirmations(log + [a]) == Confirmations(log) + if a.Confirmed? then 1 else 0
  {
    var all := log + [a];
    assert all[..|log|] == log;
    forall k | 0 <= k < |all|
      ensures Follows(Before(all, k), all[k])
      ensures all[k].Began? ==> all[k].b.prompt.ordinal == Confirmations(all[..k]) + 1 {
      assert k < |log| ==> all[..k] == log[..k] && Before(all, k) == Before(log, k);
    }
  }

  /** The outcome of the last begun batch is open until its receipt was taken. */
  predicate Unknown(log: seq<Act>)
  {
    log != [] && !log[|log| - 1].Confirmed?
  }

  /**
    A held reservation admits its receipt: refused is only one that does not decode or that
    conflicts with one stored before, and for capacity only where the quota is exceeded.
   */
  lemma HeldPersists(m: Host, d: Dir, q: Receive, d': Dir, r: AcpQuota.Outcome)
    requires Honest(m) && Good(m, d) && Persists(m, d, q, false, d', r)
    requires ReservationName(m, q.begin.prompt) in d
    ensures match r
            case Done => DecodesReceive(m, q)
            case Conflict => DecodesReceive(m, q) && ReceiptName(m, q) in d
            case Capacity => DecodesReceive(m, q) && ReceiptName(m, q) !in d && !Within(d)
            case Invalid => !DecodesReceive(m, q)
            case _ => false
  {
    hide ReceiptName, ReservationName, NamedWith, Admits, Good, ReceiptText, DecodesReceive, Honest;
    if DecodesReceive(m, q) {
      HeldValidEntry(m, d, q);
      ReceiptFits(m, q);
      GoodEntries(m, d, ReservationName(m, q.begin.prompt));
      if Within(d) {
        ReservationGuarantees(m, d, q.begin.prompt, ReceiptSize(m, q));
      }
    }
  }

  lemma HeldValidEntry(m: Host, d: Dir, q: Receive)
    requires Honest(m) && Good(m, d) && ReservationName(m, q.begin.prompt) in d
    ensures ValidReservation(m, ReservationName(m, q.begin.prompt), d[ReservationName(m, q.begin.prompt)])
    ensures var n := ReceiptName(m, q); n in d ==> Private(d[n]) && d[n].body.OfReceipt?
  {
    var name, held := ReceiptName(m, q), ReservationName(m, q.begin.prompt);
    ReservationNamed(m, q.begin.prompt);
    ReceiptNamed(m, q);
    assert ValidEntry(m, held, d[held]) && (name in d ==> ValidEntry(m, name, d[name]));
    hide ReceiptName, ReservationName, NamedWith;
  }

  /** The receipt of a finished turn; its request id is computed from it. */
  function ReceiptOf(m: Host, b: Begin, t: Turn): Receive
  {
    Receive(b.(request := m.receiveId(b.prompt, t.rpc, t.response, t.stop)), t.rpc, t.response, t.stop)
  }

  predicate Undecodable(m: Host, r: Round)
  {
    r.claim.Claimed? && r.turn.Some? && !DecodesReceive(m, ReceiptOf(m, r.claim.begin, r.turn.value))
  }

  /** An attempt that has a receipt at the start, or that an earlier round has made. */
  predicate Repeated(m: Host, start: Dir, rounds: seq<Round>, k: nat)
    requires k < |rounds|
  {
    && rounds[k].claim.Claimed?
    && (ReceiptNameOf(m, rounds[k].claim.begin.prompt) in start
        || exists j :: 0 <= j < k && rounds[j].claim.Claimed?
                       && SameAttempt(rounds[j].claim.begin.prompt, rounds[k].claim.begin.prompt))
  }

  /** Nobody dies in these rounds. */
  predicate AllQuiet(rounds: seq<Round>)
  {
    forall k :: 0 <= k < |rounds| ==> Quiet(rounds[k].before) && Quiet(rounds[k].during)
  }

  /** Why a receipt may be refused although its prompt was sent. */
  ghost predicate Justified(m: Host, start: Dir, rounds: seq<Round>, o: AcpQuota.Outcome)
  {
    match o
    case Conflict => exists k :: 0 <= k < |rounds| && Repeated(m, start, rounds, k)
    case Invalid => exists k :: 0 <= k < |rounds| && Undecodable(m, rounds[k])
    case Capacity => !Within(start) || !AllQuiet(rounds)
    case _ => false
  }

  /** What an ended session promises of the store and of what it has done. */
  ghost predicate Ended(m: Host, start: Dir, files: Dir, rounds: seq<Round>, log: seq<Act>, why: Ending)
  {
    && (why.PersistError? ==> Justified(m, start, rounds, why.outcome))
    && (why == ReserveError(Capacity) ==> log != [] && log[|log| - 1].Began?)
    && (log != [] && log[|log| - 1].Prompted? ==> ReservationName(m, log[|log| - 1].b.prompt) in files)
  }

  /** Other sessions run, one locked operation after the other. */
  method Meddle(store: CompletionStore, ghost prompts: set<Prompt>, ghost binding: string, ops: seq<OtherOp>,
                list: Dir -> seq<string>)
    requires Honest(store.m) && Distinct(store.m, prompts) && Foreign(prompts, binding, ops)
    requires Good(store.m, store.files) && forall d :: Lists(list(d), d)
    modifies store
    ensures Interferes(store.m, prompts, binding, old(store.files), store.files, Quiet(ops))
  {
    hide Honest, Distinct, Good, Within, Reserves, Persists, Lists, Ours, Dies;
    for k := 0 to |ops|
      invariant Interferes(store.m, prompts, binding, old(store.files), store.files, Quiet(ops[..k]))
    {
      ghost var d := store.files;
      var r;
      match ops[k] {
        case OtherReserve(b) => r := store.Reserve(b, list(store.files));
        case OtherPersist(q, dies) => r := store.Persist(q, list(store.files), dies);
      }
      OthersInterfere(store.m, prompts, binding, d, ops[k], store.files, r);
      InterfereTwice(store.m, prompts, binding, old(store.files), d, store.files, Quiet(ops[..k]), !Dies(ops[k]));
      assert Quiet(ops[..k + 1]) <==> Quiet(ops[..k]) && !Dies(ops[k]);
    }
    assert ops[..|ops|] == ops;
  }

  /** The receipts of ours in `files` are those at the start and those of the first `n` rounds. */
  ghost predicate Accounted(m: Host, prompts: set<Prompt>, binding: string, start: Dir, files: Dir,
                            rounds: seq<Round>, n: nat)
    requires n <= |rounds|
  {
    forall p :: p in prompts && p.binding == binding && ReceiptNameOf(m, p) in files ==>
      || ReceiptNameOf(m, p) in start
      || exists j :: 0 <= j < n && rounds[j].claim.Claimed? && SameAttempt(rounds[j].claim.begin.prompt, p)
  }

  /** The receipts of ours in `d'` are those in `d` and, if `own`, the one of this prompt. */
  ghost predicate Adds(m: Host, prompts: set<Prompt>, p: Prompt, d: Dir, d': Dir, own: bool)
  {
    forall q :: q in prompts && q.binding == p.binding && ReceiptNameOf(m, q) in d' ==>
      ReceiptNameOf(m, q) in d || (own && SameAttempt(p, q))
  }

  lemma OursKept(m: Host, prompts: set<Prompt>, d: Dir, d': Dir, p: Prompt, quiet: bool)
    requires Interferes(m, prompts, p.binding, d, d', quiet) && p in prompts
    ensures ReservationName(m, p) in d <==> ReservationName(m, p) in d'
    ensures Adds(m, prompts, p, d, d', false)
  {
    hide ReservationName, ReceiptNameOf, Good, Within;
    assert Ours(m, prompts, p.binding, ReservationName(m, p));
    forall q | q in prompts && q.binding == p.binding ensures ReceiptNameOf(m, q) in d' ==> ReceiptNameOf(m, q) in d {
      assert Ours(m, prompts, p.binding, ReceiptNameOf(m, q));
    }
  }

  lemma AddsTwice(m: Host, prompts: set<Prompt>, p: Prompt, d: Dir, e: Dir, f: Dir, own: bool, more: bool)
    requires Adds(m, prompts, p, d, e, own) && Adds(m, prompts, p, e, f, more)
    ensures Adds(m, prompts, p, d, f, own || more)
  {
    hide ReceiptNameOf, SameAttempt;
  }

  lemma ReserveAdds(m: Host, prompts: set<Prompt>, d: Dir, b: Begin, d': Dir, r: AcpQuota.Outcome)
    requires Honest(m) && Reserves(m, d, b, d', r)
    ensures Adds(m, prompts, b.prompt, d, d', false)
  {
    hide Honest, Reserves, ReservationName, ReceiptNameOf;
    forall q | q in prompts && ReceiptNameOf(m, q) in d' ensures ReceiptNameOf(m, q) in d {
      NamesApart(m, b.prompt, q);
      ReservesElsewhere(m, d, b, d', r, ReceiptNameOf(m, q));
    }
  }

  lemma PersistAdds(m: Host, prompts: set<Prompt>, d: Dir, q: Receive, d': Dir, r: AcpQuota.Outcome)
    requires Honest(m) && Distinct(m, prompts) && q.begin.prompt in prompts && Persists(m, d, q, false, d', r)
    ensures Adds(m, prompts, q.begin.prompt, d, d', true)
  {
    hide Honest, Persists, ReservationName, ReceiptNameOf;
    var p := q.begin.prompt;
    forall x | x in prompts && x.binding == p.binding && ReceiptNameOf(m, x) in d'
      ensures ReceiptNameOf(m, x) in d || SameAttempt(p, x) {
      if !SameAttempt(p, x) {
        NamesApart(m, p, x);
        PersistsElsewhere(m, d, q, false, d', r, ReceiptNameOf(m, x));
      }
    }
  }

  /** An early end has added nothing. */
  lemma AddsLess(m: Host, prompts: set<Prompt>, p: Prompt, d: Dir, d': Dir)
    requires Adds(m, prompts, p, d, d', false)
    ensures Adds(m, prompts, p, d, d', true)
  {
    hide ReceiptNameOf, SameAttempt;
  }

  lemma RoundQuiet(r: Round)
    ensures AllQuiet([r]) <==> Quiet(r.before) && Quiet(r.during)
  {
    hide Quiet;
    assert [r][0] == r;
  }

  /** Reserve and prompt one begun batch; `Waiting` if it has been prompted, with its reservation held. */
  method PromptBatch(store: CompletionStore, ghost prompts: set<Prompt>, b: Begin, r: Round, list: Dir -> seq<string>,
                     begun: seq<Act>)
    returns (log: seq<Act>, why: Ending)
    requires Honest(store.m) && Distinct(store.m, prompts) && b.prompt in prompts
    requires Foreign(prompts, b.prompt.binding, r.before) && Foreign(prompts, b.prompt.binding, r.during)
    requires Good(store.m, store.files) && forall d :: Lists(list(d), d)
    requires Lawful(begun) && Before(begun, |begun|) == Some(Began(b))
    modifies store
    ensures Good(store.m, store.files) && (Within(old(store.files)) && AllQuiet([r]) ==> Within(store.files))
    ensures Adds(store.m, prompts, b.prompt, old(store.files), store.files, false)
    ensures Lawful(log) && Confirmations(log) == Confirmations(begun)
    ensures if why.Waiting? then
              Before(log, |log|) == Some(Prompted(b)) && ReservationName(store.m, b.prompt) in store.files
            else why.ReserveError? && Before(log, |log|) == Some(Began(b))
    ensures if why.Waiting? then log == begun + [Reserved(b), Prompted(b)] else log == begun && why.outcome != Done
  {
    hide Good, Within, Lists, Lawful, Confirmations, Reserves, Honest, Distinct, ReservationName, ReceiptNameOf,
      Ours, Adds, Quiet, AllQuiet;
    RoundQuiet(r);
    log := begun;
    ghost var start, p := store.files, b.prompt;
    Meddle(store, prompts, p.binding, r.before, list);
    ghost var d := store.files;
    OursKept(store.m, prompts, start, d, p, Quiet(r.before));
    var o := store.Reserve(b, list(store.files));
    OthersKeep(store.m, d, OtherReserve(b), store.files, o);
    ReserveAdds(store.m, prompts, d, b, store.files, o);
    AddsTwice(store.m, prompts, p, start, d, store.files, false, false);
    if o != Done {
      return log, ReserveError(o);
    }
    ReservedHolds(store.m, d, b, store.files);
    LawfulMore(log, Reserved(b));
    log := log + [Reserved(b)];
    LawfulMore(log, Prompted(b));
    log := log + [Prompted(b)];
    d := store.files;
    Meddle(store, prompts, p.binding, r.during, list);
    OursKept(store.m, prompts, d, store.files, p, Quiet(r.during));
    AddsTwice(store.m, prompts, p, start, d, store.files, false, false);
    return log, Waiting;
  }

  /** The prompt's turn has finished, under the request id it was given. */
  predicate Answered(b: Begin, r: Round)
  {
    r.turn.Some? && r.turn.value.rpc == b.prompt.ordinal + 3
  }

  /** How far a begun batch has come, and why no further. */
  predicate Sent(m: Host, b: Begin, r: Round, begun: seq<Act>, log: seq<Act>, why: Ending)
  {
    match why
    case Waiting => Answered(b, r) && log == begun + [Reserved(b), Prompted(b), Stored(ReceiptOf(m, b, r.turn.value))]
    case ReserveError(o) => o != Done && log == begun
    case PromptError => !Answered(b, r) && log == begun + [Reserved(b), Prompted(b)]
    case PersistError(o) => o != Done && Answered(b, r) && log == begun + [Reserved(b), Prompted(b)]
    case _ => false
  }

  /** Reserve, prompt and persist one begun batch; `Waiting` if its receipt has been stored. */
  method SendBatch(store: CompletionStore, ghost prompts: set<Prompt>, b: Begin, r: Round, list: Dir -> seq<string>,
                   begun: seq<Act>)
    returns (log: seq<Act>, why: Ending)
    requires Honest(store.m) && Distinct(store.m, prompts) && b.prompt in prompts && r.claim == Claimed(b)
    requires Foreign(prompts, b.prompt.binding, r.before) && Foreign(prompts, b.prompt.binding, r.during)
    requires Good(store.m, store.files) && forall d :: Lists(list(d), d)
    requires Lawful(begun) && Before(begun, |begun|) == Some(Began(b))
    modifies store
    ensures Good(store.m, store.files) && (Within(old(store.files)) && AllQuiet([r]) ==> Within(store.files))
    ensures Adds(store.m, prompts, b.prompt, old(store.files), store.files, true)
    ensures Lawful(log) && Confirmations(log) == Confirmations(begun) && log != [] && !log[|log| - 1].Confirmed?
    ensures if why.Waiting? then log[|log| - 1].Stored? && log[|log| - 1].q.begin.prompt == b.prompt
            else Ended(store.m, old(store.files), store.files, [r], log, why)
    ensures Sent(store.m, b, r, begun, log, why)
  {
    hide Good, Within, Lists, Lawful, Confirmations, Persists, Honest, Distinct, ReservationName, ReceiptNameOf,
      Foreign, DecodesReceive, Adds, AllQuiet, Justified;
    ghost var start := store.files;
    log, why := PromptBatch(store, prompts, b, r, list, begun);
    ghost var d := store.files;
    AddsLess(store.m, prompts, b.prompt, start, d);
    if !why.Waiting? {
      return;
    }
    if r.turn.None? || r.turn.value.rpc != b.prompt.ordinal + 3 {
      return log, PromptError;
    }
    var q := ReceiptOf(store.m, b, r.turn.value);
    var o := store.Persist(q, list(store.files), false);
    OthersKeep(store.m, d, OtherPersist(q, false), store.files, o);
    PersistAdds(store.m, prompts, d, q, store.files, o);
    AddsTwice(store.m, prompts, b.prompt, start, d, store.files, false, true);
    HeldPersists(store.m, d, q, store.files, o);
    if o != Done {
      RefusedKeeps(store.m, d, q, store.files, o);
      RefusalJustified(store.m, prompts, start, d, r, o);
      return log, PersistError(o);
    }
    LawfulMore(log, Stored(q));
    log := log + [Stored(q)];
    return log, Waiting;
  }

  /** Why the receipt of one round is refused: what was there when the round began. */
  lemma RefusalJustified(m: Host, prompts: set<Prompt>, start: Dir, d: Dir, r: Round, o: AcpQuota.Outcome)
    requires r.claim.Claimed? && r.turn.Some? && r.claim.begin.prompt in prompts
    requires Adds(m, prompts, r.claim.begin.prompt, start, d, false)
    requires Within(start) && AllQuiet([r]) ==> Within(d)
    requires var q := ReceiptOf(m, r.claim.begin, r.turn.value);
             match o
             case Conflict => ReceiptName(m, q) in d
             case Capacity => !Within(d)
             case Invalid => !DecodesReceive(m, q)
             case _ => false
    ensures Justified(m, start, [r], o)
  {
    hide Within, AllQuiet, DecodesReceive, ReceiptNameOf;
    assert [r][0] == r;
    var q := ReceiptOf(m, r.claim.begin, r.turn.value);
    assert ReceiptName(m, q) == ReceiptNameOf(m, r.claim.begin.prompt);
    match o
    case Conflict => assert Repeated(m, start, [r], 0);
    case Invalid => assert Undecodable(m, [r][0]);
    case _ =>
  }

  // ---------------------------------------------------------------- the whole session, by its rounds

  function Claims(rounds: seq<Round>, n: nat): nat
    requires n <= |rounds|
  {
    if n == 0 then 0 else Claims(rounds, n - 1) + if rounds[n - 1].claim.Claimed? then 1 else 0
  }

  /** Round `n` has a batch, of the next ordinal, and was not cancelled. */
  predicate Begins(rounds: seq<Round>, n: nat)
    requires n < |rounds|
  {
    !rounds[n].stopped && rounds[n].claim.Claimed? && rounds[n].claim.begin.prompt.ordinal == Claims(rounds, n) + 1
  }

  /**
    Round `n` goes through: there is nothing to do, or its batch is begun, prompted,
    answered and its receipt taken.
   */
  predicate GoesThrough(rounds: seq<Round>, n: nat)
    requires n < |rounds|
  {
    var r := rounds[n];
    || (!r.stopped && r.claim.NothingToDo?)
    || (Begins(rounds, n) && r.committed && Answered(r.claim.begin, r) && r.received)
  }

  /** What a round that goes through does. */
  function RoundActs(m: Host, r: Round): seq<Act>
  {
    if r.claim.Claimed? && r.turn.Some? then
      var b := r.claim.begin;
      [Began(b), Reserved(b), Prompted(b), Stored(ReceiptOf(m, b, r.turn.value)), Confirmed(b)]
    else []
  }

  function ActsOf(m: Host, rounds: seq<Round>, n: nat): seq<Act>
    requires n <= |rounds|
  {
    if n == 0 then [] else ActsOf(m, rounds, n - 1) + RoundActs(m, rounds[n - 1])
  }

  /** Round `n` ends the session with these acts of its own, for this reason; or all rounds are over. */
  predicate EndsAt(m: Host, rounds: seq<Round>, n: nat, acts: seq<Act>, why: Ending)
    requires n <= |rounds|
  {
    if n == |rounds| then why == Waiting && acts == []
    else
      var r := rounds[n];
      if r.stopped then why == Cancelled && acts == []
      else if !Begins(rounds, n) then why == ClaimError && !r.claim.NothingToDo? && acts == []
      else
        var b := r.claim.begin;
        if !r.committed then why == BeginError && acts == [Began(b)]
        else if why == ReceiveError then
          Answered(b, r) && !r.received
          && acts == [Began(b), Reserved(b), Prompted(b), Stored(ReceiptOf(m, b, r.turn.value))]
        else if why == OrdinalsExhausted then
          GoesThrough(rounds, n) && b.prompt.ordinal >= MAX_ORDINAL && acts == RoundActs(m, r)
        else Sent(m, b, r, [Began(b)], acts, why) && !why.Waiting?
  }

  /** The session has done all of some first rounds, which all went through, and then ended. */
  ghost predicate Told(m: Host, rounds: seq<Round>, log: seq<Act>, why: Ending)
  {
    exists n, acts :: ToldAt(m, rounds, n, acts, log, why)
  }

  predicate ToldAt(m: Host, rounds: seq<Round>, n: nat, acts: seq<Act>, log: seq<Act>, why: Ending)
  {
    && n <= |rounds| && (forall k :: 0 <= k < n ==> GoesThrough(rounds, k))
    && log == ActsOf(m, rounds, n) + acts && EndsAt(m, rounds, n, acts, why)
  }

  /** All of the first `n` rounds went through, and this is what they did. */
  ghost predicate Sofar(m: Host, rounds: seq<Round>, n: nat, log: seq<Act>)
  {
    n <= |rounds| && (forall k :: 0 <= k < n ==> GoesThrough(rounds, k)) && log == ActsOf(m, rounds, n)
  }

  lemma SofarEnds(m: Host, rounds: seq<Round>, n: nat, before: seq<Act>, acts: seq<Act>, log: seq<Act>, why: Ending)
    requires Sofar(m, rounds, n, before) && log == before + acts && EndsAt(m, rounds, n, acts, why)
    ensures Told(m, rounds, log, why)
  {
    hide GoesThrough, EndsAt, ActsOf;
    assert ToldAt(m, rounds, n, acts, log, why);
  }

  lemma SofarNext(m: Host, rounds: seq<Round>, n: nat, before: seq<Act>, log: seq<Act>)
    requires Sofar(m, rounds, n, before) && n < |rounds| && GoesThrough(rounds, n)
    requires log == before + RoundActs(m, rounds[n])
    ensures Sofar(m, rounds, n + 1, log)
  {
    hide GoesThrough, RoundActs;
  }

  /** The rounds of a session: its prompts are in play, and others work on prompts of other bindings. */
  predicate InPlay(prompts: set<Prompt>, binding: string, rounds: seq<Round>)
  {
    forall k :: 0 <= k < |rounds| ==>
      && (rounds[k].claim.Claimed? ==>
            rounds[k].claim.begin.prompt in prompts && rounds[k].claim.begin.prompt.binding == binding)
      && Foreign(prompts, binding, rounds[k].before) && Foreign(prompts, binding, rounds[k].during)
  }

  lemma PlayOf(prompts: set<Prompt>, binding: string, rounds: seq<Round>, k: nat)
    requires InPlay(prompts, binding, rounds) && k < |rounds|
    ensures var r := rounds[k];
            && (r.claim.Claimed? ==> r.claim.begin.prompt in prompts && r.claim.begin.prompt.binding == binding)
            && Foreign(prompts, binding, r.before) && Foreign(prompts, binding, r.during)
  {
    hide Foreign;
  }

  /** A round that ends the session before its batch is committed. */
  lemma EndsUnbegun(m: Host, rounds: seq<Round>, n: nat, before: seq<Act>, why: Ending)
    requires Sofar(m, rounds, n, before) && n < |rounds| && (rounds[n].stopped || !rounds[n].claim.NothingToDo?)
    requires if rounds[n].stopped then why == Cancelled else !Begins(rounds, n) && why == ClaimError
    ensures Told(m, rounds, before, why)
  {
    hide Sofar, Told, Begins;
    assert before == before + [];
    SofarEnds(m, rounds, n, before, [], before, why);
  }

  lemma EndsUncommitted(m: Host, rounds: seq<Round>, n: nat, before: seq<Act>)
    requires Sofar(m, rounds, n, before) && n < |rounds| && Begins(rounds, n) && !rounds[n].committed
    ensures Told(m, rounds, before + [Began(rounds[n].claim.begin)], BeginError)
  {
    hide Sofar, Told;
    SofarEnds(m, rounds, n, before, [Began(rounds[n].claim.begin)], before + [Began(rounds[n].claim.begin)],
              BeginError);
  }

  /** A committed batch: what was sent of it ends the session, or what follows does, or the round goes through. */
  lemma EndsCommitted(m: Host, rounds: seq<Round>, n: nat, before: seq<Act>, log: seq<Act>, why: Ending)
    requires Sofar(m, rounds, n, before) && n < |rounds| && Begins(rounds, n) && rounds[n].committed
    requires Sent(m, rounds[n].claim.begin, rounds[n], before + [Began(rounds[n].claim.begin)], log, why)
    ensures !why.Waiting? ==> Told(m, rounds, log, why)
    ensures why.Waiting? && !rounds[n].received ==> Told(m, rounds, log, ReceiveError)
    ensures var b := rounds[n].claim.begin;
            why.Waiting? && rounds[n].received ==>
              && Sofar(m, rounds, n + 1, log + [Confirmed(b)])
              && (b.prompt.ordinal >= MAX_ORDINAL ==> Told(m, rounds, log + [Confirmed(b)], OrdinalsExhausted))
  {
    hide Sofar, Told;
    var r, b := rounds[n], rounds[n].claim.begin;
    SentAfter(m, b, r, before, log, why);
    var acts := log[|before|..];
    if !why.Waiting? {
      SofarEnds(m, rounds, n, before, acts, log, why);
    } else if !r.received {
      SofarEnds(m, rounds, n, before, acts, log, ReceiveError);
    } else {
      assert log + [Confirmed(b)] == before + RoundActs(m, r);
      SofarNext(m, rounds, n, before, log + [Confirmed(b)]);
      if b.prompt.ordinal >= MAX_ORDINAL {
        SofarEnds(m, rounds, n, before, RoundActs(m, r), log + [Confirmed(b)], OrdinalsExhausted);
      }
    }
  }

  /** A begun and committed batch: what of it is sent, and whether its end is confirmed. */
  method FinishRound(store: CompletionStore, ghost prompts: set<Prompt>, ghost binding: string, rounds: seq<Round>,
                     k: nat, list: Dir -> seq<string>, before: seq<Act>)
    returns (log: seq<Act>, uncertain: bool, why: Ending)
    requires Honest(store.m) && Distinct(store.m, prompts) && InPlay(prompts, binding, rounds) && k < |rounds|
    requires Good(store.m, store.files) && forall d :: Lists(list(d), d)
    requires Lawful(before) && !Unknown(before) && Begins(rounds, k) && rounds[k].committed
    requires rounds[k].claim.begin.prompt.ordinal == Confirmations(before) + 1
             && Confirmations(before) == Claims(rounds, k)
    requires Sofar(store.m, rounds, k, before)
    modifies store
    ensures Good(store.m, store.files) && (Within(old(store.files)) && AllQuiet([rounds[k]]) ==> Within(store.files))
    ensures Adds(store.m, prompts, rounds[k].claim.begin.prompt, old(store.files), store.files, true)
    ensures Lawful(log) && uncertain == Unknown(log)
    ensures RoundOver(store.m, old(store.files), store.files, rounds, k, log, why)
  {
    hide Good, Within, Lists, Lawful, Confirmations, Honest, Distinct, ReservationName, ReceiptNameOf, Foreign,
      Ended, Adds, AllQuiet, Told, Sofar, ActsOf, Sent, GoesThrough, Claims, InPlay, ReceiptOf, RoundOver;
    ghost var start := store.files;
    var r, b := rounds[k], rounds[k].claim.begin;
    PlayOf(prompts, binding, rounds, k);
    LawfulMore(before, Began(b));
    log, why := SendBatch(store, prompts, b, r, list, before + [Began(b)]);
    EndsCommitted(store.m, rounds, k, before, log, why);
    if !why.Waiting? {
      RoundEnds(store.m, start, store.files, rounds, k, log, why);
      return log, true, why;
    }
    if !r.received {
      EndedHarmless(store.m, start, store.files, [r], log, ReceiveError);
      RoundEnds(store.m, start, store.files, rounds, k, log, ReceiveError);
      return log, true, ReceiveError;
    }
    LawfulMore(log, Confirmed(b));
    log := log + [Confirmed(b)];
    if b.prompt.ordinal >= MAX_ORDINAL {
      EndedHarmless(store.m, start, store.files, [r], log, OrdinalsExhausted);
      RoundEnds(store.m, start, store.files, rounds, k, log, OrdinalsExhausted);
      return log, false, OrdinalsExhausted;
    }
    RoundGoes(store.m, start, store.files, rounds, k, log);
    return log, false, Waiting;
  }

  /** How a round leaves the session: it goes on behind it, or it has ended as the rounds call for. */
  ghost predicate RoundOver(m: Host, start: Dir, files: Dir, rounds: seq<Round>, k: nat, log: seq<Act>, why: Ending)
    requires k < |rounds|
  {
    if why.Waiting? then !Unknown(log) && Confirmations(log) == Claims(rounds, k + 1) && Sofar(m, rounds, k + 1, log)
    else Ended(m, start, files, [rounds[k]], log, why) && Told(m, rounds, log, why)
  }

  lemma RoundEnds(m: Host, start: Dir, files: Dir, rounds: seq<Round>, k: nat, log: seq<Act>, why: Ending)
    requires k < |rounds| && !why.Waiting? && Ended(m, start, files, [rounds[k]], log, why) && Told(m, rounds, log, why)
    ensures RoundOver(m, start, files, rounds, k, log, why)
  {
    hide Ended, Told;
  }

  /** A round whose batch has been confirmed. */
  lemma RoundGoes(m: Host, start: Dir, files: Dir, rounds: seq<Round>, k: nat, log: seq<Act>)
    requires k < |rounds| && rounds[k].claim.Claimed? && Sofar(m, rounds, k + 1, log) && !Unknown(log)
    requires Confirmations(log) == Claims(rounds, k) + 1
    ensures RoundOver(m, start, files, rounds, k, log, Waiting)
  {
    hide Sofar, Confirmations;
  }

  /** One round; `Waiting` if it went through. */
  method DeliverRound(store: CompletionStore, ghost prompts: set<Prompt>, ghost binding: string, rounds: seq<Round>,
                      k: nat, list: Dir -> seq<string>, ordinal: int, before: seq<Act>)
    returns (log: seq<Act>, uncertain: bool, why: Ending)
    requires Honest(store.m) && Distinct(store.m, prompts) && InPlay(prompts, binding, rounds) && k < |rounds|
    requires Good(store.m, store.files) && forall d :: Lists(list(d), d)
    requires Lawful(before) && !Unknown(before) && ordinal == Confirmations(before) + 1 == Claims(rounds, k) + 1
    requires Sofar(store.m, rounds, k, before)
    modifies store
    ensures Good(store.m, store.files) && (Within(old(store.files)) && AllQuiet([rounds[k]]) ==> Within(store.files))
    ensures rounds[k].claim.Claimed? ==>
              Adds(store.m, prompts, rounds[k].claim.begin.prompt, old(store.files), store.files, true)
    ensures !rounds[k].claim.Claimed? ==> store.files == old(store.files)
    ensures Lawful(log) && uncertain == Unknown(log)
    ensures RoundOver(store.m, old(store.files), store.files, rounds, k, log, why)
  {
    hide Good, Within, Lists, Lawful, Confirmations, Honest, Distinct, ReservationName, ReceiptNameOf, Foreign,
      Ended, Adds, AllQuiet, Told, Sofar, ActsOf, Sent, GoesThrough, Claims, InPlay, RoundOver;
    ghost var start := store.files;
    var r := rounds[k];
    log, uncertain := before, false;
    AddsItself(store.m, prompts, r, start);
    if r.stopped {
      EndedHarmless(store.m, start, start, [r], log, Cancelled);
      EndsUnbegun(store.m, rounds, k, before, Cancelled);
      RoundEnds(store.m, start, start, rounds, k, log, Cancelled);
      return log, uncertain, Cancelled;
    }
    if r.claim.NothingToDo? {
      SofarIdle(store.m, rounds, k, before);
      RoundIdle(store.m, start, rounds, k, before);
      return log, uncertain, Waiting;
    }
    if r.claim.ClaimFailed? || r.claim.begin.prompt.ordinal != ordinal {
      EndedHarmless(store.m, start, start, [r], log, ClaimError);
      EndsUnbegun(store.m, rounds, k, before, ClaimError);
      RoundEnds(store.m, start, start, rounds, k, log, ClaimError);
      return log, uncertain, ClaimError;
    }
    var b := r.claim.begin;
    if !r.committed {
      LawfulMore(log, Began(b));
      log := log + [Began(b)];
      EndedHarmless(store.m, start, start, [r], log, BeginError);
      EndsUncommitted(store.m, rounds, k, before);
      RoundEnds(store.m, start, start, rounds, k, log, BeginError);
      return log, true, BeginError;
    }
    log, uncertain, why := FinishRound(store, prompts, binding, rounds, k, list, before);
  }

  lemma RoundIdle(m: Host, d: Dir, rounds: seq<Round>, k: nat, log: seq<Act>)
    requires k < |rounds| && !rounds[k].claim.Claimed? && Sofar(m, rounds, k + 1, log) && !Unknown(log)
    requires Confirmations(log) == Claims(rounds, k)
    ensures RoundOver(m, d, d, rounds, k, log, Waiting)
  {
    hide Sofar, Confirmations;
  }

  lemma SofarIdle(m: Host, rounds: seq<Round>, n: nat, before: seq<Act>)
    requires Sofar(m, rounds, n, before) && n < |rounds| && !rounds[n].stopped && rounds[n].claim.NothingToDo?
    ensures Sofar(m, rounds, n + 1, before)
  {
    hide Sofar;
    assert before == before + [];
    SofarNext(m, rounds, n, before, before);
  }

  lemma AddsItself(m: Host, prompts: set<Prompt>, r: Round, d: Dir)
    ensures r.claim.Claimed? ==> Adds(m, prompts, r.claim.begin.prompt, d, d, true)
  {
    hide ReceiptNameOf, SameAttempt;
  }

  /**
    The delivery loop.  Whatever other sessions do in between, and whether or not their
    processes die: no prompt without its own reservation; a receipt whose prompt was sent is
    refused only if it does not decode, if its attempt already had one, or if a death has
    broken the quota; a prompt whose outcome is unknown keeps its reservation; and what was
    done, and why no more, is what the rounds call for.
   */
  method Deliver(store: CompletionStore, ghost prompts: set<Prompt>, binding: string, rounds: seq<Round>,
                 list: Dir -> seq<string>)
    returns (log: seq<Act>, uncertain: bool, why: Ending)
    requires Honest(store.m) && Distinct(store.m, prompts) && InPlay(prompts, binding, rounds)
    requires Good(store.m, store.files) && forall d :: Lists(list(d), d)
    modifies store
    ensures Good(store.m, store.files) && (Within(old(store.files)) && AllQuiet(rounds) ==> Within(store.files))
    ensures Lawful(log) && uncertain == Unknown(log) && Ended(store.m, old(store.files), store.files, rounds, log, why)
    ensures Told(store.m, rounds, log, why)
  {
    hide Good, Within, Lists, Lawful, Confirmations, Honest, Distinct, ReservationName, ReceiptNameOf, Foreign,
      Ended, Adds, AllQuiet, Accounted, Told, Sofar, Unknown, Claims;
    ghost var start := store.files;
    var ordinal := 1;
    log, uncertain := [], false;
    NothingDone();
    NothingTold(store.m, rounds);
    NothingAdded(store.m, prompts, binding, start, rounds);
    for k := 0 to |rounds|
      invariant Good(store.m, store.files) && (Within(start) && AllQuiet(rounds) ==> Within(store.files))
      invariant Accounted(store.m, prompts, binding, start, store.files, rounds, k)
      invariant Lawful(log) && !Unknown(log) && !uncertain && ordinal == Confirmations(log) + 1 == Claims(rounds, k) + 1
      invariant Sofar(store.m, rounds, k, log)
    {
      ghost var d := store.files;
      OneQuiet(rounds, k);
      log, uncertain, why := DeliverRound(store, prompts, binding, rounds, k, list, ordinal, log);
      if !why.Waiting? {
        EndedRound(store.m, prompts, binding, start, d, store.files, rounds, k, log, why);
        return;
      }
      ClaimsMore(rounds, k);
      if rounds[k].claim.Claimed? {
        AccountedMore(store.m, prompts, binding, start, d, store.files, rounds, k);
        ordinal := ordinal + 1;
      } else {
        AccountedNext(store.m, prompts, binding, start, d, rounds, k);
      }
    }
    AllTold(store.m, rounds, log);
    EndedIdle(store.m, start, store.files, rounds, log);
    return log, uncertain, Waiting;
  }

  lemma ClaimsMore(rounds: seq<Round>, k: nat)
    requires k < |rounds|
    ensures Claims(rounds, k + 1) == Claims(rounds, k) + if rounds[k].claim.Claimed? then 1 else 0
  {
  }

  lemma NothingTold(m: Host, rounds: seq<Round>)
    ensures Sofar(m, rounds, 0, []) && Claims(rounds, 0) == 0 && !Unknown([])
  {
  }

  lemma AllTold(m: Host, rounds: seq<Round>, log: seq<Act>)
    requires Sofar(m, rounds, |rounds|, log)
    ensures Told(m, rounds, log, Waiting)
  {
    hide Sofar, Told;
    assert log == log + [];
    SofarEnds(m, rounds, |rounds|, log, [], log, Waiting);
  }

  lemma EndedIdle(m: Host, start: Dir, files: Dir, rounds: seq<Round>, log: seq<Act>)
    requires !Unknown(log)
    ensures Ended(m, start, files, rounds, log, Waiting)
  {
  }

  /** The acts of one round behind those of the rounds before. */
  lemma SentAfter(m: Host, b: Begin, r: Round, before: seq<Act>, log: seq<Act>, why: Ending)
    requires Sent(m, b, r, before + [Began(b)], log, why)
    ensures |before| <= |log| && log == before + log[|before|..] && Sent(m, b, r, [Began(b)], log[|before|..], why)
  {
    hide ReceiptOf;
  }

  lemma OneQuiet(rounds: seq<Round>, k: nat)
    requires k < |rounds|
    ensures AllQuiet(rounds) ==> AllQuiet([rounds[k]])
  {
  }

  lemma NothingAdded(m: Host, prompts: set<Prompt>, binding: string, start: Dir, rounds: seq<Round>)
    ensures Accounted(m, prompts, binding, start, start, rounds, 0)
  {
  }

  lemma AccountedNext(m: Host, prompts: set<Prompt>, binding: string, start: Dir, d: Dir, rounds: seq<Round>, k: nat)
    requires k < |rounds| && Accounted(m, prompts, binding, start, d, rounds, k)
    ensures Accounted(m, prompts, binding, start, d, rounds, k + 1)
  {
    hide ReceiptNameOf, SameAttempt;
  }

  lemma AccountedMore(m: Host, prompts: set<Prompt>, binding: string, start: Dir, d: Dir, d': Dir, rounds: seq<Round>,
                      k: nat)
    requires k < |rounds| && Accounted(m, prompts, binding, start, d, rounds, k)
    requires rounds[k].claim.Claimed? && rounds[k].claim.begin.prompt.binding == binding
    requires Adds(m, prompts, rounds[k].claim.begin.prompt, d, d', true)
    ensures Accounted(m, prompts, binding, start, d', rounds, k + 1)
  {
    hide ReceiptNameOf, SameAttempt;
  }

  /** An ending in which no reservation or receipt was refused and no prompt is open. */
  predicate Harmless(log: seq<Act>, why: Ending)
  {
    !why.PersistError? && !why.ReserveError? && (log == [] || !log[|log| - 1].Prompted?)
  }

  lemma EndedHarmless(m: Host, start: Dir, files: Dir, rounds: seq<Round>, log: seq<Act>, why: Ending)
    requires Harmless(log, why)
    ensures Ended(m, start, files, rounds, log, why)
  {
  }

  /** What ended one round ended the session, seen from its start. */
  lemma EndedRound(m: Host, prompts: set<Prompt>, binding: string, start: Dir, d: Dir, files: Dir, rounds: seq<Round>,
                   k: nat, log: seq<Act>, why: Ending)
    requires k < |rounds| && Ended(m, d, files, [rounds[k]], log, why) && InPlay(prompts, binding, rounds)
    requires Accounted(m, prompts, binding, start, d, rounds, k) && (Within(start) && AllQuiet(rounds) ==> Within(d))
    ensures Ended(m, start, files, rounds, log, why)
  {
    hide Undecodable, Within, AllQuiet, ReservationName, ReceiptNameOf, SameAttempt, Foreign;
    if why.PersistError? && why.outcome == Conflict {
      assert Repeated(m, d, [rounds[k]], 0);
      assert Repeated(m, start, rounds, k);
    }
    OneQuiet(rounds, k);
  }

  lemma NothingDone()
    ensures Lawful([]) && Confirmations([]) == 0
  {
  }

  lemma ReservedHolds(m: Host, d: Dir, b: Begin, d': Dir)
    requires Reserves(m, d, b, d', Done)
    ensures ReservationName(m, b.prompt) in d'
  {
    hide Admits, ValidReservation, ReservationName, DecodesBegin;
  }

  lemma RefusedKeeps(m: Host, d: Dir, q: Receive, d': Dir, r: AcpQuota.Outcome)
    requires Persists(m, d, q, false, d', r) && r != Done
    ensures d' == d
  {
    hide Admits, ValidReservation, ReservationName, ReceiptName, DecodesReceive;
  }
}
