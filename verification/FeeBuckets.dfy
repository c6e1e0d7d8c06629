/** The fees a ledger contributes to the two fee windows (cmd/stellar-rpc/internal/feewindow/feewindow.go). */
module FeeBuckets {
  import opened UInt32
  import opened Wrappers
  import opened Sequences
  import opened Chain
  import opened BucketWindow

  type Bucket = LedgerBucket<seq<nat>>

  const UINT64_SIZE := 0x1_0000_0000_0000_0000

  /** The inclusion fee of a Soroban transaction, in uint64 arithmetic; None when its meta does not tell. */
  function SorobanFee(tx: Transaction): seq<nat> {
    match tx.feeKind
    case Soroban(Some(resourceFee)) => [(tx.feeCharged - resourceFee) % UINT64_SIZE]
    case _ => []
  }

  /** The fee per operation of a classic transaction. */
  function ClassicFee(tx: Transaction): seq<nat> {
    match tx.feeKind
    case Classic(operations) => if operations == 0 then [] else [tx.feeCharged / operations]
    case _ => []
  }

  function FeesUpTo(l: Ledger, soroban: bool, n: nat): seq<nat>
    requires n <= |l.txs|
  {
    if n == 0 then []
    else FeesUpTo(l, soroban, n - 1) + if soroban then SorobanFee(l.txs[n - 1]) else ClassicFee(l.txs[n - 1])
  }

  function BucketOf(l: Ledger, soroban: bool): Bucket
    requires WellFormed(l)
  {
    LedgerBucket(l.sequence, l.closeTime, FeesUpTo(l, soroban, |l.txs|))
  }

  // ---- what a fee is ----

  /** Classic: the charged fee per operation, rounded down. Soroban: what is left of it, modulo 2^64. */
  predicate IsFee(tx: Transaction, soroban: bool, fee: nat) {
    match tx.feeKind
    case Classic(n) => !soroban && fee * n <= tx.feeCharged < (fee + 1) * n
    case Soroban(Some(resourceFee)) =>
      soroban && fee < UINT64_SIZE && (fee + resourceFee - tx.feeCharged) % UINT64_SIZE == 0
    case Soroban(None) => false
  }

  /** A transaction has one fee of its kind, or, without operations or without the meta, none. */
  predicate HasFee(tx: Transaction, soroban: bool) {
    if soroban then tx.feeKind.Soroban? && tx.feeKind.resourceFee.Some?
    else tx.feeKind.Classic? && tx.feeKind.operations > 0
  }

  lemma {:induction false} ClassicFeeIs(tx: Transaction, fee: nat)
    ensures ClassicFee(tx) == [fee] <==> IsFee(tx, false, fee)
    ensures |ClassicFee(tx)| == if HasFee(tx, false) then 1 else 0
  {
    if HasFee(tx, false) {
      var n := tx.feeKind.operations;
      Quotient(tx.feeCharged, n, fee);
      assert ClassicFee(tx) == [tx.feeCharged / n];
    }
  }

  lemma {:induction false} Quotient(a: nat, n: nat, q: nat)
    requires n > 0
    ensures a / n == q <==> q * n <= a < (q + 1) * n
  {
    var (d, m) := (a / n, a % n);
    assert a == d * n + m;
    if q < d {
      assert (q + 1) * n <= d * n;
    } else if q > d {
      assert (d + 1) * n <= q * n;
    }
  }

  lemma {:induction false} SorobanFeeIs(tx: Transaction, fee: nat)
    ensures SorobanFee(tx) == [fee] <==> IsFee(tx, true, fee)
    ensures |SorobanFee(tx)| == if HasFee(tx, true) then 1 else 0
    ensures HasFee(tx, true) && 0 <= tx.feeCharged - tx.feeKind.resourceFee.value < UINT64_SIZE ==>
      SorobanFee(tx) == [tx.feeCharged - tx.feeKind.resourceFee.value]
  {
    if HasFee(tx, true) {
      var (a, r) := (tx.feeCharged, tx.feeKind.resourceFee.value);
      Congruent(a - r, fee);
      assert SorobanFee(tx) == [(a - r) % UINT64_SIZE];
    }
  }

  lemma {:induction false} Congruent(d: int, fee: nat)
    ensures d % UINT64_SIZE == fee <==> fee < UINT64_SIZE && (fee - d) % UINT64_SIZE == 0
  {
  }

  /** How many of the first n transactions have a fee. */
  function CountFees(l: Ledger, soroban: bool, n: nat): nat
    requires n <= |l.txs|
  {
    if n == 0 then 0 else CountFees(l, soroban, n - 1) + if HasFee(l.txs[n - 1], soroban) then 1 else 0
  }

  /** A bucket tells the ledger's number and close time, and has the fees of its transactions, one each and in order. */
  lemma {:induction false} BucketTells(l: Ledger, soroban: bool, k: nat)
    requires WellFormed(l) && k < |l.txs| && HasFee(l.txs[k], soroban)
    ensures var b := BucketOf(l, soroban);
            && b.sequence == l.sequence && b.closeTime == l.closeTime && |b.content| == CountFees(l, soroban, |l.txs|)
            && CountFees(l, soroban, k) < |b.content| && IsFee(l.txs[k], soroban, b.content[CountFees(l, soroban, k)])
  {
    FeeAt(l, soroban, |l.txs|, k);
  }

  lemma {:induction false} FeesCounted(l: Ledger, soroban: bool, n: nat)
    requires n <= |l.txs|
    ensures |FeesUpTo(l, soroban, n)| == CountFees(l, soroban, n)
  {
    if n > 0 {
      FeesCounted(l, soroban, n - 1);
      ClassicFeeIs(l.txs[n - 1], 0);
      SorobanFeeIs(l.txs[n - 1], 0);
    }
  }

  lemma {:induction false} FeeAt(l: Ledger, soroban: bool, n: nat, k: nat)
    requires k < n <= |l.txs| && HasFee(l.txs[k], soroban)
    ensures var fees := FeesUpTo(l, soroban, n);
            && |fees| == CountFees(l, soroban, n) && CountFees(l, soroban, k) < |fees|
            && IsFee(l.txs[k], soroban, fees[CountFees(l, soroban, k)])
  {
    hide IsFee;
    FeesCounted(l, soroban, n);
    FeesCounted(l, soroban, n - 1);
    if k < n - 1 {
      FeeAt(l, soroban, n - 1, k);
    } else {
      var own := if soroban then SorobanFee(l.txs[k]) else ClassicFee(l.txs[k]);
      if soroban { OnlyFee(l.txs[k], true, own); } else { OnlyFee(l.txs[k], false, own); }
    }
  }

  lemma {:induction false} OnlyFee(tx: Transaction, soroban: bool, own: seq<nat>)
    requires HasFee(tx, soroban) && own == if soroban then SorobanFee(tx) else ClassicFee(tx)
    ensures |own| == 1 && IsFee(tx, soroban, own[0])
  {
    hide IsFee;
    ClassicFeeIs(tx, 0);
    SorobanFeeIs(tx, 0);
    ClassicFeeIs(tx, own[0]);
    SorobanFeeIs(tx, own[0]);
    assert own == [own[0]];
  }

  // ---- what windows remember ----

  function BucketsOf(ls: seq<Ledger>, soroban: bool): (bs: seq<Bucket>)
    requires forall i :: 0 <= i < |ls| ==> WellFormed(ls[i])
    ensures |bs| == |ls|
  {
    seq(|ls|, i requires 0 <= i < |ls| => BucketOf(ls[i], soroban))
  }

  /** What a fee window of a capacity remembers of a history. */
  function Remembered(capacity: nat, ls: seq<Ledger>, soroban: bool): (w: seq<Bucket>)
    requires forall i :: 0 <= i < |ls| ==> WellFormed(ls[i])
    ensures |w| == Min(capacity, |ls|)
  {
    LastN(capacity, BucketsOf(ls, soroban))
  }

  /** A window that remembers a contiguous history accepts the next ledger and remembers the longer one. */
  lemma {:induction false} ContiguousParts(ls: seq<Ledger>, l: Ledger)
    requires Contiguous(ls + [l])
    ensures Contiguous(ls) && WellFormed(l) && (ls != [] ==> l.sequence == ls[|ls| - 1].sequence + 1)
  {
    assert (ls + [l])[|ls|] == l;
    assert forall i :: 0 <= i < |ls| ==> (ls + [l])[i] == ls[i];
  }

  lemma {:induction false} RemembersNext(capacity: nat, ls: seq<Ledger>, l: Ledger, soroban: bool)
    requires 1 <= capacity < UINT32_SIZE && Contiguous(ls) && WellFormed(l) && Contiguous(ls + [l])
    ensures Appended(capacity, Remembered(capacity, ls, soroban), BucketOf(l, soroban))
         == Ok(Remembered(capacity, ls + [l], soroban))
  {
    assert (ls + [l])[|ls|] == l;
    assert forall i :: 0 <= i < |ls| ==> (ls + [l])[i] == ls[i];
    var (w, b) := (Remembered(capacity, ls, soroban), BucketOf(l, soroban));
    LastNNext(capacity, BucketsOf(ls, soroban), b);
    assert BucketsOf(ls + [l], soroban) == BucketsOf(ls, soroban) + [b];
    if ls != [] {
      assert (ls + [l])[|ls| - |w|] == ls[|ls| - |w|] && (ls + [l])[0] == ls[0];
      assert w[0].sequence + |w| == l.sequence;
      assert Expected(w) == l.sequence;
    }
  }

  lemma {:induction false} LastNSuffix<T>(n: nat, s: seq<T>, k: nat)
    requires k <= |s| && Min(n, |s|) <= |s| - k
    ensures LastN(n, s[k..]) == LastN(n, s)
  {
  }

  /** Dropping old ledgers changes nothing as long as the capacity's worth stays. */
  lemma {:induction false} RemembersSuffix(capacity: nat, ls: seq<Ledger>, k: nat, soroban: bool)
    requires Contiguous(ls) && k <= |ls| && Min(capacity, |ls|) <= |ls| - k
    ensures Remembered(capacity, ls[k..], soroban) == Remembered(capacity, ls, soroban)
  {
    var (part, all) := (BucketsOf(ls[k..], soroban), BucketsOf(ls, soroban));
    assert part == all[k..];
    LastNSuffix(capacity, all, k);
  }

  // ---- both windows ----

  datatype FeeState = FeeState(classicCap: nat, sorobanCap: nat, classic: seq<Bucket>, soroban: seq<Bucket>)

  predicate ValidFees(f: FeeState) {
    && 1 <= f.classicCap < UINT32_SIZE && |f.classic| <= f.classicCap
    && 1 <= f.sorobanCap < UINT32_SIZE && |f.soroban| <= f.sorobanCap
  }

  /** FeeWindows.IngestFees: the classic window first, then the Soroban one. */
  function IngestFees(f: FeeState, l: Ledger): (r: (FeeState, bool))
    requires ValidFees(f) && WellFormed(l)
    ensures ValidFees(r.0)
  {
    match Appended(f.classicCap, f.classic, BucketOf(l, false))
    case Err(_) => (f, false)
    case Ok(classic) =>
      match Appended(f.sorobanCap, f.soroban, BucketOf(l, true))
      case Err(_) => (f.(classic := classic), false)
      case Ok(soroban) => (f.(classic := classic, soroban := soroban), true)
  }

  /** Both windows hold exactly the newest ledgers of a history, as many as fit. */
  predicate FeesRemember(f: FeeState, ls: seq<Ledger>)
    requires forall i :: 0 <= i < |ls| ==> WellFormed(ls[i])
  {
    && ValidFees(f)
    && f.classic == Remembered(f.classicCap, ls, false) && f.soroban == Remembered(f.sorobanCap, ls, true)
  }

  /** The next ledger is accepted by both windows. */
  lemma {:induction false} FeesNext(f: FeeState, ls: seq<Ledger>, l: Ledger)
    requires Contiguous(ls + [l]) && Contiguous(ls) && WellFormed(l) && FeesRemember(f, ls)
    ensures IngestFees(f, l).1 && FeesRemember(IngestFees(f, l).0, ls + [l])
    ensures IngestFees(f, l).0.classicCap == f.classicCap && IngestFees(f, l).0.sorobanCap == f.sorobanCap
  {
    RemembersNext(f.classicCap, ls, l, false);
    RemembersNext(f.sorobanCap, ls, l, true);
  }

  lemma {:induction false} RememberedRefuses(capacity: nat, ls: seq<Ledger>, l: Ledger, soroban: bool)
    requires 1 <= capacity < UINT32_SIZE && Contiguous(ls) && ls != [] && WellFormed(l)
    requires l.sequence != ls[|ls| - 1].sequence + 1
    ensures Appended(capacity, Remembered(capacity, ls, soroban), BucketOf(l, soroban)).Err?
  {
    var w := Remembered(capacity, ls, soroban);
    assert w[0].sequence == ls[|ls| - |w|].sequence;
    assert Expected(w) == ls[|ls| - 1].sequence + 1;
  }

  /** Any other ledger is refused, and nothing changes. */
  lemma {:induction false} FeesRefuse(f: FeeState, ls: seq<Ledger>, l: Ledger)
    requires Contiguous(ls) && ls != [] && WellFormed(l) && FeesRemember(f, ls)
    requires l.sequence != ls[|ls| - 1].sequence + 1
    ensures IngestFees(f, l) == (f, false)
  {
    RememberedRefuses(f.classicCap, ls, l, false);
  }

  lemma {:induction false} ContiguousNext(ls: seq<Ledger>, l: Ledger)
    requires Contiguous(ls) && WellFormed(l) && (ls == [] || l.sequence == ls[|ls| - 1].sequence + 1)
    ensures Contiguous(ls + [l])
  {
  }

  /** Windows that remember a contiguous history take exactly the ledger that continues it. */
  lemma {:induction false} FeesOutcome(f: FeeState, ls: seq<Ledger>, l: Ledger)
    requires Contiguous(ls) && WellFormed(l) && FeesRemember(f, ls)
    ensures IngestFees(f, l).1 <==> ls == [] || l.sequence == ls[|ls| - 1].sequence + 1
    ensures IngestFees(f, l).1 ==> Contiguous(ls + [l]) && FeesRemember(IngestFees(f, l).0, ls + [l])
    ensures !IngestFees(f, l).1 ==> IngestFees(f, l).0 == f
    ensures IngestFees(f, l).0.classicCap == f.classicCap && IngestFees(f, l).0.sorobanCap == f.sorobanCap
  {
    hide FeesRemember, Contiguous, IngestFees;
    if ls == [] || l.sequence == ls[|ls| - 1].sequence + 1 {
      ContiguousNext(ls, l);
      FeesNext(f, ls, l);
    } else {
      FeesRefuse(f, ls, l);
    }
  }

  lemma {:induction false} FeesSuffix(f: FeeState, ls: seq<Ledger>, k: nat)
    requires Contiguous(ls) && k <= |ls| && ValidFees(f)
    requires Min(f.classicCap, |ls|) <= |ls| - k && Min(f.sorobanCap, |ls|) <= |ls| - k
    ensures FeesRemember(f, ls[k..]) <==> FeesRemember(f, ls)
  {
    RemembersSuffix(f.classicCap, ls, k, false);
    RemembersSuffix(f.sorobanCap, ls, k, true);
  }
}
