/**
 Fee statistics over the ledgers a window remembers (cmd/stellar-rpc/internal/feewindow/feewindow.go): a sort,
 one scan for the mode, and nearest-rank percentiles.
 */
module FeeStats {
  import opened UInt32
  import opened Wrappers
  import opened Sequences
  import opened BucketWindow

  // ---- what the numbers mean ----

  /** How many fees are at most v. */
  function CountUpTo(fees: seq<nat>, v: nat): nat {
    if fees == [] then 0 else (if fees[0] <= v then 1 else 0) + CountUpTo(fees[1..], v)
  }

  /** The smallest fee of greatest multiplicity. */
  ghost predicate IsMode(fees: seq<nat>, v: nat) {
    && v in fees
    && forall u :: u in fees ==>
      multiset(fees)[u] < multiset(fees)[v] || (multiset(fees)[u] == multiset(fees)[v] && v <= u)
  }

  /** The least fee that at least p percent of the fees do not exceed. */
  ghost predicate IsPercentile(fees: seq<nat>, p: nat, v: nat) {
    && v in fees
    && 100 * CountUpTo(fees, v) >= p * |fees|
    && forall u :: u in fees && u < v ==> 100 * CountUpTo(fees, u) < p * |fees|
  }

  ghost predicate IsMin(fees: seq<nat>, v: nat) { v in fees && forall u :: u in fees ==> v <= u }

  ghost predicate IsMax(fees: seq<nat>, v: nat) { v in fees && forall u :: u in fees ==> u <= v }

  datatype FeeDistribution = FeeDistribution(
    max: nat, min: nat, mode: nat, p10: nat, p20: nat, p30: nat, p40: nat, p50: nat, p60: nat, p70: nat, p80: nat,
    p90: nat, p95: nat, p99: nat, feeCount: nat, ledgerCount: nat)

  const NO_FEES := FeeDistribution(0, 0, 0, 0, 0, 0, 0, 0, 0, 0, 0, 0, 0, 0, 0, 0)

  /** The distribution of some fees; without fees every number is zero, the ledger count too. */
  ghost predicate Describes(d: FeeDistribution, fees: seq<nat>, ledgerCount: nat) {
    if fees == [] then d == NO_FEES
    else
      && IsMax(fees, d.max) && IsMin(fees, d.min) && IsMode(fees, d.mode)
      && IsPercentile(fees, 10, d.p10) && IsPercentile(fees, 20, d.p20) && IsPercentile(fees, 30, d.p30)
      && IsPercentile(fees, 40, d.p40) && IsPercentile(fees, 50, d.p50) && IsPercentile(fees, 60, d.p60)
      && IsPercentile(fees, 70, d.p70) && IsPercentile(fees, 80, d.p80) && IsPercentile(fees, 90, d.p90)
      && IsPercentile(fees, 95, d.p95) && IsPercentile(fees, 99, d.p99)
      && d.feeCount == |fees| % UINT32_SIZE && d.ledgerCount == ledgerCount
  }

  // ---- sorting ----

  function Insert(x: nat, s: seq<nat>): seq<nat> {
    if s == [] || x <= s[0] then [x] + s else [s[0]] + Insert(x, s[1..])
  }

  /** What slices.Sort leaves in the slice. */
  function Sort(s: seq<nat>): seq<nat> {
    if s == [] then [] else Insert(s[0], Sort(s[1..]))
  }

  predicate Ascending(s: seq<nat>) {
    forall i, j :: 0 <= i <= j < |s| ==> s[i] <= s[j]
  }

  lemma {:induction false} InsertMembers(x: nat, s: seq<nat>)
    ensures multiset(Insert(x, s)) == multiset{x} + multiset(s) && |Insert(x, s)| == |s| + 1
  {
    if s == [] || x <= s[0] {
    } else {
      InsertMembers(x, s[1..]);
      MultisetTail(s);
    }
  }

  lemma {:induction false} InsertCounts(x: nat, s: seq<nat>, v: nat)
    ensures CountUpTo(Insert(x, s), v) == (if x <= v then 1 else 0) + CountUpTo(s, v)
  {
    if s == [] || x <= s[0] {
      assert ([x] + s)[1..] == s;
    } else {
      InsertCounts(x, s[1..], v);
      assert Insert(x, s)[1..] == Insert(x, s[1..]);
    }
  }

  lemma {:induction false} PrependAscending(x: nat, s: seq<nat>)
    requires Ascending(s) && (s == [] || x <= s[0])
    ensures Ascending([x] + s)
  {
  }

  lemma {:induction false} InsertAscending(x: nat, s: seq<nat>)
    requires Ascending(s)
    ensures Ascending(Insert(x, s))
    ensures Insert(x, s) != [] && Insert(x, s)[0] == if s == [] || x <= s[0] then x else s[0]
  {
    if s == [] || x <= s[0] {
      PrependAscending(x, s);
    } else {
      InsertAscending(x, s[1..]);
      PrependAscending(s[0], Insert(x, s[1..]));
    }
  }

  lemma {:induction false} SortSorts(s: seq<nat>)
    ensures Ascending(Sort(s)) && multiset(Sort(s)) == multiset(s) && |Sort(s)| == |s|
  {
    if s != [] {
      SortSorts(s[1..]);
      InsertMembers(s[0], Sort(s[1..]));
      InsertAscending(s[0], Sort(s[1..]));
      MultisetTail(s);
    }
  }

  lemma {:induction false} SortCounts(s: seq<nat>, v: nat)
    ensures CountUpTo(Sort(s), v) == CountUpTo(s, v)
  {
    if s != [] {
      SortCounts(s[1..], v);
      InsertCounts(s[0], Sort(s[1..]), v);
    }
  }

  lemma {:induction false} SameElements(a: seq<nat>, b: seq<nat>)
    requires multiset(a) == multiset(b)
    ensures forall x :: x in a <==> x in b
    ensures |a| == |b|
  {
    assert forall x :: x in a <==> x in multiset(a);
    assert forall x :: x in b <==> x in multiset(b);
    assert |multiset(a)| == |a| && |multiset(b)| == |b|;
  }

  lemma {:induction false} MultisetTail(a: seq<nat>)
    requires a != []
    ensures multiset(a[1..]) == multiset(a) - multiset{a[0]}
  {
    assert a == [a[0]] + a[1..];
    assert multiset(a) == multiset{a[0]} + multiset(a[1..]);
  }

  lemma {:induction false} SameHead(a: seq<nat>, b: seq<nat>)
    requires Ascending(a) && Ascending(b) && a != [] && b != []
    requires forall x :: x in a <==> x in b
    ensures a[0] == b[0]
  {
    assert a[0] in b && b[0] in a;
  }

  lemma {:induction false} AscendingUnique(a: seq<nat>, b: seq<nat>)
    requires Ascending(a) && Ascending(b) && multiset(a) == multiset(b)
    ensures a == b
  {
    SameElements(a, b);
    if a != [] {
      SameHead(a, b);
      MultisetTail(a);
      MultisetTail(b);
      AscendingUnique(a[1..], b[1..]);
    }
  }

  lemma {:induction false} CountPermutation(a: seq<nat>, b: seq<nat>, v: nat)
    requires multiset(a) == multiset(b)
    ensures CountUpTo(a, v) == CountUpTo(b, v)
  {
    SortSorts(a);
    SortSorts(b);
    AscendingUnique(Sort(a), Sort(b));
    SortCounts(a, v);
    SortCounts(b, v);
  }

  // ---- percentiles ----

  lemma {:induction false} CountNone(s: seq<nat>, v: nat)
    requires forall i :: 0 <= i < |s| ==> v < s[i]
    ensures CountUpTo(s, v) == 0
  {
    if s != [] { CountNone(s[1..], v); }
  }

  /** In ascending order, exactly the positions up to the last v count. */
  lemma {:induction false} CountAscending(s: seq<nat>, v: nat, k: nat)
    requires Ascending(s) && k < |s|
    ensures s[k] <= v ==> CountUpTo(s, v) >= k + 1
    ensures v < s[k] ==> CountUpTo(s, v) <= k
  {
    if k == 0 {
      if v < s[0] { CountNone(s, v); }
    } else {
      CountAscending(s[1..], v, k - 1);
    }
  }

  /** The nearest rank, ceiling(p * count / 100). */
  function KthRank(p: nat, count: nat): nat { (p * count + 100 - 1) / 100 }

  lemma {:induction false} RankBounds(p: nat, count: nat)
    requires 1 <= p <= 100 && count >= 1
    ensures 1 <= KthRank(p, count) <= count
    ensures 100 * KthRank(p, count) >= p * count > 100 * (KthRank(p, count) - 1)
  {
    assert p * count >= 1 && p * count <= 100 * count;
  }

  lemma {:induction false} NearestRank(fees: seq<nat>, s: seq<nat>, p: nat)
    requires fees != [] && s == Sort(fees) && 1 <= p <= 100
    ensures |s| == |fees| && 1 <= KthRank(p, |s|) <= |s|
    ensures IsPercentile(fees, p, s[KthRank(p, |s|) - 1])
  {
    SortSorts(fees);
    SameElements(fees, s);
    RankBounds(p, |s|);
    var k := KthRank(p, |s|) - 1;
    CountAscending(s, s[k], k);
    SortCounts(fees, s[k]);
    forall u | u in fees && u < s[k] ensures 100 * CountUpTo(fees, u) < p * |fees| {
      CountAscending(s, u, k);
      SortCounts(fees, u);
    }
  }

  // ---- the mode ----

  /** Where the scan of an ascending sequence stands after its first i fees. */
  ghost predicate Scanned(s: seq<nat>, i: nat, mode: nat, lastVal: nat, maxRepetitions: nat, localRepetitions: nat)
    requires 1 <= i <= |s|
  {
    var seen := multiset(s[..i]);
    && lastVal == s[i - 1] && seen[lastVal] == localRepetitions + 1
    && (lastVal == s[0] ==> mode == s[0] && maxRepetitions == 0)
    && (lastVal > s[0] ==>
          && mode < lastVal && mode in s && seen[mode] == maxRepetitions + 1
          && (forall u :: u < mode ==> seen[u] <= maxRepetitions)
          && (forall u :: u < lastVal ==> seen[u] <= maxRepetitions + 1))
  }

  lemma {:induction false} SeenNext(s: seq<nat>, i: nat)
    requires Ascending(s) && 1 <= i < |s|
    ensures forall u :: multiset(s[..i + 1])[u] == multiset(s[..i])[u] + if u == s[i] then 1 else 0
    ensures forall u :: multiset(s[..i])[u] > 0 ==> s[0] <= u <= s[i - 1]
    ensures s[0] <= s[i - 1] <= s[i] && s[0] in s && s[i - 1] in s && s[i] in s
  {
    assert s[..i + 1] == s[..i] + [s[i]];
    assert multiset(s[..i + 1]) == multiset(s[..i]) + multiset{s[i]};
    forall u | multiset(s[..i])[u] > 0 ensures s[0] <= u <= s[i - 1] { SeenPrefix(s, i, u); }
  }

  lemma {:induction false} SeenPrefix(s: seq<nat>, i: nat, u: nat)
    requires Ascending(s) && 1 <= i <= |s| && multiset(s[..i])[u] > 0
    ensures s[0] <= u <= s[i - 1]
  {
    assert u in multiset(s[..i]);
    assert u in s[..i];
    var j :| 0 <= j < i && s[j] == u;
  }

  lemma {:induction false} ScanSame(s: seq<nat>, i: nat, mode: nat, lastVal: nat, maxRepetitions: nat,
      localRepetitions: nat)
    requires Ascending(s) && 1 <= i < |s| && Scanned(s, i, mode, lastVal, maxRepetitions, localRepetitions)
    requires s[i] == lastVal
    ensures Scanned(s, i + 1, mode, lastVal, maxRepetitions, localRepetitions + 1)
  {
    SeenNext(s, i);
    hide Ascending;
    var (seen, next) := (multiset(s[..i]), multiset(s[..i + 1]));
    assert forall u :: next[u] == seen[u] + if u == s[i] then 1 else 0;
  }

  lemma {:induction false} ScanOther(s: seq<nat>, i: nat, mode: nat, lastVal: nat, maxRepetitions: nat,
      localRepetitions: nat)
    requires Ascending(s) && 1 <= i < |s| && Scanned(s, i, mode, lastVal, maxRepetitions, localRepetitions)
    requires s[i] != lastVal
    ensures localRepetitions > maxRepetitions ==> Scanned(s, i + 1, lastVal, s[i], localRepetitions, 0)
    ensures localRepetitions <= maxRepetitions ==> Scanned(s, i + 1, mode, s[i], maxRepetitions, 0)
  {
    if localRepetitions > maxRepetitions {
      ScanNewMode(s, i, mode, lastVal, maxRepetitions, localRepetitions);
    } else {
      ScanSameMode(s, i, mode, lastVal, maxRepetitions, localRepetitions);
    }
  }

  lemma {:induction false} ScanNewMode(s: seq<nat>, i: nat, mode: nat, lastVal: nat, maxRepetitions: nat,
      localRepetitions: nat)
    requires Ascending(s) && 1 <= i < |s| && Scanned(s, i, mode, lastVal, maxRepetitions, localRepetitions)
    requires s[i] != lastVal && localRepetitions > maxRepetitions
    ensures Scanned(s, i + 1, lastVal, s[i], localRepetitions, 0)
  {
    SeenNext(s, i);
    hide Ascending;
    var (seen, next) := (multiset(s[..i]), multiset(s[..i + 1]));
    assert forall u :: next[u] == seen[u] + if u == s[i] then 1 else 0;
  }

  lemma {:induction false} ScanSameMode(s: seq<nat>, i: nat, mode: nat, lastVal: nat, maxRepetitions: nat,
      localRepetitions: nat)
    requires Ascending(s) && 1 <= i < |s| && Scanned(s, i, mode, lastVal, maxRepetitions, localRepetitions)
    requires s[i] != lastVal && localRepetitions <= maxRepetitions
    ensures Scanned(s, i + 1, mode, s[i], maxRepetitions, 0)
  {
    SeenNext(s, i);
    hide Ascending;
    var (seen, next) := (multiset(s[..i]), multiset(s[..i + 1]));
    assert forall u :: next[u] == seen[u] + if u == s[i] then 1 else 0;
  }

  lemma {:induction false} ScanEnds(s: seq<nat>, mode: nat, lastVal: nat, maxRepetitions: nat, localRepetitions: nat)
    requires Ascending(s) && s != [] && Scanned(s, |s|, mode, lastVal, maxRepetitions, localRepetitions)
    ensures IsMode(s, if localRepetitions > maxRepetitions then s[|s| - 1] else mode)
  {
    assert s[..|s|] == s;
    assert forall u :: u in s ==> u in multiset(s) && s[0] <= u <= lastVal;
  }

  lemma {:induction false} ModePermutation(a: seq<nat>, b: seq<nat>, v: nat)
    requires multiset(a) == multiset(b) && IsMode(a, v)
    ensures IsMode(b, v)
  {
    SameElements(a, b);
  }

  lemma {:induction false} SortedEnds(fees: seq<nat>)
    requires fees != []
    ensures var s := Sort(fees);
            |s| == |fees| && Ascending(s) && multiset(s) == multiset(fees) && IsMin(fees, s[0])
              && IsMax(fees, s[|s| - 1])
  {
    SortSorts(fees);
    SameElements(fees, Sort(fees));
  }

  method SortFees(fees: array<nat>)
    modifies fees
    ensures fees[..] == Sort(old(fees[..]))
  {
    var s := Sort(fees[..]);
    SortSorts(fees[..]);
    forall i | 0 <= i < fees.Length { fees[i] := s[i]; }
  }

  method ModeOf(fees: array<nat>) returns (mode: nat)
    requires fees.Length > 0 && Ascending(fees[..])
    ensures IsMode(fees[..], mode)
  {
    ghost var s := fees[..];
    mode := fees[0];
    var lastVal, maxRepetitions, localRepetitions := fees[0], 0, 0;
    assert s[..1] == [s[0]];
    for i := 1 to fees.Length
      invariant Scanned(s, i, mode, lastVal, maxRepetitions, localRepetitions)
    {
      if fees[i] == lastVal {
        ScanSame(s, i, mode, lastVal, maxRepetitions, localRepetitions);
        localRepetitions := localRepetitions + 1;
      } else {
        ScanOther(s, i, mode, lastVal, maxRepetitions, localRepetitions);
        if localRepetitions > maxRepetitions {
          maxRepetitions := localRepetitions;
          mode := lastVal;
        }
        lastVal := fees[i];
        localRepetitions := 0;
      }
    }
    ScanEnds(s, mode, lastVal, maxRepetitions, localRepetitions);
    if localRepetitions > maxRepetitions { mode := fees[fees.Length - 1]; }
  }

  method Percentile(fees: array<nat>, p: nat, ghost unsorted: seq<nat>) returns (v: nat)
    requires fees.Length > 0 && 1 <= p <= 100 && fees[..] == Sort(unsorted) && |unsorted| == fees.Length
    ensures IsPercentile(unsorted, p, v)
  {
    NearestRank(unsorted, fees[..], p);
    var kth := (p * fees.Length + 100 - 1) / 100;
    v := fees[kth - 1];
  }

  method ComputeFeeDistribution(fees: array<nat>, ledgerCount: nat) returns (d: FeeDistribution)
    modifies fees
    ensures fees[..] == Sort(old(fees[..])) || old(fees[..]) == []
    ensures Describes(d, old(fees[..]), ledgerCount)
  {
    if fees.Length == 0 { return NO_FEES; }
    ghost var unsorted := fees[..];
    SortFees(fees);
    SortedEnds(unsorted);
    var mode := ModeOf(fees);
    ModePermutation(fees[..], unsorted, mode);
    var p10 := Percentile(fees, 10, unsorted);
    var p20 := Percentile(fees, 20, unsorted);
    var p30 := Percentile(fees, 30, unsorted);
    var p40 := Percentile(fees, 40, unsorted);
    var p50 := Percentile(fees, 50, unsorted);
    var p60 := Percentile(fees, 60, unsorted);
    var p70 := Percentile(fees, 70, unsorted);
    var p80 := Percentile(fees, 80, unsorted);
    var p90 := Percentile(fees, 90, unsorted);
    var p95 := Percentile(fees, 95, unsorted);
    var p99 := Percentile(fees, 99, unsorted);
    var n := fees.Length;
    d := FeeDistribution(fees[n - 1], fees[0], mode, p10, p20, p30, p40, p50, p60, p70, p80, p90, p95, p99,
                         n % UINT32_SIZE, ledgerCount);
  }

  // ---- the numbers are determined by the fees, in whatever order ----

  lemma {:induction false} PercentileUnique(a: seq<nat>, b: seq<nat>, p: nat, v: nat, w: nat)
    requires multiset(a) == multiset(b) && IsPercentile(a, p, v) && IsPercentile(b, p, w)
    ensures v == w
  {
    SameElements(a, b);
    CountPermutation(a, b, v);
    CountPermutation(a, b, w);
  }

  /** A larger percentage never gives a smaller percentile. */
  lemma {:induction false} PercentileMonotone(fees: seq<nat>, p: nat, q: nat, v: nat, w: nat)
    requires p <= q && IsPercentile(fees, p, v) && IsPercentile(fees, q, w)
    ensures v <= w
  {
    hide CountUpTo;
    Scaled(p, q, |fees|);
  }

  lemma {:induction false} Scaled(p: nat, q: nat, n: nat)
    requires p <= q
    ensures p * n <= q * n
  {
  }

  /** The published numbers ascend. */
  lemma {:induction false} DistributionAscends(d: FeeDistribution, fees: seq<nat>, ledgers: nat)
    requires Describes(d, fees, ledgers)
    ensures d.min <= d.p10 <= d.p20 <= d.p30 <= d.p40 <= d.p50
    ensures d.p50 <= d.p60 <= d.p70 <= d.p80 <= d.p90 <= d.p95 <= d.p99 <= d.max
  {
    if fees != [] {
      assert d.min <= d.p10 && d.p99 <= d.max;
      PercentileMonotone(fees, 10, 20, d.p10, d.p20);
      PercentileMonotone(fees, 20, 30, d.p20, d.p30);
      PercentileMonotone(fees, 30, 40, d.p30, d.p40);
      PercentileMonotone(fees, 40, 50, d.p40, d.p50);
      PercentileMonotone(fees, 50, 60, d.p50, d.p60);
      PercentileMonotone(fees, 60, 70, d.p60, d.p70);
      PercentileMonotone(fees, 70, 80, d.p70, d.p80);
      PercentileMonotone(fees, 80, 90, d.p80, d.p90);
      PercentileMonotone(fees, 90, 95, d.p90, d.p95);
      PercentileMonotone(fees, 95, 99, d.p95, d.p99);
    }
  }

  lemma {:induction false} ModeUnique(a: seq<nat>, b: seq<nat>, v: nat, w: nat)
    requires multiset(a) == multiset(b) && IsMode(a, v) && IsMode(b, w)
    ensures v == w
  {
    SameElements(a, b);
  }

  lemma {:induction false} DistributionUnique(a: seq<nat>, b: seq<nat>, d: FeeDistribution, e: FeeDistribution,
      ledgers: nat)
    requires multiset(a) == multiset(b) && Describes(d, a, ledgers) && Describes(e, b, ledgers)
    ensures d == e
  {
    SameElements(a, b);
    if a != [] {
      ModeUnique(a, b, d.mode, e.mode);
      PercentileUnique(a, b, 10, d.p10, e.p10);
      PercentileUnique(a, b, 20, d.p20, e.p20);
      PercentileUnique(a, b, 30, d.p30, e.p30);
      PercentileUnique(a, b, 40, d.p40, e.p40);
      PercentileUnique(a, b, 50, d.p50, e.p50);
      PercentileUnique(a, b, 60, d.p60, e.p60);
      PercentileUnique(a, b, 70, d.p70, e.p70);
      PercentileUnique(a, b, 80, d.p80, e.p80);
      PercentileUnique(a, b, 90, d.p90, e.p90);
      PercentileUnique(a, b, 95, d.p95, e.p95);
      PercentileUnique(a, b, 99, d.p99, e.p99);
    }
  }

  // ---- the window ----

  /** All fees of a window, oldest ledger first. */
  function AllFees(w: seq<LedgerBucket<seq<nat>>>): seq<nat> {
    if w == [] then [] else AllFees(w[..|w| - 1]) + w[|w| - 1].content
  }

  lemma {:induction false} AllFeesConcat(a: seq<LedgerBucket<seq<nat>>>, b: seq<LedgerBucket<seq<nat>>>)
    ensures AllFees(a + b) == AllFees(a) + AllFees(b)
    ensures |b| == 1 ==> AllFees(b) == b[0].content
  {
    if b == [] {
      assert a + b == a;
    } else {
      var (front, l) := (b[..|b| - 1], b[|b| - 1]);
      AllFeesConcat(a, front);
      assert (a + b)[..|a + b| - 1] == a + front;
      ConcatAssociates(AllFees(a), AllFees(front), l.content);
      if |b| == 1 { assert AllFees(front) == []; }
    }
  }

  class FeeWindow {
    const feesPerLedger: LedgerBucketWindow<seq<nat>>
    var distribution: FeeDistribution

    ghost predicate Valid()
      reads this, feesPerLedger, feesPerLedger.buckets
    {
      && feesPerLedger.Valid()
      && Describes(distribution, AllFees(feesPerLedger.Contents()), feesPerLedger.length)
    }

    constructor (retentionWindow: nat)
      requires 1 <= retentionWindow < UINT32_SIZE
      ensures Valid() && fresh(feesPerLedger) && fresh(feesPerLedger.buckets)
      ensures feesPerLedger.Contents() == [] && feesPerLedger.buckets.Length == retentionWindow
    {
      feesPerLedger := new LedgerBucketWindow<seq<nat>>(retentionWindow);
      distribution := NO_FEES;
    }

    /** The published distribution is always that of the ledgers in the window; a refused ledger changes nothing. */
    method AppendLedgerFees(fees: LedgerBucket<seq<nat>>) returns (r: Option<AppendError>)
      requires Valid()
      modifies this, feesPerLedger, feesPerLedger.buckets
      ensures Valid()
      ensures var next := Appended(feesPerLedger.buckets.Length, old(feesPerLedger.Contents()), fees);
              match next
              case Ok(w) => r == None && feesPerLedger.Contents() == w
              case Err(e) => r == Some(e) && feesPerLedger.Contents() == old(feesPerLedger.Contents())
                             && distribution == old(distribution)
    {
      hide Describes, AllFees, Appended;
      var appended := feesPerLedger.Append(fees);
      if appended.Err? { return Some(appended.error); }
      distribution := DistributionOf(feesPerLedger);
      return None;
    }
  }

  method DistributionOf(window: LedgerBucketWindow<seq<nat>>) returns (d: FeeDistribution)
    requires window.Valid()
    ensures Describes(d, AllFees(window.Contents()), window.length)
  {
    var allFees := GatherFees(window);
    var fees := new nat[|allFees|](i requires 0 <= i < |allFees| => allFees[i]);
    assert fees[..] == allFees;
    d := ComputeFeeDistribution(fees, window.length);
  }

  method GatherFees(window: LedgerBucketWindow<seq<nat>>) returns (allFees: seq<nat>)
    requires window.Valid()
    ensures allFees == AllFees(window.Contents())
  {
    allFees := [];
    ghost var w := window.Contents();
    for i := 0 to window.length
      invariant allFees == AllFees(w[..i])
    {
      var bucket := window.Get(i);
      assert w[..i + 1][..i] == w[..i];
      allFees := allFees + bucket.content;
    }
    assert w[..window.length] == w;
  }
}
