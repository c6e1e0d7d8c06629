/**
 Startup data migrations (cmd/stellar-rpc/internal/db/migration.go): the ledgers of a merged range are streamed
 once, and every migration takes those of its own range. The fee windows take part as one more migration.
 */
module Migrations {
  import opened Wrappers
  import opened Sequences
  import opened Chain
  import opened EventStore
  import opened Tables
  import opened Retention
  import opened FeeBuckets

  // ---- ranges ----

  datatype LedgerSeqRange = LedgerSeqRange(first: nat, last: nat)

  predicate Included(r: LedgerSeqRange, sequence: nat) { r.first <= sequence <= r.last }

  predicate Empty(r: LedgerSeqRange) { r.first == 0 && r.last == 0 }

  function Merge(a: LedgerSeqRange, b: LedgerSeqRange): LedgerSeqRange {
    if Empty(a) then b
    else if Empty(b) then a
    else LedgerSeqRange(Min(a.first, b.first), if a.last < b.last then b.last else a.last)
  }

  function MergedRange(rs: seq<LedgerSeqRange>): LedgerSeqRange {
    if rs == [] then LedgerSeqRange(0, 0) else Merge(rs[|rs| - 1], MergedRange(rs[..|rs| - 1]))
  }

  /** The least range that spans the non-empty ones. */
  predicate IsHull(r: LedgerSeqRange, rs: seq<LedgerSeqRange>) {
    if forall x :: x in rs ==> Empty(x) then Empty(r)
    else
      && !Empty(r)
      && (forall x :: x in rs && !Empty(x) ==> r.first <= x.first && x.last <= r.last)
      && (exists x :: x in rs && !Empty(x) && x.first == r.first)
      && (exists x :: x in rs && !Empty(x) && x.last == r.last)
  }

  lemma {:induction false} MergedIsHull(rs: seq<LedgerSeqRange>)
    ensures IsHull(MergedRange(rs), rs)
  {
    if rs != [] {
      var (front, last) := (rs[..|rs| - 1], rs[|rs| - 1]);
      MergedIsHull(front);
      assert rs == front + [last];
      assert forall x :: x in rs <==> x in front || x == last;
    }
  }

  lemma {:induction false} HullUnique(r: LedgerSeqRange, s: LedgerSeqRange, rs: seq<LedgerSeqRange>,
      ss: seq<LedgerSeqRange>)
    requires IsHull(r, rs) && IsHull(s, ss) && forall x :: x in rs <==> x in ss
    ensures r == s
  {
  }

  /** The merged range depends on which ranges there are, not on their order, and covers them all. */
  lemma {:induction false} MergedOrderIndependent(rs: seq<LedgerSeqRange>, ss: seq<LedgerSeqRange>)
    requires forall x :: x in rs <==> x in ss
    ensures MergedRange(rs) == MergedRange(ss)
    ensures forall x, l :: x in rs && l > 0 && Included(x, l) ==> Included(MergedRange(rs), l)
  {
    MergedIsHull(rs);
    MergedIsHull(ss);
    HullUnique(MergedRange(rs), MergedRange(ss), rs, ss);
  }

  // ---- migrations ----

  datatype Kind = TransactionsTable | EventsTable | FeeStatistics

  datatype Migration = Migration(kind: Kind, range: LedgerSeqRange)

  predicate Distinct(ms: seq<Migration>) {
    forall i, j :: 0 <= i < j < |ms| ==> ms[i].kind != ms[j].kind
  }

  function Ranges(ms: seq<Migration>): (rs: seq<LedgerSeqRange>)
    ensures |rs| == |ms| && forall i :: 0 <= i < |ms| ==> rs[i] == ms[i].range
  {
    seq(|ms|, i requires 0 <= i < |ms| => ms[i].range)
  }

  /** What the migrations build: the two tables, in the open database transaction, and the fee windows. */
  datatype Progress = Progress(txs: TxTable, events: EventTable, fees: FeeState)

  function ApplyOne(p: Progress, m: Migration, l: Ledger): (r: Option<Progress>)
    requires ValidFees(p.fees) && WellFormed(l)
    ensures r.Some? ==> ValidFees(r.value.fees)
  {
    if !Included(m.range, l.sequence) then Some(p)
    else match m.kind
      case TransactionsTable =>
        (match InsertTxRows(p.txs, l) case Some(t) => Some(p.(txs := t)) case None => None)
      case EventsTable =>
        (match InsertEventsOf(p.events, l) case Some(t) => Some(p.(events := t)) case None => None)
      case FeeStatistics =>
        var (fees, accepted) := IngestFees(p.fees, l);
        if accepted then Some(p.(fees := fees)) else None
  }

  /** MultiMigration.Apply; any failure ends the process and its open transaction. */
  function ApplyAll(p: Progress, ms: seq<Migration>, l: Ledger): (r: Option<Progress>)
    requires ValidFees(p.fees) && WellFormed(l)
    ensures r.Some? ==> ValidFees(r.value.fees)
  {
    if ms == [] then Some(p)
    else match ApplyAll(p, ms[..|ms| - 1], l)
      case None => None
      case Some(q) => ApplyOne(q, ms[|ms| - 1], l)
  }

  function Stream(p: Progress, ms: seq<Migration>, ls: seq<Ledger>): (r: Option<Progress>)
    requires ValidFees(p.fees) && forall i :: 0 <= i < |ls| ==> WellFormed(ls[i])
    ensures r.Some? ==> ValidFees(r.value.fees)
  {
    if ls == [] then Some(p)
    else match Stream(p, ms, ls[..|ls| - 1])
      case None => None
      case Some(q) => ApplyAll(q, ms, ls[|ls| - 1])
  }

  // ---- what a migration has achieved ----

  /** The streamed ledgers that concern a migration. */
  function Share(m: Migration, done: seq<Ledger>): seq<Ledger> { Between(done, m.range.first, m.range.last) }

  /** Each ledger of the migration's range has been applied exactly once. */
  ghost predicate Achieved(p: Progress, m: Migration, done: seq<Ledger>)
    requires Contiguous(done)
  {
    BetweenContiguous(done, m.range.first, m.range.last);
    match m.kind
    case TransactionsTable => TxsHold(p.txs, Share(m, done))
    case EventsTable => Holds(p.events, EventsOf(Share(m, done)))
    case FeeStatistics => FeesRemember(p.fees, Share(m, done))
  }

  /** Nothing but the given kinds has changed. */
  ghost predicate OnlyTouched(p: Progress, q: Progress, ms: seq<Migration>) {
    && ((forall m :: m in ms ==> m.kind != TransactionsTable) ==> q.txs == p.txs)
    && ((forall m :: m in ms ==> m.kind != EventsTable) ==> q.events == p.events)
    && ((forall m :: m in ms ==> m.kind != FeeStatistics) ==> q.fees == p.fees)
    && q.fees.classicCap == p.fees.classicCap && q.fees.sorobanCap == p.fees.sorobanCap
  }

  lemma {:induction false} ShareNext(m: Migration, done: seq<Ledger>, l: Ledger)
    requires Contiguous(done + [l])
    ensures Contiguous(done) && Contiguous(Share(m, done)) && Contiguous(Share(m, done + [l])) && WellFormed(l)
    ensures Share(m, done + [l]) == if Included(m.range, l.sequence) then Share(m, done) + [l] else Share(m, done)
  {
    ContiguousParts(done, l);
    BetweenAppend(done, l, m.range.first, m.range.last);
    BetweenContiguous(done, m.range.first, m.range.last);
    BetweenContiguous(done + [l], m.range.first, m.range.last);
  }

  lemma {:induction false} FeesKeepCaps(f: FeeState, l: Ledger)
    requires ValidFees(f) && WellFormed(l)
    ensures IngestFees(f, l).0.classicCap == f.classicCap && IngestFees(f, l).0.sorobanCap == f.sorobanCap
  {
  }

  lemma {:induction false} OneTouches(p: Progress, m: Migration, l: Ledger)
    requires ValidFees(p.fees) && WellFormed(l) && ApplyOne(p, m, l).Some?
    ensures OnlyTouched(p, ApplyOne(p, m, l).value, [m])
  {
    hide IngestFees;
    FeesKeepCaps(p.fees, l);
    assert m in [m];
  }

  lemma {:induction false} OneAchieves(p: Progress, m: Migration, done: seq<Ledger>, l: Ledger)
    requires ValidFees(p.fees) && Contiguous(done + [l]) && Contiguous(done) && WellFormed(l)
    requires Achieved(p, m, done) && ApplyOne(p, m, l).Some?
    ensures Achieved(ApplyOne(p, m, l).value, m, done + [l])
  {
    hide Between, TxsHold, Holds, IngestFees, InsertTxRows, InsertEventsOf, Contiguous, WellFormed;
    ShareNext(m, done, l);
    if Included(m.range, l.sequence) {
      match m.kind
      case TransactionsTable => InsertTxsHold(p.txs, Share(m, done), l);
      case EventsTable => InsertEventsOfHold(p.events, Share(m, done), l);
      case FeeStatistics => FeesNext(p.fees, Share(m, done), l);
    }
  }

  lemma {:induction false} UntouchedAchieved(p: Progress, q: Progress, m: Migration, other: Migration,
      done: seq<Ledger>)
    requires Contiguous(done) && Achieved(p, m, done) && OnlyTouched(p, q, [other]) && m.kind != other.kind
    ensures Achieved(q, m, done)
  {
    assert forall x :: x in [other] ==> x == other;
  }

  lemma {:induction false} TouchedTwice(p: Progress, q: Progress, r: Progress, ms: seq<Migration>, m: Migration)
    requires OnlyTouched(p, q, ms) && OnlyTouched(q, r, [m])
    ensures OnlyTouched(p, r, ms + [m])
  {
    assert m in [m] && m in ms + [m];
    assert forall x :: x in ms ==> x in ms + [m];
  }

  /** One streamed ledger: each migration moves on by it, whatever the order. */
  lemma {:induction false} AllAchieve(p: Progress, ms: seq<Migration>, done: seq<Ledger>, l: Ledger)
    requires ValidFees(p.fees) && Distinct(ms) && Contiguous(done + [l]) && Contiguous(done) && WellFormed(l)
    requires forall m :: m in ms ==> Achieved(p, m, done)
    requires ApplyAll(p, ms, l).Some?
    ensures forall m :: m in ms ==> Achieved(ApplyAll(p, ms, l).value, m, done + [l])
    ensures OnlyTouched(p, ApplyAll(p, ms, l).value, ms)
  {
    hide Achieved, Contiguous, WellFormed, ApplyOne;
    if ms == [] {
    } else {
      var (front, last) := (ms[..|ms| - 1], ms[|ms| - 1]);
      assert ms == front + [last];
      AllAchieve(p, front, done, l);
      var q := ApplyAll(p, front, l).value;
      var r := ApplyOne(q, last, l).value;
      OneTouches(q, last, l);
      TouchedTwice(p, q, r, front, last);
      UntouchedStays(p, q, front, last, done);
      OneAchieves(q, last, done, l);
      forall m | m in front ensures Achieved(r, m, done + [l]) {
        KindsDiffer(front, last, m);
        UntouchedAchieved(q, r, m, last, done + [l]);
      }
    }
  }

  lemma {:induction false} KindsDiffer(front: seq<Migration>, last: Migration, m: Migration)
    requires Distinct(front + [last]) && m in front
    ensures m.kind != last.kind
  {
    var i :| 0 <= i < |front| && front[i] == m;
    ConcatIndex(front, [last], i);
    ConcatIndex(front, [last], |front|);
  }

  lemma {:induction false} UntouchedStays(p: Progress, q: Progress, front: seq<Migration>, last: Migration,
      done: seq<Ledger>)
    requires Contiguous(done) && Distinct(front + [last]) && OnlyTouched(p, q, front) && Achieved(p, last, done)
    ensures Achieved(q, last, done)
  {
    forall m | m in front ensures m.kind != last.kind { KindsDiffer(front, last, m); }
  }

  /** After streaming, every migration has been applied to exactly the streamed ledgers of its range. */
  lemma {:induction false} StreamAchieves(p: Progress, ms: seq<Migration>, ls: seq<Ledger>)
    requires ValidFees(p.fees) && Distinct(ms) && Contiguous(ls)
    requires forall m :: m in ms ==> Achieved(p, m, [])
    requires Stream(p, ms, ls).Some?
    ensures forall m :: m in ms ==> Achieved(Stream(p, ms, ls).value, m, ls)
    ensures OnlyTouched(p, Stream(p, ms, ls).value, ms)
  {
    hide Achieved, Contiguous, WellFormed, ApplyOne;
    if ls == [] {
    } else {
      var (front, l) := (ls[..|ls| - 1], ls[|ls| - 1]);
      assert ls == front + [l];
      ContiguousParts(front, l);
      StreamAchieves(p, ms, front);
      var q := Stream(p, ms, front).value;
      AllAchieve(q, ms, front, l);
    }
  }

  // ---- when streaming fails ----

  /** A ledger can be applied to a migration: only the transactions index may refuse it. */
  ghost predicate Fits(p: Progress, m: Migration, l: Ledger) {
    m.kind == TransactionsTable && Included(m.range, l.sequence) ==> InsertTxRows(p.txs, l).Some?
  }

  lemma {:induction false} OneSucceeds(p: Progress, m: Migration, done: seq<Ledger>, l: Ledger)
    requires ValidFees(p.fees) && Contiguous(done + [l]) && Contiguous(done) && WellFormed(l) && Achieved(p, m, done)
    ensures ApplyOne(p, m, l).Some? <==> Fits(p, m, l)
  {
    hide Between, TxsHold, Holds, IngestFees, InsertTxRows, InsertEventsOf, Contiguous, WellFormed;
    ShareNext(m, done, l);
    if Included(m.range, l.sequence) {
      match m.kind
      case TransactionsTable =>
      case EventsTable => InsertEventsOfHold(p.events, Share(m, done), l);
      case FeeStatistics => FeesNext(p.fees, Share(m, done), l);
    }
  }

  lemma {:induction false} AllSucceed(p: Progress, ms: seq<Migration>, done: seq<Ledger>, l: Ledger)
    requires ValidFees(p.fees) && Distinct(ms) && Contiguous(done + [l]) && Contiguous(done) && WellFormed(l)
    requires forall m :: m in ms ==> Achieved(p, m, done)
    ensures ApplyAll(p, ms, l).Some? <==> forall m :: m in ms ==> Fits(p, m, l)
  {
    hide Achieved, Contiguous, WellFormed, ApplyOne;
    if ms != [] {
      var (front, last) := (ms[..|ms| - 1], ms[|ms| - 1]);
      assert ms == front + [last];
      assert forall m :: m in ms <==> m in front || m == last;
      AllSucceed(p, front, done, l);
      if ApplyAll(p, front, l).Some? {
        var q := ApplyAll(p, front, l).value;
        AllAchieve(p, front, done, l);
        UntouchedStays(p, q, front, last, done);
        OneSucceeds(q, last, done, l);
        if last.kind == TransactionsTable {
          forall m | m in front ensures m.kind != TransactionsTable { KindsDiffer(front, last, m); }
        }
      }
    }
  }

  /** Streaming fails exactly when a transactions migration meets one hash in two ledgers of its range. */
  lemma {:induction false} StreamSucceeds(p: Progress, ms: seq<Migration>, ls: seq<Ledger>)
    requires ValidFees(p.fees) && Distinct(ms) && Contiguous(ls)
    requires forall m :: m in ms ==> Achieved(p, m, [])
    ensures Stream(p, ms, ls).Some?
      <==> forall m :: m in ms && m.kind == TransactionsTable ==> HashesDistinct(Share(m, ls))
  {
    hide Contiguous, WellFormed, Between, InsertTxRows, TxsHold, ApplyAll, Distinct, HashesDistinct;
    if ls == [] {
      forall m | m in ms ensures HashesDistinct(Share(m, [])) { ShareOfNone(m); }
    } else {
      var (front, l) := (ls[..|ls| - 1], ls[|ls| - 1]);
      assert ls == front + [l];
      ContiguousParts(front, l);
      StreamSucceeds(p, ms, front);
      forall m | m in ms ensures HashesDistinct(Share(m, ls)) ==> HashesDistinct(Share(m, front)) {
        ShareNext(m, front, l);
        DistinctNext(Share(m, front), l);
      }
      if Stream(p, ms, front).Some? {
        var q := Stream(p, ms, front).value;
        StreamAchieves(p, ms, front);
        AllSucceed(q, ms, front, l);
        forall m | m in ms && m.kind == TransactionsTable ensures HashesDistinct(Share(m, ls)) <==> Fits(q, m, l) {
          FitsWhenDistinct(q, m, front, l);
        }
      }
    }
  }

  lemma {:induction false} ShareOfNone(m: Migration)
    ensures Share(m, []) == [] && HashesDistinct(Share(m, []))
  {
  }

  lemma {:induction false} FitsWhenDistinct(q: Progress, m: Migration, front: seq<Ledger>, l: Ledger)
    requires Contiguous(front + [l]) && Contiguous(front) && m.kind == TransactionsTable && Achieved(q, m, front)
    requires HashesDistinct(Share(m, front))
    ensures HashesDistinct(Share(m, front + [l])) <==> Fits(q, m, l)
  {
    hide Contiguous, Between, InsertTxRows, TxsHold, HashesDistinct, TxRows;
    ShareNext(m, front, l);
    DistinctNext(Share(m, front), l);
    InsertRefused(q.txs, Share(m, front), l);
  }

  /** Without an events migration, streaming leaves the event table alone. */
  lemma {:induction false} StreamLeavesEvents(p: Progress, ms: seq<Migration>, ls: seq<Ledger>)
    requires ValidFees(p.fees) && forall i :: 0 <= i < |ls| ==> WellFormed(ls[i])
    requires (forall m :: m in ms ==> m.kind != EventsTable) && Stream(p, ms, ls).Some?
    ensures Stream(p, ms, ls).value.events == p.events
  {
    hide ApplyAll, WellFormed;
    if ls != [] {
      var front := ls[..|ls| - 1];
      StreamLeavesEvents(p, ms, front);
      AllLeaveEvents(Stream(p, ms, front).value, ms, ls[|ls| - 1]);
    }
  }

  lemma {:induction false} AllLeaveEvents(p: Progress, ms: seq<Migration>, l: Ledger)
    requires ValidFees(p.fees) && WellFormed(l)
    requires (forall m :: m in ms ==> m.kind != EventsTable) && ApplyAll(p, ms, l).Some?
    ensures ApplyAll(p, ms, l).value.events == p.events
  {
    hide WellFormed, IngestFees, InsertTxRows, InsertEventsOf;
    if ms != [] {
      AllLeaveEvents(p, ms[..|ms| - 1], l);
      assert ms[|ms| - 1] in ms;
    }
  }
}
