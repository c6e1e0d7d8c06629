/**
 What is on disk and how it changes (cmd/stellar-rpc/internal/db, cmd/stellar-rpc/internal/daemon/daemon.go):
 the three tables, the guards of the data migrations, the writes of one ledger, and the startup migrations.
 */
module Storage {
  import opened UInt32
  import opened Wrappers
  import opened Sequences
  import opened Cursors
  import opened Chain
  import opened EventStore
  import opened Tables
  import opened Retention
  import opened FeeBuckets
  import opened Migrations

  datatype Disk = Disk(ledgers: LedgerTable, txs: TxTable, events: EventTable, txsMigrated: bool, eventsMigrated: bool)

  const EMPTY_DISK := Disk(map[], map[], map[], false, false)

  // ---- SELECT MIN, MAX and ranges of the ledger table ----

  function Max(a: nat, b: nat): nat { if a < b then b else a }

  lemma {:induction false} GreatestExists(s: set<nat>)
    requires s != {}
    ensures exists m :: m in s && forall x :: x in s ==> x <= m
  {
    var m :| m in s;
    var others := s - {m};
    if others != {} {
      GreatestExists(others);
      var rest :| rest in others && forall x :: x in others ==> x <= rest;
      var g := Max(m, rest);
      assert g in s;
      forall x | x in s ensures x <= g {
        assert x == m || x in others;
      }
    } else {
      assert s == {m};
    }
  }

  function Greatest(s: set<nat>): (m: nat)
    requires s != {}
    ensures m in s && forall x :: x in s ==> x <= m
  {
    GreatestExists(s);
    var m :| m in s && forall x :: x in s ==> x <= m;
    m
  }

  /** The latest stored sequence number, 0 when nothing is stored. */
  function Latest(t: LedgerTable): nat {
    if t == map[] then 0 else Greatest(t.Keys)
  }

  /** SELECT ... WHERE first <= sequence <= last ORDER BY sequence. */
  function Rows(t: LedgerTable, first: nat, last: int): seq<Ledger>
    decreases last - first
  {
    if first > last then []
    else Rows(t, first, last - 1) + if last in t then [t[last]] else []
  }

  lemma {:induction false} Stored(t: LedgerTable, stored: seq<Ledger>, k: int)
    requires LedgersHold(t, stored) && Contiguous(stored)
    ensures k in t <==> stored != [] && stored[0].sequence <= k <= stored[|stored| - 1].sequence
    ensures k in t ==> t[k] == stored[k - stored[0].sequence]
  {
    if k in t {
      var i :| 0 <= i < |stored| && stored[i] == t[k];
      assert stored[0].sequence + i == k;
    }
    if stored != [] && stored[0].sequence <= k <= stored[|stored| - 1].sequence {
      var l := stored[k - stored[0].sequence];
      assert l in stored && l.sequence == k;
    }
  }

  lemma {:induction false} LatestHeld(t: LedgerTable, stored: seq<Ledger>)
    requires LedgersHold(t, stored) && Contiguous(stored)
    ensures stored == [] <==> t == map[]
    ensures Latest(t) == if stored == [] then 0 else stored[|stored| - 1].sequence
  {
    if stored != [] {
      Stored(t, stored, stored[|stored| - 1].sequence);
      Stored(t, stored, Latest(t));
    } else {
      forall k | k in t ensures false { Stored(t, stored, k); }
      assert t.Keys == {};
    }
  }

  /** A range query answers with the stored ledgers of the range. */
  lemma {:induction false} RowsBetween(t: LedgerTable, stored: seq<Ledger>, first: nat, last: int)
    requires LedgersHold(t, stored) && Contiguous(stored) && first >= 1
    ensures Rows(t, first, last) == Between(stored, first, last)
    decreases last - first
  {
    if first <= last {
      RowsBetween(t, stored, first, last - 1);
      Stored(t, stored, last);
      BetweenGrows(stored, first, last);
    }
  }

  // ---- one ledger's writes ----

  /** INSERT; a sequence number that exists violates the primary key. */
  function InsertLedger(t: LedgerTable, l: Ledger): Option<LedgerTable> {
    if l.sequence in t then None else Some(t[l.sequence := l])
  }

  /** The writes of ingestLedgerCloseMeta within the database transaction. */
  function Written(d: Disk, l: Ledger): Option<Disk>
    requires WellFormed(l)
  {
    match InsertLedger(d.ledgers, l)
    case None => None
    case Some(ledgers) =>
      match InsertTxRows(d.txs, l)
      case None => None
      case Some(txs) =>
        match InsertEventsOf(d.events, l)
        case None => None
        case Some(events) => Some(d.(ledgers := ledgers, txs := txs, events := events))
  }

  /** The deletes of a commit. */
  function Trimmed(d: Disk, latest: nat, window: nat): Disk
    requires latest < MAX_INT32
  {
    if latest + 1 <= window then d
    else
      var cutoff := latest + 1 - window;
      d.(ledgers := TrimLedgers(d.ledgers, cutoff), txs := TrimTxs(d.txs, cutoff),
        events := TrimTable(d.events, cutoff))
  }

  /**
   From which ledger on the lookup tables cover the stored ones, and the transaction rows that were there before
   and that no migration has cleared away.
   */
  datatype Coverage = Coverage(txFloor: nat, eventFloor: nat, relic: TxTable)

  /** The disk is exactly what it should be for the stored ledgers and the coverage of the lookup tables. */
  ghost predicate DiskHolds(d: Disk, stored: seq<Ledger>, c: Coverage) {
    && Contiguous(stored) && LedgersHold(d.ledgers, stored)
    && (d.txsMigrated ==> TxsHoldBeside(d.txs, c.relic, Since(stored, c.txFloor)))
    && (d.eventsMigrated ==> Holds(d.events, EventsOf(Since(stored, c.eventFloor))))
    && (!d.eventsMigrated ==> d.events == map[])
  }

  /** The first stored ledger that a commit keeps. */
  function Cutoff(latest: nat, window: nat): nat {
    if latest + 1 <= window then 0 else latest + 1 - window
  }

  lemma {:induction false} LedgersInsertHold(t: LedgerTable, stored: seq<Ledger>, l: Ledger)
    requires Contiguous(stored + [l]) && Contiguous(stored) && LedgersHold(t, stored)
    ensures InsertLedger(t, l).Some? && LedgersHold(InsertLedger(t, l).value, stored + [l])
  {
    assert (stored + [l])[|stored|] == l;
    Stored(t, stored, l.sequence);
    if stored != [] { assert (stored + [l])[0] == stored[0]; }
    assert forall m :: m in stored + [l] <==> m in stored || m == l;
    forall m | m in stored ensures m.sequence != l.sequence {
      assert m.sequence in t;
    }
  }

  lemma {:induction false} WrittenParts(d: Disk, l: Ledger)
    requires WellFormed(l)
    ensures var ledgers := InsertLedger(d.ledgers, l);
            var (txs, events) := (InsertTxRows(d.txs, l), InsertEventsOf(d.events, l));
            if ledgers.Some? && txs.Some? && events.Some?
            then Written(d, l) == Some(d.(ledgers := ledgers.value, txs := txs.value, events := events.value))
            else Written(d, l) == None
  {
    hide InsertLedger, InsertTxRows, InsertEventsOf;
  }

  /** The next ledger's rows join the tables; only a repeated transaction hash can refuse them. */
  lemma {:induction false} WrittenHolds(d: Disk, stored: seq<Ledger>, c: Coverage, l: Ledger)
    requires DiskHolds(d, stored, c) && d.txsMigrated && d.eventsMigrated
    requires Contiguous(stored + [l]) && WellFormed(l) && c.txFloor <= l.sequence && c.eventFloor <= l.sequence
    ensures Written(d, l).Some? <==>
      c.relic.Keys !! TxRows(l).Keys && forall m :: m in Since(stored, c.txFloor) ==> TxRows(m).Keys !! TxRows(l).Keys
    ensures Written(d, l).Some? ==>
      && DiskHolds(Written(d, l).value, stored + [l], c)
      && Written(d, l).value.txsMigrated && Written(d, l).value.eventsMigrated
  {
    hide Holds, TxsHoldBeside, LedgersHold, InsertEventsOf, InsertTxRows, InsertLedger, Written;
    hide Since, EventsOf, WellFormed, Contiguous, TxRows;
    WrittenParts(d, l);
    ContiguousParts(stored, l);
    LedgersInsertHold(d.ledgers, stored, l);
    SinceAppend(stored, l, c.txFloor);
    SinceAppend(stored, l, c.eventFloor);
    SinceSplit(stored + [l], c.eventFloor);
    assert Contiguous(Since(stored, c.eventFloor) + [l]);
    InsertEventsOfHold(d.events, Since(stored, c.eventFloor), l);
    InsertBeside(d.txs, c.relic, Since(stored, c.txFloor), l);
  }

  lemma {:induction false} SinceCommutes(ls: seq<Ledger>, a: int, b: int)
    requires Contiguous(ls)
    ensures Since(Since(ls, a), b) == Since(Since(ls, b), a)
  {
    SinceTwice(ls, a, b);
    SinceTwice(ls, b, a);
  }

  lemma {:induction false} SinceAll(ls: seq<Ledger>, from: int)
    requires from <= 0
    ensures Since(ls, from) == ls
  {
  }

  /** A commit trims the rows that were there before like all others. */
  function TrimmedCoverage(c: Coverage, latest: nat, window: nat): Coverage {
    if latest + 1 <= window then c else c.(relic := TrimTxs(c.relic, latest + 1 - window))
  }

  /** A commit keeps the ledgers from the cutoff on, and exactly their rows. */
  lemma {:induction false} TrimmedHolds(d: Disk, stored: seq<Ledger>, c: Coverage, latest: nat, window: nat)
    requires DiskHolds(d, stored, c) && latest < MAX_INT32 && window >= 1
    requires d.txsMigrated && d.eventsMigrated
    ensures var e := Trimmed(d, latest, window);
            && DiskHolds(e, Since(stored, Cutoff(latest, window)), TrimmedCoverage(c, latest, window))
            && e.txsMigrated && e.eventsMigrated
  {
    hide Holds, TxsHoldBeside, Since, TrimTable, TrimTxs, TrimLedgers, LedgersHold;
    var cutoff := Cutoff(latest, window);
    if latest + 1 <= window {
      SinceAll(stored, 0);
    } else {
      SinceSplit(stored, cutoff);
      SinceSplit(stored, c.txFloor);
      SinceSplit(stored, c.eventFloor);
      TrimLedgersHold(d.ledgers, stored, cutoff);
      TrimTxsSince(d.txs, c.relic, Since(stored, c.txFloor), cutoff);
      TrimEventsSince(d.events, Since(stored, c.eventFloor), cutoff);
      SinceCommutes(stored, c.txFloor, cutoff);
      SinceCommutes(stored, c.eventFloor, cutoff);
    }
  }

  /** Where the newest ledger is the last stored one, at most a window of ledgers stays, the newest among them. */
  lemma {:induction false} CutoffBounds(stored: seq<Ledger>, window: nat)
    requires Contiguous(stored) && stored != [] && window >= 1
    ensures var kept := Since(stored, Cutoff(stored[|stored| - 1].sequence, window));
            |kept| == Min(window, |stored|) && kept == stored[|stored| - |kept|..]
  {
  }

  // ---- startup ----

  /** GetMigrationLedgerRange. */
  function MigrationRange(latest: nat, window: nat): LedgerSeqRange {
    LedgerSeqRange(if latest > window then latest - window else FIRST_LEDGER, latest)
  }

  /** The range holds one ledger more than the window, if that many are stored. */
  lemma {:induction false} RangeHoldsOneMore(t: LedgerTable, stored: seq<Ledger>, window: nat)
    requires LedgersHold(t, stored) && Contiguous(stored)
    ensures var range := MigrationRange(Latest(t), window);
            && Between(stored, range.first, range.last) == stored[|stored| - Min(window + 1, |stored|)..]
  {
    LatestHeld(t, stored);
    if stored != [] { assert stored[..Before(stored, Latest(t) + 1)] == stored; }
  }

  /** The guarded migrations that are still to do, in the order a map iteration happens to give. */
  function Pending(d: Disk, range: LedgerSeqRange, txsFirst: bool): seq<Migration> {
    var txs := if d.txsMigrated then [] else [Migration(TransactionsTable, range)];
    var events := if d.eventsMigrated then [] else [Migration(EventsTable, range)];
    if txsFirst then txs + events else events + txs
  }

  function StartupMigrations(d: Disk, window: nat, classicCap: nat, sorobanCap: nat, txsFirst: bool): seq<Migration> {
    var latest := Latest(d.ledgers);
    Pending(d, MigrationRange(latest, window), txsFirst)
    + [Migration(FeeStatistics, MigrationRange(latest, Max(classicCap, sorobanCap)))]
  }

  /** Creating the transactions migration empties its table. */
  function StartupProgress(d: Disk, classicCap: nat, sorobanCap: nat): Progress {
    Progress(if d.txsMigrated then d.txs else map[], d.events, FeeState(classicCap, sorobanCap, [], []))
  }

  predicate RowsWellFormed(t: LedgerTable) { forall k :: k in t ==> WellFormed(t[k]) }

  lemma {:induction false} RowsWell(t: LedgerTable, first: nat, last: int)
    requires RowsWellFormed(t)
    ensures forall i :: 0 <= i < |Rows(t, first, last)| ==> WellFormed(Rows(t, first, last)[i])
    decreases last - first
  {
    if first <= last { RowsWell(t, first, last - 1); }
  }

  function Streamed(d: Disk, ms: seq<Migration>): (ls: seq<Ledger>)
    requires RowsWellFormed(d.ledgers)
    ensures forall i :: 0 <= i < |ls| ==> WellFormed(ls[i])
  {
    var merged := MergedRange(Ranges(ms));
    RowsWell(d.ledgers, merged.first, merged.last);
    Rows(d.ledgers, merged.first, merged.last)
  }

  /**
   mustInitializeStorage: the disk and the fee windows after startup. None stands for a fatal end, which leaves
   the disk as it was: everything happens in one database transaction.
   */
  function Startup(d: Disk, window: nat, classicCap: nat, sorobanCap: nat, txsFirst: bool): Option<(Disk, FeeState)>
    requires 1 <= classicCap < UINT32_SIZE && 1 <= sorobanCap < UINT32_SIZE && RowsWellFormed(d.ledgers)
  {
    if Max(classicCap, sorobanCap) > window then None
    else
      var ms := StartupMigrations(d, window, classicCap, sorobanCap, txsFirst);
      match Stream(StartupProgress(d, classicCap, sorobanCap), ms, Streamed(d, ms))
      case None => None
      case Some(q) => Some((Disk(d.ledgers, q.txs, q.events, true, true), q.fees))
  }

  lemma {:induction false} HoldRowsWell(t: LedgerTable, stored: seq<Ledger>)
    requires LedgersHold(t, stored) && Contiguous(stored)
    ensures RowsWellFormed(t)
  {
    forall k | k in t ensures WellFormed(t[k]) {
      assert t[k] in stored;
    }
  }

  lemma {:induction false} PendingKinds(d: Disk, range: LedgerSeqRange, txsFirst: bool, fees: LedgerSeqRange)
    ensures var ms := Pending(d, range, txsFirst) + [Migration(FeeStatistics, fees)];
            && Distinct(ms)
            && (forall m :: m in ms <==>
                  || (!d.txsMigrated && m == Migration(TransactionsTable, range))
                  || (!d.eventsMigrated && m == Migration(EventsTable, range))
                  || m == Migration(FeeStatistics, fees))
  {
    var ms := Pending(d, range, txsFirst) + [Migration(FeeStatistics, fees)];
    var (t, e, f) := (Migration(TransactionsTable, range), Migration(EventsTable, range),
      Migration(FeeStatistics, fees));
    assert ms == if d.txsMigrated then (if d.eventsMigrated then [f] else [e, f])
                 else if d.eventsMigrated then [t, f]
                 else if txsFirst then [t, e, f] else [e, t, f];
  }

  /** A migration's share of the streamed ledgers is its share of all stored ones: the merged range covers it. */
  lemma {:induction false} StreamedShare(d: Disk, stored: seq<Ledger>, ms: seq<Migration>, m: Migration)
    requires Contiguous(stored) && LedgersHold(d.ledgers, stored) && RowsWellFormed(d.ledgers)
    requires m in ms && forall x :: x in ms ==> x.range.first >= 1
    ensures Contiguous(Streamed(d, ms)) && Share(m, Streamed(d, ms)) == Share(m, stored)
  {
    var rs := Ranges(ms);
    var i :| 0 <= i < |ms| && ms[i] == m;
    assert rs[i] == m.range;
    forall x | x in rs ensures !Empty(x) {
      var j :| 0 <= j < |rs| && rs[j] == x;
      assert ms[j] in ms;
    }
    MergedIsHull(rs);
    var merged := MergedRange(rs);
    assert m.range in rs;
    assert merged.first <= m.range.first && m.range.last <= merged.last;
    HullFirst(merged, rs);
    RowsBetween(d.ledgers, stored, merged.first, merged.last);
    BetweenContiguous(stored, merged.first, merged.last);
    BetweenNarrows(stored, merged.first, merged.last, m.range.first, m.range.last);
  }

  lemma {:induction false} HullFirst(r: LedgerSeqRange, rs: seq<LedgerSeqRange>)
    requires IsHull(r, rs) && rs != [] && forall x :: x in rs ==> x.first >= 1
    ensures r.first >= 1
  {
    assert rs[0] in rs;
  }

  /** Everything stored is at most the latest ledger, so a range that ends there is a suffix. */
  lemma {:induction false} ShareIsSince(stored: seq<Ledger>, m: Migration, t: LedgerTable)
    requires Contiguous(stored) && LedgersHold(t, stored) && m.range.last == Latest(t)
    ensures Share(m, stored) == Since(stored, m.range.first)
  {
    LatestHeld(t, stored);
    if stored != [] { assert stored[..Before(stored, m.range.last + 1)] == stored; }
  }

  lemma {:induction false} NothingAchieved(p: Progress, m: Migration)
    requires ValidFees(p.fees)
    requires m.kind == TransactionsTable ==> p.txs == map[]
    requires m.kind == EventsTable ==> p.events == map[]
    requires m.kind == FeeStatistics ==> p.fees.classic == [] && p.fees.soroban == []
    ensures Achieved(p, m, [])
  {
    assert Share(m, []) == [];
  }

  /** The fee range reaches back one ledger further than any window holds. */
  lemma {:induction false} FeeRangeSuffices(f: FeeState, stored: seq<Ledger>, latest: nat)
    requires Contiguous(stored) && (stored != [] ==> latest == stored[|stored| - 1].sequence) && ValidFees(f)
    requires Contiguous(Since(stored, MigrationRange(latest, Max(f.classicCap, f.sorobanCap)).first))
    requires FeesRemember(f, Since(stored, MigrationRange(latest, Max(f.classicCap, f.sorobanCap)).first))
    ensures FeesRemember(f, stored)
  {
    FeesSuffix(f, stored, Before(stored, MigrationRange(latest, Max(f.classicCap, f.sorobanCap)).first));
  }

  /** The coverage after a startup that succeeds: what was still to migrate covers the retention range. */
  function StartedCoverage(d: Disk, window: nat, c: Coverage): Coverage {
    var floor := MigrationRange(Latest(d.ledgers), window).first;
    Coverage(if d.txsMigrated then c.txFloor else floor,
             if d.eventsMigrated then c.eventFloor else floor,
             if d.txsMigrated then c.relic else map[])
  }

  /** What one migration has achieved when the stream ends. */
  lemma {:induction false} MigrationDone(d: Disk, stored: seq<Ledger>, ms: seq<Migration>, m: Migration, p: Progress)
    requires Contiguous(stored) && LedgersHold(d.ledgers, stored) && RowsWellFormed(d.ledgers)
    requires m in ms && forall x :: x in ms ==> x.range.first >= 1
    requires m.range.last == Latest(d.ledgers)
    requires Contiguous(Streamed(d, ms)) && Achieved(p, m, Streamed(d, ms))
    ensures Contiguous(Since(stored, m.range.first))
    ensures m.kind == TransactionsTable ==> TxsHold(p.txs, Since(stored, m.range.first))
    ensures m.kind == EventsTable ==> Holds(p.events, EventsOf(Since(stored, m.range.first)))
    ensures m.kind == FeeStatistics ==> FeesRemember(p.fees, Since(stored, m.range.first))
  {
    hide Streamed, TxsHold, Holds, LedgersHold, Since, Between;
    StreamedShare(d, stored, ms, m);
    ShareIsSince(stored, m, d.ledgers);
    SinceSplit(stored, m.range.first);
  }

  /**
   Startup leaves the ledgers alone, builds the lookup tables that were still missing for exactly the stored
   ledgers of the retention range, keeps the others, and fills both fee windows with the newest stored ledgers.
   */
  lemma {:induction false} StartupHolds(d: Disk, stored: seq<Ledger>, c: Coverage, window: nat, classicCap: nat,
                                        sorobanCap: nat, txsFirst: bool)
    requires DiskHolds(d, stored, c) && RowsWellFormed(d.ledgers)
    requires 1 <= classicCap < UINT32_SIZE && 1 <= sorobanCap < UINT32_SIZE
    requires Startup(d, window, classicCap, sorobanCap, txsFirst).Some?
    ensures var (e, fees) := Startup(d, window, classicCap, sorobanCap, txsFirst).value;
            && DiskHolds(e, stored, StartedCoverage(d, window, c))
            && e.ledgers == d.ledgers && e.txsMigrated && e.eventsMigrated
            && ValidFees(fees) && FeesRemember(fees, stored)
            && fees.classicCap == classicCap && fees.sorobanCap == sorobanCap
            && Max(classicCap, sorobanCap) <= window
  {
    hide Streamed, TxsHold, TxsHoldBeside, Holds, LedgersHold;
    hide Since, EventsOf, Pending, FeesRemember, WellFormed, Distinct;
    var ms := StartupMigrations(d, window, classicCap, sorobanCap, txsFirst);
    var p := StartupProgress(d, classicCap, sorobanCap);
    var range := MigrationRange(Latest(d.ledgers), window);
    var feeRange := MigrationRange(Latest(d.ledgers), Max(classicCap, sorobanCap));
    PendingKinds(d, range, txsFirst, feeRange);
    forall m | m in ms ensures Achieved(p, m, []) { NothingAchieved(p, m); }
    StreamedShare(d, stored, ms, Migration(FeeStatistics, feeRange));
    StreamAchieves(p, ms, Streamed(d, ms));
    var q := Stream(p, ms, Streamed(d, ms)).value;
    forall m | m in ms
      ensures Contiguous(Since(stored, m.range.first))
      ensures m.kind == TransactionsTable ==> TxsHold(q.txs, Since(stored, m.range.first))
      ensures m.kind == EventsTable ==> Holds(q.events, EventsOf(Since(stored, m.range.first)))
      ensures m.kind == FeeStatistics ==> FeesRemember(q.fees, Since(stored, m.range.first))
    {
      MigrationDone(d, stored, ms, m, q);
    }
    assert Migration(FeeStatistics, feeRange) in ms;
    LatestHeld(d.ledgers, stored);
    FeeRangeSuffices(q.fees, stored, Latest(d.ledgers));
    if !d.txsMigrated {
      assert Migration(TransactionsTable, range) in ms;
      BesideNothing(q.txs, Since(stored, range.first));
    }
    if !d.eventsMigrated { assert Migration(EventsTable, range) in ms; }
  }

  /**
   Startup succeeds exactly when the fee windows fit the retention window and, while the transactions are still to
   be indexed, no hash occurs in two ledgers of the range. Once migrated, a database always starts.
   */
  lemma {:induction false} StartupSucceeds(d: Disk, stored: seq<Ledger>, c: Coverage, window: nat, classicCap: nat,
                                           sorobanCap: nat, txsFirst: bool)
    requires DiskHolds(d, stored, c) && RowsWellFormed(d.ledgers)
    requires 1 <= classicCap < UINT32_SIZE && 1 <= sorobanCap < UINT32_SIZE
    ensures Startup(d, window, classicCap, sorobanCap, txsFirst).Some? <==>
      && Max(classicCap, sorobanCap) <= window
      && (d.txsMigrated || HashesDistinct(Since(stored, MigrationRange(Latest(d.ledgers), window).first)))
  {
    hide Streamed, TxsHold, Holds, LedgersHold, Since;
    hide EventsOf, Pending, FeesRemember, WellFormed, Distinct, HashesDistinct;
    var ms := StartupMigrations(d, window, classicCap, sorobanCap, txsFirst);
    var p := StartupProgress(d, classicCap, sorobanCap);
    var range := MigrationRange(Latest(d.ledgers), window);
    var feeRange := MigrationRange(Latest(d.ledgers), Max(classicCap, sorobanCap));
    PendingKinds(d, range, txsFirst, feeRange);
    forall m | m in ms ensures Achieved(p, m, []) { NothingAchieved(p, m); }
    StreamedShare(d, stored, ms, Migration(FeeStatistics, feeRange));
    StreamSucceeds(p, ms, Streamed(d, ms));
    if !d.txsMigrated {
      var m := Migration(TransactionsTable, range);
      assert m in ms;
      StreamedShare(d, stored, ms, m);
      ShareIsSince(stored, m, d.ledgers);
    }
  }

  // ---- the end of a startup ----

  /** The guard of a migration; the fee windows have none. */
  predicate GuardSet(d: Disk, k: Kind) {
    match k case TransactionsTable => d.txsMigrated case EventsTable => d.eventsMigrated case FeeStatistics => true
  }

  function SetGuard(d: Disk, k: Kind): Disk {
    match k
    case TransactionsTable => d.(txsMigrated := true)
    case EventsTable => d.(eventsMigrated := true)
    case FeeStatistics => d
  }

  /** The disk with the guards of the migrations set. */
  function Guarded(d: Disk, ms: seq<Migration>): Disk {
    if ms == [] then d else SetGuard(Guarded(d, ms[..|ms| - 1]), ms[|ms| - 1].kind)
  }

  /** Whether streaming, each guard write and the final commit go through. */
  datatype StartupFaults = StartupFaults(streams: bool, txGuard: bool, eventGuard: bool, commits: bool)

  const NO_FAULTS := StartupFaults(true, true, true, true)

  function Works(f: StartupFaults, k: Kind): bool {
    match k case TransactionsTable => f.txGuard case EventsTable => f.eventGuard case FeeStatistics => true
  }

  /** The disk, and the tables of the common transaction while it is open. */
  datatype GuardWriting = GuardWriting(disk: Disk, tables: Disk, open: bool)

  /**
   A guard is written in the common transaction. A failure rolls that back, and the loop goes on: later writes
   find no transaction and take effect at once.
   */
  function GuardWrite(w: GuardWriting, k: Kind, works: bool): GuardWriting {
    if !works then w.(tables := w.disk, open := false)
    else if w.open then w.(tables := SetGuard(w.tables, k))
    else w.(disk := SetGuard(w.disk, k), tables := SetGuard(w.disk, k))
  }

  function GuardWrites(w: GuardWriting, ms: seq<Migration>, f: StartupFaults): GuardWriting {
    if ms == [] then w
    else GuardWrite(GuardWrites(w, ms[..|ms| - 1], f), ms[|ms| - 1].kind, Works(f, ms[|ms| - 1].kind))
  }

  predicate SomeFails(ms: seq<Migration>, f: StartupFaults) {
    exists i :: 0 <= i < |ms| && !Works(f, ms[i].kind)
  }

  /** A guard write goes through after another one has failed. */
  predicate Leaks(ms: seq<Migration>, f: StartupFaults) {
    exists i, j :: 0 <= i < j < |ms| && !Works(f, ms[i].kind) && Works(f, ms[j].kind) && !ms[j].kind.FeeStatistics?
  }

  lemma {:induction false} SomeFailsNext(ms: seq<Migration>, m: Migration, f: StartupFaults)
    ensures SomeFails(ms + [m], f) <==> SomeFails(ms, f) || !Works(f, m.kind)
  {
    var all := ms + [m];
    assert all[|ms|] == m;
    if SomeFails(ms, f) {
      var i :| 0 <= i < |ms| && !Works(f, ms[i].kind);
      assert all[i] == ms[i];
    }
  }

  lemma {:induction false} LeaksNext(ms: seq<Migration>, m: Migration, f: StartupFaults)
    ensures Leaks(ms + [m], f) <==> Leaks(ms, f) || (SomeFails(ms, f) && Works(f, m.kind) && !m.kind.FeeStatistics?)
  {
    var all := ms + [m];
    assert all[|ms|] == m && forall i :: 0 <= i < |ms| ==> all[i] == ms[i];
    if Leaks(ms, f) {
      var i, j :| 0 <= i < j < |ms| && !Works(f, ms[i].kind) && Works(f, ms[j].kind) && !ms[j].kind.FeeStatistics?;
      assert !Works(f, all[i].kind) && Works(f, all[j].kind) && !all[j].kind.FeeStatistics?;
    }
    if SomeFails(ms, f) && Works(f, m.kind) && !m.kind.FeeStatistics? {
      var i :| 0 <= i < |ms| && !Works(f, ms[i].kind);
      assert !Works(f, all[i].kind) && Works(f, all[|ms|].kind);
    }
  }

  /** Only guards change, and only from unset to set. */
  predicate OnlyGuardsRaised(d: Disk, e: Disk) {
    && e.(txsMigrated := d.txsMigrated, eventsMigrated := d.eventsMigrated) == d
    && (d.txsMigrated ==> e.txsMigrated) && (d.eventsMigrated ==> e.eventsMigrated)
  }

  /**
   For guards that were all unset: the transaction survives exactly when no write fails, and the disk stays as it
   was exactly when no write goes through after one that fails.
   */
  lemma {:induction false} GuardWritesEnd(d: Disk, tables: Disk, ms: seq<Migration>, f: StartupFaults)
    requires forall m :: m in ms ==> m.kind.FeeStatistics? || !GuardSet(d, m.kind)
    ensures var w := GuardWrites(GuardWriting(d, tables, true), ms, f);
            && (w.open <==> !SomeFails(ms, f))
            && (w.open ==> w.disk == d && w.tables == Guarded(tables, ms))
            && (!w.open ==> w.tables == w.disk)
            && OnlyGuardsRaised(d, w.disk)
            && (w.disk == d <==> !Leaks(ms, f))
  {
    if ms != [] {
      var (front, last) := (ms[..|ms| - 1], ms[|ms| - 1]);
      assert ms == front + [last];
      GuardWritesEnd(d, tables, front, f);
      SomeFailsNext(front, last, f);
      LeaksNext(front, last, f);
      assert last.kind.FeeStatistics? || !GuardSet(d, last.kind);
    }
  }

  /** How a startup ends; a fatal end leaves a disk behind. */
  datatype StartupEnd = Started(disk: Disk, fees: FeeState) | Fatal(disk: Disk)

  /** The tables of the common transaction when all ledgers have been streamed. */
  function BeforeGuards(d: Disk, e: Disk): Disk { e.(txsMigrated := d.txsMigrated, eventsMigrated := d.eventsMigrated) }

  function EndOfStartup(d: Disk, window: nat, classicCap: nat, sorobanCap: nat, txsFirst: bool,
      f: StartupFaults): StartupEnd
    requires 1 <= classicCap < UINT32_SIZE && 1 <= sorobanCap < UINT32_SIZE && RowsWellFormed(d.ledgers)
  {
    match Startup(d, window, classicCap, sorobanCap, txsFirst)
    case None => Fatal(d)
    case Some((e, fees)) =>
      if !f.streams then Fatal(d)
      else
        var ms := StartupMigrations(d, window, classicCap, sorobanCap, txsFirst);
        var w := GuardWrites(GuardWriting(d, BeforeGuards(d, e), true), ms, f);
        if w.open && f.commits then Started(w.tables, fees) else Fatal(w.disk)
  }

  lemma {:induction false} GuardedNext(d: Disk, ms: seq<Migration>, m: Migration)
    ensures Guarded(d, ms + [m]) == SetGuard(Guarded(d, ms), m.kind)
  {
    assert (ms + [m])[..|ms|] == ms;
  }

  lemma {:induction false} PendingIs(d: Disk, range: LedgerSeqRange, txsFirst: bool)
    ensures var (t, v) := (Migration(TransactionsTable, range), Migration(EventsTable, range));
            Pending(d, range, txsFirst) == if d.txsMigrated then (if d.eventsMigrated then [] else [] + [v])
                                           else if d.eventsMigrated then [] + [t]
                                           else if txsFirst then [] + [t] + [v] else [] + [v] + [t]
  {
  }

  /** However the map is iterated, afterwards both guards are set. */
  lemma {:induction false} PendingGuards(d: Disk, range: LedgerSeqRange, txsFirst: bool, fees: LedgerSeqRange, e: Disk)
    requires e.txsMigrated == d.txsMigrated && e.eventsMigrated == d.eventsMigrated
    ensures Guarded(e, Pending(d, range, txsFirst) + [Migration(FeeStatistics, fees)])
         == e.(txsMigrated := true, eventsMigrated := true)
  {
    hide Pending, Guarded;
    var (t, v) := (Migration(TransactionsTable, range), Migration(EventsTable, range));
    PendingIs(d, range, txsFirst);
    GuardedNext(e, Pending(d, range, txsFirst), Migration(FeeStatistics, fees));
    GuardedNone(e);
    GuardedNext(e, [], t);
    GuardedNext(e, [], v);
    GuardedNext(e, [] + [t], v);
    GuardedNext(e, [] + [v], t);
  }

  lemma {:induction false} GuardedNone(d: Disk)
    ensures Guarded(d, []) == d
  {
  }

  /** With both migrations to do, a failed guard write followed by one that goes through; otherwise none leaks. */
  predicate GuardLeaks(d: Disk, txsFirst: bool, f: StartupFaults) {
    && !d.txsMigrated && !d.eventsMigrated
    && if txsFirst then !f.txGuard && f.eventGuard else !f.eventGuard && f.txGuard
  }

  lemma {:induction false} PendingLeaks(d: Disk, range: LedgerSeqRange, txsFirst: bool, fees: LedgerSeqRange,
      f: StartupFaults)
    ensures Leaks(Pending(d, range, txsFirst) + [Migration(FeeStatistics, fees)], f) <==> GuardLeaks(d, txsFirst, f)
  {
    hide Pending, Leaks, SomeFails;
    var (t, v) := (Migration(TransactionsTable, range), Migration(EventsTable, range));
    PendingIs(d, range, txsFirst);
    LeaksNext(Pending(d, range, txsFirst), Migration(FeeStatistics, fees), f);
    NoneFails(f);
    LeaksNext([], t, f);
    LeaksNext([], v, f);
    LeaksNext([] + [t], v, f);
    LeaksNext([] + [v], t, f);
    SomeFailsNext([], t, f);
    SomeFailsNext([], v, f);
  }

  lemma {:induction false} NoneFails(f: StartupFaults)
    ensures !SomeFails([], f) && !Leaks([], f)
  {
  }

  /**
   A startup that succeeds leaves what the migrations have built with both guards set. A fatal one leaves the disk
   as it was, if and only if it did not come to write guards or none was written after one that failed.
   */
  lemma {:induction false} StartupEnds(d: Disk, window: nat, classicCap: nat, sorobanCap: nat, txsFirst: bool,
      f: StartupFaults)
    requires 1 <= classicCap < UINT32_SIZE && 1 <= sorobanCap < UINT32_SIZE && RowsWellFormed(d.ledgers)
    ensures var (built, end) := (Startup(d, window, classicCap, sorobanCap, txsFirst),
                                 EndOfStartup(d, window, classicCap, sorobanCap, txsFirst, f));
            && (end.Started? ==> built == Some((end.disk, end.fees)))
            && (end.Started? <==> built.Some? && f.streams && f.commits
                                  && (d.txsMigrated || f.txGuard) && (d.eventsMigrated || f.eventGuard))
            && (end.Fatal? ==> OnlyGuardsRaised(d, end.disk)
                               && (end.disk == d <==> !(built.Some? && f.streams && GuardLeaks(d, txsFirst, f))))
  {
    hide Stream, Pending, Leaks, SomeFails, Streamed, Guarded, GuardWrites;
    var latest := Latest(d.ledgers);
    var range := MigrationRange(latest, window);
    var fees := MigrationRange(latest, Max(classicCap, sorobanCap));
    var ms := StartupMigrations(d, window, classicCap, sorobanCap, txsFirst);
    if Startup(d, window, classicCap, sorobanCap, txsFirst).Some? {
      var e := Startup(d, window, classicCap, sorobanCap, txsFirst).value.0;
      PendingKinds(d, range, txsFirst, fees);
      GuardWritesEnd(d, BeforeGuards(d, e), ms, f);
      PendingGuards(d, range, txsFirst, fees, BeforeGuards(d, e));
      PendingLeaks(d, range, txsFirst, fees, f);
      PendingFails(d, range, txsFirst, fees, f);
    }
  }

  lemma {:induction false} PendingFails(d: Disk, range: LedgerSeqRange, txsFirst: bool, fees: LedgerSeqRange,
      f: StartupFaults)
    ensures SomeFails(Pending(d, range, txsFirst) + [Migration(FeeStatistics, fees)], f)
       <==> (!d.txsMigrated && !f.txGuard) || (!d.eventsMigrated && !f.eventGuard)
  {
    hide Pending, SomeFails;
    var (t, v) := (Migration(TransactionsTable, range), Migration(EventsTable, range));
    PendingIs(d, range, txsFirst);
    SomeFailsNext(Pending(d, range, txsFirst), Migration(FeeStatistics, fees), f);
    NoneFails(f);
    SomeFailsNext([], t, f);
    SomeFailsNext([], v, f);
    SomeFailsNext([] + [t], v, f);
    SomeFailsNext([] + [v], t, f);
  }

  /** At most one guard leaks. */
  lemma {:induction false} OneLeaks(d: Disk, window: nat, classicCap: nat, sorobanCap: nat, txsFirst: bool,
      f: StartupFaults)
    requires 1 <= classicCap < UINT32_SIZE && 1 <= sorobanCap < UINT32_SIZE && RowsWellFormed(d.ledgers)
    requires EndOfStartup(d, window, classicCap, sorobanCap, txsFirst, f).Fatal?
    ensures var e := EndOfStartup(d, window, classicCap, sorobanCap, txsFirst, f).disk;
            e.txsMigrated == d.txsMigrated || e.eventsMigrated == d.eventsMigrated
  {
    hide Startup, StartupMigrations, GuardWrites;
    if Startup(d, window, classicCap, sorobanCap, txsFirst).Some? {
      var e := Startup(d, window, classicCap, sorobanCap, txsFirst).value.0;
      var range := MigrationRange(Latest(d.ledgers), window);
      var fees := MigrationRange(Latest(d.ledgers), Max(classicCap, sorobanCap));
      MigrationsAre(d, window, classicCap, sorobanCap, txsFirst);
      OneGuardWritten(d, BeforeGuards(d, e), range, txsFirst, fees, f);
    }
  }

  lemma {:induction false} MigrationsAre(d: Disk, window: nat, classicCap: nat, sorobanCap: nat, txsFirst: bool)
    ensures StartupMigrations(d, window, classicCap, sorobanCap, txsFirst)
         == Pending(d, MigrationRange(Latest(d.ledgers), window), txsFirst)
            + [Migration(FeeStatistics, MigrationRange(Latest(d.ledgers), Max(classicCap, sorobanCap)))]
  {
  }

  lemma {:induction false} OneGuardWritten(d: Disk, tables: Disk, range: LedgerSeqRange, txsFirst: bool,
      fees: LedgerSeqRange, f: StartupFaults)
    ensures var w := GuardWrites(GuardWriting(d, tables, true), Pending(d, range, txsFirst)
              + [Migration(FeeStatistics, fees)], f);
            w.disk.txsMigrated == d.txsMigrated || w.disk.eventsMigrated == d.eventsMigrated
  {
    hide Pending, GuardWrites;
    var w := GuardWriting(d, tables, true);
    var (t, v) := (Migration(TransactionsTable, range), Migration(EventsTable, range));
    PendingIs(d, range, txsFirst);
    WritesNext(w, Pending(d, range, txsFirst), Migration(FeeStatistics, fees), f);
    WritesNext(w, [], t, f);
    WritesNext(w, [], v, f);
    WritesNext(w, [] + [t], v, f);
    WritesNext(w, [] + [v], t, f);
  }

  /** The events guard leaks when the transactions guard, written first, fails. */
  lemma {:induction false} LeakedGuard(d: Disk, window: nat, classicCap: nat, sorobanCap: nat, f: StartupFaults)
    requires 1 <= classicCap < UINT32_SIZE && 1 <= sorobanCap < UINT32_SIZE && RowsWellFormed(d.ledgers)
    requires !d.txsMigrated && !d.eventsMigrated && f.streams && !f.txGuard && f.eventGuard
    requires Startup(d, window, classicCap, sorobanCap, true).Some?
    ensures EndOfStartup(d, window, classicCap, sorobanCap, true, f) == Fatal(d.(eventsMigrated := true))
  {
    hide Startup, Pending, StartupMigrations, GuardWrites;
    var latest := Latest(d.ledgers);
    var range := MigrationRange(latest, window);
    MigrationsAre(d, window, classicCap, sorobanCap, true);
    PendingIs(d, range, true);
    var e := Startup(d, window, classicCap, sorobanCap, true).value.0;
    var w := GuardWriting(d, BeforeGuards(d, e), true);
    var (t, v) := (Migration(TransactionsTable, range), Migration(EventsTable, range));
    WritesNext(w, [] + [t] + [v], Migration(FeeStatistics, MigrationRange(latest, Max(classicCap, sorobanCap))), f);
    WritesNext(w, [], t, f);
    WritesNext(w, [] + [t], v, f);
  }

  /** An event table whose guard is set is left alone at startup. */
  lemma {:induction false} MigratedEventsStay(d: Disk, window: nat, classicCap: nat, sorobanCap: nat, txsFirst: bool)
    requires 1 <= classicCap < UINT32_SIZE && 1 <= sorobanCap < UINT32_SIZE && RowsWellFormed(d.ledgers)
      && d.eventsMigrated
    ensures var built := Startup(d, window, classicCap, sorobanCap, txsFirst);
            built.Some? ==> built.value.0.events == d.events
  {
    var latest := Latest(d.ledgers);
    var fees := MigrationRange(latest, Max(classicCap, sorobanCap));
    PendingKinds(d, MigrationRange(latest, window), txsFirst, fees);
    var ms := StartupMigrations(d, window, classicCap, sorobanCap, txsFirst);
    var p := StartupProgress(d, classicCap, sorobanCap);
    if Startup(d, window, classicCap, sorobanCap, txsFirst).Some? { StreamLeavesEvents(p, ms, Streamed(d, ms)); }
  }

  lemma {:induction false} WritesNext(w: GuardWriting, ms: seq<Migration>, m: Migration, f: StartupFaults)
    ensures GuardWrites(w, ms + [m], f) == GuardWrite(GuardWrites(w, ms, f), m.kind, Works(f, m.kind))
    ensures GuardWrites(w, [], f) == w
  {
    assert (ms + [m])[..|ms|] == ms;
  }

  /** A guard that leaks covers no stored ledger, and leaves the transaction rows as they are. */
  function LeakedCoverage(d: Disk, e: Disk, c: Coverage): Coverage {
    var floor := Latest(d.ledgers) + 1;
    Coverage(if d.txsMigrated == e.txsMigrated then c.txFloor else floor,
             if d.eventsMigrated == e.eventsMigrated then c.eventFloor else floor,
             if d.txsMigrated == e.txsMigrated then c.relic else d.txs)
  }

  lemma {:induction false} NoneBeyond(t: LedgerTable, stored: seq<Ledger>)
    requires LedgersHold(t, stored) && Contiguous(stored)
    ensures Since(stored, Latest(t) + 1) == []
  {
    LatestHeld(t, stored);
  }

  lemma {:induction false} LeakedHolds(d: Disk, e: Disk, stored: seq<Ledger>, c: Coverage)
    requires DiskHolds(d, stored, c) && OnlyGuardsRaised(d, e)
    ensures DiskHolds(e, stored, LeakedCoverage(d, e, c))
  {
    hide TxsHoldBeside, Since, LedgersHold, Contiguous;
    NoneBeyond(d.ledgers, stored);
    OnlyRelic(d.txs);
  }
}
