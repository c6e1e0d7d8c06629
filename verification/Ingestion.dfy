/**
 Ingesting one ledger, step by step (cmd/stellar-rpc/internal/ingest/service.go, cmd/stellar-rpc/internal/db/db.go,
 transaction.go, event.go, cmd/stellar-rpc/internal/feewindow/feewindow.go): an open write transaction, the fee
 windows in memory, and the service that drives both.
 */
module Ingestion {
  import opened UInt32
  import opened Wrappers
  import opened DecimalText
  import opened Cursors
  import opened Chain
  import opened EventPositions
  import opened EventStore
  import opened Tables
  import opened BucketWindow
  import opened FeeBuckets
  import opened FeeStats
  import opened Storage
  import opened NodeRuns

  // ---- rows of a ledger ----

  method TransactionEventsIntoDiagnosticEvents(all: TransactionEvents) returns (events: seq<DiagnosticEvent>)
    ensures events == IntoDiagnosticEvents(all)
  {
    events := all.diagnostic;
    if |events| == 0 {
      for i := 0 to |all.operations|
        invariant events == Successful(Flatten(all.operations[..i]))
      {
        var operation := all.operations[i];
        ghost var before := events;
        for j := 0 to |operation|
          invariant events == before + Successful(operation[..j])
        {
          events := events + [DiagnosticEvent(true, operation[j])];
        }
        assert operation[..|operation|] == operation;
        FlattenNext(all.operations, i);
      }
      assert all.operations[..|all.operations|] == all.operations;
    }
    ghost var first := events;
    for i := 0 to |all.transaction|
      invariant events == first + Successful(all.transaction[..i])
    {
      events := events + [DiagnosticEvent(true, all.transaction[i])];
    }
    assert all.transaction[..|all.transaction|] == all.transaction;
  }

  lemma {:induction false} RowsTableConcat(a: seq<StoredEvent>, b: seq<StoredEvent>)
    requires Ordered(a + b) && Ordered(a) && Ordered(b)
    ensures (forall e :: e in a ==> Placed(e)) && (forall e :: e in b ==> Placed(e))
    ensures forall e :: e in a + b ==> Placed(e)
    ensures RowsTable(a + b) == RowsTable(a) + RowsTable(b) && RowsTable(a).Keys !! RowsTable(b).Keys
  {
    hide Ordered, Holds, RowsTable, String;
    OrderedPlaced(a);
    OrderedPlaced(b);
    OrderedPlaced(a + b);
    RowsTableHolds(a);
    RowsTableHolds(b);
    RowsTableHolds(a + b);
    forall x, y | x in a && y in b ensures Placed(x) && Placed(y) && String(x.cursor) != String(y.cursor) {
      LaterKeysDiffer(a, b, x, y);
    }
    HoldsUnion(RowsTable(a), RowsTable(b), a, b);
    HeldTableUnique(RowsTable(a) + RowsTable(b), RowsTable(a + b), a + b);
  }

  /** The rows of the transactions up to the i-th, and what inserting the next ones does. */
  lemma {:induction false} NextTxRows(l: Ledger, i: nat)
    requires WellFormed(l) && i < |l.txs|
    ensures Ordered(EventsOfTxs(l, i)) && Ordered(EventsOfTx(l, i)) && Ordered(EventsOfTxs(l, i + 1))
    ensures (forall e :: e in EventsOfTxs(l, i) ==> Placed(e)) && (forall e :: e in EventsOfTx(l, i) ==> Placed(e))
    ensures (forall e :: e in EventsOfTxs(l, i + 1) ==> Placed(e))
    ensures RowsTable(EventsOfTxs(l, i + 1)) == RowsTable(EventsOfTxs(l, i)) + RowsTable(EventsOfTx(l, i))
    ensures RowsTable(EventsOfTxs(l, i)).Keys !! RowsTable(EventsOfTx(l, i)).Keys
  {
    hide Ordered, RowsTable, WellFormed;
    EventsOfTxsOrdered(l, i);
    EventsOfTxsOrdered(l, i + 1);
    EventsOfTxOrdered(l, i);
    RowsTableConcat(EventsOfTxs(l, i), EventsOfTx(l, i));
  }

  // ---- the write transaction ----

  class Database {
    var disk: Disk
    var cache: LedgerInfo

    constructor (disk: Disk)
      ensures this.disk == disk && cache == UNKNOWN
    {
      this.disk := disk;
      cache := UNKNOWN;
    }
  }

  /** A write transaction sees its own tables; the flags stand for the engine executing a statement or failing. */
  class WriteTx {
    const db: Database
    const window: nat
    var tables: Disk
    var open: bool

    constructor (db: Database, window: nat)
      ensures this.db == db && this.window == window && tables == db.disk && open
    {
      this.db := db;
      this.window := window;
      tables := db.disk;
      open := true;
    }

    method InsertLedger(l: Ledger, works: bool) returns (ok: bool)
      requires open
      modifies this`tables
      ensures ok <==> works && Storage.InsertLedger(old(tables).ledgers, l).Some?
      ensures ok ==> tables == old(tables).(ledgers := Storage.InsertLedger(old(tables).ledgers, l).value)
    {
      if !works || l.sequence in tables.ledgers { return false; }
      tables := tables.(ledgers := tables.ledgers[l.sequence := l]);
      return true;
    }

    /** Lookup rows for every hash, the outer and the inner one of a fee bump. */
    method InsertTransactions(l: Ledger, works: bool) returns (ok: bool)
      requires open
      modifies this`tables
      ensures ok <==> works && InsertTxRows(old(tables).txs, l).Some?
      ensures ok ==> tables == old(tables).(txs := InsertTxRows(old(tables).txs, l).value)
    {
      if !works { return false; }
      var transactions: TxTable := map[];
      for i := 0 to |l.txs|
        invariant transactions == TxRowsUpTo(l, i)
        invariant tables == old(tables)
      {
        var (tx, row) := (l.txs[i], TxRow(l.sequence, i + 1));
        if tx.innerHash.Some? { transactions := transactions[tx.innerHash.value := row]; }
        transactions := transactions[tx.hash := row];
      }
      if tables.txs.Keys !! transactions.Keys {
        tables := tables.(txs := tables.txs + transactions);
        return true;
      }
      return false;
    }

    /** The event rows of one transaction, under their cursors. */
    method EventRows(l: Ledger, i: nat) returns (rows: EventTable)
      requires WellFormed(l) && i < |l.txs| && l.txs[i].successful
      ensures (forall e :: e in EventsOfTx(l, i) ==> Placed(e)) && rows == RowsTable(EventsOfTx(l, i))
    {
      var events := TransactionEventsIntoDiagnosticEvents(l.txs[i].events);
      ghost var es := EventsOfTx(l, i);
      EventsOfTxOrdered(l, i);
      OrderedPlaced(es);
      rows := map[];
      for index := 0 to |events|
        invariant |es| == |events|
        invariant forall e :: e in es[..index] ==> Placed(e)
        invariant rows == RowsTable(es[..index])
      {
        assert Placed(es[index]) && es[..index + 1] == es[..index] + [es[index]];
        var event := StoredEvent(Cursor(l.sequence, i + 1, 0, index), events[index], l.closeTime, l.txs[i].hash);
        assert event == es[index];
        rows := rows[String(event.cursor) := RowOf(event)];
      }
      assert es[..|events|] == es;
    }

    /** One multi-row insert per transaction; transactions that failed or have no events are skipped. */
    method InsertEvents(l: Ledger, works: bool) returns (ok: bool)
      requires open && WellFormed(l)
      modifies this`tables
      ensures ok <==> works && InsertEventsOf(old(tables).events, l).Some?
      ensures ok ==> tables == old(tables).(events := InsertEventsOf(old(tables).events, l).value)
    {
      hide RowsTable, String, Ordered, WellFormed, Placed, EventsOfTxs, EventsOfTx;
      if !works { return false; }
      ghost var before := tables.events;
      NoRows(l);
      for i := 0 to |l.txs|
        invariant forall e :: e in EventsOfTxs(l, i) ==> Placed(e)
        invariant before.Keys !! RowsTable(EventsOfTxs(l, i)).Keys
        invariant tables == old(tables).(events := before + RowsTable(EventsOfTxs(l, i)))
      {
        NextTxRows(l, i);
        JoinRows(before, RowsTable(EventsOfTxs(l, i)), RowsTable(EventsOfTx(l, i)));
        if !l.txs[i].successful {
          FailedTxRows(l, i);
          continue;
        }
        var rows := EventRows(l, i);
        if tables.events.Keys !! rows.Keys {
          tables := tables.(events := tables.events + rows);
        } else {
          LaterKeysCollide(before, l, i + 1);
          return false;
        }
      }
      return true;
    }

    method TrimLedgers(latest: nat)
      modifies this`tables
      ensures tables == old(tables).(ledgers := if latest + 1 <= window then old(tables).ledgers
                                                else Tables.TrimLedgers(old(tables).ledgers, latest + 1 - window))
    {
      if latest + 1 <= window { return; }
      var cutoff := latest + 1 - window;
      tables := tables.(ledgers := map k | k in tables.ledgers && k >= cutoff :: tables.ledgers[k]);
    }

    method TrimTransactions(latest: nat)
      modifies this`tables
      ensures tables == old(tables).(txs := if latest + 1 <= window then old(tables).txs
                                            else TrimTxs(old(tables).txs, latest + 1 - window))
    {
      if latest + 1 <= window { return; }
      var cutoff := latest + 1 - window;
      tables := tables.(txs := map h | h in tables.txs && tables.txs[h].ledger >= cutoff :: tables.txs[h]);
    }

    method TrimEvents(latest: nat)
      requires latest < MAX_INT32
      modifies this`tables
      ensures tables == old(tables).(events := if latest + 1 <= window then old(tables).events
                                               else TrimTable(old(tables).events, latest + 1 - window))
    {
      if latest + 1 <= window { return; }
      var id := String(Cursor(latest + 1 - window, 0, 0, 0));
      tables := tables.(events := map k | k in tables.events && !TextLess(k, id) :: tables.events[k]);
    }

    /** The database and the cache change together, or not at all. */
    method Commit(l: Ledger, fault: Fault) returns (ok: bool)
      requires open && WellFormed(l)
      modifies this, db
      ensures BeforeCommit(fault) ==> !ok && db.disk == old(db.disk) && db.cache == old(db.cache)
      ensures !BeforeCommit(fault) ==>
        ok == !fault.AtCheckpoint? && db.disk == Trimmed(old(tables), l.sequence, window) && db.cache == InfoOf(l)
    {
      hide TrimTable, TrimTxs, Tables.TrimLedgers;
      TrimLedgers(l.sequence);
      if fault.AtTrim? { return false; }
      TrimTransactions(l.sequence);
      TrimEvents(l.sequence);
      if fault.AtCommit? { return false; }
      db.disk, open := tables, false;
      db.cache := InfoOf(l);
      return !fault.AtCheckpoint?;
    }

    method Rollback()
      modifies this
      ensures !open && tables == if old(open) then db.disk else old(tables)
    {
      if open { tables, open := db.disk, false; }
    }
  }

  lemma {:induction false} JoinRows(t: EventTable, a: EventTable, b: EventTable)
    requires t.Keys !! a.Keys && a.Keys !! b.Keys
    ensures (t + a).Keys !! b.Keys <==> t.Keys !! (a + b).Keys
    ensures (t + a) + b == t + (a + b)
  {
  }

  lemma {:induction false} NoRows(l: Ledger)
    ensures EventsOfTxs(l, 0) == [] && RowsTable([]) == map[]
  {
  }

  lemma {:induction false} FailedTxRows(l: Ledger, i: nat)
    requires i < |l.txs| && !l.txs[i].successful
    ensures EventsOfTx(l, i) == [] && RowsTable([]) == map[]
  {
  }

  /** A collision of some transactions' rows is a collision of the ledger's rows. */
  lemma {:induction false} LaterKeysCollide(t: EventTable, l: Ledger, i: nat)
    requires WellFormed(l) && i <= |l.txs|
    requires forall e :: e in EventsOfTxs(l, i) ==> Placed(e)
    requires !(t.Keys !! RowsTable(EventsOfTxs(l, i)).Keys)
    ensures InsertEventsOf(t, l).None?
    decreases |l.txs| - i
  {
    hide RowsTable, WellFormed, Ordered;
    if i < |l.txs| {
      NextTxRows(l, i);
      LaterKeysCollide(t, l, i + 1);
    }
  }

  // ---- the fee windows ----

  class FeeWindows {
    const classic: FeeWindow
    const soroban: FeeWindow

    ghost predicate Valid()
      reads this, classic, classic.feesPerLedger, classic.feesPerLedger.buckets
      reads soroban, soroban.feesPerLedger, soroban.feesPerLedger.buckets
    {
      && classic.Valid() && soroban.Valid()
      && classic != soroban && classic.feesPerLedger != soroban.feesPerLedger
      && classic.feesPerLedger.buckets != soroban.feesPerLedger.buckets
    }

    ghost function State(): (f: FeeState)
      requires Valid()
      reads this, classic, classic.feesPerLedger, classic.feesPerLedger.buckets
      reads soroban, soroban.feesPerLedger, soroban.feesPerLedger.buckets
      ensures ValidFees(f)
    {
      FeeState(classic.feesPerLedger.buckets.Length, soroban.feesPerLedger.buckets.Length,
               classic.feesPerLedger.Contents(), soroban.feesPerLedger.Contents())
    }

    constructor (classicRetention: nat, sorobanRetention: nat)
      requires 1 <= classicRetention < UINT32_SIZE && 1 <= sorobanRetention < UINT32_SIZE
      ensures Valid() && State() == FeeState(classicRetention, sorobanRetention, [], [])
      ensures fresh(classic) && fresh(classic.feesPerLedger) && fresh(classic.feesPerLedger.buckets)
      ensures fresh(soroban) && fresh(soroban.feesPerLedger) && fresh(soroban.feesPerLedger.buckets)
    {
      var c := new FeeWindow(classicRetention);
      var s := new FeeWindow(sorobanRetention);
      classic, soroban := c, s;
    }

    /** One bucket per window and ledger; the fees are sorted by kind of transaction. */
    method IngestFees(l: Ledger) returns (ok: bool)
      requires Valid() && WellFormed(l)
      modifies classic, classic.feesPerLedger, classic.feesPerLedger.buckets
      modifies soroban, soroban.feesPerLedger, soroban.feesPerLedger.buckets
      ensures Valid() && (State(), ok) == FeeBuckets.IngestFees(old(State()), l)
    {
      hide Appended, Describes, AllFees, FeesUpTo, Rotated;
      hide LedgerBucketWindow.Contents, LedgerBucketWindow.Valid, FeeWindow.Valid;
      var classicFees, sorobanFees := CollectFees(l);
      var refused := classic.AppendLedgerFees(LedgerBucket(l.sequence, l.closeTime, classicFees));
      if refused.Some? { return false; }
      refused := soroban.AppendLedgerFees(LedgerBucket(l.sequence, l.closeTime, sorobanFees));
      return refused.None?;
    }
  }

  method CollectFees(l: Ledger) returns (classicFees: seq<nat>, sorobanFees: seq<nat>)
    ensures classicFees == FeesUpTo(l, false, |l.txs|) && sorobanFees == FeesUpTo(l, true, |l.txs|)
  {
    classicFees, sorobanFees := [], [];
    for i := 0 to |l.txs|
      invariant classicFees == FeesUpTo(l, false, i) && sorobanFees == FeesUpTo(l, true, i)
    {
      var tx := l.txs[i];
      match tx.feeKind
      case Soroban(None) =>
      case Soroban(Some(resourceFee)) =>
        sorobanFees := sorobanFees + [(tx.feeCharged - resourceFee) % UINT64_SIZE];
      case Classic(operations) =>
        if operations != 0 { classicFees := classicFees + [tx.feeCharged / operations]; }
    }
  }

  // ---- the service ----

  /** The history archive: its current ledger, 0 before the first one, or no answer. */
  datatype Archive = Unreachable | Archive(current: nat)

  datatype NextError = ArchiveFails | EmptyArchives | NotPrepared

  function Root(archive: Archive): nat { if archive.Unreachable? then 0 else archive.current }

  /** One after the latest ledger, or the archive's current one; 0 when there is none. */
  function NextSequence(cache: LedgerInfo, archive: Archive): nat {
    if cache.sequence != 0 then cache.sequence + 1 else Root(archive)
  }

  class Service {
    const db: Database
    const feeWindows: FeeWindows
    const window: nat

    ghost predicate Valid()
      reads this, db, feeWindows
      reads feeWindows.classic, feeWindows.classic.feesPerLedger, feeWindows.classic.feesPerLedger.buckets
      reads feeWindows.soroban, feeWindows.soroban.feesPerLedger, feeWindows.soroban.feesPerLedger.buckets
    {
      feeWindows.Valid() && RowsWellFormed(db.disk.ledgers)
    }

    /** The running node; next is where the ingestion loop stands. */
    ghost function State(next: nat): (n: Node)
      requires Valid()
      reads this, db, feeWindows
      reads feeWindows.classic, feeWindows.classic.feesPerLedger, feeWindows.classic.feesPerLedger.buckets
      reads feeWindows.soroban, feeWindows.soroban.feesPerLedger, feeWindows.soroban.feesPerLedger.buckets
      ensures Healthy(n) && n.process.Up?
    {
      Node(db.disk, Up(window, feeWindows.State(), db.cache, next))
    }

    constructor (db: Database, feeWindows: FeeWindows, window: nat)
      requires feeWindows.Valid() && RowsWellFormed(db.disk.ledgers)
      ensures Valid() && this.db == db && this.feeWindows == feeWindows && this.window == window
    {
      this.db, this.feeWindows, this.window := db, feeWindows, window;
    }

    /**
     Where ingestion goes on. The archive is asked only when nothing is stored; then the backend has to prepare for the
     ledgers to come.
     */
    method GetNextLedgerSequence(archive: Archive, prepares: bool) returns (r: Result<nat, NextError>)
      requires Valid()
      modifies db`cache
      ensures Valid() && db.cache == Filled(old(db.cache), db.disk.ledgers)
      ensures feeWindows.State() == old(feeWindows.State())
      ensures r.Ok? ==> prepares && r.value == NextSequence(db.cache, archive) && r.value != 0
      ensures r.Err? ==> r.error == if db.cache.sequence == 0 && archive.Unreachable? then ArchiveFails
                                    else if db.cache.sequence == 0 && archive.current == 0 then EmptyArchives
                                    else NotPrepared
      ensures r.Ok? <==> prepares && NextSequence(db.cache, archive) != 0
      ensures old(db.cache.sequence) == 0 && db.disk.ledgers == map[] && archive.Archive? && archive.current > 0 ==>
        r == if prepares then Ok(archive.current) else Err(NotPrepared)
      ensures db.cache.sequence > 0 && prepares ==> r == Ok(db.cache.sequence + 1)
    {
      hide FeeWindows.State, FeeWindows.Valid, RowsWellFormed;
      if db.cache.sequence == 0 && db.disk.ledgers != map[] {
        var latest := Greatest(db.disk.ledgers.Keys);
        db.cache := LedgerInfo(latest, db.disk.ledgers[latest].closeTime);
      }
      var next := db.cache.sequence + 1;
      if db.cache.sequence == 0 {
        if archive.Unreachable? { return Err(ArchiveFails); }
        if archive.current == 0 { return Err(EmptyArchives); }
        next := archive.current;
      }
      if !prepares { return Err(NotPrepared); }
      return Ok(next);
    }

    /** The writes of one ledger, and then the fee windows. */
    method IngestLedgerCloseMeta(tx: WriteTx, l: Ledger, fault: Fault) returns (ok: bool)
      requires Valid() && WellFormed(l) && tx.open && tx.tables == db.disk && !fault.AtBackend? && !fault.AtBegin?
      modifies tx`tables
      modifies feeWindows.classic, feeWindows.classic.feesPerLedger, feeWindows.classic.feesPerLedger.buckets
      modifies feeWindows.soroban, feeWindows.soroban.feesPerLedger, feeWindows.soroban.feesPerLedger.buckets
      ensures Valid() && tx.open
      ensures var written := Inserted(db.disk, l, fault);
              if written == None || fault.AtFees? then !ok && feeWindows.State() == old(feeWindows.State())
              else
                && (feeWindows.State(), ok) == FeeBuckets.IngestFees(old(feeWindows.State()), l)
                && tx.tables == written.value
    {
      hide FeeWindows.State, FeeWindows.Valid, WellFormed, RowsWellFormed;
      hide InsertEventsOf, InsertTxRows, FeeBuckets.IngestFees;
      ok := tx.InsertLedger(l, !fault.AtLedger?);
      if !ok { return; }
      ok := tx.InsertTransactions(l, !fault.AtTransactions?);
      if !ok { return; }
      ok := tx.InsertEvents(l, !fault.AtEvents?);
      if !ok { return; }
      if fault.AtFees? { return false; }
      ok := feeWindows.IngestFees(l);
    }

    /** One ledger: all of it, or on disk nothing of it. */
    method Ingest(l: Ledger, fault: Fault, ghost next: nat) returns (ok: bool)
      requires Valid() && WellFormed(l) && next != 0
      modifies db
      modifies feeWindows.classic, feeWindows.classic.feesPerLedger, feeWindows.classic.feesPerLedger.buckets
      modifies feeWindows.soroban, feeWindows.soroban.feesPerLedger, feeWindows.soroban.feesPerLedger.buckets
      ensures Valid()
      ensures State(if ok then l.sequence + 1 else 0) == NodeRuns.Ingest(old(State(next)), l, fault)
    {
      hide FeeWindows.State, FeeWindows.Valid, WellFormed, Written, Trimmed, FeeBuckets.IngestFees, RowsWellFormed;
      if fault.AtBackend? || fault.AtBegin? { return false; }
      var tx := new WriteTx(db, window);
      ok := IngestLedgerCloseMeta(tx, l, fault);
      if ok {
        WritesWell(db.disk, l, window);
        ok := tx.Commit(l, fault);
      }
      tx.Rollback();
    }

    /**
     The ingestion loop, until the first error or until the process is stopped. The path is the one it takes
     through the state machine, one step for each ledger it asks the backend for.
     */
    method Run(archive: Archive, prepares: bool, backend: nat -> Ledger, faults: seq<Fault>)
      returns (next: nat, ghost path: seq<Node>)
      requires Valid() && faults != []
      requires forall s :: FIRST_LEDGER <= s < MAX_INT32 ==> backend(s).sequence == s && WellFormed(backend(s))
      requires Root(archive) == 0 || FIRST_LEDGER <= Root(archive)
      requires Root(archive) + |faults| < MAX_INT32
      requires Filled(db.cache, db.disk.ledgers).sequence + |faults| + 1 < MAX_INT32
      modifies db
      modifies feeWindows.classic, feeWindows.classic.feesPerLedger, feeWindows.classic.feesPerLedger.buckets
      modifies feeWindows.soroban, feeWindows.soroban.feesPerLedger, feeWindows.soroban.feesPerLedger.buckets
      ensures Valid() && IsPath(path, Root(archive), backend, faults)
      ensures path[0] == old(State(0)) && (|path| > 1 ==> path[|path| - 1] == State(next))
      ensures next != 0 ==> |path| == |faults| + 1
      ensures |path| == 1 <==> !prepares || NextSequence(Filled(old(db.cache), old(db.disk.ledgers)), archive) == 0
      ensures |path| == 1 ==> db.disk == old(db.disk)
    {
      hide FeeWindows.State, FeeWindows.Valid, WellFormed, RowsWellFormed, NodeRuns.Ingest, IsPath;
      var first := GetNextLedgerSequence(archive, prepares);
      path := [old(State(0))];
      StartPath(path[0], Root(archive), backend, faults);
      if first.Err? { return 0, path; }
      next := first.value;
      for i := 0 to |faults|
        invariant |path| == i + 1 && Valid() && IsPath(path, Root(archive), backend, faults) && path[0] == old(State(0))
        invariant FIRST_LEDGER <= next && next + (|faults| - i) < MAX_INT32
        invariant Healthy(path[i]) && path[i].process.Up? && NextAsked(path[i], Root(archive)) == next
        invariant i == 0 ==> State(next) == Entered(path[0], next)
        invariant i > 0 ==> State(next) == path[i]
      {
        var l := backend(next);
        ghost var before := State(next);
        var ok := Ingest(l, faults[i], next);
        if i == 0 { LoopEntry(path[0], next, l, faults[i]); }
        ExtendPath(path, Root(archive), backend, faults, State(if ok then l.sequence + 1 else 0));
        path := path + [State(if ok then l.sequence + 1 else 0)];
        if !ok { return 0, path; }
        next := next + 1;
      }
    }
  }

  lemma {:induction false} StartPath(n: Node, root: nat, backend: nat -> Ledger, faults: seq<Fault>)
    ensures IsPath([n], root, backend, faults)
  {
  }

  /** The state machine's steps for a loop that asks the backend again and again. */
  ghost predicate IsPath(path: seq<Node>, root: nat, backend: nat -> Ledger, faults: seq<Fault>) {
    && 1 <= |path| <= |faults| + 1
    && (|path| > 1 ==>
          var n := path[|path| - 2];
          && IsPath(path[..|path| - 1], root, backend, faults)
          && Healthy(n) && n.process.Up?
          && var a := Attempt(root, backend(NextAsked(n, root)), faults[|path| - 2]);
             Possible(n, a) && path[|path| - 1] == Step(n, a))
  }

  lemma {:induction false} ExtendPath(path: seq<Node>, root: nat, backend: nat -> Ledger, faults: seq<Fault>, n: Node)
    requires IsPath(path, root, backend, faults) && |path| <= |faults|
    requires Healthy(path[|path| - 1]) && path[|path| - 1].process.Up?
    requires WellFormed(backend(NextAsked(path[|path| - 1], root)))
    requires backend(NextAsked(path[|path| - 1], root)).sequence == NextAsked(path[|path| - 1], root)
    requires n == NodeRuns.Ingest(path[|path| - 1], backend(NextAsked(path[|path| - 1], root)), faults[|path| - 1])
    ensures IsPath(path + [n], root, backend, faults)
  {
    hide NodeRuns.Ingest, WellFormed;
    assert (path + [n])[..|path|] == path;
  }

  /** The node at the loop's entry: its cache is filled, and the next sequence number is known. */
  function Entered(n: Node, next: nat): Node
    requires n.process.Up?
  {
    n.(process := n.process.(next := next, cache := Filled(n.process.cache, n.disk.ledgers)))
  }

  /** Entering the loop with a cache filled beforehand makes no difference. */
  lemma {:induction false} LoopEntry(n: Node, next: nat, l: Ledger, fault: Fault)
    requires Healthy(n) && n.process.Up? && n.process.next == 0 && next != 0 && WellFormed(l)
    ensures Healthy(Entered(n, next)) && NodeRuns.Ingest(n, l, fault) == NodeRuns.Ingest(Entered(n, next), l, fault)
  {
    hide Written, Trimmed, FeeBuckets.IngestFees;
  }

  lemma {:induction false} WritesWell(d: Disk, l: Ledger, window: nat)
    requires RowsWellFormed(d.ledgers) && WellFormed(l) && Written(d, l).Some?
    ensures RowsWellFormed(Trimmed(Written(d, l).value, l.sequence, window).ledgers)
  {
    hide InsertEventsOf, InsertTxRows;
  }
}
