/**
 Startup (cmd/stellar-rpc/internal/daemon/daemon.go, cmd/stellar-rpc/internal/db/migration.go): building the
 migrations that are still to do, streaming the stored ledgers through them, and committing once.
 */
module Initialization {
  import opened UInt32
  import opened Wrappers
  import opened Chain
  import opened Tables
  import opened FeeBuckets
  import opened Migrations
  import opened Storage
  import opened NodeRuns
  import opened Ingestion

  /** The migrations share one database transaction, whose tables they write, and the fee windows. */
  class MultiMigration {
    const tx: WriteTx
    const feeWindows: FeeWindows
    var migrations: seq<Migration>

    constructor (tx: WriteTx, feeWindows: FeeWindows)
      ensures this.tx == tx && this.feeWindows == feeWindows && migrations == []
    {
      this.tx, this.feeWindows, migrations := tx, feeWindows, [];
    }

    ghost function Done(): (p: Progress)
      requires feeWindows.Valid()
      reads this, tx, feeWindows
      reads feeWindows.classic, feeWindows.classic.feesPerLedger, feeWindows.classic.feesPerLedger.buckets
      reads feeWindows.soroban, feeWindows.soroban.feesPerLedger, feeWindows.soroban.feesPerLedger.buckets
      ensures ValidFees(p.fees)
    {
      Progress(tx.tables.txs, tx.tables.events, feeWindows.State())
    }

    method Append(m: Migration)
      modifies this`migrations
      ensures migrations == old(migrations) + if Empty(m.range) then [] else [m]
    {
      if !Empty(m.range) { migrations := migrations + [m]; }
    }

    method ApplicableRange() returns (r: LedgerSeqRange)
      ensures r == MergedRange(Ranges(migrations))
    {
      r := LedgerSeqRange(0, 0);
      for i := 0 to |migrations|
        invariant r == MergedRange(Ranges(migrations)[..i])
      {
        assert Ranges(migrations)[..i + 1][..i] == Ranges(migrations)[..i];
        r := Merge(migrations[i].range, r);
      }
      assert Ranges(migrations)[..|migrations|] == Ranges(migrations);
    }

    method ApplyOne(m: Migration, l: Ledger, works: bool) returns (ok: bool)
      requires feeWindows.Valid() && WellFormed(l) && Included(m.range, l.sequence)
      modifies tx`tables
      modifies feeWindows.classic, feeWindows.classic.feesPerLedger, feeWindows.classic.feesPerLedger.buckets
      modifies feeWindows.soroban, feeWindows.soroban.feesPerLedger, feeWindows.soroban.feesPerLedger.buckets
      ensures feeWindows.Valid()
      ensures var next := Migrations.ApplyOne(old(Done()), m, l);
              ok == (works && old(tx.open || m.kind.FeeStatistics?) && next.Some?) && (ok ==> next == Some(Done()))
      ensures ok ==> OnlyLookupTables(old(tx.tables), tx.tables)
    {
      hide FeeWindows.State, FeeWindows.Valid, WellFormed, InsertEventsOf, InsertTxRows, FeeBuckets.IngestFees;
      if !works || (!tx.open && !m.kind.FeeStatistics?) { return false; }
      match m.kind
      case TransactionsTable => ok := tx.InsertTransactions(l, true);
      case EventsTable => ok := tx.InsertEvents(l, true);
      case FeeStatistics => ok := feeWindows.IngestFees(l);
    }

    /** Every migration whose range includes the ledger applies it; a failure rolls back, and is fatal later. */
    method Apply(l: Ledger, works: bool) returns (ok: bool)
      requires feeWindows.Valid() && WellFormed(l) && tx.open
      modifies tx
      modifies feeWindows.classic, feeWindows.classic.feesPerLedger, feeWindows.classic.feesPerLedger.buckets
      modifies feeWindows.soroban, feeWindows.soroban.feesPerLedger, feeWindows.soroban.feesPerLedger.buckets
      ensures feeWindows.Valid()
      ensures var next := ApplyAll(old(Done()), migrations, l);
              (ok ==> next == Some(Done()) && tx.open) && (works && next.Some? ==> ok)
      ensures ok ==> OnlyLookupTables(old(tx.tables), tx.tables)
    {
      hide FeeWindows.State, FeeWindows.Valid, WellFormed, Migrations.ApplyOne;
      ok := true;
      ghost var p := Done();
      for i := 0 to |migrations|
        invariant feeWindows.Valid()
        invariant ok ==> tx.open && ApplyAll(p, migrations[..i], l) == Some(Done())
        invariant works && ApplyAll(p, migrations[..i], l).Some? ==> ok
        invariant ok ==> OnlyLookupTables(old(tx.tables), tx.tables)
      {
        assert migrations[..i + 1][..i] == migrations[..i];
        Skipped(Done(), migrations[i], l);
        if !Included(migrations[i].range, l.sequence) { continue; }
        var applied := ApplyOne(migrations[i], l, works);
        if !applied {
          ok := false;
          tx.Rollback();
        }
      }
      assert migrations[..|migrations|] == migrations;
    }

    /**
     One guard write per migration, and then the commit. A write that fails rolls the transaction back, and the loop
     goes on; from then on a write takes effect on the database itself, and the commit finds no transaction.
     */
    method Commit(f: StartupFaults) returns (ok: bool)
      requires tx.open
      modifies tx, tx.db`disk
      ensures var end := GuardWrites(GuardWriting(old(tx.db.disk), old(tx.tables), true), migrations, f);
              ok == (end.open && f.commits) && tx.db.disk == if ok then end.tables else end.disk
    {
      ghost var start := GuardWriting(tx.db.disk, tx.tables, true);
      for i := 0 to |migrations|
        invariant GuardWrites(start, migrations[..i], f) == GuardWriting(tx.db.disk, tx.tables, tx.open)
        invariant !tx.open ==> tx.tables == tx.db.disk
      {
        assert migrations[..i + 1][..i] == migrations[..i];
        var kind := migrations[i].kind;
        if !Works(f, kind) {
          tx.Rollback();
        } else if tx.open {
          tx.tables := SetGuard(tx.tables, kind);
        } else {
          tx.db.disk := SetGuard(tx.db.disk, kind);
          tx.tables := tx.db.disk;
        }
      }
      assert migrations[..|migrations|] == migrations;
      if !tx.open || !f.commits { return false; }
      tx.db.disk, tx.open := tx.tables, false;
      return true;
    }
  }

  ghost predicate OnlyLookupTables(d: Disk, e: Disk) {
    e.(txs := d.txs, events := d.events) == d
  }

  lemma {:induction false} Skipped(p: Progress, m: Migration, l: Ledger)
    requires ValidFees(p.fees) && WellFormed(l)
    ensures !Included(m.range, l.sequence) ==> Migrations.ApplyOne(p, m, l) == Some(p)
  {
  }

  /** The ledgers a migration over the retention window goes through. */
  method GetMigrationLedgerRange(db: Database, window: nat) returns (r: LedgerSeqRange)
    requires db.cache == UNKNOWN || db.cache == NewestInfo(db.disk.ledgers)
    requires 0 !in db.disk.ledgers
    modifies db`cache
    ensures db.cache == NewestInfo(db.disk.ledgers)
    ensures r == MigrationRange(Latest(db.disk.ledgers), window)
  {
    var first := FIRST_LEDGER;
    if db.cache.sequence == 0 && db.disk.ledgers != map[] {
      var newest := Greatest(db.disk.ledgers.Keys);
      db.cache := LedgerInfo(newest, db.disk.ledgers[newest].closeTime);
    }
    var latest := db.cache.sequence;
    if latest > window { first := latest - window; }
    return LedgerSeqRange(first, latest);
  }

  /** The guarded migrations, in the order of a map iteration; a completed one is skipped. */
  method BuildMigrations(tx: WriteTx, feeWindows: FeeWindows, range: LedgerSeqRange, txsFirst: bool)
    returns (mm: MultiMigration)
    requires range.first >= 1
    modifies tx`tables
    ensures fresh(mm) && mm.tx == tx && mm.feeWindows == feeWindows
    ensures mm.migrations == Pending(old(tx.tables), range, txsFirst)
    ensures tx.tables == if old(tx.tables).txsMigrated then old(tx.tables) else old(tx.tables).(txs := map[])
  {
    mm := new MultiMigration(tx, feeWindows);
    var kinds := if txsFirst then [TransactionsTable, EventsTable] else [EventsTable, TransactionsTable];
    var pending: seq<Migration> := [];
    for i := 0 to 2
      invariant tx.tables == old(tx.tables) || tx.tables == old(tx.tables).(txs := map[])
      invariant pending == if i == 0 then [] else if i == 2 then Pending(old(tx.tables), range, txsFirst)
        else if txsFirst then (if old(tx.tables).txsMigrated then [] else [Migration(TransactionsTable, range)])
        else (if old(tx.tables).eventsMigrated then [] else [Migration(EventsTable, range)])
      invariant i == 0 || (i == 1 && !txsFirst) || old(tx.tables).txsMigrated ==> tx.tables == old(tx.tables)
      invariant (i == 2 || (i == 1 && txsFirst)) && !old(tx.tables).txsMigrated ==> tx.tables.txs == map[]
    {
      match kinds[i]
      case TransactionsTable =>
        if !tx.tables.txsMigrated {
          tx.tables := tx.tables.(txs := map[]);
          pending := pending + [Migration(TransactionsTable, range)];
        }
      case EventsTable =>
        if !tx.tables.eventsMigrated { pending := pending + [Migration(EventsTable, range)]; }
    }
    mm.migrations := pending;
  }

  lemma {:induction false} StreamNext(p: Progress, ms: seq<Migration>, ls: seq<Ledger>, i: nat)
    requires ValidFees(p.fees) && i < |ls| && forall j :: 0 <= j < |ls| ==> WellFormed(ls[j])
    ensures Stream(p, ms, ls[..i + 1])
         == match Stream(p, ms, ls[..i]) case None => None case Some(q) => ApplyAll(q, ms, ls[i])
  {
    assert ls[..i + 1][..i] == ls[..i];
  }

  lemma {:induction false} StreamFails(p: Progress, ms: seq<Migration>, ls: seq<Ledger>, i: nat)
    requires ValidFees(p.fees) && i <= |ls| && forall j :: 0 <= j < |ls| ==> WellFormed(ls[j])
    requires Stream(p, ms, ls[..i]).None?
    ensures Stream(p, ms, ls).None?
    decreases |ls| - i
  {
    if i < |ls| {
      StreamNext(p, ms, ls, i);
      StreamFails(p, ms, ls, i + 1);
    } else {
      assert ls[..i] == ls;
    }
  }

  /** StreamLedgerRange, with the migrations applied to every ledger. */
  method StreamLedgers(mm: MultiMigration, ls: seq<Ledger>, works: bool) returns (ok: bool)
    requires mm.feeWindows.Valid() && mm.tx.open && forall i :: 0 <= i < |ls| ==> WellFormed(ls[i])
    modifies mm.tx
    modifies mm.feeWindows.classic, mm.feeWindows.classic.feesPerLedger, mm.feeWindows.classic.feesPerLedger.buckets
    modifies mm.feeWindows.soroban, mm.feeWindows.soroban.feesPerLedger, mm.feeWindows.soroban.feesPerLedger.buckets
    ensures mm.feeWindows.Valid()
    ensures var end := Stream(old(mm.Done()), mm.migrations, ls);
            ok == (works && end.Some?) && (ok ==> end == Some(mm.Done()) && mm.tx.open)
    ensures ok ==> OnlyLookupTables(old(mm.tx.tables), mm.tx.tables)
  {
    hide FeeWindows.State, FeeWindows.Valid, WellFormed, ApplyAll;
    ghost var p := mm.Done();
    for i := 0 to |ls|
      invariant mm.feeWindows.Valid() && mm.tx.open
      invariant Stream(p, mm.migrations, ls[..i]) == Some(mm.Done())
      invariant OnlyLookupTables(old(mm.tx.tables), mm.tx.tables)
    {
      StreamNext(p, mm.migrations, ls, i);
      ok := mm.Apply(ls[i], works);
      if !ok {
        if works { StreamFails(p, mm.migrations, ls, i + 1); }
        return false;
      }
    }
    assert ls[..|ls|] == ls;
    return works;
  }

  /** The migrations to do, the fee windows among them, in a transaction just opened. */
  method PrepareMigrations(tx: WriteTx, windows: FeeWindows, window: nat, classicCap: nat, sorobanCap: nat,
      txsFirst: bool)
    returns (mm: MultiMigration)
    requires windows.Valid() && windows.State() == FeeState(classicCap, sorobanCap, [], []) && 0 !in tx.db.disk.ledgers
    requires tx.open && tx.tables == tx.db.disk && tx.db.cache == UNKNOWN
    modifies tx`tables, tx.db`cache
    ensures fresh(mm) && mm.tx == tx && mm.feeWindows == windows && windows.Valid()
    ensures tx.db.cache == NewestInfo(tx.db.disk.ledgers)
    ensures mm.migrations == StartupMigrations(tx.db.disk, window, classicCap, sorobanCap, txsFirst)
    ensures mm.Done() == StartupProgress(tx.db.disk, classicCap, sorobanCap)
    ensures OnlyLookupTables(tx.db.disk, tx.tables)
  {
    hide FeeWindows.State, FeeWindows.Valid, Pending;
    var range := GetMigrationLedgerRange(tx.db, window);
    mm := BuildMigrations(tx, windows, range, txsFirst);
    var feeRange := GetMigrationLedgerRange(tx.db, Max(classicCap, sorobanCap));
    mm.Append(Migration(FeeStatistics, feeRange));
  }

  /** All of startup, to the end that its faults lead to. */
  method InitializeStorage(db: Database, window: nat, classicCap: nat, sorobanCap: nat, txsFirst: bool,
      f: StartupFaults)
    returns (feeWindows: Option<FeeWindows>)
    requires 1 <= classicCap < UINT32_SIZE && 1 <= sorobanCap < UINT32_SIZE
    requires RowsWellFormed(db.disk.ledgers) && 0 !in db.disk.ledgers && db.cache == UNKNOWN
    modifies db
    ensures match EndOfStartup(old(db.disk), window, classicCap, sorobanCap, txsFirst, f)
            case Started(disk, fees) =>
              && feeWindows.Some? && feeWindows.value.Valid() && feeWindows.value.State() == fees
              && db.disk == disk && db.cache == NewestInfo(disk.ledgers)
            case Fatal(disk) => feeWindows == None && db.disk == disk
  {
    hide FeeWindows.State, FeeWindows.Valid, WellFormed, Stream, RowsWellFormed, Pending, NewestInfo, Streamed;
    hide GuardWrites, StartupMigrations, StartupProgress, Startup, EndOfStartup;
    StartupCases(db.disk, window, classicCap, sorobanCap, txsFirst, f);
    if Max(classicCap, sorobanCap) > window { return None; }
    var windows := new FeeWindows(classicCap, sorobanCap);
    var tx := new WriteTx(db, window);
    var mm := PrepareMigrations(tx, windows, window, classicCap, sorobanCap, txsFirst);
    var ls := SelectStreamed(db, mm);
    var ok := StreamLedgers(mm, ls, f.streams);
    if !ok { return None; }
    GuardsKeepLedgers(db.disk, tx.tables, mm.migrations, f);
    ok := mm.Commit(f);
    if !ok { return None; }
    return Some(windows);
  }

  method SelectStreamed(db: Database, mm: MultiMigration) returns (ls: seq<Ledger>)
    requires RowsWellFormed(db.disk.ledgers)
    ensures ls == Streamed(db.disk, mm.migrations)
  {
    var merged := mm.ApplicableRange();
    ls := Rows(db.disk.ledgers, merged.first, merged.last);
  }

  /** The cases of a startup, one after the other. */
  lemma {:induction false} StartupCases(d: Disk, window: nat, classicCap: nat, sorobanCap: nat, txsFirst: bool,
      f: StartupFaults)
    requires 1 <= classicCap < UINT32_SIZE && 1 <= sorobanCap < UINT32_SIZE && RowsWellFormed(d.ledgers)
    ensures var ms := StartupMigrations(d, window, classicCap, sorobanCap, txsFirst);
            var streamed := Stream(StartupProgress(d, classicCap, sorobanCap), ms, Streamed(d, ms));
            var end := EndOfStartup(d, window, classicCap, sorobanCap, txsFirst, f);
            if Max(classicCap, sorobanCap) > window || streamed.None? || !f.streams then end == Fatal(d)
            else
              var built := d.(txs := streamed.value.txs, events := streamed.value.events);
              var w := GuardWrites(GuardWriting(d, built, true), ms, f);
              end == if w.open && f.commits then Started(w.tables, streamed.value.fees) else Fatal(w.disk)
  {
    hide Stream, StartupMigrations, Streamed, GuardWrites;
  }

  /** Guard writes leave the ledgers alone. */
  lemma {:induction false} GuardsKeepLedgers(d: Disk, tables: Disk, ms: seq<Migration>, f: StartupFaults)
    requires tables.ledgers == d.ledgers
    ensures var end := GuardWrites(GuardWriting(d, tables, true), ms, f);
            end.disk.ledgers == d.ledgers && end.tables.ledgers == d.ledgers
  {
    if ms != [] { GuardsKeepLedgers(d, tables, ms[..|ms| - 1], f); }
  }
}
