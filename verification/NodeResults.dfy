/** What holds over every run of the service: ledgers, lookup tables, migrations and fee windows. */
module NodeResults {
  import opened UInt32
  import opened Wrappers
  import opened Sequences
  import opened Chain
  import opened Cursors
  import opened EventStore
  import opened Tables
  import opened Retention
  import opened FeeBuckets
  import opened Migrations
  import opened Storage
  import opened NodeRuns

  function Last(ws: seq<World>): World
    requires ws != []
  {
    ws[|ws| - 1]
  }

  // ---- ledgers and lookup tables ----

  /** Transaction rows that no migration has cleared away come from the beginning, or from a guard set without it. */
  lemma {:induction false} RelicOrigin(ws: seq<World>)
    requires IsRun(ws) && ws[0].trace.coverage.relic == map[]
    ensures !Last(ws).trace.txSkipped ==> Last(ws).trace.coverage.relic == map[]
  {
    hide Inv, HistoryOk, Possible, Healthy, After, Takes;
    if |ws| > 1 {
      RelicOrigin(ws[..|ws| - 1]);
      var a :| Takes(ws[|ws| - 2], a, Last(ws));
      TakesStep(ws[|ws| - 2], a, Last(ws));
      StepRelic(ws[|ws| - 2], a);
    }
  }

  lemma {:induction false} StepRelic(w: World, a: Action)
    requires Healthy(w.node) && Possible(w.node, a) && w.trace.dropped <= |w.trace.history|
    requires !w.trace.txSkipped ==> w.trace.coverage.relic == map[]
    ensures !After(w, a).trace.txSkipped ==> After(w, a).trace.coverage.relic == map[]
  {
    hide EndOfStartup, Written, IngestFees, RowsWellFormed, Before, Since, Step;
  }

  /**
   At every point of every run, whatever failed and however the windows were configured: the stored ledgers are one
   contiguous stretch that ends at the newest committed one. Once its guard is set, a lookup table holds the rows of
   exactly the stored ledgers from its floor on; for transactions, beside what was left when the guard was set without
   the migration, if that has happened.
   */
  lemma {:induction false} StoredInterval(ws: seq<World>)
    requires IsRun(ws)
    ensures var (d, t) := (Last(ws).node.disk, Last(ws).trace);
            && t.dropped <= |t.history| && (t.history != [] ==> t.dropped < |t.history|)
            && Contiguous(StoredOf(t)) && LedgersHold(d.ledgers, StoredOf(t))
            && (d.txsMigrated ==> TxsHoldBeside(d.txs, t.coverage.relic, Since(StoredOf(t), t.coverage.txFloor)))
            && (d.txsMigrated && !t.txSkipped && ws[0].trace.coverage.relic == map[] ==>
                  TxsHold(d.txs, Since(StoredOf(t), t.coverage.txFloor)))
            && (d.eventsMigrated ==> Holds(d.events, EventsOf(Since(StoredOf(t), t.coverage.eventFloor))))
  {
    hide TxsHold, TxsHoldBeside, Holds, LedgersHold, Since, EventsOf, Contiguous, RowsWellFormed;
    RunInv(ws);
    var (d, t) := (Last(ws).node.disk, Last(ws).trace);
    if d.txsMigrated && !t.txSkipped && ws[0].trace.coverage.relic == map[] {
      RelicOrigin(ws);
      BesideNothing(d.txs, Since(StoredOf(t), t.coverage.txFloor));
    }
  }

  lemma {:induction false} OthersKeepLedgers(w: World, a: Action)
    requires Healthy(w.node) && Possible(w.node, a) && w.trace.dropped <= |w.trace.history| && !a.Attempt?
    ensures After(w, a).trace.history == w.trace.history && After(w, a).node.disk.ledgers == w.node.disk.ledgers
  {
    hide EndOfStartup, Startup, RowsWellFormed;
    if a.Start? {
      StartupEnds(w.node.disk, a.window, a.classicCap, a.sorobanCap, a.txsFirst, a.faults);
      StartupLedgers(w.node.disk, a.window, a.classicCap, a.sorobanCap, a.txsFirst);
    }
  }

  lemma {:induction false} StartupLedgers(d: Disk, window: nat, classicCap: nat, sorobanCap: nat, txsFirst: bool)
    requires 1 <= classicCap < UINT32_SIZE && 1 <= sorobanCap < UINT32_SIZE && RowsWellFormed(d.ledgers)
    ensures Startup(d, window, classicCap, sorobanCap, txsFirst).Some? ==>
      Startup(d, window, classicCap, sorobanCap, txsFirst).value.0.ledgers == d.ledgers
  {
    hide Stream, StartupMigrations, Streamed;
  }

  /** A commit adds its ledger and leaves at most a window of them; anything else leaves the stored ledgers alone. */
  lemma {:induction false} StepLedgers(ws: seq<World>, a: Action, w': World)
    requires IsRun(ws) && Takes(Last(ws), a, w')
    ensures var w := Last(ws);
            && w'.trace.dropped <= |w'.trace.history|
            && (Committed(w.node, a) ==>
                  && w'.trace.history == w.trace.history + [a.ledger]
                  && w'.node.process.Up? && w'.node.process.cache == LedgerInfo(a.ledger.sequence, a.ledger.closeTime)
                  && |StoredOf(w'.trace)| == Min(w.node.process.window, |StoredOf(w.trace)| + 1))
            && (!Committed(w.node, a) ==>
                  w'.trace.history == w.trace.history && w'.node.disk.ledgers == w.node.disk.ledgers)
  {
    hide HistoryOk, Contiguous, RowsWellFormed, CacheOk, FeesOk, GuardsOk;
    hide Written, Trimmed, EndOfStartup, IngestFees, Track, Step;
    var w := Last(ws);
    RunInv(ws);
    StepKeeps(w, a);
    InvHealthy(w');
    if Committed(w.node, a) {
      CommitKeeps(w, a);
    } else if a.Attempt? {
      FailureLedgers(w, a);
    } else {
      OthersKeepLedgers(w, a);
    }
  }

  lemma {:induction false} FailureLedgers(w: World, a: Action)
    requires Inv(w) && Healthy(w.node) && Possible(w.node, a) && w.trace.dropped <= |w.trace.history|
    requires a.Attempt? && !Committed(w.node, a)
    ensures After(w, a).trace.history == w.trace.history && After(w, a).node.disk == w.node.disk
  {
    hide HistoryOk, CacheOk, FeesOk, GuardsOk, FeesRemember;
    hide Written, Trimmed, IngestFees, RowsWellFormed, Contiguous, Step;
    AttemptContinues(w, a);
    AttemptFees(w, a);
    FailureHasEffect(w, a);
  }

  lemma {:induction false} EitherSide(ls: seq<Ledger>, from: int, l: Ledger)
    requires Contiguous(ls)
    ensures l in ls && l.sequence >= from <==> l in Since(ls, from)
  {
    SinceSplit(ls, from);
    var (a, b) := (ls[..Before(ls, from)], Since(ls, from));
    assert l in ls <==> l in a + b;
  }

  /** A row of a ledger before the floor can only be among those that were there before. */
  lemma {:induction false} RowBelow(t: TxTable, relic: TxTable, stored: seq<Ledger>, floor: nat, l: Ledger, h: Hash)
    requires Contiguous(stored) && TxsHoldBeside(t, relic, Since(stored, floor)) && l in stored && l.sequence < floor
    requires h in TxRows(l) && h in t && t[h] == TxRows(l)[h]
    ensures h in relic
  {
    hide Since, TxRows, Contiguous;
    if h !in relic {
      assert h in t - relic.Keys;
      var m :| m in Since(stored, floor) && h in TxRows(m);
      RowLedger(l, h);
      RowLedger(m, h);
      EitherSide(stored, floor, m);
    }
  }

  lemma {:induction false} BelowSide(stored: seq<Ledger>, floor: int, l: Ledger)
    requires Contiguous(stored)
    ensures l in stored[..Before(stored, floor)] <==> l in stored && l.sequence < floor
  {
    SinceSplit(stored, floor);
    EitherSide(stored, floor, l);
    assert l in stored <==> l in stored[..Before(stored, floor)] + Since(stored, floor);
  }

  /** The transaction table is exact if and only if what was there before is, for the ledgers before the floor. */
  lemma {:induction false} TxRowsExact(t: TxTable, relic: TxTable, stored: seq<Ledger>, floor: nat)
    requires Contiguous(stored) && TxsHoldBeside(t, relic, Since(stored, floor))
    ensures TxsHold(t, stored) <==> TxsHold(relic, stored[..Before(stored, floor)])
  {
    if TxsHold(t, stored) { RelicExact(t, relic, stored, floor); }
    if TxsHold(relic, stored[..Before(stored, floor)]) { TableExact(t, relic, stored, floor); }
  }

  lemma {:induction false} RelicExact(t: TxTable, relic: TxTable, stored: seq<Ledger>, floor: nat)
    requires Contiguous(stored) && TxsHoldBeside(t, relic, Since(stored, floor)) && TxsHold(t, stored)
    ensures TxsHold(relic, stored[..Before(stored, floor)])
  {
    hide Since, TxRows, Contiguous, Before;
    var below := stored[..Before(stored, floor)];
    forall l, h | l in below && h in TxRows(l) ensures h in relic && relic[h] == TxRows(l)[h] {
      BelowSide(stored, floor, l);
      RowBelow(t, relic, stored, floor, l, h);
    }
    forall h | h in relic ensures exists l :: l in below && h in TxRows(l) {
      assert h in t;
      var l :| l in stored && h in TxRows(l);
      EitherSide(stored, floor, l);
      BelowSide(stored, floor, l);
      assert l in Since(stored, floor) ==> h in t - relic.Keys;
    }
  }

  lemma {:induction false} TableExact(t: TxTable, relic: TxTable, stored: seq<Ledger>, floor: nat)
    requires Contiguous(stored) && TxsHoldBeside(t, relic, Since(stored, floor))
    requires TxsHold(relic, stored[..Before(stored, floor)])
    ensures TxsHold(t, stored)
  {
    hide Since, TxRows, Contiguous, Before;
    var (below, kept, own) := (stored[..Before(stored, floor)], Since(stored, floor), t - relic.Keys);
    forall l, h | l in stored && h in TxRows(l) ensures h in t && t[h] == TxRows(l)[h] {
      EitherSide(stored, floor, l);
      BelowSide(stored, floor, l);
      if l in kept {
        assert h in own && own[h] == TxRows(l)[h];
      } else {
        assert h in relic && relic[h] == TxRows(l)[h];
      }
    }
    forall h | h in t ensures exists l :: l in stored && h in TxRows(l) {
      if h in relic {
        var l :| l in below && h in TxRows(l);
        BelowSide(stored, floor, l);
      } else {
        assert h in own;
        var l :| l in kept && h in TxRows(l);
        EitherSide(stored, floor, l);
      }
    }
  }

  lemma {:induction false} EventLedger(ls: seq<Ledger>, floor: int, e: StoredEvent)
    requires Contiguous(ls)
    ensures e in EventsOf(Since(ls, floor)) ==> e.cursor.ledger >= floor
    ensures e in EventsOf(ls[..Before(ls, floor)]) ==> e.cursor.ledger < floor
  {
    SinceSplit(ls, floor);
    EventsOrdered(Since(ls, floor));
    EventsOrdered(ls[..Before(ls, floor)]);
  }

  lemma {:induction false} NoEventRowBelow(t: EventTable, stored: seq<Ledger>, floor: nat, e: StoredEvent)
    requires Contiguous(stored) && Holds(t, EventsOf(Since(stored, floor))) && Placed(e)
    requires e in EventsOf(stored[..Before(stored, floor)])
    ensures String(e.cursor) !in t
  {
    hide String, EventsOf, Since, Contiguous;
    if String(e.cursor) in t {
      var x :| x in EventsOf(Since(stored, floor)) && Placed(x) && String(x.cursor) == String(e.cursor);
      EventLedger(stored, floor, e);
      EventLedger(stored, floor, x);
      ParseString(e.cursor);
      ParseString(x.cursor);
    }
  }

  /** The event table misses rows of the stored ledgers exactly when a ledger before the floor has events. */
  lemma {:induction false} EventRowsExact(t: EventTable, stored: seq<Ledger>, floor: nat)
    requires Contiguous(stored) && Holds(t, EventsOf(Since(stored, floor)))
    ensures Holds(t, EventsOf(stored)) <==> EventsOf(stored[..Before(stored, floor)]) == []
  {
    SinceSplit(stored, floor);
    var (below, kept) := (stored[..Before(stored, floor)], Since(stored, floor));
    EventsConcat(below, kept);
    EventsOrdered(below);
    hide Since, EventsOf, String, Before, Contiguous;
    if EventsOf(below) != [] {
      var e := EventsOf(below)[0];
      NoEventRowBelow(t, stored, floor, e);
      assert e in EventsOf(stored);
    } else {
      assert EventsOf(stored) == EventsOf(kept);
    }
  }

  // ---- migrations ----

  /**
   A guard that was unset at the beginning is set because its migration took effect, once, or was skipped for good.
   */
  lemma {:induction false} MigrationsOnce(ws: seq<World>)
    requires IsRun(ws)
    ensures var (first, d, t) := (ws[0].node.disk, Last(ws).node.disk, Last(ws).trace);
            && t.txRuns + (if t.txSkipped then 1 else 0) == (if d.txsMigrated && !first.txsMigrated then 1 else 0)
            && t.eventRuns + (if t.eventSkipped then 1 else 0)
              == (if d.eventsMigrated && !first.eventsMigrated then 1 else 0)
            && (first.txsMigrated ==> d.txsMigrated) && (first.eventsMigrated ==> d.eventsMigrated)
            && (!d.eventsMigrated ==> d.events == map[])
            && (Last(ws).node.process.Up? ==> d.txsMigrated && d.eventsMigrated)
  {
    hide Inv, HistoryOk, Possible, Healthy, After, Takes;
    RunInv(ws);
    UnsetIsEmpty(Last(ws));
    if |ws| > 1 {
      MigrationsOnce(ws[..|ws| - 1]);
      RunInv(ws[..|ws| - 1]);
      var a :| Takes(ws[|ws| - 2], a, Last(ws));
      TakesStep(ws[|ws| - 2], a, Last(ws));
      StepGuards(ws[|ws| - 2], a);
    }
  }

  lemma {:induction false} UpMigrated(ws: seq<World>)
    requires IsRun(ws) && Last(ws).node.process.Up?
    ensures Inv(Last(ws)) && Last(ws).node.disk.txsMigrated && Last(ws).node.disk.eventsMigrated
  {
    hide HistoryOk, CacheOk, FeesOk;
    RunInv(ws);
  }

  lemma {:induction false} UnsetIsEmpty(w: World)
    requires Inv(w)
    ensures !w.node.disk.eventsMigrated ==> w.node.disk.events == map[]
    ensures w.node.process.Up? ==> w.node.disk.txsMigrated && w.node.disk.eventsMigrated
  {
    hide TxsHoldBeside, Holds, LedgersHold, Since, EventsOf, Contiguous, RowsWellFormed;
  }

  /** How one step changes guards and their account. */
  lemma {:induction false} StepGuards(w: World, a: Action)
    requires Inv(w) && Healthy(w.node) && Possible(w.node, a) && w.trace.dropped <= |w.trace.history|
    ensures var (d, t, d', t') := (w.node.disk, w.trace, After(w, a).node.disk, After(w, a).trace);
            && (d.txsMigrated ==> d'.txsMigrated && t'.txRuns == t.txRuns && t'.txSkipped == t.txSkipped)
            && (d.eventsMigrated ==>
                  d'.eventsMigrated && t'.eventRuns == t.eventRuns && t'.eventSkipped == t.eventSkipped)
            && (!d.txsMigrated && !t.txSkipped ==>
                  t'.txRuns + (if t'.txSkipped then 1 else 0) == t.txRuns + if d'.txsMigrated then 1 else 0)
            && (!d.eventsMigrated && !t.eventSkipped ==>
                  t'.eventRuns + (if t'.eventSkipped then 1 else 0) == t.eventRuns + if d'.eventsMigrated then 1 else 0)
            && (!d.txsMigrated ==> !t.txSkipped) && (!d.eventsMigrated ==> !t.eventSkipped)
  {
    hide DiskHolds, FeesRemember, Contiguous, WellFormed, RowsWellFormed, EndOfStartup, Startup, Written, IngestFees;
    if a.Start? {
      StartupEnds(w.node.disk, a.window, a.classicCap, a.sorobanCap, a.txsFirst, a.faults);
      if StartsUp(w.node, a) { StartedKeeps(w, a); }
    } else if a.Attempt? {
      if Committed(w.node, a) {
        CommitHasEffect(w, a);
        CommitKeeps(w, a);
      } else {
        FailureKeeps(w, a);
      }
    }
  }

  /** A migration is skipped in exactly one situation, and only one of the two can be. */
  lemma {:induction false} SkippedWhen(w: World, a: Action)
    requires Inv(w) && Healthy(w.node) && Possible(w.node, a) && w.trace.dropped <= |w.trace.history|
    requires !w.trace.txSkipped && !w.trace.eventSkipped
    ensures After(w, a).trace.txSkipped || After(w, a).trace.eventSkipped <==>
      && a.Start? && a.faults.streams && GuardLeaks(w.node.disk, a.txsFirst, a.faults)
      && Startup(w.node.disk, a.window, a.classicCap, a.sorobanCap, a.txsFirst).Some?
    ensures !(After(w, a).trace.txSkipped && After(w, a).trace.eventSkipped)
  {
    hide DiskHolds, FeesRemember, Contiguous, WellFormed, RowsWellFormed, EndOfStartup, Startup, Written, IngestFees;
    if a.Start? {
      StartupEnds(w.node.disk, a.window, a.classicCap, a.sorobanCap, a.txsFirst, a.faults);
      if !StartsUp(w.node, a) {
        OneLeaks(w.node.disk, a.window, a.classicCap, a.sorobanCap, a.txsFirst, a.faults);
      }
    }
  }

  /**
   When the transactions migration runs, it indexes every stored ledger, except for transactions further back than the
   retention window just configured. The same goes for events.
   */
  lemma {:induction false} MigrationReach(w: World, a: Action)
    requires Inv(w) && Healthy(w.node) && Possible(w.node, a) && w.trace.dropped <= |w.trace.history|
      && StartsUp(w.node, a)
    ensures var (d, e, stored) := (w.node.disk, After(w, a).node.disk, StoredOf(w.trace));
            var floor := MigrationRange(Latest(d.ledgers), a.window).first;
            && Contiguous(stored)
            && (!d.txsMigrated ==>
                  (TxsHold(e.txs, stored) <==> forall l :: l in stored && l.sequence < floor ==> TxRows(l) == map[]))
            && (!d.eventsMigrated ==>
                  (Holds(e.events, EventsOf(stored)) <==> EventsOf(stored[..Before(stored, floor)]) == []))
  {
    hide TxsHold, TxsHoldBeside, Holds, EventsOf, FeesRemember, LedgersHold, Since, Before, RowsWellFormed, TxRows;
    hide EndOfStartup, Startup;
    var (d, t) := (w.node.disk, w.trace);
    StoredContiguous(t);
    StartHasEffect(w, a);
    var e := After(w, a).node.disk;
    var floor := MigrationRange(Latest(d.ledgers), a.window).first;
    if !d.txsMigrated {
      TxRowsExact(e.txs, map[], StoredOf(t), floor);
      NothingBelow(StoredOf(t), floor);
    }
    if !d.eventsMigrated { EventRowsExact(e.events, StoredOf(t), floor); }
  }

  lemma {:induction false} MapWithout(rows: TxTable, none: TxTable)
    requires none == map[] && forall h :: h in rows ==> h in none
    ensures rows == map[]
  {
    assert rows.Keys == {};
  }

  lemma {:induction false} NothingBelow(stored: seq<Ledger>, floor: nat)
    requires Contiguous(stored)
    ensures TxsHold(map[], stored[..Before(stored, floor)])
       <==> forall l :: l in stored && l.sequence < floor ==> TxRows(l) == map[]
  {
    hide TxRows, Before, Contiguous;
    var below := stored[..Before(stored, floor)];
    var none: TxTable := map[];
    forall l ensures l in below <==> l in stored && l.sequence < floor { BelowSide(stored, floor, l); }
    if TxsHold(map[], below) {
      forall l | l in below ensures TxRows(l) == map[] {
        MapWithout(TxRows(l), none);
      }
    }
  }

  /** Startups of one process life after another, with the same settings and the given faults. */
  function StartWith(a: Action, f: StartupFaults): Action
    requires a.Start?
  {
    a.(faults := f)
  }

  /** A fatal startup in which a guard leaks, seen as bookkeeping. */
  lemma {:induction false} LeakHappens(w: World, a: Action)
    requires Inv(w) && Healthy(w.node) && Possible(w.node, a) && w.trace.dropped <= |w.trace.history|
    requires a.Start? && a.txsFirst && a.faults == StartupFaults(true, false, true, true)
    requires !w.node.disk.txsMigrated && !w.node.disk.eventsMigrated
    requires Startup(w.node.disk, a.window, a.classicCap, a.sorobanCap, true).Some?
    ensures var w' := After(w, a);
            && w'.node.process.Down? && w'.node.disk == w.node.disk.(eventsMigrated := true)
            && w'.trace == w.trace.(coverage := w'.trace.coverage, eventSkipped := true)
  {
    hide DiskHolds, FeesRemember, Contiguous, WellFormed, RowsWellFormed, EndOfStartup, Startup;
    var d := w.node.disk;
    StartupEnds(d, a.window, a.classicCap, a.sorobanCap, true, a.faults);
    LeakedGuard(d, a.window, a.classicCap, a.sorobanCap, a.faults);
  }

  /** The next startup succeeds, and the event migration never runs. */
  lemma {:induction false} LeakLasts(w: World, a: Action, b: Action)
    requires Inv(w) && Healthy(w.node) && Possible(w.node, a) && w.trace.dropped <= |w.trace.history|
    requires a.Start? && a.txsFirst && a.faults == StartupFaults(true, false, true, true)
    requires !w.node.disk.txsMigrated && !w.node.disk.eventsMigrated
    requires Startup(w.node.disk, a.window, a.classicCap, a.sorobanCap, true).Some? && b == StartWith(a, NO_FAULTS)
    requires EventsOf(StoredOf(w.trace)) != []
    ensures var m := After(w, a);
            && Takes(w, a, m) && Healthy(m.node) && Possible(m.node, b) && m.trace.dropped <= |m.trace.history|
            && var e := After(m, b);
               && Takes(m, b, e) && e.node.process.Up? && e.trace.eventSkipped && e.trace.eventRuns == w.trace.eventRuns
               && e.trace.dropped <= |e.trace.history| && !Holds(e.node.disk.events, EventsOf(StoredOf(e.trace)))
  {
    hide HistoryOk, GuardsOk, CacheOk, FeesOk, RowsWellFormed, EndOfStartup, Startup, EventsOf, Holds, Contiguous;
    LeakHappens(w, a);
    UnsetIsEmpty(w);
    StepKeeps(w, a);
    var m := After(w, a);
    InvHealthy(m);
    LeakRestarts(w, m, a);
    LeakStays(m, b);
  }

  /** Having to migrate the transactions still, the restart succeeds as the failed start would have. */
  lemma {:induction false} LeakRestarts(w: World, m: World, a: Action)
    requires HistoryOk(w) && HistoryOk(m) && a.Start?
    requires 1 <= a.classicCap < UINT32_SIZE && 1 <= a.sorobanCap < UINT32_SIZE
    requires !w.node.disk.txsMigrated && m.node.disk == w.node.disk.(eventsMigrated := true)
    requires m.trace.history == w.trace.history && m.trace.dropped == w.trace.dropped
    requires Startup(w.node.disk, a.window, a.classicCap, a.sorobanCap, true).Some?
    ensures EndOfStartup(m.node.disk, a.window, a.classicCap, a.sorobanCap, true, NO_FAULTS).Started?
  {
    hide DiskHolds, Startup, EndOfStartup, HashesDistinct, RowsWellFormed;
    var stored := StoredOf(w.trace);
    StartupSucceeds(w.node.disk, stored, w.trace.coverage, a.window, a.classicCap, a.sorobanCap, true);
    StartupSucceeds(m.node.disk, stored, m.trace.coverage, a.window, a.classicCap, a.sorobanCap, true);
    StartupEnds(m.node.disk, a.window, a.classicCap, a.sorobanCap, true, NO_FAULTS);
  }

  lemma {:induction false} LeakStays(m: World, b: Action)
    requires Inv(m) && Healthy(m.node) && Possible(m.node, b) && m.trace.dropped <= |m.trace.history|
    requires StartsUp(m.node, b) && m.node.disk.eventsMigrated
    requires m.node.disk.events == map[] && EventsOf(StoredOf(m.trace)) != []
    ensures var e := After(m, b);
            && e.node.process.Up? && e.trace.eventSkipped == m.trace.eventSkipped
              && e.trace.eventRuns == m.trace.eventRuns
            && e.trace.dropped <= |e.trace.history| && !Holds(e.node.disk.events, EventsOf(StoredOf(e.trace)))
  {
    hide HistoryOk, GuardsOk, CacheOk, FeesOk, RowsWellFormed, EndOfStartup, Startup, EventsOf, Contiguous;
    var e := After(m, b);
    StartedKeeps(m, b);
    StartupEnds(m.node.disk, b.window, b.classicCap, b.sorobanCap, b.txsFirst, b.faults);
    MigratedEventsStay(m.node.disk, b.window, b.classicCap, b.sorobanCap, b.txsFirst);
    AfterParts(m, b);
    assert e.node.disk.events == map[];
    NoRowsForEvents(EventsOf(StoredOf(m.trace)));
  }

  lemma {:induction false} NoRowsForEvents(es: seq<StoredEvent>)
    requires es != []
    ensures !Holds(map[], es)
  {
    assert es[0] in es;
  }

  /** A ledger with one transaction and one event. */
  function LegacyLedger(): Ledger {
    var event := DiagnosticEvent(true, ContractEvent(None, Contract, [], []));
    Ledger(FIRST_LEDGER, 0, [Transaction([1], None, true, TransactionEvents([event], [], []), 100, Classic(1))])
  }

  /** A database from before both lookup tables. */
  function LegacyWorld(): World {
    World(Node(Disk(map[FIRST_LEDGER := LegacyLedger()], map[], map[], false, false), Down),
          Trace([LegacyLedger()], 0, Coverage(0, 0, map[]), 0, 0, false, false, 0, [], None))
  }

  lemma {:induction false} LegacyOpens()
    ensures Opens(LegacyWorld()) && Contiguous([LegacyLedger()])
    ensures EventsOf([LegacyLedger()]) != []
  {
    var l := LegacyLedger();
    assert |IntoDiagnosticEvents(l.txs[0].events)| == 1;
    assert WellFormed(l);
    EventsOfOne(l);
    assert EventsOfTxs(l, 1) == EventsOfTxs(l, 0) + EventsOfTx(l, 0);
  }

  lemma {:induction false} FewDistinct(ls: seq<Ledger>)
    requires |ls| <= 1
    ensures HashesDistinct(ls)
  {
    if |ls| == 1 { assert ls[..0] == []; }
  }

  /** Such a run: a guard write fails, the next one goes through, and after the restart the events are missing. */
  lemma {:induction false} LeakRun() returns (ws: seq<World>)
    ensures IsRun(ws) && Last(ws).node.process.Up? && Last(ws).trace.dropped <= |Last(ws).trace.history|
    ensures Last(ws).trace.eventSkipped && Last(ws).trace.eventRuns == 0
    ensures !Holds(Last(ws).node.disk.events, EventsOf(StoredOf(Last(ws).trace)))
  {
    hide Inv, HistoryOk, Holds, EventsOf, Startup, EndOfStartup, RowsWellFormed, StoredOf;
    var w := LegacyWorld();
    var a := Start(10, 1, 1, true, StartupFaults(true, false, true, true));
    var b := StartWith(a, NO_FAULTS);
    LegacyStarts(a);
    LeakLasts(w, a, b);
    var m := After(w, a);
    ws := [w, m, After(m, b)];
    RunOfThree(w, a, m, b, ws[2]);
  }

  lemma {:induction false} LegacyStarts(a: Action)
    requires a.Start? && a.window == 10 && a.classicCap == 1 && a.sorobanCap == 1 && a.txsFirst
    ensures var w := LegacyWorld();
            && Opens(w) && Inv(w) && Healthy(w.node) && Possible(w.node, a)
            && Startup(w.node.disk, a.window, a.classicCap, a.sorobanCap, true).Some?
            && StoredOf(w.trace) == [LegacyLedger()] && EventsOf([LegacyLedger()]) != []
  {
    var w := LegacyWorld();
    LegacyOpens();
    OpensInv(w);
    InvHealthy(w);
    hide Startup, EventsOf;
    FewDistinct(Since([LegacyLedger()], MigrationRange(Latest(w.node.disk.ledgers), a.window).first));
    assert StoredOf(w.trace) == [LegacyLedger()];
    StartupSucceeds(w.node.disk, [LegacyLedger()], w.trace.coverage, a.window, 1, 1, true);
  }

  lemma {:induction false} RunOfThree(w: World, a: Action, m: World, b: Action, e: World)
    requires Opens(w) && Takes(w, a, m) && Takes(m, b, e)
    ensures IsRun([w, m, e])
  {
    hide Opens, Takes;
    assert [w, m, e][..2] == [w, m] && [w, m][..1] == [w];
    assert IsRun([w]);
    assert Next(w, m) && Next(m, e);
    assert IsRun([w, m]);
  }

  // ---- the fee windows ----

  /** The windows agree with the database, told by what they took and how much is stored. */
  predicate InStep(t: Trace, f: FeeState)
    requires t.dropped <= |t.history|
  {
    t.lead.None? && (t.strays == [] || Max(f.classicCap, f.sorobanCap) <= |StoredOf(t)|)
  }

  /**
   At every point of every run, the fee windows hold exactly the newest stored ledgers if and only if they hold no
   ledger that was not committed, or only such from before the first commit, which the stored ones have pushed out.
   */
  lemma {:induction false} FeesInStep(ws: seq<World>)
    requires IsRun(ws) && Last(ws).node.process.Up?
    ensures var (f, t) := (Last(ws).node.process.fees, Last(ws).trace);
            && t.dropped <= |t.history| && Contiguous(StoredOf(t))
            && (FeesRemember(f, StoredOf(t)) <==> InStep(t, f))
  {
    hide FeesRemember, Contiguous, TxsHoldBeside, Holds, LedgersHold, Since, EventsOf, RowsWellFormed;
    RunInv(ws);
    StoredInterval(ws);
    FeesAgree(Last(ws));
  }

  lemma {:induction false} FeesAgree(w: World)
    requires HistoryOk(w) && FeesOk(w) && w.node.process.Up? && Contiguous(StoredOf(w.trace))
    ensures FeesRemember(w.node.process.fees, StoredOf(w.trace)) <==> InStep(w.trace, w.node.process.fees)
  {
    hide DiskHolds, FeesRemember, RowsWellFormed, Contiguous;
    var (f, t) := (w.node.process.fees, w.trace);
    if t.lead.Some? {
      LeadNext(t);
      FedLast(t);
      StoredContiguous(t);
      FeesTellNewest(f, Fed(t), StoredOf(t));
    } else {
      var k := |t.strays| + (t.dropped - t.fedFrom);
      FedSuffix(t);
      FeesSuffixExact(f, Fed(t), k);
    }
  }

  lemma {:induction false} FedSuffix(t: Trace)
    requires t.fedFrom <= t.dropped <= |t.history| && t.lead.None?
    ensures var k := |t.strays| + (t.dropped - t.fedFrom);
            k <= |Fed(t)| && Fed(t)[k..] == StoredOf(t) && |Fed(t)| == |t.strays| + |t.history| - t.fedFrom
  {
  }

  lemma {:induction false} FeesSuffixExact(f: FeeState, ls: seq<Ledger>, k: nat)
    requires Contiguous(ls) && k <= |ls| && FeesRemember(f, ls) && Contiguous(ls[k..])
    ensures FeesRemember(f, ls[k..]) <==> Min(f.classicCap, |ls|) <= |ls| - k && Min(f.sorobanCap, |ls|) <= |ls| - k
  {
    hide Contiguous;
    if Min(f.classicCap, |ls|) <= |ls| - k && Min(f.sorobanCap, |ls|) <= |ls| - k {
      FeesSuffix(f, ls, k);
    }
  }

  /** The windows of two histories that end at different ledgers differ. */
  lemma {:induction false} FeesTellNewest(f: FeeState, ls: seq<Ledger>, ms: seq<Ledger>)
    requires Contiguous(ls) && Contiguous(ms) && ls != [] && ms != [] && FeesRemember(f, ls)
    requires ls[|ls| - 1].sequence != ms[|ms| - 1].sequence
    ensures !FeesRemember(f, ms)
  {
    var (a, b) := (Remembered(f.classicCap, ls, false), Remembered(f.classicCap, ms, false));
    assert a[|a| - 1].sequence == ls[|ls| - 1].sequence && b[|b| - 1].sequence == ms[|ms| - 1].sequence;
  }

  /**
   A commit that fails behind the fee windows, on a database with ledgers, leaves the windows with a ledger that is not
   stored.
   */
  lemma {:induction false} FailureLeads(ws: seq<World>, a: Action, w': World)
    requires IsRun(ws) && Takes(Last(ws), a, w') && a.Attempt? && BeforeCommit(a.fault)
    requires Last(ws).trace.lead.None? && Last(ws).trace.history != []
    requires Written(Last(ws).node.disk, a.ledger).Some?
    ensures w'.node.process.Up? && w'.trace.lead == Some(a.ledger) && w'.node.disk == Last(ws).node.disk
    ensures w'.trace.dropped <= |w'.trace.history| && !InStep(w'.trace, w'.node.process.fees)
  {
    hide Inv, Healthy, Possible, After, Takes, FailsAfterFees, Committed, IngestFees, Written;
    var w := Last(ws);
    RunInv(ws);
    TakesStep(w, a, w');
    FeedsOnly(w, a);
  }

  /** The windows take the ledger, and nothing else moves. */
  lemma {:induction false} FeedsOnly(w: World, a: Action)
    requires Inv(w) && Healthy(w.node) && Possible(w.node, a) && w.trace.dropped <= |w.trace.history|
    requires a.Attempt? && BeforeCommit(a.fault) && Written(w.node.disk, a.ledger).Some? && Accepts(w.trace, a.ledger)
    ensures FailsAfterFees(w.node, a) && After(w, a).trace == FeedOnly(w.trace, a.ledger)
    ensures After(w, a).node.process.Up? && After(w, a).node.disk == w.node.disk
  {
    hide HistoryOk, CacheOk, FeesOk, GuardsOk, FeesRemember, Written, IngestFees, RowsWellFormed, Contiguous, After;
    AttemptContinues(w, a);
    AttemptFees(w, a);
    FailureHasEffect(w, a);
  }

  /** Windows with such a ledger refuse every further one. */
  lemma {:induction false} AheadStuck(w: World, a: Action)
    requires Inv(w) && Possible(w.node, a) && a.Attempt? && w.trace.lead.Some?
    ensures Healthy(w.node) && !Committed(w.node, a) && w.trace.dropped <= |w.trace.history|
    ensures After(w, a).node.disk == w.node.disk && After(w, a).trace == w.trace
    ensures After(w, a).node.process.fees == w.node.process.fees
  {
    hide HistoryOk, CacheOk, FeesOk, DiskHolds, FeesRemember;
    hide Written, Trimmed, IngestFees, RowsWellFormed, Contiguous, Step;
    InvHealthy(w);
    AttemptContinues(w, a);
    AttemptFees(w, a);
    FailureHasEffect(w, a);
  }

  /** A run of attempts only, from some point on. */
  ghost predicate AttemptsOnly(ws: seq<World>) {
    ws != [] && (|ws| > 1 ==>
      AttemptsOnly(ws[..|ws| - 1]) && exists a: Action :: a.Attempt? && Takes(ws[|ws| - 2], a, ws[|ws| - 1]))
  }

  /** However many attempts follow, none commits anything: only a restart helps. */
  lemma {:induction false} AheadForever(before: seq<World>, ws: seq<World>)
    requires IsRun(before) && AttemptsOnly(ws) && ws[0] == Last(before) && ws[0].trace.lead.Some?
    ensures Inv(Last(ws)) && Last(ws).node.disk == ws[0].node.disk && Last(ws).trace == ws[0].trace
  {
    hide Inv, Healthy, Possible, After, Takes;
    if |ws| > 1 {
      var w := ws[|ws| - 2];
      AheadForever(before, ws[..|ws| - 1]);
      var a: Action :| a.Attempt? && Takes(w, a, Last(ws));
      TakesStep(w, a, Last(ws));
      AheadStuck(w, a);
      StepKeeps(w, a);
      AfterParts(w, a);
    } else {
      RunInv(before);
    }
  }

  lemma {:induction false} AfterParts(w: World, a: Action)
    requires Healthy(w.node) && Possible(w.node, a) && w.trace.dropped <= |w.trace.history|
    ensures After(w, a) == World(Step(w.node, a), Track(w, a))
  {
    hide Step, Track;
  }

  /**
   Without a fault, a ledger is committed exactly when the fee windows accept it and none of its hashes is indexed.
   */
  lemma {:induction false} AttemptCommits(ws: seq<World>, a: Action, w': World)
    requires IsRun(ws) && Takes(Last(ws), a, w') && a.Attempt? && (a.fault.NoFault? || a.fault.AtCheckpoint?)
    ensures var (w, c, hashes) := (Last(ws), Last(ws).trace.coverage, TxRows(a.ledger).Keys);
            Committed(w.node, a) <==>
              && Accepts(w.trace, a.ledger)
              && c.relic.Keys !! hashes && forall m :: m in Since(StoredOf(w.trace), c.txFloor) ==>
                TxRows(m).Keys !! hashes
  {
    hide Inv, HistoryOk, FeesRemember, RowsWellFormed, Written, IngestFees, Contiguous, Since, TxRows, After;
    var w := Last(ws);
    RunInv(ws);
    TakesStep(w, a, w');
    AttemptFees(w, a);
    WritesWhen(w, a);
  }

  lemma {:induction false} WritesWhen(w: World, a: Action)
    requires Inv(w) && Possible(w.node, a) && a.Attempt? && w.trace.dropped <= |w.trace.history|
    ensures var (c, hashes) := (w.trace.coverage, TxRows(a.ledger).Keys);
            Written(w.node.disk, a.ledger).Some? <==>
              && c.relic.Keys !! hashes
              && forall m :: m in Since(StoredOf(w.trace), c.txFloor) ==> TxRows(m).Keys !! hashes
  {
    AttemptContinues(w, a);
    hide DiskHolds, FeesRemember, RowsWellFormed, Written, Contiguous, Since, TxRows, CacheOk, FeesOk;
    WrittenHolds(w.node.disk, StoredOf(w.trace), w.trace.coverage, a.ledger);
  }

  // ---- a database the service has built itself ----

  ghost predicate BuiltHere(w: World) {
    var (d, c) := (w.node.disk, w.trace.coverage);
    && (d.txsMigrated ==> c.txFloor <= FIRST_LEDGER && c.relic == map[])
    && (d.eventsMigrated ==> c.eventFloor <= FIRST_LEDGER)
    && (!d.txsMigrated || !d.eventsMigrated ==> w.trace.history == [])
    && (!d.txsMigrated ==> d.txs == map[])
  }

  lemma {:induction false} StartBuilds(w: World, a: Action)
    requires Inv(w) && BuiltHere(w) && Healthy(w.node) && Possible(w.node, a) && w.trace.dropped <= |w.trace.history|
    requires a.Start?
    ensures BuiltHere(After(w, a))
  {
    hide DiskHolds, FeesRemember, Contiguous, WellFormed, RowsWellFormed, EndOfStartup, Startup;
    LatestOfStored(w);
    StartupEnds(w.node.disk, a.window, a.classicCap, a.sorobanCap, a.txsFirst, a.faults);
    if StartsUp(w.node, a) { StartedKeeps(w, a); }
  }

  lemma {:induction false} StepBuilds(w: World, a: Action)
    requires Inv(w) && BuiltHere(w) && Healthy(w.node) && Possible(w.node, a) && w.trace.dropped <= |w.trace.history|
    ensures BuiltHere(After(w, a))
  {
    hide HistoryOk, DiskHolds, FeesRemember, Contiguous, WellFormed;
    hide RowsWellFormed, EndOfStartup, Written, Trimmed, IngestFees;
    if a.Start? {
      StartBuilds(w, a);
    } else if a.Attempt? {
      if Committed(w.node, a) {
        CommitHasEffect(w, a);
        CommitKeeps(w, a);
        UnsetIsEmpty(w);
        UnsetIsEmpty(After(w, a));
      } else {
        FailureKeeps(w, a);
        AttemptContinues(w, a);
        AttemptFees(w, a);
        FailureHasEffect(w, a);
      }
    }
  }

  lemma {:induction false} RunBuilds(ws: seq<World>)
    requires IsRun(ws) && ws[0].node.disk == EMPTY_DISK && ws[0].trace.history == []
    ensures BuiltHere(Last(ws))
  {
    hide Inv, HistoryOk, Possible, Healthy, After, Takes;
    if |ws| > 1 {
      RunBuilds(ws[..|ws| - 1]);
      RunInv(ws[..|ws| - 1]);
      var a :| Takes(ws[|ws| - 2], a, Last(ws));
      TakesStep(ws[|ws| - 2], a, Last(ws));
      StepBuilds(ws[|ws| - 2], a);
    }
  }

  lemma {:induction false} FloorBelow(stored: seq<Ledger>, floor: nat)
    requires Contiguous(stored) && floor <= FIRST_LEDGER
    ensures Since(stored, floor) == stored
  {
  }

  /** A service that started from an empty database keeps exactly the rows of the stored ledgers, always. */
  lemma {:induction false} BuiltExact(ws: seq<World>)
    requires IsRun(ws) && ws[0].node.disk == EMPTY_DISK && ws[0].trace.history == []
    ensures var (d, t) := (Last(ws).node.disk, Last(ws).trace);
            && t.dropped <= |t.history| && LedgersHold(d.ledgers, StoredOf(t))
            && TxsHold(d.txs, StoredOf(t)) && Holds(d.events, EventsOf(StoredOf(t)))
  {
    hide LedgersHold, Since, Contiguous, WellFormed, RowsWellFormed, TxsHoldBeside, Inv;
    StoredInterval(ws);
    RunBuilds(ws);
    RunInv(ws);
    UnsetIsEmpty(Last(ws));
    var (d, t) := (Last(ws).node.disk, Last(ws).trace);
    if d.txsMigrated {
      FloorBelow(StoredOf(t), t.coverage.txFloor);
      BesideNothing(d.txs, StoredOf(t));
    }
    if d.eventsMigrated { FloorBelow(StoredOf(t), t.coverage.eventFloor); }
  }
}
