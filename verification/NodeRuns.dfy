/**
 The service over its whole life (cmd/stellar-rpc/internal/ingest/service.go, cmd/stellar-rpc/internal/db/db.go,
 cmd/stellar-rpc/internal/daemon/daemon.go): startups, ingestion attempts that may fail at any point, and stops.
 */
module NodeRuns {
  import opened UInt32
  import opened Wrappers
  import opened Sequences
  import opened Chain
  import opened Tables
  import opened Retention
  import opened FeeBuckets
  import opened Storage

  datatype LedgerInfo = LedgerInfo(sequence: nat, closeTime: int)

  const UNKNOWN := LedgerInfo(0, 0)

  function InfoOf(l: Ledger): LedgerInfo { LedgerInfo(l.sequence, l.closeTime) }

  function NewestInfo(t: LedgerTable): LedgerInfo {
    if t == map[] then UNKNOWN else LedgerInfo(Latest(t), t[Latest(t)].closeTime)
  }

  /** getLatestLedgerSequence fills a cache that is still empty. */
  function Filled(cache: LedgerInfo, t: LedgerTable): LedgerInfo {
    if cache.sequence != 0 || t == map[] then cache else NewestInfo(t)
  }

  /** A running process; next is the sequence the ingestion loop stands at, 0 when the loop has ended. */
  datatype Process = Down | Up(window: nat, fees: FeeState, cache: LedgerInfo, next: nat)

  datatype Node = Node(disk: Disk, process: Process)

  /** Where an ingestion attempt meets an error of the backend, the disk or the encoding. */
  datatype Fault =
    | NoFault | AtBackend | AtBegin | AtLedger | AtTransactions | AtEvents | AtFees | AtTrim | AtCommit | AtCheckpoint

  /** Errors met before the fee windows take the ledger. */
  predicate BeforeFees(fault: Fault) {
    fault.AtBackend? || fault.AtBegin? || fault.AtLedger? || fault.AtTransactions? || fault.AtEvents?
  }

  /** Errors met by the deletes or the commit itself. */
  predicate BeforeCommit(fault: Fault) { fault.AtTrim? || fault.AtCommit? }

  datatype Action =
    | Start(window: nat, classicCap: nat, sorobanCap: nat, txsFirst: bool, faults: StartupFaults)
    | Attempt(root: nat, ledger: Ledger, fault: Fault)
    | Stop

  predicate Healthy(n: Node) {
    && RowsWellFormed(n.disk.ledgers)
    && (n.process.Up? ==> ValidFees(n.process.fees))
  }

  /** The sequence the loop asks the backend for; an empty database starts at the archive's current ledger. */
  function NextAsked(n: Node, root: nat): nat
    requires n.process.Up?
  {
    if n.process.next != 0 then n.process.next
    else
      var latest := Filled(n.process.cache, n.disk.ledgers).sequence;
      if latest != 0 then latest + 1 else root
  }

  /** The deployment's configuration is positive, and the backend returns the ledger it was asked for. */
  predicate Possible(n: Node, a: Action) {
    match a
    case Start(_, classicCap, sorobanCap, _, _) =>
      n.process.Down? && 1 <= classicCap < UINT32_SIZE && 1 <= sorobanCap < UINT32_SIZE
    case Attempt(root, l, _) => n.process.Up? && WellFormed(l) && l.sequence == NextAsked(n, root)
    case Stop => n.process.Up?
  }

  /** The writes of an attempt, before the fee windows and the commit. */
  function Inserted(d: Disk, l: Ledger, fault: Fault): Option<Disk>
    requires WellFormed(l)
  {
    if BeforeFees(fault) then None else Written(d, l)
  }

  /** One call of Service.ingest, after getNextLedgerSequence when the loop starts anew. */
  function Ingest(n: Node, l: Ledger, fault: Fault): Node
    requires Healthy(n) && n.process.Up? && WellFormed(l)
  {
    var p := n.process;
    var cache := if p.next != 0 then p.cache else Filled(p.cache, n.disk.ledgers);
    var failed := p.(cache := cache, next := 0);
    match Inserted(n.disk, l, fault)
    case None => Node(n.disk, failed)
    case Some(written) =>
      if fault.AtFees? then Node(n.disk, failed)
      else
        var (fees, accepted) := IngestFees(p.fees, l);
        if !accepted || BeforeCommit(fault) then Node(n.disk, failed.(fees := fees))
        else Node(Trimmed(written, l.sequence, p.window),
                  Up(p.window, fees, InfoOf(l), if fault.AtCheckpoint? then 0 else l.sequence + 1))
  }

  function Step(n: Node, a: Action): Node
    requires Healthy(n) && Possible(n, a)
  {
    match a
    case Start(window, classicCap, sorobanCap, txsFirst, faults) =>
      (match EndOfStartup(n.disk, window, classicCap, sorobanCap, txsFirst, faults)
       case Started(disk, fees) => Node(disk, Up(window, fees, NewestInfo(disk.ledgers), 0))
       case Fatal(disk) => Node(disk, Down))
    case Attempt(_, l, fault) => Ingest(n, l, fault)
    case Stop => Node(n.disk, Down)
  }

  // ---- bookkeeping about a run ----

  /**
   All ledgers committed so far and how many of them retention has dropped; what the lookup tables cover, how often
   their migrations have taken effect, and whether a migration's guard was set without it. Since the process has
   started: from where in the history its fee windows know it, the ledgers they took before there was a history,
   and the one they took that was then not committed.
   */
  datatype Trace = Trace(
    history: seq<Ledger>, dropped: nat, coverage: Coverage,
    txRuns: nat, eventRuns: nat, txSkipped: bool, eventSkipped: bool,
    fedFrom: nat, strays: seq<Ledger>, lead: Option<Ledger>)

  datatype World = World(node: Node, trace: Trace)

  function StoredOf(t: Trace): seq<Ledger>
    requires t.dropped <= |t.history|
  {
    t.history[t.dropped..]
  }

  /** All the ledgers that the fee windows of the process have taken. */
  function Fed(t: Trace): seq<Ledger>
    requires t.fedFrom <= |t.history|
  {
    t.strays + t.history[t.fedFrom..] + match t.lead case Some(l) => [l] case None => []
  }

  predicate Committed(n: Node, a: Action)
    requires Healthy(n) && Possible(n, a)
  {
    && a.Attempt? && (a.fault.NoFault? || a.fault.AtCheckpoint?) && Written(n.disk, a.ledger).Some?
    && IngestFees(n.process.fees, a.ledger).1
  }

  /** The attempt gets past the fee windows, and fails before the commit. */
  predicate FailsAfterFees(n: Node, a: Action)
    requires Healthy(n) && Possible(n, a)
  {
    && a.Attempt? && BeforeCommit(a.fault) && Written(n.disk, a.ledger).Some?
    && IngestFees(n.process.fees, a.ledger).1
  }

  predicate StartsUp(n: Node, a: Action)
    requires Healthy(n) && Possible(n, a)
  {
    a.Start? && EndOfStartup(n.disk, a.window, a.classicCap, a.sorobanCap, a.txsFirst, a.faults).Started?
  }

  /** Committing a ledger, as bookkeeping. */
  function Commit(t: Trace, l: Ledger, window: nat): Trace
    requires t.dropped <= |t.history|
  {
    t.(history := t.history + [l],
       dropped := t.dropped + Before(StoredOf(t) + [l], Cutoff(l.sequence, window)),
       coverage := TrimmedCoverage(t.coverage, l.sequence, window))
  }

  /** A ledger that the fee windows take and the database does not. */
  function FeedOnly(t: Trace, l: Ledger): Trace {
    if t.history == [] then t.(strays := t.strays + [l]) else t.(lead := Some(l))
  }

  function Track(w: World, a: Action): Trace
    requires Healthy(w.node) && Possible(w.node, a) && w.trace.dropped <= |w.trace.history|
  {
    var (n, t) := (w.node, w.trace);
    if StartsUp(n, a) then
      t.(coverage := StartedCoverage(n.disk, a.window, t.coverage),
         txRuns := t.txRuns + if n.disk.txsMigrated then 0 else 1,
         eventRuns := t.eventRuns + if n.disk.eventsMigrated then 0 else 1,
         fedFrom := t.dropped, strays := [], lead := None)
    else if a.Start? then
      var e := Step(n, a).disk;
      t.(coverage := LeakedCoverage(n.disk, e, t.coverage),
         txSkipped := t.txSkipped || n.disk.txsMigrated != e.txsMigrated,
         eventSkipped := t.eventSkipped || n.disk.eventsMigrated != e.eventsMigrated)
    else if Committed(n, a) then Commit(t, a.ledger, n.process.window)
    else if FailsAfterFees(n, a) then FeedOnly(t, a.ledger)
    else t
  }

  // ---- the invariant ----

  ghost predicate HistoryOk(w: World) {
    var t := w.trace;
    && Contiguous(t.history) && t.dropped <= |t.history| && (t.history != [] ==> t.dropped < |t.history|)
    && DiskHolds(w.node.disk, StoredOf(t), t.coverage) && RowsWellFormed(w.node.disk.ledgers)
    && (t.history != [] ==>
          (w.node.disk.txsMigrated ==> t.coverage.txFloor <= t.history[|t.history| - 1].sequence + 1)
          && (w.node.disk.eventsMigrated ==> t.coverage.eventFloor <= t.history[|t.history| - 1].sequence + 1))
    && (t.history == [] ==>
          (w.node.disk.txsMigrated ==> t.coverage.txFloor <= FIRST_LEDGER)
          && (w.node.disk.eventsMigrated ==> t.coverage.eventFloor <= FIRST_LEDGER))
  }

  ghost predicate GuardsOk(w: World) {
    var (d, t) := (w.node.disk, w.trace);
    && t.txRuns + (if t.txSkipped then 1 else 0) <= (if d.txsMigrated then 1 else 0)
    && t.eventRuns + (if t.eventSkipped then 1 else 0) <= (if d.eventsMigrated then 1 else 0)
    && (w.node.process.Up? ==> d.txsMigrated && d.eventsMigrated)
  }

  ghost predicate CacheOk(w: World)
    requires HistoryOk(w)
  {
    w.node.process.Up? ==>
      && w.node.process.cache == NewestInfo(w.node.disk.ledgers)
      && (w.node.process.next != 0 ==> w.trace.history != [] && w.node.process.next == Latest(w.node.disk.ledgers) + 1)
  }

  ghost predicate FeesOk(w: World)
    requires HistoryOk(w)
  {
    var (p, t) := (w.node.process, w.trace);
    p.Up? ==>
      && ValidFees(p.fees) && Max(p.fees.classicCap, p.fees.sorobanCap) <= p.window
      && t.fedFrom <= t.dropped && Min(p.window, |t.history| - t.fedFrom) <= |t.history| - t.dropped
      && Contiguous(Fed(t)) && FeesRemember(p.fees, Fed(t))
      && (t.lead.Some? ==> t.history != []) && (t.strays != [] ==> t.fedFrom == 0)
  }

  ghost predicate Inv(w: World) {
    HistoryOk(w) && GuardsOk(w) && CacheOk(w) && FeesOk(w)
  }

  // ---- every step keeps it ----

  function After(w: World, a: Action): (w': World)
    requires Healthy(w.node) && Possible(w.node, a) && w.trace.dropped <= |w.trace.history|
  {
    World(Step(w.node, a), Track(w, a))
  }

  lemma {:induction false} StopKeeps(w: World)
    requires Inv(w) && w.node.process.Up?
    ensures Inv(After(w, Stop))
  {
    hide DiskHolds, FeesRemember, RowsWellFormed, Contiguous, Fed, NewestInfo, ValidFees;
  }

  /** What a startup that succeeds makes of disk, process and bookkeeping. */
  ghost predicate StartEffect(w: World, w': World, window: nat) {
    var (d, t) := (w.node.disk, w.trace);
    && w'.node.process.Up? && w'.node.process.window == window && w'.node.process.next == 0
    && w'.node.process.cache == NewestInfo(w'.node.disk.ledgers)
    && w'.node.disk.ledgers == d.ledgers && w'.node.disk.txsMigrated && w'.node.disk.eventsMigrated
    && w'.trace == t.(coverage := StartedCoverage(d, window, t.coverage),
                      txRuns := t.txRuns + if d.txsMigrated then 0 else 1,
                      eventRuns := t.eventRuns + if d.eventsMigrated then 0 else 1,
                      fedFrom := t.dropped, strays := [], lead := None)
  }

  lemma {:induction false} StartHasEffect(w: World, a: Action)
    requires HistoryOk(w) && Healthy(w.node) && Possible(w.node, a) && StartsUp(w.node, a)
    ensures var w' := After(w, a);
            && StartEffect(w, w', a.window) && Contiguous(StoredOf(w.trace))
            && DiskHolds(w'.node.disk, StoredOf(w.trace), StartedCoverage(w.node.disk, a.window, w.trace.coverage))
            && FeesRemember(w'.node.process.fees, StoredOf(w.trace)) && ValidFees(w'.node.process.fees)
            && Max(w'.node.process.fees.classicCap, w'.node.process.fees.sorobanCap) <= a.window
  {
    hide DiskHolds, FeesRemember, Startup, EndOfStartup, RowsWellFormed, Contiguous, StartedCoverage, NewestInfo;
    var (d, t) := (w.node.disk, w.trace);
    StoredContiguous(t);
    StartupEnds(d, a.window, a.classicCap, a.sorobanCap, a.txsFirst, a.faults);
    StartupHolds(d, StoredOf(t), t.coverage, a.window, a.classicCap, a.sorobanCap, a.txsFirst);
  }

  lemma {:induction false} StartedHistory(w: World, w': World, window: nat)
    requires HistoryOk(w) && GuardsOk(w) && StartEffect(w, w', window)
    requires DiskHolds(w'.node.disk, StoredOf(w.trace), StartedCoverage(w.node.disk, window, w.trace.coverage))
    ensures HistoryOk(w') && GuardsOk(w') && CacheOk(w')
  {
    hide DiskHolds, RowsWellFormed, Contiguous, NewestInfo;
    LatestOfStored(w);
  }

  lemma {:induction false} StartedFees(w: World, w': World, window: nat)
    requires HistoryOk(w) && HistoryOk(w') && StartEffect(w, w', window) && Contiguous(StoredOf(w.trace))
    requires FeesRemember(w'.node.process.fees, StoredOf(w.trace)) && ValidFees(w'.node.process.fees)
    requires Max(w'.node.process.fees.classicCap, w'.node.process.fees.sorobanCap) <= window
    ensures FeesOk(w')
  {
    hide DiskHolds, RowsWellFormed, Contiguous, FeesRemember, ValidFees, StartedCoverage;
    assert Fed(w'.trace) == StoredOf(w.trace);
  }

  lemma {:induction false} StartedKeeps(w: World, a: Action)
    requires Inv(w) && Possible(w.node, a) && Healthy(w.node) && StartsUp(w.node, a)
    ensures HistoryOk(w) && StartEffect(w, After(w, a), a.window) && Inv(After(w, a))
  {
    hide HistoryOk, GuardsOk, CacheOk, FeesOk, StartEffect, Contiguous, FeesRemember, DiskHolds;
    InvHealthy(w);
    StartHasEffect(w, a);
    StartedHistory(w, After(w, a), a.window);
    StartedFees(w, After(w, a), a.window);
  }

  lemma {:induction false} FatalKeeps(w: World, a: Action)
    requires Inv(w) && Possible(w.node, a) && Healthy(w.node) && a.Start? && !StartsUp(w.node, a)
    ensures Inv(After(w, a))
  {
    hide DiskHolds, FeesRemember, Startup, EndOfStartup, RowsWellFormed, Contiguous;
    var (d, t) := (w.node.disk, w.trace);
    StartupEnds(d, a.window, a.classicCap, a.sorobanCap, a.txsFirst, a.faults);
    var e := After(w, a).node.disk;
    LeakedHolds(d, e, StoredOf(t), t.coverage);
    LatestOfStored(w);
  }

  lemma {:induction false} StartKeeps(w: World, a: Action)
    requires Inv(w) && Possible(w.node, a) && a.Start?
    ensures Inv(After(w, a))
  {
    hide HistoryOk, GuardsOk, CacheOk, FeesOk, After, EndOfStartup;
    InvHealthy(w);
    if StartsUp(w.node, a) { StartedKeeps(w, a); } else { FatalKeeps(w, a); }
  }

  lemma {:induction false} StoredContiguous(t: Trace)
    requires Contiguous(t.history) && t.dropped <= |t.history|
    ensures Contiguous(StoredOf(t))
    ensures t.dropped < |t.history| ==>
      StoredOf(t) != [] && StoredOf(t)[|StoredOf(t)| - 1] == t.history[|t.history| - 1]
  {
  }

  lemma {:induction false} LatestOfStored(w: World)
    requires HistoryOk(w)
    ensures w.trace.history == [] ==> Latest(w.node.disk.ledgers) == 0 && w.node.disk.ledgers == map[]
    ensures w.trace.history != [] ==>
      && Latest(w.node.disk.ledgers) >= FIRST_LEDGER
      && Latest(w.node.disk.ledgers) == w.trace.history[|w.trace.history| - 1].sequence
      && NewestInfo(w.node.disk.ledgers) == InfoOf(w.trace.history[|w.trace.history| - 1])
  {
    StoredContiguous(w.trace);
    LatestHeld(w.node.disk.ledgers, StoredOf(w.trace));
    if w.trace.history != [] { Stored(w.node.disk.ledgers, StoredOf(w.trace), Latest(w.node.disk.ledgers)); }
  }

  /** The ledger an attempt works on continues the history. */
  lemma {:induction false} AttemptContinues(w: World, a: Action)
    requires Inv(w) && a.Attempt? && Possible(w.node, a)
    ensures Contiguous(w.trace.history + [a.ledger]) && Contiguous(StoredOf(w.trace) + [a.ledger])
    ensures w.trace.history != [] ==> a.ledger.sequence == w.trace.history[|w.trace.history| - 1].sequence + 1
    ensures Filled(w.node.process.cache, w.node.disk.ledgers) == w.node.process.cache
  {
    hide DiskHolds, FeesRemember, RowsWellFormed;
    LatestOfStored(w);
    StoredContiguous(w.trace);
    ContiguousNext(w.trace.history, a.ledger);
    ContiguousNext(StoredOf(w.trace), a.ledger);
  }

  lemma {:induction false} CommitOutcome(n: Node, a: Action)
    requires Healthy(n) && Possible(n, a) && Committed(n, a)
    ensures Written(n.disk, a.ledger).Some? && IngestFees(n.process.fees, a.ledger).1
    ensures Step(n, a).disk == Trimmed(Written(n.disk, a.ledger).value, a.ledger.sequence, n.process.window)
    ensures Step(n, a).process == Up(n.process.window, IngestFees(n.process.fees, a.ledger).0, InfoOf(a.ledger),
                                     if a.fault.AtCheckpoint? then 0 else a.ledger.sequence + 1)
  {
    hide Written, Trimmed, IngestFees;
  }

  lemma {:induction false} FailureOutcome(n: Node, a: Action)
    requires Healthy(n) && Possible(n, a) && a.Attempt? && !Committed(n, a)
    requires Filled(n.process.cache, n.disk.ledgers) == n.process.cache
    requires !IngestFees(n.process.fees, a.ledger).1 ==> IngestFees(n.process.fees, a.ledger).0 == n.process.fees
    ensures var fees := if FailsAfterFees(n, a) then IngestFees(n.process.fees, a.ledger).0 else n.process.fees;
            Step(n, a) == Node(n.disk, n.process.(next := 0, fees := fees))
  {
    hide Written, Trimmed, IngestFees;
  }

  lemma {:induction false} CommitBookkeeping(t: Trace, l: Ledger, window: nat)
    requires t.dropped <= |t.history| && Contiguous(StoredOf(t) + [l]) && window >= 1
    ensures var u := Commit(t, l, window);
            && u.dropped < |u.history|
            && StoredOf(u) == Since(StoredOf(t) + [l], Cutoff(l.sequence, window))
            && |StoredOf(u)| == Min(window, |StoredOf(t)| + 1)
  {
    hide Contiguous;
    CutoffBounds(StoredOf(t) + [l], window);
    assert (t.history + [l])[t.dropped..] == StoredOf(t) + [l];
  }

  lemma {:induction false} DiskRowsWell(d: Disk, stored: seq<Ledger>, c: Coverage)
    requires DiskHolds(d, stored, c)
    ensures RowsWellFormed(d.ledgers)
  {
    HoldRowsWell(d.ledgers, stored);
  }

  /**
   The ledger an attempt works on gets past the fee windows unless they hold one that was not committed, or, as long
   as nothing is stored, unless they hold other ledgers than the one before.
   */
  predicate Accepts(t: Trace, l: Ledger) {
    t.lead.None? && (t.history != [] || t.strays == [] || l.sequence == t.strays[|t.strays| - 1].sequence + 1)
  }

  lemma {:induction false} FedLast(t: Trace)
    requires t.fedFrom <= t.dropped <= |t.history| && (t.history != [] ==> t.dropped < |t.history|)
    requires t.lead.Some? ==> t.history != []
    ensures Fed(t) == [] <==> t.history == [] && t.strays == []
    ensures Fed(t) != [] ==> Fed(t)[|Fed(t)| - 1] == if t.lead.Some? then t.lead.value
                                                     else if t.history != [] then t.history[|t.history| - 1]
                                                     else t.strays[|t.strays| - 1]
  {
  }

  /** An uncommitted ledger that the windows hold is the one after the newest. */
  lemma {:induction false} LeadNext(t: Trace)
    requires t.fedFrom <= t.dropped < |t.history| && t.lead.Some? && Contiguous(Fed(t))
    ensures t.lead.value.sequence == t.history[|t.history| - 1].sequence + 1
  {
    var all := Fed(t);
    assert all[|all| - 1] == t.lead.value && all[|all| - 2] == t.history[|t.history| - 1];
  }

  lemma {:induction false} AttemptFees(w: World, a: Action)
    requires Inv(w) && a.Attempt? && Possible(w.node, a)
    ensures w.trace.fedFrom <= |w.trace.history| && ValidFees(w.node.process.fees)
    ensures var (fees, accepted) := IngestFees(w.node.process.fees, a.ledger);
            && fees.classicCap == w.node.process.fees.classicCap && fees.sorobanCap == w.node.process.fees.sorobanCap
            && (accepted <==> Accepts(w.trace, a.ledger))
            && (accepted ==> Contiguous(Fed(w.trace) + [a.ledger]) && FeesRemember(fees, Fed(w.trace) + [a.ledger]))
            && (!accepted ==> fees == w.node.process.fees)
  {
    hide DiskHolds, FeesRemember, IngestFees, RowsWellFormed, Contiguous, Fed;
    AttemptContinues(w, a);
    FedLast(w.trace);
    if w.trace.lead.Some? { LeadNext(w.trace); }
    FeesOutcome(w.node.process.fees, Fed(w.trace), a.ledger);
  }

  lemma {:induction false} CommitFeeds(t: Trace, l: Ledger, window: nat)
    requires t.fedFrom <= t.dropped <= |t.history| && t.lead.None?
    ensures Fed(Commit(t, l, window)) == Fed(t) + [l]
  {
    hide Before, Since, TrimmedCoverage;
    assert (t.history + [l])[t.fedFrom..] == t.history[t.fedFrom..] + [l];
  }

  lemma {:induction false} FeedOnlyFeeds(t: Trace, l: Ledger)
    requires t.fedFrom <= |t.history| && t.lead.None?
    ensures Fed(FeedOnly(t, l)) == Fed(t) + [l]
  {
  }

  /** What a commit makes of disk, process and bookkeeping. */
  ghost predicate CommitEffect(w: World, w': World, l: Ledger) {
    var (p, p') := (w.node.process, w'.node.process);
    && p.Up? && p'.Up? && WellFormed(l) && Written(w.node.disk, l).Some? && w.trace.dropped <= |w.trace.history|
    && w'.node.disk == Trimmed(Written(w.node.disk, l).value, l.sequence, p.window)
    && w'.trace == Commit(w.trace, l, p.window)
    && p'.window == p.window && p'.cache == InfoOf(l) && (p'.next == 0 || p'.next == l.sequence + 1)
  }

  lemma {:induction false} CommitHasEffect(w: World, a: Action)
    requires Healthy(w.node) && Possible(w.node, a) && Committed(w.node, a) && w.trace.dropped <= |w.trace.history|
    ensures CommitEffect(w, After(w, a), a.ledger)
    ensures After(w, a).node.process.fees == IngestFees(w.node.process.fees, a.ledger).0
  {
    hide Written, Trimmed, IngestFees, Commit;
    CommitOutcome(w.node, a);
  }

  lemma {:induction false} CommitHistory(w: World, w': World, l: Ledger)
    requires HistoryOk(w) && CommitEffect(w, w', l) && w.node.disk.txsMigrated && w.node.disk.eventsMigrated
    requires Contiguous(w.trace.history + [l]) && Contiguous(StoredOf(w.trace) + [l]) && w.node.process.window >= 1
    requires w.trace.history != [] ==> l.sequence == w.trace.history[|w.trace.history| - 1].sequence + 1
    ensures HistoryOk(w') && w'.node.disk.txsMigrated && w'.node.disk.eventsMigrated
  {
    hide DiskHolds, Written, Trimmed, Contiguous, RowsWellFormed, Since, Before;
    var (d, t, window) := (w.node.disk, w.trace, w.node.process.window);
    WrittenHolds(d, StoredOf(t), t.coverage, l);
    TrimmedHolds(Written(d, l).value, StoredOf(t) + [l], t.coverage, l.sequence, window);
    CommitBookkeeping(t, l, window);
    DiskRowsWell(w'.node.disk, StoredOf(w'.trace), w'.trace.coverage);
  }

  lemma {:induction false} CommitCache(w: World, w': World, l: Ledger)
    requires HistoryOk(w') && CommitEffect(w, w', l)
    ensures CacheOk(w')
  {
    hide DiskHolds, Written, Trimmed, Contiguous, WellFormed, RowsWellFormed;
    LatestOfStored(w');
  }

  lemma {:induction false} CommitFees(w: World, w': World, l: Ledger)
    requires HistoryOk(w) && HistoryOk(w') && FeesOk(w) && CommitEffect(w, w', l) && w.trace.lead.None?
    requires w.node.process.window >= 1 && w.trace.fedFrom <= |w.trace.history|
    requires Contiguous(StoredOf(w.trace) + [l]) && Contiguous(Fed(w.trace) + [l])
    requires w'.node.process.fees.classicCap == w.node.process.fees.classicCap
    requires w'.node.process.fees.sorobanCap == w.node.process.fees.sorobanCap
    requires FeesRemember(w'.node.process.fees, Fed(w.trace) + [l])
    ensures FeesOk(w')
  {
    hide HistoryOk, Written, Trimmed, Contiguous, WellFormed, Before, Since, Fed, TrimmedCoverage;
    CommitBookkeeping(w.trace, l, w.node.process.window);
    CommitFeeds(w.trace, l, w.node.process.window);
  }

  lemma {:induction false} CommitKeeps(w: World, a: Action)
    requires Inv(w) && Possible(w.node, a) && Committed(w.node, a)
    ensures Inv(After(w, a)) && CommitEffect(w, After(w, a), a.ledger)
    ensures |StoredOf(After(w, a).trace)| == Min(w.node.process.window, |StoredOf(w.trace)| + 1)
  {
    hide HistoryOk, CacheOk, FeesOk, CommitEffect, Written, Step, Track, IngestFees;
    hide RowsWellFormed, FeesRemember, Contiguous, Fed;
    InvHealthy(w);
    AttemptContinues(w, a);
    AttemptFees(w, a);
    WindowPositive(w);
    CommitHasEffect(w, a);
    var w' := After(w, a);
    CommitHistory(w, w', a.ledger);
    CommitCache(w, w', a.ledger);
    CommitFees(w, w', a.ledger);
    CommitGuards(w, w', a.ledger);
    CommitBookkeeping(w.trace, a.ledger, w.node.process.window);
  }

  lemma {:induction false} InvHealthy(w: World)
    requires Inv(w)
    ensures Healthy(w.node) && w.trace.dropped <= |w.trace.history|
  {
    hide DiskHolds, Contiguous, FeesRemember, WellFormed, NewestInfo;
  }

  lemma {:induction false} WindowPositive(w: World)
    requires Inv(w) && w.node.process.Up?
    ensures w.node.process.window >= 1
  {
  }

  lemma {:induction false} CommitGuards(w: World, w': World, l: Ledger)
    requires GuardsOk(w) && CommitEffect(w, w', l) && w'.node.disk.txsMigrated && w'.node.disk.eventsMigrated
    ensures GuardsOk(w') && w'.trace == Commit(w.trace, l, w.node.process.window)
  {
    hide Written, Trimmed;
  }

  /** A failed attempt changes nothing on disk; at most the fee windows move on. */
  ghost predicate FailureEffect(w: World, w': World, l: Ledger, fed: bool) {
    var (p, p') := (w.node.process, w'.node.process);
    && p.Up? && p'.Up? && w'.node.disk == w.node.disk
    && p' == p.(next := 0, fees := p'.fees)
    && w'.trace == if fed then FeedOnly(w.trace, l) else w.trace
  }

  lemma {:induction false} FailureHasEffect(w: World, a: Action)
    requires Healthy(w.node) && Possible(w.node, a) && a.Attempt? && !Committed(w.node, a)
    requires w.trace.dropped <= |w.trace.history|
    requires Filled(w.node.process.cache, w.node.disk.ledgers) == w.node.process.cache
    requires var (fees, accepted) := IngestFees(w.node.process.fees, a.ledger); !accepted ==>
      fees == w.node.process.fees
    ensures FailureEffect(w, After(w, a), a.ledger, FailsAfterFees(w.node, a)) && After(w, a).node.process.Up?
    ensures After(w, a).node.process.fees
         == if FailsAfterFees(w.node, a) then IngestFees(w.node.process.fees, a.ledger).0 else w.node.process.fees
  {
    hide Written, Trimmed, IngestFees;
    FailureOutcome(w.node, a);
  }

  lemma {:induction false} FailureFees(w: World, w': World, l: Ledger, fed: bool)
    requires HistoryOk(w) && HistoryOk(w') && FeesOk(w) && FailureEffect(w, w', l, fed)
    requires w.trace.fedFrom <= |w.trace.history| && (fed ==> w.trace.lead.None?)
    requires if fed then Contiguous(Fed(w.trace) + [l]) && FeesRemember(w'.node.process.fees, Fed(w.trace) + [l])
             else w'.node.process.fees == w.node.process.fees
    requires w'.node.process.fees.classicCap == w.node.process.fees.classicCap
    requires w'.node.process.fees.sorobanCap == w.node.process.fees.sorobanCap
    ensures FeesOk(w')
  {
    hide Contiguous, WellFormed, DiskHolds, Fed;
    if fed { FeedOnlyFeeds(w.trace, l); }
  }

  lemma {:induction false} FailureRest(w: World, w': World, l: Ledger, fed: bool)
    requires HistoryOk(w) && GuardsOk(w) && CacheOk(w) && FailureEffect(w, w', l, fed)
    ensures HistoryOk(w') && GuardsOk(w') && CacheOk(w')
  {
    hide DiskHolds, Contiguous, WellFormed, RowsWellFormed;
  }

  lemma {:induction false} FailureKeeps(w: World, a: Action)
    requires Inv(w) && Possible(w.node, a) && a.Attempt? && !Committed(w.node, a)
    ensures Inv(After(w, a)) && After(w, a).node.disk == w.node.disk
  {
    hide HistoryOk, CacheOk, FeesOk, GuardsOk, Written, Possible, Step, Track, IngestFees, Committed, Contiguous, Fed;
    InvHealthy(w);
    AttemptContinues(w, a);
    AttemptFees(w, a);
    FailureHasEffect(w, a);
    var (w', fed) := (After(w, a), FailsAfterFees(w.node, a));
    FailureRest(w, w', a.ledger, fed);
    FailureFees(w, w', a.ledger, fed);
  }

  lemma {:induction false} StepKeeps(w: World, a: Action)
    requires Inv(w) && Possible(w.node, a)
    ensures Inv(After(w, a))
  {
    match a
    case Stop => StopKeeps(w);
    case Start(_, _, _, _, _) => StartKeeps(w, a);
    case Attempt(_, _, _) =>
      if Committed(w.node, a) {
        CommitKeeps(w, a);
      } else {
        FailureKeeps(w, a);
      }
  }

  // ---- runs ----

  ghost predicate Takes(w: World, a: Action, w': World) {
    Healthy(w.node) && Possible(w.node, a) && w.trace.dropped <= |w.trace.history| && w' == After(w, a)
  }

  lemma {:induction false} TakesStep(w: World, a: Action, w': World)
    requires Takes(w, a, w')
    ensures Healthy(w.node) && Possible(w.node, a) && w.trace.dropped <= |w.trace.history| && w' == After(w, a)
  {
    hide Healthy, Possible, After;
  }

  ghost predicate Next(w: World, w': World) { exists a :: Takes(w, a, w') }

  /** A run starts with the service down and whatever consistent database it finds. */
  ghost predicate Opens(w: World) {
    && w.node.process.Down? && HistoryOk(w)
    && w.trace.dropped == 0 && w.trace.txRuns == w.trace.eventRuns == 0
    && !w.trace.txSkipped && !w.trace.eventSkipped
  }

  ghost predicate IsRun(ws: seq<World>) {
    ws != [] && if |ws| == 1 then Opens(ws[0]) else IsRun(ws[..|ws| - 1]) && Next(ws[|ws| - 2], ws[|ws| - 1])
  }

  lemma {:induction false} RunInv(ws: seq<World>)
    requires IsRun(ws)
    ensures Inv(ws[|ws| - 1])
  {
    hide HistoryOk, CacheOk, FeesOk, Possible, Healthy, After;
    if |ws| > 1 {
      var w := ws[|ws| - 2];
      RunInv(ws[..|ws| - 1]);
      var a :| Takes(w, a, ws[|ws| - 1]);
      StepKeeps(w, a);
    } else {
      OpensInv(ws[0]);
    }
  }

  lemma {:induction false} OpensInv(w: World)
    requires Opens(w)
    ensures Inv(w)
  {
    hide HistoryOk;
  }
}
