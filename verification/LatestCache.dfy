/**
 The latest-ledger cache under concurrency (cmd/stellar-rpc/internal/db/db.go, cmd/stellar-rpc/internal/db/ledger.go):
 any number of threads look up the latest ledger, start read transactions or commit, each step of which can
 interleave with the others'. Only a read-write lock orders them.
 */
module LatestCache {
  type Tid = nat

  /** Where a thread stands. A sequence number of 0 means unknown, or an empty table. */
  datatype Pc =
    | Idle
    // getLatestLedgerSequence: read the cache under the read lock, in GetLedgerRange once more, then query the table
    // without any lock, and fill the cache under the write lock
    | Peeking
    | Missed
    | Scanning
    | Queried(found: nat)
    | Filling(found: nat)
    | Answered(latest: nat)
    // ledgerReader.NewTx: begin and copy the cache, both under the read lock
    | Beginning
    | Begun(snapshot: nat)
    | Reading(snapshot: nat, cached: nat)
    // writeTx.Commit: commit and update the cache, both under the write lock
    | Committing(sequence: nat)
    | Caching(sequence: nat)

  datatype Lock = Lock(readers: set<Tid>, writer: set<Tid>)

  /** The newest ledger of the committed table, the cache, the lock and all threads. */
  datatype State = State(table: nat, cache: nat, lock: Lock, threads: map<Tid, Pc>)

  function PcOf(s: State, t: Tid): Pc { if t in s.threads then s.threads[t] else Idle }

  predicate HoldsRead(pc: Pc) { pc.Peeking? || pc.Beginning? || pc.Begun? }

  predicate HoldsWrite(pc: Pc) { pc.Filling? || pc.Committing? || pc.Caching? }

  datatype Step =
    | LockRead | Read | Recheck | Query | LockWrite | Fill
    | Begin | Copy
    | Open(sequence: nat) | Commit(works: bool) | Update
    | Leave

  predicate CanRead(s: State) { s.lock.writer == {} }

  predicate CanWrite(s: State) { s.lock.writer == {} && s.lock.readers == {} }

  predicate Enabled(s: State, t: Tid, step: Step) {
    var pc := PcOf(s, t);
    match step
    case LockRead => pc.Idle? && CanRead(s)
    case Read => pc.Peeking?
    case Recheck => pc.Missed? && CanRead(s)
    case Query => pc.Scanning?
    case LockWrite => pc.Queried? && CanWrite(s)
    case Fill => pc.Filling?
    case Begin => pc.Beginning? || (pc.Idle? && CanRead(s))
    case Copy => pc.Begun?
    // there is one ingestion loop, and it commits the ledger after the newest one
    case Open(sequence) => pc.Idle? && CanWrite(s) && sequence > s.table
    case Commit(_) => pc.Committing?
    case Update => pc.Caching?
    case Leave => pc.Answered? || pc.Reading?
  }

  function WithPc(s: State, t: Tid, pc: Pc): State { s.(threads := s.threads[t := pc]) }

  function Locked(s: State, t: Tid): State { s.(lock := s.lock.(readers := s.lock.readers + {t})) }

  function Unlocked(s: State, t: Tid): State { s.(lock := Lock(s.lock.readers - {t}, s.lock.writer - {t})) }

  function WriteLocked(s: State, t: Tid): State { s.(lock := s.lock.(writer := {t})) }

  function Next(s: State, t: Tid, step: Step): State
    requires Enabled(s, t, step)
  {
    var pc := PcOf(s, t);
    match step
    case LockRead => WithPc(Locked(s, t), t, Peeking)
    case Read => WithPc(Unlocked(s, t), t, if s.cache != 0 then Answered(s.cache) else Missed)
    case Recheck => WithPc(s, t, if s.cache != 0 then Queried(s.cache) else Scanning)
    // an empty table is reported as an error
    case Query => WithPc(s, t, if s.table == 0 then Idle else Queried(s.table))
    case LockWrite => WithPc(WriteLocked(s, t), t, Filling(pc.found))
    case Fill =>
      var filled := Unlocked(s, t).(cache := if s.cache == 0 then pc.found else s.cache);
      WithPc(filled, t, Answered(pc.found))
    case Begin => if pc.Idle? then WithPc(Locked(s, t), t, Beginning) else WithPc(s, t, Begun(s.table))
    case Copy => WithPc(Unlocked(s, t), t, Reading(pc.snapshot, s.cache))
    case Open(sequence) => WithPc(WriteLocked(s, t), t, Committing(sequence))
    case Commit(works) =>
      if works then WithPc(s.(table := pc.sequence), t, Caching(pc.sequence)) else WithPc(Unlocked(s, t), t, Idle)
    case Update => WithPc(Unlocked(s, t).(cache := pc.sequence), t, Idle)
    case Leave => WithPc(s, t, Idle)
  }

  // ---- the invariant ----

  ghost predicate LockOk(s: State) {
    && (forall t :: t in s.lock.readers <==> HoldsRead(PcOf(s, t)))
    && (forall t :: t in s.lock.writer <==> HoldsWrite(PcOf(s, t)))
    && (forall t, u :: t in s.lock.writer && u in s.lock.writer ==> t == u)
    && (s.lock.writer != {} ==> s.lock.readers == {})
  }

  /** Some commit has reached the table and not yet the cache. */
  ghost predicate Pending(s: State) { exists t :: t in s.lock.writer && PcOf(s, t).Caching? }

  ghost predicate ThreadOk(s: State, pc: Pc) {
    match pc
    case Queried(found) => 0 < found <= s.table && (found == s.table || s.cache != 0 || Pending(s))
    case Filling(found) => 0 < found <= s.table && (found == s.table || s.cache != 0)
    case Answered(latest) => 0 < latest <= s.table
    case Begun(snapshot) => snapshot == s.table
    case Reading(snapshot, cached) => (cached == 0 || cached == snapshot) && snapshot <= s.table
    case Committing(sequence) => sequence > s.table
    case Caching(sequence) => sequence == s.table
    case _ => true
  }

  ghost predicate CacheOk(s: State) {
    s.cache <= s.table && (!Pending(s) ==> s.cache == 0 || s.cache == s.table)
  }

  ghost predicate Inv(s: State) {
    LockOk(s) && CacheOk(s) && forall t :: ThreadOk(s, PcOf(s, t))
  }

  predicate Init(s: State) { s.cache == 0 && s.lock == Lock({}, {}) && s.threads == map[] }

  lemma {:induction false} LockKept(s: State, t: Tid, step: Step)
    requires LockOk(s) && Enabled(s, t, step)
    ensures LockOk(Next(s, t, step))
  {
    var s' := Next(s, t, step);
    assert forall u :: u != t ==> PcOf(s', u) == PcOf(s, u);
  }

  lemma {:induction false} CacheKept(s: State, t: Tid, step: Step)
    requires Inv(s) && Enabled(s, t, step)
    ensures CacheOk(Next(s, t, step)) && s.cache <= Next(s, t, step).cache && s.table <= Next(s, t, step).table
  {
    LockKept(s, t, step);
    var s' := Next(s, t, step);
    assert ThreadOk(s, PcOf(s, t));
    assert PcOf(s', t) == s'.threads[t];
  }

  /** A commit that is half done holds the write lock, so no other thread is inside its own critical section. */
  lemma {:induction false} PendingExcludes(s: State, u: Tid)
    requires LockOk(s) && Pending(s)
    ensures s.lock.readers == {} && (HoldsWrite(PcOf(s, u)) ==> PcOf(s, u).Caching?)
  {
  }

  lemma {:induction false} OthersKept(s: State, t: Tid, step: Step, u: Tid)
    requires Inv(s) && Enabled(s, t, step) && u != t
    ensures ThreadOk(Next(s, t, step), PcOf(Next(s, t, step), u))
  {
    var s' := Next(s, t, step);
    assert PcOf(s', u) == PcOf(s, u) && ThreadOk(s, PcOf(s, u)) && ThreadOk(s, PcOf(s, t));
    OthersLocks(s, t, step, u);
    PendingMoves(s, t, step);
    hide LockOk, Pending;
  }

  /** A thread inside a critical section keeps the others out of theirs. */
  lemma {:induction false} OthersLocks(s: State, t: Tid, step: Step, u: Tid)
    requires LockOk(s) && Enabled(s, t, step) && u != t
    ensures HoldsWrite(PcOf(s, t)) ==> !HoldsRead(PcOf(s, u)) && !HoldsWrite(PcOf(s, u))
    ensures HoldsRead(PcOf(s, u)) || HoldsWrite(PcOf(s, u)) ==> !step.Open? && !step.LockWrite?
  {
    assert HoldsRead(PcOf(s, u)) <==> u in s.lock.readers;
    assert HoldsWrite(PcOf(s, u)) <==> u in s.lock.writer;
  }

  /** A commit stays pending until its own update of the cache. */
  lemma {:induction false} PendingMoves(s: State, t: Tid, step: Step)
    requires LockOk(s) && Enabled(s, t, step)
    ensures Pending(s) && !step.Update? ==> Pending(Next(s, t, step))
    ensures step.Commit? && step.works ==> Pending(Next(s, t, step))
    ensures step.Update? ==> Pending(s)
  {
    LockKept(s, t, step);
    var s' := Next(s, t, step);
    assert step.Commit? && step.works ==> t in s'.lock.writer && PcOf(s', t).Caching?;
    if Pending(s) {
      var w :| w in s.lock.writer && PcOf(s, w).Caching?;
      assert w != t ==> PcOf(s', w) == PcOf(s, w) && w in s'.lock.writer;
    }
    assert step.Update? ==> t in s.lock.writer && PcOf(s, t).Caching?;
  }

  lemma {:induction false} SelfKept(s: State, t: Tid, step: Step)
    requires Inv(s) && Enabled(s, t, step)
    ensures ThreadOk(Next(s, t, step), PcOf(Next(s, t, step), t))
  {
    assert ThreadOk(s, PcOf(s, t));
    assert PcOf(Next(s, t, step), t) == Next(s, t, step).threads[t];
    if Pending(s) { PendingExcludes(s, t); }
    assert HoldsRead(PcOf(s, t)) <==> t in s.lock.readers;
  }

  lemma {:induction false} StepKeeps(s: State, t: Tid, step: Step)
    requires Inv(s) && Enabled(s, t, step)
    ensures Inv(Next(s, t, step))
  {
    LockKept(s, t, step);
    CacheKept(s, t, step);
    forall u ensures ThreadOk(Next(s, t, step), PcOf(Next(s, t, step), u)) {
      if u == t { SelfKept(s, t, step); } else { OthersKept(s, t, step, u); }
    }
  }

  // ---- runs ----

  ghost predicate Moves(s: State, s': State) {
    exists t, step :: Enabled(s, t, step) && s' == Next(s, t, step)
  }

  ghost predicate IsRun(run: seq<State>) {
    run != [] && if |run| == 1 then Init(run[0]) else IsRun(run[..|run| - 1]) && Moves(run[|run| - 2], run[|run| - 1])
  }

  lemma {:induction false} RunInv(run: seq<State>)
    requires IsRun(run)
    ensures Inv(run[|run| - 1])
  {
    hide Inv, Enabled, Next;
    if |run| > 1 {
      var s := run[|run| - 2];
      RunInv(run[..|run| - 1]);
      var t, step :| Enabled(s, t, step) && run[|run| - 1] == Next(s, t, step);
      StepKeeps(s, t, step);
    } else {
      InitInv(run[0]);
    }
  }

  lemma {:induction false} InitInv(s: State)
    requires Init(s)
    ensures Inv(s)
  {
  }

  /**
   However the threads interleave: whenever the write lock is free, the cache is unknown or the newest ledger;
   and a read transaction's cached ledger is unknown or the newest one of its snapshot.
   */
  lemma {:induction false} CacheRight(run: seq<State>)
    requires IsRun(run)
    ensures var s := run[|run| - 1];
            && (s.lock.writer == {} ==> s.cache == 0 || s.cache == s.table)
            && (forall t :: PcOf(s, t).Reading? ==> PcOf(s, t).cached == 0 || PcOf(s, t).cached == PcOf(s, t).snapshot)
            && (forall t :: PcOf(s, t).Answered? ==> 0 < PcOf(s, t).latest <= s.table)
  {
    var s := run[|run| - 1];
    RunInv(run);
    forall t ensures PcOf(s, t).Reading? ==> PcOf(s, t).cached == 0 || PcOf(s, t).cached == PcOf(s, t).snapshot {
      assert ThreadOk(s, PcOf(s, t));
    }
    forall t ensures PcOf(s, t).Answered? ==> 0 < PcOf(s, t).latest <= s.table {
      assert ThreadOk(s, PcOf(s, t));
    }
  }

  /** The cache never goes back. */
  lemma {:induction false} CacheGrows(run: seq<State>, i: nat)
    requires IsRun(run) && i < |run|
    ensures run[i].cache <= run[|run| - 1].cache && run[i].table <= run[|run| - 1].table
  {
    if i < |run| - 1 {
      var (front, s) := (run[..|run| - 1], run[|run| - 2]);
      CacheGrows(front, i);
      RunInv(front);
      var t, step :| Enabled(s, t, step) && run[|run| - 1] == Next(s, t, step);
      CacheKept(s, t, step);
    }
  }

  // ---- what the answers mean ----

  /** A thread is looking up the latest ledger. */
  predicate LookingUp(pc: Pc) {
    pc.Peeking? || pc.Missed? || pc.Scanning? || pc.Queried? || pc.Filling? || pc.Answered?
  }

  /** A thread is opening or using a read transaction. */
  predicate InReadTx(pc: Pc) { pc.Beginning? || pc.Begun? || pc.Reading? }

  /** The answer a lookup has got hold of. */
  predicate Holds(pc: Pc, latest: nat) {
    (pc.Queried? && pc.found == latest) || (pc.Filling? && pc.found == latest) || (pc.Answered? && pc.latest == latest)
  }

  predicate HasSnapshot(pc: Pc, snapshot: nat) {
    (pc.Begun? && pc.snapshot == snapshot) || (pc.Reading? && pc.snapshot == snapshot)
  }

  /** At some point of a thread's present call, the table's newest ledger was this one. */
  ghost predicate SeenDuring(run: seq<State>, t: Tid, inCall: Pc -> bool, newest: nat) {
    exists i :: 0 <= i < |run| && run[i].table == newest && forall j :: i <= j < |run| ==> inCall(PcOf(run[j], t))
  }

  lemma {:induction false} SeenStill(run: seq<State>, s: State, t: Tid, inCall: Pc -> bool, newest: nat)
    requires SeenDuring(run, t, inCall, newest) && inCall(PcOf(s, t))
    ensures SeenDuring(run + [s], t, inCall, newest)
  {
    var i :| 0 <= i < |run| && run[i].table == newest && forall j :: i <= j < |run| ==> inCall(PcOf(run[j], t));
    var all := run + [s];
    assert all[i] == run[i] && forall j :: i <= j < |all| ==> inCall(PcOf(all[j], t));
  }

  lemma {:induction false} SeenNow(run: seq<State>, s: State, t: Tid, inCall: Pc -> bool)
    requires run != [] && inCall(PcOf(run[|run| - 1], t)) && inCall(PcOf(s, t))
    ensures SeenDuring(run + [s], t, inCall, run[|run| - 1].table)
  {
    var all := run + [s];
    assert all[|run| - 1] == run[|run| - 1] && all[|run|] == s;
  }

  /** Where an answer comes from in one step: a thread that already held it, or the table as it is. */
  lemma {:induction false} AnswerFrom(s: State, t: Tid, step: Step, u: Tid, latest: nat)
    requires Inv(s) && Enabled(s, t, step) && Holds(PcOf(Next(s, t, step), u), latest)
    ensures LookingUp(PcOf(s, u)) && (Holds(PcOf(s, u), latest) || s.table == latest)
  {
    if u == t {
      assert PcOf(Next(s, t, step), t) == Next(s, t, step).threads[t];
      assert HoldsRead(PcOf(s, t)) ==> s.lock.writer == {};
      if s.lock.writer == {} { assert !Pending(s); }
    } else {
      assert PcOf(Next(s, t, step), u) == PcOf(s, u);
    }
  }

  lemma {:induction false} SnapshotFrom(s: State, t: Tid, step: Step, u: Tid, snapshot: nat)
    requires Inv(s) && Enabled(s, t, step) && HasSnapshot(PcOf(Next(s, t, step), u), snapshot)
    ensures InReadTx(PcOf(s, u)) && (HasSnapshot(PcOf(s, u), snapshot) || s.table == snapshot)
  {
    if u == t {
      assert PcOf(Next(s, t, step), t) == Next(s, t, step).threads[t];
    } else {
      assert PcOf(Next(s, t, step), u) == PcOf(s, u);
    }
  }

  lemma {:induction false} HeldWasNewest(run: seq<State>, u: Tid, latest: nat)
    requires IsRun(run) && Holds(PcOf(run[|run| - 1], u), latest)
    ensures SeenDuring(run, u, LookingUp, latest)
  {
    hide Enabled, Next, Inv;
    if |run| > 1 {
      var (front, s, s') := (run[..|run| - 1], run[|run| - 2], run[|run| - 1]);
      assert run == front + [s'];
      RunInv(front);
      var t, step :| Enabled(s, t, step) && s' == Next(s, t, step);
      AnswerFrom(s, t, step, u, latest);
      if Holds(PcOf(s, u), latest) {
        HeldWasNewest(front, u, latest);
        SeenStill(front, s', u, LookingUp, latest);
      } else {
        SeenNow(front, s', u, LookingUp);
      }
    }
  }

  /** Whoever is told a latest ledger was told one that was the table's newest at some point during the call. */
  lemma {:induction false} AnswerWasNewest(run: seq<State>, t: Tid)
    requires IsRun(run) && PcOf(run[|run| - 1], t).Answered?
    ensures SeenDuring(run, t, LookingUp, PcOf(run[|run| - 1], t).latest)
  {
    HeldWasNewest(run, t, PcOf(run[|run| - 1], t).latest);
  }

  lemma {:induction false} SnapshotHeld(run: seq<State>, u: Tid, snapshot: nat)
    requires IsRun(run) && HasSnapshot(PcOf(run[|run| - 1], u), snapshot)
    ensures SeenDuring(run, u, InReadTx, snapshot)
  {
    hide Enabled, Next, Inv;
    if |run| > 1 {
      var (front, s, s') := (run[..|run| - 1], run[|run| - 2], run[|run| - 1]);
      assert run == front + [s'];
      RunInv(front);
      var t, step :| Enabled(s, t, step) && s' == Next(s, t, step);
      SnapshotFrom(s, t, step, u, snapshot);
      if HasSnapshot(PcOf(s, u), snapshot) {
        SnapshotHeld(front, u, snapshot);
        SeenStill(front, s', u, InReadTx, snapshot);
      } else {
        SeenNow(front, s', u, InReadTx);
      }
    }
  }

  /** The snapshot of a read transaction is the table at some point since it began. */
  lemma {:induction false} SnapshotWasNewest(run: seq<State>, t: Tid)
    requires IsRun(run) && PcOf(run[|run| - 1], t).Reading?
    ensures SeenDuring(run, t, InReadTx, PcOf(run[|run| - 1], t).snapshot)
  {
    SnapshotHeld(run, t, PcOf(run[|run| - 1], t).snapshot);
  }

  /** A lookup that has not come to an answer yet. */
  predicate Unanswered(pc: Pc) { LookingUp(pc) && !pc.Answered? }

  /** Whichever thread moves: a lookup ends with an answer, unless the table is empty. */
  lemma {:induction false} UnansweredWhenEmpty(s: State, s': State, t: Tid)
    requires Moves(s, s') && Unanswered(PcOf(s, t)) && !Unanswered(PcOf(s', t))
    ensures PcOf(s', t).Answered? || s.table == 0
  {
    var u, step :| Enabled(s, u, step) && s' == Next(s, u, step);
    assert u == t ==> PcOf(s', t) == s'.threads[t];
  }

  lemma {:induction false} CachedFrom(s: State, t: Tid, step: Step, u: Tid)
    requires Enabled(s, t, step) && PcOf(Next(s, t, step), u).Reading?
    ensures PcOf(Next(s, t, step), u) == PcOf(s, u)
      || (PcOf(s, u).Begun? && PcOf(Next(s, t, step), u).cached == s.cache)
  {
    if u != t { assert PcOf(Next(s, t, step), u) == PcOf(s, u); }
  }

  lemma {:induction false} CachedKnown(run: seq<State>, i: nat, t: Tid)
    requires IsRun(run) && i < |run| && run[i].cache != 0 && !PcOf(run[i], t).Reading?
    ensures PcOf(run[|run| - 1], t).Reading? ==> PcOf(run[|run| - 1], t).cached != 0
  {
    hide Enabled, Next, Inv;
    if i < |run| - 1 {
      var (front, s, s') := (run[..|run| - 1], run[|run| - 2], run[|run| - 1]);
      CachedKnown(front, i, t);
      CacheGrows(front, i);
      var u, step :| Enabled(s, u, step) && s' == Next(s, u, step);
      if PcOf(s', t).Reading? { CachedFrom(s, u, step, t); }
    }
  }

  /** Once the latest ledger is known, every later read transaction knows the newest one of its snapshot. */
  lemma {:induction false} LaterTxKnows(run: seq<State>, i: nat, t: Tid)
    requires IsRun(run) && i < |run| && run[i].cache != 0 && !PcOf(run[i], t).Reading?
    requires PcOf(run[|run| - 1], t).Reading?
    ensures PcOf(run[|run| - 1], t).cached == PcOf(run[|run| - 1], t).snapshot
  {
    CachedKnown(run, i, t);
    CacheRight(run);
  }
}
