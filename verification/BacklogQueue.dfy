/**
 The backlog limiter (cmd/stellar-rpc/internal/network/backlogQ.go): any number of requests pass through atomic
 steps on one pending counter, one gauge and one flag. HTTP and JSON-RPC requests take the same steps.
 */
module BacklogQueue {
  const UINT64_SIZE: nat := 0x1_0000_0000_0000_0000

  type Tid = nat

  /** Where a request stands between two atomic steps. */
  datatype Pc =
    | Outside
    | Rejected    // counted, over the limit, the count not yet undone
    | Undone      // about to try the flag
    | Winner      // about to log
    | Admitted    // counted, the gauge not yet raised
    | Running     // in the downstream handler
    | Leaving     // the handler has returned or panicked
    | Uncounted   // the gauge not yet lowered
    | Resetting   // about to reset the flag

  datatype State = State(
    limit: nat, pending: nat, gauge: int, limitReached: bool, logs: nat, wins: nat, resets: nat, requests: map<Tid, Pc>)

  datatype Step = Count | Undo | TryFlag | Log | Raise | Finish | Uncount | Lower | Reset

  function PcOf(s: State, t: Tid): Pc { if t in s.requests then s.requests[t] else Outside }

  /** AddUint64, and adding the all-ones word to subtract one. */
  function Add64(a: nat, b: nat): nat { (a + b) % UINT64_SIZE }

  const MINUS_ONE := UINT64_SIZE - 1

  predicate Enabled(s: State, t: Tid, step: Step) {
    match step
    case Count => PcOf(s, t).Outside? && Counted(s) + 1 < UINT64_SIZE
    case Undo => PcOf(s, t).Rejected?
    case TryFlag => PcOf(s, t).Undone?
    case Log => PcOf(s, t).Winner?
    case Raise => PcOf(s, t).Admitted?
    case Finish => PcOf(s, t).Running?
    case Uncount => PcOf(s, t).Leaving?
    case Lower => PcOf(s, t).Uncounted?
    case Reset => PcOf(s, t).Resetting?
  }

  function At(s: State, t: Tid, pc: Pc): State { s.(requests := s.requests[t := pc]) }

  function Next(s: State, t: Tid, step: Step): State
    requires Enabled(s, t, step)
  {
    match step
    case Count =>
      var newPending := Add64(s.pending, 1);
      At(s.(pending := newPending), t, if newPending > s.limit then Rejected else Admitted)
    case Undo => At(s.(pending := Add64(s.pending, MINUS_ONE)), t, Undone)
    case TryFlag =>
      if s.limitReached then At(s, t, Outside) else At(s.(limitReached := true, wins := s.wins + 1), t, Winner)
    case Log => At(s.(logs := s.logs + 1), t, Outside)
    case Raise => At(s.(gauge := s.gauge + 1), t, Running)
    case Finish => At(s, t, Leaving)
    case Uncount => At(s.(pending := Add64(s.pending, MINUS_ONE)), t, Uncounted)
    case Lower => At(s.(gauge := s.gauge - 1), t, Resetting)
    case Reset => At(s.(limitReached := false, resets := s.resets + 1), t, Outside)
  }

  // ---- counting requests ----

  function Those(requests: map<Tid, Pc>, p: Pc -> bool): set<Tid> { set t | t in requests && p(requests[t]) }

  predicate IsCounted(pc: Pc) { pc.Rejected? || pc.Admitted? || pc.Running? || pc.Leaving? }

  predicate IsAdmitted(pc: Pc) { pc.Admitted? || pc.Running? || pc.Leaving? }

  predicate IsGauged(pc: Pc) { pc.Running? || pc.Leaving? || pc.Uncounted? }

  predicate IsRejected(pc: Pc) { pc.Rejected? }

  predicate IsWinner(pc: Pc) { pc.Winner? }

  function Counted(s: State): nat { |Those(s.requests, IsCounted)| }

  function AdmittedCount(s: State): nat { |Those(s.requests, IsAdmitted)| }

  function One(b: bool): nat { if b then 1 else 0 }

  lemma {:induction false} Moved(requests: map<Tid, Pc>, t: Tid, pc: Pc, p: Pc -> bool)
    requires !p(Outside)
    ensures |Those(requests[t := pc], p)|
         == |Those(requests, p)| - One(t in requests && p(requests[t])) + One(p(pc))
  {
    var (before, after) := (Those(requests, p), Those(requests[t := pc], p));
    forall u ensures u in after <==> if u == t then p(pc) else u in before {
      assert u != t ==> (u in requests[t := pc] <==> u in requests);
    }
    Resized(before, after, t);
  }

  lemma {:induction false} Resized(a: set<Tid>, b: set<Tid>, t: Tid)
    requires forall u :: u != t ==> (u in a <==> u in b)
    ensures |b| == |a| - One(t in a) + One(t in b)
  {
    var others := a - {t};
    assert others == b - {t};
    assert |others| == |a| - One(t in a) && |b - {t}| == |b| - One(t in b);
  }

  // ---- the invariant ----

  predicate Inv(s: State) {
    && s.pending == Counted(s) < UINT64_SIZE
    && AdmittedCount(s) <= s.limit
    && s.gauge == |Those(s.requests, IsGauged)|
    && s.wins <= s.resets + One(s.limitReached)
    && s.logs + |Those(s.requests, IsWinner)| == s.wins
  }

  predicate Init(s: State) {
    s.pending == 0 && s.gauge == 0 && !s.limitReached && s.logs == s.wins == s.resets == 0 && s.requests == map[]
  }

  lemma {:induction false} AdmittedAreCounted(s: State)
    ensures Counted(s) == AdmittedCount(s) + |Those(s.requests, IsRejected)|
  {
    var rejected := Those(s.requests, IsRejected);
    assert Those(s.requests, IsCounted) == Those(s.requests, IsAdmitted) + rejected;
  }

  lemma {:induction false} PendingUp(pending: nat)
    requires pending + 1 < UINT64_SIZE
    ensures Add64(pending, 1) == pending + 1
  {
  }

  lemma {:induction false} PendingDown(pending: nat)
    requires 1 <= pending < UINT64_SIZE
    ensures Add64(pending, MINUS_ONE) == pending - 1
  {
    assert pending + MINUS_ONE == (pending - 1) + UINT64_SIZE;
  }

  lemma {:induction false} IsThere(requests: map<Tid, Pc>, t: Tid, p: Pc -> bool)
    requires t in requests && p(requests[t])
    ensures |Those(requests, p)| >= 1
  {
    assert t in Those(requests, p);
  }

  lemma {:induction false} StepKeeps(s: State, t: Tid, step: Step)
    requires Inv(s) && Enabled(s, t, step)
    ensures Inv(Next(s, t, step))
  {
    hide Those, Add64;
    var to := PcOf(Next(s, t, step), t);
    Moved(s.requests, t, to, IsCounted);
    Moved(s.requests, t, to, IsAdmitted);
    Moved(s.requests, t, to, IsGauged);
    Moved(s.requests, t, to, IsWinner);
    match step
    case Count =>
      PendingUp(s.pending);
      AdmittedAreCounted(s);
    case Undo =>
      IsThere(s.requests, t, IsCounted);
      PendingDown(s.pending);
    case Uncount =>
      IsThere(s.requests, t, IsCounted);
      PendingDown(s.pending);
    case TryFlag =>
    case Log =>
    case Raise =>
    case Finish =>
    case Lower =>
    case Reset =>
  }

  // ---- runs ----

  predicate Moves(s: State, s': State, t: Tid, step: Step) { Enabled(s, t, step) && s' == Next(s, t, step) }

  ghost predicate CanMove(s: State, s': State) { exists t, step :: Moves(s, s', t, step) }

  ghost predicate IsRun(run: seq<State>) {
    run != [] && if |run| == 1 then Init(run[0])
                 else IsRun(run[..|run| - 1]) && CanMove(run[|run| - 2], run[|run| - 1])
  }

  lemma {:induction false} InitInv(s: State)
    requires Init(s)
    ensures Inv(s)
  {
    assert Those(s.requests, IsCounted) == Those(s.requests, IsAdmitted) == {};
    assert Those(s.requests, IsGauged) == Those(s.requests, IsWinner) == {};
  }

  lemma {:induction false} RunInv(run: seq<State>)
    requires IsRun(run)
    ensures Inv(run[|run| - 1])
  {
    hide Inv, Enabled, Next;
    if |run| > 1 {
      RunInv(run[..|run| - 1]);
      var t, step :| Moves(run[|run| - 2], run[|run| - 1], t, step);
      StepKeeps(run[|run| - 2], t, step);
    } else {
      InitInv(run[0]);
    }
  }

  /**
   In every interleaving: the pending counter is the number of admitted requests plus that of rejected ones not
   yet undone, so it never wraps; no more than the limit are admitted; the flag is logged at most once more than
   it is reset.
   */
  lemma {:induction false} LimiterSound(run: seq<State>)
    requires IsRun(run)
    ensures var s := run[|run| - 1];
            && s.pending == AdmittedCount(s) + |Those(s.requests, IsRejected)| < UINT64_SIZE
            && AdmittedCount(s) <= s.limit
            && s.logs <= 1 + s.resets
  {
    RunInv(run);
    AdmittedAreCounted(run[|run| - 1]);
  }

  /** A request is turned away exactly when admitted requests and rejections not yet undone fill the limit. */
  lemma {:induction false} RejectedWhenFull(run: seq<State>, t: Tid)
    requires IsRun(run) && Enabled(run[|run| - 1], t, Count)
    ensures var s := run[|run| - 1];
            PcOf(Next(s, t, Count), t).Rejected? <==> AdmittedCount(s) + |Those(s.requests, IsRejected)| >= s.limit
  {
    LimiterSound(run);
    RunInv(run);
    PendingUp(run[|run| - 1].pending);
    hide Those;
  }

  predicate Quiet(s: State) { forall t :: t in s.requests ==> s.requests[t].Outside? }

  /** When no request is under way, both counts are back at zero. */
  lemma {:induction false} Quiescent(run: seq<State>)
    requires IsRun(run) && Quiet(run[|run| - 1])
    ensures run[|run| - 1].pending == 0 && run[|run| - 1].gauge == 0
    ensures run[|run| - 1].logs <= run[|run| - 1].resets + 1
  {
    var s := run[|run| - 1];
    RunInv(run);
    assert Those(s.requests, IsCounted) == {} && Those(s.requests, IsGauged) == {};
  }
}
