/**
 The backlog limiter with its moves recorded (cmd/stellar-rpc/internal/network/backlogQ.go): which way a request takes,
 and when the limit is logged.
 */
module BacklogTraces {
  import opened BacklogQueue

  datatype Move = Move(t: Tid, step: Step)

  ghost predicate IsTrace(run: seq<State>, moves: seq<Move>) {
    && |run| == |moves| + 1 && Init(run[0])
    && forall i: nat :: i < |moves| ==> Moves(run[i], run[i + 1], moves[i].t, moves[i].step)
  }

  lemma {:induction false} TraceIsRun(run: seq<State>, moves: seq<Move>, i: nat)
    requires IsTrace(run, moves) && i < |run|
    ensures IsRun(run[..i + 1])
  {
    hide Moves, Init;
    if i > 0 {
      TraceIsRun(run, moves, i - 1);
      assert run[..i + 1][..i] == run[..i];
      assert CanMove(run[i - 1], run[i]) by {
        assert Moves(run[i - 1], run[i], moves[i - 1].t, moves[i - 1].step);
      }
    }
  }

  // ---- the way of a request ----

  /** What a request does after a step, in the state in which it took the step. */
  function After(s: State, step: Step): Step {
    match step
    case Count => if AdmittedCount(s) + |Those(s.requests, IsRejected)| >= s.limit then Undo else Raise
    case Undo => TryFlag
    case TryFlag => if s.limitReached then Count else Log
    case Log => Count
    case Raise => Finish
    case Finish => Uncount
    case Uncount => Lower
    case Lower => Reset
    case Reset => Count
  }

  lemma {:induction false} PcStays(run: seq<State>, moves: seq<Move>, t: Tid, i: nat, j: nat)
    requires IsTrace(run, moves) && i <= j <= |moves| && forall k: nat :: i <= k < j ==> moves[k].t != t
    ensures PcOf(run[i], t) == PcOf(run[j], t)
    decreases j
  {
    hide Those, Add64, Init;
    if i < j {
      assert Moves(run[j - 1], run[j], moves[j - 1].t, moves[j - 1].step);
      PcStays(run, moves, t, i, j - 1);
    }
  }

  /**
   A request over the limit undoes its count, tries the flag and, when it finds the flag clear, logs; any other one goes
   on to the handler and ends with a reset.
   */
  lemma {:induction false} NextOfRequest(run: seq<State>, moves: seq<Move>, i: nat, j: nat)
    requires IsTrace(run, moves) && i < j < |moves| && moves[i].t == moves[j].t
    requires forall k: nat :: i < k < j ==> moves[k].t != moves[i].t
    ensures moves[j].step == After(run[i], moves[i].step)
  {
    hide Inv, Those, IsRun;
    var (s, t, step) := (run[i], moves[i].t, moves[i].step);
    PcStays(run, moves, t, i + 1, j);
    assert Moves(s, run[i + 1], t, step) && Moves(run[j], run[j + 1], t, moves[j].step);
    if step == Count {
      TraceIsRun(run, moves, i);
      RejectedWhenFull(run[..i + 1], t);
    }
  }

  /** A request begins with counting itself. */
  lemma {:induction false} FirstOfRequest(run: seq<State>, moves: seq<Move>, j: nat)
    requires IsTrace(run, moves) && j < |moves| && forall k: nat :: k < j ==> moves[k].t != moves[j].t
    ensures moves[j].step == Count
  {
    PcStays(run, moves, moves[j].t, 0, j);
    assert Moves(run[j], run[j + 1], moves[j].t, moves[j].step);
  }

  // ---- the flag and the log ----

  /** Some request has tried the flag since it was last reset. */
  ghost predicate TriedSinceReset(moves: seq<Move>, n: nat)
    requires n <= |moves|
  {
    exists i: nat :: i < n && moves[i].step == TryFlag && forall k: nat :: i < k < n ==> moves[k].step != Reset
  }

  lemma {:induction false} FlagMeans(run: seq<State>, moves: seq<Move>, n: nat)
    requires IsTrace(run, moves) && n <= |moves|
    ensures run[n].limitReached <==> TriedSinceReset(moves, n)
  {
    if n > 0 {
      FlagMeans(run, moves, n - 1);
      var step := moves[n - 1].step;
      assert Moves(run[n - 1], run[n], moves[n - 1].t, step);
      if step == TryFlag {
        assert TriedSinceReset(moves, n);
      } else if step != Reset {
        TriedStays(moves, n - 1);
      }
    }
  }

  lemma {:induction false} TriedStays(moves: seq<Move>, n: nat)
    requires n < |moves| && moves[n].step != TryFlag && moves[n].step != Reset
    ensures TriedSinceReset(moves, n + 1) <==> TriedSinceReset(moves, n)
  {
    if TriedSinceReset(moves, n) {
      var i: nat :| i < n && moves[i].step == TryFlag && forall k: nat :: i < k < n ==> moves[k].step != Reset;
      assert i < n + 1 && forall k: nat :: i < k < n + 1 ==> moves[k].step != Reset;
    }
  }

  /** How many of the first n moves are such a step. */
  function CountSteps(moves: seq<Move>, step: Step, n: nat): nat
    requires n <= |moves|
  {
    if n == 0 then 0 else CountSteps(moves, step, n - 1) + One(moves[n - 1].step == step)
  }

  /** How many of them are the first try after a reset, or the first of all. */
  ghost function FirstTries(moves: seq<Move>, n: nat): nat
    requires n <= |moves|
  {
    if n == 0 then 0
    else FirstTries(moves, n - 1) + One(moves[n - 1].step == TryFlag && !TriedSinceReset(moves, n - 1))
  }

  /** Every first try leads to one log line; those still missing are about to be written. */
  lemma {:induction false} LogsCounted(run: seq<State>, moves: seq<Move>, n: nat)
    requires IsTrace(run, moves) && n <= |moves|
    ensures run[n].logs == CountSteps(moves, Log, n) && run[n].resets == CountSteps(moves, Reset, n)
    ensures run[n].limit == run[0].limit
    ensures run[n].logs + |Those(run[n].requests, IsWinner)| == FirstTries(moves, n)
    ensures Quiet(run[n]) ==> run[n].logs == FirstTries(moves, n)
  {
    hide Those, IsRun, TriedSinceReset;
    StepsCounted(run, moves, n);
    TraceIsRun(run, moves, n);
    RunInv(run[..n + 1]);
    NoneWin(run[n]);
  }

  lemma {:induction false} NoneWin(s: State)
    ensures Quiet(s) ==> |Those(s.requests, IsWinner)| == 0
  {
    if Quiet(s) { assert Those(s.requests, IsWinner) == {}; }
  }

  lemma {:induction false} StepsCounted(run: seq<State>, moves: seq<Move>, n: nat)
    requires IsTrace(run, moves) && n <= |moves|
    ensures run[n].logs == CountSteps(moves, Log, n) && run[n].resets == CountSteps(moves, Reset, n)
    ensures run[n].wins == FirstTries(moves, n) && run[n].limit == run[0].limit
  {
    hide TriedSinceReset, Those, Add64;
    if n > 0 {
      StepsCounted(run, moves, n - 1);
      FlagMeans(run, moves, n - 1);
      assert Moves(run[n - 1], run[n], moves[n - 1].t, moves[n - 1].step);
    }
  }
}
