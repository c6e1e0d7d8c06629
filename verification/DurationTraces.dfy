/**
 Limited requests with their steps recorded (cmd/stellar-rpc/internal/network/requestdurationlimiter.go): what is
 answered, told by what handler, timers and client did and in which order.
 */
module DurationTraces {
  import opened Wrappers
  import opened DurationLimiter

  /** The states of a schedule, and the step taken from each to the next. */
  ghost predicate IsTrace(run: seq<State>, steps: seq<Step>, warningThreshold: nat, limitThreshold: nat)
    decreases |steps|
  {
    && |run| == |steps| + 1
    && if steps == [] then Init(run[0], warningThreshold, limitThreshold)
       else
         && IsTrace(run[..|steps|], steps[..|steps| - 1], warningThreshold, limitThreshold)
         && Enabled(run[|steps| - 1], steps[|steps| - 1])
         && run[|steps|] == Next(run[|steps| - 1], steps[|steps| - 1])
  }

  // ---- what the steps say ----

  /** Everything the handler has written, in order. */
  function Output(steps: seq<Step>): Bytes {
    if steps == [] then []
    else
      Output(steps[..|steps| - 1]) + match steps[|steps| - 1] case Write(bytes) => bytes case _ => []
  }

  /** The status set last; 0 when none was. */
  ghost predicate LastStatus(steps: seq<Step>, status: nat) {
    || (status == 0 && forall j :: 0 <= j < |steps| ==> !steps[j].SetStatus?)
    || exists k :: 0 <= k < |steps| && steps[k] == SetStatus(status) && forall j :: k < j < |steps| ==>
      !steps[j].SetStatus?
  }

  predicate Sets(step: Step, key: string) { step.SetHeader? && step.key == key }

  function Lookup(h: Headers, key: string): Option<string> { if key in h then Some(h[key]) else None }

  /** The value of a header: the one set last, or what it was at the beginning. */
  ghost predicate LastHeader(steps: seq<Step>, initial: Headers, key: string, value: Option<string>) {
    || (value == Lookup(initial, key) && forall j :: 0 <= j < |steps| ==> !Sets(steps[j], key))
    || exists k :: 0 <= k < |steps| && Sets(steps[k], key) && value == Some(steps[k].value)
                   && forall j :: k < j < |steps| ==> !Sets(steps[j], key)
  }

  ghost predicate HeadersAre(steps: seq<Step>, initial: Headers, h: Headers) {
    forall key :: LastHeader(steps, initial, key, Lookup(h, key))
  }

  // ---- what the states keep of them ----

  ghost predicate BufferRecorded(s: State, initial: Response, steps: seq<Step>) {
    && s.buffer.body == Output(steps) && LastStatus(steps, s.buffer.status)
    && HeadersAre(steps, initial.header, s.buffer.header)
  }

  ghost predicate HandlerRecorded(s: State, steps: seq<Step>) {
    match s.handler
    case Serving => Panic !in steps && forall d :: Return(d) !in steps
    case Ended(Returned(data), _) => Panic !in steps && forall d :: Return(d) in steps <==> d == data
    case Ended(Panicked, _) => Panic in steps && forall d :: Return(d) !in steps
  }

  ghost predicate MainRecorded(s: State, steps: seq<Step>) {
    && (s.gone <==> ClientLeaves in steps)
    && (s.main.Selecting? <==> TakeLimit !in steps && TakeCompletion !in steps)
    && (s.main.Selecting? ==> s.warnings == 0 && (s.main.warn <==> TakeWarning in steps))
  }

  ghost predicate Recorded(s: State, initial: Response, steps: seq<Step>) {
    BufferRecorded(s, initial, steps) && HandlerRecorded(s, steps) && MainRecorded(s, steps)
  }

  lemma {:induction false} NextIn(steps: seq<Step>, step: Step, x: Step)
    ensures x in steps + [step] <==> x in steps || x == step
  {
  }

  lemma {:induction false} OutputNext(steps: seq<Step>, step: Step)
    ensures Output(steps + [step]) == Output(steps) + match step case Write(bytes) => bytes case _ => []
  {
    assert (steps + [step])[..|steps|] == steps;
  }

  lemma {:induction false} StatusNext(steps: seq<Step>, step: Step, status: nat)
    requires LastStatus(steps, status)
    ensures LastStatus(steps + [step], if step.SetStatus? then step.status else status)
  {
    var all := steps + [step];
    assert all[|steps|] == step && forall i :: 0 <= i < |steps| ==> all[i] == steps[i];
    if step.SetStatus? {
      assert all[|steps|] == SetStatus(step.status);
    } else if k :| 0 <= k < |steps| && steps[k] == SetStatus(status) && forall j :: k < j < |steps| ==>
      !steps[j].SetStatus? {
      assert all[k] == SetStatus(status) && forall j :: k < j < |all| ==> !all[j].SetStatus?;
    }
  }

  lemma {:induction false} HeaderNext(steps: seq<Step>, step: Step, initial: Headers, key: string,
      value: Option<string>)
    requires LastHeader(steps, initial, key, value)
    ensures LastHeader(steps + [step], initial, key, if Sets(step, key) then Some(step.value) else value)
  {
    var all := steps + [step];
    assert all[|steps|] == step && forall i :: 0 <= i < |steps| ==> all[i] == steps[i];
    if Sets(step, key) {
      assert Sets(all[|steps|], key);
    } else if k :| 0 <= k < |steps| && Sets(steps[k], key) && value == Some(steps[k].value)
                   && forall j :: k < j < |steps| ==> !Sets(steps[j], key) {
      assert Sets(all[k], key) && forall j :: k < j < |all| ==> !Sets(all[j], key);
    }
  }

  lemma {:induction false} HeadersNext(steps: seq<Step>, step: Step, initial: Headers, h: Headers, h': Headers)
    requires HeadersAre(steps, initial, h) && h' == if step.SetHeader? then h[step.key := step.value] else h
    ensures HeadersAre(steps + [step], initial, h')
  {
    hide LastHeader;
    forall key ensures LastHeader(steps + [step], initial, key, Lookup(h', key)) {
      HeaderNext(steps, step, initial, key, Lookup(h, key));
    }
  }

  lemma {:induction false} BufferNext(s: State, initial: Response, steps: seq<Step>, step: Step)
    requires BufferRecorded(s, initial, steps) && Enabled(s, step)
    ensures BufferRecorded(Next(s, step), initial, steps + [step])
  {
    hide Output, LastStatus, HeadersAre, Afterwards, OpAt, Limit, Completion;
    OutputNext(steps, step);
    StatusNext(steps, step, s.buffer.status);
    HeadersNext(steps, step, initial.header, s.buffer.header, Next(s, step).buffer.header);
    var none: Bytes := [];
    assert Output(steps) + none == Output(steps);
  }

  lemma {:induction false} HandlerNext(s: State, steps: seq<Step>, step: Step)
    requires HandlerRecorded(s, steps) && Enabled(s, step)
    ensures HandlerRecorded(Next(s, step), steps + [step])
  {
    hide Afterwards, OpAt, Limit, Completion;
    NextIn(steps, step, Panic);
    forall d ensures Return(d) in steps + [step] <==> Return(d) in steps || Return(d) == step {
      NextIn(steps, step, Return(d));
    }
  }

  lemma {:induction false} MainNext(s: State, steps: seq<Step>, step: Step)
    requires MainRecorded(s, steps) && Enabled(s, step)
    ensures MainRecorded(Next(s, step), steps + [step])
  {
    hide Afterwards, OpAt, Limit, Completion;
    NextIn(steps, step, ClientLeaves);
    NextIn(steps, step, TakeLimit);
    NextIn(steps, step, TakeCompletion);
    NextIn(steps, step, TakeWarning);
  }

  lemma {:induction false} TraceRecorded(run: seq<State>, steps: seq<Step>, warningThreshold: nat, limitThreshold: nat)
    requires IsTrace(run, steps, warningThreshold, limitThreshold)
    ensures Recorded(run[|steps|], run[0].response, steps)
    decreases |steps|
  {
    hide Enabled, Next, BufferRecorded, HandlerRecorded, MainRecorded, Init;
    if steps == [] {
      InitRecorded(run[0], warningThreshold, limitThreshold);
    } else {
      var (front, step) := (steps[..|steps| - 1], steps[|steps| - 1]);
      assert steps == front + [step];
      TraceRecorded(run[..|steps|], front, warningThreshold, limitThreshold);
      var s := run[|steps| - 1];
      BufferNext(s, run[0].response, front, step);
      HandlerNext(s, front, step);
      MainNext(s, front, step);
    }
  }

  lemma {:induction false} InitRecorded(s: State, warningThreshold: nat, limitThreshold: nat)
    requires Init(s, warningThreshold, limitThreshold)
    ensures Recorded(s, s.response, [])
  {
    var none: seq<Step> := [];
    assert forall x :: x !in none;
    forall d ensures Return(d) !in none {
    }
    assert BufferRecorded(s, s.response, none) && HandlerRecorded(s, none) && MainRecorded(s, none);
  }

  lemma {:induction false} TraceIsRun(run: seq<State>, steps: seq<Step>, warningThreshold: nat, limitThreshold: nat)
    requires IsTrace(run, steps, warningThreshold, limitThreshold)
    ensures IsRun(run, warningThreshold, limitThreshold)
    decreases |steps|
  {
    hide Enabled, Next, Init;
    if steps != [] {
      TraceIsRun(run[..|steps|], steps[..|steps| - 1], warningThreshold, limitThreshold);
      assert Moves(run[|run| - 2], run[|run| - 1]);
    }
  }

  /** The trace up to one of its steps, and that step. */
  lemma {:induction false} TraceUpTo(run: seq<State>, steps: seq<Step>, warningThreshold: nat,
      limitThreshold: nat, k: nat)
    requires IsTrace(run, steps, warningThreshold, limitThreshold) && k < |steps|
    ensures IsTrace(run[..k + 1], steps[..k], warningThreshold, limitThreshold)
    ensures Enabled(run[k], steps[k]) && run[k + 1] == Next(run[k], steps[k])
    decreases |steps|
  {
    hide Enabled, Next, Init;
    if k < |steps| - 1 {
      TraceUpTo(run[..|steps|], steps[..|steps| - 1], warningThreshold, limitThreshold, k);
      assert run[..|steps|][..k + 1] == run[..k + 1] && steps[..|steps| - 1][..k] == steps[..k];
    } else {
      assert run[..k + 1] == run[..|steps|] && steps[..k] == steps[..|steps| - 1];
    }
  }

  // ---- the answers ----

  /** Where the limiter decides, and that what it has decided stays. */
  lemma {:induction false} Decided(run: seq<State>, steps: seq<Step>, warningThreshold: nat,
      limitThreshold: nat, k: nat)
    requires IsTrace(run, steps, warningThreshold, limitThreshold) && k < |steps|
    requires steps[k] == TakeLimit || steps[k] == TakeCompletion
    ensures Recorded(run[k], run[0].response, steps[..k]) && Inv(run[k], run[0].response) && run[k].main.Selecting?
    ensures run[k].response == run[0].response
    ensures Enabled(run[k], steps[k])
    ensures var (s, s') := (Next(run[k], steps[k]), run[|steps|]);
            s'.response == s.response && s'.main == s.main && s'.limits == s.limits && s'.warnings == s.warnings
  {
    hide BufferRecorded, HandlerRecorded, IsTrace, ChannelOk, CountersOk, Next, Enabled;
    TraceLength(run, steps, warningThreshold, limitThreshold);
    TraceUpTo(run, steps, warningThreshold, limitThreshold, k);
    TraceRecorded(run[..k + 1], steps[..k], warningThreshold, limitThreshold);
    TraceIsRun(run[..k + 1], steps[..k], warningThreshold, limitThreshold);
    RunInv(run[..k + 1], warningThreshold, limitThreshold);
    DecisionEnds(run[k], steps[k]);
    TraceIsRun(run, steps, warningThreshold, limitThreshold);
    OutcomeStays(run, warningThreshold, limitThreshold, k + 1);
  }

  lemma {:induction false} TraceLength(run: seq<State>, steps: seq<Step>, warningThreshold: nat, limitThreshold: nat)
    requires IsTrace(run, steps, warningThreshold, limitThreshold)
    ensures |run| == |steps| + 1
  {
  }

  lemma {:induction false} DecisionEnds(s: State, step: Step)
    requires Enabled(s, step) && (step == TakeLimit || step == TakeCompletion)
    ensures s.main.Selecting? && !Next(s, step).main.Selecting?
  {
  }

  /** An outcome and what has been counted with it stay. */
  lemma {:induction false} OutcomeStays(run: seq<State>, warningThreshold: nat, limitThreshold: nat, i: nat)
    requires IsRun(run, warningThreshold, limitThreshold) && i < |run| && !run[i].main.Selecting?
    ensures var (s, s') := (run[i], run[|run| - 1]);
            s'.response == s.response && s'.main == s.main && s'.limits == s.limits && s'.warnings == s.warnings
  {
    hide Enabled, Next, ChannelOk, CountersOk, ResponseOk, Init;
    if i < |run| - 1 {
      var (front, s) := (run[..|run| - 1], run[|run| - 2]);
      OutcomeStays(front, warningThreshold, limitThreshold, i);
      RunInv(front, warningThreshold, limitThreshold);
      var step :| Enabled(s, step) && run[|run| - 1] == Next(s, step);
      OutcomeFinal(s, step);
    }
  }

  /** Without a decision nothing has been answered and nothing counted. */
  lemma {:induction false} Undecided(run: seq<State>, steps: seq<Step>, warningThreshold: nat, limitThreshold: nat)
    requires IsTrace(run, steps, warningThreshold, limitThreshold)
    requires TakeLimit !in steps && TakeCompletion !in steps
    ensures var s := run[|steps|]; s.response == run[0].response && s.limits == 0 && s.warnings == 0
  {
    hide BufferRecorded, HandlerRecorded, ChannelOk, Init;
    TraceRecorded(run, steps, warningThreshold, limitThreshold);
    TraceIsRun(run, steps, warningThreshold, limitThreshold);
    RunInv(run, warningThreshold, limitThreshold);
  }

  /** Running into the limit: the client is told so, unless it has left before. */
  lemma {:induction false} LimitAnswer(run: seq<State>, steps: seq<Step>, warningThreshold: nat,
      limitThreshold: nat, k: nat)
    requires IsTrace(run, steps, warningThreshold, limitThreshold) && k < |steps| && steps[k] == TakeLimit
    ensures var (s, initial, gone) := (run[|steps|], run[0].response, ClientLeaves in steps[..k]);
            && s.limits == 1 && s.warnings == 0
            && (run[0].mode.Http? && !gone ==> s.response == initial.(status := 504))
            && (run[0].mode.Http? && gone ==> s.response == initial)
            && (run[0].mode.Rpc? ==> s.response == initial.(result := if gone then ContextError else LimitExceeded))
  {
    hide BufferRecorded, HandlerRecorded, ChannelOk, IsTrace;
    TraceLength(run, steps, warningThreshold, limitThreshold);
    Decided(run, steps, warningThreshold, limitThreshold, k);
    SameMode(run, steps, warningThreshold, limitThreshold, k);
  }

  lemma {:induction false} SameMode(run: seq<State>, steps: seq<Step>, warningThreshold: nat,
      limitThreshold: nat, k: nat)
    requires IsTrace(run, steps, warningThreshold, limitThreshold) && k <= |steps|
    ensures run[k].mode == run[0].mode && run[0].response.status == 0 && run[0].response.body == []
    decreases |steps|
  {
    hide Enabled;
    if steps != [] {
      SameMode(run[..|steps|], steps[..|steps| - 1], warningThreshold, limitThreshold, if k < |steps| then k
        else k - 1);
    }
  }

  /** Completing a JSON-RPC call: its value, or an internal issue after a panic. */
  lemma {:induction false} CallAnswer(run: seq<State>, steps: seq<Step>, warningThreshold: nat,
      limitThreshold: nat, k: nat)
    requires IsTrace(run, steps, warningThreshold, limitThreshold) && k < |steps| && steps[k] == TakeCompletion
    requires run[0].mode.Rpc?
    ensures var (s, initial) := (run[|steps|], run[0].response);
            && s.limits == 0 && s.warnings == (if TakeWarning in steps[..k] then 1 else 0)
            && (forall d :: Return(d) in steps[..k] ==> s.response == initial.(result := Result(d)))
            && (Panic in steps[..k] ==> s.response == initial.(result := InternalIssue))
            && (Panic in steps[..k] || exists d :: Return(d) in steps[..k])
  {
    hide BufferRecorded, IsTrace, Afterwards;
    TraceLength(run, steps, warningThreshold, limitThreshold);
    Decided(run, steps, warningThreshold, limitThreshold, k);
    SameMode(run, steps, warningThreshold, limitThreshold, k);
    EndedWhenReady(run[k]);
    if run[k].handler.how.Returned? { assert Return(run[k].handler.how.data) in steps[..k]; }
  }

  /**
   Completing an HTTP request: after a panic an internal error. Otherwise the last status and the last value of every
   header that the handler has set, and everything it has written, unless the client has left before.
   */
  lemma {:induction false} RequestAnswer(run: seq<State>, steps: seq<Step>, warningThreshold: nat,
      limitThreshold: nat, k: nat)
    requires IsTrace(run, steps, warningThreshold, limitThreshold) && k < |steps| && steps[k] == TakeCompletion
    requires run[0].mode.Http?
    ensures var (s, initial, gone) := (run[|steps|], run[0].response, ClientLeaves in steps[..k]);
            && s.limits == 0 && s.warnings == (if TakeWarning in steps[..k] then 1 else 0)
            && (Panic in steps[..k] || exists d :: Return(d) in steps[..k])
            && (Panic in steps[..k] ==> s.response == initial.(status := 500))
            && (forall d :: Return(d) in steps[..k] ==>
                  && s.response.body == (if gone then [] else Output(steps[..k]))
                  && LastStatus(steps[..k], s.response.status)
                  && HeadersAre(steps[..k], initial.header, s.response.header)
                  && s.response.result == initial.result)
  {
    hide IsTrace, Afterwards, LastStatus, HeadersAre, Output;
    TraceLength(run, steps, warningThreshold, limitThreshold);
    Decided(run, steps, warningThreshold, limitThreshold, k);
    SameMode(run, steps, warningThreshold, limitThreshold, k);
    EndedWhenReady(run[k]);
    if run[k].handler.how.Returned? { assert Return(run[k].handler.how.data) in steps[..k]; }
  }

  lemma {:induction false} EndedWhenReady(s: State)
    requires ChannelOk(s) && Ready(s.channel) && s.main.Selecting?
    ensures s.handler.Ended?
    ensures var message := if s.channel.items != [] then Some(s.channel.items[0]) else None;
            message == match (s.mode, s.handler.how)
                       case (Http, Returned(_)) => None
                       case (Http, Panicked) => Some(PanicTrace)
                       case (Rpc, Returned(data)) => Some(Value(data))
                       case (Rpc, Panicked) => None
  {
  }

  /** Nothing is written, set or returned once the handler has ended. */
  lemma {:induction false} NothingAfterwards(run: seq<State>, steps: seq<Step>, warningThreshold: nat,
      limitThreshold: nat,
      k: nat)
    requires IsTrace(run, steps, warningThreshold, limitThreshold) && k < |steps|
    requires Panic in steps[..k] || exists d :: Return(d) in steps[..k]
    ensures !steps[k].Write? && !steps[k].SetStatus? && !steps[k].SetHeader? && !steps[k].Return? && !steps[k].Panic?
  {
    hide BufferRecorded, MainRecorded, IsTrace;
    TraceLength(run, steps, warningThreshold, limitThreshold);
    TraceUpTo(run, steps, warningThreshold, limitThreshold, k);
    TraceRecorded(run[..k + 1], steps[..k], warningThreshold, limitThreshold);
  }

  /** The timers that the thresholds create, and what that means for the outcomes. */
  lemma {:induction false} Timers(run: seq<State>, steps: seq<Step>, warningThreshold: nat, limitThreshold: nat)
    requires IsTrace(run, steps, warningThreshold, limitThreshold)
    ensures Enabled(run[0], LimitFires) <==> limitThreshold != 0
    ensures Enabled(run[0], WarningFires) <==> 0 < warningThreshold < limitThreshold
    ensures TakeLimit in steps ==> limitThreshold != 0
    ensures TakeWarning in steps ==> 0 < warningThreshold < limitThreshold
    ensures run[|steps|].limit.NoTimer? <==> limitThreshold == 0
    ensures run[|steps|].warning.NoTimer? <==> !(0 < warningThreshold < limitThreshold)
    decreases |steps|
  {
    if steps != [] {
      var (front, step) := (steps[..|steps| - 1], steps[|steps| - 1]);
      assert steps == front + [step];
      Timers(run[..|steps|], front, warningThreshold, limitThreshold);
      NextIn(front, step, TakeLimit);
      NextIn(front, step, TakeWarning);
    }
  }
}
