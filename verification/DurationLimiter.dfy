/**
 The duration limiter (cmd/stellar-rpc/internal/network/requestdurationlimiter.go): one request, whose handler
 runs in its own goroutine against a buffer, while the limiter waits for two timers and a completion channel.
 Each event can come at any time. HTTP requests are answered through a response writer, JSON-RPC ones by a value.
 */
module DurationLimiter {
  import opened Wrappers

  type Bytes = seq<bv8>
  type Headers = map<string, string>

  datatype Mode = Http | Rpc

  /** A timer channel: never created, running, ready to be received from, or received from. */
  datatype Timer = NoTimer | Armed | Due | Taken

  datatype Message = PanicTrace | Value(data: Bytes)

  /** What the goroutine still has to do with the completion channel. */
  datatype ChannelOp = Send(message: Message) | Close

  datatype HowItEnded = Returned(data: Bytes) | Panicked

  /** The handler runs, or has ended and a number of its channel operations are left. */
  datatype Handler = Serving | Ended(how: HowItEnded, left: nat)

  datatype Channel = Channel(items: seq<Message>, closed: bool)

  const CAPACITY := 1

  /** What the handler writes to; a status of 0 was never set. */
  datatype Buffer = Buffer(header: Headers, status: nat, body: Bytes)

  datatype RpcResult = Pending | Result(data: Bytes) | LimitExceeded | ContextError | InternalIssue

  datatype Response = Response(header: Headers, status: nat, body: Bytes, result: RpcResult)

  /** The limiter's own loop: selecting, or done for one of the two reasons. */
  datatype Main = Selecting(warn: bool) | Limited | Completed(message: Option<Message>)

  datatype State = State(
    mode: Mode, main: Main, warning: Timer, limit: Timer, handler: Handler, buffer: Buffer, channel: Channel,
    gone: bool, response: Response, warnings: nat, limits: nat)

  datatype Step =
    | WarningFires
    | LimitFires
    | TakeWarning
    | TakeLimit
    | TakeCompletion
    | SetHeader(key: string, value: string)
    | SetStatus(status: nat)
    | Write(bytes: Bytes)
    | Return(data: Bytes)
    | Panic
    | RunOp
    | ClientLeaves

  /** What happens on the channel after the handler: a trace or a plain close, a value and a close. */
  function Afterwards(mode: Mode, how: HowItEnded): seq<ChannelOp> {
    match (mode, how)
    case (Http, Returned(_)) => [Close]
    case (Http, Panicked) => [Send(PanicTrace)]
    case (Rpc, Returned(data)) => [Send(Value(data)), Close]
    case (Rpc, Panicked) => [Close]
  }

  /** The operation that comes next when that many are left. */
  function OpAt(mode: Mode, how: HowItEnded, left: nat): ChannelOp
    requires 0 < left <= |Afterwards(mode, how)|
  {
    Afterwards(mode, how)[|Afterwards(mode, how)| - left]
  }

  predicate Ready(c: Channel) { c.items != [] || c.closed }

  /** A send goes ahead only while the channel has room. */
  predicate CanRun(c: Channel, op: ChannelOp) { op.Send? ==> |c.items| < CAPACITY && !c.closed }

  predicate Enabled(s: State, step: Step) {
    match step
    case WarningFires => s.warning.Armed?
    case LimitFires => s.limit.Armed?
    case TakeWarning => s.main.Selecting? && s.warning.Due?
    case TakeLimit => s.main.Selecting? && s.limit.Due?
    case TakeCompletion => s.main.Selecting? && Ready(s.channel)
    case SetHeader(_, _) => s.handler.Serving?
    case SetStatus(_) => s.handler.Serving?
    case Write(_) => s.handler.Serving?
    case Return(_) => s.handler.Serving?
    case Panic => s.handler.Serving?
    case RunOp =>
      && s.handler.Ended? && 0 < s.handler.left <= |Afterwards(s.mode, s.handler.how)|
      && CanRun(s.channel, OpAt(s.mode, s.handler.how, s.handler.left))
    case ClientLeaves => !s.gone
  }

  /** WriteOut: headers always, a status if one was set, the body unless the client has gone. */
  function WrittenOut(b: Buffer, gone: bool, r: Response): Response {
    Response(b.header,
             if b.status != 0 then b.status else r.status,
             if b.body != [] && !gone then b.body else r.body,
             r.result)
  }

  function Limit(s: State): Response {
    if s.mode.Rpc? then s.response.(result := if s.gone then ContextError else LimitExceeded)
    else if s.gone then s.response else s.response.(status := 504)
  }

  function Completion(s: State, message: Option<Message>): Response {
    match (s.mode, message)
    case (Http, None) => WrittenOut(s.buffer, s.gone, s.response)
    case (Http, Some(_)) => s.response.(status := 500)
    case (Rpc, Some(Value(data))) => s.response.(result := Result(data))
    case (Rpc, _) => s.response.(result := InternalIssue)
  }

  function Next(s: State, step: Step): State
    requires Enabled(s, step)
  {
    match step
    case WarningFires => s.(warning := Due)
    case LimitFires => s.(limit := Due)
    case TakeWarning => s.(warning := Taken, main := Selecting(true))
    case TakeLimit => s.(limit := Taken, main := Limited, limits := s.limits + 1, response := Limit(s))
    case TakeCompletion =>
      var message := if s.channel.items != [] then Some(s.channel.items[0]) else None;
      var rest := if s.channel.items != [] then s.channel.items[1..] else [];
      s.(channel := s.channel.(items := rest), main := Completed(message),
         warnings := s.warnings + if s.main.warn then 1 else 0, response := Completion(s, message))
    case SetHeader(key, value) => s.(buffer := s.buffer.(header := s.buffer.header[key := value]))
    case SetStatus(status) => s.(buffer := s.buffer.(status := status))
    case Write(bytes) => s.(buffer := s.buffer.(body := s.buffer.body + bytes))
    case Return(data) => s.(handler := Ended(Returned(data), |Afterwards(s.mode, Returned(data))|))
    case Panic => s.(handler := Ended(Panicked, |Afterwards(s.mode, Panicked)|))
    case RunOp =>
      var rest := s.handler.(left := s.handler.left - 1);
      (match OpAt(s.mode, s.handler.how, s.handler.left)
       case Send(message) => s.(handler := rest, channel := s.channel.(items := s.channel.items + [message]))
       case Close => s.(handler := rest, channel := s.channel.(closed := true)))
    case ClientLeaves => s.(gone := true)
  }

  /** A limited request: the thresholds create the timers, and the buffer starts with the response's headers. */
  predicate Init(s: State, warningThreshold: nat, limitThreshold: nat) {
    && s.main == Selecting(false) && s.handler == Serving && s.channel == Channel([], false)
    && s.warning == (if warningThreshold != 0 && warningThreshold < limitThreshold then Armed else NoTimer)
    && s.limit == (if limitThreshold != 0 then Armed else NoTimer)
    && s.buffer == Buffer(s.response.header, 0, []) && s.response.status == 0 && s.response.body == []
    && s.response.result == Pending && s.warnings == s.limits == 0 && !s.gone
  }

  // ---- the invariant ----

  /** What has been put on the channel when that many operations are left. */
  function SoFar(mode: Mode, how: HowItEnded, left: nat): Channel {
    match (mode, how)
    case (Http, Panicked) => Channel(if left == 0 then [PanicTrace] else [], false)
    case (Rpc, Returned(data)) => Channel(if left <= 1 then [Value(data)] else [], left == 0)
    case _ => Channel([], left == 0)
  }

  /** How much of the goroutine's channel work is done, what the channel holds, and what was received. */
  predicate ChannelOk(s: State) {
    match s.handler
    case Serving => s.channel == Channel([], false) && !s.main.Completed?
    case Ended(how, left) =>
      left <= |Afterwards(s.mode, how)| && ChannelIs(SoFar(s.mode, how, left), s.main, s.channel)
  }

  /** What is left of what has been put on the channel. */
  predicate ChannelIs(soFar: Channel, main: Main, c: Channel) {
    match main
    case Completed(None) => soFar == c == Channel([], true)
    case Completed(Some(m)) => soFar.items == [m] && c == Channel([], soFar.closed)
    case _ => c == soFar
  }

  predicate CountersOk(s: State) {
    && s.limits == (if s.main.Limited? then 1 else 0)
    && s.warnings <= (if s.main.Completed? then 1 else 0)
    && (s.warnings == 1 || (s.main.Selecting? && s.main.warn) ==> s.warning.Taken?)
    && (s.main.Limited? <==> s.limit.Taken?)
  }

  /**
   The response is the untouched one, or what the only outcome made of it; g is whether the client had gone by
   then.
   */
  predicate ResponseIs(s: State, initial: Response, g: bool) {
    (g ==> s.gone) &&
    match s.main
    case Selecting(_) => s.response == initial
    case Limited => s.response == Limit(s.(gone := g, response := initial))
    case Completed(m) => s.response == Completion(s.(gone := g, response := initial), m)
  }

  predicate ResponseOk(s: State, initial: Response) {
    ResponseIs(s, initial, false) || ResponseIs(s, initial, true)
  }

  predicate Inv(s: State, initial: Response) { ChannelOk(s) && CountersOk(s) && ResponseOk(s, initial) }

  lemma {:induction false} OpKeepsChannel(s: State)
    requires ChannelOk(s) && Enabled(s, RunOp)
    ensures ChannelOk(Next(s, RunOp))
  {
    hide Afterwards, SoFar, ChannelIs;
    var (how, left) := (s.handler.how, s.handler.left);
    SoFarNext(s.mode, how, left);
    OpRuns(s);
    hide Next, Enabled, Applied, OpAt;
    AppliedIs(SoFar(s.mode, how, left), s.main, s.channel, OpAt(s.mode, how, left));
  }

  lemma {:induction false} OpRuns(s: State)
    requires Enabled(s, RunOp)
    ensures Next(s, RunOp)
         == s.(handler := Ended(s.handler.how, s.handler.left - 1),
               channel := Applied(s.channel, OpAt(s.mode, s.handler.how, s.handler.left)))
  {
  }

  lemma {:induction false} AppliedIs(soFar: Channel, main: Main, c: Channel, op: ChannelOp)
    requires ChannelIs(soFar, main, c) && !soFar.closed && (op.Send? ==> soFar.items == [])
    ensures ChannelIs(Applied(soFar, op), main, Applied(c, op))
  {
  }

  function Applied(c: Channel, op: ChannelOp): Channel {
    match op case Send(m) => c.(items := c.items + [m]) case Close => c.(closed := true)
  }

  /** One operation takes the channel further; the value comes before the close. */
  lemma {:induction false} SoFarNext(mode: Mode, how: HowItEnded, left: nat)
    requires 0 < left <= |Afterwards(mode, how)|
    ensures var (soFar, op) := (SoFar(mode, how, left), OpAt(mode, how, left));
            && SoFar(mode, how, left - 1) == Applied(soFar, op)
            && (op.Send? ==> soFar.items == []) && !soFar.closed
  {
    var none: seq<Message> := [];
    assert none + [PanicTrace] == [PanicTrace];
    if how.Returned? { assert none + [Value(how.data)] == [Value(how.data)]; }
  }

  lemma {:induction false} ReceivingKeepsChannel(s: State)
    requires ChannelOk(s) && Enabled(s, TakeCompletion)
    ensures ChannelOk(Next(s, TakeCompletion))
  {
  }

  lemma {:induction false} EndingKeepsChannel(s: State, how: HowItEnded)
    requires ChannelOk(s) && s.handler.Serving?
    ensures ChannelOk(s.(handler := Ended(how, |Afterwards(s.mode, how)|)))
  {
  }

  lemma {:induction false} ChannelKept(s: State, step: Step)
    requires ChannelOk(s) && Enabled(s, step)
    ensures ChannelOk(Next(s, step))
  {
    match step
    case RunOp => OpKeepsChannel(s);
    case TakeCompletion => ReceivingKeepsChannel(s);
    case Return(data) => EndingKeepsChannel(s, Returned(data));
    case Panic => EndingKeepsChannel(s, Panicked);
    case _ =>
  }

  lemma {:induction false} CountersKept(s: State, step: Step)
    requires ChannelOk(s) && CountersOk(s) && Enabled(s, step)
    ensures CountersOk(Next(s, step))
  {
    hide ChannelOk, Completion, Limit, Afterwards;
  }

  /** Whatever the handler still writes, an outcome is final; only an undecided limiter answers. */
  lemma {:induction false} OutcomeFinal(s: State, step: Step)
    requires ChannelOk(s) && Enabled(s, step) && !s.main.Selecting?
    ensures var s' := Next(s, step);
            s'.main == s.main && s'.response == s.response && s'.warnings == s.warnings && s'.limits == s.limits
  {
    hide ChannelOk, Completion, Limit, Afterwards;
  }

  lemma {:induction false} ResponseKept(s: State, step: Step, initial: Response)
    requires ChannelOk(s) && ResponseOk(s, initial) && Enabled(s, step)
    ensures ResponseOk(Next(s, step), initial)
  {
    var g := if ResponseIs(s, initial, false) then false else true;
    if s.main.Selecting? {
      var g' := s.gone;
      assert ResponseIs(Next(s, step), initial, g');
    } else {
      OutcomeFinal(s, step);
      OutcomeInputs(s, step);
      assert ResponseIs(Next(s, step), initial, g);
    }
  }

  /** What the outcome was made from stays as it is. */
  lemma {:induction false} OutcomeInputs(s: State, step: Step)
    requires ChannelOk(s) && Enabled(s, step) && !s.main.Selecting?
    ensures Next(s, step).mode == s.mode && (s.gone ==> Next(s, step).gone)
    ensures s.main.Completed? ==> Next(s, step).buffer == s.buffer
  {
  }

  lemma {:induction false} OpsRun(s: State)
    requires ChannelOk(s) && s.handler.Ended? && s.handler.left > 0
    ensures Enabled(s, RunOp)
  {
  }

  // ---- runs ----

  ghost predicate Moves(s: State, s': State) { exists step :: Enabled(s, step) && s' == Next(s, step) }

  ghost predicate IsRun(run: seq<State>, warningThreshold: nat, limitThreshold: nat) {
    run != [] && if |run| == 1 then Init(run[0], warningThreshold, limitThreshold)
                 else IsRun(run[..|run| - 1], warningThreshold, limitThreshold) && Moves(run[|run| - 2], run[|run| - 1])
  }

  lemma {:induction false} RunInv(run: seq<State>, warningThreshold: nat, limitThreshold: nat)
    requires IsRun(run, warningThreshold, limitThreshold)
    ensures Inv(run[|run| - 1], run[0].response)
  {
    hide Enabled, Next, ChannelOk, CountersOk, ResponseOk;
    if |run| > 1 {
      var s := run[|run| - 2];
      RunInv(run[..|run| - 1], warningThreshold, limitThreshold);
      var step :| Enabled(s, step) && run[|run| - 1] == Next(s, step);
      ChannelKept(s, step);
      CountersKept(s, step);
      ResponseKept(s, step, run[0].response);
    } else {
      InitInv(run[0], warningThreshold, limitThreshold);
    }
  }

  lemma {:induction false} InitInv(s: State, warningThreshold: nat, limitThreshold: nat)
    requires Init(s, warningThreshold, limitThreshold)
    ensures Inv(s, s.response)
  {
    assert ResponseIs(s, s.response, false);
  }

  /**
   In every schedule: nothing is answered before the outcome. Running into the limit and completing exclude each
   other, in the answer and in the counters. A completed HTTP request carries everything the handler wrote, as it
   has finished by then, and a completed call its value; a panic is told from a normal end.
   */
  lemma {:induction false} OneOutcome(run: seq<State>, warningThreshold: nat, limitThreshold: nat)
    requires IsRun(run, warningThreshold, limitThreshold)
    ensures var (s, initial) := (run[|run| - 1], run[0].response);
            && (s.main.Selecting? ==> s.response == initial)
            && s.limits + s.warnings <= 1 && (s.limits == 1 <==> s.main.Limited?)
              && (s.warnings == 1 ==> s.main.Completed?)
            && (s.main.Limited? && !s.gone ==>
                  s.response == if s.mode.Http? then initial.(status := 504) else initial.(result := LimitExceeded))
            && (s.main.Completed? ==>
                  && s.handler.Ended?
                  && (s.mode.Http? && s.handler.how.Returned? && !s.gone ==>
                    s.response == WrittenOut(s.buffer, false, initial))
                  && (s.mode.Http? && s.handler.how.Panicked? ==> s.response == initial.(status := 500))
                  && (s.mode.Rpc? && s.handler.how.Returned? ==>
                    s.response == initial.(result := Result(s.handler.how.data)))
                  && (s.mode.Rpc? && s.handler.how.Panicked? ==> s.response == initial.(result := InternalIssue)))
  {
    RunInv(run, warningThreshold, limitThreshold);
    CompletedHow(run[|run| - 1]);
  }

  /** What was received tells how the handler ended. */
  lemma {:induction false} CompletedHow(s: State)
    requires ChannelOk(s)
    ensures s.main.Completed? ==>
      && s.handler.Ended?
      && s.main.message == match (s.mode, s.handler.how)
                           case (Http, Returned(_)) => None
                           case (Http, Panicked) => Some(PanicTrace)
                           case (Rpc, Returned(data)) => Some(Value(data))
                           case (Rpc, Panicked) => None
  {
  }

  /** At no point of any schedule does the handler's goroutine block on the completion channel. */
  lemma {:induction false} NeverBlocks(run: seq<State>, warningThreshold: nat, limitThreshold: nat)
    requires IsRun(run, warningThreshold, limitThreshold)
    ensures var s := run[|run| - 1];
            s.handler.Ended? && s.handler.left > 0 ==> Enabled(s, RunOp)
  {
    var s := run[|run| - 1];
    RunInv(run, warningThreshold, limitThreshold);
    if s.handler.Ended? && s.handler.left > 0 { OpsRun(s); }
  }

  /** Once there is an outcome, no later output of the handler changes the response. */
  lemma {:induction false} LateOutputLost(run: seq<State>, warningThreshold: nat, limitThreshold: nat, i: nat)
    requires IsRun(run, warningThreshold, limitThreshold) && i < |run| && !run[i].main.Selecting?
    ensures run[|run| - 1].response == run[i].response && run[|run| - 1].main == run[i].main
  {
    hide Enabled, Next, ChannelOk, CountersOk, ResponseOk, Init;
    if i < |run| - 1 {
      var (front, s) := (run[..|run| - 1], run[|run| - 2]);
      LateOutputLost(front, warningThreshold, limitThreshold, i);
      RunInv(front, warningThreshold, limitThreshold);
      var step :| Enabled(s, step) && run[|run| - 1] == Next(s, step);
      OutcomeFinal(s, step);
    }
  }
}
