/** The course of an agent run as a function of its environment: what every round decides,
    counts, emits and observes, how the run ends, and what every run keeps. */
module AgentCourse {
  import opened Text
  import opened FinalAnswer
  import opened ToolEvents
  import opened Runtime

  datatype Config = Config(maxSteps: nat, maxToolCalls: nat, threshold: nat)

  predicate ValidConfig(cfg: Config) { cfg.maxSteps > 0 && cfg.threshold > 0 }

  datatype Status = Completed | Stopped | Failed

  datatype Reason =
    | FinalAnswerGiven | ValidationRejected | MaxStepsReached | MaxToolCallsReached
    | TimedOut | RepeatedAction | StepperFailed | ToolFailed

  function Code(r: Reason): string
  {
    match r
    case FinalAnswerGiven => "FINAL_ANSWER"
    case ValidationRejected => "FINAL_ANSWER_VALIDATION_FAILED"
    case MaxStepsReached => "MAX_STEPS_REACHED"
    case MaxToolCallsReached => "MAX_TOOL_CALLS_REACHED"
    case TimedOut => "AGENT_TIMEOUT"
    case RepeatedAction => "REPEATED_ACTION_DETECTED"
    case StepperFailed => "AGENT_STEPPER_FAILED"
    case ToolFailed => "AGENT_TOOL_FAILED"
  }

  function RejectionCode(r: Rejection): string
  {
    match r
    case ValidationFailed => "AGENT_FINAL_ANSWER_VALIDATION_FAILED"
    case UnsupportedCitation => "AGENT_FINAL_ANSWER_UNSUPPORTED_CITATION"
    case FailedToolReference => "AGENT_FINAL_ANSWER_FAILED_TOOL_REFERENCE"
  }

  datatype RunResult = RunResult(
    status: Status, reason: Reason, steps: nat, toolCalls: nat,
    answer: Option<string>, citations: seq<Citation>, errorCode: Option<string>,
    observations: seq<Observation>)

  /** A result is completed exactly when its reason is a final answer, when it carries an
      answer, and when it carries no error code. */
  predicate Consistent(r: RunResult)
  {
    && (r.status == Completed <==> r.reason == FinalAnswerGiven)
    && (r.status == Completed <==> r.answer.Some?)
    && (r.status == Completed <==> r.errorCode.None?)
    && (r.status != Completed ==> r.citations == [])
  }

  /** What the callers of `_finish` pass together: a completion comes with its answer and
      without an error, everything else without an answer. */
  predicate Agree(status: Status, reason: Reason, answer: Option<string>, cs: seq<Citation>, error: Option<string>)
  {
    && (status == Completed <==> reason == FinalAnswerGiven)
    && (status == Completed <==> answer.Some?)
    && (status == Completed ==> error.None?) && (status != Completed ==> cs == [])
  }

  datatype Decision = UseTool(action: Action) | Answer(text: string, citations: seq<Citation>)

  datatype StepperEnd = Decides(decision: Decision) | StepperTimesOut | StepperRaises | StepperCancelled
  datatype ToolEnd = Returns(output: Output) | RaisesToolError | RaisesOther | ToolTimesOut | ToolCancelled
  datatype ValidatorEnd =
    | Runs | BadRequest | NoTimeLeft | ValidatorTimesOut | ValidatorRaises | ValidatorCancelled | ValidatorEscapes

  /** How the emission of an event, or the result and its audit, goes. What raises is the
      making of the event or result; a failing sink or audit is swallowed. */
  datatype Aside = Passes | IsCancelled | Raises

  /** Where in a round the run is suspended and resumed from a snapshot. */
  datatype Resumptions = Resumptions(deciding: bool, admitting: bool, dispatching: bool, dispatched: bool)

  /** Everything outside the loop's control in one round: whether the deadline has passed
      at each check, whether the state, the action's hash or the observation can be built,
      how each awaited operation ends, and where the run is suspended and resumed. */
  datatype Round = Round(
    resumed: Resumptions, late: bool, stateRaises: bool, stepper: StepperEnd,
    toolLate: bool, hashRaises: bool, refusal: Aside, call: Aside, dispatchLate: bool,
    tool: ToolEnd, summaryRaises: bool, result: Aside, validator: ValidatorEnd, finish: Aside)

  /** How a step of the loop leaves it: still running, with a result, cancelled, or by an
      exception the loop does not handle. */
  datatype Halt = Running | Finished(result: RunResult) | Interrupted | Raised

  /** Every citation of a result is evidence from a search execution of the run. */
  predicate GroundedIn(rules: Rules, r: RunResult, log: seq<Execution>)
  {
    forall i :: 0 <= i < |r.citations| ==> Evidenced(rules, log, r.citations[i].key)
  }

  predicate Evidenced(rules: Rules, log: seq<Execution>, key: EvidenceKey)
  {
    exists k :: 0 <= k < |log| && Evidences(rules, log[k], key)
  }

  predicate Summarises(rules: Rules, obs: seq<Observation>, log: seq<Execution>)
  {
    |obs| == |log| && forall k :: 0 <= k < |obs| ==> obs[k] == Summary(rules, log[k])
  }

  /** An accepted answer's citations come from executions of this run. */
  lemma ValidIsGrounded(rules: Rules, answer: string, cs: seq<Citation>, obs: seq<Observation>, log: seq<Execution>)
    requires Summarises(rules, obs, log)
    requires ValidationOf(rules.text, answer, cs, obs).Valid?
    ensures forall i :: 0 <= i < |cs| ==> Evidenced(rules, log, cs[i].key)
  {
    ValidExactlyWhenGrounded(rules.text, answer, cs, obs);
    forall i | 0 <= i < |cs| ensures Evidenced(rules, log, cs[i].key) {
      assert Grounded(cs[i], obs);
      var k :| 0 <= k < |obs| && Refers(cs[i], k) && Usable(obs[k]) && Mentions(obs[k], cs[i]);
      MentionIsEvidence(rules, log[k], cs[i]);
      assert Evidences(rules, log[k], cs[i].key);
    }
  }

  // ---- the course of a run ----

  /** The state of a run: its counters, the actions dispatched and observed, whether it was
      stopped on a repeat, its observations, the executions behind them, and its attempts. */
  datatype Course = Course(
    steps: nat, toolCalls: nat, dispatched: multiset<Action>, seen: multiset<Action>, repeated: bool,
    obs: seq<Observation>, log: seq<Execution>, attempts: seq<Attempt>)

  const START := Course(0, 0, multiset{}, multiset{}, false, [], [], [])

  /** A course, and how it was left. */
  datatype Played = Played(course: Course, halt: Halt)

  function Through(a: Aside, h: Halt): Halt
  {
    match a case Passes => h case IsCancelled => Interrupted case Raises => Raised
  }

  /** `_finish`: a missing error code is filled in for every reason but an answer. */
  function FinishAt(c: Course, status: Status, reason: Reason, answer: Option<string>, cs: seq<Citation>,
                    error: Option<string>): (r: RunResult)
    ensures r.errorCode.None? <==> error.None? && reason == FinalAnswerGiven
    ensures Agree(status, reason, answer, cs, error) ==> Consistent(r)
  {
    RunResult(status, reason, c.steps, c.toolCalls, answer, cs,
              if error.None? && reason != FinalAnswerGiven then Some(Code(reason)) else error, c.obs)
  }

  function StopAt(c: Course, status: Status, reason: Reason): RunResult
  {
    FinishAt(c, status, reason, None, [], None)
  }

  function Stopping(c: Course, r: Round, status: Status, reason: Reason): Played
  {
    Played(c, Through(r.finish, Finished(StopAt(c, status, reason))))
  }

  function Rejecting(c: Course, r: Round, e: Rejection): Played
  {
    Played(c, Through(r.finish, Finished(FinishAt(c, Failed, ValidationRejected, None, [], Some(RejectionCode(e))))))
  }

  /** `_validate_result` with the strict validator. */
  function Answering(rules: Rules, c: Course, r: Round, text: string, cs: seq<Citation>): Played
  {
    match r.validator
    case Runs =>
      (match ValidationOf(rules.text, rules.strip(text), cs, c.obs)
       case Valid(answer, citations) =>
         Played(c, Through(r.finish, Finished(FinishAt(c, Completed, FinalAnswerGiven, Some(answer), citations, None))))
       case Invalid(e) => Rejecting(c, r, e))
    case BadRequest => Rejecting(c, r, ValidationFailed)
    case ValidatorRaises => Rejecting(c, r, ValidationFailed)
    case NoTimeLeft => Stopping(c, r, Stopped, TimedOut)
    case ValidatorTimesOut => Stopping(c, r, Stopped, TimedOut)
    case ValidatorCancelled => Played(c, Interrupted)
    case ValidatorEscapes => Played(c, Raised)
  }

  function Attempted(c: Course, shape: Shape, call: nat): Course
  {
    c.(attempts := c.attempts + [Attempt(shape, c.steps, call)])
  }

  /** A call refused before it started: a lone result event, and the run stops. */
  function Refusing(c: Course, r: Round, reason: Reason): Played
  {
    if r.refusal == Raises then Played(c, Raised)
    else
      var c' := Attempted(c, ResultOnly, c.toolCalls + 1);
      if r.refusal == IsCancelled then Played(c', Interrupted) else Stopping(c', r, Stopped, reason)
  }

  function WithResult(c: Course): Course { c.(attempts := CompleteLast(c.attempts)) }

  /** The dispatch went wrong: its result event, and the run ends. */
  function Failing(c: Course, r: Round, status: Status, reason: Reason): Played
  {
    if r.result == Raises then Played(c, Raised)
    else if r.result == IsCancelled then Played(WithResult(c), Interrupted)
    else Stopping(WithResult(c), r, status, reason)
  }

  function Observed(rules: Rules, c: Course, e: Execution): Course
  {
    c.(obs := c.obs + [Summary(rules, e)], log := c.log + [e])
  }

  /** The tool returned: its result event, then its observation joins the run. */
  function Accepting(rules: Rules, c: Course, r: Round, e: Execution): Played
  {
    if r.summaryRaises || r.result == Raises then Played(c, Raised)
    else if r.result == IsCancelled then Played(WithResult(c), Interrupted)
    else
      var c' := Observed(rules, WithResult(c), e);
      if StatusOf(e.output) == Failure then Stopping(c', r, Failed, ToolFailed) else Played(c', Running)
  }

  /** `_execute_tool` from the dispatch on. */
  function Dispatching(rules: Rules, c: Course, r: Round, a: Action): Played
  {
    match r.tool
    case Returns(output) => Accepting(rules, c, r, Execution(a.tool, output))
    case RaisesToolError => Failing(c, r, Failed, ToolFailed)
    case RaisesOther => Failing(c, r, Failed, ToolFailed)
    case ToolTimesOut => Failing(c, r, Stopped, TimedOut)
    case ToolCancelled => Played(c, Interrupted)
  }

  function Noticed(c: Course, a: Action): Course { c.(seen := c.seen + multiset{a}) }

  function Counted(c: Course, a: Action): Course
  {
    c.(toolCalls := c.toolCalls + 1, dispatched := c.dispatched + multiset{a})
  }

  /** The call counts and its first event is emitted. */
  function Calling(rules: Rules, c: Course, r: Round, a: Action): Played
  {
    if r.call == Raises then Played(c, Raised)
    else
      var c' := Attempted(c, CallOnly, c.toolCalls);
      if r.call == IsCancelled then Played(c', Interrupted)
      else if r.dispatchLate then Stopping(c', r, Stopped, TimedOut)
      else Dispatching(rules, c', r, a)
  }

  /** `_execute_tool`: the tool budget, the deadline, repetition, then the call. */
  function Executing(cfg: Config, rules: Rules, c: Course, r: Round, a: Action): Played
  {
    if c.toolCalls >= cfg.maxToolCalls then Refusing(c, r, MaxToolCallsReached)
    else if r.toolLate then Stopping(c, r, Stopped, TimedOut)
    else if r.hashRaises then Played(c, Raised)
    else if c.seen[a] + 1 >= cfg.threshold then Refusing(Noticed(c, a).(repeated := true), r, RepeatedAction)
    else Calling(rules, Counted(Noticed(c, a), a), r, a)
  }

  predicate Decided(cfg: Config, c: Course, r: Round)
  {
    c.steps < cfg.maxSteps && !r.late && !r.stateRaises && r.stepper.Decides?
  }

  /** `_decide` without a decision. */
  function Undecided(cfg: Config, c: Course, r: Round): Played
  {
    if c.steps >= cfg.maxSteps then Stopping(c, r, Stopped, MaxStepsReached)
    else if r.late then Stopping(c, r, Stopped, TimedOut)
    else if r.stateRaises then Played(c, Raised)
    else if r.stepper.StepperTimesOut? then Stopping(c, r, Stopped, TimedOut)
    else if r.stepper.StepperRaises? then Stopping(c, r, Failed, StepperFailed)
    else Played(c, Interrupted)
  }

  function Following(cfg: Config, rules: Rules, c: Course, r: Round, d: Decision): Played
  {
    match d
    case Answer(text, cs) => Answering(rules, c, r, text, cs)
    case UseTool(a) => Executing(cfg, rules, c, r, a)
  }

  /** One turn of the loop. */
  function Playing(cfg: Config, rules: Rules, c: Course, r: Round): (p: Played)
    ensures p.halt.Running? ==> p.course.steps == c.steps + 1 <= cfg.maxSteps
  {
    if Decided(cfg, c, r) then Following(cfg, rules, c.(steps := c.steps + 1), r, r.stepper.decision)
    else Undecided(cfg, c, r)
  }

  /** `AgentRuntime.run`. */
  function RunFrom(cfg: Config, rules: Rules, env: nat -> Round, k: nat, c: Course): Played
    decreases cfg.maxSteps - c.steps
  {
    var p := Playing(cfg, rules, c, env(k));
    if p.halt.Running? then RunFrom(cfg, rules, env, k + 1, p.course) else p
  }

  lemma RunUnfolds(cfg: Config, rules: Rules, env: nat -> Round, k: nat, c: Course, p: Played)
    requires p == Playing(cfg, rules, c, env(k))
    ensures RunFrom(cfg, rules, env, k, c) == if p.halt.Running? then RunFrom(cfg, rules, env, k + 1, p.course) else p
    ensures p.halt.Running? ==> p.course.steps == c.steps + 1 <= cfg.maxSteps
  {
    hide Playing;
  }

  lemma PlayingUnfolds(cfg: Config, rules: Rules, c: Course, r: Round, p: Played)
    requires if Decided(cfg, c, r) then p == Following(cfg, rules, c.(steps := c.steps + 1), r, r.stepper.decision)
             else p == Undecided(cfg, c, r)
    ensures p == Playing(cfg, rules, c, r)
  {
    hide Following, Undecided;
  }

  lemma ExecutingUnfolds(cfg: Config, rules: Rules, c: Course, r: Round, a: Action, p: Played)
    requires c.toolCalls < cfg.maxToolCalls && !r.toolLate && !r.hashRaises && c.seen[a] + 1 < cfg.threshold
    requires p == Calling(rules, Counted(Noticed(c, a), a), r, a)
    ensures p == Executing(cfg, rules, c, r, a)
  {
    hide Calling;
  }

  lemma StepsStayWithin(cfg: Config, rules: Rules, c: Course, r: Round, p: Played)
    requires p == Playing(cfg, rules, c, r) && c.steps <= cfg.maxSteps
    ensures p.course.steps <= cfg.maxSteps
  {
  }

  // ---- what every round keeps ----

  ghost predicate Below(m: multiset<Action>, threshold: nat) { forall a :: m[a] < threshold }

  /** The tool reported that it failed. */
  predicate ReportsFailure(o: Output) { o.status == Some("failure") || o.status == Some("error") }

  predicate Successful(log: seq<Execution>)
  {
    forall k :: 0 <= k < |log| ==> !ReportsFailure(log[k].output)
  }

  predicate SuccessfulSoFar(log: seq<Execution>)
  {
    forall k :: 0 <= k < |log| - 1 ==> !ReportsFailure(log[k].output)
  }

  /** The budgets, the evidence behind the observations and the repeat counts. A run does not
      go on after a failed execution. */
  ghost predicate Core(cfg: Config, rules: Rules, c: Course)
  {
    && |c.obs| <= c.toolCalls <= c.steps <= cfg.maxSteps && c.toolCalls <= cfg.maxToolCalls
    && Summarises(rules, c.obs, c.log) && SuccessfulSoFar(c.log)
    && |c.dispatched| == c.toolCalls && Below(c.dispatched, cfg.threshold)
  }

  /** Between rounds every attempt is complete, every observed action dispatched, and every
      execution successful. */
  ghost predicate Good(cfg: Config, rules: Rules, c: Course)
  {
    && Core(cfg, rules, c) && c.seen == c.dispatched && !c.repeated && Complete(c.attempts, c.steps)
    && Successful(c.log)
  }

  /** At the end one attempt may be incomplete, and one action observed but refused. */
  ghost predicate Over(cfg: Config, rules: Rules, c: Course)
  {
    && Core(cfg, rules, c) && Orderly(c.attempts, c.steps)
    && |c.seen| == c.toolCalls + if c.repeated then 1 else 0
  }

  /** A result reports its course, is consistent, and is grounded in that course. */
  predicate Truthful(rules: Rules, p: Played)
  {
    p.halt.Finished? ==>
      && Consistent(p.halt.result) && GroundedIn(rules, p.halt.result, p.course.log)
      && p.halt.result.steps == p.course.steps && p.halt.result.toolCalls == p.course.toolCalls
      && p.halt.result.observations == p.course.obs
      && (p.course.repeated <==> p.halt.result.reason == RepeatedAction)
      && (p.halt.result.reason != ToolFailed ==> Successful(p.course.log))
  }

  /** A round left the run in order: over and truthful, or ready for another round. */
  ghost predicate InOrder(cfg: Config, rules: Rules, p: Played)
  {
    if p.halt.Running? then Good(cfg, rules, p.course) else Over(cfg, rules, p.course) && Truthful(rules, p)
  }

  /** Ready for an attempt in the current step. */
  ghost predicate Ready(cfg: Config, rules: Rules, c: Course)
  {
    && Core(cfg, rules, c) && c.seen == c.dispatched && !c.repeated
    && c.toolCalls < c.steps && Complete(c.attempts, c.steps - 1) && Successful(c.log)
  }

  lemma StoppingIsInOrder(cfg: Config, rules: Rules, c: Course, r: Round, status: Status, reason: Reason)
    requires Over(cfg, rules, c) && status != Completed && reason != FinalAnswerGiven
    requires (c.repeated <==> reason == RepeatedAction) && (Successful(c.log) || reason == ToolFailed)
    ensures InOrder(cfg, rules, Stopping(c, r, status, reason))
  {
  }

  lemma ReadyIsOver(cfg: Config, rules: Rules, c: Course)
    requires Ready(cfg, rules, c)
    ensures Over(cfg, rules, c)
  {
    CompleteIsOrderly(c.attempts, c.steps - 1, c.steps);
  }

  lemma AnsweringIsInOrder(cfg: Config, rules: Rules, c: Course, r: Round, text: string, cs: seq<Citation>)
    requires Ready(cfg, rules, c)
    ensures InOrder(cfg, rules, Answering(rules, c, r, text, cs))
  {
    hide Code, RejectionCode, Successful, SuccessfulSoFar, Below;
    ReadyIsOver(cfg, rules, c);
    if ValidationOf(rules.text, rules.strip(text), cs, c.obs).Valid? {
      ValidIsGrounded(rules, rules.strip(text), cs, c.obs, c.log);
    }
  }

  lemma RefusedIsOver(cfg: Config, rules: Rules, c: Course, call: nat)
    requires Core(cfg, rules, c) && c.steps > 0 && Complete(c.attempts, c.steps - 1)
    requires |c.seen| == c.toolCalls + if c.repeated then 1 else 0
    ensures Over(cfg, rules, c) && Over(cfg, rules, Attempted(c, ResultOnly, call))
  {
    CompleteIsOrderly(c.attempts, c.steps - 1, c.steps);
    OneMoreAttempt(c.attempts, Attempt(ResultOnly, c.steps, call));
  }

  lemma RefusingIsInOrder(cfg: Config, rules: Rules, c: Course, r: Round, reason: Reason)
    requires Core(cfg, rules, c) && c.steps > 0 && Complete(c.attempts, c.steps - 1)
    requires |c.seen| == c.toolCalls + if c.repeated then 1 else 0
    requires reason != FinalAnswerGiven && (c.repeated <==> reason == RepeatedAction) && Successful(c.log)
    ensures InOrder(cfg, rules, Refusing(c, r, reason))
  {
    hide Stopping;
    var c' := Attempted(c, ResultOnly, c.toolCalls + 1);
    RefusedIsOver(cfg, rules, c, c.toolCalls + 1);
    StoppingIsInOrder(cfg, rules, c', r, Stopped, reason);
  }

  /** A call under way: counted, its first event emitted, nothing observed yet. */
  ghost predicate UnderWay(cfg: Config, rules: Rules, c: Course)
  {
    && Core(cfg, rules, c) && c.seen == c.dispatched && !c.repeated && |c.obs| < c.toolCalls && c.steps > 0
    && Successful(c.log) && c.attempts != [] && Complete(c.attempts[..|c.attempts| - 1], c.steps - 1)
    && c.attempts[|c.attempts| - 1] == Attempt(CallOnly, c.steps, c.toolCalls)
  }

  lemma WithResultIsGood(cfg: Config, rules: Rules, c: Course)
    requires UnderWay(cfg, rules, c)
    ensures Good(cfg, rules, WithResult(c)) && |WithResult(c).obs| < WithResult(c).toolCalls
    ensures Over(cfg, rules, c) && Over(cfg, rules, WithResult(c))
  {
    hide Summarises, Successful, SuccessfulSoFar, Below;
    var xs := c.attempts[..|c.attempts| - 1];
    OneMoreAttempt(xs, Attempt(CallOnly, c.steps, c.toolCalls));
    OneMoreAttempt(xs, Attempt(Whole, c.steps, c.toolCalls));
    assert c.attempts == xs + [Attempt(CallOnly, c.steps, c.toolCalls)];
  }

  lemma ObservedIsGood(cfg: Config, rules: Rules, c: Course, e: Execution)
    requires Good(cfg, rules, c) && |c.obs| < c.toolCalls
    ensures Good(cfg, rules, Observed(rules, c, e)) <==> !ReportsFailure(e.output)
    ensures Over(cfg, rules, Observed(rules, c, e))
  {
    CompleteIsOrderly(c.attempts, c.steps, c.steps);
    assert Observed(rules, c, e).log[|c.log|] == e;
  }

  lemma FailingIsInOrder(cfg: Config, rules: Rules, c: Course, r: Round, status: Status, reason: Reason)
    requires UnderWay(cfg, rules, c)
    requires status != Completed && reason != FinalAnswerGiven && reason != RepeatedAction
    ensures InOrder(cfg, rules, Failing(c, r, status, reason))
  {
    WithResultIsGood(cfg, rules, c);
    StoppingIsInOrder(cfg, rules, WithResult(c), r, status, reason);
  }

  lemma AcceptingIsInOrder(cfg: Config, rules: Rules, c: Course, r: Round, e: Execution)
    requires UnderWay(cfg, rules, c)
    ensures InOrder(cfg, rules, Accepting(rules, c, r, e))
  {
    WithResultIsGood(cfg, rules, c);
    ObservedIsGood(cfg, rules, WithResult(c), e);
    StoppingIsInOrder(cfg, rules, Observed(rules, WithResult(c), e), r, Failed, ToolFailed);
  }

  lemma DispatchingIsInOrder(cfg: Config, rules: Rules, c: Course, r: Round, a: Action)
    requires UnderWay(cfg, rules, c)
    ensures InOrder(cfg, rules, Dispatching(rules, c, r, a))
  {
    hide Accepting, Failing, Good, UnderWay, Below, Complete, Orderly;
    match r.tool
    case Returns(output) => AcceptingIsInOrder(cfg, rules, c, r, Execution(a.tool, output));
    case RaisesToolError => FailingIsInOrder(cfg, rules, c, r, Failed, ToolFailed);
    case RaisesOther => FailingIsInOrder(cfg, rules, c, r, Failed, ToolFailed);
    case ToolTimesOut => FailingIsInOrder(cfg, rules, c, r, Stopped, TimedOut);
    case ToolCancelled => WithResultIsGood(cfg, rules, c);
  }

  lemma StaysBelow(m: multiset<Action>, a: Action, threshold: nat)
    requires Below(m, threshold) && m[a] + 1 < threshold
    ensures Below(m + multiset{a}, threshold) && |m + multiset{a}| == |m| + 1
  {
  }

  lemma AttemptedIsUnderWay(cfg: Config, rules: Rules, c: Course)
    requires Core(cfg, rules, c) && c.seen == c.dispatched && !c.repeated && |c.obs| < c.toolCalls
    requires c.steps > 0 && Complete(c.attempts, c.steps - 1) && Successful(c.log)
    ensures UnderWay(cfg, rules, Attempted(c, CallOnly, c.toolCalls)) && Over(cfg, rules, c)
  {
    CompleteIsOrderly(c.attempts, c.steps - 1, c.steps);
    assert (c.attempts + [Attempt(CallOnly, c.steps, c.toolCalls)])[..|c.attempts|] == c.attempts;
  }

  lemma CallingIsInOrder(cfg: Config, rules: Rules, c: Course, r: Round, a: Action)
    requires Core(cfg, rules, c) && c.seen == c.dispatched && !c.repeated && |c.obs| < c.toolCalls
    requires c.steps > 0 && Complete(c.attempts, c.steps - 1) && Successful(c.log)
    ensures InOrder(cfg, rules, Calling(rules, c, r, a))
  {
    var c' := Attempted(c, CallOnly, c.toolCalls);
    AttemptedIsUnderWay(cfg, rules, c);
    if r.call == Passes {
      CalledIsInOrder(cfg, rules, c', r, a);
    } else {
      WithResultIsGood(cfg, rules, c');
    }
  }

  lemma CalledIsInOrder(cfg: Config, rules: Rules, c: Course, r: Round, a: Action)
    requires UnderWay(cfg, rules, c)
    ensures InOrder(cfg, rules,
                    if r.dispatchLate then Stopping(c, r, Stopped, TimedOut) else Dispatching(rules, c, r, a))
  {
    if r.dispatchLate {
      WithResultIsGood(cfg, rules, c);
      StoppingIsInOrder(cfg, rules, c, r, Stopped, TimedOut);
    } else {
      DispatchingIsInOrder(cfg, rules, c, r, a);
    }
  }

  lemma ExecutingIsInOrder(cfg: Config, rules: Rules, c: Course, r: Round, a: Action)
    requires Ready(cfg, rules, c)
    ensures InOrder(cfg, rules, Executing(cfg, rules, c, r, a))
  {
    ReadyIsOver(cfg, rules, c);
    if c.toolCalls >= cfg.maxToolCalls {
      RefusingIsInOrder(cfg, rules, c, r, MaxToolCallsReached);
    } else if r.toolLate {
      StoppingIsInOrder(cfg, rules, c, r, Stopped, TimedOut);
    } else if !r.hashRaises {
      if c.seen[a] + 1 >= cfg.threshold {
        RefusingIsInOrder(cfg, rules, Noticed(c, a).(repeated := true), r, RepeatedAction);
      } else {
        StaysBelow(c.dispatched, a, cfg.threshold);
        CallingIsInOrder(cfg, rules, Counted(Noticed(c, a), a), r, a);
      }
    }
  }

  lemma GoodIsOver(cfg: Config, rules: Rules, c: Course)
    requires Good(cfg, rules, c)
    ensures Over(cfg, rules, c)
  {
    CompleteIsOrderly(c.attempts, c.steps, c.steps);
  }

  lemma UndecidedIsInOrder(cfg: Config, rules: Rules, c: Course, r: Round)
    requires Good(cfg, rules, c) && !Decided(cfg, c, r)
    ensures InOrder(cfg, rules, Undecided(cfg, c, r))
  {
    GoodIsOver(cfg, rules, c);
    StoppingIsInOrder(cfg, rules, c, r, Stopped, MaxStepsReached);
    StoppingIsInOrder(cfg, rules, c, r, Stopped, TimedOut);
    StoppingIsInOrder(cfg, rules, c, r, Failed, StepperFailed);
  }

  lemma FollowingIsInOrder(cfg: Config, rules: Rules, c: Course, r: Round, d: Decision)
    requires Ready(cfg, rules, c)
    ensures InOrder(cfg, rules, Following(cfg, rules, c, r, d))
  {
    match d
    case Answer(text, cs) => AnsweringIsInOrder(cfg, rules, c, r, text, cs);
    case UseTool(a) => ExecutingIsInOrder(cfg, rules, c, r, a);
  }

  lemma GoodIsReady(cfg: Config, rules: Rules, c: Course)
    requires Good(cfg, rules, c) && c.steps < cfg.maxSteps
    ensures Ready(cfg, rules, c.(steps := c.steps + 1))
  {
  }

  lemma DecidedIsInOrder(cfg: Config, rules: Rules, c: Course, r: Round, p: Played)
    requires Good(cfg, rules, c) && Decided(cfg, c, r)
    requires p == Following(cfg, rules, c.(steps := c.steps + 1), r, r.stepper.decision)
    ensures InOrder(cfg, rules, p)
  {
    hide Following;
    GoodIsReady(cfg, rules, c);
    FollowingIsInOrder(cfg, rules, c.(steps := c.steps + 1), r, r.stepper.decision);
  }

  lemma PlayingIsInOrder(cfg: Config, rules: Rules, c: Course, r: Round, p: Played)
    requires Good(cfg, rules, c) && p == Playing(cfg, rules, c, r)
    ensures InOrder(cfg, rules, p)
  {
    hide Following, Undecided;
    if Decided(cfg, c, r) {
      DecidedIsInOrder(cfg, rules, c, r, p);
    } else {
      UndecidedIsInOrder(cfg, rules, c, r);
    }
  }

  /** Every run ends, whatever its environment: within its budgets, its attempts in order, no
      action dispatched `threshold` times, and with a result that is consistent, tells the
      run's own counters and cites only what this run's searches returned. */
  lemma {:induction false} RunIsInOrder(cfg: Config, rules: Rules, env: nat -> Round, k: nat, c: Course)
    requires Good(cfg, rules, c)
    ensures var p := RunFrom(cfg, rules, env, k, c);
            !p.halt.Running? && Over(cfg, rules, p.course) && Truthful(rules, p)
    decreases cfg.maxSteps - c.steps
  {
    var p := Playing(cfg, rules, c, env(k));
    PlayingIsInOrder(cfg, rules, c, env(k), p);
    if p.halt.Running? {
      RunIsInOrder(cfg, rules, env, k + 1, p.course);
    }
  }

  /** The same environment with other suspensions. */
  ghost predicate SameButResumed(env: nat -> Round, other: nat -> Round)
  {
    forall i: nat :: other(i) == env(i).(resumed := other(i).resumed)
  }

  lemma {:induction false} SameRun(cfg: Config, rules: Rules, env: nat -> Round, other: nat -> Round, k: nat, c: Course)
    requires SameButResumed(env, other)
    ensures RunFrom(cfg, rules, other, k, c) == RunFrom(cfg, rules, env, k, c)
    decreases cfg.maxSteps - c.steps
  {
    var p := Playing(cfg, rules, c, env(k));
    assert Playing(cfg, rules, c, other(k)) == p;
    if p.halt.Running? {
      SameRun(cfg, rules, env, other, k + 1, p.course);
    }
  }
}
