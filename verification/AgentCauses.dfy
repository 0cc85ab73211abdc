/** Why a run ends as it does: each ending has its cause in the round that brought it about,
    and a run goes on, or completes, exactly when nothing stands in its way. */
module AgentCauses {
  import opened Text
  import opened FinalAnswer
  import opened ToolEvents
  import opened Runtime
  import opened AgentCourse

  predicate UsesTool(r: Round) { r.stepper.Decides? && r.stepper.decision.UseTool? }

  predicate Answers(r: Round) { r.stepper.Decides? && r.stepper.decision.Answer? }

  /** Some deadline passed, or some awaited operation ran into it. */
  predicate OutOfTime(r: Round)
  {
    || r.late || r.stepper.StepperTimesOut? || r.toolLate || r.dispatchLate || r.tool.ToolTimesOut?
    || r.validator.NoTimeLeft? || r.validator.ValidatorTimesOut?
  }

  predicate CancelledSomewhere(r: Round)
  {
    || r.stepper.StepperCancelled? || r.tool.ToolCancelled? || r.validator.ValidatorCancelled?
    || r.refusal == IsCancelled || r.call == IsCancelled || r.result == IsCancelled || r.finish == IsCancelled
  }

  predicate RaisedSomewhere(r: Round)
  {
    || r.stateRaises || r.hashRaises || r.summaryRaises || r.validator.ValidatorEscapes?
    || r.refusal == Raises || r.call == Raises || r.result == Raises || r.finish == Raises
  }

  /** The last call did not come back, or came back and reported failure. */
  predicate ToolWentWrong(r: Round, c: Course)
  {
    || (&& r.tool.Returns? && ReportsFailure(r.tool.output)
        && c.log != [] && c.log[|c.log| - 1].output == r.tool.output)
    || ((r.tool.RaisesToolError? || r.tool.RaisesOther?) && |c.obs| < c.toolCalls)
  }

  predicate Rejected(rules: Rules, r: Round, c: Course, error: Option<string>)
  {
    && Answers(r)
    && var d := r.stepper.decision;
       || ((r.validator.BadRequest? || r.validator.ValidatorRaises?) && error == Some(RejectionCode(ValidationFailed)))
       || (&& r.validator.Runs?
           && var v := ValidationOf(rules.text, rules.strip(d.text), d.citations, c.obs);
              v.Invalid? && error == Some(RejectionCode(v.error)))
  }

  predicate Accepted(rules: Rules, r: Round, c: Course, res: RunResult)
  {
    && Answers(r) && r.validator.Runs? && res.answer.Some?
    && ValidationOf(rules.text, rules.strip(r.stepper.decision.text), r.stepper.decision.citations, c.obs)
       == Valid(res.answer.value, res.citations)
  }

  /** The status and reason of a result, and what in its last round was the cause. */
  predicate Because(cfg: Config, rules: Rules, r: Round, c: Course, res: RunResult)
  {
    match res.reason
    case MaxStepsReached => res.status == Stopped && c.steps >= cfg.maxSteps
    case MaxToolCallsReached => res.status == Stopped && UsesTool(r) && c.toolCalls >= cfg.maxToolCalls
    case RepeatedAction =>
      res.status == Stopped && UsesTool(r) && c.seen[r.stepper.decision.action] >= cfg.threshold
    case TimedOut => res.status == Stopped && OutOfTime(r)
    case StepperFailed => res.status == Failed && r.stepper.StepperRaises?
    case ToolFailed => res.status == Failed && UsesTool(r) && ToolWentWrong(r, c)
    case ValidationRejected => res.status == Failed && Rejected(rules, r, c, res.errorCode)
    case FinalAnswerGiven => res.status == Completed && Accepted(rules, r, c, res)
  }

  predicate Caused(cfg: Config, rules: Rules, r: Round, p: Played)
  {
    match p.halt
    case Running => true
    case Interrupted => CancelledSomewhere(r)
    case Raised => RaisedSomewhere(r)
    case Finished(res) => r.finish == Passes && Because(cfg, rules, r, p.course, res)
  }

  lemma StoppingIsCaused(cfg: Config, rules: Rules, c: Course, r: Round, status: Status, reason: Reason)
    requires reason != ValidationRejected && Because(cfg, rules, r, c, StopAt(c, status, reason))
    ensures Caused(cfg, rules, r, Stopping(c, r, status, reason))
  {
  }

  lemma AnsweringIsCaused(cfg: Config, rules: Rules, c: Course, r: Round)
    requires Answers(r)
    ensures Caused(cfg, rules, r, Answering(rules, c, r, r.stepper.decision.text, r.stepper.decision.citations))
  {
    hide ValidationOf, RejectionCode, Code;
  }

  lemma RefusingIsCaused(cfg: Config, rules: Rules, c: Course, r: Round, reason: Reason)
    requires UsesTool(r)
    requires || (reason == MaxToolCallsReached && c.toolCalls >= cfg.maxToolCalls)
             || (reason == RepeatedAction && c.seen[r.stepper.decision.action] >= cfg.threshold)
    ensures Caused(cfg, rules, r, Refusing(c, r, reason))
  {
    hide Code;
  }

  lemma DispatchingIsCaused(cfg: Config, rules: Rules, c: Course, r: Round, a: Action)
    requires UsesTool(r) && |c.obs| < c.toolCalls
    ensures Caused(cfg, rules, r, Dispatching(rules, c, r, a))
  {
    hide Code, Summary;
  }

  lemma CallingIsCaused(cfg: Config, rules: Rules, c: Course, r: Round, a: Action)
    requires UsesTool(r) && |c.obs| < c.toolCalls
    ensures Caused(cfg, rules, r, Calling(rules, c, r, a))
  {
    hide Dispatching, Code;
    DispatchingIsCaused(cfg, rules, Attempted(c, CallOnly, c.toolCalls), r, a);
  }

  lemma ExecutingIsCaused(cfg: Config, rules: Rules, c: Course, r: Round)
    requires UsesTool(r) && |c.obs| <= c.toolCalls
    ensures Caused(cfg, rules, r, Executing(cfg, rules, c, r, r.stepper.decision.action))
  {
    hide Calling, Refusing, Code;
    var a := r.stepper.decision.action;
    if c.toolCalls >= cfg.maxToolCalls {
      RefusingIsCaused(cfg, rules, c, r, MaxToolCallsReached);
    } else if c.seen[a] + 1 >= cfg.threshold {
      RefusingIsCaused(cfg, rules, Noticed(c, a).(repeated := true), r, RepeatedAction);
    } else {
      CallingIsCaused(cfg, rules, Counted(Noticed(c, a), a), r, a);
    }
  }

  /** Every round: a result, a cancellation or an exception has its cause in that round. */
  lemma PlayingIsCaused(cfg: Config, rules: Rules, c: Course, r: Round)
    requires |c.obs| <= c.toolCalls
    ensures Caused(cfg, rules, r, Playing(cfg, rules, c, r))
  {
    hide Answering, Executing, Code;
    if Decided(cfg, c, r) {
      var c' := c.(steps := c.steps + 1);
      if r.stepper.decision.Answer? {
        AnsweringIsCaused(cfg, rules, c', r);
      } else {
        ExecutingIsCaused(cfg, rules, c', r);
      }
    }
  }

  /** A round with nothing in its way: a decision to use a tool, within the budgets and in
      time, for an action not seen too often, whose tool returns and does not report failure. */
  predicate Smooth(cfg: Config, c: Course, r: Round)
  {
    && c.steps < cfg.maxSteps && !r.late && !r.stateRaises && UsesTool(r)
    && c.toolCalls < cfg.maxToolCalls && !r.toolLate && !r.hashRaises
    && c.seen[r.stepper.decision.action] + 1 < cfg.threshold
    && r.call == Passes && !r.dispatchLate && r.tool.Returns? && !ReportsFailure(r.tool.output)
    && !r.summaryRaises && r.result == Passes
  }

  /** The course one smooth round later: one more step, call, observed and dispatched action,
      complete attempt, execution, and its summary. */
  function OneCallLater(rules: Rules, c: Course, a: Action, o: Output): Course
  {
    var e := Execution(a.tool, o);
    Course(c.steps + 1, c.toolCalls + 1, c.dispatched + multiset{a}, c.seen + multiset{a}, c.repeated,
           c.obs + [Summary(rules, e)], c.log + [e], c.attempts + [Attempt(Whole, c.steps + 1, c.toolCalls + 1)])
  }

  lemma DispatchGoesOn(rules: Rules, c: Course, r: Round, a: Action)
    ensures Dispatching(rules, c, r, a).halt.Running? <==>
              r.tool.Returns? && !ReportsFailure(r.tool.output) && !r.summaryRaises && r.result == Passes
    ensures Dispatching(rules, c, r, a).halt.Running? ==>
              Dispatching(rules, c, r, a).course == Observed(rules, WithResult(c), Execution(a.tool, r.tool.output))
  {
    hide Summary;
  }

  lemma ExecutingGoesOn(cfg: Config, rules: Rules, c: Course, r: Round, a: Action)
    ensures Executing(cfg, rules, c, r, a).halt.Running? <==>
              && c.toolCalls < cfg.maxToolCalls && !r.toolLate && !r.hashRaises && c.seen[a] + 1 < cfg.threshold
              && r.call == Passes && !r.dispatchLate
              && r.tool.Returns? && !ReportsFailure(r.tool.output) && !r.summaryRaises && r.result == Passes
    ensures Executing(cfg, rules, c, r, a).halt.Running? ==>
              var e := Execution(a.tool, r.tool.output);
              var c' := Attempted(Counted(Noticed(c, a), a), CallOnly, c.toolCalls + 1);
              Executing(cfg, rules, c, r, a).course == Observed(rules, WithResult(c'), e)
  {
    hide Dispatching, Summary;
    DispatchGoesOn(rules, Attempted(Counted(Noticed(c, a), a), CallOnly, c.toolCalls + 1), r, a);
  }

  /** A run goes on after a round exactly when the round was smooth, and then has gained
      exactly one call. */
  lemma GoesOnExactlyWhenSmooth(cfg: Config, rules: Rules, c: Course, r: Round)
    ensures var p := Playing(cfg, rules, c, r);
            && (p.halt.Running? <==> Smooth(cfg, c, r))
            && (p.halt.Running? ==> p.course == OneCallLater(rules, c, r.stepper.decision.action, r.tool.output))
  {
    hide Executing, Summary, ValidationOf;
    if Decided(cfg, c, r) && r.stepper.decision.UseTool? {
      var a, c1 := r.stepper.decision.action, c.(steps := c.steps + 1);
      ExecutingGoesOn(cfg, rules, c1, r, a);
      var x := Attempt(CallOnly, c1.steps, c.toolCalls + 1);
      assert (c.attempts + [x])[..|c.attempts|] == c.attempts;
    }
  }

  /** The call was made: within the tool budget and in time, for an action not seen too often,
      and its first event got out. */
  predicate CallMade(cfg: Config, c: Course, r: Round, a: Action)
  {
    && c.toolCalls < cfg.maxToolCalls && !r.toolLate && !r.hashRaises && c.seen[a] + 1 < cfg.threshold
    && r.call == Passes && !r.dispatchLate
  }

  lemma DispatchStopsFor(rules: Rules, c: Course, r: Round, a: Action)
    ensures var h := Dispatching(rules, c, r, a).halt;
            h.Finished? ==> h.result.reason == if r.tool.ToolTimesOut? then TimedOut else ToolFailed
  {
    hide Code, Summary;
  }

  lemma RefusalStopsFor(c: Course, r: Round, reason: Reason)
    ensures var h := Refusing(c, r, reason).halt; h.Finished? ==> h.result.reason == reason
  {
    hide Code;
  }

  lemma ToolStopsForFirstCause(cfg: Config, rules: Rules, c: Course, r: Round, a: Action)
    ensures var h := Executing(cfg, rules, c, r, a).halt;
            h.Finished? ==>
              && h.result.reason != MaxStepsReached && h.result.reason != StepperFailed
              && (h.result.reason == MaxToolCallsReached <==> c.toolCalls >= cfg.maxToolCalls)
              && (h.result.reason == RepeatedAction <==>
                    c.toolCalls < cfg.maxToolCalls && !r.toolLate && c.seen[a] + 1 >= cfg.threshold)
              && (h.result.reason == ToolFailed <==> CallMade(cfg, c, r, a) && !r.tool.ToolTimesOut?)
  {
    hide Code, Dispatching, Refusing;
    RefusalStopsFor(c, r, MaxToolCallsReached);
    RefusalStopsFor(Noticed(c, a).(repeated := true), r, RepeatedAction);
    DispatchStopsFor(rules, Attempted(Counted(Noticed(c, a), a), CallOnly, c.toolCalls + 1), r, a);
  }

  /** Of several causes in one round the first counts: the step budget, the deadline, the
      stepper, then for a tool its budget, the deadline, repetition, and the tool itself. */
  lemma FirstCauseCounts(cfg: Config, rules: Rules, c: Course, r: Round)
    ensures var h := Playing(cfg, rules, c, r).halt;
            h.Finished? ==>
              && (h.result.reason == MaxStepsReached <==> c.steps >= cfg.maxSteps)
              && (c.steps < cfg.maxSteps && r.late ==> h.result.reason == TimedOut)
              && (h.result.reason == StepperFailed <==>
                    c.steps < cfg.maxSteps && !r.late && r.stepper.StepperRaises?)
              && (c.steps < cfg.maxSteps && !r.late && UsesTool(r) ==>
                    var a := r.stepper.decision.action;
                    && (h.result.reason == MaxToolCallsReached <==> c.toolCalls >= cfg.maxToolCalls)
                    && (h.result.reason == RepeatedAction <==>
                          c.toolCalls < cfg.maxToolCalls && !r.toolLate && c.seen[a] + 1 >= cfg.threshold)
                    && (h.result.reason == ToolFailed <==> CallMade(cfg, c, r, a) && !r.tool.ToolTimesOut?))
  {
    hide Executing, Code, ValidationOf;
    if Decided(cfg, c, r) && UsesTool(r) {
      ToolStopsForFirstCause(cfg, rules, c.(steps := c.steps + 1), r, r.stepper.decision.action);
    }
  }

  lemma ToolsDoNotComplete(cfg: Config, rules: Rules, c: Course, r: Round, a: Action)
    ensures var h := Executing(cfg, rules, c, r, a).halt; h.Finished? ==> h.result.status != Completed
  {
    hide Code, Summary;
  }

  /** A decision arrives within budget and time, it is an answer, the validator gets to see it,
      it says something, its citations are all grounded in the run's observations, and its
      result is made and audited undisturbed. */
  predicate AnswersWell(cfg: Config, rules: Rules, c: Course, r: Round)
  {
    && c.steps < cfg.maxSteps && !r.late && !r.stateRaises && Answers(r) && r.validator.Runs? && r.finish == Passes
    && var d := r.stepper.decision;
       && !rules.text.blank(rules.strip(d.text))
       && (d.citations == [] ==> !rules.text.sourceLike(rules.strip(d.text)))
       && forall i :: 0 <= i < |d.citations| ==> Grounded(d.citations[i], c.obs)
  }

  /** The run has completed with the answer and the citations of this round's decision. */
  predicate CompletedWith(rules: Rules, r: Round, h: Halt)
  {
    && h.Finished? && h.result.status == Completed && Answers(r)
    && h.result.answer == Some(rules.strip(r.stepper.decision.text))
    && h.result.citations == r.stepper.decision.citations
  }

  /** A round completes the run exactly when it answers well, and then with its answer. */
  lemma CompletesExactlyWhenAnsweredWell(cfg: Config, rules: Rules, c: Course, r: Round)
    ensures var h := Playing(cfg, rules, c, r).halt;
            && (h.Finished? && h.result.status == Completed <==> AnswersWell(cfg, rules, c, r))
            && (AnswersWell(cfg, rules, c, r) ==> CompletedWith(rules, r, h))
  {
    hide Executing, ValidationOf, Grounded, Code, RejectionCode;
    if Answers(r) {
      var d := r.stepper.decision;
      ValidExactlyWhenGrounded(rules.text, rules.strip(d.text), d.citations, c.obs);
    } else if Decided(cfg, c, r) {
      ToolsDoNotComplete(cfg, rules, c.(steps := c.steps + 1), r, r.stepper.decision.action);
    }
  }

  // ---- over runs ----

  /** One round later, for a round that got its tool's output. */
  function OneRoundLater(rules: Rules, c: Course, r: Round): Course
  {
    if UsesTool(r) && r.tool.Returns? then OneCallLater(rules, c, r.stepper.decision.action, r.tool.output) else c
  }

  /** `n` rounds from round `k` on. */
  function Later(rules: Rules, env: nat -> Round, k: nat, n: nat, c: Course): Course
    decreases n
  {
    if n == 0 then c else Later(rules, env, k + 1, n - 1, OneRoundLater(rules, c, env(k)))
  }

  /** The `n` rounds from round `k` on are smooth. */
  predicate Smoothly(cfg: Config, rules: Rules, env: nat -> Round, k: nat, n: nat, c: Course)
    decreases n
  {
    n > 0 ==>
      && Smooth(cfg, c, env(k))
      && Smoothly(cfg, rules, env, k + 1, n - 1, OneRoundLater(rules, c, env(k)))
  }

  /** Smooth rounds take a run to their end. */
  lemma {:induction false} SmoothRoundsAreRun(
      cfg: Config, rules: Rules, env: nat -> Round, k: nat, n: nat, c: Course)
    requires Smoothly(cfg, rules, env, k, n, c)
    ensures RunFrom(cfg, rules, env, k, c) == RunFrom(cfg, rules, env, k + n, Later(rules, env, k, n, c))
    decreases n
  {
    hide Playing, Summary, OneCallLater;
    if n > 0 {
      var p := Playing(cfg, rules, c, env(k));
      RunUnfolds(cfg, rules, env, k, c, p);
      GoesOnExactlyWhenSmooth(cfg, rules, c, env(k));
      SmoothRoundsAreRun(cfg, rules, env, k + 1, n - 1, p.course);
    }
  }

  /** The run from round `k` on ends in round `last`, after smooth rounds only. */
  predicate EndsIn(cfg: Config, rules: Rules, env: nat -> Round, k: nat, last: nat, c: Course, p: Played)
  {
    && last >= k && Smoothly(cfg, rules, env, k, last - k, c) && !p.halt.Running?
    && p == Playing(cfg, rules, Later(rules, env, k, last - k, c), env(last))
    && Caused(cfg, rules, env(last), p)
  }

  lemma OneRoundMore(cfg: Config, rules: Rules, env: nat -> Round, k: nat, last: nat, c: Course, p: Played)
    requires Smooth(cfg, c, env(k)) && EndsIn(cfg, rules, env, k + 1, last, OneRoundLater(rules, c, env(k)), p)
    ensures EndsIn(cfg, rules, env, k, last, c, p)
  {
    hide Playing, Caused, Smooth, OneRoundLater;
  }

  /** Every run ends in a round that is the cause of its ending, and every round before that
      one was smooth. */
  lemma {:induction false} RunIsCaused(cfg: Config, rules: Rules, env: nat -> Round, k: nat, c: Course)
    returns (last: nat)
    requires |c.obs| <= c.toolCalls
    ensures EndsIn(cfg, rules, env, k, last, c, RunFrom(cfg, rules, env, k, c))
    decreases cfg.maxSteps - c.steps
  {
    hide Playing, Caused, Summary, RunFrom;
    var p := Playing(cfg, rules, c, env(k));
    RunUnfolds(cfg, rules, env, k, c, p);
    GoesOnExactlyWhenSmooth(cfg, rules, c, env(k));
    if p.halt.Running? {
      last := RunIsCaused(cfg, rules, env, k + 1, p.course);
      OneRoundMore(cfg, rules, env, k, last, c, RunFrom(cfg, rules, env, k + 1, p.course));
    } else {
      last := k;
      PlayingIsCaused(cfg, rules, c, env(k));
    }
  }

  /** A run completes exactly when some round answers well after smooth rounds only, and then
      with that round's answer. */
  lemma RunCompletesExactly(cfg: Config, rules: Rules, env: nat -> Round)
    ensures var h := RunFrom(cfg, rules, env, 0, START).halt;
            (h.Finished? && h.result.status == Completed) <==>
              exists n: nat :: Smoothly(cfg, rules, env, 0, n, START)
                               && AnswersWell(cfg, rules, Later(rules, env, 0, n, START), env(n))
    ensures forall n: nat :: Smoothly(cfg, rules, env, 0, n, START)
                             && AnswersWell(cfg, rules, Later(rules, env, 0, n, START), env(n)) ==>
              CompletedWith(rules, env(n), RunFrom(cfg, rules, env, 0, START).halt)
  {
    hide Playing, RunFrom, AnswersWell, Smoothly, Later, Caused;
    var last := RunIsCaused(cfg, rules, env, 0, START);
    CompletesExactlyWhenAnsweredWell(cfg, rules, Later(rules, env, 0, last, START), env(last));
    forall n: nat | Smoothly(cfg, rules, env, 0, n, START)
                    && AnswersWell(cfg, rules, Later(rules, env, 0, n, START), env(n))
      ensures CompletedWith(rules, env(n), RunFrom(cfg, rules, env, 0, START).halt)
    {
      AnsweredRunCompletes(cfg, rules, env, n);
    }
  }

  lemma AnsweredRunCompletes(cfg: Config, rules: Rules, env: nat -> Round, n: nat)
    requires Smoothly(cfg, rules, env, 0, n, START)
    requires AnswersWell(cfg, rules, Later(rules, env, 0, n, START), env(n))
    ensures var h := RunFrom(cfg, rules, env, 0, START).halt;
            CompletedWith(rules, env(n), h) && h.Finished? && h.result.status == Completed
  {
    hide Playing, RunFrom, Smoothly, Later, AnswersWell;
    var c := Later(rules, env, 0, n, START);
    SmoothRoundsAreRun(cfg, rules, env, 0, n, START);
    CompletesExactlyWhenAnsweredWell(cfg, rules, c, env(n));
    RunUnfolds(cfg, rules, env, n, c, Playing(cfg, rules, c, env(n)));
  }
}
