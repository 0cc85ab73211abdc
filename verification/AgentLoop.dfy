/** `AgentRuntime.run` as it works on its state in place, proved against the course of a run.
    The stepper, the tools, the clock, suspension and cancellation are adversarial: each
    round's answers are arbitrary. */
module AgentLoop {
  import opened Text
  import opened FinalAnswer
  import opened ToolEvents
  import opened Runtime
  import opened AgentCourse
  import opened AgentCauses

  lemma ObservedTally(counts: map<Action, nat>, seen: multiset<Action>, a: Action)
    requires Tallies(counts, seen)
    ensures Tallies(counts[a := Times(counts, a) + 1], seen + multiset{a})
  {
    assert Times(counts, a) == seen[a];
    var c', s' := counts[a := Times(counts, a) + 1], seen + multiset{a};
    forall b ensures Times(c', b) == s'[b] {
      assert Times(counts, b) == seen[b];
    }
  }

  /** The ephemeral state of one run. */
  class AgentExecution {
    const cfg: Config
    const rules: Rules
    var detector: RepeatedActionDetector
    var steps: nat
    var toolCalls: nat
    var observations: seq<Observation>
    var events: seq<Event>
    ghost var log: seq<Execution>
    ghost var attempts: seq<Attempt>
    ghost var dispatched: multiset<Action>
    ghost var seen: multiset<Action>
    ghost var repeated: bool

    constructor (cfg: Config, rules: Rules)
      ensures Fits() && Now() == START && fresh(detector) && this.cfg == cfg && this.rules == rules
    {
      this.cfg, this.rules := cfg, rules;
      detector := new RepeatedActionDetector(cfg.threshold);
      steps, toolCalls, observations, events := 0, 0, [], [];
      log, attempts, dispatched, seen, repeated := [], [], multiset{}, multiset{}, false;
    }

    ghost function Now(): Course
      reads `steps, `toolCalls, `dispatched, `seen, `repeated, `observations, `log, `attempts
    {
      Course(steps, toolCalls, dispatched, seen, repeated, observations, log, attempts)
    }

    /** The detector counts what was seen, and the events are those of the attempts. */
    ghost predicate Fits()
      reads `detector, `seen, `events, `attempts, detector
    {
      && detector.threshold == cfg.threshold && Tallies(detector.counts, seen)
      && events == Flatten(attempts)
    }

    /** `_finish` */
    function Finish(status: Status, reason: Reason, answer: Option<string>, cs: seq<Citation>, error: Option<string>)
      : (r: RunResult)
      reads this
      ensures r == FinishAt(Now(), status, reason, answer, cs, error)
    {
      RunResult(status, reason, steps, toolCalls, answer, cs,
                if error.None? && reason != FinalAnswerGiven then Some(Code(reason)) else error, observations)
    }

    /** The result is made and audited last; a run cancelled meanwhile returns none. */
    function Stop(r: Round, status: Status, reason: Reason): (h: Halt)
      reads this
      ensures Played(Now(), h) == Stopping(Now(), r, status, reason)
    {
      Through(r.finish, Finished(Finish(status, reason, None, [], None)))
    }

    function Reject(r: Round, e: Rejection): (h: Halt)
      reads this
      ensures Played(Now(), h) == Rejecting(Now(), r, e)
    {
      Through(r.finish, Finished(Finish(Failed, ValidationRejected, None, [], Some(RejectionCode(e)))))
    }

    /** A suspended run resumes, at any point, with a detector restored from its own
        snapshot. */
    method Resume()
      requires Fits()
      modifies this`detector
      ensures Fits() && fresh(detector) && detector.counts == old(detector.counts)
    {
      var s := detector.Snapshot();
      var d := new RepeatedActionDetector(cfg.threshold);
      var ok := d.Restore(s);
      detector := d;
    }

    /** `_decide` */
    method Decide(r: Round) returns (h: Halt, d: Option<Decision>)
      modifies this`steps
      ensures if Decided(cfg, old(Now()), r)
              then h == Running && d == Some(r.stepper.decision) && Now() == old(Now()).(steps := old(steps) + 1)
              else !h.Running? && Played(Now(), h) == Undecided(cfg, old(Now()), r)
    {
      d := None;
      if steps >= cfg.maxSteps {
        return Stop(r, Stopped, MaxStepsReached), None;
      }
      if r.late {
        return Stop(r, Stopped, TimedOut), None;
      }
      if r.stateRaises {
        return Raised, None;
      }
      match r.stepper {
        case Decides(decision) =>
          steps := steps + 1;
          h, d := Running, Some(decision);
        case StepperTimesOut => h := Stop(r, Stopped, TimedOut);
        case StepperRaises => h := Stop(r, Failed, StepperFailed);
        case StepperCancelled => h := Interrupted;
      }
    }

    /** `_validate_result` with the strict validator */
    method ValidateResult(r: Round, text: string, cs: seq<Citation>) returns (h: Halt)
      ensures Played(Now(), h) == Answering(rules, Now(), r, text, cs)
    {
      match r.validator {
        case Runs =>
          var v := Validate(rules.text, rules.strip(text), cs, observations);
          match v {
            case Valid(answer, citations) =>
              h := Through(r.finish, Finished(Finish(Completed, FinalAnswerGiven, Some(answer), citations, None)));
            case Invalid(e) => h := Reject(r, e);
          }
        case BadRequest => h := Reject(r, ValidationFailed);
        case ValidatorRaises => h := Reject(r, ValidationFailed);
        case NoTimeLeft => h := Stop(r, Stopped, TimedOut);
        case ValidatorTimesOut => h := Stop(r, Stopped, TimedOut);
        case ValidatorCancelled => h := Interrupted;
        case ValidatorEscapes => h := Raised;
      }
    }

    /** A `tool_call` event, or the `tool_result` of a call refused before it started. */
    method EmitFirst(shape: Shape, call: nat)
      requires Fits() && shape != Whole
      modifies this`events, this`attempts
      ensures Fits() && Now() == Attempted(old(Now()), shape, call)
    {
      FlattenAppend(attempts, Attempt(shape, steps, call));
      events := events + [Event(if shape == CallOnly then CallEvent else ResultEvent, steps, call)];
      attempts := attempts + [Attempt(shape, steps, call)];
    }

    /** The last attempt is a call of this step that has no result yet. */
    ghost predicate Pending()
      reads `steps, `toolCalls, `attempts
    {
      attempts != [] && attempts[|attempts| - 1] == Attempt(CallOnly, steps, toolCalls)
    }

    /** The `tool_result` that completes the last `tool_call`. */
    method EmitResult()
      requires Fits() && Pending()
      modifies this`events, this`attempts
      ensures Fits() && Now() == WithResult(old(Now()))
    {
      assert attempts == attempts[..|attempts| - 1] + [Attempt(CallOnly, steps, toolCalls)];
      FlattenComplete(attempts[..|attempts| - 1], steps, toolCalls);
      events := events + [Event(ResultEvent, steps, toolCalls)];
      attempts := CompleteLast(attempts);
    }

    method Refuse(r: Round, reason: Reason) returns (h: Halt)
      requires Fits()
      modifies this`events, this`attempts
      ensures Fits() && Played(Now(), h) == Refusing(old(Now()), r, reason)
    {
      hide Stopping, Flatten, Tallies;
      if r.refusal == Raises {
        return Raised;
      }
      EmitFirst(ResultOnly, toolCalls + 1);
      h := if r.refusal == IsCancelled then Interrupted else Stop(r, Stopped, reason);
    }

    method ObserveAction(action: Action) returns (triggered: bool)
      requires Fits()
      modifies this`seen, detector
      ensures Fits() && Now() == Noticed(old(Now()), action)
      ensures triggered <==> old(seen)[action] + 1 >= cfg.threshold
    {
      ObservedTally(detector.counts, seen, action);
      assert Times(detector.counts, action) == seen[action];
      triggered := detector.Observe(action);
      seen := seen + multiset{action};
    }

    /** The repeat guard. */
    method CheckRepeat(r: Round, action: Action) returns (h: Halt)
      requires Fits()
      modifies this`events, this`attempts, this`seen, this`repeated, detector
      ensures Fits()
      ensures if old(seen)[action] + 1 >= cfg.threshold
              then Played(Now(), h) == Refusing(Noticed(old(Now()), action).(repeated := true), r, RepeatedAction)
              else h == Running && Now() == Noticed(old(Now()), action)
    {
      var triggered := ObserveAction(action);
      h := Running;
      if triggered {
        repeated := true;
        h := Refuse(r, RepeatedAction);
      }
    }

    /** The checks before a call counts. */
    predicate Admissible(r: Round) reads `toolCalls
    {
      toolCalls < cfg.maxToolCalls && !r.toolLate && !r.hashRaises
    }

    /** The tool budget, the deadline, repetition. */
    method Admit(r: Round, action: Action) returns (h: Halt)
      requires Fits()
      modifies this`events, this`attempts, this`seen, this`repeated, detector
      ensures Fits()
      ensures if Admissible(r) && old(seen)[action] + 1 < cfg.threshold
              then h == Running && Now() == Noticed(old(Now()), action)
              else !h.Running? && Played(Now(), h) == Executing(cfg, rules, old(Now()), r, action)
    {
      if toolCalls >= cfg.maxToolCalls {
        h := Refuse(r, MaxToolCallsReached);
      } else if r.toolLate {
        h := Stop(r, Stopped, TimedOut);
      } else if r.hashRaises {
        h := Raised;
      } else {
        h := CheckRepeat(r, action);
      }
    }

    /** The dispatch went wrong: its result event, and the run ends. */
    method FailCall(r: Round, status: Status, reason: Reason) returns (h: Halt)
      requires Fits() && Pending()
      modifies this`events, this`attempts
      ensures Fits() && Played(Now(), h) == Failing(old(Now()), r, status, reason)
    {
      if r.result == Raises {
        return Raised;
      }
      EmitResult();
      h := if r.result == IsCancelled then Interrupted else Stop(r, status, reason);
    }

    /** The tool returned: its result event, then its observation joins the run. */
    method AcceptResult(r: Round, e: Execution) returns (h: Halt)
      requires Fits() && Pending()
      modifies this`events, this`attempts, this`observations, this`log
      ensures Fits() && Played(Now(), h) == Accepting(rules, old(Now()), r, e)
    {
      if r.summaryRaises {
        return Raised;
      }
      var refs := CitationRefs(rules, e);
      if r.result == Raises {
        return Raised;
      }
      EmitResult();
      if r.result == IsCancelled {
        return Interrupted;
      }
      observations := observations + [Summary(rules, e).(refs := refs)];
      log := log + [e];
      h := if StatusOf(e.output) == Failure then Stop(r, Failed, ToolFailed) else Running;
    }

    /** `_execute_tool` from the dispatch on. */
    method Dispatch(r: Round, action: Action) returns (h: Halt)
      requires Fits() && Pending()
      modifies this`events, this`attempts, this`observations, this`log
      ensures Fits() && Played(Now(), h) == Dispatching(rules, old(Now()), r, action)
    {
      match r.tool {
        case Returns(output) => h := AcceptResult(r, Execution(action.tool, output));
        case RaisesToolError => h := FailCall(r, Failed, ToolFailed);
        case RaisesOther => h := FailCall(r, Failed, ToolFailed);
        case ToolTimesOut => h := FailCall(r, Stopped, TimedOut);
        case ToolCancelled => h := Interrupted;
      }
    }

    /** A counted call: its first event, the suspensions around its dispatch, the dispatch. */
    method Call(r: Round, action: Action) returns (h: Halt)
      requires Fits()
      modifies this`events, this`attempts, this`observations, this`log, this`detector
      ensures Fits() && (detector == old(detector) || fresh(detector))
      ensures Played(Now(), h) == Calling(rules, old(Now()), r, action)
    {
      hide Dispatching, Stopping, Flatten, Tallies;
      if r.call == Raises {
        return Raised;
      }
      EmitFirst(CallOnly, toolCalls);
      if r.call == IsCancelled {
        return Interrupted;
      }
      if r.dispatchLate {
        return Stop(r, Stopped, TimedOut);
      }
      if r.resumed.dispatching {
        Resume();
      }
      h := Dispatch(r, action);
      if r.resumed.dispatched {
        Resume();
      }
    }

    /** `_execute_tool` */
    method ExecuteTool(r: Round, action: Action) returns (h: Halt)
      requires Fits()
      modifies this`toolCalls, this`events, this`attempts, this`dispatched, this`seen, this`repeated,
               this`observations, this`log, this`detector, detector
      ensures Fits() && (detector == old(detector) || fresh(detector))
      ensures Played(Now(), h) == Executing(cfg, rules, old(Now()), r, action)
    {
      hide Calling;
      ghost var before := Now();
      h := Admit(r, action);
      if h.Running? {
        toolCalls := toolCalls + 1;
        dispatched := dispatched + multiset{action};
        assert Now() == Counted(Noticed(before, action), action);
        h := Call(r, action);
        ExecutingUnfolds(cfg, rules, before, r, action, Played(Now(), h));
      }
    }

    /** A decision is followed: the answer is validated, or the tool executed, possibly after
        a suspension in between. */
    method Follow(r: Round, d: Decision) returns (h: Halt)
      requires Fits()
      modifies this`toolCalls, this`events, this`attempts, this`dispatched, this`seen, this`repeated,
               this`observations, this`log, this`detector, detector
      ensures Fits() && (detector == old(detector) || fresh(detector))
      ensures Played(Now(), h) == Following(cfg, rules, old(Now()), r, d)
    {
      if r.resumed.admitting {
        Resume();
      }
      match d {
        case Answer(text, cs) => h := ValidateResult(r, text, cs);
        case UseTool(action) => h := ExecuteTool(r, action);
      }
    }

    /** One turn of the loop. */
    method PlayRound(r: Round) returns (h: Halt)
      requires Fits()
      modifies this, detector
      ensures Fits() && (detector == old(detector) || fresh(detector))
      ensures Played(Now(), h) == Playing(cfg, rules, old(Now()), r)
    {
      hide Following, Undecided, Playing;
      if r.resumed.deciding {
        Resume();
      }
      ghost var before := Now();
      var d;
      h, d := Decide(r);
      if h.Running? {
        h := Follow(r, d.value);
      }
      PlayingUnfolds(cfg, rules, before, r, Played(Now(), h));
    }
  }

  /** Budgets, bracketing and repeat limits of a run that is over. */
  ghost predicate WithinLimits(cfg: Config, prefix: string, events: seq<Event>, c: Course, counts: map<Action, nat>)
  {
    && |c.obs| <= c.toolCalls <= c.steps <= cfg.maxSteps && c.toolCalls <= cfg.maxToolCalls
    && Bracketed(prefix, events, c.attempts)
    && |c.dispatched| == c.toolCalls
    && (forall a :: c.dispatched[a] <= cfg.threshold - 1)
    && SumOf(counts) == c.toolCalls + if c.repeated then 1 else 0
  }

  lemma RunKeepsLimits(
      cfg: Config, rules: Rules, prefix: string, env: nat -> Round, p: Played, counts: map<Action, nat>)
    requires ValidConfig(cfg) && p == RunFrom(cfg, rules, env, 0, START) && Tallies(counts, p.course.seen)
    ensures WithinLimits(cfg, prefix, Flatten(p.course.attempts), p.course, counts)
    ensures Truthful(rules, p)
  {
    hide RunFrom;
    RunIsInOrder(cfg, rules, env, 0, START);
    OrderlyIsBracketed(prefix, p.course.attempts, p.course.steps);
    TallySum(counts, p.course.seen);
  }

  /** `AgentRuntime.run`, for every environment: it follows the course of a run exactly, its
      result, its events and its repeat counts included; it ends within its budgets; its
      events are well bracketed; no action is dispatched `threshold` times; the detector's
      counts add up to the tool calls, plus one exactly when the run stopped on a repeat; and
      its result is consistent, tells the run's own counters, and cites only evidence from a
      search of that same run. It ends in a round that is the cause of its ending, after
      smooth rounds only. */
  method RunAgent(cfg: Config, rules: Rules, prefix: string, env: nat -> Round)
    returns (h: Halt, events: seq<Event>, counts: map<Action, nat>, ghost c: Course, ghost last: nat)
    requires ValidConfig(cfg)
    ensures !h.Running? && Played(c, h) == RunFrom(cfg, rules, env, 0, START)
    ensures events == Flatten(c.attempts) && Tallies(counts, c.seen)
    ensures WithinLimits(cfg, prefix, events, c, counts)
    ensures Truthful(rules, Played(c, h))
    ensures EndsIn(cfg, rules, env, 0, last, START, Played(c, h))
  {
    hide Playing, RunFrom, Flatten, Tallies, Over, Truthful, WithinLimits, EndsIn;
    var ex := new AgentExecution(cfg, rules);
    h := Running;
    var k := 0;
    ghost var whole := RunFrom(cfg, rules, env, 0, START);
    while h.Running?
      invariant ex.cfg == cfg && ex.rules == rules && fresh(ex) && fresh(ex.detector) && ex.Fits()
      invariant whole == if h.Running? then RunFrom(cfg, rules, env, k, ex.Now()) else Played(ex.Now(), h)
      invariant ex.steps <= cfg.maxSteps
      decreases if h.Running? then cfg.maxSteps + 1 - ex.steps else 0
    {
      ghost var before := ex.Now();
      h := ex.PlayRound(env(k));
      RunUnfolds(cfg, rules, env, k, before, Played(ex.Now(), h));
      StepsStayWithin(cfg, rules, before, env(k), Played(ex.Now(), h));
      k := k + 1;
    }
    c, events, counts := ex.Now(), ex.events, ex.detector.counts;
    RunKeepsLimits(cfg, rules, prefix, env, Played(c, h), counts);
    last := RunIsCaused(cfg, rules, env, 0, START);
  }

  lemma CountsAreUnique(counts: map<Action, nat>, other: map<Action, nat>, seen: multiset<Action>)
    requires Tallies(counts, seen) && Tallies(other, seen)
    ensures counts == other
  {
    forall a ensures a in counts <==> a in other {
      assert Times(counts, a) == seen[a] == Times(other, a);
    }
    forall a | a in counts ensures counts[a] == other[a] {
      assert Times(counts, a) == seen[a] == Times(other, a);
    }
  }

  /** Two executions whose environments differ only in their suspensions do the same: the same
      halt and result, the same events, the same counts. Resuming from a snapshot is
      invisible, wherever and however often it happens. */
  method ResumptionIsInvisible(cfg: Config, rules: Rules, prefix: string, env: nat -> Round, other: nat -> Round)
    returns (h: Halt, h': Halt, es: seq<Event>, es': seq<Event>, counts: map<Action, nat>, counts': map<Action, nat>)
    requires ValidConfig(cfg) && SameButResumed(env, other)
    ensures h == h' && es == es' && counts == counts'
  {
    ghost var c, c', last, last';
    h, es, counts, c, last := RunAgent(cfg, rules, prefix, env);
    h', es', counts', c', last' := RunAgent(cfg, rules, prefix, other);
    SameRun(cfg, rules, env, other, 0, START);
    CountsAreUnique(counts, counts', c.seen);
  }
}
