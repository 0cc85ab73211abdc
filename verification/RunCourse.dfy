/** How storing an agent run goes, as a function of every await's outcome: what the caller is
    told, and where the repository is left. */
module RunCourse {
  import opened Text
  import opened RunProtocol
  import EventStream

  datatype Outcome = Done | Raised | Cancelled

  /** How an await ends: its own outcome, the cancellation requests the caller's task
      received meanwhile, and whether a deadline around it has passed. */
  datatype Await = Await(outcome: Outcome, cancels: nat, expired: bool)

  datatype PhaseEnd = PhaseOk | PhaseCancelled | PhaseStorage

  datatype TryEnd = Returned(row: Row) | TryCancelled | TryError(code: EventStream.Code)

  datatype RunEnd = Response(row: Row) | Failure(code: EventStream.Code) | RunCancelled

  /** The outcomes of the awaits, in order. */
  type Env = nat -> Await

  /** Where a run stands: its next await, the requests for cancellation so far, the stage of
      the protocol, and the await of the last commit. */
  datatype Place = Place(at: nat, cancelling: nat, stage: Stage, commit: nat)

  /** How something ended, and where it left the run. */
  datatype Left<T> = Left(end: T, place: Place)

  /** Past one more await. */
  function Next(env: Env, p: Place): Place { p.(at := p.at + 1, cancelling := p.cancelling + env(p.at).cancels) }

  /** An await of the run's own task that a cancellation request interrupts. */
  predicate Stops(a: Await, owned: bool) { !owned && a.outcome == Cancelled && a.cancels > 0 }

  /** What a storage await comes to. One that did not return is a cancellation if a request
      came with it, else a storage failure; one that did is checked for a swallowed request
      and a passed deadline. An owned task never sees the requests. */
  function Judged(a: Await, owned: bool): PhaseEnd
  {
    if !owned && a.cancels > 0 && a.outcome != Raised then PhaseCancelled
    else if a.outcome != Done || a.expired then PhaseStorage
    else PhaseOk
  }

  // ---- the course of a run ----

  /** The first half of a phase: yield and write. */
  function Writing(env: Env, p: Place, owned: bool): Left<PhaseEnd>
  {
    var y := env(p.at);
    if Stops(y, owned) then Left(PhaseCancelled, Next(env, p))
    else if owned && y.expired then Left(PhaseStorage, Next(env, p))
    else Left(Judged(env(p.at + 1), owned), Next(env, Next(env, p)))
  }

  function Opened(terminal: bool, row: Row): Stage { if terminal then TerminalOpen(row) else InitialOpen }

  function Stored(terminal: bool, row: Row): Stage { if terminal then Closed(row) else Running }

  /** The second half: the commit. */
  function Committing(env: Env, p: Place, terminal: bool, row: Row, owned: bool): Left<PhaseEnd>
  {
    var c := env(p.at);
    var stage := if c.outcome == Done then Stored(terminal, row) else Opened(terminal, row);
    Left(Judged(c, owned), Next(env, p).(stage := stage, commit := p.at))
  }

  /** `_persist_phase` */
  function Phase(env: Env, p: Place, terminal: bool, row: Row, owned: bool): Left<PhaseEnd>
  {
    var w := Writing(env, p, owned);
    if w.end == PhaseOk then Committing(env, w.place, terminal, row, owned) else w
  }

  /** `_safe_rollback` */
  function RollingBack(env: Env, p: Place, owned: bool): Left<PhaseEnd>
  {
    if Stops(env(p.at), owned) then Left(PhaseCancelled, Next(env, p))
    else Left(Judged(env(p.at + 1), owned), Next(env, Next(env, p)))
  }

  /** `_record_audit`; the end says whether the run is cancelled. */
  function Auditing(env: Env, p: Place, owned: bool): Left<bool>
  {
    if Stops(env(p.at), owned) then Left(true, Next(env, p))
    else Left(Stops(env(p.at + 1), owned), Next(env, Next(env, p)))
  }

  /** What follows a phase of the run's own task: its audit. */
  function Audited(env: Env, l: Left<PhaseEnd>): Left<PhaseEnd>
  {
    if l.end != PhaseOk then l
    else
      var a := Auditing(env, l.place, false);
      Left(if a.end then PhaseCancelled else PhaseOk, a.place)
  }

  function Creating(env: Env, p: Place): Left<PhaseEnd> { Audited(env, Phase(env, p, false, RunningRow, false)) }

  function Storing(env: Env, p: Place, row: Row): Left<PhaseEnd> { Audited(env, Phase(env, p, true, row, false)) }

  /** `_finish_cancellation`; the end says whether the stop is persisted. */
  function Cancelling(env: Env, p: Place): Left<bool>
  {
    var r := RollingBack(env, p, true);
    if r.end != PhaseOk then Left(false, r.place)
    else
      var s := Phase(env, r.place, true, StoppedRow, true);
      if s.end != PhaseOk then Left(false, s.place) else Left(true, Auditing(env, s.place, true).place)
  }

  function FromPhase(end: PhaseEnd): TryEnd
  {
    if end == PhaseCancelled then TryCancelled else TryError(EventStream.StorageFailed)
  }

  /** The runtime has ended, and what it ended with is to be stored. */
  function Concluding(env: Env, p: Place, ran: Outcome, result: string): Left<TryEnd>
  {
    if ran == Cancelled then Left(TryCancelled, p)
    else
      var s := Storing(env, p, if ran == Done then ResultRow(result) else FailedRow);
      Left(if s.end != PhaseOk then FromPhase(s.end)
           else if ran == Done then Returned(ResultRow(result))
           else TryError(EventStream.RunFailed), s.place)
  }

  /** The guarded body of `run` after its first yield. */
  function Executing(env: Env, p: Place, result: string): Left<TryEnd>
  {
    var c := Creating(env, p);
    if c.end != PhaseOk then Left(FromPhase(c.end), c.place)
    else Concluding(env, Next(env, c.place), env(c.place.at).outcome, result)
  }

  function Reported(persisted: bool, p: Place, baseline: nat): Left<RunEnd>
  {
    Left(if !persisted && p.cancelling <= baseline then Failure(EventStream.StorageFailed) else RunCancelled, p)
  }

  /** The cancellation handler of `run`. */
  function Handling(env: Env, p: Place, baseline: nat): Left<RunEnd>
  {
    if p.stage.Closed? then Left(RunCancelled, p)
    else if p.stage == Running then
      var f := Cancelling(env, p);
      Reported(f.end, f.place, baseline)
    else Reported(false, RollingBack(env, p, true).place, baseline)
  }

  /** The handlers of `run`. */
  function Ending(env: Env, l: Left<TryEnd>, baseline: nat): Left<RunEnd>
  {
    match l.end
    case Returned(row) => Left(Response(row), l.place)
    case TryCancelled => Handling(env, l.place, baseline)
    case TryError(code) =>
      var r := RollingBack(env, l.place, false);
      Left(if r.end == PhaseCancelled then RunCancelled else Failure(code), r.place)
  }

  /** `run`, for a caller who may run agents. */
  function RunFrom(env: Env, p: Place, result: string): Left<RunEnd>
  {
    var p1 := Next(env, p);
    if Stops(env(p.at), false) then Ending(env, Left(TryCancelled, p1), 0)
    else Ending(env, Executing(env, p1, result), p1.cancelling)
  }

  // ---- one disturbance at a time ----

  const CALM := Await(Done, 0, false)

  /** The four ways an await can go wrong: the caller leaves, the operation cancels itself or
      raises, or it returns after its deadline. */
  datatype Fault = Leaves | CancelsItself | RaisesError | ReturnsLate

  function AwaitOf(f: Fault): Await
  {
    match f
    case Leaves => Await(Cancelled, 1, false)
    case CancelsItself => Await(Cancelled, 0, false)
    case RaisesError => Await(Raised, 0, false)
    case ReturnsLate => Await(Done, 0, true)
  }

  /** Every await from `at` on is calm, but the `k`-th, which goes wrong. */
  ghost predicate OnlyFault(env: Env, at: nat, k: nat, f: Fault)
  {
    env(at + k) == AwaitOf(f) && forall i: nat :: i >= at && i != at + k ==> env(i) == CALM
  }

  ghost predicate Calm(env: Env, at: nat) { forall i: nat :: i >= at ==> env(i) == CALM }

  /** What the caller of a run is told when one storage await fails, and the stage it leaves:
      awaits 2 and 3 are the write and commit of the new row, 8 and 9 those of the result. */
  function AfterStorageFault(k: nat, result: string): (RunEnd, Stage)
  {
    if k == 2 then (Failure(EventStream.StorageFailed), Fresh)
    else if k == 3 then (Failure(EventStream.StorageFailed), InitialOpen)
    else if k == 8 then (Failure(EventStream.StorageFailed), Running)
    else if k == 9 then (Failure(EventStream.StorageFailed), TerminalOpen(ResultRow(result)))
    else (Response(ResultRow(result)), Closed(ResultRow(result)))
  }

  /** The same for any fault; await 6 is the runtime. */
  function AfterFault(k: nat, f: Fault, result: string): (RunEnd, Stage)
  {
    match f
    case Leaves =>
      (RunCancelled, if k < 3 then Fresh else if k == 3 then InitialOpen
                     else if k < 9 then Closed(StoppedRow)
                     else if k == 9 then TerminalOpen(ResultRow(result)) else Closed(ResultRow(result)))
    case CancelsItself => if k == 6 then (RunCancelled, Closed(StoppedRow)) else AfterStorageFault(k, result)
    case RaisesError =>
      if k == 6 then (Failure(EventStream.RunFailed), Closed(FailedRow)) else AfterStorageFault(k, result)
    case ReturnsLate =>
      if k == 3 then (Failure(EventStream.StorageFailed), Running)
      else if k == 9 then (Failure(EventStream.StorageFailed), Closed(ResultRow(result)))
      else AfterStorageFault(k, result)
  }

  lemma CalmNext(env: Env, p: Place)
    requires env(p.at) == CALM
    ensures Next(env, p) == p.(at := p.at + 1)
  {
  }

  lemma CalmPhase(env: Env, p: Place, terminal: bool, row: Row, owned: bool)
    requires env(p.at) == env(p.at + 1) == env(p.at + 2) == CALM
    ensures Phase(env, p, terminal, row, owned)
            == Left(PhaseOk, p.(at := p.at + 3, stage := Stored(terminal, row), commit := p.at + 2))
  {
  }

  lemma CalmAudited(env: Env, l: Left<PhaseEnd>)
    requires l.end == PhaseOk && env(l.place.at) == env(l.place.at + 1) == CALM
    ensures Audited(env, l) == Left(PhaseOk, l.place.(at := l.place.at + 2))
  {
  }

  lemma CalmCancelling(env: Env, p: Place)
    requires Calm(env, p.at)
    ensures Cancelling(env, p).end && Cancelling(env, p).place.stage == Closed(StoppedRow)
    ensures Cancelling(env, p).place.cancelling == p.cancelling
  {
    hide Phase;
    var r := RollingBack(env, p, true);
    assert r == Left(PhaseOk, p.(at := p.at + 2));
    CalmPhase(env, r.place, true, StoppedRow, true);
  }

  lemma CalmHandling(env: Env, p: Place, baseline: nat)
    requires Calm(env, p.at)
    ensures var l := Handling(env, p, baseline);
            && l.place.cancelling == p.cancelling
            && l.place.stage == (if p.stage == Running then Closed(StoppedRow) else p.stage)
            && l.end == if p.stage.Closed? || p.stage == Running || p.cancelling > baseline then RunCancelled
                        else Failure(EventStream.StorageFailed)
  {
    hide Cancelling;
    if p.stage == Running {
      CalmCancelling(env, p);
    }
  }

  /** With calm awaits from here on, a body that ended in an error is reported as that. */
  lemma CalmEnding(env: Env, l: Left<TryEnd>, baseline: nat)
    requires Calm(env, l.place.at) && l.end.TryError?
    ensures Ending(env, l, baseline).end == Failure(l.end.code)
    ensures Ending(env, l, baseline).place.stage == l.place.stage
  {
  }

  function PhaseFaultStage(p: Place, terminal: bool, row: Row, j: nat, f: Fault): Stage
  {
    if j == 2 then (if f == ReturnsLate then Stored(terminal, row) else Opened(terminal, row)) else p.stage
  }

  /** A phase of the run's own task whose `j`-th await goes wrong. */
  lemma PhaseFault(env: Env, p: Place, terminal: bool, row: Row, j: nat, f: Fault)
    requires j < 3 && env(p.at + j) == AwaitOf(f) && (j == 0 ==> f == Leaves)
    requires forall i: nat :: p.at <= i < p.at + 3 && i != p.at + j ==> env(i) == CALM
    ensures var l := Phase(env, p, terminal, row, false);
            && l.end == (if f == Leaves then PhaseCancelled else PhaseStorage)
            && l.place.at == p.at + j + 1
            && l.place.cancelling == p.cancelling + (if f == Leaves then 1 else 0)
            && l.place.stage == PhaseFaultStage(p, terminal, row, j, f)
  {
  }

  /** The yield before a phase can only be interrupted by the caller. */
  lemma YieldFault(env: Env, p: Place, terminal: bool, row: Row, f: Fault)
    requires env(p.at) == AwaitOf(f) && f != Leaves && env(p.at + 1) == env(p.at + 2) == CALM
    ensures Phase(env, p, terminal, row, false)
            == Left(PhaseOk, p.(at := p.at + 3, stage := Stored(terminal, row), commit := p.at + 2))
  {
  }

  lemma AuditFault(env: Env, l: Left<PhaseEnd>, j: nat, f: Fault)
    requires l.end == PhaseOk && j < 2 && env(l.place.at + j) == AwaitOf(f)
    requires j == 1 ==> env(l.place.at) == CALM
    requires j == 0 && f != Leaves ==> env(l.place.at + 1) == CALM
    ensures var a := Audited(env, l);
            && a.end == (if f == Leaves then PhaseCancelled else PhaseOk)
            && a.place.cancelling == l.place.cancelling + (if f == Leaves then 1 else 0)
            && a.place.at == l.place.at + (if f == Leaves then j + 1 else 2)
            && a.place.stage == l.place.stage
  {
  }

  /** Once the new row is stored and the runtime has returned: awaits 7 to 11. */
  lemma FaultWhileStoring(env: Env, p: Place, result: string, k: nat, f: Fault, baseline: nat)
    requires p.stage == Running && p.cancelling == baseline
    requires 7 <= k < 12 && OnlyFault(env, p.at, k - 7, f)
    ensures var l := Ending(env, Concluding(env, p, Done, result), baseline);
            (l.end, l.place.stage) == AfterFault(k, f, result)
  {
    hide Phase, Handling, RollingBack;
    var row := ResultRow(result);
    var ph := Phase(env, p, true, row, false);
    if k < 10 {
      if k == 7 && f != Leaves {
        YieldFault(env, p, true, row, f);
        CalmAudited(env, ph);
      } else {
        PhaseFault(env, p, true, row, k - 7, f);
        EndingAfter(env, Left(FromPhase(ph.end), ph.place), baseline);
      }
    } else {
      CalmPhase(env, p, true, row, false);
      AuditFault(env, ph, k - 10, f);
      EndingAfter(env, Left(TryCancelled, Audited(env, ph).place), baseline);
    }
  }

  /** The handlers in a calm environment. */
  lemma EndingAfter(env: Env, l: Left<TryEnd>, baseline: nat)
    requires Calm(env, l.place.at) && (l.end == TryCancelled || l.end == TryError(EventStream.StorageFailed))
    ensures var e := Ending(env, l, baseline);
            && e.place.stage == (if l.end == TryCancelled && l.place.stage == Running
                                   then Closed(StoppedRow) else l.place.stage)
            && e.end == (if l.end == TryCancelled
                            && (l.place.stage.Closed? || l.place.stage == Running || l.place.cancelling > baseline)
                         then RunCancelled else Failure(EventStream.StorageFailed))
  {
    hide Handling;
    if l.end == TryCancelled {
      CalmHandling(env, l.place, baseline);
    } else {
      CalmEnding(env, l, baseline);
    }
  }

  /** The runtime itself ends otherwise: await 6. */
  lemma FaultOfRuntime(env: Env, p: Place, result: string, ran: Outcome, baseline: nat)
    requires p.stage == Running && p.cancelling >= baseline && Calm(env, p.at)
    ensures var l := Ending(env, Concluding(env, p, ran, result), baseline);
            (l.end, l.place.stage)
            == match ran
               case Done => (Response(ResultRow(result)), Closed(ResultRow(result)))
               case Raised => (Failure(EventStream.RunFailed), Closed(FailedRow))
               case Cancelled => (RunCancelled, Closed(StoppedRow))
  {
    hide Phase, Handling;
    if ran == Cancelled {
      EndingAfter(env, Left(TryCancelled, p), baseline);
    } else {
      var row := if ran == Done then ResultRow(result) else FailedRow;
      CalmPhase(env, p, true, row, false);
      CalmAudited(env, Phase(env, p, true, row, false));
      if ran == Raised {
        CalmEnding(env, Concluding(env, p, ran, result), baseline);
      }
    }
  }

  /** While the new row is created: awaits 1 to 5. */
  lemma FaultWhileCreating(env: Env, p: Place, result: string, k: nat, f: Fault)
    requires p.stage == Fresh && 1 <= k < 6 && OnlyFault(env, p.at, k - 1, f)
    ensures var l := Ending(env, Executing(env, p, result), p.cancelling);
            (l.end, l.place.stage) == AfterFault(k, f, result)
  {
    hide Phase, Handling, Concluding;
    var ph := Phase(env, p, false, RunningRow, false);
    if f == Leaves || k == 2 || k == 3 {
      if k < 4 {
        PhaseFault(env, p, false, RunningRow, k - 1, f);
        EndingAfter(env, Left(FromPhase(ph.end), ph.place), p.cancelling);
      } else {
        CalmPhase(env, p, false, RunningRow, false);
        AuditFault(env, ph, k - 4, f);
        EndingAfter(env, Left(TryCancelled, Audited(env, ph).place), p.cancelling);
      }
    } else {
      if k == 1 {
        YieldFault(env, p, false, RunningRow, f);
        CalmAudited(env, ph);
      } else {
        CalmPhase(env, p, false, RunningRow, false);
        AuditFault(env, ph, k - 4, f);
      }
      var c := Creating(env, p);
      assert c.end == PhaseOk && c.place.at == p.at + 5
             && c.place.cancelling == p.cancelling && c.place.stage == Running;
      CalmNext(env, c.place);
      FaultOfRuntime(env, Next(env, c.place), result, Done, p.cancelling);
    }
  }

  /** From the runtime on: awaits 6 to 11. */
  lemma FaultAfterCreating(env: Env, p: Place, result: string, k: nat, f: Fault)
    requires p.stage == Fresh && 6 <= k < 12 && OnlyFault(env, p.at, k - 1, f)
    ensures var l := Ending(env, Executing(env, p, result), p.cancelling);
            (l.end, l.place.stage) == AfterFault(k, f, result)
  {
    hide Phase, Handling, Concluding, Ending;
    var ph := Phase(env, p, false, RunningRow, false);
    CalmPhase(env, p, false, RunningRow, false);
    CalmAudited(env, ph);
    var c := Creating(env, p);
    assert c.end == PhaseOk && c.place.at == p.at + 5 && c.place.cancelling == p.cancelling && c.place.stage == Running;
    if k == 6 {
      FaultOfRuntime(env, Next(env, c.place), result, AwaitOf(f).outcome, p.cancelling);
    } else {
      CalmNext(env, c.place);
      FaultWhileStoring(env, Next(env, c.place), result, k, f, p.cancelling);
    }
  }

  /** Whichever one of its twelve awaits goes wrong, and however: what the caller is told,
      and what is stored. */
  lemma FaultTable(env: Env, p: Place, result: string, k: nat, f: Fault)
    requires p.stage == Fresh && k < 12 && OnlyFault(env, p.at, k, f)
    ensures var l := RunFrom(env, p, result); (l.end, l.place.stage) == AfterFault(k, f, result)
  {
    hide Handling, Executing;
    var p1 := Next(env, p);
    if k == 0 {
      if f == Leaves {
        EndingAfter(env, Left(TryCancelled, p1), 0);
      } else {
        NoFault(env, p1, result);
      }
    } else {
      CalmNext(env, p);
      if k < 6 {
        FaultWhileCreating(env, p1, result, k, f);
      } else {
        FaultAfterCreating(env, p1, result, k, f);
      }
    }
  }

  lemma NoFault(env: Env, p: Place, result: string)
    requires p.stage == Fresh && Calm(env, p.at)
    ensures var l := Ending(env, Executing(env, p, result), p.cancelling);
            l.end == Response(ResultRow(result)) && l.place.stage == Closed(ResultRow(result))
  {
    hide Phase, Handling, Concluding, Ending;
    CalmPhase(env, p, false, RunningRow, false);
    CalmAudited(env, Phase(env, p, false, RunningRow, false));
    var c := Creating(env, p);
    CalmNext(env, c.place);
    FaultOfRuntime(env, Next(env, c.place), result, Done, p.cancelling);
  }

  // ---- what every environment keeps ----

  /** The commit returned, but after its deadline. */
  predicate Late(env: Env, commit: nat) { env(commit).outcome == Done && env(commit).expired }

  /** Where one phase for `row` can leave the protocol. */
  predicate Within(s: Stage, from: Stage, terminal: bool, row: Row)
  {
    s == from || s == Opened(terminal, row) || s == Stored(terminal, row)
  }

  lemma PhaseLaw(env: Env, p: Place, terminal: bool, row: Row, owned: bool)
    requires p.stage == if terminal then Running else Fresh
    ensures var l := Phase(env, p, terminal, row, owned);
            && l.place.cancelling >= p.cancelling && Within(l.place.stage, p.stage, terminal, row)
            && (l.end == PhaseOk ==> l.place.stage == Stored(terminal, row))
            && (l.end == PhaseCancelled ==> !owned && l.place.cancelling > p.cancelling)
            && (terminal && l.place.stage.Closed? ==>
                  && (l.end == PhaseOk ==> !Late(env, l.place.commit))
                  && (l.end == PhaseStorage ==> Late(env, l.place.commit)))
  {
  }

  lemma StoringLaw(env: Env, p: Place, row: Row)
    requires p.stage == Running
    ensures var l := Storing(env, p, row);
            && l.place.cancelling >= p.cancelling && Within(l.place.stage, Running, true, row)
            && (l.end == PhaseOk ==> l.place.stage == Closed(row) && !Late(env, l.place.commit))
            && (l.end == PhaseCancelled ==> l.place.cancelling > p.cancelling)
            && (l.place.stage.Closed? && l.end == PhaseStorage ==> Late(env, l.place.commit))
  {
    hide Phase;
    PhaseLaw(env, p, true, row, false);
  }

  lemma CreatingLaw(env: Env, p: Place)
    requires p.stage == Fresh
    ensures var l := Creating(env, p);
            && l.place.cancelling >= p.cancelling && Within(l.place.stage, Fresh, false, RunningRow)
            && (l.end == PhaseOk ==> l.place.stage == Running)
            && (l.end == PhaseCancelled ==> l.place.cancelling > p.cancelling)
  {
    hide Phase;
    PhaseLaw(env, p, false, RunningRow, false);
  }

  lemma CancellingLaw(env: Env, p: Place)
    requires p.stage == Running
    ensures var l := Cancelling(env, p);
            && l.place.cancelling >= p.cancelling && Within(l.place.stage, Running, true, StoppedRow)
            && (l.end ==> l.place.stage == Closed(StoppedRow) && !Late(env, l.place.commit))
            && (!l.end && l.place.stage.Closed? ==> Late(env, l.place.commit))
  {
    hide Phase;
    var r := RollingBack(env, p, true);
    PhaseLaw(env, r.place, true, StoppedRow, true);
  }

  /** What is true of the guarded body, wherever it stops. */
  predicate BodyLaw(env: Env, l: Left<TryEnd>, before: nat, ran: Option<Outcome>, result: string)
  {
    && l.place.cancelling >= before && l.place.stage != Broken
    && (l.place.stage.Closed? ==> ran == Some(Done) || ran == Some(Raised))
    && (l.end.Returned? ==> ran == Some(Done) && l.end.row == ResultRow(result) && l.place.stage == Closed(l.end.row))
    && (l.end == TryError(EventStream.RunFailed) ==> ran == Some(Raised) && l.place.stage == Closed(FailedRow))
    && (l.end.TryError? ==> l.end.code == EventStream.RunFailed || l.end.code == EventStream.StorageFailed)
    && (l.end == TryCancelled && l.place.cancelling == before ==> ran == Some(Cancelled) && l.place.stage == Running)
    && (l.place.stage.Closed? ==>
          && l.place.stage.row == (if ran == Some(Done) then ResultRow(result) else FailedRow)
          && (l.end == TryError(EventStream.StorageFailed) ==> Late(env, l.place.commit))
          && (Late(env, l.place.commit) && l.place.cancelling == before ==>
               l.end == TryError(EventStream.StorageFailed)))
  }

  /** How the runtime ended, if it was reached. */
  function Ran(env: Env, p: Place): Option<Outcome>
  {
    var c := Creating(env, p);
    if c.end == PhaseOk then Some(env(c.place.at).outcome) else None
  }

  lemma ConcludingLaw(env: Env, p: Place, before: nat, ran: Outcome, result: string)
    requires p.stage == Running && p.cancelling >= before
    ensures BodyLaw(env, Concluding(env, p, ran, result), before, Some(ran), result)
  {
    hide Storing;
    StoringLaw(env, p, if ran == Done then ResultRow(result) else FailedRow);
  }

  lemma ExecutingLaw(env: Env, p: Place, result: string)
    requires p.stage == Fresh
    ensures BodyLaw(env, Executing(env, p, result), p.cancelling, Ran(env, p), result)
  {
    hide Creating, Concluding;
    CreatingLaw(env, p);
    var c := Creating(env, p);
    if c.end == PhaseOk {
      ConcludingLaw(env, Next(env, c.place), p.cancelling, env(c.place.at).outcome, result);
    }
  }

  /** What the caller is told is true of storage and of the runtime, in every environment;
      `ran` says how the runtime ended, `before` how many requests had come by the start. */
  predicate Truthful(env: Env, l: Left<RunEnd>, before: nat, ran: Option<Outcome>, result: string)
  {
    && l.place.cancelling >= before && l.place.stage != Broken
    && (l.end.Response? ==> ran == Some(Done) && l.end.row == ResultRow(result) && l.place.stage == Closed(l.end.row))
    && (l.end.Failure? ==> l.end.code == EventStream.RunFailed || l.end.code == EventStream.StorageFailed)
    && (l.end == Failure(EventStream.RunFailed) ==> ran == Some(Raised) && l.place.stage == Closed(FailedRow))
    && (l.end == RunCancelled && l.place.cancelling == before ==>
          ran == Some(Cancelled) && l.place.stage == Closed(StoppedRow))
    && (l.place.stage.Closed? && l.end == Failure(EventStream.StorageFailed) ==> Late(env, l.place.commit))
    && (l.place.stage.Closed? && Late(env, l.place.commit) && l.place.cancelling == before ==>
          l.end == Failure(EventStream.StorageFailed))
    && (l.place.stage == Closed(ResultRow(result)) ==> ran == Some(Done))
    && (l.place.stage == Closed(FailedRow) ==> ran == Some(Raised))
    && (l.place.stage.Closed? ==>
          l.place.stage.row == ResultRow(result) || l.place.stage.row == FailedRow || l.place.stage.row == StoppedRow)
  }

  lemma HandlingLaw(env: Env, p: Place, before: nat, ran: Option<Outcome>, result: string)
    requires p.cancelling >= before && p.stage != Broken
    requires p.stage.Closed? ==>
               && (ran == Some(Done) || ran == Some(Raised)) && p.cancelling > before
               && p.stage.row == (if ran == Some(Done) then ResultRow(result) else FailedRow)
    requires p.cancelling == before ==> ran == Some(Cancelled) && p.stage == Running
    ensures Truthful(env, Handling(env, p, before), before, ran, result)
  {
    hide Cancelling;
    if p.stage == Running {
      CancellingLaw(env, p);
    }
  }

  lemma EndingLaw(env: Env, l: Left<TryEnd>, before: nat, ran: Option<Outcome>, result: string)
    requires BodyLaw(env, l, before, ran, result)
    ensures Truthful(env, Ending(env, l, before), before, ran, result)
  {
    hide Handling;
    if l.end == TryCancelled {
      HandlingLaw(env, l.place, before, ran, result);
    }
  }

  lemma TruthTold(env: Env, p: Place, result: string)
    requires p.stage == Fresh
    ensures var l := RunFrom(env, p, result);
            Truthful(env, l, p.cancelling, if Stops(env(p.at), false) then None else Ran(env, Next(env, p)), result)
  {
    hide Executing, Ending, Ran;
    var p1 := Next(env, p);
    if Stops(env(p.at), false) {
      LeftAtOnce(env, p1, p.cancelling, result);
    } else {
      ExecutingLaw(env, p1, result);
      EndingLaw(env, Executing(env, p1, result), p1.cancelling, Ran(env, p1), result);
    }
  }

  lemma LeftAtOnce(env: Env, p: Place, before: nat, result: string)
    requires p.stage == Fresh && p.cancelling > before
    ensures Truthful(env, Ending(env, Left(TryCancelled, p), 0), before, None, result)
  {
  }
}
