/** Storing an agent run as the service does it, flag by flag and await by await, proved
    against the course of a run: every repository call follows the protocol, and what the
    caller is told is true of storage. */
module RunPersistence {
  import opened Text
  import opened RunProtocol
  import opened RunCourse
  import EventStream

  class AgentRunService {
    const env: Env
    var position: nat
    var cancelling: nat
    var hasRunId: bool
    var initialAcknowledged: bool
    var terminalAcknowledged: bool
    var terminalPhaseSucceeded: bool
    var commitStarted: bool
    var commitAcknowledged: bool
    var log: seq<Call>
    ghost var protocol: Protocol
    ghost var commitAwait: nat

    constructor (env: Env, cancelling: nat)
      ensures Fits() && log == [] && Pending() == [] && this.env == env
      ensures Here() == Place(0, cancelling, Fresh, 0)
    {
      this.env, position, this.cancelling := env, 0, cancelling;
      hasRunId, initialAcknowledged, terminalAcknowledged, terminalPhaseSucceeded := false, false, false, false;
      commitStarted, commitAcknowledged, log, protocol, commitAwait := false, false, [], START, 0;
    }

    ghost function Stage(): Stage reads `protocol { protocol.stage }

    ghost function Pending(): seq<Row> reads `protocol { protocol.pending }

    ghost function Here(): Place
      reads `position, `cancelling, `protocol, `commitAwait
    {
      Place(position, cancelling, protocol.stage, commitAwait)
    }

    /** `protocol` is where the calls so far have brought the repository. */
    ghost predicate Traced() reads `protocol, `log { protocol == After(log) }

    predicate Uncertain() reads `commitStarted, `commitAcknowledged { commitStarted && !commitAcknowledged }

    /** The acknowledgement flags say exactly where the protocol stands. */
    ghost predicate Fits()
      reads `protocol, `log, `hasRunId, `initialAcknowledged, `terminalAcknowledged
      reads `terminalPhaseSucceeded, `commitStarted, `commitAcknowledged
    {
      && Traced() && Stage() != Broken
      && (terminalAcknowledged <==> Stage().Closed?)
      && (Uncertain() <==> Open(Stage()))
      && (initialAcknowledged <==> Rank(Stage()) >= 2)
      && (initialAcknowledged ==> hasRunId)
      && (terminalPhaseSucceeded ==> terminalAcknowledged)
    }

    method Await() returns (a: RunCourse.Await)
      modifies `position, `cancelling
      ensures a == env(old(position)) && Here() == Next(env, old(Here()))
    {
      a := env(position);
      position := position + 1;
      cancelling := cancelling + a.cancels;
    }

    method Record(c: Call)
      requires Traced()
      modifies `log, `protocol
      ensures Traced() && protocol == Advance(old(protocol), c)
    {
      AfterAppend(log, c);
      log := log + [c];
      protocol := Advance(protocol, c);
    }

    /** An await that did not return, or the check after one that did: `before` is the number
        of requests at the start of the operation. */
    function Judge(a: RunCourse.Await, before: nat, owned: bool): PhaseEnd
      reads `cancelling
    {
      if a.outcome != Done then
        (if a.outcome == Cancelled && !owned && cancelling > before then PhaseCancelled else PhaseStorage)
      else if !owned && cancelling > before then PhaseCancelled
      else if a.expired then PhaseStorage
      else PhaseOk
    }

    /** `_persist_phase`: write, commit, acknowledge. */
    method PersistPhase(terminal: bool, row: Row, owned: bool) returns (end: PhaseEnd)
      requires Fits() && Pending() == [] && Stage() == (if terminal then Running else Fresh)
      requires terminal <==> row != RunningRow
      modifies this
      ensures Fits() && Left(end, Here()) == Phase(env, old(Here()), terminal, row, owned)
      ensures end == PhaseOk ==> Pending() == []
      ensures terminalPhaseSucceeded == (terminal && end == PhaseOk)
    {
      hide Writing, Committing;
      commitStarted, commitAcknowledged := false, false;
      var before;
      end, before := WritePhase(row, owned);
      if end == PhaseOk {
        end := CommitPhase(terminal, row, owned, before);
      }
    }

    /** The first half of a phase: yield, write and check. No request is left over. */
    method WritePhase(row: Row, owned: bool) returns (end: PhaseEnd, before: nat)
      requires Fits() && Pending() == [] && (Stage() == Running || Stage() == Fresh)
      modifies `position, `cancelling, `log, `protocol, `hasRunId
      ensures Fits() && Left(end, Here()) == Writing(env, old(Here()), owned)
      ensures end == PhaseOk ==> Pending() == [row] && hasRunId && (owned || cancelling == before)
    {
      var a := Await();
      before := cancelling;
      if a.outcome == Cancelled && a.cancels > 0 && !owned {
        return PhaseCancelled, before;
      }
      if owned && a.expired {
        return PhaseStorage, before;
      }
      Record(Write(row));
      a := Await();
      if a.outcome == Done {
        hasRunId := true;
      }
      end := Judge(a, before, owned);
    }

    /** The commit is entered: from here on it is uncertain until it returns. */
    method EnterCommit(terminal: bool, row: Row)
      requires Fits() && Pending() == [row] && Stage() == (if terminal then Running else Fresh)
      requires terminal <==> row != RunningRow
      requires hasRunId && !commitAcknowledged
      modifies `commitStarted, `log, `protocol
      ensures Fits() && Pending() == [row] && Stage() == Opened(terminal, row)
    {
      commitStarted := true;
      Record(Commit(row, terminal));
    }

    /** The commit returned: the flags move before anything else is awaited. */
    method Acknowledge(terminal: bool)
      requires Fits() && Pending() != [] && hasRunId && !terminalPhaseSucceeded
      requires if terminal then Stage().TerminalOpen? else Stage() == InitialOpen
      modifies `commitAcknowledged, `log, `protocol, `terminalAcknowledged, `initialAcknowledged
      ensures Fits() && Pending() == []
      ensures Stage() == if terminal then Closed(old(Stage()).row) else Running
    {
      commitAcknowledged := true;
      Record(Acked);
      if terminal {
        terminalAcknowledged := true;
      } else {
        initialAcknowledged := true;
      }
    }

    /** The second half of a phase, from the commit on. */
    method CommitPhase(terminal: bool, row: Row, owned: bool, before: nat) returns (end: PhaseEnd)
      requires Fits() && Pending() == [row] && Stage() == (if terminal then Running else Fresh)
      requires terminal <==> row != RunningRow
      requires hasRunId && !commitStarted && !commitAcknowledged && (owned || cancelling == before)
      modifies this
      ensures Fits() && Left(end, Here()) == Committing(env, old(Here()), terminal, row, owned)
      ensures end == PhaseOk ==> Pending() == []
      ensures terminalPhaseSucceeded == (terminal && end == PhaseOk)
    {
      EnterCommit(terminal, row);
      commitAwait := position;
      var a := Await();
      if a.outcome == Done {
        Acknowledge(terminal);
      }
      end := Judge(a, before, owned);
      if end == PhaseOk && terminal {
        terminalPhaseSucceeded := true;
      }
    }

    /** `_safe_rollback`: true, false or interrupted by a new cancellation request. */
    method Rollback(owned: bool) returns (end: PhaseEnd)
      requires Fits()
      modifies `position, `cancelling, `log, `protocol
      ensures Fits() && Left(end, Here()) == RollingBack(env, old(Here()), owned)
      ensures end == PhaseOk ==> Pending() == []
    {
      var a := Await();
      if a.outcome == Cancelled && a.cancels > 0 && !owned {
        return PhaseCancelled;
      }
      var before := cancelling;
      a := Await();
      if a.outcome == Done {
        Record(RolledBack);
      }
      end := Judge(a, before, owned);
    }

    /** `_record_audit`: its own failures are swallowed. */
    method Audit(owned: bool) returns (cancelled: bool)
      modifies `position, `cancelling
      ensures Left(cancelled, Here()) == Auditing(env, old(Here()), owned)
    {
      var a := Await();
      if a.outcome == Cancelled && a.cancels > 0 && !owned {
        return true;
      }
      var before := cancelling;
      a := Await();
      cancelled := a.outcome == Cancelled && cancelling > before && !owned;
    }

    /** `_finish_cancellation`: only an acknowledged commit in time proves the stop. */
    method FinishCancellation() returns (persisted: bool)
      requires Fits() && Stage() == Running && !terminalPhaseSucceeded
      modifies this
      ensures Fits() && Left(persisted, Here()) == Cancelling(env, old(Here()))
      ensures persisted == terminalPhaseSucceeded
    {
      hide Phase, Auditing;
      var cleaned := Rollback(true);
      if cleaned == PhaseOk {
        var end := PersistPhase(true, StoppedRow, true);
        if end == PhaseOk {
          var _ := Audit(true);
        }
      }
      return terminalPhaseSucceeded;
    }

    /** The creation of the run's row, and its audit. */
    method CreateRun() returns (end: PhaseEnd)
      requires Fits() && Stage() == Fresh && Pending() == []
      modifies this
      ensures Fits() && Left(end, Here()) == Creating(env, old(Here()))
      ensures !terminalPhaseSucceeded && (end == PhaseOk ==> Pending() == [])
    {
      hide Phase, Auditing;
      end := PersistPhase(false, RunningRow, false);
      if end == PhaseOk {
        var stop := Audit(false);
        end := if stop then PhaseCancelled else PhaseOk;
      }
    }

    /** The terminal row of a run that ended by itself, and its audit. */
    method StoreRow(row: Row) returns (end: PhaseEnd)
      requires Fits() && Stage() == Running && Pending() == [] && row != RunningRow
      modifies this
      ensures Fits() && Left(end, Here()) == Storing(env, old(Here()), row)
      ensures end == PhaseStorage ==> !terminalPhaseSucceeded
      ensures end != PhaseOk && !Stage().Closed? ==> !terminalPhaseSucceeded
    {
      hide Phase, Auditing;
      end := PersistPhase(true, row, false);
      if end == PhaseOk {
        var stop := Audit(false);
        end := if stop then PhaseCancelled else PhaseOk;
      }
    }

    /** The guarded body of `run` after its first yield. */
    method Execute(result: string) returns (end: TryEnd)
      requires Fits() && Stage() == Fresh && Pending() == []
      modifies this
      ensures Fits() && Left(end, Here()) == Executing(env, old(Here()), result)
      ensures end == TryError(EventStream.StorageFailed) ==> !terminalPhaseSucceeded
    {
      hide Creating, Storing;
      CreatingLaw(env, Here());
      var created := CreateRun();
      if created != PhaseOk {
        return FromPhase(created);
      }
      var ran := Await();
      if ran.outcome == Cancelled {
        return TryCancelled;
      }
      var row := if ran.outcome == Done then ResultRow(result) else FailedRow;
      var updated := StoreRow(row);
      if updated != PhaseOk {
        return FromPhase(updated);
      }
      return if ran.outcome == Done then Returned(row) else TryError(EventStream.RunFailed);
    }

    /** The cancellation handler of `run`. */
    method OnCancelled(baseline: nat) returns (end: RunEnd)
      requires Fits()
      modifies this
      ensures Fits() && Left(end, Here()) == Handling(env, old(Here()), baseline)
      ensures end.Failure? ==> !terminalPhaseSucceeded
    {
      hide Cancelling, RollingBack;
      if terminalAcknowledged {
        return RunCancelled;
      }
      var persisted := false;
      if initialAcknowledged && !Uncertain() && hasRunId {
        persisted := FinishCancellation();
      } else {
        var _ := Rollback(true);
      }
      if !persisted && cancelling <= baseline {
        return Failure(EventStream.StorageFailed);
      }
      return RunCancelled;
    }

    /** `run` for a caller who may run agents. */
    method RunPermitted(result: string) returns (end: RunEnd)
      requires Fits() && Stage() == Fresh && Pending() == []
      modifies this
      ensures Fits() && Left(end, Here()) == RunFrom(env, old(Here()), result)
      ensures end == Failure(EventStream.StorageFailed) ==> !terminalPhaseSucceeded
    {
      hide Executing, Handling, RollingBack;
      var y := Await();
      var stop := y.outcome == Cancelled && y.cancels > 0;
      var baseline := if stop then 0 else cancelling;
      var ending := TryCancelled;
      if !stop {
        ending := Execute(result);
      }
      match ending {
        case Returned(row) => end := Response(row);
        case TryCancelled => end := OnCancelled(baseline);
        case TryError(code) =>
          var cleaned := Rollback(false);
          end := if cleaned == PhaseCancelled then RunCancelled else Failure(code);
      }
    }

    /** How the runtime ended, in a run from `p`, if it was reached. */
    ghost function RanFrom(p: Place): Option<Outcome>
    {
      if Stops(env(p.at), false) then None else Ran(env, Next(env, p))
    }

    /** The last commit returned, but after its deadline. */
    ghost predicate CommittedLate() reads `commitAwait { Late(env, commitAwait) }

    /** `run`: every path through storage, the runtime and cancellation. */
    method Run(permitted: bool, result: string) returns (end: RunEnd)
      requires Fits() && Stage() == Fresh && Pending() == []
      modifies this
      ensures Legal(log) && cancelling >= old(cancelling) && Durable(log) == Expected(Stage())
      ensures permitted ==> Left(end, Here()) == RunFrom(env, old(Here()), result)
      ensures !permitted ==> log == old(log)
      ensures end == Failure(EventStream.RunForbidden) ==> !permitted
      ensures end.Failure? ==> end.code != EventStream.RunCancelled && end.code != EventStream.StreamOverflow
      ensures !permitted ==>
                end == Failure(EventStream.RunForbidden) || (end == RunCancelled && cancelling > old(cancelling))
      ensures end.Response? ==>
                && permitted && RanFrom(old(Here())) == Some(Done)
                && end.row == ResultRow(result) && Durable(log) == [RunningRow, end.row]
      ensures end == Failure(EventStream.RunFailed) ==>
                RanFrom(old(Here())) == Some(Raised) && Durable(log) == [RunningRow, FailedRow]
      ensures end == Failure(EventStream.StorageFailed) ==> !terminalPhaseSucceeded
      ensures end == Failure(EventStream.StorageFailed) ==>
                Durable(log) == [] || Durable(log) == [RunningRow] || CommittedLate()
      ensures end == RunCancelled && cancelling == old(cancelling) ==>
                RanFrom(old(Here())) == Some(Cancelled) && Durable(log) == [RunningRow, StoppedRow]
      ensures permitted && |Durable(log)| == 2 && cancelling == old(cancelling) ==>
                (end == Failure(EventStream.StorageFailed) <==> CommittedLate())
    {
      hide RunFrom, Ran;
      if permitted {
        TruthTold(env, Here(), result);
        end := RunPermitted(result);
      } else {
        var interrupted := Audit(false);
        end := if interrupted then RunCancelled else Failure(EventStream.RunForbidden);
      }
      DurableByStage(log);
    }

    /** `produce`: the terminal event a streamed run announces, if any. */
    method Produce(permitted: bool, result: string, sink: EventStream.Sink) returns (terminal: Option<EventStream.Kind>)
      requires Fits() && Stage() == Fresh && Pending() == [] && cancelling == 0
      modifies this
      ensures Legal(log)
      ensures terminal == None ==> cancelling > 0
      ensures terminal.Some? ==> EventStream.Terminal(terminal.value)
      ensures terminal.Some? && terminal.value.Final? ==>
                terminal.value.response == result && Durable(log) == [RunningRow, ResultRow(result)] && !sink.overflowed
      ensures terminal == Some(EventStream.Error(EventStream.RunCancelled)) ==>
                RanFrom(old(Here())) == Some(Cancelled) && Durable(log) == [RunningRow, StoppedRow]
      ensures terminal == Some(EventStream.Error(EventStream.RunFailed)) ==>
                RanFrom(old(Here())) == Some(Raised) && Durable(log) == [RunningRow, FailedRow]
      ensures terminal == Some(EventStream.Error(EventStream.StreamOverflow)) ==>
                sink.overflowed && Durable(log) == [RunningRow, ResultRow(result)]
      ensures terminal == Some(EventStream.Error(EventStream.RunForbidden)) ==> log == old(log)
      ensures terminal == Some(EventStream.Error(EventStream.StorageFailed)) ==>
                Durable(log) == [] || Durable(log) == [RunningRow] || CommittedLate()
      ensures permitted && |Durable(log)| == 2 && cancelling == 0 ==>
                (terminal == Some(EventStream.Error(EventStream.StorageFailed)) <==> CommittedLate())
      ensures permitted && RunFrom(env, old(Here()), result).end == Response(ResultRow(result)) ==>
                terminal == Some(EventStream.FinishKind(sink, result))
      ensures permitted && RunFrom(env, old(Here()), result).end == RunCancelled && cancelling > 0 ==> terminal == None
    {
      hide RunFrom, Ran;
      var end := Run(permitted, result);
      match end
      case Response(row) => terminal := Some(EventStream.FinishKind(sink, row.response));
      case Failure(code) => terminal := Some(EventStream.Error(code));
      case RunCancelled =>
        terminal := if cancelling > 0 then None else Some(EventStream.Error(EventStream.RunCancelled));
    }
  }

  /** A run all of whose awaits are calm but one: it ends as the table says, and what it told
      its repository leaves what the table says. */
  method RunWithOneFault(result: string, k: nat, f: Fault) returns (end: RunEnd, log: seq<Call>)
    requires k < 12
    ensures end == AfterFault(k, f, result).0 && Durable(log) == Expected(AfterFault(k, f, result).1)
  {
    hide RunFrom, Ran;
    var service := new AgentRunService(i => if i == k then AwaitOf(f) else CALM, 0);
    ghost var start := service.Here();
    end := service.Run(true, result);
    log := service.log;
    FaultTable(service.env, start, result, k, f);
  }

  /** In particular: a run whose terminal commit returns late is reported as a storage failure,
      and its result is stored all the same. */
  method LateResultIsStored(result: string) returns (end: RunEnd, log: seq<Call>)
    ensures end == Failure(EventStream.StorageFailed) && Durable(log) == [RunningRow, ResultRow(result)]
  {
    end, log := RunWithOneFault(result, 9, ReturnsLate);
  }
}
