/** What storing an agent run may ask of its repository: one write and commit for the new
    row, then one for its terminal row. */
module RunProtocol {

  datatype Row = RunningRow | ResultRow(response: string) | FailedRow | StoppedRow

  /** What reaches the repository, in order. `Commit` is the call, `Acked` its return. */
  datatype Call = Write(row: Row) | Commit(row: Row, terminal: bool) | Acked | RolledBack

  datatype Stage = Fresh | InitialOpen | Running | TerminalOpen(row: Row) | Closed(row: Row) | Broken

  /** `pending` holds the writes a commit would make durable. */
  datatype Protocol = Protocol(stage: Stage, pending: seq<Row>)

  const START := Protocol(Fresh, [])

  function Advance(p: Protocol, c: Call): Protocol
  {
    match c
    case Write(row) =>
      if p.stage == Fresh || p.stage == Running then p.(pending := p.pending + [row]) else p.(stage := Broken)
    case Commit(row, terminal) =>
      if p.pending != [row] then p.(stage := Broken)
      else if !terminal && p.stage == Fresh && row == RunningRow then p.(stage := InitialOpen)
      else if terminal && p.stage == Running && row != RunningRow then p.(stage := TerminalOpen(row))
      else p.(stage := Broken)
    case Acked =>
      if p.pending == [] then p.(stage := Broken)
      else if p.stage == InitialOpen then Protocol(Running, [])
      else if p.stage.TerminalOpen? then Protocol(Closed(p.stage.row), [])
      else p.(stage := Broken)
    case RolledBack => p.(pending := [])
  }

  function After(log: seq<Call>): Protocol
  {
    if log == [] then START else Advance(After(log[..|log| - 1]), log[|log| - 1])
  }

  predicate Legal(log: seq<Call>) { After(log).stage != Broken }

  lemma AfterAppend(log: seq<Call>, c: Call)
    ensures After(log + [c]) == Advance(After(log), c)
  {
    assert (log + [c])[..|log|] == log;
  }

  lemma {:induction false} LegalPrefix(log: seq<Call>, n: nat)
    requires Legal(log) && n <= |log|
    ensures Legal(log[..n])
  {
    if n < |log| {
      LegalPrefix(log[..|log| - 1], n);
      assert log[..|log| - 1][..n] == log[..n];
    } else {
      assert log[..n] == log;
    }
  }

  function Rank(s: Stage): nat
  {
    match s case Fresh => 0 case InitialOpen => 1 case Running => 2 case TerminalOpen(_) => 3 case _ => 4
  }

  /** The protocol only moves forward, and a commit always moves it. */
  lemma {:induction false} RankGrows(log: seq<Call>, i: nat)
    requires Legal(log) && i < |log|
    ensures Legal(log[..i]) && Legal(log[..i + 1])
    ensures Rank(After(log[..i]).stage) <= Rank(After(log[..i + 1]).stage) <= Rank(After(log).stage)
    ensures After(log[..i + 1]) == Advance(After(log[..i]), log[i])
  {
    LegalPrefix(log, i);
    LegalPrefix(log, i + 1);
    assert log[..i + 1] == log[..i] + [log[i]];
    AfterAppend(log[..i], log[i]);
    if i < |log| - 1 {
      var shorter := log[..|log| - 1];
      RankGrows(shorter, i);
      assert shorter[..i] == log[..i] && shorter[..i + 1] == log[..i + 1];
    } else {
      assert log[..i + 1] == log;
    }
  }

  /** At most one terminal row is ever submitted for commit. */
  lemma OneTerminalCommit(log: seq<Call>, i: nat, j: nat)
    requires Legal(log) && i < j < |log|
    requires log[i].Commit? && log[i].terminal
    ensures !(log[j].Commit? && log[j].terminal)
  {
    LegalPrefix(log, j);
    RankGrows(log[..j], i);
    assert log[..j][..i] == log[..i] && log[..j][..i + 1] == log[..i + 1];
    RankGrows(log, j);
  }

  /** Nothing is written or committed after a commit whose return was never seen. */
  lemma {:induction false} NoRetryOfUncertainCommit(log: seq<Call>, i: nat, j: nat)
    requires Legal(log) && i < j < |log| && log[i].Commit?
    requires Acked !in log[i + 1..j]
    ensures !log[j].Commit? && !log[j].Write?
  {
    StaysOpen(log, i, j);
    RankGrows(log, j);
  }

  predicate Open(s: Stage) { s == InitialOpen || s.TerminalOpen? }

  lemma {:induction false} StaysOpen(log: seq<Call>, i: nat, j: nat)
    requires Legal(log) && i < j <= |log| && log[i].Commit?
    requires Acked !in log[i + 1..j]
    ensures Open(After(log[..j]).stage)
    decreases j
  {
    RankGrows(log, j - 1);
    if i < j - 1 {
      assert log[i + 1..j] == log[i + 1..j - 1] + [log[j - 1]];
      StaysOpen(log, i, j - 1);
    }
  }

  /** The rows whose commit was acknowledged. */
  function Durable(log: seq<Call>): seq<Row>
  {
    if |log| < 2 then []
    else
      var n := |log|;
      Durable(log[..n - 1]) + (if log[n - 1].Acked? && log[n - 2].Commit? then [log[n - 2].row] else [])
  }

  function Expected(s: Stage): seq<Row>
  {
    match s
    case Running => [RunningRow]
    case TerminalOpen(_) => [RunningRow]
    case Closed(row) => [RunningRow, row]
    case _ => []
  }

  /** A commit still waiting has its one row pending, and was the last call. */
  predicate WaitsFor(p: Protocol, row: Row) { p.pending == [row] && (p.stage == InitialOpen ==> row == RunningRow) }

  predicate OpenOk(p: Protocol, last: Call)
  {
    Open(p.stage) && p.pending != [] ==>
      last.Commit? && WaitsFor(p, last.row) && (p.stage.TerminalOpen? ==> p.stage.row == last.row)
  }

  lemma {:induction false} OpenAtCommit(log: seq<Call>)
    requires Legal(log) && log != []
    ensures OpenOk(After(log), log[|log| - 1])
  {
    LegalPrefix(log, |log| - 1);
    if |log| >= 2 {
      OpenAtCommit(log[..|log| - 1]);
    }
  }

  /** The durable rows are the ones the stage tells: none, the new row, or the new row
      followed by the one terminal row. */
  lemma {:induction false} DurableByStage(log: seq<Call>)
    requires Legal(log)
    ensures Durable(log) == Expected(After(log).stage)
  {
    if log != [] {
      var shorter := log[..|log| - 1];
      LegalPrefix(log, |log| - 1);
      DurableByStage(shorter);
      if shorter != [] {
        OpenAtCommit(shorter);
        assert log[|log| - 2] == shorter[|shorter| - 1];
      }
    }
  }
}
