/** Transactions whose closure is a sequence of `execute` calls, as in the connection's
    tests: the first statement that throws ends the closure and triggers the rollback. */
module Transactions {
  import opened Values
  import opened Native
  import opened Rows
  import opened Connection

  /** One `execute` call: the scripted native layer for it, the codec, the SQL text and
      the parameters. */
  datatype Invocation = Invocation(driver: Driver, codec: Codec, query: string, values: seq<Node>)

  function Outcome(s: Invocation): Run<seq<Row>>
  {
    Connection.Execute(s.driver, s.codec, s.query, s.values)
  }

  /** Statement j throws and every statement before it returns. */
  predicate FirstToFail(stmts: seq<Invocation>, j: int)
  {
    && 0 <= j < |stmts|
    && Outcome(stmts[j]).result.Failure?
    && forall i :: 0 <= i < j ==> Outcome(stmts[i]).result.Success?
  }

  /** A closure running the statements in order with `try`: the first error propagates and
      the statements after it never run. */
  function RunStatements(stmts: seq<Invocation>): (run: Run<()>)
    ensures run.result.Success? <==> forall i :: 0 <= i < |stmts| ==> Outcome(stmts[i]).result.Success?
    ensures forall j :: FirstToFail(stmts, j) ==> run.result == Failure(Outcome(stmts[j]).result.error)
  {
    if |stmts| == 0 then Run(Success(()), [])
    else
      var first := Outcome(stmts[0]);
      if first.result.Failure? then Run(Failure(first.result.error), first.calls)
      else
        var rest := RunStatements(stmts[1..]);
        assert forall i :: 1 <= i < |stmts| ==> stmts[i] == stmts[1..][i - 1];
        Run(rest.result, first.calls + rest.calls)
  }

  /** A transaction whose statement j is the first to fail is rolled back and never
      committed; when the rollback succeeds the caller sees the statement's own error
      (for malformed SQL, `Prepare`), and when it fails the rollback's `Execute` error. */
  lemma FailedStatementRollsBack(t: TxDriver, stmts: seq<Invocation>, j: nat)
    requires t.start.Ok?
    requires FirstToFail(stmts, j)
    ensures var run := Transaction(t, RunStatements(stmts));
      && run.calls[|run.calls| - 1] == Query(Rollback)
      && run.result == Failure(if t.rollback.Ok? then Outcome(stmts[j]).result.error else Error.Execute(t.rollback.message))
  {
  }

  /** The same, for a failing statement whose SQL the server cannot prepare: the
      transaction ends with ROLLBACK and, when the rollback succeeds, rethrows `Prepare`. */
  lemma MalformedStatementRethrowsPrepare(t: TxDriver, stmts: seq<Invocation>, j: nat)
    requires t.start.Ok? && t.rollback.Ok?
    requires j < |stmts| && stmts[j].driver.stmtInit.Ok? && stmts[j].driver.prepare.Fail?
    requires forall i :: 0 <= i < j ==> Outcome(stmts[i]).result.Success?
    ensures var run := Transaction(t, RunStatements(stmts));
      && run.calls[|run.calls| - 1] == Query(Rollback)
      && run.result == Failure(Prepare(stmts[j].driver.prepare.message))
  {
    FailedStatementRollsBack(t, stmts, j);
  }

  /** A transaction whose statements all succeed is committed, never rolled back, and
      succeeds exactly when the commit does. */
  lemma SucceedingStatementsCommit(t: TxDriver, stmts: seq<Invocation>)
    requires t.start.Ok?
    requires forall i :: 0 <= i < |stmts| ==> Outcome(stmts[i]).result.Success?
    ensures var run := Transaction(t, RunStatements(stmts));
      && run.calls[|run.calls| - 1] == Query(Commit)
      && (run.result.Success? <==> t.commit.Ok?)
  {
  }
}
