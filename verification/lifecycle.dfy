/** The promises of `execute` a caller relies on, derived from the connection's functions
    and the fetch loop's behaviour. */
module Lifecycle {
  import opened Values
  import opened Native
  import opened Rows
  import opened Connection
  import opened Fetching

  /** Every step up to the metadata request succeeded, so the request was issued. */
  predicate ReachesMetadata(d: Driver, c: Codec, values: seq<Node>)
  {
    d.stmtInit.Ok? && d.prepare.Ok? && c.encode(values).Success? && d.bindParam.Ok?
  }

  /** The fetch loop issues no cleanup call. */
  lemma FetchLoopIssuesNoCleanup(d: Driver, c: Codec, fields: seq<Field>, k: nat, results: seq<Row>, parsed: Row)
    ensures var calls := FetchLoop(d, c, fields, k, results, parsed).calls;
      StmtClose !in calls && FreeResult !in calls && StmtExecute !in calls
  {
    var calls := FetchLoop(d, c, fields, k, results, parsed).calls;
    forall i | 0 <= i < |calls|
      ensures calls[i] != StmtClose && calls[i] != FreeResult && calls[i] != StmtExecute
    {
    }
  }

  /** Once a statement handle exists it is closed exactly once, by the last call issued,
      on every path: success and each error exit alike. */
  lemma StatementClosedOnce(d: Driver, c: Codec, query: string, values: seq<Node>)
    requires d.stmtInit.Ok?
    ensures var calls := Connection.Execute(d, c, query, values).calls;
      calls[|calls| - 1] == StmtClose && multiset(calls)[StmtClose] == 1
  {
    var body := WithStatement(d, c, query, values);
    assert Connection.Execute(d, c, query, values).calls == [StmtInit] + body.calls + [StmtClose];
    StatementBodyKeepsHandleOpen(d, c, query, values);
    assert multiset(body.calls)[StmtClose] == 0;
  }

  /** Nothing issued on a live handle closes it. */
  lemma StatementBodyKeepsHandleOpen(d: Driver, c: Codec, query: string, values: seq<Node>)
    ensures StmtClose !in WithStatement(d, c, query, values).calls
  {
    if ReachesMetadata(d, c, values) && d.metadata.Metadata? {
      ResultSetBranchIssuesNoCleanup(d, c, d.metadata.parse);
    }
  }

  /** The result-set branch neither frees the metadata nor closes the handle. */
  lemma ResultSetBranchIssuesNoCleanup(d: Driver, c: Codec, parse: FieldsParse)
    ensures var calls := WithMetadata(d, c, parse).calls;
      StmtClose !in calls && FreeResult !in calls
  {
    if parse.Parsed? {
      FetchLoopIssuesNoCleanup(d, c, parse.fields, 0, [], map[]);
    }
  }

  /** The result metadata is freed exactly when it was obtained, exactly once, right before
      the statement is closed. */
  lemma MetadataFreedOnce(d: Driver, c: Codec, query: string, values: seq<Node>)
    ensures var calls := Connection.Execute(d, c, query, values).calls;
      FreeResult in calls <==> ReachesMetadata(d, c, values) && d.metadata.Metadata?
    ensures var calls := Connection.Execute(d, c, query, values).calls;
      ReachesMetadata(d, c, values) && d.metadata.Metadata? ==>
        |calls| >= 2 && calls[|calls| - 2] == FreeResult && multiset(calls)[FreeResult] == 1
  {
    if ReachesMetadata(d, c, values) && d.metadata.Metadata? {
      MetadataFreedWhenObtained(d, c, query, values);
    } else {
      MetadataNeverFreed(d, c, query, values);
    }
  }

  /** With a result set, the metadata is freed once, right before the close. */
  lemma MetadataFreedWhenObtained(d: Driver, c: Codec, query: string, values: seq<Node>)
    requires ReachesMetadata(d, c, values) && d.metadata.Metadata?
    ensures var calls := Connection.Execute(d, c, query, values).calls;
      |calls| >= 2 && calls[|calls| - 2] == FreeResult && multiset(calls)[FreeResult] == 1
  {
    var inner := WithMetadata(d, c, d.metadata.parse);
    ResultSetBranchIssuesNoCleanup(d, c, d.metadata.parse);
    ResultSetCalls(d, c, query, values);
    FreedBeforeClose([StmtInit, StmtPrepare(query), StmtBindParam(c.encode(values).value), StmtResultMetadata] + inner.calls);
  }

  /** The calls of a statement with a result set: the opening calls, the result-set branch,
      then the free and the close. */
  lemma ResultSetCalls(d: Driver, c: Codec, query: string, values: seq<Node>)
    requires ReachesMetadata(d, c, values) && d.metadata.Metadata?
    ensures Connection.Execute(d, c, query, values).calls
      == [StmtInit, StmtPrepare(query), StmtBindParam(c.encode(values).value), StmtResultMetadata]
         + WithMetadata(d, c, d.metadata.parse).calls + [FreeResult, StmtClose]
  {
    var issued := [StmtPrepare(query), StmtBindParam(c.encode(values).value), StmtResultMetadata];
    assert WithStatement(d, c, query, values).calls == issued + WithMetadata(d, c, d.metadata.parse).calls + [FreeResult];
  }

  /** A free issued once, right before the close. */
  lemma FreedBeforeClose(before: seq<Call>)
    requires FreeResult !in before
    ensures var calls := before + [FreeResult, StmtClose];
      |calls| >= 2 && calls[|calls| - 2] == FreeResult && multiset(calls)[FreeResult] == 1
  {
    CountBetween(before, [FreeResult], [StmtClose], FreeResult);
    assert before + [FreeResult, StmtClose] == before + [FreeResult] + [StmtClose];
  }

  /** Without a result set, or when a step before the metadata request fails, nothing is
      freed. */
  lemma MetadataNeverFreed(d: Driver, c: Codec, query: string, values: seq<Node>)
    requires !(ReachesMetadata(d, c, values) && d.metadata.Metadata?)
    ensures FreeResult !in Connection.Execute(d, c, query, values).calls
  {
    if d.stmtInit.Ok? {
      var body := WithStatement(d, c, query, values);
      assert Connection.Execute(d, c, query, values).calls == [StmtInit] + body.calls + [StmtClose];
      assert FreeResult !in body.calls;
    }
  }

  /** A statement without a result set is executed exactly once and nothing is fetched or
      bound for output; unless execution fails it returns no rows. */
  lemma NoResultSetExecutesOnce(d: Driver, c: Codec, query: string, values: seq<Node>)
    requires ReachesMetadata(d, c, values) && d.metadata.NoMetadata?
    ensures var run := Connection.Execute(d, c, query, values);
      && multiset(run.calls)[StmtExecute] == 1
      && StmtFetch !in run.calls
      && (forall slots :: StmtBindResult(slots) !in run.calls)
      && run.result == (if d.execute.Fail? then Failure(Error.Execute(d.execute.message)) else Success([]))
  {
    NoResultSetShape(d, c, query, values);
    NoResultSetCalls(query, c.encode(values).value);
  }

  /** What the calls of a statement without a result set contain. */
  lemma NoResultSetCalls(query: string, binds: seq<Cell>)
    ensures var calls := [StmtInit, StmtPrepare(query), StmtBindParam(binds), StmtResultMetadata, StmtExecute, StmtClose];
      && multiset(calls)[StmtExecute] == 1
      && StmtFetch !in calls
      && (forall slots :: StmtBindResult(slots) !in calls)
  {
    var calls := [StmtInit, StmtPrepare(query), StmtBindParam(binds), StmtResultMetadata, StmtExecute, StmtClose];
    assert multiset(calls)[StmtExecute] == 1;
  }

  /** The calls and result of a statement without a result set. */
  lemma NoResultSetShape(d: Driver, c: Codec, query: string, values: seq<Node>)
    requires ReachesMetadata(d, c, values) && d.metadata.NoMetadata?
    ensures Connection.Execute(d, c, query, values)
      == Run(if d.execute.Fail? then Failure(Error.Execute(d.execute.message)) else Success([]),
             [StmtInit, StmtPrepare(query), StmtBindParam(c.encode(values).value), StmtResultMetadata, StmtExecute, StmtClose])
  {
    var body := WithStatement(d, c, query, values);
    var issued := [StmtPrepare(query), StmtBindParam(c.encode(values).value), StmtResultMetadata, StmtExecute];
    assert body.calls == issued;
  }

  /** Malformed SQL is rejected by prepare: the error is `Prepare` with the driver's text,
      and nothing is bound or executed before the handle is closed. */
  lemma MalformedQueryRaisesPrepare(d: Driver, c: Codec, query: string, values: seq<Node>)
    requires d.stmtInit.Ok? && d.prepare.Fail?
    ensures Connection.Execute(d, c, query, values)
      == Run(Failure(Prepare(d.prepare.message)), [StmtInit, StmtPrepare(query), StmtClose])
  {
  }

  /** m fetch rounds hold m fetches. */
  lemma {:induction false} FetchRoundsCount(m: nat, slots: seq<Slot>)
    ensures |FetchRounds(m, slots)| == 2 * m
    ensures multiset(FetchRounds(m, slots))[StmtFetch] == m
  {
    if m > 0 {
      FetchRoundsCount(m - 1, slots);
    }
  }

  /** With a result set, the output slots are bound before the statement executes,
      whether or not execution then succeeds. */
  lemma OutputBoundBeforeExecute(d: Driver, c: Codec, query: string, values: seq<Node>)
    requires ReachesMetadata(d, c, values) && d.metadata.Metadata? && d.metadata.parse.Parsed?
    requires d.bindResult.Ok?
    ensures var calls := Connection.Execute(d, c, query, values).calls;
      |calls| >= 6 &&
      calls[..6] == [StmtInit, StmtPrepare(query), StmtBindParam(c.encode(values).value),
                     StmtResultMetadata, StmtBindResult(OutputBinds(d.metadata.parse.fields)), StmtExecute]
  {
    var fields := d.metadata.parse.fields;
    var prefix := [StmtInit, StmtPrepare(query), StmtBindParam(c.encode(values).value),
                   StmtResultMetadata, StmtBindResult(OutputBinds(fields)), StmtExecute];
    if d.execute.Ok? {
      var loop := FetchLoop(d, c, fields, 0, [], map[]);
      ResultSetShape(d, c, query, values);
      assert (prefix + loop.calls + [FreeResult, StmtClose])[..6] == prefix;
    } else {
      var inner := WithMetadata(d, c, d.metadata.parse);
      assert inner.calls == [StmtBindResult(OutputBinds(fields)), StmtExecute];
      var body := WithStatement(d, c, query, values);
      var issued := [StmtPrepare(query), StmtBindParam(c.encode(values).value), StmtResultMetadata];
      assert body.calls == issued + inner.calls + [FreeResult];
      assert Connection.Execute(d, c, query, values).calls == prefix + [FreeResult, StmtClose];
    }
  }

  /** With a result set and every step up to execution succeeding, the call succeeds
      exactly when no re-bind after a fetched row fails. On success it returns one row per
      leading "row fetched" code, each built from its own fetch, and issues one more fetch
      than rows returned: whatever code ends the loop, no fetch error is raised. A failing
      re-bind raises `OutputBind` instead, and no rows reach the caller. */
  lemma ResultSetRows(d: Driver, c: Codec, query: string, values: seq<Node>)
    requires ReachesMetadata(d, c, values) && d.metadata.Metadata? && d.metadata.parse.Parsed?
    requires d.bindResult.Ok? && d.execute.Ok?
    ensures var run := Connection.Execute(d, c, query, values);
      var n := RowsAvailable(d.fetches);
      && (run.result.Success? <==> FirstFailedRebind(d.fetches, 0, n).None?)
      && (run.result.Success? ==> run.result.value == ExpectedRows(d, c, d.metadata.parse.fields, n))
      && (run.result.Failure? ==>
            run.result.error == OutputBind(d.fetches[FirstFailedRebind(d.fetches, 0, n).value].rebind.message))
  {
    ResultSetShape(d, c, query, values);
    FetchLoopReturnsFetchedRows(d, c, d.metadata.parse.fields);
  }

  /** On success with a result set, one fetch more than the rows returned is issued. */
  lemma ResultSetFetchCount(d: Driver, c: Codec, query: string, values: seq<Node>)
    requires ReachesMetadata(d, c, values) && d.metadata.Metadata? && d.metadata.parse.Parsed?
    requires d.bindResult.Ok? && d.execute.Ok?
    ensures var run := Connection.Execute(d, c, query, values);
      run.result.Success? ==> multiset(run.calls)[StmtFetch] == |run.result.value| + 1
  {
    var fields := d.metadata.parse.fields;
    var loop := FetchLoop(d, c, fields, 0, [], map[]);
    var prefix := [StmtInit, StmtPrepare(query), StmtBindParam(c.encode(values).value),
                   StmtResultMetadata, StmtBindResult(OutputBinds(fields)), StmtExecute];
    ResultSetShape(d, c, query, values);
    LoopFetchCount(d, c, fields);
    CountBetween(prefix, loop.calls, [FreeResult, StmtClose], StmtFetch);
  }

  /** A call absent from the calls around a middle part is counted in the middle part alone. */
  lemma CountBetween(prefix: seq<Call>, middle: seq<Call>, suffix: seq<Call>, x: Call)
    requires x !in prefix && x !in suffix
    ensures multiset(prefix + middle + suffix)[x] == multiset(middle)[x]
  {
    assert multiset(prefix)[x] == 0;
    assert multiset(suffix)[x] == 0;
  }

  /** A successful fetch loop issues one fetch more than the rows it returns. */
  lemma LoopFetchCount(d: Driver, c: Codec, fields: seq<Field>)
    ensures var loop := FetchLoop(d, c, fields, 0, [], map[]);
      loop.result.Success? ==> multiset(loop.calls)[StmtFetch] == |loop.result.value| + 1
  {
    var slots := OutputBinds(fields);
    var n := RowsAvailable(d.fetches);
    FetchLoopReturnsFetchedRows(d, c, fields);
    FetchRoundsCount(n, slots);
  }

  /** The calls of a result-set statement whose steps up to execution all succeed. */
  lemma ResultSetShape(d: Driver, c: Codec, query: string, values: seq<Node>)
    requires ReachesMetadata(d, c, values) && d.metadata.Metadata? && d.metadata.parse.Parsed?
    requires d.bindResult.Ok? && d.execute.Ok?
    ensures var fields := d.metadata.parse.fields;
      var loop := FetchLoop(d, c, fields, 0, [], map[]);
      Connection.Execute(d, c, query, values)
        == Run(loop.result, [StmtInit, StmtPrepare(query), StmtBindParam(c.encode(values).value),
                             StmtResultMetadata, StmtBindResult(OutputBinds(fields)), StmtExecute]
                            + loop.calls + [FreeResult, StmtClose])
  {
    var fields := d.metadata.parse.fields;
    var slots := OutputBinds(fields);
    var loop := FetchLoop(d, c, fields, 0, [], map[]);
    var inner := WithMetadata(d, c, d.metadata.parse);
    assert inner == Run(loop.result, [StmtBindResult(slots), StmtExecute] + loop.calls);
    var body := WithStatement(d, c, query, values);
    var issued := [StmtPrepare(query), StmtBindParam(c.encode(values).value), StmtResultMetadata];
    assert body == Run(loop.result, issued + inner.calls + [FreeResult]);
  }
}
