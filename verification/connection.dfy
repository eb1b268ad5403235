/** The connection's two operations, `execute` and `transaction`, as pure functions of the
    scripted native layer. Each returns what the call returns or throws, together with the
    native calls it issued, in order. */
module Connection {
  import opened Values
  import opened Native
  import opened Rows

  /** What one call yields: its result or error, and the native calls it issued. */
  datatype Run<+T> = Run(result: Result<T>, calls: seq<Call>)

  /** One prepared-statement lifecycle. A statement handle that could not be created
      raises `Statement` and nothing else happens; otherwise everything that follows
      runs with the handle's close deferred to the very end. */
  function Execute(d: Driver, c: Codec, query: string, values: seq<Node>): (run: Run<seq<Row>>)
    ensures |run.calls| > 0 && run.calls[0] == StmtInit
    ensures d.stmtInit.Fail? <==> run.calls == [StmtInit]
    ensures d.stmtInit.Fail? ==> run.result == Failure(Statement(d.stmtInit.message))
    ensures d.stmtInit.Ok? ==> run.calls[|run.calls| - 1] == StmtClose
  {
    if d.stmtInit.Fail? then Run(Failure(Statement(d.stmtInit.message)), [StmtInit])
    else
      var body := WithStatement(d, c, query, values);
      Run(body.result, [StmtInit] + body.calls + [StmtClose])
  }

  /** Everything issued on a live statement handle, before it is closed: prepare, encode
      and bind the parameters, then ask for the result metadata and take one of two branches. */
  function WithStatement(d: Driver, c: Codec, query: string, values: seq<Node>): Run<seq<Row>>
  {
    if d.prepare.Fail? then Run(Failure(Prepare(d.prepare.message)), [StmtPrepare(query)])
    else match c.encode(values)
      case Failure(e) => Run(Failure(e), [StmtPrepare(query)])
      case Success(binds) =>
        if d.bindParam.Fail? then
          Run(Failure(InputBind(d.bindParam.message)), [StmtPrepare(query), StmtBindParam(binds)])
        else
          var issued := [StmtPrepare(query), StmtBindParam(binds), StmtResultMetadata];
          match d.metadata
          case NoMetadata =>
            var result := if d.execute.Fail? then Failure(Error.Execute(d.execute.message)) else Success([]);
            Run(result, issued + [StmtExecute])
          case Metadata(parse) =>
            var body := WithMetadata(d, c, parse);
            Run(body.result, issued + body.calls + [FreeResult])
  }

  /** The branch for statements with a result set, before the metadata is freed: parse the
      fields, bind the output buffers, execute, then fetch. */
  function WithMetadata(d: Driver, c: Codec, parse: FieldsParse): Run<seq<Row>>
  {
    match parse
    case Unparsable(message) => Run(Failure(FetchFields(message)), [])
    case Parsed(fields) =>
      var slots := OutputBinds(fields);
      if d.bindResult.Fail? then Run(Failure(OutputBind(d.bindResult.message)), [StmtBindResult(slots)])
      else if d.execute.Fail? then Run(Failure(Error.Execute(d.execute.message)), [StmtBindResult(slots), StmtExecute])
      else
        var loop := FetchLoop(d, c, fields, 0, [], map[]);
        Run(loop.result, [StmtBindResult(slots), StmtExecute] + loop.calls)
  }

  /** The fetch loop from the k-th fetch on. `results` holds the rows gathered so far and
      `parsed` the one dictionary reused for every row. Any code other than "row fetched"
      ends the loop and returns the rows gathered; a failing re-bind after a row aborts. */
  function FetchLoop(d: Driver, c: Codec, fields: seq<Field>, k: nat, results: seq<Row>, parsed: Row): (run: Run<seq<Row>>)
    decreases |d.fetches| - k
    ensures forall i :: 0 <= i < |run.calls| ==> run.calls[i] == StmtFetch || run.calls[i] == StmtBindResult(OutputBinds(fields))
    ensures run.result.Success? ==> |run.calls| > 0 && run.calls[|run.calls| - 1] == StmtFetch
    ensures run.result.Success? ==> |run.result.value| >= |results| && run.result.value[..|results|] == results
  {
    if FetchCode(d, k) != FetchedRow then Run(Success(results), [StmtFetch])
    else
      var step := d.fetches[k];
      var slots := OutputBinds(fields);
      var row := Assign(parsed, Names(fields), Decoded(c, slots, step.cells));
      if step.rebind.Fail? then Run(Failure(OutputBind(step.rebind.message)), [StmtFetch, StmtBindResult(slots)])
      else
        var rest := FetchLoop(d, c, fields, k + 1, results + [row], row);
        Run(rest.result, [StmtFetch, StmtBindResult(slots)] + rest.calls)
  }

  /** The plain-query helper a transaction uses: one `mysql_query`, raising `Execute` with
      the driver's text when it fails. */
  function OldQuery(sql: string, status: Status): Run<()>
  {
    Run(if status.Fail? then Failure(Error.Execute(status.message)) else Success(()), [Query(sql)])
  }

  /** The scripted outcomes of a transaction's three plain queries. */
  datatype TxDriver = TxDriver(start: Status, commit: Status, rollback: Status)

  /** Begin, run the closure (given by what it returned or threw and the calls it issued),
      then commit or roll back. */
  function Transaction(t: TxDriver, work: Run<()>): (run: Run<()>)
    ensures |run.calls| > 0 && run.calls[0] == Query(StartTransaction)
    ensures t.start.Fail? ==> run == Run(Failure(Error.Execute(t.start.message)), [Query(StartTransaction)])
    ensures t.start.Ok? ==> |run.calls| == |work.calls| + 2 && run.calls[1..|work.calls| + 1] == work.calls
    ensures t.start.Ok? ==> (run.calls[|run.calls| - 1] == Query(Commit) <==> work.result.Success?)
    ensures t.start.Ok? ==> (run.calls[|run.calls| - 1] == Query(Rollback) <==> work.result.Failure?)
    ensures run.result.Success? <==> t.start.Ok? && work.result.Success? && t.commit.Ok?
    ensures t.start.Ok? && work.result.Success? && t.commit.Fail? ==> run.result == Failure(Error.Execute(t.commit.message))
    ensures t.start.Ok? && work.result.Failure? && t.rollback.Ok? ==> run.result == work.result
    ensures t.start.Ok? && work.result.Failure? && t.rollback.Fail? ==> run.result == Failure(Error.Execute(t.rollback.message))
  {
    var begin := OldQuery(StartTransaction, t.start);
    if begin.result.Failure? then begin
    else if work.result.Failure? then
      var undo := OldQuery(Rollback, t.rollback);
      Run(if undo.result.Failure? then undo.result else work.result, begin.calls + work.calls + undo.calls)
    else
      var done := OldQuery(Commit, t.commit);
      Run(done.result, begin.calls + work.calls + done.calls)
  }
}
