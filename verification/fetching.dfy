/** What the fetch loop returns, stated against the script rather than the loop. */
module Fetching {
  import opened Values
  import opened Native
  import opened Rows
  import opened Connection

  /** How many rows the loop reads: the number of "row fetched" codes before the first
      other code (or before the script runs out). */
  function RowsAvailable(fetches: seq<FetchStep>): (n: nat)
    ensures n <= |fetches|
    ensures forall j :: 0 <= j < n ==> fetches[j].code == FetchedRow
    ensures n < |fetches| ==> fetches[n].code != FetchedRow
  {
    if |fetches| == 0 || fetches[0].code != FetchedRow then 0
    else 1 + RowsAvailable(fetches[1..])
  }

  /** The first fetch in [lo, hi) whose re-bind failed, if any. */
  function FirstFailedRebind(fetches: seq<FetchStep>, lo: nat, hi: nat): (r: Option<nat>)
    requires lo <= hi <= |fetches|
    decreases hi - lo
    ensures r.Some? ==> lo <= r.value < hi && fetches[r.value].rebind.Fail?
    ensures r.Some? ==> forall j :: lo <= j < r.value ==> fetches[j].rebind.Ok?
    ensures r.None? <==> forall j :: lo <= j < hi ==> fetches[j].rebind.Ok?
  {
    if lo == hi then None
    else if fetches[lo].rebind.Fail? then Some(lo)
    else FirstFailedRebind(fetches, lo + 1, hi)
  }

  /** The rows a caller should see: for each of the first n fetches, the fresh row of the
      values decoded after that fetch and no other. */
  function ExpectedRows(d: Driver, c: Codec, fields: seq<Field>, n: nat): seq<Row>
    requires n <= |d.fetches|
  {
    seq(n, k requires 0 <= k < n => FreshRow(Names(fields), Decoded(c, OutputBinds(fields), d.fetches[k].cells)))
  }

  /** m rounds of a fetch followed by the re-bind of the output slots. */
  function FetchRounds(m: nat, slots: seq<Slot>): seq<Call>
  {
    if m == 0 then [] else [StmtFetch, StmtBindResult(slots)] + FetchRounds(m - 1, slots)
  }

  /** The loop from the k-th fetch on, with the rows gathered so far and a reused
      dictionary holding no key other than the column names. */
  lemma {:induction false} FetchLoopFrom(d: Driver, c: Codec, fields: seq<Field>, k: nat, results: seq<Row>, parsed: Row)
    requires k <= RowsAvailable(d.fetches)
    requires parsed.Keys <= set n | n in Names(fields)
    ensures FetchLoop(d, c, fields, k, results, parsed) == LoopOutcome(d, c, fields, k, results)
    decreases |d.fetches| - k
  {
    var n := RowsAvailable(d.fetches);
    var slots := OutputBinds(fields);
    var expected := ExpectedRows(d, c, fields, n);
    if k == n {
      assert FetchCode(d, k) != FetchedRow;
      assert expected[k..] == [];
      assert results + expected[k..] == results;
    } else {
      var step := d.fetches[k];
      var values := Decoded(c, slots, step.cells);
      var row := Assign(parsed, Names(fields), values);
      ReusedRowIsFresh(parsed, Names(fields), values);
      assert row == expected[k];
      assert FetchCode(d, k) == FetchedRow;
      if step.rebind.Ok? {
        var rest := FetchLoop(d, c, fields, k + 1, results + [row], row);
        assert FetchLoop(d, c, fields, k, results, parsed)
          == Run(rest.result, [StmtFetch, StmtBindResult(slots)] + rest.calls);
        FetchLoopFrom(d, c, fields, k + 1, results + [row], row);
        LoopOutcomeStep(d, c, fields, k, results, row);
      } else {
        assert FirstFailedRebind(d.fetches, k, n) == Some(k);
        assert FetchRounds(1, slots) == [StmtFetch, StmtBindResult(slots)];
      }
    }
  }

  /** What the loop from the k-th fetch yields, by the script alone. */
  function LoopOutcome(d: Driver, c: Codec, fields: seq<Field>, k: nat, results: seq<Row>): Run<seq<Row>>
    requires k <= RowsAvailable(d.fetches)
  {
    var n := RowsAvailable(d.fetches);
    match FirstFailedRebind(d.fetches, k, n)
    case None =>
      Run(Success(results + ExpectedRows(d, c, fields, n)[k..]), FetchRounds(n - k, OutputBinds(fields)) + [StmtFetch])
    case Some(j) =>
      Run(Failure(OutputBind(d.fetches[j].rebind.message)), FetchRounds(j + 1 - k, OutputBinds(fields)))
  }

  /** One successful round prepends a fetch and a re-bind to the outcome of the rest. */
  lemma LoopOutcomeStep(d: Driver, c: Codec, fields: seq<Field>, k: nat, results: seq<Row>, row: Row)
    requires k < RowsAvailable(d.fetches)
    requires d.fetches[k].rebind.Ok?
    requires row == ExpectedRows(d, c, fields, RowsAvailable(d.fetches))[k]
    ensures LoopOutcome(d, c, fields, k, results)
      == var rest := LoopOutcome(d, c, fields, k + 1, results + [row]);
         Run(rest.result, [StmtFetch, StmtBindResult(OutputBinds(fields))] + rest.calls)
  {
    var n := RowsAvailable(d.fetches);
    var slots := OutputBinds(fields);
    assert FirstFailedRebind(d.fetches, k, n) == FirstFailedRebind(d.fetches, k + 1, n);
    assert FetchRounds(n - k, slots) == [StmtFetch, StmtBindResult(slots)] + FetchRounds(n - (k + 1), slots);
    var expected := ExpectedRows(d, c, fields, n);
    assert expected[k..] == [row] + expected[k + 1..];
    assert results + [row] + expected[k + 1..] == results + expected[k..];
    if FirstFailedRebind(d.fetches, k, n).Some? {
      var j := FirstFailedRebind(d.fetches, k, n).value;
      assert FetchRounds(j + 1 - k, slots) == [StmtFetch, StmtBindResult(slots)] + FetchRounds(j + 1 - (k + 1), slots);
    }
  }

  /** The loop as the connection starts it: on success it returns exactly one row per
      leading "row fetched" code, each built from its own fetch alone, and issues one more
      fetch than rows; a failing re-bind after row j aborts with `OutputBind`, returning
      no rows, and issues nothing after that re-bind. */
  lemma FetchLoopReturnsFetchedRows(d: Driver, c: Codec, fields: seq<Field>)
    ensures var n := RowsAvailable(d.fetches);
      FirstFailedRebind(d.fetches, 0, n).None? ==>
        FetchLoop(d, c, fields, 0, [], map[])
          == Run(Success(ExpectedRows(d, c, fields, n)), FetchRounds(n, OutputBinds(fields)) + [StmtFetch])
    ensures var n := RowsAvailable(d.fetches);
      FirstFailedRebind(d.fetches, 0, n).Some? ==>
        var j := FirstFailedRebind(d.fetches, 0, n).value;
        FetchLoop(d, c, fields, 0, [], map[])
          == Run(Failure(OutputBind(d.fetches[j].rebind.message)), FetchRounds(j + 1, OutputBinds(fields)))
  {
    FetchLoopFrom(d, c, fields, 0, [], map[]);
    var n := RowsAvailable(d.fetches);
    assert [] + ExpectedRows(d, c, fields, n)[0..] == ExpectedRows(d, c, fields, n);
  }

  /** Each returned row has exactly the column names as keys, and each name holds the value
      decoded from its last column at that row's own fetch. */
  lemma ExpectedRowContents(d: Driver, c: Codec, fields: seq<Field>, n: nat, k: nat)
    requires k < n <= |d.fetches|
    ensures ExpectedRows(d, c, fields, n)[k].Keys == set f | f in fields :: f.name
    ensures forall i :: 0 <= i < |fields| ==>
      var name := fields[i].name;
      name in Names(fields) &&
      ExpectedRows(d, c, fields, n)[k][name]
        == c.decode(fields[LastIndex(Names(fields), name)], d.fetches[k].cells(LastIndex(Names(fields), name)))
  {
    var names := Names(fields);
    forall name | name in names ensures exists f :: f in fields && f.name == name {
      var i :| 0 <= i < |names| && names[i] == name;
      assert fields[i] in fields;
    }
    forall i | 0 <= i < |fields| ensures fields[i].name in names {
      assert names[i] == fields[i].name;
    }
  }
}
