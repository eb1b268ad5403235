/** An independent description of `execute`: a flat list of stages, each with the native call
    it issues, the error it raises when it fails, and the cleanup it registers once it has
    succeeded. The first failing stage decides the error; the registered cleanups then run
    last-registered first. */
module Stages {
  import opened Values
  import opened Native
  import opened Rows
  import opened Connection
  import opened Fetching

  datatype Stage = Stage(call: Option<Call>, failure: Option<Error>, cleanup: Option<Call>)

  /** The parameter bindings, when encoding them succeeds. */
  function Bound(c: Codec, values: seq<Node>): seq<Cell>
  {
    if c.encode(values).Success? then c.encode(values).value else []
  }

  /** The parsed fields, when there are any. */
  function FieldsOf(d: Driver): seq<Field>
  {
    if d.metadata.Metadata? && d.metadata.parse.Parsed? then d.metadata.parse.fields else []
  }

  function Stages(d: Driver, c: Codec, query: string, values: seq<Node>): seq<Stage>
  {
    var opening := [
      Stage(Some(StmtInit), if d.stmtInit.Fail? then Some(Statement(d.stmtInit.message)) else None, Some(StmtClose)),
      Stage(Some(StmtPrepare(query)), if d.prepare.Fail? then Some(Prepare(d.prepare.message)) else None, None),
      Stage(None, if c.encode(values).Failure? then Some(c.encode(values).error) else None, None),
      Stage(Some(StmtBindParam(Bound(c, values))), if d.bindParam.Fail? then Some(InputBind(d.bindParam.message)) else None, None)];
    var execute := Stage(Some(StmtExecute), if d.execute.Fail? then Some(Error.Execute(d.execute.message)) else None, None);
    match d.metadata
    case NoMetadata =>
      opening + [Stage(Some(StmtResultMetadata), None, None), execute]
    case Metadata(parse) =>
      opening + [
        Stage(Some(StmtResultMetadata), None, Some(FreeResult)),
        Stage(None, if parse.Unparsable? then Some(FetchFields(parse.message)) else None, None),
        Stage(Some(StmtBindResult(OutputBinds(FieldsOf(d)))), if d.bindResult.Fail? then Some(OutputBind(d.bindResult.message)) else None, None),
        execute]
  }

  /** The index of the first failing stage. */
  function FirstFailure(stages: seq<Stage>): (f: Option<nat>)
    ensures f.Some? ==> f.value < |stages| && stages[f.value].failure.Some?
    ensures f.Some? ==> forall i :: 0 <= i < f.value ==> stages[i].failure.None?
    ensures f.None? <==> forall i :: 0 <= i < |stages| ==> stages[i].failure.None?
  {
    if |stages| == 0 then None
    else if stages[0].failure.Some? then Some(0)
    else match FirstFailure(stages[1..])
      case None => None
      case Some(i) => Some(i + 1)
  }

  /** The native calls the stages issue, in order. */
  function Issued(stages: seq<Stage>): seq<Call>
  {
    if |stages| == 0 then []
    else Issued(stages[..|stages| - 1]) + (if stages[|stages| - 1].call.Some? then [stages[|stages| - 1].call.value] else [])
  }

  /** The cleanups the stages registered, last registered first. */
  function Unwind(stages: seq<Stage>): seq<Call>
  {
    if |stages| == 0 then []
    else (if stages[|stages| - 1].cleanup.Some? then [stages[|stages| - 1].cleanup.value] else []) + Unwind(stages[..|stages| - 1])
  }

  /** `execute` by the stage list: a failing stage ends the call after its own native call
      and the cleanups of the stages before it; when none fails, the fetch loop (if there
      is a result set) runs before all cleanups. */
  function Expected(d: Driver, c: Codec, query: string, values: seq<Node>): Run<seq<Row>>
  {
    var stages := Stages(d, c, query, values);
    match FirstFailure(stages)
    case Some(f) => Run(Failure(stages[f].failure.value), Issued(stages[..f + 1]) + Unwind(stages[..f]))
    case None =>
      var fetched := if d.metadata.NoMetadata? then Run(Success([]), []) else FetchLoop(d, c, FieldsOf(d), 0, [], map[]);
      Run(fetched.result, Issued(stages) + fetched.calls + Unwind(stages))
  }

  /** Issuing the stages one more at a time. */
  lemma IssuedSnoc(stages: seq<Stage>, s: Stage)
    ensures Issued(stages + [s]) == Issued(stages) + (if s.call.Some? then [s.call.value] else [])
  {
    assert (stages + [s])[..|stages|] == stages;
  }

  /** Registering one more cleanup puts it first in the unwinding. */
  lemma UnwindSnoc(stages: seq<Stage>, s: Stage)
    ensures Unwind(stages + [s]) == (if s.cleanup.Some? then [s.cleanup.value] else []) + Unwind(stages)
  {
    assert (stages + [s])[..|stages|] == stages;
  }

  /** The calls and cleanups of the opening stages, and of each longer prefix. */
  lemma PrefixCalls(stages: seq<Stage>, k: nat)
    requires 0 < k <= |stages|
    ensures Issued(stages[..k]) == Issued(stages[..k - 1]) + (if stages[k - 1].call.Some? then [stages[k - 1].call.value] else [])
    ensures Unwind(stages[..k]) == (if stages[k - 1].cleanup.Some? then [stages[k - 1].cleanup.value] else []) + Unwind(stages[..k - 1])
  {
    assert stages[..k] == stages[..k - 1] + [stages[k - 1]];
    IssuedSnoc(stages[..k - 1], stages[k - 1]);
    UnwindSnoc(stages[..k - 1], stages[k - 1]);
  }

  /** The calls and cleanups of every prefix of the stage list that ends at or before the
      metadata request. */
  lemma OpeningCalls(d: Driver, c: Codec, query: string, values: seq<Node>)
    requires d.stmtInit.Ok?
    ensures var stages := Stages(d, c, query, values);
      && Issued(stages[..1]) == [StmtInit] && Unwind(stages[..1]) == [StmtClose]
      && Issued(stages[..2]) == [StmtInit, StmtPrepare(query)] && Unwind(stages[..2]) == [StmtClose]
      && Issued(stages[..3]) == [StmtInit, StmtPrepare(query)] && Unwind(stages[..3]) == [StmtClose]
      && Issued(stages[..4]) == [StmtInit, StmtPrepare(query), StmtBindParam(Bound(c, values))]
      && Unwind(stages[..4]) == [StmtClose]
      && Issued(stages[..5]) == [StmtInit, StmtPrepare(query), StmtBindParam(Bound(c, values)), StmtResultMetadata]
      && Unwind(stages[..5]) == (if d.metadata.Metadata? then [FreeResult, StmtClose] else [StmtClose])
  {
    var stages := Stages(d, c, query, values);
    assert stages[..0] == [];
    PrefixCalls(stages, 1);
    PrefixCalls(stages, 2);
    PrefixCalls(stages, 3);
    PrefixCalls(stages, 4);
    PrefixCalls(stages, 5);
  }

  /** The stages after the metadata request, when there is a result set. */
  lemma MetadataCalls(d: Driver, c: Codec, query: string, values: seq<Node>)
    requires d.stmtInit.Ok? && d.metadata.Metadata?
    ensures var stages := Stages(d, c, query, values);
      var opening := [StmtInit, StmtPrepare(query), StmtBindParam(Bound(c, values)), StmtResultMetadata];
      && |stages| == 8
      && Issued(stages[..6]) == opening && Unwind(stages[..6]) == [FreeResult, StmtClose]
      && Issued(stages[..7]) == opening + [StmtBindResult(OutputBinds(FieldsOf(d)))]
      && Unwind(stages[..7]) == [FreeResult, StmtClose]
      && Issued(stages[..8]) == opening + [StmtBindResult(OutputBinds(FieldsOf(d))), StmtExecute]
      && Unwind(stages[..8]) == [FreeResult, StmtClose]
  {
    var stages := Stages(d, c, query, values);
    OpeningCalls(d, c, query, values);
    PrefixCalls(stages, 6);
    PrefixCalls(stages, 7);
    PrefixCalls(stages, 8);
  }

  /** The first failing stage is the one that fails after stages that all succeed. */
  lemma FailsAt(stages: seq<Stage>, k: nat)
    requires k < |stages| && stages[k].failure.Some?
    requires forall i :: 0 <= i < k ==> stages[i].failure.None?
    ensures FirstFailure(stages) == Some(k)
  {
  }

  /** The connection's `execute` is the stage list: the first failing step decides the
      error, nothing after it is issued, and every registered cleanup runs. */
  lemma ExecuteFollowsStages(d: Driver, c: Codec, query: string, values: seq<Node>)
    ensures Connection.Execute(d, c, query, values) == Expected(d, c, query, values)
  {
    if d.stmtInit.Fail? {
      InitFailureFollowsStages(d, c, query, values);
    } else if d.prepare.Fail? || c.encode(values).Failure? || d.bindParam.Fail? {
      OpeningFollowsStages(d, c, query, values);
    } else if d.metadata.NoMetadata? {
      NoMetadataFollowsStages(d, c, query, values);
    } else if d.metadata.parse.Unparsable? || d.bindResult.Fail? || d.execute.Fail? {
      MetadataFailureFollowsStages(d, c, query, values);
    } else {
      FetchFollowsStages(d, c, query, values);
    }
  }

  lemma InitFailureFollowsStages(d: Driver, c: Codec, query: string, values: seq<Node>)
    requires d.stmtInit.Fail?
    ensures Connection.Execute(d, c, query, values) == Expected(d, c, query, values)
  {
    var stages := Stages(d, c, query, values);
    assert Connection.Execute(d, c, query, values) == Run(Failure(Statement(d.stmtInit.message)), [StmtInit]);
    assert Issued(stages[..1]) == [StmtInit] && Unwind(stages[..0]) == [] by {
      assert stages[..1] == [stages[0]];
    }
    ExpectedFailsAt(d, c, query, values, 0);
  }

  lemma OpeningFollowsStages(d: Driver, c: Codec, query: string, values: seq<Node>)
    requires d.stmtInit.Ok?
    requires d.prepare.Fail? || c.encode(values).Failure? || d.bindParam.Fail?
    ensures Connection.Execute(d, c, query, values) == Expected(d, c, query, values)
  {
    if d.prepare.Fail? {
      PrepareFailureFollowsStages(d, c, query, values);
    } else if c.encode(values).Failure? {
      EncodeFailureFollowsStages(d, c, query, values);
    } else {
      InputBindFailureFollowsStages(d, c, query, values);
    }
  }

  lemma PrepareFailureFollowsStages(d: Driver, c: Codec, query: string, values: seq<Node>)
    requires d.stmtInit.Ok? && d.prepare.Fail?
    ensures Connection.Execute(d, c, query, values) == Expected(d, c, query, values)
  {
    var stages := Stages(d, c, query, values);
    assert Connection.Execute(d, c, query, values)
      == Run(Failure(Prepare(d.prepare.message)), [StmtInit, StmtPrepare(query), StmtClose]);
    assert Issued(stages[..2]) == [StmtInit, StmtPrepare(query)] && Unwind(stages[..1]) == [StmtClose] by {
      OpeningCalls(d, c, query, values);
    }
    ExpectedFailsAt(d, c, query, values, 1);
  }

  lemma EncodeFailureFollowsStages(d: Driver, c: Codec, query: string, values: seq<Node>)
    requires d.stmtInit.Ok? && d.prepare.Ok? && c.encode(values).Failure?
    ensures Connection.Execute(d, c, query, values) == Expected(d, c, query, values)
  {
    var stages := Stages(d, c, query, values);
    assert Connection.Execute(d, c, query, values)
      == Run(Failure(c.encode(values).error), [StmtInit, StmtPrepare(query), StmtClose]);
    assert Issued(stages[..3]) == [StmtInit, StmtPrepare(query)] && Unwind(stages[..2]) == [StmtClose] by {
      OpeningCalls(d, c, query, values);
    }
    ExpectedFailsAt(d, c, query, values, 2);
  }

  lemma InputBindFailureFollowsStages(d: Driver, c: Codec, query: string, values: seq<Node>)
    requires d.stmtInit.Ok? && d.prepare.Ok? && c.encode(values).Success? && d.bindParam.Fail?
    ensures Connection.Execute(d, c, query, values) == Expected(d, c, query, values)
  {
    var stages := Stages(d, c, query, values);
    var opening := [StmtInit, StmtPrepare(query), StmtBindParam(Bound(c, values))];
    assert Connection.Execute(d, c, query, values) == Run(Failure(InputBind(d.bindParam.message)), opening + [StmtClose]);
    assert Issued(stages[..4]) == opening && Unwind(stages[..3]) == [StmtClose] by {
      OpeningCalls(d, c, query, values);
    }
    ExpectedFailsAt(d, c, query, values, 3);
  }

  /** When stage k is the first to fail, the expected run issues the stages up to k and
      unwinds the cleanups registered before it. */
  lemma ExpectedFailsAt(d: Driver, c: Codec, query: string, values: seq<Node>, k: nat)
    requires var stages := Stages(d, c, query, values);
      k < |stages| && stages[k].failure.Some? && forall i :: 0 <= i < k ==> stages[i].failure.None?
    ensures var stages := Stages(d, c, query, values);
      Expected(d, c, query, values) == Run(Failure(stages[k].failure.value), Issued(stages[..k + 1]) + Unwind(stages[..k]))
  {
    FailsAt(Stages(d, c, query, values), k);
  }

  /** When no stage fails, the expected run issues every stage, fetches when there is a
      result set, and then unwinds every cleanup. */
  lemma ExpectedCompletes(d: Driver, c: Codec, query: string, values: seq<Node>)
    requires var stages := Stages(d, c, query, values);
      forall i :: 0 <= i < |stages| ==> stages[i].failure.None?
    ensures var stages := Stages(d, c, query, values);
      d.metadata.NoMetadata? ==> Expected(d, c, query, values) == Run(Success([]), Issued(stages) + Unwind(stages))
    ensures var stages := Stages(d, c, query, values);
      var loop := FetchLoop(d, c, FieldsOf(d), 0, [], map[]);
      d.metadata.Metadata? ==> Expected(d, c, query, values) == Run(loop.result, Issued(stages) + loop.calls + Unwind(stages))
  {
    assert FirstFailure(Stages(d, c, query, values)) == None;
  }

  lemma NoMetadataFollowsStages(d: Driver, c: Codec, query: string, values: seq<Node>)
    requires d.stmtInit.Ok? && d.prepare.Ok? && c.encode(values).Success? && d.bindParam.Ok?
    requires d.metadata.NoMetadata?
    ensures Connection.Execute(d, c, query, values) == Expected(d, c, query, values)
  {
    if d.execute.Fail? {
      NoMetadataExecuteFails(d, c, query, values);
    } else {
      NoMetadataExecutes(d, c, query, values);
    }
  }

  /** The stage list of a statement without a result set issues the opening calls and the
      execution, and registers only the close. */
  lemma NoMetadataCalls(d: Driver, c: Codec, query: string, values: seq<Node>)
    requires d.stmtInit.Ok? && d.metadata.NoMetadata?
    ensures var stages := Stages(d, c, query, values);
      var opening := [StmtInit, StmtPrepare(query), StmtBindParam(Bound(c, values)), StmtResultMetadata];
      && |stages| == 6
      && Issued(stages) == opening + [StmtExecute] && Issued(stages[..6]) == opening + [StmtExecute]
      && Unwind(stages) == [StmtClose] && Unwind(stages[..5]) == [StmtClose]
  {
    var stages := Stages(d, c, query, values);
    OpeningCalls(d, c, query, values);
    PrefixCalls(stages, 6);
    assert stages[..6] == stages;
  }

  lemma NoMetadataExecuteFails(d: Driver, c: Codec, query: string, values: seq<Node>)
    requires d.stmtInit.Ok? && d.prepare.Ok? && c.encode(values).Success? && d.bindParam.Ok?
    requires d.metadata.NoMetadata? && d.execute.Fail?
    ensures Connection.Execute(d, c, query, values) == Expected(d, c, query, values)
  {
    var stages := Stages(d, c, query, values);
    var opening := [StmtInit, StmtPrepare(query), StmtBindParam(Bound(c, values)), StmtResultMetadata];
    assert Connection.Execute(d, c, query, values)
      == Run(Failure(Error.Execute(d.execute.message)), opening + [StmtExecute, StmtClose]);
    assert Issued(stages[..6]) == opening + [StmtExecute] && Unwind(stages[..5]) == [StmtClose] by {
      NoMetadataCalls(d, c, query, values);
    }
    ExpectedFailsAt(d, c, query, values, 5);
  }

  lemma NoMetadataExecutes(d: Driver, c: Codec, query: string, values: seq<Node>)
    requires d.stmtInit.Ok? && d.prepare.Ok? && c.encode(values).Success? && d.bindParam.Ok?
    requires d.metadata.NoMetadata? && d.execute.Ok?
    ensures Connection.Execute(d, c, query, values) == Expected(d, c, query, values)
  {
    var stages := Stages(d, c, query, values);
    var opening := [StmtInit, StmtPrepare(query), StmtBindParam(Bound(c, values)), StmtResultMetadata];
    assert Connection.Execute(d, c, query, values) == Run(Success([]), opening + [StmtExecute, StmtClose]);
    assert Issued(stages) == opening + [StmtExecute] && Unwind(stages) == [StmtClose] by {
      NoMetadataCalls(d, c, query, values);
    }
    ExpectedCompletes(d, c, query, values);
  }

  lemma MetadataFailureFollowsStages(d: Driver, c: Codec, query: string, values: seq<Node>)
    requires d.stmtInit.Ok? && d.prepare.Ok? && c.encode(values).Success? && d.bindParam.Ok?
    requires d.metadata.Metadata?
    requires d.metadata.parse.Unparsable? || d.bindResult.Fail? || d.execute.Fail?
    ensures Connection.Execute(d, c, query, values) == Expected(d, c, query, values)
  {
    if d.metadata.parse.Unparsable? {
      UnparsableFieldsFollowStages(d, c, query, values);
    } else if d.bindResult.Fail? {
      OutputBindFailureFollowsStages(d, c, query, values);
    } else {
      ExecuteFailureFollowsStages(d, c, query, values);
    }
  }

  lemma UnparsableFieldsFollowStages(d: Driver, c: Codec, query: string, values: seq<Node>)
    requires d.stmtInit.Ok? && d.prepare.Ok? && c.encode(values).Success? && d.bindParam.Ok?
    requires d.metadata.Metadata? && d.metadata.parse.Unparsable?
    ensures Connection.Execute(d, c, query, values) == Expected(d, c, query, values)
  {
    var stages := Stages(d, c, query, values);
    var opening := [StmtInit, StmtPrepare(query), StmtBindParam(Bound(c, values)), StmtResultMetadata];
    assert Connection.Execute(d, c, query, values)
      == Run(Failure(FetchFields(d.metadata.parse.message)), opening + [FreeResult, StmtClose]);
    assert Issued(stages[..6]) == opening && Unwind(stages[..5]) == [FreeResult, StmtClose] by {
      MetadataCalls(d, c, query, values);
      OpeningCalls(d, c, query, values);
    }
    ExpectedFailsAt(d, c, query, values, 5);
  }

  lemma OutputBindFailureFollowsStages(d: Driver, c: Codec, query: string, values: seq<Node>)
    requires d.stmtInit.Ok? && d.prepare.Ok? && c.encode(values).Success? && d.bindParam.Ok?
    requires d.metadata.Metadata? && d.metadata.parse.Parsed? && d.bindResult.Fail?
    ensures Connection.Execute(d, c, query, values) == Expected(d, c, query, values)
  {
    var stages := Stages(d, c, query, values);
    var opening := [StmtInit, StmtPrepare(query), StmtBindParam(Bound(c, values)), StmtResultMetadata];
    var bind := StmtBindResult(OutputBinds(d.metadata.parse.fields));
    assert Connection.Execute(d, c, query, values)
      == Run(Failure(OutputBind(d.bindResult.message)), opening + [bind, FreeResult, StmtClose]);
    assert Issued(stages[..7]) == opening + [bind] && Unwind(stages[..6]) == [FreeResult, StmtClose] by {
      MetadataCalls(d, c, query, values);
    }
    ExpectedFailsAt(d, c, query, values, 6);
  }

  lemma ExecuteFailureFollowsStages(d: Driver, c: Codec, query: string, values: seq<Node>)
    requires d.stmtInit.Ok? && d.prepare.Ok? && c.encode(values).Success? && d.bindParam.Ok?
    requires d.metadata.Metadata? && d.metadata.parse.Parsed? && d.bindResult.Ok? && d.execute.Fail?
    ensures Connection.Execute(d, c, query, values) == Expected(d, c, query, values)
  {
    var stages := Stages(d, c, query, values);
    var opening := [StmtInit, StmtPrepare(query), StmtBindParam(Bound(c, values)), StmtResultMetadata];
    var bind := StmtBindResult(OutputBinds(d.metadata.parse.fields));
    assert Connection.Execute(d, c, query, values)
      == Run(Failure(Error.Execute(d.execute.message)), opening + [bind, StmtExecute, FreeResult, StmtClose]);
    assert Issued(stages[..8]) == opening + [bind, StmtExecute] && Unwind(stages[..7]) == [FreeResult, StmtClose] by {
      MetadataCalls(d, c, query, values);
    }
    ExpectedFailsAt(d, c, query, values, 7);
  }

  lemma FetchFollowsStages(d: Driver, c: Codec, query: string, values: seq<Node>)
    requires d.stmtInit.Ok? && d.prepare.Ok? && c.encode(values).Success? && d.bindParam.Ok?
    requires d.metadata.Metadata? && d.metadata.parse.Parsed? && d.bindResult.Ok? && d.execute.Ok?
    ensures Connection.Execute(d, c, query, values) == Expected(d, c, query, values)
  {
    var stages := Stages(d, c, query, values);
    var fields := d.metadata.parse.fields;
    var loop := FetchLoop(d, c, fields, 0, [], map[]);
    var opening := [StmtInit, StmtPrepare(query), StmtBindParam(Bound(c, values)), StmtResultMetadata];
    var issued := opening + [StmtBindResult(OutputBinds(fields)), StmtExecute];
    assert Connection.Execute(d, c, query, values) == Run(loop.result, issued + loop.calls + [FreeResult, StmtClose]) by {
      var inner := WithMetadata(d, c, d.metadata.parse);
      assert inner == Run(loop.result, [StmtBindResult(OutputBinds(fields)), StmtExecute] + loop.calls);
      assert WithStatement(d, c, query, values) == Run(loop.result, opening[1..] + inner.calls + [FreeResult]);
    }
    assert Issued(stages) == issued && Unwind(stages) == [FreeResult, StmtClose] by {
      MetadataCalls(d, c, query, values);
      assert stages[..8] == stages;
    }
    assert FieldsOf(d) == fields;
    ExpectedCompletes(d, c, query, values);
  }
}
