/** The MySQL client library, seen as a scripted oracle: for one `execute` call it says
    what each native step returns. Nothing here performs I/O. */
module Native {
  import opened Values

  /** A native call's outcome: return code zero (or a non-nil handle), or a failure
      together with the text the connection's error accessor reports right after it. */
  datatype Status = Ok | Fail(message: string)

  /** One result-set column. Only its name matters to the connection. */
  datatype Field = Field(name: string)

  /** An output buffer's contents after a fetch: the NULL flag and the raw bytes. */
  datatype Cell = Cell(isNull: bool, data: seq<bv8>)

  /** One output binding slot, made for one field. */
  datatype Slot = Slot(field: Field)

  /** What parsing the result metadata into fields gives. */
  datatype FieldsParse = Parsed(fields: seq<Field>) | Unparsable(message: string)

  /** What `mysql_stmt_result_metadata` returns: no metadata for statements without a
      result set, or metadata whose parse is given. */
  datatype Metadata = NoMetadata | Metadata(parse: FieldsParse)

  /** One call of `mysql_stmt_fetch`: its return code, the buffer contents it leaves
      behind for each column index, and the outcome of the `mysql_stmt_bind_result`
      issued after the row has been read. */
  datatype FetchStep = FetchStep(code: int, cells: nat -> Cell, rebind: Status)

  /** The scripted native layer for one `execute` call. */
  datatype Driver = Driver(
    stmtInit: Status,
    prepare: Status,
    bindParam: Status,
    metadata: Metadata,
    bindResult: Status,
    execute: Status,
    fetches: seq<FetchStep>)

  /** The value codec, which the model leaves opaque: encoding the parameters into input
      bindings (this may throw), and decoding one output slot back into a value. */
  datatype Codec = Codec(
    encode: seq<Node> -> Result<seq<Cell>>,
    decode: (Field, Cell) -> Node)

  /** The native calls the connection issues, in the order it issues them. */
  datatype Call =
    | StmtInit
    | StmtPrepare(query: string)
    | StmtBindParam(binds: seq<Cell>)
    | StmtResultMetadata
    | StmtBindResult(slots: seq<Slot>)
    | StmtExecute
    | StmtFetch
    | FreeResult
    | StmtClose
    | Query(sql: string)

  /** `mysql_stmt_fetch` return codes. */
  const FetchedRow: int := 0
  const NoData: int := 100

  const StartTransaction: string := "START TRANSACTION"
  const Rollback: string := "ROLLBACK"
  const Commit: string := "COMMIT"

  /** The code of the k-th fetch; once the script is exhausted every fetch reports
      that no rows remain, as the client library does after the last row. */
  function FetchCode(d: Driver, k: nat): (code: int)
    ensures k >= |d.fetches| ==> code == NoData
  {
    if k < |d.fetches| then d.fetches[k].code else NoData
  }

  /** Output bindings for a field list: one slot per field, in column order. Cannot fail. */
  function OutputBinds(fields: seq<Field>): seq<Slot>
  {
    seq(|fields|, i requires 0 <= i < |fields| => Slot(fields[i]))
  }

  /** The column names, in column order. */
  function Names(fields: seq<Field>): (names: seq<string>)
    ensures |names| == |fields|
    ensures forall i :: 0 <= i < |fields| ==> names[i] == fields[i].name
  {
    seq(|fields|, i requires 0 <= i < |fields| => fields[i].name)
  }

  /** The values decoded from the output slots after one fetch, in column order. */
  function Decoded(c: Codec, slots: seq<Slot>, cells: nat -> Cell): (values: seq<Node>)
    ensures |values| == |slots|
    ensures forall i :: 0 <= i < |slots| ==> values[i] == c.decode(slots[i].field, cells(i))
  {
    seq(|slots|, i requires 0 <= i < |slots| => c.decode(slots[i].field, cells(i)))
  }
}
