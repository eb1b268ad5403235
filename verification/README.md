# MySQL connection: statement lifecycle and transactions

This project models the orchestration core of a Swift MySQL driver: the connection's
`execute(_:_:)`, which runs one prepared-statement lifecycle and assembles the result rows,
and `transaction(_:)`, which wraps a closure in `START TRANSACTION` and `COMMIT` or `ROLLBACK`.
The MySQL C client library is not modelled. Instead, a scripted oracle (`Native.Driver`) says
what each native step returns for one call: the status of each step, the result metadata,
and the sequence of fetch return codes with the buffer contents each fetch leaves. The value
codec is opaque (`Native.Codec`). It covers parameter encoding (`Binds(values)`, which may
throw) and the decoding of one output slot (`outputBinds[i].value`).

`Execute` and `Transaction` are pure functions. Each returns a `Run`: the value returned or the
error thrown, and the native calls issued, in order. The properties are stated over that pair:
- which error wins;
- which calls happen, and in which order;
- that cleanup runs on every path;
- how rows are assembled.

Modules:
- `Values`: the value type, the error cases, `Option` and `Result`.
- `Native`: the scripted native layer, the codec, the native calls and `Binds(fields)`.
- `Rows`: row assembly with the one dictionary the source reuses for every row.
- `Connection`: `Execute` with its branches, the fetch loop, `oldQuery` and `Transaction`.
- `Fetching`: what the fetch loop returns, stated against the script alone.
- `Stages`: an independent description of `execute` as a flat list of stages. Each stage has a
  native call, the error it raises, and the cleanup it registers with `defer`. The module
  proves that `Execute` agrees with it.
- `Lifecycle`: the caller-facing consequences, such as the handle being closed once and last,
  the metadata being freed once, the branch without a result set, and the rows returned.
- `Transactions`: closures made of `execute` calls, as in the repository's transaction tests.

Behaviour of the code that the model keeps as written:
- The result metadata is requested and the output buffers are bound *before* the statement
  executes (Sources/MySQL/Connection.swift:104, :124, :130).
- Any fetch return code other than 0 ends the loop, including an error or a truncated row.
  The rows gathered so far are returned as a success, and no fetch error exists
  (Sources/MySQL/Connection.swift:143). `Lifecycle.ResultSetRows` states this.
- A failing `ROLLBACK`'s `Execute` error replaces the closure's error
  (Sources/MySQL/Connection.swift:68).
- A failing re-bind after a fetched row raises `OutputBind`, and the rows already gathered are
  dropped (Sources/MySQL/Connection.swift:160-162).

## Model

| member | source | states |
|---|---|---|
| Connection.Execute | Sources/MySQL/Connection.swift:76-177 | the first call is `mysql_stmt_init`; init fails exactly when it is the only call issued, and then the error is `Statement` with the driver's text and no close is issued; otherwise the last call is `mysql_stmt_close`. The body runs through the helpers `Connection.WithStatement` (prepare, encode, bind_param, metadata request, :88-107, :166-173) and `Connection.WithMetadata` (fields, `Binds(fields)` with one output slot per field, bind_result, execute, :109-133) |
| Connection.FetchLoop | Sources/MySQL/Connection.swift:134-165 | the loop issues only fetches and re-binds of the same output slots; a successful loop ends with a fetch, and the rows already gathered stay at the front of the result |
| Connection.Transaction | Sources/MySQL/Connection.swift:51-73 | START TRANSACTION comes first, and if it fails the closure never runs; otherwise the closure's calls follow, then exactly one of COMMIT (iff the closure returned) or ROLLBACK (iff it threw); success iff start, closure and commit all succeed; a failed commit throws `Execute`; after a throw the original error is rethrown unless ROLLBACK fails, whose `Execute` error replaces it |
| Rows.LastIndex | Sources/MySQL/Connection.swift:145-153 | the column a repeated name takes its value from is the last column carrying that name |
| Rows.AssignWritesLastColumn | Sources/MySQL/Connection.swift:145-153 | writing a row's columns into the dictionary adds exactly the column names, each name holds the value of its last column (last write wins), and other keys are untouched |
| Rows.ReusedRowIsFresh | Sources/MySQL/Connection.swift:136-155 | reusing one dictionary for every row is harmless: each appended row equals a row built from that fetch alone |
| Fetching.RowsAvailable | Sources/MySQL/Connection.swift:143 | the number of rows read is the count of leading `0` fetch codes: all codes before it are `0`, and the one at it (if any) is not |
| Fetching.FirstFailedRebind | Sources/MySQL/Connection.swift:155-162 | the first fetched row whose re-bind failed; none exactly when every re-bind in the range succeeded |
| Fetching.FetchLoopFrom | Sources/MySQL/Connection.swift:134-165 | from any fetch on, with a dictionary holding only column names, the loop yields the gathered rows plus one fresh row per remaining leading `0` code, or `OutputBind` at the first failing re-bind with nothing issued after it |
| Fetching.FetchLoopReturnsFetchedRows | Sources/MySQL/Connection.swift:134-165 | as started by the connection, the loop returns exactly one row per leading `0` code and issues one fetch and one re-bind per row and a final fetch; a failing re-bind after row j aborts with `OutputBind` after j+1 rounds |
| Fetching.ExpectedRowContents | Sources/MySQL/Connection.swift:145-155 | each returned row's keys are exactly the field names, and each name maps to the value decoded from its last column at that row's own fetch |
| Stages.ExecuteFollowsStages | Sources/MySQL/Connection.swift:81-173 | `execute` equals the stage list: the first failing step decides the error (init→`Statement`, prepare→`Prepare`, encoder→its own error, bind_param→`InputBind`, fields→`FetchFields`, bind_result→`OutputBind`, execute→`Execute`); no later call is issued; the deferred free and close run last-registered first |
| Lifecycle.StatementClosedOnce | Sources/MySQL/Connection.swift:81-86 | once the handle exists it is closed exactly once, by the last call, on success and on every error exit |
| Lifecycle.MetadataFreedOnce | Sources/MySQL/Connection.swift:104-107 | the metadata is freed iff it was obtained, and then exactly once, right before the close |
| Lifecycle.NoResultSetExecutesOnce | Sources/MySQL/Connection.swift:166-173 | without metadata the statement executes exactly once, nothing is fetched or bound for output, and the result is `[]` unless execution fails with `Execute` |
| Lifecycle.MalformedQueryRaisesPrepare | Sources/MySQL/Connection.swift:88-93 | a query the server cannot prepare throws `Prepare` with the driver's text; only init, prepare and close are issued |
| Lifecycle.OutputBoundBeforeExecute | Sources/MySQL/Connection.swift:118-132 | with a result set and a successful bind_result, the output slots are bound before the statement executes, whether execution then succeeds or fails |
| Lifecycle.ResultSetRows | Sources/MySQL/Connection.swift:134-165 | with a result set, success iff no re-bind fails; the rows are exactly the fresh rows of the leading `0` fetches, and no fetch error is raised; a failing re-bind throws `OutputBind` and no rows are returned |
| Lifecycle.ResultSetFetchCount | Sources/MySQL/Connection.swift:143 | on success, exactly one more fetch is issued than rows returned |
| Lifecycle.LoopFetchCount | Sources/MySQL/Connection.swift:143 | a successful fetch loop issues exactly one fetch more than the rows it returns |
| Transactions.RunStatements | Tests/MySQLTests/MySQLTests.swift:231-238 | a closure of `try execute` calls succeeds iff every statement does, and throws the error of the first statement that fails |
| Transactions.FailedStatementRollsBack | Sources/MySQL/Connection.swift:64-70 | if a statement in the closure fails, the transaction ends with ROLLBACK and throws that statement's error, or the rollback's `Execute` error if ROLLBACK fails |
| Transactions.MalformedStatementRethrowsPrepare | Tests/MySQLTests/MySQLTests.swift:222-252 | when ROLLBACK succeeds, a closure whose statement cannot be prepared makes the transaction end with ROLLBACK and rethrow `Prepare` |
| Transactions.SucceedingStatementsCommit | Tests/MySQLTests/MySQLTests.swift:199-220 | a closure whose statements all succeed ends with COMMIT, and the transaction succeeds iff COMMIT does |

## Left out

- The MySQL C API itself: each `mysql_*` call is a scripted status. Fetch codes are plain
  integers, and a script that runs out reports no more data (100).
- Connection set-up, teardown and the error accessor (Sources/MySQL/Connection.swift:28-49,
  180-194). These are foreign plumbing. The accessor's text appears only as the message a
  failing step carries.
- The lock (`lock.locked`) around `execute` and `oldQuery`. Its only purpose is mutual
  exclusion between threads, and every model function is a single sequential call.
- The value codec: parameter encoding, output decoding, date and blob handling and the
  buffer sizes. The files holding them are not part of this model. `Binds(values)` and
  `outputBinds[i].value` are opaque functions of `Native.Codec`. The value type keeps no
  floating-point variant because the model never inspects values.
- Parsing the metadata into fields (`Fields(metadata)`). Only its outcome is scripted: the
  fields, or a failure with the driver's text. Fields carry only their names, the one part the
  connection uses.
- Unicode equivalence of column names: the model compares names as code-point sequences.
  The source's `[String: Node]` dictionary (Sources/MySQL/Connection.swift:138, :151)
  compares keys by canonical equivalence, so two fields whose names differ only in Unicode
  normalisation share one key there, and the later column wins. The model keeps them as
  two keys.
- A transaction's closure in general is given by its outcome and the calls it issued.
  `Transactions` covers closures made of `execute` calls only.
