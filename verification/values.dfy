/** Values that cross the driver boundary and the errors the driver raises. */
module Values {

  /** The driver's value type. Its codec lives in files that are not part of this model,
      so the model only carries values through and never inspects them. */
  datatype Node =
    | Null
    | SignedInt(i: int)
    | UnsignedInt(u: nat)
    | Text(s: string)
    | Bytes(b: seq<bv8>)
    | DateTime(epochSeconds: int)

  /** The errors `execute` and `transaction` can throw. Each native-call case carries the
      driver's diagnostic text as read right after the failing call. `Thrown` stands for
      an error raised by code outside the connection: the parameter encoder or a
      transaction's closure. */
  datatype Error =
    | Statement(message: string)
    | Prepare(message: string)
    | InputBind(message: string)
    | FetchFields(message: string)
    | OutputBind(message: string)
    | Execute(message: string)
    | Thrown(description: string)

  datatype Option<+T> = None | Some(value: T)

  /** The outcome of a throwing call: its value, or the error it threw. */
  datatype Result<+T> = Success(value: T) | Failure(error: Error)
}
