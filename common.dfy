/** Values shared by every part of the model: optional (nullable) values, the
    exceptions the library raises or lets escape, and results that carry them. */
module Common {

  /** A value that may be null in the C# API. */
  datatype Option<+T> = None | Some(value: T)

  /** A signed 64-bit integer (C# `long`). */
  type Int64 = x: int | -0x8000_0000_0000_0000 <= x < 0x8000_0000_0000_0000

  /** An unsigned 64-bit integer (C# `ulong`, protobuf `uint64`). */
  type UInt64 = x: int | 0 <= x < 0x1_0000_0000_0000_0000

  /** The Milvus wire error code, by the name its enumeration member renders as. */
  datatype ErrorCode = ErrorCode(name: string)

  /** The code of a call that succeeded (enumeration member `Success`, value 0). */
  const SuccessCode := ErrorCode("Success")

  /** The exceptions of the modelled code: argument checks, database errors, and
      the ones that the .NET runtime raises from an indexer, `First` or a failed cast. */
  datatype Exception =
    | ArgumentException(message: string)
    | MilvusException(code: ErrorCode, reason: string)
    | ArgumentNull
    | ArgumentOutOfRange
    | InvalidOperation
    | NullReference

  /** A call that returns a value or throws. */
  datatype Result<+T> = Success(value: T) | Failure(error: Exception) {
    predicate IsFailure() { Failure? }
    function PropagateFailure<U>(): Result<U> requires Failure? { Failure(error) }
    function Extract(): T requires Success? { value }
  }

  /** A call that returns nothing or throws. */
  datatype Outcome = Pass | Fail(error: Exception)
}
