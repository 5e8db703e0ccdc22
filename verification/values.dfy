/**
 * Values shared by the whole model: optional and fallible results, the byte
 * strings the host key-value store holds, the transaction timestamp and the
 * error values the chaincode returns.
 */
module Values {

  datatype Option<+T> = None | Some(value: T)

  datatype Result<+R, +E> = Success(value: R) | Failure(error: E)

  /** One octet of a stored value. */
  newtype byte = x: int | 0 <= x < 256

  /** The contents stored under one key of the world state. */
  type Bytes = seq<byte>

  /** A key of the world state (a Go string). */
  type Key = string

  /** A protobuf timestamp, as the host hands it out for the current transaction. */
  datatype Timestamp = Timestamp(seconds: int, nanos: int)

  /** An error raised by the host store; the chaincode passes it on unchanged. */
  datatype HostError = HostError(text: string)

  /** The two sentinel errors strconv wraps into a NumError. */
  datatype Cause = ErrSyntax | ErrRange

  /** strconv.NumError: the function that failed, the input it was given and why. */
  datatype NumError = NumError(fn: string, num: string, err: Cause)

  /** Every error value a chaincode entry point can return. */
  datatype Error =
    | Message(text: string)   // built by the chaincode with errors.New
    | Parse(cause: NumError)  // returned unchanged from strconv.Atoi
    | Host(fault: HostError)  // returned unchanged from the host's PutState
}
