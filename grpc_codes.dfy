/** gRPC status codes (`codes.Code`, a `uint32`) and status errors. */
module GrpcCodes {

  newtype Code = x: int | 0 <= x < 0x1_0000_0000

  const OK: Code := 0
  const Canceled: Code := 1
  const Unknown: Code := 2
  const InvalidArgument: Code := 3
  const DeadlineExceeded: Code := 4
  const NotFound: Code := 5
  const AlreadyExists: Code := 6
  const PermissionDenied: Code := 7
  const ResourceExhausted: Code := 8
  const FailedPrecondition: Code := 9
  const Aborted: Code := 10
  const OutOfRange: Code := 11
  const Unimplemented: Code := 12
  const Internal: Code := 13
  const Unavailable: Code := 14
  const DataLoss: Code := 15
  const Unauthenticated: Code := 16

  /** The error `status.Error(code, message)` builds. */
  datatype Status = Status(code: Code, message: string)
}
