/** The parts of gRPC status values the error package reads and builds:
    status codes (as in google.golang.org/grpc/codes), a status with its
    message and details, the ErrorX detail message and the BadRequest
    detail of errdetails. */
module Grpc {
  import Fmt

  /** `codes.Code` is a uint32. */
  type Code = c: int | 0 <= c < 0x1_0000_0000

  const OK: Code := 0
  const InvalidArgument: Code := 3
  const NotFound: Code := 5
  const AlreadyExists: Code := 6
  const PermissionDenied: Code := 7
  const Internal: Code := 13
  const Unauthenticated: Code := 16

  /** The names `codes.Code.String` gives the seventeen codes, by value. */
  const CodeNames: seq<string> := [
    "OK", "Canceled", "Unknown", "InvalidArgument", "DeadlineExceeded", "NotFound",
    "AlreadyExists", "PermissionDenied", "ResourceExhausted", "FailedPrecondition",
    "Aborted", "OutOfRange", "Unimplemented", "Internal", "Unavailable", "DataLoss",
    "Unauthenticated"]

  /** `codes.Code.String`: the code's name, or `Code(<n>)` for a value
      without one. */
  function CodeString(c: Code): string
  {
    if c < |CodeNames| then CodeNames[c] else "Code(" + Fmt.Decimal(c) + ")"
  }

  type Int32 = x: int | -0x8000_0000 <= x < 0x8000_0000

  /** One field violation of a BadRequest detail. */
  datatype FieldViolation = FieldViolation(field: string, description: string)

  /** A status detail: the package's own ErrorX message, a BadRequest, or
      a detail of any other kind. */
  datatype StatusDetail =
    | ErrorXProto(message: string, code: string, typ: Int32, details: map<string, string>)
    | BadRequest(fieldViolations: seq<FieldViolation>)
    | OtherDetail

  /** `*status.Status`: code, message and details. */
  datatype Status = Status(code: Code, message: string, details: seq<StatusDetail>)

  /** The text of a status error (`(*status.Error).Error`). */
  function ErrorText(st: Status): string
  {
    "rpc error: code = " + CodeString(st.code) + " desc = " + st.message
  }
}
