/** The error taxonomy of the proxy service (`src/error.rs`) and the
    `anyhow::Error` values that the configuration loader and the
    orchestrator return, together with the rendering of a `ServiceError` as
    a gRPC status. */
module Errors {

  /** The kinds of `std::io::Error` the model distinguishes; only
      `Interrupted` is singled out by the code, every other kind behaves
      alike. */
  datatype IoErrorKind =
    | NotFound | PermissionDenied | ConnectionRefused | ConnectionReset
    | AddrInUse | AddrNotAvailable | WouldBlock | TimedOut | Interrupted | Other

  /** A `std::io::Error`, known by its kind. */
  datatype IoError = IoError(kind: IoErrorKind)

  /** A `tonic::transport::Error`, known by its display text. */
  datatype TransportError = TransportError(text: string)

  /** The canonical gRPC status codes, as `tonic::Code` names them. */
  datatype Code =
    | Ok | Cancelled | Unknown | InvalidArgument | DeadlineExceeded | NotFound
    | AlreadyExists | PermissionDenied | ResourceExhausted | FailedPrecondition
    | Aborted | OutOfRange | Unimplemented | Internal | Unavailable | DataLoss
    | Unauthenticated

  /** A `tonic::Status`: a code and a message (details and metadata are not
      modelled). */
  datatype Status = Status(code: Code, message: string)

  /** `ServiceError`, the closed five-variant taxonomy. */
  datatype ServiceError =
    | ConfigError(cause: AnyError)
    | GrpcTransportError(transport: TransportError)
    | GrpcStatus(status: Status)
    | SipParseError(msg: string)
    | Io(io: IoError)

  /** An `anyhow::Error`: either a wrapped typed error, an ad-hoc message
      made with `anyhow!`, or an error under a `.context(..)` string. */
  datatype AnyError =
    | Service(service: ServiceError)
    | Transport(transport: TransportError)
    /** A `std::net::AddrParseError`; the model records the text that failed
        to parse, which the Rust error value does not carry. */
    | AddrParse(input: string)
    /** `std::env::VarError::NotPresent`. */
    | VarNotPresent
    | Message(text: string)
    | Context(context: string, cause: AnyError)

  const SIP_PARSE_PREFIX := "Geçersiz SIP: "
  const TRANSPORT_PREFIX := "gRPC bağlantı hatası: "

  /** The leading variant name of the `{:#?}` rendering of an error. */
  function VariantName(err: ServiceError): (name: string)
    ensures |name| > 0
  {
    match err
    case ConfigError(_) => "ConfigError"
    case GrpcTransportError(_) => "GrpcTransportError"
    case GrpcStatus(_) => "GrpcStatus"
    case SipParseError(_) => "SipParseError"
    case Io(_) => "Io"
  }

  /** `impl From<ServiceError> for Status`: total over the five variants.
      A wrapped status passes through unchanged; every other variant picks
      its code from its own kind alone. */
  function ToStatus(err: ServiceError): (s: Status)
    ensures err.GrpcStatus? ==> s == err.status
    ensures err.SipParseError? ==> s == Status(InvalidArgument, SIP_PARSE_PREFIX + err.msg)
    ensures err.GrpcTransportError? ==>
              s == Status(Unavailable, TRANSPORT_PREFIX + err.transport.text)
    ensures err.ConfigError? || err.Io? ==> s.code == Internal
    // Where each code can come from.
    ensures s.code == InvalidArgument <==>
              err.SipParseError? || (err.GrpcStatus? && err.status.code == InvalidArgument)
    ensures s.code == Unavailable <==>
              err.GrpcTransportError? || (err.GrpcStatus? && err.status.code == Unavailable)
    ensures s.code == Internal <==>
              err.ConfigError? || err.Io? || (err.GrpcStatus? && err.status.code == Internal)
    ensures !err.GrpcStatus? ==> s.code in {InvalidArgument, Unavailable, Internal}
  {
    match err
    case GrpcStatus(st) => st
    case SipParseError(msg) => Status(InvalidArgument, SIP_PARSE_PREFIX + msg)
    case GrpcTransportError(e) => Status(Unavailable, TRANSPORT_PREFIX + e.text)
    case _ => Status(Internal, VariantName(err))
  }
}
