/**
 * How backend failures become handler errors: the status-code table for permanent
 * opendal errors, the `From` conversions into the service's error type, the `terminal!`
 * macro and the two result extensions `TerminalExt` and `OpendalResultExt`.
 */
module Errors {
  import opened Wrappers

  /** The failure kinds an opendal error reports. */
  datatype ErrorKind =
    | Unexpected
    | Unsupported
    | ConfigInvalid
    | NotFound
    | PermissionDenied
    | IsADirectory
    | NotADirectory
    | AlreadyExists
    | RateLimited
    | IsSameFile
    | ConditionNotMatch
    | RangeNotSatisfied

  /** An opendal error: its kind, whether the backend reports it as permanent, and its display text. */
  datatype OpendalError = OpendalError(kind: ErrorKind, permanent: bool, text: string)

  /**
   * An `anyhow` error: its display text, and the opendal error it downcasts to, if any.
   */
  datatype AnyhowError = AnyhowError(text: string, opendal: Option<OpendalError>)

  /**
   * A runtime terminal error. `code == None` stands for the code that `TerminalError::new`
   * chooses by itself; only `new_with_code` fixes one.
   */
  datatype TerminalError = TerminalError(code: Option<nat>, message: string)

  /**
   * The runtime's handler error: terminal (never retried) or retryable.
   * The service's own `Error` type is a newtype around it and is modelled by it directly.
   */
  datatype HandlerError =
    | Terminal(code: Option<nat>, message: string)
    | Retryable(message: string)

  type Error = HandlerError

  /** The kinds that the status-code table names explicitly. */
  predicate Mapped(kind: ErrorKind) {
    kind in {Unsupported, ConfigInvalid, NotFound, PermissionDenied, IsADirectory, NotADirectory, AlreadyExists}
  }

  /** The status code that a permanent error of the given kind is reported with. */
  function StatusCode(kind: ErrorKind): (code: nat)
    ensures 400 <= code <= 501
  {
    match kind
    case Unsupported => 501
    case ConfigInvalid => 400
    case NotFound => 404
    case PermissionDenied => 403
    case IsADirectory => 422
    case NotADirectory => 422
    case AlreadyExists => 409
    case _ => 500
  }

  /**
   * Two different kinds share a code only when both are the directory-mismatch kinds,
   * or both are outside the table (code 500).
   */
  lemma StatusCodeShared(k1: ErrorKind, k2: ErrorKind)
    requires k1 != k2 && StatusCode(k1) == StatusCode(k2)
    ensures (k1 in {IsADirectory, NotADirectory} && k2 in {IsADirectory, NotADirectory})
         || (!Mapped(k1) && !Mapped(k2) && StatusCode(k1) == 500)
  {
  }

  /** Code 500 is exactly the fallback for kinds outside the table. */
  lemma StatusCodeFallback(kind: ErrorKind)
    ensures StatusCode(kind) == 500 <==> !Mapped(kind)
  {
  }

  /** `classify_opendal_error`: permanent errors become terminal with a table code, others stay retryable. */
  function Classify(e: OpendalError): (r: HandlerError)
    ensures r.Terminal? <==> e.permanent
    ensures r.message == e.text
    ensures r.Terminal? ==> r.code == Some(StatusCode(e.kind))
  {
    if e.permanent then Terminal(Some(StatusCode(e.kind)), e.text)
    else Retryable(e.text)
  }

  /** Classification of permanent errors depends on the kind alone. */
  lemma ClassifyDeterministic(e1: OpendalError, e2: OpendalError)
    requires e1.kind == e2.kind && e1.permanent == e2.permanent
    ensures e1.permanent ==> Classify(e1).code == Classify(e2).code
    ensures Classify(e1).Terminal? == Classify(e2).Terminal?
  {
  }

  /** `From<anyhow::Error>`: an error that downcasts to opendal is classified; any other stays retryable. */
  function FromAnyhow(e: AnyhowError): (r: Error)
    ensures e.opendal.None? ==> r == Retryable(e.text)
  {
    match e.opendal
    case Some(inner) => Classify(inner)
    case None => Retryable(e.text)
  }

  /** An `anyhow` error wrapping an opendal error is classified exactly as the opendal error is. */
  lemma AnyhowWrappingOpendal(text: string, inner: OpendalError)
    ensures FromAnyhow(AnyhowError(text, Some(inner))) == Classify(inner)
    ensures FromAnyhow(AnyhowError(text, Some(inner))).Terminal? <==> inner.permanent
  {
  }

  /** `From<TerminalError>`: a terminal error keeps its code and message. */
  function FromTerminal(t: TerminalError): (r: Error)
    ensures r.Terminal? && r.code == t.code && r.message == t.message
  {
    Terminal(t.code, t.message)
  }

  /** `From<std::io::Error>`: an I/O error, given by its display text, is retryable. */
  function FromIo(text: string): (r: Error)
    ensures !r.Terminal? && r.message == text
  {
    Retryable(text)
  }

  /** `terminal!(msg)`: fail with a terminal error carrying the message and the default code. */
  function Fail<T>(message: string): (r: Result<T, Error>)
    ensures r.Failure? && r.error.Terminal? && r.error.code.None? && r.error.message == message
  {
    Failure(FromTerminal(TerminalError(None, message)))
  }

  /** `TerminalExt::terminal`: any error, given by its display text, becomes terminal; success is kept. */
  function TerminalExt<T>(r: Result<T, string>): (out: Result<T, HandlerError>)
    ensures r.Success? <==> out.Success?
    ensures r.Success? ==> out.value == r.value
    ensures r.Failure? ==> out.error.Terminal? && out.error.code.None? && out.error.message == r.error
  {
    r.MapError((text: string) => Terminal(None, text))
  }

  /** `OpendalResultExt::into_handler_error`: permanent errors become terminal without a code. */
  function IntoHandlerError<T>(r: Result<T, OpendalError>): (out: Result<T, HandlerError>)
    ensures r.Success? <==> out.Success?
    ensures r.Success? ==> out.value == r.value
    ensures r.Failure? ==> out.error.message == r.error.text
    ensures r.Failure? ==> (out.error.Terminal? <==> r.error.permanent)
    ensures r.Failure? && out.error.Terminal? ==> out.error.code.None?
  {
    r.MapError((e: OpendalError) => if e.permanent then Terminal(None, e.text) else Retryable(e.text))
  }

  /**
   * `into_handler_error` and the `From` conversion agree on whether an error is terminal
   * and on its message; they differ only in the code.
   */
  lemma IntoHandlerErrorAgreesWithClassify<T>(e: OpendalError)
    ensures var h := IntoHandlerError<T>(Failure(e)).error;
      && h.Terminal? == Classify(e).Terminal?
      && h.message == Classify(e).message
      && (e.permanent ==> h.code.None? && Classify(e).code == Some(StatusCode(e.kind)))
  {
  }
}
