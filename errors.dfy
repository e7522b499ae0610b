/** RESTCONF error reporting: error types and tags (section 7 of RFC 8040) and the exceptions the core throws. */
module Errors {
  import opened Wrappers
  import opened Yang

  /** The `error-type` enumeration of section 7.1 of RFC 8040. */
  datatype ErrorType = Transport | Rpc | Protocol | Application {

    /** The text this type takes in an `error-type` element. */
    function ElementBody(): string {
      match this
      case Transport => "transport"
      case Rpc => "rpc"
      case Protocol => "protocol"
      case Application => "application"
    }
  }

  /** Reads an `error-type` element body back into its error type. */
  function ErrorTypeOf(body: string): (r: Option<ErrorType>)
    ensures r.Some? ==> r.value.ElementBody() == body
  {
    if body == "transport" then Some(Transport)
    else if body == "rpc" then Some(Rpc)
    else if body == "protocol" then Some(Protocol)
    else if body == "application" then Some(Application)
    else None
  }

  /** Every error type is read back from the body it is written as. */
  lemma ErrorTypeRoundTrip(t: ErrorType)
    ensures ErrorTypeOf(t.ElementBody()) == Some(t)
  {
  }

  /** An `error-tag`: an open set of names, identified by the text written for it. */
  datatype ErrorTag = ErrorTag(elementBody: string)

  const MissingElement := ErrorTag("missing-element")
  const BadElement := ErrorTag("bad-element")
  const InvalidValue := ErrorTag("invalid-value")
  const OperationFailed := ErrorTag("operation-failed")

  /** One entry of an `errors` report: type and tag always, path, message and info when set. */
  datatype RestconfError = RestconfError(
    errorType: ErrorType,
    errorTag: ErrorTag,
    errorPath: Option<InstanceIdentifier>,
    errorMessage: Option<string>,
    errorInfo: Option<string>)

  /** What the core throws or fails with. */
  datatype Failure =
      /** A RestconfDocumentedException carrying one error. */
    | Documented(message: string, errorType: ErrorType, errorTag: ErrorTag)
      /** An IllegalArgumentException with its message. */
    | IllegalArgument(message: string)

  /** A RestconfDocumentedException built from a message alone, which reports an application operation failure. */
  function DocumentedDefault(message: string): Failure
  {
    Documented(message, Application, OperationFailed)
  }
}
