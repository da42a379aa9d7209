/** Error codes of the logging package and the error values its handlers return. */
module XErrors {
  import opened Wrappers

  /** The integer error codes declared by the package, as an enumeration. */
  datatype ErrorCode =
    | InvalidParameter
    | HandleRecordError
    | BuildHandlerError
    | HandlerOptionDoesNotExist
    | HandlerOptionIsNotSettable
    | HandlerOptionDoesNotSupportNil
    | HandlerOptionValueIncompatible
    | HandlerOptionIsNotGettable
    | MarshalError
    | UnsupportedHandlerType
    | OptionsValidationError
    | HandlerTypeExists
    | DataCompressionError
    | HTTPClientError
    | HTTPRequestError
    | HTTPResponseError

  /** The integer a code stands for. */
  function Value(c: ErrorCode): int
  {
    match c
    case InvalidParameter => 1
    case HandleRecordError => 2
    case BuildHandlerError => 3
    case HandlerOptionDoesNotExist => 4
    case HandlerOptionIsNotSettable => 5
    case HandlerOptionDoesNotSupportNil => 6
    case HandlerOptionValueIncompatible => 7
    case HandlerOptionIsNotGettable => 8
    case MarshalError => 9
    case UnsupportedHandlerType => 10
    case OptionsValidationError => 11
    case HandlerTypeExists => 12
    case DataCompressionError => 13
    case HTTPClientError => 14
    case HTTPRequestError => 15
    case HTTPResponseError => 16
  }

  /** The code with the given integer, if the package declares one. */
  function FromValue(n: int): Option<ErrorCode>
  {
    if n == 1 then Some(InvalidParameter)
    else if n == 2 then Some(HandleRecordError)
    else if n == 3 then Some(BuildHandlerError)
    else if n == 4 then Some(HandlerOptionDoesNotExist)
    else if n == 5 then Some(HandlerOptionIsNotSettable)
    else if n == 6 then Some(HandlerOptionDoesNotSupportNil)
    else if n == 7 then Some(HandlerOptionValueIncompatible)
    else if n == 8 then Some(HandlerOptionIsNotGettable)
    else if n == 9 then Some(MarshalError)
    else if n == 10 then Some(UnsupportedHandlerType)
    else if n == 11 then Some(OptionsValidationError)
    else if n == 12 then Some(HandlerTypeExists)
    else if n == 13 then Some(DataCompressionError)
    else if n == 14 then Some(HTTPClientError)
    else if n == 15 then Some(HTTPRequestError)
    else if n == 16 then Some(HTTPResponseError)
    else None
  }

  /** The codes are exactly the integers 1 to 16, each used once. */
  lemma CodesAreOneToSixteen(c: ErrorCode, n: int)
    ensures 1 <= Value(c) <= 16
    ensures FromValue(Value(c)) == Some(c)
    ensures FromValue(n).Some? <==> 1 <= n <= 16
    ensures FromValue(n).Some? ==> Value(FromValue(n).value) == n
  {
  }

  /** An error value. Message texts are kept only as far as they name the failure. */
  datatype Error =
    | Coded(code: ErrorCode, message: string, cause: Option<Error>)  // an error built with an error code
    | Formatted(message: string, cause: Option<Error>)               // an error built by message formatting
    | Joined(errs: seq<Error>)                                       // several errors joined into one
    | Foreign(id: nat)                                               // an error raised outside the model

  /** An error built with the given code. */
  predicate HasCode(e: Error, c: ErrorCode)
  {
    e.Coded? && e.code == c
  }

  /** Joins a list of (non-nil) errors: nil when the list is empty, one joined error otherwise. */
  function Join(errs: seq<Error>): (r: Option<Error>)
    ensures r.None? <==> errs == []
    ensures r.Some? ==> r.value == Joined(errs)
  {
    if errs == [] then None else Some(Joined(errs))
  }

  /** The error-handler hook a handler may be configured with: it sees the error and, when there is
      one, the record being handled, and returns the error to report (possibly nil). */
  type ErrorHandlerFn<-R> = (Error, Option<R>) -> Option<Error>

  /** How a handler routes an error from its underlying writer: a nil error stays nil; a non-nil error goes
      through the error handler when one is set and is returned unchanged otherwise. */
  function Route<R>(handler: Option<ErrorHandlerFn<R>>, err: Option<Error>, r: Option<R>): (res: Option<Error>)
    ensures err.None? ==> res.None?
    ensures err.Some? && handler.None? ==> res == err
    ensures err.Some? && handler.Some? ==> res == handler.value(err.value, r)
  {
    match err
    case None => None
    case Some(e) => if handler.Some? then handler.value(e, r) else err
  }
}
