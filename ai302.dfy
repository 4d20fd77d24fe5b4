/** The 302.AI runtime's error classification. */
module Ai302 {
  import opened Wrappers

  const InvalidProviderAPIKey: string := "InvalidProviderAPIKey"

  /**
   * An error value: a `Response`, any other object (with or without a `status` field, whose
   * numeric value is `Some`), `null`/`undefined`, or a primitive such as a string.
   */
  datatype ErrorValue =
    | ResponseValue(status: int)
    | ObjectValue(hasStatus: bool, statusField: Option<int>)
    | NullValue
    | PrimitiveValue(description: string)

  datatype ErrorField = StatusCode(code: int) | Original(value: ErrorValue)

  /** The payload the handler returns: `{error, errorType?}`. */
  datatype ErrorPayload = ErrorPayload(error: ErrorField, errorType: Option<string>)

  /** The status of the value when it is treated as an HTTP response. */
  function ResponseStatus(e: ErrorValue): Option<int> {
    match e
    case ResponseValue(s) => Some(s)
    case ObjectValue(hasStatus, s) => if hasStatus then s else None
    case _ => None
  }

  /** The handler as written: `'status' in error` throws a TypeError for `null`, `undefined` and primitives. */
  function HandleErrorAsWritten(e: ErrorValue): Result<ErrorPayload, string> {
    if e.NullValue? || e.PrimitiveValue? then Err("TypeError: Cannot use 'in' operator to search for 'status'")
    else Ok(HandleError(e))
  }

  /** The handler as intended: a non-object error is not a response and is returned as `{error}`. */
  function HandleError(e: ErrorValue): ErrorPayload {
    if ResponseStatus(e) == Some(401) then ErrorPayload(StatusCode(401), Some(InvalidProviderAPIKey))
    else ErrorPayload(Original(e), None)
  }

  /**
   * A `Response` or an object with a `status` field counts as an HTTP response; status 401
   * maps to `{error: 401, errorType: InvalidProviderAPIKey}`, anything else to `{error}` alone.
   */
  lemma HandleErrorContract(e: ErrorValue)
    ensures HandleError(e).errorType.Some? <==> ResponseStatus(e) == Some(401)
    ensures HandleError(e).errorType.Some? ==> HandleError(e) == ErrorPayload(StatusCode(401), Some(InvalidProviderAPIKey))
    ensures HandleError(e).errorType.None? ==> HandleError(e).error == Original(e)
    ensures e.ObjectValue? && !e.hasStatus ==> HandleError(e) == ErrorPayload(Original(e), None)
  {
  }

  /** On objects the handler as written agrees with the intended one and always returns a payload. */
  lemma AsWrittenOnObjects(e: ErrorValue)
    requires e.ResponseValue? || e.ObjectValue?
    ensures HandleErrorAsWritten(e) == Ok(HandleError(e))
  {
  }

  /** A thrown string, or `null`, makes the handler as written throw instead of returning a payload. */
  lemma AsWrittenThrowsOnPrimitive()
    ensures HandleErrorAsWritten(PrimitiveValue("network down")).Err?
    ensures HandleErrorAsWritten(NullValue).Err?
    ensures HandleError(PrimitiveValue("network down")) == ErrorPayload(Original(PrimitiveValue("network down")), None)
  {
  }
}
