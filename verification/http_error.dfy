/** `HttpError`: a `BaseError` carrying a status code and an optional,
    untyped response body. */
module HttpErrors {
  import opened SharedTypes
  import opened JsValues
  import opened BaseErrors

  type HttpError = e: BaseError | e.HttpError? witness BaseError.HttpError("", 500, Undefined)

  /** `new HttpError(message, statusCode, body?)`: message and status code are
      kept as given; a body that is not supplied reads back as `undefined`. */
  function NewHttpError(message: string, statusCode: int, body: Option<Value>): (e: HttpError)
    ensures e.Name() == "HttpError"
    ensures e.message == message && e.statusCode == statusCode
    ensures body.Some? ==> e.body == body.value
    ensures body.None? ==> e.body == Undefined
  {
    BaseError.HttpError(message, statusCode, body.GetOr(Undefined))
  }
}
