/** The axios-backed HTTP client, without the transport itself: how a
    request becomes an axios request configuration, how a response is
    adapted, and how any thrown value is classified into an `HttpError`.
    The transport is a parameter `send` from configuration to outcome. */
module AxiosHttpClient {
  import opened SharedTypes
  import opened JsValues
  import opened BaseErrors
  import opened HttpErrors
  import opened HttpClient

  /** What the `response` property of a thrown object holds. */
  datatype ResponseProperty =
    | NoResponse                                      // absent or `undefined`
    | NullResponse                                    // `null`
    | PrimitiveResponse                               // a string, number, boolean, ...
    | ObjectResponse(status: Option<int>, data: Option<Value>)  // `None`: key absent

  /** A value a rejected transport call throws. */
  datatype Thrown =
    | NullThrown
    | PrimitiveThrown                                 // `typeof` is not "object"
    | ObjectThrown(
        errorInstance: bool,                          // `instanceof Error`
        message: Option<string>,                      // `None`: no message property
        isAxiosError: Option<Value>,                  // `None`: key absent
        response: ResponseProperty)

  /** `isAxiosError`: a non-null object whose `isAxiosError` property is `true`. */
  predicate IsAxiosError(t: Thrown)
    // `typeof error === 'object' && error !== null`
    ensures t.NullThrown? || t.PrimitiveThrown? ==> !IsAxiosError(t)
    // `'isAxiosError' in error`
    ensures t.ObjectThrown? && t.isAxiosError.None? ==> !IsAxiosError(t)
    // `isAxiosError === true`: strict, so `1` or `"true"` do not count
    ensures t.ObjectThrown? && t.isAxiosError.Some? ==> (IsAxiosError(t) <==> t.isAxiosError.value == Bool(true))
  {
    t.ObjectThrown? && t.isAxiosError == Some(Bool(true))
  }

  /** `error instanceof Error`. */
  predicate IsErrorInstance(t: Thrown) {
    t.ObjectThrown? && t.errorInstance
  }

  /** `error.message` as `new HttpError` stores it; a missing message becomes "". */
  function MessageOf(t: Thrown): string
    requires t.ObjectThrown?
  {
    t.message.GetOr("")
  }

  const InternalServerErrorCode := Code(InternalServerError)

  /** What `handleError` produces for a thrown value, by case. */
  ghost predicate ClassifiedAs(t: Thrown, e: HttpError) {
    if IsAxiosError(t) then
      if t.response.ObjectResponse? && t.response.status.Some? && t.response.data.Some? then
        e == NewHttpError(MessageOf(t), t.response.status.value, Some(t.response.data.value))
      else
        e == NewHttpError(MessageOf(t), 500, None)
    else if IsErrorInstance(t) then
      e == NewHttpError(MessageOf(t), 500, None)
    else
      e == NewHttpError("An unexpected error occurred", 500, None)
  }

  // ----- the source as written -----

  /** A JavaScript evaluation that either completes with a value or throws a
      `TypeError` with the given message. */
  datatype Completion<+T> = Normal(value: T) | TypeErrorThrown(message: string)

  /** `hasErrorResponse` as written: `'status' in error.response` throws when
      the response is `null`, since `typeof null` is "object". */
  function HasErrorResponseAsWritten(t: Thrown): (r: Completion<bool>)
    requires t.ObjectThrown?
    ensures r.TypeErrorThrown? <==> t.response.NullResponse?
  {
    match t.response
    case NoResponse => Normal(false)
    case PrimitiveResponse => Normal(false)
    case NullResponse => TypeErrorThrown("Cannot use 'in' operator to search for 'status' in null")
    case ObjectResponse(status, data) => Normal(status.Some? && data.Some?)
  }

  /** `handleError` as written: it can itself throw. */
  function HandleErrorAsWritten(t: Thrown): (r: Completion<HttpError>)
    ensures r.Normal? <==> !(IsAxiosError(t) && t.response.NullResponse?)
    ensures r.Normal? ==> ClassifiedAs(t, r.value)
  {
    if IsAxiosError(t) then
      match HasErrorResponseAsWritten(t)
      case TypeErrorThrown(m) => TypeErrorThrown(m)
      case Normal(has) =>
        if has then
          Normal(NewHttpError(MessageOf(t), t.response.status.value, Some(t.response.data.value)))
        else
          Normal(NewHttpError(MessageOf(t), InternalServerErrorCode, None))
    else if IsErrorInstance(t) then
      Normal(NewHttpError(MessageOf(t), InternalServerErrorCode, None))
    else
      Normal(NewHttpError(UnexpectedMessage, InternalServerErrorCode, None))
  }

  // ----- request configuration and response adaptation -----

  /** `mergeHeaders`: the JSON Content-Type default, overridden key by key by
      whatever the caller supplied. */
  function MergeHeaders(headers: Option<HttpHeaders>): (r: HttpHeaders)
    ensures ContentTypeHeader in r
    ensures forall k :: k in r <==> k == ContentTypeHeader || (headers.Some? && k in headers.value)
    ensures forall k :: headers.Some? && k in headers.value ==> r[k] == headers.value[k]
    ensures headers.None? || ContentTypeHeader !in headers.value ==> r[ContentTypeHeader] == Some(ApplicationJson)
  {
    map[ContentTypeHeader := Some(ApplicationJson)] + headers.GetOr(map[])
  }

  /** Merging keeps the Content-Type typing of `HttpHeaders`. */
  lemma MergeHeadersWellTyped(headers: Option<HttpHeaders>)
    requires headers.None? || WellTypedHeaders(headers.value)
    ensures WellTypedHeaders(MergeHeaders(headers))
  {
  }

  /** Merging an already merged header set changes nothing. */
  lemma {:induction false} MergeHeadersIdempotent(headers: Option<HttpHeaders>)
    ensures MergeHeaders(Some(MergeHeaders(headers))) == MergeHeaders(headers)
  {
    var m := MergeHeaders(headers);
    var mm := MergeHeaders(Some(m));
    assert mm.Keys == m.Keys;
    forall k | k in m
      ensures mm[k] == m[k]
    {
    }
  }

  /** `getRequestData`: the body to forward, `undefined` for shapes without one. */
  function RequestData(request: HttpRequest): (d: Value)
    ensures request.HasData() ==> d == request.data
    ensures request.Method() == GET || request.Method() == DELETE ==> d == Undefined
  {
    if request.HasData() then request.data else Undefined
  }

  /** The configuration `request` hands to the axios instance. */
  datatype AxiosRequestConfig = AxiosRequestConfig(
    url: string,
    httpMethod: string,
    headers: HttpHeaders,
    params: Option<HttpQueryParams>,
    data: Value)

  function RequestConfig(request: HttpRequest): (c: AxiosRequestConfig)
    ensures c.url == request.url && c.httpMethod == MethodName(request.Method()) && c.params == request.params
    ensures c.headers == MergeHeaders(request.headers)
    ensures c.data == RequestData(request)
  {
    AxiosRequestConfig(request.url, MethodName(request.Method()), MergeHeaders(request.headers), request.params, RequestData(request))
  }

  datatype AxiosResponse = AxiosResponse(status: int, data: Value, headers: HttpHeaders)

  /** What one transport call does: respond, or throw. */
  datatype TransportOutcome = Responded(response: AxiosResponse) | Failed(thrown: Thrown)

  /** `adaptResponse`: status, data and headers carried over verbatim. */
  function AdaptResponse(response: AxiosResponse): (r: HttpResponse)
    ensures r.statusCode == response.status && r.body == response.data
    ensures r.headers == Some(response.headers)
  {
    HttpResponse(response.status, response.data, Some(response.headers))
  }

  /** `request` as written: the promise rejects when `handleError` throws. */
  function RequestAsWritten(request: HttpRequest, send: AxiosRequestConfig -> TransportOutcome)
    : (r: Settled<Either<HttpError, HttpResponse>, string>)
    ensures r.Rejected? <==>
      (send(RequestConfig(request)).Failed? && IsAxiosError(send(RequestConfig(request)).thrown)
       && send(RequestConfig(request)).thrown.response.NullResponse?)
  {
    match send(RequestConfig(request))
    case Responded(response) => Fulfilled(Right(AdaptResponse(response)))
    case Failed(thrown) =>
      match HandleErrorAsWritten(thrown)
      case Normal(e) => Fulfilled(Left(e))
      case TypeErrorThrown(m) => Rejected(m)
  }

  /** A network-style axios error whose `response` is `null` escapes `request`
      as a rejected promise instead of becoming `Left(HttpError)`. */
  lemma NullResponseEscapesRequest()
    ensures
      var thrown := ObjectThrown(false, Some("Network Error"), Some(Bool(true)), NullResponse);
      var send := (c: AxiosRequestConfig) => Failed(thrown);
      RequestAsWritten(HttpGetRequest("/test", None, None), send).Rejected?
  {
  }

  // ----- the corrected classification, used by the rest of the model -----

  /** `hasErrorResponse` with `null` treated as no response. */
  predicate HasErrorResponse(t: Thrown)
    requires t.ObjectThrown?
  {
    t.response.ObjectResponse? && t.response.status.Some? && t.response.data.Some?
  }

  /** `handleError`: every thrown value becomes an `HttpError`. Axios errors
      with a well-formed response keep its status (named or not) and data;
      other axios errors and `Error`s get 500 with their message; anything
      else gets 500 with a fixed message. */
  function HandleError(t: Thrown): (e: HttpError)
    ensures ClassifiedAs(t, e)
    ensures e.statusCode == 500 || (IsAxiosError(t) && HasErrorResponse(t) && e.statusCode == t.response.status.value)
    ensures !IsAxiosError(t) && !IsErrorInstance(t) ==> e.message == "An unexpected error occurred"
  {
    if IsAxiosError(t) then
      if HasErrorResponse(t) then
        NewHttpError(MessageOf(t), t.response.status.value, Some(t.response.data.value))
      else
        NewHttpError(MessageOf(t), InternalServerErrorCode, None)
    else if IsErrorInstance(t) then
      NewHttpError(MessageOf(t), InternalServerErrorCode, None)
    else
      NewHttpError(UnexpectedMessage, InternalServerErrorCode, None)
  }

  /** Wherever the source's `handleError` completes, it agrees with the
      corrected one. */
  lemma HandleErrorAgrees(t: Thrown)
    ensures HandleErrorAsWritten(t).Normal? ==> HandleErrorAsWritten(t).value == HandleError(t)
  {
  }

  /** `request`: success is `Right` of the adapted response, and every thrown
      value is caught and classified into `Left`. */
  function Request(request: HttpRequest, send: AxiosRequestConfig -> TransportOutcome)
    : (r: Either<HttpError, HttpResponse>)
    ensures send(RequestConfig(request)).Responded? ==>
      r == Right(AdaptResponse(send(RequestConfig(request)).response))
    ensures send(RequestConfig(request)).Failed? ==>
      r.Left? && ClassifiedAs(send(RequestConfig(request)).thrown, r.leftValue)
  {
    match send(RequestConfig(request))
    case Responded(response) => Right(AdaptResponse(response))
    case Failed(thrown) => Left(HandleError(thrown))
  }

  /** Outside the `null`-response case the corrected `request` settles exactly
      as the source's does. */
  lemma RequestAgreesOffNullResponse(request: HttpRequest, send: AxiosRequestConfig -> TransportOutcome)
    requires RequestAsWritten(request, send).Fulfilled?
    ensures RequestAsWritten(request, send).value == Request(request, send)
  {
    var outcome := send(RequestConfig(request));
    if outcome.Failed? {
      HandleErrorAgrees(outcome.thrown);
    }
  }

  // ----- the scenarios the client's tests pin down -----

  /** An axios error whose response carries a status outside the enum keeps
      that status and the response data. */
  lemma UnmappedStatusPassesThrough()
    ensures
      var body := Obj(map["error" := Str("Im a teapot")]);
      var t := ObjectThrown(false, Some("Bad Request"), Some(Bool(true)), ObjectResponse(Some(418), Some(body)));
      HandleError(t) == BaseError.HttpError("Bad Request", 418, body)
  {
  }

  /** An axios error without a response becomes a 500 with its message. */
  lemma NetworkErrorIsInternal()
    ensures
      var t := ObjectThrown(false, Some("Network Error"), Some(Bool(true)), NoResponse);
      HandleError(t) == BaseError.HttpError("Network Error", 500, Undefined)
  {
  }

  /** A plain `Error` becomes a 500 with its message. */
  lemma PlainErrorIsInternal()
    ensures
      var t := ObjectThrown(true, Some("Unknown error"), None, NoResponse);
      HandleError(t) == BaseError.HttpError("Unknown error", 500, Undefined)
  {
  }

  /** A thrown string, number or other non-object becomes a 500 with the
      fixed message. */
  lemma NonObjectIsUnexpected()
    ensures HandleError(PrimitiveThrown) == BaseError.HttpError("An unexpected error occurred", 500, Undefined)
    ensures HandleError(NullThrown) == BaseError.HttpError("An unexpected error occurred", 500, Undefined)
  {
  }

  // ----- the per-method helpers -----

  /** `get(url, params?, headers?)`. */
  function Get(url: string, params: Option<HttpQueryParams>, headers: Option<HttpHeaders>): (r: HttpRequest)
    ensures r.Method() == GET && r.url == url && r.params == params && r.headers == headers
    ensures RequestConfig(r).data == Undefined
  {
    HttpGetRequest(url, params, headers)
  }

  /** `post(url, data?, headers?)`: an omitted body is forwarded as `undefined`. */
  function Post(url: string, data: Value, headers: Option<HttpHeaders>): (r: HttpRequest)
    ensures r.Method() == POST && r.url == url && r.headers == headers && r.params.None?
    ensures RequestConfig(r).data == data
  {
    HttpPostRequest(url, data, headers, None)
  }

  function Put(url: string, data: Value, headers: Option<HttpHeaders>): (r: HttpRequest)
    ensures r.Method() == PUT && r.url == url && r.headers == headers && r.params.None?
    ensures RequestConfig(r).data == data
  {
    HttpPutRequest(url, data, headers, None)
  }

  function Patch(url: string, data: Value, headers: Option<HttpHeaders>): (r: HttpRequest)
    ensures r.Method() == PATCH && r.url == url && r.headers == headers && r.params.None?
    ensures RequestConfig(r).data == data
  {
    HttpPatchRequest(url, data, headers, None)
  }

  /** `delete(url, headers?)`. */
  function Delete(url: string, headers: Option<HttpHeaders>): (r: HttpRequest)
    ensures r.Method() == DELETE && r.url == url && r.headers == headers && r.params.None?
    ensures RequestConfig(r).data == Undefined
  {
    HttpDeleteRequest(url, headers, None)
  }
}
