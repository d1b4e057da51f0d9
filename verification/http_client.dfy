/** The HTTP client's vocabulary: methods, the status codes it names,
    headers, the five request shapes (one per method) and the response. */
module HttpClient {
  import opened SharedTypes
  import opened JsValues

  datatype HttpMethod = GET | POST | PUT | PATCH | DELETE

  /** The string each `HttpMethod` enum member stands for. */
  function MethodName(m: HttpMethod): string {
    match m
    case GET => "GET"
    case POST => "POST"
    case PUT => "PUT"
    case PATCH => "PATCH"
    case DELETE => "DELETE"
  }

  /** Distinct methods have distinct names, so the string sent identifies the method. */
  lemma MethodNameInjective(a: HttpMethod, b: HttpMethod)
    ensures MethodName(a) == MethodName(b) ==> a == b
  {
  }

  datatype HttpStatusCode =
    | Ok
    | Created
    | NoContent
    | BadRequest
    | Unauthorized
    | Forbidden
    | NotFound
    | InternalServerError

  /** The numeric value of each `HttpStatusCode` enum member. */
  function Code(s: HttpStatusCode): int {
    match s
    case Ok => 200
    case Created => 201
    case NoContent => 204
    case BadRequest => 400
    case Unauthorized => 401
    case Forbidden => 403
    case NotFound => 404
    case InternalServerError => 500
  }

  /** The enum member a number stands for, if any: numbers outside the eight
      named codes have none (they still travel as plain numbers). */
  function StatusOf(n: int): (r: Option<HttpStatusCode>)
    ensures r.Some? ==> Code(r.value) == n
    ensures r.None? ==> forall s :: Code(s) != n
  {
    if n == 200 then Some(Ok)
    else if n == 201 then Some(Created)
    else if n == 204 then Some(NoContent)
    else if n == 400 then Some(BadRequest)
    else if n == 401 then Some(Unauthorized)
    else if n == 403 then Some(Forbidden)
    else if n == 404 then Some(NotFound)
    else if n == 500 then Some(InternalServerError)
    else None
  }

  /** The codes are pairwise distinct: reading a code back gives its member. */
  lemma CodesDistinct(s: HttpStatusCode, t: HttpStatusCode)
    ensures StatusOf(Code(s)) == Some(s)
    ensures Code(s) == Code(t) <==> s == t
  {
  }

  /** Header values may be `undefined`, modelled as `None`. */
  type HttpHeaders = map<string, Option<string>>
  type HttpQueryParams = map<string, Value>

  const ContentTypeHeader := "Content-Type"
  const ApplicationJson := "application/json"

  predicate AllowedContentType(v: string) {
    v == "application/json" || v == "multipart/form-data" || v == "text/plain"
  }

  /** The typing `HttpHeaders` imposes: a defined Content-Type is one of three. */
  predicate WellTypedHeaders(h: HttpHeaders) {
    ContentTypeHeader in h && h[ContentTypeHeader].Some? ==> AllowedContentType(h[ContentTypeHeader].value)
  }

  /** A request is one of five shapes; only POST, PUT and PATCH have `data`. */
  datatype HttpRequest =
    | HttpGetRequest(url: string, params: Option<HttpQueryParams>, headers: Option<HttpHeaders>)
    | HttpPostRequest(url: string, data: Value, headers: Option<HttpHeaders>, params: Option<HttpQueryParams>)
    | HttpPutRequest(url: string, data: Value, headers: Option<HttpHeaders>, params: Option<HttpQueryParams>)
    | HttpPatchRequest(url: string, data: Value, headers: Option<HttpHeaders>, params: Option<HttpQueryParams>)
    | HttpDeleteRequest(url: string, headers: Option<HttpHeaders>, params: Option<HttpQueryParams>)
  {
    /** The `method` tag: each method belongs to exactly one shape. */
    function Method(): (m: HttpMethod)
      ensures m == GET <==> HttpGetRequest?
      ensures m == POST <==> HttpPostRequest?
      ensures m == PUT <==> HttpPutRequest?
      ensures m == PATCH <==> HttpPatchRequest?
      ensures m == DELETE <==> HttpDeleteRequest?
    {
      match this
      case HttpGetRequest(_, _, _) => GET
      case HttpPostRequest(_, _, _, _) => POST
      case HttpPutRequest(_, _, _, _) => PUT
      case HttpPatchRequest(_, _, _, _) => PATCH
      case HttpDeleteRequest(_, _, _) => DELETE
    }

    /** `'data' in request`: the shape carries a body field. */
    predicate HasData()
      ensures HasData() <==> Method() in {POST, PUT, PATCH}
    {
      HttpPostRequest? || HttpPutRequest? || HttpPatchRequest?
    }
  }

  datatype HttpResponse = HttpResponse(statusCode: int, body: Value, headers: Option<HttpHeaders>)
}
