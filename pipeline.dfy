/** The request primitive `Client._request`: the target URL, the two ways
    the response body is decoded, and the classification of the decoded
    envelope into a payload or a failure. The HTTP exchange itself is an
    input value. */
module Pipeline {
  import opened Results
  import opened JsonValues
  import opened ApiErrors

  /** The base API URL every endpoint is appended to. */
  const BaseUrl: string := "https://api.youneedabudget.com/v1"

  datatype Verb = GET | POST | PUT | PATCH

  /** Everything the client hands to the transport for one request. */
  datatype Outgoing = Outgoing(
    verb: Verb,
    url: string,
    params: Option<map<string, Json>>,
    body: Option<Json>,
    headers: map<string, string>)

  /** What `response.json()` does: decode the body, refuse it because of its
      content type (`ContentTypeError`), or fail to decode it (`ValueError`). */
  datatype Decoded = Parsed(value: Json) | ContentTypeMismatch | Malformed

  /** A completed exchange: its status, the outcome of the direct decode and
      the raw body text. */
  datatype Response = Response(status: int, decoded: Decoded, text: string)

  /** The outcome of the transport call: it raised `aiohttp.ClientError`, or a
      response came back. */
  datatype Exchange = ClientError(reason: string) | Responded(response: Response)

  /** The request target: the base URL followed by the endpoint. */
  function Url(endpoint: string): (url: string)
    ensures |url| == |BaseUrl| + |endpoint|
    ensures url[..|BaseUrl|] == BaseUrl && url[|BaseUrl|..] == endpoint
  {
    BaseUrl + endpoint
  }

  /** The JSON value of a response body: the direct decode, falling back to
      `json.loads` on the raw text only when the content type was refused. */
  function DecodeBody(response: Response, loads: string -> Option<Json>): (r: Result<Json, Failure>)
    ensures response.decoded.Parsed? ==> r == Ok(response.decoded.value)
    ensures response.decoded.ContentTypeMismatch? ==>
      (r.Ok? <==> loads(response.text).Some?) &&
      (r.Ok? ==> r.value == loads(response.text).value)
    ensures response.decoded.Malformed? ==> r.Err?
    ensures r.Err? ==> r.error == ParseFailure(response.text)
  {
    match response.decoded
    case Parsed(value) => Ok(value)
    case Malformed => Err(ParseFailure(response.text))
    case ContentTypeMismatch =>
      match loads(response.text)
      case Some(value) => Ok(value)
      case None => Err(ParseFailure(response.text))
  }

  /** The decoded body is an envelope whose `error` entry is an error object
      with a `detail`. */
  predicate CarriesApiError(data: Json) {
    && data.JObj? && "error" in data.fields
    && data.fields["error"].JObj? && "detail" in data.fields["error"].fields
  }

  /** The classification of a decoded body under a status: an error when the
      status is at least 400 or the body has an `error` key (the key test is
      not evaluated once the status alone decides), else the `data` entry. */
  function Classify(status: int, data: Json): (r: Result<Json, Failure>)
    ensures r.Ok? <==> status < 400 && data.JObj? && "error" !in data.fields && "data" in data.fields
    ensures r.Ok? ==> r.value == data.fields["data"]
    ensures (r.Err? && r.error.ApiError?) <==> CarriesApiError(data)
    ensures r.Err? && r.error.ApiError? ==>
      && r.error.apiError.status == status
      && r.error.apiError.errorData == data.fields["error"]
      && r.error.apiError.message == Decimal(status) + " - " + Str(data.fields["error"].fields["detail"])
    ensures status >= 400 && data.JObj? && "error" !in data.fields ==> r == Err(KeyFailure("error"))
    ensures status < 400 && data.JObj? && "error" !in data.fields && "data" !in data.fields ==> r == Err(KeyFailure("data"))
    ensures !data.JObj? ==> r.Err? && r.error.TypeFailure?
    ensures r.Err? ==> r.error.ApiError? || r.error.KeyFailure? || r.error.TypeFailure?
  {
    var isError := if status >= 400 then Ok(true) else Contains(data, "error");
    match isError
    case Err(e) => Err(LookupFailure(e))
    case Ok(false) =>
      (match Subscript(data, "data")
       case Err(e) => Err(LookupFailure(e))
       case Ok(payload) => Ok(payload))
    case Ok(true) =>
      match Subscript(data, "error")
      case Err(e) => Err(LookupFailure(e))
      case Ok(error) =>
        // the log line reads error['detail'] before the exception is built;
        // the constructor reads the same key, so it fails the same way
        match NewYnabApiError(status, error)
        case Err(f) => Err(f)
        case Ok(apiError) => Err(ApiError(apiError))
  }

  /** The whole of `_request` after the request is sent: a transport failure
      is passed on unchanged, a body that cannot be decoded is a parse
      failure, anything else is classified. */
  function Respond(exchange: Exchange, loads: string -> Option<Json>): (r: Result<Json, Failure>)
    ensures exchange.ClientError? ==> r == Err(TransportFailure(exchange.reason))
    ensures r.Err? && r.error.TransportFailure? ==> exchange.ClientError?
    ensures r.Err? && r.error.ParseFailure? ==>
      exchange.Responded? && DecodeBody(exchange.response, loads).Err?
    ensures exchange.Responded? && DecodeBody(exchange.response, loads).Ok? ==>
      r == Classify(exchange.response.status, DecodeBody(exchange.response, loads).value)
  {
    match exchange
    case ClientError(reason) => Err(TransportFailure(reason))
    case Responded(response) =>
      match DecodeBody(response, loads)
      case Err(f) => Err(f)
      case Ok(data) => Classify(response.status, data)
  }

  /** A call that succeeds returns exactly the `data` entry of a decoded
      envelope that has no `error` key, never the envelope itself. */
  lemma PayloadIsTheDataEntry(exchange: Exchange, loads: string -> Option<Json>)
    requires Respond(exchange, loads).Ok?
    ensures exchange.Responded? && exchange.response.status < 400
    ensures DecodeBody(exchange.response, loads).Ok?
    ensures var data := DecodeBody(exchange.response, loads).value;
      && data.JObj? && "error" !in data.fields && "data" in data.fields
      && Respond(exchange, loads).value == data.fields["data"]
  {
  }

  /** A body refused for its content type but readable as JSON text is
      handled exactly as if it had decoded directly to that value. */
  lemma FallbackAgreesWithDirectDecode(status: int, text: string, value: Json, loads: string -> Option<Json>)
    requires loads(text) == Some(value)
    ensures Respond(Responded(Response(status, ContentTypeMismatch, text)), loads)
         == Respond(Responded(Response(status, Parsed(value), text)), loads)
  {
  }

  /** A body neither decoding can read never yields a payload. */
  lemma UnreadableBodyFails(status: int, text: string, loads: string -> Option<Json>)
    requires loads(text) == None
    ensures Respond(Responded(Response(status, ContentTypeMismatch, text)), loads) == Err(ParseFailure(text))
    ensures Respond(Responded(Response(status, Malformed, text)), loads) == Err(ParseFailure(text))
  {
  }

  /** A success envelope `{"data": payload}` under a status below 400 yields
      exactly the payload. */
  lemma SuccessEnvelopeUnwraps(status: int, payload: Json)
    requires status < 400
    ensures Classify(status, Wrap("data", payload)) == Ok(payload)
  {
  }

  /** An error envelope `{"error": {..., "detail": d}}` is an API error under
      any status, carrying that status and the whole error object. */
  lemma ErrorEnvelopeRaises(status: int, error: map<string, Json>)
    requires "detail" in error
    ensures Classify(status, Wrap("error", JObj(error)))
         == Err(ApiError(YnabApiError(status, JObj(error), Decimal(status) + " - " + Str(error["detail"]))))
  {
  }

  /** A 429 answered with a non-JSON content type and the text
      {"error": {"detail": "rate limit", "id": "429"}} is still reported as an
      API error with detail "rate limit". */
  lemma RateLimitThroughFallback(text: string, loads: string -> Option<Json>)
    requires loads(text) == Some(Wrap("error", JObj(map["detail" := JStr("rate limit"), "id" := JStr("429")])))
    ensures var r := Respond(Responded(Response(429, ContentTypeMismatch, text)), loads);
      && r.Err? && r.error.ApiError?
      && r.error.apiError.status == 429
      && r.error.apiError.errorData.fields["detail"] == JStr("rate limit")
  {
  }
}
