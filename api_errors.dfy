/** The typed API error (`YNABAPIError`) and the kinds of failure a client
    call can end in. */
module ApiErrors {
  import opened Results
  import opened JsonValues

  /** A `YNABAPIError`: the HTTP status, the decoded error object exactly as
      received, and the exception's display text. */
  datatype YnabApiError = YnabApiError(status: int, errorData: Json, message: string)

  /** Every way a call can fail. */
  datatype Failure =
    | TransportFailure(reason: string)   // aiohttp.ClientError, re-raised unchanged
    | ParseFailure(text: string)         // ValueError while decoding the body as JSON
    | ApiError(apiError: YnabApiError)   // YNABAPIError
    | UsageError(message: string)        // ValueError raised before any request
    | KeyFailure(key: string)            // KeyError from a missing dict key
    | TypeFailure(key: string)           // TypeError from `in` or `[]` on a non-dict

  /** The Python exception a failed lookup raises, as a call failure. */
  function LookupFailure(e: LookupError): (f: Failure)
    ensures e.KeyMissing? <==> f.KeyFailure?
    ensures f.KeyFailure? || f.TypeFailure?
    ensures f.KeyFailure? ==> f.key == e.key
    ensures f.TypeFailure? ==> f.key == e.key
  {
    match e
    case KeyMissing(k) => KeyFailure(k)
    case WrongType(k) => TypeFailure(k)
  }

  /** `YNABAPIError(status, error_data)`: keeps both arguments and builds the
      text "<status> - <detail>"; reading `error_data['detail']` fails when the
      error data is not a dict holding a `detail` key. */
  function NewYnabApiError(status: int, errorData: Json): (r: Result<YnabApiError, Failure>)
    ensures r.Ok? <==> errorData.JObj? && "detail" in errorData.fields
    ensures r.Ok? ==> r.value.status == status && r.value.errorData == errorData
    ensures r.Ok? ==> r.value.message == Decimal(status) + " - " + Str(errorData.fields["detail"])
    ensures r.Err? ==> r.error == LookupFailure(Subscript(errorData, "detail").error)
  {
    match Subscript(errorData, "detail")
    case Err(e) => Err(LookupFailure(e))
    case Ok(detail) => Ok(YnabApiError(status, errorData, Decimal(status) + " - " + Str(detail)))
  }

  /** The text before the first space. */
  function TakeUntilSpace(s: string): (r: string)
    ensures |r| <= |s| && r == s[..|r|]
  {
    if s == [] || s[0] == ' ' then [] else [s[0]] + TakeUntilSpace(s[1..])
  }

  lemma {:induction false} TakeUntilSpaceOfJoin(a: string, b: string)
    requires ' ' !in a
    ensures TakeUntilSpace(a + " " + b) == a
  {
    if a != [] {
      assert (a + " " + b)[1..] == a[1..] + " " + b;
      TakeUntilSpaceOfJoin(a[1..], b);
    }
  }

  /** Reads the status back out of an error's display text. */
  function StatusOfMessage(message: string): Option<int> {
    ParseDecimal(TakeUntilSpace(message))
  }

  /** The display text of every error the constructor builds names its status
      first, and the detail follows the " - " separator. */
  lemma MessageNamesStatus(status: int, errorData: Json)
    requires NewYnabApiError(status, errorData).Ok?
    ensures var e := NewYnabApiError(status, errorData).value;
      && StatusOfMessage(e.message) == Some(status)
      && e.message[|Decimal(status)|..|Decimal(status)| + 3] == " - "
      && e.message[|Decimal(status)| + 3..] == Str(errorData.fields["detail"])
  {
    var d := Decimal(status);
    var detail := Str(errorData.fields["detail"]);
    assert d + " - " + detail == d + " " + ("- " + detail);
    TakeUntilSpaceOfJoin(d, "- " + detail);
    DecimalRoundTrip(status);
  }

  /** The error body of a 404 for an unknown path reads "404 - Invalid URI". */
  lemma NotFoundMessage()
    ensures var body := JObj(map["id" := JStr("404.1"), "name" := JStr("not_found"), "detail" := JStr("Invalid URI")]);
      NewYnabApiError(404, body) == Ok(YnabApiError(404, body, "404 - Invalid URI"))
  {
    assert Digits(4) == "4";
    assert Digits(40) == Digits(4) + [DigitChar(0)] == "40";
    assert Digits(404) == Digits(40) + [DigitChar(4)] == "404";
    var body := JObj(map["id" := JStr("404.1"), "name" := JStr("not_found"), "detail" := JStr("Invalid URI")]);
    assert Subscript(body, "detail") == Ok(JStr("Invalid URI"));
    assert Decimal(404) + " - " + "Invalid URI" == "404 - Invalid URI";
  }
}
