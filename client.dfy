/** The `Client` object: the access token and the authorization header are
    set once at construction and only read afterwards. The HTTP session is
    passed to each call as `transport`, the function from the request sent
    to the exchange that followed, and `json.loads` as `loads`. */
module YnabClient {
  import opened Results
  import opened JsonValues
  import opened ApiErrors
  import opened Pipeline
  import opened Resources

  class Client {
    const personalAccessToken: string
    /** The headers every request carries, built once from the token. */
    const headers: map<string, string> := map["Authorization" := "Bearer " + personalAccessToken]

    constructor (personalAccessToken: string)
      ensures this.personalAccessToken == personalAccessToken
      ensures headers == map["Authorization" := "Bearer " + personalAccessToken]
    {
      this.personalAccessToken := personalAccessToken;
    }

    /** `_request`: sends one request to the base URL followed by `endpoint`
        and turns what comes back into the payload or a failure. */
    method Request(endpoint: string, verb: Verb, params: Option<map<string, Json>>, body: Option<Json>,
                   transport: Outgoing -> Exchange, loads: string -> Option<Json>)
      returns (sent: Outgoing, result: Result<Json, Failure>)
      ensures sent.url == Url(endpoint) && sent.verb == verb && sent.params == params && sent.body == body
      ensures sent.headers == map["Authorization" := "Bearer " + personalAccessToken]
      ensures result == Respond(transport(sent), loads)
    {
      var url := Url(endpoint);
      sent := Outgoing(verb, url, params, body, headers);
      var exchange := transport(sent);
      match exchange {
        case ClientError(reason) =>
          // logged with the verb and URL, then re-raised as it is
          result := Err(TransportFailure(reason));
        case Responded(response) =>
          var data: Json;
          match response.decoded {
            case Parsed(value) =>
              data := value;
            case Malformed =>
              result := Err(ParseFailure(response.text));
              return;
            case ContentTypeMismatch =>
              var parsed := loads(response.text);
              if parsed.None? {
                // logged with the text, then re-raised
                result := Err(ParseFailure(response.text));
                return;
              }
              data := parsed.value;
          }
          result := Classify(response.status, data);
      }
    }

    /** A resource method: checks its arguments, then hands its path, verb,
        parameters and body to `_request`. A usage error sends nothing. */
    method Invoke(op: Op, transport: Outgoing -> Exchange, loads: string -> Option<Json>)
      returns (sent: Option<Outgoing>, result: Result<Json, Failure>)
      ensures sent.None? <==> Plan(op).Err?
      ensures sent.None? ==> result == Err(Plan(op).error) && result.error.UsageError?
      ensures sent.Some? ==>
        && sent.value.url == Url(Path(op))
        && sent.value.verb == VerbOf(op)
        && sent.value.params == Params(op)
        && sent.value.body == Plan(op).value.body
        && sent.value.headers == map["Authorization" := "Bearer " + personalAccessToken]
      ensures sent.Some? ==> result == Respond(transport(sent.value), loads)
    {
      var plan := Plan(op);
      if plan.Err? {
        sent, result := None, Err(plan.error);
        return;
      }
      var call := plan.value;
      var request;
      request, result := Request(call.endpoint, call.verb, call.params, call.body, transport, loads);
      sent := Some(request);
    }
  }
}
