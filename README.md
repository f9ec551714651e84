# aioynab request pipeline, modelled in Dafny

`aioynab` is an asyncio client for the YNAB budgeting REST API. Each resource
method of its `Client` has a fixed path template and an HTTP verb. The
method builds optional query parameters and, for updates, a body wrapped
under the resource's name, then calls `Client._request`. That primitive
appends the endpoint to the base URL and sends the request with the bearer
header. It decodes the JSON body, falling back to parsing the raw text when
the content type is refused. It returns the body's `data` entry, or raises
`YNABAPIError` when the status is at least 400 or the body has an `error` key.

This project models that pipeline with no I/O:

- `results.dfy`, module `Results`: `Option` and `Result`. They stand in for
  Python's `None` defaults and for raised exceptions.
- `json_values.dfy`, module `JsonValues`: decoded JSON values, plus the Python
  operations the client applies to them: `key in value` on a dict, list or
  string (TypeError for any other value), `value[key]` (KeyError or
  TypeError), truthiness, `str`, and the decimal text of an int.
- `api_errors.dfy`, module `ApiErrors`: `YNABAPIError` (status, error data
  and display text "<status> - <detail>"), and `Failure`, the kinds a call
  can end in. The kinds are transport failure, parse failure, API error,
  usage error, and the KeyError and TypeError the envelope lookups can raise.
- `pipeline.dfy`, module `Pipeline`: `_request` after sending: the URL, the
  direct decode and its fallback, and the classification of the decoded body.
  The exchange is an input value: either `aiohttp.ClientError` or a response
  with a status, the outcome of `response.json()` and the raw text.
  `json.loads` is a function parameter that may fail.
- `resources.dfy`, module `Resources`: every resource method as a constructor
  of `Op` carrying its arguments. For each one the model gives the path
  segments, the verb, the parameter dict, the body and the usage checks of
  the two bulk transaction methods. `Plan` gives what the method passes to
  `_request`.
- `client.dfy`, module `YnabClient`: the `Client` class. The token and the
  headers are `const` fields, fixed at construction. `Request` is `_request`
  written as a step-by-step procedure and proved equal to `Pipeline.Respond`.
  `Invoke` is a resource method: it makes no request on a usage error, and
  otherwise sends the planned call.

In these places the model follows the code:

- `payees` tests its cursor for truthiness, not against None, so a cursor of
  0 is not sent.
- Besides transport, parse, API and usage failures, the envelope lookups can
  raise KeyError and TypeError. One example is a status of at least 400 with
  no `error` key. The model keeps these as separate kinds.
- A direct decode that fails for a reason other than the content type is not
  retried on the raw text. It propagates unlogged as a parse failure.

## Model

| member | source | states |
|---|---|---|
| `JsonValues.Contains` | aioynab/client.py:85 | `'error' in data` is key membership on a dict, element equality on a list and substring search on a string (true exactly when the key starts at some position of it); any other decoded value raises TypeError |
| `JsonValues.OccursAt` | aioynab/client.py:85 | the recursive substring test finds the key exactly when it starts at some position of the string |
| `JsonValues.Truthy` | aioynab/client.py:260 | exactly None, False, 0, "", [] and {} are falsy, as the `if` tests of `payees` and the bulk checks read them |
| `JsonValues.Decimal` | aioynab/client.py:26 | `str(status)` is non-empty text without spaces; `JsonValues.DecimalRoundTrip` reads it back |
| `JsonValues.Subscript` | aioynab/client.py:89 | `value[key]` succeeds exactly when the value is a dict holding the key, and yields that entry; a dict without it raises KeyError and any other value TypeError |
| `JsonValues.Wrap` | aioynab/client.py:242 | a request body `{key: payload}` has the single key `key`, and reading it gives back the payload |
| `JsonValues.Str` | aioynab/client.py:26 | `str(detail)` is the string itself for a string and decimal text that reads back to the number for an int |
| `JsonValues.DecimalRoundTrip` | aioynab/client.py:26 | the decimal text `'{}'.format(status)` writes for an int reads back to that int |
| `ApiErrors.LookupFailure` | aioynab/client.py:89-95 | a missing dict key surfaces as KeyError and a lookup on a non-dict as TypeError, naming the key |
| `ApiErrors.NewYnabApiError` | aioynab/client.py:23-26 | the error keeps `status` and `error_data` exactly as given and its text is "<status> - <error_data['detail']>"; without a `detail` entry the constructor raises instead |
| `ApiErrors.MessageNamesStatus` | aioynab/client.py:26 | the display text starts with the status, which reads back from it, followed by " - " and the detail text |
| `ApiErrors.NotFoundMessage` | test/test_client.py:39-53 | a 404 error object with detail "Invalid URI" gives the text "404 - Invalid URI" and keeps the object |
| `Pipeline.Url` | aioynab/client.py:66 | the request target is the base URL followed by exactly the endpoint |
| `Pipeline.DecodeBody` | aioynab/client.py:74-84 | a direct decode is used as it is; on a content-type refusal the body is `json.loads` of the raw text, and when that fails too it is a parse failure; other decode errors are parse failures |
| `Pipeline.Classify` | aioynab/client.py:85-95 | success iff status < 400 and the body is a dict without `error` and with `data`, returning exactly `data`; an API error iff the body's `error` entry is a dict with `detail`, carrying the status and that entry; status >= 400 without an `error` key raises KeyError('error'); status < 400 with neither `error` nor `data` raises KeyError('data'); any non-dict body raises TypeError |
| `Pipeline.Respond` | aioynab/client.py:66-95 | a transport failure is passed on unchanged; a parse failure comes only from an undecodable body; a decoded body is classified |
| `Pipeline.PayloadIsTheDataEntry` | aioynab/client.py:95 | a successful call returns the `data` entry of a decoded envelope without `error` under a status below 400, never the envelope |
| `Pipeline.FallbackAgreesWithDirectDecode` | aioynab/client.py:74-84 | a body refused for its content type but readable as JSON text gives the same outcome as one decoded directly |
| `Pipeline.UnreadableBodyFails` | aioynab/client.py:74-84 | when the raw text cannot be parsed either, the call ends in a parse failure and never returns a payload |
| `Pipeline.SuccessEnvelopeUnwraps` | aioynab/client.py:95 | `{"data": p}` under a status below 400 yields `p` |
| `Pipeline.ErrorEnvelopeRaises` | aioynab/client.py:85-93 | `{"error": e}` with a `detail` in `e` is an API error with the response status and `e`, whatever the status |
| `Pipeline.RateLimitThroughFallback` | aioynab/client.py:76-93 | a 429 whose body is only readable through the fallback is reported as an API error with status 429 and detail "rate limit" |
| `Resources.Segments` | aioynab/client.py:97-587 | each resource method's path template with the caller's identifiers substituted; every path but `/user` and `/budgets` starts with `budgets` and the budget id |
| `Resources.Path` | aioynab/client.py:97-587 | the endpoint starts with '/' followed by the template's first segment (`user` or `budgets`) |
| `Resources.PathRoundTrip` | aioynab/client.py:97-587 | splitting a method's path at '/' recovers its template segments and identifiers, as long as no identifier holds a '/' |
| `Resources.TransactionsPath` | aioynab/client.py:375-376 | the transaction endpoint of a budget is "/budgets/<id>/transactions" |
| `Resources.CategoryMonthPath` | aioynab/client.py:222-245 | reading and updating a month's category both use "/budgets/<id>/months/<month>/categories/<category id>" |
| `Resources.KnowledgeParams` | aioynab/client.py:128-130 | `last_knowledge_of_server` is a key iff it is not None, with the given value, and no other key appears |
| `Resources.PayeesParams` | aioynab/client.py:259-261 | in `payees` the cursor is a key iff it is given and non-zero, with the given value, and no other key appears |
| `Resources.PayeesDropZeroCursor` | aioynab/client.py:259-261 | a cursor of 0 gives `payees` an empty parameter dict, while `budget` sends it |
| `Resources.FilterParams` | aioynab/client.py:368-374 | each of `last_knowledge_of_server`, `since_date` and `type` is a key iff it is not None, with the given value; no other key appears |
| `Resources.FilterParamsRoundTrip` | aioynab/client.py:368-374 | the filters can be read back from the parameter dict, so no supplied filter is lost or altered |
| `Resources.NoFiltersNoQuery` | aioynab/client.py:157-161 | a listing called without any optional argument sends an empty parameter dict |
| `Resources.Params` | aioynab/client.py:115-559 | exactly the nine methods with optional filters pass a parameter dict; its keys are among the three filter names; the cursor is sent iff not None, with its value, except in `payees` where it is sent iff non-zero; a listing sends exactly its supplied filters, each with its value, and they read back from the dict |
| `Resources.BulkBodyAsWritten` | aioynab/client.py:393-404 | the call succeeds exactly when one argument is truthy; both arguments falsy raises "Must specify one of transaction or transactions."; both truthy raises "Only one of transaction or transactions can be specified, not both."; otherwise the body wraps `transaction` when it is not None, else `transactions` |
| `Resources.BulkBody` | aioynab/client.py:393-404 | the same two usage errors, exactly when both or neither argument is truthy; otherwise the body wraps the argument that is truthy, under its own key |
| `Resources.BulkBodyDropsTransactions` | aioynab/client.py:393-404 | `transaction={}` with a non-empty `transactions` passes both checks, and the code as written sends `{"transaction": {}}` |
| `Resources.BulkBodyAgreement` | aioynab/client.py:421-432 | the as-written and the corrected bodies agree exactly unless `transaction` is falsy but not None while `transactions` is truthy |
| `Resources.VerbOf` | aioynab/client.py:104-587 | every method uses GET except the four updates: POST exactly for `create_transactions`, PUT exactly for `update_transaction`, PATCH for `update_category_month` and `update_transactions` |
| `Resources.Body` | aioynab/client.py:242-463 | a body is built iff the verb is not GET and is a one-key dict; the bulk methods raise the usage error matching their arguments' truthiness and otherwise wrap `transaction` unless it is None, else `transactions`, as the code does |
| `Resources.Plan` | aioynab/client.py:97-587 | a resource method fails, with a usage error, exactly when it is a bulk transaction method whose two arguments are both truthy or both falsy; otherwise it passes its path, verb and parameters, a body iff the verb is not GET, and for the bulk methods the body the code builds |
| `Resources.UpdateCategoryMonthWraps` | aioynab/client.py:242-245 | `update_category_month` sends `{"category": data}` with PATCH to the month's category path |
| `Resources.UpdateTransactionWraps` | aioynab/client.py:460-463 | `update_transaction` sends `{"transaction": data}` with PUT to the transaction's path |
| `Resources.BulkCallsShareTheListingEndpoint` | aioynab/client.py:378-432 | bulk creation uses POST and bulk update PATCH, both on the transaction listing's path, with no parameters and the body the code builds |
| `YnabClient.Client.constructor` | aioynab/client.py:39-49 | the client keeps the token and builds the header `Authorization: Bearer <token>` once |
| `YnabClient.Client.Request` | aioynab/client.py:55-95 | the request goes to the base URL plus the endpoint, with the given verb, parameters and body and the bearer header; its outcome is `Pipeline.Respond` of the exchange |
| `YnabClient.Client.Invoke` | aioynab/client.py:97-587 | a usage error sends no request; otherwise exactly one request goes to the method's path with its verb, parameters, body and the bearer header, and its outcome is that of `_request` |

## Findings

| source | as written | input that shows it | evidently intended | confidence | as-written member | corrected member |
|---|---|---|---|---|---|---|
| aioynab/client.py:393-404 (and 421-432) | the checks test truthiness, but the body wraps `transaction` whenever it is not None | `create_transactions(b, transaction={}, transactions=[t])` passes both checks and sends `{"transaction": {}}`, dropping the list | wrap the one argument the checks accepted as given: `{"transactions": [t]}` | medium; not executed | `Resources.BulkBodyAsWritten`, `Resources.BulkBodyDropsTransactions` | `Resources.BulkBody` |

`Resources.Body`, `Resources.Plan` and `YnabClient.Client.Invoke` model the
code as written, so they send `{"transaction": {}}` on that input. `BulkBody`
is the corrected body, and `Resources.BulkBodyAgreement` shows that the two
agree on every other input.

## Left out

- The aiohttp session, the HTTP exchange and `close()`. The session is foreign code; each call takes the exchange it produced as an input (`transport`).
- `uvloop.install()`, the event loop and `async`/`await` scheduling. `_request` keeps no per-call state, so sequential calls capture it.
- The `logging` calls. They have no effect on results.
- Real JSON text parsing. `response.json()` is an input outcome and `json.loads` a function parameter. A failure of `response.text()` itself is not modelled.
- Turning the parameter dict into a query string (done by aiohttp). The model stops at the dict handed to the transport.
- JSON numbers are modelled as integers. Floats are not.
- `JsonValues.Str`: Python renders a list or dict `detail` with `repr` (quotes, escapes, dict order). The model renders such a detail as the empty text. Its contract covers only string and integer details.
- Identifiers are substituted into paths unchecked, as in the code. `Resources.PathRoundTrip` therefore assumes no identifier contains '/'.
- The fallback is triggered by the decode's ContentTypeError, as in the code; no header inspection is modelled.
- `setup.py`, which only packages the library.
