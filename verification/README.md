# clientapi in Dafny

This project models the core of `clientapi`, a small base library for REST API clients built on
`requests` and `pydantic`. The model covers four parts:

- **Error taxonomy** (`Exceptions.dfy`). `APIClientError` overrides its class-level `code`, `detail`
  and `source` defaults with constructor arguments, but only when an argument is truthy. It builds
  the message `"(code) detail."`, with `"Source: …"` appended only when there is a truthy source, and
  it exposes `content`. `APIValidationError.wrap` gives the fixed code and detail with the failure's
  `errors()` as the source; only an AttributeError from `errors()` is caught. `APIHTTPError.wrap` prefers the remote `{code, detail, source}` document.
  Otherwise it falls back to code `"unknown"`, the HTTPError's text and a four-key diagnostic record.
  The status code always comes from the response.
- **Request executor** (`Client.dfy`). `_create_headers` keeps the caller's dictionary and updates
  it in place when the dictionary is non-empty; a missing or empty one is replaced by a fresh
  dictionary. The request URL is `base + resource`. `execute_request` returns the response, or
  raises `APIHTTPError.wrap(err)` for an HTTPError.
- **Test doubles** (`Mocks.dfy`). This part covers whitespace stripping for XML bodies, the
  serialisation of a response body with its Content-Type, decoding a request body by its
  Content-Type, and the checks the `responses` callback makes before answering. It also covers the
  `http_NNN_callback` table.
- **Bearer authentication** (`Auth.dfy`). A falsy token raises `BearerTokenNotValid`, and signing
  writes exactly one header into the request's header dictionary.

`Values.dfy` holds the Python values the library handles, with Python's truthiness rule:

- `Value` covers None, bool, int, str, list and dict.
- `Dict` is a class, because callers share dictionaries by reference and the library mutates them.
- `Outcome` records whether a call returned or raised.

Each exception class is a record of its class defaults (`ErrorClass`). An exception instance is a
`ClientError` record. The constructors are imperative methods (`Init`, `InitHTTP`). Each is proved
equal to the function (`NewError`, `NewHTTPError`) that the pure `wrap` conversions use.

Behaviour of other libraries is supplied as parameters and is not modelled:

- `Runtime` carries `str()` of numbers, lists and dicts, `json.dumps`, `json.loads`, and pydantic's
  `parse_raw` of the error document.
- `Session` carries `session.request` and `raise_for_status`.
- The text of `str(HTTPError)` is a field of `HTTPFailure`.

Behaviour of the code worth noting:

- An `APIClientError()` built without arguments keeps `code` and `detail` as `None`. The constructor
  does not guarantee non-empty values.
- `APIHTTPError.wrap` can itself raise AttributeError when the HTTPError has no response, or the
  response has no `status_code`. `WrapHTTP` returns an `Outcome` for this reason.
- A remote error document with an empty `code` or `detail` does not have that field copied; the
  field keeps the class default `None`.
- `execute_request` in this code does no logging.
- `BearerTokenNotValid("No token set to query the API")` passes its message positionally, so it
  becomes the error's `code`. Its `detail` stays the class default.

## Model

| member | source | states |
|---|---|---|
| `Values.Text` | clientapi/exceptions.py:25-28 | formatting a str gives the string itself, and None gives "None" |
| `Values.Lookup` | clientapi/mocks.py:64 | `d.get(k)` is the entry when the key is present, otherwise None |
| `Values.OrEmpty` | clientapi/client.py:14 | `d or {}` is the same dictionary when it is non-empty, otherwise a fresh empty one |
| `Values.Dict.Set` | clientapi/mocks.py:16 | `d[k] = v` changes exactly that entry of the dictionary |
| `Exceptions.HeadlineShape` | clientapi/exceptions.py:25 | the message starts with the code's text in parentheses, then a space, the detail's text and a full stop, with nothing else |
| `Exceptions.Pick` | clientapi/exceptions.py:16-23 | an attribute takes the argument when it is truthy, otherwise the class default |
| `Exceptions.NewError` | clientapi/exceptions.py:15-31 | code, detail and source each equal the argument when it is truthy, otherwise the class default; the message is "(code) detail." followed by "Source: " and the source text only for a truthy source |
| `Exceptions.Init` | clientapi/exceptions.py:15-31 | the step-by-step constructor yields exactly the instance `NewError` describes |
| `Exceptions.NewHTTPError` | clientapi/exceptions.py:59-63 | status_code is the argument when it is truthy, otherwise None; every other attribute is as the base constructor sets it |
| `Exceptions.InitHTTP` | clientapi/exceptions.py:59-63 | the step-by-step HTTP-error constructor yields exactly `NewHTTPError` |
| `Exceptions.Content` | clientapi/exceptions.py:33-39 | content has exactly the keys code, detail and source, holding the instance's attributes |
| `Exceptions.ContentOfTruthyArguments` | tests/exceptions_test.py:14-33 | an error built from truthy arguments has exactly those arguments as its content |
| `Exceptions.FalsyArgumentsKeepDefaults` | clientapi/exceptions.py:15-25 | None, "", [] and {} leave every class default in place, and the message is built from the defaults |
| `Exceptions.WrapValidation` | clientapi/exceptions.py:42-53 | the code is "api_validation_error" and the detail is fixed; the source is `errors()` when that is truthy, and None when it is empty or raises AttributeError; any other exception from `errors()` escapes `wrap` unchanged; the message is "(code) detail." followed by "Source: " and the source text only for a truthy source |
| `Exceptions.AttrOrNone` | clientapi/exceptions.py:77-80 | `getattr(obj, name, None)` gives the attribute when present, otherwise None |
| `Exceptions.RequestMethod` | clientapi/exceptions.py:77 | the request's method, or None when there is no request or it has no method |
| `Exceptions.FallbackSource` | clientapi/exceptions.py:76-81 | the diagnostic record has exactly the keys method, url, status_code and text; a missing attribute or request gives None; the record is truthy |
| `Exceptions.WrapHTTP` | clientapi/exceptions.py:65-85 | wrapping raises AttributeError exactly when there is no response or the response has no status_code; otherwise the result is either a copy of the parsed error document or the fallback ("unknown", the HTTPError's text, the diagnostic record); in both cases the status code comes from the response, and the message is "(code) detail." followed by "Source: " and the source text only for a truthy source |
| `Exceptions.RemoteDocumentScenario` | tests/exceptions_test.py:39-82 | a parsed error document on a 400 response comes through with status 400 |
| `Exceptions.EmptyBodyScenario` | tests/exceptions_test.py:85-118 | an empty 409 body gives code "unknown", the HTTPError's text and the four-key record |
| `Exceptions.BrokenErrorsScenario` | tests/exceptions_test.py:141-151 | a failure whose `errors()` raises gives the fixed code and detail and a None source |
| `Client.ContentType.MediaType` | clientapi/client.py:8-10 | JSON is exactly "application/json" and XML is exactly "text/xml" |
| `Client.HeadersFor` | clientapi/client.py:13-19 | Content-Type is set to the content type exactly when both data and content type are truthy, overwriting a caller's value; every other entry is unchanged; no other key is added |
| `Client.CreateHeaders` | clientapi/client.py:13-19 | a non-empty caller dictionary is updated in place and returned; a missing or empty one is replaced by a fresh dictionary, and the caller's empty dictionary stays empty |
| `Client.RequestUrl` | clientapi/client.py:83 | the URL is the base followed by the resource, with nothing inserted or removed |
| `Client.FailureOf` | clientapi/client.py:84-95 | the HTTPError caught is the one `session.request` raised, or else the one `raise_for_status` raised on its response; no error means the session returned a response |
| `Client.Reraise` | clientapi/client.py:95-96 | the wrapped error is raised; if wrapping raised, that exception escapes instead |
| `Client.Settle` | clientapi/client.py:84-96 | a response is returned, unchanged, exactly when neither the session nor `raise_for_status` raised; an HTTPError only ever yields a raised APIHTTPError.wrap result |
| `Client.ClientAPI.constructor` | clientapi/client.py:46-54 | the client keeps the session and the base URL |
| `Client.ClientAPI.ExecuteRequest` | clientapi/client.py:56-96 | defaults are GET and application/json; the session receives base + resource and the composed headers; the outcome is `Settle`; the caller's dictionary is updated as `_create_headers` does |
| `Client.FailureNeverReturns` | clientapi/client.py:93-96 | when `raise_for_status` raises, execute_request raises an APIHTTPError carrying the response's status code |
| `Client.NotFoundScenario` | tests/client_test.py:38-71 | GET /hello answered with 404 and a non-document body raises code "unknown", status 404, and the body's text and the full URL in the source |
| `Mocks.IsSpace` | clientapi/mocks.py:8 | `\s` matches space, tab, newline, carriage return, vertical tab and form feed, and no printable ASCII character |
| `Mocks.StripXml` | clientapi/mocks.py:7-8 | the result contains no whitespace and is never longer than the input |
| `Mocks.StripXmlKeepsText` | clientapi/mocks.py:7-8 | every non-whitespace character is kept as often as it occurs |
| `Mocks.StripXmlKeepsClean` | clientapi/mocks.py:7-8 | a string without whitespace is unchanged |
| `Mocks.StripXmlIdempotent` | clientapi/mocks.py:7-8 | stripping twice equals stripping once |
| `Mocks.StripXmlAppend` | clientapi/mocks.py:7-8 | stripping distributes over concatenation, so the kept characters stay in their original order |
| `Mocks.Transformed` | clientapi/mocks.py:11-23 | a bool or int body raises ValueError; a None body gives "" with the headers untouched; a str body is returned unchanged and a dict or list body becomes `json.dumps(body)`; any other body sets Content-Type (text/xml for str, application/json for dict and list) and leaves the other headers unchanged |
| `Mocks.Transform` | clientapi/mocks.py:11-23 | the in-place version gives the body and headers of `Transformed`; the caller's non-empty dictionary is the one returned, a missing or empty one is replaced by a fresh one; on ValueError nothing changes |
| `Mocks.GetRequestBody` | clientapi/mocks.py:26-34 | an application/json body is JSON-decoded and a text/xml body has its whitespace stripped; non-string bodies raise for these two types; any other content type returns the raw body |
| `Mocks.PreparedBodyReadsBack` | clientapi/mocks.py:11-34 | a request carrying a prepared body and headers decodes back to the original body (JSON when loads undoes dumps), or to the stripped string |
| `Mocks.HttpCallback` | clientapi/mocks.py:38-78 | a bool or int body raises ValueError; otherwise the callback keeps the status, the body and headers `_transform` prepares, and the expected body; a non-empty caller `headers` is the reply's dictionary, updated in place, a missing or empty one is replaced by a fresh one, and on ValueError or when empty the caller's dictionary is unchanged; the expected headers and parameters are the caller's non-empty dictionaries or fresh empty ones |
| `Mocks.CheckEntries` | clientapi/mocks.py:63-74 | the assertion loop passes exactly when every expected entry equals `actual.get(name)` |
| `Mocks.Respond` | clientapi/mocks.py:61-76 | an answer is always the prepared reply; a header mismatch fails with an assertion; an exception other than an assertion can only come from decoding an expected body; the "not expected to be None" assertion fires exactly when the headers match, a body is expected and it decodes to None |
| `Mocks.RequestCallback` | clientapi/mocks.py:61-76 | the callback checks headers, then the expected body, then parameters, and answers with the prepared triple |
| `Mocks.CallbackFailsExactlyWhen` | clientapi/mocks.py:61-76 | the callback fails exactly when a header or parameter differs, or a truthy expected body cannot be decoded or differs; otherwise it returns the prepared reply |
| `Mocks.CallbackStatus` | clientapi/mocks.py:81-138 | a callback exists exactly for the 58 codes of the table, and each `http_NNN_callback` fixes the HTTPStatus member whose value is NNN |
| `Mocks.InformationalCallback` | clientapi/mocks.py:81-83 | there is a row exactly for 100, 101 and 102, each naming the member with that value |
| `Mocks.SuccessCallback` | clientapi/mocks.py:84-93 | there is a row exactly for 200-208 and 226, each naming the member with that value |
| `Mocks.RedirectionCallback` | clientapi/mocks.py:94-101 | there is a row exactly for 300-305, 307 and 308, each naming the member with that value |
| `Mocks.ClientErrorCallback` | clientapi/mocks.py:102-127 | there is a row exactly for 400-417, 421-424, 426, 428, 429 and 431, each naming the member with that value |
| `Mocks.RequestErrorCallback` | clientapi/mocks.py:102-119 | there is a row exactly for 400-417, each naming the member with that value |
| `Mocks.ExtendedRequestErrorCallback` | clientapi/mocks.py:120-127 | there is a row exactly for 421-424, 426, 428, 429 and 431, each naming the member with that value |
| `Mocks.ServerErrorCallback` | clientapi/mocks.py:128-138 | there is a row exactly for 500-508, 510 and 511, each naming the member with that value |
| `Mocks.CodesByClass` | clientapi/mocks.py:81-138 | the codes of each class of rows lie in that class's hundred |
| `Mocks.CodeInRange` | clientapi/mocks.py:81-138 | every member the table names has a code from 100 to 599 |
| `Mocks.InformationalMembers` | clientapi/mocks.py:81-83 | the 1xx rows give every 1xx member back from its code |
| `Mocks.SuccessMembers` | clientapi/mocks.py:84-93 | the 2xx rows give every 2xx member back from its code |
| `Mocks.RedirectionMembers` | clientapi/mocks.py:94-101 | the 3xx rows give every 3xx member back from its code |
| `Mocks.RequestErrorMembers` | clientapi/mocks.py:102-119 | the 400-417 rows give every such member back from its code |
| `Mocks.ExtendedRequestErrorMembers` | clientapi/mocks.py:120-127 | the 421-431 rows give every such member back from its code |
| `Mocks.ServerErrorMembers` | clientapi/mocks.py:128-138 | the 5xx rows give every 5xx member back from its code |
| `Mocks.CallbackForEveryMember` | clientapi/mocks.py:81-138 | every member has an `http_NNN_callback`, and the table gives the member back from its code |
| `Mocks.HttpStatusCallback` | clientapi/mocks.py:81-138 | a partial is `http_callback` with status_code NNN: the same ValueError, reply body and headers from `_transform`, expected body, expected header and parameter dictionaries, and effect on the caller's `headers` |
| `Auth.TokenError` | clientapi/auth.py:6-17 | an error is raised exactly for a falsy token; it is a BearerTokenNotValid whose code is the message "No token set to query the API" and whose detail is the class default |
| `Auth.NewAuthBearer` | clientapi/auth.py:14-17 | construction fails exactly for a falsy token, with the `TokenError` error; otherwise it keeps the token |
| `Auth.AuthBearer.constructor` | clientapi/auth.py:14-15 | the object stores the token |
| `Auth.Signed` | clientapi/auth.py:20 | Authorization is "Bearer " + token; no other entry changes and no other key is added |
| `Auth.SignedIdempotent` | clientapi/auth.py:20 | signing twice leaves the same headers as signing once |
| `Auth.AuthBearer.Call` | clientapi/auth.py:19-21 | the request's header dictionary is updated in place as `Signed` says, and the same request is returned |
| `Parsers.Parse` | clientapi/parsers.py:9-23 | a valid body, and only a valid body, gives the validated instance; a validation failure raises the wrapped APIValidationError with code "api_validation_error", or the exception that escaped `wrap` |

## Left out

- `clientapi/responses.py` is not part of this model. `entity` and `collection` build pydantic
  models at run time, which is library behaviour. The error document appears only as the
  result of the `parseErrorDocument` parameter.
- `clientapi/sessions.py`, `clientapi/logger.py`, `clientapi/__init__.py`, `bin/` and `setup.py`
  are not part of this model. They cover session lifetime, logging set-up, re-exports and packaging.
- The following are supplied as parameters, not modelled: network I/O, the 4xx/5xx rule inside
  `raise_for_status`, `json.dumps`/`json.loads`, pydantic validation and the text of `str(HTTPError)`.
- `Values.Text`: `str()` of ints, lists and dicts comes from a parameter. Python's spelling of
  these values, including dict ordering and quoting, is not modelled.
- `Client.ClientAPI.ExecuteRequest`: the session either returns a response or raises an HTTPError.
  Connection errors and timeouts that escape `requests` unchanged are not modelled.
- `raise … from err` exception chaining and the `args` tuple of an exception beyond its message
  are not modelled.
- Python equality is modelled as structural equality of `Value`s. `1 == True` and `1 == 1.0` are
  not reproduced, and there are no floats.
- bytes and str are not told apart. A tuple is modelled as a list.
- Header dictionaries are plain maps, not `requests`' case-insensitive dictionaries.
- The `ValueError` raised by `_transform` carries no message. The message names the body's Python type.
- `Mocks.HTTPStatus` lists only the 58 members that the callback table names.
