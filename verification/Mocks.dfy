/**
 * Test doubles for the `responses` mocking library: the response a callback returns is
 * prepared once (body serialised, Content-Type set), and every request it receives is
 * checked against the expected headers, body and query parameters first.
 */
module Mocks {
  import opened Values

  const JSONMediaType := "application/json"
  const XMLMediaType := "text/xml"

  /** The characters Python's `\s` matches in a str pattern (those for which
      `str.isspace()` holds). */
  predicate IsSpace(c: char)
    ensures c in {' ', '\t', '\n', '\r', '\U{0B}', '\U{0C}'} ==> IsSpace(c)
    ensures '!' <= c <= '~' ==> !IsSpace(c)
  {
    c in {'\t', '\n', '\U{0B}', '\U{0C}', '\r', '\U{1C}', '\U{1D}', '\U{1E}', '\U{1F}', ' ',
          '\U{85}', '\U{A0}', '\U{1680}', '\U{2000}', '\U{2001}', '\U{2002}', '\U{2003}',
          '\U{2004}', '\U{2005}', '\U{2006}', '\U{2007}', '\U{2008}', '\U{2009}', '\U{200A}',
          '\U{2028}', '\U{2029}', '\U{202F}', '\U{205F}', '\U{3000}'}
  }

  /** `_strip_xml`: `re.sub(r"\s+", "", xml)`. */
  function StripXml(xml: string): (r: string)
    ensures forall i :: 0 <= i < |r| ==> !IsSpace(r[i])
    ensures |r| <= |xml|
  {
    if xml == [] then [] else (if IsSpace(xml[0]) then [] else [xml[0]]) + StripXml(xml[1..])
  }

  /** Every character that is not whitespace is kept, as often as it occurs. */
  lemma {:induction false} StripXmlKeepsText(xml: string)
    ensures forall c :: !IsSpace(c) ==> multiset(StripXml(xml))[c] == multiset(xml)[c]
  {
    if xml != [] {
      assert xml == [xml[0]] + xml[1..];
      StripXmlKeepsText(xml[1..]);
    }
  }

  /** A string without whitespace is left as it is. */
  lemma {:induction false} StripXmlKeepsClean(xml: string)
    requires forall i :: 0 <= i < |xml| ==> !IsSpace(xml[i])
    ensures StripXml(xml) == xml
  {
    if xml != [] {
      StripXmlKeepsClean(xml[1..]);
    }
  }

  /** Stripping twice is stripping once. */
  lemma {:induction false} StripXmlIdempotent(xml: string)
    ensures StripXml(StripXml(xml)) == StripXml(xml)
  {
    StripXmlKeepsClean(StripXml(xml));
  }

  /** Stripping works piece by piece, so the kept characters stay in their order. */
  lemma {:induction false} StripXmlAppend(a: string, b: string)
    ensures StripXml(a + b) == StripXml(a) + StripXml(b)
  {
    if a == [] {
      assert a + b == b;
    } else {
      assert (a + b)[0] == a[0];
      assert (a + b)[1..] == a[1..] + b;
      StripXmlAppend(a[1..], b);
    }
  }

  // ---------------------------------------------------------------- _transform

  /** What `_transform` makes of a response body and the headers it starts from. */
  function Transformed(body: Value, given: map<string, Value>, rt: Runtime): (r: Outcome<(string, map<string, Value>), BuiltinError>)
    ensures r.Raised? <==> body.Bool? || body.Int?
    ensures r.Raised? ==> r.error == ValueError
    ensures body == Null ==> r == Returned(("", given))
    ensures r.Returned? ==> forall k :: k in given && k != "Content-Type" ==> k in r.value.1 && r.value.1[k] == given[k]
    ensures r.Returned? ==> r.value.1.Keys == given.Keys + (if body == Null then {} else {"Content-Type"})
    ensures r.Returned? && body != Null ==>
      r.value.1["Content-Type"] == Str(if body.Str? then XMLMediaType else JSONMediaType)
    ensures r.Returned? && body.Str? ==> r.value.0 == body.s
    ensures r.Returned? && (body.List? || body.Object?) ==> r.value.0 == rt.dumps(body)
  {
    match body
    case Null => Returned(("", given))
    case List(_) => Returned((rt.dumps(body), given["Content-Type" := Str(JSONMediaType)]))
    case Object(_) => Returned((rt.dumps(body), given["Content-Type" := Str(JSONMediaType)]))
    case Str(s) => Returned((s, given["Content-Type" := Str(XMLMediaType)]))
    case _ => Raised(ValueError)
  }

  /** The body and header dictionary `_transform` returns. */
  datatype Prepared = Prepared(body: string, headers: Dict)

  /** `_transform`: serialise the body and write Content-Type into the header dictionary,
      which is the caller's own when it is non-empty and a fresh one otherwise. */
  method Transform(body: Value, headers: Dict?, rt: Runtime) returns (r: Outcome<Prepared, BuiltinError>)
    modifies headers
    ensures var spec := Transformed(body, if headers == null then map[] else old(headers.items), rt);
      && (r.Raised? <==> spec.Raised?)
      && (r.Raised? ==> r.error == spec.error)
      && (r.Returned? ==> r.value.body == spec.value.0 && r.value.headers.items == spec.value.1)
    ensures r.Returned? && headers != null && old(headers.items) != map[] ==> r.value.headers == headers
    ensures r.Returned? && (headers == null || old(headers.items) == map[]) ==> fresh(r.value.headers)
    ensures headers != null && (r.Raised? || old(headers.items) == map[]) ==> headers.items == old(headers.items)
  {
    var h := OrEmpty(headers);
    match body
    case Null =>
      r := Returned(Prepared("", h));
    case List(_) =>
      h.Set("Content-Type", Str(JSONMediaType));
      r := Returned(Prepared(rt.dumps(body), h));
    case Object(_) =>
      h.Set("Content-Type", Str(JSONMediaType));
      r := Returned(Prepared(rt.dumps(body), h));
    case Str(s) =>
      h.Set("Content-Type", Str(XMLMediaType));
      r := Returned(Prepared(s, h));
    case _ =>
      r := Raised(ValueError);
  }

  // ---------------------------------------------------------------- _get_request_body

  /** The parts of an intercepted request the callback looks at. */
  datatype MockRequest = MockRequest(headers: map<string, Value>, body: Value, params: map<string, Value>)

  /** `_get_request_body`: decode by the request's Content-Type. json.loads and re.sub
      raise TypeError on a body that is not a string. */
  function GetRequestBody(request: MockRequest, rt: Runtime): (r: Outcome<Value, BuiltinError>)
    ensures Lookup(request.headers, "Content-Type") == Str(JSONMediaType) ==>
      && (r.Returned? <==> request.body.Str? && rt.loads(request.body.s).Some?)
      && (r.Returned? ==> r.value == rt.loads(request.body.s).value)
    ensures Lookup(request.headers, "Content-Type") == Str(XMLMediaType) ==>
      && (r.Returned? <==> request.body.Str?)
      && (r.Returned? ==> r.value == Str(StripXml(request.body.s)))
    ensures Lookup(request.headers, "Content-Type") !in {Str(JSONMediaType), Str(XMLMediaType)} ==>
      r == Returned(request.body)
  {
    var contentType := Lookup(request.headers, "Content-Type");
    if contentType == Str(JSONMediaType) then
      match request.body
      case Str(s) =>
        (match rt.loads(s)
         case Some(v) => Returned(v)
         case None => Raised(JSONDecodeError))
      case _ => Raised(TypeError)
    else if contentType == Str(XMLMediaType) then
      match request.body
      case Str(s) => Returned(Str(StripXml(s)))
      case _ => Raised(TypeError)
    else
      Returned(request.body)
  }

  /** A request that carries a prepared body with its prepared headers reads back as the
      original body: a JSON body whenever json.loads undoes json.dumps, a string body
      with its whitespace removed. */
  lemma PreparedBodyReadsBack(body: Value, given: map<string, Value>, params: map<string, Value>, rt: Runtime)
    requires body.List? || body.Object? || body.Str?
    requires body.List? || body.Object? ==> rt.loads(rt.dumps(body)) == Some(body)
    ensures Transformed(body, given, rt).Returned?
    ensures var prepared := Transformed(body, given, rt).value;
      GetRequestBody(MockRequest(prepared.1, Str(prepared.0), params), rt)
        == Returned(if body.Str? then Str(StripXml(body.s)) else body)
  {
  }

  // ---------------------------------------------------------------- http_callback

  /** The triple a callback answers with. */
  datatype Reply = Reply(status: Value, headers: Dict, body: string)

  /** The closure `http_callback` returns: the prepared reply and the expectations. */
  datatype Callback = Callback(reply: Reply, expectedBody: Value, expectedHeaders: Dict, expectedParams: Dict)

  /** `http_callback`: prepare the reply, then capture the expected request headers and
      parameters (a fresh empty dictionary for a missing or empty one). The expected
      headers are looked at after `_transform`, so a dictionary passed as both `headers`
      and `requestHeaders` is seen with its new Content-Type. */
  method HttpCallback(
    status: Value,
    headers: Dict? := null,
    body: Value := Null,
    requestBody: Value := Null,
    requestHeaders: Dict? := null,
    requestParams: Dict? := null,
    rt: Runtime)
    returns (r: Outcome<Callback, BuiltinError>)
    modifies headers
    ensures r.Raised? <==> body.Bool? || body.Int?
    ensures r.Raised? ==> r.error == ValueError
    ensures r.Returned? ==>
      && r.value.reply.status == status
      && r.value.expectedBody == requestBody
      && Transformed(body, if headers == null then map[] else old(headers.items), rt)
         == Returned((r.value.reply.body, r.value.reply.headers.items))
    ensures r.Returned? && requestHeaders != null && requestHeaders.items != map[] ==>
      r.value.expectedHeaders == requestHeaders
    ensures r.Returned? && (requestHeaders == null || requestHeaders.items == map[]) ==>
      fresh(r.value.expectedHeaders) && r.value.expectedHeaders.items == map[]
    ensures r.Returned? && requestParams != null && requestParams.items != map[] ==>
      r.value.expectedParams == requestParams
    ensures r.Returned? && (requestParams == null || requestParams.items == map[]) ==>
      fresh(r.value.expectedParams) && r.value.expectedParams.items == map[]
    ensures r.Returned? && headers != null && old(headers.items) != map[] ==> r.value.reply.headers == headers
    ensures r.Returned? && (headers == null || old(headers.items) == map[]) ==> fresh(r.value.reply.headers)
    ensures headers != null && (r.Raised? || old(headers.items) == map[]) ==> headers.items == old(headers.items)
  {
    var prepared := Transform(body, headers, rt);
    if prepared.Raised? {
      return Raised(prepared.error);
    }
    var expectedHeaders := OrEmpty(requestHeaders);
    var expectedParams := OrEmpty(requestParams);
    var reply := Reply(status, prepared.value.headers, prepared.value.body);
    r := Returned(Callback(reply, requestBody, expectedHeaders, expectedParams));
  }

  // ---------------------------------------------------------------- request_callback

  /** Every expected entry is what `actual.get(name)` gives. */
  predicate Matches(expected: map<string, Value>, actual: map<string, Value>) {
    forall name :: name in expected ==> Lookup(actual, name) == expected[name]
  }

  /** One of the `for name, value in expected.items(): assert actual.get(name) == value`
      loops: true when no assertion fails. */
  method CheckEntries(expected: map<string, Value>, actual: map<string, Value>) returns (ok: bool)
    ensures ok <==> Matches(expected, actual)
  {
    var pending := expected.Keys;
    while pending != {}
      invariant pending <= expected.Keys
      invariant forall name :: name in expected.Keys - pending ==> Lookup(actual, name) == expected[name]
      decreases pending
    {
      var name :| name in pending;
      if Lookup(actual, name) != expected[name] {
        return false;
      }
      pending := pending - {name};
    }
    return true;
  }

  const BodyIsNoneMessage := "Request body was not expected to be None"

  /** What the callback does with a request: check headers, then the body when one is
      expected, then the query parameters, and answer with the prepared reply. */
  function Respond(
    expectedHeaders: map<string, Value>,
    expectedBody: Value,
    expectedParams: map<string, Value>,
    reply: Reply,
    request: MockRequest,
    rt: Runtime): (r: Outcome<Reply, BuiltinError>)
    ensures r.Returned? ==> r.value == reply
    ensures !Matches(expectedHeaders, request.headers) ==> r == Raised(AssertionError(""))
    ensures r.Raised? && !r.error.AssertionError? ==>
      Truthy(expectedBody) && GetRequestBody(request, rt) == Raised(r.error)
    ensures r == Raised(AssertionError(BodyIsNoneMessage)) <==>
      Matches(expectedHeaders, request.headers) && Truthy(expectedBody) && GetRequestBody(request, rt) == Returned(Null)
  {
    if !Matches(expectedHeaders, request.headers) then Raised(AssertionError(""))
    else if Truthy(expectedBody) && GetRequestBody(request, rt).Raised? then
      Raised(GetRequestBody(request, rt).error)
    else if Truthy(expectedBody) && GetRequestBody(request, rt).value == Null then
      Raised(AssertionError(BodyIsNoneMessage))
    else if Truthy(expectedBody) && GetRequestBody(request, rt).value != expectedBody then
      Raised(AssertionError(""))
    else if !Matches(expectedParams, request.params) then Raised(AssertionError(""))
    else Returned(reply)
  }

  /** `request_callback`: the closure's body, run against the expectations it captured. */
  method RequestCallback(callback: Callback, request: MockRequest, rt: Runtime) returns (r: Outcome<Reply, BuiltinError>)
    ensures r == Respond(callback.expectedHeaders.items, callback.expectedBody,
                         callback.expectedParams.items, callback.reply, request, rt)
  {
    var headersOk := CheckEntries(callback.expectedHeaders.items, request.headers);
    if !headersOk {
      return Raised(AssertionError(""));
    }
    if Truthy(callback.expectedBody) {
      var actual := GetRequestBody(request, rt);
      if actual.Raised? {
        return Raised(actual.error);
      }
      if actual.value == Null {
        return Raised(AssertionError(BodyIsNoneMessage));
      }
      if actual.value != callback.expectedBody {
        return Raised(AssertionError(""));
      }
    }
    var paramsOk := CheckEntries(callback.expectedParams.items, request.params);
    if !paramsOk {
      return Raised(AssertionError(""));
    }
    r := Returned(callback.reply);
  }

  /** The callback fails exactly when a header differs, a parameter differs, or a body is
      expected and the decoded one cannot be had or differs; otherwise it answers with the
      prepared reply. The None check only changes the message. */
  lemma CallbackFailsExactlyWhen(
    expectedHeaders: map<string, Value>,
    expectedBody: Value,
    expectedParams: map<string, Value>,
    reply: Reply,
    request: MockRequest,
    rt: Runtime)
    ensures var r := Respond(expectedHeaders, expectedBody, expectedParams, reply, request, rt);
      && (r.Raised? <==>
            || !Matches(expectedHeaders, request.headers)
            || !Matches(expectedParams, request.params)
            || (Truthy(expectedBody) &&
                (GetRequestBody(request, rt).Raised? || GetRequestBody(request, rt).value != expectedBody)))
      && (r.Returned? ==> r.value == reply)
  {
  }

  // ---------------------------------------------------------------- http_NNN_callback

  /** The members of Python's `http.HTTPStatus` that the callback table names. */
  datatype HTTPStatus =
    | Continue
    | SwitchingProtocols
    | Processing
    | OK
    | Created
    | Accepted
    | NonAuthoritativeInformation
    | NoContent
    | ResetContent
    | PartialContent
    | MultiStatus
    | AlreadyReported
    | ImUsed
    | MultipleChoices
    | MovedPermanently
    | Found
    | SeeOther
    | NotModified
    | UseProxy
    | TemporaryRedirect
    | PermanentRedirect
    | BadRequest
    | Unauthorized
    | PaymentRequired
    | Forbidden
    | NotFound
    | MethodNotAllowed
    | NotAcceptable
    | ProxyAuthenticationRequired
    | RequestTimeout
    | Conflict
    | Gone
    | LengthRequired
    | PreconditionFailed
    | RequestEntityTooLarge
    | RequestUriTooLong
    | UnsupportedMediaType
    | RequestedRangeNotSatisfiable
    | ExpectationFailed
    | MisdirectedRequest
    | UnprocessableEntity
    | Locked
    | FailedDependency
    | UpgradeRequired
    | PreconditionRequired
    | TooManyRequests
    | RequestHeaderFieldsTooLarge
    | InternalServerError
    | NotImplemented
    | BadGateway
    | ServiceUnavailable
    | GatewayTimeout
    | HTTPVersionNotSupported
    | VariantAlsoNegotiates
    | InsufficientStorage
    | LoopDetected
    | NotExtended
    | NetworkAuthenticationRequired
  {
    /** The member's integer value. */
    function Code(): int {
      match this
      case Continue => 100
      case SwitchingProtocols => 101
      case Processing => 102
      case OK => 200
      case Created => 201
      case Accepted => 202
      case NonAuthoritativeInformation => 203
      case NoContent => 204
      case ResetContent => 205
      case PartialContent => 206
      case MultiStatus => 207
      case AlreadyReported => 208
      case ImUsed => 226
      case MultipleChoices => 300
      case MovedPermanently => 301
      case Found => 302
      case SeeOther => 303
      case NotModified => 304
      case UseProxy => 305
      case TemporaryRedirect => 307
      case PermanentRedirect => 308
      case BadRequest => 400
      case Unauthorized => 401
      case PaymentRequired => 402
      case Forbidden => 403
      case NotFound => 404
      case MethodNotAllowed => 405
      case NotAcceptable => 406
      case ProxyAuthenticationRequired => 407
      case RequestTimeout => 408
      case Conflict => 409
      case Gone => 410
      case LengthRequired => 411
      case PreconditionFailed => 412
      case RequestEntityTooLarge => 413
      case RequestUriTooLong => 414
      case UnsupportedMediaType => 415
      case RequestedRangeNotSatisfiable => 416
      case ExpectationFailed => 417
      case MisdirectedRequest => 421
      case UnprocessableEntity => 422
      case Locked => 423
      case FailedDependency => 424
      case UpgradeRequired => 426
      case PreconditionRequired => 428
      case TooManyRequests => 429
      case RequestHeaderFieldsTooLarge => 431
      case InternalServerError => 500
      case NotImplemented => 501
      case BadGateway => 502
      case ServiceUnavailable => 503
      case GatewayTimeout => 504
      case HTTPVersionNotSupported => 505
      case VariantAlsoNegotiates => 506
      case InsufficientStorage => 507
      case LoopDetected => 508
      case NotExtended => 510
      case NetworkAuthenticationRequired => 511
    }
  }

  /** The codes for which an `http_NNN_callback` exists, class by class. */
  const InformationalCodes: set<int> := {100, 101, 102}
  const SuccessCodes: set<int> := {200, 201, 202, 203, 204, 205, 206, 207, 208, 226}
  const RedirectionCodes: set<int> := {300, 301, 302, 303, 304, 305, 307, 308}
  const RequestErrorCodes: set<int> := {400, 401, 402, 403, 404, 405, 406, 407, 408, 409, 410, 411,
                                        412, 413, 414, 415, 416, 417}
  const ExtendedRequestErrorCodes: set<int> := {421, 422, 423, 424, 426, 428, 429, 431}
  const ClientErrorCodes: set<int> := RequestErrorCodes + ExtendedRequestErrorCodes
  const ServerErrorCodes: set<int> := {500, 501, 502, 503, 504, 505, 506, 507, 508, 510, 511}
  const CallbackCodes: set<int> :=
    InformationalCodes + SuccessCodes + RedirectionCodes + ClientErrorCodes + ServerErrorCodes

  /** Each class of codes lies in its own hundred. */
  lemma CodesByClass()
    ensures forall n :: n in InformationalCodes ==> 100 <= n < 200
    ensures forall n :: n in SuccessCodes ==> 200 <= n < 300
    ensures forall n :: n in RedirectionCodes ==> 300 <= n < 400
    ensures forall n :: n in ClientErrorCodes ==> 400 <= n < 500
    ensures forall n :: n in ServerErrorCodes ==> 500 <= n < 600
  {
  }

  /** The `http_NNN_callback` table: the member each partial fixes as `status_code`. */
  function CallbackStatus(nnn: int): (s: Option<HTTPStatus>)
    ensures s.Some? <==> nnn in CallbackCodes
    ensures s.Some? ==> s.value.Code() == nnn
  {
    CodesByClass();
    if 100 <= nnn < 200 then InformationalCallback(nnn)
    else if 200 <= nnn < 300 then SuccessCallback(nnn)
    else if 300 <= nnn < 400 then RedirectionCallback(nnn)
    else if 400 <= nnn < 500 then ClientErrorCallback(nnn)
    else if 500 <= nnn < 600 then ServerErrorCallback(nnn)
    else None
  }

  /** The 1xx rows of the table. */
  function InformationalCallback(nnn: int): (s: Option<HTTPStatus>)
    ensures s.Some? <==> nnn in InformationalCodes
    ensures s.Some? ==> s.value.Code() == nnn
  {
    match nnn
    case 100 => Some(Continue)
    case 101 => Some(SwitchingProtocols)
    case 102 => Some(Processing)
    case _ => None
  }

  /** The 2xx rows of the table. */
  function SuccessCallback(nnn: int): (s: Option<HTTPStatus>)
    ensures s.Some? <==> nnn in SuccessCodes
    ensures s.Some? ==> s.value.Code() == nnn
  {
    match nnn
    case 200 => Some(OK)
    case 201 => Some(Created)
    case 202 => Some(Accepted)
    case 203 => Some(NonAuthoritativeInformation)
    case 204 => Some(NoContent)
    case 205 => Some(ResetContent)
    case 206 => Some(PartialContent)
    case 207 => Some(MultiStatus)
    case 208 => Some(AlreadyReported)
    case 226 => Some(ImUsed)
    case _ => None
  }

  /** The 3xx rows of the table. */
  function RedirectionCallback(nnn: int): (s: Option<HTTPStatus>)
    ensures s.Some? <==> nnn in RedirectionCodes
    ensures s.Some? ==> s.value.Code() == nnn
  {
    match nnn
    case 300 => Some(MultipleChoices)
    case 301 => Some(MovedPermanently)
    case 302 => Some(Found)
    case 303 => Some(SeeOther)
    case 304 => Some(NotModified)
    case 305 => Some(UseProxy)
    case 307 => Some(TemporaryRedirect)
    case 308 => Some(PermanentRedirect)
    case _ => None
  }

  /** The 4xx rows of the table. */
  function ClientErrorCallback(nnn: int): (s: Option<HTTPStatus>)
    ensures s.Some? <==> nnn in ClientErrorCodes
    ensures s.Some? ==> s.value.Code() == nnn
  {
    if nnn < 420 then RequestErrorCallback(nnn) else ExtendedRequestErrorCallback(nnn)
  }

  /** The 400-417 rows of the table. */
  function RequestErrorCallback(nnn: int): (s: Option<HTTPStatus>)
    ensures s.Some? <==> nnn in RequestErrorCodes
    ensures s.Some? ==> s.value.Code() == nnn
  {
    match nnn
    case 400 => Some(BadRequest)
    case 401 => Some(Unauthorized)
    case 402 => Some(PaymentRequired)
    case 403 => Some(Forbidden)
    case 404 => Some(NotFound)
    case 405 => Some(MethodNotAllowed)
    case 406 => Some(NotAcceptable)
    case 407 => Some(ProxyAuthenticationRequired)
    case 408 => Some(RequestTimeout)
    case 409 => Some(Conflict)
    case 410 => Some(Gone)
    case 411 => Some(LengthRequired)
    case 412 => Some(PreconditionFailed)
    case 413 => Some(RequestEntityTooLarge)
    case 414 => Some(RequestUriTooLong)
    case 415 => Some(UnsupportedMediaType)
    case 416 => Some(RequestedRangeNotSatisfiable)
    case 417 => Some(ExpectationFailed)
    case _ => None
  }

  /** The 421-431 rows of the table. */
  function ExtendedRequestErrorCallback(nnn: int): (s: Option<HTTPStatus>)
    ensures s.Some? <==> nnn in ExtendedRequestErrorCodes
    ensures s.Some? ==> s.value.Code() == nnn
  {
    match nnn
    case 421 => Some(MisdirectedRequest)
    case 422 => Some(UnprocessableEntity)
    case 423 => Some(Locked)
    case 424 => Some(FailedDependency)
    case 426 => Some(UpgradeRequired)
    case 428 => Some(PreconditionRequired)
    case 429 => Some(TooManyRequests)
    case 431 => Some(RequestHeaderFieldsTooLarge)
    case _ => None
  }

  /** The 5xx rows of the table. */
  function ServerErrorCallback(nnn: int): (s: Option<HTTPStatus>)
    ensures s.Some? <==> nnn in ServerErrorCodes
    ensures s.Some? ==> s.value.Code() == nnn
  {
    match nnn
    case 500 => Some(InternalServerError)
    case 501 => Some(NotImplemented)
    case 502 => Some(BadGateway)
    case 503 => Some(ServiceUnavailable)
    case 504 => Some(GatewayTimeout)
    case 505 => Some(HTTPVersionNotSupported)
    case 506 => Some(VariantAlsoNegotiates)
    case 507 => Some(InsufficientStorage)
    case 508 => Some(LoopDetected)
    case 510 => Some(NotExtended)
    case 511 => Some(NetworkAuthenticationRequired)
    case _ => None
  }

  /** Every member's code is a three-digit status from 1xx to 5xx. */
  lemma CodeInRange(m: HTTPStatus)
    ensures 100 <= m.Code() < 600
  {
  }

  /** The 1xx members: the table gives each one back from its code. */
  lemma InformationalMembers(m: HTTPStatus)
    requires 100 <= m.Code() < 200
    ensures InformationalCallback(m.Code()) == Some(m)
  {
  }

  /** The 2xx members: the table gives each one back from its code. */
  lemma SuccessMembers(m: HTTPStatus)
    requires 200 <= m.Code() < 300
    ensures SuccessCallback(m.Code()) == Some(m)
  {
  }

  /** The 3xx members: the table gives each one back from its code. */
  lemma RedirectionMembers(m: HTTPStatus)
    requires 300 <= m.Code() < 400
    ensures RedirectionCallback(m.Code()) == Some(m)
  {
  }

  /** The 400-417 members: the table gives each one back from its code. */
  lemma RequestErrorMembers(m: HTTPStatus)
    requires 400 <= m.Code() < 420
    ensures RequestErrorCallback(m.Code()) == Some(m)
  {
  }

  /** The 421-431 members: the table gives each one back from its code. */
  lemma ExtendedRequestErrorMembers(m: HTTPStatus)
    requires 420 <= m.Code() < 500
    ensures ExtendedRequestErrorCallback(m.Code()) == Some(m)
  {
  }

  /** The 5xx members: the table gives each one back from its code. */
  lemma ServerErrorMembers(m: HTTPStatus)
    requires 500 <= m.Code() < 600
    ensures ServerErrorCallback(m.Code()) == Some(m)
  {
  }

  /** Every member of the enumeration has its callback, and the table gives it back from
      its code. */
  lemma {:induction false} CallbackForEveryMember(m: HTTPStatus)
    ensures m.Code() in CallbackCodes
    ensures CallbackStatus(m.Code()) == Some(m)
  {
    CodeInRange(m);
    if m.Code() < 200 {
      InformationalMembers(m);
    } else if m.Code() < 300 {
      SuccessMembers(m);
    } else if m.Code() < 400 {
      RedirectionMembers(m);
    } else if m.Code() < 420 {
      RequestErrorMembers(m);
    } else if m.Code() < 500 {
      ExtendedRequestErrorMembers(m);
    } else {
      ServerErrorMembers(m);
    }
  }

  /** `http_NNN_callback(...)`: `http_callback` with `status_code` fixed by the table. */
  method HttpStatusCallback(
    nnn: int,
    headers: Dict? := null,
    body: Value := Null,
    requestBody: Value := Null,
    requestHeaders: Dict? := null,
    requestParams: Dict? := null,
    rt: Runtime)
    returns (r: Outcome<Callback, BuiltinError>)
    requires nnn in CallbackCodes
    modifies headers
    ensures r.Raised? <==> body.Bool? || body.Int?
    ensures r.Raised? ==> r.error == ValueError
    ensures r.Returned? ==>
      && r.value.reply.status == Int(nnn)
      && r.value.expectedBody == requestBody
      && Transformed(body, if headers == null then map[] else old(headers.items), rt)
         == Returned((r.value.reply.body, r.value.reply.headers.items))
    ensures r.Returned? && requestHeaders != null && requestHeaders.items != map[] ==>
      r.value.expectedHeaders == requestHeaders
    ensures r.Returned? && (requestHeaders == null || requestHeaders.items == map[]) ==>
      fresh(r.value.expectedHeaders) && r.value.expectedHeaders.items == map[]
    ensures r.Returned? && requestParams != null && requestParams.items != map[] ==>
      r.value.expectedParams == requestParams
    ensures r.Returned? && (requestParams == null || requestParams.items == map[]) ==>
      fresh(r.value.expectedParams) && r.value.expectedParams.items == map[]
    ensures r.Returned? && headers != null && old(headers.items) != map[] ==> r.value.reply.headers == headers
    ensures r.Returned? && (headers == null || old(headers.items) == map[]) ==> fresh(r.value.reply.headers)
    ensures headers != null && (r.Raised? || old(headers.items) == map[]) ==> headers.items == old(headers.items)
  {
    r := HttpCallback(Int(CallbackStatus(nnn).value.Code()), headers, body, requestBody,
                      requestHeaders, requestParams, rt);
  }
}
