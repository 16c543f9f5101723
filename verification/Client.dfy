/**
 * The request executor: header composition, URL building, and the rule that turns
 * an HTTP failure reported by the session into an APIHTTPError. The session and the
 * response's `raise_for_status` are supplied as a `Session` value.
 */
module Client {
  import opened Values
  import opened Exceptions

  /** The content types a body can be declared with. */
  datatype ContentType = JSON | XML {
    function MediaType(): (s: string)
      ensures s == "application/json" <==> this == JSON
      ensures s == "text/xml" <==> this == XML
    {
      match this
      case JSON => "application/json"
      case XML => "text/xml"
    }
  }

  /** The entries of the dictionary `_create_headers` returns, given the entries of the one
      it starts from. */
  function HeadersFor(given: map<string, Value>, data: Value, contentType: Value): (h: map<string, Value>)
    ensures Truthy(data) && Truthy(contentType) ==> "Content-Type" in h && h["Content-Type"] == contentType
    ensures !(Truthy(data) && Truthy(contentType)) ==> h == given
    ensures h.Keys == given.Keys + (if Truthy(data) && Truthy(contentType) then {"Content-Type"} else {})
    ensures forall k :: k in given && k != "Content-Type" ==> h[k] == given[k]
  {
    if Truthy(data) && Truthy(contentType) then given["Content-Type" := contentType] else given
  }

  /** `_create_headers`: a missing or empty dictionary is replaced by a fresh one; a
      non-empty one is updated in place and returned. */
  method CreateHeaders(headers: Dict?, data: Value, contentType: Value) returns (h: Dict)
    modifies headers
    ensures headers != null && old(headers.items) != map[] ==> h == headers
    ensures headers == null || old(headers.items) == map[] ==> fresh(h)
    ensures headers != null && old(headers.items) == map[] ==> headers.items == map[]
    ensures h.items == HeadersFor(if headers == null then map[] else old(headers.items), data, contentType)
  {
    h := OrEmpty(headers);
    if Truthy(data) && Truthy(contentType) {
      h.Set("Content-Type", contentType);
    }
  }

  /** The address a request goes to: `f"{self._url}{resource}"`. */
  function RequestUrl(base: string, resource: string): (url: string)
    ensures |url| == |base| + |resource|
    ensures url[..|base|] == base && url[|base|..] == resource
  {
    base + resource
  }

  /** What the session is asked to send. */
  datatype SentRequest = SentRequest(
    url: string,
    httpMethod: string,
    params: Value,
    headers: map<string, Value>,
    data: Value,
    timeout: Value)

  /** What `session.request` does: it returns a response or raises an HTTPError. */
  datatype Exchange = Responded(response: Response) | Failed(failure: HTTPFailure)

  /** The transport: `session.request`, and `raise_for_status` on its responses
      (None when it does not raise). */
  datatype Session = Session(
    request: SentRequest -> Exchange,
    raiseForStatus: Response -> Option<HTTPFailure>)

  /** The HTTPError raised inside the `try` block, if any. */
  function FailureOf(session: Session, sent: SentRequest): (f: Option<HTTPFailure>)
    ensures session.request(sent).Failed? ==> f == Some(session.request(sent).failure)
    ensures session.request(sent).Responded? ==> f == session.raiseForStatus(session.request(sent).response)
    ensures f.None? ==> session.request(sent).Responded?
  {
    match session.request(sent)
    case Failed(failure) => Some(failure)
    case Responded(response) => session.raiseForStatus(response)
  }

  /** `raise APIHTTPError.wrap(err) from err`: the wrapped error is raised; if wrapping
      itself raised, that exception escapes instead. */
  function Reraise(wrapped: Outcome<ClientError, BuiltinError>): (r: Outcome<Response, Failure>)
    ensures r.Raised?
    ensures wrapped.Returned? ==> r.error == Api(wrapped.value)
    ensures wrapped.Raised? ==> r.error == Builtin(wrapped.error)
  {
    match wrapped
    case Returned(e) => Raised(Api(e))
    case Raised(b) => Raised(Builtin(b))
  }

  /** The outcome of `execute_request` once `sent` has been handed to the session. */
  function Settle(session: Session, sent: SentRequest, rt: Runtime): (r: Outcome<Response, Failure>)
    ensures r.Returned? <==> FailureOf(session, sent).None?
    ensures r.Returned? ==> session.request(sent) == Responded(r.value)
    ensures r.Raised? && r.error.Api? ==> r.error.api.cls == APIHTTPErrorClass
    ensures FailureOf(session, sent).Some? ==> r == Reraise(WrapHTTP(FailureOf(session, sent).value, rt))
  {
    match FailureOf(session, sent)
    case Some(failure) => Reraise(WrapHTTP(failure, rt))
    case None => Returned(session.request(sent).response)
  }

  /** A thin client: a session and the base URL of the API. */
  class ClientAPI {
    var session: Session
    var url: string

    constructor (session: Session, url: string)
      ensures this.session == session && this.url == url
    {
      this.session := session;
      this.url := url;
    }

    /** `execute_request`: build the headers, send through the session, and either return
        the response or raise the wrapped HTTP failure. */
    method ExecuteRequest(
      resource: string,
      httpMethod: string := "GET",
      params: Value := Null,
      headers: Dict? := null,
      data: Value := Null,
      timeout: Value := Null,
      contentType: Value := Str(JSON.MediaType()),
      rt: Runtime)
      returns (r: Outcome<Response, Failure>)
      modifies headers
      ensures r == Settle(session, SentRequest(RequestUrl(url, resource), httpMethod, params,
                          HeadersFor(if headers == null then map[] else old(headers.items), data, contentType),
                          data, timeout), rt)
      ensures headers != null && old(headers.items) != map[] ==> headers.items == HeadersFor(old(headers.items), data, contentType)
      ensures headers != null && old(headers.items) == map[] ==> headers.items == map[]
    {
      var target := RequestUrl(url, resource);
      var h := CreateHeaders(headers, data, contentType);
      var sent := SentRequest(target, httpMethod, params, h.items, data, timeout);
      match session.request(sent)
      case Failed(failure) =>
        r := Reraise(WrapHTTP(failure, rt));
      case Responded(response) =>
        match session.raiseForStatus(response)
        case Some(failure) =>
          r := Reraise(WrapHTTP(failure, rt));
        case None =>
          r := Returned(response);
    }
  }

  /** A response that does not raise comes back unchanged; an HTTPError never produces a
      return value, only an APIHTTPError carrying the response's status code. */
  lemma FailureNeverReturns(session: Session, sent: SentRequest, rt: Runtime)
    requires session.request(sent).Responded?
    requires session.raiseForStatus(session.request(sent).response).Some?
    requires session.raiseForStatus(session.request(sent).response).value.response
             == Some(session.request(sent).response)
    requires session.request(sent).response.statusCode.Some?
    ensures Settle(session, sent, rt).Raised?
    ensures Settle(session, sent, rt).error.Api?
    ensures Settle(session, sent, rt).error.api.statusCode
            == Some(Pick(session.request(sent).response.statusCode.value, Null))
  {
  }

  /** GET /hello against https://url.com answered with 404 and a body that is not an error
      document: an APIHTTPError with code "unknown", status 404, and the body's text in its
      source. */
  lemma NotFoundScenario(session: Session, body: string, description: string, rt: Runtime)
    requires description != ""
    requires var sent := SentRequest(RequestUrl("https://url.com", "/hello"), "GET", Null, map[], Null, Null);
      var response := Response(body, Some(Str(sent.url)), Some(Int(404)), Some(Str(body)));
      && session.request(sent) == Responded(response)
      && session.raiseForStatus(response)
         == Some(HTTPFailure(description, Some(Request(Some(Str("GET")))), Some(response)))
      && rt.parseErrorDocument(body) == None
    ensures var sent := SentRequest(RequestUrl("https://url.com", "/hello"), "GET", Null, map[], Null, Null);
      var r := Settle(session, sent, rt);
      && r.Raised? && r.error.Api?
      && r.error.api.code == Str(UnknownCode)
      && r.error.api.detail == Str(description)
      && r.error.api.statusCode == Some(Int(404))
      && r.error.api.source == Object(map["method" := Str("GET"), "url" := Str("https://url.com/hello"),
                                          "status_code" := Int(404), "text" := Str(body)])
  {
    assert RequestUrl("https://url.com", "/hello") == "https://url.com/hello";
  }
}
