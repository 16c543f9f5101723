/**
 * The error taxonomy: APIClientError with its two refinements, APIValidationError
 * and APIHTTPError, and their `wrap` conversions from a lower-level failure.
 * A Python exception class is modelled as a record of its class-level defaults,
 * an instance as a record of the attributes its constructor leaves behind.
 */
module Exceptions {
  import opened Values

  /** An exception class: its name and the defaults an instance keeps whenever the
      matching constructor argument is falsy. `statusCode` is None for a class that
      declares no `status_code` attribute. */
  datatype ErrorClass = ErrorClass(
    name: string,
    code: Value,
    detail: Value,
    source: Value,
    statusCode: Option<Value>)

  const ValidationCode := "api_validation_error"
  const ValidationDetail := "One or more parameters are invalid."
  const UnknownCode := "unknown"

  const APIClientErrorClass := ErrorClass("APIClientError", Null, Null, Null, None)
  const APIValidationErrorClass :=
    ErrorClass("APIValidationError", Str(ValidationCode), Str(ValidationDetail), Null, None)
  const APIHTTPErrorClass := ErrorClass("APIHTTPError", Null, Null, Null, Some(Null))

  /** A constructed error: its class, the attributes as `__init__` left them, and the
      message it passed to `Exception.__init__`. */
  datatype ClientError = ClientError(
    cls: ErrorClass,
    code: Value,
    detail: Value,
    source: Value,
    statusCode: Option<Value>,
    message: string)

  /** What a call that may end in one of this library's errors raises. */
  datatype Failure = Builtin(builtin: BuiltinError) | Api(api: ClientError)

  /** `if arg: self.x = arg`, read back: the argument when truthy, else the class default. */
  function Pick(arg: Value, default: Value): (v: Value)
    ensures Truthy(arg) ==> v == arg
    ensures !Truthy(arg) ==> v == default
  {
    if Truthy(arg) then arg else default
  }

  /** The first part of the message: `f"({self.code}) {self.detail}."`. */
  function Headline(code: Value, detail: Value, rt: Runtime): string {
    "(" + Text(code, rt) + ") " + Text(detail, rt) + "."
  }

  /** The headline is the code's text in parentheses, a space, the detail's text and a
      full stop, with nothing else in between. */
  lemma HeadlineShape(code: Value, detail: Value, rt: Runtime)
    ensures var h, c, d := Headline(code, detail, rt), Text(code, rt), Text(detail, rt);
      && |h| == |c| + |d| + 4
      && h[0] == '(' && h[1..|c| + 1] == c && h[|c| + 1..|c| + 3] == ") "
      && h[|c| + 3..|h| - 1] == d && h[|h| - 1] == '.'
  {
  }

  /** The instance `APIClientError.__init__` builds for a class `cls`. */
  function NewError(cls: ErrorClass, code: Value, detail: Value, source: Value, rt: Runtime): (e: ClientError)
    ensures e.cls == cls && e.statusCode == cls.statusCode
    ensures Truthy(code) ==> e.code == code
    ensures !Truthy(code) ==> e.code == cls.code
    ensures Truthy(detail) ==> e.detail == detail
    ensures !Truthy(detail) ==> e.detail == cls.detail
    ensures Truthy(source) ==> e.source == source
    ensures !Truthy(source) ==> e.source == cls.source
    ensures Truthy(source) ==> e.message == Headline(e.code, e.detail, rt) + "Source: " + Text(source, rt)
    ensures !Truthy(source) ==> e.message == Headline(e.code, e.detail, rt)
  {
    var c := Pick(code, cls.code);
    var d := Pick(detail, cls.detail);
    var suffix := if Truthy(source) then "Source: " + Text(source, rt) else "";
    ClientError(cls, c, d, Pick(source, cls.source), cls.statusCode, Headline(c, d, rt) + suffix)
  }

  /** `APIClientError.__init__`: overwrite the class defaults attribute by attribute and
      build the message step by step. */
  method Init(cls: ErrorClass, code: Value, detail: Value, source: Value, rt: Runtime) returns (e: ClientError)
    ensures e == NewError(cls, code, detail, source, rt)
  {
    var selfCode, selfDetail, selfSource := cls.code, cls.detail, cls.source;
    if Truthy(code) {
      selfCode := code;
    }
    if Truthy(detail) {
      selfDetail := detail;
    }
    if Truthy(source) {
      selfSource := source;
    }
    var message := "(" + Text(selfCode, rt) + ") " + Text(selfDetail, rt) + ".";
    if Truthy(source) {
      message := message + "Source: " + Text(source, rt);
      selfSource := source;
    }
    e := ClientError(cls, selfCode, selfDetail, selfSource, cls.statusCode, message);
  }

  /** The instance `APIHTTPError.__init__` builds. */
  function NewHTTPError(code: Value, detail: Value, source: Value, statusCode: Value, rt: Runtime): (e: ClientError)
    ensures e.cls == APIHTTPErrorClass
    ensures Truthy(statusCode) ==> e.statusCode == Some(statusCode)
    ensures !Truthy(statusCode) ==> e.statusCode == Some(Null)
    ensures e.(statusCode := None) == NewError(APIHTTPErrorClass, code, detail, source, rt).(statusCode := None)
  {
    NewError(APIHTTPErrorClass, code, detail, source, rt).(statusCode := Some(Pick(statusCode, Null)))
  }

  /** `APIHTTPError.__init__`: store a truthy status code, then run the base constructor. */
  method InitHTTP(code: Value, detail: Value, source: Value, statusCode: Value, rt: Runtime) returns (e: ClientError)
    ensures e == NewHTTPError(code, detail, source, statusCode, rt)
  {
    var selfStatus := APIHTTPErrorClass.statusCode;
    if Truthy(statusCode) {
      selfStatus := Some(statusCode);
    }
    e := Init(APIHTTPErrorClass, code, detail, source, rt);
    e := e.(statusCode := selfStatus);
  }

  /** The `content` property: the error as a three-key dictionary. */
  function Content(e: ClientError): (c: map<string, Value>)
    ensures c.Keys == {"code", "detail", "source"}
    ensures c["code"] == e.code && c["detail"] == e.detail && c["source"] == e.source
  {
    map["code" := e.code, "detail" := e.detail, "source" := e.source]
  }

  /** An error built from truthy arguments reports exactly those arguments as its content. */
  lemma ContentOfTruthyArguments(cls: ErrorClass, code: Value, detail: Value, source: Value, rt: Runtime)
    requires Truthy(code) && Truthy(detail) && Truthy(source)
    ensures Content(NewError(cls, code, detail, source, rt)) == map["code" := code, "detail" := detail, "source" := source]
  {
  }

  /** "", [], {} and None all leave the class defaults in place. */
  lemma FalsyArgumentsKeepDefaults(cls: ErrorClass, code: Value, detail: Value, source: Value, rt: Runtime)
    requires code in {Null, Str(""), List([]), Object(map[])}
    requires detail in {Null, Str(""), List([]), Object(map[])}
    requires source in {Null, Str(""), List([]), Object(map[])}
    ensures var e := NewError(cls, code, detail, source, rt);
      e.code == cls.code && e.detail == cls.detail && e.source == cls.source
      && e.message == "(" + Text(cls.code, rt) + ") " + Text(cls.detail, rt) + "."
  {
  }

  // ---------------------------------------------------------------- APIValidationError.wrap

  /** A schema-validation failure as far as `wrap` looks at it: what calling `errors()`
      does, which is to return a value or to raise. */
  datatype ValidationFailure = ValidationFailure(errors: Outcome<Value, BuiltinError>)

  /** `APIValidationError.wrap`: only AttributeError from `errors()` is caught (the source
      is then None); any other exception escapes `wrap`. */
  function WrapValidation(failure: ValidationFailure, rt: Runtime): (r: Outcome<ClientError, BuiltinError>)
    ensures r.Raised? <==> failure.errors.Raised? && failure.errors.error != AttributeError
    ensures r.Raised? ==> r.error == failure.errors.error
    ensures r.Returned? ==> r.value.cls == APIValidationErrorClass && r.value.statusCode == None
    ensures r.Returned? ==> r.value.code == Str(ValidationCode) && r.value.detail == Str(ValidationDetail)
    ensures failure.errors.Returned? && Truthy(failure.errors.value) ==> r.value.source == failure.errors.value
    ensures failure.errors.Returned? && !Truthy(failure.errors.value) ==> r.value.source == Null
    ensures failure.errors == Raised(AttributeError) ==> r.Returned? && r.value.source == Null
    ensures r.Returned? ==>
      r.value.message == Headline(r.value.code, r.value.detail, rt)
                         + (if Truthy(r.value.source) then "Source: " + Text(r.value.source, rt) else "")
  {
    match failure.errors
    case Returned(errors) => Returned(NewError(APIValidationErrorClass, Null, Null, errors, rt))
    case Raised(AttributeError) => Returned(NewError(APIValidationErrorClass, Null, Null, Null, rt))
    case Raised(other) => Raised(other)
  }

  // ---------------------------------------------------------------- APIHTTPError.wrap

  /** The part of the transport's request that `wrap` reads: its `method` attribute,
      None when the attribute is missing. */
  datatype Request = Request(httpMethod: Option<Value>)

  /** The parts of the transport's response that `wrap` reads; an attribute is None when
      the object does not have it. */
  datatype Response = Response(
    content: string,
    url: Option<Value>,
    statusCode: Option<Value>,
    text: Option<Value>)

  /** The transport's HTTPError: its `str()` text and the objects it refers to (None
      stands for a Python None in `request` or `response`). */
  datatype HTTPFailure = HTTPFailure(
    description: string,
    request: Option<Request>,
    response: Option<Response>)

  /** `getattr(obj, name, None)` for an attribute that may be missing. */
  function AttrOrNone(attr: Option<Value>): (v: Value)
    ensures attr.Some? ==> v == attr.value
    ensures attr.None? ==> v == Null
  {
    match attr
    case Some(v) => v
    case None => Null
  }

  /** The method of the request, or None when there is no request or no method. */
  function RequestMethod(request: Option<Request>): (m: Value)
    ensures request.Some? && request.value.httpMethod.Some? ==> m == request.value.httpMethod.value
    ensures request.None? || request.value.httpMethod.None? ==> m == Null
  {
    match request
    case Some(r) => AttrOrNone(r.httpMethod)
    case None => Null
  }

  /** The diagnostic record `wrap` builds when the body is not an error document. */
  function FallbackSource(request: Option<Request>, response: Response): (s: Value)
    ensures s.Object? && s.fields.Keys == {"method", "url", "status_code", "text"}
    ensures s.fields["method"] == (if request.Some? && request.value.httpMethod.Some? then request.value.httpMethod.value else Null)
    ensures s.fields["url"] == (if response.url.Some? then response.url.value else Null)
    ensures s.fields["status_code"] == (if response.statusCode.Some? then response.statusCode.value else Null)
    ensures s.fields["text"] == (if response.text.Some? then response.text.value else Null)
    ensures Truthy(s)
  {
    Object(map[
      "method" := RequestMethod(request),
      "url" := AttrOrNone(response.url),
      "status_code" := AttrOrNone(response.statusCode),
      "text" := AttrOrNone(response.text)])
  }

  /** `APIHTTPError.wrap`. It raises AttributeError only where the Python code reads an
      attribute directly: a missing response, or a response without `status_code`. */
  function WrapHTTP(failure: HTTPFailure, rt: Runtime): (r: Outcome<ClientError, BuiltinError>)
    ensures r.Raised? <==> failure.response.None? || failure.response.value.statusCode.None?
    ensures r.Raised? ==> r.error == AttributeError
    ensures r.Returned? ==> RemoteErrorCopied(failure, rt, r.value) || FallbackUsed(failure, rt, r.value)
    ensures r.Returned? ==>
      r.value.cls == APIHTTPErrorClass && r.value.statusCode == Some(Pick(failure.response.value.statusCode.value, Null))
    ensures r.Returned? ==>
      r.value.message == Headline(r.value.code, r.value.detail, rt)
                         + (if Truthy(r.value.source) then "Source: " + Text(r.value.source, rt) else "")
  {
    match failure.response
    case None => Raised(AttributeError)
    case Some(response) =>
      var fields := match rt.parseErrorDocument(response.content)
        case Some(doc) => (Str(doc.code), Str(doc.detail), doc.source)
        case None => (Str(UnknownCode), Str(failure.description), FallbackSource(failure.request, response));
      match response.statusCode
      case None => Raised(AttributeError)
      case Some(status) => Returned(NewHTTPError(fields.0, fields.1, fields.2, status, rt))
  }

  /** The body parsed as an error document, whose fields the error carries (each one
      only when truthy, as the constructor does). */
  ghost predicate RemoteErrorCopied(failure: HTTPFailure, rt: Runtime, e: ClientError) {
    && failure.response.Some?
    && rt.parseErrorDocument(failure.response.value.content).Some?
    && var doc := rt.parseErrorDocument(failure.response.value.content).value;
    && e.code == Pick(Str(doc.code), Null)
    && e.detail == Pick(Str(doc.detail), Null)
    && e.source == Pick(doc.source, Null)
  }

  /** The body did not parse: code "unknown", the HTTPError's text, the diagnostic record. */
  ghost predicate FallbackUsed(failure: HTTPFailure, rt: Runtime, e: ClientError) {
    && failure.response.Some?
    && rt.parseErrorDocument(failure.response.value.content).None?
    && e.code == Str(UnknownCode)
    && e.detail == Pick(Str(failure.description), Null)
    && e.source == FallbackSource(failure.request, failure.response.value)
  }

  /** A 400 response whose body is an error document: the document's fields come through
      as they are, with the response's status code. */
  lemma RemoteDocumentScenario(content: string, source: Value, rt: Runtime)
    requires Truthy(source)
    requires rt.parseErrorDocument(content)
             == Some(ErrorDocument("validation_error", "One or more parameters are invalid.", source))
    ensures var response := Response(content, Some(Str("some_url")), Some(Int(400)), Some(Str(content)));
      var r := WrapHTTP(HTTPFailure("", Some(Request(Some(Str("GET")))), Some(response)), rt);
      && r.Returned?
      && r.value.code == Str("validation_error")
      && r.value.detail == Str("One or more parameters are invalid.")
      && r.value.source == source
      && r.value.statusCode == Some(Int(400))
  {
  }

  /** A 409 response with an empty body: the fallback carries the HTTPError's text and the
      four-key diagnostic record. */
  lemma EmptyBodyScenario(rt: Runtime)
    requires rt.parseErrorDocument("") == None
    ensures var response := Response("", Some(Str("some_url")), Some(Int(409)), Some(Str("")));
      var r := WrapHTTP(HTTPFailure("The message", Some(Request(Some(Str("GET")))), Some(response)), rt);
      && r.Returned?
      && r.value.code == Str(UnknownCode)
      && r.value.detail == Str("The message")
      && r.value.statusCode == Some(Int(409))
      && r.value.source == Object(map["method" := Str("GET"), "url" := Str("some_url"),
                                      "status_code" := Int(409), "text" := Str("")])
  {
  }

  /** A validation failure whose `errors()` raises AttributeError keeps the fixed code and
      detail and has no source. */
  lemma BrokenErrorsScenario(rt: Runtime)
    ensures WrapValidation(ValidationFailure(Raised(AttributeError)), rt).Returned?
    ensures var e := WrapValidation(ValidationFailure(Raised(AttributeError)), rt).value;
      e.code == Str(ValidationCode) && e.detail == Str(ValidationDetail) && e.source == Null
      && e.message == "(" + ValidationCode + ") " + ValidationDetail + "."
  {
  }
}
