/**
 * Bearer-token authentication: an object holding a token that, when called on an
 * outgoing request, writes the `Authorization` header into the request's header
 * dictionary.
 */
module Auth {
  import opened Values
  import opened Exceptions

  const BearerTokenNotValidClass := ErrorClass(
    "BearerTokenNotValid",
    Str("bearer_token_not_valid"),
    Str(BearerDetail),
    Null,
    None)

  const BearerDetail := "The specified bearer token is not valid"
  const MissingTokenMessage := "No token set to query the API"

  /** The error `AuthBearer.__init__` raises for a token, if any. The message is passed
      positionally, so it lands in `code`; `detail` keeps the class default. */
  function TokenError(token: Value, rt: Runtime): (r: Option<ClientError>)
    ensures r.Some? <==> !Truthy(token)
    ensures r.Some? ==>
      && r.value.cls == BearerTokenNotValidClass
      && r.value.code == Str(MissingTokenMessage)
      && r.value.detail == BearerTokenNotValidClass.detail
      && r.value.source == Null
      && r.value.message == "(" + MissingTokenMessage + ") " + BearerDetail + "."
  {
    if Truthy(token) then None
    else
      Some(NewError(BearerTokenNotValidClass, Str(MissingTokenMessage), Null, Null, rt))
  }

  /** The header entries after signing: `headers["Authorization"] = f"Bearer {token}"`. */
  function Signed(headers: map<string, Value>, token: Value, rt: Runtime): (h: map<string, Value>)
    ensures "Authorization" in h && h["Authorization"] == Str("Bearer " + Text(token, rt))
    ensures h.Keys == headers.Keys + {"Authorization"}
    ensures forall k :: k in headers && k != "Authorization" ==> h[k] == headers[k]
  {
    headers["Authorization" := Str("Bearer " + Text(token, rt))]
  }

  /** Signing a second time changes nothing. */
  lemma SignedIdempotent(headers: map<string, Value>, token: Value, rt: Runtime)
    ensures Signed(Signed(headers, token, rt), token, rt) == Signed(headers, token, rt)
  {
  }

  /** An outgoing request; only its header dictionary matters here. */
  class PreparedRequest {
    var headers: Dict

    constructor (headers: Dict)
      ensures this.headers == headers
    {
      this.headers := headers;
    }
  }

  /** The authentication object the session calls on every request. */
  class AuthBearer {
    var token: Value

    constructor (token: Value)
      ensures this.token == token
    {
      this.token := token;
    }

    /** `__call__`: write the one header and hand back the same request. */
    method Call(r: PreparedRequest, rt: Runtime) returns (signed: PreparedRequest)
      modifies r.headers
      ensures signed == r && r.headers == old(r.headers)
      ensures r.headers.items == Signed(old(r.headers.items), token, rt)
    {
      r.headers.Set("Authorization", Str("Bearer " + Text(token, rt)));
      signed := r;
    }
  }

  /** `AuthBearer(token)`: store the token, then raise BearerTokenNotValid when it is falsy. */
  method NewAuthBearer(token: Value, rt: Runtime) returns (r: Outcome<AuthBearer, ClientError>)
    ensures r.Raised? <==> !Truthy(token)
    ensures r.Raised? ==> TokenError(token, rt) == Some(r.error)
    ensures r.Returned? ==> fresh(r.value) && r.value.token == token
  {
    var auth := new AuthBearer(token);
    if !Truthy(token) {
      return Raised(NewError(BearerTokenNotValidClass, Str(MissingTokenMessage), Null, Null, rt));
    }
    r := Returned(auth);
  }
}
