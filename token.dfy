/**
 * The per-tenant access token: the client credentials read once per execution,
 * the OAuth 2.0 client-credentials token request (section 4.4 of RFC 6749) for
 * one tenant, reading `access_token` from the identity provider's reply, and
 * lookups in the per-execution token cache.
 */
module TokenExchange {
  import opened Wrappers
  import opened JsValue
  import opened FormEncoding

  /** The credential record; each field may be stored under either spelling. */
  datatype Credentials = Credentials(clientId: Value, client_id: Value, clientSecret: Value, client_secret: Value)

  /** The client id and secret used for every token request of one execution. */
  datatype Client = Client(id: Value, secret: Value)

  /** Each credential falls back to its snake_case spelling when the camelCase one is falsy. */
  function ClientOf(creds: Credentials): (c: Client)
    ensures Truthy(creds.clientId) ==> c.id == creds.clientId
    ensures !Truthy(creds.clientId) ==> c.id == creds.client_id
    ensures Truthy(creds.clientSecret) ==> c.secret == creds.clientSecret
    ensures !Truthy(creds.clientSecret) ==> c.secret == creds.client_secret
  {
    Client(Or(creds.clientId, creds.client_id), Or(creds.clientSecret, creds.client_secret))
  }

  const Authority := "https://login.microsoftonline.com/"
  const TokenPath := "/oauth2/token"
  const GraphResource := "https://graph.microsoft.com"
  const FormContentType := "application/x-www-form-urlencoded"

  /** The token endpoint of one tenant. */
  function TokenUrl(tenantId: string): string {
    Authority + tenantId + TokenPath
  }

  /** Recovers the tenant from a token endpoint URL. */
  function TenantOfTokenUrl(url: string): Option<string> {
    if |url| >= |Authority| + |TokenPath| && url[..|Authority|] == Authority
       && url[|url| - |TokenPath|..] == TokenPath
    then Some(url[|Authority|..|url| - |TokenPath|])
    else None
  }

  /** Each tenant has its own endpoint: the URL determines the tenant. */
  lemma TokenUrlRoundTrip(tenantId: string)
    ensures TenantOfTokenUrl(TokenUrl(tenantId)) == Some(tenantId)
  {
    var url := TokenUrl(tenantId);
    assert url[..|Authority|] == Authority;
    assert url[|url| - |TokenPath|..] == TokenPath;
    assert url[|Authority|..|url| - |TokenPath|] == tenantId;
  }

  /** The form fields of the client-credentials grant, in the order they are appended. */
  function TokenForm(c: Client): seq<(string, string)> {
    [ ("grant_type", "client_credentials"),
      ("client_id", ToJsString(c.id)),
      ("client_secret", ToJsString(c.secret)),
      ("resource", GraphResource) ]
  }

  datatype TokenRequest = TokenRequest(verb: string, url: string, headers: map<string, string>, body: string)

  /** The request sent to the identity provider for a tenant not yet in the cache. */
  function TokenRequestFor(tenantId: string, c: Client, encode: string -> string): TokenRequest {
    TokenRequest("POST", TokenUrl(tenantId), map["Content-Type" := FormContentType], Serialize(TokenForm(c), encode))
  }

  /**
   * The token request is a form POST to the tenant's endpoint whose body reads
   * back as grant_type, client_id, client_secret and resource, in that order.
   */
  lemma TokenRequestContents(tenantId: string, c: Client, encode: string -> string, decode: string -> string)
    requires forall x :: '&' !in encode(x) && '=' !in encode(x)
    requires forall x :: decode(encode(x)) == x
    ensures TokenRequestFor(tenantId, c, encode).verb == "POST"
    ensures TenantOfTokenUrl(TokenRequestFor(tenantId, c, encode).url) == Some(tenantId)
    ensures TokenRequestFor(tenantId, c, encode).headers["Content-Type"] == FormContentType
    ensures Parse(TokenRequestFor(tenantId, c, encode).body, decode) ==
      [ ("grant_type", "client_credentials"),
        ("client_id", ToJsString(c.id)),
        ("client_secret", ToJsString(c.secret)),
        ("resource", "https://graph.microsoft.com") ]
  {
    TokenUrlRoundTrip(tenantId);
    SerializeParseRoundTrip(TokenForm(c), encode, decode);
  }

  /** What the token request produced: a thrown error, or the decoded reply body. */
  datatype TokenReply = Threw(message: string) | Replied(body: Value)

  /** Reading access_token from the reply; reading a property of undefined or null throws. */
  function AccessTokenField(body: Value): (r: Result<Value>)
    ensures r.Err? <==> body.Undefined? || body.Null?
    ensures body.Obj? ==> r == Ok(if "access_token" in body.props then body.props["access_token"] else Undefined)
    ensures !body.Obj? && r.Ok? ==> r.value == Undefined
  {
    match body
    case Undefined => Err("Cannot read properties of undefined (reading 'access_token')")
    case Null => Err("Cannot read properties of null (reading 'access_token')")
    case Obj(props) => Ok(if "access_token" in props then props["access_token"] else Undefined)
    case _ => Ok(Undefined)
  }

  function MissingTokenMessage(tenantId: string): string {
    "Failed to retrieve access token for tenant " + tenantId
  }

  /**
   * The token the exchange yields, or the error the item fails with: the
   * request's own error, the property read's error, or the missing-token error
   * when access_token is falsy.
   */
  function GrantedToken(reply: TokenReply, tenantId: string): (r: Result<Value>)
    ensures r.Ok? ==> Truthy(r.value)
    ensures r.Ok? <==> reply.Replied? && reply.body.Obj? && "access_token" in reply.body.props
                       && Truthy(reply.body.props["access_token"])
    ensures r.Ok? ==> r.value == reply.body.props["access_token"]
    ensures reply.Threw? ==> r == Err(reply.message)
    ensures reply.Replied? && AccessTokenField(reply.body).Ok? && r.Err? ==>
      r.error == MissingTokenMessage(tenantId)
  {
    match reply
    case Threw(m) => Err(m)
    case Replied(body) =>
      match AccessTokenField(body)
      case Err(m) => Err(m)
      case Ok(token) => if !Truthy(token) then Err(MissingTokenMessage(tenantId)) else Ok(token)
  }

  /** Every cached token is truthy: only tokens that passed the `!accessToken` test are stored. */
  ghost predicate CacheValid(cache: map<string, Value>) {
    forall t :: t in cache ==> Truthy(cache[t])
  }

  /** The cache lookup for a tenant, on a cache with no inherited properties. */
  function CacheRead(cache: map<string, Value>, tenantId: string): Value {
    if tenantId in cache then cache[tenantId] else Undefined
  }

  /** On a valid cache the `!accessToken` test is a miss exactly when the tenant has no entry. */
  lemma CacheHitIffPresent(cache: map<string, Value>, tenantId: string)
    requires CacheValid(cache)
    ensures Truthy(CacheRead(cache, tenantId)) <==> tenantId in cache
    ensures tenantId in cache ==> CacheRead(cache, tenantId) == cache[tenantId]
  {
  }

  /** The properties an empty object literal inherits from Object.prototype. */
  const ObjectPrototypeMembers: set<string> := {
    "constructor", "hasOwnProperty", "isPrototypeOf", "propertyIsEnumerable",
    "toLocaleString", "toString", "valueOf", "__defineGetter__", "__defineSetter__",
    "__lookupGetter__", "__lookupSetter__" }

  /**
   * The cache lookup as written: the cache is an object literal, so a
   * tenant id that names an inherited property reads that property.
   */
  function CacheReadAsWritten(cache: map<string, Value>, tenantId: string): Value {
    if tenantId in cache then cache[tenantId]
    else if tenantId == "__proto__" then Obj(map[])
    else if tenantId in ObjectPrototypeMembers then Native(if tenantId == "constructor" then "Object" else tenantId)
    else Undefined
  }

  /**
   * With the cache as written, the tenant id "constructor" hits on an empty
   * cache: no token is requested and the bearer value is the source text of
   * the Object constructor. The intended lookup misses.
   */
  lemma InheritedPropertyHitsEmptyCache()
    ensures Truthy(CacheReadAsWritten(map[], "constructor"))
    ensures CacheReadAsWritten(map[], "constructor") == Native("Object")
    ensures ToJsString(CacheReadAsWritten(map[], "constructor")) == "function Object() { [native code] }"
    ensures !Truthy(CacheRead(map[], "constructor"))
  {
    assert "constructor"[0] != "__proto__"[0];
    assert "constructor" in ObjectPrototypeMembers;
    NativeObjectText();
  }

  /** The source text of the Object constructor, as String() renders it. */
  lemma NativeObjectText()
    ensures ToJsString(Native("Object")) == "function Object() { [native code] }"
  {
  }

  /** The two lookups agree on every tenant id that is not an inherited property name. */
  lemma CacheReadsAgreeOnPlainIds(cache: map<string, Value>, tenantId: string)
    requires tenantId !in ObjectPrototypeMembers && tenantId != "__proto__"
    ensures CacheReadAsWritten(cache, tenantId) == CacheRead(cache, tenantId)
  {
  }
}
