// The API client's two interceptors: every outgoing request carries the stored
// token as a bearer credential (section 2.1 of RFC 6750), and a 401 answer
// ends the session by dropping the token and sending the browser to the login.

module Session {
  import opened Common

  const DefaultBaseUrl := "http://localhost:5000/api"

  /** `import.meta.env.VITE_API_URL || 'http://localhost:5000/api'`. */
  function BaseUrl(configured: Option<string>): (url: string)
    ensures configured.Some? && configured.value != "" ==> url == configured.value
    ensures configured.None? || configured.value == "" ==> url == DefaultBaseUrl
  {
    OrElse(configured, DefaultBaseUrl)
  }

  const AuthorizationHeader := "Authorization"
  const BearerPrefix := "Bearer "
  const Unauthorized: nat := 401
  const LoginPath := "/login"

  /** The header value of section 2.1 of RFC 6750: the scheme, one space, the token. */
  function BearerCredentials(token: string): (value: string)
    ensures |value| == |BearerPrefix| + |token|
    ensures value[..|BearerPrefix|] == BearerPrefix && value[|BearerPrefix|..] == token
  {
    BearerPrefix + token
  }

  /** Reads the token back out of an Authorization header value. */
  function BearerToken(value: string): (token: Option<string>)
    ensures token.Some? <==> |value| >= |BearerPrefix| && value[..|BearerPrefix|] == BearerPrefix
  {
    if |value| >= |BearerPrefix| && value[..|BearerPrefix|] == BearerPrefix then Some(value[|BearerPrefix|..]) else None
  }

  lemma BearerRoundTrip(token: string)
    ensures BearerToken(BearerCredentials(token)) == Some(token)
  {
    assert BearerCredentials(token)[..|BearerPrefix|] == BearerPrefix;
  }

  /** The headers a request leaves with: the Authorization header is set exactly when a token is stored. */
  function Authorized(storage: map<string, string>, headers: map<string, string>): (h: map<string, string>)
    ensures HasToken(storage) ==> h == headers[AuthorizationHeader := BearerCredentials(storage[AuthTokenKey])]
    ensures !HasToken(storage) ==> h == headers
  {
    if HasToken(storage) then headers[AuthorizationHeader := BearerCredentials(storage[AuthTokenKey])] else headers
  }

  /**
   * With a token stored, the server can read exactly that token back from the
   * request, and every other header is left as it was.
   */
  lemma AuthorizedCarriesToken(storage: map<string, string>, headers: map<string, string>)
    requires HasToken(storage)
    ensures AuthorizationHeader in Authorized(storage, headers)
    ensures BearerToken(Authorized(storage, headers)[AuthorizationHeader]) == Some(storage[AuthTokenKey])
    ensures forall k :: k in headers && k != AuthorizationHeader ==> k in Authorized(storage, headers) && Authorized(storage, headers)[k] == headers[k]
  {
    BearerRoundTrip(storage[AuthTokenKey]);
  }

  /** The storage after a 401: the token is gone and every other entry, `user` included, is kept. */
  function WithoutToken(storage: map<string, string>): (s: map<string, string>)
    ensures !HasToken(s) && AuthTokenKey !in s
    ensures forall k :: k != AuthTokenKey ==> (k in s <==> k in storage)
    ensures forall k :: k in s ==> s[k] == storage[k]
  {
    storage - {AuthTokenKey}
  }

  /** An axios request config; the request interceptor edits its headers in place. */
  class RequestConfig {
    var headers: map<string, string>

    /** A request as the client creates it, with the JSON content type. */
    constructor()
      ensures headers == map["Content-Type" := "application/json"]
    {
      headers := map["Content-Type" := "application/json"];
    }
  }

  /** The request interceptor: add the bearer header when a token is stored, and pass the same config on. */
  method InterceptRequest(env: Env, config: RequestConfig) returns (r: RequestConfig)
    modifies config
    ensures r == config
    ensures config.headers == Authorized(env.storage, old(config.headers))
  {
    if AuthTokenKey in env.storage && env.storage[AuthTokenKey] != "" {
      config.headers := config.headers[AuthorizationHeader := BearerCredentials(env.storage[AuthTokenKey])];
    }
    r := config;
  }

  /** The request interceptor's error handler: the error is rejected as it came. */
  method RejectRequestError(err: ApiError) returns (rejected: ApiError)
    ensures rejected == err
  {
    rejected := err;
  }

  /** The response interceptor on success: the response passes through untouched. */
  method InterceptResponse<R>(response: R) returns (r: R)
    ensures r == response
  {
    r := response;
  }

  predicate IsUnauthorized(err: ApiError) {
    err.response.Some? && err.response.value.status == Unauthorized
  }

  /**
   * The response interceptor on error: a 401 drops the token and sends the
   * browser to the login page; any other error touches nothing. The error is
   * rejected to the caller in both cases.
   */
  method InterceptResponseError(env: Env, err: ApiError) returns (rejected: ApiError)
    modifies env
    ensures rejected == err
    ensures IsUnauthorized(err) ==> env.storage == WithoutToken(old(env.storage)) && env.href == LoginPath
    ensures !IsUnauthorized(err) ==> env.storage == old(env.storage) && env.href == old(env.href)
  {
    if err.response.Some? && err.response.value.status == 401 {
      env.storage := env.storage - {AuthTokenKey};
      env.href := LoginPath;
    }
    rejected := err;
  }

  /**
   * After a 401 the next request goes out without credentials: a request
   * created without an Authorization header leaves with none, and its headers
   * are exactly those it was created with.
   */
  method UnauthorizedThenRequest(env: Env, err: ApiError, config: RequestConfig) returns (r: RequestConfig)
    requires IsUnauthorized(err)
    requires AuthorizationHeader !in config.headers
    modifies env, config
    ensures AuthorizationHeader !in r.headers
    ensures r == config && r.headers == old(config.headers)
  {
    var _ := InterceptResponseError(env, err);
    r := InterceptRequest(env, config);
  }
}
