/** Request decoration done by `customFetch` before the request is handed to
    the platform's `fetch`: the header merge, with the stored access token
    passed in instead of being read from browser storage. */
module CustomFetch {
  import opened Wrappers

  type Headers = map<string, string>

  const AuthorizationKey := "Authorization"
  const ContentTypeKey := "Content-Type"
  const PreflightKey := "Apollo-Require-Preflight"
  const JsonContentType := "application/json"
  const PreflightValue := "true"

  /** The caller supplied an `Authorization` header that JavaScript treats as truthy. */
  predicate CallerAuthorized(headers: Headers) {
    AuthorizationKey in headers && headers[AuthorizationKey] != ""
  }

  /** The template literal `Bearer ${accessToken}`; a missing token renders as "null". */
  function BearerValue(token: Option<string>): (r: string)
    ensures |r| >= 7 && r[..7] == "Bearer "
    ensures token.Some? ==> r[7..] == token.value
    ensures token.None? ==> r == "Bearer null"
  {
    "Bearer " + token.GetOr("null")
  }

  /** The caller headers, then Authorization, Content-Type and
      Apollo-Require-Preflight set on top. */
  function MergeHeaders(headers: Headers, token: Option<string>): (r: Headers)
    ensures r.Keys == headers.Keys + {AuthorizationKey, ContentTypeKey, PreflightKey}
    // a truthy caller Authorization is never overwritten ...
    ensures CallerAuthorized(headers) ==> r[AuthorizationKey] == headers[AuthorizationKey]
    // ... and otherwise the bearer token is supplied
    ensures !CallerAuthorized(headers) ==> r[AuthorizationKey] == BearerValue(token)
    ensures r[ContentTypeKey] == JsonContentType
    ensures r[PreflightKey] == PreflightValue
    // every other caller header passes through unchanged
    ensures forall k :: k in headers && k !in {AuthorizationKey, ContentTypeKey, PreflightKey} ==> r[k] == headers[k]
  {
    var auth := if CallerAuthorized(headers) then headers[AuthorizationKey] else BearerValue(token);
    headers[AuthorizationKey := auth][ContentTypeKey := JsonContentType][PreflightKey := PreflightValue]
  }

  /** Decorating already decorated headers changes nothing, whatever the token:
      the merged Authorization is always truthy. */
  lemma MergeHeadersIdempotent(headers: Headers, token: Option<string>, token': Option<string>)
    ensures MergeHeaders(MergeHeaders(headers, token), token') == MergeHeaders(headers, token)
  {
  }

  /** The token matters exactly when the caller did not authorise the request,
      and then only through its rendering: a missing token and a stored
      "null" give the same header. */
  lemma TokenUsedIffUnauthorized(headers: Headers, token: Option<string>, token': Option<string>)
    ensures CallerAuthorized(headers) ==> MergeHeaders(headers, token) == MergeHeaders(headers, token')
    ensures !CallerAuthorized(headers) ==>
              (MergeHeaders(headers, token) == MergeHeaders(headers, token') <==> token.GetOr("null") == token'.GetOr("null"))
  {
  }

  /** The Authorization check is case-sensitive: a lower-case `authorization`
      passes through untouched and the bearer token is still added. */
  lemma AuthorizationKeyCaseSensitive(headers: Headers, token: Option<string>)
    requires AuthorizationKey !in headers && "authorization" in headers
    ensures MergeHeaders(headers, token)["authorization"] == headers["authorization"]
    ensures MergeHeaders(headers, token)[AuthorizationKey] == BearerValue(token)
  {
  }

  /** The request options `customFetch` reads. `headers` is `None` when the
      caller passed none; the other members are passed on by the spread. */
  datatype RequestInit = RequestInit(httpMethod: Option<string>, body: Option<string>, headers: Option<Headers>)

  /** What is handed to the platform `fetch`. */
  datatype Request = Request(url: string, init: RequestInit)

  /** The request `customFetch` sends: `fetch(url, {...options, headers: merged})`. */
  function DecorateRequest(url: string, options: RequestInit, token: Option<string>): (r: Request)
    ensures r.url == url
    ensures r.init.httpMethod == options.httpMethod && r.init.body == options.body
    ensures r.init.headers.Some?
    // missing caller headers behave as an empty header record
    ensures options.headers.None? ==>
              r.init.headers.value == map[AuthorizationKey := BearerValue(token),
                                          ContentTypeKey := JsonContentType,
                                          PreflightKey := PreflightValue]
    ensures options.headers.Some? ==> r.init.headers.value == MergeHeaders(options.headers.value, token)
  {
    var callerHeaders := options.headers.GetOr(map[]);
    Request(url, options.(headers := Some(MergeHeaders(callerHeaders, token))))
  }
}
