/**
 * The values that requests and responses are made of: status codes, methods,
 * the request headers that the execution engine reads or clears, the response
 * headers it consults, and the User-Agent value it stages for each transmission.
 */
module Http {
  import opened Wrappers

  newtype byte = x: int | 0 <= x < 256

  // The status codes the engine and the tests name (HttpStatusCodes).
  const StatusOk: int := 200
  const StatusMovedPermanently: int := 301
  const StatusFound: int := 302
  const StatusSeeOther: int := 303
  const StatusTemporaryRedirect: int := 307
  const StatusUnauthorized: int := 401
  const StatusServerError: int := 500
  const StatusServiceUnavailable: int := 503

  /** A response is successful when its status code is 2xx. */
  predicate IsSuccess(statusCode: int) {
    200 <= statusCode < 300
  }

  /** The status codes that ask the client to follow a Location header. */
  predicate IsRedirect(statusCode: int) {
    statusCode == StatusMovedPermanently || statusCode == StatusFound
    || statusCode == StatusSeeOther || statusCode == StatusTemporaryRedirect
  }

  datatype Method = GET | PUT | POST | DELETE | HEAD | PATCH

  /** The request headers that redirect handling and transmission staging touch;
      None is a header that is not set. */
  datatype Headers = Headers(
    authorization: Option<string>,
    ifMatch: Option<string>,
    ifNoneMatch: Option<string>,
    ifModifiedSince: Option<string>,
    ifUnmodifiedSince: Option<string>,
    ifRange: Option<string>,
    userAgent: Option<string>)

  /** A header container with nothing set. */
  const NoHeaders := Headers(None, None, None, None, None, None, None)

  /** The headers that no longer apply once a request goes to a new target:
      Authorization and the conditional If-* headers. */
  predicate CredentialsAndConditionsCleared(h: Headers) {
    h.authorization.None? && h.ifMatch.None? && h.ifNoneMatch.None?
    && h.ifModifiedSince.None? && h.ifUnmodifiedSince.None? && h.ifRange.None?
  }

  /** The headers with Authorization and the If-* headers removed, everything else kept. */
  function WithoutCredentialsAndConditions(h: Headers): (r: Headers)
    ensures CredentialsAndConditionsCleared(r)
    ensures r.userAgent == h.userAgent
  {
    h.(authorization := None, ifMatch := None, ifNoneMatch := None,
       ifModifiedSince := None, ifUnmodifiedSince := None, ifRange := None)
  }

  datatype ResponseHeaders = ResponseHeaders(location: Option<string>)

  /** The response of one physical transmission. */
  datatype Response = Response(statusCode: int, headers: ResponseHeaders)

  /** What one low-level transmission yields: a response, or a transport I/O failure. */
  datatype LowLevelResult = LowLevelResponse(response: Response) | LowLevelIOException

  /** What the engine adds to the User-Agent of every request it sends (the library
      version that the real suffix carries is not modelled). */
  const UserAgentSuffix: string := "Google-HTTP-Java-Client (gzip)"

  /** The User-Agent value sent on the wire: the configured value with the suffix
      joined by one space, the suffix alone when none is configured, and the
      configured value unchanged when the suffix is suppressed. */
  function StagedUserAgent(userAgent: Option<string>, suppressUserAgentSuffix: bool): (ua: Option<string>)
    ensures suppressUserAgentSuffix ==> ua == userAgent
    ensures !suppressUserAgentSuffix ==>
              (ua.Some? && |ua.value| >= |UserAgentSuffix|
               && ua.value[|ua.value| - |UserAgentSuffix|..] == UserAgentSuffix)
    ensures !suppressUserAgentSuffix && userAgent.Some? ==>
              (|ua.value| == |userAgent.value| + 1 + |UserAgentSuffix|
               && ua.value[..|userAgent.value|] == userAgent.value && ua.value[|userAgent.value|] == ' ')
  {
    if suppressUserAgentSuffix then userAgent
    else if userAgent.None? then Some(UserAgentSuffix)
    else Some(userAgent.value + " " + UserAgentSuffix)
  }

  /** The four cases of the User-Agent staging, with and without a configured value. */
  lemma StagedUserAgentCases()
    ensures StagedUserAgent(None, false) == Some(UserAgentSuffix)
    ensures StagedUserAgent(None, true) == None
    ensures StagedUserAgent(Some("Testing"), false) == Some("Testing " + UserAgentSuffix)
    ensures StagedUserAgent(Some("Testing"), true) == Some("Testing")
  {
    assert "Testing" + " " + UserAgentSuffix == "Testing " + UserAgentSuffix;
  }
}
