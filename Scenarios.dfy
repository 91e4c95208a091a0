/**
 * The request tests as verified client code: each method builds the mocks and the
 * request the way its test does, calls execute (or handleRedirect) on the objects,
 * and returns what the test observes; its contract states the values the test
 * asserts. The request factory's default retry budget is a parameter.
 */
module Scenarios {
  import opened Wrappers
  import opened Http
  import opened Mocks
  import Engine
  import opened EngineProperties
  import opened Requests
  import Uri

  // ---------------------------------------------------------------------------
  // Redirects
  // ---------------------------------------------------------------------------

  /** test301Redirect. */
  method Test301Redirect(defaultRetries: nat) returns (outcome: Engine.Outcome, lowLevelExecCalls: nat)
    requires defaultRetries > 0
    ensures outcome == Engine.Returned(Plain(StatusOk))
    ensures lowLevelExecCalls == 2
  {
    var transport := new MockTransport(RedirectTransport(false, false, StatusMovedPermanently));
    var request := new HttpRequest(transport, GET, "http://gmail.com", None, defaultRetries);
    ghost var cfg, w := request.Config(), request.State();
    outcome := request.Execute();
    ExecuteFollowsRedirect(cfg, w, defaultRetries);
    lowLevelExecCalls := transport.lowLevelExecCalls;
  }

  /** test301RedirectWithUnsuccessfulResponseHandled: the handler takes the retry,
      so the URL is not rewritten and no delay is asked. */
  method Test301RedirectHandled(defaultRetries: nat)
    returns (outcome: Engine.Outcome, lowLevelExecCalls: nat, url: string,
             resetCalls: nat, backOffCalls: nat, handlerCalled: bool)
    requires defaultRetries > 0
    ensures outcome == Engine.Returned(Plain(StatusOk))
    ensures lowLevelExecCalls == 2
    ensures url == "http://gmail.com"
    ensures resetCalls == 1 && backOffCalls == 0
    ensures handlerCalled
  {
    var handler := new MockUnsuccessfulResponseHandler(true);
    var policy := new MockBackOffPolicy();
    var transport := new MockTransport(RedirectTransport(false, false, StatusMovedPermanently));
    var request := new HttpRequest(transport, GET, "http://gmail.com", None, defaultRetries);
    request.unsuccessfulResponseHandler := handler;
    request.backOffPolicy := policy;
    ghost var cfg, w := request.Config(), request.State();
    outcome := request.Execute();
    ExecuteHandlerClaimsRedirect(cfg, w, defaultRetries);
    lowLevelExecCalls, url := transport.lowLevelExecCalls, request.url;
    resetCalls, backOffCalls, handlerCalled := policy.resetCalls, policy.backOffCalls, handler.isCalled;
  }

  /** test301RedirectWithUnsuccessfulResponseNotHandled: the handler declines, so
      the redirect is followed to the transport's Location. */
  method Test301RedirectNotHandled(defaultRetries: nat)
    returns (outcome: Engine.Outcome, lowLevelExecCalls: nat, url: string, resetCalls: nat, backOffCalls: nat)
    requires defaultRetries > 0
    ensures outcome == Engine.Returned(Plain(StatusOk))
    ensures url == SimpleUrl
    ensures lowLevelExecCalls == 2
    ensures resetCalls == 1 && backOffCalls == 0
  {
    var handler := new MockUnsuccessfulResponseHandler(false);
    var policy := new MockBackOffPolicy();
    var transport := new MockTransport(RedirectTransport(false, false, StatusMovedPermanently));
    var request := new HttpRequest(transport, GET, "http://gmail.com", None, defaultRetries);
    request.unsuccessfulResponseHandler := handler;
    request.backOffPolicy := policy;
    ghost var cfg, w := Engine.Config(true, false, true, false), Engine.World(Engine.Request("http://gmail.com", GET, NoHeaders, None),
      Some(PolicyState(0, 0, false)), Some(HandlerState(false, false)),
      TransportState(RedirectTransport(false, false, StatusMovedPermanently), 0, []));
    assert request.Config() == cfg && request.State() == w;
    outcome := request.Execute();
    ExecuteFollowsRedirect(cfg, w, defaultRetries);
    lowLevelExecCalls, url := transport.lowLevelExecCalls, request.url;
    resetCalls, backOffCalls := policy.resetCalls, policy.backOffCalls;
  }

  /** test303Redirect: a POST answered with 303 is sent again as a GET. */
  method Test303Redirect(defaultRetries: nat, content: seq<byte>)
    returns (outcome: Engine.Outcome, lowLevelExecCalls: nat, requestMethod: Method)
    requires defaultRetries > 0
    ensures outcome == Engine.Returned(Plain(StatusOk))
    ensures lowLevelExecCalls == 2
    ensures requestMethod == GET
  {
    var transport := new MockTransport(RedirectTransport(false, false, StatusSeeOther));
    var request := new HttpRequest(transport, POST, "http://gmail.com", Some(content), defaultRetries);
    ghost var cfg, w := request.Config(), request.State();
    outcome := request.Execute();
    ExecuteFollowsRedirect(cfg, w, defaultRetries);
    lowLevelExecCalls, requestMethod := transport.lowLevelExecCalls, request.requestMethod;
  }

  /** testInfiniteRedirects: the redirects stop when the budget is spent, and the
      last redirect response is thrown. */
  method TestInfiniteRedirects(defaultRetries: nat)
    returns (outcome: Engine.Outcome, lowLevelExecCalls: nat, numberOfRetries: nat)
    ensures outcome.HttpResponseException?
    ensures lowLevelExecCalls == numberOfRetries + 1
  {
    var transport := new MockTransport(RedirectTransport(false, true, StatusMovedPermanently));
    var request := new HttpRequest(transport, GET, "http://gmail.com", None, defaultRetries);
    ghost var cfg, w := request.Config(), request.State();
    outcome := request.Execute();
    EndlessRedirects(cfg, w.(policy := Engine.Reset(w.policy)), defaultRetries);
    lowLevelExecCalls, numberOfRetries := transport.lowLevelExecCalls, request.numberOfRetries;
  }

  /** testMissingLocationRedirect: a redirect without a Location is thrown at once. */
  method TestMissingLocationRedirect(defaultRetries: nat) returns (outcome: Engine.Outcome, lowLevelExecCalls: nat)
    ensures outcome.HttpResponseException?
    ensures lowLevelExecCalls == 1
  {
    var transport := new MockTransport(RedirectTransport(true, false, StatusMovedPermanently));
    var request := new HttpRequest(transport, GET, "http://gmail.com", None, defaultRetries);
    ghost var cfg, w := request.Config(), request.State();
    outcome := request.Execute();
    ExecuteRedirectWithoutLocation(cfg, w, defaultRetries);
    lowLevelExecCalls := transport.lowLevelExecCalls;
  }

  // ---------------------------------------------------------------------------
  // Transport I/O failures
  // ---------------------------------------------------------------------------

  /** testExecuteErrorWithRetryEnabled: three failures, a budget of four. */
  method TestExecuteErrorWithRetryEnabled(defaultRetries: nat)
    returns (outcome: Engine.Outcome, lowLevelExecCalls: nat)
    ensures outcome == Engine.Returned(Plain(StatusOk))
    ensures lowLevelExecCalls == 4
  {
    var transport := new MockTransport(FailThenSuccessConnectionErrorTransport(3));
    var request := new HttpRequest(transport, GET, "http://not/used", None, defaultRetries);
    request.retryOnExecuteIOException := true;
    request.numberOfRetries := 3 + 1;
    ghost var cfg, w := request.Config(), request.State();
    outcome := request.Execute();
    ExecuteRetriesConnectionErrors(cfg, w, 3, 4);
    lowLevelExecCalls := transport.lowLevelExecCalls;
  }

  /** testExecuteErrorWithRetryEnabledBeyondRetryLimit: eleven failures, a budget of ten. */
  method TestExecuteErrorBeyondRetryLimit(defaultRetries: nat)
    returns (outcome: Engine.Outcome, lowLevelExecCalls: nat)
    ensures outcome == Engine.IOException
    ensures lowLevelExecCalls == 11
  {
    var transport := new MockTransport(FailThenSuccessConnectionErrorTransport(11));
    var request := new HttpRequest(transport, GET, "http://not/used", None, defaultRetries);
    request.retryOnExecuteIOException := true;
    request.numberOfRetries := 11 - 1;
    ghost var cfg, w := request.Config(), request.State();
    outcome := request.Execute();
    ExecuteRetriesConnectionErrors(cfg, w, 11, 10);
    lowLevelExecCalls := transport.lowLevelExecCalls;
  }

  /** testExecuteErrorWithRetryDisabled: the first failure is final. */
  method TestExecuteErrorWithRetryDisabled(defaultRetries: nat)
    returns (outcome: Engine.Outcome, lowLevelExecCalls: nat)
    ensures outcome == Engine.IOException
    ensures lowLevelExecCalls == 1
  {
    var transport := new MockTransport(FailThenSuccessConnectionErrorTransport(3));
    var request := new HttpRequest(transport, GET, "http://not/used", None, defaultRetries);
    request.numberOfRetries := 3 + 1;
    ghost var cfg, w := request.Config(), request.State();
    outcome := request.Execute();
    ExecuteDoesNotRetryConnectionErrors(cfg, w, 4);
    lowLevelExecCalls := transport.lowLevelExecCalls;
  }

  /** testUserAgentWithExecuteErrorAndRetryEnabled: the last transmission carried
      exactly one User-Agent value, the suffix alone. */
  method TestUserAgentWithRetries(defaultRetries: nat)
    returns (outcome: Engine.Outcome, lowLevelExecCalls: nat, userAgentHeader: seq<string>)
    ensures outcome == Engine.Returned(Plain(StatusOk))
    ensures lowLevelExecCalls == 4
    ensures userAgentHeader == [UserAgentSuffix]
  {
    var transport := new MockTransport(FailThenSuccessConnectionErrorTransport(3));
    var request := new HttpRequest(transport, GET, "http://not/used", None, defaultRetries);
    request.retryOnExecuteIOException := true;
    request.numberOfRetries := 3 + 1;
    ghost var cfg, w := request.Config(), request.State();
    outcome := request.Execute();
    ExecuteRetriesConnectionErrors(cfg, w, 3, 4);
    UserAgentStagedPerTransmission(cfg, w.(policy := Engine.Reset(w.policy)), 4);
    lowLevelExecCalls, userAgentHeader := transport.lowLevelExecCalls, transport.userAgentHeader;
  }

  // ---------------------------------------------------------------------------
  // The unsuccessful-response handler and the backoff policy
  // ---------------------------------------------------------------------------

  /** testAbnormalResponseHandlerWithNoBackOff: the handler retries a 401. */
  method TestHandlerWithNoBackOff(defaultRetries: nat)
    returns (outcome: Engine.Outcome, lowLevelExecCalls: nat, handlerCalled: bool)
    requires defaultRetries > 0
    ensures outcome == Engine.Returned(Plain(StatusOk))
    ensures lowLevelExecCalls == 2
    ensures handlerCalled
  {
    var transport := new MockTransport(FailThenSuccessBackoffTransport(StatusUnauthorized, 1));
    var handler := new MockUnsuccessfulResponseHandler(true);
    var request := new HttpRequest(transport, GET, "http://not/used", None, defaultRetries);
    request.unsuccessfulResponseHandler := handler;
    request.backOffPolicy := null;
    ghost var cfg, w := request.Config(), request.State();
    outcome := request.Execute();
    HandlerRetriesFailures(cfg, w, defaultRetries);
    lowLevelExecCalls, handlerCalled := transport.lowLevelExecCalls, handler.isCalled;
  }

  /** testAbnormalResponseHandlerWithBackOff: the handler retries a 500 before the
      policy is asked. */
  method TestHandlerWithBackOff(defaultRetries: nat)
    returns (outcome: Engine.Outcome, lowLevelExecCalls: nat, resetCalls: nat, backOffCalls: nat, handlerCalled: bool)
    requires defaultRetries > 0
    ensures outcome == Engine.Returned(Plain(StatusOk))
    ensures lowLevelExecCalls == 2
    ensures resetCalls == 1 && backOffCalls == 0
    ensures handlerCalled
  {
    var transport := new MockTransport(FailThenSuccessBackoffTransport(StatusServerError, 1));
    var handler := new MockUnsuccessfulResponseHandler(true);
    var policy := new MockBackOffPolicy();
    var request := new HttpRequest(transport, GET, "http://not/used", None, defaultRetries);
    request.unsuccessfulResponseHandler := handler;
    request.backOffPolicy := policy;
    ghost var cfg, w := request.Config(), request.State();
    outcome := request.Execute();
    HandlerRetriesFailures(cfg, w.(policy := Engine.Reset(w.policy)), defaultRetries);
    lowLevelExecCalls, handlerCalled := transport.lowLevelExecCalls, handler.isCalled;
    resetCalls, backOffCalls := policy.resetCalls, policy.backOffCalls;
  }

  /** testBackOffSingleCall and testBackOffMultipleCalls: k failures of 500 within
      the default budget. */
  method TestBackOffCalls(defaultRetries: nat, callsBeforeSuccess: nat)
    returns (outcome: Engine.Outcome, lowLevelExecCalls: nat, resetCalls: nat, backOffCalls: nat, handlerCalled: bool)
    requires 0 < callsBeforeSuccess <= defaultRetries
    ensures outcome == Engine.Returned(Plain(StatusOk))
    ensures lowLevelExecCalls == callsBeforeSuccess + 1
    ensures resetCalls == 1 && backOffCalls == callsBeforeSuccess
    ensures handlerCalled
  {
    var transport := new MockTransport(FailThenSuccessBackoffTransport(StatusServerError, callsBeforeSuccess));
    var handler := new MockUnsuccessfulResponseHandler(false);
    var policy := new MockBackOffPolicy();
    var request := new HttpRequest(transport, GET, "http://not/used", None, defaultRetries);
    request.unsuccessfulResponseHandler := handler;
    request.backOffPolicy := policy;
    ghost var cfg, w := request.Config(), request.State();
    outcome := request.Execute();
    ExecuteBacksOff(cfg, w, callsBeforeSuccess, defaultRetries);
    lowLevelExecCalls, handlerCalled := transport.lowLevelExecCalls, handler.isCalled;
    resetCalls, backOffCalls := policy.resetCalls, policy.backOffCalls;
  }

  /** testBackOffCallsBeyondRetryLimit: callsBeforeSuccess failures (11 in the test)
      against a budget one short of them. The last failure is thrown; one delay was
      asked per retry. */
  method TestBackOffBeyondRetryLimit(defaultRetries: nat, callsBeforeSuccess: nat)
    returns (outcome: Engine.Outcome, lowLevelExecCalls: nat, resetCalls: nat, backOffCalls: nat, handlerCalled: bool)
    requires callsBeforeSuccess > 0
    ensures outcome.HttpResponseException?
    ensures lowLevelExecCalls == callsBeforeSuccess
    ensures resetCalls == 1 && backOffCalls == callsBeforeSuccess - 1
    ensures handlerCalled
  {
    var transport := new MockTransport(FailThenSuccessBackoffTransport(StatusServerError, callsBeforeSuccess));
    var handler := new MockUnsuccessfulResponseHandler(false);
    var policy := new MockBackOffPolicy();
    var request := new HttpRequest(transport, GET, "http://not/used", None, defaultRetries);
    request.numberOfRetries := callsBeforeSuccess - 1;
    request.unsuccessfulResponseHandler := handler;
    request.backOffPolicy := policy;
    ghost var cfg, w := Engine.Config(true, false, true, false), Engine.World(Engine.Request("http://not/used", GET, NoHeaders, None),
      Some(PolicyState(0, 0, false)), Some(HandlerState(false, false)),
      TransportState(FailThenSuccessBackoffTransport(StatusServerError, callsBeforeSuccess), 0, []));
    assert request.Config() == cfg && request.State() == w;
    ExecuteBacksOff(cfg, w, callsBeforeSuccess, callsBeforeSuccess - 1);
    outcome := request.Execute();
    lowLevelExecCalls, handlerCalled := transport.lowLevelExecCalls, handler.isCalled;
    resetCalls, backOffCalls := policy.resetCalls, policy.backOffCalls;
  }

  /** testBackOffUnRecognizedStatusCode: the policy is not asked about a 401. */
  method TestBackOffUnrecognizedStatus(defaultRetries: nat)
    returns (outcome: Engine.Outcome, lowLevelExecCalls: nat, resetCalls: nat, backOffCalls: nat, handlerCalled: bool)
    ensures outcome.HttpResponseException?
    ensures lowLevelExecCalls == 1
    ensures resetCalls == 1 && backOffCalls == 0
    ensures handlerCalled
  {
    var transport := new MockTransport(FailThenSuccessBackoffTransport(StatusUnauthorized, 1));
    var handler := new MockUnsuccessfulResponseHandler(false);
    var policy := new MockBackOffPolicy();
    var request := new HttpRequest(transport, GET, "http://not/used", None, defaultRetries);
    request.unsuccessfulResponseHandler := handler;
    request.backOffPolicy := policy;
    ghost var cfg, w := request.Config(), request.State();
    outcome := request.Execute();
    ExecuteUnrecognizedStatus(cfg, w, defaultRetries);
    lowLevelExecCalls, handlerCalled := transport.lowLevelExecCalls, handler.isCalled;
    resetCalls, backOffCalls := policy.resetCalls, policy.backOffCalls;
  }

  /** testBackOffStop: a policy answering Stop ends execute after one delay request. */
  method TestBackOffStop(defaultRetries: nat)
    returns (outcome: Engine.Outcome, lowLevelExecCalls: nat, resetCalls: nat, backOffCalls: nat, handlerCalled: bool)
    requires defaultRetries > 0
    ensures outcome.HttpResponseException?
    ensures lowLevelExecCalls == 1
    ensures resetCalls == 1 && backOffCalls == 1
    ensures handlerCalled
  {
    var transport := new MockTransport(FailThenSuccessBackoffTransport(StatusServerError, 5));
    var handler := new MockUnsuccessfulResponseHandler(false);
    var policy := new MockBackOffPolicy();
    policy.returnBackOffStop := true;
    var request := new HttpRequest(transport, GET, "http://not/used", None, defaultRetries);
    request.unsuccessfulResponseHandler := handler;
    request.backOffPolicy := policy;
    ghost var cfg, w := Engine.Config(true, false, true, false), Engine.World(Engine.Request("http://not/used", GET, NoHeaders, None),
      Some(PolicyState(0, 0, true)), Some(HandlerState(false, false)),
      TransportState(FailThenSuccessBackoffTransport(StatusServerError, 5), 0, []));
    assert request.Config() == cfg && request.State() == w;
    outcome := request.Execute();
    ExecuteStopsOnBackOffStop(cfg, w, defaultRetries);
    lowLevelExecCalls, handlerCalled := transport.lowLevelExecCalls, handler.isCalled;
    resetCalls, backOffCalls := policy.resetCalls, policy.backOffCalls;
  }

  // ---------------------------------------------------------------------------
  // handleRedirect on its own
  // ---------------------------------------------------------------------------

  /** The credentials and conditions the handleRedirect test sets on its request. */
  const TestHeaders := Headers(Some("auth"), Some("etag"), Some("etag"), Some("date"), Some("date"), Some("range"), None)

  /** testHandleRedirect, first part: the 200 that execute returns is not redirected. */
  method TestHandleRedirectOk(defaultRetries: nat) returns (redirected: bool, url: string)
    ensures !redirected && url == "http://not/used"
  {
    var transport := new MockTransport(StatusCodesTransport(StatusOk));
    var request := new HttpRequest(transport, GET, "http://not/used", None, defaultRetries);
    ghost var cfg, w := Engine.Config(true, false, true, false),
      Engine.World(Engine.Request("http://not/used", GET, NoHeaders, None), None, None,
                   TransportState(StatusCodesTransport(StatusOk), 0, []));
    assert request.Config() == cfg && request.State() == w;
    var outcome := request.Execute();
    ExecuteStatusCodes(cfg, w, defaultRetries);
    redirected := request.HandleRedirect(outcome.response.statusCode, outcome.response.headers);
    url := request.url;
  }

  /** testHandleRedirect, subtestRedirect with a Location: execute returns the
      redirect status (it is not thrown, and without a Location it is not
      followed); the test then adds the Location, and handleRedirect follows it and
      clears the six headers the test set. */
  method SubtestRedirectWithLocation(defaultRetries: nat, statusCode: int)
    returns (redirected: bool, headers: Headers, url: string)
    requires IsRedirect(statusCode)
    ensures redirected && CredentialsAndConditionsCleared(headers) && url == "http://redirect/location"
  {
    var transport := new MockTransport(StatusCodesTransport(statusCode));
    var request := new HttpRequest(transport, GET, "http://not/used", None, defaultRetries);
    request.throwExceptionOnExecuteError := false;
    request.headers := TestHeaders;
    ghost var before := Engine.Request("http://not/used", GET, TestHeaders, None);
    ghost var cfg, w := Engine.Config(true, false, false, false),
      Engine.World(before, None, None, TransportState(StatusCodesTransport(statusCode), 0, []));
    assert request.Config() == cfg && request.State() == w;
    var outcome := request.Execute();
    ExecuteStatusCodes(cfg, w, defaultRetries);
    assert outcome == Engine.Returned(Plain(statusCode)) && request.Value() == before;
    var responseHeaders := outcome.response.headers.(location := Some("http://redirect/location"));
    HandleRedirectFollows(before, statusCode);
    redirected := request.HandleRedirect(outcome.response.statusCode, responseHeaders);
    headers, url := request.headers, request.url;
  }

  /** testHandleRedirect, subtestRedirect without a Location (a 307 in the test):
      neither execute nor handleRedirect changes the request. */
  method SubtestRedirectWithoutLocation(defaultRetries: nat, statusCode: int)
    returns (redirected: bool, headers: Headers, url: string)
    requires IsRedirect(statusCode)
    ensures !redirected && headers == TestHeaders && url == "http://not/used"
  {
    var transport := new MockTransport(StatusCodesTransport(statusCode));
    var request := new HttpRequest(transport, GET, "http://not/used", None, defaultRetries);
    request.throwExceptionOnExecuteError := false;
    request.headers := TestHeaders;
    ghost var before := Engine.Request("http://not/used", GET, TestHeaders, None);
    ghost var cfg, w := Engine.Config(true, false, false, false),
      Engine.World(before, None, None, TransportState(StatusCodesTransport(statusCode), 0, []));
    assert request.Config() == cfg && request.State() == w;
    var outcome := request.Execute();
    ExecuteStatusCodes(cfg, w, defaultRetries);
    assert outcome == Engine.Returned(Plain(statusCode)) && request.Value() == before;
    redirected := request.HandleRedirect(outcome.response.statusCode, outcome.response.headers);
    headers, url := request.headers, request.url;
  }

  /** testHandleRedirect_relativeLocation: a 303 to each of the five locations from
      http://some.org/a/b. */
  method TestRelativeLocation(defaultRetries: nat, relLocation: string) returns (url: string)
    requires relLocation in {"z", "z/", "/z", "x/z", "http://other.org/c"}
    ensures relLocation == "z" ==> url == "http://some.org/a/z"
    ensures relLocation == "z/" ==> url == "http://some.org/a/z/"
    ensures relLocation == "/z" ==> url == "http://some.org/z"
    ensures relLocation == "x/z" ==> url == "http://some.org/a/x/z"
    ensures relLocation == "http://other.org/c" ==> url == "http://other.org/c"
  {
    var transport := new MockTransport(StatusCodesTransport(StatusOk));
    var request := new HttpRequest(transport, GET, "http://some.org/a/b", None, defaultRetries);
    var _ := request.HandleRedirect(StatusSeeOther, ResponseHeaders(Some(relLocation)));
    url := request.url;
    Uri.RelativeLocationExamples();
  }
}
