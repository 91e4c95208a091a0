# HttpRequest execution engine — a verified model

This project models the request-execution engine of the Google HTTP Client
Library for Java, as its `HttpRequest` test suite pins it down.

`HttpRequest.execute()` sends a request through a transport and retries it
under one shared budget (`numberOfRetries`). It retries when:

- the transport throws an `IOException` and `retryOnExecuteIOException` is set;
- the unsuccessful-response handler claims the response;
- the backoff policy asks for a delay (and does not answer `STOP`);
- `handleRedirect` follows a redirect, rewriting the request in place.

The backoff policy is reset once per call. The User-Agent suffix is added for
each transmission only. The test suite's stateful mocks are the engine's
environment: they are scripted, deterministic classes whose counters are what
the tests assert.

The project has these modules:

- `Http`: status codes, methods, the seven request headers the engine touches,
  responses, and how the User-Agent is staged.
- `Mocks`: the mock transports (redirecting, fail-then-succeed with a status,
  fail-then-succeed with a connection error, fixed status), the mock backoff
  policy and the mock unsuccessful-response handler. Each is a class, and every
  class method is tied to a function on the mock's state.
- `Uri`: how a `Location` value is resolved against the request URL, after
  RFC 3986. It covers the component split of appendix B, recomposition
  (section 5.3), reference resolution (section 5.2.2) and path merging
  (section 5.2.3). It proves that splitting a well-formed reference's text gives
  the reference back.
- `Engine`: the engine as pure functions of the state it runs in. `Attempt` is
  one transmission plus the handling of its result. `Triage` consults the
  handler, then the backoff policy, then redirects. `Redirect` is
  handleRedirect's rewrite. `Loop` is the retry loop and `Execute` is the whole
  call.
- `Requests`: the mutable `HttpRequest` class. Its `Execute`, `AttemptOnce`,
  `HandleUnsuccessful`, `Send` and `HandleRedirect` methods update the request
  and the mocks in place. Each is proved to leave exactly the state and outcome
  the `Engine` function gives.
- `EngineProperties`: the counting and ordering facts the tests assert, proved
  for every budget and script length.
- `Scenarios`: each test as client code on the objects. A scenario builds the
  mocks and the request, calls `Execute` or `HandleRedirect`, and its contract
  states the values the test asserts.

One choice is decided by the tests:

- The request's `numberOfRetries` is not decremented. The budget is a local
  countdown, because `testInfiniteRedirects` reads `getNumberOfRetries() + 1`
  back after the call (HttpRequestTest.java:278).

Two further choices are the model's own. No test tells them apart from the
alternatives:

- The handler is asked about every unsuccessful response, even with no budget
  left, and is told whether a retry is still possible. The backoff policy and
  redirects are consulted only while budget remains. An engine could instead
  skip all three checks (handler, backoff, redirect) once the budget is zero.
  The flag the handler receives, saying whether a retry is still possible, only
  matters if the handler can be asked with no budget left, so the model asks it.
  The tests cannot tell the two readings apart. In
  `testBackOffCallsBeyondRetryLimit` (HttpRequestTest.java:600-621) the handler
  has already been called on the ten earlier failures. Every other handler test
  (HttpRequestTest.java:199-221, 526-559, 623-668) has budget left when it asks.
- When the policy backs off on a status and answers `STOP`, the call ends
  without consulting redirects. The mock policy backs off only on 500 and 503
  (HttpRequestTest.java:117-125, `Mocks.IsBackOffRequired`), which are never
  redirect codes. So no test can observe this.

## Model

| member | source | states |
|---|---|---|
| Http.WithoutCredentialsAndConditions | google-http-client/src/test/java/com/google/api/client/http/HttpRequestTest.java:423-429 | The rewritten headers have Authorization and all five If-* headers cleared; the User-Agent is kept. |
| Http.StagedUserAgent | google-http-client/src/test/java/com/google/api/client/http/HttpRequestTest.java:866-906 | The value sent is the configured value unchanged when the suffix is suppressed. Otherwise it always ends in the suffix, and a configured value is followed by one space and the suffix. |
| Http.StagedUserAgentCases | google-http-client/src/test/java/com/google/api/client/http/HttpRequestTest.java:882-905 | The four cases of testSuppressUserAgentSuffix: no value gives the suffix alone or nothing; "Testing" gives "Testing " + suffix or "Testing". |
| Mocks.MockTransport.constructor | google-http-client/src/test/java/com/google/api/client/http/HttpRequestTest.java:143-185 | A new transport has made no call and seen no User-Agent. |
| Mocks.MockTransport.Execute | google-http-client/src/test/java/com/google/api/client/http/HttpRequestTest.java:154-171 | One model class stands for all four test transports, which share the shape of lowLevelExecute. One low-level call increments the counter, records the User-Agent values of the request, and answers as the script says for that call number. Scripts: a redirect (with or without Location) on the first or on every call; n failing statuses then 200 (310-327); n IOExceptions then 200 (345-360); a fixed status (372-381). The model class keeps a call counter and a User-Agent record for every script. In the source only FailThenSuccessConnectionErrorTransport records User-Agent values (338, 352), and StatusCodesTransport has no counter (366-387). No test reads the extra state. |
| Mocks.MockBackOffPolicy.constructor | google-http-client/src/test/java/com/google/api/client/http/HttpRequestTest.java:108-115 | A new policy has zero reset and backoff calls and does not answer STOP. |
| Mocks.MockBackOffPolicy.Reset | google-http-client/src/test/java/com/google/api/client/http/HttpRequestTest.java:127-129 | reset() increments resetCalls and changes nothing else. |
| Mocks.MockBackOffPolicy.GetNextBackOffMillis | google-http-client/src/test/java/com/google/api/client/http/HttpRequestTest.java:131-137 | getNextBackOffMillis() increments backOffCalls and returns STOP (-1) when so configured, 0 otherwise. |
| Mocks.IsBackOffRequired | google-http-client/src/test/java/com/google/api/client/http/HttpRequestTest.java:117-125 | The mock policy backs off only on 500 and 503, which are neither successes nor redirects. |
| Mocks.Respond | google-http-client/src/test/java/com/google/api/client/http/HttpRequestTest.java:154-171 | The answer to the n-th call for each of the four scripts: RedirectTransport (154-171), FailThenSuccessBackoffTransport (310-325), FailThenSuccessConnectionErrorTransport (349-361) and StatusCodesTransport (376-380). What each script gives over a whole run is stated by AttemptFollowsRedirect, ServerErrorsBackedOff, ConnectionErrorsRetried and ExecuteStatusCodes. |
| Mocks.MockUnsuccessfulResponseHandler.constructor | google-http-client/src/test/java/com/google/api/client/http/HttpRequestTest.java:199-200 | A new handler has not been called and keeps the answer it was built with. |
| Mocks.MockUnsuccessfulResponseHandler.HandleResponse | google-http-client/src/test/java/com/google/api/client/http/HttpRequestTest.java:219-220 | Asking the handler marks it called and yields the answer it was built with. |
| Uri.IndexOfAny | google-http-client/src/test/java/com/google/api/client/http/HttpRequestTest.java:443-460 | The result is the position of the first stop character, or the length when there is none. |
| Uri.Parse | google-http-client/src/test/java/com/google/api/client/http/HttpRequestTest.java:443-460 | Every text splits into scheme, authority, path, query and fragment, and writing the split back out gives the text. ParseWellFormed adds that the split is well-formed. |
| Uri.ParseRecompose | google-http-client/src/test/java/com/google/api/client/http/HttpRequestTest.java:443-460 | Splitting the text of a well-formed reference gives that reference back, so Parse and Recompose are inverse on well-formed references. |
| Uri.ParseWellFormed | google-http-client/src/test/java/com/google/api/client/http/HttpRequestTest.java:443-460 | The split of any text is a well-formed reference. With Parse's contract and ParseRecompose, Parse and Recompose are inverse bijections between texts and well-formed references. |
| Uri.Directory | google-http-client/src/test/java/com/google/api/client/http/HttpRequestTest.java:443-460 | The directory of a path is its longest prefix ending in '/', with no '/' after it, or empty. |
| Uri.Merge | google-http-client/src/test/java/com/google/api/client/http/HttpRequestTest.java:444-447 | Section 5.2.3 of RFC 3986: the merged path ends in the reference path. Before it comes the base path up to and including its last '/', or "/" when the base has an authority and an empty path. |
| Uri.Resolve | google-http-client/src/test/java/com/google/api/client/http/HttpRequestTest.java:443-460 | A Location text resolved against the request URL. Its rules are in ResolveWithScheme, ResolveRootRelative and ResolveDirectoryRelative, and its five test cases in RelativeLocationExamples. |
| Uri.ResolveReference | google-http-client/src/test/java/com/google/api/client/http/HttpRequestTest.java:443-460 | The target always takes the reference's fragment. |
| Uri.ResolveReferenceRules | google-http-client/src/test/java/com/google/api/client/http/HttpRequestTest.java:443-460 | The rules of section 5.2.2 of RFC 3986, apart from dot-segment removal. A reference with a scheme is its own target. Otherwise the scheme comes from the base. A reference with an authority keeps its own authority, path and query. Without an authority, the authority comes from the base, and so does the path: an empty reference path keeps the base path, a path starting with '/' is the target path, and any other path is Merge(base, path). The base query is kept only for an empty reference with no query. |
| Uri.ResolveAbsolute | google-http-client/src/test/java/com/google/api/client/http/HttpRequestTest.java:448-449 | A location with a scheme resolves to itself from any base. |
| Uri.ResolveRootRelative | google-http-client/src/test/java/com/google/api/client/http/HttpRequestTest.java:446 | A location with no ':', '?' or '#' that starts with a single '/' keeps the base's scheme and authority and replaces its path. |
| Uri.ResolveDirectoryRelative | google-http-client/src/test/java/com/google/api/client/http/HttpRequestTest.java:444-447 | A location with no ':', '?' or '#' that does not start with '/' keeps the base's scheme and authority, and its path is Merge of the base path and the location. Other relative locations, such as "z?q", are covered by ResolveReferenceRules. |
| Uri.ParseSchemeOf | google-http-client/src/test/java/com/google/api/client/http/HttpRequestTest.java:448-449 | A text that starts with a non-empty scheme (no ':', '/', '?' or '#' in it) and a ':' splits with exactly that scheme. |
| Uri.ResolveWithScheme | google-http-client/src/test/java/com/google/api/client/http/HttpRequestTest.java:448-449 | A location written with a scheme resolves to itself from any base. |
| Uri.RelativeLocationExamples | google-http-client/src/test/java/com/google/api/client/http/HttpRequestTest.java:443-450 | From http://some.org/a/b: z, z/, /z, x/z and http://other.org/c resolve to http://some.org/a/z, http://some.org/a/z/, http://some.org/z, http://some.org/a/x/z and http://other.org/c. |
| Uri.AbsoluteLocationExample | google-http-client/src/test/java/com/google/api/client/http/HttpRequestTest.java:418-430 | The absolute Location http://redirect/location resolves to itself from any URL. |
| Engine.Redirect | google-http-client/src/test/java/com/google/api/client/http/HttpRequestTest.java:247-262 | handleRedirect follows exactly when redirects are followed, the code is 301/302/303/307 and a Location is present. The URL becomes the resolved Location and credentials and conditions are dropped. A 303 on a POST becomes a body-less GET; otherwise method and content are kept. |
| Engine.Triage | google-http-client/src/test/java/com/google/api/client/http/HttpRequestTest.java:526-668 | An unsuccessful response is retried only with budget left; if it is not retried, the call ends with it (thrown or returned as configured). Triage leaves the transport alone, never resets the policy, asks at most one delay, and leaves the User-Agent as it was. The request changes only when handleRedirect follows the response and the rewritten request is retried. |
| Engine.Attempt | google-http-client/src/test/java/com/google/api/client/http/HttpRequestTest.java:462-524 | One pass makes exactly one transmission, carrying the staged User-Agent. It retries only with budget left, asks at most one delay, and never resets the policy. |
| Engine.Dispatch | google-http-client/src/test/java/com/google/api/client/http/HttpRequestTest.java:462-508 | A transport IOException is retried only with I/O retry on and budget left, and otherwise propagates. A success is returned. Anything else goes to Triage. Its cases are stated by ConnectionErrorsRetried, ExecuteDoesNotRetryConnectionErrors and AttemptSucceeds. |
| Engine.Loop | google-http-client/src/test/java/com/google/api/client/http/HttpRequestTest.java:264-279 | The retry loop: attempts until one finishes, each retry costing one unit of the shared budget. LoopCounts states its counting laws, UserAgentStagedPerTransmission its User-Agent law, and RequestRewrittenOnlyByRedirects the rule that only redirects rewrite the request. |
| Engine.Execute | google-http-client/src/test/java/com/google/api/client/http/HttpRequestTest.java:561-621 | execute resets the policy once and runs the loop with the request's budget. ExecuteCounts states one reset and at most numberOfRetries + 1 transmissions. |
| Requests.HttpRequest.constructor | google-http-client/src/test/java/com/google/api/client/http/HttpRequestTest.java:497-499 | A built request follows redirects, throws on unsuccessful responses, does not retry I/O failures, adds the User-Agent suffix, has no handler or policy, and has the factory's retry budget. |
| Requests.HttpRequest.SetContentLoggingLimit | google-http-client/src/test/java/com/google/api/client/http/HttpRequestTest.java:842-848 | A negative limit is refused (IllegalArgumentException) and leaves the limit unchanged; any other limit is taken. |
| Requests.HttpRequest.SetValue | google-http-client/src/test/java/com/google/api/client/http/HttpRequestTest.java:418-430 | The request's URL, method, headers and content become the given ones. |
| Requests.HttpRequest.HandleRedirect | google-http-client/src/test/java/com/google/api/client/http/HttpRequestTest.java:389-460 | handleRedirect returns whether it followed, and the request afterwards is Engine.Redirect's rewrite, or unchanged when it did not follow. |
| Requests.HttpRequest.Send | google-http-client/src/test/java/com/google/api/client/http/HttpRequestTest.java:510-524 | One transmission carries the staged User-Agent. Afterwards the request's own User-Agent is restored and only the transport has changed. |
| Requests.HttpRequest.AttemptOnce | google-http-client/src/test/java/com/google/api/client/http/HttpRequestTest.java:462-508 | One pass of the loop on the objects does what Engine.Attempt says: the retry decision, the outcome and the new state of request and mocks. |
| Requests.HttpRequest.HandleUnsuccessful | google-http-client/src/test/java/com/google/api/client/http/HttpRequestTest.java:526-668 | The handler is asked first, then (with budget) the policy for statuses it backs off on, else handleRedirect. The retry decision and new state are Engine.Triage's. |
| Requests.HttpRequest.Execute | google-http-client/src/test/java/com/google/api/client/http/HttpRequestTest.java:187-668 | execute resets the policy and loops under the local budget; its outcome and final state of request and mocks are exactly Engine.Execute's. |
| EngineProperties.LoopCounts | google-http-client/src/test/java/com/google/api/client/http/HttpRequestTest.java:264-279 | The loop transmits exactly once more than it retries, spends at most the budget, never resets the policy, and asks at most one delay per transmission. |
| EngineProperties.ExecuteCounts | google-http-client/src/test/java/com/google/api/client/http/HttpRequestTest.java:561-621 | execute resets the policy exactly once and transmits at most numberOfRetries + 1 times. |
| EngineProperties.UserAgentStagedPerTransmission | google-http-client/src/test/java/com/google/api/client/http/HttpRequestTest.java:510-524 | However many retries and redirects happen, each transmission carries the staged User-Agent and the request's own User-Agent is unchanged. |
| EngineProperties.AttemptRewritesOnlyByRedirect | google-http-client/src/test/java/com/google/api/client/http/HttpRequestTest.java:223-294 | One attempt leaves the request as it was, unless its response is one handleRedirect follows and the attempt retries with the rewritten request. |
| EngineProperties.RequestRewrittenOnlyByRedirects | google-http-client/src/test/java/com/google/api/client/http/HttpRequestTest.java:223-294 | A whole loop ends with the request it started with, unless redirects are followed. In that case the final request has credentials and conditions dropped and keeps its User-Agent. |
| EngineProperties.HandlerClaimsFirst | google-http-client/src/test/java/com/google/api/client/http/HttpRequestTest.java:199-221 | A handler that claims every response takes every retry: the policy is never asked and the request is never rewritten. |
| EngineProperties.ConnectionErrorsRetried | google-http-client/src/test/java/com/google/api/client/http/HttpRequestTest.java:462-491 | With I/O retry on: if the failures ahead fit the budget, the call reaches the 200 after failures + 1 transmissions; otherwise it ends in IOException after budget + 1. Only the transport changes. |
| EngineProperties.ExecuteRetriesConnectionErrors | google-http-client/src/test/java/com/google/api/client/http/HttpRequestTest.java:462-491 | N IOExceptions then success: a budget of at least N gives N + 1 transmissions and success; a smaller budget gives budget + 1 transmissions and IOException. |
| EngineProperties.ExecuteDoesNotRetryConnectionErrors | google-http-client/src/test/java/com/google/api/client/http/HttpRequestTest.java:493-508 | With I/O retry off, an IOException ends execute after one transmission, whatever the budget. |
| EngineProperties.AttemptBacksOff | google-http-client/src/test/java/com/google/api/client/http/HttpRequestTest.java:561-598 | A 500/503 with budget left and a declining handler asks exactly one delay and retries the same request. |
| EngineProperties.ServerErrorsBackedOff | google-http-client/src/test/java/com/google/api/client/http/HttpRequestTest.java:561-621 | Failures the policy backs off on each cost one retry and one delay. Enough budget gives failures + 1 transmissions and failures delays; too little gives budget + 1 transmissions, budget delays, and the failure. |
| EngineProperties.ExecuteBacksOff | google-http-client/src/test/java/com/google/api/client/http/HttpRequestTest.java:561-621 | k 500s then 200 with a declining handler: one reset and the request unchanged; k + 1 transmissions and k delays when k fits the budget; budget + 1 transmissions, budget delays and the thrown 500 when it does not. |
| EngineProperties.ExecuteStopsOnBackOffStop | google-http-client/src/test/java/com/google/api/client/http/HttpRequestTest.java:645-668 | With any positive budget, a policy answering STOP ends execute after one transmission and exactly one delay request, and the request is unchanged. With a zero budget the policy is not asked at all (TriageWithoutBudget). |
| EngineProperties.ExecuteUnrecognizedStatus | google-http-client/src/test/java/com/google/api/client/http/HttpRequestTest.java:623-643 | A failure the policy does not back off on that is no redirect (401) gives one transmission, no delay, one reset, and the handler asked. |
| EngineProperties.HandlerRetriesFailures | google-http-client/src/test/java/com/google/api/client/http/HttpRequestTest.java:526-559 | A handler that claims the failures takes the retries: the policy is never asked, and the transmission count and outcome follow the budget as for backoff. |
| EngineProperties.TriageWithoutBudget | google-http-client/src/test/java/com/google/api/client/http/HttpRequestTest.java:600-621 | With no budget left, an unsuccessful response ends the call; only the handler is asked. |
| EngineProperties.TriageRedirects | google-http-client/src/test/java/com/google/api/client/http/HttpRequestTest.java:223-294 | A response that neither handler nor policy takes is retried exactly when handleRedirect follows it, with the rewritten request. |
| EngineProperties.AttemptFollowsRedirect | google-http-client/src/test/java/com/google/api/client/http/HttpRequestTest.java:154-167 | A redirect from the redirecting transport, with budget left, rewrites the request as handleRedirect says and retries. |
| EngineProperties.AttemptSucceeds | google-http-client/src/test/java/com/google/api/client/http/HttpRequestTest.java:167-170 | An attempt whose transmission is answered with a 200 ends the loop with that 200, and only the transport changes. |
| EngineProperties.SimpleUrlIsAbsolute | google-http-client/src/test/java/com/google/api/client/http/HttpRequestTest.java:163 | The redirecting transport's Location resolves to itself from any URL. |
| EngineProperties.ExecuteFollowsRedirect | google-http-client/src/test/java/com/google/api/client/http/HttpRequestTest.java:187-262 | One redirect then 200: two transmissions and the 200. The policy is only reset. The request ends at the Location with credentials and conditions dropped, and a 303 POST becomes a body-less GET. |
| EngineProperties.ExecuteHandlerClaimsRedirect | google-http-client/src/test/java/com/google/api/client/http/HttpRequestTest.java:199-221 | A handler that claims the redirect takes the retry: two transmissions, the URL unchanged, no delay asked. |
| EngineProperties.EndlessRedirects | google-http-client/src/test/java/com/google/api/client/http/HttpRequestTest.java:264-279 | Endless redirects with a Location give budget + 1 transmissions and then the redirect response, and no delay is asked. |
| EngineProperties.ExecuteRedirectWithoutLocation | google-http-client/src/test/java/com/google/api/client/http/HttpRequestTest.java:281-294 | A redirect without a Location gives one transmission, the error, and an unchanged request. |
| EngineProperties.ExecuteStatusCodes | google-http-client/src/test/java/com/google/api/client/http/HttpRequestTest.java:366-402 | Against the fixed-status transport with no handler or policy, execute transmits once, ends with that status, and leaves the request unchanged. |
| EngineProperties.HandleRedirectDeclines | google-http-client/src/test/java/com/google/api/client/http/HttpRequestTest.java:389-402 | A 200, and a 307 without a Location, are not followed. |
| EngineProperties.HandleRedirectFollows | google-http-client/src/test/java/com/google/api/client/http/HttpRequestTest.java:404-431 | On a GET, any redirect code with Location http://redirect/location is followed to exactly that URL; only credentials and conditions change. |
| Scenarios.Test301Redirect | google-http-client/src/test/java/com/google/api/client/http/HttpRequestTest.java:187-197 | 200 returned after 2 transmissions. |
| Scenarios.Test301RedirectHandled | google-http-client/src/test/java/com/google/api/client/http/HttpRequestTest.java:199-221 | 200 after 2 transmissions; URL still http://gmail.com; 1 reset, 0 delays; handler called. |
| Scenarios.Test301RedirectNotHandled | google-http-client/src/test/java/com/google/api/client/http/HttpRequestTest.java:223-245 | 200 after 2 transmissions; URL is http://google.com; 1 reset, 0 delays. |
| Scenarios.Test303Redirect | google-http-client/src/test/java/com/google/api/client/http/HttpRequestTest.java:247-262 | 200 after 2 transmissions, and the POST became a GET. |
| Scenarios.TestInfiniteRedirects | google-http-client/src/test/java/com/google/api/client/http/HttpRequestTest.java:264-279 | HttpResponseException after getNumberOfRetries() + 1 transmissions. |
| Scenarios.TestMissingLocationRedirect | google-http-client/src/test/java/com/google/api/client/http/HttpRequestTest.java:281-294 | HttpResponseException after 1 transmission. |
| Scenarios.TestExecuteErrorWithRetryEnabled | google-http-client/src/test/java/com/google/api/client/http/HttpRequestTest.java:462-474 | 200 after 4 transmissions. |
| Scenarios.TestExecuteErrorBeyondRetryLimit | google-http-client/src/test/java/com/google/api/client/http/HttpRequestTest.java:476-491 | IOException after 11 transmissions. |
| Scenarios.TestExecuteErrorWithRetryDisabled | google-http-client/src/test/java/com/google/api/client/http/HttpRequestTest.java:493-508 | IOException after 1 transmission. |
| Scenarios.TestUserAgentWithRetries | google-http-client/src/test/java/com/google/api/client/http/HttpRequestTest.java:510-524 | 200 after 4 transmissions; the last carried exactly one User-Agent value, the suffix. |
| Scenarios.TestHandlerWithNoBackOff | google-http-client/src/test/java/com/google/api/client/http/HttpRequestTest.java:526-540 | 200 after 2 transmissions; handler called. |
| Scenarios.TestHandlerWithBackOff | google-http-client/src/test/java/com/google/api/client/http/HttpRequestTest.java:542-559 | 200 after 2 transmissions; 1 reset, 0 delays; handler called. |
| Scenarios.TestBackOffCalls | google-http-client/src/test/java/com/google/api/client/http/HttpRequestTest.java:561-598 | For any number of 500s the default budget allows (1 and 5 in the tests): 200 after callsBeforeSuccess + 1 transmissions; 1 reset; callsBeforeSuccess delays; handler called. |
| Scenarios.TestBackOffBeyondRetryLimit | google-http-client/src/test/java/com/google/api/client/http/HttpRequestTest.java:600-621 | For any callsBeforeSuccess (11 in the test) and a budget one smaller: HttpResponseException after callsBeforeSuccess transmissions; 1 reset; callsBeforeSuccess - 1 delays; handler called. |
| Scenarios.TestBackOffUnrecognizedStatus | google-http-client/src/test/java/com/google/api/client/http/HttpRequestTest.java:623-643 | HttpResponseException after 1 transmission; 1 reset; 0 delays; handler called. |
| Scenarios.TestBackOffStop | google-http-client/src/test/java/com/google/api/client/http/HttpRequestTest.java:645-668 | HttpResponseException after 1 transmission; 1 reset; 1 delay; handler called. |
| Scenarios.TestHandleRedirectOk | google-http-client/src/test/java/com/google/api/client/http/HttpRequestTest.java:389-395 | The 200 execute returns is not redirected and the URL stays http://not/used. |
| Scenarios.SubtestRedirectWithLocation | google-http-client/src/test/java/com/google/api/client/http/HttpRequestTest.java:404-431 | For 301/302/303/307 with a Location: followed; all six headers cleared; URL http://redirect/location. |
| Scenarios.SubtestRedirectWithoutLocation | google-http-client/src/test/java/com/google/api/client/http/HttpRequestTest.java:404-441 | Without a Location: not followed; the six headers keep the test's values; URL still http://not/used. |
| Scenarios.TestRelativeLocation | google-http-client/src/test/java/com/google/api/client/http/HttpRequestTest.java:443-460 | A 303 handled from http://some.org/a/b lands on each of the five expected URLs. |

## Left out

- `executeAsync`, its `Future` and `MockExecutor` (HttpRequestTest.java:97-106, 908-920): deferred execution and concurrency are outside a sequential model.
- Gzip and logging stream wrapping and the checks on class identity (HttpRequestTest.java:746-841). These are stream plumbing and logger configuration. Only the rejection of a negative content-logging limit is kept, as `SetContentLoggingLimit`.
- Reflective header serialization (HttpRequestTest.java:670-738) and `normalizeMediaType` (HttpRequestTest.java:741-744): they depend on an annotation-driven codec and a media-type parser. Headers other than Authorization, the five If-* headers and User-Agent are not modelled.
- The transport's method-support probe (HttpRequestTest.java:72-95): it depends on `MockHttpTransport`, which is not part of this model.
- `testUserAgent` (HttpRequestTest.java:852-855) only checks that the real suffix mentions the library and gzip. The model's suffix constant leaves out the library version number the real one carries.
- The sleep for the delay the policy returns: it is a no-op, since the mock policy answers 0. JSON response content and real transports and sockets are left out too.
- `HttpRequest.java`, `HttpResponse`, `HttpHeaders`, `GenericUrl` and `MockHttpUnsuccessfulResponseHandler` are not part of this model. The engine is modelled from the behaviour the tests assert. The handler mock is modelled as recording that it was called and answering with the flag it was built with.
- The request factory's default `numberOfRetries` is not visible, so it is a parameter of every scenario. Scenarios that need a retry assume it is positive. `TestBackOffCalls` assumes it covers the failures, which the library's default budget does for the 1 and 5 failures of the tests.
- Uri.ResolveReference: removal of dot segments (section 5.2.4 of RFC 3986) is not modelled. No test location contains "." or ".." segments, and resolution follows sections 5.2.2 and 5.2.3 otherwise. Percent-encoding and `GenericUrl` normalisation are left out too.
- Response bodies, `HttpResponse` parsing and `disconnect` are not modelled. Each execute outcome carries only the status code and the Location header.
