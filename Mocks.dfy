/**
 * The scripted, deterministic environment of the engine: the mock transports,
 * the mock backoff policy and the mock unsuccessful-response handler that the
 * request tests drive it with. Each mock is a class with the counters the tests
 * read; each class method is tied to a function on the mock's state.
 */
module Mocks {
  import opened Wrappers
  import opened Http

  /** The URL every RedirectTransport redirect points to (HttpTesting.SIMPLE_URL). */
  const SimpleUrl: string := "http://google.com"

  /** Which of the test transports answers, with its configuration. */
  datatype Script =
    | RedirectTransport(removeLocation: bool, infiniteRedirection: bool, redirectStatusCode: int)
    | FailThenSuccessBackoffTransport(errorStatusCode: int, callsBeforeSuccess: int)
    | FailThenSuccessConnectionErrorTransport(callsBeforeSuccess: int)
    | StatusCodesTransport(statusCode: int)

  /** A plain response with no headers; a mock response's status defaults to 200. */
  function Plain(statusCode: int): Response {
    Response(statusCode, ResponseHeaders(None))
  }

  /** What the transport answers on its n-th low-level call (n counts from 1, after
      the call counter is incremented). */
  function Respond(script: Script, n: nat): LowLevelResult {
    match script
    case RedirectTransport(removeLocation, infiniteRedirection, redirectStatusCode) =>
      if infiniteRedirection || n == 1 then
        LowLevelResponse(Response(redirectStatusCode,
          ResponseHeaders(if removeLocation then None else Some(SimpleUrl))))
      else LowLevelResponse(Plain(StatusOk))
    case FailThenSuccessBackoffTransport(errorStatusCode, callsBeforeSuccess) =>
      if n <= callsBeforeSuccess then LowLevelResponse(Plain(errorStatusCode))
      else LowLevelResponse(Plain(StatusOk))
    case FailThenSuccessConnectionErrorTransport(callsBeforeSuccess) =>
      if n <= callsBeforeSuccess then LowLevelIOException
      else LowLevelResponse(Plain(StatusOk))
    case StatusCodesTransport(statusCode) =>
      LowLevelResponse(Plain(statusCode))
  }

  /** A transport's observable state: its script, how often it was called, and the
      User-Agent values of the last request it saw. */
  datatype TransportState = TransportState(script: Script, lowLevelExecCalls: nat, userAgentHeader: seq<string>)

  /** The header values a single optional header contributes. */
  function HeaderValues(value: Option<string>): seq<string> {
    if value.Some? then [value.value] else []
  }

  /** One low-level call: the counter goes up, the User-Agent sent is recorded,
      and the script decides the answer. */
  function Transmit(t: TransportState, userAgent: Option<string>): (r: (TransportState, LowLevelResult)) {
    var calls := t.lowLevelExecCalls + 1;
    (TransportState(t.script, calls, HeaderValues(userAgent)), Respond(t.script, calls))
  }

  class MockTransport {
    const script: Script
    var lowLevelExecCalls: nat
    var userAgentHeader: seq<string>

    constructor (script: Script)
      ensures State() == TransportState(script, 0, [])
    {
      this.script := script;
      lowLevelExecCalls := 0;
      userAgentHeader := [];
    }

    function State(): TransportState
      reads this
    {
      TransportState(script, lowLevelExecCalls, userAgentHeader)
    }

    /** Builds and executes one low-level request carrying the given User-Agent. */
    method Execute(userAgent: Option<string>) returns (result: LowLevelResult)
      modifies this
      ensures (State(), result) == Transmit(old(State()), userAgent)
    {
      lowLevelExecCalls := lowLevelExecCalls + 1;
      userAgentHeader := HeaderValues(userAgent);
      result := Respond(script, lowLevelExecCalls);
    }
  }

  /** The value getNextBackOffMillis returns to say that the policy gives up (BackOffPolicy.STOP). */
  const Stop: int := -1

  /** The mock policy only backs off on 500 and 503, which are neither successes
      nor redirects. */
  predicate IsBackOffRequired(statusCode: int)
    ensures IsBackOffRequired(statusCode) ==> !IsSuccess(statusCode) && !IsRedirect(statusCode)
  {
    statusCode == StatusServerError || statusCode == StatusServiceUnavailable
  }

  datatype PolicyState = PolicyState(backOffCalls: nat, resetCalls: nat, returnBackOffStop: bool)

  function ResetPolicy(p: PolicyState): PolicyState {
    p.(resetCalls := p.resetCalls + 1)
  }

  /** One getNextBackOffMillis call: counted, and answered with 0 or with Stop. */
  function NextBackOff(p: PolicyState): (r: (PolicyState, int)) {
    (p.(backOffCalls := p.backOffCalls + 1), if p.returnBackOffStop then Stop else 0)
  }

  class MockBackOffPolicy {
    var backOffCalls: nat
    var resetCalls: nat
    var returnBackOffStop: bool

    constructor ()
      ensures State() == PolicyState(0, 0, false)
    {
      backOffCalls, resetCalls, returnBackOffStop := 0, 0, false;
    }

    function State(): PolicyState
      reads this
    {
      PolicyState(backOffCalls, resetCalls, returnBackOffStop)
    }

    method Reset()
      modifies this
      ensures State() == ResetPolicy(old(State()))
    {
      resetCalls := resetCalls + 1;
    }

    method GetNextBackOffMillis() returns (millis: int)
      modifies this
      ensures (State(), millis) == NextBackOff(old(State()))
    {
      backOffCalls := backOffCalls + 1;
      millis := if returnBackOffStop then Stop else 0;
    }
  }

  /** The mock handler remembers that it was asked and answers with the flag it was built with. */
  datatype HandlerState = HandlerState(successfullyHandleResponse: bool, isCalled: bool)

  function Consult(h: HandlerState, response: Response, supportsRetry: bool): (r: (HandlerState, bool)) {
    (h.(isCalled := true), h.successfullyHandleResponse)
  }

  class MockUnsuccessfulResponseHandler {
    const successfullyHandleResponse: bool
    var isCalled: bool

    constructor (successfullyHandleResponse: bool)
      ensures State() == HandlerState(successfullyHandleResponse, false)
    {
      this.successfullyHandleResponse := successfullyHandleResponse;
      isCalled := false;
    }

    function State(): HandlerState
      reads this
    {
      HandlerState(successfullyHandleResponse, isCalled)
    }

    method HandleResponse(response: Response, supportsRetry: bool) returns (handled: bool)
      modifies this
      ensures (State(), handled) == Consult(old(State()), response, supportsRetry)
    {
      isCalled := true;
      handled := successfullyHandleResponse;
    }
  }
}
