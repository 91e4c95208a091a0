/**
 * The request-execution engine as a function of the state it runs in: one
 * physical attempt (Attempt), the retry loop under the shared retry budget
 * (Loop), and the whole execute call (Execute), which resets the backoff policy
 * once before the first attempt. The imperative HttpRequest.Execute is proved to
 * leave exactly the state and outcome these functions give.
 */
module Engine {
  import opened Wrappers
  import opened Http
  import opened Mocks
  import Uri

  /** The part of a request that redirect handling may rewrite. */
  datatype Request = Request(url: string, requestMethod: Method, headers: Headers, content: Option<seq<byte>>)

  /** The flags that steer the loop; execute never changes them. */
  datatype Config = Config(
    followRedirects: bool,
    retryOnExecuteIOException: bool,
    throwExceptionOnExecuteError: bool,
    suppressUserAgentSuffix: bool)

  /** Everything an execute call reads and changes: the request, the optional
      policy and handler, and the transport. */
  datatype World = World(
    request: Request,
    policy: Option<PolicyState>,
    handler: Option<HandlerState>,
    transport: TransportState)

  /** How an execute call ends: a returned response, a propagated transport I/O
      failure, or an HttpResponseException carrying the final response. */
  datatype Outcome = Returned(response: Response) | IOException | HttpResponseException(response: Response)

  /** The result of one attempt: go round again, or stop with an outcome. */
  datatype Step = Retry(next: World) | Finish(outcome: Outcome, last: World) {
    function After(): World {
      if Retry? then next else last
    }
  }

  /** The result of the loop: its outcome, the final state, and the budget left. */
  datatype Run = Run(outcome: Outcome, world: World, remaining: nat)

  /** handleRedirect: a redirect status with a Location, while redirects are
      followed, sends the request to the resolved location; a 303 turns a POST
      into a body-less GET; credentials and conditions are dropped. */
  function Redirect(followRedirects: bool, request: Request, statusCode: int, headers: ResponseHeaders): (r: Option<Request>)
    ensures r.Some? <==> followRedirects && IsRedirect(statusCode) && headers.location.Some?
    ensures r.Some? ==> r.value.url == Uri.Resolve(request.url, headers.location.value)
    ensures r.Some? ==> CredentialsAndConditionsCleared(r.value.headers)
    ensures r.Some? ==> r.value.headers.userAgent == request.headers.userAgent
    ensures r.Some? && statusCode == StatusSeeOther && request.requestMethod == POST ==>
              r.value.requestMethod == GET && r.value.content.None?
    ensures r.Some? && !(statusCode == StatusSeeOther && request.requestMethod == POST) ==>
              r.value.requestMethod == request.requestMethod && r.value.content == request.content
  {
    if followRedirects && IsRedirect(statusCode) && headers.location.Some? then
      var seeOtherPost := statusCode == StatusSeeOther && request.requestMethod == POST;
      Some(Request(
        Uri.Resolve(request.url, headers.location.value),
        if seeOtherPost then GET else request.requestMethod,
        WithoutCredentialsAndConditions(request.headers),
        if seeOtherPost then None else request.content))
    else None
  }

  /** Whether handleRedirect follows this response. */
  predicate RedirectFollowed(cfg: Config, request: Request, response: Response) {
    Redirect(cfg.followRedirects, request, response.statusCode, response.headers).Some?
  }

  /** The rewritten request when handleRedirect follows this response. */
  function RedirectOf(cfg: Config, request: Request, response: Response): Request
    requires RedirectFollowed(cfg, request, response)
  {
    Redirect(cfg.followRedirects, request, response.statusCode, response.headers).value
  }

  /** How execute ends on an unsuccessful response that is not retried: thrown or returned, as configured. */
  function Unsuccessful(cfg: Config, response: Response): Outcome {
    if cfg.throwExceptionOnExecuteError then HttpResponseException(response) else Returned(response)
  }

  function GiveUp(cfg: Config, response: Response, w: World): Step {
    Finish(Unsuccessful(cfg, response), w)
  }

  /** An unsuccessful response with `remaining` retries left. The handler is asked
      first (it is told whether a retry is still possible); then, while budget
      remains, the backoff policy for the codes it recognises, and otherwise
      redirect handling. Any of them may claim the retry; only budget allows it. */
  function Triage(cfg: Config, w: World, response: Response, remaining: nat): (s: Step)
    ensures s.Retry? ==> remaining > 0
    ensures s.Finish? ==> s.outcome == Unsuccessful(cfg, response)
    ensures s.After().transport == w.transport
    ensures s.After().policy.Some? == w.policy.Some?
    ensures s.After().policy.Some? ==>
              s.After().policy.value.resetCalls == w.policy.value.resetCalls
              && s.After().policy.value.returnBackOffStop == w.policy.value.returnBackOffStop
              && w.policy.value.backOffCalls <= s.After().policy.value.backOffCalls <= w.policy.value.backOffCalls + 1
    ensures s.After().handler.Some? == w.handler.Some?
    ensures s.After().handler.Some? ==>
              s.After().handler.value.successfullyHandleResponse == w.handler.value.successfullyHandleResponse
    ensures s.After().request.headers.userAgent == w.request.headers.userAgent
    ensures s.After().request == w.request
            || (s.Retry? && RedirectFollowed(cfg, w.request, response) && s.next.request == RedirectOf(cfg, w.request, response))
  {
    var retrySupported := remaining > 0;
    var (consulted, handled) :=
      if w.handler.Some? then
        var (h, b) := Consult(w.handler.value, response, retrySupported);
        (w.(handler := Some(h)), b)
      else (w, false);
    if handled then
      if retrySupported then Retry(consulted) else GiveUp(cfg, response, consulted)
    else if !retrySupported then GiveUp(cfg, response, consulted)
    else if w.policy.Some? && IsBackOffRequired(response.statusCode) then
      var (policy, millis) := NextBackOff(w.policy.value);
      var backedOff := consulted.(policy := Some(policy));
      if millis != Stop then Retry(backedOff) else GiveUp(cfg, response, backedOff)
    else
      var redirected := Redirect(cfg.followRedirects, w.request, response.statusCode, response.headers);
      if redirected.Some? then Retry(consulted.(request := redirected.value))
      else GiveUp(cfg, response, consulted)
  }

  /** One pass of the loop with `remaining` retries left: one transmission, carrying
      the staged User-Agent; a transport failure is retried only when so configured
      and budget remains; a successful response ends the loop. */
  function Attempt(cfg: Config, w: World, remaining: nat): (s: Step)
    ensures s.Retry? ==> remaining > 0
    ensures s.After().transport.script == w.transport.script
    ensures s.After().transport.lowLevelExecCalls == w.transport.lowLevelExecCalls + 1
    ensures s.After().policy.Some? == w.policy.Some?
    ensures s.After().policy.Some? ==>
              s.After().policy.value.resetCalls == w.policy.value.resetCalls
              && s.After().policy.value.returnBackOffStop == w.policy.value.returnBackOffStop
              && w.policy.value.backOffCalls <= s.After().policy.value.backOffCalls <= w.policy.value.backOffCalls + 1
    ensures s.After().handler.Some? == w.handler.Some?
    ensures s.After().handler.Some? ==>
              s.After().handler.value.successfullyHandleResponse == w.handler.value.successfullyHandleResponse
    ensures s.After().request.headers.userAgent == w.request.headers.userAgent
    ensures s.After().transport.userAgentHeader
              == HeaderValues(StagedUserAgent(w.request.headers.userAgent, cfg.suppressUserAgentSuffix))
  {
    var staged := StagedUserAgent(w.request.headers.userAgent, cfg.suppressUserAgentSuffix);
    var (transport, result) := Transmit(w.transport, staged);
    Dispatch(cfg, w.(transport := transport), result, remaining)
  }

  /** What one pass does with the result of its transmission: a connection error is
      retried when so configured and budget is left, a successful response is
      returned, anything else goes to Triage. */
  function Dispatch(cfg: Config, sent: World, result: LowLevelResult, remaining: nat): Step {
    if result.LowLevelIOException? then
      if cfg.retryOnExecuteIOException && remaining > 0 then Retry(sent) else Finish(IOException, sent)
    else if IsSuccess(result.response.statusCode) then Finish(Returned(result.response), sent)
    else Triage(cfg, sent, result.response, remaining)
  }

  /** The retry loop: attempts until one finishes; every retry costs one unit of budget. */
  function Loop(cfg: Config, w: World, remaining: nat): (r: Run)
    decreases remaining
  {
    match Attempt(cfg, w, remaining)
    case Finish(outcome, last) => Run(outcome, last, remaining)
    case Retry(next) => Loop(cfg, next, remaining - 1)
  }

  /** The backoff policy, if there is one, after its reset. */
  function Reset(policy: Option<PolicyState>): Option<PolicyState> {
    if policy.Some? then Some(ResetPolicy(policy.value)) else None
  }

  /** execute: reset the policy once, then loop with the request's retry budget. */
  function Execute(cfg: Config, w: World, numberOfRetries: nat): Run {
    Loop(cfg, w.(policy := Reset(w.policy)), numberOfRetries)
  }
}
