/**
 * What the request tests assert about execute, stated for all budgets and all
 * script lengths and proved about the engine model: how many transmissions,
 * backoff calls and resets an execute call makes, which trigger takes a retry,
 * and how the call ends.
 */
module EngineProperties {
  import opened Wrappers
  import opened Http
  import opened Mocks
  import opened Engine
  import Uri

  /** The configured handler, if any, says it did not make the request retry-worthy. */
  predicate HandlerDeclines(w: World) {
    w.handler.None? || !w.handler.value.successfullyHandleResponse
  }

  /** A handler is configured and says it made the request retry-worthy. */
  predicate HandlerClaims(w: World) {
    w.handler.Some? && w.handler.value.successfullyHandleResponse
  }

  /** The handler after it has been asked about a response. */
  function Asked(handler: Option<HandlerState>): Option<HandlerState> {
    if handler.Some? then Some(handler.value.(isCalled := true)) else None
  }

  // ---------------------------------------------------------------------------
  // Laws of every run
  // ---------------------------------------------------------------------------

  /** Every pass of the loop transmits once and every retry spends one unit of the
      one shared budget, so the loop transmits one more time than it retries; the
      policy is asked for at most one delay per transmission and never reset. */
  lemma {:induction false} LoopCounts(cfg: Config, w: World, remaining: nat)
    ensures var r := Loop(cfg, w, remaining);
      && r.remaining <= remaining
      && r.world.transport.script == w.transport.script
      && r.world.transport.lowLevelExecCalls == w.transport.lowLevelExecCalls + 1 + (remaining - r.remaining)
      && r.world.policy.Some? == w.policy.Some?
      && (r.world.policy.Some? ==>
            && r.world.policy.value.resetCalls == w.policy.value.resetCalls
            && r.world.policy.value.returnBackOffStop == w.policy.value.returnBackOffStop
            && w.policy.value.backOffCalls <= r.world.policy.value.backOffCalls
            && r.world.policy.value.backOffCalls <= w.policy.value.backOffCalls + 1 + (remaining - r.remaining))
    decreases remaining
  {
    var s := Attempt(cfg, w, remaining);
    if s.Retry? {
      LoopCounts(cfg, s.next, remaining - 1);
    }
  }

  /** An execute call resets the policy exactly once and transmits at most
      numberOfRetries + 1 times: one more than the retries it spent. */
  lemma ExecuteCounts(cfg: Config, w: World, numberOfRetries: nat)
    ensures var r := Execute(cfg, w, numberOfRetries);
      && r.remaining <= numberOfRetries
      && r.world.transport.lowLevelExecCalls == w.transport.lowLevelExecCalls + 1 + (numberOfRetries - r.remaining)
      && r.world.transport.lowLevelExecCalls <= w.transport.lowLevelExecCalls + numberOfRetries + 1
      && r.world.policy.Some? == w.policy.Some?
      && (r.world.policy.Some? ==>
            && r.world.policy.value.resetCalls == w.policy.value.resetCalls + 1
            && r.world.policy.value.backOffCalls <= w.policy.value.backOffCalls + 1 + (numberOfRetries - r.remaining))
  {
    LoopCounts(cfg, w.(policy := Reset(w.policy)), numberOfRetries);
  }

  /** The User-Agent suffix is added for each transmission only: every transmission
      carries the staged value once, and the request's own header is as it was,
      however many retries and redirects happened. */
  lemma {:induction false} UserAgentStagedPerTransmission(cfg: Config, w: World, remaining: nat)
    ensures var r := Loop(cfg, w, remaining);
      && r.world.request.headers.userAgent == w.request.headers.userAgent
      && r.world.transport.userAgentHeader
           == HeaderValues(StagedUserAgent(w.request.headers.userAgent, cfg.suppressUserAgentSuffix))
    decreases remaining
  {
    var s := Attempt(cfg, w, remaining);
    if s.Retry? {
      UserAgentStagedPerTransmission(cfg, s.next, remaining - 1);
    }
  }

  /** One attempt leaves the request as it was, unless its transmission was
      answered with a response handleRedirect follows and the attempt retries with
      the rewritten request. */
  lemma AttemptRewritesOnlyByRedirect(cfg: Config, w: World, remaining: nat)
    ensures var s := Attempt(cfg, w, remaining);
      var result := Transmit(w.transport, StagedUserAgent(w.request.headers.userAgent, cfg.suppressUserAgentSuffix)).1;
      || s.After().request == w.request
      || (&& s.Retry? && result.LowLevelResponse? && RedirectFollowed(cfg, w.request, result.response)
          && s.next.request == RedirectOf(cfg, w.request, result.response))
  {
    var staged := StagedUserAgent(w.request.headers.userAgent, cfg.suppressUserAgentSuffix);
    var (transport, result) := Transmit(w.transport, staged);
    if result.LowLevelResponse? && !IsSuccess(result.response.statusCode) {
      assert Attempt(cfg, w, remaining) == Triage(cfg, w.(transport := transport), result.response, remaining);
    }
  }

  /** Only handleRedirect rewrites the request, and only by a redirect taken as a
      retry: a loop either ends with the request it started with, or redirects
      were followed and the request it ends with has credentials and conditions
      dropped and the User-Agent kept. */
  lemma {:induction false} RequestRewrittenOnlyByRedirects(cfg: Config, w: World, remaining: nat)
    ensures var r := Loop(cfg, w, remaining);
      || r.world.request == w.request
      || (&& cfg.followRedirects
          && CredentialsAndConditionsCleared(r.world.request.headers)
          && r.world.request.headers.userAgent == w.request.headers.userAgent)
    decreases remaining
  {
    var s := Attempt(cfg, w, remaining);
    AttemptRewritesOnlyByRedirect(cfg, w, remaining);
    if s.Retry? {
      RequestRewrittenOnlyByRedirects(cfg, s.next, remaining - 1);
    }
  }

  /** A handler that claims every unsuccessful response takes every retry itself:
      the backoff policy is never asked for a delay and redirect handling never
      rewrites the request. */
  lemma {:induction false} HandlerClaimsFirst(cfg: Config, w: World, remaining: nat)
    requires HandlerClaims(w)
    ensures var r := Loop(cfg, w, remaining);
      r.world.request == w.request && r.world.policy == w.policy
    decreases remaining
  {
    var s := Attempt(cfg, w, remaining);
    if s.Retry? {
      HandlerClaimsFirst(cfg, s.next, remaining - 1);
    }
  }

  // ---------------------------------------------------------------------------
  // Transport I/O failures (FailThenSuccessConnectionErrorTransport)
  // ---------------------------------------------------------------------------

  /** With retryOnExecuteIOException, each failure still ahead costs one retry:
      enough budget reaches the success, too little ends in the I/O failure after
      one transmission more than the budget. Nothing but the transport changes. */
  lemma {:induction false} ConnectionErrorsRetried(cfg: Config, w: World, remaining: nat)
    requires cfg.retryOnExecuteIOException
    requires w.transport.script.FailThenSuccessConnectionErrorTransport?
    requires w.transport.lowLevelExecCalls <= w.transport.script.callsBeforeSuccess
    ensures var r := Loop(cfg, w, remaining);
      var failures := w.transport.script.callsBeforeSuccess - w.transport.lowLevelExecCalls;
      && r.world == w.(transport := r.world.transport)
      && (if failures <= remaining then
            && r.outcome == Returned(Plain(StatusOk))
            && r.world.transport.lowLevelExecCalls == w.transport.lowLevelExecCalls + failures + 1
          else
            && r.outcome == IOException
            && r.world.transport.lowLevelExecCalls == w.transport.lowLevelExecCalls + remaining + 1)
    decreases remaining
  {
    var s := Attempt(cfg, w, remaining);
    if s.Retry? {
      ConnectionErrorsRetried(cfg, s.next, remaining - 1);
    }
  }

  /** execute against a transport that fails n times and then succeeds, with
      retryOnExecuteIOException set: a budget of at least n gives n + 1
      transmissions and the success; a smaller budget gives budget + 1
      transmissions and the I/O failure. */
  lemma ExecuteRetriesConnectionErrors(cfg: Config, w: World, n: nat, numberOfRetries: nat)
    requires cfg.retryOnExecuteIOException
    requires w.transport.script == FailThenSuccessConnectionErrorTransport(n) && w.transport.lowLevelExecCalls == 0
    ensures var r := Execute(cfg, w, numberOfRetries);
      if n <= numberOfRetries then
        r.outcome == Returned(Plain(StatusOk)) && r.world.transport.lowLevelExecCalls == n + 1
      else
        r.outcome == IOException && r.world.transport.lowLevelExecCalls == numberOfRetries + 1
  {
    ConnectionErrorsRetried(cfg, w.(policy := Reset(w.policy)), numberOfRetries);
  }

  /** Without retryOnExecuteIOException a transport failure ends execute at once,
      whatever the budget. */
  lemma ExecuteDoesNotRetryConnectionErrors(cfg: Config, w: World, numberOfRetries: nat)
    requires !cfg.retryOnExecuteIOException
    requires w.transport.script.FailThenSuccessConnectionErrorTransport?
    requires w.transport.lowLevelExecCalls < w.transport.script.callsBeforeSuccess
    ensures var r := Execute(cfg, w, numberOfRetries);
      r.outcome == IOException && r.world.transport.lowLevelExecCalls == w.transport.lowLevelExecCalls + 1
  {
  }

  // ---------------------------------------------------------------------------
  // Backoff (FailThenSuccessBackoffTransport with MockBackOffPolicy)
  // ---------------------------------------------------------------------------

  /** One attempt that meets a failure the policy backs off on, with budget left and
      the handler declining: one delay is asked, and a retry is due with the
      request as it was. */
  lemma AttemptBacksOff(cfg: Config, w: World, remaining: nat)
    requires remaining > 0
    requires w.transport.script.FailThenSuccessBackoffTransport?
    requires IsBackOffRequired(w.transport.script.errorStatusCode)
    requires w.transport.lowLevelExecCalls < w.transport.script.callsBeforeSuccess
    requires HandlerDeclines(w)
    requires w.policy.Some? && !w.policy.value.returnBackOffStop
    ensures var staged := StagedUserAgent(w.request.headers.userAgent, cfg.suppressUserAgentSuffix);
      var p := w.policy.value;
      Attempt(cfg, w, remaining)
        == Retry(w.(transport := Transmit(w.transport, staged).0, handler := Asked(w.handler),
                    policy := Some(p.(backOffCalls := p.backOffCalls + 1))))
  {
    var staged := StagedUserAgent(w.request.headers.userAgent, cfg.suppressUserAgentSuffix);
    var response := Plain(w.transport.script.errorStatusCode);
    var sent := w.(transport := Transmit(w.transport, staged).0);
    assert Transmit(w.transport, staged).1 == LowLevelResponse(response);
    assert Attempt(cfg, w, remaining) == Triage(cfg, sent, response, remaining);
    if w.handler.Some? {
      assert Consult(w.handler.value, response, true) == (Asked(w.handler).value, false);
    }
  }

  /** Failures with a status the policy backs off on, while the handler declines:
      each costs one retry and one getNextBackOffMillis call. Enough budget reaches
      the success; too little ends unsuccessfully with one delay asked per retry. */
  lemma {:induction false} ServerErrorsBackedOff(cfg: Config, w: World, remaining: nat)
    requires w.transport.script.FailThenSuccessBackoffTransport?
    requires IsBackOffRequired(w.transport.script.errorStatusCode)
    requires w.transport.lowLevelExecCalls <= w.transport.script.callsBeforeSuccess
    requires HandlerDeclines(w)
    requires w.policy.Some? && !w.policy.value.returnBackOffStop
    ensures var r := Loop(cfg, w, remaining);
      var failures := w.transport.script.callsBeforeSuccess - w.transport.lowLevelExecCalls;
      var p := w.policy.value;
      && r.world.request == w.request
      && r.world.handler == (if failures > 0 then Asked(w.handler) else w.handler)
      && (if failures <= remaining then
            && r.outcome == Returned(Plain(StatusOk))
            && r.world.transport.lowLevelExecCalls == w.transport.lowLevelExecCalls + failures + 1
            && r.world.policy == Some(p.(backOffCalls := p.backOffCalls + failures))
          else
            && r.outcome == Unsuccessful(cfg, Plain(w.transport.script.errorStatusCode))
            && r.world.transport.lowLevelExecCalls == w.transport.lowLevelExecCalls + remaining + 1
            && r.world.policy == Some(p.(backOffCalls := p.backOffCalls + remaining)))
    decreases remaining
  {
    if remaining > 0 && w.transport.lowLevelExecCalls < w.transport.script.callsBeforeSuccess {
      AttemptBacksOff(cfg, w, remaining);
      var next := Attempt(cfg, w, remaining).next;
      ServerErrorsBackedOff(cfg, next, remaining - 1);
      assert Loop(cfg, w, remaining) == Loop(cfg, next, remaining - 1);
    } else {
      var staged := StagedUserAgent(w.request.headers.userAgent, cfg.suppressUserAgentSuffix);
      var sent := w.(transport := Transmit(w.transport, staged).0);
      if w.transport.lowLevelExecCalls == w.transport.script.callsBeforeSuccess {
        assert Transmit(w.transport, staged).1 == LowLevelResponse(Plain(StatusOk));
        assert Attempt(cfg, w, remaining) == Finish(Returned(Plain(StatusOk)), sent);
      } else {
        var response := Plain(w.transport.script.errorStatusCode);
        assert Transmit(w.transport, staged).1 == LowLevelResponse(response);
        assert Attempt(cfg, w, 0) == Triage(cfg, sent, response, 0);
        TriageWithoutBudget(cfg, sent, response);
      }
    }
  }

  /** execute with k failures the policy backs off on and a declining handler:
      a budget of at least k gives k + 1 transmissions, k delays asked, one reset
      and the success; a budget below k gives budget + 1 transmissions, budget
      delays asked, one reset, and the unsuccessful response thrown. */
  lemma ExecuteBacksOff(cfg: Config, w: World, k: nat, numberOfRetries: nat)
    requires w.transport.script.FailThenSuccessBackoffTransport?
    requires w.transport.script.callsBeforeSuccess == k && w.transport.lowLevelExecCalls == 0
    requires IsBackOffRequired(w.transport.script.errorStatusCode)
    requires HandlerDeclines(w)
    requires w.policy == Some(PolicyState(0, 0, false))
    ensures var r := Execute(cfg, w, numberOfRetries);
      && r.world.request == w.request
      && r.world.policy.Some? && r.world.policy.value.resetCalls == 1
      && r.world.handler == (if k > 0 then Asked(w.handler) else w.handler)
      && (if k <= numberOfRetries then
            && r.outcome == Returned(Plain(StatusOk))
            && r.world.transport.lowLevelExecCalls == k + 1
            && r.world.policy.value.backOffCalls == k
          else
            && r.outcome == Unsuccessful(cfg, Plain(w.transport.script.errorStatusCode))
            && r.world.transport.lowLevelExecCalls == numberOfRetries + 1
            && r.world.policy.value.backOffCalls == numberOfRetries)
  {
    ServerErrorsBackedOff(cfg, w.(policy := Reset(w.policy)), numberOfRetries);
  }

  /** A policy that answers Stop ends execute after its first delay request,
      however much budget is left. */
  lemma ExecuteStopsOnBackOffStop(cfg: Config, w: World, numberOfRetries: nat)
    requires numberOfRetries > 0
    requires w.transport.script.FailThenSuccessBackoffTransport?
    requires IsBackOffRequired(w.transport.script.errorStatusCode)
    requires w.transport.lowLevelExecCalls < w.transport.script.callsBeforeSuccess
    requires HandlerDeclines(w)
    requires w.policy.Some? && w.policy.value.returnBackOffStop
    ensures var r := Execute(cfg, w, numberOfRetries);
      && r.outcome == Unsuccessful(cfg, Plain(w.transport.script.errorStatusCode))
      && r.world.transport.lowLevelExecCalls == w.transport.lowLevelExecCalls + 1
      && r.world.policy == Some(w.policy.value.(backOffCalls := w.policy.value.backOffCalls + 1,
                                                resetCalls := w.policy.value.resetCalls + 1))
      && r.world.handler == Asked(w.handler)
      && r.world.request == w.request
  {
  }

  /** A failure status the policy does not back off on and that is no redirect
      (401, say) ends execute after one transmission, with no delay asked. */
  lemma ExecuteUnrecognizedStatus(cfg: Config, w: World, numberOfRetries: nat)
    requires w.transport.script.FailThenSuccessBackoffTransport?
    requires var e := w.transport.script.errorStatusCode;
      !IsSuccess(e) && !IsBackOffRequired(e) && !IsRedirect(e)
    requires w.transport.lowLevelExecCalls < w.transport.script.callsBeforeSuccess
    requires HandlerDeclines(w)
    ensures var r := Execute(cfg, w, numberOfRetries);
      && r.outcome == Unsuccessful(cfg, Plain(w.transport.script.errorStatusCode))
      && r.world.transport.lowLevelExecCalls == w.transport.lowLevelExecCalls + 1
      && r.world.policy == Reset(w.policy)
      && r.world.request == w.request
      && r.world.handler == Asked(w.handler)
  {
  }

  /** A handler that claims the failures takes the retries in place of the policy:
      the policy is never asked for a delay. */
  lemma {:induction false} HandlerRetriesFailures(cfg: Config, w: World, remaining: nat)
    requires w.transport.script.FailThenSuccessBackoffTransport?
    requires !IsSuccess(w.transport.script.errorStatusCode)
    requires w.transport.lowLevelExecCalls <= w.transport.script.callsBeforeSuccess
    requires HandlerClaims(w)
    ensures var r := Loop(cfg, w, remaining);
      var failures := w.transport.script.callsBeforeSuccess - w.transport.lowLevelExecCalls;
      && r.world.policy == w.policy
      && r.world.request == w.request
      && r.world.handler == (if failures > 0 then Asked(w.handler) else w.handler)
      && (if failures <= remaining then
            && r.outcome == Returned(Plain(StatusOk))
            && r.world.transport.lowLevelExecCalls == w.transport.lowLevelExecCalls + failures + 1
          else
            && r.outcome == Unsuccessful(cfg, Plain(w.transport.script.errorStatusCode))
            && r.world.transport.lowLevelExecCalls == w.transport.lowLevelExecCalls + remaining + 1)
    decreases remaining
  {
    var s := Attempt(cfg, w, remaining);
    if s.Retry? {
      HandlerRetriesFailures(cfg, s.next, remaining - 1);
    }
  }

  // ---------------------------------------------------------------------------
  // Redirects (RedirectTransport)
  // ---------------------------------------------------------------------------

  /** With no budget left an unsuccessful response is never retried: the handler is
      still asked (and told no retry is possible), and nothing else changes. */
  lemma TriageWithoutBudget(cfg: Config, w: World, response: Response)
    ensures Triage(cfg, w, response, 0) == GiveUp(cfg, response, w.(handler := Asked(w.handler)))
  {
    if w.handler.Some? {
      assert Consult(w.handler.value, response, false).0 == Asked(w.handler).value;
    }
  }

  /** An unsuccessful response that neither the handler nor the policy takes is
      retried exactly when handleRedirect follows it. */
  lemma TriageRedirects(cfg: Config, w: World, response: Response, remaining: nat)
    requires remaining > 0
    requires HandlerDeclines(w)
    requires w.policy.None? || !IsBackOffRequired(response.statusCode)
    ensures var next := Redirect(cfg.followRedirects, w.request, response.statusCode, response.headers);
      Triage(cfg, w, response, remaining)
        == if next.Some? then Retry(w.(handler := Asked(w.handler), request := next.value))
           else GiveUp(cfg, response, w.(handler := Asked(w.handler)))
  {
    if w.handler.Some? {
      assert Consult(w.handler.value, response, true) == (Asked(w.handler).value, false);
    }
  }

  /** One attempt against the redirecting transport while it still redirects (and its
      Location is present), with redirects followed and the handler declining: the
      request is rewritten by handleRedirect and a retry is due. */
  lemma AttemptFollowsRedirect(cfg: Config, w: World, remaining: nat)
    requires cfg.followRedirects
    requires remaining > 0
    requires w.transport.script.RedirectTransport?
    requires !w.transport.script.removeLocation
    requires w.transport.script.infiniteRedirection || w.transport.lowLevelExecCalls == 0
    requires IsRedirect(w.transport.script.redirectStatusCode)
    requires HandlerDeclines(w)
    ensures var staged := StagedUserAgent(w.request.headers.userAgent, cfg.suppressUserAgentSuffix);
      var code := w.transport.script.redirectStatusCode;
      Attempt(cfg, w, remaining)
        == Retry(w.(transport := Transmit(w.transport, staged).0, handler := Asked(w.handler),
                    request := Redirect(true, w.request, code, ResponseHeaders(Some(SimpleUrl))).value))
  {
    var staged := StagedUserAgent(w.request.headers.userAgent, cfg.suppressUserAgentSuffix);
    var code := w.transport.script.redirectStatusCode;
    var response := Response(code, ResponseHeaders(Some(SimpleUrl)));
    var sent := w.(transport := Transmit(w.transport, staged).0);
    assert Transmit(w.transport, staged).1 == LowLevelResponse(response);
    assert Attempt(cfg, w, remaining) == Triage(cfg, sent, response, remaining);
    TriageRedirects(cfg, sent, response, remaining);
  }

  /** An attempt whose transmission is answered with a 200 returns it. */
  lemma AttemptSucceeds(cfg: Config, w: World, remaining: nat)
    requires Respond(w.transport.script, w.transport.lowLevelExecCalls + 1) == LowLevelResponse(Plain(StatusOk))
    ensures var staged := StagedUserAgent(w.request.headers.userAgent, cfg.suppressUserAgentSuffix);
      Attempt(cfg, w, remaining) == Finish(Returned(Plain(StatusOk)), w.(transport := Transmit(w.transport, staged).0))
  {
  }

  /** The redirecting transport's Location is absolute, so a redirect to it lands
      there from any URL. */
  lemma SimpleUrlIsAbsolute(base: string)
    ensures Uri.Resolve(base, SimpleUrl) == SimpleUrl
  {
    assert "http" + ":" + "//google.com" == SimpleUrl;
    Uri.ResolveWithScheme(base, "http", "//google.com");
  }

  /** A redirect response with a Location, followed while redirects are followed
      and the handler declines: the request is rewritten as handleRedirect says and
      sent again, and the second answer, a 200, is returned. No delay is asked. */
  lemma ExecuteFollowsRedirect(cfg: Config, w: World, numberOfRetries: nat)
    requires cfg.followRedirects
    requires numberOfRetries > 0
    requires w.transport.script.RedirectTransport?
    requires !w.transport.script.removeLocation && !w.transport.script.infiniteRedirection
    requires IsRedirect(w.transport.script.redirectStatusCode)
    requires w.transport.lowLevelExecCalls == 0
    requires HandlerDeclines(w)
    ensures var r := Execute(cfg, w, numberOfRetries);
      var code := w.transport.script.redirectStatusCode;
      && r.outcome == Returned(Plain(StatusOk))
      && r.world.transport.lowLevelExecCalls == 2
      && r.world.policy == Reset(w.policy)
      && r.world.request
           == Redirect(true, w.request, code, ResponseHeaders(Some(SimpleUrl))).value
      && r.world.request.url == SimpleUrl
      && CredentialsAndConditionsCleared(r.world.request.headers)
      && (code == StatusSeeOther && w.request.requestMethod == POST ==>
            r.world.request.requestMethod == GET && r.world.request.content.None?)
  {
    SimpleUrlIsAbsolute(w.request.url);
    var w0 := w.(policy := Reset(w.policy));
    AttemptFollowsRedirect(cfg, w0, numberOfRetries);
    var next := Attempt(cfg, w0, numberOfRetries).next;
    assert next.transport.lowLevelExecCalls == 1;
    AttemptSucceeds(cfg, next, numberOfRetries - 1);
    assert Loop(cfg, w0, numberOfRetries) == Loop(cfg, next, numberOfRetries - 1);
  }

  /** A handler that claims the redirect response takes the retry: the request
      keeps its URL, the policy is never asked for a delay, and the second answer,
      a 200, is returned. */
  lemma ExecuteHandlerClaimsRedirect(cfg: Config, w: World, numberOfRetries: nat)
    requires numberOfRetries > 0
    requires w.transport.script.RedirectTransport?
    requires !w.transport.script.infiniteRedirection
    requires !IsSuccess(w.transport.script.redirectStatusCode)
    requires w.transport.lowLevelExecCalls == 0
    requires HandlerClaims(w)
    ensures var r := Execute(cfg, w, numberOfRetries);
      && r.outcome == Returned(Plain(StatusOk))
      && r.world.transport.lowLevelExecCalls == 2
      && r.world.policy == Reset(w.policy)
      && r.world.request == w.request
      && r.world.handler == Asked(w.handler)
  {
    var w0 := w.(policy := Reset(w.policy));
    var s0 := Attempt(cfg, w0, numberOfRetries);
    assert s0 == Retry(w0.(transport := s0.next.transport, handler := Asked(w.handler)));
    var s1 := Attempt(cfg, s0.next, numberOfRetries - 1);
    assert s1 == Finish(Returned(Plain(StatusOk)), s0.next.(transport := s1.last.transport));
    assert Loop(cfg, w0, numberOfRetries) == Loop(cfg, s0.next, numberOfRetries - 1);
  }

  /** Endless redirects with a Location are followed until the budget runs out:
      one transmission more than the budget, then the redirect response is thrown. */
  lemma {:induction false} EndlessRedirects(cfg: Config, w: World, remaining: nat)
    requires cfg.followRedirects
    requires w.transport.script.RedirectTransport?
    requires !w.transport.script.removeLocation && w.transport.script.infiniteRedirection
    requires IsRedirect(w.transport.script.redirectStatusCode)
    requires HandlerDeclines(w)
    ensures var r := Loop(cfg, w, remaining);
      && r.outcome == Unsuccessful(cfg, Response(w.transport.script.redirectStatusCode, ResponseHeaders(Some(SimpleUrl))))
      && r.world.transport.lowLevelExecCalls == w.transport.lowLevelExecCalls + remaining + 1
      && r.world.policy == w.policy
    decreases remaining
  {
    var response := Response(w.transport.script.redirectStatusCode, ResponseHeaders(Some(SimpleUrl)));
    if remaining > 0 {
      AttemptFollowsRedirect(cfg, w, remaining);
      var next := Attempt(cfg, w, remaining).next;
      EndlessRedirects(cfg, next, remaining - 1);
      assert Loop(cfg, w, remaining) == Loop(cfg, next, remaining - 1);
    } else {
      var staged := StagedUserAgent(w.request.headers.userAgent, cfg.suppressUserAgentSuffix);
      var sent := w.(transport := Transmit(w.transport, staged).0);
      assert Transmit(w.transport, staged).1 == LowLevelResponse(response);
      assert Attempt(cfg, w, 0) == Triage(cfg, sent, response, 0);
      TriageWithoutBudget(cfg, sent, response);
    }
  }

  /** A redirect response without a Location is not followed: execute ends after
      one transmission with that response. */
  lemma ExecuteRedirectWithoutLocation(cfg: Config, w: World, numberOfRetries: nat)
    requires w.transport.script.RedirectTransport? && w.transport.script.removeLocation
    requires w.transport.script.infiniteRedirection || w.transport.lowLevelExecCalls == 0
    requires IsRedirect(w.transport.script.redirectStatusCode)
    requires HandlerDeclines(w)
    ensures var r := Execute(cfg, w, numberOfRetries);
      && r.outcome == Unsuccessful(cfg, Plain(w.transport.script.redirectStatusCode))
      && r.world.transport.lowLevelExecCalls == w.transport.lowLevelExecCalls + 1
      && r.world.request == w.request
  {
  }

  /** The status-code transport answers every call with its one status and no
      Location, so with no handler and no policy configured execute transmits once
      and ends with that answer, leaving the request as it was. */
  lemma ExecuteStatusCodes(cfg: Config, w: World, numberOfRetries: nat)
    requires w.transport.script.StatusCodesTransport?
    requires w.handler.None? && w.policy.None?
    ensures var r := Execute(cfg, w, numberOfRetries);
      var answer := Plain(w.transport.script.statusCode);
      && r.outcome == (if IsSuccess(answer.statusCode) then Returned(answer) else Unsuccessful(cfg, answer))
      && r.world.transport.lowLevelExecCalls == w.transport.lowLevelExecCalls + 1
      && r.world.request == w.request
  {
    var staged := StagedUserAgent(w.request.headers.userAgent, cfg.suppressUserAgentSuffix);
    assert Transmit(w.transport, staged).1 == LowLevelResponse(Plain(w.transport.script.statusCode));
  }

  // ---------------------------------------------------------------------------
  // handleRedirect on its own
  // ---------------------------------------------------------------------------

  /** handleRedirect, called with redirects followed: a 200 is not redirected,
      nor is a 307 without a Location, so the request stays as it was. */
  lemma HandleRedirectDeclines(request: Request, headers: ResponseHeaders)
    ensures Redirect(true, request, StatusOk, headers).None?
    ensures Redirect(true, request, StatusTemporaryRedirect, ResponseHeaders(None)).None?
  {
  }

  /** handleRedirect, called with redirects followed on a GET: any redirect code
      with the absolute Location of the tests is followed to exactly that URL, with
      the method and content kept and only credentials and conditions dropped. */
  lemma HandleRedirectFollows(request: Request, code: int)
    requires request.requestMethod == GET
    requires IsRedirect(code)
    ensures Redirect(true, request, code, ResponseHeaders(Some("http://redirect/location")))
            == Some(request.(url := "http://redirect/location",
                             headers := WithoutCredentialsAndConditions(request.headers)))
  {
    Uri.AbsoluteLocationExample(request.url);
  }
}
