/**
 * HttpRequest: the mutable request and its execute loop. The request's URL,
 * method, headers and content are rewritten in place by redirect handling; the
 * retry budget is a local countdown started from numberOfRetries, which execute
 * itself leaves as it is (the tests read it back after the call).
 */
module Requests {
  import opened Wrappers
  import opened Http
  import opened Mocks
  import Engine
  import Uri

  /** Content is logged up to this many bytes unless configured otherwise. */
  const DefaultContentLoggingLimit: nat := 0x4000

  class HttpRequest {
    var url: string
    var requestMethod: Method
    var headers: Headers
    var content: Option<seq<byte>>
    var numberOfRetries: nat
    var followRedirects: bool
    var retryOnExecuteIOException: bool
    var throwExceptionOnExecuteError: bool
    var suppressUserAgentSuffix: bool
    var loggingEnabled: bool
    var contentLoggingLimit: nat
    var backOffPolicy: MockBackOffPolicy?
    var unsuccessfulResponseHandler: MockUnsuccessfulResponseHandler?
    const transport: MockTransport

    /** A request as the request factory builds it; the default retry budget is
        the factory's to choose and is passed in. */
    constructor (transport: MockTransport, requestMethod: Method, url: string,
                 content: Option<seq<byte>>, numberOfRetries: nat)
      ensures this.transport == transport
      ensures Value() == Engine.Request(url, requestMethod, NoHeaders, content)
      ensures this.numberOfRetries == numberOfRetries
      ensures Config() == Engine.Config(true, false, true, false)
      ensures backOffPolicy == null && unsuccessfulResponseHandler == null
      ensures loggingEnabled && contentLoggingLimit == DefaultContentLoggingLimit
    {
      this.transport := transport;
      this.url := url;
      this.requestMethod := requestMethod;
      this.content := content;
      this.numberOfRetries := numberOfRetries;
      headers := NoHeaders;
      followRedirects := true;
      retryOnExecuteIOException := false;
      throwExceptionOnExecuteError := true;
      suppressUserAgentSuffix := false;
      loggingEnabled := true;
      contentLoggingLimit := DefaultContentLoggingLimit;
      backOffPolicy := null;
      unsuccessfulResponseHandler := null;
    }

    /** The flags the execute loop reads. */
    function Config(): Engine.Config
      reads this
    {
      Engine.Config(followRedirects, retryOnExecuteIOException, throwExceptionOnExecuteError, suppressUserAgentSuffix)
    }

    /** The part of the request that redirect handling rewrites. */
    function Value(): Engine.Request
      reads this
    {
      Engine.Request(url, requestMethod, headers, content)
    }

    /** Everything an execute call reads and changes, as a value. */
    function State(): Engine.World
      reads this, transport, backOffPolicy, unsuccessfulResponseHandler
    {
      Engine.World(
        Value(),
        if backOffPolicy == null then None else Some(backOffPolicy.State()),
        if unsuccessfulResponseHandler == null then None else Some(unsuccessfulResponseHandler.State()),
        transport.State())
    }

    /** A negative content-logging limit is refused (IllegalArgumentException) and leaves the limit as it was. */
    method SetContentLoggingLimit(limit: int) returns (accepted: bool)
      modifies this`contentLoggingLimit
      ensures accepted <==> limit >= 0
      ensures contentLoggingLimit == if accepted then limit else old(contentLoggingLimit)
    {
      accepted := limit >= 0;
      if accepted {
        contentLoggingLimit := limit;
      }
    }

    /** Puts a rewritten request in place. */
    method SetValue(next: Engine.Request)
      modifies this`url, this`requestMethod, this`headers, this`content
      ensures Value() == next
    {
      url, requestMethod, headers, content := next.url, next.requestMethod, next.headers, next.content;
    }

    /** handleRedirect: follows a redirect response in place when it can, and says
        whether it did. The rewritten request (resolved URL, 303 downgrade, dropped
        credentials and conditions) is the one Engine.Redirect describes. */
    method HandleRedirect(statusCode: int, responseHeaders: ResponseHeaders) returns (redirected: bool)
      modifies this`url, this`requestMethod, this`headers, this`content
      ensures var next := old(Engine.Redirect(followRedirects, Value(), statusCode, responseHeaders));
              redirected == next.Some? && Value() == if redirected then next.value else old(Value())
    {
      var next := Engine.Redirect(followRedirects, Value(), statusCode, responseHeaders);
      redirected := next.Some?;
      if redirected {
        SetValue(next.value);
      }
    }

    /** execute: transmits until a response is successful or no trigger may retry
        any more; what it leaves behind is exactly what Engine.Execute computes. */
    method Execute() returns (outcome: Engine.Outcome)
      modifies this`url, this`requestMethod, this`headers, this`content
      modifies transport, backOffPolicy, unsuccessfulResponseHandler
      ensures outcome == Engine.Execute(old(Config()), old(State()), old(numberOfRetries)).outcome
      ensures State() == Engine.Execute(old(Config()), old(State()), old(numberOfRetries)).world
    {
      var remaining := numberOfRetries;
      if backOffPolicy != null {
        backOffPolicy.Reset();
      }
      assert State() == old(State()).(policy := Engine.Reset(old(State()).policy));
      ghost var run := Engine.Loop(Config(), State(), remaining);
      while true
        invariant Config() == old(Config())
        invariant Engine.Loop(Config(), State(), remaining) == run
        decreases remaining
      {
        var retry;
        retry, outcome := AttemptOnce(remaining);
        if !retry {
          return;
        }
        remaining := remaining - 1;
      }
    }

    /** One transmission: the User-Agent is staged for this transmission only and the
        configured value is put back afterwards; only the transport's state changes. */
    method Send() returns (result: LowLevelResult)
      modifies this`headers, transport
      ensures var (sent, r) := Transmit(old(State()).transport,
                                        StagedUserAgent(old(headers.userAgent), suppressUserAgentSuffix));
              result == r && State() == old(State()).(transport := sent)
    {
      var originalUserAgent := headers.userAgent;
      var staged := StagedUserAgent(originalUserAgent, suppressUserAgentSuffix);
      headers := headers.(userAgent := staged);
      result := transport.Execute(staged);
      headers := headers.(userAgent := originalUserAgent);
    }

    /** One pass of the execute loop with `remaining` retries left: says whether to go round again. */
    method AttemptOnce(remaining: nat) returns (retry: bool, outcome: Engine.Outcome)
      modifies this`url, this`requestMethod, this`headers, this`content
      modifies transport, backOffPolicy, unsuccessfulResponseHandler
      ensures Engine.Attempt(Config(), old(State()), remaining)
              == if retry then Engine.Retry(State()) else Engine.Finish(outcome, State())
    {
      var result := Send();
      ghost var sent := State();
      assert Engine.Attempt(Config(), old(State()), remaining) == Engine.Dispatch(Config(), sent, result, remaining);
      if result.LowLevelIOException? {
        retry := retryOnExecuteIOException && remaining > 0;
        outcome := Engine.IOException;
      } else if IsSuccess(result.response.statusCode) {
        retry := false;
        outcome := Engine.Returned(result.response);
      } else {
        retry := HandleUnsuccessful(result.response, remaining);
        outcome := if throwExceptionOnExecuteError then Engine.HttpResponseException(result.response)
                   else Engine.Returned(result.response);
      }
    }

    /** The three retry triggers for an unsuccessful response, in order: the handler,
        the backoff policy, redirect handling. A retry needs budget left. */
    method HandleUnsuccessful(response: Response, remaining: nat) returns (retry: bool)
      modifies this`url, this`requestMethod, this`headers, this`content
      modifies backOffPolicy, unsuccessfulResponseHandler
      ensures Engine.Triage(Config(), old(State()), response, remaining)
              == if retry then Engine.Retry(State()) else Engine.GiveUp(Config(), response, State())
    {
      var retrySupported := remaining > 0;
      var handled := false;
      if unsuccessfulResponseHandler != null {
        handled := unsuccessfulResponseHandler.HandleResponse(response, retrySupported);
      }
      if !handled && retrySupported {
        if backOffPolicy != null && IsBackOffRequired(response.statusCode) {
          var millis := backOffPolicy.GetNextBackOffMillis();
          // the pause of `millis` milliseconds before the retry is not modelled
          handled := millis != Stop;
        } else {
          handled := HandleRedirect(response.statusCode, response.headers);
        }
      }
      retry := handled && retrySupported;
    }
  }
}
