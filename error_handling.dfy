/** The retry-with-backoff executor and the error classifier: which failures
    are retried, how long to wait before each retry, how a final failure is
    turned into an MCP error, and the bounded retry loop itself. */
module ErrorHandling {
  import opened Wrappers
  import opened JsonValues

  /** Retry settings. Delays are whole milliseconds; the growth factor is a natural number. */
  datatype Config = Config(maxRetries: nat, retryDelay: nat, backoffMultiplier: nat, maxBackoff: nat, debug: bool)

  /** The configuration every tool uses unless told otherwise. */
  const DefaultConfig: Config := Config(3, 1000, 2, 8000, false)

  /** The HTTP response carried by a failed request: status and parsed body. */
  datatype Response = Response(status: int, data: Json)

  /** What an upstream call can throw: an HTTP-client error (with a transport
      code such as "ECONNRESET" and, when the server answered, its response),
      any other `Error`, or a thrown value that is not an `Error` at all. */
  datatype Failure =
    | AxiosError(message: string, code: Option<string>, response: Option<Response>)
    | PlainError(message: string)
    | NonError

  /** The outcome of one call of the operation being retried. */
  datatype Attempt<T> = Succeeded(value: T) | Failed(failure: Failure)

  datatype ErrorCode = InvalidRequest | InvalidParams | InternalError | MethodNotFound

  /** An MCP error: a protocol error code and the message it is built with. */
  datatype McpError = McpError(code: ErrorCode, message: string)

  function Status(error: Failure): Option<int>
    requires error.AxiosError?
  {
    if error.response.Some? then Some(error.response.value.status) else None
  }

  /** The response body of an HTTP-client error, `undefined` when there is no response. */
  function Body(error: Failure): Option<Json>
    requires error.AxiosError?
  {
    if error.response.Some? then Some(error.response.value.data) else None
  }

  /** The detail an HTTP-client error reports: the body's `message`, else the
      body's `error`, else the client's own message, each taken only when truthy. */
  function ApiMessage(error: Failure): (detail: string)
    requires error.AxiosError?
    ensures error.response.None? ==> detail == error.message
    ensures || detail == error.message
            || (Truthy(Member(Body(error), "message")) && detail == Display(Member(Body(error), "message").value))
            || (Truthy(Member(Body(error), "error")) && detail == Display(Member(Body(error), "error").value))
  {
    var bodyMessage := Member(Body(error), "message");
    var bodyError := Member(Body(error), "error");
    if Truthy(bodyMessage) then Display(bodyMessage.value)
    else if Truthy(bodyError) then Display(bodyError.value)
    else error.message
  }

  /** Converts a failure into the MCP error reported to the caller. The
      response status alone picks the code; the upstream detail always ends
      the message of an HTTP-client error. */
  function HandleError(error: Failure): (e: McpError)
    ensures e.code == InvalidParams <==>
      error.AxiosError? && (Status(error) == Some(400) || Status(error) == Some(401))
    ensures e.code == InvalidRequest <==>
      error.AxiosError? && (Status(error) == Some(404) || Status(error) == Some(429))
    ensures e.code != MethodNotFound
    ensures error.AxiosError? ==>
      |ApiMessage(error)| <= |e.message| && e.message[|e.message| - |ApiMessage(error)|..] == ApiMessage(error)
    ensures error.PlainError? ==> e == McpError(InternalError, error.message)
    ensures error.NonError? ==> e == McpError(InternalError, "An unknown error occurred")
  {
    match error
    case AxiosError(_, _, _) =>
      var message := ApiMessage(error);
      var status := Status(error);
      if status == Some(429) then McpError(InvalidRequest, "Rate limit exceeded: " + message)
      else if status == Some(401) then McpError(InvalidParams, "Invalid API key: " + message)
      else if status == Some(400) then McpError(InvalidParams, "Invalid request: " + message)
      else if status == Some(404) then McpError(InvalidRequest, "Resource not found: " + message)
      else McpError(InternalError, "API error: " + message)
    case PlainError(message) => McpError(InternalError, message)
    case NonError => McpError(InternalError, "An unknown error occurred")
  }

  /** The message of each status, exactly. */
  lemma HandleErrorTable(error: Failure)
    requires error.AxiosError?
    ensures var m := ApiMessage(error); var s := Status(error);
      && (s == Some(429) ==> HandleError(error) == McpError(InvalidRequest, "Rate limit exceeded: " + m))
      && (s == Some(401) ==> HandleError(error) == McpError(InvalidParams, "Invalid API key: " + m))
      && (s == Some(400) ==> HandleError(error) == McpError(InvalidParams, "Invalid request: " + m))
      && (s == Some(404) ==> HandleError(error) == McpError(InvalidRequest, "Resource not found: " + m))
      && (s !in {Some(429), Some(401), Some(400), Some(404)} ==> HandleError(error) == McpError(InternalError, "API error: " + m))
  {
  }

  /** Which text becomes the detail: the body's `message` when it is truthy
      (converted to a string), else its `error` when that is truthy, else the
      client's message. A present but falsy member (`""`, `null`, `0`,
      `false`) is skipped like an absent one. */
  lemma ApiMessagePrecedence(message: string, code: Option<string>, status: int, body: map<string, Json>)
    ensures var error := AxiosError(message, code, Some(Response(status, Obj(body))));
      var m := Get(Obj(body), "message");
      var e := Get(Obj(body), "error");
      && (Truthy(m) ==> ApiMessage(error) == Display(m.value))
      && (!Truthy(m) && Truthy(e) ==> ApiMessage(error) == Display(e.value))
      && (!Truthy(m) && !Truthy(e) ==> ApiMessage(error) == message)
  {
  }

  /** An empty body `message` falls through to the body's `error`. */
  lemma EmptyMessageFallsThrough(message: string, status: int)
    ensures ApiMessage(AxiosError(message, None, Some(Response(status, Obj(map["message" := Str(""), "error" := Str("bad")]))))) == "bad"
  {
    var body := Obj(map["message" := Str(""), "error" := Str("bad")]);
    assert Get(body, "message") == Some(Str("")) && Get(body, "error") == Some(Str("bad"));
  }

  /** Classification fixtures: 429 with a body message, 404 with no body, a bare Error. */
  lemma HandleErrorExamples(transport: string)
    ensures HandleError(AxiosError(transport, None, Some(Response(429, Obj(map["message" := Str("slow down")])))))
         == McpError(InvalidRequest, "Rate limit exceeded: slow down")
    ensures HandleError(AxiosError(transport, None, Some(Response(404, Null)))) == McpError(InvalidRequest, "Resource not found: " + transport)
    ensures HandleError(AxiosError(transport, Some("ECONNRESET"), None)) == McpError(InternalError, "API error: " + transport)
    ensures HandleError(PlainError("boom")) == McpError(InternalError, "boom")
  {
    var slow := AxiosError(transport, None, Some(Response(429, Obj(map["message" := Str("slow down")]))));
    assert ApiMessage(slow) == "slow down";
  }

  /** The failures worth retrying: HTTP 429 or 500, or a timed-out or reset connection. */
  predicate IsTransient(error: Failure): (transient: bool)
    ensures transient ==> error.AxiosError?
    ensures (error.AxiosError? && error.response.Some? && error.response.value.status !in {429, 500} &&
             error.code !in {Some("ECONNABORTED"), Some("ECONNRESET")}) ==> !transient
    ensures error.AxiosError? && error.code in {Some("ECONNABORTED"), Some("ECONNRESET")} ==> transient
  {
    error.AxiosError? &&
    (Status(error) in {Some(429), Some(500)} || error.code in {Some("ECONNABORTED"), Some("ECONNRESET")})
  }

  /** Retry exactly when the budget is not spent and the failure is transient. */
  function ShouldRetry(error: Failure, retryCount: nat, config: Config): (retry: bool)
    ensures retry <==> retryCount < config.maxRetries && IsTransient(error)
  {
    if retryCount >= config.maxRetries then false
    else if error.AxiosError? then
      var status := Status(error);
      status == Some(429) || status == Some(500) ||
      error.code == Some("ECONNABORTED") || error.code == Some("ECONNRESET")
    else false
  }

  /** Once the budget is spent nothing is retried, and a failure that is not
      an HTTP-client error is never retried. */
  lemma ShouldRetryLimits(error: Failure, retryCount: nat, config: Config)
    ensures retryCount >= config.maxRetries ==> !ShouldRetry(error, retryCount, config)
    ensures !error.AxiosError? ==> !ShouldRetry(error, retryCount, config)
    ensures error.AxiosError? && error.response.Some? && error.response.value.status !in {429, 500} && error.code.None?
            ==> !ShouldRetry(error, retryCount, config)
  {
  }

  function Pow(base: nat, exponent: nat): nat
  {
    if exponent == 0 then 1 else base * Pow(base, exponent - 1)
  }

  /** The delay before retry number `retryCount` (1-based): the initial delay
      grown by the multiplier once per earlier retry, clamped to `maxBackoff`. */
  function CalculateRetryDelay(retryCount: nat, config: Config): (delay: nat)
    requires retryCount >= 1
    ensures delay <= config.maxBackoff
    ensures delay <= config.retryDelay * Pow(config.backoffMultiplier, retryCount - 1)
    ensures delay == config.maxBackoff || delay == config.retryDelay * Pow(config.backoffMultiplier, retryCount - 1)
  {
    var delay := config.retryDelay * Pow(config.backoffMultiplier, retryCount - 1);
    if delay < config.maxBackoff then delay else config.maxBackoff
  }

  lemma {:induction false} PowMonotonic(base: nat, i: nat, j: nat)
    requires base >= 1 && i <= j
    ensures Pow(base, i) <= Pow(base, j)
    decreases j
  {
    if i < j {
      PowMonotonic(base, i, j - 1);
      assert Pow(base, j) == base * Pow(base, j - 1);
      assert base * Pow(base, j - 1) >= Pow(base, j - 1) by {
        MultiplyGrows(base, Pow(base, j - 1));
      }
    }
  }

  lemma MultiplyGrows(a: nat, b: nat)
    requires a >= 1
    ensures a * b >= b
  {
  }

  lemma MultiplyMonotonic(a: nat, b: nat, c: nat)
    requires b <= c
    ensures a * b <= a * c
  {
  }

  /** With a multiplier of at least 1, later retries never wait less. */
  lemma DelayMonotonic(config: Config, m: nat, n: nat)
    requires config.backoffMultiplier >= 1
    requires 1 <= m <= n
    ensures CalculateRetryDelay(m, config) <= CalculateRetryDelay(n, config)
  {
    PowMonotonic(config.backoffMultiplier, m - 1, n - 1);
    MultiplyMonotonic(config.retryDelay, Pow(config.backoffMultiplier, m - 1), Pow(config.backoffMultiplier, n - 1));
  }

  /** The default schedule: 1000, 2000, 4000, 8000, then clamped at 8000. */
  lemma DefaultDelays()
    ensures CalculateRetryDelay(1, DefaultConfig) == 1000
    ensures CalculateRetryDelay(2, DefaultConfig) == 2000
    ensures CalculateRetryDelay(3, DefaultConfig) == 4000
    ensures CalculateRetryDelay(4, DefaultConfig) == 8000
    ensures CalculateRetryDelay(5, DefaultConfig) == 8000
  {
    assert Pow(2, 0) == 1;
    assert Pow(2, 1) == 2;
    assert Pow(2, 2) == 4;
    assert Pow(2, 3) == 8;
    assert Pow(2, 4) == 16;
  }

  /** What one run of the executor observably does: its result, how many
      times it called the operation, and the delays it waited, in order. */
  datatype Execution<T> = Execution(result: Result<T, McpError>, calls: nat, delays: seq<nat>)

  /** The executor from the moment `retryCount` retries have been spent;
      `request(k)` is the outcome of the operation's call number k (0-based). */
  function Run<T>(request: nat -> Attempt<T>, config: Config, retryCount: nat): (run: Execution<T>)
    ensures 1 <= run.calls && |run.delays| == run.calls - 1
    ensures retryCount <= config.maxRetries ==> retryCount + run.calls <= config.maxRetries + 1
    ensures request(retryCount).Succeeded? ==> run == Execution(Ok(request(retryCount).value), 1, [])
    decreases config.maxRetries - retryCount
  {
    match request(retryCount)
    case Succeeded(value) => Execution(Ok(value), 1, [])
    case Failed(error) =>
      if !ShouldRetry(error, retryCount, config) then Execution(Err(HandleError(error)), 1, [])
      else
        var rest := Run(request, config, retryCount + 1);
        Execution(rest.result, rest.calls + 1, [CalculateRetryDelay(retryCount + 1, config)] + rest.delays)
  }

  /** A retried failure costs one call and one backoff delay before the rest of the run. */
  lemma RunRetries<T>(request: nat -> Attempt<T>, config: Config, retryCount: nat)
    requires request(retryCount).Failed? && ShouldRetry(request(retryCount).failure, retryCount, config)
    ensures var rest := Run(request, config, retryCount + 1);
      Run(request, config, retryCount) ==
        Execution(rest.result, rest.calls + 1, [CalculateRetryDelay(retryCount + 1, config)] + rest.delays)
  {
  }

  /** The retry loop. The operation is called, a success is returned as it is,
      a failure that should not be retried is classified and thrown at once,
      and otherwise the retry count grows and the backoff delay is waited
      (recorded in `delays`) before the next call. */
  method RetryRequest<T>(request: nat -> Attempt<T>, config: Config)
    returns (result: Result<T, McpError>, calls: nat, delays: seq<nat>)
    ensures Execution(result, calls, delays) == Run(request, config, 0)
  {
    var retryCount: nat := 0;
    var lastError: Failure := NonError;  // `undefined` until the first failure
    calls, delays := 0, [];
    while retryCount <= config.maxRetries
      invariant retryCount <= config.maxRetries
      invariant calls == retryCount && |delays| == retryCount
      invariant var rest := Run(request, config, retryCount);
        Run(request, config, 0) == Execution(rest.result, calls + rest.calls, delays + rest.delays)
      decreases config.maxRetries - retryCount
    {
      var outcome := request(calls);
      calls := calls + 1;
      match outcome
      case Succeeded(value) =>
        result := Ok(value);
        return;
      case Failed(error) =>
        lastError := error;
        if !ShouldRetry(error, retryCount, config) {
          result := Err(HandleError(error));
          return;
        }
        RunRetries(request, config, retryCount);
        ghost var before := delays;
        retryCount := retryCount + 1;
        var delay := CalculateRetryDelay(retryCount, config);
        delays := delays + [delay];
        assert delays + Run(request, config, retryCount).delays == before + ([delay] + Run(request, config, retryCount).delays);
    }
    // ShouldRetry refuses once retryCount reaches maxRetries, so the loop
    // condition never fails and the final throw is dead code.
    assert false;
    result := Err(HandleError(lastError));
  }

  /** The shape of every run started after `start` retries: at least one call,
      never more than the budget allows, one delay between consecutive calls
      following the backoff schedule, every call but the last a retried
      failure, and the result taken from the last call. */
  lemma {:induction false} RunShape<T>(request: nat -> Attempt<T>, config: Config, start: nat)
    ensures var run := Run(request, config, start);
      && 1 <= run.calls
      && (start <= config.maxRetries ==> start + run.calls <= config.maxRetries + 1)
      && (start > config.maxRetries ==> run.calls == 1)
      && |run.delays| == run.calls - 1
      && (forall i :: 0 <= i < |run.delays| ==> run.delays[i] == CalculateRetryDelay(start + i + 1, config))
      && (forall k :: start <= k < start + run.calls - 1 ==>
            request(k).Failed? && ShouldRetry(request(k).failure, k, config))
      && var last := request(start + run.calls - 1);
         && (last.Succeeded? ==> run.result == Ok(last.value))
         && (last.Failed? ==> run.result == Err(HandleError(last.failure)) &&
                              !ShouldRetry(last.failure, start + run.calls - 1, config))
    decreases config.maxRetries - start
  {
    var run := Run(request, config, start);
    match request(start)
    case Succeeded(_) =>
    case Failed(error) =>
      if ShouldRetry(error, start, config) {
        RunShape(request, config, start + 1);
        var rest := Run(request, config, start + 1);
        assert run.delays == [CalculateRetryDelay(start + 1, config)] + rest.delays;
        forall i | 0 <= i < |run.delays|
          ensures run.delays[i] == CalculateRetryDelay(start + i + 1, config)
        {
          if i > 0 {
            assert run.delays[i] == rest.delays[i - 1];
          }
        }
        assert start + run.calls - 1 == (start + 1) + rest.calls - 1;
      }
  }

  /** A first-call success is returned unchanged, after one call and no delay. */
  lemma RetryFirstSuccess<T>(request: nat -> Attempt<T>, config: Config)
    requires request(0).Succeeded?
    ensures Run(request, config, 0) == Execution(Ok(request(0).value), 1, [])
  {
  }

  /** A failure that is not transient is thrown after one call and no delay. */
  lemma RetryFailsFast<T>(request: nat -> Attempt<T>, config: Config)
    requires request(0).Failed? && !IsTransient(request(0).failure)
    ensures Run(request, config, 0) == Execution(Err(HandleError(request(0).failure)), 1, [])
  {
  }

  /** Whatever the operation does, the executor makes at most maxRetries + 1
      calls, waits between consecutive calls only, and every wait is the
      scheduled backoff delay, hence never above maxBackoff. */
  lemma RetryBudget<T>(request: nat -> Attempt<T>, config: Config)
    ensures var run := Run(request, config, 0);
      && 1 <= run.calls <= config.maxRetries + 1
      && |run.delays| == run.calls - 1
      && (forall i :: 0 <= i < |run.delays| ==>
            run.delays[i] == CalculateRetryDelay(i + 1, config) && run.delays[i] <= config.maxBackoff)
  {
    RunShape(request, config, 0);
  }

  /** An operation that always fails transiently is called maxRetries + 1
      times, with the delays of retries 1..maxRetries in between, and the
      last failure is the one thrown. */
  lemma {:induction false} RetryExhaustion<T>(request: nat -> Attempt<T>, config: Config, start: nat)
    requires forall k :: request(k).Failed? && IsTransient(request(k).failure)
    requires start <= config.maxRetries
    ensures var run := Run(request, config, start);
      && run.result == Err(HandleError(request(config.maxRetries).failure))
      && run.calls == config.maxRetries - start + 1
      && |run.delays| == config.maxRetries - start
      && forall i :: 0 <= i < |run.delays| ==> run.delays[i] == CalculateRetryDelay(start + i + 1, config)
    decreases config.maxRetries - start
  {
    RunShape(request, config, start);
    if start < config.maxRetries {
      RetryExhaustion(request, config, start + 1);
    }
  }

  /** With maxRetries = 2 and a server that always answers 500, there are
      three calls and the thrown error is an internal error. */
  lemma ExhaustionExample<T>(request: nat -> Attempt<T>, config: Config)
    requires config.maxRetries == 2
    requires forall k :: request(k).Failed? && request(k).failure.AxiosError? && Status(request(k).failure) == Some(500)
    ensures Run(request, config, 0).calls == 3
    ensures Run(request, config, 0).result.Err? && Run(request, config, 0).result.error.code == InternalError
  {
    RetryExhaustion(request, config, 0);
  }
}
