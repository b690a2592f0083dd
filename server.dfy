/** `DiagramAIMCPServer`: the normalized configuration, the `isInitialized` flag that
    gates tool listing and tool calls, the start-up sequence, the conversion of a tool
    error into an `isError` result, and the health and configuration queries. The MCP
    framework that routes requests to the two handlers is not part of this model; the
    handlers are the methods `ListTools` and `CallTool`. */
module McpServer {
  import opened Wrappers
  import opened Js
  import opened ServerConfig
  import opened Auth
  import opened WebSocketClient
  import opened Schemas
  import opened DiagramTools
  import opened ToolFacts

  const NotInitializedMessage: string := "Server not initialized"
  const ApiUnreachableMessage: string := "Failed to connect to DiagramAI API"

  /** The configuration without its API key. */
  datatype PublicConfig = PublicConfig(
    apiUrl: string, wsUrl: Option<string>, debug: Option<bool>,
    requestTimeout: Option<int>, maxRetries: Option<int>, retryDelay: Option<int>)

  function Public(c: Config): PublicConfig {
    PublicConfig(c.apiUrl, c.wsUrl, c.debug, c.requestTimeout, c.maxRetries, c.retryDelay)
  }

  /** What `getStats` reports, less the process's uptime and memory usage. */
  datatype Stats = Stats(
    initialized: bool, websocketConnected: bool, authServiceReady: bool, availableTools: nat,
    apiUrl: string, wsUrl: Option<string>, debug: Option<bool>, requestTimeout: Option<int>)

  /** The JSON text a tool call answers with: the tool's own result, or the
      `{ success: false, error, tool }` record of a failed call (the timestamp is not
      modelled). */
  datatype Payload =
    | Succeeded(outcome: ToolSuccess)
    | FailureRecord(success: bool, error: string, tool: string)

  datatype CallToolResult = CallToolResult(content: Payload, isError: bool)

  /** `error instanceof Error ? error.message : 'Unknown error'`. */
  function ErrorText(e: Exception): string {
    match e
    case Error(message) => message
    case NonError(_) => "Unknown error"
  }

  /** The `try`/`catch` around `executeTool`: a result is reported as it is, and any
      error becomes an `isError` record naming the tool. */
  function Report(name: string, r: Result<ToolSuccess, Exception>): (out: CallToolResult)
    ensures out.isError <==> r.Failure?
    ensures r.Success? ==> out.content == Succeeded(r.value)
    ensures r.Failure? ==> out.content.FailureRecord? && !out.content.success && out.content.tool == name
    ensures r.Failure? && r.error.Error? ==> out.content.error == r.error.message
    ensures r.Failure? && r.error.NonError? ==> out.content.error == "Unknown error"
  {
    match r
    case Success(v) => CallToolResult(Succeeded(v), false)
    case Failure(e) => CallToolResult(FailureRecord(false, ErrorText(e), name), true)
  }

  /** `args || {}`. */
  function ArgumentsOrEmpty(args: Option<Value>): (v: Value)
    ensures Truthy(args) ==> v == args.value
    ensures !Truthy(args) ==> v == Obj(map[])
    ensures !v.Null?
  {
    Or(args, Obj(map[]))
  }

  class DiagramAIMCPServer {
    const config: Config
    const authService: AuthService
    const wsClient: DiagramWebSocketClient
    const diagramTools: DiagramTools
    var isInitialized: bool
    /** The configuration the server was constructed with. */
    ghost const raw: Config

    /** The three services share the normalized configuration and the tool catalog is
        the one `initializeTools` builds. */
    ghost predicate Configured() {
      && config == Normalize(raw)
      && authService.config == config && wsClient.config == config
      && diagramTools.tools == Catalog()
    }

    /** In addition, the client keeps its settlement invariant. */
    ghost predicate Valid()
      reads this, wsClient
    {
      Configured() && wsClient.Valid()
    }

    /** The constructor normalizes the configuration and hands it to every service.
        `now` is the construction time the client's agent id is made from. */
    constructor (raw: Config, now: nat)
      ensures Valid()
      ensures this.raw == raw && config == Normalize(raw) && !isInitialized
      ensures fresh(authService) && fresh(wsClient)
      ensures !authService.ready
      ensures wsClient.ws == None && !wsClient.isConnecting
      ensures wsClient.pendingRequests == map[] && wsClient.settled == map[] && wsClient.notifications == []
    {
      var normalized := Normalize(raw);
      this.raw := raw;
      config := normalized;
      authService := new AuthService(normalized);
      wsClient := new DiagramWebSocketClient(normalized, now);
      diagramTools := new DiagramTools();
      isInitialized := false;
    }

    /** `initialize()`: once initialized, a no-op. Otherwise the key check, then the API
        health check (its answer is `apiReachable`), then `connect`, each failure escaping
        as it is; the flag is set only when all of them succeeded. */
    method Initialize(apiReachable: bool, attempt: nat -> Attempt) returns (r: Outcome<Exception>)
      requires Valid()
      modifies this, authService, wsClient
      ensures Valid()
      ensures old(isInitialized) ==>
        r == Pass && isInitialized && authService.ready == old(authService.ready) && unchanged(wsClient)
      ensures !old(isInitialized) ==> (isInitialized <==> r.Pass?)
      ensures !old(isInitialized) && !HasKeyPrefix(config.apiKey) ==>
        r == Fail(Error(InvalidKeyMessage)) && authService.ready == old(authService.ready) && unchanged(wsClient)
      ensures !old(isInitialized) && HasKeyPrefix(config.apiKey) ==> authService.ready
      ensures !old(isInitialized) && HasKeyPrefix(config.apiKey) && !apiReachable ==>
        r == Fail(Error(ApiUnreachableMessage)) && unchanged(wsClient)
      ensures !old(isInitialized) && HasKeyPrefix(config.apiKey) && apiReachable ==>
        && wsClient.pendingRequests == old(wsClient.pendingRequests)
        && wsClient.settled == old(wsClient.settled)
        && wsClient.notifications == old(wsClient.notifications)
        && (old(wsClient.isConnecting || wsClient.IsConnected()) ==>
              r == Pass && wsClient.ws == old(wsClient.ws) && wsClient.isConnecting == old(wsClient.isConnecting))
        && (!old(wsClient.isConnecting || wsClient.IsConnected()) ==>
              && r == ConnectRun(MaxRetries(config), attempt).outcome
              && (MaxRetries(config) <= 0 ==> wsClient.isConnecting && wsClient.ws == old(wsClient.ws))
              && (MaxRetries(config) > 0 ==>
                    && !wsClient.isConnecting
                    && wsClient.ws == Some(Socket(wsClient.SocketUrl(), if r.Pass? then Open else Closed))))
    {
      if isInitialized {
        return Pass;
      }
      r := authService.Initialize();
      if r.Fail? {
        return r;
      }
      if !apiReachable {
        return Fail(Error(ApiUnreachableMessage));
      }
      var attempts, pauses;
      r, attempts, pauses := wsClient.Connect(attempt);
      if r.Fail? {
        return r;
      }
      isInitialized := true;
    }

    /** The tool-listing handler. */
    method ListTools() returns (r: Result<seq<Tool>, Exception>)
      requires Valid()
      ensures !isInitialized ==> r == Failure(Error(NotInitializedMessage))
      ensures isInitialized ==> r == Success(Catalog()) && |r.value| == 8
    {
      if !isInitialized {
        return Failure(Error(NotInitializedMessage));
      }
      var tools := diagramTools.GetAvailableTools();
      CatalogMatchesSwitch();
      r := Success(tools);
    }

    /** The tool-call handler: refused before initialization; afterwards it runs
        `executeTool(name, args || {})` and reports its outcome, never throwing. */
    method CallTool(name: string, args: Option<Value>, c: Collaborators, duration: int)
      returns (r: Result<CallToolResult, Exception>, calls: seq<Call>)
      requires Valid()
      ensures !isInitialized ==> r == Failure(Error(NotInitializedMessage)) && calls == []
      ensures isInitialized ==>
        var x := Execute(name, ArgumentsOrEmpty(args), c, duration);
        && calls == x.calls
        && r == Success(Report(name, x.result))
    {
      if !isInitialized {
        return Failure(Error(NotInitializedMessage)), [];
      }
      var result;
      result, calls := diagramTools.ExecuteTool(name, ArgumentsOrEmpty(args), c, duration);
      r := Success(Report(name, result));
    }

    /** `close()`: the socket is dropped and every pending request rejected, the
        authentication service is no longer ready, and the flag is cleared. Neither
        teardown step can fail here, so there is nothing for the `catch` to swallow. */
    method Close()
      requires Valid()
      modifies this, authService, wsClient
      ensures Valid()
      ensures !isInitialized && !authService.ready
      ensures wsClient.ws == None && wsClient.pendingRequests == map[]
      ensures wsClient.settled == old(wsClient.settled) + LostAll(old(wsClient.pendingRequests).Keys)
      ensures wsClient.notifications == old(wsClient.notifications)
      ensures wsClient.isConnecting == old(wsClient.isConnecting)
      ensures !HealthCheck()
    {
      wsClient.Disconnect();
      authService.Close();
      isInitialized := false;
    }

    /** `healthCheck()`. */
    predicate HealthCheck()
      reads this, wsClient, authService
    {
      isInitialized && wsClient.IsConnected() && authService.IsReady()
    }

    /** `getConfig()`: every normalized field but the API key; the numbers and the flag
        are always present after normalization. */
    function GetConfig(): (p: PublicConfig)
      requires Configured()
      ensures p == Public(config) && p.apiUrl == raw.apiUrl
      ensures p.wsUrl.Some? && p.debug.Some? && p.requestTimeout.Some?
      ensures p.maxRetries.Some? && p.retryDelay.Some?
    {
      NormalizedNumbersAreSet(raw);
      Public(config)
    }

    /** `getStats()`, less uptime and memory usage. */
    function GetStats(): (s: Stats)
      reads this, wsClient, authService
      requires Configured()
      ensures s.availableTools == 8
      ensures s.initialized == isInitialized && s.websocketConnected == wsClient.IsConnected()
      ensures s.authServiceReady == authService.IsReady()
      ensures s.initialized && s.websocketConnected && s.authServiceReady <==> HealthCheck()
      ensures s.apiUrl == config.apiUrl && s.wsUrl == config.wsUrl
      ensures s.debug == config.debug && s.requestTimeout == config.requestTimeout
    {
      Stats(isInitialized, wsClient.IsConnected(), authService.IsReady(), diagramTools.GetToolCount(),
            config.apiUrl, config.wsUrl, config.debug, config.requestTimeout)
    }
  }

  /** `getConfig` hides the API key and nothing else: two configurations give the same
      public view exactly when they agree on every field but the key. */
  lemma PublicConfigOmitsKey(a: Config, b: Config)
    ensures Public(a) == Public(b) <==> a.(apiKey := b.apiKey) == b
  {
  }

  /** Through the server `args` is never `null`, so a call that passes the
      authentication and rate-limit checks always ends with its audit log call, and that
      entry records whether the call succeeded. */
  lemma ServedCallsAreAudited(name: string, args: Option<Value>, c: Collaborators, duration: int)
    requires c.authenticated && c.withinRateLimit(name)
    ensures var x := Execute(name, ArgumentsOrEmpty(args), c, duration);
      && |x.calls| > 2
      && x.calls[|x.calls| - 1].LogOperation?
      && x.calls[|x.calls| - 1].entry.tool == name
      && x.calls[|x.calls| - 1].entry.args == ArgumentsOrEmpty(args)
      && (x.result.Success? <==> x.calls[|x.calls| - 1].entry.success)
  {
    var v := ArgumentsOrEmpty(args);
    var step := Switch(name, v, c);
    if step.outcome.Failure? {
      FailureIsLoggedAndRethrown(name, v, c, duration);
    } else if c.logFailure(SuccessEntry(name, v, step.outcome.value, duration)).None? {
      var x := Execute(name, v, c, duration);
      assert x.result.Success?;
      SuccessIsLoggedOnce(name, v, c, duration);
    }
  }

  /** Every condition a tool call must meet to succeed, in the order `executeTool`
      meets them: authenticated, within the rate limit, a known tool, arguments its
      schema accepts, the permission granted, a non-`null` answer from the socket, and
      a success entry the audit log accepts. */
  predicate CallSucceeds(name: string, args: Value, c: Collaborators, duration: int)
    requires !args.Null?
  {
    && c.authenticated && c.withinRateLimit(name) && ToolNamed(name).Some?
    && var op := ToolNamed(name).value;
    && Parse(SchemaOf(op), args).Success?
    && c.permits(RequiredCapability(op))
    && var reply := c.send(BuildMessage(op, Parse(SchemaOf(op), args).value));
    && reply.Answered? && !reply.response.Null?
    && c.logFailure(SuccessEntry(name, args, Get(reply.response, "result"), duration)).None?
  }

  /** A tool call is reported as an error exactly when one of the conditions of
      `CallSucceeds` fails; otherwise the result is the tool's own success record, with
      the `result` field of the socket's answer. */
  lemma ToolErrorsBecomeResults(name: string, args: Value, c: Collaborators, duration: int)
    requires !args.Null?
    ensures var out := Report(name, Execute(name, args, c, duration).result);
      && (out.isError <==> !CallSucceeds(name, args, c, duration))
      && (out.isError ==> out.content.FailureRecord? && out.content.tool == name)
      && (!out.isError ==>
            var op := ToolNamed(name).value;
            var reply := c.send(BuildMessage(op, Parse(SchemaOf(op), args).value));
            out.content == Succeeded(ToolSuccess(Get(reply.response, "result"), name, duration)))
  {
  }

  /** A fresh server with a well-formed key, a reachable API, a positive retry limit and
      a socket that opens at the first attempt is healthy once initialized, and not
      healthy after `close`. */
  method HealthLifecycle(raw: Config, now: nat, attempt: nat -> Attempt)
    returns (before: bool, afterInit: bool, afterClose: bool)
    requires HasKeyPrefix(raw.apiKey) && attempt(0).Opened?
    requires raw.maxRetries.None? || raw.maxRetries.value >= 0
    ensures !before && afterInit && !afterClose
  {
    var server := new DiagramAIMCPServer(raw, now);
    before := server.HealthCheck();
    NormalizedNumbersAreSet(raw);
    ConnectRunSpec(MaxRetries(server.config), attempt);
    var run := ConnectRun(MaxRetries(server.config), attempt);
    assert MaxRetries(server.config) > 0;
    assert run.attempts == 1 && run.outcome.Pass?;
    var r := server.Initialize(true, attempt);
    afterInit := server.HealthCheck();
    server.Close();
    afterClose := server.HealthCheck();
  }
}
