/** `DiagramWebSocketClient`: the persistent socket to the diagram service, the bounded
    connect-retry loop, and the registry of requests awaiting a correlated reply.

    Each socket event handler runs to completion on one cooperative event loop.
    `connect` awaits between its attempts, but `Connect` is treated as one step, with
    no other event in between (the README's "Left out" says what that hides). The
    socket itself is abstract: an attempt to open it either succeeds or fails with an
    error (an input of `Connect`), and a socket's `close` event is the method `OnClose`. A promise's settlement is recorded
    per request id in `settled`; an emitted `'message'` event is appended to
    `notifications`. */
module WebSocketClient {
  import opened Wrappers
  import opened Js
  import opened ServerConfig

  /** `WebSocket.readyState`. */
  datatype ReadyState = Connecting | Open | Closing | Closed

  /** The socket the `ws` field points at: the address it was opened on and its state. */
  datatype Socket = Socket(url: string, state: ReadyState)

  type RequestId = string

  /** A pending entry: the handle of its timeout timer (its callbacks are modelled by
      the settlement recorded when they run). */
  datatype PendingRequest = PendingRequest(timeout: nat)

  /** How a pending request's promise ended: resolved with the reply, or rejected with
      an `Error` built from `reason`. */
  datatype Settlement = Resolved(reply: Value) | Rejected(reason: Value)

  /** The result of one `connectWebSocket()` attempt. */
  datatype Attempt = Opened | Failed(error: Exception)

  const ConnectionLost: string := "WebSocket connection lost"

  /** The settlement `cleanup` gives every request still pending. */
  function LostAll(ids: set<RequestId>): (m: map<RequestId, Settlement>)
    ensures m.Keys == ids
    ensures forall id :: id in m ==> m[id] == Rejected(Str(ConnectionLost))
  {
    map id | id in ids :: Rejected(Str(ConnectionLost))
  }

  /** How `handleMessage` settles the pending request a reply answers: rejected when the
      reply's `type` is `"error"` or its `error` is truthy (with `error || "Unknown error"`
      as the reason), resolved with the reply otherwise. */
  function SettlementOf(message: Value): (s: Settlement)
    ensures s.Rejected? <==> Get(message, "type") == Some(Str("error")) || Truthy(Get(message, "error"))
    ensures s.Resolved? ==> s.reply == message
    ensures s.Rejected? ==> Truthy(Some(s.reason))
  {
    if Get(message, "type") == Some(Str("error")) || Truthy(Get(message, "error"))
    then OrWithTruthyDefault(Get(message, "error"), Str("Unknown error"));
      Rejected(Or(Get(message, "error"), Str("Unknown error")))
    else Resolved(message)
  }

  /** Settling lost requests does not depend on the order they are visited in:
      rejecting the ids of `a` and then those of `b` gives the same settlements as doing
      all of them at once, or `b` first. */
  lemma LostAllSplit(a: set<RequestId>, b: set<RequestId>)
    ensures LostAll(a + b) == LostAll(a) + LostAll(b)
    ensures LostAll(a) + LostAll(b) == LostAll(b) + LostAll(a)
  {
  }

  /** `config.maxRetries || 3`: the number of attempts `connect` allows. */
  function MaxRetries(config: Config): int {
    OrNumber(config.maxRetries, DefaultMaxRetries)
  }

  /** `config.retryDelay || 1000`: the pause between two attempts, in milliseconds. */
  function RetryDelay(config: Config): int {
    OrNumber(config.retryDelay, DefaultRetryDelay)
  }

  /** The outcome of the retry loop and the number of attempts it made. */
  datatype Run = Run(outcome: Outcome<Exception>, attempts: nat)

  /** The retry loop from attempt number `k` on (attempts are numbered from 0). */
  function RunFrom(k: nat, limit: int, attempt: nat -> Attempt): Run
    requires k < limit
    decreases limit - k
  {
    match attempt(k)
    case Opened => Run(Pass, k + 1)
    case Failed(e) => if k + 1 >= limit then Run(Fail(e), k + 1) else RunFrom(k + 1, limit, attempt)
  }

  /** The whole loop: with a limit of zero or less its body never runs and `connect`
      resolves without a single attempt. */
  function ConnectRun(limit: int, attempt: nat -> Attempt): Run {
    if limit <= 0 then Run(Pass, 0) else RunFrom(0, limit, attempt)
  }

  /** From attempt `k` on the loop makes at least one and at most `limit - k` more
      attempts, every attempt but the last one failed, it succeeds exactly when the
      last attempt opened the socket, and it fails only after the limit is reached,
      with the error of the last attempt. */
  lemma {:induction false} RunFromSpec(k: nat, limit: int, attempt: nat -> Attempt)
    requires k < limit
    ensures k < RunFrom(k, limit, attempt).attempts <= limit
    ensures forall i :: k <= i < RunFrom(k, limit, attempt).attempts - 1 ==> attempt(i).Failed?
    ensures RunFrom(k, limit, attempt).outcome.Pass? <==> attempt(RunFrom(k, limit, attempt).attempts - 1).Opened?
    ensures RunFrom(k, limit, attempt).outcome.Fail? ==>
      RunFrom(k, limit, attempt).attempts == limit &&
      attempt(limit - 1) == Failed(RunFrom(k, limit, attempt).outcome.error)
    decreases limit - k
  {
    match attempt(k)
    case Opened =>
    case Failed(e) =>
      if k + 1 < limit {
        RunFromSpec(k + 1, limit, attempt);
      }
  }

  /** `connect` makes at most `maxRetries || 3` attempts and stops at the first one
      that opens the socket; when all of them fail it reports the last attempt's error. */
  lemma ConnectRunSpec(limit: int, attempt: nat -> Attempt)
    ensures limit <= 0 ==> ConnectRun(limit, attempt) == Run(Pass, 0)
    ensures limit > 0 ==>
      var run := ConnectRun(limit, attempt);
      && 1 <= run.attempts <= limit
      && (forall i :: 0 <= i < run.attempts - 1 ==> attempt(i).Failed?)
      && (run.outcome.Pass? <==> attempt(run.attempts - 1).Opened?)
      && (run.outcome.Fail? ==> run.attempts == limit && attempt(limit - 1) == Failed(run.outcome.error))
  {
    if limit > 0 {
      RunFromSpec(0, limit, attempt);
    }
  }

  class DiagramWebSocketClient {
    const config: Config
    const agentId: string
    var ws: Option<Socket>
    var isConnecting: bool
    var pendingRequests: map<RequestId, PendingRequest>
    var settled: map<RequestId, Settlement>
    var notifications: seq<Value>

    /** Exactly-once settlement: an id that is still pending has not been settled. */
    ghost predicate Valid()
      reads this
    {
      pendingRequests.Keys !! settled.Keys
    }

    /** `agentId` is `mcp-agent-<now>`, with `now` the construction time in milliseconds. */
    constructor (config: Config, now: nat)
      ensures Valid()
      ensures this.config == config && agentId == "mcp-agent-" + NatToString(now)
      ensures ws == None && !isConnecting
      ensures pendingRequests == map[] && settled == map[] && notifications == []
    {
      this.config := config;
      agentId := "mcp-agent-" + NatToString(now);
      ws := None;
      isConnecting := false;
      pendingRequests := map[];
      settled := map[];
      notifications := [];
    }

    /** The address each attempt opens: `${wsUrl}/ws/diagrams?agent_id=${agentId}`. */
    function SocketUrl(): string {
      (if config.wsUrl.Some? then config.wsUrl.value else "undefined")
        + "/ws/diagrams?agent_id=" + agentId
    }

    /** `ws?.readyState === WebSocket.OPEN`. */
    predicate IsConnected()
      reads this
    {
      ws.Some? && ws.value.state == Open
    }

    /** Adds a pending entry. The bridge's request sender is not part of this model;
        this method stands for it, under its guarantee that every id is fresh. */
    method Register(id: RequestId, timeout: nat)
      requires Valid()
      requires id !in pendingRequests && id !in settled
      modifies this
      ensures Valid()
      ensures pendingRequests == old(pendingRequests)[id := PendingRequest(timeout)]
      ensures settled == old(settled) && notifications == old(notifications)
      ensures ws == old(ws) && isConnecting == old(isConnecting)
    {
      pendingRequests := pendingRequests[id := PendingRequest(timeout)];
    }

    /** `connect()`. A no-op while a connect is in progress or the socket is open.
        Otherwise attempt `i` (from 0) ends as `attempt(i)` says, each attempt replaces
        the socket, and one `retryDelay || 1000` pause separates two consecutive
        attempts. A limit of zero or less leaves `isConnecting` set for good. */
    method Connect(attempt: nat -> Attempt) returns (r: Outcome<Exception>, attempts: nat, pauses: seq<int>)
      requires Valid()
      modifies this
      ensures Valid()
      ensures pendingRequests == old(pendingRequests) && settled == old(settled)
      ensures notifications == old(notifications)
      ensures old(isConnecting || IsConnected()) ==>
        r == Pass && attempts == 0 && pauses == [] && ws == old(ws) && isConnecting == old(isConnecting)
      ensures !old(isConnecting || IsConnected()) ==>
        && Run(r, attempts) == ConnectRun(MaxRetries(config), attempt)
        && (MaxRetries(config) <= 0 ==> isConnecting && ws == old(ws) && pauses == [])
        && (MaxRetries(config) > 0 ==>
              && !isConnecting
              && (IsConnected() <==> r.Pass?)
              && |pauses| == attempts - 1
              && ws == Some(Socket(SocketUrl(), if r.Pass? then Open else Closed)))
      ensures forall i :: 0 <= i < |pauses| ==> pauses[i] == RetryDelay(config)
    {
      if isConnecting || IsConnected() {
        return Pass, 0, [];
      }
      isConnecting := true;
      var retries := 0;
      attempts, pauses := 0, [];
      while retries < MaxRetries(config)
        invariant attempts == retries && |pauses| == retries
        invariant retries > 0 ==> retries < MaxRetries(config)
        invariant retries > 0 ==> ConnectRun(MaxRetries(config), attempt) == RunFrom(retries, MaxRetries(config), attempt)
        invariant retries > 0 ==> ws == Some(Socket(SocketUrl(), Closed))
        invariant retries == 0 ==> ws == old(ws)
        invariant isConnecting
        invariant forall i :: 0 <= i < |pauses| ==> pauses[i] == RetryDelay(config)
        invariant pendingRequests == old(pendingRequests) && settled == old(settled)
        invariant notifications == old(notifications)
        decreases MaxRetries(config) - retries
      {
        attempts := attempts + 1;
        match attempt(retries)
        case Opened =>
          ws := Some(Socket(SocketUrl(), Open));
          isConnecting := false;
          r := Pass;
          return;
        case Failed(e) =>
          ws := Some(Socket(SocketUrl(), Closed));
          retries := retries + 1;
          if retries >= MaxRetries(config) {
            isConnecting := false;
            r := Fail(e);
            return;
          }
          pauses := pauses + [RetryDelay(config)];
      }
      r := Pass;
    }

    /** `cleanup()`: every pending request is rejected with `'WebSocket connection lost'`
        and the registry is emptied; nothing settled before is touched. */
    method Cleanup()
      requires Valid()
      modifies this
      ensures Valid()
      ensures pendingRequests == map[]
      ensures settled == old(settled) + LostAll(old(pendingRequests).Keys)
      ensures ws == old(ws) && isConnecting == old(isConnecting) && notifications == old(notifications)
    {
      var remaining := pendingRequests.Keys;
      while remaining != {}
        invariant remaining <= old(pendingRequests).Keys
        invariant settled == old(settled) + LostAll(old(pendingRequests).Keys - remaining)
        invariant pendingRequests == old(pendingRequests)
        invariant ws == old(ws) && isConnecting == old(isConnecting) && notifications == old(notifications)
        decreases remaining
      {
        var id :| id in remaining;
        settled := settled[id := Rejected(Str(ConnectionLost))];
        remaining := remaining - {id};
        assert old(pendingRequests).Keys - remaining
            == (old(pendingRequests).Keys - (remaining + {id})) + {id};
        LostAllSplit(old(pendingRequests).Keys - (remaining + {id}), {id});
      }
      pendingRequests := map[];
    }

    /** `disconnect()`: closes and drops the socket if there is one, then runs
        `cleanup`. Calling it again finds nothing left to settle. */
    method Disconnect()
      requires Valid()
      modifies this
      ensures Valid()
      ensures ws == None && pendingRequests == map[]
      ensures settled == old(settled) + LostAll(old(pendingRequests).Keys)
      ensures isConnecting == old(isConnecting) && notifications == old(notifications)
    {
      if ws.Some? {
        ws := None;
      }
      Cleanup();
    }

    /** A socket's `close` event: every socket gets its own listener, which only runs
        `cleanup`. `current` says whether the socket that closed is the one `ws` holds;
        only then does the held socket end closed. The close of a socket that an earlier
        `disconnect` dropped leaves `ws`, and whether the client is connected, as they
        were. */
    method OnClose(current: bool)
      requires Valid()
      modifies this
      ensures Valid()
      ensures current && old(ws).Some? ==> ws == Some(old(ws).value.(state := Closed)) && !IsConnected()
      ensures !current || old(ws).None? ==> ws == old(ws)
      ensures pendingRequests == map[]
      ensures settled == old(settled) + LostAll(old(pendingRequests).Keys)
      ensures isConnecting == old(isConnecting) && notifications == old(notifications)
    {
      if current && ws.Some? {
        ws := Some(ws.value.(state := Closed));
      }
      Cleanup();
    }

    /** `handleMessage(data)`, given what `JSON.parse` made of the frame (`None` when
        it threw). A reply whose truthy `request_id` is pending removes exactly that
        entry and settles it; rejected when its `type` is `'error'` or its `error` is
        truthy, with `error || 'Unknown error'`, resolved with the reply otherwise. Any
        other parsed value is emitted as a notification. A frame that does not parse,
        or parses to `null` (reading `request_id` of it throws), changes nothing. */
    method HandleMessage(parsed: Option<Value>)
      requires Valid()
      modifies this
      ensures Valid()
      ensures ws == old(ws) && isConnecting == old(isConnecting)
      ensures parsed.None? || parsed == Some(Null) ==>
        pendingRequests == old(pendingRequests) && settled == old(settled) && notifications == old(notifications)
      ensures parsed.Some? && parsed != Some(Null) ==>
        var message := parsed.value;
        var id := Get(message, "request_id");
        if Truthy(id) && id.value.Str? && id.value.s in old(pendingRequests) then
          && id.value.s !in old(settled)
          && pendingRequests == old(pendingRequests) - {id.value.s}
          && settled == old(settled)[id.value.s := SettlementOf(message)]
          && notifications == old(notifications)
        else
          && pendingRequests == old(pendingRequests) && settled == old(settled)
          && notifications == old(notifications) + [message]
    {
      if parsed.None? || parsed.value.Null? {
        return;
      }
      var message := parsed.value;
      var id := Get(message, "request_id");
      if Truthy(id) && id.value.Str? && id.value.s in pendingRequests {
        var requestId := id.value.s;
        pendingRequests := pendingRequests - {requestId};
        settled := settled[requestId := SettlementOf(message)];
        return;
      }
      notifications := notifications + [message];
    }
  }

  /** A request is settled at most once: once a reply carrying its id has been matched,
      any later message carrying the same id is only emitted as a notification and the
      first settlement stands. */
  method DuplicateReply(client: DiagramWebSocketClient, id: RequestId, first: Value, second: Value)
    requires client.Valid() && id in client.pendingRequests && id != ""
    requires first != Null && Get(first, "request_id") == Some(Str(id))
    requires second != Null && Get(second, "request_id") == Some(Str(id))
    modifies client
    ensures client.Valid()
    ensures id !in client.pendingRequests && id !in old(client.settled)
    ensures client.settled.Keys == old(client.settled).Keys + {id}
    ensures client.settled == old(client.settled)[id := SettlementOf(first)]
    ensures client.notifications == old(client.notifications) + [second]
  {
    client.HandleMessage(Some(first));
    client.HandleMessage(Some(second));
  }

  /** The close of a socket that the client no longer holds rejects what is pending
      but leaves an open connection open. */
  method StaleCloseKeepsConnection(client: DiagramWebSocketClient)
    requires client.Valid() && client.IsConnected()
    modifies client
    ensures client.Valid() && client.IsConnected()
    ensures client.pendingRequests == map[]
    ensures client.settled == old(client.settled) + LostAll(old(client.pendingRequests).Keys)
  {
    client.OnClose(false);
  }

  /** `disconnect` is safe to repeat: the second call finds no socket and no pending
      request, so it settles nothing more. */
  method DisconnectTwice(client: DiagramWebSocketClient)
    requires client.Valid()
    modifies client
    ensures client.Valid()
    ensures client.ws == None && client.pendingRequests == map[]
    ensures client.settled == old(client.settled) + LostAll(old(client.pendingRequests).Keys)
    ensures client.notifications == old(client.notifications)
  {
    client.Disconnect();
    var afterFirst := client.settled;
    client.Disconnect();
    assert LostAll({}) == map[];
    assert client.settled == afterFirst;
  }
}
