/** The log-streaming connection manager (`LogsService` of the TypeScript client).
    The socket is an optional value, socket events are method calls without a
    socket identity (the handlers are bound to the manager, not to one socket),
    the token request and the construction of a socket are inputs, and the
    pending reconnect timer is an optional delay. Each call runs to completion,
    as on the single-threaded event loop. */
module Logs {
  import opened Wrappers
  import opened Strings
  import opened LogProtocol
  import opened LogBuffer
  import opened Backoff

  /** The two errors `startLogging` rejects with. */
  datatype StartError = NoContainer | AuthFailed

  function StartErrorMessage(e: StartError): string {
    match e
    case NoContainer => "Please select a container first"
    case AuthFailed => "Failed to authenticate for log streaming. Please try again."
  }

  /** Outcome of `startLogging`: resolved, or rejected with an error. */
  datatype StartOutcome = Started | Rejected(error: StartError)

  /** The status edges a manager produces from its initial disconnected state:
      `true`, `false`, `true`, ... */
  ghost predicate Alternates(transitions: seq<bool>) {
    forall i :: 0 <= i < |transitions| ==> transitions[i] == (i % 2 == 0)
  }

  class LogsService {
    var socket: Option<Socket>
    var isConnected: bool
    var containerName: Option<string>
    var token: Option<string>
    var reconnectAttempts: nat
    var autoScrollEnabled: bool
    var logBuffer: seq<LogEntry>
    /** The delay of the pending reconnect timer (`reconnectTimerId !== null`). */
    var reconnectTimer: Option<nat>
    var intentionalClosure: bool
    /** Whether `onLogEntry` / `onConnectionStatusChange` are set. */
    var hasLogListener: bool
    var hasStatusListener: bool

    /** Control messages the manager tried to send, in order: every `send`
        and `close` it called on the socket, whether or not the call threw. */
    ghost var sent: seq<Control>
    /** Arguments of the `onLogEntry` calls, in order. */
    ghost var delivered: seq<LogEntry>
    /** Arguments of the `onConnectionStatusChange` calls, in order. */
    ghost var statusCalls: seq<bool>
    /** Every change of `isConnected`, whether or not a listener was set. */
    ghost var transitions: seq<bool>

    ghost predicate Valid()
      reads this
    {
      && |logBuffer| <= Capacity
      && reconnectAttempts <= MaxReconnectAttempts
      && (reconnectTimer.Some? ==> IsBackoffDelay(reconnectTimer.value))
      && Alternates(transitions)
      && isConnected == (|transitions| % 2 == 1)
    }

    /** `new LogsService(options)`: the options may set either callback. */
    constructor (onLogEntry: bool, onConnectionStatusChange: bool)
      ensures Valid()
      ensures socket == None && !isConnected && containerName == None && token == None
      ensures reconnectAttempts == 0 && autoScrollEnabled && logBuffer == []
      ensures reconnectTimer == None && !intentionalClosure
      ensures hasLogListener == onLogEntry && hasStatusListener == onConnectionStatusChange
      ensures sent == [] && delivered == [] && statusCalls == [] && transitions == []
    {
      socket := None;
      isConnected := false;
      containerName := None;
      token := None;
      reconnectAttempts := 0;
      autoScrollEnabled := true;
      logBuffer := [];
      reconnectTimer := None;
      intentionalClosure := false;
      hasLogListener := onLogEntry;
      hasStatusListener := onConnectionStatusChange;
      sent := [];
      delivered := [];
      statusCalls := [];
      transitions := [];
    }

    /** Assigning the public callback properties (a view registering or removing itself). */
    method SetListeners(onLogEntry: bool, onConnectionStatusChange: bool)
      requires Valid()
      modifies this`hasLogListener, this`hasStatusListener
      ensures Valid()
      ensures hasLogListener == onLogEntry && hasStatusListener == onConnectionStatusChange
    {
      hasLogListener := onLogEntry;
      hasStatusListener := onConnectionStatusChange;
    }

    method SetAutoScroll(enabled: bool)
      modifies this`autoScrollEnabled
      ensures autoScrollEnabled == enabled
    {
      autoScrollEnabled := enabled;
    }

    function IsAutoScrollEnabled(): bool
      reads this
    {
      autoScrollEnabled
    }

    function GetConnectionStatus(): bool
      reads this
    {
      isConnected
    }

    /** `[...this.logBuffer]`: the buffered entries in insertion order, as a value
        that later appends and clears do not affect. */
    function GetLogBuffer(): (r: seq<LogEntry>)
      reads this
      requires Valid()
      ensures |r| <= Capacity
      ensures r == logBuffer
    {
      logBuffer
    }

    /** `addLogEntry`: stamp the entry, append it (evicting the oldest beyond
        capacity) and hand the same entry to `onLogEntry` once. */
    method AddLogEntry(e: LogEntry)
      requires Valid()
      modifies this`logBuffer, this`delivered
      ensures Valid()
      ensures logBuffer == Push(old(logBuffer), StampFromMessage(e))
      ensures delivered == old(delivered) + if hasLogListener then [StampFromMessage(e)] else []
    {
      var entry := StampFromMessage(e);
      PushKeepsMostRecent(logBuffer, entry);
      logBuffer := Push(logBuffer, entry);
      if hasLogListener {
        delivered := delivered + [entry];
      }
    }

    /** `setConnectionStatus`: acts, and notifies, only on an actual change. */
    method SetConnectionStatus(connected: bool)
      requires Valid()
      modifies this`isConnected, this`statusCalls, this`transitions
      ensures Valid()
      ensures isConnected == connected
      ensures transitions == old(transitions) + if old(isConnected) != connected then [connected] else []
      ensures statusCalls == old(statusCalls) + if old(isConnected) != connected && hasStatusListener then [connected] else []
    {
      if isConnected != connected {
        isConnected := connected;
        transitions := transitions + [connected];
        if hasStatusListener {
          statusCalls := statusCalls + [connected];
        }
      }
    }

    /** The state changes of `connectWebSocket`: close and drop a current socket,
        then either hold a new one and log "Connecting...", or log the
        construction failure `failure`. */
    method ConnectWebSocket(created: bool, failure: string)
      requires Valid()
      modifies this`socket, this`sent, this`logBuffer, this`delivered
      ensures Valid()
      ensures sent == old(sent) + if old(socket).Some? then [Close(None)] else []
      ensures created ==> socket == Some(Socket(token))
      ensures !created ==> socket == None
      ensures var e := if created then Notice(System, Connecting(NameText(containerName)))
                       else Notice(Error, ConnectFailed(failure));
              logBuffer == Push(old(logBuffer), e)
              && delivered == old(delivered) + if hasLogListener then [e] else []
    {
      if socket.Some? {
        sent := sent + [Close(None)];
        socket := None;
      }
      if created {
        socket := Some(Socket(token));
        AddLogEntry(Notice(System, Connecting(NameText(containerName))));
      } else {
        AddLogEntry(Notice(Error, ConnectFailed(failure)));
      }
    }

    /** `fetchJwtToken`: a 200 answer with a non-empty token stores it and
        succeeds; anything else fails and keeps the token held before. */
    method FetchJwtToken(fetch: TokenFetch) returns (ok: bool)
      modifies this`token
      ensures ok <==> IssuedToken(fetch).Some?
      ensures token == if ok then IssuedToken(fetch) else old(token)
    {
      var issued := IssuedToken(fetch);
      if issued.None? {
        return false;
      }
      token := issued;
      ok := true;
    }

    /** The part of `startLogging` after the name check: cancel the pending
        timer, reset the attempts, request a token when none is held, and
        connect unless that request fails. */
    method Restart(fetch: TokenFetch, created: bool, failure: string) returns (r: StartOutcome)
      requires Valid()
      modifies this`reconnectTimer, this`reconnectAttempts, this`token, this`socket, this`sent, this`logBuffer, this`delivered
      ensures Valid()
      ensures reconnectTimer == None && reconnectAttempts == 0
      ensures r == if Truthy(old(token)) || IssuedToken(fetch).Some? then Started else Rejected(AuthFailed)
      ensures token == if !Truthy(old(token)) && IssuedToken(fetch).Some? then IssuedToken(fetch) else old(token)
      ensures r.Rejected? ==> socket == old(socket) && sent == old(sent) && logBuffer == old(logBuffer) && delivered == old(delivered)
      ensures r == Started ==> Truthy(token)
      ensures r == Started ==> sent == old(sent) + if old(socket).Some? then [Close(None)] else []
      ensures r == Started ==> (created ==> socket == Some(Socket(token))) && (!created ==> socket == None)
      ensures r == Started ==>
                var e := if created then Notice(System, Connecting(NameText(containerName)))
                         else Notice(Error, ConnectFailed(failure));
                logBuffer == Push(old(logBuffer), e) && delivered == old(delivered) + if hasLogListener then [e] else []
    {
      reconnectTimer := None;  // clearTimeout on the pending id, if any
      reconnectAttempts := 0;
      if !Truthy(token) {
        var ok := FetchJwtToken(fetch);
        if !ok {
          return Rejected(AuthFailed);
        }
      }
      ConnectWebSocket(created, failure);
      r := Started;
    }

    /** `startLogging(name)`: `fetch` is what the token request would return and
        is consulted only when no token is held; `created` says whether the
        socket constructor succeeds. */
    method StartLogging(name: string, fetch: TokenFetch, created: bool, failure: string) returns (r: StartOutcome)
      requires Valid()
      modifies this`intentionalClosure, this`containerName, this`reconnectTimer, this`reconnectAttempts
      modifies this`token, this`socket, this`sent, this`logBuffer, this`delivered
      ensures Valid()
      ensures !intentionalClosure && containerName == Some(name)
      // an empty name rejects before anything else changes; a token is requested
      // only when none is held, and a failed request rejects without connecting
      ensures r == if name == "" then Rejected(NoContainer)
                   else if Truthy(old(token)) || IssuedToken(fetch).Some? then Started
                   else Rejected(AuthFailed)
      ensures name == "" ==> reconnectTimer == old(reconnectTimer) && reconnectAttempts == old(reconnectAttempts)
      ensures name != "" ==> reconnectTimer == None && reconnectAttempts == 0
      ensures token == if name != "" && !Truthy(old(token)) && IssuedToken(fetch).Some? then IssuedToken(fetch) else old(token)
      ensures r.Rejected? ==> socket == old(socket) && sent == old(sent) && logBuffer == old(logBuffer) && delivered == old(delivered)
      // resolving means connectWebSocket ran
      ensures r == Started ==> Truthy(token)
      ensures r == Started ==> sent == old(sent) + if old(socket).Some? then [Close(None)] else []
      ensures r == Started ==> (created ==> socket == Some(Socket(token))) && (!created ==> socket == None)
      ensures r == Started ==>
                var e := if created then Notice(System, Connecting(name))
                         else Notice(Error, ConnectFailed(failure));
                logBuffer == Push(old(logBuffer), e) && delivered == old(delivered) + if hasLogListener then [e] else []
    {
      intentionalClosure := false;
      containerName := Some(name);
      if name == "" {
        return Rejected(NoContainer);
      }
      r := Restart(fetch, created, failure);
    }

    /** `stopLogging()`: always marks the closure intentional and cancels the
        pending timer; with a socket, sends `stop_logs` only while connected,
        closes with 1000, drops the socket, reports disconnection and logs one
        system entry. Without a socket nothing else changes. */
    method StopLogging()
      requires Valid()
      modifies this`intentionalClosure, this`reconnectTimer, this`socket, this`sent
      modifies this`isConnected, this`statusCalls, this`transitions, this`logBuffer, this`delivered
      ensures Valid()
      ensures intentionalClosure && reconnectTimer == None && socket == None
      ensures old(socket).None? ==>
                isConnected == old(isConnected) && logBuffer == old(logBuffer) && sent == old(sent)
                && delivered == old(delivered) && statusCalls == old(statusCalls) && transitions == old(transitions)
      ensures old(socket).Some? ==>
                && !isConnected
                && sent == old(sent) + (if old(isConnected) then [StopLogs] else []) + [Close(Some(NormalClosure))]
                && transitions == old(transitions) + (if old(isConnected) then [false] else [])
                && statusCalls == old(statusCalls) + (if old(isConnected) && hasStatusListener then [false] else [])
                && logBuffer == Push(old(logBuffer), Notice(System, Stopped))
                && delivered == old(delivered) + if hasLogListener then [Notice(System, Stopped)] else []
    {
      intentionalClosure := true;
      reconnectTimer := None;  // clearTimeout on the pending id, if any
      if socket.Some? {
        CloseStream();
      }
    }

    /** The socket branch of `stopLogging`: `stop_logs` only while connected,
        then the normal close, no socket, disconnected, one system entry. */
    method CloseStream()
      requires Valid() && socket.Some?
      modifies this`socket, this`sent, this`isConnected, this`statusCalls, this`transitions, this`logBuffer, this`delivered
      ensures Valid()
      ensures socket == None && !isConnected
      ensures sent == old(sent) + (if old(isConnected) then [StopLogs] else []) + [Close(Some(NormalClosure))]
      ensures transitions == old(transitions) + (if old(isConnected) then [false] else [])
      ensures statusCalls == old(statusCalls) + (if old(isConnected) && hasStatusListener then [false] else [])
      ensures logBuffer == Push(old(logBuffer), Notice(System, Stopped))
      ensures delivered == old(delivered) + if hasLogListener then [Notice(System, Stopped)] else []
    {
      if isConnected {
        sent := sent + [StopLogs];
      }
      sent := sent + [Close(Some(NormalClosure))];
      socket := None;
      SetConnectionStatus(false);
      AddLogEntry(Notice(System, Stopped));
    }

    /** `clearLogs()`: empties the buffer and nothing else. */
    method ClearLogs()
      requires Valid()
      modifies this`logBuffer
      ensures Valid()
      ensures logBuffer == []
    {
      logBuffer := [];
    }

    /** `handleSocketOpen`: connected, attempts reset, and, with a socket and a
        container, exactly one `start_logs` for that container; a send that
        throws (`sendOk` false, with message `sendError`) logs one error entry. */
    method HandleSocketOpen(sendOk: bool, sendError: string)
      requires Valid()
      modifies this`isConnected, this`statusCalls, this`transitions, this`reconnectAttempts
      modifies this`sent, this`logBuffer, this`delivered
      ensures Valid()
      ensures isConnected && reconnectAttempts == 0
      ensures transitions == old(transitions) + (if !old(isConnected) then [true] else [])
      ensures statusCalls == old(statusCalls) + (if !old(isConnected) && hasStatusListener then [true] else [])
      ensures var starts := socket.Some? && Truthy(containerName);
              && sent == old(sent) + (if starts then [StartLogs(containerName)] else [])
              && var failed := starts && !sendOk;
                 var e := Notice(Error, StartFailed(sendError));
                 && logBuffer == (if failed then Push(old(logBuffer), e) else old(logBuffer))
                 && delivered == old(delivered) + (if failed && hasLogListener then [e] else [])
    {
      SetConnectionStatus(true);
      reconnectAttempts := 0;
      if socket.Some? && Truthy(containerName) {
        sent := sent + [StartLogs(containerName)];
        if !sendOk {
          AddLogEntry(Notice(Error, StartFailed(sendError)));
        }
      }
    }

    /** `handleSocketMessage`: every frame becomes exactly one entry, a parse
        failure a synthetic error entry. */
    method HandleSocketMessage(frame: Incoming)
      requires Valid()
      modifies this`logBuffer, this`delivered
      ensures Valid()
      ensures var e := if frame.Parsed? then StampFromMessage(frame.entry)
                       else Notice(Error, ParseFailed(frame.error));
              logBuffer == Push(old(logBuffer), e) && delivered == old(delivered) + if hasLogListener then [e] else []
    {
      match frame
      case Parsed(entry) =>
        AddLogEntry(entry);
      case Unparsable(error) =>
        AddLogEntry(Notice(Error, ParseFailed(error)));
    }

    /** `attemptReconnect`: within the budget, count the attempt, announce it and
        (re)arm the single timer with the attempt's delay; at the cap, log the
        give-up error and arm nothing. */
    method AttemptReconnect()
      requires Valid()
      modifies this`reconnectAttempts, this`reconnectTimer, this`logBuffer, this`delivered
      ensures Valid()
      ensures old(reconnectAttempts) >= MaxReconnectAttempts ==>
                && reconnectAttempts == old(reconnectAttempts) && reconnectTimer == old(reconnectTimer)
                && logBuffer == Push(old(logBuffer), Notice(Error, GaveUp))
                && delivered == old(delivered) + if hasLogListener then [Notice(Error, GaveUp)] else []
      ensures old(reconnectAttempts) < MaxReconnectAttempts ==>
                && reconnectAttempts == old(reconnectAttempts) + 1
                && reconnectTimer == Some(Delay(reconnectAttempts))
                && var e := Notice(System, Reconnecting(Delay(reconnectAttempts), reconnectAttempts));
                   && logBuffer == Push(old(logBuffer), e)
                   && delivered == old(delivered) + if hasLogListener then [e] else []
    {
      if reconnectAttempts >= MaxReconnectAttempts {
        AddLogEntry(Notice(Error, GaveUp));
        return;
      }
      reconnectAttempts := reconnectAttempts + 1;
      var delay := Delay(reconnectAttempts);
      AddLogEntry(Notice(System, Reconnecting(Delay(reconnectAttempts), reconnectAttempts)));
      if reconnectTimer.Some? {
        reconnectTimer := None;
      }
      reconnectTimer := Some(delay);
    }

    /** `handleSocketClose(code)`: report disconnection, then reconnect only when
        the closure was not intentional and the code is not 1000. */
    method HandleSocketClose(code: int)
      requires Valid()
      modifies this`isConnected, this`statusCalls, this`transitions
      modifies this`reconnectAttempts, this`reconnectTimer, this`logBuffer, this`delivered
      ensures Valid()
      ensures !isConnected
      ensures transitions == old(transitions) + (if old(isConnected) then [false] else [])
      ensures statusCalls == old(statusCalls) + (if old(isConnected) && hasStatusListener then [false] else [])
      ensures !ShouldReconnect(old(intentionalClosure), code) ==>
                reconnectAttempts == old(reconnectAttempts) && reconnectTimer == old(reconnectTimer)
                && logBuffer == old(logBuffer) && delivered == old(delivered)
      ensures ShouldReconnect(old(intentionalClosure), code) && old(reconnectAttempts) >= MaxReconnectAttempts ==>
                reconnectAttempts == old(reconnectAttempts) && reconnectTimer == old(reconnectTimer)
                && logBuffer == Push(old(logBuffer), Notice(Error, GaveUp))
                && delivered == old(delivered) + if hasLogListener then [Notice(Error, GaveUp)] else []
      ensures ShouldReconnect(old(intentionalClosure), code) && old(reconnectAttempts) < MaxReconnectAttempts ==>
                reconnectAttempts == old(reconnectAttempts) + 1
                && reconnectTimer == Some(Delay(reconnectAttempts))
                && var e := Notice(System, Reconnecting(Delay(reconnectAttempts), reconnectAttempts));
                   && logBuffer == Push(old(logBuffer), e)
                   && delivered == old(delivered) + if hasLogListener then [e] else []
    {
      SetConnectionStatus(false);
      if !intentionalClosure && code != NormalClosure {
        AttemptReconnect();
      }
    }

    /** `handleSocketError`: one error entry, nothing else. */
    method HandleSocketError()
      requires Valid()
      modifies this`logBuffer, this`delivered
      ensures Valid()
      ensures logBuffer == Push(old(logBuffer), Notice(Error, SocketError))
      ensures delivered == old(delivered) + if hasLogListener then [Notice(Error, SocketError)] else []
    {
      AddLogEntry(Notice(Error, SocketError));
    }

    /** The reconnect timer's callback: it forgets its own id and reconnects only
        while disconnected, with a container, and not intentionally closed. Only
        a pending timer can fire (a cleared one never does). */
    method FireReconnectTimer(created: bool, failure: string)
      requires Valid()
      requires reconnectTimer.Some?
      modifies this`reconnectTimer, this`socket, this`sent, this`logBuffer, this`delivered
      ensures Valid()
      ensures reconnectTimer == None
      ensures var reconnects := !isConnected && Truthy(containerName) && !intentionalClosure;
              && (!reconnects ==>
                    socket == old(socket) && sent == old(sent) && logBuffer == old(logBuffer) && delivered == old(delivered))
              && (reconnects ==>
                    && sent == old(sent) + (if old(socket).Some? then [Close(None)] else [])
                    && (created ==> socket == Some(Socket(token)))
                    && (!created ==> socket == None)
                    && var e := if created then Notice(System, Connecting(containerName.value))
                               else Notice(Error, ConnectFailed(failure));
                       logBuffer == Push(old(logBuffer), e) && delivered == old(delivered) + if hasLogListener then [e] else [])
    {
      reconnectTimer := None;
      if !isConnected && Truthy(containerName) && !intentionalClosure {
        ConnectWebSocket(created, failure);
      }
    }
  }
}
