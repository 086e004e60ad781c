/** The log-streaming manager of the plain-script dashboard (`js/logs.js`). It
    shares the protocol, the buffer rule and the backoff policy with the
    TypeScript manager but differs in four ways the model keeps explicit:
    there is no intentional-closure flag, its reconnect timers are never
    tracked or cleared (every scheduled one is kept in `pendingTimers` until it
    fires), the attempt counter is reset only on open, and an entry is dropped
    when the page has no logs container. The page's UI updates
    (`updateLogsUIState`) and the error banners (`showError`) are recorded in
    ghost sequences. */
module LegacyLogs {
  import opened Wrappers
  import opened LogProtocol
  import opened LogBuffer
  import opened Backoff

  /** The banners `showError` puts above the log view: "Please select a
      container first", "Failed to authenticate for log streaming. Please try
      again." and "Failed to connect to log service: " followed by the failure. */
  datatype Banner = SelectContainerFirst | AuthenticationFailed | ConnectionFailed(failure: string)

  class LogsService {
    var socket: Option<Socket>
    var isConnected: bool
    var containerName: Option<string>
    var token: Option<string>
    var reconnectAttempts: nat
    var autoScrollEnabled: bool
    var logBuffer: seq<LogEntry>
    /** The delays of the scheduled reconnect timers that have not fired yet. */
    var pendingTimers: seq<nat>
    /** Whether the page has the `logs-container` element. */
    const hasLogsContainer: bool

    /** Control messages the manager tried to send, in order: every `send`
        and `close` it called on the socket, whether or not the call threw. */
    ghost var sent: seq<Control>
    /** Arguments of the `updateLogsUIState` calls, in order. */
    ghost var uiStates: seq<bool>
    /** The banners shown, in order. */
    ghost var banners: seq<Banner>

    ghost predicate Valid()
      reads this
    {
      && |logBuffer| <= Capacity
      && reconnectAttempts <= MaxReconnectAttempts
      && forall i :: 0 <= i < |pendingTimers| ==> IsBackoffDelay(pendingTimers[i])
    }

    /** `new LogsService()` on a page that has, or lacks, the logs container. */
    constructor (pageHasLogsContainer: bool)
      ensures Valid()
      ensures socket == None && !isConnected && containerName == None && token == None
      ensures reconnectAttempts == 0 && autoScrollEnabled && logBuffer == [] && pendingTimers == []
      ensures hasLogsContainer == pageHasLogsContainer
      ensures sent == [] && uiStates == [] && banners == []
    {
      socket := None;
      isConnected := false;
      containerName := None;
      token := None;
      reconnectAttempts := 0;
      autoScrollEnabled := true;
      logBuffer := [];
      pendingTimers := [];
      hasLogsContainer := pageHasLogsContainer;
      sent := [];
      uiStates := [];
      banners := [];
    }

    /** The auto-scroll toggle's change listener. */
    method SetAutoScroll(checked: bool)
      modifies this`autoScrollEnabled
      ensures autoScrollEnabled == checked
    {
      autoScrollEnabled := checked;
    }

    /** The buffer part of `addLogEntry`: without the logs container the entry
        is dropped; otherwise it is appended, evicting the oldest beyond
        capacity. No stamping happens here. */
    method AddLogEntry(e: LogEntry)
      requires Valid()
      modifies this`logBuffer
      ensures Valid()
      ensures logBuffer == if hasLogsContainer then Push(old(logBuffer), e) else old(logBuffer)
    {
      if !hasLogsContainer {
        return;
      }
      PushKeepsMostRecent(logBuffer, e);
      logBuffer := Push(logBuffer, e);
    }

    /** `connectWebSocket`: close and drop a current socket, then hold a new one
        and log "Connecting...", or show the construction failure as a banner. */
    method ConnectWebSocket(created: bool, failure: string)
      requires Valid()
      modifies this`socket, this`sent, this`logBuffer, this`banners
      ensures Valid()
      ensures sent == old(sent) + if old(socket).Some? then [Close(None)] else []
      ensures created ==> socket == Some(Socket(token)) && banners == old(banners)
      ensures created ==>
                var e := Notice(System, Connecting(NameText(containerName)));
                logBuffer == if hasLogsContainer then Push(old(logBuffer), e) else old(logBuffer)
      ensures !created ==> socket == None && logBuffer == old(logBuffer) && banners == old(banners) + [ConnectionFailed(failure)]
    {
      if socket.Some? {
        sent := sent + [Close(None)];
        socket := None;
      }
      if created {
        socket := Some(Socket(token));
        AddLogEntry(Notice(System, Connecting(NameText(containerName))));
      } else {
        banners := banners + [ConnectionFailed(failure)];
      }
    }

    /** `startLogging()` with `selected` the selector's value: an empty choice
        shows a banner; a token is requested only when none is held and a
        failed request shows a banner; otherwise it connects. Neither the
        attempt counter nor any timer is touched. */
    method StartLogging(selected: string, fetch: TokenFetch, created: bool, failure: string)
      requires Valid()
      modifies this`containerName, this`token, this`socket, this`sent, this`logBuffer, this`banners
      ensures Valid()
      ensures containerName == Some(selected)
      ensures Truthy(old(token)) ==> token == old(token)
      ensures selected == "" ==> token == old(token)
      ensures !Truthy(old(token)) && selected != "" ==> token == if IssuedToken(fetch).Some? then IssuedToken(fetch) else old(token)
      ensures var connects := selected != "" && (Truthy(old(token)) || IssuedToken(fetch).Some?);
              && (!connects ==>
                    && socket == old(socket) && sent == old(sent) && logBuffer == old(logBuffer)
                    && banners == old(banners) + [if selected == "" then SelectContainerFirst else AuthenticationFailed])
              && (connects ==>
                    && sent == old(sent) + (if old(socket).Some? then [Close(None)] else [])
                    && (created ==> socket == Some(Socket(token)) && banners == old(banners))
                    && (created ==>
                          var e := Notice(System, Connecting(selected));
                          logBuffer == if hasLogsContainer then Push(old(logBuffer), e) else old(logBuffer))
                    && (!created ==>
                          socket == None && logBuffer == old(logBuffer) && banners == old(banners) + [ConnectionFailed(failure)]))
    {
      containerName := Some(selected);
      if selected == "" {
        banners := banners + [SelectContainerFirst];
        return;
      }
      if !Truthy(token) {
        var issued := IssuedToken(fetch);
        if issued.None? {
          banners := banners + [AuthenticationFailed];
          return;
        }
        token := issued;
      }
      ConnectWebSocket(created, failure);
    }

    /** `stopLogging()`: without a socket nothing happens; with one, `stop_logs`
        only while connected, a 1000 close, the socket dropped,
        disconnected, the UI set to stopped and one system entry. The send is
        not guarded: when it throws (`sendOk` false) the method ends there, with
        only the attempted `stop_logs` recorded. The scheduled timers are left
        alone. */
    method StopLogging(sendOk: bool)
      requires Valid()
      modifies this`socket, this`sent, this`isConnected, this`uiStates, this`logBuffer
      ensures Valid()
      ensures old(socket).None? ==>
                socket == None && sent == old(sent) && isConnected == old(isConnected)
                && uiStates == old(uiStates) && logBuffer == old(logBuffer)
      ensures old(socket).Some? && old(isConnected) && !sendOk ==>
                && socket == old(socket) && isConnected && sent == old(sent) + [StopLogs]
                && uiStates == old(uiStates) && logBuffer == old(logBuffer)
      ensures old(socket).Some? && (!old(isConnected) || sendOk) ==>
                && socket == None && !isConnected && uiStates == old(uiStates) + [false]
                && sent == old(sent) + (if old(isConnected) then [StopLogs] else []) + [Close(Some(NormalClosure))]
                && logBuffer == if hasLogsContainer then Push(old(logBuffer), Notice(System, Stopped)) else old(logBuffer)
    {
      if socket.Some? {
        if isConnected {
          sent := sent + [StopLogs];
          if !sendOk {
            return;
          }
        }
        sent := sent + [Close(Some(NormalClosure))];
        socket := None;
        isConnected := false;
        uiStates := uiStates + [false];
        AddLogEntry(Notice(System, Stopped));
      }
    }

    /** `clearLogs()`: empties the buffer only when the logs container exists. */
    method ClearLogs()
      requires Valid()
      modifies this`logBuffer
      ensures Valid()
      ensures logBuffer == if hasLogsContainer then [] else old(logBuffer)
    {
      if hasLogsContainer {
        logBuffer := [];
      }
    }

    /** `handleSocketOpen`: connected and attempts reset in any case; with a
        socket the `start_logs` send is attempted, and the streaming UI follows
        only when that send does not throw (`sendOk`). */
    method HandleSocketOpen(sendOk: bool)
      requires Valid()
      modifies this`isConnected, this`reconnectAttempts, this`sent, this`uiStates
      ensures Valid()
      ensures isConnected && reconnectAttempts == 0
      ensures sent == old(sent) + if socket.Some? then [StartLogs(containerName)] else []
      ensures uiStates == old(uiStates) + if socket.Some? && sendOk then [true] else []
    {
      isConnected := true;
      reconnectAttempts := 0;
      if socket.Some? {
        sent := sent + [StartLogs(containerName)];
        if sendOk {
          uiStates := uiStates + [true];
        }
      }
    }

    /** `handleSocketMessage`: a parsed frame is added as it is, a parse failure
        as an error entry. A parsed frame is taken to be a JSON object. */
    method HandleSocketMessage(frame: Incoming)
      requires Valid()
      modifies this`logBuffer
      ensures Valid()
      ensures var e := if frame.Parsed? then frame.entry else Notice(Error, ParseFailed(frame.error));
              logBuffer == if hasLogsContainer then Push(old(logBuffer), e) else old(logBuffer)
    {
      match frame
      case Parsed(entry) =>
        AddLogEntry(entry);
      case Unparsable(error) =>
        AddLogEntry(Notice(Error, ParseFailed(error)));
    }

    /** `attemptReconnect`: within the budget, count the attempt, announce it
        and schedule one more timer beside any still pending; at the cap, log
        the give-up error and set the UI to stopped. */
    method AttemptReconnect()
      requires Valid()
      modifies this`reconnectAttempts, this`pendingTimers, this`logBuffer, this`uiStates
      ensures Valid()
      ensures old(reconnectAttempts) >= MaxReconnectAttempts ==>
                && reconnectAttempts == old(reconnectAttempts) && pendingTimers == old(pendingTimers)
                && uiStates == old(uiStates) + [false]
                && logBuffer == if hasLogsContainer then Push(old(logBuffer), Notice(Error, GaveUp)) else old(logBuffer)
      ensures old(reconnectAttempts) < MaxReconnectAttempts ==>
                && reconnectAttempts == old(reconnectAttempts) + 1
                && pendingTimers == old(pendingTimers) + [Delay(reconnectAttempts)]
                && uiStates == old(uiStates)
                && var e := Notice(System, Reconnecting(Delay(reconnectAttempts), reconnectAttempts));
                   logBuffer == if hasLogsContainer then Push(old(logBuffer), e) else old(logBuffer)
    {
      if reconnectAttempts >= MaxReconnectAttempts {
        AddLogEntry(Notice(Error, GaveUp));
        uiStates := uiStates + [false];
        return;
      }
      reconnectAttempts := reconnectAttempts + 1;
      var delay := Delay(reconnectAttempts);
      AddLogEntry(Notice(System, Reconnecting(delay, reconnectAttempts)));
      pendingTimers := pendingTimers + [delay];
    }

    /** `handleSocketClose(code)`: disconnected; any code but 1000 reconnects,
        1000 sets the UI to stopped. */
    method HandleSocketClose(code: int)
      requires Valid()
      modifies this`isConnected, this`reconnectAttempts, this`pendingTimers, this`logBuffer, this`uiStates
      ensures Valid()
      ensures !isConnected
      ensures code == NormalClosure ==>
                && reconnectAttempts == old(reconnectAttempts) && pendingTimers == old(pendingTimers)
                && logBuffer == old(logBuffer) && uiStates == old(uiStates) + [false]
      ensures code != NormalClosure && old(reconnectAttempts) >= MaxReconnectAttempts ==>
                && reconnectAttempts == old(reconnectAttempts) && pendingTimers == old(pendingTimers)
                && uiStates == old(uiStates) + [false]
                && logBuffer == if hasLogsContainer then Push(old(logBuffer), Notice(Error, GaveUp)) else old(logBuffer)
      ensures code != NormalClosure && old(reconnectAttempts) < MaxReconnectAttempts ==>
                && reconnectAttempts == old(reconnectAttempts) + 1 && uiStates == old(uiStates)
                && pendingTimers == old(pendingTimers) + [Delay(reconnectAttempts)]
                && var e := Notice(System, Reconnecting(Delay(reconnectAttempts), reconnectAttempts));
                   logBuffer == if hasLogsContainer then Push(old(logBuffer), e) else old(logBuffer)
    {
      isConnected := false;
      if code != NormalClosure {
        AttemptReconnect();
      } else {
        uiStates := uiStates + [false];
      }
    }

    /** `handleSocketError`: one error entry. */
    method HandleSocketError()
      requires Valid()
      modifies this`logBuffer
      ensures Valid()
      ensures logBuffer == if hasLogsContainer then Push(old(logBuffer), Notice(Error, SocketError)) else old(logBuffer)
    {
      AddLogEntry(Notice(Error, SocketError));
    }

    /** The callback of scheduled timer `i`: it reconnects whenever the manager
        is disconnected, whatever stopped it and whichever container is now
        selected. */
    method FireTimer(i: nat, created: bool, failure: string)
      requires Valid()
      requires i < |pendingTimers|
      modifies this`pendingTimers, this`socket, this`sent, this`logBuffer, this`banners
      ensures Valid()
      ensures pendingTimers == old(pendingTimers[..i] + pendingTimers[i + 1..])
      ensures isConnected ==>
                socket == old(socket) && sent == old(sent) && logBuffer == old(logBuffer) && banners == old(banners)
      ensures !isConnected ==>
                && sent == old(sent) + (if old(socket).Some? then [Close(None)] else [])
                && (created ==> socket == Some(Socket(token)) && banners == old(banners))
                && (created ==>
                      var e := Notice(System, Connecting(NameText(containerName)));
                      logBuffer == if hasLogsContainer then Push(old(logBuffer), e) else old(logBuffer))
                && (!created ==>
                      socket == None && logBuffer == old(logBuffer) && banners == old(banners) + [ConnectionFailed(failure)])
    {
      pendingTimers := pendingTimers[..i] + pendingTimers[i + 1..];
      if !isConnected {
        ConnectWebSocket(created, failure);
      }
    }
  }
}
