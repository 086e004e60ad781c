/** The log view of a container (`LogsPanel`): its own bounded copy of the
    entries, the streaming flag driving the Start/Stop buttons, the classification
    of an entry into a displayed line, and the effect that registers the view with
    the manager and cleans up after it. The manager's callbacks reach the view as
    calls of `HandleLogEntry` and `HandleConnectionStatusChange`, in the order the
    manager records them. */
module LogsPanel {
  import opened Wrappers
  import opened LogProtocol
  import opened LogBuffer
  import opened Html
  import opened Logs
  import opened Backoff

  /** The state updater of `handleLogEntry`: append, then keep the last 1000 when
      the list has grown beyond that (`slice(-1000)`). */
  function AppendRecent<T>(prev: seq<T>, entry: T): (r: seq<T>)
    ensures r == LastN(prev + [entry], Capacity)
    ensures |r| <= Capacity && r[|r| - 1] == entry
  {
    var newLogs := prev + [entry];
    if |newLogs| > Capacity then newLogs[|newLogs| - Capacity..] else newLogs
  }

  /** On a list within capacity the view's updater and the manager's buffer rule agree. */
  lemma AppendRecentMirrorsPush<T>(prev: seq<T>, entry: T)
    requires |prev| <= Capacity
    ensures AppendRecent(prev, entry) == Push(prev, entry)
  {
    PushKeepsMostRecent(prev, entry);
  }

  /** Running the updater over a sequence of deliveries. */
  function AppendAll<T>(prev: seq<T>, entries: seq<T>): seq<T>
    decreases |entries|
  {
    if entries == [] then prev else AppendAll(AppendRecent(prev, entries[0]), entries[1..])
  }

  /** A view that starts from the manager's buffer and receives every delivered
      entry holds exactly what the manager's buffer holds. */
  lemma {:induction false} AppendAllMirrorsPushAll<T>(prev: seq<T>, entries: seq<T>)
    requires |prev| <= Capacity
    ensures AppendAll(prev, entries) == PushAll(prev, entries)
    decreases |entries|
  {
    if entries != [] {
      AppendRecentMirrorsPush(prev, entries[0]);
      PushKeepsMostRecent(prev, entries[0]);
      AppendAllMirrorsPushAll(AppendRecent(prev, entries[0]), entries[1..]);
    }
  }

  /** The time in brackets: the entry's own timestamp, the timestamp a `log_line`
      message begins with, or the current time. */
  datatype TimeShown = EntryTime(timestamp: string) | MessagePrefix(prefix: string) | CurrentTime

  /** What follows the tag: the message as text, the escaped message handed to
      the highlighter as markup, or the entry's JSON. */
  datatype Body = Plain(text: string) | Markup(escaped: string) | Json(entry: LogEntry)

  /** One rendered line: its CSS classes, time, optional tag (`SYSTEM:`, ...) and body. */
  datatype Line = Line(lineClass: string, time: TimeShown, tag: Option<string>, body: Body)

  /** `entry.message || ''`. */
  function MessageOrEmpty(e: LogEntry): string {
    if e.message.Some? then Text(e.message.value) else ""
  }

  /** `formatLogEntry`: the switch over the entry kind. */
  function FormatLogEntry(e: LogEntry): (r: Line)
    ensures r.tag.None? <==> e.kind == LogLine || e.kind.Other?
    ensures r.body.Markup? <==> e.kind == LogLine || e.kind == LogError
    ensures r.body.Markup? ==> r.body.escaped == EscapeHtml(MessageOrEmpty(e))
    ensures r.body.Json? <==> e.kind.Other? && MessageOrEmpty(e) == ""
    ensures r.body.Json? ==> r.body.entry == e
    ensures r.body.Plain? ==> r.body.text == MessageOrEmpty(e)
    ensures e.kind == LogLine && StartsWithTimestamp(MessageOrEmpty(e)) ==>
              r.time == MessagePrefix(MessageOrEmpty(e)[..TimestampLength])
    ensures !(e.kind == LogLine && StartsWithTimestamp(MessageOrEmpty(e))) ==>
              r.time == if Truthy(e.timestamp) then EntryTime(e.timestamp.value) else CurrentTime
  {
    var shown := if Truthy(e.timestamp) then EntryTime(e.timestamp.value) else CurrentTime;
    var message := MessageOrEmpty(e);
    match e.kind
    case System => Line("log-line log-system", shown, Some("SYSTEM:"), Plain(message))
    case Error => Line("log-line log-error", shown, Some("ERROR:"), Plain(message))
    case LogsStarted => Line("log-line log-success", shown, Some("STARTED:"), Plain(message))
    case LogsStopped => Line("log-line log-info", shown, Some("STOPPED:"), Plain(message))
    case LogLine =>
      var time := if StartsWithTimestamp(message) then MessagePrefix(message[..TimestampLength]) else shown;
      Line("log-line", time, None, Markup(EscapeHtml(message)))
    case LogError => Line("log-line log-stderr", shown, Some("STDERR:"), Markup(EscapeHtml(message)))
    case Other(_) => Line("log-line", shown, None, if message != "" then Plain(message) else Json(e))
  }

  /** The tags of the five tagged kinds. */
  lemma Tags(message: Option<Message>, timestamp: Option<string>)
    ensures FormatLogEntry(LogEntry(System, message, timestamp)).tag == Some("SYSTEM:")
    ensures FormatLogEntry(LogEntry(Error, message, timestamp)).tag == Some("ERROR:")
    ensures FormatLogEntry(LogEntry(LogsStarted, message, timestamp)).tag == Some("STARTED:")
    ensures FormatLogEntry(LogEntry(LogsStopped, message, timestamp)).tag == Some("STOPPED:")
    ensures FormatLogEntry(LogEntry(LogError, message, timestamp)).tag == Some("STDERR:")
  {
  }

  /** A `log_line` the manager stamped from its message shows that same stamp. */
  lemma ShownTimeIsStamp(e: LogEntry)
    requires e.kind == LogLine && !Truthy(e.timestamp) && StartsWithTimestamp(MessageOrEmpty(e))
    ensures StampFromMessage(e).timestamp.Some?
    ensures FormatLogEntry(StampFromMessage(e)).time == MessagePrefix(StampFromMessage(e).timestamp.value)
  {
    StampMatchesPattern(e);
  }

  /** The enabled state of the Start and Stop buttons. */
  datatype Controls = Controls(startDisabled: bool, stopDisabled: bool)

  function ControlsFor(isStreaming: bool): (r: Controls)
    ensures r.startDisabled <==> isStreaming
    ensures r.startDisabled != r.stopDisabled
  {
    Controls(isStreaming, !isStreaming)
  }

  class Panel {
    /** The `containerName` prop. */
    const containerName: string
    /** The shared manager the view registers with. */
    const service: LogsService
    var isStreaming: bool
    var autoScroll: bool
    var logs: seq<LogEntry>
    var error: Option<string>
    /** Whether the registration effect is in place. */
    var mounted: bool

    ghost predicate Valid()
      reads this, service
    {
      service.Valid() && |logs| <= Capacity
    }

    /** The initial state of the component, before its effect runs. */
    constructor (name: string, logsService: LogsService)
      requires logsService.Valid()
      ensures Valid()
      ensures containerName == name && service == logsService
      ensures !isStreaming && autoScroll && logs == [] && error == None && !mounted
    {
      containerName := name;
      service := logsService;
      isStreaming := false;
      autoScroll := true;
      logs := [];
      error := None;
      mounted := false;
    }

    /** The effect: register both callbacks, copy the manager's flags, and take
        the buffer snapshot when it is non-empty. */
    method Mount()
      requires Valid()
      modifies this`autoScroll, this`isStreaming, this`logs, this`mounted
      modifies service`hasLogListener, service`hasStatusListener
      ensures Valid()
      ensures mounted && service.hasLogListener && service.hasStatusListener
      ensures autoScroll == service.autoScrollEnabled && isStreaming == service.isConnected
      ensures ControlsFor(isStreaming).startDisabled == service.isConnected
      ensures logs == if |service.logBuffer| > 0 then service.logBuffer else old(logs)
    {
      service.SetListeners(true, true);
      autoScroll := service.IsAutoScrollEnabled();
      isStreaming := service.GetConnectionStatus();
      var initialLogs := service.GetLogBuffer();
      if |initialLogs| > 0 {
        logs := initialLogs;
      }
      mounted := true;
    }

    /** The effect's cleanup: unregister both callbacks, then stop the stream
        only when the manager reports a connection. */
    method Unmount()
      requires Valid()
      modifies this`mounted
      modifies service`hasLogListener, service`hasStatusListener, service`intentionalClosure, service`reconnectTimer
      modifies service`socket, service`sent, service`isConnected, service`statusCalls, service`transitions
      modifies service`logBuffer, service`delivered
      ensures Valid()
      ensures !mounted && !service.hasLogListener && !service.hasStatusListener
      // the listeners are gone before `stopLogging` runs, so it calls neither
      ensures old(service.isConnected) ==>
                && service.intentionalClosure && service.socket == None && service.reconnectTimer == None
                && service.delivered == old(service.delivered) && service.statusCalls == old(service.statusCalls)
      ensures old(service.isConnected) && old(service.socket).None? ==>
                && service.isConnected && service.sent == old(service.sent)
                && service.transitions == old(service.transitions) && service.logBuffer == old(service.logBuffer)
      ensures old(service.isConnected) && old(service.socket).Some? ==>
                && !service.isConnected
                && service.sent == old(service.sent) + [StopLogs, Close(Some(NormalClosure))]
                && service.transitions == old(service.transitions) + [false]
                && service.logBuffer == Push(old(service.logBuffer), Notice(System, Stopped))
      ensures !old(service.isConnected) ==>
                && service.intentionalClosure == old(service.intentionalClosure) && service.socket == old(service.socket)
                && service.reconnectTimer == old(service.reconnectTimer) && service.sent == old(service.sent)
                && service.logBuffer == old(service.logBuffer) && !service.isConnected
                && service.transitions == old(service.transitions) && service.delivered == old(service.delivered)
                && service.statusCalls == old(service.statusCalls)
    {
      service.SetListeners(false, false);
      if service.GetConnectionStatus() {
        service.StopLogging();
      }
      mounted := false;
    }

    /** The `onLogEntry` callback. */
    method HandleLogEntry(entry: LogEntry)
      requires Valid()
      modifies this`logs
      ensures Valid()
      ensures logs == AppendRecent(old(logs), entry)
    {
      logs := AppendRecent(logs, entry);
    }

    /** The `onConnectionStatusChange` callback. */
    method HandleConnectionStatusChange(connected: bool)
      modifies this`isStreaming
      ensures isStreaming == connected
      ensures ControlsFor(isStreaming).startDisabled == connected
    {
      isStreaming := connected;
    }

    /** Clear: the view's list and the manager's buffer both become empty. */
    method HandleClearLogs()
      requires Valid()
      modifies this`logs, service`logBuffer
      ensures Valid()
      ensures logs == [] && service.logBuffer == []
    {
      logs := [];
      service.ClearLogs();
    }

    /** Start: clear the error, start the stream for the prop's container, and
        show the rejection's message when it rejects. */
    method HandleStartLogging(fetch: TokenFetch, created: bool, failure: string)
      requires Valid()
      modifies this`error
      modifies service`intentionalClosure, service`containerName, service`reconnectTimer, service`reconnectAttempts
      modifies service`token, service`socket, service`sent, service`logBuffer, service`delivered
      ensures Valid()
      ensures service.containerName == Some(containerName) && !service.intentionalClosure
      ensures error == if containerName == "" then Some(StartErrorMessage(NoContainer))
                       else if Truthy(old(service.token)) || IssuedToken(fetch).Some? then None
                       else Some(StartErrorMessage(AuthFailed))
      ensures containerName == "" ==>
                service.reconnectTimer == old(service.reconnectTimer) && service.reconnectAttempts == old(service.reconnectAttempts)
      ensures containerName != "" ==> service.reconnectTimer == None && service.reconnectAttempts == 0
      ensures service.token ==
                if containerName != "" && !Truthy(old(service.token)) && IssuedToken(fetch).Some? then IssuedToken(fetch)
                else old(service.token)
      // a shown error means the manager connected nothing
      ensures error.Some? ==>
                && service.socket == old(service.socket) && service.sent == old(service.sent)
                && service.logBuffer == old(service.logBuffer) && service.delivered == old(service.delivered)
      ensures error.None? ==>
                && Truthy(service.token)
                && service.sent == old(service.sent) + (if old(service.socket).Some? then [Close(None)] else [])
                && (created ==> service.socket == Some(Socket(service.token))) && (!created ==> service.socket == None)
                && var e := if created then Notice(System, Connecting(containerName))
                            else Notice(Error, ConnectFailed(failure));
                   && service.logBuffer == Push(old(service.logBuffer), e)
                   && service.delivered == old(service.delivered) + if service.hasLogListener then [e] else []
    {
      error := None;
      var r := service.StartLogging(containerName, fetch, created, failure);
      if r.Rejected? {
        error := Some(StartErrorMessage(r.error));
      }
    }

    /** Stop: `stopLogging` on the manager, which never throws here. */
    method HandleStopLogging()
      requires Valid()
      modifies service`intentionalClosure, service`reconnectTimer, service`socket, service`sent
      modifies service`isConnected, service`statusCalls, service`transitions, service`logBuffer, service`delivered
      ensures Valid()
      ensures service.intentionalClosure && service.reconnectTimer == None && service.socket == None
      ensures old(service.socket).None? ==>
                && service.isConnected == old(service.isConnected)
                && service.logBuffer == old(service.logBuffer) && service.sent == old(service.sent)
                && service.delivered == old(service.delivered) && service.statusCalls == old(service.statusCalls)
                && service.transitions == old(service.transitions)
      ensures old(service.socket).Some? ==>
                && !service.isConnected
                && service.sent == old(service.sent) + (if old(service.isConnected) then [StopLogs] else []) + [Close(Some(NormalClosure))]
                && service.transitions == old(service.transitions) + (if old(service.isConnected) then [false] else [])
                && service.statusCalls == old(service.statusCalls)
                   + (if old(service.isConnected) && service.hasStatusListener then [false] else [])
                && service.logBuffer == Push(old(service.logBuffer), Notice(System, Stopped))
                && service.delivered == old(service.delivered)
                   + if service.hasLogListener then [Notice(System, Stopped)] else []
    {
      service.StopLogging();
    }

    /** The auto-scroll toggle as it is intended: both flags follow the box and
        the stream is left alone (the effect depends on the container only). */
    method HandleAutoScrollToggle(enabled: bool)
      modifies this`autoScroll, service`autoScrollEnabled
      ensures autoScroll == enabled && service.autoScrollEnabled == enabled
    {
      autoScroll := enabled;
      service.SetAutoScroll(enabled);
    }

    /** The auto-scroll toggle as written: `autoScroll` is a dependency of the
        registration effect, so a change of it runs the cleanup and then the
        effect again, and the cleanup stops a connected stream. */
    method HandleAutoScrollToggleAsWritten(enabled: bool)
      requires Valid()
      modifies this`autoScroll, this`isStreaming, this`logs, this`mounted
      modifies service`autoScrollEnabled, service`hasLogListener, service`hasStatusListener
      modifies service`intentionalClosure, service`reconnectTimer, service`socket, service`sent
      modifies service`isConnected, service`statusCalls, service`transitions, service`logBuffer, service`delivered
      ensures Valid()
      ensures autoScroll == enabled && service.autoScrollEnabled == enabled
      ensures old(mounted) && enabled != old(autoScroll) && old(service.isConnected) ==>
                && service.intentionalClosure && service.socket == None && service.reconnectTimer == None
                && (old(service.socket).Some? ==> !service.isConnected && !isStreaming)
    {
      var before := autoScroll;
      autoScroll := enabled;
      service.SetAutoScroll(enabled);
      if mounted && enabled != before {
        Unmount();
        Mount();
      }
    }
  }

  /** The discrepancy on one run: a mounted panel streams a container, the
      user unticks auto-scroll, and the stream is stopped as if the user had
      pressed Stop. */
  method AutoScrollToggleStopsStream()
  {
    var svc := new LogsService(false, false);
    var panel := new Panel("web", svc);
    panel.Mount();
    var r := svc.StartLogging("web", TokenResponse(200, Some("t")), true, "");
    svc.HandleSocketOpen(true, "");
    assert svc.isConnected && svc.socket.Some?;
    panel.HandleAutoScrollToggleAsWritten(false);
    assert !svc.isConnected && svc.intentionalClosure && svc.socket == None;
  }

  /** The same run with the intended toggle: the stream keeps going. */
  method AutoScrollToggleKeepsStream()
  {
    var svc := new LogsService(false, false);
    var panel := new Panel("web", svc);
    panel.Mount();
    var r := svc.StartLogging("web", TokenResponse(200, Some("t")), true, "");
    svc.HandleSocketOpen(true, "");
    panel.HandleAutoScrollToggle(false);
    assert svc.isConnected && !svc.intentionalClosure && svc.socket.Some?;
  }
}
