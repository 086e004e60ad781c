/** Log entries and the messages exchanged with the log-streaming backend. */
module LogProtocol {
  import opened Wrappers
  import opened Strings
  import opened Backoff

  /** The `type` discriminator of an entry. `Other` holds any kind a server
      sends outside the six the client knows (nothing checks it at run time). */
  datatype LogKind = System | Error | LogsStarted | LogsStopped | LogLine | LogError | Other(name: string)

  /** The message of an entry: a text received from the server, or one of the
      messages the client writes itself, kept by what it reports. `Text` gives
      the exact text of each. */
  datatype Message =
    | Received(text: string)
    | Connecting(containerName: string)
    | ConnectFailed(failure: string)
    | StartFailed(error: string)
    | ParseFailed(error: string)
    | Stopped
    | SocketError
    | Reconnecting(delay: nat, attempt: nat)
    | GaveUp

  function Text(m: Message): string {
    match m
    case Received(text) => text
    case Connecting(name) => "Connecting to logs for " + name + "..."
    case ConnectFailed(failure) => "Failed to connect to log service: " + failure
    case StartFailed(error) => "Failed to start logs: " + error
    case ParseFailed(error) => "Failed to parse log message: " + error
    case Stopped => "Log streaming stopped"
    case SocketError => "WebSocket connection error"
    case Reconnecting(delay, attempt) =>
      "Connection lost. Reconnecting in " + NatToString(RoundedSeconds(delay))
      + " seconds... (Attempt " + NatToString(attempt) + "/" + NatToString(MaxReconnectAttempts) + ")"
    case GaveUp => "Failed to reconnect after " + NatToString(MaxReconnectAttempts) + " attempts"
  }

  /** A received or internally generated entry; `message` and `timestamp` may be absent. */
  datatype LogEntry = LogEntry(kind: LogKind, message: Option<Message>, timestamp: Option<string>)

  /** An entry built by the client itself: a kind and a message, no timestamp. */
  function Notice(kind: LogKind, message: Message): LogEntry {
    LogEntry(kind, Some(message), None)
  }

  /** The texts of the client's own messages begin with a letter, never with a timestamp. */
  lemma GeneratedTextsUntimestamped(m: Message)
    requires !m.Received?
    ensures |Text(m)| > 0 && 'A' <= Text(m)[0] <= 'Z'
    ensures !StartsWithTimestamp(Text(m))
  {
    match m
    case Connecting(n) => assert Text(m)[0] == 'C';
    case ConnectFailed(f) => assert Text(m)[0] == 'F';
    case StartFailed(e) => assert Text(m)[0] == 'F';
    case ParseFailed(e) => assert Text(m)[0] == 'F';
    case Stopped => assert Text(m)[0] == 'L';
    case SocketError => assert Text(m)[0] == 'W';
    case Reconnecting(d, a) => assert Text(m)[0] == 'C';
    case GaveUp => assert Text(m)[0] == 'F';
  }

  /** The give-up text. */
  lemma GaveUpText()
    ensures Text(GaveUp) == "Failed to reconnect after 5 attempts"
  {
    assert NatToString(5) == "5";
  }

  /** `String(x)` of an absent container name renders as "null". */
  function NameText(name: Option<string>): string {
    if name.Some? then name.value else "null"
  }

  /** A socket object: the token its URL was built from. */
  datatype Socket = Socket(token: Option<string>)

  /** Client-to-server traffic: the two control messages and a close with an
      optional code. The container name of `start_logs` is absent when the
      manager holds none (it is then serialised as `null`). */
  datatype Control = StartLogs(containerName: Option<string>) | StopLogs | Close(code: Option<int>)

  /** What the token request returned: an HTTP status and the `token` field of the
      body, or a request that failed outright. */
  datatype TokenFetch = TokenResponse(status: int, token: Option<string>) | RequestFailed

  /** The token a fetch yields: only a 200 answer carrying a non-empty token counts. */
  function IssuedToken(fetch: TokenFetch): (r: Option<string>)
    ensures r.Some? <==> fetch.TokenResponse? && fetch.status == 200 && Truthy(fetch.token)
    ensures r.Some? ==> r == fetch.token && Truthy(r)
  {
    if fetch.TokenResponse? && fetch.status == 200 && Truthy(fetch.token) then fetch.token else None
  }

  /** An incoming frame: a payload that parsed as an entry, or one that did not, with the parser's error text. */
  datatype Incoming = Parsed(entry: LogEntry) | Unparsable(error: string)

  /** Length of the prefix matched by `^\d{4}-\d{2}-\d{2}T\d{2}:\d{2}:\d{2}`. */
  const TimestampLength := 19

  /** The character class at position `i` of that pattern. */
  predicate FitsTimestampAt(c: char, i: nat) {
    if i == 4 || i == 7 then c == '-'
    else if i == 10 then c == 'T'
    else if i == 13 || i == 16 then c == ':'
    else IsDigit(c)
  }

  /** `s` begins with `dddd-dd-ddTdd:dd:dd`. */
  predicate StartsWithTimestamp(s: string) {
    |s| >= TimestampLength && forall i :: 0 <= i < TimestampLength ==> FitsTimestampAt(s[i], i)
  }

  /** The stamping of `addLogEntry`: a `log_line` without a (truthy) timestamp
      whose received text starts with a timestamp gets that 19-character prefix
      as its timestamp; every other entry is left as it is. */
  function StampFromMessage(e: LogEntry): (r: LogEntry)
    ensures r.kind == e.kind && r.message == e.message
    ensures r.timestamp != e.timestamp ==>
              && e.message.Some? && e.message.value.Received? && |e.message.value.text| >= TimestampLength
              && r.timestamp == Some(e.message.value.text[..TimestampLength])
  {
    if !Truthy(e.timestamp) && e.kind == LogLine && e.message.Some? && e.message.value.Received?
       && StartsWithTimestamp(e.message.value.text)
    then
      e.(timestamp := Some(e.message.value.text[..TimestampLength]))
    else e
  }

  /** The stamping follows the message text: an entry is stamped exactly when it is
      a `log_line` without a truthy timestamp whose text starts with a timestamp,
      and the stamp is a timestamp itself. */
  lemma StampMatchesPattern(e: LogEntry)
    ensures StampFromMessage(e).timestamp != e.timestamp <==>
              e.kind == LogLine && !Truthy(e.timestamp) && e.message.Some? && StartsWithTimestamp(Text(e.message.value))
    ensures StampFromMessage(e).timestamp != e.timestamp ==> StartsWithTimestamp(StampFromMessage(e).timestamp.value)
  {
    if e.message.Some? && !e.message.value.Received? {
      GeneratedTextsUntimestamped(e.message.value);
    }
  }

  /** Stamping twice is stamping once: a stamped entry has a truthy timestamp. */
  lemma StampIdempotent(e: LogEntry)
    ensures StampFromMessage(StampFromMessage(e)) == StampFromMessage(e)
  {
  }
}
