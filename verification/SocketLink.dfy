/** The client and daemon ends of the local socket over two first-in first-out channels, as a
    state machine.  Activation requests are numbered in the order they are made. */
module SocketLink {
  import opened Basics

  const MAX_CONNECTION_RETRY := 10
  const EARLY_DISCONNECT_MS := 1500

  datatype Readiness = Unknown | Initializing | Ready

  datatype Command = Activate(n: nat) | Deactivate | StatusQuery

  /** Why the daemon wrote a message.  It is not on the wire: no step of the client looks at it. */
  datatype Cause = FailedActivation(n: nat) | Elsewhere

  datatype Message =
    | Status(wellFormed: bool) | Connected(wellFormed: bool) | Other
    | Disconnected(cause: Cause) | BackendFailure(cause: Cause)

  datatype Entry =
    | Asked(n: nat)                              // activate() was called
    | Deferred(n: nat)                           // ... and its payload put into the pending slot
    | Sent(n: nat, at: nat, wasDeferred: bool)   // an activate payload was written
    | Deactivated                                // deactivate() was called
    | ConnectedSeen
    | FailureSeen(cause: Cause)                  // a backendFailure was processed
    | Swallowed(cause: Cause, at: nat)           // a disconnected message was ignored as too early
    | Surfaced(cause: Cause)                     // ... was passed on
    | Unexpected(cause: Cause)                   // ... arrived before the client was ready
    | RetryArmed                                 // the connection retry timer was started
    | RetriesReset

  datatype Link = Link(
    now: nat,
    readiness: Readiness,          // m_daemonState
    socketOpen: bool,              // the socket is in ConnectedState
    pending: Option<nat>,          // m_pendingActivation
    inFlight: bool,                // m_activationInFlight
    ignoredEarly: bool,            // m_ignoredEarlyDisconnect
    lastSentAt: Option<nat>,       // m_lastActivateSentAt
    retries: nat,                  // m_initializingRetry
    retryTimer: bool,              // m_initializingTimer
    asked: nat,                    // activation requests made so far
    toDaemon: seq<Command>,
    toClient: seq<Message>,
    partialLine: bool,             // m_buffer holds part of a line from before the socket was lost
    log: seq<Entry>)

  const INITIAL := Link(0, Unknown, false, None, false, false, None, 0, false, 0, [], [], false, [])

  // ---------------------------------------------------------------- the client

  /** A command written to a socket that is not connected is lost. */
  function Write(s: Link, c: Command): Link {
    if s.socketOpen then s.(toDaemon := s.toDaemon + [c]) else s
  }

  function Note(s: Link, e: Entry): Link { s.(log := s.log + [e]) }

  function DisconnectInternal(s: Link): Link {
    Note(s.(readiness := Ready, retries := 0, retryTimer := false), RetriesReset)
  }

  /** What was in the channels is gone, but if the socket was cut inside a message the part
      already read stays in the client's buffer. */
  function LoseSocket(s: Link, cut: bool): Link {
    s.(socketOpen := false, toDaemon := [], toClient := [], partialLine := s.partialLine || cut)
  }

  /** The socket reports an error or is closed. */
  function ErrorOccurred(s: Link, cut: bool): Link {
    var lost := LoseSocket(s, cut);
    if s.readiness == Initializing && s.retries < MAX_CONNECTION_RETRY then
      Note(lost.(retries := s.retries + 1, retryTimer := true), RetryArmed)
    else DisconnectInternal(lost)
  }

  function CheckStatus(s: Link): Link {
    if s.readiness == Unknown then s else Write(s, StatusQuery)
  }

  function SendPayload(s: Link, n: nat, wasDeferred: bool): Link {
    Note(Write(s, Activate(n)).(inFlight := true, ignoredEarly := false, lastSentAt := Some(s.now)),
         Sent(n, s.now, wasDeferred))
  }

  /** activate(), once its payload has been put together. */
  function RequestActivation(s: Link): Link {
    var n := s.asked;
    var s' := Note(s.(asked := n + 1), Asked(n));
    if s.readiness != Ready || !s.socketOpen then Note(s'.(pending := Some(n)), Deferred(n))
    else SendPayload(s', n, false)
  }

  function TrySendPending(s: Link): Link {
    if s.pending.None? || s.readiness != Ready || !s.socketOpen then s
    else SendPayload(s, s.pending.value, true).(pending := None)
  }

  function RequestDeactivation(s: Link): Link {
    var s' := Note(s.(pending := None, inFlight := false, ignoredEarly := false), Deactivated);
    if s.readiness != Ready then s' else Write(s', Deactivate)
  }

  predicate TooEarly(s: Link) {
    s.inFlight && !s.ignoredEarly && s.lastSentAt.Some? && s.now - s.lastSentAt.value < EARLY_DISCONNECT_MS
  }

  function Receive(s: Link, m: Message): Link {
    if s.readiness == Initializing && m.Status? then
      if m.wellFormed then TrySendPending(s.(readiness := Ready)) else s.(readiness := Ready)
    else if s.readiness != Ready then
      if m.Disconnected? then Note(s, Unexpected(m.cause)) else s
    else
      match m
      case Disconnected(cause) =>
        if TooEarly(s) then Note(s.(ignoredEarly := true), Swallowed(cause, s.now))
        else Note(DisconnectInternal(s.(inFlight := false)), Surfaced(cause))
      case Connected(wellFormed) =>
        var s' := Note(s.(inFlight := false, ignoredEarly := false), ConnectedSeen);
        if wellFormed then CheckStatus(s') else s'
      case BackendFailure(cause) => Note(s.(inFlight := false), FailureSeen(cause))
      case Status(_) => s
      case Other => s
  }

  /** The next line: with a partial line in front of it the message is no JSON any more. */
  function ReadLine(s: Link): Link
    requires s.toClient != []
  {
    var s' := s.(toClient := s.toClient[1..]);
    if s.partialLine then s'.(partialLine := false) else Receive(s', s.toClient[0])
  }

  // ---------------------------------------------------------------- the daemon

  /** What the daemon writes in answer to a command that it carries out or fails to. */
  function Answer(c: Command, ok: bool): seq<Message> {
    match c
    case Activate(n) => if ok then [] else [BackendFailure(FailedActivation(n)), Disconnected(FailedActivation(n))]
    case Deactivate => if ok then [Disconnected(Elsewhere)] else []
    case StatusQuery => [Status(ok)]
  }

  // ---------------------------------------------------------------- events

  datatype Event =
    | Tick(ms: nat)
    | Initialize
    | RetryTimerFires
    | SocketConnects
    | SocketFails(cut: bool)     // in the middle of a message for the client, or not
    | ClientActivates
    | ClientDeactivates
    | ClientPolls
    | ClientReads
    | DaemonReads(ok: bool)
    | DaemonSpeaks(m: Message)   // a signal that is not the answer to a command of this client

  predicate Enabled(s: Link, e: Event) {
    match e
    case Initialize => s.readiness == Unknown
    case RetryTimerFires => s.retryTimer
    case SocketConnects => s.readiness == Initializing && !s.socketOpen && !s.retryTimer
    case SocketFails(cut) => s.readiness != Unknown && (cut ==> s.toClient != [])
    case ClientReads => s.socketOpen && s.toClient != []
    case DaemonReads(_) => s.socketOpen && s.toDaemon != []
    case DaemonSpeaks(m) =>
      && s.socketOpen
      && m in {Connected(true), Connected(false), Other, Disconnected(Elsewhere), BackendFailure(Elsewhere)}
    case _ => true
  }

  function Step(s: Link, e: Event): Link
    requires Enabled(s, e)
  {
    match e
    case Tick(ms) => s.(now := s.now + ms)
    case Initialize => Note(s.(readiness := Initializing, retries := 0), RetriesReset)
    case RetryTimerFires => s.(readiness := Initializing, retryTimer := false)
    case SocketConnects => CheckStatus(s.(socketOpen := true))
    case SocketFails(cut) => ErrorOccurred(s, cut)
    case ClientActivates => RequestActivation(s)
    case ClientDeactivates => RequestDeactivation(s)
    case ClientPolls => CheckStatus(s)
    case ClientReads => ReadLine(s)
    case DaemonReads(ok) => s.(toDaemon := s.toDaemon[1..], toClient := s.toClient + Answer(s.toDaemon[0], ok))
    case DaemonSpeaks(m) => s.(toClient := s.toClient + [m])
  }

  ghost predicate Runs(s: Link, es: seq<Event>)
    decreases |es|
  {
    es == [] || (Enabled(s, es[0]) && Runs(Step(s, es[0]), es[1..]))
  }

  ghost function After(s: Link, es: seq<Event>): Link
    requires Runs(s, es)
    decreases |es|
  {
    if es == [] then s else After(Step(s, es[0]), es[1..])
  }
}
