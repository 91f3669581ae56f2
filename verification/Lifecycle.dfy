/** VpnConnection on the desktop as a timed state machine: one function per member
    function of the source, one event per thing the event loop can deliver.

    A protocol's start() may run a nested event loop, so it is two events: the
    call (inside StartNewConnection or ReconnectToVpn) and its return. */
module Lifecycle {
  import opened FailureLedger

  const CONNECT_WATCHDOG_MS := 15000
  const DISCONNECT_WATCHDOG_MS := 12000
  const START_WATCHDOG_MS := 5000
  const SWITCH_WATCHDOG_MS := 4000
  const GRACE_MS := 6000
  const MIN_GRACE_MS := 50

  datatype State =
    | Unknown | Disconnected | Preparing | Connecting | Connected | Disconnecting | Reconnecting | Error

  predicate Transient(x: State) { x in {Preparing, Connecting, Reconnecting, Disconnecting} }
  predicate Terminal(x: State) { x in {Disconnected, Error, Unknown} }
  predicate Live(x: State) { x in {Connecting, Connected, Reconnecting, Disconnecting} }

  /** A single-shot timer: stopped, or due at a time in milliseconds. */
  datatype Timer = Off | At(due: nat)

  /** A VpnProtocol object as VpnConnection sees it: its own state, whether its state
      changes are connected to VpnConnection::setConnectionState, and the request
      whose container and configuration it was built from. */
  datatype Protocol = NoProtocol | Running(state: State, attached: bool, origin: Request)

  datatype Conn = Conn(
    now: nat,                   // milliseconds since the epoch
    state: State,
    protocol: Protocol,
    fence: bool,                // m_protocolShutdownConn
    watchdog: Timer,            // m_stateWatchdogTimer
    recovery: Timer,            // m_recoveryTimer
    switchDog: Timer,           // m_switchWatchdog
    grace: seq<nat>,            // pending grace-window timers
    disconnectedAt: Timer,      // m_disconnectElapsed: Off when invalid
    scheduled: bool,            // m_reconnectScheduled
    userDisconnect: bool,       // m_userRequestedDisconnect
    starting: bool,             // m_protocolStartInProgress
    queuedConnect: bool,        // m_connectRequestedDuringStart
    deferredStart: bool,        // a posted startNewConnection
    postedConnects: nat,        // posted connectToVpn(last request)
    postedDisconnects: nat,     // posted disconnectFromVpn
    restarts: nat,              // start() calls made by reconnectToVpn that have not returned
    signals: seq<State>,        // queued deliveries to setConnectionState
    book: Book)

  function Sec(s: Conn): nat { s.now / 1000 }

  // ---------------------------------------------------------------- state changes

  function ArmWatchdog(s: Conn, x: State): Conn {
    s.(watchdog :=
      if x in {Preparing, Connecting, Reconnecting} then At(s.now + CONNECT_WATCHDOG_MS)
      else if x == Disconnecting then At(s.now + DISCONNECT_WATCHDOG_MS)
      else Off)
  }

  function ClearRecovery(s: Conn): Conn { s.(recovery := Off, scheduled := false) }

  function RegisterFailureAndMaybeEnterSafeMode(s: Conn): Conn {
    var s' := s.(book := RegisterFailure(s.book, Sec(s)));
    if EntersSafeMode(s.book, Sec(s)) then ClearRecovery(s') else s'
  }

  function ScheduleRecovery(s: Conn): Conn {
    if !RetryAllowed(s.book, Sec(s)) || s.scheduled then s
    else s.(book := PlanRetry(s.book, Sec(s)), scheduled := true, recovery := At(s.now + RetryDelay(s.book)))
  }

  predicate FailedTransition(before: State, after: State) {
    after == Error || (after == Disconnected && before in {Connecting, Preparing, Reconnecting})
  }

  /** The branch of setConnectionState taken on Connected. */
  function GoOnline(s: Conn): Conn {
    ClearRecovery(s.(book := NoteOnline(s.book), userDisconnect := false))
  }

  /** The branch taken on a failed transition. */
  function HandleFailure(s: Conn): Conn {
    var f := RegisterFailureAndMaybeEnterSafeMode(s);
    if f.userDisconnect then f else ScheduleRecovery(f)
  }

  /** Everything after the new state is stored and the watchdog armed. */
  function Settle(s: Conn, previous: State, x: State): Conn {
    if x == Connected then GoOnline(s)
    else if FailedTransition(previous, x) then HandleFailure(s)
    else if x == Disconnected && previous == Disconnecting then ClearRecovery(s.(userDisconnect := false))
    else s
  }

  function SetState(s: Conn, x: State): Conn {
    if x == Disconnected && s.state == Reconnecting then s
    else Settle(ArmWatchdog(s.(state := x), x), s.state, x)
  }

  // ---------------------------------------------------------------- the protocol

  /** The filter of VpnProtocol::setConnectionState: which reports are emitted at all. */
  predicate Emitted(before: State, x: State) {
    x != before && !(before == Disconnected && x == Disconnecting)
  }

  /** The one-shot handler of the handover fence. */
  function EndHandover(s: Conn): Conn {
    s.(fence := false, switchDog := Off, protocol := NoProtocol, deferredStart := true)
  }

  /** A state report from the protocol.  While the fence is set its terminal report is
      the end of the handover; otherwise an attached protocol queues a delivery. */
  function Report(s: Conn, x: State): Conn {
    if s.protocol.NoProtocol? || !Emitted(s.protocol.state, x) then s
    else if s.fence && Terminal(x) then
      EndHandover(s)
    else s.(protocol := s.protocol.(state := x),
            signals := if s.protocol.attached then s.signals + [x] else s.signals)
  }

  /** What stop() reports before it returns. */
  function Reports(s: Conn, xs: seq<State>): Conn
    decreases |xs|
  {
    if xs == [] then s else Reports(Report(s, xs[0]), xs[1..])
  }

  predicate StopReport(x: State) { x in {Disconnecting, Disconnected, Error, Unknown} }

  predicate StopReports(xs: seq<State>) { forall x | x in xs :: StopReport(x) }

  // ---------------------------------------------------------------- member functions

  /** Up to and including the call of start().  `missing` says whether managed routing
      rules are expected but absent from the configuration. */
  function StartNewConnection(s: Conn, r: Request, missing: bool): Conn {
    var s' := if s.state != Connecting then SetState(s, Connecting) else s;
    if missing then SetState(s', Error)
    else if !HasProtocol(r.container) then SetState(s'.(protocol := NoProtocol), Error)
    else s'.(protocol := Running(Unknown, true, r), book := NoteBuilt(s'.book, r), starting := true)
  }

  /** The rest of startNewConnection, once start() has returned. */
  function StartReturned(s: Conn, failed: bool): Conn {
    var s' := s.(starting := false);
    if s.userDisconnect then s'.(postedDisconnects := s.postedDisconnects + 1)
    else if s.queuedConnect then s'.(queuedConnect := false, postedConnects := s.postedConnects + 1)
    else if failed then SetState(s', Error)
    else if s.state in {Preparing, Connecting, Reconnecting} then ArmWatchdog(s', s.state)
    else s'
  }

  function Clamp(x: int, lo: nat, hi: nat): nat requires lo <= hi {
    if x < lo then lo else if x > hi then hi else x
  }

  predicate InGrace(s: Conn) {
    s.disconnectedAt.At? && 0 <= s.now - s.disconnectedAt.due < GRACE_MS
  }

  /** The prologue of connectToVpn. */
  function TakeRequest(s: Conn, r: Request): Conn {
    var s' := if s.scheduled then s else ClearRecovery(s);
    s'.(scheduled := false, userDisconnect := false, book := s'.book.(last := r))
  }

  /** connectToVpn once no protocol is left in the way. */
  function StartOrWait(s: Conn, r: Request, missing: bool): Conn {
    if InGrace(s) then
      var delay := Clamp(GRACE_MS - (s.now - s.disconnectedAt.due), MIN_GRACE_MS, GRACE_MS);
      s.(disconnectedAt := Off, grace := s.grace + [s.now + delay])
    else StartNewConnection(s, r, missing)
  }

  function BeginHandover(s: Conn): Conn requires s.protocol.Running? {
    s.(protocol := s.protocol.(attached := false), fence := true, switchDog := At(s.now + SWITCH_WATCHDOG_MS))
  }

  function ConnectToVpn(s: Conn, r: Request, missing: bool, stop: seq<State>): Conn {
    var t := TakeRequest(s, r);
    if t.starting then t.(queuedConnect := true)
    else
      var c := SetState(t, Connecting);
      if c.protocol.Running? && Live(c.protocol.state) then Reports(BeginHandover(c), stop)
      else StartOrWait(c.(protocol := NoProtocol), r, missing)
  }

  function DropProtocol(s: Conn): Conn { s.(fence := false, protocol := NoProtocol) }

  function SwitchWatchdogTimeout(s: Conn, missing: bool): Conn {
    var s' := DropProtocol(s);
    if s.userDisconnect then s' else StartNewConnection(s', s.book.last, missing)
  }

  predicate ReconnectIgnored(s: Conn) {
    || s.protocol.NoProtocol? || s.fence || s.protocol.state == Disconnecting
    || s.state !in {Connected, Reconnecting}
  }

  /** reconnectToVpn up to the call of start(). */
  function ReconnectToVpn(s: Conn, stop: seq<State>): Conn {
    if ReconnectIgnored(s) then s
    else
      var s' := Reports(SetState(s, Reconnecting), stop);
      s'.(restarts := s'.restarts + 1)
  }

  function RestartReturned(s: Conn, failed: bool): Conn
    requires s.restarts > 0
  {
    var s' := s.(restarts := s.restarts - 1);
    if failed then SetState(s', Error) else s'
  }

  /** The prologue of disconnectFromVpn: recovery, queued request and handover are cancelled. */
  function TakeDisconnect(s: Conn): Conn {
    ClearRecovery(s).(userDisconnect := true, queuedConnect := false, disconnectedAt := At(s.now),
                      switchDog := Off, fence := false)
  }

  function DisconnectFromVpn(s: Conn): Conn {
    var d := TakeDisconnect(s);
    if s.starting then SetState(d, Disconnecting)
    else if s.protocol.NoProtocol? then SetState(d, Disconnected)
    else SetState(SetState(d, Disconnecting).(protocol := NoProtocol), Disconnected)
  }

  function StateWatchdogTimeout(s: Conn, stop: seq<State>): Conn {
    if s.starting then s.(watchdog := At(s.now + START_WATCHDOG_MS))
    else if s.state == Disconnecting then SetState(s, Disconnected)
    else if s.state in {Preparing, Connecting, Reconnecting} then
      SetState(Reports(s, stop).(protocol := NoProtocol), Error)
    else s
  }

  function RecoveryTimeout(s: Conn, missing: bool, stop: seq<State>): Conn {
    if s.userDisconnect || !s.scheduled then s
    else ConnectToVpn(s.(scheduled := false), s.book.last, missing, stop)
  }

  function TakeGraceTimer(s: Conn, i: nat): Conn
    requires i < |s.grace|
  {
    s.(grace := s.grace[..i] + s.grace[i + 1..])
  }

  function GraceTimeout(s: Conn, missing: bool): Conn {
    if s.userDisconnect || s.protocol.Running? then s
    else StartNewConnection(s, s.book.last, missing)
  }

  // ---------------------------------------------------------------- events

  datatype Event =
    | Tick(ms: nat)
    | UserConnects(request: Request, missing: bool, stop: seq<State>)
    | UserDisconnects
    | NetworkChanges(stop: seq<State>)
    | ProtocolReports(x: State)
    | SignalDelivered
    | StartReturns(failed: bool)
    | RestartReturns(failed: bool)
    | StateWatchdogFires(stop: seq<State>)
    | SwitchWatchdogFires(missing: bool)
    | RecoveryFires(missing: bool, stop: seq<State>)
    | GraceFires(i: nat, missing: bool)
    | DeferredStartRuns(missing: bool)
    | PostedConnectRuns(missing: bool, stop: seq<State>)
    | PostedDisconnectRuns

  /** Timers fire in the order of their deadlines. */
  predicate DueFirst(s: Conn, t: Timer) {
    && t.At? && t.due <= s.now
    && (s.watchdog.At? ==> t.due <= s.watchdog.due)
    && (s.switchDog.At? ==> t.due <= s.switchDog.due)
    && (s.recovery.At? ==> t.due <= s.recovery.due)
    && (forall g | g in s.grace :: t.due <= g)
  }

  /** What the environment may do: a posted start runs before anything else, a protocol
      told to stop reports only Disconnecting and terminal states, timers fire when due. */
  predicate Enabled(s: Conn, e: Event) {
    && (s.deferredStart ==> e.DeferredStartRuns? || e.Tick?)
    && match e
       case Tick(_) => true
       case UserConnects(_, _, stop) => StopReports(stop)
       case UserDisconnects => true
       case NetworkChanges(stop) => StopReports(stop)
       case ProtocolReports(x) => s.protocol.Running? && (s.fence ==> StopReport(x))
       case SignalDelivered => s.signals != []
       case StartReturns(_) => s.starting
       case RestartReturns(_) => s.restarts > 0
       case StateWatchdogFires(stop) => DueFirst(s, s.watchdog) && StopReports(stop)
       case SwitchWatchdogFires(_) => DueFirst(s, s.switchDog)
       case RecoveryFires(_, stop) => DueFirst(s, s.recovery) && StopReports(stop)
       case GraceFires(i, _) => i < |s.grace| && DueFirst(s, At(s.grace[i]))
       case DeferredStartRuns(_) => s.deferredStart
       case PostedConnectRuns(_, stop) => s.postedConnects > 0 && StopReports(stop)
       case PostedDisconnectRuns => s.postedDisconnects > 0
  }

  function Step(s: Conn, e: Event): Conn
    requires Enabled(s, e)
  {
    match e
    case Tick(ms) => s.(now := s.now + ms)
    case UserConnects(r, missing, stop) =>
      ConnectToVpn(s.(book := NoteRequest(s.book, r)), r, missing, stop)
    case UserDisconnects => DisconnectFromVpn(s)
    case NetworkChanges(stop) => ReconnectToVpn(s, stop)
    case ProtocolReports(x) => Report(s, x)
    case SignalDelivered => SetState(s.(signals := s.signals[1..]), s.signals[0])
    case StartReturns(failed) => StartReturned(s, failed)
    case RestartReturns(failed) => RestartReturned(s, failed)
    case StateWatchdogFires(stop) => StateWatchdogTimeout(s.(watchdog := Off), stop)
    case SwitchWatchdogFires(missing) => SwitchWatchdogTimeout(s.(switchDog := Off), missing)
    case RecoveryFires(missing, stop) => RecoveryTimeout(s.(recovery := Off), missing, stop)
    case GraceFires(i, missing) => GraceTimeout(TakeGraceTimer(s, i), missing)
    case DeferredStartRuns(missing) => StartNewConnection(s.(deferredStart := false), s.book.last, missing)
    case PostedConnectRuns(missing, stop) =>
      ConnectToVpn(s.(postedConnects := s.postedConnects - 1), s.book.last, missing, stop)
    case PostedDisconnectRuns => DisconnectFromVpn(s.(postedDisconnects := s.postedDisconnects - 1))
  }

  /** A freshly constructed VpnConnection; the safe-mode deadline survives restarts. */
  function Fresh(now: nat, safeUntil: nat): Conn {
    Conn(now, Disconnected, NoProtocol, false, Off, Off, Off, [], Off, false, false, false, false, false,
         0, 0, 0, [], Book(NO_REQUEST, 0, 0, 0, safeUntil, []))
  }

  ghost predicate Runs(s: Conn, es: seq<Event>)
    decreases |es|
  {
    es == [] || (Enabled(s, es[0]) && Runs(Step(s, es[0]), es[1..]))
  }

  ghost function After(s: Conn, es: seq<Event>): Conn
    requires Runs(s, es)
    decreases |es|
  {
    if es == [] then s else After(Step(s, es[0]), es[1..])
  }
}
