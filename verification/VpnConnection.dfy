/** VpnConnection in its own form: an object whose slots update its members in place.
    Every slot is proved to have exactly the effect its Lifecycle function describes, so
    the theorems about runs are theorems about this object. */
module VpnConnectionObject {
  import opened FailureLedger
  import opened Lifecycle
  import opened LifecycleRuns
  import opened LifecycleTheorems

  /** Single-shot timers, posted calls, unreturned starts and queued signal deliveries. */
  datatype Pending = Pending(
    grace: seq<nat>, start: bool, connects: nat, disconnects: nat, restarts: nat, signals: seq<State>)

  class VpnConnection {
    var clock: nat
    var connectionState: State
    var vpnProtocol: Protocol
    var protocolShutdownConn: bool
    var stateWatchdogTimer: Timer
    var recoveryTimer: Timer
    var switchWatchdog: Timer
    var disconnectElapsed: Timer
    var reconnectScheduled: bool
    var userRequestedDisconnect: bool
    var protocolStartInProgress: bool
    var connectRequestedDuringStart: bool
    var book: Book          // last request, attempt and failure counters, safe-mode deadline, history
    var pending: Pending    // what the event loop holds for this object

    ghost function View(): Conn
      reads this
    {
      Conn(clock, connectionState, vpnProtocol, protocolShutdownConn, stateWatchdogTimer, recoveryTimer,
           switchWatchdog, pending.grace, disconnectElapsed, reconnectScheduled, userRequestedDisconnect,
           protocolStartInProgress, connectRequestedDuringStart, pending.start, pending.connects,
           pending.disconnects, pending.restarts, pending.signals, book)
    }

    constructor (now: nat, storedSafeMode: nat)
      requires now >= 1000
      ensures View() == Fresh(now, storedSafeMode) && Inv(View())
    {
      clock, connectionState, vpnProtocol, protocolShutdownConn := now, Disconnected, NoProtocol, false;
      stateWatchdogTimer, recoveryTimer, switchWatchdog := Off, Off, Off;
      disconnectElapsed, reconnectScheduled, userRequestedDisconnect := Off, false, false;
      protocolStartInProgress, connectRequestedDuringStart := false, false;
      book := Book(NO_REQUEST, 0, 0, 0, storedSafeMode, []);
      pending := Pending([], false, 0, 0, 0, []);
      new;
      FreshInv(now, storedSafeMode);
    }

    method ArmStateWatchdog(x: State)
      modifies this`stateWatchdogTimer
      ensures View() == ArmWatchdog(old(View()), x)
    {
      if x == Preparing || x == Connecting || x == Reconnecting {
        stateWatchdogTimer := At(clock + CONNECT_WATCHDOG_MS);
      } else if x == Disconnecting {
        stateWatchdogTimer := At(clock + DISCONNECT_WATCHDOG_MS);
      } else {
        stateWatchdogTimer := Off;
      }
    }

    method ClearRecoveryState()
      modifies this
      ensures View() == ClearRecovery(old(View()))
    {
      recoveryTimer := Off;
      reconnectScheduled := false;
    }

    method RegisterFailure()
      modifies this
      ensures View() == RegisterFailureAndMaybeEnterSafeMode(old(View()))
    {
      var now := clock / 1000;
      var b := book;
      if b.windowStart == 0 || now - b.windowStart > FAILURE_WINDOW_SECS {
        b := b.(windowStart := now, burst := 0);
      }
      b := b.(burst := b.burst + 1, log := b.log + [Failure(now)]);
      if b.burst < SAFE_MODE_FAILURE_THRESHOLD {
        book := b;
        return;
      }
      b := b.(safeUntil := now + SAFE_MODE_DURATION_SECS, log := b.log + [SafeModeEntered(now)]);
      ClearRecoveryState();
      book := b.(attempts := 0, burst := 0, windowStart := 0);
    }

    method ScheduleRecoveryReconnect()
      modifies this
      ensures View() == ScheduleRecovery(old(View()))
    {
      var now := clock / 1000;
      if book.safeUntil > now { return; }
      if reconnectScheduled || book.attempts >= MAX_RECOVERY_ATTEMPTS { return; }
      var last := book.last;
      if last.serverIndex < 0 || last.hostName == "" || last.config == map[] { return; }
      var attempts := book.attempts + 1;
      var delay := RECONNECT_BASE_DELAY_MS * Pow2(attempts - 1);
      book := book.(attempts := attempts, log := book.log + [RetryPlanned(now, delay)]);
      reconnectScheduled := true;
      recoveryTimer := At(clock + delay);
    }

    method RecoverFromFailure()
      modifies this
      ensures View() == HandleFailure(old(View()))
    {
      hide RegisterFailureAndMaybeEnterSafeMode, ScheduleRecovery;
      RegisterFailure();
      if !userRequestedDisconnect { ScheduleRecoveryReconnect(); }
    }

    method ResetAfterConnected()
      modifies this
      ensures View() == GoOnline(old(View()))
    {
      book := book.(attempts := 0, burst := 0, windowStart := 0, log := book.log + [Online]);
      userRequestedDisconnect := false;
      ClearRecoveryState();
    }

    method SetConnectionState(x: State)
      modifies this
      ensures View() == SetState(old(View()), x)
    {
      hide HandleFailure, GoOnline;
      var previous := connectionState;
      if x == Disconnected && previous == Reconnecting { return; }
      connectionState := x;
      ArmStateWatchdog(x);
      if x == Connected { ResetAfterConnected(); return; }
      if FailedTransition(previous, x) { RecoverFromFailure(); return; }
      if x == Disconnected && previous == Disconnecting {
        userRequestedDisconnect := false;
        ClearRecoveryState();
      }
    }

    method FinishHandover()
      modifies this
      ensures View() == EndHandover(old(View()))
    {
      protocolShutdownConn := false;
      switchWatchdog := Off;
      vpnProtocol := NoProtocol;
      pending := pending.(start := true);
    }

    /** A report of the protocol: its own filter, then the direct connection of the
        handover fence or the queued one to SetConnectionState. */
    method ProtocolReport(x: State)
      modifies this
      ensures View() == Report(old(View()), x)
    {
      hide EndHandover;
      if vpnProtocol.NoProtocol? || vpnProtocol.state == x { return; }
      if vpnProtocol.state == Disconnected && x == Disconnecting { return; }
      if protocolShutdownConn && Terminal(x) { FinishHandover(); return; }
      if vpnProtocol.attached { pending := pending.(signals := pending.signals + [x]); }
      vpnProtocol := vpnProtocol.(state := x);
    }

    /** stop(): the reports it makes before returning, in order. */
    method StopProtocol(reports: seq<State>)
      modifies this
      ensures View() == Reports(old(View()), reports)
    {
      hide Report;
      var i := 0;
      while i < |reports|
        invariant 0 <= i <= |reports|
        invariant Reports(View(), reports[i..]) == Reports(old(View()), reports)
      {
        assert reports[i..][1..] == reports[i + 1..];
        ProtocolReport(reports[i]);
        i := i + 1;
      }
    }

    method StartNewConnection(r: Request, rulesMissing: bool)
      modifies this
      ensures View() == Lifecycle.StartNewConnection(old(View()), r, rulesMissing)
    {
      hide SetState;
      if connectionState != Connecting { SetConnectionState(Connecting); }
      if rulesMissing { SetConnectionState(Error); return; }
      if !HasProtocol(r.container) {
        vpnProtocol := NoProtocol;
        SetConnectionState(Error);
        return;
      }
      vpnProtocol := Running(Unknown, true, r);
      book := book.(log := book.log + [Built(r)]);
      protocolStartInProgress := true;
    }

    method FinishStart(failed: bool)
      modifies this
      ensures View() == StartReturned(old(View()), failed)
      ensures !protocolStartInProgress && userRequestedDisconnect == old(userRequestedDisconnect)
      ensures pending.disconnects == old(pending.disconnects) + if userRequestedDisconnect then 1 else 0
      ensures pending.connects == old(pending.connects)
                + if !userRequestedDisconnect && old(connectRequestedDuringStart) then 1 else 0
      ensures !userRequestedDisconnect ==> !connectRequestedDuringStart
      ensures failed && !userRequestedDisconnect && !old(connectRequestedDuringStart) ==> connectionState == Error
    {
      hide SetState, ArmWatchdog;
      protocolStartInProgress := false;
      if userRequestedDisconnect { pending := pending.(disconnects := pending.disconnects + 1); return; }
      if connectRequestedDuringStart {
        connectRequestedDuringStart := false;
        pending := pending.(connects := pending.connects + 1);
        return;
      }
      if failed {
        SetStateFrame(View(), Error);
        SetConnectionState(Error);
        return;
      }
      if connectionState == Preparing || connectionState == Connecting || connectionState == Reconnecting {
        ArmStateWatchdog(connectionState);
      }
    }

    method RememberRequest(r: Request)
      modifies this
      ensures View() == TakeRequest(old(View()), r)
    {
      if !reconnectScheduled { ClearRecoveryState(); }
      reconnectScheduled := false;
      userRequestedDisconnect := false;
      book := book.(last := r);
    }

    method FencePreviousProtocol()
      requires vpnProtocol.Running?
      modifies this
      ensures View() == BeginHandover(old(View()))
    {
      vpnProtocol := vpnProtocol.(attached := false);
      protocolShutdownConn := true;
      switchWatchdog := At(clock + SWITCH_WATCHDOG_MS);
    }

    method StartWhenDaemonIsReady(r: Request, rulesMissing: bool)
      modifies this
      ensures View() == StartOrWait(old(View()), r, rulesMissing)
    {
      hide Lifecycle.StartNewConnection;
      if disconnectElapsed.At? {
        var elapsed := clock - disconnectElapsed.due;
        if 0 <= elapsed < GRACE_MS {
          var delay := Clamp(GRACE_MS - elapsed, MIN_GRACE_MS, GRACE_MS);
          disconnectElapsed := Off;
          pending := pending.(grace := pending.grace + [clock + delay]);
          return;
        }
      }
      StartNewConnection(r, rulesMissing);
    }

    method ConnectToVpn(r: Request, rulesMissing: bool, stopReports: seq<State>)
      modifies this
      ensures View() == Lifecycle.ConnectToVpn(old(View()), r, rulesMissing, stopReports)
    {
      hide SetState, TakeRequest, StartOrWait, BeginHandover;
      RememberRequest(r);
      if protocolStartInProgress { connectRequestedDuringStart := true; return; }
      SetConnectionState(Connecting);
      if vpnProtocol.Running? {
        if Live(vpnProtocol.state) {
          FencePreviousProtocol();
          StopProtocol(stopReports);
          return;
        }
      }
      vpnProtocol := NoProtocol;
      StartWhenDaemonIsReady(r, rulesMissing);
    }

    method HandleSwitchWatchdogTimeout(rulesMissing: bool)
      modifies this
      ensures View() == SwitchWatchdogTimeout(old(View()), rulesMissing)
    {
      hide SetState, Lifecycle.StartNewConnection;
      if userRequestedDisconnect {
        protocolShutdownConn := false;
        vpnProtocol := NoProtocol;
        return;
      }
      protocolShutdownConn := false;
      vpnProtocol := NoProtocol;
      StartNewConnection(book.last, rulesMissing);
    }

    method ReconnectToVpn(stopReports: seq<State>)
      modifies this
      ensures View() == Lifecycle.ReconnectToVpn(old(View()), stopReports)
      ensures ReconnectIgnored(old(View())) ==> View() == old(View())
      ensures !ReconnectIgnored(old(View())) ==>
                connectionState == Reconnecting && pending.restarts == old(pending.restarts) + 1
    {
      hide SetState;
      SetStateFrame(View(), Reconnecting);
      ReportsBuildNothing(SetState(View(), Reconnecting), stopReports);
      if vpnProtocol.NoProtocol? { return; }
      if protocolShutdownConn || vpnProtocol.state == Disconnecting { return; }
      if connectionState != Connected && connectionState != Reconnecting { return; }
      SetConnectionState(Reconnecting);
      StopProtocol(stopReports);
      pending := pending.(restarts := pending.restarts + 1);
    }

    method FinishRestart(failed: bool)
      requires pending.restarts > 0
      modifies this
      ensures View() == RestartReturned(old(View()), failed)
    {
      hide SetState;
      pending := pending.(restarts := pending.restarts - 1);
      if failed { SetConnectionState(Error); }
    }

    method CancelPendingWork()
      modifies this
      ensures View() == TakeDisconnect(old(View()))
      ensures protocolStartInProgress == old(protocolStartInProgress) && vpnProtocol == old(vpnProtocol)
    {
      userRequestedDisconnect := true;
      ClearRecoveryState();
      connectRequestedDuringStart := false;
      disconnectElapsed := At(clock);
      switchWatchdog := Off;
      protocolShutdownConn := false;
    }

    method DisconnectFromVpn()
      modifies this
      ensures View() == Lifecycle.DisconnectFromVpn(old(View()))
      ensures !protocolShutdownConn && switchWatchdog == Off && !connectRequestedDuringStart
      ensures !reconnectScheduled && recoveryTimer == Off && disconnectElapsed == At(clock)
      ensures protocolStartInProgress == old(protocolStartInProgress)
      ensures if protocolStartInProgress
              then connectionState == Disconnecting && userRequestedDisconnect && vpnProtocol == old(vpnProtocol)
              else vpnProtocol == NoProtocol
    {
      DisconnectClears(View());
      hide SetState, TakeDisconnect;
      CancelPendingWork();
      if protocolStartInProgress { SetConnectionState(Disconnecting); return; }
      if vpnProtocol.NoProtocol? { SetConnectionState(Disconnected); return; }
      SetConnectionState(Disconnecting);
      vpnProtocol := NoProtocol;
      SetConnectionState(Disconnected);
    }

    method HandleStateWatchdogTimeout(stopReports: seq<State>)
      modifies this
      ensures View() == StateWatchdogTimeout(old(View()), stopReports)
    {
      hide SetState;
      if protocolStartInProgress { stateWatchdogTimer := At(clock + START_WATCHDOG_MS); return; }
      if connectionState == Disconnecting { SetConnectionState(Disconnected); return; }
      if connectionState == Preparing || connectionState == Connecting || connectionState == Reconnecting {
        StopProtocol(stopReports);
        vpnProtocol := NoProtocol;
        SetConnectionState(Error);
      }
    }

    method HandleRecoveryTimeout(rulesMissing: bool, stopReports: seq<State>)
      modifies this
      ensures View() == RecoveryTimeout(old(View()), rulesMissing, stopReports)
    {
      hide SetState, Lifecycle.ConnectToVpn;
      if userRequestedDisconnect || !reconnectScheduled { return; }
      reconnectScheduled := false;
      ConnectToVpn(book.last, rulesMissing, stopReports);
    }

    method DropGraceTimer(i: nat)
      requires i < |pending.grace|
      modifies this`pending
      ensures View() == TakeGraceTimer(old(View()), i)
    {
      pending := pending.(grace := pending.grace[..i] + pending.grace[i + 1..]);
    }

    method HandleGraceTimeout(rulesMissing: bool)
      modifies this
      ensures View() == GraceTimeout(old(View()), rulesMissing)
    {
      hide SetState, Lifecycle.StartNewConnection;
      if userRequestedDisconnect || vpnProtocol.Running? { return; }
      StartNewConnection(book.last, rulesMissing);
    }

    /** One turn of the event loop, for an event that comes from outside. */
    method DeliverRequest(e: Event)
      requires Enabled(View(), e)
      requires e.UserConnects? || e.UserDisconnects? || e.NetworkChanges? || e.ProtocolReports?
            || e.StartReturns? || e.RestartReturns? || e.PostedConnectRuns? || e.PostedDisconnectRuns?
      modifies this
      ensures View() == Step(old(View()), e)
    {
      hide SetState, Lifecycle.ConnectToVpn, Lifecycle.DisconnectFromVpn, Lifecycle.ReconnectToVpn, Report,
           StartReturned, DueFirst, StopReports;
      match e {
        case UserConnects(r, missing, stop) =>
          book := NoteRequest(book, r);
          ConnectToVpn(r, missing, stop);
        case UserDisconnects => DisconnectFromVpn();
        case NetworkChanges(stop) => ReconnectToVpn(stop);
        case ProtocolReports(x) => ProtocolReport(x);
        case StartReturns(failed) => FinishStart(failed);
        case RestartReturns(failed) => FinishRestart(failed);
        case PostedConnectRuns(missing, stop) =>
          pending := pending.(connects := pending.connects - 1);
          ConnectToVpn(book.last, missing, stop);
        case PostedDisconnectRuns =>
          pending := pending.(disconnects := pending.disconnects - 1);
          DisconnectFromVpn();
      }
    }

    /** One turn of the event loop, for a watchdog, the recovery timer or a queued delivery. */
    method DeliverTimer(e: Event)
      requires Enabled(View(), e)
      requires e.Tick? || e.SignalDelivered? || e.StateWatchdogFires? || e.RecoveryFires?
      modifies this
      ensures View() == Step(old(View()), e)
    {
      hide SetState, StateWatchdogTimeout, RecoveryTimeout, DueFirst, StopReports;
      match e {
        case Tick(ms) => clock := clock + ms;
        case SignalDelivered =>
          var x := pending.signals[0];
          pending := pending.(signals := pending.signals[1..]);
          SetConnectionState(x);
        case StateWatchdogFires(stop) =>
          stateWatchdogTimer := Off;
          HandleStateWatchdogTimeout(stop);
        case RecoveryFires(missing, stop) =>
          recoveryTimer := Off;
          HandleRecoveryTimeout(missing, stop);
      }
    }

    /** One turn of the event loop, for a start that has been put off. */
    method DeliverStart(e: Event)
      requires Enabled(View(), e)
      requires e.SwitchWatchdogFires? || e.GraceFires? || e.DeferredStartRuns?
      modifies this
      ensures View() == Step(old(View()), e)
    {
      hide Lifecycle.StartNewConnection, SwitchWatchdogTimeout, GraceTimeout, TakeGraceTimer, DueFirst;
      match e {
        case SwitchWatchdogFires(missing) =>
          switchWatchdog := Off;
          HandleSwitchWatchdogTimeout(missing);
        case GraceFires(i, missing) =>
          DropGraceTimer(i);
          HandleGraceTimeout(missing);
        case DeferredStartRuns(missing) =>
          pending := pending.(start := false);
          StartNewConnection(book.last, missing);
      }
    }

    /** Whatever the event loop delivers, the object keeps the invariant of all runs. */
    method Deliver(e: Event)
      requires Inv(View()) && Enabled(View(), e)
      modifies this
      ensures View() == Step(old(View()), e) && Inv(View())
    {
      hide Inv, Step;
      StepKeepsInv(View(), e);
      if e.Tick? || e.SignalDelivered? || e.StateWatchdogFires? || e.RecoveryFires? {
        DeliverTimer(e);
      } else if e.SwitchWatchdogFires? || e.GraceFires? || e.DeferredStartRuns? {
        DeliverStart(e);
      } else {
        DeliverRequest(e);
      }
    }
  }
}
