/** The client's socket controller in its own form: an object whose slots update its members.
    Each slot has exactly the effect its SocketLink function describes. */
module LocalSocketControllerObject {
  import opened Basics
  import opened SocketLink
  import opened SocketLinkProofs

  class LocalSocketController {
    var clock: nat
    var daemonState: Readiness
    var socketConnected: bool
    var pendingActivation: Option<nat>
    var activationInFlight: bool
    var ignoredEarlyDisconnect: bool
    var lastActivateSentAt: Option<nat>
    var initializingRetry: nat
    var initializingTimer: bool
    var requests: nat
    var outgoing: seq<Command>
    var incoming: seq<Message>
    var partialLine: bool
    ghost var history: seq<Entry>

    ghost function View(): Link
      reads this
    {
      Link(clock, daemonState, socketConnected, pendingActivation, activationInFlight, ignoredEarlyDisconnect,
           lastActivateSentAt, initializingRetry, initializingTimer, requests, outgoing, incoming, partialLine, history)
    }

    constructor ()
      ensures View() == INITIAL
    {
      clock, daemonState, socketConnected := 0, Unknown, false;
      pendingActivation, activationInFlight, ignoredEarlyDisconnect, lastActivateSentAt := None, false, false, None;
      initializingRetry, initializingTimer, requests := 0, false, 0;
      outgoing, incoming, partialLine, history := [], [], false, [];
    }

    method WriteCommand(c: Command)
      modifies this`outgoing
      ensures View() == Write(old(View()), c)
    {
      if socketConnected { outgoing := outgoing + [c]; }
    }

    method DisconnectInternally()
      modifies this
      ensures View() == DisconnectInternal(old(View()))
    {
      daemonState := Ready;
      initializingRetry := 0;
      initializingTimer := false;
      history := history + [RetriesReset];
    }

    method DropSocket(cut: bool)
      modifies this`socketConnected, this`outgoing, this`incoming, this`partialLine
      ensures View() == LoseSocket(old(View()), cut)
    {
      socketConnected, outgoing, incoming := false, [], [];
      partialLine := partialLine || cut;
    }

    method OnError(cut: bool)
      modifies this
      ensures View() == ErrorOccurred(old(View()), cut)
    {
      hide LoseSocket;
      DropSocket(cut);
      if daemonState == Initializing {
        initializingRetry := initializingRetry + 1;
        if initializingRetry - 1 < MAX_CONNECTION_RETRY {
          initializingTimer := true;
          history := history + [RetryArmed];
          return;
        }
      }
      DisconnectInternally();
    }

    method PollStatus()
      modifies this`outgoing
      ensures View() == CheckStatus(old(View()))
    {
      if daemonState == Ready || daemonState == Initializing { WriteCommand(StatusQuery); }
    }

    method SendActivationPayload(n: nat, ghost wasDeferred: bool)
      modifies this
      ensures View() == SendPayload(old(View()), n, wasDeferred)
    {
      WriteCommand(Command.Activate(n));
      activationInFlight := true;
      ignoredEarlyDisconnect := false;
      lastActivateSentAt := Some(clock);
      history := history + [Sent(n, clock, wasDeferred)];
    }

    method Activate()
      modifies this
      ensures View() == RequestActivation(old(View()))
    {
      hide SendPayload;
      var n := requests;
      requests := requests + 1;
      history := history + [Asked(n)];
      if daemonState != Ready || !socketConnected {
        pendingActivation := Some(n);
        history := history + [Deferred(n)];
        return;
      }
      SendActivationPayload(n, false);
    }

    method TrySendPendingActivation()
      modifies this
      ensures View() == TrySendPending(old(View()))
    {
      hide SendPayload;
      if pendingActivation.None? { return; }
      if daemonState != Ready || !socketConnected { return; }
      SendActivationPayload(pendingActivation.value, true);
      pendingActivation := None;
    }

    method Deactivate()
      modifies this
      ensures View() == RequestDeactivation(old(View()))
    {
      pendingActivation := None;
      activationInFlight := false;
      ignoredEarlyDisconnect := false;
      history := history + [Deactivated];
      if daemonState != Ready { return; }
      WriteCommand(Command.Deactivate);
    }

    method OnDisconnected(cause: Cause)
      requires daemonState == Ready
      modifies this
      ensures View() == Receive(old(View()), Message.Disconnected(cause))
    {
      if activationInFlight && !ignoredEarlyDisconnect && lastActivateSentAt.Some?
         && clock - lastActivateSentAt.value < EARLY_DISCONNECT_MS {
        ignoredEarlyDisconnect := true;
        history := history + [Swallowed(cause, clock)];
        return;
      }
      activationInFlight := false;
      DisconnectInternally();
      history := history + [Surfaced(cause)];
    }

    method ParseCommand(m: Message)
      modifies this
      ensures View() == Receive(old(View()), m)
    {
      hide TrySendPending;
      if daemonState == Initializing && m.Status? {
        daemonState := Ready;
        if !m.wellFormed { return; }
        TrySendPendingActivation();
        return;
      }
      if daemonState != Ready {
        if m.Disconnected? { history := history + [Unexpected(m.cause)]; }
        return;
      }
      match m {
        case Disconnected(cause) => OnDisconnected(cause);
        case Connected(wellFormed) =>
          activationInFlight := false;
          ignoredEarlyDisconnect := false;
          history := history + [ConnectedSeen];
          if wellFormed { PollStatus(); }
        case BackendFailure(cause) =>
          activationInFlight := false;
          history := history + [FailureSeen(cause)];
        case _ =>
      }
    }

    /** One turn of the event loop keeps the invariant of all interleavings. */
    method Deliver(e: Event)
      requires Inv(View()) && Enabled(View(), e)
      modifies this
      ensures View() == Step(old(View()), e) && Inv(View())
    {
      hide Inv, Receive, ErrorOccurred, RequestActivation, RequestDeactivation, CheckStatus;
      StepKeepsInv(View(), e);
      match e {
        case Tick(ms) => clock := clock + ms;
        case Initialize =>
          initializingRetry := 0;
          daemonState := Initializing;
          history := history + [RetriesReset];
        case RetryTimerFires =>
          initializingTimer := false;
          daemonState := Initializing;
        case SocketConnects =>
          socketConnected := true;
          PollStatus();
        case SocketFails(cut) => OnError(cut);
        case ClientActivates => Activate();
        case ClientDeactivates => Deactivate();
        case ClientPolls => PollStatus();
        case ClientReads =>
          var m := incoming[0];
          incoming := incoming[1..];
          if partialLine { partialLine := false; } else { ParseCommand(m); }
        case DaemonReads(ok) =>
          var c := outgoing[0];
          outgoing := outgoing[1..];
          incoming := incoming + Answer(c, ok);
        case DaemonSpeaks(m) => incoming := incoming + [m];
      }
    }
  }
}
