/** What every run of the connection lifecycle keeps. */
module LifecycleRuns {
  import opened FailureLedger
  import opened Lifecycle

  /** The state watchdog is armed exactly in the transient states, for at most 15 s, and
      behind the switch watchdog while a handover is in flight. */
  ghost predicate Watched(s: Conn) {
    && (s.watchdog.At? <==> Transient(s.state))
    && (s.watchdog.At? ==> s.watchdog.due <= s.now + CONNECT_WATCHDOG_MS)
    && (s.watchdog.At? && s.fence ==> s.switchDog.At? && s.switchDog.due < s.watchdog.due)
  }

  /** A handover in flight: the old protocol is told to stop, detached, and timed. */
  ghost predicate Fenced(s: Conn) {
    && (s.switchDog.At? <==> s.fence)
    && (s.fence ==>
          && s.protocol.Running? && Live(s.protocol.state) && !s.protocol.attached
          && !s.starting && !s.userDisconnect && s.switchDog.due <= s.now + SWITCH_WATCHDOG_MS)
  }

  /** At most one protocol is ever being started, it is listened to, and a queued request waits
      for it. */
  ghost predicate Exclusive(s: Conn) {
    && (s.starting ==> s.protocol.Running? && s.protocol.attached)
    && (s.deferredStart ==> s.protocol.NoProtocol? && !s.starting)
    && (s.queuedConnect ==> s.starting && !s.userDisconnect)
  }

  /** A scheduled reconnect has its timer running and everything it needs. */
  ghost predicate Budgeted(s: Conn) {
    s.scheduled ==>
      s.recovery.At? && !s.userDisconnect && CanBeRetried(s.book.last) && s.book.safeUntil <= Sec(s)
  }

  /** The invariant without the state watchdog; the wall clock is past the epoch's first second. */
  ghost predicate Settled(s: Conn) {
    && Fenced(s) && Exclusive(s) && Budgeted(s) && Faithful(s.book, Sec(s)) && s.now >= 1000
  }

  ghost predicate Inv(s: Conn) { Settled(s) && Watched(s) }

  // ---------------------------------------------------------------- state changes

  /** Only the bookkeeping and the recovery timer differ, and the request in force is the same. */
  ghost predicate OnlyBooked(s: Conn, f: Conn) {
    && f == s.(book := f.book, scheduled := f.scheduled, recovery := f.recovery)
    && f.book.last == s.book.last
  }

  lemma FailureFrame(s: Conn)
    ensures var f := RegisterFailureAndMaybeEnterSafeMode(s);
            && OnlyBooked(s, f) && f.book == RegisterFailure(s.book, Sec(s))
            && (f.scheduled ==> s.scheduled && f.recovery == s.recovery && f.book.safeUntil == s.book.safeUntil)
            && (s.recovery == Off ==> f.recovery == Off)
  {}

  lemma HandleFailureFrame(s: Conn)
    ensures OnlyBooked(s, HandleFailure(s))
    ensures s.userDisconnect && !s.scheduled ==> !HandleFailure(s).scheduled
    ensures s.userDisconnect && s.recovery == Off ==> HandleFailure(s).recovery == Off
  {
    hide RegisterFailureAndMaybeEnterSafeMode;
    FailureFrame(s);
  }

  /** What setConnectionState can touch at all: the state, the watchdog, the recovery timer,
      the user-disconnect flag (which it can only clear) and the bookkeeping. */
  ghost predicate OnlyStateChanged(s: Conn, t: Conn) {
    && t == s.(state := t.state, watchdog := t.watchdog, recovery := t.recovery, scheduled := t.scheduled,
               userDisconnect := t.userDisconnect, book := t.book)
    && t.book.last == s.book.last && (t.userDisconnect ==> s.userDisconnect)
  }

  lemma SettleFrame(s: Conn, previous: State, x: State)
    ensures OnlyStateChanged(s, Settle(s, previous, x)) && Settle(s, previous, x).state == s.state
    ensures s.userDisconnect && !s.scheduled ==> !Settle(s, previous, x).scheduled
    ensures x != Connected && x != Disconnected ==> Settle(s, previous, x).userDisconnect == s.userDisconnect
    ensures !s.scheduled && Settle(s, previous, x).scheduled ==> FailedTransition(previous, x) && !s.userDisconnect
    ensures s.userDisconnect && s.recovery == Off ==> Settle(s, previous, x).recovery == Off
  {
    hide HandleFailure;
    HandleFailureFrame(s);
  }

  lemma SetStateFrame(s: Conn, x: State)
    ensures OnlyStateChanged(s, SetState(s, x))
    ensures s.userDisconnect && !s.scheduled ==> !SetState(s, x).scheduled
    ensures x != Connected && x != Disconnected ==> SetState(s, x).userDisconnect == s.userDisconnect
    ensures if x == Disconnected && s.state == Reconnecting then SetState(s, x) == s else SetState(s, x).state == x
    ensures !s.scheduled && SetState(s, x).scheduled ==> FailedTransition(s.state, x) && !s.userDisconnect
    ensures s.userDisconnect && s.recovery == Off ==> SetState(s, x).recovery == Off
  {
    hide Settle;
    SettleFrame(ArmWatchdog(s.(state := x), x), s.state, x);
  }

  lemma HandleFailureStep(s: Conn)
    requires Settled(s)
    ensures Settled(HandleFailure(s))
  {
    hide Faithful, RegisterFailure, RegisterFailureAndMaybeEnterSafeMode, PlanRetry;
    FailureFrame(s);
    FailureKeepsFaith(s.book, Sec(s));
    var f := RegisterFailureAndMaybeEnterSafeMode(s);
    RetryFrame(f);
    if !f.userDisconnect && RetryAllowed(f.book, Sec(f)) { RetryKeepsFaith(f.book, Sec(f)); }
  }

  lemma RetryFrame(s: Conn)
    ensures PlanRetry(s.book, Sec(s)) == s.book.(attempts := s.book.attempts + 1, log := PlanRetry(s.book, Sec(s)).log)
  {}

  /** 15 s to get through a connecting state, 12 s to get through Disconnecting. */
  function WatchdogFor(x: State, now: nat): Timer {
    match x
    case Preparing => At(now + 15000)
    case Connecting => At(now + 15000)
    case Reconnecting => At(now + 15000)
    case Disconnecting => At(now + 12000)
    case _ => Off
  }

  /** setConnectionState restores the invariant, watchdog included. */
  lemma SetStateStep(s: Conn, x: State)
    requires Settled(s)
    requires x == Disconnected && s.state == Reconnecting ==> Watched(s)
    ensures var t := SetState(s, x);
            && Inv(t) && OnlyStateChanged(s, t)
            && t.state == (if x == Disconnected && s.state == Reconnecting then Reconnecting else x)
            && (t.state == x ==> t.watchdog == WatchdogFor(x, s.now))
  {
    hide Faithful, HandleFailure;
    SetStateFrame(s, x);
    var a := ArmWatchdog(s.(state := x), x);
    OnlineKeepsFaith(s.book, Sec(s));
    HandleFailureFrame(a);
    HandleFailureStep(a);
  }

  // ---------------------------------------------------------------- the protocol

  /** What reports can change: only the protocol, the fence and the queue of deliveries;
      and the fence falls only together with its watchdog and the old protocol. */
  ghost predicate OnlyReported(s: Conn, t: Conn) {
    && t == s.(protocol := t.protocol, fence := t.fence, switchDog := t.switchDog,
               deferredStart := t.deferredStart, signals := t.signals)
    && (if t.fence == s.fence then t.switchDog == s.switchDog && t.deferredStart == s.deferredStart
        else s.fence && t.deferredStart && t.protocol.NoProtocol? && t.switchDog == Off)
    && (s.starting && s.protocol.Running? && !s.fence ==>
          t.protocol.Running? && t.protocol.attached == s.protocol.attached)
  }

  lemma {:induction false} ReportsStep(s: Conn, xs: seq<State>)
    requires Settled(s) && StopReports(xs)
    ensures Settled(Reports(s, xs)) && OnlyReported(s, Reports(s, xs))
    decreases |xs|
  {
    hide Faithful;
    if xs != [] {
      assert xs[0] in xs;
      var t := Report(s, xs[0]);
      assert Settled(t) && OnlyReported(s, t);
      assert StopReports(xs[1..]) by { forall x | x in xs[1..] ensures StopReport(x) { assert x in xs; } }
      ReportsStep(t, xs[1..]);
    }
  }

  // ---------------------------------------------------------------- member functions

  lemma StartStep(s: Conn, missing: bool)
    requires Inv(s) && !s.fence && !s.starting && !s.deferredStart && s.protocol.NoProtocol?
    ensures Inv(StartNewConnection(s, s.book.last, missing))
  {
    hide Faithful, SetState;
    if s.state != Connecting { SetStateStep(s, Connecting); }
    var c := if s.state != Connecting then SetState(s, Connecting) else s;
    if missing || !HasProtocol(c.book.last.container) {
      SetStateStep(c, Error);
    } else {
      BuiltKeepsFaith(c.book, Sec(c));
    }
  }

  lemma ConnectStep(s: Conn, missing: bool, stop: seq<State>)
    requires Inv(s.(scheduled := false)) && !s.deferredStart && StopReports(stop)
    ensures Inv(ConnectToVpn(s, s.book.last, missing, stop))
  {
    hide Faithful, SetState;
    var t := TakeRequest(s, s.book.last);
    if !t.starting {
      SetStateStep(t, Connecting);
      var c := SetState(t, Connecting);
      if c.protocol.Running? && Live(c.protocol.state) {
        ReportsStep(BeginHandover(c), stop);
      } else if !InGrace(c) {
        StartStep(c.(protocol := NoProtocol), missing);
      }
    }
  }

  lemma DisconnectStep(s: Conn)
    requires Inv(s) && !s.deferredStart
    ensures Inv(DisconnectFromVpn(s))
  {
    hide Faithful, SetState;
    var d := TakeDisconnect(s);
    if s.starting || s.protocol.Running? {
      SetStateStep(d, Disconnecting);
      if !s.starting { SetStateStep(SetState(d, Disconnecting).(protocol := NoProtocol), Disconnected); }
    } else {
      SetStateStep(d, Disconnected);
    }
  }

  lemma WatchdogStep(s: Conn, stop: seq<State>)
    requires Inv(s) && !s.deferredStart && !s.fence && s.watchdog.At? && StopReports(stop)
    ensures Inv(StateWatchdogTimeout(s.(watchdog := Off), stop))
  {
    hide Faithful, SetState;
    var o := s.(watchdog := Off);
    if !s.starting {
      if s.state == Disconnecting { SetStateStep(o, Disconnected); }
      else {
        ReportsStep(o, stop);
        SetStateStep(Reports(o, stop).(protocol := NoProtocol), Error);
      }
    }
  }

  lemma RequestEvent(s: Conn, e: Event)
    requires Inv(s) && Enabled(s, e)
    requires e.UserConnects? || e.PostedConnectRuns? || e.RecoveryFires? || e.UserDisconnects?
          || e.PostedDisconnectRuns?
    ensures Inv(Step(s, e))
  {
    hide Faithful, SetState;
    match e
    case UserConnects(r, missing, stop) =>
      RequestKeepsFaith(s.book, r, Sec(s));
      ConnectStep(s.(book := NoteRequest(s.book, r)), missing, stop);
    case PostedConnectRuns(missing, stop) => ConnectStep(s.(postedConnects := s.postedConnects - 1), missing, stop);
    case RecoveryFires(missing, stop) =>
      if s.scheduled { ConnectStep(s.(recovery := Off, scheduled := false), missing, stop); }
    case UserDisconnects => DisconnectStep(s);
    case PostedDisconnectRuns => DisconnectStep(s.(postedDisconnects := s.postedDisconnects - 1));
  }

  lemma StartEvent(s: Conn, e: Event)
    requires Inv(s) && Enabled(s, e)
    requires e.SwitchWatchdogFires? || e.GraceFires? || e.DeferredStartRuns?
    ensures Inv(Step(s, e))
  {
    hide Faithful, SetState;
    match e
    case SwitchWatchdogFires(missing) => StartStep(DropProtocol(s.(switchDog := Off)), missing);
    case GraceFires(i, missing) =>
      if !s.userDisconnect && s.protocol.NoProtocol? {
        StartStep(TakeGraceTimer(s, i), missing);
      }
    case DeferredStartRuns(missing) => StartStep(s.(deferredStart := false), missing);
  }

  lemma ReturnEvent(s: Conn, e: Event)
    requires Inv(s) && Enabled(s, e)
    requires e.SignalDelivered? || e.StartReturns? || e.RestartReturns? || e.StateWatchdogFires?
    ensures Inv(Step(s, e))
  {
    hide Faithful, SetState;
    match e
    case SignalDelivered => SetStateStep(s.(signals := s.signals[1..]), s.signals[0]);
    case StartReturns(failed) =>
      if !s.userDisconnect && !s.queuedConnect && failed { SetStateStep(s.(starting := false), Error); }
    case RestartReturns(failed) => if failed { SetStateStep(s.(restarts := s.restarts - 1), Error); }
    case StateWatchdogFires(stop) => WatchdogStep(s, stop);
  }

  lemma ReconnectEvent(s: Conn, stop: seq<State>)
    requires Inv(s) && Enabled(s, NetworkChanges(stop))
    ensures Inv(ReconnectToVpn(s, stop))
  {
    hide Faithful, SetState;
    if !ReconnectIgnored(s) {
      SetStateStep(s, Reconnecting);
      ReportsStep(SetState(s, Reconnecting), stop);
    }
  }

  /** Every event the environment can produce keeps the invariant. */
  lemma StepKeepsInv(s: Conn, e: Event)
    requires Inv(s) && Enabled(s, e)
    ensures Inv(Step(s, e))
  {
    hide Faithful;
    if e.Tick? {
      TimePasses(s.book, Sec(s), Sec(Step(s, e)));
    } else if e.NetworkChanges? {
      ReconnectEvent(s, e.stop);
    } else if e.SignalDelivered? || e.StartReturns? || e.RestartReturns? || e.StateWatchdogFires? {
      ReturnEvent(s, e);
    } else if e.SwitchWatchdogFires? || e.GraceFires? || e.DeferredStartRuns? {
      StartEvent(s, e);
    } else if !e.ProtocolReports? {
      RequestEvent(s, e);
    }
  }

  lemma FreshInv(now: nat, safeUntil: nat)
    requires now >= 1000
    ensures Inv(Fresh(now, safeUntil))
  {}

  /** Every reachable state satisfies the invariant. */
  lemma {:induction false} RunKeepsInv(s: Conn, es: seq<Event>)
    requires Inv(s) && Runs(s, es)
    ensures Inv(After(s, es))
    decreases |es|
  {
    if es != [] {
      StepKeepsInv(s, es[0]);
      RunKeepsInv(Step(s, es[0]), es[1..]);
    }
  }
}
