/** The promises of the connection lifecycle, for every run from a fresh VpnConnection. */
module LifecycleTheorems {
  import opened FailureLedger
  import opened Lifecycle
  import opened LifecycleRuns

  ghost predicate RunFrom(now: nat, safeUntil: nat, es: seq<Event>) {
    now >= 1000 && Runs(Fresh(now, safeUntil), es)
  }

  ghost predicate Reachable(s: Conn) {
    exists now: nat, safeUntil: nat, es :: RunFrom(now, safeUntil, es) && After(Fresh(now, safeUntil), es) == s
  }

  lemma ReachableKeepsInv(s: Conn)
    requires Reachable(s)
    ensures Inv(s)
  {
    hide Faithful, SetState;
    var now: nat, safeUntil: nat, es :| RunFrom(now, safeUntil, es) && After(Fresh(now, safeUntil), es) == s;
    FreshInv(now, safeUntil);
    RunKeepsInv(Fresh(now, safeUntil), es);
  }

  lemma {:induction false} RunsAppend(s: Conn, es: seq<Event>, fs: seq<Event>)
    requires Runs(s, es) && Runs(After(s, es), fs)
    ensures Runs(s, es + fs) && After(s, es + fs) == After(After(s, es), fs)
    decreases |es|
  {
    hide Step, Enabled;
    if es == [] { assert es + fs == fs; }
    else {
      assert (es + fs)[0] == es[0] && (es + fs)[1..] == es[1..] + fs;
      RunsAppend(Step(s, es[0]), es[1..], fs);
    }
  }

  lemma RunOne(s: Conn, e: Event)
    requires Enabled(s, e)
    ensures Runs(s, [e]) && After(s, [e]) == Step(s, e)
  {
    hide Step, Enabled;
    assert [e][1..] == [];
    assert Runs(Step(s, e), []);
  }

  lemma NoRun(s: Conn)
    ensures Runs(s, []) && After(s, []) == s
  {}

  // ---------------------------------------------------------------- no unwatched transient state

  lemma NoUnwatchedTransientState(s: Conn, stop: seq<State>)
    requires Reachable(s)
    ensures s.watchdog.At? <==> s.state in {Preparing, Connecting, Reconnecting, Disconnecting}
    ensures s.watchdog.At? ==> s.watchdog.due <= s.now + 15000
    ensures Enabled(s, StateWatchdogFires(stop)) && !s.starting ==>
              var t := Step(s, StateWatchdogFires(stop));
              && t.state == (if s.state == Disconnecting then Disconnected else Error)
              && t.watchdog == Off && (s.state != Disconnecting ==> t.protocol == NoProtocol)
    ensures Enabled(s, StateWatchdogFires(stop)) && s.starting ==>
              Step(s, StateWatchdogFires(stop)) == s.(watchdog := At(s.now + 5000))
  {
    hide Faithful, SetState;
    ReachableKeepsInv(s);
    if Enabled(s, StateWatchdogFires(stop)) && !s.starting {
      StepKeepsInv(s, StateWatchdogFires(stop));
      var o := s.(watchdog := Off);
      if s.state == Disconnecting { SetStateStep(o, Disconnected); }
      else {
        ReportsStep(o, stop);
        SetStateStep(Reports(o, stop).(protocol := NoProtocol), Error);
      }
    }
  }

  // ---------------------------------------------------------------- the history is what happened

  /** What a call of setConnectionState is recorded as, read off its observable effects:
      a reached Connected, a failed transition, a written safe-mode deadline, a started
      recovery timer. */
  function Recorded(s: Conn, x: State, t: Conn): seq<Entry> {
    if x == Disconnected && s.state == Reconnecting then []
    else if x == Connected then [Online]
    else if !FailedTransition(s.state, x) then []
    else [Failure(Sec(s))]
         + (if EntersSafeMode(s.book, Sec(s)) then [SafeModeEntered(Sec(s))] else [])
         + (if t.scheduled && !s.scheduled && t.recovery.At? && t.recovery.due >= s.now
            then [RetryPlanned(Sec(s), t.recovery.due - s.now)] else [])
  }

  lemma FailureHistory(s: Conn)
    ensures var f := RegisterFailureAndMaybeEnterSafeMode(s);
            var entered := EntersSafeMode(s.book, Sec(s));
            && f.book.log == s.book.log + ([Failure(Sec(s))] + if entered then [SafeModeEntered(Sec(s))] else [])
            && f.book.safeUntil == (if entered then Sec(s) + 1800 else s.book.safeUntil)
            && f.scheduled == (s.scheduled && !entered) && f.now == s.now
  {}

  lemma RetryHistory(s: Conn)
    ensures var t := ScheduleRecovery(s);
            && t.book.log == s.book.log + (if t.scheduled && !s.scheduled && t.recovery.At? && t.recovery.due >= s.now
                                           then [RetryPlanned(Sec(s), t.recovery.due - s.now)] else [])
            && (s.book.safeUntil > Sec(s) ==> t == s) && t.book.safeUntil == s.book.safeUntil
  {}

  lemma Regroup(a: seq<Entry>, b: seq<Entry>, c: seq<Entry>)
    ensures (a + b) + c == a + (b + c)
  {}

  lemma FailedHistory(s: Conn, x: State)
    requires FailedTransition(s.state, x) && !(x == Disconnected && s.state == Reconnecting)
    ensures var t := SetState(s, x);
            var entered := EntersSafeMode(s.book, Sec(s));
            && t.book.log == s.book.log + Recorded(s, x, t)
            && t.book.safeUntil == (if entered then Sec(s) + 1800 else s.book.safeUntil)
            && (entered ==> !t.scheduled)
  {
    hide RegisterFailureAndMaybeEnterSafeMode, ScheduleRecovery;
    var a := ArmWatchdog(s.(state := x), x);
    var f := RegisterFailureAndMaybeEnterSafeMode(a);
    var t := if f.userDisconnect then f else ScheduleRecovery(f);
    FailureHistory(a);
    RetryHistory(f);
    var failed := [Failure(Sec(s))] + if EntersSafeMode(s.book, Sec(s)) then [SafeModeEntered(Sec(s))] else [];
    var retry := if t.scheduled && !s.scheduled && t.recovery.At? && t.recovery.due >= s.now
                 then [RetryPlanned(Sec(s), t.recovery.due - s.now)] else [];
    assert t.book.log == (s.book.log + failed) + retry;
    Regroup(s.book.log, failed, retry);
    assert HandleFailure(a) == t;
  }

  /** The history grows by exactly what setConnectionState did. */
  lemma HistoryIsExact(s: Conn, x: State)
    ensures var t := SetState(s, x);
            var entered := Recorded(s, x, t) != [] && x != Connected && EntersSafeMode(s.book, Sec(s));
            && t.book.log == s.book.log + Recorded(s, x, t)
            && t.book.safeUntil == (if entered then Sec(s) + 1800 else s.book.safeUntil)
            && (entered ==> !t.scheduled)
  {
    hide HandleFailure;
    if FailedTransition(s.state, x) && !(x == Disconnected && s.state == Reconnecting) { FailedHistory(s, x); }
  }

  // ---------------------------------------------------------------- the handover fence

  /** `t` extends the history of `s`, and no protocol was built in between. */
  ghost predicate BuildsNothing(s: Conn, t: Conn) {
    && s.book.log <= t.book.log
    && forall i :: |s.book.log| <= i < |t.book.log| ==> !t.book.log[i].Built?
  }

  lemma SetStateBuildsNothing(s: Conn, x: State)
    ensures BuildsNothing(s, SetState(s, x))
  {
    hide SetState;
    HistoryIsExact(s, x);
  }

  lemma DisconnectBuildsNothing(s: Conn)
    ensures BuildsNothing(s, DisconnectFromVpn(s))
  {
    hide Faithful, SetState;
    var d := TakeDisconnect(s);
    SetStateBuildsNothing(d, Disconnecting);
    SetStateBuildsNothing(d, Disconnected);
    SetStateBuildsNothing(SetState(d, Disconnecting).(protocol := NoProtocol), Disconnected);
  }

  lemma {:induction false} ReportsBuildNothing(s: Conn, xs: seq<State>)
    ensures Reports(s, xs).book == s.book && Reports(s, xs).state == s.state && Reports(s, xs).restarts == s.restarts
    decreases |xs|
  {
    if xs != [] { ReportsBuildNothing(Report(s, xs[0]), xs[1..]); }
  }

  lemma {:induction false} NoProtocolReportsNothing(s: Conn, xs: seq<State>)
    requires s.protocol.NoProtocol?
    ensures Reports(s, xs) == s
    decreases |xs|
  {
    if xs != [] { NoProtocolReportsNothing(s, xs[1..]); }
  }

  /** A fenced protocol ends its handover exactly by a terminal report. */
  lemma {:induction false} TerminalReportEndsHandover(s: Conn, xs: seq<State>)
    requires s.fence && s.protocol.Running? && Live(s.protocol.state) && StopReports(xs)
    ensures Reports(s, xs).fence <==> forall x :: x in xs ==> !Terminal(x)
    decreases |xs|
  {
    if xs != [] {
      assert xs[0] in xs;
      assert forall x :: x in xs <==> x == xs[0] || x in xs[1..];
      var t := Report(s, xs[0]);
      if Terminal(xs[0]) { NoProtocolReportsNothing(t, xs[1..]); }
      else { TerminalReportEndsHandover(t, xs[1..]); }
    }
  }

  /** A disconnect cancels recovery, queued request and handover in every case, and outside a
      start it leaves no protocol. */
  lemma DisconnectClears(s: Conn)
    ensures var t := DisconnectFromVpn(s);
            && !t.fence && t.switchDog == Off && !t.queuedConnect && !t.scheduled && t.recovery == Off
            && t.disconnectedAt == At(s.now) && t.now == s.now && t.starting == s.starting && t.state != Connected
            && (if s.starting then t.state == Disconnecting && t.userDisconnect && t.protocol == s.protocol
                else t.protocol == NoProtocol)
  {
    hide SetState;
    var d := TakeDisconnect(s);
    SetStateFrame(d, Disconnecting);
    SetStateFrame(d, Disconnected);
    SetStateFrame(SetState(d, Disconnecting).(protocol := NoProtocol), Disconnected);
  }

  /** A connect request during a handover renews it and builds nothing. */
  lemma ConnectRenewsHandover(s: Conn, r: Request, missing: bool, stop: seq<State>)
    requires Fenced(s) && s.fence && StopReports(stop)
    ensures var t := ConnectToVpn(s, r, missing, stop);
            && BuildsNothing(s, t)
            && (t.fence <==> forall x :: x in stop ==> !Terminal(x))
  {
    hide Faithful, SetState;
    var q := TakeRequest(s, r);
    SetStateFrame(q, Connecting);
    SetStateBuildsNothing(q, Connecting);
    ReportsBuildNothing(BeginHandover(SetState(q, Connecting)), stop);
    TerminalReportEndsHandover(BeginHandover(SetState(q, Connecting)), stop);
  }

  /** The ways a handover ends. */
  ghost predicate EndsHandover(s: Conn, e: Event) {
    || (e.ProtocolReports? && Terminal(e.x))
    || ((e.UserConnects? || e.PostedConnectRuns? || (e.RecoveryFires? && s.scheduled))
        && !forall x :: x in e.stop ==> !Terminal(x))
    || e.SwitchWatchdogFires? || e.UserDisconnects? || e.PostedDisconnectRuns?
  }

  /** The switch watchdog runs exactly while the fence is set, due within 4 s and before the
      state watchdog, which therefore cannot fire first; meanwhile reconnectToVpn is a no-op,
      only the switch watchdog may build a protocol, and the handover ends exactly by a terminal
      report of the old protocol, that watchdog or a disconnect. */
  lemma HandoverFence(s: Conn, e: Event)
    requires Reachable(s) && Enabled(s, e)
    ensures s.switchDog.At? <==> s.fence
    ensures s.fence ==> s.switchDog.due <= s.now + 4000 && s.protocol.Running? && !s.protocol.attached
    ensures s.fence && s.watchdog.At? ==> s.switchDog.due < s.watchdog.due
    ensures s.fence ==> !e.StateWatchdogFires? && !e.StartReturns? && !e.DeferredStartRuns?
    ensures s.fence && e.NetworkChanges? ==> Step(s, e) == s
    ensures s.fence && !e.SwitchWatchdogFires? ==> BuildsNothing(s, Step(s, e))
    ensures s.fence ==> (!Step(s, e).fence <==> EndsHandover(s, e))
    ensures s.fence && EndsHandover(s, e) ==> Step(s, e).switchDog == Off
  {
    hide Faithful, SetState;
    ReachableKeepsInv(s);
    StepKeepsInv(s, e);
    if s.fence { HandoverStep(s, e); }
  }

  lemma HandoverStep(s: Conn, e: Event)
    requires Inv(s) && Enabled(s, e) && s.fence
    ensures !e.SwitchWatchdogFires? ==> BuildsNothing(s, Step(s, e))
    ensures !Step(s, e).fence <==> EndsHandover(s, e)
  {
    hide Faithful, SetState;
    if e.UserConnects? {
      ConnectRenewsHandover(s.(book := NoteRequest(s.book, e.request)), e.request, e.missing, e.stop);
    } else if e.PostedConnectRuns? {
      ConnectRenewsHandover(s.(postedConnects := s.postedConnects - 1), s.book.last, e.missing, e.stop);
    } else if e.RecoveryFires? {
      if s.scheduled { ConnectRenewsHandover(s.(recovery := Off, scheduled := false), s.book.last, e.missing, e.stop); }
    } else if e.UserDisconnects? {
      DisconnectBuildsNothing(s);
      DisconnectClears(s);
    } else if e.PostedDisconnectRuns? {
      DisconnectBuildsNothing(s.(postedDisconnects := s.postedDisconnects - 1));
      DisconnectClears(s.(postedDisconnects := s.postedDisconnects - 1));
    } else if e.SignalDelivered? {
      SetStateBuildsNothing(s.(signals := s.signals[1..]), s.signals[0]);
      SetStateStep(s.(signals := s.signals[1..]), s.signals[0]);
    } else if e.RestartReturns? {
      SetStateBuildsNothing(s.(restarts := s.restarts - 1), Error);
      SetStateStep(s.(restarts := s.restarts - 1), Error);
    } else if e.SwitchWatchdogFires? {
      StartFrame(DropProtocol(s.(switchDog := Off)), s.book.last, e.missing);
    }
  }

  lemma StartFrame(s: Conn, r: Request, missing: bool)
    ensures StartNewConnection(s, r, missing).fence == s.fence
    ensures ConnectedRuns(StartNewConnection(s, r, missing))
  {
    hide SetState;
    SetStateFrame(s, Connecting);
    var c := if s.state != Connecting then SetState(s, Connecting) else s;
    SetStateFrame(c, Error);
    SetStateFrame(c.(protocol := NoProtocol), Error);
  }

  /** The guard against a user disconnect inside handleSwitchWatchdogTimeout is never taken:
      the watchdog always goes on to a new start. */
  lemma SwitchWatchdogAlwaysRestarts(s: Conn, missing: bool)
    requires Reachable(s) && Enabled(s, SwitchWatchdogFires(missing))
    ensures !s.userDisconnect
    ensures var t := Step(s, SwitchWatchdogFires(missing));
            && !t.fence && t.switchDog == Off
            && (!missing && HasProtocol(s.book.last.container) ==> t.starting && t.protocol.origin == s.book.last)
  {
    hide Faithful, SetState;
    ReachableKeepsInv(s);
    var d := DropProtocol(s.(switchDog := Off));
    SetStateFrame(d, Connecting);
    var c := if d.state != Connecting then SetState(d, Connecting) else d;
    SetStateFrame(c, Error);
    StepKeepsInv(s, SwitchWatchdogFires(missing));
  }

  // ---------------------------------------------------------------- Connected without a protocol

  predicate ConnectedRuns(s: Conn) { s.state == Connected ==> s.protocol.Running? }

  /** A Connected signal overtaken by the loss of its protocol, or the end of a handover after
      such a signal. */
  predicate LosesProtocol(s: Conn, e: Event) {
    || (e.SignalDelivered? && s.signals != [] && s.signals[0] == Connected && s.protocol.NoProtocol?)
    || (e.ProtocolReports? && Terminal(e.x) && s.fence && s.state == Connected)
  }

  /** That Connected means a running protocol fails by exactly two kinds of step. */
  lemma ConnectedLosesProtocolExactlyBy(s: Conn, e: Event)
    requires Reachable(s) && Enabled(s, e) && ConnectedRuns(s)
    ensures !ConnectedRuns(Step(s, e)) <==> LosesProtocol(s, e)
  {
    hide Faithful, SetState;
    ReachableKeepsInv(s);
    if e.UserConnects? {
      ConnectRuns(s.(book := NoteRequest(s.book, e.request)), e.request, e.missing, e.stop);
    } else if e.PostedConnectRuns? {
      ConnectRuns(s.(postedConnects := s.postedConnects - 1), s.book.last, e.missing, e.stop);
    } else if e.RecoveryFires? {
      ConnectRuns(s.(recovery := Off, scheduled := false), s.book.last, e.missing, e.stop);
    } else if e.SwitchWatchdogFires? {
      StartFrame(DropProtocol(s.(switchDog := Off)), s.book.last, e.missing);
    } else if e.GraceFires? {
      StartFrame(TakeGraceTimer(s, e.i), s.book.last, e.missing);
    } else if e.DeferredStartRuns? {
      StartFrame(s.(deferredStart := false), s.book.last, e.missing);
    } else {
      OtherRuns(s, e);
    }
  }

  lemma ConnectRuns(s: Conn, r: Request, missing: bool, stop: seq<State>)
    requires ConnectedRuns(s)
    ensures ConnectedRuns(ConnectToVpn(s, r, missing, stop))
  {
    hide SetState;
    var q := TakeRequest(s, r);
    SetStateFrame(q, Connecting);
    var c := SetState(q, Connecting);
    if c.protocol.Running? { ReportsBuildNothing(BeginHandover(c), stop); }
    StartFrame(c.(protocol := NoProtocol), r, missing);
  }

  lemma OtherRuns(s: Conn, e: Event)
    requires Inv(s) && Enabled(s, e) && ConnectedRuns(s)
    requires e.Tick? || e.UserDisconnects? || e.PostedDisconnectRuns? || e.NetworkChanges? || e.ProtocolReports?
          || e.SignalDelivered? || e.StartReturns? || e.RestartReturns? || e.StateWatchdogFires?
    ensures !ConnectedRuns(Step(s, e)) <==> LosesProtocol(s, e)
  {
    hide Faithful, SetState;
    if e.NetworkChanges? {
      SetStateFrame(s, Reconnecting);
      ReportsBuildNothing(SetState(s, Reconnecting), e.stop);
    } else if e.SignalDelivered? {
      SetStateFrame(s.(signals := s.signals[1..]), s.signals[0]);
    } else if e.StartReturns? {
      SetStateFrame(s.(starting := false), Error);
    } else if e.RestartReturns? {
      SetStateFrame(s.(restarts := s.restarts - 1), Error);
    } else if e.UserDisconnects? {
      DisconnectClears(s);
    } else if e.PostedDisconnectRuns? {
      DisconnectClears(s.(postedDisconnects := s.postedDisconnects - 1));
    } else if e.StateWatchdogFires? {
      var o := s.(watchdog := Off);
      ReportsBuildNothing(o, e.stop);
      SetStateFrame(o, Disconnected);
      SetStateFrame(Reports(o, e.stop).(protocol := NoProtocol), Error);
    }
  }
}
