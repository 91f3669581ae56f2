/** When a user disconnect is final: what must be outstanding for the connection to come back
    without a new request. */
module DisconnectTheorems {
  import opened FailureLedger
  import opened Lifecycle
  import opened LifecycleRuns
  import opened LifecycleTheorems
  import opened RequestTheorems

  predicate Trying(x: State) { x in {Preparing, Connecting, Reconnecting} }

  /** A delivered state that is, or after its watchdog becomes, a failure. */
  predicate Reviving(x: State) { Trying(x) || x == Error }

  ghost predicate Harmless(xs: seq<State>) {
    forall x :: x in xs ==> !Reviving(x)
  }

  /** A run without a connectToVpn call from outside. */
  ghost predicate Unasked(es: seq<Event>) {
    forall e :: e in es ==> !e.UserConnects?
  }

  // ---------------------------------------------------------------- what can bring a connection back

  /** No protocol, and nothing that is starting or scheduled. */
  ghost predicate Dormant(s: Conn) {
    Inv(s) && s.protocol.NoProtocol? && !s.starting && !s.deferredStart && !s.scheduled
  }

  /** A delivered state that clears the user-disconnect flag, at once or on the next disconnect. */
  predicate Clearing(x: State) { x == Connected || x == Disconnecting }

  /** What acts outside the signal queue: a grace timer, or a restart whose failure is retried. */
  predicate Timed(s: Conn, retry: bool) { s.grace != [] || (retry && s.restarts > 0) }

  /** The queue clears the flag before something that acts on a cleared flag: outside the queue,
      or behind the clearing signal in it. */
  ghost predicate ClearedInTime(xs: seq<State>, timed: bool, retry: bool) {
    exists i :: 0 <= i < |xs| && Clearing(xs[i]) && (timed || (retry && !Harmless(xs[i + 1..])))
  }

  /** A posted connect; or, with the flag clear or about to be, a grace timer, an unreturned
      restart, or a connecting state or error.  `retry` says whether failures are retried. */
  ghost predicate Revivable(s: Conn, retry: bool) {
    || s.postedConnects > 0
    || ((!s.userDisconnect || s.state == Disconnecting) && (Timed(s, retry) || (retry && !Harmless(s.signals))))
    || (retry && !s.userDisconnect && Trying(s.state))
    || ClearedInTime(s.signals, Timed(s, retry), retry)
  }

  lemma PopCleared(xs: seq<State>, timed: bool, retry: bool)
    requires xs != []
    ensures ClearedInTime(xs, timed, retry) <==>
              || (Clearing(xs[0]) && (timed || (retry && !Harmless(xs[1..]))))
              || ClearedInTime(xs[1..], timed, retry)
  {
    var tail := xs[1..];
    if i :| 0 <= i < |xs| && Clearing(xs[i]) && (timed || (retry && !Harmless(xs[i + 1..]))) {
      if i > 0 { assert tail[i - 1] == xs[i] && tail[i..] == xs[i + 1..]; }
    }
    if i :| 0 <= i < |tail| && Clearing(tail[i]) && (timed || (retry && !Harmless(tail[i + 1..]))) {
      assert xs[i + 1] == tail[i] && tail[i + 1..] == xs[i + 2..];
    }
  }

  lemma ClearedActs(xs: seq<State>, timed: bool, retry: bool)
    ensures ClearedInTime(xs, timed, retry) ==> timed || (retry && !Harmless(xs))
  {}

  lemma HarmlessTail(xs: seq<State>)
    requires xs != []
    ensures Harmless(xs) <==> !Reviving(xs[0]) && Harmless(xs[1..])
  {
    assert forall x :: x in xs <==> x == xs[0] || x in xs[1..];
  }

  // ---------------------------------------------------------------- the disconnect itself

  /** The failure counters after a disconnect: one that interrupts a connecting state without a
      protocol is itself a failed transition. */
  function BookAfter(s: Conn): Book {
    if s.protocol.NoProtocol? && s.state in {Connecting, Preparing} then RegisterFailure(s.book, Sec(s)) else s.book
  }

  /** Whether a disconnect has already cleared its own flag when it returns. */
  predicate ClearsItself(s: Conn) { s.protocol.Running? || s.state == Disconnecting }

  /** Stopping a protocol: Disconnecting and then Disconnected, which clears the flag. */
  lemma StopShape(s: Conn)
    requires s.protocol.Running? && !s.starting
    ensures DisconnectFromVpn(s) ==
              s.(state := Disconnected, protocol := NoProtocol, fence := false, switchDog := Off, watchdog := Off,
                 recovery := Off, scheduled := false, userDisconnect := false, queuedConnect := false,
                 disconnectedAt := At(s.now))
  {}

  /** The change to Disconnected under the flag. */
  lemma DropShape(s: Conn)
    requires s.userDisconnect
    ensures var t := SetState(s, Disconnected);
            && t.book == (if s.state in {Connecting, Preparing} then RegisterFailure(s.book, Sec(s)) else s.book)
            && t.userDisconnect == (s.state != Disconnecting)
            && t.state == (if s.state == Reconnecting then Reconnecting else Disconnected)
            && OnlyStateChanged(s, t)
  {
    hide RegisterFailureAndMaybeEnterSafeMode, ScheduleRecovery;
    SetStateFrame(s, Disconnected);
    FailureFrame(ArmWatchdog(s.(state := Disconnected), Disconnected));
  }

  /** Outside a start a disconnect leaves a dormant connection.  What the event loop holds stays;
      the flag stays set unless there was a protocol to stop or one was being stopped. */
  lemma DisconnectShape(s: Conn)
    requires Inv(s) && !s.starting && !s.deferredStart
    ensures var d := DisconnectFromVpn(s);
            && Dormant(d) && d.book == BookAfter(s) && d.userDisconnect == !ClearsItself(s)
            && d.state == (if s.protocol.NoProtocol? && s.state == Reconnecting then Reconnecting else Disconnected)
            && d.recovery == Off && d.disconnectedAt == At(s.now) && d.now == s.now
            && d.signals == s.signals && d.grace == s.grace && d.restarts == s.restarts
            && d.postedConnects == s.postedConnects && d.book.last == s.book.last
  {
    hide Faithful, SetState, RegisterFailure;
    DisconnectStep(s);
    DisconnectClears(s);
    if s.protocol.Running? { StopShape(s); } else { DropShape(TakeDisconnect(s)); }
  }

  // ---------------------------------------------------------------- nothing outstanding

  /** Nothing is left that could start a protocol or schedule a reconnect on its own. */
  ghost predicate Quiet(s: Conn) { Dormant(s) && !Revivable(s, CanBeRetried(s.book.last)) }

  lemma QuietDisconnect(s: Conn)
    requires Quiet(s)
    ensures Quiet(DisconnectFromVpn(s)) && BuildsNothing(s, DisconnectFromVpn(s))
  {
    hide Inv, DisconnectFromVpn, Harmless, ClearedInTime, BookAfter;
    DisconnectShape(s);
    DisconnectBuildsNothing(s);
  }

  lemma FlaggedFailure(s: Conn)
    requires s.userDisconnect
    ensures HandleFailure(s).book.attempts <= s.book.attempts && HandleFailure(s).userDisconnect
  {}

  /** Under the flag no attempt is used up, and only Connected, or the end of Disconnecting,
      clears it. */
  lemma FlaggedAttempts(s: Conn, x: State)
    requires s.userDisconnect
    ensures SetState(s, x).book.attempts <= s.book.attempts
    ensures s.state != Disconnecting ==> (SetState(s, x).userDisconnect <==> x != Connected)
  {
    hide HandleFailure;
    FlaggedFailure(ArmWatchdog(s.(state := x), x));
  }

  lemma QuietDelivery(s: Conn)
    requires Quiet(s) && s.signals != []
    ensures var t := SetState(s.(signals := s.signals[1..]), s.signals[0]); Quiet(t) && BuildsNothing(s, t)
  {
    hide Faithful, SetState, Harmless, ClearedInTime;
    var retry := CanBeRetried(s.book.last);
    PopCleared(s.signals, Timed(s, retry), retry);
    HarmlessTail(s.signals);
    var p := s.(signals := s.signals[1..]);
    SetStateFrame(p, s.signals[0]);
    SetStateStep(p, s.signals[0]);
    SetStateBuildsNothing(p, s.signals[0]);
    if s.userDisconnect { FlaggedAttempts(p, s.signals[0]); }
  }

  lemma QuietRestart(s: Conn, failed: bool)
    requires Quiet(s) && s.restarts > 0
    ensures var t := RestartReturned(s, failed); Quiet(t) && BuildsNothing(s, t)
  {
    hide Faithful, SetState, Harmless;
    var retry := CanBeRetried(s.book.last);
    var p := s.(restarts := s.restarts - 1);
    ClearedLess(s.signals, Timed(s, retry), Timed(p, retry), retry);
    SetStateFrame(p, Error);
    SetStateStep(p, Error);
    SetStateBuildsNothing(p, Error);
  }

  lemma ClearedLess(xs: seq<State>, timed: bool, timed': bool, retry: bool)
    requires timed' ==> timed
    ensures ClearedInTime(xs, timed', retry) ==> ClearedInTime(xs, timed, retry)
  {}

  lemma QuietWatchdog(s: Conn, stop: seq<State>)
    requires Quiet(s) && s.watchdog.At?
    ensures var t := StateWatchdogTimeout(s.(watchdog := Off), stop); Quiet(t) && BuildsNothing(s, t)
  {
    hide Faithful, SetState, Harmless, ClearedInTime;
    var o := s.(watchdog := Off);
    var x := if s.state == Disconnecting then Disconnected else Error;
    NoProtocolReportsNothing(o, stop);
    SetStateFrame(o, x);
    SetStateStep(o, x);
    SetStateBuildsNothing(o, x);
  }

  lemma QuietGrace(s: Conn, i: nat, missing: bool)
    requires Quiet(s) && i < |s.grace|
    ensures var t := GraceTimeout(TakeGraceTimer(s, i), missing); Quiet(t) && BuildsNothing(s, t)
  {
    hide Faithful, Harmless;
    var retry := CanBeRetried(s.book.last);
    var p := TakeGraceTimer(s, i);
    ClearedLess(s.signals, Timed(s, retry), Timed(p, retry), retry);
  }

  /** Every event but a request keeps the quiet and builds nothing. */
  lemma QuietStep(s: Conn, e: Event)
    requires Quiet(s) && Enabled(s, e) && !e.UserConnects?
    ensures Quiet(Step(s, e)) && BuildsNothing(s, Step(s, e))
  {
    hide Faithful, SetState, Harmless, ClearedInTime, DisconnectFromVpn, StateWatchdogTimeout;
    StepKeepsInv(s, e);
    match e
    case UserDisconnects => QuietDisconnect(s);
    case PostedDisconnectRuns => QuietDisconnect(s.(postedDisconnects := s.postedDisconnects - 1));
    case SignalDelivered => QuietDelivery(s);
    case RestartReturns(failed) => QuietRestart(s, failed);
    case StateWatchdogFires(stop) => QuietWatchdog(s, stop);
    case GraceFires(i, missing) => QuietGrace(s, i, missing);
    case _ =>
  }

  lemma {:induction false} QuietRun(s: Conn, es: seq<Event>)
    requires Quiet(s) && Runs(s, es) && Unasked(es)
    ensures Quiet(After(s, es)) && BuildsNothing(s, After(s, es))
    decreases |es|
  {
    hide Quiet;
    if es != [] {
      assert es[0] in es;
      QuietStep(s, es[0]);
      assert forall e :: e in es[1..] ==> e in es;
      QuietRun(Step(s, es[0]), es[1..]);
    }
  }

  /** With no timer, posted call or unreturned restart outstanding and no connecting state or error
      in the queue, a disconnect is final, whatever the protocol was doing: until the next
      connectToVpn call no run builds a protocol or schedules a reconnect. */
  lemma DrainedDisconnectIsFinal(s: Conn, es: seq<Event>)
    requires Reachable(s) && !s.starting && !s.deferredStart && s.grace == [] && s.postedConnects == 0
    requires s.restarts == 0 && Harmless(s.signals)
    requires Runs(DisconnectFromVpn(s), es) && Unasked(es)
    ensures var t := After(DisconnectFromVpn(s), es);
            t.protocol.NoProtocol? && !t.scheduled && BuildsNothing(DisconnectFromVpn(s), t)
  {
    hide Faithful, DisconnectFromVpn, BookAfter;
    ReachableKeepsInv(s);
    DisconnectShape(s);
    ClearedActs(s.signals, false, CanBeRetried(s.book.last));
    QuietRun(DisconnectFromVpn(s), es);
  }

  // ---------------------------------------------------------------- something outstanding

  /** Dormant, with no timer left from earlier and the last disconnect in the past. */
  ghost predicate Idle(s: Conn) {
    Dormant(s) && s.recovery == Off && (s.disconnectedAt.At? ==> s.disconnectedAt.due <= s.now)
  }

  /** Idle, with the user-disconnect flag clear. */
  ghost predicate Poised(s: Conn) { Idle(s) && !s.userDisconnect && !Trying(s.state) }

  predicate Retriable(b: Book) { b.attempts < 2 && CanBeRetried(b.last) }

  /** Safe mode, failure window and grace window are over. */
  ghost predicate Ripe(s: Conn) {
    && s.book.safeUntil <= Sec(s) && s.book.windowStart + 180 < Sec(s)
    && (s.disconnectedAt.At? ==> s.disconnectedAt.due + GRACE_MS <= s.now)
  }

  function Wait(s: Conn): nat { 1000 * (s.book.safeUntil + s.book.windowStart + 181) + GRACE_MS }

  lemma WaitingRipens(s: Conn, more: nat)
    requires Idle(s)
    ensures var t := Step(s, Tick(Wait(s) + more)); Idle(t) && Ripe(t)
  {
    hide Faithful;
    var t := Step(s, Tick(Wait(s) + more));
    StepKeepsInv(s, Tick(Wait(s) + more));
    assert t.now >= 1000 * (s.book.safeUntil + s.book.windowStart + 181);
  }

  /** A reconnect is scheduled and nothing stands in its way. */
  ghost predicate Launched(s: Conn, t: Conn) {
    && Inv(t) && t.scheduled && t.protocol.NoProtocol? && !t.starting && !t.deferredStart && t.watchdog == Off
    && (t.disconnectedAt.At? ==> t.disconnectedAt.due + GRACE_MS <= t.now)
    && t.grace == s.grace && t.book.last == s.book.last
  }

  /** An error in a ripe moment schedules a reconnect. */
  lemma ErrorPlans(s: Conn)
    requires s.book.safeUntil <= Sec(s) && s.book.windowStart + FAILURE_WINDOW_SECS < Sec(s)
    requires !s.scheduled && !s.userDisconnect && Retriable(s.book)
    ensures SetState(s, Error).scheduled
  {
    var a := ArmWatchdog(s.(state := Error), Error);
    assert !EntersSafeMode(s.book, Sec(s));
    assert HandleFailure(a).scheduled;
  }

  lemma ErrorSchedules(s: Conn)
    requires Settled(s) && Ripe(s) && s.protocol.NoProtocol? && !s.starting && !s.deferredStart
    requires !s.scheduled && !s.userDisconnect && Retriable(s.book)
    ensures Launched(s, SetState(s, Error))
  {
    hide Faithful, SetState;
    SetStateStep(s, Error);
    SetStateFrame(s, Error);
    ErrorPlans(s);
  }

  /** A delivery that cannot revive leaves the connection idle. */
  lemma HarmlessDelivery(s: Conn, x: State)
    requires Poised(s) && !Reviving(x)
    ensures var t := SetState(s, x);
            Poised(t) && OnlyStateChanged(s, t) && (Retriable(s.book) ==> Retriable(t.book))
  {
    hide Faithful, HandleFailure;
    SetStateStep(s, x);
  }

  lemma RunThen(s: Conn, e: Event, es: seq<Event>)
    requires Enabled(s, e) && Runs(Step(s, e), es) && Unasked(es) && !e.UserConnects?
    ensures Runs(s, [e] + es) && After(s, [e] + es) == After(Step(s, e), es) && Unasked([e] + es)
  {
    hide Step, Enabled;
    RunOne(s, e);
    RunsAppend(s, [e], es);
  }

  /** A connecting state is given up by its watchdog, which is a failure. */
  lemma WatchdogRevives(s: Conn) returns (es: seq<Event>)
    requires Inv(s) && Ripe(s) && s.protocol.NoProtocol? && !s.starting && !s.deferredStart && s.grace == []
    requires !s.scheduled && !s.userDisconnect && s.recovery == Off && Retriable(s.book) && Trying(s.state)
    ensures Unasked(es) && Runs(s, es) && Launched(s, After(s, es))
  {
    hide Faithful, SetState, Runs, After;
    var t := Step(s, Tick(CONNECT_WATCHDOG_MS));
    StepKeepsInv(s, Tick(CONNECT_WATCHDOG_MS));
    ErrorSchedules(t.(watchdog := Off));
    var u := Step(t, StateWatchdogFires([]));
    NoRun(u);
    RunThen(t, StateWatchdogFires([]), []);
    RunThen(s, Tick(CONNECT_WATCHDOG_MS), [StateWatchdogFires([])] + []);
    es := [Tick(CONNECT_WATCHDOG_MS)] + ([StateWatchdogFires([])] + []);
  }

  /** Delivering a reviving state in a ripe moment: an error fails at once, a connecting state
      through the watchdog it arms. */
  lemma DeliveryRevives(s: Conn) returns (es: seq<Event>)
    requires Poised(s) && Ripe(s) && Retriable(s.book) && s.grace == []
    requires s.signals != [] && Reviving(s.signals[0])
    ensures Unasked(es) && Runs(s, es) && Launched(s, After(s, es))
  {
    hide Faithful, SetState, Runs, After;
    var x := s.signals[0];
    var p := s.(signals := s.signals[1..]);
    var t := Step(s, SignalDelivered);
    if x == Error {
      ErrorSchedules(p);
      NoRun(t);
      es := [];
    } else {
      TryingFrame(p, x);
      SetStateStep(p, x);
      es := WatchdogRevives(t);
    }
    RunThen(s, SignalDelivered, es);
    es := [SignalDelivered] + es;
  }

  lemma TryingFrame(s: Conn, x: State)
    requires Trying(x)
    ensures SetState(s, x) == s.(state := x, watchdog := At(s.now + 15000))
  {}

  lemma {:induction false} SignalsRevive(s: Conn) returns (es: seq<Event>)
    requires Poised(s) && Retriable(s.book) && s.grace == [] && !Harmless(s.signals)
    ensures Unasked(es) && Runs(s, es) && Launched(s, After(s, es))
    decreases |s.signals|
  {
    hide Faithful, SetState, Runs, After;
    if Reviving(s.signals[0]) {
      var t := Step(s, Tick(Wait(s)));
      WaitingRipens(s, 0);
      es := DeliveryRevives(t);
      RunThen(s, Tick(Wait(s)), es);
      es := [Tick(Wait(s))] + es;
    } else {
      HarmlessDelivery(s.(signals := s.signals[1..]), s.signals[0]);
      es := SignalsRevive(Step(s, SignalDelivered));
      RunThen(s, SignalDelivered, es);
      es := [SignalDelivered] + es;
    }
  }

  lemma RestartRevives(s: Conn) returns (es: seq<Event>)
    requires Poised(s) && Retriable(s.book) && s.restarts > 0
    ensures Unasked(es) && Runs(s, es) && Launched(s, After(s, es))
  {
    hide Faithful, SetState, Runs, After;
    var t := Step(s, Tick(Wait(s)));
    WaitingRipens(s, 0);
    ErrorSchedules(t.(restarts := t.restarts - 1));
    NoRun(Step(t, RestartReturns(true)));
    RunThen(t, RestartReturns(true), []);
    RunThen(s, Tick(Wait(s)), [RestartReturns(true)] + []);
    es := [Tick(Wait(s))] + ([RestartReturns(true)] + []);
  }

  // ---------------------------------------------------------------- starts that are still to come

  /** A start that finds the configuration incomplete fails and is retried; one that does not
      builds a protocol. */
  lemma StartFrom(s: Conn)
    requires Settled(s) && Ripe(s) && s.protocol.NoProtocol? && !s.starting && !s.deferredStart
    requires !s.scheduled && !s.userDisconnect
    ensures Retriable(s.book) ==> StartNewConnection(s, s.book.last, true).scheduled
    ensures HasProtocol(s.book.last.container) ==> StartNewConnection(s, s.book.last, false).starting
  {
    hide Faithful, SetState;
    TryingFrame(s, Connecting);
    var c := if s.state != Connecting then SetState(s, Connecting) else s;
    if Retriable(s.book) { ErrorSchedules(c); }
  }

  /** The outcomes a run can have: a scheduled reconnect, or a protocol being started. */
  ghost predicate EndsIn(s: Conn, es: seq<Event>, started: bool) {
    Unasked(es) && Runs(s, es) && if started then After(s, es).starting else After(s, es).scheduled
  }

  ghost predicate MayRetry(s: Conn) { exists es :: EndsIn(s, es, false) }

  ghost predicate MayStart(s: Conn) { exists es :: EndsIn(s, es, true) }

  lemma PostedConnectOutcome(s: Conn, started: bool) returns (es: seq<Event>)
    requires Idle(s) && s.postedConnects > 0
    requires if started then HasProtocol(s.book.last.container) else Retriable(s.book)
    ensures EndsIn(s, es, started)
  {
    hide Faithful, SetState, Runs, After;
    var e := PostedConnectRuns(!started, []);
    var t := Step(s, Tick(Wait(s)));
    WaitingRipens(s, 0);
    var q := TakeRequest(t.(postedConnects := t.postedConnects - 1), t.book.last);
    TryingFrame(q, Connecting);
    var c := SetState(q, Connecting);
    StartFrom(c.(protocol := NoProtocol));
    NoRun(Step(t, e));
    RunThen(t, e, []);
    RunThen(s, Tick(Wait(s)), [e] + []);
    es := [Tick(Wait(s))] + ([e] + []);
  }

  lemma {:induction false} Earliest(g: seq<nat>) returns (i: nat)
    requires g != []
    ensures i < |g| && forall x :: x in g ==> g[i] <= x
    decreases |g|
  {
    i := 0;
    if |g| > 1 {
      var j := Earliest(g[1..]);
      assert forall x :: x in g ==> x == g[0] || x in g[1..];
      if g[j + 1] < g[0] { i := j + 1; }
    }
  }

  lemma GraceOutcome(s: Conn, started: bool) returns (es: seq<Event>)
    requires Poised(s) && s.grace != [] && s.watchdog == Off
    requires if started then HasProtocol(s.book.last.container) else Retriable(s.book)
    ensures EndsIn(s, es, started)
  {
    hide Faithful, SetState, Runs, After;
    var i := Earliest(s.grace);
    var e := GraceFires(i, !started);
    var tick := Tick(Wait(s) + s.grace[i]);
    var t := Step(s, tick);
    WaitingRipens(s, s.grace[i]);
    StartFrom(TakeGraceTimer(t, i));
    NoRun(Step(t, e));
    RunThen(t, e, []);
    RunThen(s, tick, [e] + []);
    es := [tick] + ([e] + []);
  }

  lemma LaunchedStarts(s: Conn) returns (es: seq<Event>)
    requires Launched(s, s) && s.grace == [] && HasProtocol(s.book.last.container)
    ensures EndsIn(s, es, true)
  {
    hide Faithful, SetState, Runs, After;
    var tick := Tick(s.recovery.due);
    var e := RecoveryFires(false, []);
    var t := Step(s, tick);
    StepKeepsInv(s, tick);
    var q := TakeRequest(t.(recovery := Off, scheduled := false), t.book.last);
    TryingFrame(q, Connecting);
    NoRun(Step(t, e));
    RunThen(t, e, []);
    RunThen(s, tick, [e] + []);
    es := [tick] + ([e] + []);
  }

  // ---------------------------------------------------------------- the exact condition

  /** With the flag clear, whatever acts on a clear flag brings the connection back. */
  lemma PoisedOutcome(d: Conn, started: bool) returns (es: seq<Event>)
    requires Poised(d) && d.watchdog == Off && d.postedConnects == 0
    requires if started then HasProtocol(d.book.last.container) else Retriable(d.book)
    requires Timed(d, Retriable(d.book)) || (Retriable(d.book) && !Harmless(d.signals))
    ensures EndsIn(d, es, started)
  {
    hide Poised, Runs, After, Launched;
    if d.grace != [] { es := GraceOutcome(d, started); }
    else {
      if d.restarts > 0 { es := RestartRevives(d); } else { es := SignalsRevive(d); }
      es := LaunchedOutcome(d, es, started);
    }
  }

  /** A disconnect while the state is Disconnecting ends it and clears the flag. */
  lemma DisconnectAgain(s: Conn)
    requires Idle(s) && s.state == Disconnecting
    ensures var t := DisconnectFromVpn(s);
            && Poised(t) && t.watchdog == Off && t.book == s.book && t.signals == s.signals
            && t.grace == s.grace && t.restarts == s.restarts && t.postedConnects == s.postedConnects
  {
    hide Faithful, DisconnectFromVpn;
    DisconnectShape(s);
  }

  /** Delivering a signal under the flag, which one further back will clear. */
  lemma FlaggedDelivery(s: Conn, retry: bool)
    requires Idle(s) && s.userDisconnect && s.state != Disconnecting && s.postedConnects == 0 && Revivable(s, retry)
    ensures s.signals != []
    ensures var t := SetState(s.(signals := s.signals[1..]), s.signals[0]);
            && Idle(t) && Revivable(t, retry) && (t.userDisconnect || t.state == Connected)
            && OnlyStateChanged(s.(signals := s.signals[1..]), t)
            && (Retriable(s.book) ==> Retriable(t.book))
  {
    hide Faithful, SetState, Harmless, ClearedInTime;
    assert s.signals != [] by { NothingCleared(Timed(s, retry), retry); }
    PopCleared(s.signals, Timed(s, retry), retry);
    var p := s.(signals := s.signals[1..]);
    SetStateFrame(p, s.signals[0]);
    SetStateStep(p, s.signals[0]);
    FlaggedAttempts(p, s.signals[0]);
  }

  lemma NothingCleared(timed: bool, retry: bool)
    ensures !ClearedInTime([], timed, retry)
  {}

  /** An idle connection that can be revived is: with `started`, up to a protocol being started. */
  lemma {:induction false} ReviveOutcome(s: Conn, started: bool) returns (es: seq<Event>)
    requires Idle(s) && (!s.userDisconnect ==> !Trying(s.state)) && Revivable(s, Retriable(s.book))
    requires if started then HasProtocol(s.book.last.container) else Retriable(s.book)
    ensures EndsIn(s, es, started)
    decreases |s.signals|
  {
    hide Faithful, SetState, Runs, After, Harmless, ClearedInTime, DisconnectFromVpn;
    ClearedActs(s.signals, Timed(s, Retriable(s.book)), Retriable(s.book));
    if s.postedConnects > 0 {
      es := PostedConnectOutcome(s, started);
    } else if s.state == Disconnecting {
      DisconnectAgain(s);
      es := PoisedOutcome(Step(s, UserDisconnects), started);
      es := Prepend(s, UserDisconnects, es, started);
    } else if !s.userDisconnect {
      es := PoisedOutcome(s, started);
    } else {
      FlaggedDelivery(s, Retriable(s.book));
      var t := Step(s, SignalDelivered);
      RetryHelps(t, Retriable(s.book));
      es := ReviveOutcome(t, started);
      es := Prepend(s, SignalDelivered, es, started);
    }
  }

  lemma RetryHelps(s: Conn, retry: bool)
    requires Revivable(s, retry)
    ensures Revivable(s, true)
  {}

  lemma Prepend(s: Conn, e: Event, es: seq<Event>, started: bool) returns (all: seq<Event>)
    requires Enabled(s, e) && !e.UserConnects? && EndsIn(Step(s, e), es, started)
    ensures EndsIn(s, all, started)
  {
    hide Step, Enabled, Runs, After;
    RunThen(s, e, es);
    all := [e] + es;
  }

  lemma LaunchedOutcome(d: Conn, es: seq<Event>, started: bool) returns (all: seq<Event>)
    requires Unasked(es) && Runs(d, es) && Launched(d, After(d, es)) && d.grace == []
    requires started ==> HasProtocol(d.book.last.container)
    ensures EndsIn(d, all, started)
  {
    hide Inv, Runs, After, InGrace;
    all := es;
    if started {
      var fs := LaunchedStarts(After(d, es));
      RunsAppend(d, es, fs);
      all := es + fs;
    }
  }

  /** Without a new request the request in force stays, and only one with a protocol starts. */
  lemma {:induction false} UnaskedRun(s: Conn, es: seq<Event>)
    requires Inv(s) && Runs(s, es) && Unasked(es) && !s.starting
    ensures Inv(After(s, es)) && After(s, es).book.last == s.book.last
    ensures After(s, es).starting ==> HasProtocol(s.book.last.container)
    decreases |es|
  {
    hide Inv, Step, Enabled, HasProtocol;
    if es != [] {
      assert es[0] in es;
      StepKeepsInv(s, es[0]);
      StepRequest(s, es[0]);
      assert forall e :: e in es[1..] ==> e in es;
      if HasProtocol(s.book.last.container) { UnaskedKeeps(Step(s, es[0]), es[1..]); }
      else { UnaskedRun(Step(s, es[0]), es[1..]); }
    }
  }

  lemma {:induction false} UnaskedKeeps(s: Conn, es: seq<Event>)
    requires Inv(s) && Runs(s, es) && Unasked(es)
    ensures Inv(After(s, es)) && After(s, es).book.last == s.book.last
    decreases |es|
  {
    hide Inv, Step, Enabled, HasProtocol;
    if es != [] {
      assert es[0] in es;
      StepKeepsInv(s, es[0]);
      StepRequest(s, es[0]);
      assert forall e :: e in es[1..] ==> e in es;
      UnaskedKeeps(Step(s, es[0]), es[1..]);
    }
  }

  /** What a run that schedules a reconnect, or starts a protocol, needs to have been there. */
  lemma OutcomeNeeds(d: Conn, es: seq<Event>, started: bool)
    requires Dormant(d) && EndsIn(d, es, started)
    ensures if started then HasProtocol(d.book.last.container) else CanBeRetried(d.book.last)
    ensures Revivable(d, CanBeRetried(d.book.last))
  {
    hide Faithful, Runs, After, Step, Revivable;
    UnaskedRun(d, es);
    if !Revivable(d, CanBeRetried(d.book.last)) { QuietRun(d, es); }
  }

  // ---------------------------------------------------------------- the theorem

  /** The same, read off the connection before the disconnect. */
  ghost predicate RevivableAfter(s: Conn, retry: bool) {
    || s.postedConnects > 0
    || (ClearsItself(s) && (Timed(s, retry) || (retry && !Harmless(s.signals))))
    || ClearedInTime(s.signals, Timed(s, retry), retry)
  }

  lemma DisconnectIdles(s: Conn)
    requires Inv(s) && !s.starting && !s.deferredStart
    ensures var d := DisconnectFromVpn(s);
            && Idle(d) && (!d.userDisconnect ==> !Trying(d.state)) && d.book.last == s.book.last
            && forall retry :: Revivable(d, retry) <==> RevivableAfter(s, retry)
  {
    hide Faithful, DisconnectFromVpn, BookAfter, Harmless, ClearedInTime;
    DisconnectShape(s);
  }

  /** Exactly when a disconnect outside a start is not final.  With attempts left after it, a run
      without a new request can schedule a reconnect, or start a protocol, if and only if the last
      request allows it and there is a posted connect, or a grace timer, an unreturned restart, or
      a connecting state or error in the queue that finds the user-disconnect flag clear: because
      the disconnect had a protocol to stop, or because Connected or Disconnecting is delivered
      first. */
  lemma DisconnectIsFinalExactlyWhen(s: Conn)
    requires Reachable(s) && !s.starting && !s.deferredStart && BookAfter(s).attempts < 2
    ensures MayRetry(DisconnectFromVpn(s)) <==> CanBeRetried(s.book.last) && RevivableAfter(s, true)
    ensures MayStart(DisconnectFromVpn(s)) <==>
              HasProtocol(s.book.last.container) && RevivableAfter(s, CanBeRetried(s.book.last))
  {
    hide Inv, EndsIn, DisconnectFromVpn, HasProtocol, CanBeRetried, RevivableAfter, Revivable, BookAfter;
    ReachableKeepsInv(s);
    var d := DisconnectFromVpn(s);
    DisconnectIdles(s);
    DisconnectShape(s);
    var retry := CanBeRetried(s.book.last);
    if retry && RevivableAfter(s, true) { var es := ReviveOutcome(d, false); }
    if HasProtocol(s.book.last.container) && RevivableAfter(s, retry) { var es := ReviveOutcome(d, true); }
    if MayRetry(d) { var es :| EndsIn(d, es, false); OutcomeNeeds(d, es, false); }
    if MayStart(d) { var es :| EndsIn(d, es, true); OutcomeNeeds(d, es, true); }
  }
}
