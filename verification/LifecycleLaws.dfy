/** What each slot of VpnConnection answers, written out in states and milliseconds: when a
    handover begins, when a network change restarts the protocol, what a report, a failure and a
    returning start do. */
module LifecycleLaws {
  import opened FailureLedger
  import opened Lifecycle
  import opened LifecycleRuns
  import opened LifecycleTheorems
  import opened RequestTheorems

  // ---------------------------------------------------------------- reports of a protocol

  /** The reports that get past the protocol's own filter, which starts out in state `before`: no
      repetition, and no Disconnecting once disconnected. */
  function Passed(before: State, xs: seq<State>): seq<State>
    decreases |xs|
  {
    if xs == [] then []
    else if xs[0] == before || (before == Disconnected && xs[0] == Disconnecting) then Passed(before, xs[1..])
    else [xs[0]] + Passed(xs[0], xs[1..])
  }

  /** The state the protocol is in afterwards. */
  function LastPassed(before: State, xs: seq<State>): State {
    var p := Passed(before, xs); if p == [] then before else p[|p| - 1]
  }

  /** From `s` to `t` the protocol has reported `xs`, and nothing else has happened. */
  ghost predicate Heard(s: Conn, t: Conn, xs: seq<State>) {
    && s.protocol.Running?
    && t.protocol == s.protocol.(state := LastPassed(s.protocol.state, xs))
    && t.signals == (if s.protocol.attached then s.signals + Passed(s.protocol.state, xs) else s.signals)
    && t == s.(protocol := t.protocol, signals := t.signals)
  }

  lemma OnePassed(before: State, x: State)
    ensures var filtered := x == before || (before == Disconnected && x == Disconnecting);
            && Passed(before, [x]) == (if filtered then [] else [x])
            && LastPassed(before, [x]) == (if filtered then before else x)
  {
    assert [x][1..] == [];
  }

  /** A report that does not end a handover. */
  lemma ReportPasses(s: Conn, x: State)
    requires s.protocol.Running? && (s.fence ==> x !in {Disconnected, Error, Unknown})
    ensures Heard(s, Report(s, x), [x])
  {
    hide Passed, LastPassed;
    OnePassed(s.protocol.state, x);
    assert s.signals + [] == s.signals;
  }

  lemma HeardMore(s: Conn, t: Conn, u: Conn, xs: seq<State>)
    requires xs != [] && Heard(s, t, [xs[0]]) && Heard(t, u, xs[1..])
    ensures Heard(s, u, xs)
  {
    hide Passed, LastPassed;
    PassedFirst(s.protocol.state, xs);
    LastFirst(s.protocol.state, xs);
    var p, q := Passed(s.protocol.state, [xs[0]]), Passed(t.protocol.state, xs[1..]);
    assert s.signals + (p + q) == (s.signals + p) + q;
  }

  lemma PassedFirst(before: State, xs: seq<State>)
    requires xs != []
    ensures var p := Passed(before, [xs[0]]);
            Passed(before, xs) == p + Passed(LastPassed(before, [xs[0]]), xs[1..])
  {
    assert [xs[0]][1..] == [];
  }

  lemma LastFirst(before: State, xs: seq<State>)
    requires xs != []
    ensures LastPassed(before, xs) == LastPassed(LastPassed(before, [xs[0]]), xs[1..])
  {
    PassedFirst(before, xs);
    OnePassed(before, xs[0]);
    hide Passed;
    var p, q := Passed(before, [xs[0]]), Passed(LastPassed(before, [xs[0]]), xs[1..]);
    if q != [] { assert (p + q)[|p + q| - 1] == q[|q| - 1]; } else { assert p + q == p; }
  }

  /** What stop() reports, unless it ends a handover. */
  lemma {:induction false} ReportsPass(s: Conn, xs: seq<State>)
    requires s.protocol.Running?
    requires s.fence ==> forall x :: x in xs ==> x !in {Disconnected, Error, Unknown}
    ensures Heard(s, Reports(s, xs), xs)
    decreases |xs|
  {
    if xs == [] {
      assert s.signals + [] == s.signals;
    } else {
      hide Report, Passed, LastPassed;
      assert xs[0] in xs && forall x :: x in xs[1..] ==> x in xs;
      ReportPasses(s, xs[0]);
      ReportsPass(Report(s, xs[0]), xs[1..]);
      HeardMore(s, Report(s, xs[0]), Reports(s, xs), xs);
    }
  }

  /** One report: filtered, the end of a handover, or a delivery if the protocol is listened to. */
  lemma ReportLaw(s: Conn, x: State)
    requires Reachable(s) && Enabled(s, ProtocolReports(x))
    ensures var t := Step(s, ProtocolReports(x));
            var before := s.protocol.state;
            if x == before || (before == Disconnected && x == Disconnecting) then t == s
            else if s.fence && x in {Disconnected, Error, Unknown} then
              t == s.(fence := false, switchDog := Off, protocol := NoProtocol, deferredStart := true)
            else
              && t.protocol == s.protocol.(state := x)
              && t.signals == (if s.protocol.attached then s.signals + [x] else s.signals)
              && t == s.(protocol := t.protocol, signals := t.signals)
  {}

  // ---------------------------------------------------------------- a request begins a handover

  /** A protocol that has to be stopped before another one may start. */
  predicate MustStop(p: Protocol) {
    p.Running? && p.state in {Connecting, Connected, Reconnecting, Disconnecting}
  }

  /** What a request does to a protocol that is up: it is detached, told to stop and given 4 s;
      nothing is built before it has reported a terminal state. */
  lemma HandoverBegins(s: Conn, r: Request, missing: bool, stop: seq<State>)
    requires Fenced(s) && Exclusive(s) && !s.starting && MustStop(s.protocol) && StopReports(stop)
    ensures var t := ConnectToVpn(s, r, missing, stop);
            && BuildsNothing(s, t) && !t.starting && t.state == Connecting && t.watchdog == At(s.now + 15000)
            && !t.userDisconnect && !t.scheduled && t.book.last == r && t.signals == s.signals
            && t.recovery == (if s.scheduled then s.recovery else Off)
            && if forall x :: x in stop ==> x !in {Disconnected, Error, Unknown} then
                 && t.fence && t.switchDog == At(s.now + 4000) && t.deferredStart == s.deferredStart
                 && t.protocol == Running(LastPassed(s.protocol.state, stop), false, s.protocol.origin)
               else !t.fence && t.switchDog == Off && t.protocol == NoProtocol && t.deferredStart
  {
    hide SetState;
    var q := TakeRequest(s, r);
    SetStateFrame(q, Connecting);
    ConnectingFrame(q);
    SetStateBuildsNothing(q, Connecting);
    var h := BeginHandover(SetState(q, Connecting));
    ReportsBuildNothing(h, stop);
    if forall x :: x in stop ==> x !in {Disconnected, Error, Unknown} { ReportsPass(h, stop); }
    else { TerminalEnds(h, stop); }
  }

  lemma ConnectingFrame(s: Conn)
    ensures SetState(s, Connecting) == s.(state := Connecting, watchdog := At(s.now + 15000))
  {}

  lemma {:induction false} TerminalEnds(s: Conn, xs: seq<State>)
    requires s.fence && s.protocol.Running? && !s.protocol.attached && Live(s.protocol.state) && StopReports(xs)
    requires !forall x :: x in xs ==> x !in {Disconnected, Error, Unknown}
    ensures Reports(s, xs) == s.(fence := false, switchDog := Off, protocol := NoProtocol, deferredStart := true)
    decreases |xs|
  {
    assert xs[0] in xs;
    assert forall x :: x in xs <==> x == xs[0] || x in xs[1..];
    var t := Report(s, xs[0]);
    if xs[0] in {Disconnected, Error, Unknown} { NoProtocolReportsNothing(t, xs[1..]); }
    else { TerminalEnds(t, xs[1..]); }
  }

  /** Containers the protocol factory knows. */
  predicate Buildable(c: Container) {
    c !in {None, Ipsec, TorWebSite, Dns, Sftp, Socks5Proxy}
  }

  lemma FactoryKnows(c: Container)
    ensures HasProtocol(c) <==> Buildable(c)
  {
    match c case _ =>
  }

  /** What a request does when no protocol has to be stopped: an old one is dropped, and outside
      the grace window the new one is built at once from the request, or the start fails. */
  lemma StartsWithoutHandover(s: Conn, r: Request, missing: bool, stop: seq<State>)
    requires Fenced(s) && Exclusive(s) && !s.starting && !MustStop(s.protocol)
    ensures var t := ConnectToVpn(s, r, missing, stop);
            var recent := s.disconnectedAt.At? && 0 <= s.now - s.disconnectedAt.due < 6000;
            && !t.fence && t.switchDog == Off && t.book.last == r && !t.userDisconnect
            && (t.starting <==> !recent && !missing && Buildable(r.container))
            && t.protocol == (if t.starting then Running(Unknown, true, r) else NoProtocol)
            && t.state == (if t.starting || recent then Connecting else Error)
            && (t.starting ==> t.book.log == s.book.log + [Built(r)] && t.watchdog == At(s.now + 15000))
            && (!t.starting ==> BuildsNothing(s, t))
            && t.signals == s.signals && t.deferredStart == s.deferredStart
  {
    hide SetState;
    FactoryKnows(r.container);
    var q := TakeRequest(s, r);
    ConnectingFrame(q);
    var c := SetState(q, Connecting).(protocol := NoProtocol);
    SetStateFrame(c, Error);
    SetStateBuildsNothing(c, Error);
  }

  /** While a protocol is starting a request is only remembered. */
  lemma RequestWaitsForStart(s: Conn, r: Request, missing: bool, stop: seq<State>)
    requires s.starting
    ensures var t := ConnectToVpn(s, r, missing, stop);
            && t.queuedConnect && !t.userDisconnect && !t.scheduled && t.book == s.book.(last := r)
            && t == s.(queuedConnect := true, userDisconnect := false, scheduled := false, book := t.book,
                       recovery := if s.scheduled then s.recovery else Off)
  {}

  /** The server switch: a request to a reachable connection outside a start.  It begins a handover
      exactly when the running protocol is connecting, connected, reconnecting or disconnecting. */
  lemma RequestLaw(s: Conn, r: Request, missing: bool, stop: seq<State>)
    requires Reachable(s) && Enabled(s, UserConnects(r, missing, stop)) && !s.starting
    ensures var t := Step(s, UserConnects(r, missing, stop));
            var up := s.protocol.Running? && s.protocol.state in {Connecting, Connected, Reconnecting, Disconnecting};
            var stopped := !forall x :: x in stop ==> x !in {Disconnected, Error, Unknown};
            && t.book.last == r && !t.userDisconnect
            && (up && !stopped ==>
                  && t.fence && t.switchDog == At(s.now + 4000) && t.state == Connecting && !t.starting
                  && t.protocol.Running? && t.protocol.origin == s.protocol.origin && !t.protocol.attached
                  && BuildsNothing(s, t))
            && (up && stopped ==> !t.fence && t.protocol == NoProtocol && t.deferredStart && BuildsNothing(s, t))
            && (!up ==> !t.fence && !t.deferredStart
                        && t.protocol == if t.starting then Running(Unknown, true, r) else NoProtocol)
  {
    hide Faithful, SetState, ConnectToVpn, BuildsNothing;
    ReachableKeepsInv(s);
    var n := s.(book := NoteRequest(s.book, r));
    if MustStop(s.protocol) {
      HandoverBegins(n, r, missing, stop);
      NotedBuildsNothing(s, n, ConnectToVpn(n, r, missing, stop));
    } else {
      StartsWithoutHandover(n, r, missing, stop);
    }
  }

  lemma NotedBuildsNothing(s: Conn, n: Conn, t: Conn)
    requires n.book.log == s.book.log + [Requested(n.book.last)] && BuildsNothing(n, t)
    ensures BuildsNothing(s, t)
  {}

  // ---------------------------------------------------------------- network changes

  /** A network change restarts the protocol of an established connection, and nothing else. */
  lemma NetworkChangeLaw(s: Conn, stop: seq<State>)
    requires Reachable(s) && Enabled(s, NetworkChanges(stop))
    ensures var t := Step(s, NetworkChanges(stop));
            if s.protocol.Running? && !s.fence && s.protocol.state != Disconnecting
               && s.state in {Connected, Reconnecting} then
              && t.state == Reconnecting && t.restarts == s.restarts + 1 && t.watchdog == At(s.now + 15000)
              && t.protocol == s.protocol.(state := LastPassed(s.protocol.state, stop))
              && t.signals ==
                   (if s.protocol.attached then s.signals + Passed(s.protocol.state, stop) else s.signals)
              && t == s.(state := t.state, restarts := t.restarts, watchdog := t.watchdog, protocol := t.protocol,
                         signals := t.signals)
            else t == s
  {
    hide Faithful, SetState;
    ReconnectingFrame(s);
    if s.protocol.Running? && !s.fence { ReportsPass(SetState(s, Reconnecting), stop); }
  }

  lemma ReconnectingFrame(s: Conn)
    ensures SetState(s, Reconnecting) == s.(state := Reconnecting, watchdog := At(s.now + 15000))
  {}

  // ---------------------------------------------------------------- state changes

  /** A failed transition, as setConnectionState tells it from the old and the new state. */
  predicate Fails(before: State, after: State) {
    after == Error || (after == Disconnected && before in {Connecting, Preparing})
  }

  /** A failure at second `sec` opens a new window: there is none, or it is over after 180 s. */
  predicate OpensWindow(b: Book, sec: nat) { b.windowStart == 0 || sec - b.windowStart > 180 }

  function CountedNow(b: Book, sec: nat): nat { if OpensWindow(b, sec) then 1 else b.burst + 1 }

  /** A failure is retried unless the user disconnected, a reconnect is scheduled already, safe
      mode is on, both attempts are used up or the request is incomplete. */
  predicate IsRetried(s: Conn, sec: nat) {
    && !s.userDisconnect && !s.scheduled && s.book.safeUntil <= sec && s.book.attempts < 2
    && s.book.last.serverIndex >= 0 && s.book.last.hostName != "" && s.book.last.config != map[]
  }

  lemma CountLaw(s: Conn)
    ensures var f := RegisterFailureAndMaybeEnterSafeMode(s);
            var sec, n := s.now / 1000, CountedNow(s.book, s.now / 1000);
            && f.book.last == s.book.last && f.now == s.now && f.userDisconnect == s.userDisconnect
            && (n >= 3 ==>
                  && f.book.safeUntil == sec + 1800 && f.book.attempts == 0 && f.book.burst == 0
                  && f.book.windowStart == 0 && f.recovery == Off && !f.scheduled)
            && (n < 3 ==>
                  && f.book.safeUntil == s.book.safeUntil && f.book.burst == n && f.book.attempts == s.book.attempts
                  && f.book.windowStart == (if OpensWindow(s.book, sec) then sec else s.book.windowStart)
                  && f.recovery == s.recovery && f.scheduled == s.scheduled)
  {}

  lemma RetryLaw(s: Conn)
    requires !s.userDisconnect && s.book.attempts <= 2
    ensures var t, sec := ScheduleRecovery(s), s.now / 1000;
            && t.book == s.book.(attempts := t.book.attempts, log := t.book.log) && !t.userDisconnect
            && t.scheduled == (s.scheduled || IsRetried(s, sec))
            && t.book.attempts == s.book.attempts + (if IsRetried(s, sec) then 1 else 0)
            && t.recovery == if !IsRetried(s, sec) then s.recovery
                             else At(s.now + if s.book.attempts == 0 then 1200 else 2400)
  {
    assert Pow2(0) == 1 && Pow2(1) == 2;
  }

  /** The failure branch: the third failure within 180 s enters safe mode for 1800 s, any other
      one is retried after 1200 or 2400 ms if it may be. */
  lemma FailureLaw(s: Conn, x: State)
    requires Fails(s.state, x) && s.book.attempts <= 2
    ensures var t := SetState(s, x);
            var sec, n := s.now / 1000, CountedNow(s.book, s.now / 1000);
            && t.userDisconnect == s.userDisconnect && t.book.last == s.book.last
            && (n >= 3 ==>
                  && t.book.safeUntil == sec + 1800 && t.book.attempts == 0 && t.book.burst == 0
                  && t.book.windowStart == 0 && t.recovery == Off && !t.scheduled)
            && (n < 3 ==>
                  && t.book.safeUntil == s.book.safeUntil && t.book.burst == n
                  && t.book.windowStart == (if OpensWindow(s.book, sec) then sec else s.book.windowStart)
                  && t.scheduled == (s.scheduled || IsRetried(s, sec))
                  && t.book.attempts == s.book.attempts + (if IsRetried(s, sec) then 1 else 0)
                  && t.recovery == if !IsRetried(s, sec) then s.recovery
                                   else At(s.now + if s.book.attempts == 0 then 1200 else 2400))
  {
    hide RegisterFailureAndMaybeEnterSafeMode, ScheduleRecovery, OpensWindow;
    var a := ArmWatchdog(s.(state := x), x);
    CountLaw(a);
    var f := RegisterFailureAndMaybeEnterSafeMode(a);
    if !f.userDisconnect { RetryLaw(f); }
  }

  /** Every other change: Connected resets the counters and clears recovery and flag, the end of
      Disconnecting clears recovery and flag, and nothing else does more than change the state. */
  lemma QuietChangeLaw(s: Conn, x: State)
    requires !Fails(s.state, x)
    ensures var t := SetState(s, x);
            if x == Disconnected && s.state == Reconnecting then t == s
            else if x == Connected then
              && t.book == s.book.(attempts := 0, burst := 0, windowStart := 0, log := t.book.log)
              && t == s.(state := Connected, watchdog := Off, recovery := Off, scheduled := false,
                         userDisconnect := false, book := t.book)
            else if x == Disconnected && s.state == Disconnecting then
              t == s.(state := Disconnected, watchdog := Off, recovery := Off, scheduled := false,
                      userDisconnect := false)
            else t == s.(state := x, watchdog := WatchdogFor(x, s.now))
  {
    hide HandleFailure;
  }

  // ---------------------------------------------------------------- starts and returns

  lemma StartLaw(s: Conn, r: Request, missing: bool)
    requires s.protocol.NoProtocol? && !s.starting
    ensures var t := StartNewConnection(s, r, missing);
            && (t.starting <==> !missing && Buildable(r.container))
            && t.protocol == (if t.starting then Running(Unknown, true, r) else NoProtocol)
            && t.state == (if t.starting then Connecting else Error)
            && (t.starting && s.state != Connecting ==> t.watchdog == At(s.now + 15000))
            && t.fence == s.fence && t.switchDog == s.switchDog && t.deferredStart == s.deferredStart
            && t.signals == s.signals && t.grace == s.grace
  {
    hide SetState;
    FactoryKnows(r.container);
    ConnectingFrame(s);
    var c := if s.state != Connecting then SetState(s, Connecting) else s;
    SetStateFrame(c, Error);
  }

  /** The start calls that come from a timer or a posted call: the end of a handover, by the
      switch watchdog or by a report, always starts the last request; a grace timer only if no
      disconnect is pending and no protocol is there. */
  lemma PostponedStartLaw(s: Conn, e: Event)
    requires Reachable(s) && Enabled(s, e) && (e.GraceFires? || e.SwitchWatchdogFires? || e.DeferredStartRuns?)
    ensures var t := Step(s, e);
            if e.GraceFires? && (s.userDisconnect || s.protocol.Running?) then
              t == s.(grace := s.grace[..e.i] + s.grace[e.i + 1..])
            else
              && (t.starting <==> !e.missing && Buildable(s.book.last.container))
              && t.protocol == (if t.starting then Running(Unknown, true, s.book.last) else NoProtocol)
              && t.state == (if t.starting then Connecting else Error)
              && !t.fence && t.switchDog == Off && !t.deferredStart
              && t.grace == (if e.GraceFires? then s.grace[..e.i] + s.grace[e.i + 1..] else s.grace)
  {
    hide Faithful, StartNewConnection;
    ReachableKeepsInv(s);
    match e
    case GraceFires(i, missing) =>
      if !s.userDisconnect && s.protocol.NoProtocol? { StartLaw(TakeGraceTimer(s, i), s.book.last, missing); }
    case SwitchWatchdogFires(missing) => StartLaw(DropProtocol(s.(switchDog := Off)), s.book.last, missing);
    case DeferredStartRuns(missing) => StartLaw(s.(deferredStart := false), s.book.last, missing);
  }

  /** When start() returns: a disconnect requested meanwhile is posted, otherwise a queued request,
      otherwise the failure is reported, otherwise a connecting state gets another 15 s. */
  lemma StartReturnsLaw(s: Conn, failed: bool)
    requires Enabled(s, StartReturns(failed))
    ensures var t, p := Step(s, StartReturns(failed)), s.(starting := false);
            if s.userDisconnect then t == p.(postedDisconnects := s.postedDisconnects + 1)
            else if s.queuedConnect then t == p.(queuedConnect := false, postedConnects := s.postedConnects + 1)
            else if failed then
              t.state == Error && t.watchdog == Off && !t.starting && t.protocol == s.protocol
              && t.postedConnects == s.postedConnects && t.postedDisconnects == s.postedDisconnects
            else t == p.(watchdog := if s.state in {Preparing, Connecting, Reconnecting} then At(s.now + 15000)
                                     else s.watchdog)
  {
    hide HandleFailure;
    SetStateFrame(s.(starting := false), Error);
    HandleFailureFrame(ArmWatchdog(s.(starting := false, state := Error), Error));
  }

  /** A restart that returns successfully changes nothing; a failed one is an error. */
  lemma RestartReturnsLaw(s: Conn, failed: bool)
    requires Enabled(s, RestartReturns(failed))
    ensures var t := Step(s, RestartReturns(failed));
            && t.restarts == s.restarts - 1 && t.protocol == s.protocol
            && (failed ==> t.state == Error) && (!failed ==> t == s.(restarts := s.restarts - 1))
  {
    hide SetState;
    SetStateFrame(s.(restarts := s.restarts - 1), Error);
  }

  /** The recovery timer asks for the last request again if the reconnect is still scheduled. */
  lemma RecoveryLaw(s: Conn, missing: bool, stop: seq<State>)
    requires Reachable(s) && Enabled(s, RecoveryFires(missing, stop))
    ensures var t := Step(s, RecoveryFires(missing, stop));
            && (!s.scheduled ==> t == s.(recovery := Off))
            && (s.scheduled && s.starting ==> t.queuedConnect && t.starting && t.protocol == s.protocol)
            && (s.scheduled && !s.starting && MustStop(s.protocol) ==>
                  BuildsNothing(s, t) && t.state == Connecting && t.fence != t.deferredStart)
            && (s.scheduled && !s.starting && !MustStop(s.protocol) ==>
                  && (t.starting <==> !InGrace(s) && !missing && Buildable(s.book.last.container))
                  && t.protocol == (if t.starting then Running(Unknown, true, s.book.last) else NoProtocol))
  {
    hide Faithful, ConnectToVpn;
    ReachableKeepsInv(s);
    var c := s.(recovery := Off, scheduled := false);
    if s.scheduled {
      if s.starting { RequestWaitsForStart(c, s.book.last, missing, stop); }
      else if MustStop(s.protocol) { HandoverBegins(c, s.book.last, missing, stop); }
      else { StartsWithoutHandover(c, s.book.last, missing, stop); }
    }
  }
}
