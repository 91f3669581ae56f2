/** When a user disconnect is final although both recovery attempts are used up: a reconnect then
    needs the attempt counter reset first, by Connected or by way of safe mode. */
module SpentAttempts {
  import opened FailureLedger
  import opened Lifecycle
  import opened LifecycleRuns
  import opened LifecycleTheorems
  import opened RequestTheorems
  import opened DisconnectTheorems

  // ---------------------------------------------------------------- failures to come

  /** Signals that are, or become, a failure. */
  function Weight(xs: seq<State>): nat {
    if xs == [] then 0 else Weight(xs[1..]) + if Reviving(xs[0]) then 1 else 0
  }

  lemma {:induction false} WeightlessIsHarmless(xs: seq<State>)
    ensures Weight(xs) == 0 <==> Harmless(xs)
  {
    if xs != [] {
      WeightlessIsHarmless(xs[1..]);
      HarmlessTail(xs);
    }
  }

  /** How many failures can still happen with no protocol and no start: one for each reviving
      signal, each unreturned restart, and a connecting state. */
  function Load(s: Conn): nat { Weight(s.signals) + s.restarts + if Trying(s.state) then 1 else 0 }

  predicate WindowOver(b: Book, sec: nat) { b.windowStart == 0 || sec - b.windowStart > FAILURE_WINDOW_SECS }

  /** The failures the current window has counted; the third one enters safe mode. */
  function Streak(b: Book, sec: nat): nat { if WindowOver(b, sec) then 0 else b.burst }

  /** Connected is delivered before some failure. */
  ghost predicate OnlineInTime(xs: seq<State>, restarts: nat) {
    exists i :: 0 <= i < |xs| && xs[i] == Connected && (restarts > 0 || !Harmless(xs[i + 1..]))
  }

  lemma PopOnline(xs: seq<State>, restarts: nat)
    requires xs != []
    ensures OnlineInTime(xs, restarts) <==>
              || (xs[0] == Connected && (restarts > 0 || !Harmless(xs[1..])))
              || OnlineInTime(xs[1..], restarts)
  {
    var tail := xs[1..];
    if i :| 0 <= i < |xs| && xs[i] == Connected && (restarts > 0 || !Harmless(xs[i + 1..])) {
      if i > 0 { assert tail[i - 1] == xs[i] && tail[i..] == xs[i + 1..]; }
    }
    if i :| 0 <= i < |tail| && tail[i] == Connected && (restarts > 0 || !Harmless(tail[i + 1..])) {
      assert xs[i + 1] == tail[i] && tail[i + 1..] == xs[i + 2..];
    }
  }

  lemma OnlineActs(xs: seq<State>, restarts: nat)
    ensures OnlineInTime(xs, restarts) ==> xs != [] && (restarts > 0 || !Harmless(xs))
    ensures OnlineInTime(xs, if restarts > 0 then restarts - 1 else 0) ==> OnlineInTime(xs, restarts)
  {}

  // ---------------------------------------------------------------- one failure

  /** A failure that is not retried: the third of a window resets the attempts, any other only
      lengthens the streak. */
  lemma FailureCounts(b: Book, sec: nat)
    requires b.burst < 3 && sec > 0
    ensures var c := RegisterFailure(b, sec);
            if Streak(b, sec) == 2
            then c.attempts == 0 && Streak(c, sec) == 0
            else c.attempts == b.attempts && Streak(c, sec) == Streak(b, sec) + 1
                 && c.windowStart == (if WindowOver(b, sec) then sec else b.windowStart)
    ensures EntersSafeMode(b, sec) <==> Streak(b, sec) == 2
  {}

  lemma SpentFailure(s: Conn, x: State)
    requires Settled(s) && !s.scheduled && (s.userDisconnect || s.book.attempts >= 2)
    requires FailedTransition(s.state, x) && !(x == Disconnected && s.state == Reconnecting)
    ensures var t := SetState(s, x);
            && t == s.(state := x, watchdog := Off, recovery := t.recovery, book := RegisterFailure(s.book, Sec(s)))
            && (s.recovery == Off ==> t.recovery == Off)
  {
    hide Faithful, RegisterFailure, EntersSafeMode, RegisterFailureAndMaybeEnterSafeMode;
    var a := ArmWatchdog(s.(state := x), x);
    FailureFrame(a);
    BurstBelowThree(s.book, Sec(s));
    FailureCounts(s.book, Sec(s));
    SafeModeBlocks(a);
  }

  lemma BurstBelowThree(b: Book, sec: nat)
    requires Faithful(b, sec)
    ensures b.burst < 3
  {}

  lemma SafeModeBlocks(s: Conn)
    requires !s.scheduled && (s.userDisconnect || s.book.attempts >= 2)
    ensures HandleFailure(s) == RegisterFailureAndMaybeEnterSafeMode(s)
    ensures !RegisterFailureAndMaybeEnterSafeMode(s).scheduled
  {}

  // ---------------------------------------------------------------- too few failures

  /** Not enough failures are left to get through safe mode and fail once more, and no Connected
      comes before one. */
  ghost predicate Exhausted(s: Conn) {
    && Dormant(s) && s.grace == [] && s.postedConnects == 0
    && (|| Load(s) == 0
        || (&& s.book.attempts >= 2 && !OnlineInTime(s.signals, s.restarts)
            && Streak(s.book, Sec(s)) + Load(s) <= 3))
  }

  lemma QuietChange(s: Conn, x: State)
    requires Settled(s) && !s.scheduled
    requires !FailedTransition(s.state, x) && !(x == Disconnected && s.state == Reconnecting)
    ensures var t := SetState(s, x);
            && !t.scheduled && t.state == x && (s.recovery == Off ==> t.recovery == Off)
            && t.book == (if x == Connected then NoteOnline(s.book) else s.book)
  {
    hide Faithful, HandleFailure;
  }

  lemma ExhaustedDelivery(s: Conn)
    requires Exhausted(s) && s.signals != []
    ensures Exhausted(SetState(s.(signals := s.signals[1..]), s.signals[0]))
  {
    hide Faithful, SetState, OnlineInTime, RegisterFailure, EntersSafeMode, Harmless;
    var x := s.signals[0];
    var p := s.(signals := s.signals[1..]);
    PopOnline(s.signals, s.restarts);
    WeightlessIsHarmless(s.signals[1..]);
    SetStateFrame(p, x);
    SetStateStep(p, x);
    BurstBelowThree(s.book, Sec(s));
    FailureCounts(s.book, Sec(s));
    if x == Disconnected && s.state == Reconnecting {
    } else if FailedTransition(s.state, x) {
      SpentFailure(p, x);
    } else {
      QuietChange(p, x);
    }
  }

  lemma ExhaustedError(s: Conn, p: Conn)
    requires Exhausted(s) && Settled(p) && Load(p.(state := Error)) < Load(s)
    requires p == s.(restarts := p.restarts, watchdog := p.watchdog) && p.restarts <= s.restarts <= p.restarts + 1
    ensures Exhausted(SetState(p, Error))
  {
    hide Faithful, SetState, OnlineInTime, RegisterFailure, EntersSafeMode;
    OnlineActs(s.signals, s.restarts);
    SetStateStep(p, Error);
    BurstBelowThree(s.book, Sec(s));
    FailureCounts(s.book, Sec(s));
    SpentFailure(p, Error);
  }

  lemma ExhaustedDisconnect(s: Conn)
    requires Exhausted(s)
    ensures Exhausted(DisconnectFromVpn(s))
  {
    hide Faithful, DisconnectFromVpn, OnlineInTime, RegisterFailure, EntersSafeMode;
    DisconnectShape(s);
    BurstBelowThree(s.book, Sec(s));
    FailureCounts(s.book, Sec(s));
  }

  lemma ExhaustedStep(s: Conn, e: Event)
    requires Exhausted(s) && Enabled(s, e) && !e.UserConnects?
    ensures Exhausted(Step(s, e))
  {
    hide Faithful, SetState, OnlineInTime, DisconnectFromVpn;
    StepKeepsInv(s, e);
    match e
    case UserDisconnects => ExhaustedDisconnect(s);
    case PostedDisconnectRuns => ExhaustedDisconnect(s.(postedDisconnects := s.postedDisconnects - 1));
    case SignalDelivered => ExhaustedDelivery(s);
    case RestartReturns(failed) =>
      var p := s.(restarts := s.restarts - 1);
      OnlineActs(s.signals, s.restarts);
      if failed { ExhaustedError(s, p); }
    case StateWatchdogFires(stop) =>
      var o := s.(watchdog := Off);
      NoProtocolReportsNothing(o, stop);
      if s.state == Disconnecting {
        SetStateFrame(o, Disconnected);
        QuietChange(o, Disconnected);
      } else {
        ExhaustedError(s, o);
      }
    case _ =>
  }

  lemma {:induction false} ExhaustedRun(s: Conn, es: seq<Event>)
    requires Exhausted(s) && Runs(s, es) && Unasked(es)
    ensures Exhausted(After(s, es))
    decreases |es|
  {
    hide Exhausted;
    if es != [] {
      assert es[0] in es;
      ExhaustedStep(s, es[0]);
      assert forall e :: e in es[1..] ==> e in es;
      ExhaustedRun(Step(s, es[0]), es[1..]);
    }
  }

  // ---------------------------------------------------------------- enough failures

  /** The connecting states among the next k reviving signals: each takes its watchdog 15 s to
      become a failure, while an error is one at once. */
  function Slow(xs: seq<State>, k: nat): (n: nat)
    ensures n <= k
  {
    if k == 0 || xs == [] then 0
    else if !Reviving(xs[0]) then Slow(xs[1..], k)
    else Slow(xs[1..], k - 1) + if Trying(xs[0]) then 1 else 0
  }

  /** The same, counting a connecting state that is there already. */
  function SlowFrom(trying: bool, xs: seq<State>, k: nat): nat {
    if trying && k > 0 then 1 + Slow(xs, k - 1) else Slow(xs, k)
  }

  /** The failures missing to enter safe mode. */
  function Missing(b: Book): nat { if b.burst < 3 then 3 - b.burst else 0 }

  /** The window is over, or stays open until the missing failures have happened. */
  predicate Roomy(b: Book, sec: nat, trying: bool, xs: seq<State>) {
    WindowOver(b, sec) || sec + 15 * SlowFrom(trying, xs, Missing(b)) <= b.windowStart + FAILURE_WINDOW_SECS
  }

  /** At `later` a failure still counts, and so do those that are missing after it. */
  predicate InTime(b: Book, sec: nat, later: nat, xs: seq<State>)
    requires b.burst < 3
  {
    WindowOver(b, sec) || later + 15 * Slow(xs, 2 - b.burst) <= b.windowStart + FAILURE_WINDOW_SECS
  }

  /** Connected before a failure, or four failures in all, the last one with the flag clear. */
  ghost predicate Resettable(s: Conn, streak: nat) {
    Revivable(s, true) && (OnlineInTime(s.signals, s.restarts) || streak + Load(s) >= 4)
  }

  ghost predicate Spent(s: Conn) {
    && Idle(s) && s.grace == [] && s.postedConnects == 0 && CanBeRetried(s.book.last)
    && Roomy(s.book, Sec(s), Trying(s.state), s.signals) && Resettable(s, Streak(s.book, Sec(s)))
  }

  /** In time a streak is not lost, and a failure makes it longer. */
  lemma StreakGrows(b: Book, sec: nat, later: nat, xs: seq<State>)
    requires b.burst < 3 && 0 < sec <= later && InTime(b, sec, later, xs)
    ensures Streak(b, later) == Streak(b, sec)
    ensures Streak(b, sec) < 2 ==> Roomy(RegisterFailure(b, later), later, false, xs)
                                   && Streak(RegisterFailure(b, later), later) == Streak(b, sec) + 1
  {
    hide Slow;
    FailureCounts(b, later);
  }

  /** One more failure, `sec` being the time the streak was last looked at: either it resets the
      attempts and leaves something to fail, or the streak is longer. */
  lemma FailOn(p: Conn, sec: nat)
    requires Settled(p) && Dormant(p.(state := Error, watchdog := Off)) && p.recovery == Off
    requires p.disconnectedAt.At? ==> p.disconnectedAt.due <= p.now
    requires p.grace == [] && p.postedConnects == 0 && CanBeRetried(p.book.last) && p.book.attempts >= 2
    requires 0 < sec <= Sec(p) && p.book.burst < 3 && InTime(p.book, sec, Sec(p), p.signals)
    requires p.userDisconnect ==> ClearedInTime(p.signals, p.restarts > 0, true)
    requires || OnlineInTime(p.signals, p.restarts)
             || Streak(p.book, sec) + 1 + Weight(p.signals) + p.restarts >= 4
    ensures var t := SetState(p, Error);
            && Idle(t) && t.state == Error && Revivable(t, true) && t.book.last == p.book.last
            && t.signals == p.signals && t.restarts == p.restarts && t.userDisconnect == p.userDisconnect
            && (t.book.attempts < 2 || Spent(t))
  {
    hide Faithful, SetState, OnlineInTime, ClearedInTime, Harmless, RegisterFailure, EntersSafeMode, Streak, Roomy,
         InTime;
    SetStateStep(p, Error);
    SpentFailure(p, Error);
    StreakGrows(p.book, sec, Sec(p), p.signals);
    FailureCounts(p.book, Sec(p));
    StreakBelowThree(p.book, sec);
    OnlineActs(p.signals, p.restarts);
    WeightlessIsHarmless(p.signals);
  }

  lemma StreakBelowThree(b: Book, sec: nat)
    requires b.burst < 3
    ensures Streak(b, sec) < 3
  {}

  /** An idle connection whose attempts can be reset is revived. */
  lemma {:induction false} ResetOutcome(s: Conn, started: bool) returns (es: seq<Event>)
    requires Spent(s) && s.book.attempts >= 2 && (started ==> HasProtocol(s.book.last.container))
    ensures EndsIn(s, es, started)
    decreases |s.signals|, s.restarts, Transient(s.state), 0
  {
    hide Faithful, SetState, Runs, After, DisconnectFromVpn, OnlineInTime, ClearedInTime, Harmless, Streak, Roomy,
         EndsIn;
    if s.userDisconnect && s.state == Disconnecting {
      SpentAgain(s);
      es := ResetOutcome(Step(s, UserDisconnects), started);
      es := Prepend(s, UserDisconnects, es, started);
    } else if Trying(s.state) {
      var t := Step(s, Tick(15000));
      SpentWatchdog(s);
      es := Onwards(Step(t, StateWatchdogFires([])), started);
      es := Prepend(t, StateWatchdogFires([]), es, started);
      es := Prepend(s, Tick(15000), es, started);
    } else if s.signals != [] {
      SpentDelivery(s);
      es := Onwards(Step(s, SignalDelivered), started);
      es := Prepend(s, SignalDelivered, es, started);
    } else {
      SpentRestart(s);
      es := Onwards(Step(s, RestartReturns(true)), started);
      es := Prepend(s, RestartReturns(true), es, started);
    }
  }

  lemma {:induction false} Onwards(s: Conn, started: bool) returns (es: seq<Event>)
    requires Idle(s) && Revivable(s, true) && CanBeRetried(s.book.last)
    requires started ==> HasProtocol(s.book.last.container)
    requires if s.book.attempts < 2 then s.userDisconnect || !Trying(s.state) else Spent(s)
    ensures EndsIn(s, es, started)
    decreases |s.signals|, s.restarts, Transient(s.state), 1
  {
    hide Spent, Idle, Revivable, EndsIn;
    if s.book.attempts < 2 { es := ReviveOutcome(s, started); } else { es := ResetOutcome(s, started); }
  }

  lemma SpentAgain(s: Conn)
    requires Spent(s) && s.userDisconnect && s.state == Disconnecting
    ensures Spent(DisconnectFromVpn(s)) && DisconnectFromVpn(s).book == s.book
    ensures DisconnectFromVpn(s).signals == s.signals && DisconnectFromVpn(s).restarts == s.restarts
    ensures !Transient(DisconnectFromVpn(s).state)
  {
    hide Faithful, DisconnectFromVpn, OnlineInTime, ClearedInTime, Harmless, Roomy;
    DisconnectShape(s);
    ClearedActs(s.signals, Timed(s, true), true);
  }

  lemma SpentWatchdog(s: Conn)
    requires Spent(s) && s.book.attempts >= 2 && Trying(s.state)
    ensures var t := Step(s, Tick(15000));
            && Enabled(t, StateWatchdogFires([]))
            && var u := Step(t, StateWatchdogFires([]));
               Idle(u) && u.state == Error && Revivable(u, true) && u.book.last == s.book.last
               && u.signals == s.signals && u.restarts == s.restarts && (u.book.attempts < 2 || Spent(u))
  {
    hide Faithful, SetState, OnlineInTime, ClearedInTime, Harmless, Streak, Slow;
    BurstBelowThree(s.book, Sec(s));
    var t := Step(s, Tick(15000));
    StepKeepsInv(s, Tick(15000));
    assert Sec(t) == Sec(s) + 15;
    FailOn(t.(watchdog := Off), Sec(s));
  }

  lemma SpentRestart(s: Conn)
    requires Spent(s) && s.book.attempts >= 2 && s.signals == []
    requires !Trying(s.state) && !(s.userDisconnect && s.state == Disconnecting)
    ensures s.restarts > 0
    ensures var u := Step(s, RestartReturns(true));
            && Idle(u) && u.state == Error && Revivable(u, true) && u.book.last == s.book.last
            && u.signals == [] && u.restarts == s.restarts - 1 && (u.book.attempts < 2 || Spent(u))
  {
    hide Faithful, SetState;
    BurstBelowThree(s.book, Sec(s));
    FailOn(s.(restarts := s.restarts - 1), Sec(s));
  }

  lemma SpentDelivery(s: Conn)
    requires Spent(s) && s.book.attempts >= 2 && s.signals != []
    requires !Trying(s.state) && !(s.userDisconnect && s.state == Disconnecting)
    ensures var u := Step(s, SignalDelivered);
            && Idle(u) && Revivable(u, true) && u.book.last == s.book.last && u.signals == s.signals[1..]
            && (if u.book.attempts < 2 then u.userDisconnect || !Trying(u.state) else Spent(u))
  {
    hide Faithful, SetState, OnlineInTime, ClearedInTime, Harmless, Streak;
    BurstBelowThree(s.book, Sec(s));
    var x := s.signals[0];
    var p := s.(signals := s.signals[1..]);
    PopOnline(s.signals, s.restarts);
    PopCleared(s.signals, Timed(s, true), true);
    HarmlessTail(s.signals);
    WeightlessIsHarmless(s.signals[1..]);
    if x == Error {
      FailOn(p, Sec(s));
    } else {
      SetStateFrame(p, x);
      SetStateStep(p, x);
      QuietChange(p, x);
      if s.userDisconnect { FlaggedAttempts(p, x); }
    }
  }

  // ---------------------------------------------------------------- a start resets by itself

  /** While a protocol is starting, the Connected at the end of the queue gets everyone there. */
  lemma {:induction false} OnlineDrain(s: Conn) returns (es: seq<Event>)
    requires Inv(s) && s.starting && s.signals != [] && s.signals[|s.signals| - 1] == Connected
    ensures Unasked(es) && Runs(s, es)
    ensures var t := After(s, es);
            && Inv(t) && t.starting && t.protocol == s.protocol && t.signals == [] && !t.userDisconnect
            && !t.scheduled && t.book.last == s.book.last && t.book.attempts == 0 && t.book.windowStart == 0
    decreases |s.signals|
  {
    hide Faithful, SetState, Runs, After;
    var t := Step(s, SignalDelivered);
    var p := s.(signals := s.signals[1..]);
    StepKeepsInv(s, SignalDelivered);
    SetStateFrame(p, s.signals[0]);
    if |s.signals| == 1 {
      OnlineResets(p);
      NoRun(t);
      es := [];
    } else {
      es := OnlineDrain(t);
    }
    RunThen(s, SignalDelivered, es);
    es := [SignalDelivered] + es;
  }

  lemma OnlineResets(s: Conn)
    ensures var t := SetState(s, Connected);
            !t.userDisconnect && !t.scheduled && t.book.attempts == 0 && t.book.windowStart == 0
  {}

  /** A protocol that is starting may connect and then fail, which is retried. */
  lemma StartedRetries(s: Conn) returns (es: seq<Event>)
    requires Inv(s) && s.starting && CanBeRetried(s.book.last)
    ensures EndsIn(s, es, false)
  {
    hide Faithful, SetState, Runs, After, EndsIn;
    if s.protocol.state == Connected {
      StepKeepsInv(s, ProtocolReports(Reconnecting));
      es := ConnectsThenFails(Step(s, ProtocolReports(Reconnecting)));
      es := Prepend(s, ProtocolReports(Reconnecting), es, false);
    } else {
      es := ConnectsThenFails(s);
    }
  }

  lemma ConnectsThenFails(s: Conn) returns (es: seq<Event>)
    requires Inv(s) && s.starting && CanBeRetried(s.book.last) && s.protocol.state != Connected
    ensures EndsIn(s, es, false)
  {
    hide Faithful, SetState, Runs, After;
    var t := Step(s, ProtocolReports(Connected));
    StepKeepsInv(s, ProtocolReports(Connected));
    es := OnlineDrain(t);
    var fs := FailsOnline(After(t, es));
    RunsAppend(t, es, fs);
    es := Prepend(s, ProtocolReports(Connected), es + fs, false);
  }

  lemma FailsOnline(s: Conn) returns (es: seq<Event>)
    requires Inv(s) && s.starting && s.protocol.state == Connected && s.signals == [] && !s.userDisconnect
    requires !s.scheduled && s.book.attempts == 0 && s.book.windowStart == 0 && CanBeRetried(s.book.last)
    ensures EndsIn(s, es, false)
  {
    hide Faithful, SetState, Runs, After;
    var wait := Tick(1000 * (s.book.safeUntil + 181));
    var t := Step(s, wait);
    assert Sec(t) >= s.book.safeUntil + 181;
    var u := Step(t, ProtocolReports(Error));
    assert u.signals == [Error] && u.signals[1..] == [];
    ErrorPlans(u.(signals := []));
    var v := Step(u, SignalDelivered);
    NoRun(v);
    es := Prepend(u, SignalDelivered, [], false);
    es := Prepend(t, ProtocolReports(Error), es, false);
    es := Prepend(s, wait, es, false);
  }

  // ---------------------------------------------------------------- the theorem

  /** Failures to come after the disconnect. */
  function LoadAfter(s: Conn): nat {
    Weight(s.signals) + s.restarts + if s.protocol.NoProtocol? && s.state == Reconnecting then 1 else 0
  }

  /** The failure window is long enough for the failures after the disconnect. */
  predicate RoomyAfter(s: Conn) {
    Roomy(BookAfter(s), Sec(s), s.protocol.NoProtocol? && s.state == Reconnecting, s.signals)
  }

  /** The attempts can be reset with a failure left, given how long the streak is. */
  ghost predicate ResettableAfter(s: Conn, streak: nat) {
    && CanBeRetried(s.book.last) && RevivableAfter(s, true)
    && (OnlineInTime(s.signals, s.restarts) || streak + LoadAfter(s) >= 4)
  }

  /** What can revive only with retries holds no start. */
  lemma OnlyFailuresLeft(d: Conn)
    requires Idle(d) && (!d.userDisconnect ==> !Trying(d.state)) && Revivable(d, true) && !Revivable(d, false)
    ensures d.grace == [] && d.postedConnects == 0
  {
    hide Inv, ClearedInTime;
    ClearedRegardless(d.signals);
  }

  lemma ClearedRegardless(xs: seq<State>)
    ensures ClearedInTime(xs, true, true) ==> ClearedInTime(xs, true, false)
  {}

  lemma SpentSuffices(d: Conn, started: bool, streak: nat) returns (es: seq<Event>)
    requires Idle(d) && (!d.userDisconnect ==> !Trying(d.state)) && !Revivable(d, false)
    requires CanBeRetried(d.book.last) && d.book.attempts >= 2 && Resettable(d, streak)
    requires started ==> HasProtocol(d.book.last.container)
    requires streak == if Roomy(d.book, Sec(d), Trying(d.state), d.signals) then Streak(d.book, Sec(d)) else 0
    ensures EndsIn(d, es, started)
  {
    hide Faithful, Runs, After, EndsIn, Revivable, OnlineInTime;
    OnlyFailuresLeft(d);
    if Roomy(d.book, Sec(d), Trying(d.state), d.signals) {
      es := ResetOutcome(d, started);
    } else {
      var t := Step(d, Tick(181000));
      StepKeepsInv(d, Tick(181000));
      assert Sec(t) == Sec(d) + 181;
      WaitingKeeps(d, t);
      es := ResetOutcome(t, started);
      es := Prepend(d, Tick(181000), es, started);
    }
  }

  lemma WaitingKeeps(d: Conn, t: Conn)
    requires t == d.(now := t.now) && Revivable(d, true)
    ensures Revivable(t, true) && Load(t) == Load(d)
  {}

  /** Too few failures, or none at the right time: nothing comes of it. */
  lemma SpentNeeds(d: Conn, es: seq<Event>, started: bool)
    requires Idle(d) && (!d.userDisconnect ==> !Trying(d.state)) && d.book.attempts >= 2
    requires EndsIn(d, es, started)
    ensures if started then HasProtocol(d.book.last.container) else CanBeRetried(d.book.last)
    ensures Revivable(d, false) || (CanBeRetried(d.book.last) && Resettable(d, Streak(d.book, Sec(d))))
  {
    hide Faithful, Runs, After, Step, Revivable, OnlineInTime, Streak, Load;
    OutcomeNeeds(d, es, started);
    if !Revivable(d, false) {
      OnlyFailuresLeft(d);
      if !Resettable(d, Streak(d.book, Sec(d))) { ExhaustedRun(d, es); }
    }
  }

  lemma AfterDisconnect(s: Conn)
    requires Inv(s) && !s.starting && !s.deferredStart
    ensures var d := DisconnectFromVpn(s);
            && d.book == BookAfter(s) && Sec(d) == Sec(s) && Load(d) == LoadAfter(s)
            && d.signals == s.signals && d.restarts == s.restarts
            && (Roomy(d.book, Sec(d), Trying(d.state), d.signals) <==> RoomyAfter(s))
  {
    hide Faithful, DisconnectFromVpn, BookAfter, Roomy;
    DisconnectShape(s);
  }

  lemma StartedOutcome(d: Conn) returns (es: seq<Event>)
    requires Idle(d) && (!d.userDisconnect ==> !Trying(d.state)) && Revivable(d, false)
    requires CanBeRetried(d.book.last) && HasProtocol(d.book.last.container)
    ensures EndsIn(d, es, false)
  {
    hide Faithful, Runs, After, Revivable;
    RetryOnlyHelps(d, Retriable(d.book));
    es := ReviveOutcome(d, true);
    UnaskedRun(d, es);
    var fs := StartedRetries(After(d, es));
    RunsAppend(d, es, fs);
    es := es + fs;
  }

  lemma RetryOnlyHelps(s: Conn, retry: bool)
    requires Revivable(s, false)
    ensures Revivable(s, retry)
  {}

  lemma SpentBounds(s: Conn)
    requires Reachable(s) && !s.starting && !s.deferredStart && BookAfter(s).attempts >= 2
    ensures var d := DisconnectFromVpn(s);
            var buildable := HasProtocol(s.book.last.container);
            var streak := Streak(BookAfter(s), Sec(s));
            var kept := if RoomyAfter(s) then streak else 0;
            && (MayStart(d) ==> buildable && (RevivableAfter(s, false) || ResettableAfter(s, streak)))
            && (buildable && (RevivableAfter(s, false) || ResettableAfter(s, kept)) ==> MayStart(d))
            && (MayRetry(d) ==> CanBeRetried(s.book.last) && (RevivableAfter(s, false) || ResettableAfter(s, streak)))
            && (buildable || !RevivableAfter(s, false) ==>
                  CanBeRetried(s.book.last) && (RevivableAfter(s, false) || ResettableAfter(s, kept)) ==> MayRetry(d))
  {
    hide Inv, EndsIn, DisconnectFromVpn, HasProtocol, CanBeRetried, RevivableAfter, Revivable, OnlineInTime, BookAfter,
         Streak, Roomy, RoomyAfter, LoadAfter, Load;
    ReachableKeepsInv(s);
    var d := DisconnectFromVpn(s);
    DisconnectIdles(s);
    AfterDisconnect(s);
    var kept := if RoomyAfter(s) then Streak(d.book, Sec(d)) else 0;
    var buildable := HasProtocol(s.book.last.container);
    if RevivableAfter(s, false) {
      RetryOnlyHelps(d, Retriable(d.book));
      if buildable { var es := ReviveOutcome(d, true); }
      if buildable && CanBeRetried(s.book.last) { var es := StartedOutcome(d); }
    } else if ResettableAfter(s, kept) {
      if buildable { var es := SpentSuffices(d, true, kept); }
      var es := SpentSuffices(d, false, kept);
    }
    if MayRetry(d) { var es :| EndsIn(d, es, false); SpentNeeds(d, es, false); }
    if MayStart(d) { var es :| EndsIn(d, es, true); SpentNeeds(d, es, true); }
  }

  /** Exactly when a disconnect that leaves both recovery attempts used up is not final.  A protocol
      can be started if and only if the request has one and there is a posted connect, or a grace
      timer that finds the flag clear, or the attempts can be reset with a failure left over:
      Connected comes before one, or together with the streak there are four.  A reconnect can be
      scheduled under the same condition.  Where the failure window closes first, so that a streak
      may be lost on the way, the condition is necessary, and sufficient without the streak. */
  lemma SpentDisconnectIsFinalExactlyWhen(s: Conn)
    requires Reachable(s) && !s.starting && !s.deferredStart && BookAfter(s).attempts >= 2
    ensures var d := DisconnectFromVpn(s);
            var buildable := HasProtocol(s.book.last.container);
            var revives := RevivableAfter(s, false) || ResettableAfter(s, Streak(BookAfter(s), Sec(s)));
            && (RoomyAfter(s) ==> (MayStart(d) <==> buildable && revives))
            && (RoomyAfter(s) && (buildable || !RevivableAfter(s, false)) ==>
                  (MayRetry(d) <==> CanBeRetried(s.book.last) && revives))
            && (MayStart(d) || MayRetry(d) ==> revives)
            && (buildable && (RevivableAfter(s, false) || ResettableAfter(s, 0)) ==> MayStart(d))
  {
    hide Inv, EndsIn, DisconnectFromVpn, HasProtocol, CanBeRetried, RevivableAfter, OnlineInTime, BookAfter, Streak,
         RoomyAfter, LoadAfter, MayStart, MayRetry, Reachable;
    SpentBounds(s);
  }
}
