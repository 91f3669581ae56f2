/** Concrete runs from a fresh VpnConnection at which the plain form of a promise fails. */
module LifecycleWitnesses {
  import opened FailureLedger
  import opened Lifecycle
  import opened LifecycleTheorems

  const ASKED := Request(0, "vpn.example", OpenVpn, map["config" := "client"])

  const CONNECTS := UserConnects(ASKED, false, [])

  /** The run `es` from `z` ends in `t`. */
  ghost predicate Leads(z: Conn, es: seq<Event>, t: Conn) { Runs(z, es) && After(z, es) == t }

  lemma Advance(z: Conn, es: seq<Event>, s: Conn, e: Event, fs: seq<Event>)
    requires Leads(z, es, s) && Enabled(s, e) && fs == es + [e]
    ensures Leads(z, fs, Step(s, e))
  {
    hide Step, Enabled;
    RunOne(s, e);
    RunsAppend(z, es, [e]);
  }

  lemma Join(z: Conn, es: seq<Event>, s: Conn, fs: seq<Event>, t: Conn)
    requires Leads(z, es, s) && Leads(s, fs, t)
    ensures Leads(z, es + fs, t)
  {
    RunsAppend(z, es, fs);
  }

  /** The three ways into the runs below: a start in progress, its protocol's report `x`
      queued, and a disconnect after the start has returned. */
  function Starting(): Conn {
    Fresh(2000, 0).(state := Connecting, protocol := Running(Unknown, true, ASKED), watchdog := At(17000),
                    starting := true, book := Book(ASKED, 0, 0, 0, 0, [Requested(ASKED), Built(ASKED)]))
  }

  function Reported(x: State): Conn {
    Starting().(protocol := Running(x, true, ASKED), signals := [x])
  }

  function Dropped(x: State): Conn {
    Fresh(2000, 0).(disconnectedAt := At(2000), signals := [x],
                    book := Book(ASKED, 0, 0, 0, 0, [Requested(ASKED), Built(ASKED)]))
  }

  lemma StartSteps(x: State)
    requires x in {Connecting, Connected}
    ensures Enabled(Fresh(2000, 0), CONNECTS) && Step(Fresh(2000, 0), CONNECTS) == Starting()
    ensures Enabled(Starting(), ProtocolReports(x)) && Step(Starting(), ProtocolReports(x)) == Reported(x)
  {}

  lemma DropSteps(x: State)
    requires x in {Connecting, Connected}
    ensures var s := Reported(x).(starting := false);
            && Enabled(Reported(x), StartReturns(false)) && Step(Reported(x), StartReturns(false)) == s
            && Enabled(s, UserDisconnects) && Step(s, UserDisconnects) == Dropped(x)
  {}

  lemma ReachReported(x: State)
    requires x in {Connecting, Connected}
    ensures Leads(Fresh(2000, 0), [CONNECTS, ProtocolReports(x)], Reported(x))
  {
    var z := Fresh(2000, 0);
    hide Step, Enabled, Starting, Reported;
    NoRun(z);
    StartSteps(x);
    Advance(z, [], z, CONNECTS, [CONNECTS]);
    Advance(z, [CONNECTS], Starting(), ProtocolReports(x), [CONNECTS, ProtocolReports(x)]);
  }

  lemma ReachDropped(x: State)
    requires x in {Connecting, Connected}
    ensures Leads(Fresh(2000, 0), [CONNECTS, ProtocolReports(x), StartReturns(false), UserDisconnects], Dropped(x))
  {
    hide Step, Enabled, Reported, Dropped, Leads;
    var z := Fresh(2000, 0);
    ReachReported(x);
    DropSteps(x);
    var es := [CONNECTS, ProtocolReports(x)];
    Advance(z, es, Reported(x), StartReturns(false), es + [StartReturns(false)]);
    Advance(z, es + [StartReturns(false)], Reported(x).(starting := false), UserDisconnects,
            [CONNECTS, ProtocolReports(x), StartReturns(false), UserDisconnects]);
  }

  // ---------------------------------------------------------------- the witnesses

  function Lost(): Conn {
    Reported(Connected).(state := Connected, watchdog := Off, disconnectedAt := At(2000), signals := [],
                         book := NoteOnline(Reported(Connected).book))
  }

  lemma LostSteps()
    ensures var d := Reported(Connected).(state := Disconnecting, watchdog := At(14000), userDisconnect := true,
                                          disconnectedAt := At(2000));
            && Enabled(Reported(Connected), UserDisconnects) && Step(Reported(Connected), UserDisconnects) == d
            && Enabled(d, SignalDelivered) && Step(d, SignalDelivered) == Lost()
            && Enabled(Lost(), StartReturns(false)) && Step(Lost(), StartReturns(false)) == Lost().(starting := false)
  {}

  /** A disconnect requested during the start is lost: Connected is delivered, the start
      returns, and the tunnel stays up with no disconnect posted. */
  lemma DisconnectLost()
    ensures var es := [CONNECTS, ProtocolReports(Connected), UserDisconnects, SignalDelivered, StartReturns(false)];
            && Runs(Fresh(2000, 0), es)
            && var t := After(Fresh(2000, 0), es);
               t.state == Connected && t.protocol.Running? && !t.userDisconnect && t.postedDisconnects == 0
  {
    hide Step, Enabled, Runs, After;
    var z := Fresh(2000, 0);
    ReachReported(Connected);
    LostSteps();
    var es := [CONNECTS, ProtocolReports(Connected)];
    Advance(z, es, Reported(Connected), UserDisconnects, es + [UserDisconnects]);
    Advance(z, es + [UserDisconnects], Step(Reported(Connected), UserDisconnects), SignalDelivered,
            es + [UserDisconnects, SignalDelivered]);
    Advance(z, es + [UserDisconnects, SignalDelivered], Lost(), StartReturns(false),
            [CONNECTS, ProtocolReports(Connected), UserDisconnects, SignalDelivered, StartReturns(false)]);
  }

  /** Connected with no protocol behind it: the signal was queued before the disconnect. */
  lemma ConnectedWithoutProtocol()
    ensures var es := [CONNECTS, ProtocolReports(Connected), StartReturns(false), UserDisconnects, SignalDelivered];
            && Runs(Fresh(2000, 0), es)
            && After(Fresh(2000, 0), es).state == Connected && After(Fresh(2000, 0), es).protocol == NoProtocol
  {
    hide Runs, After;
    ReachDropped(Connected);
    Advance(Fresh(2000, 0), [CONNECTS, ProtocolReports(Connected), StartReturns(false), UserDisconnects],
            Dropped(Connected), SignalDelivered,
            [CONNECTS, ProtocolReports(Connected), StartReturns(false), UserDisconnects, SignalDelivered]);
  }

  /** The dropped connection after Connecting was delivered and its watchdog has fired. */
  function Failed(): Conn {
    Dropped(Connecting).(now := 17000, state := Error, recovery := At(18200), scheduled := true, signals := [],
                         book := PlanRetry(CountFailure(Dropped(Connecting).book, 17), 17))
  }

  lemma WatchdogFails(s: Conn)
    requires s.state == Connecting && s.protocol.NoProtocol? && !s.starting && !s.scheduled && !s.userDisconnect
    requires !EntersSafeMode(s.book, Sec(s)) && RetryAllowed(CountFailure(s.book, Sec(s)), Sec(s))
    ensures var b := CountFailure(s.book, Sec(s));
            StateWatchdogTimeout(s, []) ==
              s.(state := Error, watchdog := Off, recovery := At(s.now + RetryDelay(b)), scheduled := true,
                 book := PlanRetry(b, Sec(s)))
  {}

  /** The delivered Connecting, 15 s on. */
  function Waiting(): Conn {
    Dropped(Connecting).(now := 17000, state := Connecting, watchdog := At(17000), signals := [])
  }

  lemma FailSteps()
    ensures Enabled(Dropped(Connecting), SignalDelivered)
         && Step(Dropped(Connecting), SignalDelivered) == Waiting().(now := 2000)
    ensures Enabled(Waiting(), StateWatchdogFires([])) && Step(Waiting(), StateWatchdogFires([])) == Failed()
  {
    hide StateWatchdogTimeout, HandleFailure;
    assert "config" in ASKED.config && |ASKED.hostName| > 0;
    WatchdogFails(Waiting().(watchdog := Off));
    assert RetryDelay(CountFailure(Waiting().book, 17)) == 1200;
  }

  lemma RecoverySteps()
    ensures Enabled(Failed().(now := 18200), RecoveryFires(false, []))
    ensures var t := Step(Failed().(now := 18200), RecoveryFires(false, []));
            t.starting && t.protocol == Running(Unknown, true, ASKED)
  {}

  lemma ReachWaiting()
    ensures Leads(Fresh(2000, 0), [CONNECTS, ProtocolReports(Connecting), StartReturns(false), UserDisconnects,
                                   SignalDelivered, Tick(15000)], Waiting())
  {
    var z := Fresh(2000, 0);
    var es := [CONNECTS, ProtocolReports(Connecting), StartReturns(false), UserDisconnects];
    assert Step(Waiting().(now := 2000), Tick(15000)) == Waiting();
    hide Step, Enabled, Leads, Dropped, Waiting;
    ReachDropped(Connecting);
    FailSteps();
    Advance(z, es, Dropped(Connecting), SignalDelivered, es + [SignalDelivered]);
    TickEnabled(Waiting().(now := 2000), 15000);
    Advance(z, es + [SignalDelivered], Waiting().(now := 2000), Tick(15000),
            [CONNECTS, ProtocolReports(Connecting), StartReturns(false), UserDisconnects, SignalDelivered,
             Tick(15000)]);
  }

  lemma TickEnabled(s: Conn, ms: nat)
    ensures Enabled(s, Tick(ms)) && Step(s, Tick(ms)) == s.(now := s.now + ms)
  {}

  lemma FailsAndRecovers()
    ensures var es := [StateWatchdogFires([]), Tick(1200), RecoveryFires(false, [])];
            && Runs(Waiting(), es)
            && After(Waiting(), es).starting && After(Waiting(), es).protocol == Running(Unknown, true, ASKED)
  {
    var w := Waiting();
    assert Failed().now == 17000;
    hide Step, Enabled, Runs, After, Failed, Waiting;
    NoRun(w);
    FailSteps();
    RecoverySteps();
    Advance(w, [], w, StateWatchdogFires([]), [StateWatchdogFires([])]);
    TickEnabled(Failed(), 1200);
    Advance(w, [StateWatchdogFires([])], Failed(), Tick(1200), [StateWatchdogFires([]), Tick(1200)]);
    Advance(w, [StateWatchdogFires([]), Tick(1200)], Failed().(now := 18200), RecoveryFires(false, []),
            [StateWatchdogFires([]), Tick(1200), RecoveryFires(false, [])]);
  }

  /** A disconnect of a running protocol comes back: the queued Connecting is delivered, its
      watchdog turns it into a failure, and the recovery timer builds a new protocol. */
  lemma DisconnectRevived()
    ensures var es := [CONNECTS, ProtocolReports(Connecting), StartReturns(false), UserDisconnects, SignalDelivered,
                       Tick(15000)] + [StateWatchdogFires([]), Tick(1200), RecoveryFires(false, [])];
            && Runs(Fresh(2000, 0), es)
            && After(Fresh(2000, 0), es).starting && After(Fresh(2000, 0), es).protocol == Running(Unknown, true, ASKED)
  {
    hide Runs, After, Waiting;
    ReachWaiting();
    FailsAndRecovers();
    var es := [StateWatchdogFires([]), Tick(1200), RecoveryFires(false, [])];
    Join(Fresh(2000, 0), [CONNECTS, ProtocolReports(Connecting), StartReturns(false), UserDisconnects, SignalDelivered,
                          Tick(15000)], Waiting(), es, After(Waiting(), es));
  }

  lemma GraceSteps()
    ensures var z := Fresh(2000, 0);
            var d := z.(disconnectedAt := At(2000), userDisconnect := true);
            && Enabled(z, UserDisconnects) && Step(z, UserDisconnects) == d && Enabled(d, CONNECTS)
            && var q := Step(d, CONNECTS);
               q.grace == [8000] && !q.starting && Enabled(q, CONNECTS) && Step(q, CONNECTS).starting
               && Step(q, CONNECTS).now == 2000
  {}

  /** Two requests right after a disconnect: the second starts 0 ms after it. */
  lemma GraceWindowSpent()
    ensures var es := [UserDisconnects, CONNECTS, CONNECTS];
            && Runs(Fresh(2000, 0), es)
            && After(Fresh(2000, 0), es).starting && After(Fresh(2000, 0), es).now == 2000
  {
    hide Step, Enabled, Runs, After;
    var z := Fresh(2000, 0);
    NoRun(z);
    GraceSteps();
    var d := Step(z, UserDisconnects);
    Advance(z, [], z, UserDisconnects, [UserDisconnects]);
    Advance(z, [UserDisconnects], d, CONNECTS, [UserDisconnects, CONNECTS]);
    Advance(z, [UserDisconnects, CONNECTS], Step(d, CONNECTS), CONNECTS, [UserDisconnects, CONNECTS, CONNECTS]);
  }

  /** The dropped connection asked for again inside the grace window. */
  function WaitingAgain(): Conn {
    Dropped(Connected).(state := Connecting, watchdog := At(17000), grace := [8000], disconnectedAt := Off,
                        book := NoteRequest(Dropped(Connected).book, ASKED))
  }

  /** ... and disconnected again. */
  function DroppedAgain(): Conn {
    WaitingAgain().(state := Disconnected, watchdog := Off, userDisconnect := true, disconnectedAt := At(2000),
                    book := CountFailure(WaitingAgain().book, 2))
  }

  lemma WaitingAgainSteps()
    ensures Enabled(Dropped(Connected), CONNECTS) && Step(Dropped(Connected), CONNECTS) == WaitingAgain()
    ensures Enabled(WaitingAgain(), UserDisconnects) && Step(WaitingAgain(), UserDisconnects) == DroppedAgain()
  {
    assert !EntersSafeMode(WaitingAgain().book, 2);
  }

  lemma ClearedAgainSteps()
    ensures var d := DroppedAgain();
            var c := d.(state := Connected, userDisconnect := false, signals := [], book := NoteOnline(d.book));
            && Enabled(d, SignalDelivered) && Step(d, SignalDelivered) == c && c.now == 2000
            && Enabled(c.(now := 8000), GraceFires(0, false))
            && Step(c.(now := 8000), GraceFires(0, false)).starting
            && Step(c.(now := 8000), GraceFires(0, false)).protocol == Running(Unknown, true, ASKED)
  {}

  const DROPPED := [CONNECTS, ProtocolReports(Connected), StartReturns(false), UserDisconnects]

  const ASKED_AND_DROPPED := [CONNECTS, UserDisconnects]

  const CLEARED_AND_STARTED := [SignalDelivered, Tick(6000), GraceFires(0, false)]

  lemma AskedAndDropped()
    ensures Leads(Dropped(Connected), ASKED_AND_DROPPED, DroppedAgain())
  {
    hide Step, Enabled, Dropped, WaitingAgain, DroppedAgain;
    WaitingAgainSteps();
    NoRun(Dropped(Connected));
    Advance(Dropped(Connected), [], Dropped(Connected), CONNECTS, [CONNECTS]);
    Advance(Dropped(Connected), [CONNECTS], WaitingAgain(), UserDisconnects, ASKED_AND_DROPPED);
  }

  lemma ClearedAndStarted()
    ensures var d := DroppedAgain();
            && Runs(d, CLEARED_AND_STARTED) && After(d, CLEARED_AND_STARTED).starting
            && After(d, CLEARED_AND_STARTED).protocol == Running(Unknown, true, ASKED)
  {
    hide Step, Enabled, DroppedAgain, Runs, After;
    ClearedAgainSteps();
    var d := DroppedAgain();
    var c := Step(d, SignalDelivered);
    NoRun(d);
    Advance(d, [], d, SignalDelivered, [SignalDelivered]);
    TickEnabled(c, 6000);
    Advance(d, [SignalDelivered], c, Tick(6000), [SignalDelivered, Tick(6000)]);
    Advance(d, [SignalDelivered, Tick(6000)], c.(now := 8000), GraceFires(0, false), CLEARED_AND_STARTED);
  }

  /** A request that waits out the grace window is disconnected, and starts all the same: with no
      protocol to stop the flag stays set, but a Connected from before clears it again. */
  lemma WaitingDisconnectRevived()
    ensures var es := DROPPED + ASKED_AND_DROPPED + CLEARED_AND_STARTED;
            && Runs(Fresh(2000, 0), es)
            && After(Fresh(2000, 0), es).starting && After(Fresh(2000, 0), es).protocol == Running(Unknown, true, ASKED)
  {
    hide Runs, After, Dropped, DroppedAgain;
    var z, d := Fresh(2000, 0), DroppedAgain();
    ReachDropped(Connected);
    AskedAndDropped();
    ClearedAndStarted();
    Join(z, DROPPED, Dropped(Connected), ASKED_AND_DROPPED, d);
    Join(z, DROPPED + ASKED_AND_DROPPED, d, CLEARED_AND_STARTED, After(d, CLEARED_AND_STARTED));
  }

  // ---------------------------------------------------------------- both attempts used up

  /** An error that is counted and retried. */
  lemma ErrorIsRetried(s: Conn)
    requires !s.scheduled && !s.userDisconnect && !EntersSafeMode(s.book, Sec(s))
    requires RetryAllowed(CountFailure(s.book, Sec(s)), Sec(s))
    ensures var b := CountFailure(s.book, Sec(s));
            SetState(s, Error) ==
              s.(state := Error, watchdog := Off, recovery := At(s.now + RetryDelay(b)), scheduled := true,
                 book := PlanRetry(b, Sec(s)))
  {}

  /** The first start has failed. */
  function FailedOnce(): Conn {
    Starting().(state := Error, watchdog := Off, starting := false, recovery := At(3200), scheduled := true,
                book := PlanRetry(CountFailure(Starting().book, 2), 2))
  }

  /** The first retry is starting. */
  function Retrying(): Conn {
    FailedOnce().(now := 3200, state := Connecting, watchdog := At(18200), starting := true, recovery := Off,
                  scheduled := false, book := NoteBuilt(FailedOnce().book, ASKED))
  }

  /** Its protocol has reported Connected and Error, and its start has failed as well. */
  function FailedTwice(): Conn {
    Retrying().(state := Error, watchdog := Off, starting := false, recovery := At(5600), scheduled := true,
                protocol := Running(Error, true, ASKED), signals := [Connected, Error],
                book := PlanRetry(CountFailure(Retrying().book, 3), 3))
  }

  /** The user has disconnected. */
  function SpentDrop(): Conn {
    FailedTwice().(state := Disconnected, protocol := NoProtocol, recovery := Off, scheduled := false,
                   disconnectedAt := At(3200))
  }

  /** Both signals have been delivered: the second finds the attempts reset. */
  function RetriedAgain(): Conn {
    SpentDrop().(state := Error, recovery := At(4400), scheduled := true, signals := [],
                 book := PlanRetry(CountFailure(NoteOnline(SpentDrop().book), 3), 3))
  }

  lemma FailedOnceSteps()
    ensures Enabled(Starting(), StartReturns(true)) && Step(Starting(), StartReturns(true)) == FailedOnce()
  {
    hide HandleFailure, SetState;
    assert "config" in ASKED.config && |ASKED.hostName| > 0;
    ErrorIsRetried(Starting().(starting := false));
    assert RetryDelay(CountFailure(Starting().book, 2)) == 1200;
  }

  lemma RetryingSteps()
    ensures Enabled(FailedOnce().(now := 3200), RecoveryFires(false, []))
    ensures Step(FailedOnce().(now := 3200), RecoveryFires(false, [])) == Retrying()
  {
    hide HandleFailure;
  }

  /** The two reports of the retry, still starting. */
  function RetryReported(): Conn {
    Retrying().(protocol := Running(Error, true, ASKED), signals := [Connected, Error])
  }

  lemma ReportSteps()
    ensures var c := Retrying().(protocol := Running(Connected, true, ASKED), signals := [Connected]);
            && Enabled(Retrying(), ProtocolReports(Connected)) && Step(Retrying(), ProtocolReports(Connected)) == c
            && Enabled(c, ProtocolReports(Error)) && Step(c, ProtocolReports(Error)) == RetryReported()
  {}

  lemma FailedTwiceSteps()
    ensures Enabled(RetryReported(), StartReturns(true)) && Step(RetryReported(), StartReturns(true)) == FailedTwice()
  {
    hide HandleFailure, SetState;
    assert "config" in ASKED.config && |ASKED.hostName| > 0;
    assert Pow2(1) == 2;
    assert Retrying().book.attempts == 1 && Retrying().book.burst == 1 && Retrying().book.windowStart == 2;
    ErrorIsRetried(RetryReported().(starting := false));
    assert RetryDelay(CountFailure(Retrying().book, 3)) == 2400;
  }

  lemma SpentDropSteps()
    ensures Enabled(FailedTwice(), UserDisconnects) && Step(FailedTwice(), UserDisconnects) == SpentDrop()
    ensures SpentDrop().book.attempts == 2
  {
    hide HandleFailure;
  }

  /** The attempts have been reset. */
  function OnlineAgain(): Conn {
    SpentDrop().(state := Connected, signals := [Error], book := NoteOnline(SpentDrop().book))
  }

  lemma OnlineAgainSteps()
    ensures Enabled(SpentDrop(), SignalDelivered) && Step(SpentDrop(), SignalDelivered) == OnlineAgain()
  {
    hide HandleFailure;
    assert SpentDrop().signals[1..] == [Error];
  }

  lemma ResetSteps()
    ensures Enabled(OnlineAgain(), SignalDelivered) && Step(OnlineAgain(), SignalDelivered) == RetriedAgain()
  {
    hide HandleFailure, SetState;
    assert "config" in ASKED.config && |ASKED.hostName| > 0;
    assert OnlineAgain().signals[1..] == [];
    ErrorIsRetried(OnlineAgain().(signals := []));
    assert RetryDelay(CountFailure(OnlineAgain().book, 3)) == 1200;
  }

  lemma RestartSteps()
    ensures var s := RetriedAgain().(now := 9200);
            && RetriedAgain().now == 3200 && Enabled(s, RecoveryFires(false, []))
            && Step(s, RecoveryFires(false, [])).starting
            && Step(s, RecoveryFires(false, [])).protocol == Running(Unknown, true, ASKED)
  {
    hide HandleFailure;
  }

  const FAILS := [CONNECTS, StartReturns(true), Tick(1200), RecoveryFires(false, [])]

  const FAILS_AGAIN := [ProtocolReports(Connected), ProtocolReports(Error), StartReturns(true)]

  const COMES_BACK := [SignalDelivered, SignalDelivered, Tick(6000), RecoveryFires(false, [])]

  lemma Fails()
    ensures Leads(Fresh(2000, 0), FAILS, Retrying())
  {
    var z := Fresh(2000, 0);
    assert FailedOnce().now == 2000;
    StartSteps(Connected);
    FailedOnceSteps();
    RetryingSteps();
    hide Step, Enabled, Starting, FailedOnce, Retrying;
    NoRun(z);
    Advance(z, [], z, CONNECTS, [CONNECTS]);
    Advance(z, [CONNECTS], Starting(), StartReturns(true), [CONNECTS, StartReturns(true)]);
    TickEnabled(FailedOnce(), 1200);
    Advance(z, [CONNECTS, StartReturns(true)], FailedOnce(), Tick(1200), [CONNECTS, StartReturns(true), Tick(1200)]);
    Advance(z, [CONNECTS, StartReturns(true), Tick(1200)], FailedOnce().(now := 3200), RecoveryFires(false, []), FAILS);
  }

  lemma FailsAgain()
    ensures Leads(Retrying(), FAILS_AGAIN, FailedTwice())
  {
    ReportSteps();
    FailedTwiceSteps();
    hide Step, Enabled, Retrying, RetryReported, FailedTwice;
    var s, c := Retrying(), Step(Retrying(), ProtocolReports(Connected));
    NoRun(s);
    Advance(s, [], s, ProtocolReports(Connected), [ProtocolReports(Connected)]);
    Advance(s, [ProtocolReports(Connected)], c, ProtocolReports(Error),
            [ProtocolReports(Connected), ProtocolReports(Error)]);
    Advance(s, [ProtocolReports(Connected), ProtocolReports(Error)], RetryReported(), StartReturns(true), FAILS_AGAIN);
  }

  lemma ComesBack()
    ensures Runs(SpentDrop(), COMES_BACK) && After(SpentDrop(), COMES_BACK).starting
    ensures After(SpentDrop(), COMES_BACK).protocol == Running(Unknown, true, ASKED)
  {
    hide Runs, After;
    OnlineAgainSteps();
    ResetSteps();
    RestartSteps();
    hide Step, Enabled, SpentDrop, OnlineAgain, RetriedAgain;
    var d := SpentDrop();
    NoRun(d);
    Advance(d, [], d, SignalDelivered, [SignalDelivered]);
    Advance(d, [SignalDelivered], OnlineAgain(), SignalDelivered, [SignalDelivered, SignalDelivered]);
    TickEnabled(RetriedAgain(), 6000);
    Advance(d, [SignalDelivered, SignalDelivered], RetriedAgain(), Tick(6000),
            [SignalDelivered, SignalDelivered, Tick(6000)]);
    Advance(d, [SignalDelivered, SignalDelivered, Tick(6000)], RetriedAgain().(now := 9200), RecoveryFires(false, []),
            COMES_BACK);
  }

  /** A start and its retry fail, so both attempts are used up when the user disconnects; the
      Connected and Error still in the queue reset the counter and schedule a reconnect, and a
      protocol is built again. */
  lemma SpentDisconnectRevived()
    ensures var es := FAILS + FAILS_AGAIN + [UserDisconnects];
            && Runs(Fresh(2000, 0), es + COMES_BACK)
            && Runs(Fresh(2000, 0), es) && After(Fresh(2000, 0), es).book.attempts == 2
            && After(Fresh(2000, 0), es + COMES_BACK).starting
            && After(Fresh(2000, 0), es + COMES_BACK).protocol == Running(Unknown, true, ASKED)
  {
    hide Runs, After, Retrying, FailedTwice, Step, Enabled;
    var z, d := Fresh(2000, 0), SpentDrop();
    SpentDropSteps();
    hide SpentDrop;
    Fails();
    FailsAgain();
    Join(z, FAILS, Retrying(), FAILS_AGAIN, FailedTwice());
    Advance(z, FAILS + FAILS_AGAIN, FailedTwice(), UserDisconnects, FAILS + FAILS_AGAIN + [UserDisconnects]);
    ComesBack();
    Join(z, FAILS + FAILS_AGAIN + [UserDisconnects], d, COMES_BACK, After(d, COMES_BACK));
  }
}
