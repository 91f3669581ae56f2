/** Which request a protocol is built from, how often recovery is tried and why safe mode is
    entered, over every run of the lifecycle. */
module RequestTheorems {
  import opened FailureLedger
  import opened Lifecycle
  import opened LifecycleRuns
  import opened LifecycleTheorems

  // ---------------------------------------------------------------- latest request wins

  /** The argument of the most recent connectToVpn call made from outside. */
  ghost function LatestAsked(es: seq<Event>, before: Request): Request {
    if es == [] then before
    else if es[|es| - 1].UserConnects? then es[|es| - 1].request
    else LatestAsked(es[..|es| - 1], before)
  }

  /** A step takes over the request it carries, and a protocol whose start begins in
      it was built from the request in force. */
  lemma StepRequest(s: Conn, e: Event)
    requires Inv(s) && Enabled(s, e)
    ensures Step(s, e).book.last == if e.UserConnects? then e.request else s.book.last
    ensures !s.starting && Step(s, e).starting ==>
              && Step(s, e).protocol.Running? && Step(s, e).protocol.origin == Step(s, e).book.last
              && HasProtocol(Step(s, e).book.last.container)
  {
    hide Faithful, SetState;
    if e.UserConnects? {
      ConnectRequest(s.(book := NoteRequest(s.book, e.request)), e.request, e.missing, e.stop);
    } else if e.PostedConnectRuns? {
      ConnectRequest(s.(postedConnects := s.postedConnects - 1), s.book.last, e.missing, e.stop);
    } else if e.RecoveryFires? {
      ConnectRequest(s.(recovery := Off, scheduled := false), s.book.last, e.missing, e.stop);
    } else if e.SwitchWatchdogFires? {
      StartRequest(DropProtocol(s.(switchDog := Off)), s.book.last, e.missing);
    } else if e.GraceFires? {
      StartRequest(TakeGraceTimer(s, e.i), s.book.last, e.missing);
    } else if e.DeferredStartRuns? {
      StartRequest(s.(deferredStart := false), s.book.last, e.missing);
    } else {
      QuietStepRequest(s, e);
    }
  }

  lemma StartRequest(s: Conn, r: Request, missing: bool)
    ensures var t := StartNewConnection(s, r, missing);
            && t.book.last == s.book.last
            && (t.starting && !s.starting ==> t.protocol.Running? && t.protocol.origin == r && HasProtocol(r.container))
  {
    hide Faithful, SetState;
    SetStateFrame(s, Connecting);
    var c := if s.state != Connecting then SetState(s, Connecting) else s;
    SetStateFrame(c, Error);
    SetStateFrame(c.(protocol := NoProtocol), Error);
  }

  lemma {:induction false} ReportsRequest(s: Conn, xs: seq<State>)
    ensures Reports(s, xs).book == s.book && Reports(s, xs).starting == s.starting
    decreases |xs|
  {
    if xs != [] { ReportsRequest(Report(s, xs[0]), xs[1..]); }
  }

  lemma ConnectRequest(s: Conn, r: Request, missing: bool, stop: seq<State>)
    ensures var t := ConnectToVpn(s, r, missing, stop);
            && t.book.last == r
            && (t.starting && !s.starting ==> t.protocol.Running? && t.protocol.origin == r && HasProtocol(r.container))
  {
    hide Faithful, SetState;
    var q := TakeRequest(s, r);
    SetStateFrame(q, Connecting);
    var c := SetState(q, Connecting);
    if c.protocol.Running? && Live(c.protocol.state) { ReportsRequest(BeginHandover(c), stop); }
    StartRequest(c.(protocol := NoProtocol), r, missing);
  }

  lemma QuietStepRequest(s: Conn, e: Event)
    requires Enabled(s, e)
    requires e.Tick? || e.UserDisconnects? || e.PostedDisconnectRuns? || e.NetworkChanges? || e.ProtocolReports?
          || e.SignalDelivered? || e.StartReturns? || e.RestartReturns? || e.StateWatchdogFires?
    ensures Step(s, e).book.last == s.book.last && (Step(s, e).starting ==> s.starting)
  {
    hide Faithful, SetState;
    if e.NetworkChanges? {
      SetStateFrame(s, Reconnecting);
      ReportsRequest(SetState(s, Reconnecting), e.stop);
    } else if e.SignalDelivered? {
      SetStateFrame(s.(signals := s.signals[1..]), s.signals[0]);
    } else if e.StartReturns? {
      SetStateFrame(s.(starting := false), Error);
    } else if e.RestartReturns? {
      SetStateFrame(s.(restarts := s.restarts - 1), Error);
    } else if e.UserDisconnects? {
      DisconnectRequest(s);
    } else if e.PostedDisconnectRuns? {
      DisconnectRequest(s.(postedDisconnects := s.postedDisconnects - 1));
    } else if e.StateWatchdogFires? {
      var o := s.(watchdog := Off);
      ReportsRequest(o, e.stop);
      SetStateFrame(o, Disconnected);
      SetStateFrame(Reports(o, e.stop).(protocol := NoProtocol), Error);
    }
  }

  lemma DisconnectRequest(s: Conn)
    ensures DisconnectFromVpn(s).book.last == s.book.last && DisconnectFromVpn(s).starting == s.starting
  {
    hide Faithful, SetState;
    var d := TakeDisconnect(s);
    SetStateFrame(d, Disconnecting);
    SetStateFrame(d, Disconnected);
    SetStateFrame(SetState(d, Disconnecting).(protocol := NoProtocol), Disconnected);
  }

  lemma {:induction false} RunRequest(s: Conn, es: seq<Event>)
    requires Inv(s) && Runs(s, es)
    ensures After(s, es).book.last == LatestAsked(es, s.book.last)
    decreases |es|
  {
    hide Faithful, SetState;
    if es != [] {
      StepKeepsInv(s, es[0]);
      StepRequest(s, es[0]);
      var t := Step(s, es[0]);
      RunRequest(t, es[1..]);
      AskedSplit(es, s.book.last);
    }
  }

  lemma {:induction false} AskedSplit(es: seq<Event>, r: Request)
    requires es != []
    ensures LatestAsked(es, r) == LatestAsked(es[1..], if es[0].UserConnects? then es[0].request else r)
    decreases |es|
  {
    if |es| > 1 {
      AskedSplit(es[..|es| - 1], r);
      assert es[1..][..|es| - 2] == es[..|es| - 1][1..];
    } else {
      assert es[..0] == [];
    }
  }

  /** Whatever starts a protocol, be it a call, a deferred start, a grace timer, a watchdog
      or a recovery: it is built from the most recent request of the whole run. */
  lemma LatestRequestWins(now: nat, safeUntil: nat, es: seq<Event>, e: Event)
    requires RunFrom(now, safeUntil, es) && Enabled(After(Fresh(now, safeUntil), es), e)
    ensures var s := After(Fresh(now, safeUntil), es);
            !s.starting && Step(s, e).starting ==>
              Step(s, e).protocol.Running? && Step(s, e).protocol.origin == LatestAsked(es + [e], NO_REQUEST)
  {
    hide Faithful, SetState;
    var z := Fresh(now, safeUntil);
    FreshInv(now, safeUntil);
    RunKeepsInv(z, es);
    RunRequest(z, es);
    StepKeepsInv(After(z, es), e);
    StepRequest(After(z, es), e);
    assert (es + [e])[..|es|] == es;
  }

  // ---------------------------------------------------------------- requests that arrive during a start

  predicate IsDisconnect(e: Event) { e.UserDisconnects? || e.PostedDisconnectRuns? }

  lemma QueuedStep(s: Conn, e: Event)
    requires Inv(s) && Enabled(s, e) && s.queuedConnect && !IsDisconnect(e) && !e.StartReturns?
    ensures Step(s, e).queuedConnect
  {
    hide Faithful, SetState;
    if e.NetworkChanges? && !ReconnectIgnored(s) {
      SetStateStep(s, Reconnecting);
      ReportsStep(SetState(s, Reconnecting), e.stop);
    } else if e.SignalDelivered? {
      SetStateFrame(s.(signals := s.signals[1..]), s.signals[0]);
    } else if e.RestartReturns? {
      SetStateFrame(s.(restarts := s.restarts - 1), Error);
    }
  }

  lemma {:induction false} QueuedRun(s: Conn, es: seq<Event>)
    requires Inv(s) && Runs(s, es) && s.queuedConnect
    requires forall e :: e in es ==> !IsDisconnect(e) && !e.StartReturns?
    ensures Inv(After(s, es)) && After(s, es).queuedConnect
    decreases |es|
  {
    hide Faithful, SetState;
    if es != [] {
      assert es[0] in es;
      StepKeepsInv(s, es[0]);
      QueuedStep(s, es[0]);
      assert forall e :: e in es[1..] ==> e in es;
      QueuedRun(Step(s, es[0]), es[1..]);
    }
  }

  /** A request made while a protocol is starting is posted again when the start returns,
      whether it failed or not, unless a disconnect comes in between; what is posted
      carries the latest request of that stretch. */
  lemma RequestDuringStartIsReposted(s: Conn, ask: Event, es: seq<Event>, failed: bool)
    requires Reachable(s) && s.starting && ask.UserConnects? && Runs(s, [ask] + es)
    requires forall e :: e in es ==> !IsDisconnect(e) && !e.StartReturns?
    ensures var t := After(s, [ask] + es);
            && Enabled(t, StartReturns(failed))
            && Step(t, StartReturns(failed)).postedConnects == t.postedConnects + 1
            && Step(t, StartReturns(failed)).book.last == LatestAsked(es, ask.request)
  {
    hide Faithful, SetState;
    ReachableKeepsInv(s);
    StepKeepsInv(s, ask);
    StepRequest(s, ask);
    assert ([ask] + es)[1..] == es && ([ask] + es)[0] == ask;
    var u := Step(s, ask);
    QueuedRun(u, es);
    RunRequest(u, es);
  }

  // ---------------------------------------------------------------- disconnects that arrive during a start

  /** The steps that make a start forget that a disconnect was requested during it. */
  predicate ForgetsDisconnect(s: Conn, e: Event) {
    || e.UserConnects? || e.PostedConnectRuns?
    || (e.SignalDelivered? && s.signals != []
        && (s.signals[0] == Connected || (s.signals[0] == Disconnected && s.state == Disconnecting)))
  }

  /** While a protocol is starting, a requested disconnect stays requested through every step
      except, exactly, a new connect request and the delivery of Connected, or of Disconnected
      while disconnecting. */
  lemma DisconnectForgottenExactlyBy(s: Conn, e: Event)
    requires Inv(s) && Enabled(s, e) && s.starting && s.userDisconnect
    ensures Step(s, e).userDisconnect <==> !ForgetsDisconnect(s, e)
    ensures !e.StartReturns? ==> Step(s, e).starting
  {
    hide Faithful, HandleFailure;
    if e.NetworkChanges? && !ReconnectIgnored(s) {
      SetStateFrame(s, Reconnecting);
      SetStateStep(s, Reconnecting);
      ReportsStep(SetState(s, Reconnecting), e.stop);
    } else if e.SignalDelivered? {
      var p := s.(signals := s.signals[1..]);
      SetStateFrame(p, s.signals[0]);
      HandleFailureFrame(ArmWatchdog(p.(state := s.signals[0]), s.signals[0]));
    } else if e.RestartReturns? {
      SetStateFrame(s.(restarts := s.restarts - 1), Error);
    }
  }

  ghost predicate Remembers(s: Conn, es: seq<Event>)
    requires Runs(s, es)
    decreases |es|
  {
    es == [] || (!ForgetsDisconnect(s, es[0]) && !es[0].StartReturns? && Remembers(Step(s, es[0]), es[1..]))
  }

  lemma {:induction false} RememberedRun(s: Conn, es: seq<Event>)
    requires Inv(s) && s.starting && s.userDisconnect && Runs(s, es) && Remembers(s, es)
    ensures Inv(After(s, es)) && After(s, es).starting && After(s, es).userDisconnect
    decreases |es|
  {
    hide Inv;
    if es != [] {
      StepKeepsInv(s, es[0]);
      DisconnectForgottenExactlyBy(s, es[0]);
      RememberedRun(Step(s, es[0]), es[1..]);
    }
  }

  /** A disconnect requested during a start is posted when the start returns, failed or not,
      unless one of those steps comes in between. */
  lemma DisconnectDuringStartIsHonoured(s: Conn, es: seq<Event>, failed: bool)
    requires Reachable(s) && s.starting && Runs(s, [UserDisconnects] + es)
    requires Remembers(Step(s, UserDisconnects), ([UserDisconnects] + es)[1..])
    ensures var t := After(s, [UserDisconnects] + es);
            && Enabled(t, StartReturns(failed))
            && Step(t, StartReturns(failed)).postedDisconnects == t.postedDisconnects + 1
  {
    hide Faithful, SetState;
    ReachableKeepsInv(s);
    StepKeepsInv(s, UserDisconnects);
    SetStateFrame(TakeDisconnect(s), Disconnecting);
    RememberedRun(Step(s, UserDisconnects), ([UserDisconnects] + es)[1..]);
  }

  /** A Connected signal that is delivered while the start is still running makes the disconnect
      vanish: when the start returns nothing is posted and the connection stays up. */
  lemma ConnectedSignalLosesDisconnect(s: Conn)
    requires Reachable(s) && Enabled(s, UserDisconnects) && s.starting && s.signals != [] && s.signals[0] == Connected
    ensures var d := Step(s, UserDisconnects);
            && Enabled(d, SignalDelivered) && Enabled(Step(d, SignalDelivered), StartReturns(false))
            && var t := Step(Step(d, SignalDelivered), StartReturns(false));
               t.state == Connected && t.protocol == s.protocol && t.protocol.Running?
               && t.postedDisconnects == s.postedDisconnects && !t.userDisconnect
  {
    hide Faithful, HandleFailure;
    ReachableKeepsInv(s);
    SetStateFrame(TakeDisconnect(s), Disconnecting);
  }

  // ---------------------------------------------------------------- recovery budget

  /** A scheduled reconnect has a running timer, no pending disconnect, a usable request and
      no safe mode; and a pending user disconnect leaves nothing scheduled. */
  lemma ScheduledReconnectIsBacked(s: Conn)
    requires Reachable(s) && s.scheduled
    ensures s.recovery.At? && !s.userDisconnect && CanBeRetried(s.book.last) && s.book.safeUntil <= Sec(s)
  {
    hide Faithful, SetState;
    ReachableKeepsInv(s);
  }

  ghost predicate ResetFree(log: seq<Entry>, i: nat, j: nat)
    requires j <= |log|
  {
    forall k :: i <= k < j ==> !IsReset(log[k])
  }

  lemma {:induction false} RetriesGrow(log: seq<Entry>, i: nat, j: nat)
    requires i <= j <= |log| && ResetFree(log, i, j)
    ensures Retries(log[..j]) >= Retries(log[..i])
    decreases j
  {
    if i < j {
      assert log[..j][..j - 1] == log[..j - 1];
      RetriesGrow(log, i, j - 1);
    }
  }

  /** Between resets (Connected or safe mode) there are at most two reconnects, the first after
      1200 ms and the second after 2400 ms: two with no reset between them are exactly that
      pair, and a third cannot follow.  None is planned within 1800 s of entering safe mode. */
  lemma RecoveryBudget(s: Conn, i: nat, j: nat)
    requires Reachable(s) && i < j < |s.book.log| && s.book.log[j].RetryPlanned?
    ensures s.book.log[i].RetryPlanned? && ResetFree(s.book.log, i + 1, j) ==>
              && s.book.log[i].delayMs == 1200 && s.book.log[j].delayMs == 2400
              && forall h :: 0 <= h < i && s.book.log[h].RetryPlanned? ==> !ResetFree(s.book.log, h + 1, i)
    ensures s.book.log[i].SafeModeEntered? ==> s.book.log[j].sec >= s.book.log[i].sec + 1800
  {
    hide Faithful, SetState, Retries, LatestRequest;
    ReachableKeepsInv(s);
    var log := s.book.log;
    JustifiedHistory(s);
    assert Justified(log[..j], log[j]) && Justified(log[..i], log[i]);
    if log[i].SafeModeEntered? { assert log[..j][i] == log[i]; }
    if log[i].RetryPlanned? && ResetFree(log, i + 1, j) {
      RetryCounts(log, i, j);
      forall h | 0 <= h < i && log[h].RetryPlanned? && ResetFree(log, h + 1, i) ensures false {
        RetryCounts(log, h, i);
      }
    }
  }

  lemma JustifiedHistory(s: Conn)
    requires Inv(s)
    ensures AllJustified(s.book.log)
  {}

  lemma RetryCounts(log: seq<Entry>, i: nat, j: nat)
    requires i < j <= |log| && log[i].RetryPlanned? && ResetFree(log, i + 1, j)
    ensures Retries(log[..j]) > Retries(log[..i])
  {
    RetriesGrow(log, i + 1, j);
    assert log[..i + 1][..i] == log[..i];
  }

  // ---------------------------------------------------------------- safe mode

  /** Each safe-mode entry is preceded by three failed transitions within the 180 s ending at
      it, with no Connected and no other safe-mode entry from the first of them on. */
  lemma SafeModeWitness(s: Conn, n: nat)
    requires Reachable(s) && n < |s.book.log| && s.book.log[n].SafeModeEntered?
    ensures exists i: nat, j: nat, k: nat ::
              FailureTriple(s.book.log[..n], i, j, k, s.book.log[n].sec)
  {
    ReachableKeepsInv(s);
    assert Justified(s.book.log[..n], s.book.log[n]);
  }

  /** Between events the burst counter is the number of failures since the window opened, and
      below the threshold; an open window began with a failure that is still in the history. */
  lemma BurstCounterIsExact(s: Conn)
    requires Reachable(s)
    ensures s.book.burst < 3
    ensures s.book.windowStart > 0 ==> s.book.burst == Failures(s.book.log, s.book.windowStart)
    ensures s.book.windowStart == 0 ==> s.book.burst == 0 && Failures(s.book.log, 0) == 0
  {
    ReachableKeepsInv(s);
  }

  // ---------------------------------------------------------------- the grace window

  /** With no protocol in the way a connect request starts at once unless the last disconnect
      is less than 6 s old; then it waits until those 6 s are over (at least 50 ms). */
  lemma GraceWindow(s: Conn, r: Request, stop: seq<State>)
    requires Reachable(s) && !s.starting && !s.deferredStart && s.protocol.NoProtocol?
    requires HasProtocol(r.container) && StopReports(stop)
    ensures var t := Step(s, UserConnects(r, false, stop));
            var recent := s.disconnectedAt.At? && 0 <= s.now - s.disconnectedAt.due < 6000;
            && (t.starting <==> !recent)
            && (recent ==> t.disconnectedAt == Off)
            && (recent ==>
                  var over := s.disconnectedAt.due + 6000;
                  t.grace == s.grace + [if over < s.now + 50 then s.now + 50 else over])
  {
    hide Faithful, SetState;
    var q := TakeRequest(s.(book := NoteRequest(s.book, r)), r);
    SetStateFrame(q, Connecting);
    var c := SetState(q, Connecting).(protocol := NoProtocol);
    SetStateFrame(c, Connecting);
  }

  /** The window holds back only the first request: a second one right behind it finds the
      disconnect stamp gone and starts at once, however recent the disconnect. */
  lemma GraceWindowIsSpentByOneRequest(s: Conn, r: Request, r': Request, stop: seq<State>)
    requires Reachable(s) && !s.starting && !s.deferredStart && s.protocol.NoProtocol? && InGrace(s)
    requires HasProtocol(r.container) && HasProtocol(r'.container) && StopReports(stop)
    ensures var t := Step(s, UserConnects(r, false, stop));
            && Enabled(t, UserConnects(r', false, stop)) && !t.starting
            && Step(t, UserConnects(r', false, stop)).starting
  {
    hide Faithful, SetState;
    var q := TakeRequest(s.(book := NoteRequest(s.book, r)), r);
    SetStateFrame(q, Connecting);
    var t := Step(s, UserConnects(r, false, stop));
    var q' := TakeRequest(t.(book := NoteRequest(t.book, r')), r');
    SetStateFrame(q', Connecting);
    var c := SetState(q', Connecting).(protocol := NoProtocol);
    SetStateFrame(c, Connecting);
  }
}
