/** What every interleaving of the two ends of the local socket keeps. */
module SocketLinkProofs {
  import opened Basics
  import opened SocketLink

  // ---------------------------------------------------------------- what a history says

  /** The time of the last payload, if nothing has closed it since: no connected, no failure, no
      deactivate and no disconnected message, ignored or not. */
  function OpenSend(log: seq<Entry>): Option<nat> {
    if log == [] then None
    else
      match log[|log| - 1]
      case Sent(_, at, _) => Some(at)
      case Deactivated => None
      case ConnectedSeen => None
      case FailureSeen(_) => None
      case Swallowed(_, _) => None
      case Surfaced(_) => None
      case _ => OpenSend(log[..|log| - 1])
  }

  /** The latest deferred request that was neither sent nor cancelled by a deactivate. */
  function LastDeferred(log: seq<Entry>): Option<nat> {
    if log == [] then None
    else
      match log[|log| - 1]
      case Deferred(n) => Some(n)
      case Sent(_, _, wasDeferred) => if wasDeferred then None else LastDeferred(log[..|log| - 1])
      case Deactivated => None
      case _ => LastDeferred(log[..|log| - 1])
  }

  /** Request n was made, and no deactivate has followed it. */
  predicate StillWanted(log: seq<Entry>, n: nat) {
    log != [] && (log[|log| - 1] == Asked(n) ||
                  (log[|log| - 1] != Deactivated && StillWanted(log[..|log| - 1], n)))
  }

  /** Retry timers started since the retry counter was last reset. */
  function Armed(log: seq<Entry>): nat {
    if log == [] || log[|log| - 1] == RetriesReset then 0
    else Armed(log[..|log| - 1]) + if log[|log| - 1] == RetryArmed then 1 else 0
  }

  ghost predicate SentBelow(log: seq<Entry>, n: nat) {
    forall i :: 0 <= i < |log| && log[i].Sent? ==> log[i].n < n
  }

  /** What the past must contain for entry `e` to be recorded next. */
  ghost predicate Justified(past: seq<Entry>, e: Entry) {
    match e
    case Sent(n, _, _) => SentBelow(past, n) && StillWanted(past, n)
    case Swallowed(cause, at) =>
      && OpenSend(past).Some? && at - OpenSend(past).value < EARLY_DISCONNECT_MS
      && (cause.FailedActivation? ==> FailureSeen(cause) in past)
    case Unexpected(cause) => cause == Elsewhere
    case RetryArmed => Armed(past) < MAX_CONNECTION_RETRY
    case _ => true
  }

  ghost predicate AllJustified(log: seq<Entry>) {
    forall i :: 0 <= i < |log| ==> Justified(log[..i], log[i])
  }

  lemma SnocReadings(log: seq<Entry>, e: Entry)
    ensures OpenSend(log + [e]) ==
      (match e
       case Sent(_, at, _) => Some(at)
       case Deactivated => None
       case ConnectedSeen => None
       case FailureSeen(_) => None
       case Swallowed(_, _) => None
       case Surfaced(_) => None
       case _ => OpenSend(log))
    ensures LastDeferred(log + [e]) ==
      (match e
       case Deferred(n) => Some(n)
       case Sent(_, _, wasDeferred) => if wasDeferred then None else LastDeferred(log)
       case Deactivated => None
       case _ => LastDeferred(log))
    ensures forall n: nat :: StillWanted(log + [e], n) <==> e == Asked(n) || (e != Deactivated && StillWanted(log, n))
    ensures Armed(log + [e]) == if e == RetriesReset then 0 else Armed(log) + if e == RetryArmed then 1 else 0
  {
    assert (log + [e])[..|log|] == log;
  }

  lemma SnocJustified(log: seq<Entry>, e: Entry)
    requires AllJustified(log) && Justified(log, e)
    ensures AllJustified(log + [e])
  {
    forall i | 0 <= i < |log + [e]| ensures Justified((log + [e])[..i], (log + [e])[i]) {
      assert (log + [e])[..i] == log[..i];
      if i == |log| { assert log[..i] == log; }
    }
  }

  // ---------------------------------------------------------------- the invariant

  /** The client's members agree with the history. */
  ghost predicate Remembered(s: Link) {
    && AllJustified(s.log)
    && s.retries == Armed(s.log) <= MAX_CONNECTION_RETRY
    && s.pending == LastDeferred(s.log)
    && (s.pending.Some? ==> s.pending.value < s.asked && StillWanted(s.log, s.pending.value))
    && SentBelow(s.log, if s.readiness == Ready then s.asked else 0)
    && (s.inFlight && !s.ignoredEarly ==> s.lastSentAt.Some? && OpenSend(s.log) == s.lastSentAt)
  }

  predicate Failed(c: Cause) { c.FailedActivation? }

  /** A failed activation's disconnected is right behind its backendFailure, or next in line
      after it was read. */
  ghost predicate Paired(q: seq<Message>, log: seq<Entry>) {
    forall i: nat :: i < |q| ==> PairedAt(q, log, i)
  }

  ghost predicate PairedAt(q: seq<Message>, log: seq<Entry>, i: nat)
    requires i < |q|
  {
    q[i].Disconnected? && Failed(q[i].cause) ==>
      if i == 0 then FailureSeen(q[0].cause) in log else q[i - 1] == BackendFailure(q[i].cause)
  }

  /** New messages at the end keep the pairing if they are paired among themselves. */
  lemma AppendPaired(q: seq<Message>, more: seq<Message>, log: seq<Entry>)
    requires Paired(q, log)
    requires |more| <= 1 ==> NoFailures(more)
    requires |more| == 2 ==> more[0].BackendFailure? && more[1] == Disconnected(more[0].cause)
    requires |more| <= 2
    ensures Paired(q + more, log)
  {
    forall i: nat | i < |q + more| ensures PairedAt(q + more, log, i) {
      if i < |q| { assert PairedAt(q, log, i); }
    }
  }

  ghost predicate NoFailures(q: seq<Message>) {
    forall i :: 0 <= i < |q| && (q[i].Disconnected? || q[i].BackendFailure?) ==> !Failed(q[i].cause)
  }

  ghost predicate NoActivates(q: seq<Command>) {
    forall i :: 0 <= i < |q| ==> !q[i].Activate?
  }

  ghost predicate Wired(s: Link) {
    && (s.retryTimer ==> !s.socketOpen && s.readiness == Initializing)
    && (s.socketOpen ==> s.readiness != Unknown)
    && (!s.socketOpen ==> s.toDaemon == [] && s.toClient == [])
    && (s.readiness != Ready ==> NoActivates(s.toDaemon) && NoFailures(s.toClient))
    && (s.partialLine && s.socketOpen ==> s.readiness == Initializing)
    && Paired(s.toClient, s.log)
  }

  ghost predicate Inv(s: Link) { Remembered(s) && Wired(s) }

  // ---------------------------------------------------------------- preservation

  lemma NoteKeeps(s: Link, e: Entry)
    requires AllJustified(s.log) && Justified(s.log, e)
    ensures AllJustified(Note(s, e).log)
    ensures Paired(s.toClient, s.log) ==> Paired(s.toClient, Note(s, e).log)
    ensures forall n: nat :: SentBelow(s.log, n) && (e.Sent? ==> e.n < n) ==> SentBelow(Note(s, e).log, n)
  {
    hide Justified, OpenSend, LastDeferred, StillWanted, Armed;
    SnocJustified(s.log, e);
    forall i: nat | i < |s.toClient| && PairedAt(s.toClient, s.log, i)
      ensures PairedAt(s.toClient, Note(s, e).log, i) {}
  }

  lemma DisconnectKeeps(s: Link)
    requires Inv(s) && !(s.partialLine && s.socketOpen)
    ensures Inv(DisconnectInternal(s))
  {
    hide AllJustified, OpenSend, LastDeferred, StillWanted, Armed, Paired;
    SnocReadings(s.log, RetriesReset);
    NoteKeeps(s, RetriesReset);
    var t := s.(readiness := Ready, retries := 0, retryTimer := false);
    NoteKeeps(t, RetriesReset);
  }

  lemma ErrorKeeps(s: Link, cut: bool)
    requires Inv(s) && s.readiness != Unknown
    ensures Inv(ErrorOccurred(s, cut))
  {
    hide AllJustified, OpenSend, LastDeferred, StillWanted, Armed;
    var lost := s.(socketOpen := false, toDaemon := [], toClient := [], partialLine := s.partialLine || cut);
    if s.readiness == Initializing && s.retries < MAX_CONNECTION_RETRY {
      SnocReadings(s.log, RetryArmed);
      NoteKeeps(lost.(retries := s.retries + 1, retryTimer := true), RetryArmed);
    } else {
      DisconnectKeeps(lost);
    }
  }

  lemma SendKeeps(s: Link, n: nat, wasDeferred: bool)
    requires Inv(s) && s.readiness == Ready && s.socketOpen && SentBelow(s.log, n) && StillWanted(s.log, n)
    requires n < s.asked && (wasDeferred ==> s.pending == Some(n))
    ensures var t := SendPayload(s, n, wasDeferred);
            Inv(if wasDeferred then t.(pending := None) else t)
  {
    hide AllJustified, OpenSend, LastDeferred, StillWanted, Armed, Paired;
    var e := Sent(n, s.now, wasDeferred);
    SnocReadings(s.log, e);
    NoteKeeps(s, e);
  }

  lemma ActivateKeeps(s: Link)
    requires Inv(s)
    ensures Inv(RequestActivation(s))
  {
    hide AllJustified, OpenSend, LastDeferred, StillWanted, Armed, Paired;
    var n := s.asked;
    SnocReadings(s.log, Asked(n));
    var a := Note(s.(asked := n + 1), Asked(n));
    NoteKeeps(s, Asked(n));
    NoteKeeps(s.(asked := n + 1), Asked(n));
    assert SentBelow(s.log, n);
    assert Inv(a);
    if s.readiness != Ready || !s.socketOpen {
      SnocReadings(a.log, Deferred(n));
      NoteKeeps(a.(pending := Some(n)), Deferred(n));
    } else {
      SendKeeps(a, n, false);
    }
  }

  lemma DeactivateKeeps(s: Link)
    requires Inv(s)
    ensures Inv(RequestDeactivation(s))
  {
    hide AllJustified, OpenSend, LastDeferred, StillWanted, Armed, Paired;
    SnocReadings(s.log, Deactivated);
    NoteKeeps(s, Deactivated);
    NoteKeeps(s.(pending := None, inFlight := false, ignoredEarly := false), Deactivated);
  }

  /** Taking the front message off the queue: what follows a failure notice is its disconnected. */
  lemma PopPaired(q: seq<Message>, log: seq<Entry>, log': seq<Entry>)
    requires q != [] && Paired(q, log) && (forall x :: x in log ==> x in log')
    requires q[0].BackendFailure? ==> FailureSeen(q[0].cause) in log'
    ensures Paired(q[1..], log')
  {
    forall i: nat | i < |q| - 1 ensures PairedAt(q[1..], log', i) {
      assert PairedAt(q, log, i + 1);
    }
  }

  lemma ReceiveKeeps(s: Link)
    requires Inv(s) && s.socketOpen && s.toClient != []
    ensures Inv(ReadLine(s))
  {
    hide AllJustified, OpenSend, LastDeferred, StillWanted, Armed, Paired, Receive;
    var m := s.toClient[0];
    if s.partialLine {
      PopNoFailures(s.toClient);
      NoFailuresPaired(s.toClient[1..], s.log);
    } else if s.readiness != Ready {
      EarlyReceiveKeeps(s);
    } else if m.Disconnected? {
      DisconnectedKeeps(s);
    } else {
      ReadyReceiveKeeps(s);
    }
  }

  lemma EarlyReceiveKeeps(s: Link)
    requires Inv(s) && s.socketOpen && s.toClient != [] && s.readiness != Ready && !s.partialLine
    ensures Inv(Receive(s.(toClient := s.toClient[1..]), s.toClient[0]))
  {
    hide AllJustified, OpenSend, LastDeferred, StillWanted, Armed, Paired;
    var m := s.toClient[0];
    var p := s.(toClient := s.toClient[1..]);
    PopNoFailures(s.toClient);
    NoFailuresPaired(s.toClient[1..], s.log);
    assert Inv(p);
    if m.Status? {
      assert Inv(p.(readiness := Ready));
      if m.wellFormed && p.pending.Some? { SendKeeps(p.(readiness := Ready), p.pending.value, true); }
    } else if m.Disconnected? {
      SnocReadings(p.log, Unexpected(m.cause));
      NoteKeeps(p, Unexpected(m.cause));
    }
  }

  lemma PopNoFailures(q: seq<Message>)
    requires q != [] && NoFailures(q)
    ensures NoFailures(q[1..])
  {}

  lemma NoFailuresPaired(q: seq<Message>, log: seq<Entry>)
    requires NoFailures(q)
    ensures Paired(q, log)
  {}

  lemma HeadPaired(q: seq<Message>, log: seq<Entry>)
    requires q != [] && Paired(q, log) && q[0].Disconnected? && Failed(q[0].cause)
    ensures FailureSeen(q[0].cause) in log
  {
    assert PairedAt(q, log, 0);
  }

  lemma DisconnectedKeeps(s: Link)
    requires Inv(s) && s.socketOpen && s.toClient != [] && s.readiness == Ready && s.toClient[0].Disconnected?
    ensures Inv(Receive(s.(toClient := s.toClient[1..]), s.toClient[0]))
  {
    hide AllJustified, OpenSend, LastDeferred, StillWanted, Armed, Paired;
    var cause := s.toClient[0].cause;
    var p := s.(toClient := s.toClient[1..]);
    if Failed(cause) { HeadPaired(s.toClient, s.log); }
    PopPaired(s.toClient, s.log, s.log);
    assert Inv(p);
    if TooEarly(p) {
      SnocReadings(p.log, Swallowed(cause, p.now));
      NoteKeeps(p.(ignoredEarly := true), Swallowed(cause, p.now));
    } else {
      DisconnectKeeps(p.(inFlight := false));
      var d := DisconnectInternal(p.(inFlight := false));
      SnocReadings(d.log, Surfaced(cause));
      NoteKeeps(d, Surfaced(cause));
    }
  }

  lemma ReadyReceiveKeeps(s: Link)
    requires Inv(s) && s.socketOpen && s.toClient != [] && s.readiness == Ready && !s.toClient[0].Disconnected?
    ensures Inv(Receive(s.(toClient := s.toClient[1..]), s.toClient[0]))
  {
    hide AllJustified, OpenSend, LastDeferred, StillWanted, Armed, Paired;
    var m := s.toClient[0];
    var p := s.(toClient := s.toClient[1..]);
    match m
    case BackendFailure(cause) =>
      var e := FailureSeen(cause);
      SnocReadings(p.log, e);
      NoteKeeps(p.(inFlight := false), e);
      PopPaired(s.toClient, s.log, s.log + [e]);
    case Connected(_) =>
      SnocReadings(p.log, ConnectedSeen);
      NoteKeeps(p.(inFlight := false, ignoredEarly := false), ConnectedSeen);
      PopPaired(s.toClient, s.log, s.log + [ConnectedSeen]);
    case _ =>
      PopPaired(s.toClient, s.log, s.log);
  }

  lemma AnswerKeeps(s: Link, ok: bool)
    requires Inv(s) && s.socketOpen && s.toDaemon != []
    ensures Inv(Step(s, DaemonReads(ok)))
  {
    AppendPaired(s.toClient, Answer(s.toDaemon[0], ok), s.log);
  }

  lemma SpeakKeeps(s: Link, m: Message)
    requires Inv(s) && Enabled(s, DaemonSpeaks(m))
    ensures Inv(Step(s, DaemonSpeaks(m)))
  {
    AppendPaired(s.toClient, [m], s.log);
  }

  lemma InitializeKeeps(s: Link)
    requires Inv(s) && s.readiness == Unknown
    ensures Inv(Step(s, Initialize))
  {
    hide AllJustified, OpenSend, LastDeferred, StillWanted, Armed, Paired;
    SnocReadings(s.log, RetriesReset);
    NoteKeeps(s, RetriesReset);
  }

  lemma StepKeepsInv(s: Link, e: Event)
    requires Inv(s) && Enabled(s, e)
    ensures Inv(Step(s, e))
  {
    hide AllJustified, OpenSend, LastDeferred, StillWanted, Armed, Paired, ErrorOccurred,
         RequestActivation, RequestDeactivation, ReadLine;
    match e
    case Initialize => InitializeKeeps(s);
    case SocketFails(cut) => ErrorKeeps(s, cut);
    case ClientActivates => ActivateKeeps(s);
    case ClientDeactivates => DeactivateKeeps(s);
    case ClientReads => ReceiveKeeps(s);
    case DaemonReads(ok) => AnswerKeeps(s, ok);
    case DaemonSpeaks(m) => SpeakKeeps(s, m);
    case _ =>
  }

  lemma {:induction false} RunKeepsInv(s: Link, es: seq<Event>)
    requires Inv(s) && Runs(s, es)
    ensures Inv(After(s, es))
    decreases |es|
  {
    hide Inv;
    if es != [] {
      StepKeepsInv(s, es[0]);
      RunKeepsInv(Step(s, es[0]), es[1..]);
    }
  }

  // ---------------------------------------------------------------- theorems

  ghost predicate Reachable(s: Link) {
    exists es :: Runs(INITIAL, es) && After(INITIAL, es) == s
  }

  lemma ReachableKeepsInv(s: Link)
    requires Reachable(s)
    ensures Inv(s)
  {
    var es :| Runs(INITIAL, es) && After(INITIAL, es) == s;
    RunKeepsInv(INITIAL, es);
  }

  /** An open payload is a Sent entry with nothing that closes it after it. */
  lemma {:induction false} OpenSendIndex(log: seq<Entry>) returns (k: nat)
    requires OpenSend(log).Some?
    ensures k < |log| && log[k].Sent? && log[k].at == OpenSend(log).value
    ensures forall i :: k < i < |log| ==> !log[i].Swallowed? && !log[i].FailureSeen? && !log[i].Surfaced?
                                          && !log[i].ConnectedSeen? && !log[i].Deactivated?
  {
    var n := |log| - 1;
    if log[n].Sent? { k := n; }
    else {
      k := OpenSendIndex(log[..n]);
      forall i | k < i < |log|
        ensures !log[i].Swallowed? && !log[i].FailureSeen? && !log[i].Surfaced?
                && !log[i].ConnectedSeen? && !log[i].Deactivated?
      {
        if i < n { assert log[..n][i] == log[i]; }
      }
    }
  }

  ghost predicate SentBetween(log: seq<Entry>, i: int, j: int) {
    exists k :: 0 <= k < |log| && i < k < j && log[k].Sent?
  }

  /** Every ignored disconnected message lies within 1500 ms of a payload that precedes it, and
      two ignored ones always have a payload between them: at most one per activate payload. */
  lemma OneSwallowPerPayload(s: Link, j: nat)
    requires Reachable(s) && j < |s.log| && s.log[j].Swallowed?
    ensures exists k :: 0 <= k < j && s.log[k].Sent? && s.log[j].at - s.log[k].at < 1500
                        && forall i :: 0 <= i < j && s.log[i].Swallowed? ==> i < k
  {
    ReachableKeepsInv(s);
    assert Justified(s.log[..j], s.log[j]);
    var k := OpenSendIndex(s.log[..j]);
    assert s.log[..j][k] == s.log[k];
    forall i | 0 <= i < j && s.log[i].Swallowed? ensures i < k { assert s.log[..j][i] == s.log[i]; }
  }

  /** A disconnected message that belongs to a failed activation is ignored only if another
      payload was sent after its backendFailure was read; and it is never dropped as unexpected. */
  lemma FailureSwallowedOnlyAfterResend(s: Link, j: nat)
    requires Reachable(s) && j < |s.log|
    ensures s.log[j].Swallowed? && Failed(s.log[j].cause) ==>
              exists i :: 0 <= i < j && s.log[i] == FailureSeen(s.log[j].cause) && SentBetween(s.log, i, j)
    ensures s.log[j].Unexpected? ==> !Failed(s.log[j].cause)
  {
    ReachableKeepsInv(s);
    assert Justified(s.log[..j], s.log[j]);
    if s.log[j].Swallowed? && Failed(s.log[j].cause) {
      var i :| 0 <= i < j && s.log[..j][i] == FailureSeen(s.log[j].cause);
      var k := OpenSendIndex(s.log[..j]);
      assert s.log[..j][k] == s.log[k] && i < k;
      assert SentBetween(s.log, i, j);
    }
  }

  /** The daemon fails an activate by writing backendFailure and then disconnected.  When the
      client gets to that disconnected it has read the backendFailure, and unless it sent a new
      payload in between it passes the disconnected on, however early it is. */
  lemma FailedActivationIsSurfaced(s: Link)
    requires Reachable(s) && Enabled(s, ClientReads)
    requires s.toClient[0].Disconnected? && Failed(s.toClient[0].cause)
    ensures FailureSeen(s.toClient[0].cause) in s.log
    ensures forall i :: 0 <= i < |s.log| && s.log[i] == FailureSeen(s.toClient[0].cause)
                        && !SentBetween(s.log, i, |s.log|) ==>
              Step(s, ClientReads).log == s.log + [RetriesReset] + [Surfaced(s.toClient[0].cause)]
  {
    ReachableKeepsInv(s);
    HeadPaired(s.toClient, s.log);
    var cause := s.toClient[0].cause;
    if i :| 0 <= i < |s.log| && s.log[i] == FailureSeen(cause) && !SentBetween(s.log, i, |s.log|) {
      if TooEarly(s) {
        var k := OpenSendIndex(s.log);
        assert SentBetween(s.log, i, |s.log|);
      }
    }
  }

  lemma {:induction false} StillWantedIndex(log: seq<Entry>, n: nat) returns (k: nat)
    requires StillWanted(log, n)
    ensures k < |log| && log[k] == Asked(n) && forall i :: k < i < |log| ==> log[i] != Deactivated
  {
    var m := |log| - 1;
    if log[m] == Asked(n) { k := m; }
    else {
      k := StillWantedIndex(log[..m], n);
      forall i | k < i < |log| ensures log[i] != Deactivated {
        if i < m { assert log[..m][i] == log[i]; }
      }
    }
  }

  /** Payloads go out in the order of their requests, each at most once; each was asked for, and
      no deactivate lies between the asking and the sending. */
  lemma ActivationSentOnceInOrder(s: Link, i: nat, j: nat)
    requires Reachable(s) && i < j < |s.log| && s.log[j].Sent?
    ensures s.log[i].Sent? ==> s.log[i].n < s.log[j].n
    ensures exists k :: 0 <= k < j && s.log[k] == Asked(s.log[j].n)
                        && forall d :: k < d < j ==> s.log[d] != Deactivated
  {
    ReachableKeepsInv(s);
    assert Justified(s.log[..j], s.log[j]);
    if s.log[i].Sent? { assert s.log[..j][i] == s.log[i]; }
    var k := StillWantedIndex(s.log[..j], s.log[j].n);
    assert s.log[..j][k] == s.log[k];
    forall d | k < d < j ensures s.log[d] != Deactivated { assert s.log[..j][d] == s.log[d]; }
  }

  /** The pending slot is the latest deferred request that was neither sent nor cancelled. */
  lemma PendingIsLatestDeferred(s: Link)
    requires Reachable(s)
    ensures s.pending == LastDeferred(s.log)
    ensures s.pending.Some? ==> StillWanted(s.log, s.pending.value)
  {
    ReachableKeepsInv(s);
  }

  /** Between two resets of the counter the retry timer is started at most ten times. */
  lemma RetriesAreBounded(s: Link, n: nat)
    requires Reachable(s) && n <= |s.log|
    ensures Armed(s.log[..n]) <= 10
  {
    ReachableKeepsInv(s);
    if n < |s.log| { ArmedBound(s.log, n); } else { assert s.log[..n] == s.log; }
  }

  lemma {:induction false} ArmedBound(log: seq<Entry>, n: nat)
    requires AllJustified(log) && n <= |log|
    ensures Armed(log[..n]) <= 10
  {
    if n > 0 {
      ArmedBound(log, n - 1);
      assert log[..n][..n - 1] == log[..n - 1];
      assert Justified(log[..n - 1], log[n - 1]);
    }
  }

  // ---------------------------------------------------------------- a closed socket is final

  ghost predicate Dead(s: Link) { Inv(s) && s.readiness == Ready && !s.socketOpen }

  lemma DeadStep(s: Link, e: Event)
    requires Dead(s) && Enabled(s, e)
    ensures Dead(Step(s, e)) && NothingSent(s, Step(s, e))
  {
    hide Remembered, Paired, NoFailures, NoActivates;
    StepKeepsInv(s, e);
  }

  ghost predicate NothingSent(s: Link, t: Link) {
    s.log <= t.log && forall i :: |s.log| <= i < |t.log| ==> !t.log[i].Sent?
  }

  /** Once the client is ready and its socket is lost it stays ready without a socket: nothing
      reconnects it, so every later activation is deferred and none is ever sent. */
  lemma {:induction false} LostSocketIsFinal(s: Link, es: seq<Event>)
    requires Dead(s) && Runs(s, es)
    ensures Dead(After(s, es)) && NothingSent(s, After(s, es))
    decreases |es|
  {
    hide Inv;
    if es != [] {
      DeadStep(s, es[0]);
      LostSocketIsFinal(Step(s, es[0]), es[1..]);
    }
  }

  /** A socket error kills a ready client for good, whatever it had pending. */
  lemma SocketErrorIsFinal(s: Link, cut: bool, es: seq<Event>)
    requires Reachable(s) && s.readiness == Ready && Runs(s, [SocketFails(cut)] + es)
    ensures NothingSent(ErrorOccurred(s, cut), After(s, [SocketFails(cut)] + es))
  {
    ReachableKeepsInv(s);
    StepKeepsInv(s, SocketFails(cut));
    assert ([SocketFails(cut)] + es)[1..] == es;
    LostSocketIsFinal(ErrorOccurred(s, cut), es);
  }

  // ---------------------------------------------------------------- a partial line costs a message

  /** Connected but not ready, and no status answer is on its way or being asked for. */
  ghost predicate Stalled(s: Link) {
    && Inv(s) && s.readiness == Initializing && s.socketOpen && s.toDaemon == []
    && forall i :: 0 <= i < |s.toClient| ==> !s.toClient[i].Status?
  }

  lemma StalledStep(s: Link, e: Event)
    requires Stalled(s) && Enabled(s, e) && !e.ClientPolls? && !e.SocketFails?
    ensures Stalled(Step(s, e)) && NothingSent(s, Step(s, e))
  {
    hide Remembered, Paired, NoFailures, NoActivates;
    StepKeepsInv(s, e);
  }

  /** A stalled client sends nothing, however often it is asked, until someone polls the status
      or the socket is lost once more. */
  lemma {:induction false} StalledRun(s: Link, es: seq<Event>)
    requires Stalled(s) && Runs(s, es) && forall e :: e in es ==> !e.ClientPolls? && !e.SocketFails?
    ensures Stalled(After(s, es)) && NothingSent(s, After(s, es))
    decreases |es|
  {
    hide Inv;
    if es != [] {
      assert es[0] in es;
      StalledStep(s, es[0]);
      assert forall e :: e in es[1..] ==> e in es;
      StalledRun(Step(s, es[0]), es[1..]);
    }
  }

  /** A status answer makes a connected, initializing client ready if and only if no part of a
      line was left in its buffer when an earlier socket was lost; otherwise, with nothing else
      under way, the client is stalled. */
  lemma PartialLineLosesStatus(s: Link)
    requires Reachable(s) && Enabled(s, ClientReads) && s.readiness == Initializing && s.toClient[0].Status?
    ensures Step(s, ClientReads).readiness == Ready <==> !s.partialLine
    ensures s.partialLine && s.toDaemon == [] && |s.toClient| == 1 ==> Stalled(Step(s, ClientReads))
  {
    ReachableKeepsInv(s);
    StepKeepsInv(s, ClientReads);
  }

  lemma {:induction false} Advance(z: Link, es: seq<Event>, e: Event)
    requires Runs(z, es) && Enabled(After(z, es), e)
    ensures Runs(z, es + [e]) && After(z, es + [e]) == Step(After(z, es), e)
    decreases |es|
  {
    hide Step, Enabled;
    if es == [] {
      assert [] + [e] == [e] && [e][1..] == [];
      assert Runs(Step(z, e), []);
    } else {
      assert (es + [e])[0] == es[0] && (es + [e])[1..] == es[1..] + [e];
      Advance(Step(z, es[0]), es[1..], e);
    }
  }

  const FIRST_TRY := [ClientActivates, Initialize, SocketConnects, DaemonReads(true)]

  const SECOND_TRY := [RetryTimerFires, SocketConnects, DaemonReads(true), ClientReads]

  lemma FirstTry()
    ensures Runs(INITIAL, FIRST_TRY)
    ensures var t := After(INITIAL, FIRST_TRY);
            && t == INITIAL.(readiness := Initializing, socketOpen := true, pending := Some(0), asked := 1,
                             toClient := [Status(true)], log := t.log)
  {
    assert Runs(INITIAL, []) && After(INITIAL, []) == INITIAL;
    hide Runs, After;
    Advance(INITIAL, [], ClientActivates);
    Advance(INITIAL, [] + [ClientActivates], Initialize);
    Advance(INITIAL, [] + [ClientActivates] + [Initialize], SocketConnects);
    Advance(INITIAL, [] + [ClientActivates] + [Initialize] + [SocketConnects], DaemonReads(true));
    assert [] + [ClientActivates] + [Initialize] + [SocketConnects] + [DaemonReads(true)] == FIRST_TRY;
  }

  /** The first socket is lost in the middle of the status answer; the answer on the second one
      ends up behind that half line, and the activation stays pending. */
  lemma StalledWitness()
    ensures var es := FIRST_TRY + [SocketFails(true)] + SECOND_TRY;
            && Runs(INITIAL, es)
            && var t := After(INITIAL, es);
               t.readiness == Initializing && t.socketOpen && t.toDaemon == [] && t.toClient == []
               && t.pending == Some(0)
  {
    hide Runs, After;
    FirstTry();
    var es := FIRST_TRY + [SocketFails(true)];
    Advance(INITIAL, FIRST_TRY, SocketFails(true));
    Advance(INITIAL, es, RetryTimerFires);
    Advance(INITIAL, es + [RetryTimerFires], SocketConnects);
    Advance(INITIAL, es + [RetryTimerFires] + [SocketConnects], DaemonReads(true));
    Advance(INITIAL, es + [RetryTimerFires] + [SocketConnects] + [DaemonReads(true)], ClientReads);
    assert es + [RetryTimerFires] + [SocketConnects] + [DaemonReads(true)] + [ClientReads] == es + SECOND_TRY;
  }

  lemma InitialInv()
    ensures Inv(INITIAL)
  {}

  /** A ready client loses its socket: a state in which nothing will be sent any more. */
  lemma LostSocketWitness()
    ensures var es := FIRST_TRY + [ClientReads] + [SocketFails(false)];
            Runs(INITIAL, es) && Dead(After(INITIAL, es))
  {
    InitialInv();
    hide Runs, After, Inv;
    FirstTry();
    Advance(INITIAL, FIRST_TRY, ClientReads);
    Advance(INITIAL, FIRST_TRY + [ClientReads], SocketFails(false));
    RunKeepsInv(INITIAL, FIRST_TRY + [ClientReads] + [SocketFails(false)]);
  }
}
