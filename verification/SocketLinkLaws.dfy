/** What each end of the local socket does at a step, and that what the history calls sent is
    what went over the wire. */
module SocketLinkLaws {
  import opened Basics
  import opened SocketLink
  import opened SocketLinkProofs

  // ---------------------------------------------------------------- the wire and the history

  /** The numbers of the Activate commands among some commands, in order. */
  function Activations(cs: seq<Command>): seq<nat> {
    if cs == [] then []
    else Activations(cs[..|cs| - 1]) + if cs[|cs| - 1].Activate? then [cs[|cs| - 1].n] else []
  }

  /** The numbers of the Sent entries of a history, in order. */
  function SentNumbers(log: seq<Entry>): seq<nat> {
    if log == [] then []
    else SentNumbers(log[..|log| - 1]) + if log[|log| - 1].Sent? then [log[|log| - 1].n] else []
  }

  lemma {:induction false} ActivationsConcat(a: seq<Command>, b: seq<Command>)
    ensures Activations(a + b) == Activations(a) + Activations(b)
    decreases |b|
  {
    if b == [] { assert a + b == a; }
    else {
      assert (a + b)[..|a + b| - 1] == a + b[..|b| - 1];
      ActivationsConcat(a, b[..|b| - 1]);
    }
  }

  lemma {:induction false} SentConcat(a: seq<Entry>, b: seq<Entry>)
    ensures SentNumbers(a + b) == SentNumbers(a) + SentNumbers(b)
    decreases |b|
  {
    if b == [] { assert a + b == a; }
    else {
      assert (a + b)[..|a + b| - 1] == a + b[..|b| - 1];
      SentConcat(a, b[..|b| - 1]);
    }
  }

  /** The commands that leave the channel in a step: the daemon reads the first one, a lost
      socket takes them all. */
  function Leaving(s: Link, e: Event): seq<Command>
    requires Enabled(s, e)
  {
    match e
    case DaemonReads(_) => [s.toDaemon[0]]
    case SocketFails(_) => s.toDaemon
    case _ => []
  }

  /** The commands that have left the channel in a run, read or lost. */
  ghost function Left(s: Link, es: seq<Event>): seq<Command>
    requires Runs(s, es)
    decreases |es|
  {
    if es == [] then [] else Leaving(s, es[0]) + Left(Step(s, es[0]), es[1..])
  }

  /** One step: what is added to the channel and what is added to the history agree on activations. */
  ghost predicate InStep(s: Link, leaving: seq<Command>, t: Link) {
    && s.log <= t.log
    && Activations(s.toDaemon) + SentNumbers(t.log[|s.log|..]) == Activations(leaving + t.toDaemon)
  }

  /** Only entries that are no payloads, only commands that are no activations. */
  lemma QuietInStep(s: Link, t: Link, cs: seq<Command>, more: seq<Entry>)
    requires t.toDaemon == s.toDaemon + cs && t.log == s.log + more
    requires Activations(cs) == SentNumbers(more)
    ensures InStep(s, [], t)
  {
    ActivationsConcat(s.toDaemon, cs);
    assert t.log[|s.log|..] == more;
    assert [] + t.toDaemon == t.toDaemon;
  }

  lemma OneReading(c: Command, e: Entry)
    ensures Activations([c]) == (if c.Activate? then [c.n] else []) && Activations([]) == []
    ensures SentNumbers([e]) == (if e.Sent? then [e.n] else []) && SentNumbers([]) == []
  {
    assert [c][..0] == [] && [e][..0] == [];
  }

  // ---------------------------------------------------------------- step by step

  /** A request is put on the wire exactly when the client is ready and the socket open, in which
      case it starts an in-flight activation; otherwise it becomes the pending one. */
  lemma ActivateLaw(s: Link)
    ensures var t, n := Step(s, ClientActivates), s.asked;
            if s.readiness == Ready && s.socketOpen then
              && t.toDaemon == s.toDaemon + [Activate(n)] && t.log == s.log + [Asked(n), Sent(n, s.now, false)]
              && t == s.(asked := n + 1, toDaemon := t.toDaemon, log := t.log, inFlight := true, ignoredEarly := false,
                         lastSentAt := Some(s.now))
            else
              && t.toDaemon == s.toDaemon && t.log == s.log + [Asked(n), Deferred(n)]
              && t == s.(asked := n + 1, log := t.log, pending := Some(n))
  {}

  /** The first status answer makes the client ready; if it is well formed the pending request is
      put on the wire then and the slot emptied. */
  lemma FirstStatusLaw(s: Link)
    requires Enabled(s, ClientReads) && s.readiness == Initializing && s.toClient[0].Status? && !s.partialLine
    ensures var t := Step(s, ClientReads);
            && t.readiness == Ready && t.toClient == s.toClient[1..]
            && if s.toClient[0].wellFormed && s.pending.Some? then
                 && t.toDaemon == s.toDaemon + [Activate(s.pending.value)] && t.pending == None
                 && t.log == s.log + [Sent(s.pending.value, s.now, true)]
                 && t.inFlight && !t.ignoredEarly && t.lastSentAt == Some(s.now)
               else t == s.(readiness := Ready, toClient := t.toClient)
  {}

  /** A deactivation cancels the pending request and the in-flight state, and reaches the wire
      exactly from a ready client with an open socket. */
  lemma DeactivateLaw(s: Link)
    ensures var t := Step(s, ClientDeactivates);
            && t.pending == None && !t.inFlight && !t.ignoredEarly && t.log == s.log + [Deactivated]
            && t.toDaemon == (if s.readiness == Ready && s.socketOpen then s.toDaemon + [Deactivate] else s.toDaemon)
            && t == s.(pending := None, inFlight := false, ignoredEarly := false, log := t.log, toDaemon := t.toDaemon)
  {}

  /** The disconnected message at a ready client: ignored once per payload within 1500 ms of it
      while no connected or failure has been read since, passed on otherwise. */
  lemma DisconnectedLaw(s: Link)
    requires Inv(s) && Enabled(s, ClientReads) && s.readiness == Ready && s.toClient[0].Disconnected?
    ensures var t, cause := Step(s, ClientReads), s.toClient[0].cause;
            && t.toClient == s.toClient[1..] && t.toDaemon == s.toDaemon
            && if s.inFlight && !s.ignoredEarly && s.lastSentAt.Some? && s.now - s.lastSentAt.value < 1500 then
                 && t.log == s.log + [Swallowed(cause, s.now)]
                 && t == s.(toClient := t.toClient, ignoredEarly := true, log := t.log)
               else
                 && t.log == s.log + [RetriesReset] + [Surfaced(cause)]
                 && t == s.(toClient := t.toClient, inFlight := false, readiness := Ready, retries := 0,
                            retryTimer := false, log := t.log)
  {}

  /** The other messages: connected and backendFailure end the in-flight activation, a well-formed
      connected asks for the status, and what comes before the client is ready is dropped. */
  lemma MessageLaw(s: Link)
    requires Enabled(s, ClientReads) && !s.partialLine && !s.toClient[0].Disconnected?
    requires !(s.readiness == Initializing && s.toClient[0].Status?)
    ensures var t, m := Step(s, ClientReads), s.toClient[0];
            var p := s.(toClient := s.toClient[1..]);
            if s.readiness == Ready && m.Connected? then
              t == p.(inFlight := false, ignoredEarly := false, log := s.log + [ConnectedSeen],
                      toDaemon := if m.wellFormed then s.toDaemon + [StatusQuery] else s.toDaemon)
            else if s.readiness == Ready && m.BackendFailure? then
              t == p.(inFlight := false, log := s.log + [FailureSeen(m.cause)])
            else t == p
  {}

  /** A half line left over from an earlier socket costs the first message behind it and no other. */
  lemma HalfLineLaw(s: Link)
    requires Enabled(s, ClientReads) && s.partialLine
    ensures Step(s, ClientReads) == s.(toClient := s.toClient[1..], partialLine := false)
  {}

  /** The daemon's answers: a failed activation is backendFailure and then disconnected, a
      successful one says nothing at once; a successful deactivation is disconnected; a status
      query is always answered. */
  lemma DaemonLaw(s: Link, ok: bool)
    requires Enabled(s, DaemonReads(ok))
    ensures var t := Step(s, DaemonReads(ok));
            && t.toDaemon == s.toDaemon[1..]
            && t.toClient == s.toClient +
                 (match s.toDaemon[0]
                  case Activate(n) =>
                    if ok then [] else [BackendFailure(FailedActivation(n)), Disconnected(FailedActivation(n))]
                  case Deactivate => if ok then [Disconnected(Elsewhere)] else []
                  case StatusQuery => [Status(ok)])
            && t == s.(toDaemon := t.toDaemon, toClient := t.toClient)
  {}

  /** What the daemon says unasked goes behind what it has said before. */
  lemma SpeakLaw(s: Link, m: Message)
    requires Enabled(s, DaemonSpeaks(m))
    ensures Step(s, DaemonSpeaks(m)) == s.(toClient := s.toClient + [m])
  {}

  /** Connecting asks for the status; polling does once initialization has begun; both only over
      an open socket. */
  lemma StatusLaw(s: Link)
    ensures Enabled(s, SocketConnects) ==>
              Step(s, SocketConnects) == s.(socketOpen := true, toDaemon := s.toDaemon + [StatusQuery])
    ensures Step(s, ClientPolls) ==
              if s.readiness != Unknown && s.socketOpen then s.(toDaemon := s.toDaemon + [StatusQuery]) else s
    ensures Enabled(s, RetryTimerFires) ==>
              Step(s, RetryTimerFires) == s.(readiness := Initializing, retryTimer := false)
    ensures Enabled(s, Initialize) ==>
              Step(s, Initialize) == s.(readiness := Initializing, retries := 0, log := s.log + [RetriesReset])
  {}

  /** A socket error: while initializing, up to ten retries are timed; afterwards, and in any
      other state, the client is ready without a socket. */
  lemma SocketErrorLaw(s: Link, cut: bool)
    requires Enabled(s, SocketFails(cut))
    ensures var t := Step(s, SocketFails(cut));
            && !t.socketOpen && t.toDaemon == [] && t.toClient == [] && t.partialLine == (s.partialLine || cut)
            && t.pending == s.pending && t.inFlight == s.inFlight
            && if s.readiness == Initializing && s.retries < 10 then
                 && t.readiness == Initializing && t.retries == s.retries + 1 && t.retryTimer
                 && t.log == s.log + [RetryArmed]
               else t.readiness == Ready && t.retries == 0 && !t.retryTimer && t.log == s.log + [RetriesReset]
  {}

  lemma TwoReadings(c: Entry, e: Entry)
    ensures SentNumbers([c, e]) == SentNumbers([c]) + SentNumbers([e])
  {
    assert [c, e] == [c] + [e];
    SentConcat([c], [e]);
  }

  lemma ReadInStep(s: Link)
    requires Inv(s) && Enabled(s, ClientReads)
    ensures InStep(s, [], Step(s, ClientReads))
  {
    hide InStep, Receive;
    var t, m := Step(s, ClientReads), s.toClient[0];
    var none: seq<Command> := [];
    assert s.toDaemon + none == s.toDaemon && s.log + [] == s.log;
    OneReading(StatusQuery, ConnectedSeen);
    if s.partialLine { QuietInStep(s, t, [], []); }
    else if m.Disconnected? { DisconnectedInStep(s); }
    else if s.readiness == Initializing && m.Status? { StatusInStep(s); }
    else {
      MessageLaw(s);
      if s.readiness == Ready && m.Connected? {
        QuietInStep(s, t, if m.wellFormed then [StatusQuery] else [], [ConnectedSeen]);
      } else if s.readiness == Ready && m.BackendFailure? {
        OneReading(StatusQuery, FailureSeen(m.cause));
        QuietInStep(s, t, [], [FailureSeen(m.cause)]);
      } else {
        QuietInStep(s, t, [], []);
      }
    }
  }

  lemma DisconnectedInStep(s: Link)
    requires Inv(s) && Enabled(s, ClientReads) && s.toClient[0].Disconnected? && !s.partialLine
    ensures InStep(s, [], Step(s, ClientReads))
  {
    hide InStep;
    var t, cause := Step(s, ClientReads), s.toClient[0].cause;
    assert s.toDaemon + [] == s.toDaemon;
    OneReading(StatusQuery, Surfaced(cause));
    OneReading(StatusQuery, RetriesReset);
    OneReading(StatusQuery, Swallowed(cause, s.now));
    OneReading(StatusQuery, Unexpected(cause));
    TwoReadings(RetriesReset, Surfaced(cause));
    if s.readiness != Ready {
      QuietInStep(s, t, [], [Unexpected(cause)]);
    } else {
      DisconnectedLaw(s);
      assert s.log + [RetriesReset] + [Surfaced(cause)] == s.log + [RetriesReset, Surfaced(cause)];
      if s.inFlight && !s.ignoredEarly && s.lastSentAt.Some? && s.now - s.lastSentAt.value < 1500 {
        QuietInStep(s, t, [], [Swallowed(cause, s.now)]);
      } else {
        QuietInStep(s, t, [], [RetriesReset, Surfaced(cause)]);
      }
    }
  }

  lemma StatusInStep(s: Link)
    requires Inv(s) && Enabled(s, ClientReads) && s.readiness == Initializing && s.toClient[0].Status?
    requires !s.partialLine
    ensures InStep(s, [], Step(s, ClientReads))
  {
    hide InStep;
    var t := Step(s, ClientReads);
    FirstStatusLaw(s);
    assert s.toDaemon + [] == s.toDaemon && s.log + [] == s.log;
    OneReading(StatusQuery, RetriesReset);
    if s.toClient[0].wellFormed && s.pending.Some? {
      var n := s.pending.value;
      OneReading(Activate(n), Sent(n, s.now, true));
      QuietInStep(s, t, [Activate(n)], [Sent(n, s.now, true)]);
    } else {
      QuietInStep(s, t, [], []);
    }
  }

  lemma AskInStep(s: Link)
    ensures InStep(s, [], Step(s, ClientActivates)) && InStep(s, [], Step(s, ClientDeactivates))
  {
    hide InStep, RequestActivation, RequestDeactivation;
    var n := s.asked;
    ActivateLaw(s);
    DeactivateLaw(s);
    assert s.toDaemon + [] == s.toDaemon;
    OneReading(Activate(n), Sent(n, s.now, false));
    OneReading(Deactivate, Asked(n));
    OneReading(Deactivate, Deferred(n));
    OneReading(Deactivate, Deactivated);
    TwoReadings(Asked(n), Sent(n, s.now, false));
    TwoReadings(Asked(n), Deferred(n));
    if s.readiness == Ready && s.socketOpen {
      QuietInStep(s, Step(s, ClientActivates), [Activate(n)], [Asked(n), Sent(n, s.now, false)]);
      QuietInStep(s, Step(s, ClientDeactivates), [Deactivate], [Deactivated]);
    } else {
      QuietInStep(s, Step(s, ClientActivates), [], [Asked(n), Deferred(n)]);
      QuietInStep(s, Step(s, ClientDeactivates), [], [Deactivated]);
    }
  }

  lemma LeavingInStep(s: Link, e: Event)
    requires Enabled(s, e) && (e.DaemonReads? || e.SocketFails?)
    ensures InStep(s, Leaving(s, e), Step(s, e))
  {
    var t := Step(s, e);
    OneReading(StatusQuery, RetryArmed);
    OneReading(StatusQuery, RetriesReset);
    if e.DaemonReads? {
      assert Leaving(s, e) + t.toDaemon == s.toDaemon;
      assert t.log[|s.log|..] == [];
    } else {
      SocketErrorLaw(s, e.cut);
      assert s.toDaemon + [] == s.toDaemon;
      assert t.log[|s.log|..] == [t.log[|s.log|]];
    }
  }

  lemma StepInStep(s: Link, e: Event)
    requires Inv(s) && Enabled(s, e)
    ensures InStep(s, Leaving(s, e), Step(s, e))
  {
    hide InStep, Receive, ErrorOccurred, RequestActivation, RequestDeactivation, Answer, ReadLine;
    var t := Step(s, e);
    assert s.toDaemon + [] == s.toDaemon && s.log + [] == s.log;
    OneReading(StatusQuery, RetriesReset);
    if e.DaemonReads? || e.SocketFails? { LeavingInStep(s, e); }
    else if e.ClientReads? { ReadInStep(s); }
    else if e.ClientActivates? || e.ClientDeactivates? { AskInStep(s); }
    else if e.Initialize? { QuietInStep(s, t, [], [RetriesReset]); }
    else if e.SocketConnects? || (e.ClientPolls? && s.readiness != Unknown && s.socketOpen) {
      StatusLaw(s);
      QuietInStep(s, t, [StatusQuery], []);
    } else { QuietInStep(s, t, [], []); }
  }

  lemma Regroup(a: seq<nat>, b: seq<nat>, c: seq<nat>)
    ensures a + (b + c) == (a + b) + c
  {}

  lemma InStepTwice(s: Link, a: seq<Command>, t: Link, b: seq<Command>, u: Link)
    requires InStep(s, a, t) && InStep(t, b, u)
    ensures InStep(s, a + b, u)
  {
    hide Activations, SentNumbers;
    var m, n := t.log[|s.log|..], u.log[|t.log|..];
    assert u.log[|s.log|..] == m + n;
    assert (a + b) + u.toDaemon == a + (b + u.toDaemon);
    SentConcat(m, n);
    ActivationsConcat(a, t.toDaemon);
    ActivationsConcat(a, b + u.toDaemon);
    Regroup(Activations(s.toDaemon), SentNumbers(m), SentNumbers(n));
    Regroup(Activations(a), Activations(t.toDaemon), SentNumbers(n));
  }

  lemma {:induction false} RunInStep(s: Link, es: seq<Event>)
    requires Inv(s) && Runs(s, es)
    ensures InStep(s, Left(s, es), After(s, es))
    decreases |es|
  {
    if es == [] {
      assert s.log[|s.log|..] == [] && [] + s.toDaemon == s.toDaemon;
    } else {
      hide InStep, Inv, Step, Enabled;
      StepKeepsInv(s, es[0]);
      StepInStep(s, es[0]);
      RunInStep(Step(s, es[0]), es[1..]);
      InStepTwice(s, Leaving(s, es[0]), Step(s, es[0]), Left(Step(s, es[0]), es[1..]), After(s, es));
    }
  }

  /** Over every run the activations that went onto the wire, those the daemon has read or a lost
      socket has taken followed by those still in the channel, are in order exactly the payloads
      the history calls sent. */
  lemma SentIsOnTheWire(es: seq<Event>)
    requires Runs(INITIAL, es)
    ensures var t := After(INITIAL, es);
            Activations(Left(INITIAL, es) + t.toDaemon) == SentNumbers(t.log)
  {
    hide Runs, After, Left;
    InitialInv();
    RunInStep(INITIAL, es);
    var t := After(INITIAL, es);
    assert t.log[|INITIAL.log|..] == t.log;
    assert Activations([]) == [] && [] + SentNumbers(t.log) == SentNumbers(t.log);
  }
}
