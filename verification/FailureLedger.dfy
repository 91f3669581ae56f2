/** The bookkeeping half of VpnConnection: the most recent request, the recovery
    budget, the failure window and the persisted safe-mode deadline, together
    with the history of what has happened so far.  The history is what the
    theorems about whole runs speak about. */
module FailureLedger {

  const MAX_RECOVERY_ATTEMPTS := 2
  const RECONNECT_BASE_DELAY_MS := 1200
  const FAILURE_WINDOW_SECS := 180
  const SAFE_MODE_FAILURE_THRESHOLD := 3
  const SAFE_MODE_DURATION_SECS := 1800

  datatype Container =
    | None | Awg | Awg2 | WireGuard | OpenVpn | Cloak | ShadowSocks | Ipsec | Xray | SSXray
    | TorWebSite | Dns | Sftp | Socks5Proxy

  /** Containers for which the protocol factory returns an object (Ipsec is Windows only). */
  predicate HasProtocol(c: Container) {
    c in {Awg, Awg2, WireGuard, OpenVpn, Cloak, ShadowSocks, Xray, SSXray}
  }

  datatype Request = Request(serverIndex: int, hostName: string, container: Container, config: map<string, string>)

  /** The values the last-request members hold before any connectToVpn call. */
  const NO_REQUEST := Request(-1, "", None, map[])

  predicate CanBeRetried(r: Request) {
    r.serverIndex >= 0 && r.hostName != "" && r.config != map[]
  }

  datatype Entry =
    | Requested(request: Request)          // a connectToVpn call from outside
    | Built(request: Request)              // the factory built a protocol
    | Failure(sec: nat)                    // a failed transition
    | Online                               // setConnectionState(Connected)
    | SafeModeEntered(sec: nat)            // the safe-mode deadline was written
    | RetryPlanned(sec: nat, delayMs: nat) // the recovery timer was started

  datatype Book = Book(
    last: Request, attempts: nat, burst: nat, windowStart: nat, safeUntil: nat, log: seq<Entry>)

  // ---------------------------------------------------------------- operations

  function NoteRequest(b: Book, r: Request): Book {
    b.(last := r, log := b.log + [Requested(r)])
  }

  function NoteBuilt(b: Book, r: Request): Book {
    b.(log := b.log + [Built(r)])
  }

  /** The counter resets on reaching Connected. */
  function NoteOnline(b: Book): Book {
    b.(attempts := 0, burst := 0, windowStart := 0, log := b.log + [Online])
  }

  function OpenWindow(b: Book, sec: nat): Book {
    if b.windowStart == 0 || sec - b.windowStart > FAILURE_WINDOW_SECS
    then b.(windowStart := sec, burst := 0) else b
  }

  function CountFailure(b: Book, sec: nat): Book {
    var w := OpenWindow(b, sec);
    w.(burst := w.burst + 1, log := w.log + [Failure(sec)])
  }

  predicate EntersSafeMode(b: Book, sec: nat) {
    CountFailure(b, sec).burst >= SAFE_MODE_FAILURE_THRESHOLD
  }

  /** registerFailureAndMaybeEnterSafeMode, without the timer it stops. */
  function RegisterFailure(b: Book, sec: nat): Book {
    var c := CountFailure(b, sec);
    if !EntersSafeMode(b, sec) then c
    else c.(safeUntil := sec + SAFE_MODE_DURATION_SECS, attempts := 0, burst := 0, windowStart := 0,
            log := c.log + [SafeModeEntered(sec)])
  }

  function Pow2(n: nat): nat { if n == 0 then 1 else 2 * Pow2(n - 1) }

  /** The early returns of scheduleRecoveryReconnect that depend on bookkeeping alone. */
  predicate RetryAllowed(b: Book, sec: nat) {
    b.safeUntil <= sec && b.attempts < MAX_RECOVERY_ATTEMPTS && CanBeRetried(b.last)
  }

  function RetryDelay(b: Book): nat { RECONNECT_BASE_DELAY_MS * Pow2(b.attempts) }

  function PlanRetry(b: Book, sec: nat): Book {
    b.(attempts := b.attempts + 1, log := b.log + [RetryPlanned(sec, RetryDelay(b))])
  }

  // ---------------------------------------------------------------- what a history says

  predicate IsReset(e: Entry) { e.Online? || e.SafeModeEntered? }

  function LatestRequest(log: seq<Entry>): Request {
    if log == [] then NO_REQUEST
    else if log[|log| - 1].Requested? then log[|log| - 1].request
    else LatestRequest(log[..|log| - 1])
  }

  /** Reconnects planned since the last reset. */
  function Retries(log: seq<Entry>): nat {
    if log == [] || IsReset(log[|log| - 1]) then 0
    else Retries(log[..|log| - 1]) + if log[|log| - 1].RetryPlanned? then 1 else 0
  }

  /** Failed transitions at or after second `from` since the last reset. */
  function Failures(log: seq<Entry>, from: nat): nat {
    if log == [] || IsReset(log[|log| - 1]) then 0
    else Failures(log[..|log| - 1], from) +
         if log[|log| - 1].Failure? && log[|log| - 1].sec >= from then 1 else 0
  }

  ghost predicate NoReset(log: seq<Entry>, from: nat) {
    forall i :: from <= i < |log| ==> !IsReset(log[i])
  }

  ghost predicate IsFailureWithin(log: seq<Entry>, i: nat, lo: int, hi: int) {
    i < |log| && log[i].Failure? && lo <= log[i].sec <= hi
  }

  /** Three failed transitions in the 180 seconds ending at `sec`, with no
      Connected and no earlier safe-mode entry among or after them. */
  ghost predicate ThreeFailures(log: seq<Entry>, sec: nat) {
    exists i: nat, j: nat, k: nat :: FailureTriple(log, i, j, k, sec)
  }

  ghost predicate FailureTriple(log: seq<Entry>, i: nat, j: nat, k: nat, sec: nat) {
    && i < j < k && NoReset(log, i)
    && IsFailureWithin(log, i, sec - 180, sec)
    && IsFailureWithin(log, j, sec - 180, sec)
    && IsFailureWithin(log, k, sec - 180, sec)
  }

  /** Every safe mode in the history is over at second `sec`. */
  ghost predicate SafeModesOverBy(log: seq<Entry>, sec: nat) {
    forall i :: 0 <= i < |log| && log[i].SafeModeEntered? ==> log[i].sec + SAFE_MODE_DURATION_SECS <= sec
  }

  /** What the past must contain for entry `e` to be recorded next. */
  ghost predicate Justified(past: seq<Entry>, e: Entry) {
    match e
    case Built(r) => r == LatestRequest(past) && HasProtocol(r.container)
    case RetryPlanned(sec, delay) =>
      && Retries(past) < MAX_RECOVERY_ATTEMPTS
      && delay == [1200, 2400][Retries(past)]
      && CanBeRetried(LatestRequest(past))
      && SafeModesOverBy(past, sec)
    case SafeModeEntered(sec) => ThreeFailures(past, sec)
    case _ => true
  }

  ghost predicate AllJustified(log: seq<Entry>) {
    forall i :: 0 <= i < |log| ==> Justified(log[..i], log[i])
  }

  /** Failures since the last reset all lie at or before second `hi`. */
  ghost predicate FailuresBy(log: seq<Entry>, hi: nat) {
    Failures(log, hi + 1) == 0
  }

  // ---------------------------------------------------------------- the invariant

  /** The counters are what the history says they are, and every entry is justified. */
  ghost predicate Faithful(b: Book, sec: nat) {
    && b.last == LatestRequest(b.log)
    && b.attempts == Retries(b.log) <= MAX_RECOVERY_ATTEMPTS
    && b.burst == (if b.windowStart == 0 then 0 else Failures(b.log, b.windowStart))
    && b.burst < SAFE_MODE_FAILURE_THRESHOLD
    && b.windowStart <= sec
    && (if b.windowStart == 0 then Failures(b.log, 0) == 0
        else FailuresBy(b.log, b.windowStart + FAILURE_WINDOW_SECS) && FailuresBy(b.log, sec))
    && SafeModesOverBy(b.log, b.safeUntil) && SafeModesOverBy(b.log, sec + SAFE_MODE_DURATION_SECS)
    && AllJustified(b.log)
  }

  lemma Snoc(log: seq<Entry>, e: Entry)
    ensures (log + [e])[..|log|] == log && (log + [e])[|log|] == e
  {}

  lemma SnocReadings(log: seq<Entry>, e: Entry)
    ensures LatestRequest(log + [e]) == if e.Requested? then e.request else LatestRequest(log)
    ensures Retries(log + [e]) == if IsReset(e) then 0 else Retries(log) + if e.RetryPlanned? then 1 else 0
    ensures forall from: nat :: Failures(log + [e], from) ==
              if IsReset(e) then 0 else Failures(log, from) + if e.Failure? && e.sec >= from then 1 else 0
  {
    Snoc(log, e);
  }

  lemma SnocJustified(log: seq<Entry>, e: Entry)
    requires AllJustified(log) && Justified(log, e)
    ensures AllJustified(log + [e])
  {
    forall i | 0 <= i < |log + [e]| ensures Justified((log + [e])[..i], (log + [e])[i]) {
      assert (log + [e])[..i] == log[..i];
      if i == |log| { assert log[..i] == log; }
    }
  }

  /** A later threshold counts no more failures. */
  lemma {:induction false} FailuresAntitone(log: seq<Entry>, from: nat, from': nat)
    requires from <= from'
    ensures Failures(log, from') <= Failures(log, from)
  {
    if log != [] { FailuresAntitone(log[..|log| - 1], from, from'); }
  }

  /** A positive failure count is a failure, with everything counted before it still there. */
  lemma {:induction false} LastFailure(log: seq<Entry>, from: nat, hi: nat) returns (i: nat)
    requires Failures(log, from) > 0 && FailuresBy(log, hi)
    ensures IsFailureWithin(log, i, from, hi) && NoReset(log, i)
    ensures Failures(log[..i], from) == Failures(log, from) - 1 && FailuresBy(log[..i], hi)
  {
    var n := |log| - 1;
    if log[n].Failure? && log[n].sec >= from {
      i := n;
      FailuresAntitone(log[..n], from, hi + 1);
    } else {
      i := LastFailure(log[..n], from, hi);
      assert log[..n][..i] == log[..i];
      forall k | i <= k < |log| ensures !IsReset(log[k]) {
        if k < n { assert log[..n][k] == log[k]; }
      }
    }
  }

  /** Three counted failures inside a window are three distinct entries of the history. */
  lemma WindowWitness(log: seq<Entry>, from: nat, sec: nat)
    requires Failures(log, from) >= 3 && FailuresBy(log, sec) && from <= sec <= from + FAILURE_WINDOW_SECS
    ensures ThreeFailures(log, sec)
  {
    var k := LastFailure(log, from, sec);
    var j := LastFailure(log[..k], from, sec);
    assert log[..k][..j] == log[..j];
    var i := LastFailure(log[..j], from, sec);
    forall m | i <= m < |log| ensures !IsReset(log[m]) {
      if m < j { assert log[..j][m] == log[m]; }
      else if m < k { assert log[..k][m] == log[m]; }
    }
    assert FailureTriple(log, i, j, k, sec);
  }

  // ---------------------------------------------------------------- preservation

  lemma TimePasses(b: Book, sec: nat, later: nat)
    requires Faithful(b, sec) && sec <= later
    ensures Faithful(b, later)
  {
    FailuresAntitone(b.log, sec + 1, later + 1);
  }

  lemma RequestKeepsFaith(b: Book, r: Request, sec: nat)
    requires Faithful(b, sec)
    ensures Faithful(NoteRequest(b, r), sec)
  {
    hide AllJustified, ThreeFailures, LatestRequest, Retries, Failures;
    SnocReadings(b.log, Requested(r));
    SnocJustified(b.log, Requested(r));
  }

  lemma BuiltKeepsFaith(b: Book, sec: nat)
    requires Faithful(b, sec) && HasProtocol(b.last.container)
    ensures Faithful(NoteBuilt(b, b.last), sec)
  {
    hide AllJustified, ThreeFailures, LatestRequest, Retries, Failures;
    SnocReadings(b.log, Built(b.last));
    SnocJustified(b.log, Built(b.last));
  }

  lemma OnlineKeepsFaith(b: Book, sec: nat)
    requires Faithful(b, sec)
    ensures Faithful(NoteOnline(b), sec)
  {
    hide AllJustified, ThreeFailures, LatestRequest, Retries, Failures;
    SnocReadings(b.log, Online);
    SnocJustified(b.log, Online);
  }

  lemma RetryKeepsFaith(b: Book, sec: nat)
    requires Faithful(b, sec) && RetryAllowed(b, sec)
    ensures Faithful(PlanRetry(b, sec), sec)
  {
    hide AllJustified, ThreeFailures, LatestRequest, Retries, Failures;
    var e := RetryPlanned(sec, RetryDelay(b));
    assert Pow2(1) == 2;
    SnocReadings(b.log, e);
    SnocJustified(b.log, e);
  }

  /** Opening a window: it starts in the past, counts exactly its failures and holds no later ones. */
  lemma OpenedWindow(b: Book, sec: nat)
    requires Faithful(b, sec) && sec > 0
    ensures var w := OpenWindow(b, sec);
            && 0 < w.windowStart <= sec <= w.windowStart + FAILURE_WINDOW_SECS
            && w.burst == Failures(b.log, w.windowStart)
            && FailuresBy(b.log, w.windowStart + FAILURE_WINDOW_SECS) && FailuresBy(b.log, sec)
  {
    if b.windowStart == 0 {
      FailuresAntitone(b.log, 0, sec);
      FailuresAntitone(b.log, 0, sec + 1);
      FailuresAntitone(b.log, 0, sec + FAILURE_WINDOW_SECS + 1);
    } else if sec - b.windowStart > FAILURE_WINDOW_SECS {
      FailuresAntitone(b.log, b.windowStart + FAILURE_WINDOW_SECS + 1, sec);
      FailuresAntitone(b.log, sec, sec + FAILURE_WINDOW_SECS + 1);
    }
  }

  /** Counting a failure keeps the window exact, and a full window is a witness. */
  lemma CountedFailure(b: Book, sec: nat)
    requires Faithful(b, sec) && sec > 0
    ensures var c := CountFailure(b, sec);
            && c.burst == Failures(c.log, c.windowStart) && 0 < c.windowStart <= sec
            && FailuresBy(c.log, c.windowStart + FAILURE_WINDOW_SECS) && FailuresBy(c.log, sec)
            && (EntersSafeMode(b, sec) ==> Justified(c.log, SafeModeEntered(sec)))
  {
    hide AllJustified, ThreeFailures, LatestRequest, Retries, Failures;
    OpenedWindow(b, sec);
    SnocReadings(b.log, Failure(sec));
    var c := CountFailure(b, sec);
    if EntersSafeMode(b, sec) { WindowWitness(c.log, c.windowStart, sec); }
  }

  lemma FailureKeepsFaith(b: Book, sec: nat)
    requires Faithful(b, sec) && sec > 0
    ensures Faithful(RegisterFailure(b, sec), sec)
  {
    hide AllJustified, ThreeFailures, LatestRequest, Retries, Failures;
    CountedFailure(b, sec);
    var c := CountFailure(b, sec);
    SnocReadings(b.log, Failure(sec));
    SnocJustified(b.log, Failure(sec));
    if EntersSafeMode(b, sec) {
      SnocReadings(c.log, SafeModeEntered(sec));
      SnocJustified(c.log, SafeModeEntered(sec));
    }
  }
}
