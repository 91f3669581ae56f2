/** PingHelper: a ring of the last 32 pings indexed by a 16-bit sequence number that wraps,
    and the statistics read off it. */
module PingHelper {
  const WINDOW := 32
  const PING_TIMEOUT_MS := 1000
  const UINT_RANGE := 0x1_0000_0000

  datatype PingData = PingData(timestamp: int, latency: int, sequence: nat)

  const EMPTY := PingData(-1, -1, 0)

  // ---------------------------------------------------------------- statistics of a ring

  function Received(s: seq<PingData>): nat {
    if s == [] then 0 else Received(s[..|s| - 1]) + if s[|s| - 1].latency >= 0 then 1 else 0
  }

  function TotalLatency(s: seq<PingData>): nat {
    if s == [] then 0
    else TotalLatency(s[..|s| - 1]) + if s[|s| - 1].latency >= 0 then s[|s| - 1].latency else 0
  }

  predicate IsLost(d: PingData, before: int) { d.latency < 0 && 0 < d.timestamp < before }

  function Lost(s: seq<PingData>, before: int): nat {
    if s == [] then 0 else Lost(s[..|s| - 1], before) + if IsLost(s[|s| - 1], before) then 1 else 0
  }

  lemma {:induction false} CountsFit(s: seq<PingData>, before: int)
    ensures Received(s) + Lost(s, before) <= |s|
  {
    if s != [] { CountsFit(s[..|s| - 1], before); }
  }

  /** The slots of answered pings. */
  function AnsweredSlots(s: seq<PingData>): set<int> {
    set i | 0 <= i < |s| && s[i].latency >= 0
  }

  /** The slots of pings sent before a time and not answered. */
  function LostSlots(s: seq<PingData>, before: int): set<int> {
    set i | 0 <= i < |s| && s[i].latency < 0 && 0 < s[i].timestamp < before
  }

  lemma {:induction false} ReceivedMeans(s: seq<PingData>)
    ensures Received(s) == |AnsweredSlots(s)|
  {
    if s != [] {
      var n := |s| - 1;
      ReceivedMeans(s[..n]);
      assert AnsweredSlots(s) == if s[n].latency >= 0 then AnsweredSlots(s[..n]) + {n} else AnsweredSlots(s[..n]);
    }
  }

  lemma {:induction false} LostMeans(s: seq<PingData>, before: int)
    ensures Lost(s, before) == |LostSlots(s, before)|
  {
    if s != [] {
      var n := |s| - 1;
      LostMeans(s[..n], before);
      assert LostSlots(s, before) ==
               if s[n].latency < 0 && 0 < s[n].timestamp < before then LostSlots(s[..n], before) + {n}
               else LostSlots(s[..n], before);
    }
  }

  function Rounded(total: nat, count: nat): nat
    requires count > 0
  {
    (total + count / 2) / count
  }

  /** r is the integer nearest to total / count. */
  predicate IsNearestMean(r: int, total: int, count: int) {
    -count <= 2 * (count * r - total) <= count
  }

  /** Adding half the divisor first makes truncating division round to the nearest integer. */
  lemma NearestMean(total: nat, count: nat)
    requires count > 0
    ensures IsNearestMean(Rounded(total, count), total, count)
  {
    var x := total + count / 2;
    assert x == count * (x / count) + x % count;
  }

  lemma TimesNext(k: nat, n: nat)
    ensures k * (n + 1) == k * n + k
  {}

  /** The total lies between the answered pings all being the fastest and all being the slowest. */
  lemma {:induction false} TotalBounds(s: seq<PingData>, lo: nat, hi: nat)
    requires forall d :: d in s && d.latency >= 0 ==> lo <= d.latency <= hi
    ensures lo * Received(s) <= TotalLatency(s) <= hi * Received(s)
  {
    if s != [] {
      var t, d := s[..|s| - 1], s[|s| - 1];
      assert d in s && forall x :: x in t ==> x in s;
      TotalBounds(t, lo, hi);
      TimesNext(lo, Received(t));
      TimesNext(hi, Received(t));
      if d.latency >= 0 {
        assert Received(s) == Received(t) + 1 && TotalLatency(s) == TotalLatency(t) + d.latency;
      } else {
        assert Received(s) == Received(t) && TotalLatency(s) == TotalLatency(t);
      }
    }
  }

  // ---------------------------------------------------------------- which sends a ring holds

  /** The sequence number under which the k-th ping (from 0) is sent. */
  function SequenceOf(k: nat): nat { k % 65536 }

  /** Ping k is among the last 32 of n. */
  predicate Recent(n: nat, k: nat) { k < n && n <= k + WINDOW }

  lemma RecentMeans(n: nat, k: nat)
    ensures Recent(n, k) <==> k < n <= k + 32
  {}

  /** A sequence number that names one of the last 32 pings. */
  ghost predicate Names(n: nat, sequence: nat) {
    exists k: nat :: Recent(n, k) && SequenceOf(k) == sequence
  }

  /** The 16-bit wraparound does not disturb the slots. */
  lemma SlotOfSequence(k: nat)
    ensures SequenceOf(k) % WINDOW == k % WINDOW
  {
    var q := k / 65536;
    assert k == 65536 * q + k % 65536;
    assert (k % 65536) % 32 == k % 32;
  }

  lemma NextSequence(k: nat)
    ensures (SequenceOf(k) + 1) % 65536 == SequenceOf(k + 1) && SequenceOf(k) < 65536
  {}

  /** Two recent pings never share a slot. */
  lemma RecentSlotsDiffer(n: nat, k: nat, j: nat)
    requires Recent(n, k) && Recent(n, j) && k % WINDOW == j % WINDOW
    ensures k == j
  {
    var q, r := k / 32, j / 32;
    assert k - j == 32 * (q - r);
  }

  // ---------------------------------------------------------------- the object

  class Pinger {
    const pingData: array<PingData>
    var sequence: nat            // 16 bits
    ghost var sent: seq<int>     // the timestamps of all pings since start

    ghost predicate Valid()
      reads this, pingData
    {
      && pingData.Length == WINDOW
      && sequence == SequenceOf(|sent|)
      && (forall k: nat :: Recent(|sent|, k) ==>
            pingData[k % WINDOW].timestamp == sent[k] && pingData[k % WINDOW].sequence == SequenceOf(k))
      && (forall j :: |sent| <= j < WINDOW ==> pingData[j].timestamp == -1 && pingData[j].sequence == 0)
      && (forall j :: |sent| <= j < WINDOW && j > 0 ==> pingData[j].latency == -1)
    }

    constructor ()
      ensures Valid() && fresh(pingData) && sent == []
    {
      pingData := new PingData[WINDOW](_ => EMPTY);
      sequence, sent := 0, [];
    }

    /** Resets the statistics. */
    method Start()
      requires Valid()
      modifies this, pingData
      ensures Valid() && sent == []
    {
      sequence := 0;
      sent := [];
      for i := 0 to WINDOW
        invariant sequence == 0 && sent == []
        invariant forall j :: 0 <= j < i ==> pingData[j] == EMPTY
      {
        pingData[i] := EMPTY;
      }
    }

    /** After every send, the slots hold exactly the last min(n, 32) pings. */
    method NextPing(now: int)
      requires Valid()
      modifies this, pingData
      ensures Valid() && sent == old(sent) + [now]
      ensures pingData[|old(sent)| % WINDOW] == PingData(now, -1, old(sequence))
      ensures forall j :: 0 <= j < WINDOW && j != |old(sent)| % WINDOW ==> pingData[j] == old(pingData[j])
    {
      hide SequenceOf;
      ghost var n := |sent|;
      SlotOfSequence(n);
      NextSequence(n);
      var index := sequence % WINDOW;
      pingData[index] := PingData(now, -1, sequence);
      sequence := (sequence + 1) % 65536;
      sent := sent + [now];
      forall k: nat | Recent(n + 1, k)
        ensures pingData[k % WINDOW].timestamp == sent[k] && pingData[k % WINDOW].sequence == SequenceOf(k)
      {
        if k < n {
          assert Recent(n, k);
          if k % WINDOW == index { RecentSlotsDiffer(n + 1, k, n); }
        }
      }
    }

    /** A reply is matched if and only if it names one of the last 32 pings, or is the reply 0
        before any ping was sent, which the cleared slot 0 accepts. */
    method PingReceived(reply: nat, now: int) returns (matched: bool)
      requires Valid() && reply < 65536
      modifies pingData
      ensures Valid()
      ensures matched <==> Names(|sent|, reply) || (sent == [] && reply == 0)
      ensures forall k: nat :: Recent(|sent|, k) && SequenceOf(k) == reply ==>
                pingData[k % WINDOW].latency == now - sent[k]
      ensures forall j :: 0 <= j < WINDOW && (!matched || j != reply % WINDOW) ==> pingData[j] == old(pingData[j])
    {
      ghost var n := |sent|;
      MatchIffNamed(reply);
      var index := reply % WINDOW;
      matched := pingData[index].sequence == reply;
      forall k: nat | Recent(n, k) && SequenceOf(k) == reply ensures k % WINDOW == index && matched {
        SlotOfSequence(k);
      }
      if matched {
        var sendTime := pingData[index].timestamp;
        pingData[index] := pingData[index].(latency := now - sendTime);
      }
    }

    lemma MatchIffNamed(reply: nat)
      requires Valid() && reply < 65536
      ensures pingData[reply % WINDOW].sequence == reply <==> Names(|sent|, reply) || (sent == [] && reply == 0)
    {
      var n, index := |sent|, reply % WINDOW;
      if Names(n, reply) {
        var k: nat :| Recent(n, k) && SequenceOf(k) == reply;
        SlotOfSequence(k);
      }
      if pingData[index].sequence == reply && index < n {
        var k := LastInSlot(n, index);
        assert Recent(n, k) && SequenceOf(k) == reply;
      }
    }

    method Latency() returns (r: nat)
      requires Valid()
      ensures r < UINT_RANGE
      ensures Received(pingData[..]) == 0 ==> r == 0
      ensures var c, t := Received(pingData[..]), TotalLatency(pingData[..]);
              c > 0 ==> IsNearestMean(Rounded(t, c), t, c) && r == Rounded(t, c) % UINT_RANGE
    {
      hide IsNearestMean, Rounded;
      var count, total := 0, 0;
      for i := 0 to WINDOW
        invariant count == Received(pingData[..i]) && total == TotalLatency(pingData[..i])
      {
        assert pingData[..i + 1][..i] == pingData[..i];
        if pingData[i].latency < 0 { continue; }
        count := count + 1;
        total := total + pingData[i].latency;
      }
      assert pingData[..WINDOW] == pingData[..];
      if count <= 0 { return 0; }
      NearestMean(total, count);
      r := Rounded(total, count) % UINT_RANGE;
    }

    /** The fraction of the window that is lost: sent more than a second ago and unanswered. */
    method Loss(now: int) returns (r: real)
      requires Valid()
      ensures 0.0 <= r <= 1.0
      ensures r == Lost(pingData[..], now - 1000) as real / 32.0
    {
      var sendCount, recvCount := 0, 0;
      var before := now - PING_TIMEOUT_MS;
      for i := 0 to WINDOW
        invariant recvCount == Received(pingData[..i])
        invariant sendCount == recvCount + Lost(pingData[..i], before)
      {
        assert pingData[..i + 1][..i] == pingData[..i];
        if pingData[i].latency >= 0 {
          recvCount := recvCount + 1;
          sendCount := sendCount + 1;
        } else if pingData[i].timestamp > 0 && pingData[i].timestamp < before {
          sendCount := sendCount + 1;
        }
      }
      assert pingData[..WINDOW] == pingData[..];
      CountsFit(pingData[..], before);
      if sendCount <= 0 { return 0.0; }
      r := (sendCount - recvCount) as real / 32.0;
    }
  }

  /** The latest ping that used a slot. */
  lemma LastInSlot(n: nat, index: nat) returns (k: nat)
    requires index < WINDOW && index < n
    ensures Recent(n, k) && k % WINDOW == index
  {
    var back := (n - 1 - index) % WINDOW;
    k := n - 1 - back;
    var q := (n - 1 - index) / WINDOW;
    assert n - 1 - index == 32 * q + back;
    assert k == index + 32 * q;
  }
}
