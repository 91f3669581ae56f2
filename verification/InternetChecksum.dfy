/** PingSender::inetChecksum: the Internet checksum (RFC 1071) over a buffer read in 16-bit
    words of the machine's byte order, summed in a 32-bit signed integer and folded twice. */
module InternetChecksum {
  import opened Basics

  const INT_MAX := 0x7fff_ffff

  // ---------------------------------------------------------------- reference

  function WordCount(data: seq<Byte>): nat { (|data| + 1) / 2 }

  /** The i-th 16-bit word as a machine of the given byte order reads it; an odd last byte is
      followed by a zero byte. */
  function Word(data: seq<Byte>, i: nat, little: bool): nat
    requires i < WordCount(data)
  {
    var first: int := data[2 * i];
    var second: int := if 2 * i + 1 < |data| then data[2 * i + 1] else 0;
    if little then first + 256 * second else 256 * first + second
  }

  function Sum(data: seq<Byte>, n: nat, little: bool): nat
    requires n <= WordCount(data)
  {
    if n == 0 then 0 else Sum(data, n - 1, little) + Word(data, n - 1, little)
  }

  function Total(data: seq<Byte>, little: bool): nat { Sum(data, WordCount(data), little) }

  /** Carries added back until the value fits 16 bits. */
  function Fold(x: nat): nat { if x < 65536 then x else Fold(x / 65536 + x % 65536) }

  function Checksum(data: seq<Byte>, little: bool): (c: nat)
    ensures c < 65536
  {
    FoldRange(Total(data, little));
    65535 - Fold(Total(data, little))
  }

  // ---------------------------------------------------------------- laws of folding

  lemma {:induction false} FoldRange(x: nat)
    ensures Fold(x) < 65536 && (Fold(x) == 0 <==> x == 0)
  {
    if x >= 65536 { FoldRange(x / 65536 + x % 65536); }
  }

  /** Folding changes a value by a multiple of 65535. */
  lemma {:induction false} FoldCongruent(x: nat) returns (k: nat)
    ensures x == 65535 * k + Fold(x)
  {
    if x < 65536 { k := 0; }
    else {
      var q := x / 65536;
      var k' := FoldCongruent(q + x % 65536);
      k := q + k';
    }
  }

  /** A 16-bit value in the right class, zero exactly when x is, is the fold of x. */
  lemma FoldUnique(x: nat, y: nat, k: int)
    requires y < 65536 && x == 65535 * k + y && (y == 0 <==> x == 0)
    ensures Fold(x) == y
  {
    FoldRange(x);
    var k' := FoldCongruent(x);
  }

  /** Two folds suffice for every 31-bit sum, even though the second adds its carry in place. */
  lemma TwoFoldsSuffice(s: nat)
    requires s <= INT_MAX
    ensures var once := s / 65536 + s % 65536;
            (once + once / 65536) % 65536 == Fold(s)
  {
    var once := s / 65536 + s % 65536;
    var y := (once + once / 65536) % 65536;
    FoldUnique(s, y, if once < 65536 then s / 65536 else s / 65536 + 1);
  }

  lemma {:induction false} SumBound(data: seq<Byte>, n: nat, little: bool)
    requires n <= WordCount(data)
    ensures Sum(data, n, little) <= 65535 * n
  {
    if n > 0 { SumBound(data, n - 1, little); }
  }

  // ---------------------------------------------------------------- the code

  /** For every buffer of up to 65536 bytes the 32-bit sum does not overflow and the two folds
      give the reference checksum. */
  method InetChecksum(data: seq<Byte>, little: bool) returns (answer: nat)
    requires |data| <= 65536
    ensures answer == Checksum(data, little)
  {
    hide Fold;
    var left := |data|;
    var sum := 0;
    var w := 0;
    while left > 1
      invariant left == |data| - 2 * w && 0 <= left && w <= WordCount(data)
      invariant sum == Sum(data, w, little) && sum <= INT_MAX
    {
      sum := sum + Word(data, w, little);
      w := w + 1;
      left := left - 2;
      SumBound(data, w, little);
    }
    if left == 1 {
      var last: int := data[2 * w];
      sum := sum + if little then last else 256 * last;
      SumBound(data, w + 1, little);
    }
    assert sum == Total(data, little) <= INT_MAX;
    TwoFoldsSuffice(sum);
    sum := sum / 65536 + sum % 65536;
    sum := sum + sum / 65536;
    answer := 65535 - sum % 65536;
  }

  /** The bound is sharp: 65538 bytes of ones exceed the 32-bit sum. */
  lemma SumCanOverflowBeyond(data: seq<Byte>, little: bool)
    requires |data| == 65538 && forall i :: 0 <= i < |data| ==> data[i] == 255
    ensures Total(data, little) > INT_MAX
  {
    AllOnes(data, WordCount(data), little);
  }

  lemma {:induction false} AllOnes(data: seq<Byte>, n: nat, little: bool)
    requires |data| == 65538 && n <= WordCount(data) && forall i :: 0 <= i < |data| ==> data[i] == 255
    ensures Sum(data, n, little) == 65535 * n
  {
    if n > 0 { AllOnes(data, n - 1, little); }
  }

  // ---------------------------------------------------------------- writing the checksum back

  /** The two bytes of a word in machine order, stored at word position w. */
  function Store(data: seq<Byte>, w: nat, value: nat, little: bool): seq<Byte>
    requires 2 * w + 1 < |data| && value < 65536
  {
    if little then data[2 * w := value % 256][2 * w + 1 := value / 256]
    else data[2 * w := value / 256][2 * w + 1 := value % 256]
  }

  lemma {:induction false} StoreSum(data: seq<Byte>, w: nat, value: nat, n: nat, little: bool)
    requires 2 * w + 1 < |data| && value < 65536 && data[2 * w] == 0 && data[2 * w + 1] == 0
    requires n <= WordCount(data)
    ensures Sum(Store(data, w, value, little), n, little) == Sum(data, n, little) + if w < n then value else 0
  {
    if n > 0 {
      StoreSum(data, w, value, n - 1, little);
      var stored := Store(data, w, value, little);
      if n - 1 == w { assert Word(stored, w, little) == value && Word(data, w, little) == 0; }
      else { assert Word(stored, n - 1, little) == Word(data, n - 1, little); }
    }
  }

  /** Storing the checksum in a word that was zero makes the checksum of the whole zero, which
      is how a receiver checks it. */
  lemma StoredChecksumVerifies(data: seq<Byte>, w: nat, little: bool)
    requires 2 * w + 1 < |data| && data[2 * w] == 0 && data[2 * w + 1] == 0
    ensures Checksum(Store(data, w, Checksum(data, little), little), little) == 0
  {
    var c := Checksum(data, little);
    var s := Total(data, little);
    StoreSum(data, w, c, WordCount(data), little);
    var k := FoldCongruent(s);
    FoldUnique(s + c, 65535, k);
  }

  // ---------------------------------------------------------------- byte order

  function Swap(x: nat): nat { 256 * (x % 256) + x / 256 % 256 }

  lemma {:induction false} SwappedSum(data: seq<Byte>, n: nat) returns (k: nat)
    requires n <= WordCount(data)
    ensures 256 * Sum(data, n, true) == Sum(data, n, false) + 65535 * k
    ensures Sum(data, n, true) == 0 <==> Sum(data, n, false) == 0
  {
    if n == 0 { k := 0; }
    else {
      k := SwappedSum(data, n - 1);
      k := k + if 2 * (n - 1) + 1 < |data| then data[2 * (n - 1) + 1] else 0;
    }
  }

  /** Swapping the bytes of a 16-bit value is multiplying by 256 modulo 65535. */
  lemma SwapLaws(f: nat)
    requires f < 65536
    ensures 256 * f == Swap(f) + 65535 * (f / 256) && Swap(f) < 65536 && (Swap(f) == 0 <==> f == 0)
    ensures Swap(65535 - f) == 65535 - Swap(f)
  {
    var q, r := f / 256, f % 256;
    assert f == 256 * q + r && q < 256;
    assert 65535 - f == 256 * (255 - q) + (255 - r);
    assert (65535 - f) / 256 == 255 - q && (65535 - f) % 256 == 255 - r;
  }

  /** The checksum does not depend on the machine's byte order, up to a swap of its own bytes. */
  lemma ByteOrderIndependence(data: seq<Byte>)
    ensures Checksum(data, false) == Swap(Checksum(data, true))
  {
    hide Sum, Swap;
    var s, b := Total(data, true), Total(data, false);
    FoldRange(s);
    SwapLaws(Fold(s));
    var k := SwappedSum(data, WordCount(data));
    var j := FoldCongruent(s);
    FoldUnique(b, Swap(Fold(s)), 256 * j + Fold(s) / 256 - k);
  }
}
