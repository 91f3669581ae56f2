/** The WireGuard client address allocator: each new peer gets the address after the last one in
    the server configuration, skipping .255 and .0. */
module AddressAllocator {
  const ADDRESS_RANGE := 0x1_0000_0000

  /** The captured "a.b.c.d" groups of the AllowedIPs lines; QHostAddress rejects an octet above 255. */
  datatype Quad = Quad(a: nat, b: nat, c: nat, d: nat)

  predicate IsAddress(q: Quad) { q.a < 256 && q.b < 256 && q.c < 256 && q.d < 256 }

  function ToIPv4(q: Quad): nat { ((q.a * 256 + q.b) * 256 + q.c) * 256 + q.d }

  function ToQuad(address: nat): Quad {
    Quad(address / 0x100_0000, address / 0x1_0000 % 256, address / 0x100 % 256, address % 256)
  }

  lemma QuadRoundTrip(address: nat)
    requires address < ADDRESS_RANGE
    ensures IsAddress(ToQuad(address)) && ToIPv4(ToQuad(address)) == address
  {
    var x, y, z := address / 0x100, address / 0x1_0000, address / 0x100_0000;
    assert address == 256 * x + address % 256 && x == 256 * y + x % 256 && y == 256 * z + y % 256;
    assert x / 256 == y && y / 256 == z;
  }

  function AddressesOf(conf: seq<Quad>): seq<nat> {
    if conf == [] then []
    else AddressesOf(conf[..|conf| - 1]) + if IsAddress(conf[|conf| - 1]) then [ToIPv4(conf[|conf| - 1])] else []
  }

  /** Reading is line by line: a line gives its address, or nothing if a number exceeds 255. */
  lemma {:induction false} AddressesMean(conf: seq<Quad>, q: Quad, more: seq<Quad>)
    ensures AddressesOf(conf + [q] + more) == AddressesOf(conf) + AddressesOf([q]) + AddressesOf(more)
    ensures AddressesOf([q]) ==
              if q.a <= 255 && q.b <= 255 && q.c <= 255 && q.d <= 255
              then [q.a * 0x100_0000 + q.b * 0x1_0000 + q.c * 0x100 + q.d] else []
    decreases |more|
  {
    assert [q][..0] == [] && AddressesOf([]) == [];
    if more == [] {
      assert conf + [q] + more == conf + [q] && (conf + [q])[..|conf|] == conf;
    } else {
      var n := |more| - 1;
      AddressesMean(conf, q, more[..n]);
      assert (conf + [q] + more)[..|conf| + 1 + n] == conf + [q] + more[..n];
    }
  }

  method GetIpsFromConf(conf: seq<Quad>) returns (ips: seq<nat>)
    ensures ips == AddressesOf(conf)
  {
    ips := [];
    for i := 0 to |conf|
      invariant ips == AddressesOf(conf[..i])
    {
      assert conf[..i + 1][..i] == conf[..i];
      if IsAddress(conf[i]) { ips := ips + [ToIPv4(conf[i])]; }
    }
    assert conf[..|conf|] == conf;
  }

  /** The step from one address to the next, in 32-bit arithmetic. */
  function Next(last: nat): nat {
    var step := if last % 256 == 254 then 3 else if last % 256 == 255 then 2 else 1;
    (last + step) % ADDRESS_RANGE
  }

  function NextIp(conf: seq<Quad>, subnet: nat): nat {
    var ips := AddressesOf(conf);
    Next(if ips == [] then subnet else ips[|ips| - 1])
  }

  /** Whatever the configuration holds, a new address never ends in .0 or .255. */
  lemma NextIsUsable(conf: seq<Quad>, subnet: nat)
    ensures 1 <= NextIp(conf, subnet) % 256 <= 254
  {
    var ips := AddressesOf(conf);
    NextOctet(if ips == [] then subnet else ips[|ips| - 1]);
  }

  lemma NextOctet(last: nat)
    ensures 1 <= Next(last) % 256 <= 254
  {
    var q, r := last / 256, last % 256;
    var step := if r == 254 then 3 else if r == 255 then 2 else 1;
    assert (last + step) % 256 == if r >= 254 then 1 else r + 1;
    assert (last + step) % ADDRESS_RANGE % 256 == (last + step) % 256;
  }

  /** Reads the configuration, picks the next address and appends the new peer. */
  method AddClient(conf: seq<Quad>, subnet: nat) returns (ip: nat, grown: seq<Quad>)
    ensures ip == NextIp(conf, subnet) && grown == conf + [ToQuad(ip)]
  {
    var ips := GetIpsFromConf(conf);
    var last := if ips == [] then subnet else ips[|ips| - 1];
    ip := Next(last);
    grown := conf + [ToQuad(ip)];
  }

  /** The server configuration after n clients were added to an empty peer list. */
  function Grow(subnet: nat, n: nat): seq<Quad> {
    if n == 0 then [] else Grow(subnet, n - 1) + [ToQuad(NextIp(Grow(subnet, n - 1), subnet))]
  }

  /** The address of the n-th client, counted from 1. */
  function Client(subnet: nat, n: nat): nat
    requires n >= 1
  {
    NextIp(Grow(subnet, n - 1), subnet)
  }

  function Formula(subnet: nat, n: nat): nat
    requires n >= 1
  {
    subnet + 256 * ((n - 1) / 254) + 1 + (n - 1) % 254
  }

  /** Counting on by one in rows of 254. */
  lemma RowStep(k: nat)
    ensures var q, r := k / 254, k % 254;
            (k + 1) / 254 == (if r == 253 then q + 1 else q) && (k + 1) % 254 == (if r == 253 then 0 else r + 1)
  {
    var q, r := k / 254, k % 254;
    assert k + 1 == if r == 253 then 254 * (q + 1) else 254 * q + (r + 1);
  }

  /** The successor of an address whose last octet is 1 + r. */
  lemma NextInRow(row: nat, r: nat)
    requires r < 254
    ensures (256 * row + 1 + r) % 256 == 1 + r
    ensures var next := if r == 253 then 256 * (row + 1) + 1 else 256 * row + 1 + (r + 1);
            next < ADDRESS_RANGE ==> Next(256 * row + 1 + r) == next
  {}

  lemma FormulaNext(subnet: nat, n: nat)
    requires n >= 1 && subnet % 256 == 0 && Formula(subnet, n + 1) < ADDRESS_RANGE
    ensures Next(Formula(subnet, n)) == Formula(subnet, n + 1)
  {
    hide Next;
    var row := subnet / 256 + (n - 1) / 254;
    RowStep(n - 1);
    NextInRow(row, (n - 1) % 254);
    assert Formula(subnet, n) == 256 * row + 1 + (n - 1) % 254;
  }

  lemma {:induction false} FormulaGrows(subnet: nat, n: nat, m: nat)
    requires 1 <= n < m
    ensures Formula(subnet, n) < Formula(subnet, m)
    decreases m
  {
    var a, b, c, d := (n - 1) / 254, (n - 1) % 254, (m - 1) / 254, (m - 1) % 254;
    assert n - 1 == 254 * a + b && m - 1 == 254 * c + d;
  }

  lemma AppendedAddress(conf: seq<Quad>, address: nat)
    requires address < ADDRESS_RANGE
    ensures AddressesOf(conf + [ToQuad(address)]) == AddressesOf(conf) + [address]
  {
    hide ToQuad, ToIPv4, IsAddress;
    QuadRoundTrip(address);
    assert (conf + [ToQuad(address)])[..|conf|] == conf;
  }

  /** Parsing back what was written yields the addresses in the order they were handed out. */
  lemma {:induction false} AllocatedByFormula(subnet: nat, n: nat)
    requires n >= 1 && subnet % 256 == 0 && Formula(subnet, n) < ADDRESS_RANGE
    ensures Client(subnet, n) == Formula(subnet, n)
    ensures AddressesOf(Grow(subnet, n)) == AddressesOf(Grow(subnet, n - 1)) + [Formula(subnet, n)]
  {
    hide Formula, Next, ToQuad, AddressesOf;
    assert AddressesOf([]) == [] by { NoAddresses(); }
    if n > 1 {
      FormulaGrows(subnet, n - 1, n);
      AllocatedByFormula(subnet, n - 1);
      FormulaNext(subnet, n - 1);
    } else {
      FirstAddress(subnet);
    }
    AppendedAddress(Grow(subnet, n - 1), Formula(subnet, n));
  }

  lemma NoAddresses()
    ensures AddressesOf([]) == []
  {}

  lemma FirstAddress(subnet: nat)
    requires subnet % 256 == 0 && Formula(subnet, 1) < ADDRESS_RANGE
    ensures Next(subnet) == Formula(subnet, 1)
  {}

  /** Starting from an empty peer list on a /24 base, the n-th client gets the address of the
      formula until 32 bits run out; so no address ends in .0 or .255 and no two clients of
      the run share one. */
  lemma AddressesAreDistinct(subnet: nat, n: nat, m: nat)
    requires 1 <= n < m && subnet % 256 == 0 && Formula(subnet, m) < ADDRESS_RANGE
    ensures Client(subnet, n) == Formula(subnet, n) && Client(subnet, m) == Formula(subnet, m)
    ensures Client(subnet, n) < Client(subnet, m)
    ensures 1 <= Client(subnet, n) % 256 <= 254 && 1 <= Client(subnet, m) % 256 <= 254
  {
    FormulaGrows(subnet, n, m);
    AllocatedByFormula(subnet, n);
    AllocatedByFormula(subnet, m);
    LastOctet(subnet, n);
    LastOctet(subnet, m);
  }

  lemma LastOctet(subnet: nat, n: nat)
    requires n >= 1 && subnet % 256 == 0
    ensures 1 <= Formula(subnet, n) % 256 <= 254
  {
    var q, r := (n - 1) / 254, (n - 1) % 254;
    assert Formula(subnet, n) == 256 * (subnet / 256 + q) + (1 + r);
  }
}
