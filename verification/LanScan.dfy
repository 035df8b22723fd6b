/**
 Which addresses a machine probes on its local network. An IPv4 address is its four
 bytes, or the number they make in network order.
 */
module LanScan {
  import opened Wrappers
  import opened Streams
  import opened Frames
  import opened Powers

  type IP = p: seq<byte> | |p| == 4 witness [0, 0, 0, 0]

  type Prefix = n: nat | n <= 32

  const MAX_SUBNET_HOSTS := 1022

  datatype Subnet = Subnet(base: IP, ones: Prefix)

  /** How many addresses a prefix length leaves. */
  function Count(ones: Prefix): (c: nat)
    ensures c >= 1
  {
    Pow2(32 - ones)
  }

  function Times(q: nat, size: nat): nat {
    q * size
  }

  ghost predicate MultipleOf(n: nat, size: nat) {
    exists q: nat :: Times(q, size) == n
  }

  /** The base is the network address: no host bit is set. */
  ghost predicate Aligned(s: Subnet) {
    MultipleOf(Uint32(s.base), Count(s.ones))
  }

  // ---- Enumerating a subnet -----------------------------------------------------------------------

  /** The conversion to uint32. */
  function ToUint32(n: nat): (r: nat)
    ensures r < 0x1_0000_0000
    ensures n < 0x1_0000_0000 ==> r == n
  {
    n % 0x1_0000_0000
  }

  /** The i-th address from a base, in 32-bit arithmetic as the code has it. */
  function HostAt(base: nat, i: nat): IP {
    PutUint32(ToUint32(base + ToUint32(i)))
  }

  function HostCount(ones: Prefix): nat {
    if Count(ones) <= 2 then 0 else Count(ones) - 2
  }

  /** The list hostsIn builds. */
  ghost predicate Enumerated(subnet: Subnet, out: seq<IP>) {
    && |out| == HostCount(subnet.ones)
    && forall k :: 0 <= k < |out| ==> out[k] == HostAt(Uint32(subnet.base), k + 1)
  }

  /** hostsIn: for a network address, exactly the addresses strictly between network and broadcast. */
  method HostsIn(subnet: Subnet) returns (out: seq<IP>)
    ensures Enumerated(subnet, out)
    ensures Aligned(subnet) ==> forall ip: IP :: ip in out <==> IsHost(subnet, Uint32(ip))
  {
    var count := Count(subnet.ones);
    out := [];
    if count <= 2 {
      ExactIfAligned(subnet, out);
      return;
    }
    var base := Uint32(subnet.base);
    var i := 1;
    while i < count - 1
      invariant 1 <= i <= count - 1 && |out| == i - 1
      invariant forall k :: 0 <= k < |out| ==> out[k] == HostAt(base, k + 1)
    {
      out := out + [HostAt(base, i)];
      i := i + 1;
    }
    ExactIfAligned(subnet, out);
  }

  lemma ExactIfAligned(subnet: Subnet, out: seq<IP>)
    requires Enumerated(subnet, out)
    ensures Aligned(subnet) ==> forall ip: IP :: ip in out <==> IsHost(subnet, Uint32(ip))
  {
    if Aligned(subnet) {
      forall ip: IP
        ensures ip in out <==> IsHost(subnet, Uint32(ip))
      {
        HostsAreExact(subnet, out, ip);
      }
    }
  }

  /** The addresses strictly between network and broadcast, as numbers. */
  predicate IsHost(subnet: Subnet, n: nat) {
    Uint32(subnet.base) < n < Uint32(subnet.base) + Count(subnet.ones) - 1
  }

  lemma AlignedBelow(base: nat, size: nat, q: nat)
    requires size > 0 && MultipleOf(base, size) && base < Times(q, size)
    ensures base + size <= Times(q, size)
  {
    var b: nat :| Times(b, size) == base;
    if q <= b {
      MulMono(q, b, size);
    } else {
      MulMono(b + 1, q, size);
      assert (b + 1) * size == b * size + size;
    }
  }

  lemma MulMono(a: nat, b: nat, c: nat)
    requires a <= b
    ensures a * c <= b * c
  {}

  lemma Pow2Is32()
    ensures Pow2(32) == 0x1_0000_0000
  {
    assert Pow2(8) == 256;
    Pow2Adds(8, 8);
    Pow2Adds(16, 16);
  }

  /** A block of an aligned subnet ends within the address space. */
  lemma NoWrap(subnet: Subnet)
    requires Aligned(subnet)
    ensures Uint32(subnet.base) + Count(subnet.ones) <= 0x1_0000_0000
  {
    Pow2Is32();
    Pow2Adds(subnet.ones, 32 - subnet.ones);
    assert Times(Pow2(subnet.ones), Count(subnet.ones)) == 0x1_0000_0000;
    AlignedBelow(Uint32(subnet.base), Count(subnet.ones), Pow2(subnet.ones));
  }

  lemma InRange(base: nat, i: nat)
    requires base + i < 0x1_0000_0000
    ensures HostAt(base, i) == PutUint32(base + i)
  {}

  lemma HostNumber(subnet: Subnet, i: nat)
    requires Aligned(subnet) && i < Count(subnet.ones)
    ensures Uint32(HostAt(Uint32(subnet.base), i)) == Uint32(subnet.base) + i
  {
    NoWrap(subnet);
    InRange(Uint32(subnet.base), i);
    Uint32RoundTrip(Uint32(subnet.base) + i);
  }

  /**
   For an aligned subnet nothing wraps around 32 bits: exactly the addresses strictly
   between network and broadcast are enumerated ...
   */
  lemma HostsAreExact(subnet: Subnet, out: seq<IP>, ip: IP)
    requires Aligned(subnet) && Enumerated(subnet, out)
    ensures ip in out <==> IsHost(subnet, Uint32(ip))
  {
    if IsHost(subnet, Uint32(ip)) {
      var k := Uint32(ip) - Uint32(subnet.base) - 1;
      HostNumber(subnet, k + 1);
      PutUint32RoundTrip(ip);
      PutUint32RoundTrip(out[k]);
      assert out[k] == ip;
    }
    if ip in out {
      var k :| 0 <= k < |out| && out[k] == ip;
      HostNumber(subnet, k + 1);
    }
  }

  /** ... each once, in increasing order. */
  lemma HostsIncrease(subnet: Subnet, out: seq<IP>, j: nat, k: nat)
    requires Aligned(subnet) && Enumerated(subnet, out) && j < k < |out|
    ensures Less(out[j], out[k])
  {
    HostNumber(subnet, j + 1);
    HostNumber(subnet, k + 1);
    LessIsNumeric(out[j], out[k]);
  }

  // ---- The order -------------------------------------------------------------------------------------

  /** Byte by byte from the left. */
  predicate Less(a: IP, b: IP) {
    LessFrom(a, b, 0)
  }

  predicate LessFrom(a: IP, b: IP, i: nat)
    requires i <= 4
    decreases 4 - i
  {
    if i == 4 then false
    else if a[i] != b[i] then a[i] < b[i]
    else LessFrom(a, b, i + 1)
  }

  /** ipLess on two IPv4 addresses. */
  method IpLess(a: IP, b: IP) returns (less: bool)
    ensures less <==> Less(a, b)
    ensures less <==> Uint32(a) < Uint32(b)
  {
    LessIsNumeric(a, b);
    for i := 0 to 4
      invariant Less(a, b) == LessFrom(a, b, i)
    {
      if a[i] != b[i] {
        return a[i] < b[i];
      }
    }
    less := false;
  }

  /** The order is the numeric order of the packed bytes. */
  lemma LessIsNumeric(a: IP, b: IP)
    ensures Less(a, b) <==> Uint32(a) < Uint32(b)
  {
    assert LessFrom(a, b, 4) == false;
    assert LessFrom(a, b, 3) == (a[3] < b[3]);
    assert LessFrom(a, b, 2) == (a[2] as int * 256 + a[3] < b[2] as int * 256 + b[3]);
    assert LessFrom(a, b, 1) == (a[1] as int * 0x1_0000 + a[2] as int * 256 + a[3]
                                 < b[1] as int * 0x1_0000 + b[2] as int * 256 + b[3]);
  }

  /** So it is a strict total order, and sorting by it is well defined. */
  lemma StrictTotalOrder(a: IP, b: IP, c: IP)
    ensures !Less(a, a)
    ensures Less(a, b) && Less(b, c) ==> Less(a, c)
    ensures a == b || Less(a, b) || Less(b, a)
    ensures Less(a, b) ==> !Less(b, a)
  {
    LessIsNumeric(a, a);
    LessIsNumeric(a, b);
    LessIsNumeric(b, c);
    LessIsNumeric(a, c);
    LessIsNumeric(b, a);
    PutUint32RoundTrip(a);
    PutUint32RoundTrip(b);
  }

  // ---- Which subnets are scanned ------------------------------------------------------------------------

  /** net.IP.IsPrivate for IPv4: 10/8, 172.16/12, 192.168/16. */
  predicate IsPrivate(ip: IP) {
    || ip[0] == 10
    || (ip[0] == 172 && 16 <= ip[1] < 32)
    || (ip[0] == 192 && ip[1] == 168)
  }

  /** An address of an interface: the IPv4 part if there is one, and the mask if it is a 32-bit one. */
  datatype Address = Address(ip: Option<IP>, ones: Option<Prefix>)

  datatype Interface = Interface(up: bool, loopback: bool, addresses: seq<Address>)

  /** ip4.Mask(mask). */
  function Masked(ip: IP, ones: Prefix): IP {
    PutUint32(AlignDown(Uint32(ip), Count(ones)))
  }

  function AlignDown(n: nat, size: nat): (r: nat)
    requires size > 0
    ensures r <= n < r + size && MultipleOf(r, size)
  {
    assert n / size * size + n % size == n;
    assert Times(n / size, size) == n - n % size;
    n - n % size
  }

  predicate Scanned(a: Address) {
    a.ip.Some? && IsPrivate(a.ip.value) && a.ones.Some? && Count(a.ones.value) - 2 <= MAX_SUBNET_HOSTS
  }

  function SubnetOf(a: Address): Subnet
    requires Scanned(a)
  {
    Subnet(Masked(a.ip.value, a.ones.value), a.ones.value)
  }

  /** localIPv4Subnets, the subnets; an interface whose addresses cannot be listed has none here. */
  method LocalSubnets(interfaces: seq<Interface>) returns (subnets: seq<Subnet>)
    ensures forall s :: s in subnets ==>
              exists f, a :: f in interfaces && f.up && !f.loopback && a in f.addresses && Scanned(a) && s == SubnetOf(a)
    ensures forall f, a :: f in interfaces && f.up && !f.loopback && a in f.addresses && Scanned(a) ==> SubnetOf(a) in subnets
  {
    subnets := [];
    for i := 0 to |interfaces|
      invariant forall s :: s in subnets ==>
        exists f, a :: f in interfaces && f.up && !f.loopback && a in f.addresses && Scanned(a) && s == SubnetOf(a)
      invariant forall f, a :: f in interfaces[..i] && f.up && !f.loopback && a in f.addresses && Scanned(a) ==>
        SubnetOf(a) in subnets
    {
      if !interfaces[i].up || interfaces[i].loopback {
        continue;
      }
      var found := AddressSubnets(interfaces[i].addresses);
      subnets := subnets + found;
    }
  }

  method AddressSubnets(addresses: seq<Address>) returns (subnets: seq<Subnet>)
    ensures forall s :: s in subnets ==> exists a :: a in addresses && Scanned(a) && s == SubnetOf(a)
    ensures forall a :: a in addresses && Scanned(a) ==> SubnetOf(a) in subnets
  {
    subnets := [];
    for i := 0 to |addresses|
      invariant forall s :: s in subnets ==> exists a :: a in addresses && Scanned(a) && s == SubnetOf(a)
      invariant forall a :: a in addresses[..i] && Scanned(a) ==> SubnetOf(a) in subnets
    {
      var a := addresses[i];
      if a.ip.None? || !IsPrivate(a.ip.value) {
        continue;
      }
      if a.ones.None? || Count(a.ones.value) - 2 > MAX_SUBNET_HOSTS {
        continue;
      }
      subnets := subnets + [SubnetOf(a)];
    }
  }

  /** Every scanned subnet is aligned, holds the interface's own address, and has at most 1022 hosts to probe. */
  lemma ScannedSubnet(a: Address)
    requires Scanned(a)
    ensures var s := SubnetOf(a);
            && Aligned(s)
            && s.ones == a.ones.value && Count(s.ones) == Pow2(32 - s.ones)
            && Uint32(s.base) <= Uint32(a.ip.value) < Uint32(s.base) + Pow2(32 - s.ones)
            && Pow2(32 - s.ones) - 2 <= 1022
  {
    var n, size := Uint32(a.ip.value), Count(a.ones.value);
    Uint32RoundTrip(AlignDown(n, size));
  }

  // ---- Nothing public is probed ------------------------------------------------------------------------------

  /** An aligned block of at most 1024 addresses lies on one side of any multiple of 1024. */
  lemma BlockBelow(base: nat, size: nat, rest: nat, k: nat)
    requires size > 0 && MultipleOf(base, size) && size * rest == 1024 && base < k * 1024
    ensures base + size <= k * 1024
  {
    assert Times(k * rest, size) == k * (size * rest);
    AlignedBelow(base, size, k * rest);
  }

  lemma PrivateRanges(ip: IP)
    ensures IsPrivate(ip) <==>
              || 0x0A00_0000 <= Uint32(ip) < 0x0B00_0000
              || 0xAC10_0000 <= Uint32(ip) < 0xAC20_0000
              || 0xC0A8_0000 <= Uint32(ip) < 0xC0A9_0000
  {}

  /** Every address that is probed is a private one. */
  lemma OnlyPrivateProbed(a: Address, ip: IP)
    ensures Scanned(a) && IsHost(SubnetOf(a), Uint32(ip)) ==> IsPrivate(ip)
  {
    if Scanned(a) && IsHost(SubnetOf(a), Uint32(ip)) {
      ProbedIsPrivate(a, ip);
    }
  }

  lemma ProbedIsPrivate(a: Address, ip: IP)
    requires Scanned(a) && IsHost(SubnetOf(a), Uint32(ip))
    ensures IsPrivate(ip)
  {
    ScannedSubnet(a);
    SmallBlocks(a.ones.value);
    SameSide(Uint32(SubnetOf(a).base), Count(a.ones.value), Pow2(10 - (32 - a.ones.value)), Uint32(a.ip.value), Uint32(ip));
    PrivateRanges(a.ip.value);
    PrivateRanges(ip);
  }

  /** Two numbers of one block are in the same private range, or in none. */
  lemma SameSide(base: nat, size: nat, rest: nat, n: nat, m: nat)
    requires size > 0 && MultipleOf(base, size) && size * rest == 1024
    requires base <= n < base + size && base <= m < base + size
    ensures 0x0A00_0000 <= n < 0x0B00_0000 ==> 0x0A00_0000 <= m < 0x0B00_0000
    ensures 0xAC10_0000 <= n < 0xAC20_0000 ==> 0xAC10_0000 <= m < 0xAC20_0000
    ensures 0xC0A8_0000 <= n < 0xC0A9_0000 ==> 0xC0A8_0000 <= m < 0xC0A9_0000
  {
    BlockWithin(base, size, rest, n, m, 0x2_8000, 0x2_C000);
    BlockWithin(base, size, rest, n, m, 0x2B_0400, 0x2B_0800);
    BlockWithin(base, size, rest, n, m, 0x30_2A00, 0x30_2A40);
  }

  lemma BlockWithin(base: nat, size: nat, rest: nat, n: nat, m: nat, low: nat, high: nat)
    requires size > 0 && MultipleOf(base, size) && size * rest == 1024
    requires base <= n < base + size && base <= m < base + size
    ensures low * 1024 <= n < high * 1024 ==> low * 1024 <= m < high * 1024
  {
    if low * 1024 <= n < high * 1024 {
      if base < low * 1024 {
        BlockBelow(base, size, rest, low);
      }
      BlockBelow(base, size, rest, high);
    }
  }

  /** The guard lets through prefixes of length 22 and more only. */
  lemma SmallBlocks(ones: Prefix)
    ensures Count(ones) - 2 <= MAX_SUBNET_HOSTS <==> ones >= 22
    ensures ones >= 22 ==> Count(ones) * Pow2(10 - (32 - ones)) == 1024
  {
    Pow2Is1024();
    if ones >= 22 {
      Pow2Adds(32 - ones, 10 - (32 - ones));
      Pow2Mono(32 - ones, 10);
    } else {
      Pow2Mono(11, 32 - ones);
    }
  }

  lemma Pow2Is1024()
    ensures Pow2(10) == 1024 && Pow2(11) == 2048
  {
    assert Pow2(5) == 32;
    Pow2Adds(5, 5);
  }
}
