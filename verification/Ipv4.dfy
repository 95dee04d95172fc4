/** IPv4 networks as the route layer uses them: aligned address ranges, the mask
    comparison behind `overlaps`, the two halves of a container pool, and the
    validation of a configured pool. Addresses are 32-bit values held as integers;
    masking with a prefix mask clears the low `32 - prefix` bits. */
module Ipv4 {

  const ADDRESS_SPACE: nat := 0x1_0000_0000

  /** `2^k`; a network of prefix `p` holds `Pow2(32 - p)` addresses. */
  function Pow2(k: nat): (r: nat)
    ensures r > 0
  {
    if k == 0 then 1 else 2 * Pow2(k - 1)
  }

  lemma {:induction false} Pow2Values()
    ensures Pow2(8) == 0x100 && Pow2(16) == 0x1_0000 && Pow2(20) == 0x10_0000
    ensures Pow2(24) == 0x100_0000 && Pow2(32) == ADDRESS_SPACE
  {
    assert Pow2(4) == 16;
    assert Pow2(8) == 16 * Pow2(4);
    assert Pow2(12) == 16 * Pow2(8);
    assert Pow2(16) == 16 * Pow2(12);
    assert Pow2(20) == 16 * Pow2(16);
    assert Pow2(24) == 16 * Pow2(20);
    assert Pow2(28) == 16 * Pow2(24);
    assert Pow2(32) == 16 * Pow2(28);
  }

  lemma {:induction false} Pow2Monotone(a: nat, b: nat)
    requires a <= b
    ensures Pow2(a) <= Pow2(b)
  {
    if a < b {
      Pow2Monotone(a, b - 1);
    }
  }

  /** The low `k` bits of `x` are zero. */
  predicate Aligned(x: nat, k: nat) {
    k == 0 || (x % 2 == 0 && Aligned(x / 2, k - 1))
  }

  /** `x` with its low `k` bits cleared. */
  function ClearLow(x: nat, k: nat): nat {
    if k == 0 then x else 2 * ClearLow(x / 2, k - 1)
  }

  lemma {:induction false} ClearLowRange(x: nat, k: nat)
    ensures Aligned(ClearLow(x, k), k)
    ensures ClearLow(x, k) <= x < ClearLow(x, k) + Pow2(k)
  {
    if k > 0 {
      ClearLowRange(x / 2, k - 1);
    }
  }

  /** Clearing the low bits finds the one aligned block that holds `x`. */
  lemma {:induction false} ClearLowUnique(x: nat, k: nat, r: nat)
    requires Aligned(r, k) && r <= x < r + Pow2(k)
    ensures ClearLow(x, k) == r
  {
    if k > 0 {
      ClearLowUnique(x / 2, k - 1, r / 2);
    }
  }

  lemma {:induction false} AlignedWeaker(x: nat, a: nat, b: nat)
    requires a <= b && Aligned(x, b)
    ensures Aligned(x, a)
  {
    if a > 0 {
      AlignedWeaker(x / 2, a - 1, b - 1);
    }
  }

  lemma {:induction false} AlignedPow2(n: nat, k: nat)
    requires k <= n
    ensures Aligned(Pow2(n), k)
  {
    if k > 0 {
      AlignedPow2(n - 1, k - 1);
    }
  }

  lemma {:induction false} AlignedNext(x: nat, k: nat)
    requires Aligned(x, k)
    ensures Aligned(x + Pow2(k), k)
  {
    if k > 0 {
      AlignedNext(x / 2, k - 1);
    }
  }

  /** Aligned points are whole blocks apart. */
  lemma {:induction false} AlignedFits(x: nat, limit: nat, k: nat)
    requires Aligned(x, k) && Aligned(limit, k) && x < limit
    ensures x + Pow2(k) <= limit
  {
    if k > 0 {
      AlignedFits(x / 2, limit / 2, k - 1);
    }
  }

  /** Aligned blocks nest or are disjoint. */
  lemma BlocksNest(x: nat, big: nat, y: nat, small: nat)
    requires small <= big && Aligned(x, big) && Aligned(y, small)
    ensures x <= y < x + Pow2(big) ==> y + Pow2(small) <= x + Pow2(big)
    ensures !(x <= y < x + Pow2(big)) ==> y + Pow2(small) <= x || x + Pow2(big) <= y
  {
    AlignedNext(x, big);
    AlignedWeaker(x, small, big);
    AlignedWeaker(x + Pow2(big), small, big);
    if y < x + Pow2(big) {
      AlignedFits(y, x + Pow2(big), small);
    }
    if y < x {
      AlignedFits(y, x, small);
    }
  }

  /** An address with a prefix length; `Valid` is what `Ipv4Net::new` accepts. */
  datatype Net = Net(addr: nat, prefix: nat) {
    predicate Valid() {
      && prefix <= 32
      && addr < ADDRESS_SPACE
      && Aligned(addr, 32 - prefix)
    }

    function Size(): (r: nat)
      requires prefix <= 32
      ensures r > 0
    {
      Pow2(32 - prefix)
    }

    /** The addresses of the network: one aligned range. */
    predicate Contains(a: nat)
      requires prefix <= 32
    {
      addr <= a < addr + Size()
    }

    /** `Ipv4Net::overlaps`: equal under the shorter of the two masks. */
    predicate Overlaps(other: Net)
      requires prefix <= 32 && other.prefix <= 32
    {
      var shared := if prefix < other.prefix then prefix else other.prefix;
      Masked(addr, shared) == Masked(other.addr, shared)
    }
  }

  /** `addr & prefix_to_mask(prefix)`. */
  function Masked(addr: nat, prefix: nat): nat
    requires prefix <= 32
  {
    ClearLow(addr, 32 - prefix)
  }

  /** A network is exactly the set of addresses that mask to its own address. */
  lemma ContainsIsMaskEquality(net: Net, a: nat)
    requires net.Valid()
    ensures net.Contains(a) <==> Masked(a, net.prefix) == net.addr
  {
    ClearLowRange(a, 32 - net.prefix);
    if net.Contains(a) {
      ClearLowUnique(a, 32 - net.prefix, net.addr);
    }
  }

  /** A network never reaches past the 32-bit address space. */
  lemma NetFitsAddressSpace(net: Net)
    requires net.Valid()
    ensures net.addr + net.Size() <= ADDRESS_SPACE
  {
    Pow2Values();
    AlignedPow2(32, 32 - net.prefix);
    AlignedFits(net.addr, ADDRESS_SPACE, 32 - net.prefix);
  }

  /** The mask test is the semantic one: two networks overlap iff they share an address,
      and then the longer prefix lies wholly inside the shorter. */
  lemma OverlapsIffSharedAddress(x: Net, y: Net)
    requires x.Valid() && y.Valid()
    ensures x.Overlaps(y) <==> exists a: nat :: x.Contains(a) && y.Contains(a)
    ensures x.Overlaps(y) && x.prefix <= y.prefix ==> forall a: nat | y.Contains(a) :: x.Contains(a)
  {
    if x.prefix <= y.prefix {
      OverlapsOrdered(x, y);
    } else {
      OverlapsOrdered(y, x);
    }
  }

  lemma OverlapsOrdered(x: Net, y: Net)
    requires x.Valid() && y.Valid() && x.prefix <= y.prefix
    ensures x.Overlaps(y) <==> x.Contains(y.addr)
    ensures x.Contains(y.addr) ==> forall a: nat | y.Contains(a) :: x.Contains(a)
    ensures x.Overlaps(y) <==> exists a: nat :: x.Contains(a) && y.Contains(a)
  {
    ContainsIsMaskEquality(x, y.addr);
    ContainsIsMaskEquality(x, x.addr);
    forall a: nat | y.Contains(a)
      ensures x.Contains(a) <==> x.Contains(y.addr)
    {
      SameBlock(x, y, a);
    }
    assert y.Contains(y.addr);
  }

  /** Every address of a smaller aligned range masks to the same larger range. */
  lemma SameBlock(x: Net, y: Net, a: nat)
    requires x.Valid() && y.Valid() && x.prefix <= y.prefix && y.Contains(a)
    ensures x.Contains(a) <==> x.Contains(y.addr)
  {
    BlocksNest(x.addr, 32 - x.prefix, y.addr, 32 - y.prefix);
  }

  /** Two networks of the same prefix that share an address are the same network. */
  lemma SamePrefixSameNet(x: Net, y: Net, a: nat)
    requires x.Valid() && y.Valid() && x.prefix == y.prefix
    requires x.Contains(a) && y.Contains(a)
    ensures x == y
  {
    ContainsIsMaskEquality(x, a);
    ContainsIsMaskEquality(y, a);
  }

  type ValidNet = n: Net | n.Valid() witness Net(0, 32)

  /** The three routes the daemon may manage for one container pool. */
  datatype PoolRoutes = PoolRoutes(preferred: ValidNet, lower: ValidNet, upper: ValidNet) {
    function Half(i: nat): (r: ValidNet)
      requires i < 2
    {
      if i == 0 then lower else upper
    }

    predicate Manages(net: Net) {
      net == preferred || net == lower || net == upper
    }
  }

  lemma HalvesAreValid(pool: Net)
    requires pool.Valid() && pool.prefix <= 31
    ensures Net(pool.addr, pool.prefix + 1).Valid()
    ensures Net(pool.addr + Pow2(31 - pool.prefix), pool.prefix + 1).Valid()
  {
    var k := 31 - pool.prefix;
    assert pool.Size() == 2 * Pow2(k);
    AlignedWeaker(pool.addr, k, k + 1);
    AlignedNext(pool.addr, k);
    NetFitsAddressSpace(pool);
  }

  /** `ContainerRoutes::from`: the pool and its two equal halves. */
  function RoutesOf(pool: Net): (r: PoolRoutes)
    requires pool.Valid() && pool.prefix <= 31
    ensures r.preferred == pool
    ensures r.lower.prefix == r.upper.prefix == pool.prefix + 1
    ensures r.lower.addr == pool.addr < r.upper.addr
  {
    HalvesAreValid(pool);
    var half := pool.prefix + 1;
    PoolRoutes(pool, Net(pool.addr, half), Net(pool.addr + Pow2(32 - half), half))
  }

  /** For every aligned pool of prefix at most 31: the halves are valid networks (so the
      upper address does not overflow 32 bits), disjoint, and partition the pool. */
  lemma HalvesPartitionPool(pool: Net)
    requires pool.Valid() && pool.prefix <= 31
    ensures var r := RoutesOf(pool);
      && r.lower.Valid() && r.upper.Valid()
      && !r.lower.Overlaps(r.upper)
      && (forall a: nat :: pool.Contains(a) <==> r.lower.Contains(a) || r.upper.Contains(a))
      && (forall a: nat :: !(r.lower.Contains(a) && r.upper.Contains(a)))
  {
    var r := RoutesOf(pool);
    assert pool.Size() == 2 * Pow2(31 - pool.prefix);
    OverlapsIffSharedAddress(r.lower, r.upper);
  }

  /** A route no more specific than the halves that meets the pool without being managed
      is wider than the preferred route. */
  lemma UnmanagedIsWider(pool: Net, net: Net, a: nat)
    requires pool.Valid() && pool.prefix <= 31 && net.Valid() && net.prefix <= pool.prefix + 1
    requires pool.Contains(a) && net.Contains(a) && !RoutesOf(pool).Manages(net)
    ensures net.prefix < pool.prefix
  {
    HalvesPartitionPool(pool);
    var r := RoutesOf(pool);
    if net.prefix == pool.prefix {
      SamePrefixSameNet(net, pool, a);
      assert false;
    } else if net.prefix == pool.prefix + 1 {
      SamePrefixSameNet(net, if r.lower.Contains(a) then r.lower else r.upper, a);
      assert false;
    }
  }

  // ---- Pool validation -------------------------------------------------------------

  const MIN_PREFIX: nat := 12
  const MAX_PREFIX: nat := 24

  /** `ContainerNetwork::default()`, 172.16.0.0/12. */
  const DEFAULT_POOL: Net := Net(0xAC10_0000, 12)

  const RESERVED_GUEST_NETWORKS: seq<Net> := [Net(0x0A00_0200, 24), Net(0x0A2A_0000, 16), Net(0x0A2B_0000, 16)]

  /** `Ipv4Addr::is_private`: 10/8, 172.16/12 or 192.168/16. */
  predicate IsPrivate(a: nat) {
    || 0x0A00_0000 <= a <= 0x0AFF_FFFF
    || 0xAC10_0000 <= a <= 0xAC1F_FFFF
    || 0xC0A8_0000 <= a <= 0xC0A8_FFFF
  }

  datatype PoolError = PrefixOutOfRange | HostBitsSet(corrected: nat) | NotPrivate | ReservedOverlap(reserved: Net)

  datatype PoolResult = Accepted(pool: Net) | Rejected(error: PoolError)

  /** The first reserved guest network the pool's mask test meets. */
  function FirstReserved(net: Net, reserved: seq<Net>): (r: seq<Net>)
    requires net.prefix <= 32
    requires forall i | 0 <= i < |reserved| :: reserved[i].prefix <= 32
    ensures |r| <= 1
    ensures r == [] <==> forall i | 0 <= i < |reserved| :: !net.Overlaps(reserved[i])
    ensures r != [] ==> r[0] in reserved && net.Overlaps(r[0])
  {
    if reserved == [] then []
    else if net.Overlaps(reserved[0]) then [reserved[0]]
    else
      assert reserved == [reserved[0]] + reserved[1..];
      FirstReserved(net, reserved[1..])
  }

  /** `ContainerNetwork::new`, tests in source order. */
  function NewPool(addr: nat, prefix: nat): (r: PoolResult)
    requires addr < ADDRESS_SPACE
  {
    if !(MIN_PREFIX <= prefix <= MAX_PREFIX) then Rejected(PrefixOutOfRange)
    else if !Aligned(addr, 32 - prefix) then Rejected(HostBitsSet(Masked(addr, prefix)))
    else if !IsPrivate(addr) || !IsPrivate(addr + Pow2(32 - prefix) - 1) then Rejected(NotPrivate)
    else
      var hit := FirstReserved(Net(addr, prefix), RESERVED_GUEST_NETWORKS);
      if hit != [] then Rejected(ReservedOverlap(hit[0])) else Accepted(Net(addr, prefix))
  }

  lemma ReservedAreValid()
    ensures forall i | 0 <= i < |RESERVED_GUEST_NETWORKS| :: RESERVED_GUEST_NETWORKS[i].Valid()
  {
    assert Aligned(0x000A_2A00, 8) && Aligned(0x000A_2B00, 8);
    assert Aligned(0x0A00_0200, 8) && Aligned(0x0A2A_0000, 16) && Aligned(0x0A2B_0000, 16);
  }

  /** Testing only the first and last address decides privacy of the whole pool. */
  lemma EndpointsDecidePrivacy(net: Net)
    requires net.Valid() && MIN_PREFIX <= net.prefix <= MAX_PREFIX
    ensures IsPrivate(net.addr) && IsPrivate(net.addr + net.Size() - 1)
       <==> forall a: nat | net.Contains(a) :: IsPrivate(a)
  {
    Pow2Values();
    Pow2Monotone(32 - net.prefix, 20);
    assert net.Contains(net.addr) && net.Contains(net.addr + net.Size() - 1);
  }

  /** A configured pool is accepted exactly when its prefix is in range, it is aligned, and
      every one of its addresses is private and outside every reserved guest network. */
  lemma PoolAcceptedIff(addr: nat, prefix: nat)
    requires addr < ADDRESS_SPACE
    ensures NewPool(addr, prefix).Accepted? <==>
      && MIN_PREFIX <= prefix <= MAX_PREFIX
      && Net(addr, prefix).Valid()
      && forall a: nat | Net(addr, prefix).Contains(a) ::
           IsPrivate(a) && forall i | 0 <= i < |RESERVED_GUEST_NETWORKS| :: !RESERVED_GUEST_NETWORKS[i].Contains(a)
    ensures NewPool(addr, prefix).Accepted? ==> NewPool(addr, prefix).pool == Net(addr, prefix)
  {
    if MIN_PREFIX <= prefix <= MAX_PREFIX && Net(addr, prefix).Valid() {
      var net := Net(addr, prefix);
      ReservedAreValid();
      EndpointsDecidePrivacy(net);
      forall i | 0 <= i < |RESERVED_GUEST_NETWORKS|
        ensures net.Overlaps(RESERVED_GUEST_NETWORKS[i])
           <==> exists a: nat :: net.Contains(a) && RESERVED_GUEST_NETWORKS[i].Contains(a)
      {
        OverlapsIffSharedAddress(net, RESERVED_GUEST_NETWORKS[i]);
      }
    }
  }

  /** The default pool is one `NewPool` accepts. */
  lemma DefaultPoolIsAccepted()
    ensures DEFAULT_POOL.Valid() && NewPool(DEFAULT_POOL.addr, DEFAULT_POOL.prefix) == Accepted(DEFAULT_POOL)
  {
    Pow2Values();
    ReservedAreValid();
    assert Aligned(0x000A_C100, 8) && Aligned(0x00AC_1000, 12);
    assert Aligned(0xAC10_0000, 20);
    PoolAcceptedIff(DEFAULT_POOL.addr, DEFAULT_POOL.prefix);
  }
}
