/** The pure decisions of the container route reconciler: what one inspection of the
    kernel table means, which mode it implies, and which action it calls for. */
module RoutePlan {
  import opened Wrappers
  import opened Ipv4

  datatype RouteInfo = RouteInfo(ifindex: nat, gateway: bool)

  /** The kernel table: at most one entry per exact network. */
  type Table = map<ValidNet, RouteInfo>

  /** A pool the reconciler may be asked to route; `ContainerNetwork` allows /12 to /24. */
  type Pool = p: Net | p.Valid() && 1 <= p.prefix <= 31 witness Net(0, 31)

  /** `route_matches_bridge`: a direct route on the bridge interface. */
  predicate OnBridge(info: RouteInfo, bridge: nat) {
    info.ifindex == bridge && !info.gateway
  }

  function Direct(bridge: nat): RouteInfo {
    RouteInfo(bridge, false)
  }

  datatype Exact = Missing | Owned | External

  function Classify(t: Table, net: ValidNet, bridge: nat): Exact {
    if net !in t then Missing
    else if OnBridge(t[net], bridge) then Owned
    else External
  }

  datatype Snapshot = Snapshot(preferred: Exact, lower: Exact, upper: Exact) {
    function Half(i: nat): Exact
      requires i < 2
    {
      if i == 0 then lower else upper
    }

    function WithHalf(i: nat, e: Exact): Snapshot
      requires i < 2
    {
      if i == 0 then this.(lower := e) else this.(upper := e)
    }

    predicate BothOwned() {
      lower == Owned && upper == Owned
    }
  }

  function Observe(t: Table, routes: PoolRoutes, bridge: nat): Snapshot {
    Snapshot(Classify(t, routes.preferred, bridge), Classify(t, routes.lower, bridge), Classify(t, routes.upper, bridge))
  }

  datatype Mode = Preferred | SplitFallback

  function InitialMode(s: Snapshot): Mode {
    if s.BothOwned() then SplitFallback
    else if s.preferred == Owned then Preferred
    else if s.preferred == External || s.lower == Owned || s.upper == Owned then SplitFallback
    else Preferred
  }

  datatype Action = Healthy(mode: Mode) | AddPreferred | EnsureSplit | Conflict(half: nat)

  function Plan(mode: Mode, s: Snapshot): (r: Action)
    ensures r.Conflict? ==> r.half < 2 && s.Half(r.half) == External
  {
    if s.lower == External then Conflict(0)
    else if s.upper == External then Conflict(1)
    else if mode == SplitFallback then
      if s.BothOwned() then Healthy(SplitFallback) else EnsureSplit
    else match s.preferred
      case Owned => Healthy(Preferred)
      case External => EnsureSplit
      case Missing => AddPreferred
  }

  // ---- Foreign routes over a custom pool ---------------------------------------------

  datatype RouteEntry = RouteEntry(net: ValidNet, info: RouteInfo)

  /** An entry that a custom pool must not overlap. The default route is never listed. */
  predicate Foreign(net: ValidNet, info: RouteInfo, pool: Pool, bridge: nat)
  {
    && net.prefix != 0
    && net.Overlaps(pool)
    && !(RoutesOf(pool).Manages(net) && OnBridge(info, bridge))
  }

  ghost predicate HasForeign(t: Table, pool: Pool, bridge: nat) {
    exists net | net in t :: Foreign(net, t[net], pool, bridge)
  }

  predicate Listed(e: RouteEntry, pool: Pool) {
    e.net.prefix != 0 && e.net.Overlaps(pool)
  }

  /** `external_overlap`: the first listed entry that is not one of our own routes. */
  function ExternalOverlap(entries: seq<RouteEntry>, pool: Pool, bridge: nat): (r: Option<Net>)
  {
    if entries == [] then None
    else
      var e := entries[0];
      if !e.net.Overlaps(pool) || (RoutesOf(pool).Manages(e.net) && OnBridge(e.info, bridge))
      then ExternalOverlap(entries[1..], pool, bridge)
      else Some(e.net)
  }

  /** The listing `arcbox_route::overlapping` returns for one table. */
  ghost predicate Dump(entries: seq<RouteEntry>, t: Table, pool: Pool) {
    && (forall e | e in entries :: Listed(e, pool) && e.net in t && t[e.net] == e.info)
    && (forall net | net in t && Listed(RouteEntry(net, t[net]), pool) :: RouteEntry(net, t[net]) in entries)
  }

  /** Whatever order the table is dumped in, the scan reports an overlap exactly when the
      table holds a foreign one, and what it reports is foreign. */
  lemma OverlapScanIsExact(entries: seq<RouteEntry>, t: Table, pool: Pool, bridge: nat)
    requires Dump(entries, t, pool)
    ensures ExternalOverlap(entries, pool, bridge).None? <==> !HasForeign(t, pool, bridge)
    ensures ExternalOverlap(entries, pool, bridge).Some? ==>
      var net := ExternalOverlap(entries, pool, bridge).value;
      net in t && Foreign(net, t[net], pool, bridge)
  {
    var r := ExternalOverlap(entries, pool, bridge);
    ScanFinds(entries, pool, bridge);
    if r.None? {
      forall net | net in t ensures !Foreign(net, t[net], pool, bridge) {
        assert Listed(RouteEntry(net, t[net]), pool) ==> RouteEntry(net, t[net]) in entries;
      }
    }
  }

  lemma {:induction false} ScanFinds(entries: seq<RouteEntry>, pool: Pool, bridge: nat)
    requires forall e | e in entries :: Listed(e, pool)
    ensures ExternalOverlap(entries, pool, bridge).None? ==>
      forall e | e in entries :: !Foreign(e.net, e.info, pool, bridge)
    ensures ExternalOverlap(entries, pool, bridge).Some? ==>
      exists e | e in entries :: e.net == ExternalOverlap(entries, pool, bridge).value && Foreign(e.net, e.info, pool, bridge)
  {
    if entries != [] {
      var e, rest := entries[0], entries[1..];
      assert Listed(e, pool);
      if Foreign(e.net, e.info, pool, bridge) {
        assert ExternalOverlap(entries, pool, bridge) == Some(e.net);
      } else {
        assert ExternalOverlap(entries, pool, bridge) == ExternalOverlap(rest, pool, bridge);
        assert forall x :: x in entries <==> x == e || x in rest;
        ScanFinds(rest, pool, bridge);
      }
    }
  }

  /** For a custom pool, an overlap check that finds nothing leaves no managed route external. */
  lemma NoOverlapMeansNoExternal(t: Table, pool: Pool, bridge: nat)
    requires !HasForeign(t, pool, bridge)
    ensures var s := Observe(t, RoutesOf(pool), bridge);
      s.preferred != External && s.lower != External && s.upper != External
  {
    var r := RoutesOf(pool);
    forall net | net in t && r.Manages(net) ensures OnBridge(t[net], bridge) {
      OverlapsIffSharedAddress(net, pool);
      assert net.Contains(net.addr) && pool.Contains(net.addr);
      assert !Foreign(net, t[net], pool, bridge);
    }
  }

  // ---- One undisturbed reconciliation -------------------------------------------------

  datatype Settled = Settled(mode: Mode, table: Table)

  function WithMissing(t: Table, net: ValidNet, bridge: nat): Table
  {
    if net in t then t else t[net := Direct(bridge)]
  }

  /** What carrying out one action reaches. */
  function Act(pool: Pool, action: Action, t: Table, bridge: nat): Option<Settled> {
    match action
    case Conflict(_) => None
    case Healthy(m) => Some(Settled(m, t))
    case AddPreferred => Some(Settled(Preferred, t[pool := Direct(bridge)]))
    case EnsureSplit =>
      Some(Settled(SplitFallback, WithMissing(WithMissing(t, RoutesOf(pool).lower, bridge), RoutesOf(pool).upper, bridge)))
  }

  /** What a reconciliation reaches when the table changes only by its own calls and every
      call is answered. `None` is an error return, which leaves the table as it was. */
  ghost function Settle(pool: Pool, mode: Mode, t: Table, bridge: nat): Option<Settled> {
    if pool != DEFAULT_POOL && (HasForeign(t, pool, bridge) || Classify(t, pool, bridge) == External) then None
    else Act(pool, Plan(mode, Observe(t, RoutesOf(pool), bridge)), t, bridge)
  }

  /** `initialize_route_for_bridge_with_network`, undisturbed. */
  ghost function Initialize(pool: Pool, t: Table, bridge: nat): Option<Settled> {
    Settle(pool, InitialMode(Observe(t, RoutesOf(pool), bridge)), t, bridge)
  }

  /** The table only gains direct bridge routes for managed networks that had no entry. */
  ghost predicate OnlyGains(t: Table, t': Table, pool: Pool, bridge: nat) {
    && (forall net | net in t :: net in t' && t'[net] == t[net])
    && (forall net | net in t' && net !in t :: RoutesOf(pool).Manages(net) && t'[net] == Direct(bridge))
  }

  lemma MissingIsGained(t: Table, net: ValidNet, pool: Pool, bridge: nat)
    requires RoutesOf(pool).Manages(net)
    ensures OnlyGains(t, WithMissing(t, net, bridge), pool, bridge)
  {
  }

  lemma GainsCompose(t: Table, u: Table, w: Table, pool: Pool, bridge: nat)
    requires OnlyGains(t, u, pool, bridge) && OnlyGains(u, w, pool, bridge)
    ensures OnlyGains(t, w, pool, bridge)
  {
  }

  lemma SettleKeepsEveryEntry(pool: Pool, mode: Mode, t: Table, bridge: nat)
    requires Settle(pool, mode, t, bridge).Some?
    ensures OnlyGains(t, Settle(pool, mode, t, bridge).value.table, pool, bridge)
  {
    var action := Plan(mode, Observe(t, RoutesOf(pool), bridge));
    GainsOfShape(pool, t, bridge);
    if action.AddPreferred? {
      assert pool !in t;
    }
  }

  lemma GainsOfShape(pool: Pool, t: Table, bridge: nat)
    ensures OnlyGains(t, t, pool, bridge) && OnlyGains(t, WithMissing(t, pool, bridge), pool, bridge)
    ensures OnlyGains(t, WithMissing(WithMissing(t, RoutesOf(pool).lower, bridge), RoutesOf(pool).upper, bridge), pool, bridge)
  {
    var r := RoutesOf(pool);
    var u := WithMissing(t, r.lower, bridge);
    MissingIsGained(t, r.lower, pool, bridge);
    MissingIsGained(u, r.upper, pool, bridge);
    GainsCompose(t, u, WithMissing(u, r.upper, bridge), pool, bridge);
    MissingIsGained(t, pool, pool, bridge);
  }

  /** Exactly when undisturbed initialization succeeds: default pool, no half is foreign;
      custom pool, no foreign route overlaps it. */
  lemma InitializeSucceedsIff(pool: Pool, t: Table, bridge: nat)
    ensures pool == DEFAULT_POOL ==> (Initialize(pool, t, bridge).Some? <==>
      Classify(t, RoutesOf(pool).lower, bridge) != External && Classify(t, RoutesOf(pool).upper, bridge) != External)
    ensures pool != DEFAULT_POOL ==> (Initialize(pool, t, bridge).Some? <==> !HasForeign(t, pool, bridge))
  {
    if pool != DEFAULT_POOL && !HasForeign(t, pool, bridge) {
      NoOverlapMeansNoExternal(t, pool, bridge);
    }
  }

  /** Nothing managed in the table yet, and nothing in the way: exactly the preferred route
      is installed. */
  lemma FreshTableGetsPreferred(pool: Pool, t: Table, bridge: nat)
    requires forall net | net in t :: !RoutesOf(pool).Manages(net)
    requires pool != DEFAULT_POOL ==> !HasForeign(t, pool, bridge)
    ensures Initialize(pool, t, bridge) == Some(Settled(Preferred, t[pool := Direct(bridge)]))
  {
    assert RoutesOf(pool).Manages(pool) && RoutesOf(pool).Manages(RoutesOf(pool).lower) && RoutesOf(pool).Manages(RoutesOf(pool).upper);
  }

  // ---- Longest-prefix match ------------------------------------------------------------

  /** The entry the kernel uses for address `a`. */
  ghost predicate LongestMatch(t: Table, a: nat, net: ValidNet) {
    && net in t && net.Contains(a)
    && forall other | other in t && other.Contains(a) :: other.prefix <= net.prefix
  }

  /** A finite table has a longest match for every address some entry contains. */
  lemma {:induction false} LongestMatchExists(t: Table, a: nat, net: ValidNet)
    requires net in t && net.Contains(a)
    ensures exists best :: LongestMatch(t, a, best)
    decreases 32 - net.prefix
  {
    if !LongestMatch(t, a, net) {
      var other :| other in t && other.Contains(a) && other.prefix > net.prefix;
      LongestMatchExists(t, a, other);
    }
  }

  /** Routes other than ours that a pool address could match instead. */
  ghost predicate Quieter(t: Table, pool: Pool) {
    forall net | net in t && !RoutesOf(pool).Manages(net) && net.Overlaps(pool) :: net.prefix <= pool.prefix + 1
  }

  ghost predicate Served(t: Table, pool: Pool, bridge: nat) {
    forall a: nat | pool.Contains(a) ::
      && (exists net :: LongestMatch(t, a, net))
      && forall net | LongestMatch(t, a, net) :: OnBridge(t[net], bridge)
  }

  /** What makes an address of the pool leave through the bridge. */
  lemma AddressServed(t: Table, pool: Pool, bridge: nat, a: nat)
    requires pool.Contains(a) && Quieter(t, pool)
    requires forall i | 0 <= i < 2 :: Classify(t, RoutesOf(pool).Half(i), bridge) != External
    requires Classify(t, pool, bridge) == Owned || Observe(t, RoutesOf(pool), bridge).BothOwned()
    ensures exists net :: LongestMatch(t, a, net)
    ensures forall net | LongestMatch(t, a, net) :: OnBridge(t[net], bridge)
  {
    HalvesPartitionPool(pool);
    var r := RoutesOf(pool);
    assert r.Half(0) == r.lower && r.Half(1) == r.upper;
    var ours := if Classify(t, pool, bridge) == Owned then pool else if r.lower.Contains(a) then r.lower else r.upper;
    assert ours in t && ours.Contains(a) && OnBridge(t[ours], bridge);
    LongestMatchExists(t, a, ours);
    forall net: ValidNet | LongestMatch(t, a, net) ensures OnBridge(t[net], bridge) {
      assert ours.prefix <= net.prefix;
      if !r.Manages(net) {
        OverlapsIffSharedAddress(net, pool);
        UnmanagedIsWider(pool, net, a);
        assert false;
      } else if net == pool {
        if Classify(t, pool, bridge) != Owned { assert false; }
      }
    }
  }

  /** After a successful undisturbed reconciliation every pool address leaves through the
      bridge: for the default pool against any other routes no more specific than the halves,
      for a custom pool against the whole table. */
  lemma SettledPoolIsServed(pool: Pool, mode: Mode, t: Table, bridge: nat)
    requires Settle(pool, mode, t, bridge).Some?
    requires pool == DEFAULT_POOL ==> Quieter(t, pool)
    ensures Served(Settle(pool, mode, t, bridge).value.table, pool, bridge)
  {
    var t' := Settle(pool, mode, t, bridge).value.table;
    HalvesPartitionPool(pool);
    SettleKeepsEveryEntry(pool, mode, t, bridge);
    if pool != DEFAULT_POOL {
      NoOverlapMeansNoExternal(t, pool, bridge);
      forall net | net in t' && !RoutesOf(pool).Manages(net) && net.Overlaps(pool) ensures net.prefix <= pool.prefix + 1 {
        assert net in t && !Foreign(net, t[net], pool, bridge);
      }
    }
    forall a: nat | pool.Contains(a)
      ensures exists net :: LongestMatch(t', a, net)
      ensures forall net | LongestMatch(t', a, net) :: OnBridge(t'[net], bridge)
    {
      AddressServed(t', pool, bridge, a);
    }
  }

  // ---- Idempotence and restart ---------------------------------------------------------

  lemma SettledIsHealthy(pool: Pool, mode: Mode, t: Table, bridge: nat)
    requires Settle(pool, mode, t, bridge).Some?
    ensures var s := Settle(pool, mode, t, bridge).value;
      var o := Observe(s.table, RoutesOf(pool), bridge);
      && o.lower != External && o.upper != External
      && (s.mode == Preferred ==> o.preferred == Owned)
      && (s.mode == SplitFallback ==> o.BothOwned())
      && (pool != DEFAULT_POOL ==> !HasForeign(s.table, pool, bridge))
  {
    HalvesPartitionPool(pool);
    SettleKeepsEveryEntry(pool, mode, t, bridge);
    if pool != DEFAULT_POOL {
      NoOverlapMeansNoExternal(t, pool, bridge);
      var t' := Settle(pool, mode, t, bridge).value.table;
      forall net | net in t' ensures !Foreign(net, t'[net], pool, bridge) {
        assert net in t ==> !Foreign(net, t[net], pool, bridge);
      }
    }
  }

  /** Reconciling again in the reached mode changes nothing. */
  lemma SettleIsIdempotent(pool: Pool, mode: Mode, t: Table, bridge: nat)
    requires Settle(pool, mode, t, bridge).Some?
    ensures var s := Settle(pool, mode, t, bridge).value;
      Settle(pool, s.mode, s.table, bridge) == Some(s)
  {
    SettledIsHealthy(pool, mode, t, bridge);
  }

  /** A daemon restart re-derives the mode from the table alone. It picks the mode that was
      running, and changes nothing, except when preferred mode ran, unblocked, over a table
      whose halves are both owned as well. */
  lemma RestartKeepsModeIff(pool: Pool, mode: Mode, t: Table, bridge: nat)
    requires Settle(pool, mode, t, bridge).Some?
    ensures var s := Settle(pool, mode, t, bridge).value;
      Initialize(pool, s.table, bridge) == Some(s) <==>
      var o := Observe(t, RoutesOf(pool), bridge);
      !(mode == Preferred && o.preferred != External && o.BothOwned())
  {
    var s := Settle(pool, mode, t, bridge).value;
    var before, after := Observe(t, RoutesOf(pool), bridge), Observe(s.table, RoutesOf(pool), bridge);
    SettledIsHealthy(pool, mode, t, bridge);
    SettleIsIdempotent(pool, mode, t, bridge);
    assert InitialMode(after) == s.mode <==> !(s.mode == Preferred && after.BothOwned());
    assert s.mode == Preferred && after.BothOwned() <==> mode == Preferred && before.preferred != External && before.BothOwned();
    if InitialMode(after) == s.mode {
      assert Initialize(pool, s.table, bridge) == Some(s);
    } else {
      assert Initialize(pool, s.table, bridge).value.mode == SplitFallback;
    }
  }

  /** Initialization is restart-stable on every table. */
  lemma InitializeIsRestartStable(pool: Pool, t: Table, bridge: nat)
    requires Initialize(pool, t, bridge).Some?
    ensures var s := Initialize(pool, t, bridge).value;
      Initialize(pool, s.table, bridge) == Some(s)
  {
    RestartKeepsModeIff(pool, InitialMode(Observe(t, RoutesOf(pool), bridge)), t, bridge);
  }

  /** The mode a successful initialization reports can be read off the table it leaves: split
      exactly when both halves are there. */
  lemma InitializedModeIsVisible(pool: Pool, t: Table, bridge: nat)
    requires Initialize(pool, t, bridge).Some?
    ensures var s := Initialize(pool, t, bridge).value;
      s.mode == SplitFallback <==> Observe(s.table, RoutesOf(pool), bridge).BothOwned()
  {
    var mode := InitialMode(Observe(t, RoutesOf(pool), bridge));
    SettledIsHealthy(pool, mode, t, bridge);
    RestartKeepsModeIff(pool, mode, t, bridge);
  }

  /** A daemon that dies between the two adds of a split leaves the lower half alone. The
      next initialization completes that very split exactly when the pool's own route is not
      ours or the upper half was there already. */
  lemma CutSplitIsCompletedIff(pool: Pool, t: Table, bridge: nat)
    requires Settle(pool, SplitFallback, t, bridge).Some?
    ensures Initialize(pool, WithMissing(t, RoutesOf(pool).lower, bridge), bridge) == Settle(pool, SplitFallback, t, bridge) <==>
      Classify(t, pool, bridge) != Owned || Classify(t, RoutesOf(pool).upper, bridge) == Owned
  {
    var r := RoutesOf(pool);
    var cut := WithMissing(t, r.lower, bridge);
    var whole := WithMissing(cut, r.upper, bridge);
    var o := Observe(cut, r, bridge);
    assert o == Observe(t, r, bridge).(lower := Owned);
    MissingIsGained(t, r.lower, pool, bridge);
    if pool != DEFAULT_POOL {
      GainsAreNotForeign(t, cut, pool, bridge);
    }
    assert Settle(pool, SplitFallback, t, bridge) == Some(Settled(SplitFallback, whole));
    if InitialMode(o) == SplitFallback {
      assert Initialize(pool, cut, bridge) == Some(Settled(SplitFallback, whole));
    }
  }

  /** Routes of our own bring nothing foreign into the table. */
  lemma GainsAreNotForeign(t: Table, t': Table, pool: Pool, bridge: nat)
    requires OnlyGains(t, t', pool, bridge)
    ensures HasForeign(t, pool, bridge) <==> HasForeign(t', pool, bridge)
  {
    if HasForeign(t, pool, bridge) {
      var net :| net in t && Foreign(net, t[net], pool, bridge);
      assert net in t' && Foreign(net, t'[net], pool, bridge);
    }
  }

  /** Initialization asks for the preferred route exactly when the table shows none of the
      three managed routes. */
  lemma PreferredAskedIff(s: Snapshot)
    ensures Plan(InitialMode(s), s) == AddPreferred <==> s == Snapshot(Missing, Missing, Missing)
  {
  }
}
