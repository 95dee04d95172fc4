/** The route reconciler against a kernel table that other actors change at any time.

    `Kernel.Await` stands at the start of every helper call and every inspection, where the
    source awaits: any change of the table and of the bridge interface may happen there.
    `log` records each call with the table before and after it, so a property of every
    logged step also covers a call that was cancelled part way. */
module RouteReconciler {
  import opened Wrappers
  import opened Ipv4
  import opened RoutePlan

  datatype RouteError = BridgeNotReady | HelperUnavailable | RouteFailed | RouteConflict(net: Net) | RouteOverlap(net: Net)

  /** How adding the preferred route ended. */
  datatype AddOutcome =
    | Added
    | LostRace
    | RolledBack(error: RouteError)
    | RollbackFailed
    | AddFailed(error: RouteError)

  datatype Call = Inspect | Add(net: Net) | Remove(net: Net)

  /** One answered call; `bridge` is the interface index the call resolved. */
  datatype Step = Step(call: Call, bridge: Option<nat>, before: Table, after: Table)

  /** No entry is changed, and none deleted but a direct bridge route for the pool itself;
      every entry that appears is a direct bridge route for one of the three managed
      networks. */
  ghost predicate Safe(s: Step, routes: PoolRoutes) {
    && (forall net | net in s.before && !(net in s.after && s.after[net] == s.before[net]) ::
          && net == routes.preferred && net !in s.after
          && s.bridge.Some? && OnBridge(s.before[net], s.bridge.value))
    && (forall net | net in s.after && net !in s.before ::
          routes.Manages(net) && s.bridge.Some? && s.after[net] == Direct(s.bridge.value))
  }

  ghost predicate AllSafe(log: seq<Step>, from: nat, routes: PoolRoutes) {
    forall k | from <= k < |log| :: Safe(log[k], routes)
  }

  /** The step is a delete whose ownership preflight had gone stale. */
  ghost predicate StaleDelete(s: Step, routes: PoolRoutes) {
    && s.call == Remove(routes.preferred)
    && routes.preferred in s.before
    && s.after == s.before - {routes.preferred}
    && !(s.bridge.Some? && OnBridge(s.before[routes.preferred], s.bridge.value))
  }

  ghost predicate AddsPreferred(s: Step, routes: PoolRoutes) {
    routes.preferred !in s.before && routes.preferred in s.after
  }

  /** An undisturbed add of the preferred route finds nothing in its way. */
  ghost predicate AddSucceeds(pool: Pool, t: Table, bridge: Option<nat>) {
    && bridge.Some? && pool !in t
    && (pool != DEFAULT_POOL ==> !HasForeign(t[pool := Direct(bridge.value)], pool, bridge.value))
  }

  /** Some call since `from` left `net` as a direct route on the bridge it resolved. */
  ghost predicate Shown(log: seq<Step>, from: nat, net: ValidNet) {
    exists k | from <= k < |log| :: log[k].bridge.Some? && Classify(log[k].after, net, log[k].bridge.value) == Owned
  }

  lemma ShownExtends(log: seq<Step>, log': seq<Step>, from: nat, net: ValidNet)
    requires log <= log' && Shown(log, from, net)
    ensures Shown(log', from, net)
  {
    var k :| from <= k < |log| && log[k].bridge.Some? && Classify(log[k].after, net, log[k].bridge.value) == Owned;
    assert log'[k] == log[k];
  }

  lemma ShownLast(log: seq<Step>, from: nat, net: ValidNet)
    requires from < |log| && log[|log| - 1].bridge.Some?
    requires Classify(log[|log| - 1].after, net, log[|log| - 1].bridge.value) == Owned
    ensures Shown(log, from, net)
  {
  }

  /** Every half a snapshot calls owned was seen owned since `from`. */
  ghost predicate HalvesShown(log: seq<Step>, from: nat, routes: PoolRoutes, s: Snapshot) {
    forall i | 0 <= i < 2 && s.Half(i) == Owned :: Shown(log, from, routes.Half(i))
  }

  /** The step is no request for the preferred route, and does not bring it about. */
  ghost predicate NotPreferred(s: Step, routes: PoolRoutes) {
    s.call != Add(routes.preferred) && !AddsPreferred(s, routes)
  }

  /** Neither a foreign entry touched nor the preferred route asked for since `from`. */
  ghost predicate SplitOnly(log: seq<Step>, from: nat, routes: PoolRoutes) {
    forall k | from <= k < |log| :: Safe(log[k], routes) && NotPreferred(log[k], routes)
  }

  /** An inspection that shows none of the three managed routes, and for a custom pool
      nothing foreign over it. */
  ghost predicate Unrouted(s: Step, pool: Pool) {
    && s.call == Inspect && s.bridge.Some?
    && Observe(s.after, RoutesOf(pool), s.bridge.value) == Snapshot(Missing, Missing, Missing)
    && (pool != DEFAULT_POOL ==> !HasForeign(s.after, pool, s.bridge.value))
  }

  /** Since `from`, the preferred route was asked for at most in the very first step. */
  ghost predicate AskedFirstOnly(log: seq<Step>, from: nat, routes: PoolRoutes) {
    forall k | from < k < |log| :: NotPreferred(log[k], routes)
  }

  /** The calls of one initialization from `n` on: it looks first, and asks for the preferred
      route exactly when that look shows none of the managed routes, if the helper answers. */
  ghost predicate InitialCalls(log: seq<Step>, n: nat, pool: Pool, reachable: bool) {
    && n < |log| && NotPreferred(log[n], RoutesOf(pool)) && AskedFirstOnly(log, n + 1, RoutesOf(pool))
    && (|log| > n + 1 && !NotPreferred(log[n + 1], RoutesOf(pool)) ==> Unrouted(log[n], pool))
    && (reachable && Unrouted(log[n], pool) ==> AskedAt(log, n + 1, RoutesOf(pool)))
  }

  ghost predicate AskedAt(log: seq<Step>, k: nat, routes: PoolRoutes) {
    k < |log| && log[k].call == Add(routes.preferred)
  }

  ghost predicate SafeOrStale(log: seq<Step>, from: nat, routes: PoolRoutes) {
    forall k | from <= k < |log| :: Safe(log[k], routes) || StaleDelete(log[k], routes)
  }

  /** Appending one step keeps what held of every earlier one. */
  lemma SafeSnoc(log: seq<Step>, s: Step, from: nat, routes: PoolRoutes)
    requires from <= |log|
    ensures AllSafe(log, from, routes) && Safe(s, routes) ==> AllSafe(log + [s], from, routes)
    ensures SafeOrStale(log, from, routes) && (Safe(s, routes) || StaleDelete(s, routes)) ==>
      SafeOrStale(log + [s], from, routes)
  {
  }

  /** Two safe stretches make one. */
  lemma SafeConcat(log: seq<Step>, from: nat, mid: nat, routes: PoolRoutes)
    requires from <= mid <= |log|
    ensures AllSafe(log[..mid], from, routes) && AllSafe(log, mid, routes) ==> AllSafe(log, from, routes)
    ensures SafeOrStale(log[..mid], from, routes) && SafeOrStale(log, mid, routes) ==> SafeOrStale(log, from, routes)
  {
    if AllSafe(log[..mid], from, routes) && AllSafe(log, mid, routes) {
      forall k | from <= k < |log| ensures Safe(log[k], routes) {
        if k < mid {
          assert log[..mid][k] == log[k];
        }
      }
    }
    if SafeOrStale(log[..mid], from, routes) && SafeOrStale(log, mid, routes) {
      forall k | from <= k < |log| ensures Safe(log[k], routes) || StaleDelete(log[k], routes) {
        if k < mid {
          assert log[..mid][k] == log[k];
        }
      }
    }
  }

  lemma AskedThenSplit(log: seq<Step>, from: nat, mid: nat, routes: PoolRoutes)
    requires from <= mid <= |log| && AskedFirstOnly(log[..mid], from, routes) && SplitOnly(log, mid, routes)
    ensures AskedFirstOnly(log, from, routes)
  {
    forall k | from < k < |log| ensures NotPreferred(log[k], routes) {
      if k < mid {
        assert log[..mid][k] == log[k];
      }
    }
  }

  lemma SplitOnlyIsSafe(log: seq<Step>, from: nat, routes: PoolRoutes)
    requires SplitOnly(log, from, routes)
    ensures AllSafe(log, from, routes) && SafeOrStale(log, from, routes)
  {
  }

  lemma EmptyStretch(log: seq<Step>, routes: PoolRoutes)
    ensures SplitOnly(log, |log|, routes) && AllSafe(log, |log|, routes) && SafeOrStale(log, |log|, routes)
  {
  }

  /** What others leave behind at one moment. */
  datatype World = World(table: Table, bridge: Option<nat>)

  /** The kernel table, the helper that may change it, and everyone else who does. */
  class Kernel {
    var table: Table
    var bridge: Option<nat>
    /** The outside changes to come; once they are used up, any change may happen. */
    var moves: seq<World>
    ghost var log: seq<Step>
    /** Nothing else changes and every call is answered. */
    const quiet: bool
    /** Nothing else changes between the helper's ownership preflight and its delete. */
    const preflightHolds: bool
    /** Every call reaches the helper and is answered. */
    const reachable: bool

    constructor (t: Table, b: Option<nat>, moves: seq<World>, quiet: bool, preflightHolds: bool, reachable: bool)
      ensures table == t && bridge == b && this.moves == moves && log == []
      ensures this.quiet == quiet && this.preflightHolds == preflightHolds && this.reachable == reachable
    {
      table, bridge, log, this.moves := t, b, [], moves;
      this.quiet, this.preflightHolds, this.reachable := quiet, preflightHolds, reachable;
    }

    /** Any outside change. */
    method Await()
      modifies `table, `bridge, `moves
      ensures quiet ==> table == old(table) && bridge == old(bridge)
      ensures !quiet && old(moves) != [] ==> World(table, bridge) == old(moves)[0] && moves == old(moves)[1..]
    {
      if !quiet {
        if moves != [] {
          table, bridge, moves := moves[0].table, moves[0].bridge, moves[1..];
        } else {
          table := *;
          bridge := *;
        }
      }
    }

    /** A call or connection that gets no usable answer. */
    method Fails() returns (lost: bool)
      ensures quiet || reachable ==> !lost
    {
      if quiet || reachable {
        lost := false;
      } else {
        lost := *;
      }
    }

    /** `arcbox_route::overlapping`: the listed entries, in some order. */
    method Overlapping(pool: Pool) returns (entries: seq<RouteEntry>)
      ensures Dump(entries, table, pool)
    {
      entries := [];
      var left := table.Keys;
      while left != {}
        invariant left <= table.Keys
        invariant forall e | e in entries :: Listed(e, pool) && e.net in table && table[e.net] == e.info
        invariant forall net | net in table && net !in left && Listed(RouteEntry(net, table[net]), pool) ::
          RouteEntry(net, table[net]) in entries
        decreases left
      {
        var net: ValidNet :| net in left;
        left := left - {net};
        var e := RouteEntry(net, table[net]);
        if Listed(e, pool) {
          entries := entries + [e];
        }
      }
    }

    /** `inspect_routes`, one atomic read of the table. */
    method InspectRoutes(pool: Pool) returns (r: Result<Snapshot, RouteError>)
      modifies `table, `bridge, `moves, `log
      ensures quiet ==> table == old(table) && bridge == old(bridge)
      ensures |log| == |old(log)| + 1 && log == old(log) + [log[|log| - 1]]
      ensures var s := log[|log| - 1];
        && s == Step(Inspect, bridge, table, table)
        && (r.Ok? ==> s.bridge.Some? && r.value == Observe(table, RoutesOf(pool), s.bridge.value))
        && (r.Ok? && pool != DEFAULT_POOL ==> !HasForeign(table, pool, s.bridge.value))
        && (r.Err? && (quiet || reachable) && s.bridge.Some? ==> pool != DEFAULT_POOL && HasForeign(table, pool, s.bridge.value))
    {
      Await();
      log := log + [Step(Inspect, bridge, table, table)];
      if bridge.None? {
        return Err(BridgeNotReady);
      }
      var lost := Fails();
      if lost {
        return Err(RouteFailed);
      }
      if pool != DEFAULT_POOL {
        var entries := Overlapping(pool);
        OverlapScanIsExact(entries, table, pool, bridge.value);
        var hit := ExternalOverlap(entries, pool, bridge.value);
        if hit.Some? {
          return Err(RouteOverlap(hit.value));
        }
      }
      return Ok(Observe(table, RoutesOf(pool), bridge.value));
    }

    /** `add_route` through the helper: true when added, false when the exact entry exists.
        A call whose answer is lost may still have been carried out. */
    method AddRoute(pool: Pool, net: ValidNet) returns (r: Result<bool, RouteError>)
      requires RoutesOf(pool).Manages(net)
      modifies `table, `bridge, `moves, `log
      ensures |log| == |old(log)| + 1 && log == old(log) + [log[|log| - 1]]
      ensures var s := log[|log| - 1];
        && s.call == Add(net) && Safe(s, RoutesOf(pool))
        && (s.after == s.before || (s.bridge.Some? && s.after == WithMissing(s.before, net, s.bridge.value)))
        && (r == Ok(true) ==> s.bridge.Some? && net !in s.before && net in s.after && s.after[net] == Direct(s.bridge.value))
        && (r == Ok(false) ==> net in s.before && s.after == s.before)
        && (reachable && s.bridge.Some? ==> s.after == WithMissing(s.before, net, s.bridge.value))
      ensures quiet && old(bridge).Some? ==>
        && log[|log| - 1].before == old(table) && log[|log| - 1].after == table
        && r == Ok(net !in old(table))
        && bridge == old(bridge) && table == WithMissing(old(table), net, bridge.value)
    {
      Await();
      ghost var before := table;
      if bridge.None? {
        log := log + [Step(Add(net), bridge, before, table)];
        return Err(RouteFailed);
      }
      var lost := Fails();
      var refused := Fails();
      if lost && refused {
        log := log + [Step(Add(net), bridge, before, table)];
        return Err(HelperUnavailable);
      }
      var absent := net !in table;
      if absent {
        table := table[net := Direct(bridge.value)];
      }
      log := log + [Step(Add(net), bridge, before, table)];
      return if lost then Err(HelperUnavailable) else Ok(absent);
    }

    /** `route_remove_if_owned`: preflight, then an unconditional delete. `checked` is the table
        the preflight read. The call is unsafe exactly when that preflight passed, what the
        delete meets is a route of somebody else's, and the delete is carried out. A request may
        be lost before the helper sees it, and an answer on its way back. */
    method RemoveIfOwned(pool: Pool) returns (r: Result<bool, RouteError>, ghost checked: Table)
      modifies `table, `bridge, `moves, `log
      ensures |log| == |old(log)| + 1 && log == old(log) + [log[|log| - 1]]
      ensures var s := log[|log| - 1];
        && s.call == Remove(pool) && NotPreferred(s, RoutesOf(pool))
        && (Safe(s, RoutesOf(pool)) || StaleDelete(s, RoutesOf(pool)))
        && (!Safe(s, RoutesOf(pool)) <==>
              && s.bridge.Some? && Classify(checked, pool, s.bridge.value) == Owned
              && Classify(s.before, pool, s.bridge.value) == External && pool !in s.after)
        && (reachable && s.bridge.Some? && Classify(checked, pool, s.bridge.value) == Owned ==> pool !in s.after)
        && (preflightHolds ==> s.before == checked)
        && (r.Ok? ==> pool !in s.after)
      ensures !quiet && reachable && !preflightHolds && |old(moves)| >= 2 && old(moves)[0].bridge.Some? ==>
        && checked == old(moves)[0].table
        && (Classify(checked, pool, old(moves)[0].bridge.value) == Owned ==>
              log[|log| - 1].bridge == old(moves)[0].bridge && log[|log| - 1].before == old(moves)[1].table)
    {
      Await();
      ghost var before := table;
      checked := table;
      var unsent := Fails();
      if unsent {
        log := log + [Step(Remove(pool), bridge, before, table)];
        return Err(HelperUnavailable), checked;
      }
      if pool !in table {
        log := log + [Step(Remove(pool), bridge, before, table)];
        return Ok(false), checked;
      }
      if bridge.None? || !OnBridge(table[pool], bridge.value) {
        log := log + [Step(Remove(pool), bridge, before, table)];
        return Err(RouteConflict(pool)), checked;
      }
      var resolved := bridge;
      if !preflightHolds {
        Await();
      }
      before := table;
      var lost := Fails();
      var refused := Fails();
      if !(lost && refused) {
        table := table - {pool};
      }
      log := log + [Step(Remove(pool), resolved, before, table)];
      return (if lost then Err(HelperUnavailable) else Ok(true)), checked;
    }

    /** The snapshot in hand is the last thing that was read. */
    ghost predicate JustInspected(pool: Pool, snapshot: Snapshot)
      reads this
    {
      && log != []
      && var s := log[|log| - 1];
         && s.call == Inspect && s.before == s.after && s.bridge.Some?
         && snapshot == Observe(s.after, RoutesOf(pool), s.bridge.value)
         && (quiet ==> table == s.after && bridge == s.bridge)
         && (pool != DEFAULT_POOL ==> !HasForeign(s.after, pool, s.bridge.value))
    }

    /** One turn of the loop in `ensure_split_routes`. */
    method EnsureHalf(pool: Pool, index: nat, snapshot: Snapshot, ghost from: nat) returns (r: Result<Snapshot, RouteError>)
      requires index < 2 && from <= |log|
      requires HalvesShown(log, from, RoutesOf(pool), snapshot)
      modifies `table, `bridge, `moves, `log
      ensures old(log) <= log && SplitOnly(log, |old(log)|, RoutesOf(pool))
      ensures r.Ok? ==> HalvesShown(log, from, RoutesOf(pool), r.value) && r.value.Half(index) == Owned
      ensures (&& quiet && old(bridge).Some? && snapshot.Half(index) != External
               && snapshot.Half(index) == Classify(old(table), RoutesOf(pool).Half(index), old(bridge).value)) ==>
        && r == Ok(snapshot.WithHalf(index, Owned))
        && bridge == old(bridge)
        && table == WithMissing(old(table), RoutesOf(pool).Half(index), bridge.value)
    {
      var routes := RoutesOf(pool);
      var net := routes.Half(index);
      if snapshot.Half(index) == Owned {
        return Ok(snapshot);
      }
      var added := AddRoute(pool, net);
      if added.Err? {
        return Err(added.error);
      }
      if added.value {
        HalfAdded(old(log), log, from, routes, snapshot, index);
        return Ok(snapshot.WithHalf(index, Owned));
      }
      var again := InspectRoutes(pool);
      if again.Err? {
        return Err(again.error);
      }
      if again.value.Half(index) != Owned {
        return Err(RouteConflict(net));
      }
      InspectedHalves(log, from, routes, again.value);
      return again;
    }

    /** `ensure_split_routes`. On success each half was seen, or made, a bridge route. */
    method EnsureSplitRoutes(pool: Pool, start: Snapshot, ghost from: nat) returns (r: Result<(), RouteError>)
      requires from <= |log| && HalvesShown(log, from, RoutesOf(pool), start)
      modifies `table, `bridge, `moves, `log
      ensures old(log) <= log && SplitOnly(log, |old(log)|, RoutesOf(pool))
      ensures r.Ok? ==> forall i | 0 <= i < 2 :: Shown(log, from, RoutesOf(pool).Half(i))
      ensures quiet && old(bridge).Some? && start == Observe(old(table), RoutesOf(pool), old(bridge).value) ==>
        var b := old(bridge).value;
        && bridge == Some(b)
        && (r.Ok? <==> start.lower != External && start.upper != External)
        && (r.Err? ==> table == old(table))
        && (r.Ok? ==> table == WithMissing(WithMissing(old(table), RoutesOf(pool).lower, b), RoutesOf(pool).upper, b))
    {
      var routes := RoutesOf(pool);
      if start.lower == External {
        return Err(RouteConflict(routes.lower));
      }
      if start.upper == External {
        return Err(RouteConflict(routes.upper));
      }
      if start.BothOwned() {
        assert start.Half(0) == Owned && start.Half(1) == Owned;
        return Ok(());
      }
      var unreachable := Fails();
      if unreachable {
        return Err(HelperUnavailable);
      }
      var snapshot, index := start, 0;
      while index < 2
        invariant 0 <= index <= 2
        invariant old(log) <= log && SplitOnly(log, |old(log)|, routes)
        invariant HalvesShown(log, from, routes, snapshot)
        invariant forall i | 0 <= i < index :: Shown(log, from, routes.Half(i))
        invariant quiet && old(bridge).Some? && start == Observe(old(table), routes, old(bridge).value) ==>
          && bridge == old(bridge)
          && (index == 0 ==> table == old(table) && snapshot == start)
          && (index == 1 ==> table == WithMissing(old(table), routes.lower, bridge.value) && snapshot == start.(lower := Owned))
          && (index == 2 ==> table == WithMissing(WithMissing(old(table), routes.lower, bridge.value), routes.upper, bridge.value))
      {
        ghost var prior := log;
        var next := EnsureHalf(pool, index, snapshot, from);
        if next.Err? {
          return Err(next.error);
        }
        forall i | 0 <= i < index + 1 ensures Shown(log, from, routes.Half(i)) {
          if i < index {
            ShownExtends(prior, log, from, routes.Half(i));
          }
        }
        snapshot := next.value;
        index := index + 1;
      }
      return Ok(());
    }

    /** The `AddPreferred` arm: add, then for a custom pool re-check and roll back. When a
        check fails and the cleanup call succeeds, the added route is gone again. */
    method AddPreferredRoute(pool: Pool) returns (r: AddOutcome)
      modifies `table, `bridge, `moves, `log
      ensures old(log) <= log && SafeOrStale(log, |old(log)|, RoutesOf(pool))
      ensures preflightHolds || pool == DEFAULT_POOL ==> AllSafe(log, |old(log)|, RoutesOf(pool))
      ensures AskedFirstOnly(log, |old(log)|, RoutesOf(pool))
      ensures reachable ==> AskedAt(log, |old(log)|, RoutesOf(pool))
      ensures quiet && old(bridge).Some? && pool !in old(table) ==> |log| > |old(log)| && AddsPreferred(log[|old(log)|], RoutesOf(pool))
      ensures r.Added? ==> Shown(log, |old(log)|, pool)
      ensures r.RolledBack? ==>
        && |log| == |old(log)| + 3 && pool in log[|old(log)|].after
        && log[|log| - 1].call == Remove(pool) && pool !in log[|log| - 1].after
      ensures quiet && AddSucceeds(pool, old(table), old(bridge)) ==>
        r == Added && bridge == old(bridge) && table == old(table)[pool := Direct(bridge.value)]
    {
      var routes := RoutesOf(pool);
      EmptyStretch(log, routes);
      var unreachable := Fails();
      if unreachable {
        return AddFailed(HelperUnavailable);
      }
      var added := AddRoute(pool, pool);
      SafeSnoc(old(log), log[|log| - 1], |old(log)|, routes);
      if added.Err? {
        return AddFailed(added.error);
      }
      if !added.value {
        return LostRace;
      }
      ShownLast(log, |old(log)|, pool);
      if pool != DEFAULT_POOL {
        r := CheckAdded(pool);
      } else {
        r := Added;
      }
    }

    /** The re-check of a just added route, with its rollback. */
    method CheckAdded(pool: Pool) returns (r: AddOutcome)
      requires pool != DEFAULT_POOL
      modifies `table, `bridge, `moves, `log
      ensures old(log) <= log && SafeOrStale(log, |old(log)|, RoutesOf(pool))
      ensures preflightHolds || pool == DEFAULT_POOL ==> AllSafe(log, |old(log)|, RoutesOf(pool))
      ensures forall k | |old(log)| <= k < |log| :: NotPreferred(log[k], RoutesOf(pool))
      ensures r.Added? || r.RolledBack? || r.RollbackFailed?
      ensures r.RolledBack? ==>
        |log| == |old(log)| + 2 && log[|log| - 1].call == Remove(pool) && pool !in log[|log| - 1].after
      ensures quiet && old(bridge).Some? && !HasForeign(old(table), pool, old(bridge).value) ==>
        r == Added && bridge == old(bridge) && table == old(table)
    {
      var routes := RoutesOf(pool);
      EmptyStretch(log, routes);
      var check := InspectRoutes(pool);
      SafeSnoc(old(log), log[|log| - 1], |old(log)|, routes);
      if check.Ok? {
        return Added;
      }
      ghost var prior := log;
      var cleanup, checked := RemoveIfOwned(pool);
      SafeSnoc(prior, log[|log| - 1], |old(log)|, routes);
      return if cleanup.Err? then RollbackFailed else RolledBack(check.error);
    }

    /** The `AddPreferred` arm: settled one way or the other, or, after losing the add race
        to a route that is not ours, the fresh snapshot to split on. */
    method TryPreferred(pool: Pool, ghost from: nat) returns (r: Result<Mode, RouteError>, fallback: Option<Snapshot>)
      requires from <= |log|
      modifies `table, `bridge, `moves, `log
      ensures old(log) <= log && SafeOrStale(log, |old(log)|, RoutesOf(pool))
      ensures preflightHolds || pool == DEFAULT_POOL ==> AllSafe(log, |old(log)|, RoutesOf(pool))
      ensures AskedFirstOnly(log, |old(log)|, RoutesOf(pool))
      ensures reachable ==> AskedAt(log, |old(log)|, RoutesOf(pool))
      ensures quiet && old(bridge).Some? && pool !in old(table) ==> |log| > |old(log)| && AddsPreferred(log[|old(log)|], RoutesOf(pool))
      ensures fallback.Some? ==> HalvesShown(log, from, RoutesOf(pool), fallback.value)
      ensures fallback.None? && r.Ok? ==> r.value == Preferred && Shown(log, from, pool)
      ensures quiet && AddSucceeds(pool, old(table), old(bridge)) ==>
        && fallback.None? && r == Ok(Preferred)
        && bridge == old(bridge) && table == old(table)[pool := Direct(bridge.value)]
    {
      var routes := RoutesOf(pool);
      fallback := None;
      var added := AddPreferredRoute(pool);
      match added {
        case Added =>
          ShownWider(log, |old(log)|, from, pool);
          r := Ok(Preferred);
          return;
        case RolledBack(error) =>
          r := Err(error);
          return;
        case RollbackFailed =>
          r := Err(RouteFailed);
          return;
        case AddFailed(error) =>
          r := Err(error);
          return;
        case LostRace =>
      }
      ghost var prior := log;
      var again := InspectRoutes(pool);
      SafeSnoc(prior, log[|log| - 1], |old(log)|, routes);
      if again.Err? {
        r := Err(again.error);
        return;
      }
      if again.value.preferred == Owned {
        ShownLast(log, from, pool);
        r := Ok(Preferred);
      } else if pool != DEFAULT_POOL && again.value.preferred == External {
        r := Err(RouteConflict(pool));
      } else {
        InspectedHalves(log, from, routes, again.value);
        r, fallback := Err(RouteFailed), Some(again.value);
      }
    }

    /** `reconcile_with_snapshot`. Under any interference: no foreign entry is touched, split
        mode stays split, and a reported mode is backed by routes seen during the call.
        Undisturbed: exactly `Settle`. */
    method ReconcileWithSnapshot(pool: Pool, mode: Mode, start: Snapshot) returns (r: Result<Mode, RouteError>)
      requires JustInspected(pool, start)
      modifies `table, `bridge, `moves, `log
      ensures old(log) <= log && SafeOrStale(log, |old(log)|, RoutesOf(pool))
      ensures preflightHolds || pool == DEFAULT_POOL ==> AllSafe(log, |old(log)|, RoutesOf(pool))
      ensures mode == SplitFallback ==> r != Ok(Preferred) && SplitOnly(log, |old(log)|, RoutesOf(pool))
      ensures AskedFirstOnly(log, |old(log)|, RoutesOf(pool))
      ensures |log| > |old(log)| && !NotPreferred(log[|old(log)|], RoutesOf(pool)) ==> Plan(mode, start) == AddPreferred
      ensures reachable && Plan(mode, start) == AddPreferred ==> AskedAt(log, |old(log)|, RoutesOf(pool))
      ensures quiet && Plan(mode, start) == AddPreferred ==> |log| > |old(log)| && AddsPreferred(log[|old(log)|], RoutesOf(pool))
      ensures r == Ok(Preferred) ==> Shown(log, |old(log)| - 1, pool)
      ensures r == Ok(SplitFallback) ==> forall i | 0 <= i < 2 :: Shown(log, |old(log)| - 1, RoutesOf(pool).Half(i))
      ensures quiet ==> Settles(pool, mode, old(table), old(bridge), r, table, bridge)
    {
      EmptyStretch(log, RoutesOf(pool));
      if pool != DEFAULT_POOL && start.preferred == External {
        InspectedIsNotBlocked(log[|log| - 1], pool, start);
        return Err(RouteConflict(pool));
      }
      r := CarryOut(pool, mode, start);
    }

    /** The planned action, carried out. */
    method CarryOut(pool: Pool, mode: Mode, start: Snapshot) returns (r: Result<Mode, RouteError>)
      requires JustInspected(pool, start) && (pool != DEFAULT_POOL ==> start.preferred != External)
      modifies `table, `bridge, `moves, `log
      ensures old(log) <= log && SafeOrStale(log, |old(log)|, RoutesOf(pool))
      ensures preflightHolds || pool == DEFAULT_POOL ==> AllSafe(log, |old(log)|, RoutesOf(pool))
      ensures mode == SplitFallback ==> r != Ok(Preferred) && SplitOnly(log, |old(log)|, RoutesOf(pool))
      ensures AskedFirstOnly(log, |old(log)|, RoutesOf(pool))
      ensures |log| > |old(log)| && !NotPreferred(log[|old(log)|], RoutesOf(pool)) ==> Plan(mode, start) == AddPreferred
      ensures reachable && Plan(mode, start) == AddPreferred ==> AskedAt(log, |old(log)|, RoutesOf(pool))
      ensures quiet && Plan(mode, start) == AddPreferred ==> |log| > |old(log)| && AddsPreferred(log[|old(log)|], RoutesOf(pool))
      ensures r == Ok(Preferred) ==> Shown(log, |old(log)| - 1, pool)
      ensures r == Ok(SplitFallback) ==> forall i | 0 <= i < 2 :: Shown(log, |old(log)| - 1, RoutesOf(pool).Half(i))
      ensures quiet ==> Settles(pool, mode, old(table), old(bridge), r, table, bridge)
    {
      EmptyStretch(log, RoutesOf(pool));
      if quiet {
        ActSettles(pool, mode, table, bridge.value);
      }
      match Plan(mode, start) {
        case Healthy(m) =>
          ShownAsInspected(log, pool, start);
          return Ok(m);
        case Conflict(i) =>
          return Err(RouteConflict(RoutesOf(pool).Half(i)));
        case EnsureSplit =>
          InspectedHalves(log, |log| - 1, RoutesOf(pool), start);
          r := FallBackToSplit(pool, start, |log| - 1, |log|);
        case AddPreferred =>
          if quiet && pool != DEFAULT_POOL {
            OwnRouteIsNotForeign(table, pool, bridge.value);
          }
          r := PreferThenSplit(pool, |log| - 1);
      }
    }

    /** The `AddPreferred` arm with its fallback. */
    method PreferThenSplit(pool: Pool, ghost from: nat) returns (r: Result<Mode, RouteError>)
      requires from <= |log|
      modifies `table, `bridge, `moves, `log
      ensures old(log) <= log && SafeOrStale(log, |old(log)|, RoutesOf(pool))
      ensures preflightHolds || pool == DEFAULT_POOL ==> AllSafe(log, |old(log)|, RoutesOf(pool))
      ensures AskedFirstOnly(log, |old(log)|, RoutesOf(pool))
      ensures reachable ==> AskedAt(log, |old(log)|, RoutesOf(pool))
      ensures quiet && old(bridge).Some? && pool !in old(table) ==> |log| > |old(log)| && AddsPreferred(log[|old(log)|], RoutesOf(pool))
      ensures r == Ok(Preferred) ==> Shown(log, from, pool)
      ensures r == Ok(SplitFallback) ==> forall i | 0 <= i < 2 :: Shown(log, from, RoutesOf(pool).Half(i))
      ensures quiet && AddSucceeds(pool, old(table), old(bridge)) ==>
        r == Ok(Preferred) && bridge == old(bridge) && table == old(table)[pool := Direct(bridge.value)]
    {
      var fallback;
      r, fallback := TryPreferred(pool, from);
      if fallback.Some? {
        ghost var mid := log;
        r := FallBackToSplit(pool, fallback.value, from, |old(log)|);
        assert log[..|mid|] == mid;
        AskedThenSplit(log, |old(log)|, |mid|, RoutesOf(pool));
      }
    }

    /** The last step of `reconcile_with_snapshot`, after whatever happened since `since`. */
    method FallBackToSplit(pool: Pool, snapshot: Snapshot, ghost from: nat, ghost since: nat) returns (r: Result<Mode, RouteError>)
      requires from <= |log| && since <= |log| && HalvesShown(log, from, RoutesOf(pool), snapshot)
      requires SafeOrStale(log, since, RoutesOf(pool)) && (preflightHolds || pool == DEFAULT_POOL ==> AllSafe(log, since, RoutesOf(pool)))
      modifies `table, `bridge, `moves, `log
      ensures old(log) <= log && SafeOrStale(log, since, RoutesOf(pool)) && SplitOnly(log, |old(log)|, RoutesOf(pool))
      ensures preflightHolds || pool == DEFAULT_POOL ==> AllSafe(log, since, RoutesOf(pool))
      ensures r.Ok? ==> r.value == SplitFallback && forall i | 0 <= i < 2 :: Shown(log, from, RoutesOf(pool).Half(i))
      ensures quiet && old(bridge).Some? && snapshot == Observe(old(table), RoutesOf(pool), old(bridge).value) ==>
        var b := old(bridge).value;
        && bridge == Some(b)
        && (r.Ok? <==> snapshot.lower != External && snapshot.upper != External)
        && (r.Err? ==> table == old(table))
        && (r.Ok? ==> table == WithMissing(WithMissing(old(table), RoutesOf(pool).lower, b), RoutesOf(pool).upper, b))
    {
      var split := EnsureSplitRoutes(pool, snapshot, from);
      SplitOnlyIsSafe(log, |old(log)|, RoutesOf(pool));
      assert log[..|old(log)|] == old(log);
      SafeConcat(log, since, |old(log)|, RoutesOf(pool));
      return if split.Err? then Err(split.error) else Ok(SplitFallback);
    }

    /** `reconcile_route_for_bridge_with_network`. */
    method ReconcileRoute(pool: Pool, mode: Mode) returns (r: Result<Mode, RouteError>)
      modifies `table, `bridge, `moves, `log
      ensures old(log) <= log && SafeOrStale(log, |old(log)|, RoutesOf(pool))
      ensures preflightHolds || pool == DEFAULT_POOL ==> AllSafe(log, |old(log)|, RoutesOf(pool))
      ensures mode == SplitFallback ==> r != Ok(Preferred) && SplitOnly(log, |old(log)|, RoutesOf(pool))
      ensures r == Ok(Preferred) ==> Shown(log, |old(log)|, pool)
      ensures r == Ok(SplitFallback) ==> forall i | 0 <= i < 2 :: Shown(log, |old(log)|, RoutesOf(pool).Half(i))
      ensures quiet && old(bridge).Some? ==> Settles(pool, mode, old(table), old(bridge), r, table, bridge)
    {
      var routes := RoutesOf(pool);
      EmptyStretch(log, routes);
      var snapshot := InspectRoutes(pool);
      ghost var mid := log;
      SafeSnoc(old(log), log[|log| - 1], |old(log)|, routes);
      if snapshot.Err? {
        return Err(snapshot.error);
      }
      r := ReconcileWithSnapshot(pool, mode, snapshot.value);
      assert log[..|mid|] == mid;
      SafeConcat(log, |old(log)|, |mid|, routes);
    }

    /** `initialize_route_for_bridge_with_network`. */
    method InitializeRoute(pool: Pool) returns (r: Result<Mode, RouteError>)
      modifies `table, `bridge, `moves, `log
      ensures old(log) <= log && SafeOrStale(log, |old(log)|, RoutesOf(pool))
      ensures preflightHolds || pool == DEFAULT_POOL ==> AllSafe(log, |old(log)|, RoutesOf(pool))
      ensures InitialCalls(log, |old(log)|, pool, reachable)
      ensures quiet && Unrouted(log[|old(log)|], pool) ==> |log| > |old(log)| + 1 && AddsPreferred(log[|old(log)| + 1], RoutesOf(pool))
      ensures quiet ==> log[|old(log)|] == Step(Inspect, old(bridge), old(table), old(table))
      ensures r == Ok(Preferred) ==> Shown(log, |old(log)|, pool)
      ensures r == Ok(SplitFallback) ==> forall i | 0 <= i < 2 :: Shown(log, |old(log)|, RoutesOf(pool).Half(i))
      ensures quiet && old(bridge).Some? ==>
        Settles(pool, InitialMode(Observe(old(table), RoutesOf(pool), old(bridge).value)), old(table), old(bridge), r, table, bridge)
      ensures quiet && r.Ok? && old(bridge).Some? && (pool == DEFAULT_POOL ==> Quieter(old(table), pool)) ==>
        bridge == old(bridge) && Served(table, pool, bridge.value)
    {
      var routes := RoutesOf(pool);
      EmptyStretch(log, routes);
      var snapshot := InspectRoutes(pool);
      ghost var mid := log;
      SafeSnoc(old(log), log[|log| - 1], |old(log)|, routes);
      if snapshot.Err? {
        return Err(snapshot.error);
      }
      PreferredAskedIff(snapshot.value);
      if quiet && (pool == DEFAULT_POOL ==> Quieter(table, pool)) {
        InitializedIsServed(pool, table, bridge.value);
      }
      r := ReconcileWithSnapshot(pool, InitialMode(snapshot.value), snapshot.value);
      assert log[..|mid|] == mid;
      SafeConcat(log, |old(log)|, |mid|, routes);
    }
  }

  /** What an undisturbed call must return and leave behind. */
  ghost predicate Settles(pool: Pool, mode: Mode, t: Table, b: Option<nat>, r: Result<Mode, RouteError>, t': Table, b': Option<nat>) {
    && b.Some? && b' == b
    && var settled := Settle(pool, mode, t, b.value);
       if r.Ok? then settled == Some(Settled(r.value, t')) else settled == None && t' == t
  }

  /** The half just added was shown owned, and the other one if it was before. */
  lemma HalfAdded(before: seq<Step>, log: seq<Step>, from: nat, routes: PoolRoutes, snapshot: Snapshot, index: nat)
    requires index < 2 && before <= log && from < |log| && HalvesShown(before, from, routes, snapshot)
    requires log[|log| - 1].bridge.Some? && Classify(log[|log| - 1].after, routes.Half(index), log[|log| - 1].bridge.value) == Owned
    ensures HalvesShown(log, from, routes, snapshot.WithHalf(index, Owned))
  {
    ShownLast(log, from, routes.Half(index));
    forall i | 0 <= i < 2 && i != index && snapshot.Half(i) == Owned ensures Shown(log, from, routes.Half(i)) {
      ShownExtends(before, log, from, routes.Half(i));
    }
  }

  /** For a custom pool, an inspection that succeeded does not show its own net blocked. */
  lemma InspectedIsNotBlocked(s: Step, pool: Pool, start: Snapshot)
    requires s.bridge.Some? && start == Observe(s.after, RoutesOf(pool), s.bridge.value) && !HasForeign(s.after, pool, s.bridge.value)
    ensures start.preferred != External
  {
    NoOverlapMeansNoExternal(s.after, pool, s.bridge.value);
  }

  /** An undisturbed call settles by carrying out the planned action. */
  lemma ActSettles(pool: Pool, mode: Mode, t: Table, bridge: nat)
    requires pool != DEFAULT_POOL ==> !HasForeign(t, pool, bridge) && Classify(t, pool, bridge) != External
    ensures Settle(pool, mode, t, bridge) == Act(pool, Plan(mode, Observe(t, RoutesOf(pool), bridge)), t, bridge)
  {
  }

  lemma InspectedHalves(log: seq<Step>, from: nat, routes: PoolRoutes, s: Snapshot)
    requires from < |log| && log[|log| - 1].bridge.Some?
    requires s == Observe(log[|log| - 1].after, routes, log[|log| - 1].bridge.value)
    ensures HalvesShown(log, from, routes, s)
  {
    forall i | 0 <= i < 2 && s.Half(i) == Owned ensures Shown(log, from, routes.Half(i)) {
      ShownLast(log, from, routes.Half(i));
    }
  }

  /** Whatever the last inspection called owned is shown by it. */
  lemma ShownAsInspected(log: seq<Step>, pool: Pool, s: Snapshot)
    requires log != [] && log[|log| - 1].bridge.Some?
    requires s == Observe(log[|log| - 1].after, RoutesOf(pool), log[|log| - 1].bridge.value)
    ensures s.preferred == Owned ==> Shown(log, |log| - 1, pool)
    ensures forall i | 0 <= i < 2 && s.Half(i) == Owned :: Shown(log, |log| - 1, RoutesOf(pool).Half(i))
  {
    if s.preferred == Owned {
      ShownLast(log, |log| - 1, pool);
    }
    InspectedHalves(log, |log| - 1, RoutesOf(pool), s);
  }

  lemma ShownWider(log: seq<Step>, from: nat, wider: nat, net: ValidNet)
    requires wider <= from && Shown(log, from, net)
    ensures Shown(log, wider, net)
  {
  }

  /** Adding the preferred route as our own brings no foreign route into the table. */
  lemma OwnRouteIsNotForeign(t: Table, pool: Pool, bridge: nat)
    requires !HasForeign(t, pool, bridge)
    ensures !HasForeign(t[pool := Direct(bridge)], pool, bridge)
  {
    var t' := t[pool := Direct(bridge)];
    forall net | net in t' ensures !Foreign(net, t'[net], pool, bridge) {
      if net != pool {
        assert net in t && !Foreign(net, t[net], pool, bridge);
      }
    }
  }

  lemma InitializedIsServed(pool: Pool, t: Table, bridge: nat)
    requires pool == DEFAULT_POOL ==> Quieter(t, pool)
    ensures Initialize(pool, t, bridge).Some? ==> Served(Initialize(pool, t, bridge).value.table, pool, bridge)
  {
    if Initialize(pool, t, bridge).Some? {
      SettledPoolIsServed(pool, InitialMode(Observe(t, RoutesOf(pool), bridge)), t, bridge);
    }
  }

  /** A run of the helper's removal, for any custom pool, that deletes somebody else's route:
      the preflight reads our own entry, which is then replaced by a route through a gateway. */
  method StaleDeleteRun(pool: Pool, bridge: nat) returns (k: Kernel, ghost checked: Table)
    requires pool != DEFAULT_POOL
    ensures fresh(k) && |k.log| == 1 && StaleDelete(k.log[0], RoutesOf(pool)) && !Safe(k.log[0], RoutesOf(pool))
    ensures Classify(checked, pool, bridge) == Owned && k.log[0].bridge == Some(bridge)
  {
    var ours: Table := map[pool := Direct(bridge)];
    var theirs: Table := map[pool := RouteInfo(bridge, true)];
    k := new Kernel(ours, Some(bridge), [World(ours, Some(bridge)), World(theirs, Some(bridge))], false, false, true);
    var r;
    r, checked := k.RemoveIfOwned(pool);
  }
}
