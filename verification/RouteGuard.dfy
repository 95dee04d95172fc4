/** The daemon's route guard: the loop that keeps one container pool routed. It remembers
    the bridge and mode it reported last, sets the route up again when the VM arrives, and
    removes a custom pool's route when the VM is gone or the pool is in conflict. */
module RouteGuard {
  import opened Wrappers
  import opened Ipv4
  import opened RoutePlan
  import opened RouteReconciler

  /** What bridge discovery says. */
  datatype Resolution = Found(bridge: string) | Absent | Inconclusive

  /** One turn: how often setup is attempted for an arrived VM (never without an arrival), the
      bridge it can record afterwards, and what discovery then says. */
  datatype Round = Round(attempts: nat, arrival: Option<string>, resolution: Resolution)

  datatype Report =
    /** `kept`: a mode that was reached could also be recorded, and is remembered. */
    | Reconciled(bridge: string, result: Result<Mode, RouteError>, kept: bool)
    | TornDown
    | Waited

  /** Where a round's calls lie in the log: arrival first, then the guard's own. */
  datatype Span = Span(start: nat, arrived: nat, end: nat)

  /** In this stretch the preferred route is asked for only right after an inspection that
      shows none of the three managed routes. */
  ghost predicate AskedOnlyWhenUnrouted(log: seq<Step>, from: nat, to: nat, pool: Pool) {
    forall k | from <= k < to <= |log| && !NotPreferred(log[k], RoutesOf(pool)) :: k > from && Unrouted(log[k - 1], pool)
  }

  /** Each of these looks shows none of the managed routes exactly when the preferred route
      is asked for next. */
  ghost predicate LooksAreFollowed(log: seq<Step>, looks: seq<nat>, pool: Pool) {
    forall i | 0 <= i < |looks| :: looks[i] < |log| && (Unrouted(log[looks[i]], pool) <==> AskedAt(log, looks[i] + 1, RoutesOf(pool)))
  }

  /** In this stretch the preferred route is never asked for. */
  ghost predicate NeverAsked(log: seq<Step>, from: nat, to: nat, pool: Pool) {
    forall k | from <= k < to <= |log| :: NotPreferred(log[k], RoutesOf(pool))
  }

  lemma AskedGrows(log: seq<Step>, log': seq<Step>, from: nat, pool: Pool, reachable: bool)
    requires log <= log' && from <= |log| && AskedOnlyWhenUnrouted(log, from, |log|, pool) && InitialCalls(log', |log|, pool, reachable)
    ensures AskedOnlyWhenUnrouted(log', from, |log'|, pool)
  {
    forall k | from <= k < |log'| && !NotPreferred(log'[k], RoutesOf(pool)) ensures k > from && Unrouted(log'[k - 1], pool) {
      if k < |log| {
        assert !NotPreferred(log[k], RoutesOf(pool));
      } else {
        assert k == |log| + 1;
      }
    }
  }

  /** What was said of a stretch stays true when the log grows. */
  lemma StretchStays(log: seq<Step>, log': seq<Step>, from: nat, to: nat, pool: Pool)
    requires log <= log' && to <= |log|
    ensures AskedOnlyWhenUnrouted(log, from, to, pool) ==> AskedOnlyWhenUnrouted(log', from, to, pool)
    ensures NeverAsked(log, from, to, pool) ==> NeverAsked(log', from, to, pool)
  {
    if AskedOnlyWhenUnrouted(log, from, to, pool) {
      forall k | from <= k < to && !NotPreferred(log'[k], RoutesOf(pool)) ensures k > from && Unrouted(log'[k - 1], pool) {
        assert !NotPreferred(log[k], RoutesOf(pool));
      }
    }
  }

  lemma LooksGrow(log: seq<Step>, log': seq<Step>, looks: seq<nat>, pool: Pool)
    requires log <= log' && LooksAreFollowed(log, looks, pool) && InitialCalls(log', |log|, pool, true)
    ensures LooksAreFollowed(log', looks + [|log|], pool)
  {
    var all := looks + [|log|];
    forall i | 0 <= i < |all| ensures all[i] < |log'| && (Unrouted(log'[all[i]], pool) <==> AskedAt(log', all[i] + 1, RoutesOf(pool))) {
      if i < |looks| {
        assert all[i] == looks[i] && log'[looks[i]] == log[looks[i]];
      }
    }
  }

  ghost predicate SafeSince(log: seq<Step>, from: nat, pool: Pool, exact: bool) {
    SafeOrStale(log, from, RoutesOf(pool)) && (exact ==> AllSafe(log, from, RoutesOf(pool)))
  }

  lemma SafeJoin(log: seq<Step>, from: nat, mid: nat, pool: Pool, exact: bool)
    requires from <= mid <= |log| && SafeSince(log[..mid], from, pool, exact) && SafeSince(log, mid, pool, exact)
    ensures SafeSince(log, from, pool, exact)
  {
    SafeConcat(log, from, mid, RoutesOf(pool));
  }

  /** The calls of one arrival so far. */
  ghost predicate Arrival(log: seq<Step>, from: nat, looks: seq<nat>, pool: Pool, exact: bool, reachable: bool) {
    && from <= |log| && SafeSince(log, from, pool, exact) && AskedOnlyWhenUnrouted(log, from, |log|, pool)
    && (reachable ==> LooksAreFollowed(log, looks, pool))
  }

  /** Undisturbed: the first look sees the table as it was, and if that shows none of the
      managed routes the preferred one is added. */
  ghost predicate FirstLook(log: seq<Step>, from: nat, pool: Pool, t: Table, b: Option<nat>) {
    && from < |log| && log[from] == Step(Inspect, b, t, t)
    && (Unrouted(log[from], pool) ==> |log| > from + 1 && AddsPreferred(log[from + 1], RoutesOf(pool)))
  }

  lemma ArrivalGrows(log: seq<Step>, log': seq<Step>, from: nat, looks: seq<nat>, pool: Pool, exact: bool, reachable: bool)
    requires log <= log' && Arrival(log, from, looks, pool, exact, reachable)
    requires SafeSince(log', |log|, pool, exact) && InitialCalls(log', |log|, pool, reachable)
    ensures Arrival(log', from, looks + [|log|], pool, exact, reachable)
  {
    assert log'[..|log|] == log;
    SafeJoin(log', from, |log|, pool, exact);
    AskedGrows(log, log', from, pool, reachable);
    if reachable {
      LooksGrow(log, log', looks, pool);
    }
  }

  lemma SettlesGains(pool: Pool, mode: Mode, t: Table, b: Option<nat>, r: Result<Mode, RouteError>, t': Table, b': Option<nat>)
    requires Settles(pool, mode, t, b, r, t', b')
    ensures b' == b && b.Some? && OnlyGains(t, t', pool, b.value)
  {
    if r.Ok? {
      SettleKeepsEveryEntry(pool, mode, t, b.value);
    }
  }

  lemma FirstLookStays(log: seq<Step>, log': seq<Step>, from: nat, pool: Pool, t: Table, b: Option<nat>)
    requires log <= log' && FirstLook(log, from, pool, t, b)
    ensures FirstLook(log', from, pool, t, b)
  {
  }

  class Guard {
    const kernel: Kernel
    const pool: Pool
    /** The bridge and mode reported last. */
    var active: Option<(string, Mode)>
    /** The bridge a custom pool's lease has recorded a route on. */
    var recorded: Option<string>
    var stopped: bool

    constructor (kernel: Kernel, pool: Pool)
      ensures this.kernel == kernel && this.pool == pool && active.None? && recorded.None? && !stopped
    {
      this.kernel, this.pool := kernel, pool;
      active, recorded, stopped := None, None, false;
    }

    /** Every step is safe, but for a stale delete, which takes a custom pool and a table
        that changes between the helper's preflight and its delete. */
    ghost predicate Exact()
    {
      kernel.preflightHolds || pool == DEFAULT_POOL
    }

    /** One attempt of a setup that began at `from`. */
    method SetUp(ghost from: nat, ghost looks: seq<nat>) returns (r: Result<Mode, RouteError>)
      requires Arrival(kernel.log, from, looks, pool, Exact(), kernel.reachable)
      modifies kernel`table, kernel`bridge, kernel`moves, kernel`log
      ensures old(kernel.log) <= kernel.log
      ensures Arrival(kernel.log, from, looks + [|old(kernel.log)|], pool, Exact(), kernel.reachable)
      ensures kernel.quiet ==> FirstLook(kernel.log, |old(kernel.log)|, pool, old(kernel.table), old(kernel.bridge))
      ensures kernel.quiet && old(kernel.bridge).Some? ==>
        kernel.bridge == old(kernel.bridge) && OnlyGains(old(kernel.table), kernel.table, pool, kernel.bridge.value)
    {
      r := kernel.InitializeRoute(pool);
      if kernel.quiet && old(kernel.bridge).Some? {
        SettlesGains(pool, InitialMode(Observe(old(kernel.table), RoutesOf(pool), old(kernel.bridge).value)), old(kernel.table), old(kernel.bridge), r, kernel.table, kernel.bridge);
      }
      ArrivalGrows(old(kernel.log), kernel.log, from, looks, pool, Exact(), kernel.reachable);
    }

    /** `ensure_isolated_container_route`: a custom pool is set up again when the VM arrives,
        whatever mode the guard remembers. `looks` are the inspections it begins with. */
    method Arrive(attempts: nat, bridge: Option<string>) returns (ghost looks: seq<nat>)
      modifies `recorded, kernel`table, kernel`bridge, kernel`moves, kernel`log
      ensures old(kernel.log) <= kernel.log
      ensures Arrival(kernel.log, |old(kernel.log)|, looks, pool, Exact(), kernel.reachable)
      ensures pool == DEFAULT_POOL ==> kernel.log == old(kernel.log)
      ensures kernel.quiet && pool != DEFAULT_POOL && attempts > 0 ==>
        FirstLook(kernel.log, |old(kernel.log)|, pool, old(kernel.table), old(kernel.bridge))
      ensures kernel.quiet && old(kernel.bridge).Some? ==>
        kernel.bridge == old(kernel.bridge) && OnlyGains(old(kernel.table), kernel.table, pool, kernel.bridge.value)
    {
      looks := [];
      EmptyStretch(kernel.log, RoutesOf(pool));
      if pool == DEFAULT_POOL {
        return;
      }
      var n := 0;
      while n < attempts
        invariant 0 <= n <= attempts && old(kernel.log) <= kernel.log
        invariant Arrival(kernel.log, |old(kernel.log)|, looks, pool, Exact(), kernel.reachable)
        invariant n == 0 ==> kernel.table == old(kernel.table) && kernel.bridge == old(kernel.bridge) && kernel.log == old(kernel.log)
        invariant kernel.quiet && old(kernel.bridge).Some? ==>
          kernel.bridge == old(kernel.bridge) && OnlyGains(old(kernel.table), kernel.table, pool, kernel.bridge.value)
        invariant kernel.quiet && n > 0 ==> FirstLook(kernel.log, |old(kernel.log)|, pool, old(kernel.table), old(kernel.bridge))
      {
        ghost var before, reached := kernel.log, kernel.table;
        var r := SetUp(|old(kernel.log)|, looks);
        if kernel.quiet && old(kernel.bridge).Some? {
          GainsCompose(old(kernel.table), reached, kernel.table, pool, kernel.bridge.value);
        }
        if kernel.quiet && n > 0 {
          FirstLookStays(before, kernel.log, |old(kernel.log)|, pool, old(kernel.table), old(kernel.bridge));
        }
        looks := looks + [|before|];
        n := n + 1;
        if r.Ok? {
          if bridge.Some? {
            recorded := bridge;
          }
          return;
        }
      }
    }

    /** Reconcile in the remembered mode if it was for this bridge, else initialize. A custom
        pool's route that cannot be recorded ends the guard. */
    method Reconcile(bridge: string) returns (r: Result<Mode, RouteError>, kept: bool)
      modifies `active, `recorded, `stopped, kernel`table, kernel`bridge, kernel`moves, kernel`log
      ensures old(kernel.log) <= kernel.log && SafeSince(kernel.log, |old(kernel.log)|, pool, Exact())
      ensures active == if r.Ok? && kept then Some((bridge, r.value)) else old(active)
      ensures stopped == (old(stopped) || !kept) && (!kept ==> r.Ok? && pool != DEFAULT_POOL && recorded == old(recorded))
      ensures old(active) == Some((bridge, SplitFallback)) ==>
        r != Ok(Preferred) && NeverAsked(kernel.log, |old(kernel.log)|, |kernel.log|, pool)
      ensures kernel.quiet ==> kept
      ensures kernel.quiet && old(kernel.bridge).Some? ==>
        Settles(pool, ModeFor(old(active), bridge, old(kernel.table), old(kernel.bridge).value), old(kernel.table), old(kernel.bridge), r, kernel.table, kernel.bridge)
    {
      if active.Some? && active.value.0 == bridge {
        r := kernel.ReconcileRoute(pool, active.value.1);
      } else {
        r := kernel.InitializeRoute(pool);
      }
      kept := true;
      if r.Ok? && pool != DEFAULT_POOL {
        kept := Attempt(kernel.quiet);
        if !kept {
          stopped := true;
          return;
        }
        recorded := Some(bridge);
      }
      if r.Ok? {
        active := Some((bridge, r.value));
      }
    }

    ghost function ModeFor(active: Option<(string, Mode)>, bridge: string, t: Table, b: nat): Mode {
      if active.Some? && active.value.0 == bridge then active.value.1 else InitialMode(Observe(t, RoutesOf(pool), b))
    }

    /** `cleanup_route`: only a custom pool with a recorded bridge has anything to remove. */
    method CleanUp()
      modifies `recorded, kernel`table, kernel`bridge, kernel`moves, kernel`log
      ensures old(kernel.log) <= kernel.log && SafeSince(kernel.log, |old(kernel.log)|, pool, Exact())
      ensures NeverAsked(kernel.log, |old(kernel.log)|, |kernel.log|, pool)
    {
      EmptyStretch(kernel.log, RoutesOf(pool));
      if pool == DEFAULT_POOL || recorded.None? {
        return;
      }
      var removed, checked := kernel.RemoveIfOwned(pool);
      SafeSnoc(old(kernel.log), kernel.log[|kernel.log| - 1], |old(kernel.log)|, RoutesOf(pool));
      if removed.Ok? {
        recorded := None;
      }
    }

    /** The guard's own move in one turn, after any arrival. */
    method Act(resolution: Resolution) returns (report: Report)
      requires !stopped
      modifies this, kernel`table, kernel`bridge, kernel`moves, kernel`log
      ensures old(kernel.log) <= kernel.log && SafeSince(kernel.log, |old(kernel.log)|, pool, Exact())
      ensures MovesAs(report, resolution, old(active))
      ensures report.TornDown? ==> active.None?
      ensures report.Waited? ==> active == old(active)
      ensures report.Reconciled? ==> RemembersAs(report, old(active), active) && (!report.kept ==> stopped)
      ensures !report.Reconciled? || old(active) == Some((report.bridge, SplitFallback)) ==>
        NeverAsked(kernel.log, |old(kernel.log)|, |kernel.log|, pool)
      ensures report.Reconciled? && old(active) == Some((report.bridge, SplitFallback)) ==> report.result != Ok(Preferred)
    {
      EmptyStretch(kernel.log, RoutesOf(pool));
      if resolution.Absent? {
        if active.Some? {
          active := None;
          CleanUp();
        }
        return TornDown;
      }
      if resolution.Inconclusive? && active.None? {
        return Waited;
      }
      var bridge := if resolution.Found? then resolution.bridge else active.value.0;
      var r, kept := Reconcile(bridge);
      report := Reconciled(bridge, r, kept);
      if r.Err? && pool != DEFAULT_POOL && (r.error.RouteConflict? || r.error.RouteOverlap?) {
        ghost var own := kernel.log;
        CleanUp();
        stopped := true;
        assert kernel.log[..|own|] == own;
        SafeJoin(kernel.log, |old(kernel.log)|, |own|, pool, Exact());
      }
    }

    /** One turn of `container_route_guard`. */
    method TakeRound(round: Round) returns (report: Report, ghost span: Span, ghost looks: seq<nat>)
      requires !stopped
      modifies this, kernel`table, kernel`bridge, kernel`moves, kernel`log
      ensures old(kernel.log) <= kernel.log && span.start == |old(kernel.log)| <= span.arrived <= span.end == |kernel.log|
      ensures SafeSince(kernel.log, span.start, pool, Exact())
      ensures AskedOnlyWhenUnrouted(kernel.log, span.start, span.arrived, pool)
      ensures pool == DEFAULT_POOL ==> span.arrived == span.start
      ensures kernel.reachable ==> LooksAreFollowed(kernel.log[..span.arrived], looks, pool)
      ensures MovesAs(report, round.resolution, old(active))
      ensures report.TornDown? ==> active.None?
      ensures report.Waited? ==> active == old(active)
      ensures report.Reconciled? ==> RemembersAs(report, old(active), active) && (!report.kept ==> stopped)
      ensures !report.Reconciled? || old(active) == Some((report.bridge, SplitFallback)) ==> NeverAsked(kernel.log, span.arrived, span.end, pool)
      ensures report.Reconciled? && old(active) == Some((report.bridge, SplitFallback)) ==> report.result != Ok(Preferred)
    {
      looks := Arrive(round.attempts, round.arrival);
      ghost var arrived := kernel.log;
      report := Act(round.resolution);
      span := Span(|old(kernel.log)|, |arrived|, |kernel.log|);
      assert kernel.log[..|arrived|] == arrived;
      SafeJoin(kernel.log, |old(kernel.log)|, |arrived|, pool, Exact());
      StretchStays(arrived, kernel.log, |old(kernel.log)|, |arrived|, pool);
    }

    /** Any number of rounds, until the guard stops: every step is safe; once a round has
        reported split mode, split mode holds for as long as the guard stays on that bridge;
        and an arrival, whose inspections are `looks`, asks for the preferred route exactly
        when one of them shows none of the managed routes. */
    method Run(script: seq<Round>) returns (reports: seq<Report>, ghost spans: seq<Span>, ghost looks: seq<seq<nat>>)
      requires !stopped
      modifies this, kernel`table, kernel`bridge, kernel`moves, kernel`log
      ensures |reports| == |spans| == |looks| <= |script| && (|reports| < |script| ==> stopped)
      ensures forall n | 0 <= n < |spans| :: spans[n].arrived <= |kernel.log|
      ensures kernel.reachable ==> forall n | 0 <= n < |spans| :: LooksAreFollowed(kernel.log[..spans[n].arrived], looks[n], pool)
      ensures old(kernel.log) <= kernel.log && SafeSince(kernel.log, |old(kernel.log)|, pool, Exact())
      ensures forall i: nat, j: nat, b: string | i < j && SplitReported(reports, i, b) && StaysOn(reports, i, j, b) ::
        Sticky(kernel.log, reports[j], spans[j], pool)
    {
      reports, spans, looks := [], [], [];
      EmptyStretch(kernel.log, RoutesOf(pool));
      while |reports| < |script| && !stopped
        invariant |reports| == |spans| == |looks| <= |script|
        invariant old(kernel.log) <= kernel.log && SafeSince(kernel.log, |old(kernel.log)|, pool, Exact())
        invariant forall n | 0 <= n < |spans| :: spans[n].end <= |kernel.log| && spans[n].arrived <= spans[n].end
        invariant kernel.reachable ==> forall n | 0 <= n < |spans| :: LooksAreFollowed(kernel.log[..spans[n].arrived], looks[n], pool)
        invariant forall i: nat, j: nat, b: string | i < j && SplitReported(reports, i, b) && StaysOn(reports, i, j, b) ::
          Sticky(kernel.log, reports[j], spans[j], pool)
        invariant !stopped ==> forall i: nat, b: string | SplitReported(reports, i, b) && StaysOn(reports, i, |reports| - 1, b) ::
          active == Some((b, SplitFallback))
        decreases |script| - |reports|
      {
        ghost var before, was, told := kernel.log, active, reports;
        var report;
        ghost var span, looked;
        report, span, looked := TakeRound(script[|reports|]);
        assert kernel.log[..|before|] == before;
        assert forall n | 0 <= n < |spans| :: kernel.log[..spans[n].arrived] == before[..spans[n].arrived];
        SafeJoin(kernel.log, |old(kernel.log)|, |before|, pool, Exact());
        reports, spans, looks := reports + [report], spans + [span], looks + [looked];
        forall i: nat, j: nat, b: string | i < j && SplitReported(reports, i, b) && StaysOn(reports, i, j, b)
          ensures Sticky(kernel.log, reports[j], spans[j], pool)
        {
          StaysOnSnoc(told, report, i, b);
          assert SplitReported(told, i, b);
          if j < |told| {
            StretchStays(before, kernel.log, spans[j].start, spans[j].arrived, pool);
            StretchStays(before, kernel.log, spans[j].arrived, spans[j].end, pool);
          }
        }
        forall i: nat, b: string | !stopped && SplitReported(reports, i, b) && StaysOn(reports, i, |reports| - 1, b)
          ensures active == Some((b, SplitFallback))
        {
          if i < |told| {
            StaysOnSnoc(told, report, i, b);
            assert SplitReported(told, i, b);
            assert was == Some((b, SplitFallback)) && report.Reconciled? && report.bridge == b;
            assert report.result.Ok? ==> report.result.value == SplitFallback;
          } else {
            assert reports[i] == report;
          }
        }
      }
    }
  }

  /** The move discovery calls for. */
  predicate MovesAs(report: Report, resolution: Resolution, active: Option<(string, Mode)>) {
    match resolution
    case Absent => report == TornDown
    case Found(bridge) => report.Reconciled? && report.bridge == bridge
    case Inconclusive => if active.None? then report == Waited else report.Reconciled? && report.bridge == active.value.0
  }

  /** What the guard remembers after such a report. */
  predicate RemembersAs(report: Report, was: Option<(string, Mode)>, now: Option<(string, Mode)>)
    requires report.Reconciled?
  {
    now == if report.result.Ok? && report.kept then Some((report.bridge, report.result.value)) else was
  }

  /** After round `i` up to round `j` the guard never left this bridge. */
  ghost predicate StaysOn(reports: seq<Report>, i: nat, j: nat, bridge: string) {
    i <= j < |reports| && forall x | i < x <= j :: reports[x].Reconciled? && reports[x].bridge == bridge
  }

  /** Split mode holds: no preferred mode is reported, the guard's own calls never ask for the
      preferred route, and an arrival does so only on seeing none of the managed routes. */
  ghost predicate Sticky(log: seq<Step>, report: Report, span: Span, pool: Pool) {
    && (report.Reconciled? ==> report.result != Ok(Preferred))
    && AskedOnlyWhenUnrouted(log, span.start, span.arrived, pool) && NeverAsked(log, span.arrived, span.end, pool)
    && (pool == DEFAULT_POOL ==> span.start == span.arrived)
  }

  ghost predicate SplitReported(reports: seq<Report>, i: nat, bridge: string) {
    i < |reports| && reports[i].Reconciled? && reports[i].bridge == bridge && reports[i].result == Ok(SplitFallback)
  }

  lemma StaysOnSnoc(reports: seq<Report>, report: Report, i: nat, bridge: string)
    requires i < |reports|
    ensures StaysOn(reports + [report], i, |reports|, bridge) ==>
      StaysOn(reports, i, |reports| - 1, bridge) && report.Reconciled? && report.bridge == bridge
    ensures forall j | i <= j < |reports| :: StaysOn(reports + [report], i, j, bridge) <==> StaysOn(reports, i, j, bridge)
  {
    var all := reports + [report];
    assert forall x | 0 <= x < |reports| :: all[x] == reports[x];
    assert all[|reports|] == report;
  }

  lemma HalfAloneSplits(pool: Pool, b: nat)
    ensures var t: Table := map[RoutesOf(pool).lower := Direct(b)];
      && InitialMode(Observe(t, RoutesOf(pool), b)) == SplitFallback
      && Settle(pool, SplitFallback, t, b).Some? && Settle(pool, SplitFallback, t, b).value.mode == SplitFallback
  {
    var t: Table := map[RoutesOf(pool).lower := Direct(b)];
    assert !HasForeign(t, pool, b);
  }

  /** Over a table that holds at most our own routes, split mode stays split. */
  lemma OwnRoutesSplit(pool: Pool, t: Table, b: nat)
    requires forall net | net in t :: RoutesOf(pool).Manages(net) && OnBridge(t[net], b)
    ensures Settle(pool, SplitFallback, t, b).Some? && Settle(pool, SplitFallback, t, b).value.mode == SplitFallback
  {
    assert !HasForeign(t, pool, b);
  }

  /** A guard that has reported split mode, over a table somebody then emptied. */
  method SplitThenEmptied(pool: Pool, b: nat) returns (g: Guard, first: Result<Mode, RouteError>)
    ensures fresh(g) && fresh(g.kernel) && g.pool == pool && g.kernel.quiet && g.kernel.table == map[] && g.kernel.bridge == Some(b)
    ensures first == Ok(SplitFallback) && g.active == Some(("bridge100", SplitFallback))
  {
    var half: Table := map[RoutesOf(pool).lower := Direct(b)];
    var k := new Kernel(half, Some(b), [], true, true, true);
    g := new Guard(k, pool);
    HalfAloneSplits(pool, b);
    var kept;
    first, kept := g.Reconcile("bridge100");
    k.table := map[];
  }

  /** A failing run, for any custom pool. The guard reports split mode; somebody removes both
      halves; the VM arrives, and its setup adds the preferred route although the guard goes
      on in split mode. */
  method ArrivalUndoesSplit(pool: Pool, b: nat) returns (g: Guard, first: Result<Mode, RouteError>, second: Result<Mode, RouteError>, ghost at: nat)
    requires pool != DEFAULT_POOL
    ensures first == Ok(SplitFallback) && second == Ok(SplitFallback)
    ensures at < |g.kernel.log| && AddsPreferred(g.kernel.log[at], RoutesOf(pool))
  {
    g, first := SplitThenEmptied(pool, b);
    at := |g.kernel.log| + 1;
    ghost var look := Step(Inspect, Some(b), map[], map[]);
    assert Unrouted(look, pool);
    ghost var looks := g.Arrive(1, Some("bridge100"));
    ghost var log := g.kernel.log;
    OwnRoutesSplit(pool, g.kernel.table, b);
    var kept;
    second, kept := g.Reconcile("bridge100");
    assert g.kernel.log[at] == log[at];
  }

  /** The same for the default pool: the hook the VM's start fires re-derives the mode as well,
      and adds the preferred route beside a guard in split mode. */
  method HookUndoesSplit(b: nat) returns (g: Guard, first: Result<Mode, RouteError>, second: Result<Mode, RouteError>, ghost at: nat)
    ensures g.pool == DEFAULT_POOL && first == Ok(SplitFallback) && second == Ok(SplitFallback)
    ensures at < |g.kernel.log| && AddsPreferred(g.kernel.log[at], RoutesOf(g.pool))
  {
    DefaultPoolIsAccepted();
    g, first := SplitThenEmptied(DEFAULT_POOL, b);
    at := |g.kernel.log| + 1;
    ghost var look := Step(Inspect, Some(b), map[], map[]);
    assert Unrouted(look, DEFAULT_POOL);
    var hooked := g.kernel.InitializeRoute(DEFAULT_POOL);
    ghost var log := g.kernel.log;
    SettlesGains(DEFAULT_POOL, InitialMode(Observe(map[], RoutesOf(DEFAULT_POOL), b)), map[], Some(b), hooked, g.kernel.table, g.kernel.bridge);
    OwnRoutesSplit(DEFAULT_POOL, g.kernel.table, b);
    var kept;
    second, kept := g.Reconcile("bridge100");
    assert g.kernel.log[at] == log[at];
  }
}
