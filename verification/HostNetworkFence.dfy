/** The generation fence between guest listings and host networking.

    Every change of container host state is made by a task that holds the commit lock and has
    advanced the generation first, or that owns a lease. A listing is published only when the
    generation captured before the query is still current and no lease is out. The lock, the
    activity counters, the System VM and every task are one state; each atomic section of the
    source is one step, and a task that errs or is cancelled simply unlocks. */
module HostNetworkFence {
  import opened Wrappers

  const U64_MAX: nat := 0xFFFF_FFFF_FFFF_FFFF

  /** The containers' names and forwarded ports. */
  datatype Host = Host(aliases: map<string, string>, ports: map<string, nat>)

  /** What a capture returns. `host`, `writes` and `leases` are history: the state then. */
  datatype Snapshot = Snapshot(vm: nat, generation: nat, host: Host, writes: nat, leases: nat)

  datatype Task =
    | Locked
    /** Holds the lock and has invalidated every snapshot. */
    | Writing
    | Leased(vm: nat)
    | LeasedLocked(vm: nat)
    | LeasedWriting(vm: nat)
    /** The guest query is running. */
    | Querying(snapshot: Snapshot)
    | QueryDone(snapshot: Snapshot)
    /** The listing passed its check and is being applied. */
    | Publishing(snapshot: Snapshot)
    /** Halfway through a `clear_container_incarnation`, to make room for a VM if given. */
    | Clearing(room: Option<nat>)
    | LeasedClearing(vm: nat)
    | ListingClearing(snapshot: Snapshot)

  datatype State = State(
    holder: Option<nat>, tasks: map<nat, Task>,
    generation: nat, active: nat, closed: bool,
    published: Option<nat>, vm: Option<nat>, host: Host,
    /** History: changes of `host`, and leases, so far. */
    writes: nat, leases: nat)

  datatype Step =
    | Lock(task: nat)
    | Unlock(task: nat)
    /** `begin_host_network_write`. */
    | BeginWrite(task: nat)
    /** `invalidate_host_network_snapshot`. */
    | Invalidate(task: nat)
    /** `begin_container_mutation`. */
    | BeginLease(task: nat)
    | DropLease(task: nat)
    /** `prepare_container_incarnation`, for a lease, a listing or another lock holder. */
    | Prepare(task: nat, incarnation: nat)
    /** `retire_system_vm_container_networking`. */
    | Retire(task: nat)
    /** A clear under way has stopped the ports; it ends with the names. */
    | ClearPorts(task: nat)
    | EndClear(task: nat)
    /** `capture_container_snapshot`. */
    | Capture(task: nat)
    | DropQuery(task: nat)
    /** The check at the head of `HostNetworkSnapshot::commit`. */
    | Check(task: nat)
    /** Any change of container host state by a task entitled to make one. */
    | Change(task: nat, host: Host)
    /** The names of a listing, under the VM check. */
    | PublishNames(task: nat, names: map<string, string>)
    | Close
    | VmChange(current: Option<nat>)

  predicate HoldsLock(t: Task) {
    t.Locked? || t.LeasedLocked? || t.QueryDone? || Writer(t)
  }

  predicate InClear(t: Task) {
    t.Clearing? || t.LeasedClearing? || t.ListingClearing?
  }

  predicate Writer(t: Task) {
    t.Writing? || t.LeasedWriting? || t.Publishing? || InClear(t)
  }

  predicate OwnsLease(t: Task) {
    t.Leased? || t.LeasedLocked? || t.LeasedWriting? || t.LeasedClearing?
  }

  predicate HasSnapshot(t: Task) {
    t.Querying? || t.QueryDone?
  }

  predicate MayPrepare(t: Task, incarnation: nat) {
    t.Locked? || (t.LeasedLocked? && t.vm == incarnation) || (t.Publishing? && t.snapshot.vm == incarnation)
  }

  /** `Activity::advance`: the last generation closes admission instead of wrapping. */
  function Advance(s: State): State {
    if s.generation < U64_MAX then s.(generation := s.generation + 1) else s.(closed := true)
  }

  function Leave(s: State, t: nat): State {
    s.(tasks := s.tasks - {t}, holder := None)
  }

  function Become(s: State, t: nat, phase: Task): State {
    s.(tasks := s.tasks[t := phase])
  }

  /** A clear begins: every snapshot is invalidated before its first await. */
  function StartClear(s: State, t: nat, room: Option<nat>): State
    requires t in s.tasks
  {
    var phase := match s.tasks[t]
      case LeasedLocked(vm) => LeasedClearing(vm)
      case Publishing(snapshot) => ListingClearing(snapshot)
      case _ => Clearing(room);
    Become(Advance(s), t, phase)
  }

  /** The VM the clear makes room for. */
  function Room(t: Task): Option<nat>
    requires InClear(t)
  {
    match t
    case Clearing(room) => room
    case LeasedClearing(vm) => Some(vm)
    case ListingClearing(snapshot) => Some(snapshot.vm)
  }

  /** Back to what the task was about, the host state now being the given VM's. */
  function Resume(s: State, t: nat): State
    requires t in s.tasks && InClear(s.tasks[t]) && Room(s.tasks[t]).Some?
  {
    var phase := match s.tasks[t]
      case Clearing(_) => Locked
      case LeasedClearing(vm) => LeasedWriting(vm)
      case ListingClearing(snapshot) => Publishing(snapshot);
    Become(s, t, phase).(published := Room(s.tasks[t]))
  }

  /** The end of a clear: the names go, and nothing belongs to a VM any more unless the one the
      clear made room for is still live. */
  function Cleared(s: State, t: nat): State
    requires t in s.tasks && InClear(s.tasks[t])
  {
    var u := s.(host := s.host.(aliases := map[]), published := None, writes := s.writes + 1);
    var room := Room(s.tasks[t]);
    if room.Some? && Live(u, room.value) then Resume(u, t)
    else if OwnsLease(s.tasks[t]) then Become(u, t, LeasedLocked(s.tasks[t].vm))
    else Leave(u, t)
  }

  /** `with_host_network_incarnation`. */
  predicate Live(s: State, v: nat) {
    !s.closed && s.vm == Some(v)
  }

  predicate Enabled(s: State, step: Step) {
    match step
    case Lock(t) => s.holder.None? && (t in s.tasks ==> s.tasks[t].Leased? || s.tasks[t].Querying?)
    case Unlock(t) => t in s.tasks && HoldsLock(s.tasks[t])
    case BeginWrite(t) => t in s.tasks && s.tasks[t].Locked?
    case Invalidate(t) => t in s.tasks && s.tasks[t].Locked?
    case BeginLease(t) => t in s.tasks && s.tasks[t].Locked?
    case DropLease(t) => t in s.tasks && s.tasks[t].Leased?
    case Prepare(t, v) => t in s.tasks && MayPrepare(s.tasks[t], v)
    case Retire(t) => t in s.tasks && s.tasks[t].Locked?
    case ClearPorts(t) => t in s.tasks && InClear(s.tasks[t])
    case EndClear(t) => t in s.tasks && InClear(s.tasks[t])
    case Capture(t) => t in s.tasks && s.tasks[t].Locked?
    case DropQuery(t) => t in s.tasks && s.tasks[t].Querying?
    case Check(t) => t in s.tasks && s.tasks[t].QueryDone?
    case Change(t, _) => t in s.tasks && Writer(s.tasks[t]) && !InClear(s.tasks[t])
    case PublishNames(t, _) => t in s.tasks && s.tasks[t].Publishing? && Live(s, s.tasks[t].snapshot.vm)
    case Close => true
    case VmChange(_) => true
  }

  /** The listing's check passes. */
  predicate Passes(s: State, t: nat)
    requires t in s.tasks && s.tasks[t].QueryDone?
  {
    !s.closed && s.active == 0 && s.generation == s.tasks[t].snapshot.generation && !Advance(s).closed
  }

  function Apply(s: State, step: Step): State
    requires Enabled(s, step)
  {
    match step
    case Lock(t) =>
      var phase := if t !in s.tasks then Locked
        else if s.tasks[t].Leased? then LeasedLocked(s.tasks[t].vm) else QueryDone(s.tasks[t].snapshot);
      Become(s, t, phase).(holder := Some(t))
    case Unlock(t) =>
      if OwnsLease(s.tasks[t]) then Become(s, t, Leased(s.tasks[t].vm)).(holder := None) else Leave(s, t)
    case BeginWrite(t) =>
      if s.closed then Leave(s, t)
      else if Advance(s).closed then Leave(Advance(s), t)
      else Become(Advance(s), t, Writing)
    case Invalidate(t) => Become(Advance(s), t, Writing)
    case BeginLease(t) =>
      if s.vm.None? || s.closed then Leave(s, t)
      else if s.active >= U64_MAX then Leave(s.(closed := true), t)
      else if Advance(s).closed then Leave(Advance(s), t)
      else Become(Advance(s), t, Leased(s.vm.value)).(active := s.active + 1, holder := None, leases := s.leases + 1)
    case DropLease(t) =>
      Advance(s).(tasks := s.tasks - {t}, active := if s.active > 0 then s.active - 1 else 0)
    case Prepare(t, v) =>
      if !s.tasks[t].Locked? && !Live(s, v) then s
      else if s.published != Some(v) then StartClear(s, t, Some(v))
      else if s.tasks[t].LeasedLocked? then Become(s, t, LeasedWriting(v))
      else s
    case Retire(t) =>
      if s.vm.Some? && s.published == s.vm then Leave(s, t) else StartClear(s, t, None)
    case ClearPorts(t) => s.(host := s.host.(ports := map[]), writes := s.writes + 1)
    case EndClear(t) => Cleared(s, t)
    case Capture(t) =>
      if s.vm.None? || s.closed || s.active != 0 then Leave(s, t)
      else Become(s, t, Querying(Snapshot(s.vm.value, s.generation, s.host, s.writes, s.leases))).(holder := None)
    case DropQuery(t) => s.(tasks := s.tasks - {t})
    case Check(t) =>
      if Passes(s, t) then Become(Advance(s), t, Publishing(s.tasks[t].snapshot))
      else if !s.closed && s.active == 0 && s.generation == s.tasks[t].snapshot.generation then Leave(Advance(s), t)
      else Leave(s, t)
    case Change(t, host) => s.(host := host, writes := s.writes + 1)
    case PublishNames(t, names) => s.(host := s.host.(aliases := names), writes := s.writes + 1)
    case Close => Advance(s.(closed := true))
    case VmChange(v) => s.(vm := v)
  }

  const INITIAL := State(None, map[], 0, 0, false, None, None, Host(map[], map[]), 0, 0)

  ghost predicate Execution(states: seq<State>, steps: seq<Step>) {
    && |states| == |steps| + 1 && states[0] == INITIAL
    && forall i | 0 <= i < |steps| :: Enabled(states[i], steps[i]) && states[i + 1] == Apply(states[i], steps[i])
  }

  // ---- What every step keeps -----------------------------------------------------------

  function LeaseTasks(tasks: map<nat, Task>): set<nat> {
    set t | t in tasks && OwnsLease(tasks[t])
  }

  predicate Stale(s: State, snap: Snapshot) {
    snap.generation < s.generation || s.closed
  }

  /** A snapshot that could still commit has missed nothing. */
  ghost predicate MissedNothing(s: State, snap: Snapshot) {
    && s.active == 0 && s.host == snap.host && s.writes == snap.writes && s.leases == snap.leases
    && forall t | t in s.tasks :: !Writer(s.tasks[t])
  }

  ghost predicate Fenced(s: State) {
    forall t | t in s.tasks && HasSnapshot(s.tasks[t]) ::
      && s.tasks[t].snapshot.generation <= s.generation
      && (Stale(s, s.tasks[t].snapshot) || MissedNothing(s, s.tasks[t].snapshot))
  }

  ghost predicate LockHeldByHolder(s: State) {
    && (forall t | t in s.tasks :: HoldsLock(s.tasks[t]) <==> s.holder == Some(t))
    && (s.holder.Some? ==> s.holder.value in s.tasks)
  }

  ghost predicate Inv(s: State) {
    && LockHeldByHolder(s) && s.active == |LeaseTasks(s.tasks)| && s.generation <= U64_MAX
    && Fenced(s)
  }

  lemma LeaseAdded(tasks: map<nat, Task>, t: nat, phase: Task)
    requires t in tasks ==> !OwnsLease(tasks[t])
    ensures |LeaseTasks(tasks[t := phase])| == |LeaseTasks(tasks)| + if OwnsLease(phase) then 1 else 0
  {
    assert t !in LeaseTasks(tasks);
    assert LeaseTasks(tasks[t := phase]) == LeaseTasks(tasks) + if OwnsLease(phase) then {t} else {};
  }

  lemma LeaseRemoved(tasks: map<nat, Task>, t: nat)
    requires t in tasks
    ensures |LeaseTasks(tasks - {t})| == |LeaseTasks(tasks)| - if OwnsLease(tasks[t]) then 1 else 0
  {
    assert LeaseTasks(tasks) == LeaseTasks(tasks - {t}) + if OwnsLease(tasks[t]) then {t} else {};
  }

  lemma LeaseKept(tasks: map<nat, Task>, t: nat, phase: Task)
    requires t in tasks && OwnsLease(tasks[t]) && OwnsLease(phase)
    ensures |LeaseTasks(tasks[t := phase])| == |LeaseTasks(tasks)|
  {
    assert LeaseTasks(tasks[t := phase]) == LeaseTasks(tasks);
  }

  /** A step changes the phase of its own task alone, and counts the lease it takes or gives
      back. */
  lemma OwnTaskMoves(s: State, step: Step, t: nat)
    requires Enabled(s, step) && !step.Close? && !step.VmChange? && step.task == t
    requires t in s.tasks && OwnsLease(s.tasks[t]) ==> s.active > 0
    ensures var u := Apply(s, step);
      && u.tasks == (if t in u.tasks then s.tasks[t := u.tasks[t]] else s.tasks - {t})
      && u.active + (if t in s.tasks && OwnsLease(s.tasks[t]) then 1 else 0) == s.active + (if t in u.tasks && OwnsLease(u.tasks[t]) then 1 else 0)
      && (t in s.tasks || t in u.tasks)
  {
  }

  lemma StepKeepsLeaseCount(s: State, step: Step)
    requires Inv(s) && Enabled(s, step)
    ensures Apply(s, step).active == |LeaseTasks(Apply(s, step).tasks)|
  {
    if !step.Close? && !step.VmChange? {
      var t := step.task;
      if t in s.tasks && OwnsLease(s.tasks[t]) {
        LeasesAreCounted(s, t);
      }
      OwnTaskMoves(s, step, t);
      var tasks := Apply(s, step).tasks;
      LeaseMoves(s.tasks, tasks, t);
    }
  }

  lemma LeaseMoves(tasks: map<nat, Task>, moved: map<nat, Task>, t: nat)
    requires t in tasks || t in moved
    requires moved == if t in moved then tasks[t := moved[t]] else tasks - {t}
    ensures |LeaseTasks(moved)| + (if t in tasks && OwnsLease(tasks[t]) then 1 else 0) == |LeaseTasks(tasks)| + (if t in moved && OwnsLease(moved[t]) then 1 else 0)
  {
    if t !in moved {
      LeaseRemoved(tasks, t);
    } else if t in tasks && OwnsLease(tasks[t]) {
      if OwnsLease(moved[t]) {
        LeaseKept(tasks, t, moved[t]);
      } else {
        LeaseRemoved(tasks, t);
        LeaseAdded(tasks - {t}, t, moved[t]);
        assert (tasks - {t})[t := moved[t]] == moved;
      }
    } else {
      LeaseAdded(tasks, t, moved[t]);
    }
  }

  lemma StepKeepsLocking(s: State, step: Step)
    requires LockHeldByHolder(s) && Enabled(s, step)
    ensures LockHeldByHolder(Apply(s, step))
  {
  }

  /** A lease keeps every snapshot from committing. */
  lemma LeasesAreCounted(s: State, t: nat)
    requires Inv(s) && t in s.tasks && OwnsLease(s.tasks[t])
    ensures s.active > 0
  {
    assert t in LeaseTasks(s.tasks);
  }

  /** A snapshot a task carries is the state at one of its captures. */
  ghost predicate TakenAt(s: State, snap: Snapshot) {
    s.vm == Some(snap.vm) && snap == Snapshot(snap.vm, s.generation, s.host, s.writes, s.leases)
  }

  /** A task carries a snapshot because it just took it, or because it had it already. */
  lemma SnapshotOrigin(s: State, step: Step, t: nat)
    requires Enabled(s, step) && t in Apply(s, step).tasks && HasSnapshot(Apply(s, step).tasks[t])
    ensures var snap := Apply(s, step).tasks[t].snapshot;
      || (step == Capture(t) && TakenAt(s, snap))
      || (t in s.tasks && HasSnapshot(s.tasks[t]) && s.tasks[t].snapshot == snap)
  {
  }

  /** A snapshot just taken has missed nothing: its task held the lock, so nobody writes. */
  lemma CaptureMissesNothing(s: State, t: nat)
    requires Inv(s) && Enabled(s, Capture(t)) && t in Apply(s, Capture(t)).tasks
    ensures MissedNothing(Apply(s, Capture(t)), Apply(s, Capture(t)).tasks[t].snapshot)
  {
  }

  /** Anything that makes a snapshot miss something also makes it stale. */
  lemma MissedMeansStale(s: State, step: Step, snap: Snapshot)
    requires Inv(s) && Enabled(s, step) && snap.generation <= s.generation && (Stale(s, snap) || MissedNothing(s, snap))
    ensures snap.generation <= Apply(s, step).generation
    ensures Stale(Apply(s, step), snap) || MissedNothing(Apply(s, step), snap)
  {
    if step.Prepare? && OwnsLease(s.tasks[step.task]) {
      LeasesAreCounted(s, step.task);
    }
  }

  lemma StepKeepsFence(s: State, step: Step)
    requires Inv(s) && Enabled(s, step)
    ensures Fenced(Apply(s, step))
  {
    var u := Apply(s, step);
    forall t | t in u.tasks && HasSnapshot(u.tasks[t])
      ensures u.tasks[t].snapshot.generation <= u.generation
      ensures Stale(u, u.tasks[t].snapshot) || MissedNothing(u, u.tasks[t].snapshot)
    {
      SnapshotOrigin(s, step, t);
      if step == Capture(t) {
        CaptureMissesNothing(s, t);
      } else {
        MissedMeansStale(s, step, s.tasks[t].snapshot);
      }
    }
  }

  lemma StepKeepsInv(s: State, step: Step)
    requires Inv(s) && Enabled(s, step)
    ensures Inv(Apply(s, step))
  {
    StepKeepsLeaseCount(s, step);
    StepKeepsLocking(s, step);
    StepKeepsFence(s, step);
  }

  lemma {:induction false} InvAlways(states: seq<State>, steps: seq<Step>, i: nat)
    requires Execution(states, steps) && i < |states|
    ensures Inv(states[i])
  {
    if i == 0 {
      assert LeaseTasks(map[]) == {};
    } else {
      InvAlways(states, steps, i - 1);
      StepKeepsInv(states[i - 1], steps[i - 1]);
    }
  }

  // ---- The fence -----------------------------------------------------------------------

  lemma {:induction false} SnapshotsAreCaptures(states: seq<State>, steps: seq<Step>, i: nat, t: nat) returns (j: nat)
    requires Execution(states, steps) && i < |states| && t in states[i].tasks && HasSnapshot(states[i].tasks[t])
    ensures j < i && steps[j] == Capture(t) && TakenAt(states[j], states[i].tasks[t].snapshot)
  {
    SnapshotOrigin(states[i - 1], steps[i - 1], t);
    if t in states[i - 1].tasks && HasSnapshot(states[i - 1].tasks[t]) && states[i - 1].tasks[t].snapshot == states[i].tasks[t].snapshot {
      j := SnapshotsAreCaptures(states, steps, i - 1, t);
    } else {
      j := i - 1;
    }
  }

  lemma {:induction false} HistoryGrows(states: seq<State>, steps: seq<Step>, j: nat, i: nat)
    requires Execution(states, steps) && j <= i < |states|
    ensures states[j].writes <= states[i].writes && states[j].leases <= states[i].leases
  {
    if j < i {
      HistoryGrows(states, steps, j, i - 1);
    }
  }

  /** The step changes container host state, or admits a mutation of the guest. */
  predicate Interferes(s: State, step: Step)
    requires Enabled(s, step)
  {
    var u := Apply(s, step);
    u.host != s.host || u.leases != s.leases || step.Change? || step.PublishNames?
  }

  lemma InterferenceIsCounted(s: State, step: Step)
    requires Enabled(s, step) && Interferes(s, step)
    ensures Apply(s, step).writes > s.writes || Apply(s, step).leases > s.leases
  {
  }

  /** In every run, a listing is published only if nothing changed container host state and
      no guest mutation was admitted between its capture and its check. */
  lemma StaleListingsAreNeverPublished(states: seq<State>, steps: seq<Step>, i: nat, t: nat) returns (j: nat)
    requires Execution(states, steps) && i < |steps| && steps[i] == Check(t)
    requires t in states[i + 1].tasks && states[i + 1].tasks[t].Publishing?
    ensures j < i && steps[j] == Capture(t) && states[j].host == states[i].host && states[i].active == 0
    ensures forall k | j <= k < i :: !Interferes(states[k], steps[k])
  {
    InvAlways(states, steps, i);
    var snap := states[i].tasks[t].snapshot;
    assert Passes(states[i], t) && MissedNothing(states[i], snap);
    j := SnapshotsAreCaptures(states, steps, i, t);
    forall k | j <= k < i ensures !Interferes(states[k], steps[k]) {
      HistoryGrows(states, steps, j, k);
      HistoryGrows(states, steps, k + 1, i);
      if Interferes(states[k], steps[k]) {
        InterferenceIsCounted(states[k], steps[k]);
      }
    }
  }

  /** A query that fails, is interrupted or does not pass its check leaves everything the
      host publishes as it was. */
  lemma QueriesChangeNothing(s: State, step: Step)
    requires Enabled(s, step) && !step.Close? && !step.VmChange?
    requires step.Capture? || (step.task in s.tasks && HasSnapshot(s.tasks[step.task]))
    ensures Apply(s, step).host == s.host && Apply(s, step).published == s.published && Apply(s, step).writes == s.writes
  {
  }

  /** Only a task that holds the commit lock, with every other snapshot already stale or a
      lease of its own, changes container host state. */
  lemma WritersAreFenced(states: seq<State>, steps: seq<Step>, i: nat, t: nat)
    requires Execution(states, steps) && i < |states| && t in states[i].tasks && Writer(states[i].tasks[t])
    ensures states[i].holder == Some(t)
    ensures forall u | u in states[i].tasks && HasSnapshot(states[i].tasks[u]) :: Stale(states[i], states[i].tasks[u].snapshot)
  {
    InvAlways(states, steps, i);
  }

  /** Once stale, always stale: the generation never comes back, not even at its maximum. */
  lemma {:induction false} StaleForever(states: seq<State>, steps: seq<Step>, j: nat, i: nat, snap: Snapshot)
    requires Execution(states, steps) && j <= i < |states| && Stale(states[j], snap)
    ensures Stale(states[i], snap)
  {
    if j < i {
      StaleForever(states, steps, j, i - 1, snap);
    }
  }

  /** Names are published only for the VM whose containers were listed. */
  lemma NamesBelongToTheListedVm(states: seq<State>, steps: seq<Step>, i: nat, t: nat, names: map<string, string>)
    requires Execution(states, steps) && i < |steps| && steps[i] == PublishNames(t, names)
    ensures states[i].vm == Some(states[i].tasks[t].snapshot.vm) && states[i].holder == Some(t)
    ensures states[i + 1].host.aliases == names && states[i + 1].host.ports == states[i].host.ports
  {
    InvAlways(states, steps, i);
  }

  /** Once admission is closed it stays closed, and no listing is published any more. */
  lemma {:induction false} ClosedForever(states: seq<State>, steps: seq<Step>, j: nat, i: nat)
    requires Execution(states, steps) && j <= i < |states| && states[j].closed
    ensures states[i].closed
    ensures i < |steps| && steps[i].Check? ==> steps[i].task !in states[i + 1].tasks
    ensures i < |steps| ==> !steps[i].PublishNames?
  {
    if j < i {
      ClosedForever(states, steps, j, i - 1);
    }
  }
}
