/** One lock per container id in a table of weak references that every call prunes.

    The table's own mutex covers looking a lock up; waiting, holding and dropping a lock do
    not take it, so a lock can lose its last reference in the middle of another call's
    section. A lock is alive while some task waits for it or holds it. */
module LifecycleLocks {
  import opened Wrappers

  type Id = string

  datatype Task =
    /** Inside the table's mutex, with these entries still to be examined. */
    | Pruning(id: Id, todo: set<Id>)
    | Waiting(id: Id, lock: nat)
    | Holding(id: Id, lock: nat)

  datatype State = State(table: map<Id, nat>, tasks: map<nat, Task>, section: Option<nat>, next: nat)

  datatype Step =
    /** A call enters the table's mutex. */
    | Enter(task: nat, id: Id)
    /** Its `retain` examines one entry. */
    | Examine(task: nat, entry: Id)
    /** It upgrades the entry, or replaces it by a new lock, and leaves the mutex. */
    | LookUp(task: nat)
    | Acquire(task: nat)
    /** A guard is dropped, or a wait is cancelled. */
    | Drop(task: nat)

  predicate Refers(t: Task, lock: nat) {
    !t.Pruning? && t.lock == lock
  }

  predicate Alive(s: State, lock: nat) {
    exists t | t in s.tasks :: Refers(s.tasks[t], lock)
  }

  predicate Held(s: State, lock: nat) {
    exists t | t in s.tasks :: s.tasks[t].Holding? && s.tasks[t].lock == lock
  }

  predicate Enabled(s: State, step: Step) {
    match step
    case Enter(t, _) => t !in s.tasks && s.section.None?
    case Examine(t, k) => s.section == Some(t) && t in s.tasks && s.tasks[t].Pruning? && k in s.tasks[t].todo
    case LookUp(t) => s.section == Some(t) && t in s.tasks && s.tasks[t].Pruning? && s.tasks[t].todo == {}
    case Acquire(t) => t in s.tasks && s.tasks[t].Waiting? && !Held(s, s.tasks[t].lock)
    case Drop(t) => t in s.tasks && !s.tasks[t].Pruning?
  }

  function Apply(s: State, step: Step): State
    requires Enabled(s, step)
  {
    match step
    case Enter(t, id) =>
      s.(tasks := s.tasks[t := Pruning(id, s.table.Keys)], section := Some(t))
    case Examine(t, k) =>
      var u := s.(tasks := s.tasks[t := Pruning(s.tasks[t].id, s.tasks[t].todo - {k})]);
      if k in s.table && !Alive(s, s.table[k]) then u.(table := s.table - {k}) else u
    case LookUp(t) =>
      var id := s.tasks[t].id;
      if id in s.table && Alive(s, s.table[id]) then
        s.(tasks := s.tasks[t := Waiting(id, s.table[id])], section := None)
      else
        State(s.table[id := s.next], s.tasks[t := Waiting(id, s.next)], None, s.next + 1)
    case Acquire(t) =>
      s.(tasks := s.tasks[t := Holding(s.tasks[t].id, s.tasks[t].lock)])
    case Drop(t) =>
      s.(tasks := s.tasks - {t})
  }

  const INITIAL := State(map[], map[], None, 0)

  ghost predicate Execution(states: seq<State>, steps: seq<Step>) {
    && |states| == |steps| + 1 && states[0] == INITIAL
    && forall i | 0 <= i < |steps| :: Enabled(states[i], steps[i]) && states[i + 1] == Apply(states[i], steps[i])
  }

  /** A lock that is waited for or held is the one the table gives for its id. */
  ghost predicate TableKnowsLiveLocks(s: State) {
    forall t | t in s.tasks && !s.tasks[t].Pruning? :: s.tasks[t].id in s.table && s.table[s.tasks[t].id] == s.tasks[t].lock
  }

  ghost predicate OneHolderPerLock(s: State) {
    forall t, u | t in s.tasks && u in s.tasks && s.tasks[t].Holding? && s.tasks[u].Holding? && s.tasks[t].lock == s.tasks[u].lock :: t == u
  }

  ghost predicate LocksBelong(s: State) {
    && (forall a, b | a in s.table && b in s.table && s.table[a] == s.table[b] :: a == b)
    && (forall a | a in s.table :: s.table[a] < s.next)
  }

  ghost predicate Inv(s: State) {
    && TableKnowsLiveLocks(s) && OneHolderPerLock(s) && LocksBelong(s)
    && (forall t | t in s.tasks && s.tasks[t].Pruning? :: s.section == Some(t))
  }

  /** No step takes an entry away from a lock somebody waits for or holds. */
  lemma StepKeepsTable(s: State, step: Step)
    requires Inv(s) && Enabled(s, step)
    ensures TableKnowsLiveLocks(Apply(s, step))
  {
    var u := Apply(s, step);
    forall t | t in u.tasks && !u.tasks[t].Pruning? ensures u.tasks[t].id in u.table && u.table[u.tasks[t].id] == u.tasks[t].lock {
      if t in s.tasks && !s.tasks[t].Pruning? {
        assert Refers(s.tasks[t], s.table[s.tasks[t].id]);
      }
    }
  }

  lemma StepKeepsHolders(s: State, step: Step)
    requires Inv(s) && Enabled(s, step)
    ensures OneHolderPerLock(Apply(s, step))
  {
  }

  lemma StepKeepsInv(s: State, step: Step)
    requires Inv(s) && Enabled(s, step)
    ensures Inv(Apply(s, step))
  {
    StepKeepsTable(s, step);
    StepKeepsHolders(s, step);
  }

  lemma {:induction false} InvAlways(states: seq<State>, steps: seq<Step>, i: nat)
    requires Execution(states, steps) && i < |states|
    ensures Inv(states[i])
  {
    if i > 0 {
      InvAlways(states, steps, i - 1);
      StepKeepsInv(states[i - 1], steps[i - 1]);
    }
  }

  /** Two operations on one container never hold its lock at once, in any interleaving. */
  lemma MutualExclusion(states: seq<State>, steps: seq<Step>, i: nat, t: nat, u: nat)
    requires Execution(states, steps) && i < |states|
    requires t in states[i].tasks && u in states[i].tasks
    requires states[i].tasks[t].Holding? && states[i].tasks[u].Holding? && states[i].tasks[t].id == states[i].tasks[u].id
    ensures t == u
  {
    InvAlways(states, steps, i);
  }

  /** A task waits only for operations on its own container: a waiter whose container nobody
      holds can go ahead. */
  lemma WaitsOnlyForItsOwn(states: seq<State>, steps: seq<Step>, i: nat, t: nat)
    requires Execution(states, steps) && i < |states| && t in states[i].tasks && states[i].tasks[t].Waiting?
    ensures Enabled(states[i], Acquire(t)) <==>
      forall u | u in states[i].tasks && states[i].tasks[u].Holding? :: states[i].tasks[u].id != states[i].tasks[t].id
  {
    InvAlways(states, steps, i);
  }

  /** Replaced in the table, and with no reference left. */
  ghost predicate Forgotten(s: State, lock: nat) {
    lock < s.next && !Alive(s, lock) && forall id | id in s.table :: s.table[id] != lock
  }

  lemma ForgottenStays(s: State, step: Step, lock: nat)
    requires Enabled(s, step) && Forgotten(s, lock)
    ensures Forgotten(Apply(s, step), lock)
  {
    var u := Apply(s, step);
    forall t | t in u.tasks ensures !Refers(u.tasks[t], lock) {
      assert t in s.tasks ==> !Refers(s.tasks[t], lock);
    }
  }

  /** A lock that was replaced is never waited for or held again. */
  lemma {:induction false} ReplacedLocksStayDead(states: seq<State>, steps: seq<Step>, i: nat, j: nat, lock: nat)
    requires Execution(states, steps) && i <= j < |states| && Forgotten(states[i], lock)
    ensures Forgotten(states[j], lock)
  {
    if i < j {
      ReplacedLocksStayDead(states, steps, i, j - 1, lock);
      ForgottenStays(states[j - 1], steps[j - 1], lock);
    }
  }

  /** Keys still in the table when a lookup happens were alive when they were examined:
      without a concurrent drop the table holds no dead entry but the caller's own. */
  ghost predicate Examined(s: State, t: nat) {
    t in s.tasks && s.tasks[t].Pruning? && forall k | k in s.table && k !in s.tasks[t].todo :: Alive(s, s.table[k])
  }

  /** Each step of the call's own keeps that, and the lookup leaves exactly the live locks. */
  lemma PruningIsComplete(s: State, t: nat, step: Step)
    requires Inv(s) && Enabled(s, step) && s.section == Some(t) && Examined(s, t)
    requires step.Examine? || step.LookUp?
    ensures step.Examine? ==> Examined(Apply(s, step), t)
    ensures step.LookUp? ==> forall k | k in Apply(s, step).table :: Alive(Apply(s, step), Apply(s, step).table[k])
  {
    var u := Apply(s, step);
    if step.Examine? {
      forall k | k in u.table && k !in u.tasks[t].todo ensures Alive(u, u.table[k]) {
        var x :| x in s.tasks && Refers(s.tasks[x], s.table[k]);
        assert x in u.tasks && Refers(u.tasks[x], u.table[k]);
      }
    } else {
      forall k | k in u.table ensures Alive(u, u.table[k]) {
        if k == s.tasks[t].id {
          assert Refers(u.tasks[t], u.table[k]);
        } else {
          var x :| x in s.tasks && Refers(s.tasks[x], s.table[k]);
          assert x in u.tasks && Refers(u.tasks[x], u.table[k]);
        }
      }
    }
  }
}
