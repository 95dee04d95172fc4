/** The hub that shares one stats pump between subscribers.

    A channel is named by the generation that made it. `subscribe` and a pump's last act hold
    the hub's mutex; dropping a receiver and a pump's look at its receiver count do not. So
    `subscribe` is two steps, deciding and attaching, with the mutex held in between. */
module StatsHub {
  import opened Wrappers

  /** What the task inside `subscribe` is about to do; `Free` when the mutex is free. */
  datatype Pending = Free | Reuse(generation: nat) | Create

  datatype Pump =
    | Running
    /** It read zero receivers and will clear the slot if that is still its own. */
    | Leaving

  datatype State = State(generation: nat, slot: Option<nat>, pumps: map<nat, Pump>, receivers: map<nat, nat>, pending: Pending)

  datatype Step =
    /** `subscribe` reads the slot and its receiver count. */
    | Decide
    /** `subscribe` returns this receiver. */
    | Attach(receiver: nat)
    | DropReceiver(receiver: nat)
    | PumpSeesNobody(pump: nat)
    | PumpExits(pump: nat)

  predicate HasReceiver(s: State, generation: nat) {
    exists r | r in s.receivers :: s.receivers[r] == generation
  }

  predicate Enabled(s: State, step: Step) {
    match step
    case Decide => s.pending.Free?
    case Attach(r) => !s.pending.Free? && r !in s.receivers
    case DropReceiver(r) => r in s.receivers
    case PumpSeesNobody(g) => g in s.pumps && s.pumps[g].Running? && !HasReceiver(s, g)
    case PumpExits(g) => g in s.pumps && s.pumps[g].Leaving? && s.pending.Free?
  }

  function Apply(s: State, step: Step): State
    requires Enabled(s, step)
  {
    match step
    case Decide =>
      s.(pending := if s.slot.Some? && HasReceiver(s, s.slot.value) then Reuse(s.slot.value) else Create)
    case Attach(r) =>
      if s.pending.Reuse? then s.(receivers := s.receivers[r := s.pending.generation], pending := Free)
      else
        var g := s.generation + 1;
        State(g, Some(g), s.pumps[g := Running], s.receivers[r := g], Free)
    case DropReceiver(r) => s.(receivers := s.receivers - {r})
    case PumpSeesNobody(g) => s.(pumps := s.pumps[g := Leaving])
    case PumpExits(g) =>
      s.(pumps := s.pumps - {g}, slot := if s.generation == g then None else s.slot)
  }

  const INITIAL := State(0, None, map[], map[], Free)

  ghost predicate Execution(states: seq<State>, steps: seq<Step>) {
    && |states| == |steps| + 1 && states[0] == INITIAL
    && forall i | 0 <= i < |steps| :: Enabled(states[i], steps[i]) && states[i + 1] == Apply(states[i], steps[i])
  }

  /** Every live receiver is on the slot's channel, and that channel's pump is at work. */
  ghost predicate Served(s: State) {
    forall r | r in s.receivers ::
      && s.slot == Some(s.receivers[r])
      && s.receivers[r] in s.pumps && s.pumps[s.receivers[r]].Running?
  }

  /** What holds in every run. */
  ghost predicate Sound(s: State) {
    && (s.slot.Some? ==> s.slot.value == s.generation && s.slot.value in s.pumps)
    && (forall g | g in s.pumps :: g <= s.generation)
    && (forall r | r in s.receivers :: s.receivers[r] <= s.generation)
    && (s.pending.Reuse? ==> s.slot == Some(s.pending.generation))
    && (s.generation in s.pumps ==> s.slot.Some?)
  }

  lemma {:induction false} SoundAlways(states: seq<State>, steps: seq<Step>, i: nat)
    requires Execution(states, steps) && i < |states|
    ensures Sound(states[i])
  {
    if i > 0 {
      SoundAlways(states, steps, i - 1);
    }
  }

  /** An exiting pump never clears the slot of a newer one. */
  lemma ExitSparesNewerPumps(states: seq<State>, steps: seq<Step>, i: nat, g: nat)
    requires Execution(states, steps) && i < |steps| && steps[i] == PumpExits(g)
    ensures states[i + 1].slot == if states[i].slot == Some(g) then None else states[i].slot
  {
    SoundAlways(states, steps, i);
  }

  // ---- The gap between deciding and attaching ------------------------------------------

  /** While a subscriber is about to join channel `g`, its pump reads zero receivers. */
  ghost predicate MissedAt(states: seq<State>, steps: seq<Step>, k: nat, n: nat, g: nat) {
    && Execution(states, steps) && k < n < |states| && steps[k] == PumpSeesNobody(g)
    && forall x | k <= x <= n :: states[x].pending == Reuse(g)
  }

  ghost predicate Missed(states: seq<State>, steps: seq<Step>, n: nat, g: nat) {
    exists k :: MissedAt(states, steps, k, n, g)
  }

  /** A subscriber joined a channel whose pump had decided to leave since the subscriber
      looked. */
  ghost predicate JoinedTooLate(states: seq<State>, steps: seq<Step>, m: nat) {
    && Execution(states, steps) && m < |steps| && steps[m].Attach? && states[m].pending.Reuse?
    && Missed(states, steps, m, states[m].pending.generation)
  }

  /** A channel about to be joined still has its pump, unless that pump left in the gap. */
  ghost predicate PendingServed(states: seq<State>, steps: seq<Step>, n: nat)
    requires n < |states|
  {
    var s := states[n];
    && (s.pending.Create? ==> s.receivers == map[])
    && (s.pending.Reuse? ==>
          || (s.pending.generation in s.pumps && s.pumps[s.pending.generation].Running?)
          || Missed(states, steps, n, s.pending.generation))
  }

  lemma MissedStays(states: seq<State>, steps: seq<Step>, n: nat, g: nat)
    requires Execution(states, steps) && n < |steps| && states[n + 1].pending == Reuse(g)
    requires Missed(states, steps, n, g)
    ensures Missed(states, steps, n + 1, g)
  {
    var k :| MissedAt(states, steps, k, n, g);
    assert MissedAt(states, steps, k, n + 1, g);
  }

  lemma StepServes(states: seq<State>, steps: seq<Step>, n: nat)
    requires Execution(states, steps) && n < |steps|
    requires Served(states[n]) && PendingServed(states, steps, n) && Sound(states[n]) && !JoinedTooLate(states, steps, n)
    ensures Served(states[n + 1]) && PendingServed(states, steps, n + 1)
  {
    var s, step, u := states[n], steps[n], states[n + 1];
    assert u == Apply(s, step);
    if s.pending.Reuse? && u.pending.Reuse? {
      var g := s.pending.generation;
      if Missed(states, steps, n, g) {
        MissedStays(states, steps, n, g);
      } else if step == PumpSeesNobody(g) {
        assert MissedAt(states, steps, n, n + 1, g);
      }
    }
  }

  /** Without such a late join, in any interleaving, everybody is served. */
  lemma {:induction false} ServedUnlessLate(states: seq<State>, steps: seq<Step>, n: nat)
    requires Execution(states, steps) && n < |states|
    requires forall m | 0 <= m < n :: !JoinedTooLate(states, steps, m)
    ensures Served(states[n]) && PendingServed(states, steps, n)
  {
    if n > 0 {
      ServedUnlessLate(states, steps, n - 1);
      SoundAlways(states, steps, n - 1);
      StepServes(states, steps, n - 1);
    }
  }

  /** A pump that has decided to leave does not come back to work. */
  lemma {:induction false} LeavingStays(states: seq<State>, steps: seq<Step>, k: nat, m: nat, g: nat)
    requires MissedAt(states, steps, k, m, g)
    ensures g !in states[m].pumps || states[m].pumps[g].Leaving?
  {
    if m > k + 1 {
      assert MissedAt(states, steps, k, m - 1, g);
      LeavingStays(states, steps, k, m - 1, g);
    }
    assert states[m] == Apply(states[m - 1], steps[m - 1]);
  }

  lemma LateIsNotServed(states: seq<State>, steps: seq<Step>, m: nat)
    requires JoinedTooLate(states, steps, m)
    ensures !Served(states[m + 1])
  {
    var g := states[m].pending.generation;
    var k :| MissedAt(states, steps, k, m, g);
    LeavingStays(states, steps, k, m, g);
    assert states[m + 1].receivers[steps[m].receiver] == g;
  }

  /** Every receiver is served at every moment of a run exactly when no subscriber in it
      joins a channel whose pump read zero receivers after the subscriber's own look. */
  lemma ServedThroughoutIff(states: seq<State>, steps: seq<Step>)
    requires Execution(states, steps)
    ensures (forall n | 0 <= n < |states| :: Served(states[n])) <==> (forall m | 0 <= m < |steps| :: !JoinedTooLate(states, steps, m))
  {
    if forall m | 0 <= m < |steps| :: !JoinedTooLate(states, steps, m) {
      forall n | 0 <= n < |states| ensures Served(states[n]) {
        ServedUnlessLate(states, steps, n);
      }
    } else {
      var m :| 0 <= m < |steps| && JoinedTooLate(states, steps, m);
      LateIsNotServed(states, steps, m);
    }
  }

  /** Such a run exists: the only receiver goes, and its pump notices, while a second
      subscriber is between its look and its receiver. Nobody will serve it. */
  lemma SubscriberCanBeStranded()
    returns (states: seq<State>, steps: seq<Step>)
    ensures Execution(states, steps) && !Served(states[|steps|])
    ensures states[|steps|].receivers == map[1 := 1] && states[|steps|].slot.None? && states[|steps|].pumps == map[]
  {
    steps := [Decide, Attach(0), Decide, DropReceiver(0), PumpSeesNobody(1), Attach(1), PumpExits(1)];
    var s0 := INITIAL;
    var s1 := Apply(s0, Decide);
    var s2 := Apply(s1, Attach(0));
    assert s2.receivers[0] == 1;
    var s3 := Apply(s2, Decide);
    var s4 := Apply(s3, DropReceiver(0));
    var s5 := Apply(s4, PumpSeesNobody(1));
    var s6 := Apply(s5, Attach(1));
    var s7 := Apply(s6, PumpExits(1));
    states := [s0, s1, s2, s3, s4, s5, s6, s7];
    assert s7.receivers == map[1 := 1] && s7.pumps == map[];
  }

  // ---- With `subscribe` as one step ----------------------------------------------------

  /** Nothing happens between a subscriber's look and its receiver. */
  ghost predicate Atomic(states: seq<State>, steps: seq<Step>) {
    Execution(states, steps) && forall i | 0 <= i < |steps| && !states[i].pending.Free? :: steps[i].Attach?
  }

  /** Taken as one step, `subscribe` always returns a served receiver. */
  lemma AtomicIsServed(states: seq<State>, steps: seq<Step>, n: nat)
    requires Atomic(states, steps) && n < |states|
    ensures Served(states[n])
  {
    assert forall m, k, g :: !MissedAt(states, steps, k, m, g);
    ServedUnlessLate(states, steps, n);
  }

  /** A subscriber about to join a channel finds the receivers it counted. */
  lemma {:induction false} AtomicReuse(states: seq<State>, steps: seq<Step>, n: nat)
    requires Atomic(states, steps) && n < |states| && states[n].pending.Reuse?
    ensures HasReceiver(states[n], states[n].pending.generation)
  {
    var s, step := states[n - 1], steps[n - 1];
    assert states[n] == Apply(s, step);
    assert step == Decide;
    var r :| r in s.receivers && s.receivers[r] == states[n].pending.generation;
    assert states[n].receivers[r] == states[n].pending.generation;
  }

  /** A channel that has lost its last receiver never gets another. */
  lemma {:induction false} EmptyChannelsStayEmpty(states: seq<State>, steps: seq<Step>, i: nat, j: nat, g: nat)
    requires Atomic(states, steps) && i <= j < |states| && g <= states[i].generation && !HasReceiver(states[i], g)
    ensures !HasReceiver(states[j], g) && g <= states[j].generation
  {
    if i < j {
      EmptyChannelsStayEmpty(states, steps, i, j - 1, g);
      var s, u := states[j - 1], states[j];
      assert u == Apply(s, steps[j - 1]);
      if s.pending.Reuse? {
        AtomicReuse(states, steps, j - 1);
      }
      assert forall r | r in u.receivers && r in s.receivers :: u.receivers[r] == s.receivers[r];
    }
  }
}
