/** The loop that publishes the guest's web index, as a step machine: refreshed while the VM
    is ready, withdrawn before a cancelled refresh can outlive it. A refresh publishes under
    the host network's commit lock, which a withdrawal and many others take as well. */
module WebIndex {
  import opened Wrappers

  /** The guest's answer: an index address, an empty directory, or unusable. */
  datatype Answer = Index(address: nat) | NoIndex | Unusable

  datatype Refresh =
    | Fresh
    | Requesting
    | AwaitingLock(answer: Answer)
    /** Past its first check, preparing the VM's incarnation. */
    | Holding(answer: Answer)
    | Finished(ok: bool)

  datatype Withdrawal = NoWithdrawal | Waiting | Withdrawn

  datatype Lock = Free | ByRefresh(refresh: nat) | ByOther

  datatype Loop =
    | Awaiting
    | Woken
    /** `select!` between the refresh and everything that may interrupt it. */
    | Selecting(refresh: nat)
    /** `join!` of the cancelled refresh and a withdrawal. */
    | Joining(refresh: nat)
    | Withdrawing(exit: bool)
    | Exited

  datatype State = State(
    loop: Loop, refreshes: map<nat, Refresh>, count: nat, cancelled: set<nat>, withdrawal: Withdrawal, lock: Lock,
    /** The published index address. */
    published: Option<nat>,
    world: World)

  /** Whether the VM is ready, its sender gone, shutdown requested. */
  datatype World = World(ready: bool, gone: bool, shutdown: bool)

  datatype LoopMove =
    | Wake(stop: bool)
    | ReadVm
    /** Shutdown, a VM change, or the timeout. */
    | Interrupt
    | RefreshReturned
    | Joined
    | WithdrawalReturned

  datatype RefreshMove =
    | Begin
    | Request(answer: Answer)
    /** `allowed`: the captured VM is current and admission is open. */
    | TakeLock(allowed: bool)
    | Publish(allowed: bool)

  datatype WorldMove =
    | SetVm(ready: bool)
    | SenderGone
    | Shutdown
    | OtherLocks
    /** Another holder is done; retiring a VM clears the index as well. */
    | OtherUnlocks(clears: bool)

  datatype Step = OfLoop(loop: LoopMove) | OfRefresh(refresh: nat, move: RefreshMove) | Withdraw | OfWorld(world: WorldMove)

  predicate Cancelled(s: State, r: nat) {
    r in s.cancelled || s.world.shutdown
  }

  // ---- The loop ------------------------------------------------------------------------

  predicate LoopEnabled(s: State, m: LoopMove) {
    match m
    case Wake(stop) => s.loop.Awaiting? && (stop ==> s.world.shutdown || s.world.gone)
    case ReadVm => s.loop.Woken?
    case Interrupt => s.loop.Selecting?
    case RefreshReturned => s.loop.Selecting? && s.loop.refresh in s.refreshes && s.refreshes[s.loop.refresh].Finished?
    case Joined => s.loop.Joining? && s.loop.refresh in s.refreshes && s.refreshes[s.loop.refresh].Finished? && s.withdrawal.Withdrawn?
    case WithdrawalReturned => s.loop.Withdrawing? && s.withdrawal.Withdrawn?
  }

  function StartWithdrawal(s: State, exit: bool): State {
    s.(loop := Withdrawing(exit), withdrawal := Waiting)
  }

  function LoopApply(s: State, m: LoopMove): State
    requires LoopEnabled(s, m)
  {
    match m
    case Wake(stop) => if stop then StartWithdrawal(s, true) else s.(loop := Woken)
    case ReadVm =>
      if !s.world.ready then StartWithdrawal(s, false)
      else s.(loop := Selecting(s.count), refreshes := s.refreshes[s.count := Fresh], count := s.count + 1)
    case Interrupt => s.(loop := Joining(s.loop.refresh), cancelled := s.cancelled + {s.loop.refresh}, withdrawal := Waiting)
    case RefreshReturned => if s.refreshes[s.loop.refresh].ok then s.(loop := Awaiting) else StartWithdrawal(s, false)
    case Joined => s.(loop := Awaiting, withdrawal := NoWithdrawal)
    case WithdrawalReturned => s.(loop := if s.loop.exit then Exited else Awaiting, withdrawal := NoWithdrawal)
  }

  // ---- A refresh, the withdrawal and the world -----------------------------------------

  predicate RefreshEnabled(s: State, r: nat, m: RefreshMove) {
    r in s.refreshes && match m
    case Begin => s.refreshes[r].Fresh?
    case Request(_) => s.refreshes[r].Requesting?
    case TakeLock(_) => s.refreshes[r].AwaitingLock? && s.lock.Free?
    case Publish(_) => s.refreshes[r].Holding?
  }

  function Become(s: State, r: nat, refresh: Refresh): State {
    s.(refreshes := s.refreshes[r := refresh])
  }

  function AddressOf(answer: Answer): Option<nat> {
    if answer.Index? then Some(answer.address) else None
  }

  function RefreshApply(s: State, r: nat, m: RefreshMove): State
    requires RefreshEnabled(s, r, m)
  {
    match m
    case Begin => Become(s, r, if Cancelled(s, r) then Finished(false) else Requesting)
    case Request(answer) => Become(s, r, if answer.Unusable? then Finished(false) else AwaitingLock(answer))
    case TakeLock(allowed) =>
      if !allowed || Cancelled(s, r) then Become(s, r, Finished(false))
      else Become(s, r, Holding(s.refreshes[r].answer)).(lock := ByRefresh(r))
    case Publish(allowed) =>
      if !allowed || Cancelled(s, r) then Become(s, r, Finished(false)).(lock := Free)
      else Become(s, r, Finished(true)).(lock := Free, published := AddressOf(s.refreshes[r].answer))
  }

  predicate WorldEnabled(s: State, m: WorldMove) {
    (m.OtherLocks? ==> s.lock.Free?) && (m.OtherUnlocks? ==> s.lock.ByOther?)
  }

  function WorldApply(s: State, m: WorldMove): State
    requires WorldEnabled(s, m)
  {
    match m
    case SetVm(ready) => s.(world := s.world.(ready := ready))
    case SenderGone => s.(world := s.world.(gone := true))
    case Shutdown => s.(world := s.world.(shutdown := true))
    case OtherLocks => s.(lock := ByOther)
    case OtherUnlocks(clears) => s.(lock := Free, published := if clears then None else s.published)
  }

  predicate Enabled(s: State, step: Step) {
    match step
    case OfLoop(m) => LoopEnabled(s, m)
    case OfRefresh(r, m) => RefreshEnabled(s, r, m)
    case Withdraw => s.withdrawal.Waiting? && s.lock.Free?
    case OfWorld(m) => WorldEnabled(s, m)
  }

  function Apply(s: State, step: Step): State
    requires Enabled(s, step)
  {
    match step
    case OfLoop(m) => LoopApply(s, m)
    case OfRefresh(r, m) => RefreshApply(s, r, m)
    case Withdraw => s.(withdrawal := Withdrawn, published := None)
    case OfWorld(m) => WorldApply(s, m)
  }

  predicate Initial(s: State) {
    && s.loop.Awaiting? && s.refreshes == map[] && s.count == 0 && s.cancelled == {}
    && s.withdrawal.NoWithdrawal? && s.lock.Free? && s.published.None?
  }

  ghost predicate Execution(states: seq<State>, steps: seq<Step>) {
    && |states| == |steps| + 1 && Initial(states[0])
    && forall i | 0 <= i < |steps| :: Enabled(states[i], steps[i]) && states[i + 1] == Apply(states[i], steps[i])
  }

  // ---- What every step keeps -----------------------------------------------------------

  ghost predicate WaitsFor(loop: Loop, r: nat) {
    (loop.Selecting? || loop.Joining?) && loop.refresh == r
  }

  ghost predicate LockFits(s: State) {
    && (forall r | r in s.refreshes :: s.refreshes[r].Holding? <==> s.lock == ByRefresh(r))
    && (s.lock.ByRefresh? ==> s.lock.refresh in s.refreshes)
  }

  ghost predicate RefreshesFit(s: State) {
    && (forall r | r in s.refreshes :: r < s.count && (s.refreshes[r].Finished? || WaitsFor(s.loop, r)))
    && (s.loop.Selecting? || s.loop.Joining? ==> s.loop.refresh in s.refreshes)
    && (s.loop.Joining? ==> s.loop.refresh in s.cancelled)
    && (s.withdrawal.NoWithdrawal? <==> !s.loop.Joining? && !s.loop.Withdrawing?)
  }

  /** A refresh that came to an end without publishing leaves the index to be withdrawn. */
  ghost predicate IndexFits(s: State) {
    && (s.withdrawal.Withdrawn? ==> s.published.None? && !s.lock.ByRefresh?)
    && (s.loop.Exited? ==> s.published.None?)
  }

  ghost predicate Inv(s: State) {
    LockFits(s) && RefreshesFit(s) && IndexFits(s)
  }

  lemma LoopKeepsInv(s: State, m: LoopMove)
    requires Inv(s) && LoopEnabled(s, m)
    ensures Inv(LoopApply(s, m))
  {
  }

  lemma RefreshKeepsInv(s: State, r: nat, m: RefreshMove)
    requires Inv(s) && RefreshEnabled(s, r, m)
    ensures Inv(RefreshApply(s, r, m))
  {
  }

  lemma StepKeepsInv(s: State, step: Step)
    requires Inv(s) && Enabled(s, step)
    ensures Inv(Apply(s, step))
  {
    match step {
      case OfLoop(m) => LoopKeepsInv(s, m);
      case OfRefresh(r, m) => RefreshKeepsInv(s, r, m);
      case _ =>
    }
  }

  lemma {:induction false} InvAlways(states: seq<State>, steps: seq<Step>, i: nat)
    requires Execution(states, steps) && i < |states|
    ensures Inv(states[i])
  {
    if i > 0 {
      InvAlways(states, steps, i - 1);
      StepKeepsInv(states[i - 1], steps[i - 1]);
    }
  }

  // ---- The loop's promises, in every interleaving --------------------------------------

  predicate Unfinished(s: State, r: nat) {
    r in s.refreshes && !s.refreshes[r].Finished?
  }

  ghost predicate Idle(s: State) {
    forall r :: !Unfinished(s, r)
  }

  /** At most one refresh is ever unfinished, and the loop is waiting for that one; a refresh
      that holds the commit lock is that one. */
  lemma OneRefreshAtATime(states: seq<State>, steps: seq<Step>, i: nat, r: nat, q: nat)
    requires Execution(states, steps) && i < |states| && Unfinished(states[i], r)
    ensures WaitsFor(states[i].loop, r)
    ensures Unfinished(states[i], q) || states[i].lock == ByRefresh(q) ==> q == r
  {
    InvAlways(states, steps, i);
  }

  /** However a cancelled refresh and the withdrawal interleave, once both are over the index
      is withdrawn and nothing is under way. */
  lemma JoinLeavesNothing(states: seq<State>, steps: seq<Step>, i: nat)
    requires Execution(states, steps) && i < |steps| && (steps[i] == OfLoop(Joined) || steps[i] == OfLoop(WithdrawalReturned))
    ensures states[i + 1].published.None? && Idle(states[i + 1])
  {
    InvAlways(states, steps, i);
    InvAlways(states, steps, i + 1);
  }

  /** The join gets on unless somebody else holds the commit lock. */
  lemma JoinNeverHangs(states: seq<State>, steps: seq<Step>, i: nat) returns (step: Step)
    requires Execution(states, steps) && i < |states| && states[i].loop.Joining? && !states[i].lock.ByOther?
    ensures Enabled(states[i], step)
    ensures step.OfRefresh? || step.Withdraw? || step == OfLoop(Joined)
  {
    InvAlways(states, steps, i);
    var s := states[i];
    var r := s.loop.refresh;
    step := match s.refreshes[r]
      case Fresh => OfRefresh(r, Begin)
      case Requesting => OfRefresh(r, Request(Unusable))
      case AwaitingLock(_) => OfRefresh(r, TakeLock(false))
      case Holding(_) => OfRefresh(r, Publish(false))
      case Finished(_) => if s.withdrawal.Withdrawn? then OfLoop(Joined) else Withdraw;
  }

  /** Waiting for the withdrawal alone could hang: in this run the cancelled refresh holds the
      commit lock. */
  lemma WithdrawalAloneCanHang() returns (states: seq<State>, steps: seq<Step>)
    ensures Execution(states, steps) && states[|steps|].loop.Joining? && states[|steps|].lock.ByRefresh?
    ensures !Enabled(states[|steps|], Withdraw)
  {
    var s0 := State(Awaiting, map[], 0, {}, NoWithdrawal, Free, None, World(true, false, false));
    var s1 := Apply(s0, OfLoop(Wake(false)));
    var s2 := Apply(s1, OfLoop(ReadVm));
    var s3 := Apply(s2, OfRefresh(0, Begin));
    var s4 := Apply(s3, OfRefresh(0, Request(NoIndex)));
    var s5 := Apply(s4, OfRefresh(0, TakeLock(true)));
    var s6 := Apply(s5, OfLoop(Interrupt));
    states := [s0, s1, s2, s3, s4, s5, s6];
    steps := [OfLoop(Wake(false)), OfLoop(ReadVm), OfRefresh(0, Begin), OfRefresh(0, Request(NoIndex)), OfRefresh(0, TakeLock(true)), OfLoop(Interrupt)];
  }

  /** A refresh starts only at the moment the VM reads ready, with no other under way; a VM
      that does not read ready has the index withdrawn next. */
  lemma RefreshesStartReady(states: seq<State>, steps: seq<Step>, i: nat)
    requires Execution(states, steps) && i < |steps|
    ensures states[i + 1].count > states[i].count ==> steps[i] == OfLoop(ReadVm) && states[i].world.ready && Idle(states[i])
    ensures steps[i] == OfLoop(ReadVm) && !states[i].world.ready ==>
      states[i + 1].loop == Withdrawing(false) && states[i + 1].withdrawal.Waiting?
  {
    InvAlways(states, steps, i);
    assert states[i + 1] == Apply(states[i], steps[i]);
  }

  /** An address is published only under the commit lock, by the refresh the loop waits for,
      with its token not cancelled, and it is the guest's answer. */
  lemma PublishedIsTheAnswer(states: seq<State>, steps: seq<Step>, i: nat)
    requires Execution(states, steps) && i < |steps| && states[i + 1].published.Some? && states[i + 1].published != states[i].published
    ensures steps[i].OfRefresh? && steps[i].move == Publish(true)
    ensures var r := steps[i].refresh;
      && states[i].lock == ByRefresh(r) && states[i].loop == Selecting(r) && !Cancelled(states[i], r)
      && states[i].refreshes[r] == Holding(Index(states[i + 1].published.value))
  {
    InvAlways(states, steps, i);
    assert states[i + 1] == Apply(states[i], steps[i]);
    PublishStep(states[i], steps[i]);
  }

  lemma PublishStep(s: State, step: Step)
    requires Inv(s) && Enabled(s, step) && Apply(s, step).published.Some? && Apply(s, step).published != s.published
    ensures step.OfRefresh? && step.move == Publish(true) && step.refresh in s.refreshes
    ensures var r := step.refresh;
      && s.lock == ByRefresh(r) && s.loop == Selecting(r) && !Cancelled(s, r)
      && s.refreshes[r] == Holding(Index(Apply(s, step).published.value))
  {
  }

  lemma ExitStays(s: State, step: Step)
    requires Enabled(s, step) && s.loop.Exited?
    ensures Apply(s, step).loop.Exited?
  {
  }

  /** On exit the index is withdrawn and no refresh is under way, and so it stays. */
  lemma {:induction false} ExitIsClean(states: seq<State>, steps: seq<Step>, i: nat, j: nat)
    requires Execution(states, steps) && i <= j < |states| && states[i].loop.Exited?
    ensures states[j].loop.Exited? && states[j].published.None? && Idle(states[j])
  {
    InvAlways(states, steps, j);
    if i < j {
      ExitIsClean(states, steps, i, j - 1);
      ExitStays(states[j - 1], steps[j - 1]);
    }
  }
}
