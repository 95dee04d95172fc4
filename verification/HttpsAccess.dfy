/** The observer that enables HTTPS observation in a guest while a Desktop cycle is
    observing, and disables it before it observes anything else or exits, as a step machine.

    A request is made, sent and answered in steps of its own, which go on whatever the
    observer does; a shutdown, a VM change or the timeout may cut it short at any point, and
    then it is joined. */
module HttpsAccess {
  import opened Wrappers

  /** An observation cycle and the VM it observes. */
  datatype Target = Target(cycle: string, vm: nat)

  datatype Phase =
    | Fresh
    | Sent
    /** Over; not sent if its token was cancelled before it began. */
    | Finished(sent: bool, ok: bool)

  datatype Request = Request(enable: bool, target: Target, phase: Phase)

  /** Where the observer goes on after a request. */
  datatype Next = Observe(target: Option<Target>) | GoOn | Leave | Judge(observed: Target)

  datatype Loop =
    | Awaiting
    | Woken
    /** The target is settled, and anything else is disabled. */
    | Observing(target: Option<Target>)
    /** `select!` between the latest request and everything that may cut it short. */
    | Racing(next: Next)
    /** Cut short; the request is joined. */
    | Joining(next: Next)
    /** The guest observed an access. */
    | Judging(observed: Target)
    | Exited

  datatype World = World(ready: bool, gone: bool, shutdown: bool)

  datatype State = State(
    loop: Loop, active: Option<Target>,
    /** Every request made, oldest first, and those whose own token is cancelled. */
    requests: seq<Request>, cut: set<nat>,
    recorded: seq<Target>, world: World)

  datatype LoopMove =
    | Wake(stop: bool)
    /** The target read from VM state, the observing cycle and the captured VM. */
    | Read(target: Option<Target>)
    /** `found`: the host's addresses on the VM's link. */
    | Look(found: bool)
    | Cut
    | Returned(observed: bool)
    | Joined
    | Record(claimed: bool)

  datatype RequestMove = Begin | Answer(ok: bool)

  datatype WorldMove = SetVm(ready: bool) | SenderGone | Shutdown

  datatype Step = OfLoop(loop: LoopMove) | OfRequest(request: nat, move: RequestMove) | OfWorld(world: WorldMove)

  /** An enable's token is a child of the shutdown token; a disable has one of its own. */
  predicate Cancelled(s: State, k: nat)
    requires k < |s.requests|
  {
    k in s.cut || (s.requests[k].enable && s.world.shutdown)
  }

  predicate LatestFinished(s: State) {
    s.requests != [] && s.requests[|s.requests| - 1].phase.Finished?
  }

  // ---- The observer --------------------------------------------------------------------

  predicate LoopEnabled(s: State, m: LoopMove) {
    match m
    case Wake(stop) => s.loop.Awaiting? && (stop ==> s.world.shutdown || s.world.gone)
    case Read(target) => s.loop.Woken? && (target.Some? ==> s.world.ready)
    case Look(_) => s.loop.Observing?
    case Cut => s.loop.Racing? && s.requests != []
    case Returned(_) => s.loop.Racing? && LatestFinished(s)
    case Joined => s.loop.Joining? && LatestFinished(s)
    case Record(_) => s.loop.Judging?
  }

  function Ask(s: State, enable: bool, target: Target, next: Next): State {
    s.(requests := s.requests + [Request(enable, target, Fresh)], loop := Racing(next))
  }

  /** Where `next` leads. */
  function Continue(s: State, next: Next, observed: bool): State {
    s.(loop := match next
               case Observe(target) => Observing(target)
               case GoOn => Awaiting
               case Leave => Exited
               case Judge(target) => if observed then Judging(target) else Awaiting)
  }

  /** `disable(active.take())`. */
  function DisableThen(s: State, next: Next): State {
    if s.active.None? then Continue(s, next, false) else Ask(s.(active := None), false, s.active.value, next)
  }

  function LoopApply(s: State, m: LoopMove): State
    requires LoopEnabled(s, m)
  {
    match m
    case Wake(stop) => if stop then DisableThen(s, Leave) else s.(loop := Woken)
    case Read(target) => if s.active != target then DisableThen(s, Observe(target)) else s.(loop := Observing(target))
    case Look(found) =>
      if s.loop.target.None? then s.(loop := Awaiting)
      else if !found then DisableThen(s, GoOn)
      else Ask(s.(active := s.loop.target), true, s.loop.target.value, Judge(s.loop.target.value))
    case Cut => s.(loop := Joining(s.loop.next), cut := s.cut + {|s.requests| - 1})
    case Returned(observed) => Continue(s, s.loop.next, observed && s.requests[|s.requests| - 1].phase.ok)
    case Joined => Continue(s, s.loop.next, false)
    case Record(claimed) =>
      if claimed && s.world.ready && !s.world.shutdown then s.(loop := Awaiting, recorded := s.recorded + [s.loop.observed])
      else s.(loop := Awaiting)
  }

  // ---- Requests and the world ----------------------------------------------------------

  predicate RequestEnabled(s: State, k: nat, m: RequestMove) {
    k < |s.requests| && match m
    case Begin => s.requests[k].phase.Fresh?
    case Answer(_) => s.requests[k].phase.Sent?
  }

  function RequestApply(s: State, k: nat, m: RequestMove): State
    requires RequestEnabled(s, k, m)
  {
    var phase := match m
      case Begin => if Cancelled(s, k) then Finished(false, false) else Sent
      case Answer(ok) => Finished(true, ok);
    s.(requests := s.requests[k := s.requests[k].(phase := phase)])
  }

  function WorldApply(s: State, m: WorldMove): State {
    match m
    case SetVm(ready) => s.(world := s.world.(ready := ready))
    case SenderGone => s.(world := s.world.(gone := true))
    case Shutdown => s.(world := s.world.(shutdown := true))
  }

  predicate Enabled(s: State, step: Step) {
    match step
    case OfLoop(m) => LoopEnabled(s, m)
    case OfRequest(k, m) => RequestEnabled(s, k, m)
    case OfWorld(_) => true
  }

  function Apply(s: State, step: Step): State
    requires Enabled(s, step)
  {
    match step
    case OfLoop(m) => LoopApply(s, m)
    case OfRequest(k, m) => RequestApply(s, k, m)
    case OfWorld(m) => WorldApply(s, m)
  }

  predicate Initial(s: State) {
    s.loop.Awaiting? && s.active.None? && s.requests == [] && s.cut == {} && s.recorded == []
  }

  ghost predicate Execution(states: seq<State>, steps: seq<Step>) {
    && |states| == |steps| + 1 && Initial(states[0])
    && forall i | 0 <= i < |steps| :: Enabled(states[i], steps[i]) && states[i + 1] == Apply(states[i], steps[i])
  }

  // ---- What every step keeps -----------------------------------------------------------

  /** Only the latest request can be unfinished, and only while the observer waits for it. */
  ghost predicate OneAtATime(s: State) {
    && (forall k | 0 <= k < |s.requests| - 1 :: s.requests[k].phase.Finished?)
    && (s.loop.Racing? || s.loop.Joining? ==> s.requests != [])
    && (s.requests != [] && !s.requests[|s.requests| - 1].phase.Finished? ==> s.loop.Racing? || s.loop.Joining?)
  }

  /** After an enable comes another request for the same target; after a disable an enable. */
  ghost predicate Chained(requests: seq<Request>) {
    forall k | 0 <= k < |requests| - 1 ::
      if requests[k].enable then requests[k + 1].target == requests[k].target else requests[k + 1].enable
  }

  /** What the observer takes for active is what it enabled last and has not disabled since. */
  ghost predicate ActiveFits(s: State) {
    && s.active == (if s.requests != [] && s.requests[|s.requests| - 1].enable then Some(s.requests[|s.requests| - 1].target) else None)
    && (s.loop.Observing? ==> s.active.None? || s.active == s.loop.target)
    && ((s.loop.Racing? || s.loop.Joining?) && s.loop.next.Judge? ==> s.active == Some(s.loop.next.observed))
    && ((s.loop.Racing? || s.loop.Joining?) && !s.loop.next.Judge? ==> s.active.None?)
    && (s.loop.Judging? ==> s.active == Some(s.loop.observed) && LatestFinished(s) && s.requests[|s.requests| - 1].phase == Finished(true, true))
    && (s.loop.Exited? ==> s.active.None?)
  }

  /** Of the requests not over yet, those cut short are the ones being joined. */
  ghost predicate CutFits(s: State) {
    && (forall k | k in s.cut :: k < |s.requests|)
    && (s.loop.Joining? && s.requests != [] ==> |s.requests| - 1 in s.cut)
    && (s.loop.Racing? ==> |s.requests| - 1 !in s.cut)
  }

  ghost predicate Inv(s: State) {
    && OneAtATime(s) && Chained(s.requests) && ActiveFits(s) && CutFits(s)
    && (forall k | 0 <= k < |s.requests| && s.requests[k].phase.Finished? && s.requests[k].phase.ok :: s.requests[k].phase.sent)
  }

  lemma LoopKeepsRequests(s: State, m: LoopMove)
    requires Inv(s) && LoopEnabled(s, m)
    ensures OneAtATime(LoopApply(s, m)) && CutFits(LoopApply(s, m))
  {
  }

  lemma LoopKeepsChain(s: State, m: LoopMove)
    requires Inv(s) && LoopEnabled(s, m)
    ensures Chained(LoopApply(s, m).requests)
  {
  }

  lemma LoopKeepsActive(s: State, m: LoopMove)
    requires Inv(s) && LoopEnabled(s, m)
    ensures ActiveFits(LoopApply(s, m))
  {
  }

  lemma LoopKeepsInv(s: State, m: LoopMove)
    requires Inv(s) && LoopEnabled(s, m)
    ensures Inv(LoopApply(s, m))
  {
    LoopKeepsRequests(s, m);
    LoopKeepsChain(s, m);
    LoopKeepsActive(s, m);
  }

  lemma RequestKeepsInv(s: State, k: nat, m: RequestMove)
    requires Inv(s) && RequestEnabled(s, k, m)
    ensures Inv(RequestApply(s, k, m))
  {
  }

  lemma {:induction false} InvAlways(states: seq<State>, steps: seq<Step>, i: nat)
    requires Execution(states, steps) && i < |states|
    ensures Inv(states[i])
  {
    if i > 0 {
      InvAlways(states, steps, i - 1);
      match steps[i - 1] {
        case OfLoop(m) => LoopKeepsInv(states[i - 1], m);
        case OfRequest(k, m) => RequestKeepsInv(states[i - 1], k, m);
        case OfWorld(_) =>
      }
    }
  }

  // ---- The observer's promises, in every interleaving ----------------------------------

  /** Requests to the guest never overlap: two that are not over are the same one, and the
      observer is waiting for it. */
  lemma RequestsNeverOverlap(states: seq<State>, steps: seq<Step>, i: nat, j: nat, k: nat)
    requires Execution(states, steps) && i < |states| && j < |states[i].requests| && k < |states[i].requests|
    requires !states[i].requests[j].phase.Finished? && !states[i].requests[k].phase.Finished?
    ensures j == k && (states[i].loop.Racing? || states[i].loop.Joining?)
  {
    InvAlways(states, steps, i);
  }

  /** Along a chain, everything from an enable up to the first disable is for one target. */
  lemma {:induction false} SameTargetUntilDisabled(requests: seq<Request>, a: nat, b: nat)
    requires Chained(requests) && a <= b < |requests| && requests[a].enable
    requires forall k | a < k < b :: requests[k].enable
    ensures requests[b].target == requests[a].target
  {
    if a < b {
      SameTargetUntilDisabled(requests, a, b - 1);
    }
  }

  lemma {:induction false} DisabledBetween(requests: seq<Request>, a: nat, b: nat, n: nat) returns (k: nat)
    requires Chained(requests) && a < n <= b < |requests| && requests[a].enable
    requires forall x | a < x < n :: requests[x].enable
    requires !requests[b].enable || requests[b].target != requests[a].target
    ensures a < k <= b && !requests[k].enable && requests[k].target == requests[a].target
    decreases b - n
  {
    SameTargetUntilDisabled(requests, a, n);
    if !requests[n].enable {
      k := n;
    } else {
      k := DisabledBetween(requests, a, b, n + 1);
    }
  }

  /** Between an enable and the next enable of anything else lies a finished attempt to
      disable the first. */
  lemma EnablesAreDisabled(states: seq<State>, steps: seq<Step>, i: nat, a: nat, b: nat) returns (k: nat)
    requires Execution(states, steps) && i < |states| && a < b < |states[i].requests|
    requires states[i].requests[a].enable && states[i].requests[b].enable
    requires states[i].requests[a].target != states[i].requests[b].target
    ensures a < k < b && !states[i].requests[k].enable && states[i].requests[k].target == states[i].requests[a].target
    ensures states[i].requests[k].phase.Finished?
  {
    InvAlways(states, steps, i);
    k := DisabledBetween(states[i].requests, a, b, a + 1);
  }

  /** The observer exits only after a finished attempt to disable whatever it enabled. */
  lemma ExitIsDisabled(states: seq<State>, steps: seq<Step>, i: nat, a: nat) returns (k: nat)
    requires Execution(states, steps) && i < |states| && states[i].loop.Exited?
    requires a < |states[i].requests| && states[i].requests[a].enable
    ensures a < k < |states[i].requests| && !states[i].requests[k].enable && states[i].requests[k].target == states[i].requests[a].target
    ensures states[i].requests[k].phase.Finished?
  {
    InvAlways(states, steps, i);
    var last := |states[i].requests| - 1;
    assert !states[i].requests[last].enable;
    k := DisabledBetween(states[i].requests, a, last, a + 1);
  }

  /** An attempt to disable was sent exactly if it began before the observer cut it short. */
  lemma {:induction false} DisableWasSentIff(states: seq<State>, steps: seq<Step>, i: nat, k: nat) returns (j: nat)
    requires Execution(states, steps) && i < |states| && k < |states[i].requests|
    requires !states[i].requests[k].enable && states[i].requests[k].phase.Finished?
    ensures j < i && steps[j] == OfRequest(k, Begin) && k < |states[j].requests|
    ensures states[i].requests[k].phase.sent <==> states[j].loop.Racing?
  {
    j := BeganAt(states, steps, i, k);
    InvAlways(states, steps, j);
    RequestsStay(states, steps, j, i, k);
  }

  /** A request that is no longer fresh began at some step, which decided whether it was sent. */
  lemma {:induction false} BeganAt(states: seq<State>, steps: seq<Step>, i: nat, k: nat) returns (j: nat)
    requires Execution(states, steps) && i < |states| && k < |states[i].requests| && !states[i].requests[k].phase.Fresh?
    ensures j < i && steps[j] == OfRequest(k, Begin) && k < |states[j].requests| && states[j].requests[k].phase.Fresh?
    ensures WasSent(states[i].requests[k].phase) <==> !Cancelled(states[j], k)
  {
    assert states[i] == Apply(states[i - 1], steps[i - 1]);
    if steps[i - 1] == OfRequest(k, Begin) {
      j := i - 1;
    } else {
      MadeBefore(states[i - 1], steps[i - 1], k);
      j := BeganAt(states, steps, i - 1, k);
    }
  }

  predicate WasSent(phase: Phase) {
    phase.Sent? || (phase.Finished? && phase.sent)
  }

  lemma MadeBefore(s: State, step: Step, k: nat)
    requires Enabled(s, step) && k < |Apply(s, step).requests| && !Apply(s, step).requests[k].phase.Fresh? && step != OfRequest(k, Begin)
    ensures k < |s.requests| && !s.requests[k].phase.Fresh? && (WasSent(s.requests[k].phase) <==> WasSent(Apply(s, step).requests[k].phase))
  {
  }

  /** When a request is made every earlier one is over, so no enable can still arrive after a
      later disable. */
  lemma EarlierRequestsAreOver(states: seq<State>, steps: seq<Step>, i: nat, k: nat, a: nat)
    requires Execution(states, steps) && i < |states| && a < k < |states[i].requests|
    ensures states[i].requests[a].phase.Finished?
  {
    InvAlways(states, steps, i);
  }

  /** A request that has been made stays where it is, and once over stays as it ended. */
  lemma {:induction false} RequestsStay(states: seq<State>, steps: seq<Step>, i: nat, j: nat, k: nat)
    requires Execution(states, steps) && i <= j < |states| && k < |states[i].requests|
    ensures k < |states[j].requests|
    ensures states[j].requests[k].enable == states[i].requests[k].enable && states[j].requests[k].target == states[i].requests[k].target
    ensures states[i].requests[k].phase.Finished? ==> states[j].requests[k] == states[i].requests[k]
  {
    if i < j {
      RequestsStay(states, steps, i, j - 1, k);
      RequestStays(states[j - 1], steps[j - 1], k);
    }
  }

  lemma RequestStays(s: State, step: Step, k: nat)
    requires Enabled(s, step) && k < |s.requests|
    ensures k < |Apply(s, step).requests|
    ensures Apply(s, step).requests[k].enable == s.requests[k].enable && Apply(s, step).requests[k].target == s.requests[k].target
    ensures s.requests[k].phase.Finished? ==> Apply(s, step).requests[k] == s.requests[k]
  {
  }

  /** An observation is recorded only for the active target, from a request that was sent and
      answered, with the VM ready and shutdown not begun. */
  lemma RecordsAreCurrent(states: seq<State>, steps: seq<Step>, i: nat)
    requires Execution(states, steps) && i < |steps| && |states[i + 1].recorded| > |states[i].recorded|
    ensures states[i].active.Some? && states[i + 1].recorded == states[i].recorded + [states[i].active.value]
    ensures LatestFinished(states[i]) && states[i].requests[|states[i].requests| - 1].phase == Finished(true, true)
    ensures states[i].world.ready && !states[i].world.shutdown
  {
    InvAlways(states, steps, i);
    assert states[i + 1] == Apply(states[i], steps[i]);
  }

  /** The observer never hangs on a request: one that is not over has a step to take. */
  lemma RequestsGetOn(states: seq<State>, steps: seq<Step>, i: nat) returns (step: Step)
    requires Execution(states, steps) && i < |states| && (states[i].loop.Racing? || states[i].loop.Joining?)
    ensures Enabled(states[i], step) && (step.OfRequest? || step == OfLoop(Returned(false)) || step == OfLoop(Joined))
  {
    InvAlways(states, steps, i);
    var s := states[i];
    var k := |s.requests| - 1;
    step := match s.requests[k].phase
      case Fresh => OfRequest(k, Begin)
      case Sent => OfRequest(k, Answer(false))
      case Finished(_, _) => if s.loop.Racing? then OfLoop(Returned(false)) else OfLoop(Joined);
  }
}
