/** The loop that publishes Kubernetes LoadBalancer ports on the host, as a step machine.

    A poll lists the Services and applies the listing under the port lock and the host
    network's commit lock; a close takes both as well. The loop, each poll and the close
    advance independently, one await at a time. Between any two steps the VM, the Kubernetes
    hold, shutdown and the timer may strike, and others may take the commit lock, retire a VM's
    listeners or replace them. A poll goes on until it finishes by itself: cancelling only sets
    its token. */
module KubernetesLb {
  import opened Wrappers

  datatype Outcome = Pending | Forwarded | Unbound

  type Outcomes = map<string, Outcome>

  /** A listing for one VM incarnation: of each port whether the cluster has published it. */
  datatype Listing = Listing(vm: nat, requested: map<string, bool>)

  datatype Poll =
    | Fresh
    | Asking(vm: nat)
    | AwaitingPorts(listing: Listing)
    | AwaitingCommit(listing: Listing)
    /** Past its first check, preparing the VM's incarnation. */
    | Preparing(listing: Listing)
    | Withdrawing(listing: Listing, previous: Outcomes, stale: set<string>)
    | Forwarding(listing: Listing, previous: Outcomes, todo: set<string>, next: Outcomes)
    /** Past its check, binding one port. */
    | Binding(listing: Listing, previous: Outcomes, todo: set<string>, next: Outcomes, owner: string)
    | CleaningUp(listing: Listing)
    | Finished(ok: bool)

  datatype Closer = NoClose | Waiting | HasPorts | Running | Closed

  datatype Lock = Free | ByPoll(poll: nat) | ByClose | ByOther

  /** Another's retirement of listeners of any VM but `keep`, under the commit lock. */
  datatype Retiring = NotRetiring | Decided(keep: Option<nat>) | Dropped(keep: Option<nat>)

  /** Why the loop sleeps; it polls again by itself unless inactive. */
  datatype Why = Inactive | AfterFailure | AfterSuccess

  datatype Next = Park(why: Why) | Exit

  datatype Loop =
    | Top
    | GotVm(ready: bool)
    /** `select!` between the poll and everything that may interrupt it. */
    | Selecting(poll: nat)
    /** `join!` of the cancelled poll and a close. */
    | Joining(poll: nat, stop: bool)
    | Closing(next: Next)
    | Parking(why: Why)
    | Exited

  datatype Host = Host(
    ports: Lock, commit: Lock, retiring: Retiring,
    /** Owners with a recorded listener; whoever has a live one is recorded. */
    published: set<string>,
    /** What the last listing came to, and the VM it was for. */
    outcomes: Outcomes, at: Option<nat>,
    /** The VM the host state belongs to, and the one the listeners are bound for. */
    owned: Option<nat>, slot: Option<nat>)

  /** VM and hold as the loop can read them; whether either changed since it last looked;
      whether one of their senders is gone; the VM incarnation that checks accept. */
  datatype World = World(ready: bool, held: bool, news: bool, gone: bool, shutdown: bool, live: Option<nat>)

  datatype State = State(
    loop: Loop, polls: map<nat, Poll>, count: nat, cancelled: set<nat>, closer: Closer, host: Host, world: World)

  datatype LoopMove = ReadVm | ReadHold | Interrupt(stop: bool) | PollReturned | Joined | CloseReturned | Wake(stop: bool)

  /** `allowed`: admission is open and the hold is still there. */
  datatype PollMove =
    | Begin
    | Answer(requested: Option<map<string, bool>>)
    | TakePorts
    | TakeCommit(allowed: bool)
    | Prepare(allowed: bool)
    | WithdrawOne(owner: string)
    | StartForwarding
    | CheckPort(owner: string, allowed: bool)
    | Bind(ok: bool)
    | Finish(allowed: bool)
    | CleanOne(owner: string)
    | EndCleaning

  datatype CloseMove = ClosePorts | CloseCommit | CloseOne(owner: string) | CloseEnd

  datatype WorldMove = SetVm(ready: bool) | SetHold(held: bool) | SetLive(live: Option<nat>) | SenderGone | Shutdown

  datatype OtherMove =
    | LockCommit
    | UnlockCommit
    /** The retirement of a VM that is not live, or not the one the host state belongs to. */
    | Retire
    | Drop
    /** `own`: the retirement made room for the live VM. */
    | Retired(own: bool)
    /** A port of another owner is started for a new VM, whose listeners replace the old ones. */
    | Adopt
    /** Runtime shutdown takes both locks, and forgets ports and report. */
    | LockPorts
    | UnlockPorts
    | Forget

  datatype Step =
    | OfLoop(loop: LoopMove)
    | OfPoll(poll: nat, move: PollMove)
    | OfClose(close: CloseMove)
    | OfWorld(world: WorldMove)
    | OfOther(other: OtherMove)

  /** Holding the commit lock, and past the point where the last report was given up. */
  predicate Applying(p: Poll) {
    p.Withdrawing? || p.Forwarding? || p.Binding? || p.CleaningUp?
  }

  predicate InCommit(p: Poll) {
    p.Preparing? || Applying(p)
  }

  predicate InPorts(p: Poll) {
    p.AwaitingCommit? || InCommit(p)
  }

  /** The poll's token, a child of the shutdown token. */
  predicate Cancelled(s: State, p: nat) {
    p in s.cancelled || s.world.shutdown
  }

  function Wanted(requested: map<string, bool>): set<string> {
    set o | o in requested && requested[o]
  }

  function ForwardedOf(outcomes: Outcomes): set<string> {
    set o | o in outcomes && outcomes[o] == Forwarded
  }

  // ---- The loop ------------------------------------------------------------------------

  predicate LoopEnabled(s: State, m: LoopMove) {
    match m
    case ReadVm => s.loop.Top?
    case ReadHold => s.loop.GotVm?
    case Interrupt(stop) => s.loop.Selecting? && if stop then s.world.shutdown || s.world.gone else s.world.news
    case PollReturned => s.loop.Selecting? && s.loop.poll in s.polls && s.polls[s.loop.poll].Finished?
    case Joined => s.loop.Joining? && s.loop.poll in s.polls && s.polls[s.loop.poll].Finished? && s.closer.Closed?
    case CloseReturned => s.loop.Closing? && s.closer.Closed?
    case Wake(stop) => s.loop.Parking? && if stop then s.world.shutdown || s.world.gone else s.world.news || !s.loop.why.Inactive?
  }

  function StartClose(s: State, next: Next): State {
    s.(loop := Closing(next), closer := Waiting)
  }

  function LoopApply(s: State, m: LoopMove): State
    requires LoopEnabled(s, m)
  {
    match m
    case ReadVm => if s.world.shutdown then StartClose(s, Exit) else s.(loop := GotVm(s.world.ready))
    case ReadHold =>
      if s.loop.ready && s.world.held then
        s.(loop := Selecting(s.count), polls := s.polls[s.count := Fresh], count := s.count + 1, world := s.world.(news := false))
      else StartClose(s, Park(Inactive)).(world := s.world.(news := false))
    case Interrupt(stop) =>
      s.(loop := Joining(s.loop.poll, stop), cancelled := s.cancelled + {s.loop.poll}, closer := Waiting)
    case PollReturned =>
      if s.polls[s.loop.poll].ok then s.(loop := Parking(AfterSuccess)) else StartClose(s, Park(AfterFailure))
    case Joined => if s.loop.stop then StartClose(s, Exit) else s.(loop := Top, closer := NoClose)
    case CloseReturned =>
      s.(closer := NoClose, loop := if s.loop.next.Exit? then Exited else Parking(s.loop.next.why))
    case Wake(stop) => if stop then StartClose(s, Exit) else s.(loop := Top)
  }

  // ---- A poll --------------------------------------------------------------------------

  predicate PollEnabled(s: State, p: nat, m: PollMove) {
    p in s.polls && match m
    case Begin => s.polls[p].Fresh?
    case Answer(_) => s.polls[p].Asking?
    case TakePorts => s.polls[p].AwaitingPorts? && s.host.ports.Free?
    case TakeCommit(_) => s.polls[p].AwaitingCommit? && s.host.commit.Free?
    case Prepare(_) => s.polls[p].Preparing?
    case WithdrawOne(o) => s.polls[p].Withdrawing? && o in s.polls[p].stale
    case StartForwarding => s.polls[p].Withdrawing? && s.polls[p].stale == {}
    case CheckPort(o, _) => s.polls[p].Forwarding? && o in s.polls[p].todo && o in s.polls[p].listing.requested
    case Bind(_) => s.polls[p].Binding?
    case Finish(_) => s.polls[p].Forwarding? && s.polls[p].todo == {}
    case CleanOne(o) => s.polls[p].CleaningUp? && o in s.host.published
    case EndCleaning => s.polls[p].CleaningUp? && s.host.published == {}
  }

  /** A listing is still for the live VM and was not called off. */
  predicate Passes(s: State, p: nat, vm: nat, allowed: bool) {
    allowed && s.world.live == Some(vm) && !Cancelled(s, p)
  }

  /** The listeners of any VM but `keep` are stopped and their records dropped. */
  function DropAllBut(h: Host, keep: Option<nat>): Host {
    if h.slot.None? || h.slot == keep then h else h.(published := {}, slot := None)
  }

  /** A listener is bound for this VM: the listeners of a replaced one are retired first. */
  function Opened(h: Host, vm: nat, o: string): Host {
    h.(published := (if h.slot == Some(vm) then h.published else {}) + {o}, slot := Some(vm))
  }

  function Release(h: Host): Host {
    h.(ports := Free, commit := Free)
  }

  /** What a poll's step makes of the poll. */
  function PollNext(s: State, p: nat, m: PollMove): Poll
    requires PollEnabled(s, p, m)
  {
    var poll := s.polls[p];
    match m
    case Begin => if Cancelled(s, p) || s.world.live.None? then Finished(false) else Asking(s.world.live.value)
    case Answer(requested) => if requested.None? then Finished(false) else AwaitingPorts(Listing(poll.vm, requested.value))
    case TakePorts => AwaitingCommit(poll.listing)
    case TakeCommit(allowed) => if Passes(s, p, poll.listing.vm, allowed) then Preparing(poll.listing) else Finished(false)
    case Prepare(allowed) =>
      if Unprepared(s, poll.listing.vm, allowed) then Finished(false)
      else
        Withdrawing(poll.listing,
                    if s.host.at == Some(poll.listing.vm) then s.host.outcomes else map[],
                    Prepared(s, poll.listing.vm).published - Wanted(poll.listing.requested))
    case WithdrawOne(o) =>
      if s.host.slot == Some(poll.listing.vm) then Withdrawing(poll.listing, poll.previous, poll.stale - {o}) else CleaningUp(poll.listing)
    case StartForwarding => Forwarding(poll.listing, poll.previous, poll.listing.requested.Keys, map[])
    case CheckPort(o, allowed) =>
      if !Passes(s, p, poll.listing.vm, allowed) then CleaningUp(poll.listing)
      else if !poll.listing.requested[o] then Forwarding(poll.listing, poll.previous, poll.todo - {o}, poll.next[o := Pending])
      else if o in poll.previous && poll.previous[o] == Forwarded && o in s.host.published then
        Forwarding(poll.listing, poll.previous, poll.todo - {o}, poll.next[o := Forwarded])
      else Binding(poll.listing, poll.previous, poll.todo, poll.next, o)
    case Bind(ok) =>
      Forwarding(poll.listing, poll.previous, poll.todo - {poll.owner}, poll.next[poll.owner := if ok then Forwarded else Unbound])
    case Finish(allowed) => if Passes(s, p, poll.listing.vm, allowed) then Finished(true) else CleaningUp(poll.listing)
    case CleanOne(o) => if s.host.slot == Some(poll.listing.vm) then poll else Finished(false)
    case EndCleaning => Finished(false)
  }

  /** The VM went away while another one's host state was cleared for it. */
  predicate Unprepared(s: State, vm: nat, allowed: bool) {
    s.host.owned != Some(vm) && !(allowed && s.world.live == Some(vm))
  }

  function Prepared(s: State, vm: nat): Host {
    if s.host.owned == Some(vm) then s.host else DropAllBut(s.host, Some(vm))
  }

  /** What a poll's step makes of the host state. */
  function PollHost(s: State, p: nat, m: PollMove): Host
    requires PollEnabled(s, p, m)
  {
    var poll, h := s.polls[p], s.host;
    match m
    case TakePorts => h.(ports := ByPoll(p))
    case TakeCommit(allowed) => if Passes(s, p, poll.listing.vm, allowed) then h.(commit := ByPoll(p)) else h.(ports := Free)
    case Prepare(allowed) =>
      var vm := poll.listing.vm;
      if Unprepared(s, vm, allowed) then Release(Prepared(s, vm)).(owned := None)
      else Prepared(s, vm).(owned := Some(vm), outcomes := map[], at := None)
    case WithdrawOne(o) => if h.slot == Some(poll.listing.vm) then h.(published := h.published - {o}) else h
    case Bind(ok) => if ok then Opened(h, poll.listing.vm, poll.owner) else h.(published := h.published - {poll.owner})
    case Finish(allowed) =>
      if Passes(s, p, poll.listing.vm, allowed) then Release(h).(outcomes := poll.next, at := Some(poll.listing.vm)) else h
    case CleanOne(o) => if h.slot == Some(poll.listing.vm) then h.(published := h.published - {o}) else Release(h)
    case EndCleaning => Release(h)
    case _ => h
  }

  function PollApply(s: State, p: nat, m: PollMove): State
    requires PollEnabled(s, p, m)
  {
    s.(polls := s.polls[p := PollNext(s, p, m)], host := PollHost(s, p, m))
  }

  // ---- The close, the world and the others ---------------------------------------------

  predicate CloseEnabled(s: State, m: CloseMove) {
    match m
    case ClosePorts => s.closer.Waiting? && s.host.ports.Free?
    case CloseCommit => s.closer.HasPorts? && s.host.commit.Free?
    case CloseOne(o) => s.closer.Running? && o in s.host.published
    case CloseEnd => s.closer.Running? && s.host.published == {}
  }

  function CloseApply(s: State, m: CloseMove): State
    requires CloseEnabled(s, m)
  {
    match m
    case ClosePorts => s.(closer := HasPorts, host := s.host.(ports := ByClose))
    case CloseCommit => s.(closer := Running, host := s.host.(commit := ByClose))
    case CloseOne(o) => s.(host := s.host.(published := s.host.published - {o}))
    case CloseEnd => s.(closer := Closed, host := Release(s.host).(outcomes := map[], at := None))
  }

  function WorldApply(s: State, m: WorldMove): State {
    match m
    case SetVm(ready) => s.(world := s.world.(ready := ready, news := true))
    case SetHold(held) => s.(world := s.world.(held := held, news := true))
    case SetLive(live) => s.(world := s.world.(live := live))
    case SenderGone => s.(world := s.world.(gone := true))
    case Shutdown => s.(world := s.world.(shutdown := true))
  }

  predicate OtherEnabled(h: Host, live: Option<nat>, m: OtherMove) {
    match m
    case LockCommit => h.commit.Free?
    case UnlockCommit => h.commit.ByOther?
    case Retire => h.commit.ByOther? && h.retiring.NotRetiring? && (live.None? || h.owned != live)
    case Drop => h.retiring.Decided?
    case Retired(_) => h.retiring.Dropped?
    case Adopt => h.commit.ByOther? && h.retiring.NotRetiring? && live.Some? && h.slot != live
    case LockPorts => h.ports.Free?
    case UnlockPorts => h.ports.ByOther?
    case Forget => h.ports.ByOther? && h.commit.ByOther? && h.retiring.NotRetiring?
  }

  function OtherApply(h: Host, live: Option<nat>, m: OtherMove): Host
    requires OtherEnabled(h, live, m)
  {
    match m
    case LockCommit => h.(commit := ByOther)
    case UnlockCommit => h.(commit := Free, retiring := NotRetiring)
    case Retire => h.(retiring := Decided(live))
    case Drop => DropAllBut(h, h.retiring.keep).(retiring := Dropped(h.retiring.keep))
    case Retired(own) => h.(retiring := NotRetiring, owned := if own && h.retiring.keep == live then live else None)
    case Adopt => h.(published := {}, slot := live)
    case LockPorts => h.(ports := ByOther)
    case UnlockPorts => h.(ports := Free)
    case Forget => h.(published := {}, outcomes := map[], at := None, owned := None, slot := None)
  }

  predicate Enabled(s: State, step: Step) {
    match step
    case OfLoop(m) => LoopEnabled(s, m)
    case OfPoll(p, m) => PollEnabled(s, p, m)
    case OfClose(m) => CloseEnabled(s, m)
    case OfWorld(_) => true
    case OfOther(m) => OtherEnabled(s.host, s.world.live, m)
  }

  function Apply(s: State, step: Step): State
    requires Enabled(s, step)
  {
    match step
    case OfLoop(m) => LoopApply(s, m)
    case OfPoll(p, m) => PollApply(s, p, m)
    case OfClose(m) => CloseApply(s, m)
    case OfWorld(m) => WorldApply(s, m)
    case OfOther(m) => s.(host := OtherApply(s.host, s.world.live, m))
  }

  /** Before the loop starts no port is published; world and locks may be in any state. */
  predicate Initial(s: State) {
    && s.loop.Top? && s.polls == map[] && s.count == 0 && s.cancelled == {} && s.closer.NoClose?
    && s.host == Host(Free, Free, NotRetiring, {}, map[], None, s.host.owned, s.host.slot)
  }

  ghost predicate Follows(states: seq<State>, steps: seq<Step>, i: nat)
    requires |states| == |steps| + 1 && i < |steps|
  {
    Enabled(states[i], steps[i]) && states[i + 1] == Apply(states[i], steps[i])
  }

  ghost predicate Execution(states: seq<State>, steps: seq<Step>) {
    && |states| == |steps| + 1 && Initial(states[0])
    && forall i: nat | i < |steps| :: Follows(states, steps, i)
  }

  // ---- What every step keeps -----------------------------------------------------------

  ghost predicate LockFits(s: State) {
    && (forall p | p in s.polls :: (InPorts(s.polls[p]) <==> s.host.ports == ByPoll(p)) && (InCommit(s.polls[p]) <==> s.host.commit == ByPoll(p)))
    && (s.host.ports.ByPoll? ==> s.host.ports.poll in s.polls)
    && (s.host.commit.ByPoll? ==> s.host.commit.poll in s.polls)
    && (s.closer.HasPorts? || s.closer.Running? <==> s.host.ports.ByClose?)
    && (s.closer.Running? <==> s.host.commit.ByClose?)
    && (s.host.retiring.NotRetiring? || s.host.commit.ByOther?)
  }

  /** The poll the loop is waiting for, if any. */
  ghost predicate WaitsFor(loop: Loop, p: nat) {
    (loop.Selecting? || loop.Joining?) && loop.poll == p
  }

  ghost predicate PollsFit(s: State) {
    && (forall p | p in s.polls :: p < s.count && (s.polls[p].Finished? || WaitsFor(s.loop, p)))
    && (s.loop.Selecting? || s.loop.Joining? ==> s.loop.poll in s.polls)
    && (s.loop.Joining? ==> s.loop.poll in s.cancelled)
    && (s.closer.NoClose? <==> !s.loop.Joining? && !s.loop.Closing?)
  }

  /** Halfway through a listing: what is open is wanted, and what was reported is open. */
  ghost predicate HalfApplied(published: set<string>, poll: Poll) {
    match poll
    case Withdrawing(listing, _, stale) => stale <= published && published - stale <= Wanted(listing.requested)
    case Forwarding(listing, _, todo, next) => Partial(published, listing.requested, todo, next)
    case Binding(listing, _, todo, next, o) => Partial(published, listing.requested, todo, next) && o in todo && o in Wanted(listing.requested)
    case _ => true
  }

  ghost predicate Partial(published: set<string>, requested: map<string, bool>, todo: set<string>, next: Outcomes) {
    && todo <= requested.Keys && next.Keys == requested.Keys - todo
    && published <= Wanted(requested)
    && (forall o | o in next :: next[o] == Forwarded <==> o in published)
  }

  /** Recorded listeners are bound for the VM that owns the host state and that was reported;
      without a report there is none, except where a poll is applying a listing. */
  ghost predicate HostFits(h: Host, applying: bool) {
    && (h.owned.Some? && h.published != {} ==> h.slot == h.owned)
    && (h.retiring.Dropped? && h.published != {} ==> h.slot == h.retiring.keep)
    && (h.at.None? ==> h.outcomes == map[])
    && (h.at.Some? ==> !applying && h.published <= ForwardedOf(h.outcomes))
    && (h.at.Some? && h.published != {} ==> h.slot == h.at)
    && (h.at.None? && !applying ==> h.published == {})
  }

  ghost predicate ApplyingIn(s: State) {
    s.host.commit.ByPoll? && s.host.commit.poll in s.polls && Applying(s.polls[s.host.commit.poll])
  }

  ghost predicate PortsFit(s: State) {
    && HostFits(s.host, ApplyingIn(s))
    && (forall p | p in s.polls :: HalfApplied(s.host.published, s.polls[p]))
    && (forall p | p in s.polls && Applying(s.polls[p]) :: s.host.owned == Some(s.polls[p].listing.vm))
  }

  /** Nothing is published or reported, and no poll is about to. */
  ghost predicate Clean(s: State) {
    s.host.at.None? && !s.host.commit.ByPoll?
  }

  ghost predicate CloseFits(s: State) {
    && (s.closer.Closed? ==> Clean(s))
    && (s.loop.Parking? && !s.loop.why.AfterSuccess? ==> Clean(s))
    && (s.loop.Exited? ==> Clean(s))
  }

  ghost predicate Inv(s: State) {
    LockFits(s) && PollsFit(s) && PortsFit(s) && CloseFits(s)
  }

  lemma LoopKeepsLock(s: State, m: LoopMove)
    requires Inv(s) && LoopEnabled(s, m)
    ensures LockFits(LoopApply(s, m))
  {
  }

  lemma LoopKeepsPolls(s: State, m: LoopMove)
    requires Inv(s) && LoopEnabled(s, m)
    ensures PollsFit(LoopApply(s, m))
  {
  }

  lemma LoopKeepsPorts(s: State, m: LoopMove)
    requires Inv(s) && LoopEnabled(s, m)
    ensures PortsFit(LoopApply(s, m)) && CloseFits(LoopApply(s, m))
  {
    assert ApplyingIn(LoopApply(s, m)) == ApplyingIn(s);
  }

  lemma PollKeepsLock(s: State, p: nat, m: PollMove)
    requires Inv(s) && PollEnabled(s, p, m)
    ensures LockFits(PollApply(s, p, m))
  {
  }

  lemma PollKeepsPolls(s: State, p: nat, m: PollMove)
    requires Inv(s) && PollEnabled(s, p, m)
    ensures PollsFit(PollApply(s, p, m)) && CloseFits(PollApply(s, p, m))
  {
  }

  /** A poll's own step keeps its half-applied listing consistent. */
  lemma PollKeepsHalf(s: State, p: nat, m: PollMove)
    requires Inv(s) && PollEnabled(s, p, m)
    ensures HalfApplied(PollHost(s, p, m).published, PollNext(s, p, m))
  {
  }

  lemma PollKeepsHost(s: State, p: nat, m: PollMove)
    requires Inv(s) && PollEnabled(s, p, m)
    ensures HostFits(PollHost(s, p, m), Applying(PollNext(s, p, m)))
    ensures Applying(PollNext(s, p, m)) ==> PollHost(s, p, m).owned == Some(PollNext(s, p, m).listing.vm)
  {
  }

  lemma PollKeepsPorts(s: State, p: nat, m: PollMove)
    requires Inv(s) && PollEnabled(s, p, m)
    ensures PortsFit(PollApply(s, p, m))
  {
    var u := PollApply(s, p, m);
    PollKeepsHalf(s, p, m);
    PollKeepsHost(s, p, m);
    PollKeepsLock(s, p, m);
    forall q | q in u.polls
      ensures HalfApplied(u.host.published, u.polls[q])
      ensures Applying(u.polls[q]) ==> u.host.owned == Some(u.polls[q].listing.vm)
    {
      if q != p {
        assert u.polls[q] == s.polls[q] && s.polls[q].Finished?;
      }
    }
  }

  lemma CloseKeepsInv(s: State, m: CloseMove)
    requires Inv(s) && CloseEnabled(s, m)
    ensures Inv(CloseApply(s, m))
  {
  }

  lemma WorldKeepsInv(s: State, m: WorldMove)
    requires Inv(s)
    ensures Inv(WorldApply(s, m))
  {
  }

  lemma OtherKeepsInv(s: State, m: OtherMove)
    requires Inv(s) && OtherEnabled(s.host, s.world.live, m)
    ensures Inv(s.(host := OtherApply(s.host, s.world.live, m)))
  {
  }

  lemma StepKeepsInv(s: State, step: Step)
    requires Inv(s) && Enabled(s, step)
    ensures Inv(Apply(s, step))
  {
    match step {
      case OfLoop(m) =>
        LoopKeepsLock(s, m);
        LoopKeepsPolls(s, m);
        LoopKeepsPorts(s, m);
      case OfPoll(p, m) =>
        PollKeepsLock(s, p, m);
        PollKeepsPolls(s, p, m);
        PollKeepsPorts(s, p, m);
      case OfClose(m) => CloseKeepsInv(s, m);
      case OfWorld(m) => WorldKeepsInv(s, m);
      case OfOther(m) => OtherKeepsInv(s, m);
    }
  }

  lemma {:induction false} InvAlways(states: seq<State>, steps: seq<Step>, i: nat)
    requires Execution(states, steps) && i < |states|
    ensures Inv(states[i])
  {
    if i > 0 {
      InvAlways(states, steps, i - 1);
      assert Follows(states, steps, i - 1);
      StepKeepsInv(states[i - 1], steps[i - 1]);
    }
  }

  /** The step at `i` of a run, and what is known where it is taken. */
  lemma StepAt(states: seq<State>, steps: seq<Step>, i: nat)
    requires Execution(states, steps) && i < |steps|
    ensures Inv(states[i]) && Enabled(states[i], steps[i]) && states[i + 1] == Apply(states[i], steps[i])
  {
    InvAlways(states, steps, i);
    assert Follows(states, steps, i);
  }

  // ---- The loop's promises, in every interleaving --------------------------------------

  predicate Unfinished(s: State, p: nat) {
    p in s.polls && !s.polls[p].Finished?
  }

  ghost predicate Idle(s: State) {
    forall p :: !Unfinished(s, p)
  }

  /** At most one poll is ever unfinished, and the loop is waiting for that one: none is while
      it reads its watches, starts a poll, closes, parks or has exited. */
  lemma OnePollAtATime(states: seq<State>, steps: seq<Step>, i: nat, p: nat, q: nat)
    requires Execution(states, steps) && i < |states| && Unfinished(states[i], p)
    ensures WaitsFor(states[i].loop, p)
    ensures Unfinished(states[i], q) ==> q == p
  {
    InvAlways(states, steps, i);
  }

  /** However a cancelled poll and the close interleave, once both are over nothing is
      published, nothing is reported and nothing is under way. */
  lemma JoinLeavesNothing(states: seq<State>, steps: seq<Step>, i: nat)
    requires Execution(states, steps) && i < |steps| && steps[i] == OfLoop(Joined)
    ensures states[i + 1].host.published == {} && states[i + 1].host.outcomes == map[]
    ensures Idle(states[i + 1])
  {
    StepAt(states, steps, i);
    InvAlways(states, steps, i + 1);
  }

  /** The join gets on unless somebody else holds one of the two locks: the poll or the close
      has a step to take. */
  lemma JoinNeverHangs(states: seq<State>, steps: seq<Step>, i: nat) returns (step: Step)
    requires Execution(states, steps) && i < |states| && states[i].loop.Joining?
    requires !states[i].host.ports.ByOther? && !states[i].host.commit.ByOther?
    ensures Enabled(states[i], step) && (step.OfPoll? || step.OfClose? || step == OfLoop(Joined))
  {
    InvAlways(states, steps, i);
    var s := states[i];
    var p := s.loop.poll;
    if s.closer.Running? {
      step := OfClose(CloseEnd);
      if s.host.published != {} {
        var o :| o in s.host.published;
        step := OfClose(CloseOne(o));
      }
    } else if s.closer.HasPorts? {
      assert !InCommit(s.polls[p]);
      step := OfClose(CloseCommit);
    } else if s.closer.Waiting? && s.host.ports.Free? {
      step := OfClose(ClosePorts);
    } else if s.polls[p].Finished? {
      step := OfLoop(Joined);
    } else {
      var m := PollGetsOn(s, p);
      step := OfPoll(p, m);
    }
  }

  lemma PollGetsOn(s: State, p: nat) returns (m: PollMove)
    requires Inv(s) && Unfinished(s, p)
    requires s.host.ports.Free? || InPorts(s.polls[p])
    requires s.host.commit.Free? || InCommit(s.polls[p])
    ensures PollEnabled(s, p, m)
  {
    var poll := s.polls[p];
    assert HalfApplied(s.host.published, poll);
    match poll {
      case Fresh => m := Begin;
      case Asking(_) => m := Answer(None);
      case AwaitingPorts(_) => m := TakePorts;
      case AwaitingCommit(_) => m := TakeCommit(false);
      case Preparing(_) => m := Prepare(false);
      case Withdrawing(_, _, stale) =>
        m := StartForwarding;
        if stale != {} {
          var o :| o in stale;
          m := WithdrawOne(o);
        }
      case Forwarding(_, _, todo, _) =>
        m := Finish(false);
        if todo != {} {
          var o :| o in todo;
          m := CheckPort(o, false);
        }
      case Binding(_, _, _, _, _) => m := Bind(false);
      case CleaningUp(_) =>
        m := EndCleaning;
        if s.host.published != {} {
          var o :| o in s.host.published;
          m := CleanOne(o);
        }
    }
  }

  const AT_REST := State(Top, map[], 0, {}, NoClose, Host(Free, Free, NotRetiring, {}, map[], None, None, None),
                         World(true, true, false, false, false, Some(0)))

  lemma Extend(states: seq<State>, steps: seq<Step>, step: Step) returns (longer: seq<State>, more: seq<Step>)
    requires Execution(states, steps) && Enabled(states[|steps|], step)
    ensures Execution(longer, more) && longer[|more|] == Apply(states[|steps|], step)
  {
    longer, more := states + [Apply(states[|steps|], step)], steps + [step];
    forall i: nat | i < |more| ensures Follows(longer, more, i) {
      assert i < |steps| ==> Follows(states, steps, i);
    }
  }

  /** A run in which the poll of a ready, held and live VM waits for the commit lock. */
  lemma PollTakesPorts(requested: map<string, bool>) returns (states: seq<State>, steps: seq<Step>)
    ensures Execution(states, steps)
    ensures states[|steps|] ==
      AT_REST.(loop := Selecting(0), polls := map[0 := AwaitingCommit(Listing(0, requested))], count := 1, host := AT_REST.host.(ports := ByPoll(0)))
  {
    states, steps := [AT_REST], [];
    states, steps := Extend(states, steps, OfLoop(ReadVm));
    states, steps := Extend(states, steps, OfLoop(ReadHold));
    states, steps := Extend(states, steps, OfPoll(0, Begin));
    states, steps := Extend(states, steps, OfPoll(0, Answer(Some(requested))));
    states, steps := Extend(states, steps, OfPoll(0, TakePorts));
  }

  /** Waiting for the close alone could hang: in this run the cancelled poll holds the lock,
      and the close has no step to take. */
  lemma CloseAloneCanHang() returns (states: seq<State>, steps: seq<Step>)
    ensures Execution(states, steps) && states[|steps|].loop.Joining? && states[|steps|].host.ports.ByPoll?
    ensures forall m :: !CloseEnabled(states[|steps|], m)
  {
    states, steps := PollTakesPorts(map[]);
    states, steps := Extend(states, steps, OfWorld(SetHold(false)));
    states, steps := Extend(states, steps, OfLoop(Interrupt(false)));
  }

  /** Whenever the loop sleeps every recorded port is one it reports as forwarded; with the VM
      or the hold gone, and after a failed poll, there are none. */
  lemma ParkedPortsAreReported(states: seq<State>, steps: seq<Step>, i: nat)
    requires Execution(states, steps) && i < |states| && states[i].loop.Parking?
    ensures states[i].host.published <= ForwardedOf(states[i].host.outcomes)
    ensures !states[i].loop.why.AfterSuccess? ==> states[i].host.published == {} && states[i].host.outcomes == map[]
    ensures Idle(states[i])
  {
    InvAlways(states, steps, i);
  }

  /** On exit nothing is published and no poll is under way, and so it stays. */
  lemma {:induction false} ExitIsClean(states: seq<State>, steps: seq<Step>, i: nat, j: nat)
    requires Execution(states, steps) && i <= j < |states| && states[i].loop.Exited?
    ensures states[j].loop.Exited? && states[j].host.published == {} && Idle(states[j])
  {
    InvAlways(states, steps, j);
    if i < j {
      ExitIsClean(states, steps, i, j - 1);
      StepAt(states, steps, j - 1);
    }
  }

  /** Where the loop read the VM it is now acting on. */
  lemma {:induction false} VmWasRead(states: seq<State>, steps: seq<Step>, i: nat) returns (j: nat)
    requires Execution(states, steps) && i < |states| && states[i].loop.GotVm?
    ensures j < i && steps[j] == OfLoop(ReadVm) && states[j].world.ready == states[i].loop.ready && !states[j].world.shutdown
    ensures forall k | j < k <= i :: states[k].loop == states[i].loop
  {
    StepAt(states, steps, i - 1);
    if steps[i - 1] == OfLoop(ReadVm) {
      j := i - 1;
    } else {
      j := VmWasRead(states, steps, i - 1);
    }
  }

  /** A poll starts only if the hold reads true at that moment and the VM read ready just
      before, with no other step of the loop's in between. */
  lemma PollsStartReadyAndHeld(states: seq<State>, steps: seq<Step>, i: nat) returns (j: nat)
    requires Execution(states, steps) && i < |steps| && states[i + 1].count > states[i].count
    ensures steps[i] == OfLoop(ReadHold) && states[i].world.held
    ensures j < i && steps[j] == OfLoop(ReadVm) && states[j].world.ready && !states[j].world.shutdown
    ensures forall k | j < k <= i :: states[k].loop == GotVm(true)
    ensures Idle(states[i])
  {
    StepAt(states, steps, i);
    j := VmWasRead(states, steps, i);
  }

  // ---- What is reported ----------------------------------------------------------------

  /** The step applies a listing to the end. */
  predicate Reports(s: State, step: Step) {
    && step.OfPoll? && step.move.Finish? && Enabled(s, step)
    && Passes(s, step.poll, s.polls[step.poll].listing.vm, step.move.allowed)
  }

  /** A listing that ends well reports each requested port, and exactly the open ones as
      forwarded. */
  lemma ReportIsTrueAtFirst(s: State, step: Step)
    requires Inv(s) && Reports(s, step)
    ensures var h := Apply(s, step).host;
      && h.published == ForwardedOf(h.outcomes) && h.outcomes.Keys == s.polls[step.poll].listing.requested.Keys
      && h.at == h.owned == s.world.live == Some(s.polls[step.poll].listing.vm)
  {
  }

  /** A listing that was applied reports each requested port, and exactly the open ones as
      forwarded, for the VM that is live; once its token was cancelled no poll succeeds. */
  lemma AppliedListingsAreReported(states: seq<State>, steps: seq<Step>, i: nat, p: nat)
    requires Execution(states, steps) && i < |steps| && Unfinished(states[i], p)
    requires p in states[i + 1].polls && states[i + 1].polls[p] == Finished(true)
    ensures !Cancelled(states[i], p) && states[i].polls[p].Forwarding?
    ensures states[i + 1].host.outcomes.Keys == states[i].polls[p].listing.requested.Keys
    ensures states[i + 1].host.published == ForwardedOf(states[i + 1].host.outcomes)
    ensures states[i + 1].host.at == states[i].world.live == Some(states[i].polls[p].listing.vm)
  {
    StepAt(states, steps, i);
    assert Reports(states[i], steps[i]);
    ReportIsTrueAtFirst(states[i], steps[i]);
  }

  /** A listing given up halfway leaves no port open and nothing reported: its own cleanup
      never fails. */
  lemma GivenUpListingsLeaveNothing(states: seq<State>, steps: seq<Step>, i: nat, p: nat)
    requires Execution(states, steps) && i < |steps| && p in states[i].polls && Applying(states[i].polls[p])
    requires p in states[i + 1].polls && states[i + 1].polls[p] == Finished(false)
    ensures states[i + 1].host.published == {} && states[i + 1].host.outcomes == map[]
  {
    StepAt(states, steps, i);
    InvAlways(states, steps, i + 1);
  }

  /** The step removes recorded ports without touching the report: a close on its way to forget
      it, or the retirement of listeners bound for another VM than the one wanted. */
  predicate Takes(s: State, step: Step) {
    s.host.published != {} && match step
    case OfClose(CloseOne(_)) => true
    case OfPoll(p, Prepare(_)) => p in s.polls && s.polls[p].Preparing? && Some(s.polls[p].listing.vm) !in {s.host.owned, s.host.slot}
    case OfOther(Drop) => s.host.retiring.Decided? && s.host.retiring.keep != s.host.slot
    case OfOther(Adopt) => true
    case _ => false
  }

  /** Ports and report after the step: the report as it was, and the ports too exactly unless
      the step takes some. */
  ghost predicate ReportKept(s: State, step: Step)
    requires Enabled(s, step)
  {
    var h, g := s.host, Apply(s, step).host;
    && g.at == h.at && g.outcomes == h.outcomes && g.published <= h.published
    && (g.published == h.published <==> !Takes(s, step))
  }

  lemma PollReportStep(s: State, p: nat, m: PollMove)
    requires Inv(s) && PollEnabled(s, p, m) && PollHost(s, p, m).at.Some? && !Reports(s, OfPoll(p, m))
    ensures ReportKept(s, OfPoll(p, m))
  {
  }

  /** Any step that leaves a report either made it or kept it. */
  lemma ReportStep(s: State, step: Step)
    requires Inv(s) && Enabled(s, step) && Apply(s, step).host.at.Some? && !Reports(s, step)
    ensures ReportKept(s, step)
  {
    match step {
      case OfPoll(p, m) => PollReportStep(s, p, m);
      case _ =>
    }
  }

  /** The report was made by an applied listing. From then on the recorded ports are among
      those reported, and they are exactly those as long as no step takes any. */
  lemma {:induction false} ReportIsTrueIff(states: seq<State>, steps: seq<Step>, i: nat) returns (k: nat)
    requires Execution(states, steps) && i < |states| && states[i].host.at.Some?
    ensures k < i && Reports(states[k], steps[k])
    ensures forall j | k < j <= i :: states[j].host.at == states[i].host.at && states[j].host.outcomes == states[i].host.outcomes
    ensures states[i].host.published <= ForwardedOf(states[i].host.outcomes)
    ensures states[i].host.published == ForwardedOf(states[i].host.outcomes) <==> forall j | k < j < i :: !Takes(states[j], steps[j])
  {
    StepAt(states, steps, i - 1);
    var s, step := states[i - 1], steps[i - 1];
    if Reports(s, step) {
      k := i - 1;
      ReportIsTrueAtFirst(s, step);
    } else {
      ReportStep(s, step);
      k := ReportIsTrueIff(states, steps, i - 1);
    }
  }

  /** The status query answers from the report, unless its VM is no longer the live one. */
  predicate Answers(s: State) {
    s.host.ports.Free? && s.host.at.Some? && s.host.at == s.world.live
  }

  /** Nobody has a reason to take a port of the live VM, except a close. */
  ghost predicate Undisturbed(s: State) {
    && s.host.at.Some? && s.host.owned == s.host.at && s.host.retiring.NotRetiring?
    && (forall p | p in s.polls && s.polls[p].Preparing? :: s.host.at == Some(s.polls[p].listing.vm))
    && (s.closer.Running? || s.host.published == ForwardedOf(s.host.outcomes))
  }

  lemma UndisturbedAtFirst(s: State, step: Step)
    requires Inv(s) && Reports(s, step)
    ensures Undisturbed(Apply(s, step))
  {
    ReportIsTrueAtFirst(s, step);
  }

  lemma StaysUndisturbed(s: State, step: Step)
    requires Inv(s) && Enabled(s, step) && Undisturbed(s) && s.host.at == s.world.live
    requires Apply(s, step).host.at.Some? && !Reports(s, step)
    ensures Undisturbed(Apply(s, step))
  {
    ReportStep(s, step);
  }

  /** The report's VM has been the live one ever since the report was made. */
  ghost predicate VmStays(states: seq<State>, steps: seq<Step>, k: nat, i: nat)
    requires |states| == |steps| + 1 && k < i < |states|
  {
    && Reports(states[k], steps[k])
    && (forall j | k < j < i :: !Reports(states[j], steps[j]))
    && (forall j | k < j <= i :: states[j].host.at.Some? && states[j].host.at == states[j].world.live)
  }

  lemma UndisturbedNext(s: State, step: Step, t: State)
    requires Inv(s) && Enabled(s, step) && t == Apply(s, step) && t.host.at.Some?
    requires Reports(s, step) || (Undisturbed(s) && s.host.at == s.world.live)
    ensures Undisturbed(t)
  {
    if Reports(s, step) {
      UndisturbedAtFirst(s, step);
    } else {
      StaysUndisturbed(s, step);
    }
  }

  lemma {:induction false} UndisturbedWhileTheVmStays(states: seq<State>, steps: seq<Step>, k: nat, i: nat)
    requires Execution(states, steps) && k < i < |states| && VmStays(states, steps, k, i)
    ensures Undisturbed(states[i])
  {
    if k < i - 1 {
      UndisturbedWhileTheVmStays(states, steps, k, i - 1);
    }
    StepAt(states, steps, i - 1);
    UndisturbedNext(states[i - 1], steps[i - 1], states[i]);
  }

  /** While the VM of the report stays live, whatever the status query answers is true: the
      ports reported as forwarded are exactly those recorded. */
  lemma AnswersAreTrueWhileTheVmStays(states: seq<State>, steps: seq<Step>, k: nat, i: nat)
    requires Execution(states, steps) && k < i < |states| && VmStays(states, steps, k, i)
    requires Answers(states[i])
    ensures states[i].host.published == ForwardedOf(states[i].host.outcomes)
  {
    UndisturbedWhileTheVmStays(states, steps, k, i);
    InvAlways(states, steps, i);
  }

  /** A run in which the loop sleeps after one port was forwarded. */
  lemma PollForwards(o: string) returns (states: seq<State>, steps: seq<Step>)
    ensures Execution(states, steps)
    ensures states[|steps|] ==
      AT_REST.(loop := Parking(AfterSuccess), polls := map[0 := Finished(true)], count := 1,
               host := Host(Free, Free, NotRetiring, {o}, map[o := Forwarded], Some(0), Some(0), Some(0)))
  {
    states, steps := PollTakesPorts(map[o := true]);
    states, steps := Extend(states, steps, OfPoll(0, TakeCommit(true)));
    states, steps := Extend(states, steps, OfPoll(0, Prepare(true)));
    states, steps := Extend(states, steps, OfPoll(0, StartForwarding));
    states, steps := Extend(states, steps, OfPoll(0, CheckPort(o, true)));
    states, steps := Extend(states, steps, OfPoll(0, Bind(true)));
    states, steps := Extend(states, steps, OfPoll(0, Finish(true)));
    states, steps := Extend(states, steps, OfLoop(PollReturned));
  }

  /** A report can go stale: in this run the VM stops, its listeners are retired while the loop
      sleeps, the stop is called off, and the status query answers that a port is forwarded
      which has no listener. */
  lemma AnswerCanBeFalse(o: string) returns (states: seq<State>, steps: seq<Step>)
    ensures Execution(states, steps)
    ensures var s := states[|steps|];
      s.loop == Parking(AfterSuccess) && Answers(s) && ForwardedOf(s.host.outcomes) == {o} && s.host.published == {}
  {
    states, steps := PollForwards(o);
    states, steps := Extend(states, steps, OfWorld(SetLive(None)));
    states, steps := Extend(states, steps, OfOther(LockCommit));
    states, steps := Extend(states, steps, OfOther(Retire));
    states, steps := Extend(states, steps, OfOther(Drop));
    states, steps := Extend(states, steps, OfOther(Retired(false)));
    states, steps := Extend(states, steps, OfOther(UnlockCommit));
    states, steps := Extend(states, steps, OfWorld(SetLive(Some(0))));
  }
}
