/** The loop that keeps asking for container listings: when it queries, and how long it
    goes on treating the System VM as just returned. */
module HostReconciler {
  datatype Wake = Shutdown | SenderGone | VmChanged | Tick

  /** `retire_system_vm_container_networking`. */
  datatype Retirement = Retired(cleared: bool) | RetirementFailed

  datatype Query = Committed | Skipped | Failed

  /** What one turn of the loop meets: why it woke, whether the VM reads ready, how
      retirement went, and how a query goes if one is made. */
  datatype Turn = Turn(wake: Wake, ready: bool, retirement: Retirement, query: Query)

  /** What one turn did. `returned`: the host may now lack containers the guest has. */
  datatype Entry = Entry(turn: Turn, returned: bool, queried: bool)

  predicate Commits(e: Entry) {
    e.queried && e.turn.query == Committed
  }

  /** The latest listing that was published has not been outdated since. */
  ghost predicate CaughtUp(log: seq<Entry>) {
    log != [] && (Commits(log[|log| - 1]) || (!log[|log| - 1].returned && CaughtUp(log[..|log| - 1])))
  }

  /** Caught up means: some turn published a listing, and no later turn returned. */
  lemma {:induction false} CaughtUpIff(log: seq<Entry>)
    ensures CaughtUp(log) <==> exists i | 0 <= i < |log| :: Commits(log[i]) && forall j | i < j < |log| :: !log[j].returned
  {
    if log != [] {
      var rest, last := log[..|log| - 1], log[|log| - 1];
      CaughtUpIff(rest);
      assert forall i | 0 <= i < |rest| :: rest[i] == log[i];
      if CaughtUp(rest) && !last.returned {
        var i :| 0 <= i < |rest| && Commits(rest[i]) && forall j | i < j < |rest| :: !rest[j].returned;
        assert Commits(log[i]) && forall j | i < j < |log| :: !log[j].returned;
      }
      if i :| 0 <= i < |rest| && Commits(log[i]) && forall j | i < j < |log| :: !log[j].returned {
        assert Commits(rest[i]) && forall j | i < j < |rest| :: !rest[j].returned;
      }
    }
  }

  ghost predicate Stops(t: Turn) {
    t.wake == Shutdown || t.wake == SenderGone
  }

  /** A query needs a timer tick, a VM that reads ready and a retirement that worked. */
  ghost predicate QueriesAreDue(log: seq<Entry>) {
    forall i | 0 <= i < |log| ::
      && (log[i].queried <==> log[i].turn.wake == Tick && log[i].turn.ready && log[i].turn.retirement.Retired?)
      && !Stops(log[i].turn)
  }

  /** Readiness before a turn. */
  function ReadyBefore(initial: bool, log: seq<Entry>): bool {
    if log == [] then initial else log[|log| - 1].turn.ready
  }

  /** A turn returns when the VM comes up, its previous state was cleared, or clearing failed. */
  ghost predicate ReturnsAreNoticed(initial: bool, log: seq<Entry>) {
    forall i | 0 <= i < |log| ::
      log[i].returned <==>
        (log[i].turn.ready && !ReadyBefore(initial, log[..i])) || log[i].turn.retirement != Retired(false)
  }

  lemma CaughtUpSnoc(log: seq<Entry>, e: Entry)
    ensures CaughtUp(log + [e]) <==> Commits(e) || (CaughtUp(log) && !e.returned)
  {
    assert (log + [e])[..|log|] == log;
  }

  /** Retirement has to be retried, or a ready VM has not been caught up with. */
  ghost predicate DueSoon(log: seq<Entry>) {
    || log == []
    || log[|log| - 1].turn.retirement.RetirementFailed?
    || (log[|log| - 1].turn.ready && !CaughtUp(log))
  }

  /** The delay before turn `i` is the short one exactly when it is due soon. */
  ghost predicate CadenceFits(log: seq<Entry>, short: seq<bool>) {
    |short| <= |log| + 1 && forall i | 0 <= i < |short| :: short[i] <==> DueSoon(log[..i])
  }

  lemma DelayChosen(log: seq<Entry>, short: seq<bool>, b: bool)
    requires CadenceFits(log, short) && |short| == |log| && (b <==> DueSoon(log))
    ensures CadenceFits(log, short + [b])
  {
    assert log[..|log|] == log;
  }

  lemma CadenceGrows(log: seq<Entry>, e: Entry, short: seq<bool>)
    requires CadenceFits(log, short)
    ensures CadenceFits(log + [e], short)
  {
    assert forall i | 0 <= i < |short| :: (log + [e])[..i] == log[..i];
  }

  ghost predicate Faithful(initial: bool, log: seq<Entry>) {
    QueriesAreDue(log) && ReturnsAreNoticed(initial, log)
  }

  lemma FaithfulGrows(initial: bool, log: seq<Entry>, e: Entry)
    requires Faithful(initial, log) && !Stops(e.turn)
    requires e.queried <==> e.turn.wake == Tick && e.turn.ready && e.turn.retirement.Retired?
    requires e.returned <==> (e.turn.ready && !ReadyBefore(initial, log)) || e.turn.retirement != Retired(false)
    ensures Faithful(initial, log + [e])
  {
    var all := log + [e];
    assert forall i | 0 <= i <= |log| :: all[..i] == log[..i];
    assert log[..|log|] == log;
  }

  /** `reconcile_loop` over any sequence of turns. */
  method ReconcileLoop(initial: bool, script: seq<Turn>) returns (log: seq<Entry>, short: seq<bool>)
    ensures Faithful(initial, log) && CadenceFits(log, short) && |log| <= |short|
    ensures |log| <= |script| && forall i | 0 <= i < |log| :: log[i].turn == script[i]
    ensures |log| < |script| ==> Stops(script[|log|])
  {
    var ready, returning, retirementPending := initial, true, true;
    log, short := [], [];
    while |log| < |script|
      invariant |short| == |log| <= |script| && forall i | 0 <= i < |log| :: log[i].turn == script[i]
      invariant Faithful(initial, log) && CadenceFits(log, short)
      invariant Tracks(initial, log, ready, returning, retirementPending)
      decreases |script| - |log|
    {
      DelayChosen(log, short, retirementPending || (ready && returning));
      short := short + [retirementPending || (ready && returning)];
      var turn := script[|log|];
      if turn.wake == Shutdown || turn.wake == SenderGone {
        return;
      }
      var e, nowReturning, nowPending := TakeTurn(turn, ready, returning);
      TurnTracked(initial, log, short, ready, returning, retirementPending, e, nowReturning, nowPending);
      log, ready, returning, retirementPending := log + [e], turn.ready, nowReturning, nowPending;
    }
  }

  /** The loop's three flags, as the turns so far determine them. */
  ghost predicate Tracks(initial: bool, log: seq<Entry>, ready: bool, returning: bool, retirementPending: bool) {
    && ready == ReadyBefore(initial, log)
    && (returning <==> !CaughtUp(log))
    && (retirementPending <==> log == [] || log[|log| - 1].turn.retirement.RetirementFailed?)
  }

  lemma TurnTracked(initial: bool, log: seq<Entry>, short: seq<bool>, ready: bool, returning: bool, pending: bool, e: Entry, returning': bool, pending': bool)
    requires Faithful(initial, log) && CadenceFits(log, short) && Tracks(initial, log, ready, returning, pending) && !Stops(e.turn)
    requires e.queried <==> e.turn.wake == Tick && e.turn.ready && e.turn.retirement.Retired?
    requires e.returned <==> (e.turn.ready && !ready) || e.turn.retirement != Retired(false)
    requires returning' <==> (returning || e.returned) && !Commits(e)
    requires pending' <==> e.turn.retirement.RetirementFailed?
    ensures Faithful(initial, log + [e]) && CadenceFits(log + [e], short) && Tracks(initial, log + [e], e.turn.ready, returning', pending')
  {
    CaughtUpSnoc(log, e);
    CadenceGrows(log, e, short);
    FaithfulGrows(initial, log, e);
  }

  /** The body of one turn after it woke. */
  method TakeTurn(turn: Turn, ready: bool, wasReturning: bool) returns (e: Entry, returning: bool, retirementPending: bool)
    ensures e.turn == turn
    ensures e.queried <==> turn.wake == Tick && turn.ready && turn.retirement.Retired?
    ensures e.returned <==> (turn.ready && !ready) || turn.retirement != Retired(false)
    ensures returning <==> (wasReturning || e.returned) && !Commits(e)
    ensures retirementPending <==> turn.retirement.RetirementFailed?
  {
    var queryDue := turn.wake == Tick;
    var returned, queried := false, false;
    returning := wasReturning;
    if turn.ready && !ready {
      returning, returned := true, true;
    }
    match turn.retirement {
      case Retired(cleared) =>
        retirementPending := false;
        returning, returned := returning || cleared, returned || cleared;
        if queryDue && turn.ready {
          queried := true;
          if turn.query == Committed {
            returning := false;
          }
        }
      case RetirementFailed =>
        retirementPending, returning, returned := true, true, true;
    }
    e := Entry(turn, returned, queried);
  }
}
