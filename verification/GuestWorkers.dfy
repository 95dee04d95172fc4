/** The supervisor that keeps one worker per wanted machine: a cancelled worker keeps its
    name until it has been joined, so that its replacement cannot overlap with it. */
module GuestWorkers {
  import opened Wrappers

  datatype Outcome = Fine | Failed | Panicked

  datatype Event =
    | Started(id: nat, name: string)
    | Joined(id: nat, outcome: Outcome)
    | SourceClosed

  /** What the supervisor's `select!` meets. */
  datatype Input =
    | Rescan(wanted: set<string>)
    | MachineStopping(name: string, wanted: set<string>)
    /** Another membership event, or a lagged receiver. */
    | MembershipChanged(wanted: set<string>)
    | OtherEvent
    | EventsClosed
    | WorkerEnded(outcome: Outcome, wanted: set<string>)

  /** The inputs after which the wanted machines are read again. */
  predicate Syncs(input: Input, tasks: map<nat, string>) {
    input.Rescan? || input.MachineStopping? || input.MembershipChanged? || (input.WorkerEnded? && tasks != map[])
  }

  predicate IsError(e: Event) {
    e.SourceClosed? || (e.Joined? && e.outcome != Fine)
  }

  /** The error that came first. */
  function FirstError(log: seq<Event>): Option<Event> {
    if log == [] then None
    else if IsError(log[0]) then Some(log[0])
    else FirstError(log[1..])
  }

  lemma {:induction false} FirstErrorSnoc(log: seq<Event>, e: Event)
    ensures FirstError(log + [e]) == if FirstError(log).Some? then FirstError(log) else if IsError(e) then Some(e) else None
  {
    var all := log + [e];
    if log != [] {
      FirstErrorSnoc(log[1..], e);
      assert all[1..] == log[1..] + [e];
    } else {
      assert all[1..] == [];
    }
  }

  lemma {:induction false} NoErrorMeansNone(log: seq<Event>)
    ensures FirstError(log).None? <==> forall k | 0 <= k < |log| :: !IsError(log[k])
  {
    if log != [] {
      NoErrorMeansNone(log[1..]);
      assert forall k | 0 < k < |log| :: log[k] == log[1..][k - 1];
      assert forall k | 0 <= k < |log| - 1 :: log[1..][k] == log[k + 1];
    }
  }

  ghost predicate JoinedBetween(log: seq<Event>, i: int, j: int, id: nat) {
    exists k | 0 <= i < k < j <= |log| :: log[k].Joined? && log[k].id == id
  }

  /** A worker of some name starts only after every earlier worker of that name was joined. */
  ghost predicate NeverOverlap(log: seq<Event>) {
    forall i, j | 0 <= i < j < |log| && log[i].Started? && log[j].Started? && log[i].name == log[j].name ::
      JoinedBetween(log, i, j, log[i].id)
  }

  /** Each started worker is still unjoined or was joined later. */
  ghost predicate AllAccounted(log: seq<Event>, tasks: map<nat, string>) {
    forall i | 0 <= i < |log| && log[i].Started? ::
      (log[i].id in tasks && tasks[log[i].id] == log[i].name) || JoinedBetween(log, i, |log|, log[i].id)
  }

  lemma JoinedStays(log: seq<Event>, e: Event, i: int, j: int, id: nat)
    requires JoinedBetween(log, i, j, id)
    ensures JoinedBetween(log + [e], i, j, id)
    ensures j == |log| ==> JoinedBetween(log + [e], i, j + 1, id)
  {
    var all := log + [e];
    var k :| 0 <= i < k < j <= |log| && log[k].Joined? && log[k].id == id;
    assert all[k] == log[k];
  }

  lemma LogGrows(log: seq<Event>, e: Event, tasks: map<nat, string>, tasks': map<nat, string>)
    requires NeverOverlap(log) && AllAccounted(log, tasks)
    requires match e
      case Started(id, name) => id !in tasks && name !in tasks.Values && tasks' == tasks[id := name]
      case Joined(id, _) => tasks' == tasks - {id}
      case SourceClosed => tasks' == tasks
    ensures NeverOverlap(log + [e]) && AllAccounted(log + [e], tasks')
  {
    var all := log + [e];
    assert forall i | 0 <= i < |log| :: all[i] == log[i];
    forall i, j | 0 <= i < j < |all| && all[i].Started? && all[j].Started? && all[i].name == all[j].name
      ensures JoinedBetween(all, i, j, all[i].id)
    {
      assert log[i].Started?;
      if j < |log| {
        assert log[j].Started?;
      } else if log[i].id in tasks {
        assert tasks[log[i].id] in tasks.Values;
      }
      JoinedStays(log, e, i, j, log[i].id);
    }
    forall i | 0 <= i < |all| && all[i].Started?
      ensures (all[i].id in tasks' && tasks'[all[i].id] == all[i].name) || JoinedBetween(all, i, |all|, all[i].id)
    {
      if i < |log| {
        assert log[i].Started?;
        if JoinedBetween(log, i, |log|, log[i].id) {
          JoinedStays(log, e, i, |log|, log[i].id);
        } else if log[i].id !in tasks' {
          assert all[|log|] == e;
        }
      }
    }
  }

  class Workers {
    /** The supervisor's own token; every worker's token is its child. */
    var shutdown: bool
    var active: map<string, nat>
    /** Unjoined workers and their names. */
    var tasks: map<nat, string>
    /** Workers whose own token is cancelled. */
    var cancelled: set<nat>
    /** Workers told that the machines changed. */
    var notified: set<nat>
    var next: nat
    var log: seq<Event>

    /** Active names and unjoined workers correspond one to one. */
    ghost predicate Supervising()
      reads this
    {
      && (forall name | name in active :: active[name] in tasks && tasks[active[name]] == name)
      && (forall id | id in tasks :: tasks[id] in active && active[tasks[id]] == id)
    }

    ghost predicate Valid()
      reads this
    {
      && NeverOverlap(log) && AllAccounted(log, tasks)
      && (forall id | id in tasks || id in cancelled :: id < next)
      && (forall id, id' | id in tasks && id' in tasks && tasks[id] == tasks[id'] :: id == id')
    }

    predicate Cancelled(id: nat)
      reads this
    {
      shutdown || id in cancelled
    }

    constructor ()
      ensures Valid() && Supervising() && !shutdown && log == [] && tasks == map[]
    {
      shutdown, active, tasks, cancelled, notified, next, log := false, map[], map[], {}, {}, 0, [];
    }

    /** The first loop of `sync`: tell the wanted, cancel the others. */
    method Tell(names: set<string>)
      requires Valid() && Supervising()
      modifies `cancelled, `notified
      ensures Valid() && old(cancelled) <= cancelled && old(notified) <= notified
      ensures forall name | name in active && name in names :: active[name] in notified && (active[name] in cancelled <==> active[name] in old(cancelled))
      ensures forall name | name in active && name !in names :: active[name] in cancelled
    {
      var done: set<string> := {};
      while active.Keys - done != {}
        invariant Valid() && done <= active.Keys && old(cancelled) <= cancelled && old(notified) <= notified
        invariant forall name | name in active && name in names :: active[name] in cancelled <==> active[name] in old(cancelled)
        invariant forall name | name in done && name in names :: active[name] in notified
        invariant forall name | name in done && name !in names :: active[name] in cancelled
        decreases active.Keys - done
      {
        var name :| name in active.Keys - done;
        if name in names {
          notified := notified + {active[name]};
        } else {
          cancelled := cancelled + {active[name]};
        }
        done := done + {name};
      }
      assert forall name | name in active :: name in done by {
        forall name | name in active ensures name in done {
          assert name !in active.Keys - done;
        }
      }
    }

    method Start(name: string)
      requires Valid() && Supervising() && name !in active
      modifies `active, `tasks, `next, `log
      ensures Valid() && Supervising() && old(log) < log
      ensures active == old(active)[name := old(next)] && tasks == old(tasks)[old(next) := name]
      ensures FirstError(log) == FirstError(old(log)) && old(next) !in cancelled
    {
      assert name !in tasks.Values;
      LogGrows(log, Started(next, name), tasks, tasks[next := name]);
      FirstErrorSnoc(log, Started(next, name));
      log := log + [Started(next, name)];
      active, tasks, next := active[name := next], tasks[next := name], next + 1;
    }

    /** `sync`. Unless the supervisor was shut down, every wanted machine has a worker
        afterwards, and the workers of the others are cancelled. */
    method Sync(names: set<string>)
      requires Valid() && Supervising()
      modifies `active, `tasks, `cancelled, `notified, `next, `log
      ensures Valid() && Supervising() && old(log) <= log && FirstError(log) == FirstError(old(log))
      ensures shutdown ==> active == old(active) && tasks == old(tasks) && log == old(log)
      ensures old(cancelled) <= cancelled
      ensures !shutdown ==> forall name | name in old(active) && name in names :: old(active)[name] in notified
      ensures !shutdown ==> names <= active.Keys
      ensures !shutdown ==> forall name | name in active && name !in names :: Cancelled(active[name])
      ensures forall name | name in old(active) :: name in active && active[name] == old(active)[name]
      ensures forall name | name in active && name !in old(active) :: !shutdown && name in names && active[name] !in cancelled
      ensures forall name | name in old(active) && name in names :: active[name] in cancelled <==> old(active)[name] in old(cancelled)
    {
      if shutdown {
        return;
      }
      Tell(names);
      var done: set<string> := {};
      while names - done != {}
        invariant Valid() && Supervising() && done <= names && old(log) <= log && FirstError(log) == FirstError(old(log))
        invariant done <= active.Keys && old(cancelled) <= cancelled
        invariant forall name | name in old(active) && name in names :: old(active)[name] in notified
        invariant forall name | name in active && name !in names :: active[name] in cancelled
        invariant forall name | name in old(active) :: name in active && active[name] == old(active)[name]
        invariant forall name | name in old(active) && name in names :: active[name] in cancelled <==> old(active)[name] in old(cancelled)
        invariant forall name | name in active && name !in old(active) :: name in names && active[name] !in cancelled
        decreases names - done
      {
        var name :| name in names - done;
        if name !in active {
          Start(name);
        }
        done := done + {name};
      }
      assert forall name | name in names :: name in done by {
        forall name | name in names ensures name in done {
          assert name !in names - done;
        }
      }
    }

    /** `completed`: a panicked worker does not give its name back. */
    method Completed(id: nat, outcome: Outcome) returns (error: Option<Event>)
      requires Valid() && id in tasks && tasks[id] in active && active[tasks[id]] == id
      modifies `active, `tasks, `log
      ensures Valid() && tasks == old(tasks) - {id} && old(log) < log
      ensures active == if outcome == Panicked then old(active) else old(active) - {old(tasks)[id]}
      ensures error == if outcome == Fine then None else Some(Joined(id, outcome))
      ensures FirstError(log) == if FirstError(old(log)).Some? then FirstError(old(log)) else error
    {
      LogGrows(log, Joined(id, outcome), tasks, tasks - {id});
      FirstErrorSnoc(log, Joined(id, outcome));
      log := log + [Joined(id, outcome)];
      var name := tasks[id];
      tasks := tasks - {id};
      if outcome == Panicked {
        return Some(Joined(id, outcome));
      }
      active := active - {name};
      return if outcome == Fine then None else Some(Joined(id, outcome));
    }

    /** The shutdown token may be cancelled by anyone at any moment. */
    method Elsewhere()
      modifies `shutdown
      ensures old(shutdown) ==> shutdown
    {
      var now: bool := *;
      shutdown := shutdown || now;
    }

    /** One turn of the `select!` loop; `error` ends it. */
    method Turn(input: Input) returns (error: Option<Event>)
      requires Valid() && Supervising() && FirstError(log).None?
      modifies this
      ensures Valid() && FirstError(log) == error && old(log) <= log
      ensures error.None? ==> Supervising()
      ensures forall id | id in tasks :: tasks[id] in active && active[tasks[id]] == id
      ensures Syncs(input, old(tasks)) && error.None? && !shutdown ==>
        input.wanted <= active.Keys && forall name | name in active && name !in input.wanted :: Cancelled(active[name])
      ensures input.MachineStopping? && input.name in old(active) ==> old(active)[input.name] in cancelled
    {
      error := None;
      match input {
        case OtherEvent =>
        case EventsClosed =>
          LogGrows(log, SourceClosed, tasks, tasks);
          FirstErrorSnoc(log, SourceClosed);
          log := log + [SourceClosed];
          error := Some(SourceClosed);
        case MachineStopping(name, wanted) =>
          if name in active {
            cancelled := cancelled + {active[name]};
          }
          Elsewhere();
          Sync(wanted);
        case WorkerEnded(outcome, wanted) =>
          if tasks != map[] {
            assert tasks.Keys != {};
            var id :| id in tasks;
            error := Completed(id, outcome);
            if error.None? {
              Elsewhere();
              Sync(wanted);
            }
          }
        case _ =>
          Elsewhere();
          Sync(input.wanted);
      }
    }

    /** Join whatever is left, remembering the first error. */
    method Drain(first: Option<Event>) returns (result: Option<Event>)
      requires Valid() && FirstError(log) == first && shutdown
      requires forall id | id in tasks :: tasks[id] in active && active[tasks[id]] == id
      modifies `active, `tasks, `log
      ensures Valid() && tasks == map[] && result == FirstError(log) && old(log) <= log
    {
      result := first;
      while tasks != map[]
        invariant Valid() && result == FirstError(log) && old(log) <= log
        invariant forall id | id in tasks :: tasks[id] in active && active[tasks[id]] == id
        decreases tasks.Keys
      {
        assert tasks.Keys != {};
        var id :| id in tasks;
        var outcome: Outcome := *;
        var error := Completed(id, outcome);
        if result.None? {
          result := error;
        }
      }
    }

    /** `supervise_machines` over any inputs; once they run out, shutdown is what comes.
        It returns with no worker left, all of them told to stop, and the first error. */
    method Supervise(initial: set<string>, script: seq<Input>) returns (result: Option<Event>)
      requires Valid() && Supervising() && log == [] && tasks == map[]
      modifies this
      ensures shutdown && tasks == map[]
      ensures NeverOverlap(log)
      ensures forall i | 0 <= i < |log| && log[i].Started? :: JoinedBetween(log, i, |log|, log[i].id)
      ensures result == FirstError(log)
      ensures result.None? <==> forall k | 0 <= k < |log| :: !IsError(log[k])
    {
      Elsewhere();
      Sync(initial);
      var error: Option<Event> := None;
      var n := 0;
      while n < |script| && !shutdown && error.None?
        invariant Valid() && FirstError(log) == error
        invariant error.None? ==> Supervising()
        invariant forall id | id in tasks :: tasks[id] in active && active[tasks[id]] == id
        decreases |script| - n
      {
        error := Turn(script[n]);
        Elsewhere();
        n := n + 1;
      }
      shutdown := true;
      result := Drain(error);
      NoErrorMeansNone(log);
    }
  }

  datatype JoinEvent = ServiceJoined(service: nat) | OthersCancelled

  /** `join_services`, over services numbered in the order they end: the first exit cancels the
      others at once, all are joined, and the first failure in joining order is the result. */
  method JoinServices(exits: seq<Outcome>) returns (result: Option<nat>, log: seq<JoinEvent>)
    requires exits != []
    ensures result.None? <==> forall k | 0 <= k < |exits| :: exits[k] == Fine
    ensures result.Some? ==> result.value < |exits| && exits[result.value] != Fine
    ensures result.Some? ==> forall k | 0 <= k < result.value :: exits[k] == Fine
    ensures |log| == |exits| + 1 && log[0] == ServiceJoined(0) && log[1] == OthersCancelled
    ensures forall k | 1 <= k < |exits| :: log[k + 1] == ServiceJoined(k)
  {
    log := [ServiceJoined(0)] + [OthersCancelled];
    result := if exits[0] == Fine then None else Some(0);
    var n := 1;
    while n < |exits|
      invariant 1 <= n <= |exits|
      invariant |log| == n + 1 && log[0] == ServiceJoined(0) && log[1] == OthersCancelled
      invariant forall k | 1 <= k < n :: log[k + 1] == ServiceJoined(k)
      invariant result.None? <==> forall k | 0 <= k < n :: exits[k] == Fine
      invariant result.Some? ==> result.value < n && exits[result.value] != Fine
      invariant result.Some? ==> forall k | 0 <= k < result.value :: exits[k] == Fine
    {
      log := log + [ServiceJoined(n)];
      if exits[n] != Fine && result.None? {
        result := Some(n);
      }
      n := n + 1;
    }
  }
}
