/** The runtime's start, stop and stop-all of host port forwarding, with every await a
    point where the operation may be dropped. `Valid` says that the present state and every
    state recorded at a suspension account for each live listener. */
module ListenerRuntime {
  import opened Wrappers
  import opened Lists
  import opened Text
  import opened PortKeys
  import opened Listeners

  /** Host address, host port, container port and protocol as the caller gives them. */
  datatype Binding = Binding(hostIp: string, hostPort: nat, containerPort: nat, protocol: string)

  function Number(octets: seq<nat>): nat
    requires |octets| == 4
  {
    ((octets[0] * 256 + octets[1]) * 256 + octets[2]) * 256 + octets[3]
  }

  /** `resolve_bind_ip`: no particular address resolves to the configured one. */
  function ResolveBindIp(hostIp: string, unspecified: nat): Option<nat> {
    if hostIp == "" || hostIp == "0.0.0.0" then Some(unspecified)
    else
      match ParseIpv4(hostIp)
      case None => None
      case Some(octets) => Some(Number(octets))
  }

  function Lower(c: char): char {
    if 'A' <= c <= 'Z' then c - 'A' + 'a' else c
  }

  function ProtocolOf(name: string): Protocol {
    if |name| == 3 && Lower(name[0]) == 'u' && Lower(name[1]) == 'd' && Lower(name[2]) == 'p' then Udp else Tcp
  }

  /** The rule a binding asks for, unless its host address is unusable. */
  function RuleFor(b: Binding, unspecified: nat): Option<Rule> {
    match ResolveBindIp(b.hostIp, unspecified)
    case None => None
    case Some(ip) => Some(Rule(ListenKey(ip, b.hostPort, ProtocolOf(b.protocol)), b.containerPort))
  }

  ghost predicate Wanted(bindings: seq<Binding>, unspecified: nat, rule: Rule) {
    exists i | 0 <= i < |bindings| :: RuleFor(bindings[i], unspecified) == Some(rule)
  }

  /** The planned rules: one per distinct usable binding. */
  method PlanRules(bindings: seq<Binding>, unspecified: nat) returns (planned: seq<Rule>)
    ensures forall r :: r in planned <==> Wanted(bindings, unspecified, r)
    ensures Distinct(planned)
  {
    planned := [];
    var n := 0;
    while n < |bindings|
      invariant 0 <= n <= |bindings|
      invariant forall r :: r in planned <==> Wanted(bindings[..n], unspecified, r)
      invariant Distinct(planned)
    {
      var rule := RuleFor(bindings[n], unspecified);
      assert bindings[..n + 1] == bindings[..n] + [bindings[n]];
      assert forall r :: Wanted(bindings[..n + 1], unspecified, r) <==> Wanted(bindings[..n], unspecified, r) || rule == Some(r) by {
        forall r ensures Wanted(bindings[..n + 1], unspecified, r) <==> Wanted(bindings[..n], unspecified, r) || rule == Some(r) {
          WantedSnoc(bindings[..n], bindings[n], unspecified, r);
        }
      }
      if rule.Some? && rule.value !in planned {
        planned := planned + [rule.value];
      }
      n := n + 1;
    }
    assert bindings[..n] == bindings;
  }

  lemma WantedSnoc(bindings: seq<Binding>, b: Binding, unspecified: nat, r: Rule)
    ensures Wanted(bindings + [b], unspecified, r) <==> Wanted(bindings, unspecified, r) || RuleFor(b, unspecified) == Some(r)
  {
    var all := bindings + [b];
    if Wanted(bindings, unspecified, r) {
      var i :| 0 <= i < |bindings| && RuleFor(bindings[i], unspecified) == Some(r);
      assert all[i] == bindings[i];
    }
    if RuleFor(b, unspecified) == Some(r) {
      assert all[|bindings|] == b;
    }
  }

  /** How starting an owner's listeners ended. */
  datatype StartResult =
    | Started
    /** The machine's listener manager could not be adopted; nothing was cleaned up. */
    | NotAdopted
    /** Failed, and the cleanup of this owner succeeded. */
    | Failed
    | CleanupFailed

  lemma RemovedTwice(s: State, machine: string, a: set<ListenKey>, b: set<ListenKey>)
    ensures Removed(Removed(s, machine, a), machine, b) == Removed(s, machine, a + b)
  {
    if machine in s.slots {
      var slot := s.slots[machine];
      assert Drop(Drop(slot.current, a), b) == Drop(slot.current, a + b);
      assert Sockets(slot.current.id, a + b) == Sockets(slot.current.id, a) + Sockets(slot.current.id, b);
    }
  }

  /** A live socket of a held manager is in that manager's table. */
  lemma LiveIsRegistered(s: State, machine: string, key: ListenKey)
    requires Inv(s) && machine in s.slots && Socket(s.slots[machine].current.id, key) in s.live
    ensures key in s.slots[machine].current.registered && Recorded(s.rules, machine, key)
  {
    var m :| m in s.slots && Accounted(s, Socket(s.slots[machine].current.id, key), m);
  }

  lemma NotRegisteredNotLive(s: State, machine: string, key: ListenKey)
    requires Inv(s) && machine in s.slots && key !in s.slots[machine].current.registered
    ensures Removed(s, machine, {key}) == s
  {
    var slot := s.slots[machine];
    var sock := Socket(slot.current.id, key);
    if sock in s.live {
      LiveIsRegistered(s, machine, key);
    }
    assert Drop(slot.current, {key}) == slot.current;
    assert s.slots[machine := slot] == s.slots;
    assert s.live - Sockets(slot.current.id, {key}) == s.live;
  }

  /** One of these suspensions is the stop of that key, under way. */
  ghost predicate CanBeDroppedAt(suspended: seq<State>, s: State, machine: string, key: ListenKey)
    requires machine in s.slots
  {
    exists k | 0 <= k < |suspended| :: suspended[k] == Stopping(s, machine, key, false) || suspended[k] == Stopping(s, machine, key, true)
  }

  /** The stop of an owner can be dropped at each rule still registered, with the earlier rules
      gone and the record whole. */
  ghost predicate EachStopCanBeDropped(suspended: seq<State>, s: State, a: Authority, n: nat) {
    a.machine in s.slots && n <= |a.rules| && forall i | 0 <= i < n &&
      a.rules[i].key in s.slots[a.machine].current.registered && a.rules[i].key !in KeysOf(a.rules[..i]) ::
      CanBeDroppedAt(suspended, Removed(s, a.machine, KeysOf(a.rules[..i])), a.machine, a.rules[i].key)
  }

  lemma DroppedStays(before: seq<State>, after: seq<State>, s: State, a: Authority, n: nat)
    requires before <= after && EachStopCanBeDropped(before, s, a, n) && n < |a.rules|
    requires a.rules[n].key in s.slots[a.machine].current.registered && a.rules[n].key !in KeysOf(a.rules[..n]) ==>
      CanBeDroppedAt(after, Removed(s, a.machine, KeysOf(a.rules[..n])), a.machine, a.rules[n].key)
    ensures EachStopCanBeDropped(after, s, a, n + 1)
  {
    forall i | 0 <= i < n + 1 && a.rules[i].key in s.slots[a.machine].current.registered && a.rules[i].key !in KeysOf(a.rules[..i])
      ensures CanBeDroppedAt(after, Removed(s, a.machine, KeysOf(a.rules[..i])), a.machine, a.rules[i].key)
    {
      if i < n {
        var t := Removed(s, a.machine, KeysOf(a.rules[..i]));
        var k :| 0 <= k < |before| && (before[k] == Stopping(t, a.machine, a.rules[i].key, false) || before[k] == Stopping(t, a.machine, a.rules[i].key, true));
        assert after[k] == before[k];
      }
    }
  }

  /** The owner's rules are on this machine, under this VM incarnation. */
  predicate Holds(s: State, owner: string, expected: (string, nat)) {
    && owner in s.rules && s.rules[owner].machine == expected.0
    && expected.0 in s.slots && s.slots[expected.0].incarnation == expected.1
  }

  /** Retire, adopt what is offered, retire again. */
  function AfterAdopt(s: State, machine: string, expected: nat, offered: Option<Manager>): State {
    var t := Retired(s, machine);
    if offered.None? then t else Retired(Adopted(t, machine, expected, offered.value), machine)
  }

  /** The owner has recorded rules, all of them asked for and each with a bound listener. */
  ghost predicate Serving(s: State, machine: string, owner: string, bindings: seq<Binding>, unspecified: nat) {
    && owner in s.rules && s.rules[owner].machine == machine && machine in s.slots
    && (forall r | r in s.rules[owner].rules :: Wanted(bindings, unspecified, r))
    && s.rules[owner].rules != []
    && (forall r | r in s.rules[owner].rules :: Socket(s.slots[machine].current.id, r.key) in s.live)
  }

  ghost predicate OthersKept(before: map<string, Authority>, after: map<string, Authority>, owner: string) {
    forall o | o != owner :: (o in before <==> o in after) && (o in before ==> after[o] == before[o])
  }

  /** Other owners keep their records, except those the machine's new listeners displaced. */
  ghost predicate ElsewhereKept(before: map<string, Authority>, after: map<string, Authority>, owner: string, machine: string) {
    forall o | o in before && o != owner && before[o].machine != machine :: o in after && after[o] == before[o]
  }

  lemma AdoptKeepsElsewhere(s: State, machine: string, expected: nat, offered: Option<Manager>, owner: string)
    ensures ElsewhereKept(s.rules, AfterAdopt(s, machine, expected, offered).rules, owner, machine)
  {
  }

  lemma KeptThrough(a: map<string, Authority>, b: map<string, Authority>, c: map<string, Authority>, owner: string, machine: string)
    requires ElsewhereKept(a, b, owner, machine) && OthersKept(b, c, owner)
    ensures ElsewhereKept(a, c, owner, machine)
  {
  }

  lemma AddedKeepsOthers(s: State, machine: string, owner: string, rule: Rule)
    requires machine in s.slots
    ensures OthersKept(s.rules, AddedRule(s, machine, owner, rule).rules, owner)
  {
  }

  /** Nothing is left in these slots. */
  ghost predicate Emptied(slots: map<string, Slot>, done: set<string>) {
    forall m | m in done :: m in slots && slots[m].retiring.None? && slots[m].current.registered == {}
  }

  lemma EmptiedGrows(before: map<string, Slot>, after: map<string, Slot>, done: set<string>, machine: string)
    requires Emptied(before, done) && machine in after && before.Keys == after.Keys
    requires after[machine].retiring.None? && after[machine].current.registered == {}
    requires forall m | m in after && m != machine :: after[m] == before[m]
    ensures Emptied(after, done + {machine})
  {
  }

  /** The rules added so far are planned ones, each with a bound listener. */
  ghost predicate Partial(s: State, machine: string, owner: string, planned: seq<Rule>, added: nat) {
    && (owner in s.rules ==>
          && s.rules[owner].machine == machine && machine in s.slots && s.rules[owner].rules != []
          && forall r | r in s.rules[owner].rules :: r in planned && Socket(s.slots[machine].current.id, r.key) in s.live)
    && (added > 0 <==> owner in s.rules)
  }

  /** The address is in the machine's table, or some listener has it. */
  ghost predicate Taken(s: State, machine: string, key: ListenKey) {
    machine in s.slots && (key in s.slots[machine].current.registered || exists sock | sock in s.live :: sock.key == key)
  }

  /** The first `n` planned addresses are taken, and no manager waits to be retired. */
  ghost predicate Covered(s: State, machine: string, planned: seq<Rule>, n: nat) {
    && n <= |planned| && (forall j | 0 <= j < n :: Taken(s, machine, planned[j].key))
    && (n > 0 ==> machine in s.slots && s.slots[machine].retiring.None?)
  }

  /** Every usable binding's address is taken: bound for this owner, or not free. */
  ghost predicate AllWantedCovered(s: State, machine: string, bindings: seq<Binding>, unspecified: nat) {
    forall r | Wanted(bindings, unspecified, r) :: Taken(s, machine, r.key)
  }

  lemma CoveredGrows(s: State, t: State, machine: string, planned: seq<Rule>, n: nat)
    requires Covered(s, machine, planned, n) && machine in t.slots && t.slots[machine].retiring.None? && n < |planned|
    requires machine in s.slots ==> s.slots[machine].current.registered <= t.slots[machine].current.registered
    requires machine in s.slots && s.slots[machine].retiring.None? ==> s.live <= t.live
    requires Taken(t, machine, planned[n].key)
    ensures Covered(t, machine, planned, n + 1)
  {
    forall j | 0 <= j < n + 1 ensures Taken(t, machine, planned[j].key) {
      if j < n {
        assert Taken(s, machine, planned[j].key);
      }
    }
  }

  lemma CoveredMeansAll(s: State, machine: string, planned: seq<Rule>, bindings: seq<Binding>, unspecified: nat)
    requires Covered(s, machine, planned, |planned|) && forall r :: r in planned <==> Wanted(bindings, unspecified, r)
    ensures AllWantedCovered(s, machine, bindings, unspecified)
  {
    forall r | Wanted(bindings, unspecified, r) ensures Taken(s, machine, r.key) {
      assert r in planned;
    }
  }

  /** The owner's rules are as before, with the new one if it was bound. */
  ghost predicate RulesKept(before: map<string, Authority>, after: map<string, Authority>, owner: string, rule: Rule, bound: bool) {
    && (owner in before ==> owner in after && after[owner].machine == before[owner].machine)
    && (owner in after ==> forall r | r in after[owner].rules :: (bound && r == rule) || (owner in before && r in before[owner].rules))
  }

  /** None of the owner's listeners has ended by itself. */
  ghost predicate NoneEnded(s: State, ended: set<Socket>, owner: string) {
    && owner in s.rules && s.rules[owner].machine in s.slots
    && forall r | r in s.rules[owner].rules :: Socket(s.slots[s.rules[owner].machine].current.id, r.key) !in ended
  }

  lemma NoneEndedGrows(s: State, was: set<Socket>, t: State, ended: set<Socket>, machine: string, owner: string, rule: Rule, bound: bool)
    requires owner in s.rules ==> NoneEnded(s, was, owner) && s.rules[owner].machine == machine
    requires ended <= was && RulesKept(s.rules, t.rules, owner, rule, bound)
    requires machine in t.slots && (machine in s.slots ==> t.slots[machine].current.id == s.slots[machine].current.id)
    requires owner in t.rules ==> t.rules[owner].machine == machine
    requires bound ==> Socket(t.slots[machine].current.id, rule.key) !in ended
    ensures owner in t.rules ==> NoneEnded(t, ended, owner)
  {
  }

  lemma PartialAfterRetire(s: State, machine: string, owner: string, planned: seq<Rule>, added: nat)
    requires Inv(s) && Partial(s, machine, owner, planned, added)
    ensures Partial(Retired(s, machine), machine, owner, planned, added)
  {
  }

  lemma PartialAfterAdd(s: State, machine: string, owner: string, planned: seq<Rule>, added: nat, rule: Rule)
    requires Partial(s, machine, owner, planned, added) && machine in s.slots && rule in planned
    ensures Partial(AddedRule(s, machine, owner, rule), machine, owner, planned, added + 1)
  {
  }

  lemma NothingRetired(s: State, machine: string)
    requires machine in s.slots && s.slots[machine].retiring.Some?
    ensures PartlyRetired(s, machine, {}) == s
  {
    var slot := s.slots[machine];
    assert Drop(slot.retiring.value, {}) == slot.retiring.value;
    assert s.slots[machine := slot] == s.slots;
    assert s.live - Sockets(slot.retiring.value.id, {}) == s.live;
  }

  datatype Exposure = Exposure(sandbox: string, sandboxPort: nat, hostPort: nat, guestPort: nat, protocol: string) {
    function Key(): string {
      PortKeys.Key(sandbox, sandboxPort, protocol)
    }

    /** Reachable from this host only. */
    function Loopback(): Binding {
      Binding("127.0.0.1", hostPort, guestPort, protocol)
    }
  }

  datatype Operation =
    | Start(machine: string, owner: string, bindings: seq<Binding>, expected: nat, unspecified: nat, available: bool, offered: Option<Manager>)
    | Stop(owner: string)
    | StopEverything
    | Expose(machine: string, e: Exposure, expected: nat, unspecified: nat, available: bool, offered: Option<Manager>)
    | Unexpose(sandbox: string, port: nat, protocol: string)
    | RemovePorts(sandbox: string)
    | Clear
    | Retire(machine: string, keep: Option<nat>)
    /** A listener task ends by itself. */
    | Exit(sock: Socket)

  /** The VMM only ever hands over a new, empty manager. */
  function Usable(s: State, offered: Option<Manager>): (r: Option<Manager>)
    ensures r.Some? ==> Fresh(s, r.value)
  {
    if offered.Some? && Fresh(s, offered.value) then offered else None
  }

  function KeysAt(portKeys: map<string, seq<string>>, sandbox: string): seq<string> {
    if sandbox in portKeys then portKeys[sandbox] else []
  }

  function Without(keys: seq<string>, key: string): (r: seq<string>)
    ensures key !in r
    ensures forall k | k != key :: k in r <==> k in keys
  {
    if keys == [] then []
    else if keys[0] == key then Without(keys[1..], key)
    else [keys[0]] + Without(keys[1..], key)
  }

  /** The indexed keys of a sandbox together with the recorded owners that parse as its. */
  function SandboxOwners(rules: map<string, Authority>, portKeys: map<string, seq<string>>, sandbox: string): set<string> {
    (set k | k in KeysAt(portKeys, sandbox)) + set k | k in rules && Owner(k) == Some(sandbox)
  }

  function AllSandboxOwners(rules: map<string, Authority>, portKeys: map<string, seq<string>>): set<string> {
    (set k | k in rules && Owner(k).Some?) + set id, k | id in portKeys && k in portKeys[id] :: k
  }

  /** Of the indexed keys, those that still own a listener. */
  function StillOwning(keys: seq<string>, rules: map<string, Authority>): (r: seq<string>)
    ensures forall k :: k in r <==> k in keys && k in rules && Owner(k).Some?
  {
    if keys == [] then []
    else (if keys[0] in rules && Owner(keys[0]).Some? then [keys[0]] else []) + StillOwning(keys[1..], rules)
  }

  /** The sandbox index without the keys that own no listener any more. */
  function Reindexed(portKeys: map<string, seq<string>>, rules: map<string, Authority>): (r: map<string, seq<string>>)
    ensures forall id, k :: k in KeysAt(r, id) <==> k in KeysAt(portKeys, id) && k in rules && Owner(k).Some?
  {
    map id | id in portKeys && StillOwning(portKeys[id], rules) != [] :: StillOwning(portKeys[id], rules)
  }

  /** The listeners of any VM but `keep` are gone, with the records of everybody on the machine. */
  function Cleared(s: State, machine: string, keep: Option<nat>): State {
    var t := Retired(s, machine);
    if machine !in s.slots || keep == Some(s.slots[machine].incarnation) then t
    else Withdrawn(Removed(t, machine, s.slots[machine].current.registered), machine)
  }

  class Runtime {
    var rules: map<string, Authority>
    var slots: map<string, Slot>
    /** The sockets that were bound and not stopped since, whatever the maps say. */
    var live: set<Socket>
    /** Those whose task has ended by itself since it was bound. */
    var ended: set<Socket>
    /** The owner keys of each sandbox's exposed ports. */
    var portKeys: map<string, seq<string>>
    /** The state at each await so far. */
    var suspended: seq<State>
    /** VM checks pass and free addresses bind. */
    const steady: bool
    /** No listener task ends by itself. */
    const lasting: bool

    function S(): State
      reads this
    {
      State(rules, slots, live)
    }

    ghost predicate Valid()
      reads this
    {
      Inv(S()) && forall k | 0 <= k < |suspended| :: Inv(suspended[k])
    }

    constructor (steady: bool, lasting: bool)
      ensures this.steady == steady && this.lasting == lasting && ended == {} && Valid() && S() == State(map[], map[], {}) && suspended == [] && portKeys == map[]
    {
      this.steady, this.lasting, ended := steady, lasting, {};
      rules, slots, live, portKeys, suspended := map[], map[], {}, map[], [];
    }

    /** A listener really at work. */
    predicate Listening(sock: Socket)
      reads this
    {
      sock in live && sock !in ended
    }

    /** The owner has a listener at work for one of its recorded rules. */
    predicate Served(owner: string)
      reads this
    {
      && owner in rules && rules[owner].machine in slots
      && exists r | r in rules[owner].rules :: Listening(Socket(slots[rules[owner].machine].current.id, r.key))
    }

    /** Every listener of the owner's has ended by itself. */
    predicate AllEnded(owner: string)
      reads this
      requires owner in rules && rules[owner].machine in slots
    {
      forall r | r in rules[owner].rules :: Socket(slots[rules[owner].machine].current.id, r.key) in ended
    }

    /** An await: where the operation may be dropped, leaving this very state, and where
        listener tasks may end. */
    method Suspend()
      requires Valid()
      modifies `suspended, `ended
      ensures Valid() && suspended == old(suspended) + [S()]
      ensures old(ended) <= ended <= old(ended) + live && (lasting ==> ended == old(ended))
    {
      suspended := suspended + [S()];
      var gone: set<Socket> := *;
      if !lasting {
        ended := ended + gone * live;
      }
    }

    /** `InboundListenerManager::remove_rule` on a machine's current manager: tell the task to
        stop, wait for it to drop its socket, then forget the entry. */
    method RemoveRule(machine: string, key: ListenKey)
      requires Valid() && machine in slots
      modifies `rules, `slots, `live, `ended, `suspended
      ensures Valid() && S() == Removed(old(S()), machine, {key})
      ensures old(suspended) <= suspended && (lasting ==> ended <= old(ended))
      ensures key in old(slots)[machine].current.registered ==> CanBeDroppedAt(suspended, old(S()), machine, key)
    {
      var start := S();
      if key !in slots[machine].current.registered {
        NotRegisteredNotLive(start, machine, key);
        return;
      }
      var closed: bool := *;
      var waiting := Stopping(start, machine, key, closed);
      StoppingKeepsInv(start, machine, key, closed);
      slots, live := waiting.slots, waiting.live;
      Suspend();
      assert suspended[|suspended| - 1] == waiting;
      var done := Removed(start, machine, {key});
      RemovedKeepsInv(start, machine, {key});
      slots, live := done.slots, done.live;
    }

    /** `stop_inbound_rules`. Refused exactly when the owner's record is for another machine
        or the machine's listeners belong to another VM incarnation. */
    method StopInboundRules(owner: string, expected: Option<(string, nat)>) returns (ok: bool)
      requires Valid()
      modifies `rules, `slots, `live, `ended, `suspended
      ensures Valid() && old(suspended) <= suspended && (lasting ==> ended <= old(ended))
      ensures ok <==> owner !in old(rules) || expected.None? || Holds(old(S()), owner, expected.value)
      ensures S() == if ok then Stopped(old(S()), owner) else old(S())
      ensures ok && owner in old(rules) && old(rules)[owner].machine in old(slots) ==>
        EachStopCanBeDropped(suspended, old(S()), old(rules)[owner], |old(rules)[owner].rules|)
    {
      Suspend();
      if owner !in rules {
        return true;
      }
      var a := rules[owner];
      if expected.Some? {
        var (machine, incarnation) := expected.value;
        if a.machine != machine || machine !in slots || slots[machine].incarnation != incarnation {
          return false;
        }
      }
      var start := S();
      StoppedKeepsInv(start, owner);
      if a.machine in slots {
        var i := 0;
        NothingRemoved(start, a.machine);
        while i < |a.rules|
          invariant 0 <= i <= |a.rules| && Valid() && old(suspended) <= suspended && (lasting ==> ended <= old(ended))
          invariant S() == Removed(start, a.machine, KeysOf(a.rules[..i]))
          invariant EachStopCanBeDropped(suspended, start, a, i)
        {
          ghost var before := suspended;
          RemoveRule(a.machine, a.rules[i].key);
          DroppedStays(before, suspended, start, a, i);
          RemovedTwice(start, a.machine, KeysOf(a.rules[..i]), {a.rules[i].key});
          assert KeysOf(a.rules[..i + 1]) == KeysOf(a.rules[..i]) + {a.rules[i].key} by {
            assert a.rules[..i + 1] == a.rules[..i] + [a.rules[i]];
            KeysSnoc(a.rules[..i], a.rules[i]);
          }
          i := i + 1;
        }
        assert a.rules[..i] == a.rules;
      }
      rules := rules - {owner};
      return true;
    }

    /** `Slot::finish_retiring`: stop what the replaced manager still holds. */
    method FinishRetiring(machine: string)
      requires Valid()
      modifies `rules, `slots, `live, `ended, `suspended
      ensures Valid() && old(suspended) <= suspended && (lasting ==> ended <= old(ended))
      ensures S() == Retired(old(S()), machine)
    {
      if machine !in slots || slots[machine].retiring.None? {
        return;
      }
      var start := S();
      var manager := slots[machine].retiring.value;
      var done: set<ListenKey> := {};
      NothingRetired(start, machine);
      while manager.registered - done != {}
        invariant done <= manager.registered && Valid() && old(suspended) <= suspended && (lasting ==> ended <= old(ended))
        invariant S() == PartlyRetired(start, machine, done)
        decreases manager.registered - done
      {
        var key :| key in manager.registered - done;
        var closed: bool := *;
        if closed {
          SpontaneousExitKeepsInv(S(), Socket(manager.id, key));
          live := live - {Socket(manager.id, key)};
        }
        Suspend();
        PartlyRetiredKeepsInv(start, machine, done + {key});
        var next := PartlyRetired(start, machine, done + {key});
        slots, live := next.slots, next.live;
        done := done + {key};
      }
      assert done == manager.registered;
      RetiredKeepsInv(start, machine);
      slots := slots[machine := slots[machine].(retiring := None)];
      assert slots == Retired(start, machine).slots;
    }

    /** `adopt_inbound_listener_manager`: `offered` is what the VMM hands over, if anything;
        `available` is false when the expected VM is gone. */
    method Adopt(machine: string, expected: nat, available: bool, offered: Option<Manager>) returns (ok: bool)
      requires Valid() && (offered.Some? ==> Fresh(S(), offered.value))
      modifies `rules, `slots, `live, `ended, `suspended
      ensures Valid() && old(suspended) <= suspended && (lasting ==> ended <= old(ended)) && ok == available
      ensures S() == AfterAdopt(old(S()), machine, expected, if available then offered else None)
    {
      Suspend();
      FinishRetiring(machine);
      if !available || offered.None? {
        return available;
      }
      var next := Adopted(S(), machine, expected, offered.value);
      AdoptedKeepsInv(S(), machine, expected, offered.value);
      rules, slots := next.rules, next.slots;
      FinishRetiring(machine);
      return true;
    }

    /** One planned rule: bind it and record it with no await in between. An address some
        listener has, of whatever manager, cannot be bound. */
    method AddRecorded(machine: string, owner: string, rule: Rule) returns (ok: bool)
      requires Valid() && machine in slots
      requires owner in rules ==> rules[owner].machine == machine
      modifies `rules, `slots, `live, `ended, `suspended
      ensures Valid() && old(suspended) <= suspended && (lasting ==> ended <= old(ended))
      ensures S() == if ok then AddedRule(old(S()), machine, owner, rule) else old(S())
      ensures ok ==> rule.key !in old(slots)[machine].current.registered
      ensures ok ==> Listening(Socket(slots[machine].current.id, rule.key))
      ensures steady ==> Taken(S(), machine, rule.key)
    {
      if rule.key in slots[machine].current.registered {
        return false;
      }
      Suspend();
      var bound := Attempt(steady);
      if sock :| sock in live && sock.key == rule.key && sock !in ended {
        bound := false;
      }
      if bound {
        AddedRuleKeepsInv(S(), machine, owner, rule);
        var next := AddedRule(S(), machine, owner, rule);
        rules, slots, live := next.rules, next.slots, next.live;
        ended := ended - {Socket(slots[machine].current.id, rule.key)};
      }
      return bound;
    }

    /** Whether the installed rules already are the planned ones, all listening. */
    method AlreadyServing(machine: string, owner: string, expected: nat, planned: seq<Rule>) returns (same: bool)
      requires Valid()
      requires Distinct(planned)
      ensures same ==>
        && Holds(S(), owner, (machine, expected))
        && (forall r :: r in rules[owner].rules <==> r in planned)
        && (forall r | r in rules[owner].rules :: Listening(Socket(slots[machine].current.id, r.key)) && r.key in slots[machine].current.registered)
    {
      if !Holds(S(), owner, (machine, expected)) {
        return false;
      }
      var installed := rules[owner].rules;
      var manager := slots[machine].current;
      same := |installed| == |planned|
        && (forall i | 0 <= i < |planned| :: planned[i] in installed)
        && (forall i | 0 <= i < |installed| ::
              installed[i].key in manager.registered && installed[i].key !in manager.stopping
              && Listening(Socket(manager.id, installed[i].key)));
      if same {
        SameElements(installed, planned);
      }
    }

    /** `start_port_forwarding_inbound`. */
    method StartInbound(machine: string, owner: string, bindings: seq<Binding>, expected: nat, unspecified: nat) returns (ok: bool)
      requires Valid() && bindings != []
      modifies `rules, `slots, `live, `ended, `suspended
      ensures Valid() && old(suspended) <= suspended && (lasting ==> ended <= old(ended))
      ensures ok ==> Serving(S(), machine, owner, bindings, unspecified)
      ensures ok && steady ==> AllWantedCovered(S(), machine, bindings, unspecified)
      ensures ok && lasting ==> forall r | r in rules[owner].rules :: Listening(Socket(slots[machine].current.id, r.key))
      ensures OthersKept(old(rules), rules, owner)
    {
      var planned := PlanRules(bindings, unspecified);
      Suspend();
      var current := Attempt(steady);
      if !current {
        return false;
      }
      var same := AlreadyServing(machine, owner, expected, planned);
      if same {
        forall r | Wanted(bindings, unspecified, r) ensures Taken(S(), machine, r.key) {
          assert r in planned;
        }
        return true;
      }
      var stopped := StopInboundRules(owner, Some((machine, expected)));
      if !stopped {
        return false;
      }
      current := Attempt(steady);
      if !current {
        return false;
      }
      ok := AddPlanned(machine, owner, planned, expected);
      if ok && steady {
        CoveredMeansAll(S(), machine, planned, bindings, unspecified);
      }
    }

    /** The checks before a rule is added: VM, readiness and admission, and nothing retiring in
        the slot. */
    method ReadyToAdd(machine: string, owner: string, ghost planned: seq<Rule>, ghost added: nat, expected: nat) returns (alive: bool)
      requires Valid() && Partial(S(), machine, owner, planned, added)
      modifies `rules, `slots, `live, `ended, `suspended
      ensures Valid() && old(suspended) <= suspended && (lasting ==> ended <= old(ended))
      ensures Partial(S(), machine, owner, planned, added) && rules == old(rules)
      ensures alive ==> machine in slots && slots[machine].retiring.None?
      ensures S() == old(S()) || S() == Retired(old(S()), machine)
    {
      Suspend();
      alive := Attempt(steady);
      if !alive || machine !in slots || slots[machine].incarnation != expected {
        return false;
      }
      PartialAfterRetire(S(), machine, owner, planned, added);
      FinishRetiring(machine);
      alive := Attempt(steady);
    }

    /** One turn of the binding loop: `alive` is false when the start has to be given up. */
    method AddOne(machine: string, owner: string, ghost planned: seq<Rule>, ghost added: nat, rule: Rule, expected: nat) returns (alive: bool, bound: bool)
      requires Valid() && rule in planned && Partial(S(), machine, owner, planned, added)
      modifies `rules, `slots, `live, `ended, `suspended
      ensures Valid() && old(suspended) <= suspended && (lasting ==> ended <= old(ended))
      ensures OthersKept(old(rules), rules, owner)
      ensures alive ==> Partial(S(), machine, owner, planned, if bound then added + 1 else added)
      ensures alive ==> machine in slots && slots[machine].retiring.None? && (steady ==> Taken(S(), machine, rule.key))
      ensures alive && bound ==> owner in rules && (lasting ==> Listening(Socket(slots[machine].current.id, rule.key)))
      ensures alive ==> RulesKept(old(rules), rules, owner, rule, bound)
      ensures machine in old(slots) && machine in slots && alive ==> slots[machine].current.id == old(slots)[machine].current.id
      ensures machine in old(slots) && old(slots)[machine].retiring.None? ==> old(live) <= live
      ensures machine in old(slots) && machine in slots ==> old(slots)[machine].current.registered <= slots[machine].current.registered
    {
      bound := false;
      alive := ReadyToAdd(machine, owner, planned, added, expected);
      if !alive {
        return;
      }
      PartialAfterAdd(S(), machine, owner, planned, added, rule);
      AddedKeepsOthers(S(), machine, owner, rule);
      assert rules == old(rules);
      bound := AddRecorded(machine, owner, rule);
      alive := Attempt(steady);
    }

    /** The binding loop: true when it ran to its end with at least one rule added. */
    method AddPlanned(machine: string, owner: string, planned: seq<Rule>, expected: nat) returns (ok: bool)
      requires Valid() && owner !in rules
      modifies `rules, `slots, `live, `ended, `suspended
      ensures Valid() && old(suspended) <= suspended && (lasting ==> ended <= old(ended))
      ensures OthersKept(old(rules), rules, owner)
      ensures ok ==> owner in rules && Partial(S(), machine, owner, planned, 1)
      ensures ok && steady ==> Covered(S(), machine, planned, |planned|)
      ensures ok && lasting ==> forall r | r in rules[owner].rules :: Listening(Socket(slots[machine].current.id, r.key))
    {
      var i, added := 0, 0;
      while i < |planned|
        invariant 0 <= i <= |planned| && Valid() && old(suspended) <= suspended && (lasting ==> ended <= old(ended))
        invariant OthersKept(old(rules), rules, owner)
        invariant Partial(S(), machine, owner, planned, added)
        invariant steady ==> Covered(S(), machine, planned, i)
        invariant lasting && owner in rules ==> NoneEnded(S(), ended, owner)
      {
        ghost var before, was := S(), ended;
        var alive, bound := AddOne(machine, owner, planned, added, planned[i], expected);
        if !alive {
          return false;
        }
        if steady {
          CoveredGrows(before, S(), machine, planned, i);
        }
        if lasting {
          NoneEndedGrows(before, was, S(), ended, machine, owner, planned[i], bound);
        }
        if bound {
          added := added + 1;
        }
        i := i + 1;
      }
      if added == 0 {
        var cleaned := StopInboundRules(owner, Some((machine, expected)));
        return false;
      }
      return true;
    }

    /** `start_port_forwarding_with_incarnation`. Success leaves recorded rules that were asked
        for, each bound by this call or found at work, so the owner has a listener at work where
        tasks last, and else exactly unless all of them have ended by themselves since; a failure
        whose cleanup succeeds leaves this owner nothing. */
    method StartPortForwarding(machine: string, owner: string, bindings: seq<Binding>, expected: nat, unspecified: nat,
                               available: bool, offered: Option<Manager>) returns (r: StartResult)
      requires Valid() && bindings != []
      requires offered.Some? ==> Fresh(S(), offered.value)
      modifies `rules, `slots, `live, `ended, `suspended
      ensures Valid() && old(suspended) <= suspended && (lasting ==> ended <= old(ended))
      ensures r == Started ==> Serving(S(), machine, owner, bindings, unspecified)
      ensures r == Started && lasting ==> Served(owner)
      ensures r == Started ==> (Served(owner) <==> !AllEnded(owner))
      ensures r == Started && steady ==> AllWantedCovered(S(), machine, bindings, unspecified)
      ensures r == Failed ==> owner !in rules
      ensures r == NotAdopted ==> S() == AfterAdopt(old(S()), machine, expected, None)
      ensures ElsewhereKept(old(rules), rules, owner, machine)
    {
      AdoptKeepsElsewhere(S(), machine, expected, if available then offered else None, owner);
      var adopted := Adopt(machine, expected, available, offered);
      if !adopted {
        return NotAdopted;
      }
      ghost var before := rules;
      var ok := StartInbound(machine, owner, bindings, expected, unspecified);
      KeptThrough(old(rules), before, rules, owner, machine);
      if ok {
        assert rules[owner].rules[0] in rules[owner].rules;
        return Started;
      }
      before := rules;
      var cleaned := StopInboundRules(owner, Some((machine, expected)));
      KeptThrough(old(rules), before, rules, owner, machine);
      return if cleaned then Failed else CleanupFailed;
    }

    /** `InboundListenerManager::stop_all` on a machine's current manager. */
    method StopCurrent(machine: string)
      requires Valid() && machine in slots
      modifies `rules, `slots, `live, `ended, `suspended
      ensures Valid() && old(suspended) <= suspended && (lasting ==> ended <= old(ended))
      ensures S() == Removed(old(S()), machine, old(slots)[machine].current.registered)
    {
      var start := S();
      var all := slots[machine].current.registered;
      var done: set<ListenKey> := {};
      NothingRemoved(start, machine);
      assert KeysOf([]) == {};
      while all - done != {}
        invariant done <= all && Valid() && old(suspended) <= suspended && (lasting ==> ended <= old(ended))
        invariant S() == Removed(start, machine, done)
        decreases all - done
      {
        var key :| key in all - done;
        RemoveRule(machine, key);
        RemovedTwice(start, machine, done, {key});
        done := done + {key};
      }
      assert done == all;
    }

    /** `Slot::stop_all`. */
    method StopSlot(machine: string)
      requires Valid() && machine in slots
      modifies `rules, `slots, `live, `ended, `suspended
      ensures Valid() && old(suspended) <= suspended && (lasting ==> ended <= old(ended)) && slots.Keys == old(slots).Keys
      ensures S() == Removed(Retired(old(S()), machine), machine, old(slots)[machine].current.registered)
      ensures slots[machine].retiring.None? && slots[machine].current.registered == {}
      ensures forall m | m in slots && m != machine :: slots[m] == old(slots)[m]
    {
      FinishRetiring(machine);
      StopCurrent(machine);
    }

    /** `stop_port_forwarding_all_raw`: the maps are cleared only once nothing is bound. */
    method StopAll()
      requires Valid()
      modifies `rules, `slots, `live, `ended, `suspended
      ensures Valid() && old(suspended) <= suspended && (lasting ==> ended <= old(ended))
      ensures S() == State(map[], map[], {})
    {
      Suspend();
      EmptyEverySlot();
      EmptySlotsHoldNothing(S());
      slots, rules := map[], map[];
    }

    method EmptyEverySlot()
      requires Valid()
      modifies `rules, `slots, `live, `ended, `suspended
      ensures Valid() && old(suspended) <= suspended && (lasting ==> ended <= old(ended))
      ensures Emptied(slots, slots.Keys)
    {
      var all, done := slots.Keys, {};
      while all - done != {}
        invariant Valid() && old(suspended) <= suspended && (lasting ==> ended <= old(ended)) && slots.Keys == all && done <= all
        invariant Emptied(slots, done)
        decreases all - done
      {
        var machine :| machine in all - done;
        ghost var before := slots;
        StopSlot(machine);
        EmptiedGrows(before, slots, done, machine);
        done := done + {machine};
      }
      NothingLeft(all, done);
    }

    /** `start_port_forwarding_raw`: no binding means the owner's listeners go. */
    method StartRaw(machine: string, owner: string, bindings: seq<Binding>, expected: nat, unspecified: nat,
                    available: bool, offered: Option<Manager>) returns (ok: bool)
      requires Valid() && (offered.Some? ==> Fresh(S(), offered.value))
      modifies `rules, `slots, `live, `ended, `suspended
      ensures Valid() && old(suspended) <= suspended && (lasting ==> ended <= old(ended))
      ensures bindings == [] ==> ok && S() == Stopped(old(S()), owner)
      ensures bindings != [] && ok ==> Serving(S(), machine, owner, bindings, unspecified)
    {
      if bindings == [] {
        var stopped := StopInboundRules(owner, None);
        return true;
      }
      var r := StartPortForwarding(machine, owner, bindings, expected, unspecified, available, offered);
      return r == Started;
    }

    /** `expose_sandbox_port`: a loopback listener under the exposure's own key; the index
        is written last. */
    method ExposeSandboxPort(machine: string, e: Exposure, expected: nat, unspecified: nat,
                             available: bool, offered: Option<Manager>) returns (ok: bool)
      requires Valid() && (offered.Some? ==> Fresh(S(), offered.value))
      modifies this
      ensures Valid() && old(suspended) <= suspended && (lasting ==> ended <= old(ended))
      ensures ok ==> Serving(S(), machine, e.Key(), [e.Loopback()], unspecified)
      ensures portKeys == if ok then old(portKeys)[e.sandbox := KeysAt(old(portKeys), e.sandbox) + [e.Key()]] else old(portKeys)
    {
      ok := StartRaw(machine, e.Key(), [e.Loopback()], expected, unspecified, available, offered);
      if ok {
        Suspend();
        portKeys := portKeys[e.sandbox := KeysAt(portKeys, e.sandbox) + [e.Key()]];
      }
    }

    /** `unexpose_sandbox_port`: exactly one exposure goes. */
    method UnexposeSandboxPort(sandbox: string, port: nat, protocol: string)
      requires Valid()
      modifies this
      ensures Valid() && old(suspended) <= suspended && (lasting ==> ended <= old(ended))
      ensures S() == Stopped(old(S()), Key(sandbox, port, protocol))
      ensures forall id | id in old(portKeys) && id != sandbox :: id in portKeys && portKeys[id] == old(portKeys)[id]
      ensures sandbox in portKeys ==> Key(sandbox, port, protocol) !in portKeys[sandbox]
    {
      var key := Key(sandbox, port, protocol);
      var stopped := StopInboundRules(key, None);
      Suspend();
      if sandbox in portKeys {
        portKeys := portKeys[sandbox := Without(portKeys[sandbox], key)];
      }
    }

    /** Stop each of these owners, in any order. */
    method StopEach(owners: set<string>)
      requires Valid()
      modifies `rules, `slots, `live, `ended, `suspended
      ensures Valid() && old(suspended) <= suspended && (lasting ==> ended <= old(ended))
      ensures S() == StoppedMany(old(S()), owners)
    {
      var start := S();
      var done: set<string> := {};
      StoppedNone(start);
      while owners - done != {}
        invariant Valid() && done <= owners && old(suspended) <= suspended && (lasting ==> ended <= old(ended))
        invariant S() == StoppedMany(start, done)
        decreases owners - done
      {
        var owner :| owner in owners - done;
        StoppedSnoc(start, done, owner);
        var stopped := StopInboundRules(owner, None);
        done := done + {owner};
      }
      NothingLeft(owners, done);
    }

    /** `remove_sandbox_ports`: the index and the parsed owner keys together find every
        listener of the sandbox, so one exposed but not yet indexed goes as well. */
    method RemoveSandboxPorts(sandbox: string)
      requires Valid()
      modifies this
      ensures Valid() && old(suspended) <= suspended && (lasting ==> ended <= old(ended))
      ensures S() == StoppedMany(old(S()), SandboxOwners(old(rules), old(portKeys), sandbox))
      ensures sandbox !in portKeys
      ensures sandbox != [] ==> forall port: nat, protocol | port <= U16_MAX && protocol != [] && ':' !in protocol ::
        Key(sandbox, port, protocol) !in rules
    {
      Suspend();
      StopEach(SandboxOwners(rules, portKeys, sandbox));
      portKeys := portKeys - {sandbox};
      forall port: nat, protocol | sandbox != [] && port <= U16_MAX && protocol != [] && ':' !in protocol
        ensures Key(sandbox, port, protocol) !in rules
      {
        RoundTripIff(sandbox, port, protocol);
      }
    }

    /** `clear_sandbox_host_state`, its listener half. */
    method ClearSandboxes()
      requires Valid()
      modifies this
      ensures Valid() && old(suspended) <= suspended && (lasting ==> ended <= old(ended)) && portKeys == map[]
      ensures S() == StoppedMany(old(S()), AllSandboxOwners(old(rules), old(portKeys)))
      ensures forall owner | owner in rules :: Owner(owner).None?
    {
      Suspend();
      StopEach(AllSandboxOwners(rules, portKeys));
      portKeys := map[];
    }

    /** The listeners of a machine go unless they are those of the VM to keep. */
    method WithdrawMachine(machine: string, keep: Option<nat>)
      requires Valid()
      modifies `rules, `slots, `live, `ended, `suspended
      ensures Valid() && old(suspended) <= suspended && (lasting ==> ended <= old(ended))
      ensures S() == Cleared(old(S()), machine, keep)
      ensures machine in old(slots) && keep != Some(old(slots)[machine].incarnation) ==>
        forall sock | sock in live :: sock.manager != old(slots)[machine].current.id
    {
      FinishRetiring(machine);
      if machine in slots && keep != Some(slots[machine].incarnation) {
        assert Retired(S(), machine) == S();
        StopSlot(machine);
        WithdrawnKeepsInv(S(), machine);
        var next := Withdrawn(S(), machine);
        slots, rules := next.slots, next.rules;
      }
    }

    /** `clear_container_incarnation`, its listener half: the machine's listeners and the records
        on it go unless they are those of the VM to keep, and the sandbox index keeps exactly the
        keys that still own a listener. */
    method ClearIncarnation(machine: string, keep: Option<nat>)
      requires Valid()
      modifies this
      ensures Valid() && old(suspended) <= suspended && (lasting ==> ended <= old(ended))
      ensures S() == Cleared(old(S()), machine, keep)
      ensures machine in old(slots) && keep != Some(old(slots)[machine].incarnation) ==>
        forall sock | sock in live :: sock.manager != old(slots)[machine].current.id
      ensures portKeys == Reindexed(old(portKeys), rules)
    {
      Suspend();
      WithdrawMachine(machine, keep);
      Suspend();
      portKeys := Reindexed(portKeys, rules);
      Suspend();
    }

    /** Any operation, run to its end or dropped at one of its awaits. */
    method Perform(op: Operation, dropped: Option<nat>)
      requires Valid()
      modifies this
      ensures Valid()
    {
      var index, from := portKeys, |suspended|;
      match op {
        case Start(machine, owner, bindings, expected, unspecified, available, offered) =>
          var ok := StartRaw(machine, owner, bindings, expected, unspecified, available, Usable(S(), offered));
        case Stop(owner) =>
          var ok := StopInboundRules(owner, None);
        case StopEverything =>
          StopAll();
        case Expose(machine, e, expected, unspecified, available, offered) =>
          var ok := ExposeSandboxPort(machine, e, expected, unspecified, available, Usable(S(), offered));
        case Unexpose(sandbox, port, protocol) =>
          UnexposeSandboxPort(sandbox, port, protocol);
        case RemovePorts(sandbox) =>
          RemoveSandboxPorts(sandbox);
        case Clear =>
          ClearSandboxes();
        case Retire(machine, keep) =>
          ClearIncarnation(machine, keep);
        case Exit(sock) =>
          if !lasting {
            ended := ended + {sock};
          }
      }
      if dropped.Some? && from + dropped.value < |suspended| {
        var left := suspended[from + dropped.value];
        rules, slots, live, portKeys := left.rules, left.slots, left.live, index;
      }
    }

    /** Every run of operations, each completed or cancelled anywhere. */
    method Run(ops: seq<(Operation, Option<nat>)>)
      requires Valid()
      modifies this
      ensures Valid()
    {
      for i := 0 to |ops|
        invariant Valid()
      {
        Perform(ops[i].0, ops[i].1);
      }
    }
  }

  lemma NothingRemoved(s: State, machine: string)
    ensures Removed(s, machine, KeysOf([])) == s
  {
    assert KeysOf([]) == {};
    if machine in s.slots {
      var slot := s.slots[machine];
      assert Drop(slot.current, {}) == slot.current;
      assert s.slots[machine := slot] == s.slots;
      assert s.live - Sockets(slot.current.id, {}) == s.live;
    }
  }

  lemma KeysSnoc(rules: seq<Rule>, r: Rule)
    ensures KeysOf(rules + [r]) == KeysOf(rules) + {r.key}
  {
    var all := rules + [r];
    assert forall i | 0 <= i < |rules| :: all[i] == rules[i];
    assert all[|rules|] == r;
    forall k ensures k in KeysOf(all) <==> k in KeysOf(rules) + {r.key} {
      if k in KeysOf(rules) {
        var i :| 0 <= i < |rules| && rules[i].key == k;
        assert all[i].key == k;
      }
    }
  }
}
