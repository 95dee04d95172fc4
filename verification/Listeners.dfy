/** Ownership of host port listeners on macOS.

    `live` is the set of sockets that are really bound, kept apart from the two maps that
    are supposed to account for them: `rules` (owner key to its rules) and `slots` (machine
    to its listener managers). Every await of the source is a `Suspend`, which records the
    state a cancelled operation would leave behind. */
module Listeners {
  import opened Wrappers

  datatype Protocol = Tcp | Udp

  /** What a listener binds. */
  datatype ListenKey = ListenKey(ip: nat, port: nat, protocol: Protocol)

  datatype Rule = Rule(key: ListenKey, containerPort: nat)

  /** An `InboundListenerManager`: its table and the entries already told to stop. */
  datatype Manager = Manager(id: nat, registered: set<ListenKey>, stopping: set<ListenKey>)

  datatype Slot = Slot(current: Manager, incarnation: nat, retiring: Option<Manager>)

  /** One container's, sandbox port's or Service port's rules and the machine they are on. */
  datatype Authority = Authority(machine: string, rules: seq<Rule>)

  datatype Socket = Socket(manager: nat, key: ListenKey)

  datatype State = State(rules: map<string, Authority>, slots: map<string, Slot>, live: set<Socket>)

  predicate Names(rules: seq<Rule>, key: ListenKey) {
    exists i | 0 <= i < |rules| :: rules[i].key == key
  }

  predicate RecordedBy(a: Authority, machine: string, key: ListenKey) {
    a.machine == machine && Names(a.rules, key)
  }

  ghost predicate Recorded(rules: map<string, Authority>, machine: string, key: ListenKey) {
    exists owner | owner in rules :: RecordedBy(rules[owner], machine, key)
  }

  /** A bound socket belongs to a slot's current manager and is recorded under some owner,
      or to the retiring manager its slot still has to stop. */
  ghost predicate Accounted(s: State, sock: Socket, machine: string)
    requires machine in s.slots
  {
    var slot := s.slots[machine];
    || (sock.manager == slot.current.id && sock.key in slot.current.registered && Recorded(s.rules, machine, sock.key))
    || (slot.retiring.Some? && sock.manager == slot.retiring.value.id && sock.key in slot.retiring.value.registered)
  }

  ghost predicate EveryLiveListenerHasAnOwner(s: State) {
    forall sock | sock in s.live :: exists machine | machine in s.slots :: Accounted(s, sock, machine)
  }

  /** No manager is held twice. */
  ghost predicate ManagersDistinct(slots: map<string, Slot>) {
    && (forall m | m in slots && slots[m].retiring.Some? :: slots[m].retiring.value.id != slots[m].current.id)
    && (forall m, n | m in slots && n in slots && m != n ::
          && slots[m].current.id != slots[n].current.id
          && (slots[n].retiring.Some? ==> slots[m].current.id != slots[n].retiring.value.id)
          && (slots[m].retiring.Some? && slots[n].retiring.Some? ==> slots[m].retiring.value.id != slots[n].retiring.value.id))
  }

  ghost predicate Tidy(m: Manager) {
    m.stopping <= m.registered
  }

  ghost predicate Inv(s: State) {
    && EveryLiveListenerHasAnOwner(s)
    && (forall m | m in s.slots :: Tidy(s.slots[m].current) && (s.slots[m].retiring.Some? ==> Tidy(s.slots[m].retiring.value)))
    && ManagersDistinct(s.slots)
    && (forall owner | owner in s.rules :: s.rules[owner].rules != [])
  }

  // ---- Single changes ------------------------------------------------------------------

  function Drop(m: Manager, keys: set<ListenKey>): Manager {
    m.(registered := m.registered - keys, stopping := m.stopping - keys)
  }

  function Sockets(id: nat, keys: set<ListenKey>): set<Socket> {
    set k | k in keys :: Socket(id, k)
  }

  /** The listeners `keys` of a machine's current manager are gone. */
  function Removed(s: State, machine: string, keys: set<ListenKey>): State {
    if machine !in s.slots then s
    else
      var slot := s.slots[machine];
      s.(slots := s.slots[machine := slot.(current := Drop(slot.current, keys))],
         live := s.live - Sockets(slot.current.id, keys))
  }

  /** One entry of the current manager told to stop; its socket may close at any moment. */
  function Stopping(s: State, machine: string, key: ListenKey, closed: bool): State
    requires machine in s.slots
  {
    var slot := s.slots[machine];
    s.(slots := s.slots[machine := slot.(current := slot.current.(stopping := slot.current.stopping + {key}))],
       live := if closed then s.live - {Socket(slot.current.id, key)} else s.live)
  }

  lemma AccountedMoves(s: State, t: State, sock: Socket, machine: string)
    requires machine in s.slots && machine in t.slots && Accounted(s, sock, machine)
    requires s.rules == t.rules
    requires t.slots[machine].current.id == s.slots[machine].current.id
    requires sock.manager == s.slots[machine].current.id && sock.key in s.slots[machine].current.registered ==>
      sock.key in t.slots[machine].current.registered
    requires t.slots[machine].retiring == s.slots[machine].retiring
    ensures Accounted(t, sock, machine)
  {
  }

  lemma RemovedKeepsInv(s: State, machine: string, keys: set<ListenKey>)
    requires Inv(s)
    ensures Inv(Removed(s, machine, keys))
  {
    var t := Removed(s, machine, keys);
    forall sock | sock in t.live ensures exists m | m in t.slots :: Accounted(t, sock, m) {
      var m :| m in s.slots && Accounted(s, sock, m);
      AccountedMoves(s, t, sock, m);
    }
  }

  lemma StoppingKeepsInv(s: State, machine: string, key: ListenKey, closed: bool)
    requires Inv(s) && machine in s.slots && key in s.slots[machine].current.registered
    ensures Inv(Stopping(s, machine, key, closed))
  {
    var t := Stopping(s, machine, key, closed);
    forall sock | sock in t.live ensures exists m | m in t.slots :: Accounted(t, sock, m) {
      var m :| m in s.slots && Accounted(s, sock, m);
      AccountedMoves(s, t, sock, m);
    }
  }

  /** A listener task may also end by itself. */
  lemma SpontaneousExitKeepsInv(s: State, sock: Socket)
    requires Inv(s)
    ensures Inv(s.(live := s.live - {sock}))
  {
    var t := s.(live := s.live - {sock});
    forall x | x in t.live ensures exists m | m in t.slots :: Accounted(t, x, m) {
      var m :| m in s.slots && Accounted(s, x, m);
      AccountedMoves(s, t, x, m);
    }
  }

  function KeysOf(rules: seq<Rule>): (r: set<ListenKey>)
    ensures forall k :: k in r <==> Names(rules, k)
  {
    set i | 0 <= i < |rules| :: rules[i].key
  }

  /** `stop_inbound_rules` without an incarnation check: every listener of one owner is
      stopped, its record goes, and nothing else changes. */
  function Stopped(s: State, owner: string): State {
    if owner !in s.rules then s
    else
      var a := s.rules[owner];
      var t := Removed(s, a.machine, KeysOf(a.rules));
      t.(rules := t.rules - {owner})
  }

  lemma StoppedKeepsInv(s: State, owner: string)
    requires Inv(s)
    ensures Inv(Stopped(s, owner))
  {
    if owner in s.rules {
      var a := s.rules[owner];
      var keys := KeysOf(a.rules);
      var u := Removed(s, a.machine, keys);
      var t := Stopped(s, owner);
      RemovedKeepsInv(s, a.machine, keys);
      forall sock | sock in t.live ensures exists m | m in t.slots :: Accounted(t, sock, m) {
        var m :| m in u.slots && Accounted(u, sock, m);
        if sock.manager == u.slots[m].current.id && sock.key in u.slots[m].current.registered && Recorded(u.rules, m, sock.key) {
          var o :| o in u.rules && RecordedBy(u.rules[o], m, sock.key);
          assert m == a.machine ==> sock.key !in keys;
          assert o != owner;
          assert o in t.rules && RecordedBy(t.rules[o], m, sock.key);
        }
        assert Accounted(t, sock, m);
      }
    }
  }

  /** Stopping one owner leaves another owner's live listeners alone exactly when the two
      records on that machine have no bound address in common. */
  lemma StopSparesOthersIff(s: State, owner: string, other: string)
    requires Inv(s) && owner in s.rules && other in s.rules && owner != other
    requires s.rules[owner].machine in s.slots && s.rules[other].machine in s.slots
    requires forall key | Names(s.rules[other].rules, key) :: Socket(s.slots[s.rules[other].machine].current.id, key) in s.live
    ensures (forall key | Names(s.rules[other].rules, key) ::
               Socket(s.slots[s.rules[other].machine].current.id, key) in Stopped(s, owner).live)
       <==> !(s.rules[owner].machine == s.rules[other].machine
              && exists key :: Names(s.rules[owner].rules, key) && Names(s.rules[other].rules, key))
  {
    var a, b := s.rules[owner], s.rules[other];
    var t := Stopped(s, owner);
    assert t.live == s.live - Sockets(s.slots[a.machine].current.id, KeysOf(a.rules));
    forall key | Names(b.rules, key)
      ensures Socket(s.slots[b.machine].current.id, key) in t.live <==> !(a.machine == b.machine && Names(a.rules, key))
    {
      if a.machine != b.machine {
        assert s.slots[a.machine].current.id != s.slots[b.machine].current.id;
      }
    }
  }

  /** A rule added and recorded in the same breath. */
  function AddedRule(s: State, machine: string, owner: string, rule: Rule): State
    requires machine in s.slots
  {
    var slot := s.slots[machine];
    var a := if owner in s.rules then s.rules[owner] else Authority(machine, []);
    State(s.rules[owner := a.(rules := a.rules + [rule])],
          s.slots[machine := slot.(current := slot.current.(registered := slot.current.registered + {rule.key}))],
          s.live + {Socket(slot.current.id, rule.key)})
  }

  lemma RecordedStays(rules: map<string, Authority>, rules': map<string, Authority>, machine: string, key: ListenKey)
    requires Recorded(rules, machine, key)
    requires forall o | o in rules :: o in rules' && rules'[o].machine == rules[o].machine && rules[o].rules <= rules'[o].rules
    ensures Recorded(rules', machine, key)
  {
    var o :| o in rules && RecordedBy(rules[o], machine, key);
    var i :| 0 <= i < |rules[o].rules| && rules[o].rules[i].key == key;
    assert rules'[o].rules[i].key == key;
  }

  lemma AddedAccounted(s: State, machine: string, owner: string, rule: Rule, sock: Socket, m: string)
    requires machine in s.slots && m in s.slots && Accounted(s, sock, m)
    requires owner in s.rules ==> s.rules[owner].machine == machine
    ensures Accounted(AddedRule(s, machine, owner, rule), sock, m)
  {
    if Recorded(s.rules, m, sock.key) {
      RecordedStays(s.rules, AddedRule(s, machine, owner, rule).rules, m, sock.key);
    }
  }

  lemma AddedRuleKeepsInv(s: State, machine: string, owner: string, rule: Rule)
    requires Inv(s) && machine in s.slots
    requires owner in s.rules ==> s.rules[owner].machine == machine
    ensures Inv(AddedRule(s, machine, owner, rule))
  {
    var t := AddedRule(s, machine, owner, rule);
    assert EveryLiveListenerHasAnOwner(t) by {
      forall sock | sock in t.live ensures exists m | m in t.slots :: Accounted(t, sock, m) {
        if sock == Socket(s.slots[machine].current.id, rule.key) {
          var a := t.rules[owner];
          assert a.rules[|a.rules| - 1] == rule;
          assert RecordedBy(a, machine, rule.key);
          assert Accounted(t, sock, machine);
        } else {
          var m :| m in s.slots && Accounted(s, sock, m);
          AddedAccounted(s, machine, owner, rule, sock, m);
        }
      }
    }
  }

  /** A stop that was dropped at a later rule's await has closed the earlier one, whose record
      stays. When another owner then binds that address, finishing the first owner's stop
      closes the second owner's listener, although its record stays. */
  lemma StaleRecordStopsAnotherOwner(s: State, owner: string, other: string, rule: Rule, next: ListenKey, closed: bool)
    requires Inv(s) && owner in s.rules && other !in s.rules && owner != other
    requires Names(s.rules[owner].rules, rule.key) && s.rules[owner].machine in s.slots
    requires next != rule.key && next in s.slots[s.rules[owner].machine].current.registered
    ensures var machine := s.rules[owner].machine;
      var cancelled := Stopping(Removed(s, machine, {rule.key}), machine, next, closed);
      var rebound := AddedRule(cancelled, machine, other, rule);
      var sock := Socket(s.slots[machine].current.id, rule.key);
      && Inv(cancelled) && rule.key !in cancelled.slots[machine].current.registered
      && Inv(rebound) && sock in rebound.live
      && other in Stopped(rebound, owner).rules && sock !in Stopped(rebound, owner).live
  {
    var machine := s.rules[owner].machine;
    RemovedKeepsInv(s, machine, {rule.key});
    StoppingKeepsInv(Removed(s, machine, {rule.key}), machine, next, closed);
    var cancelled := Stopping(Removed(s, machine, {rule.key}), machine, next, closed);
    AddedRuleKeepsInv(cancelled, machine, other, rule);
  }

  // ---- Adopting the listener manager of a new VM incarnation ---------------------------

  /** A new manager takes the slot; the old one keeps its place until it has been stopped. */
  function Adopted(s: State, machine: string, incarnation: nat, manager: Manager): State {
    if machine !in s.slots then s.(slots := s.slots[machine := Slot(manager, incarnation, None)])
    else
      var slot := s.slots[machine];
      s.(slots := s.slots[machine := Slot(manager, incarnation, Some(slot.current))],
         rules := map o | o in s.rules && s.rules[o].machine != machine :: s.rules[o])
  }

  /** The retiring manager of a slot has stopped everything it held. */
  function Retired(s: State, machine: string): State {
    if machine !in s.slots || s.slots[machine].retiring.None? then s
    else
      var slot := s.slots[machine];
      s.(slots := s.slots[machine := slot.(retiring := None)],
         live := s.live - Sockets(slot.retiring.value.id, slot.retiring.value.registered))
  }

  /** A manager straight from the VMM: no listener, and not one we hold already. */
  predicate Fresh(s: State, manager: Manager) {
    && manager.registered == {} && manager.stopping == {}
    && (forall m | m in s.slots :: s.slots[m].current.id != manager.id)
    && (forall m | m in s.slots && s.slots[m].retiring.Some? :: s.slots[m].retiring.value.id != manager.id)
  }

  lemma AdoptedKeepsInv(s: State, machine: string, incarnation: nat, manager: Manager)
    requires Inv(s) && Fresh(s, manager)
    requires machine in s.slots ==> s.slots[machine].retiring.None?
    ensures Inv(Adopted(s, machine, incarnation, manager))
  {
    var t := Adopted(s, machine, incarnation, manager);
    forall sock | sock in t.live ensures exists m | m in t.slots :: Accounted(t, sock, m) {
      var m :| m in s.slots && Accounted(s, sock, m);
      if m != machine && Recorded(s.rules, m, sock.key) {
        var o :| o in s.rules && RecordedBy(s.rules[o], m, sock.key);
        assert o in t.rules && RecordedBy(t.rules[o], m, sock.key);
      }
      assert Accounted(t, sock, m);
    }
  }

  lemma RetiredKeepsInv(s: State, machine: string)
    requires Inv(s)
    ensures Inv(Retired(s, machine))
  {
    var t := Retired(s, machine);
    forall sock | sock in t.live ensures exists m | m in t.slots :: Accounted(t, sock, m) {
      var m :| m in s.slots && Accounted(s, sock, m);
      assert Accounted(t, sock, m);
    }
  }

  /** Part of a retiring manager's listeners already stopped. */
  function PartlyRetired(s: State, machine: string, keys: set<ListenKey>): State
    requires machine in s.slots && s.slots[machine].retiring.Some?
  {
    var slot := s.slots[machine];
    s.(slots := s.slots[machine := slot.(retiring := Some(Drop(slot.retiring.value, keys)))],
       live := s.live - Sockets(slot.retiring.value.id, keys))
  }

  lemma PartlyRetiredKeepsInv(s: State, machine: string, keys: set<ListenKey>)
    requires Inv(s) && machine in s.slots && s.slots[machine].retiring.Some?
    ensures Inv(PartlyRetired(s, machine, keys))
  {
    var t := PartlyRetired(s, machine, keys);
    forall sock | sock in t.live ensures exists m | m in t.slots :: Accounted(t, sock, m) {
      var m :| m in s.slots && Accounted(s, sock, m);
      assert Accounted(t, sock, m);
    }
  }

  /** A machine's slot and the records on it are gone. */
  function Withdrawn(s: State, machine: string): State {
    s.(slots := s.slots - {machine}, rules := map o | o in s.rules && s.rules[o].machine != machine :: s.rules[o])
  }

  /** A slot that holds nothing can go, together with the records on its machine. */
  lemma WithdrawnKeepsInv(s: State, machine: string)
    requires Inv(s) && machine in s.slots && s.slots[machine].retiring.None? && s.slots[machine].current.registered == {}
    ensures Inv(Withdrawn(s, machine))
    ensures forall sock | sock in s.live :: sock.manager != s.slots[machine].current.id
  {
    var t := Withdrawn(s, machine);
    forall sock | sock in s.live
      ensures sock.manager != s.slots[machine].current.id
      ensures exists m | m in t.slots :: Accounted(t, sock, m)
    {
      var m :| m in s.slots && Accounted(s, sock, m);
      assert m != machine && m in t.slots;
      if Recorded(s.rules, m, sock.key) {
        var o :| o in s.rules && RecordedBy(s.rules[o], m, sock.key);
        assert o in t.rules && RecordedBy(t.rules[o], m, sock.key);
      }
      assert Accounted(t, sock, m);
    }
  }

  // ---- Stopping several owners ---------------------------------------------------------

  function KeysFor(rules: map<string, Authority>, owners: set<string>, machine: string): set<ListenKey> {
    set o, k | o in owners && o in rules && rules[o].machine == machine && k in KeysOf(rules[o].rules) :: k
  }

  ghost predicate StopsSocket(s: State, owners: set<string>, sock: Socket) {
    exists m | m in s.slots :: sock.manager == s.slots[m].current.id && sock.key in KeysFor(s.rules, owners, m)
  }

  /** Every listener the owners recorded is closed and nothing else is. */
  ghost function StoppedMany(s: State, owners: set<string>): State {
    State(s.rules - owners,
          map m | m in s.slots :: s.slots[m].(current := Drop(s.slots[m].current, KeysFor(s.rules, owners, m))),
          set sock | sock in s.live && !StopsSocket(s, owners, sock))
  }

  lemma StoppedNone(s: State)
    ensures StoppedMany(s, {}) == s
  {
    forall m | m in s.slots ensures StoppedMany(s, {}).slots[m] == s.slots[m] {
      assert KeysFor(s.rules, {}, m) == {};
    }
  }

  lemma KeysForSnoc(rules: map<string, Authority>, owners: set<string>, o: string, machine: string)
    requires o !in owners
    ensures KeysFor(rules, owners + {o}, machine) ==
      KeysFor(rules, owners, machine) + if o in rules && rules[o].machine == machine then KeysOf(rules[o].rules) else {}
  {
  }

  /** Stopping one more owner. */
  lemma StoppedSnoc(s: State, owners: set<string>, o: string)
    requires o !in owners
    ensures Stopped(StoppedMany(s, owners), o) == StoppedMany(s, owners + {o})
  {
    var u, w := Stopped(StoppedMany(s, owners), o), StoppedMany(s, owners + {o});
    assert u.slots.Keys == w.slots.Keys;
    forall m | m in s.slots ensures u.slots[m] == w.slots[m] {
      StoppedSlot(s, owners, o, m);
    }
    forall sock | sock in s.live ensures sock in u.live <==> sock in w.live {
      StoppedSocket(s, owners, o, sock);
    }
    assert u.live == w.live;
    assert u.rules == w.rules;
  }

  lemma StoppedSlot(s: State, owners: set<string>, o: string, m: string)
    requires o !in owners && m in s.slots
    ensures Stopped(StoppedMany(s, owners), o).slots[m] == StoppedMany(s, owners + {o}).slots[m]
  {
    KeysForSnoc(s.rules, owners, o, m);
    var c, a := s.slots[m].current, KeysFor(s.rules, owners, m);
    if o in s.rules && s.rules[o].machine == m {
      var b := KeysOf(s.rules[o].rules);
      assert Drop(Drop(c, a), b) == Drop(c, a + b);
    }
  }

  lemma StoppedSocket(s: State, owners: set<string>, o: string, sock: Socket)
    requires o !in owners && sock in s.live
    ensures sock in Stopped(StoppedMany(s, owners), o).live <==> sock in StoppedMany(s, owners + {o}).live
  {
    forall m | m in s.slots
      ensures KeysFor(s.rules, owners + {o}, m) ==
        KeysFor(s.rules, owners, m) + if o in s.rules && s.rules[o].machine == m then KeysOf(s.rules[o].rules) else {}
    {
      KeysForSnoc(s.rules, owners, o, m);
    }
    if StopsSocket(s, owners, sock) {
      var m :| m in s.slots && sock.manager == s.slots[m].current.id && sock.key in KeysFor(s.rules, owners, m);
      assert sock.key in KeysFor(s.rules, owners + {o}, m);
    }
  }

  /** Slots that hold nothing leave no socket bound. */
  lemma EmptySlotsHoldNothing(s: State)
    requires Inv(s)
    requires forall m | m in s.slots :: s.slots[m].retiring.None? && s.slots[m].current.registered == {}
    ensures s.live == {}
  {
  }
}
