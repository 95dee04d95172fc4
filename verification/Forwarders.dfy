/** Host port forwarding where there is no listener manager: one `PortForwarder` per owner,
    which binds all of its rules or fails. As with the listener managers, `live` is what is
    really bound and every await is a `Suspend`. */
module Forwarders {
  import opened Wrappers
  import opened Lists
  import Listeners
  import L = ListenerRuntime

  type ListenKey = Listeners.ListenKey

  type Socket = Listeners.Socket

  datatype Rule = Rule(key: ListenKey, guestIp: nat, guestPort: nat)

  datatype Forwarder = Forwarder(id: nat, rules: seq<Rule>, active: set<ListenKey>, running: bool)

  datatype State = State(forwarders: map<string, Forwarder>, live: set<Socket>)

  datatype StartResult =
    | Started
    /** The VM check failed before anything was touched. */
    | Refused
    | Failed

  function Keys(rules: seq<Rule>): set<ListenKey> {
    set i | 0 <= i < |rules| :: rules[i].key
  }

  /** The rule a binding asks for, unless its host address is unusable. */
  function RuleFor(b: L.Binding, guestIp: nat, unspecified: nat): Option<Rule> {
    match L.ResolveBindIp(b.hostIp, unspecified)
    case None => None
    case Some(ip) => Some(Rule(Listeners.ListenKey(ip, b.hostPort, L.ProtocolOf(b.protocol)), guestIp, b.containerPort))
  }

  ghost predicate Wanted(bindings: seq<L.Binding>, guestIp: nat, unspecified: nat, rule: Rule) {
    exists i | 0 <= i < |bindings| :: RuleFor(bindings[i], guestIp, unspecified) == Some(rule)
  }

  predicate Usable(bindings: seq<L.Binding>, unspecified: nat) {
    exists i | 0 <= i < |bindings| :: L.ResolveBindIp(bindings[i].hostIp, unspecified).Some?
  }

  ghost predicate Owns(f: Forwarder, sock: Socket) {
    f.id == sock.manager && sock.key in f.active
  }

  ghost predicate Inv(s: State) {
    && (forall sock | sock in s.live :: exists o | o in s.forwarders :: Owns(s.forwarders[o], sock))
    && (forall o | o in s.forwarders :: s.forwarders[o].active <= Keys(s.forwarders[o].rules) && Distinct(s.forwarders[o].rules))
    && (forall o, p | o in s.forwarders && p in s.forwarders && o != p :: s.forwarders[o].id != s.forwarders[p].id)
  }

  /** Names below `n` only are in use. */
  ghost predicate Named(s: State, n: nat) {
    forall o | o in s.forwarders :: s.forwarders[o].id < n
  }

  datatype Operation =
    | StartOp(owner: string, bindings: seq<L.Binding>, guestIp: nat, unspecified: nat)
    | StopOp(owner: string)
    | StopAllOp
    /** A listener task ends by itself. */
    | Exit(sock: Socket)

  /** The listeners bound for an owner and not stopped since. */
  function BoundFor(s: State, owner: string): set<ListenKey> {
    if owner !in s.forwarders then {}
    else set k | k in s.forwarders[owner].active && Listeners.Socket(s.forwarders[owner].id, k) in s.live
  }

  /** Some of an owner's listeners are gone, and its forwarder is no longer running. */
  function Shut(s: State, owner: string, keys: set<ListenKey>): State
    requires owner in s.forwarders
  {
    var f := s.forwarders[owner];
    State(s.forwarders[owner := f.(active := f.active - keys, running := false)],
          s.live - set k | k in keys :: Listeners.Socket(f.id, k))
  }

  lemma ShutTwice(s: State, owner: string, a: set<ListenKey>, b: set<ListenKey>)
    requires owner in s.forwarders
    ensures Shut(Shut(s, owner, a), owner, b) == Shut(s, owner, a + b)
  {
    var f := s.forwarders[owner];
    assert f.active - a - b == f.active - (a + b);
    assert (set k | k in a + b :: Listeners.Socket(f.id, k))
      == (set k | k in a :: Listeners.Socket(f.id, k)) + (set k | k in b :: Listeners.Socket(f.id, k));
  }

  /** Shutting one owner touches no other owner's listeners. */
  lemma ShutSparesOthers(s: State, owner: string, other: string, keys: set<ListenKey>)
    requires Inv(s) && owner in s.forwarders && other != owner
    ensures BoundFor(Shut(s, owner, keys), other) == BoundFor(s, other)
  {
  }

  /** Once everything is shut the forwarder holds nothing. */
  lemma ShutAll(s: State, owner: string)
    requires owner in s.forwarders
    ensures var f := s.forwarders[owner];
      Shut(s, owner, f.active).forwarders == s.forwarders[owner := f.(active := {}, running := false)]
  {
    assert s.forwarders[owner].active - s.forwarders[owner].active == {};
  }

  /** Shutting an owner's listeners and dropping its forwarder leaves everybody else's. */
  lemma DroppedSparesOthers(s: State, owner: string)
    requires Inv(s) && owner in s.forwarders
    ensures var t := Shut(s, owner, s.forwarders[owner].active);
      var u := t.(forwarders := t.forwarders - {owner});
      && u.forwarders == s.forwarders - {owner} && BoundFor(u, owner) == {}
      && forall o | o in u.forwarders :: BoundFor(u, o) == BoundFor(s, o)
  {
    var t := Shut(s, owner, s.forwarders[owner].active);
    forall o | o in s.forwarders && o != owner ensures BoundFor(t, o) == BoundFor(s, o) {
      ShutSparesOthers(s, owner, o, s.forwarders[owner].active);
    }
  }

  function Opened(s: State, owner: string, key: ListenKey): State
    requires owner in s.forwarders
  {
    var f := s.forwarders[owner];
    State(s.forwarders[owner := f.(active := f.active + {key}, running := false)], s.live + {Listeners.Socket(f.id, key)})
  }

  function SetRunning(s: State, owner: string, running: bool): State
    requires owner in s.forwarders
  {
    s.(forwarders := s.forwarders[owner := s.forwarders[owner].(running := running)])
  }

  lemma ExitKeepsInv(s: State, sock: Socket)
    requires Inv(s)
    ensures Inv(s.(live := s.live - {sock}))
  {
  }

  lemma ShutKeepsInv(s: State, owner: string, keys: set<ListenKey>)
    requires Inv(s) && owner in s.forwarders
    ensures Inv(Shut(s, owner, keys))
  {
    var t := Shut(s, owner, keys);
    forall sock | sock in t.live ensures exists o | o in t.forwarders :: Owns(t.forwarders[o], sock) {
      var o :| o in s.forwarders && Owns(s.forwarders[o], sock);
      assert Owns(t.forwarders[o], sock);
    }
  }

  lemma OpenedKeepsInv(s: State, owner: string, key: ListenKey)
    requires Inv(s) && owner in s.forwarders && key in Keys(s.forwarders[owner].rules)
    ensures Inv(Opened(s, owner, key))
  {
    var t := Opened(s, owner, key);
    forall sock | sock in t.live ensures exists o | o in t.forwarders :: Owns(t.forwarders[o], sock) {
      if sock == Listeners.Socket(s.forwarders[owner].id, key) {
        assert Owns(t.forwarders[owner], sock);
      } else {
        var o :| o in s.forwarders && Owns(s.forwarders[o], sock);
        assert Owns(t.forwarders[o], sock);
      }
    }
  }

  lemma SetRunningKeepsInv(s: State, owner: string, running: bool)
    requires Inv(s) && owner in s.forwarders
    ensures Inv(SetRunning(s, owner, running))
  {
    var t := SetRunning(s, owner, running);
    forall sock | sock in t.live ensures exists o | o in t.forwarders :: Owns(t.forwarders[o], sock) {
      var o :| o in s.forwarders && Owns(s.forwarders[o], sock);
      assert Owns(t.forwarders[o], sock);
    }
  }

  /** A forwarder with nothing bound may go, and one with nothing bound may take its place. */
  lemma ReplacedKeepsInv(s: State, owner: string, f: Forwarder)
    requires Inv(s) && (owner in s.forwarders ==> s.forwarders[owner].active == {})
    requires f.active == {} && Distinct(f.rules)
    requires forall o | o in s.forwarders :: s.forwarders[o].id != f.id
    ensures Inv(s.(forwarders := s.forwarders - {owner}))
    ensures Inv(s.(forwarders := s.forwarders[owner := f]))
  {
    var t, u := s.(forwarders := s.forwarders - {owner}), s.(forwarders := s.forwarders[owner := f]);
    forall sock | sock in s.live
      ensures exists o | o in t.forwarders :: Owns(t.forwarders[o], sock)
      ensures exists o | o in u.forwarders :: Owns(u.forwarders[o], sock)
    {
      var o :| o in s.forwarders && Owns(s.forwarders[o], sock);
      assert Owns(t.forwarders[o], sock) && Owns(u.forwarders[o], sock);
    }
  }

  ghost predicate OthersKept(before: map<string, Forwarder>, after: map<string, Forwarder>, owner: string) {
    forall o | o != owner :: (o in before <==> o in after) && (o in before ==> after[o] == before[o])
  }

  /** Every rule of the owner's forwarder listens. */
  predicate FullyBound(s: State, owner: string) {
    owner in s.forwarders && BoundFor(s, owner) == Keys(s.forwarders[owner].rules)
  }

  lemma RunningServes(s: State, owner: string, running: bool)
    requires owner in s.forwarders
    ensures BoundFor(SetRunning(s, owner, running), owner) == BoundFor(s, owner)
    ensures FullyBound(SetRunning(s, owner, running), owner) == FullyBound(s, owner)
  {
  }

  lemma {:induction false} KeysSize(rules: seq<Rule>)
    ensures |Keys(rules)| <= |rules|
  {
    if rules != [] {
      var last, rest := rules[|rules| - 1], rules[..|rules| - 1];
      KeysSize(rest);
      KeysSnoc(rest, last);
      assert rules == rest + [last];
    }
  }

  lemma KeysSnoc(rules: seq<Rule>, r: Rule)
    ensures Keys(rules + [r]) == Keys(rules) + {r.key}
  {
    var all := rules + [r];
    forall k ensures k in Keys(all) <==> k in Keys(rules) + {r.key} {
      if k in Keys(rules) {
        var i :| 0 <= i < |rules| && rules[i].key == k;
        assert all[i].key == k;
      }
      if k == r.key {
        assert all[|rules|].key == k;
      }
    }
  }

  /** As many bound as there are rules: every rule is bound. */
  lemma AllBound(f: Forwarder)
    requires f.active <= Keys(f.rules) && |f.active| == |f.rules|
    ensures f.active == Keys(f.rules)
  {
    KeysSize(f.rules);
    var missing := Keys(f.rules) - f.active;
    assert Keys(f.rules) == f.active + missing;
    assert |Keys(f.rules)| == |f.active| + |missing|;
    assert missing == {};
  }

  lemma SameKeys(a: seq<Rule>, b: seq<Rule>)
    requires Elements(a) == Elements(b)
    ensures Keys(a) == Keys(b)
  {
    forall k | k in Keys(a) ensures k in Keys(b) {
      var i :| 0 <= i < |a| && a[i].key == k;
      assert a[i] in Elements(a);
      var j :| 0 <= j < |b| && b[j] == a[i];
    }
    forall k | k in Keys(b) ensures k in Keys(a) {
      var i :| 0 <= i < |b| && b[i].key == k;
      assert b[i] in Elements(b);
      var j :| 0 <= j < |a| && a[j] == b[i];
    }
  }

  /** A start asks for no listener at all exactly when none of its addresses is usable. */
  lemma NothingPlannedIff(bindings: seq<L.Binding>, guestIp: nat, unspecified: nat, planned: seq<Rule>)
    requires forall r :: r in planned <==> Wanted(bindings, guestIp, unspecified, r)
    ensures Keys(planned) == {} <==> !Usable(bindings, unspecified)
  {
    if planned != [] {
      assert planned[0] in planned && planned[0].key in Keys(planned);
    }
    if Usable(bindings, unspecified) {
      var i :| 0 <= i < |bindings| && L.ResolveBindIp(bindings[i].hostIp, unspecified).Some?;
      var r := RuleFor(bindings[i], guestIp, unspecified).value;
      assert Wanted(bindings, guestIp, unspecified, r);
    }
  }

  class Fallback {
    var forwarders: map<string, Forwarder>
    /** The sockets that were bound and not stopped since, whatever the map says. */
    var live: set<Socket>
    /** Those whose task has ended by itself since it was bound. */
    var ended: set<Socket>
    /** The state at each await so far. */
    var suspended: seq<State>
    /** Names the next forwarder. */
    var nextId: nat
    /** Whether VM checks pass and addresses bind: the environment when nothing goes wrong. */
    const steady: bool
    /** No listener task ends by itself. */
    const lasting: bool

    function S(): State
      reads this
    {
      State(forwarders, live)
    }

    ghost predicate Valid()
      reads this
    {
      && Inv(S()) && Named(S(), nextId)
      && (forall k | 0 <= k < |suspended| :: Inv(suspended[k]) && Named(suspended[k], nextId))
    }

    constructor (steady: bool, lasting: bool)
      ensures Valid() && S() == State(map[], {}) && ended == {} && suspended == [] && this.steady == steady && this.lasting == lasting
    {
      this.steady, this.lasting := steady, lasting;
      forwarders, live, ended, suspended, nextId := map[], {}, {}, [], 0;
    }

    /** Every listener bound for the owner is at work. */
    predicate AllAtWork(owner: string)
      reads this
      requires owner in forwarders
    {
      forall k | k in forwarders[owner].active :: Listeners.Socket(forwarders[owner].id, k) !in ended
    }

    /** An await: where the operation may be dropped, leaving this very state, and where
        listener tasks may end. */
    method Suspend()
      requires Valid()
      modifies `suspended, `ended
      ensures Valid() && suspended == old(suspended) + [S()]
      ensures old(ended) <= ended <= old(ended) + live && (lasting ==> ended == old(ended))
    {
      suspended := suspended + [S()];
      var gone: set<Socket> := *;
      if !lasting {
        ended := ended + gone * live;
      }
    }

    /** One owner's listener task is told to stop, joined, and only then forgotten. */
    method StopOne(owner: string, key: ListenKey)
      requires Valid() && owner in forwarders
      modifies `forwarders, `live, `ended, `suspended
      ensures Valid() && old(suspended) <= suspended && (lasting ==> ended <= old(ended))
      ensures S() == Shut(old(S()), owner, {key})
    {
      var start := S();
      var sock := Listeners.Socket(forwarders[owner].id, key);
      var closed: bool := *;
      SetRunningKeepsInv(S(), owner, false);
      forwarders := SetRunning(S(), owner, false).forwarders;
      if closed {
        ExitKeepsInv(S(), sock);
        live := live - {sock};
      }
      Suspend();
      ShutKeepsInv(start, owner, {key});
      forwarders, live := Shut(start, owner, {key}).forwarders, Shut(start, owner, {key}).live;
    }

    /** `PortForwarder::stop`. */
    method Stop(owner: string)
      requires Valid() && owner in forwarders
      modifies `forwarders, `live, `ended, `suspended
      ensures Valid() && old(suspended) <= suspended && (lasting ==> ended <= old(ended))
      ensures S() == Shut(old(S()), owner, old(forwarders)[owner].active)
    {
      var start, all, done := S(), forwarders[owner].active, {};
      Suspend();
      ShutKeepsInv(start, owner, {});
      forwarders, live := Shut(start, owner, {}).forwarders, Shut(start, owner, {}).live;
      while all - done != {}
        invariant Valid() && old(suspended) <= suspended && (lasting ==> ended <= old(ended)) && done <= all
        invariant S() == Shut(start, owner, done)
        decreases all - done
      {
        var key :| key in all - done;
        StopOne(owner, key);
        ShutTwice(start, owner, done, {key});
        done := done + {key};
      }
      assert done == all;
    }

    /** `PortForwarder::start_forwarder`. */
    method StartOne(owner: string, rule: Rule) returns (ok: bool)
      requires Valid() && owner in forwarders && rule.key in Keys(forwarders[owner].rules)
      modifies `forwarders, `live, `ended, `suspended
      ensures Valid() && old(suspended) <= suspended && (lasting ==> ended <= old(ended))
      ensures ok ==> rule.key !in old(forwarders)[owner].active && S() == Opened(old(S()), owner, rule.key)
      ensures ok ==> Listeners.Socket(forwarders[owner].id, rule.key) !in ended
      ensures !ok ==> S() == old(S())
    {
      Suspend();
      if rule.key in forwarders[owner].active {
        return false;
      }
      Suspend();
      ok := Attempt(steady);
      if ok {
        OpenedKeepsInv(S(), owner, rule.key);
        forwarders, live := Opened(S(), owner, rule.key).forwarders, Opened(S(), owner, rule.key).live;
        ended := ended - {Listeners.Socket(forwarders[owner].id, rule.key)};
      }
    }

    /** Bind every rule in turn, giving up at the first that fails. */
    method StartEach(owner: string) returns (ok: bool)
      requires Valid() && owner in forwarders && forwarders[owner].active == {}
      modifies `forwarders, `live, `ended, `suspended
      ensures Valid() && old(suspended) <= suspended && (lasting ==> ended <= old(ended)) && owner in forwarders
      ensures OthersKept(old(forwarders), forwarders, owner)
      ensures forwarders[owner].rules == old(forwarders)[owner].rules && forwarders[owner].id == old(forwarders)[owner].id
      ensures ok ==> FullyBound(S(), owner) && (lasting ==> AllAtWork(owner))
      ensures old(forwarders)[owner].rules == [] ==> ok
    {
      var rules := forwarders[owner].rules;
      var i := 0;
      while i < |rules|
        invariant 0 <= i <= |rules| && Valid() && old(suspended) <= suspended && owner in forwarders && (lasting ==> ended <= old(ended))
        invariant OthersKept(old(forwarders), forwarders, owner)
        invariant forwarders[owner].rules == rules && forwarders[owner].id == old(forwarders)[owner].id
        invariant forwarders[owner].active == Keys(rules[..i])
        invariant forall k | k in forwarders[owner].active :: Listeners.Socket(forwarders[owner].id, k) in live
        invariant lasting ==> AllAtWork(owner)
      {
        KeysSnoc(rules[..i], rules[i]);
        assert rules[..i + 1] == rules[..i] + [rules[i]];
        ok := StartOne(owner, rules[i]);
        if !ok {
          return;
        }
        i := i + 1;
      }
      assert rules[..i] == rules;
      return true;
    }

    /** Running, with as many tasks alive as there are rules. */
    method AlreadyRunning(owner: string) returns (running: bool)
      requires Valid() && owner in forwarders
      ensures running ==> FullyBound(S(), owner) && AllAtWork(owner)
    {
      var f := forwarders[owner];
      running := f.running && |f.active| == |f.rules| && forall k | k in f.active :: Listeners.Socket(f.id, k) in live && Listeners.Socket(f.id, k) !in ended;
      if running {
        AllBound(f);
        assert BoundFor(S(), owner) == f.active;
      }
    }

    /** `PortForwarder::start`: success means that every rule is bound. */
    method StartForwarder(owner: string) returns (ok: bool)
      requires Valid() && owner in forwarders
      modifies `forwarders, `live, `ended, `suspended
      ensures Valid() && old(suspended) <= suspended && (lasting ==> ended <= old(ended)) && owner in forwarders
      ensures OthersKept(old(forwarders), forwarders, owner)
      ensures forwarders[owner].rules == old(forwarders)[owner].rules && forwarders[owner].id == old(forwarders)[owner].id
      ensures ok ==> FullyBound(S(), owner) && (lasting ==> AllAtWork(owner))
      ensures old(forwarders)[owner].rules == [] ==> ok
    {
      ok := AlreadyRunning(owner);
      if ok {
        return;
      }
      ShutAll(S(), owner);
      Stop(owner);
      ok := StartEach(owner);
      if ok {
        MarkRunning(owner);
      }
    }

    method MarkRunning(owner: string)
      requires Valid() && owner in forwarders
      modifies `forwarders
      ensures Valid() && S() == SetRunning(old(S()), owner, true) && OthersKept(old(forwarders), forwarders, owner)
      ensures FullyBound(S(), owner) == old(FullyBound(S(), owner)) && AllAtWork(owner) == old(AllAtWork(owner))
    {
      SetRunningKeepsInv(S(), owner, true);
      RunningServes(S(), owner, true);
      forwarders := SetRunning(S(), owner, true).forwarders;
    }

    /** The rules of a new forwarder: one per distinct usable binding. */
    static method PlanRules(bindings: seq<L.Binding>, guestIp: nat, unspecified: nat) returns (planned: seq<Rule>)
      ensures forall r :: r in planned <==> Wanted(bindings, guestIp, unspecified, r)
      ensures Distinct(planned)
    {
      planned := [];
      var n := 0;
      while n < |bindings|
        invariant 0 <= n <= |bindings| && Distinct(planned)
        invariant forall r | r in planned :: Wanted(bindings, guestIp, unspecified, r)
        invariant forall i | 0 <= i < n :: RuleFor(bindings[i], guestIp, unspecified).Some? ==> RuleFor(bindings[i], guestIp, unspecified).value in planned
      {
        var rule := RuleFor(bindings[n], guestIp, unspecified);
        if rule.Some? && rule.value !in planned {
          assert Wanted(bindings, guestIp, unspecified, rule.value);
          planned := planned + [rule.value];
        }
        n := n + 1;
      }
    }

    /** Put the planned forwarder in place unless the installed one has the same rules. */
    method Install(owner: string, planned: seq<Rule>) returns (ok: bool)
      requires Valid() && Distinct(planned)
      modifies `forwarders, `live, `ended, `suspended, `nextId
      ensures Valid() && old(suspended) <= suspended && (lasting ==> ended <= old(ended))
      ensures OthersKept(old(forwarders), forwarders, owner)
      ensures ok ==> owner in forwarders && Elements(forwarders[owner].rules) == Elements(planned)
      ensures !ok ==> BoundFor(S(), owner) == {} && !steady
    {
      if owner in forwarders {
        var installed := forwarders[owner].rules;
        if |installed| == |planned| && forall i | 0 <= i < |planned| :: planned[i] in installed {
          SameElements(installed, planned);
          return true;
        }
        Stop(owner);
        ok := Attempt(steady);
        if !ok {
          return;
        }
      }
      var f := Forwarder(nextId, planned, {}, false);
      ReplacedKeepsInv(S(), owner, f);
      forwarders, nextId := forwarders[owner := f], nextId + 1;
      return true;
    }

    /** `start_port_forwarding_fallback`. Success binds exactly the usable bindings, all of
        them: at least one listener precisely when one address is usable. */
    method Start(owner: string, bindings: seq<L.Binding>, guestIp: nat, unspecified: nat) returns (r: StartResult)
      requires Valid()
      modifies `forwarders, `live, `ended, `suspended, `nextId
      ensures Valid() && old(suspended) <= suspended && (lasting ==> ended <= old(ended))
      ensures r == Started ==> FullyBound(S(), owner) && (lasting ==> AllAtWork(owner))
      ensures r == Started ==> forall rule :: rule in forwarders[owner].rules <==> Wanted(bindings, guestIp, unspecified, rule)
      ensures r == Started ==> (BoundFor(S(), owner) != {} <==> Usable(bindings, unspecified))
      ensures r == Refused ==> S() == old(S())
      ensures r == Failed ==> BoundFor(S(), owner) == {}
      ensures steady && !Usable(bindings, unspecified) ==> r == Started && BoundFor(S(), owner) == {}
    {
      var planned := PlanRules(bindings, guestIp, unspecified);
      NothingPlannedIff(bindings, guestIp, unspecified, planned);
      Suspend();
      var ok := Attempt(steady);
      if !ok {
        return Refused;
      }
      ok := Install(owner, planned);
      if !ok {
        return Failed;
      }
      SameKeys(forwarders[owner].rules, planned);
      assert forall rule :: rule in forwarders[owner].rules <==> rule in Elements(planned);
      assert Keys(planned) == {} ==> forwarders[owner].rules == [] by {
        if forwarders[owner].rules != [] {
          assert forwarders[owner].rules[0].key in Keys(forwarders[owner].rules);
        }
      }
      ok := StartForwarder(owner);
      var vm := Attempt(steady);
      if !ok || !vm {
        StopOwner(owner);
        return Failed;
      }
      return Started;
    }

    /** `stop_port_forwarding_raw` on this platform. */
    method StopOwner(owner: string)
      requires Valid()
      modifies `forwarders, `live, `ended, `suspended
      ensures Valid() && old(suspended) <= suspended && (lasting ==> ended <= old(ended))
      ensures forwarders == old(forwarders) - {owner} && BoundFor(S(), owner) == {}
      ensures forall o | o in forwarders :: BoundFor(S(), o) == old(BoundFor(S(), o))
    {
      Suspend();
      if owner in forwarders {
        DroppedSparesOthers(S(), owner);
        ShutAll(S(), owner);
        Stop(owner);
        ReplacedKeepsInv(S(), owner, Forwarder(nextId, [], {}, false));
        forwarders := forwarders - {owner};
      }
    }

    /** `stop_port_forwarding_all_raw` on this platform: nothing stays bound. */
    method StopAll()
      requires Valid()
      modifies `forwarders, `live, `ended, `suspended
      ensures Valid() && old(suspended) <= suspended && (lasting ==> ended <= old(ended))
      ensures S() == State(map[], {})
    {
      while forwarders != map[]
        invariant Valid() && old(suspended) <= suspended && (lasting ==> ended <= old(ended))
        decreases forwarders.Keys
      {
        assert forwarders.Keys != {};
        var owner :| owner in forwarders;
        StopOwner(owner);
      }
      assert live == {};
    }

    /** Any operation, run to its end or dropped at one of its awaits. */
    method Perform(op: Operation, dropped: Option<nat>)
      requires Valid()
      modifies this
      ensures Valid()
    {
      var from := |suspended|;
      match op {
        case StartOp(owner, bindings, guestIp, unspecified) =>
          var r := Start(owner, bindings, guestIp, unspecified);
        case StopOp(owner) =>
          StopOwner(owner);
        case StopAllOp =>
          StopAll();
        case Exit(sock) =>
          if !lasting {
            ended := ended + {sock};
          }
      }
      if dropped.Some? && from + dropped.value < |suspended| {
        var left := suspended[from + dropped.value];
        forwarders, live := left.forwarders, left.live;
      }
    }

    /** Every run of operations, each completed or cancelled anywhere: at every await every
        listener belongs to a forwarder some owner can be asked to stop. */
    method Run(ops: seq<(Operation, Option<nat>)>)
      requires Valid()
      modifies this
      ensures Valid()
    {
      for i := 0 to |ops|
        invariant Valid()
      {
        Perform(ops[i].0, ops[i].1);
      }
    }
  }
}
