/** Name ownership and its revisions.

    Every change of the registry takes a new epoch, and a lookup reports the later of the
    owner's own revision and the instance authority's. Owners are numbered in the order of
    their identities. */
module DnsRegistry {
  import opened Wrappers

  /** The labels of a name, leftmost first. */
  type Domain = seq<string>

  type Owner = nat

  datatype Pattern = Exact(name: Domain) | Descendants(root: Domain)

  datatype Claim = Claim(pattern: Pattern, owner: Owner, authority: string, service: Option<(string, string)>)

  datatype Registration = Registration(claims: seq<Claim>, address: Option<nat>, revision: nat)

  datatype Target = Current | Other(port: nat) | Unavailable

  datatype Instance = Instance(root: Domain, target: Target)

  datatype Registry = Registry(entries: map<Owner, Registration>, instances: seq<Instance>, authorityRevision: nat, epoch: nat)

  datatype Op =
    | Replace(owner: Owner, claims: seq<Claim>, address: Option<nat>)
    | Remove(owner: Owner)
    | ReplaceInstances(instances: seq<Instance>)
    | Invalidate

  const EMPTY := Registry(map[], [], 0, 0)

  function Apply(r: Registry, op: Op): Registry {
    match op
    case Replace(owner, claims, address) =>
      if exists i | 0 <= i < |claims| :: claims[i].owner != owner then r
      else if owner in r.entries && r.entries[owner].claims == claims && r.entries[owner].address == address then r
      else r.(entries := r.entries[owner := Registration(claims, address, r.epoch + 1)], epoch := r.epoch + 1)
    case Remove(owner) =>
      if owner !in r.entries then r else r.(entries := r.entries - {owner}, epoch := r.epoch + 1)
    case ReplaceInstances(instances) =>
      if r.instances == instances then r
      else r.(instances := instances, authorityRevision := r.epoch + 1, epoch := r.epoch + 1)
    case Invalidate =>
      r.(instances := seq(|r.instances|, i requires 0 <= i < |r.instances| => r.instances[i].(target := Unavailable)),
         authorityRevision := r.epoch + 1, epoch := r.epoch + 1)
  }

  function ApplyAll(r: Registry, ops: seq<Op>): Registry {
    if ops == [] then r else Apply(ApplyAll(r, ops[..|ops| - 1]), ops[|ops| - 1])
  }

  /** Epochs are handed out once. */
  ghost predicate Valid(r: Registry) {
    && (forall o | o in r.entries :: 0 < r.entries[o].revision <= r.epoch && r.entries[o].revision != r.authorityRevision)
    && (forall o, p | o in r.entries && p in r.entries && o != p :: r.entries[o].revision != r.entries[p].revision)
    && r.authorityRevision <= r.epoch
  }

  lemma {:induction false} ValidAlways(r: Registry, ops: seq<Op>)
    requires Valid(r)
    ensures Valid(ApplyAll(r, ops)) && ApplyAll(r, ops).epoch >= r.epoch
  {
    if ops != [] {
      ValidAlways(r, ops[..|ops| - 1]);
    }
  }

  // ---- Lookup --------------------------------------------------------------------------

  predicate Below(name: Domain, root: Domain) {
    |root| < |name| && name[|name| - |root|..] == root
  }

  predicate Matches(p: Pattern, name: Domain) {
    match p
    case Exact(n) => n == name
    case Descendants(root) => Below(name, root)
  }

  /** An exact name outranks every wildcard, and a longer wildcard a shorter one. */
  function Rank(p: Pattern, name: Domain): nat {
    if p.Exact? then |name| else |p.root|
  }

  predicate Candidate(e: Registration, c: Claim, name: Domain) {
    e.address.Some? && c in e.claims && Matches(c.pattern, name)
  }

  predicate Top(entries: map<Owner, Registration>, name: Domain, o: Owner, c: Claim) {
    && o in entries && Candidate(entries[o], c, name)
    && forall p | p in entries :: forall d | d in entries[p].claims ::
         Candidate(entries[p], d, name) ==> Rank(d.pattern, name) <= Rank(c.pattern, name)
  }

  /** All the best-ranked claims are of one owner. */
  predicate OneOwnerOnly(entries: map<Owner, Registration>, name: Domain, o: Owner, c: Claim) {
    forall p | p in entries :: forall d | d in entries[p].claims ::
      Top(entries, name, p, d) ==> p == o && d.authority == c.authority
  }

  /** All the best-ranked claims are of replicas of one service. */
  predicate OneServiceOnly(entries: map<Owner, Registration>, name: Domain, c: Claim) {
    c.service.Some? && forall p | p in entries :: forall d | d in entries[p].claims ::
      Top(entries, name, p, d) ==> d.service == c.service && d.authority == c.authority
  }

  /** The owner and claim a lookup selects: the smallest owner at the best rank, provided
      that nothing at that rank disagrees about whose the name is. */
  predicate SelectsClaim(entries: map<Owner, Registration>, name: Domain, o: Owner, c: Claim) {
    && Top(entries, name, o, c)
    && (forall p | p in entries :: forall d | d in entries[p].claims :: Top(entries, name, p, d) ==> o <= p)
    && (OneOwnerOnly(entries, name, o, c) || OneServiceOnly(entries, name, c))
  }

  predicate Selects(entries: map<Owner, Registration>, name: Domain, o: Owner) {
    o in entries && exists c | c in entries[o].claims :: SelectsClaim(entries, name, o, c)
  }

  lemma OneOwner(entries: map<Owner, Registration>, name: Domain, o: Owner, p: Owner)
    requires Selects(entries, name, o) && Selects(entries, name, p)
    ensures o == p
  {
    var c :| c in entries[o].claims && SelectsClaim(entries, name, o, c);
    var d :| d in entries[p].claims && SelectsClaim(entries, name, p, d);
    assert Top(entries, name, o, c) && Top(entries, name, p, d);
  }

  /** The most specific instance namespace around a name serves it somewhere else. */
  predicate ServedElsewhere(instances: seq<Instance>, name: Domain) {
    exists i | 0 <= i < |instances| ::
      && Within(instances[i], name) && instances[i].target != Current
      && forall j | 0 <= j < |instances| && Within(instances[j], name) :: |instances[j].root| <= |instances[i].root|
  }

  predicate Within(i: Instance, name: Domain) {
    name == i.root || Below(name, i.root)
  }

  function Revision(r: Registry, o: Owner): nat
    requires o in r.entries
  {
    if r.entries[o].revision > r.authorityRevision then r.entries[o].revision else r.authorityRevision
  }

  /** The name is matched, for this owner and with this revision. */
  predicate Authorizes(r: Registry, name: Domain, o: Owner, revision: nat) {
    !ServedElsewhere(r.instances, name) && Selects(r.entries, name, o) && o in r.entries && revision == Revision(r, o)
  }

  // ---- What a revision pins ------------------------------------------------------------

  /** What still carries an epoch of an earlier registry is as it was in that registry. */
  lemma {:induction false} OldRevisionsAreUnchanged(r: Registry, ops: seq<Op>, o: Owner)
    requires Valid(r)
    ensures var u := ApplyAll(r, ops);
      && (o in u.entries && u.entries[o].revision <= r.epoch ==> o in r.entries && r.entries[o] == u.entries[o])
      && (u.authorityRevision <= r.epoch ==> u.authorityRevision == r.authorityRevision && u.instances == r.instances)
  {
    if ops != [] {
      OldRevisionsAreUnchanged(r, ops[..|ops| - 1], o);
      ValidAlways(r, ops[..|ops| - 1]);
    }
  }

  /** Where the owner's own revision is the reported one, seeing it again means that the
      same owner still has the very same registration, whatever happened in between. */
  lemma SameRevisionSameOwner(r: Registry, ops: seq<Op>, name: Domain, o: Owner, p: Owner, revision: nat)
    requires Valid(r) && r.entries.Keys >= {o} && r.entries[o].revision > r.authorityRevision
    requires Authorizes(r, name, o, revision) && Authorizes(ApplyAll(r, ops), name, p, revision)
    ensures p == o && ApplyAll(r, ops).entries[o] == r.entries[o]
  {
    var u := ApplyAll(r, ops);
    ValidAlways(r, ops);
    OldRevisionsAreUnchanged(r, ops, p);
  }

  /** Removing other owners never takes a name from the owner that has it. */
  lemma SelectionSurvivesRemovals(entries: map<Owner, Registration>, fewer: map<Owner, Registration>, name: Domain, o: Owner)
    requires Selects(entries, name, o) && o in fewer
    requires forall p | p in fewer :: p in entries && fewer[p] == entries[p]
    ensures Selects(fewer, name, o)
  {
    var c :| c in entries[o].claims && SelectsClaim(entries, name, o, c);
    assert Top(fewer, name, o, c);
    forall p, d | p in fewer && d in fewer[p].claims && Top(fewer, name, p, d) ensures Top(entries, name, p, d) {
      assert Candidate(fewer[o], c, name);
    }
    assert SelectsClaim(fewer, name, o, c);
  }

  function Kept(r: Registry, gone: set<Owner>): map<Owner, Registration> {
    r.entries - gone
  }

  /** Some other owner would take over after removals alone, and both owners' revisions are
      below the authority's. */
  ghost predicate TakeoverHidden(r: Registry, name: Domain, o: Owner) {
    exists gone: set<Owner>, p :: HiddenBy(r, name, o, gone, p)
  }

  ghost predicate HiddenBy(r: Registry, name: Domain, o: Owner, gone: set<Owner>, p: Owner) {
    && o in r.entries && p in r.entries && p != o
    && r.entries[o].revision <= r.authorityRevision && r.entries[p].revision <= r.authorityRevision
    && Selects(Kept(r, gone), name, p)
  }

  /** Removing a set of owners, one by one. */
  lemma {:induction false} RemoveAll(r: Registry, gone: set<Owner>) returns (ops: seq<Op>)
    ensures var u := ApplyAll(r, ops);
      u.entries == Kept(r, gone) && u.instances == r.instances && u.authorityRevision == r.authorityRevision
    decreases gone
  {
    if gone == {} {
      ops := [];
      assert Kept(r, gone) == r.entries;
    } else {
      var o :| o in gone;
      var rest := RemoveAll(r, gone - {o});
      ops := rest + [Remove(o)];
      assert ops[..|ops| - 1] == rest;
      assert Kept(r, gone) == Kept(r, gone - {o}) - {o};
    }
  }

  lemma TakeoverNeedsHiding(r: Registry, ops: seq<Op>, name: Domain, o: Owner, p: Owner, revision: nat)
    requires Valid(r) && Authorizes(r, name, o, revision) && Authorizes(ApplyAll(r, ops), name, p, revision) && p != o
    ensures TakeoverHidden(r, name, o)
  {
    var u := ApplyAll(r, ops);
    ValidAlways(r, ops);
    if r.entries[o].revision > r.authorityRevision {
      SameRevisionSameOwner(r, ops, name, o, p, revision);
      assert false;
    }
    forall q ensures (q in u.entries && u.entries[q].revision <= r.epoch ==> q in r.entries && r.entries[q] == u.entries[q])
      && (u.authorityRevision <= r.epoch ==> u.authorityRevision == r.authorityRevision)
    {
      OldRevisionsAreUnchanged(r, ops, q);
    }
    var gone := set q | q in r.entries && !(q in u.entries && u.entries[q] == r.entries[q]);
    assert p in Kept(r, gone);
    SelectionSurvivesRemovals(u.entries, Kept(r, gone), name, p);
    assert HiddenBy(r, name, o, gone, p);
  }

  /** A revision seen again can belong to another owner exactly when such a takeover is
      open at the first look. */
  lemma RevisionIdentifiesOwnerIff(r: Registry, name: Domain, o: Owner, revision: nat)
    requires Valid(r) && Authorizes(r, name, o, revision)
    ensures (forall ops, p | Authorizes(ApplyAll(r, ops), name, p, revision) :: p == o) <==> !TakeoverHidden(r, name, o)
  {
    if TakeoverHidden(r, name, o) {
      var gone, p :| HiddenBy(r, name, o, gone, p);
      var ops := RemoveAll(r, gone);
      assert Authorizes(ApplyAll(r, ops), name, p, revision);
    } else {
      forall ops, p | Authorizes(ApplyAll(r, ops), name, p, revision) ensures p == o {
        if p != o {
          TakeoverNeedsHiding(r, ops, name, o, p, revision);
        }
      }
    }
  }

  lemma ApplySnoc(r: Registry, ops: seq<Op>, op: Op)
    ensures ApplyAll(r, ops + [op]) == Apply(ApplyAll(r, ops), op)
  {
    assert (ops + [op])[..|ops|] == ops;
  }

  const WEB: Domain := ["web", "local"]

  /** One replica of a service, and its registration. */
  function Replica(o: Owner): Claim {
    Claim(Exact(WEB), o, "container", Some(("project", "web")))
  }

  function Registered(o: Owner, revision: nat): Registration {
    Registration([Replica(o)], Some(o), revision)
  }

  lemma LoneReplica(o: Owner, revision: nat)
    ensures Selects(map[o := Registered(o, revision)], WEB, o)
  {
    var entries := map[o := Registered(o, revision)];
    assert Replica(o) in [Replica(o)];
    assert SelectsClaim(entries, WEB, o, Replica(o));
  }

  lemma SmallerReplica(o: Owner, p: Owner, v: nat, w: nat)
    requires o < p
    ensures Selects(map[o := Registered(o, v), p := Registered(p, w)], WEB, o)
  {
    var entries := map[o := Registered(o, v), p := Registered(p, w)];
    assert Replica(o) in [Replica(o)];
    assert SelectsClaim(entries, WEB, o, Replica(o));
  }

  const TWO_REPLICAS := Registry(map[1 := Registered(1, 1), 2 := Registered(2, 2)], [], 3, 3)

  lemma TwoReplicasArise() returns (ops: seq<Op>)
    ensures ApplyAll(EMPTY, ops) == TWO_REPLICAS
  {
    var a, b := Replace(1, [Replica(1)], Some(1)), Replace(2, [Replica(2)], Some(2));
    var r1 := Registry(map[1 := Registered(1, 1)], [], 0, 1);
    var r2 := TWO_REPLICAS.(authorityRevision := 0, epoch := 2);
    ApplySnoc(EMPTY, [], a);
    assert ApplyAll(EMPTY, [] + [a]) == r1;
    ApplySnoc(EMPTY, [] + [a], b);
    assert Apply(r1, b) == r2;
    ApplySnoc(EMPTY, [] + [a] + [b], Invalidate);
    ops := [] + [a] + [b] + [Invalidate];
  }

  /** For instance: two replicas of one service register, then an authority lifetime begins.
      Removing the first replica hands the name to the second under the same revision. */
  lemma ReplicaTakesOverUnseen()
    ensures Authorizes(TWO_REPLICAS, WEB, 1, 3) && Authorizes(Apply(TWO_REPLICAS, Remove(1)), WEB, 2, 3)
    ensures exists ops :: ApplyAll(EMPTY, ops) == TWO_REPLICAS
  {
    var ops := TwoReplicasArise();
    SmallerReplica(1, 2, 1, 2);
    LoneReplica(2, 2);
    assert Apply(TWO_REPLICAS, Remove(1)).entries == map[2 := Registered(2, 2)];
  }
}
