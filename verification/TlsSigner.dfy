/** One certificate signing session: authorize, sign off the main thread, authorize again,
    and only then send. The registry, the signing authority, the VM and the shutdown token
    may change at every await. */
module TlsSigner {
  import opened Wrappers
  import opened DnsRegistry

  /** A certificate, by the name it is for and the authority that signed it. */
  datatype Certificate = Certificate(name: Domain, authority: nat)

  /** The world as a session reads it at one moment. */
  datatype View = View(registry: Registry, authority: Option<nat>, vm: Option<nat>, machine: nat)

  /** Whose names a guest may have signed, by name, owner, registration and the machine's
      record: containers' for the System VM, the index entry for the apex, a machine's own
      exact name at its bridge address. */
  type Rule = (Domain, Owner, Registration, nat) -> bool

  predicate Grants(v: View, guest: nat, mine: Rule, name: Domain, revision: nat) {
    && v.vm == Some(guest)
    && exists o | o in v.registry.entries :: Authorizes(v.registry, name, o, revision) && mine(name, o, v.registry.entries[o], v.machine)
  }

  lemma {:induction false} ApplyConcat(r: Registry, a: seq<Op>, b: seq<Op>)
    ensures ApplyAll(ApplyAll(r, a), b) == ApplyAll(r, a + b)
  {
    if b == [] {
      assert a + b == a;
    } else {
      ApplyConcat(r, a, b[..|b| - 1]);
      assert (a + b)[..|a + b| - 1] == a + b[..|b| - 1];
    }
  }

  /** `later` is what some changes make of `earlier`. */
  ghost predicate Follows(earlier: Registry, later: Registry) {
    exists ops :: later == ApplyAll(earlier, ops)
  }

  lemma FollowsBy(r: Registry, ops: seq<Op>)
    ensures Follows(r, ApplyAll(r, ops))
  {
  }

  lemma FollowsIsTransitive(a: Registry, b: Registry, c: Registry)
    requires Follows(a, b) && Follows(b, c)
    ensures Follows(a, c)
  {
    var x :| b == ApplyAll(a, x);
    var y :| c == ApplyAll(b, y);
    ApplyConcat(a, x, y);
  }

  lemma OneRevision(v: View, guest: nat, mine: Rule, name: Domain, a: nat, b: nat)
    requires Grants(v, guest, mine, name, a) && Grants(v, guest, mine, name, b)
    ensures a == b
  {
    var o :| o in v.registry.entries && Authorizes(v.registry, name, o, a);
    var p :| p in v.registry.entries && Authorizes(v.registry, name, p, b);
    OneOwner(v.registry.entries, name, o, p);
  }

  /** Where the owner's own revision counts, two looks that grant the same revision see the
      same owner with the same registration. */
  lemma SameGrantSameOwner(a: View, b: View, guest: nat, mine: Rule, name: Domain, o: Owner, revision: nat)
    requires Valid(a.registry) && Follows(a.registry, b.registry)
    requires Authorizes(a.registry, name, o, revision) && a.registry.entries[o].revision > a.registry.authorityRevision
    requires Grants(b, guest, mine, name, revision)
    ensures o in b.registry.entries && b.registry.entries[o] == a.registry.entries[o] && Authorizes(b.registry, name, o, revision)
  {
    var ops :| b.registry == ApplyAll(a.registry, ops);
    var p :| p in b.registry.entries && Authorizes(b.registry, name, p, revision);
    SameRevisionSameOwner(a.registry, ops, name, o, p, revision);
  }

  class World {
    var registry: Registry
    var authority: Option<nat>
    var vm: Option<nat>
    /** The machine's record. */
    var machine: nat
    var shutdown: bool
    const mine: Rule
    /** Nothing changes meanwhile. */
    const steady: bool

    constructor (registry: Registry, authority: Option<nat>, vm: Option<nat>, machine: nat, shutdown: bool, mine: Rule, steady: bool)
      ensures Look() == View(registry, authority, vm, machine) && this.shutdown == shutdown && this.mine == mine && this.steady == steady
    {
      this.steady, this.mine, this.machine := steady, mine, machine;
      this.registry, this.authority, this.vm, this.shutdown := registry, authority, vm, shutdown;
    }

    function Look(): View
      reads this
    {
      View(registry, authority, vm, machine)
    }

    /** Any DNS changes, any change of authority or VM, perhaps shutdown. */
    method Await()
      modifies this
      ensures Follows(old(registry), registry) && (old(shutdown) ==> shutdown)
      ensures steady ==> Look() == old(Look()) && shutdown == old(shutdown)
    {
      if steady {
        FollowsBy(registry, []);
        return;
      }
      var ops: seq<Op> := *;
      FollowsBy(registry, ops);
      registry := ApplyAll(registry, ops);
      authority, vm, machine := *, *, *;
      var cancelled: bool := *;
      shutdown := shutdown || cancelled;
    }

    /** `with_web_guest_claim`: the revision under which the guest may use the name. */
    method Authorize(guest: nat, name: Domain) returns (revision: Option<nat>)
      ensures revision.Some? ==> Grants(Look(), guest, mine, name, revision.value)
      ensures revision.None? ==> forall v :: !Grants(Look(), guest, mine, name, v)
    {
      if vm != Some(guest) {
        return None;
      }
      if o :| o in registry.entries && Authorizes(registry, name, o, Revision(registry, o)) && mine(name, o, registry.entries[o], machine) {
        return Some(Revision(registry, o));
      }
      return None;
    }

    /** Later: the guest may still use the name, under the same revision. */
    method StillGranted(guest: nat, name: Domain, granted: nat) returns (same: bool)
      modifies this
      ensures Follows(old(registry), registry)
      ensures same ==> Grants(Look(), guest, mine, name, granted)
      ensures steady ==> Look() == old(Look()) && shutdown == old(shutdown) && (Grants(Look(), guest, mine, name, granted) ==> same)
    {
      Await();
      var again := Authorize(guest, name);
      same := again == Some(granted);
      if again.Some? && Grants(Look(), guest, mine, name, granted) {
        OneRevision(Look(), guest, mine, name, granted, again.value);
      }
    }

    /** `SigningSession::serve`. `at` are the moments it looks at the world: the request is
        authorized, the authority taken, the name authorized again before and after signing,
        and the authority checked. Nothing is sent without all five. */
    method Serve(guest: nat, name: Domain) returns (sent: Option<Certificate>, ghost at: seq<View>, revision: nat)
      modifies this
      ensures |at| <= 5 && (at != [] ==> Follows(old(registry), at[0].registry))
      ensures forall i | 0 < i < |at| :: Follows(at[i - 1].registry, at[i].registry)
      ensures sent.Some? ==>
        && |at| == 5 && sent.value.name == name
        && Grants(at[0], guest, mine, name, revision) && Grants(at[2], guest, mine, name, revision) && Grants(at[3], guest, mine, name, revision)
        && at[1].authority == at[4].authority == Some(sent.value.authority)
      ensures steady && !old(shutdown) && old(authority).Some? && (exists v :: Grants(old(Look()), guest, mine, name, v)) ==>
        sent == Some(Certificate(name, old(authority).value))
    {
      sent, at, revision := None, [], 0;
      Await();
      if shutdown {
        return;
      }
      at := [Look()];
      var granted := Authorize(guest, name);
      if granted.None? {
        return;
      }
      revision := granted.value;
      Await();
      at := at + [Look()];
      if authority.None? {
        return;
      }
      var signer := authority.value;
      ghost var later: seq<View>;
      var checked: bool;
      checked, later := SignAndCheck(guest, name, revision, signer);
      at := at + later;
      if !checked {
        return;
      }
      Await();
      if !shutdown {
        sent := Some(Certificate(name, signer));
      }
    }

    /** Sign, and look again: the name before and after, then the authority. */
    method SignAndCheck(guest: nat, name: Domain, granted: nat, signer: nat) returns (ok: bool, ghost at: seq<View>)
      modifies this
      ensures |at| <= 3 && (at != [] ==> Follows(old(registry), at[0].registry))
      ensures forall i | 0 < i < |at| :: Follows(at[i - 1].registry, at[i].registry)
      ensures ok ==>
        && |at| == 3 && at[2].authority == Some(signer)
        && Grants(at[0], guest, mine, name, granted) && Grants(at[1], guest, mine, name, granted)
      ensures steady ==> Look() == old(Look()) && shutdown == old(shutdown)
      ensures steady && !old(shutdown) && Grants(old(Look()), guest, mine, name, granted) && old(authority) == Some(signer) ==> ok
    {
      ok, at := false, [];
      var same := SignAgain(guest, name, granted);
      at := [Look()];
      if !same {
        return;
      }
      same := StillGranted(guest, name, granted);
      at := at + [Look()];
      if !same {
        return;
      }
      Await();
      at := at + [Look()];
      ok := authority == Some(signer);
    }

    /** The blocking half: not shut down, and the name is authorized right before signing. */
    method SignAgain(guest: nat, name: Domain, granted: nat) returns (same: bool)
      modifies this
      ensures Follows(old(registry), registry)
      ensures same ==> Grants(Look(), guest, mine, name, granted)
      ensures steady ==> Look() == old(Look()) && shutdown == old(shutdown) && (!shutdown && Grants(Look(), guest, mine, name, granted) ==> same)
    {
      Await();
      if shutdown {
        return false;
      }
      ghost var between := registry;
      same := StillGranted(guest, name, granted);
      FollowsIsTransitive(old(registry), between, registry);
    }

    /** A sent certificate names a resource that was the same registration of the same owner
        at all three authorizations, provided its own revision was the one granted. */
    method ServePinned(guest: nat, name: Domain, ghost o: Owner) returns (sent: Option<Certificate>, ghost at: seq<View>, revision: nat)
      requires Valid(registry)
      modifies this
      ensures sent.Some? ==> |at| == 5
      ensures sent.Some? && Authorizes(at[0].registry, name, o, revision) && at[0].registry.entries[o].revision > at[0].registry.authorityRevision ==>
        forall i | i == 2 || i == 3 :: o in at[i].registry.entries && at[i].registry.entries[o] == at[0].registry.entries[o] && Authorizes(at[i].registry, name, o, revision)
    {
      sent, at, revision := Serve(guest, name);
      if sent.Some? && Authorizes(at[0].registry, name, o, revision) && at[0].registry.entries[o].revision > at[0].registry.authorityRevision {
        var ops :| at[0].registry == ApplyAll(old(registry), ops);
        ValidAlways(old(registry), ops);
        FollowsIsTransitive(at[0].registry, at[1].registry, at[2].registry);
        FollowsIsTransitive(at[0].registry, at[2].registry, at[3].registry);
        SameGrantSameOwner(at[0], at[2], guest, mine, name, o, revision);
        SameGrantSameOwner(at[0], at[3], guest, mine, name, o, revision);
      }
    }
  }
}
