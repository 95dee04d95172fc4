/** Sequences without duplicates. */
module Lists {
  ghost predicate Distinct<T>(s: seq<T>) {
    forall i, j | 0 <= i < j < |s| :: s[i] != s[j]
  }

  function Elements<T(==)>(s: seq<T>): set<T> {
    set x | x in s
  }

  lemma {:induction false} ElementsSize<T>(s: seq<T>)
    ensures |Elements(s)| <= |s|
    ensures Distinct(s) ==> |Elements(s)| == |s|
  {
    if s != [] {
      var last, rest := s[|s| - 1], s[..|s| - 1];
      ElementsSize(rest);
      assert s == rest + [last];
      assert Elements(s) == Elements(rest) + {last};
    }
  }

  /** As many in `a` as in `b`, and each of `b` without repetition in `a`: the same ones. */
  lemma SameElements<T>(a: seq<T>, b: seq<T>)
    requires |a| == |b| && Distinct(b) && forall i | 0 <= i < |b| :: b[i] in a
    ensures Elements(a) == Elements(b)
    ensures forall x :: x in a <==> x in b
  {
    ElementsSize(a);
    ElementsSize(b);
    var extra := Elements(a) - Elements(b);
    assert Elements(b) <= Elements(a);
    assert Elements(a) == Elements(b) + extra;
    assert |Elements(a)| == |Elements(b)| + |extra|;
    assert extra == {};
    assert forall x :: (x in a <==> x in Elements(a)) && (x in b <==> x in Elements(b));
  }

  /** Nothing of `all` is left to do. */
  lemma NothingLeft<T>(all: set<T>, done: set<T>)
    requires done <= all && all - done == {}
    ensures done == all
  {
    assert all == done + (all - done);
  }
}
