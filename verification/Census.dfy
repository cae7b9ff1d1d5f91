/** The abstract state of the graph: the live subscriptions in the order they
  * were added, and their equivalence classes. */
module Census {
  import opened Subscriptions
  import opened Containment

  /** The members of the class of s among l, oldest first. */
  function Class(l: seq<Subscription>, s: Subscription): seq<Subscription> {
    if l == [] then []
    else Class(l[..|l| - 1], s) + (if Equivalent(l[|l| - 1].data, s.data) then [l[|l| - 1]] else [])
  }

  /** l without the newest member of the class of s. */
  function DropNewest(l: seq<Subscription>, s: Subscription): seq<Subscription> {
    if l == [] then []
    else if Equivalent(l[|l| - 1].data, s.data) then l[..|l| - 1]
    else DropNewest(l[..|l| - 1], s) + [l[|l| - 1]]
  }

  /** All data comes from a family on which containment is a preorder. */
  ghost predicate From(l: seq<Subscription>, U: iset<seq<Entry>>) {
    forall x | x in l :: x.data in U
  }

  lemma EquivalentTransitive(U: iset<seq<Entry>>, a: seq<Entry>, b: seq<Entry>, c: seq<Entry>)
    requires Preorder(U) && a in U && b in U && c in U && Equivalent(a, b)
    ensures Equivalent(a, c) <==> Equivalent(b, c)
  {
    assert TransitiveAt(a, b, c) && TransitiveAt(c, b, a) && TransitiveAt(b, a, c) && TransitiveAt(c, a, b);
  }

  lemma ClassAppend(l: seq<Subscription>, x: Subscription, s: Subscription)
    ensures Class(l + [x], s) == Class(l, s) + (if Equivalent(x.data, s.data) then [x] else [])
  {
    assert (l + [x])[..|l|] == l;
  }

  /** Equivalent subscriptions have the same class. */
  lemma {:induction false} ClassSame(l: seq<Subscription>, s: Subscription, t: Subscription, U: iset<seq<Entry>>)
    requires Preorder(U) && From(l, U) && s.data in U && t.data in U && Equivalent(s.data, t.data)
    ensures Class(l, s) == Class(l, t)
  {
    if l != [] {
      var x := l[|l| - 1];
      assert x in l;
      ClassSame(l[..|l| - 1], s, t, U);
      EquivalentTransitive(U, s.data, t.data, x.data);
    }
  }

  lemma {:induction false} ClassMember(l: seq<Subscription>, s: Subscription, x: Subscription)
    ensures x in Class(l, s) <==> x in l && Equivalent(x.data, s.data)
  {
    if l != [] {
      var k := |l| - 1;
      ClassMember(l[..k], s, x);
      assert l == l[..k] + [l[k]];
    }
  }

  /** Within its own class a member keeps its multiplicity. */
  lemma {:induction false} ClassMultiplicity(l: seq<Subscription>, s: Subscription, x: Subscription)
    requires Equivalent(x.data, s.data)
    ensures multiset(Class(l, s))[x] == multiset(l)[x]
  {
    if l != [] {
      var k := |l| - 1;
      ClassMultiplicity(l[..k], s, x);
      assert l == l[..k] + [l[k]];
    }
  }

  lemma {:induction false} DropKeeps(l: seq<Subscription>, s: Subscription, x: Subscription)
    requires x in DropNewest(l, s)
    ensures x in l
  {
    if l != [] && !Equivalent(l[|l| - 1].data, s.data) {
      var k := |l| - 1;
      if x != l[k] { DropKeeps(l[..k], s, x); }
    }
  }

  /** Dropping shortens the class of s by its newest member... */
  lemma {:induction false} DropOwn(l: seq<Subscription>, s: Subscription)
    requires Class(l, s) != []
    ensures Class(DropNewest(l, s), s) == Class(l, s)[..|Class(l, s)| - 1]
    ensures |DropNewest(l, s)| == |l| - 1
  {
    var k := |l| - 1;
    if !Equivalent(l[k].data, s.data) {
      DropOwn(l[..k], s);
      ClassAppend(DropNewest(l[..k], s), l[k], s);
    }
  }

  /** ... and leaves every other class as it was. */
  lemma {:induction false} DropOther(l: seq<Subscription>, s: Subscription, t: Subscription, U: iset<seq<Entry>>)
    requires Preorder(U) && From(l, U) && s.data in U && t.data in U && !Equivalent(s.data, t.data)
    ensures Class(DropNewest(l, s), t) == Class(l, t)
  {
    if l != [] {
      var k := |l| - 1;
      assert l[k] in l;
      if Equivalent(l[k].data, s.data) {
        EquivalentTransitive(U, l[k].data, s.data, t.data);
      } else {
        DropOther(l[..k], s, t, U);
        ClassAppend(DropNewest(l[..k], s), l[k], t);
      }
    }
  }
}
