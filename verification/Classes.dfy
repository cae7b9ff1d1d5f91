/** The classes of live subscriptions held by the nodes. */
module Classes {
  import opened Subscriptions
  import opened Diagram
  import opened Traversal
  import opened Census

  /** The node counts its class, and has held all its members since it was made. */
  ghost predicate Counts(n: Node, U: iset<seq<Entry>>, live: seq<Subscription>)
    reads n`count, n`overriden
  {
    && 1 <= n.count == |Class(live, n.sub)| <= |n.overriden| + 1
    && forall o | o in n.overriden :: o.data in U && Equivalent(n.sub.data, o.data)
  }

  /** Every live subscription has a node, and every node counts its class. */
  ghost predicate Classed(N: set<Node>, U: iset<seq<Entry>>, live: seq<Subscription>)
    reads N`count, N`overriden
  {
    && From(live, U)
    && (forall x | x in live :: Twins(N, x) != {})
    && (forall n | n in N :: Counts(n, U, live))
  }

  /** The node holds exactly its live class, oldest first. */
  ghost predicate Complete(n: Node, live: seq<Subscription>)
    reads n`overriden
  {
    [n.sub] + n.overriden == Class(live, n.sub)
  }

  ghost predicate Pristine(N: set<Node>, live: seq<Subscription>)
    reads N`overriden
  {
    forall n | n in N :: Complete(n, live)
  }

  /** Every node would report exactly its live class, oldest first. */
  ghost predicate Faithful(N: set<Node>, live: seq<Subscription>)
    reads N`overriden, N`count
  {
    forall n | n in N :: FaithfulAt(n, live)
  }

  ghost predicate FaithfulAt(n: Node, live: seq<Subscription>)
    reads n`overriden, n`count
  {
    0 <= n.count <= |n.overriden| + 1 && ([n.sub] + n.overriden)[..n.count] == Class(live, n.sub)
  }

  /** Once s is appended to the list of n, the next member counted is s: nothing
    * was left on the list by a removal, or s itself was. */
  ghost predicate NextIs(n: Node, s: Subscription)
    reads n`overriden, n`count
  {
    n.count == |n.overriden| + 1 || (1 <= n.count <= |n.overriden| && n.overriden[n.count - 1] == s)
  }

  ghost predicate AllNext(N: set<Node>, s: Subscription)
    reads N`overriden, N`count
  {
    forall n | n in Twins(N, s) :: NextIs(n, s)
  }

  lemma AllNextMeans(N: set<Node>, U: iset<seq<Entry>>, s: Subscription, n: Node?)
    requires Fits(N, U) && s.data in U
    requires if n == null then Twins(N, s) == {} else n in N && n in Twins(N, s)
    ensures AllNext(N, s) <==> n == null || NextIs(n, s)
  {
    if n != null {
      forall m | m in Twins(N, s) ensures m == n { OneTwin(N, U, s, n, m); }
    }
  }

  /** An add-only graph reports every class member by member. */
  lemma PristineFaithful(N: set<Node>, U: iset<seq<Entry>>, live: seq<Subscription>)
    requires Pristine(N, live) && Classed(N, U, live)
    ensures Faithful(N, live)
  {
    hide Class;
    forall n | n in N
      ensures 0 <= n.count <= |n.overriden| + 1 && ([n.sub] + n.overriden)[..n.count] == Class(live, n.sub)
    {
      assert Complete(n, live) && Counts(n, U, live);
    }
  }

  lemma FaithfulEach(N: set<Node>, live: seq<Subscription>)
    ensures Faithful(N, live) <==> forall n | n in N :: FaithfulAt(n, live)
  {}

  lemma FaithfulAtMeans(n: Node, live: seq<Subscription>, s: Subscription)
    ensures FaithfulAt(n, live) <==>
      0 <= n.count <= |n.overriden| + 1 && ([n.sub] + n.overriden)[..n.count] == Class(live, n.sub)
    ensures NextIs(n, s) <==>
      n.count == |n.overriden| + 1 || (1 <= n.count <= |n.overriden| && n.overriden[n.count - 1] == s)
  {}

  /** After s has joined the class of n, which held o and counted k. */
  lemma FaithfulJoin(N: set<Node>, U: iset<seq<Entry>>, live: seq<Subscription>, s: Subscription, n: Node,
                     o: seq<Subscription>, k: int)
    requires Fits(N, U) && From(live, U) && s.data in U && n in N && n in Twins(N, s)
    requires forall m | m in N && m != n :: FaithfulAt(m, live)
    requires n.overriden == o + [s] && n.count == k + 1 && 1 <= k <= |o| + 1 && ([n.sub] + o)[..k] == Class(live, n.sub)
    ensures Faithful(N, live + [s]) <==> k == |o| + 1 || o[k - 1] == s
  {
    hide Fits, Equivalent, Class, Twins;
    ClassesGrow(N, U, live, s, n);
    var all := [n.sub] + n.overriden;
    assert all[..k + 1] == ([n.sub] + o)[..k] + [all[k]];
    assert all[k] == if k == |o| + 1 then s else o[k - 1];
    assert all[..k + 1] == Class(live, n.sub) + [s] <==> all[k] == s;
    forall m | m in N && m != n ensures FaithfulAt(m, live + [s]) {}
  }

  lemma FaithfulNew(N: set<Node>, U: iset<seq<Entry>>, live: seq<Subscription>, n: Node, s: Subscription)
    requires Fits(N, U) && Classed(N, U, live) && Faithful(N, live) && Twins(N, s) == {} && s.data in U
    requires n !in N && n.sub == s && n.count == 1 && n.overriden == []
    ensures Faithful(N + {n}, live + [s])
  {
    hide Equivalent, Fits, Class;
    NewClass(N, U, live, s);
    assert ([n.sub] + n.overriden)[..1] == [s];
    forall m | m in N + {n} ensures FaithfulAt(m, live + [s]) { if m != n { assert FaithfulAt(m, live); } }
  }

  ghost predicate PointsBack(x: Subscription, N: set<Node>)
    reads x`graphAttr
  {
    x.graphAttr is Node && x.graphAttr as Node in Twins(N, x)
  }

  /** Every live subscription points back to its node. */
  ghost predicate Attached(N: set<Node>, live: seq<Subscription>)
    reads live`graphAttr
  {
    forall x | x in live :: PointsBack(x, N)
  }

  /** The classes are counted, and what was also known of them (p: they are
    * complete; a: the back pointers are set) is still so. */
  ghost predicate Tracked(N: set<Node>, U: iset<seq<Entry>>, live: seq<Subscription>, p: bool, a: bool)
    reads N`count, N`overriden, live`graphAttr
  {
    Classed(N, U, live) && (p ==> Pristine(N, live)) && (a ==> Attached(N, live))
  }

  lemma TrackedMeans(N: set<Node>, U: iset<seq<Entry>>, live: seq<Subscription>, p: bool, a: bool)
    ensures Tracked(N, U, live, p, a) <==> Classed(N, U, live) && (p ==> Pristine(N, live)) && (a ==> Attached(N, live))
  {}

  /** A subscription is equivalent to one node at most. */
  lemma OneTwin(N: set<Node>, U: iset<seq<Entry>>, s: Subscription, n: Node, m: Node)
    requires Fits(N, U) && s.data in U && n in Twins(N, s) && m in N
    ensures Equivalent(s.data, m.sub.data) <==> m == n
  {
    EquivalentTransitive(U, s.data, n.sub.data, m.sub.data);
  }

  /** Adding a member to the class of n changes that class alone. */
  lemma ClassesGrow(N: set<Node>, U: iset<seq<Entry>>, live: seq<Subscription>, s: Subscription, n: Node)
    requires Fits(N, U) && From(live, U) && s.data in U && n in Twins(N, s)
    ensures Twins(N, s) != {} && Equivalent(n.sub.data, s.data)
    ensures forall m | m in N :: Class(live + [s], m.sub) == Class(live, m.sub) + (if m == n then [s] else [])
  {
    forall m | m in N ensures Class(live + [s], m.sub) == Class(live, m.sub) + (if m == n then [s] else []) {
      ClassAppend(live, s, m.sub);
      OneTwin(N, U, s, n, m);
    }
  }

  lemma TrackedEach(N: set<Node>, U: iset<seq<Entry>>, live: seq<Subscription>, p: bool, a: bool)
    requires Tracked(N, U, live, p, a)
    ensures forall m | m in N :: Counts(m, U, live) && (p ==> Complete(m, live))
    ensures a ==> forall x | x in live :: PointsBack(x, N)
    ensures From(live, U) && forall x | x in live :: Twins(N, x) != {}
  {}

  lemma CountsMeans(n: Node, U: iset<seq<Entry>>, live: seq<Subscription>)
    ensures Counts(n, U, live) ==> 1 <= n.count == |Class(live, n.sub)| <= |n.overriden| + 1
    ensures Counts(n, U, live) ==> forall o | o in n.overriden :: o.data in U && Equivalent(n.sub.data, o.data)
    ensures Complete(n, live) ==> [n.sub] + n.overriden == Class(live, n.sub)
  {}

  /** s has just been put into the class of n. */
  lemma TrackedJoin(N: set<Node>, U: iset<seq<Entry>>, live: seq<Subscription>, s: Subscription, n: Node, p: bool,
                    a: bool)
    requires Fits(N, U) && From(live, U) && (forall x | x in live :: Twins(N, x) != {}) && s.data in U
    requires n in Twins(N, s)
    requires forall m | m in N && m != n :: Counts(m, U, live) && (p ==> Complete(m, live))
    requires 2 <= n.count == |Class(live, n.sub)| + 1 <= |n.overriden| + 1
    requires forall o | o in n.overriden :: o == s || (o.data in U && Equivalent(n.sub.data, o.data))
    requires p ==> [n.sub] + n.overriden == Class(live, n.sub) + [s]
    requires s.graphAttr == n && (a ==> forall x | x in live && x != s :: PointsBack(x, N))
    ensures Tracked(N, U, live + [s], p, a)
  {
    hide Fits, Equivalent, Class, Twins;
    ClassesGrow(N, U, live, s, n);
    forall m | m in N ensures Counts(m, U, live + [s]) && (p ==> Complete(m, live + [s])) {}
    forall x | x in live + [s] && a ensures PointsBack(x, N) {}
  }

  lemma NoClass(N: set<Node>, U: iset<seq<Entry>>, live: seq<Subscription>, s: Subscription)
    requires Fits(N, U) && From(live, U) && (forall x | x in live :: Twins(N, x) != {}) && Twins(N, s) == {}
    requires s.data in U
    ensures Class(live, s) == []
  {
    if Class(live, s) != [] {
      var x := Class(live, s)[0];
      ClassMember(live, s, x);
      var m :| m in Twins(N, x);
      assert m !in Twins(N, s);
      EquivalentTransitive(U, x.data, m.sub.data, s.data);
    }
  }

  lemma NewClass(N: set<Node>, U: iset<seq<Entry>>, live: seq<Subscription>, s: Subscription)
    requires Fits(N, U) && From(live, U) && (forall x | x in live :: Twins(N, x) != {}) && Twins(N, s) == {}
    requires s.data in U
    ensures Equivalent(s.data, s.data) && Class(live + [s], s) == [s]
    ensures forall m | m in N :: Class(live + [s], m.sub) == Class(live, m.sub)
  {
    forall m | m in N ensures Class(live + [s], m.sub) == Class(live, m.sub) {
      ClassAppend(live, s, m.sub);
      assert m !in Twins(N, s);
    }
    ClassAppend(live, s, s);
    NoClass(N, U, live, s);
  }

  lemma NotLive(N: set<Node>, U: iset<seq<Entry>>, live: seq<Subscription>, s: Subscription, p: bool, a: bool)
    requires Tracked(N, U, live, p, a) && Twins(N, s) == {}
    ensures s !in live
  {}

  /** A new node is the only one whose class the newcomer joins. */
  lemma TrackedNew(N: set<Node>, U: iset<seq<Entry>>, live: seq<Subscription>, n: Node, s: Subscription, p: bool,
                   a: bool)
    requires Fits(N, U) && Tracked(N, U, live, p, a) && Twins(N, s) == {} && s.data in U
    requires n !in N && n.sub == s && n.count == 1 && n.overriden == [] && s.graphAttr == n
    ensures Tracked(N + {n}, U, live + [s], p, a)
  {
    hide Equivalent, Fits;
    NewClass(N, U, live, s);
    forall x ensures Twins(N + {n}, x) == Twins(N, x) + (if Equivalent(s.data, x.data) then {n} else {}) {}
  }

  lemma FoundIffLive(N: set<Node>, U: iset<seq<Entry>>, live: seq<Subscription>, s: Subscription, n: Node?)
    requires Fits(N, U) && Classed(N, U, live) && s.data in U
    requires if n == null then Twins(N, s) == {} else n in Twins(N, s)
    ensures n == null <==> Class(live, s) == []
    ensures n != null ==> 1 <= n.count
  {
    if n == null {
      NoClass(N, U, live, s);
    } else {
      ClassSame(live, n.sub, s, U);
    }
  }

  /** Removing from the class of n shortens that class alone. */
  lemma ClassesShrink(N: set<Node>, U: iset<seq<Entry>>, live: seq<Subscription>, s: Subscription, n: Node)
    requires Fits(N, U) && Classed(N, U, live) && s.data in U && n in Twins(N, s) && n in N
    ensures From(DropNewest(live, s), U) && |DropNewest(live, s)| == |live| - 1
    ensures forall x | x in DropNewest(live, s) :: x in live
    ensures |Class(live, n.sub)| > 0
    ensures Class(DropNewest(live, s), n.sub) == Class(live, n.sub)[..|Class(live, n.sub)| - 1]
    ensures forall m | m in N && m != n :: Class(DropNewest(live, s), m.sub) == Class(live, m.sub)
  {
    forall x | x in DropNewest(live, s) ensures x in live { DropKeeps(live, s, x); }
    ClassSame(live, n.sub, s, U);
    DropOwn(live, s);
    ClassSame(DropNewest(live, s), n.sub, s, U);
    forall m | m in N && m != n ensures Class(DropNewest(live, s), m.sub) == Class(live, m.sub) {
      OneTwin(N, U, s, n, m);
      DropOther(live, s, m.sub, U);
    }
  }

  /** Nothing equivalent to n is left. */
  lemma GoneFor(live: seq<Subscription>, n: Node, s: Subscription, x: Subscription)
    requires Class(DropNewest(live, s), n.sub) == [] && x in DropNewest(live, s)
    ensures !Equivalent(x.data, n.sub.data) && !Equivalent(n.sub.data, x.data)
  {
    ClassMember(DropNewest(live, s), n.sub, x);
  }

  lemma ClassedGone(N: set<Node>, U: iset<seq<Entry>>, live: seq<Subscription>, n: Node, s: Subscription)
    requires Fits(N, U) && Classed(N, U, live) && s.data in U && n in Twins(N, s) && n in N && n.count == 1
    ensures Classed(N - {n}, U, DropNewest(live, s)) && |DropNewest(live, s)| == |live| - 1
    ensures Faithful(N, live) ==> Faithful(N - {n}, DropNewest(live, s))
  {
    hide Fits, Equivalent, Class, DropNewest;
    ClassesShrink(N, U, live, s, n);
    forall x | x in DropNewest(live, s) ensures Twins(N - {n}, x) != {} {
      var m :| m in Twins(N, x);
      GoneFor(live, n, s, x);
      assert m in Twins(N - {n}, x);
    }
  }

  // ---------------------------------------------------------------------------
  // Which member a removal takes
  // ---------------------------------------------------------------------------

  /** The member of the class of s that came last. */
  function Newest(l: seq<Subscription>, s: Subscription): Subscription
    requires Class(l, s) != []
  {
    Class(l, s)[|Class(l, s)| - 1]
  }

  /** Dropping the newest member of the class of s drops s if and only if s is the newest. */
  lemma {:induction false} DropIsErase(l: seq<Subscription>, s: Subscription)
    requires NoDup(l) && s in l && Equivalent(s.data, s.data)
    ensures Class(l, s) != [] && (DropNewest(l, s) == Erase(l, s) <==> s == Newest(l, s))
  {
    var k := |l| - 1;
    var rest, x := l[..k], l[k];
    assert l == rest + [x];
    EraseAppend(rest, x, s);
    EraseAbsentOr(rest, x, s);
    if !Equivalent(x.data, s.data) {
      assert s in rest;
      DropIsErase(rest, s);
      SameFront(DropNewest(rest, s), Erase(rest, s), x);
      assert Class(l, s) == Class(rest, s);
    } else {
      DropLast(rest, x, s);
    }
  }

  lemma DropLast(rest: seq<Subscription>, x: Subscription, s: Subscription)
    requires x !in rest && s in rest + [x] && Equivalent(x.data, s.data)
    requires Erase(rest + [x], s) == (if x == s then rest else Erase(rest, s) + [x])
    ensures Class(rest + [x], s) != [] && Newest(rest + [x], s) == x
    ensures DropNewest(rest + [x], s) == Erase(rest + [x], s) <==> s == x
  {
    ClassAppend(rest, x, s);
    assert (rest + [x])[..|rest|] == rest && (rest + [x])[|rest|] == x;
    if x != s { assert x in Erase(rest, s) + [x]; }
  }

  lemma SameFront<T>(a: seq<T>, b: seq<T>, x: T)
    ensures a + [x] == b + [x] <==> a == b
  {
    assert (a + [x])[..|a|] == a && (b + [x])[..|b|] == b;
  }

  lemma EraseAbsentOr<T>(rest: seq<T>, x: T, s: T)
    requires NoDup(rest + [x])
    ensures x !in rest && (x == s ==> Erase(rest, s) == rest)
  {
    assert (rest + [x])[|rest|] == x;
    forall i | 0 <= i < |rest| ensures rest[i] != x { assert (rest + [x])[i] == rest[i]; }
    if x == s && s !in rest { EraseAbsent(rest, s); }
  }

  lemma {:induction false} DropCount(l: seq<Subscription>, s: Subscription)
    requires Class(l, s) != []
    ensures multiset(l) == multiset(DropNewest(l, s)) + multiset{Newest(l, s)}
  {
    var k := |l| - 1;
    assert l == l[..k] + [l[k]];
    if !Equivalent(l[k].data, s.data) { DropCount(l[..k], s); }
  }
}
