/** What a pruned match over the diagram reports, against the naive scan of all
  * live subscriptions. */
module Matching {
  import opened Subscriptions
  import opened Containment
  import opened Diagram
  import opened DiagramUpdate
  import opened Traversal
  import opened Census
  import opened Classes

  /** The naive scan: every live subscription that accepts the event. */
  function Scan(l: seq<Subscription>, e: Event): seq<Subscription> {
    if l == [] then []
    else Scan(l[..|l| - 1], e) + (if Accepts(l[|l| - 1].data, e) then [l[|l| - 1]] else [])
  }

  ghost function Hits(N: set<Node>, e: Event): set<Node> { set n | n in N && Accepts(n.sub.data, e) }

  /** The nodes the pruned traversal tests: the roots and the containees of matching nodes. */
  ghost function Tested(N: set<Node>, e: Event): set<Node> {
    Roots(N) + set p, c | p in Hits(N, e) && c in Lower(N, p) :: c
  }

  /** The subscriptions a node reports: itself and the first members of its class. */
  ghost function Reported(n: Node): seq<Subscription>
    reads n`overriden, n`count
  {
    if 0 <= n.count <= |n.overriden| + 1 then ([n.sub] + n.overriden)[..n.count] else []
  }

  ghost function Flat(hits: seq<Node>): seq<Subscription>
    reads hits`overriden, hits`count
  {
    if hits == [] then [] else Flat(hits[..|hits| - 1]) + Reported(hits[|hits| - 1])
  }

  /** The state of the traversal: V is stamped, cands is the stack, hits are the matching nodes met. */
  ghost predicate Exploring(N: set<Node>, e: Event, V: set<Node>, cands: seq<Node>, hits: seq<Node>) {
    && V <= N && (forall c | c in cands :: c in N)
    && Lists(hits, V * Hits(N, e))
    && (forall r | r in Roots(N) :: r in V || r in cands)
    && (forall p, c | p in hits && c in Lower(N, p) :: c in V || c in cands)
    && V <= Tested(N, e) && (forall c | c in cands :: c in Tested(N, e))
  }

  lemma ExploreStart(N: set<Node>, e: Event, roots: seq<Node>)
    requires Lists(roots, Roots(N))
    ensures Exploring(N, e, {}, roots, [])
  {}

  /** The top of the stack was tested before. */
  lemma ExploreSkip(N: set<Node>, e: Event, V: set<Node>, cands: seq<Node>, hits: seq<Node>)
    requires Exploring(N, e, V, cands, hits) && cands != [] && cands[|cands| - 1] in V
    ensures Exploring(N, e, V, cands[..|cands| - 1], hits)
  {
    hide Tested, Lists, Covers;
    var rest, x := cands[..|cands| - 1], cands[|cands| - 1];
    assert cands == rest + [x];
    assert forall c :: c in cands <==> c in rest || c == x;
  }

  lemma ExploreTest(N: set<Node>, e: Event, V: set<Node>, cands: seq<Node>, hits: seq<Node>, list: seq<Node>)
    requires Exploring(N, e, V, cands, hits) && cands != [] && cands[|cands| - 1] !in V
    requires Lists(list, Lower(N, cands[|cands| - 1]))
    ensures var x := cands[|cands| - 1]; var rest := cands[..|cands| - 1];
      x in N && x !in hits &&
      if Accepts(x.sub.data, e) then Exploring(N, e, V + {x}, rest + list, hits + [x])
      else Exploring(N, e, V + {x}, rest, hits)
  {
    var x, rest := cands[|cands| - 1], cands[..|cands| - 1];
    assert cands == rest + [x] && x in cands;
    InLower(hits, V * Hits(N, e));
    if Accepts(x.sub.data, e) {
      AppendLists(hits, x, V * Hits(N, e));
      assert (V + {x}) * Hits(N, e) == V * Hits(N, e) + {x};
      ExploreHit(N, e, V, rest, hits, list, x);
    } else {
      ExploreMiss(N, e, V, rest, hits, x);
    }
  }

  lemma ExploreMiss(N: set<Node>, e: Event, V: set<Node>, rest: seq<Node>, hits: seq<Node>, x: Node)
    requires Exploring(N, e, V, rest + [x], hits) && x !in Hits(N, e)
    ensures Exploring(N, e, V + {x}, rest, hits)
  {
    hide Lists, Covers, Tested;
    assert forall c :: c in rest + [x] <==> c in rest || c == x;
    assert (V + {x}) * Hits(N, e) == V * Hits(N, e);
  }

  lemma ExploreHit(N: set<Node>, e: Event, V: set<Node>, rest: seq<Node>, hits: seq<Node>, list: seq<Node>, x: Node)
    requires Exploring(N, e, V, rest + [x], hits) && x !in V && x in Hits(N, e) && Lists(list, Lower(N, x))
    requires Lists(hits + [x], (V + {x}) * Hits(N, e))
    ensures Exploring(N, e, V + {x}, rest + list, hits + [x])
  {
    hide Lists, Covers;
    assert forall c :: c in rest + [x] <==> c in rest || c == x;
    assert forall c :: c in rest + list <==> c in rest || c in list;
    assert x in Tested(N, e) by { assert x in rest + [x]; }
    InLower(list, Lower(N, x));
    forall c | c in list ensures c in N && c in Tested(N, e) {}
    forall p, c | p in hits + [x] && c in Lower(N, p) ensures c in V + {x} || c in rest + list {
      if p == x { assert c in list; } else { assert p in hits; assert c in V || c in rest + [x]; }
    }
  }

  lemma InLower(list: seq<Node>, S: set<Node>)
    requires Lists(list, S)
    ensures forall c | c in list :: c in S
    ensures forall c | c in S :: c in list
  {}

  /** When the stack is empty, exactly the tested set has been stamped and every match met. */
  lemma ExploreDone(N: set<Node>, U: iset<seq<Entry>>, e: Event, V: set<Node>, hits: seq<Node>)
    requires Fits(N, U) && SoundOn(U) && Exploring(N, e, V, [], hits)
    ensures V == Tested(N, e) && Lists(hits, Hits(N, e))
  {
    InLower(hits, V * Hits(N, e));
    forall p | p in V * Hits(N, e) ensures Lower(N, p) <= V { assert p in hits; }
    forall x | x in Hits(N, e) ensures x in V { HitReached(N, U, e, V, x); }
    assert V * Hits(N, e) == Hits(N, e);
  }

  /** Whatever containment is worth, only matching nodes are reported, and only tested ones. */
  lemma ExploredOnly(N: set<Node>, e: Event, V: set<Node>, hits: seq<Node>)
    requires Exploring(N, e, V, [], hits)
    ensures NoDup(hits) && forall h | h in hits :: h in Hits(N, e) && h in Tested(N, e)
  {
    hide Covers;
  }

  lemma HitAbove(U: iset<seq<Entry>>, p: Node, x: Node, e: Event)
    requires SoundOn(U) && p.sub.data in U && x.sub.data in U && Geq(p, x) && Accepts(x.sub.data, e)
    ensures Accepts(p.sub.data, e)
  {
    assert Sound(p.sub.data, x.sub.data);
  }

  /** A matching node is below matching nodes only, so the traversal gets to it. */
  lemma {:induction false} HitReached(N: set<Node>, U: iset<seq<Entry>>, e: Event, V: set<Node>, x: Node)
    requires Fits(N, U) && SoundOn(U) && x in Hits(N, e)
    requires Roots(N) <= V && forall p | p in V * Hits(N, e) :: Lower(N, p) <= V
    decreases Over(N, x)
    ensures x in V
  {
    if x !in Roots(N) {
      var p := HitParent(N, U, e, x);
      HitReached(N, U, e, V, p);
      assert x in Lower(N, p);
    }
  }

  lemma HitParent(N: set<Node>, U: iset<seq<Entry>>, e: Event, x: Node) returns (p: Node)
    requires Fits(N, U) && SoundOn(U) && x in Hits(N, e) && x !in Roots(N)
    ensures p in Hits(N, e) && x in Lower(N, p) && Over(N, p) < Over(N, x)
  {
    var y :| y in Over(N, x);
    p := StepUp(N, U, y, x);
    BelowShrinks(N, U, p, x);
    HitAbove(U, p, x, e);
  }

  // ---------------------------------------------------------------------------
  // The report against the naive scan
  // ---------------------------------------------------------------------------

  /** The live classes of the nodes in the list, one after the other. */
  function JoinedClasses(hits: seq<Node>, live: seq<Subscription>): seq<Subscription> {
    if hits == [] then [] else JoinedClasses(hits[..|hits| - 1], live) + Class(live, hits[|hits| - 1].sub)
  }

  /** The live subscriptions that belong to a node of S. */
  ghost function Selected(l: seq<Subscription>, S: set<Node>): seq<Subscription> {
    if l == [] then []
    else Selected(l[..|l| - 1], S) + (if Twins(S, l[|l| - 1]) != {} then [l[|l| - 1]] else [])
  }

  lemma {:induction false} SelectedCount(l: seq<Subscription>, S: set<Node>, x: Subscription)
    ensures multiset(Selected(l, S))[x] == if Twins(S, x) != {} then multiset(l)[x] else 0
  {
    if l != [] {
      var k := |l| - 1;
      SelectedCount(l[..k], S, x);
      assert l == l[..k] + [l[k]];
    }
  }

  lemma {:induction false} ClassesNone(hits: seq<Node>, live: seq<Subscription>, x: Subscription)
    requires forall h | h in hits :: !Equivalent(x.data, h.sub.data)
    ensures multiset(JoinedClasses(hits, live))[x] == 0
  {
    if hits != [] {
      var k := |hits| - 1;
      assert hits == hits[..k] + [hits[k]];
      ClassesNone(hits[..k], live, x);
      ClassMember(live, hits[k].sub, x);
    }
  }

  lemma {:induction false} ClassesOne(hits: seq<Node>, live: seq<Subscription>, x: Subscription, n: Node)
    requires NoDup(hits) && n in hits && Equivalent(x.data, n.sub.data)
    requires forall h | h in hits && h != n :: !Equivalent(x.data, h.sub.data)
    ensures multiset(JoinedClasses(hits, live))[x] == multiset(live)[x]
  {
    var k := |hits| - 1;
    assert hits == hits[..k] + [hits[k]];
    if hits[k] == n {
      ClassesNone(hits[..k], live, x);
      ClassMultiplicity(live, n.sub, x);
    } else {
      ClassesOne(hits[..k], live, x, n);
      ClassMember(live, hits[k].sub, x);
    }
  }

  lemma SameMultiset<T>(A: multiset<T>, B: multiset<T>)
    requires forall x | x in A + B :: A[x] == B[x]
    ensures A == B
  {
    assert forall x | x in A :: x in A + B;
    assert forall x | x in B :: x in A + B;
  }

  /** Listing the classes of the nodes in S is the same as selecting from the live list. */
  lemma ClassesSelect(N: set<Node>, U: iset<seq<Entry>>, live: seq<Subscription>, S: set<Node>, hits: seq<Node>)
    requires Fits(N, U) && From(live, U) && S <= N && Lists(hits, S)
    ensures multiset(JoinedClasses(hits, live)) == multiset(Selected(live, S))
  {
    var A, B := multiset(JoinedClasses(hits, live)), multiset(Selected(live, S));
    forall x | x in A + B ensures A[x] == B[x] {
      SelectedCount(live, S, x);
      ClassesCount(N, U, live, S, hits, x);
    }
    hide *;
    SameMultiset(A, B);
  }

  lemma ClassesCount(N: set<Node>, U: iset<seq<Entry>>, live: seq<Subscription>, S: set<Node>, hits: seq<Node>,
                     x: Subscription)
    requires Fits(N, U) && From(live, U) && S <= N && Lists(hits, S)
    ensures multiset(JoinedClasses(hits, live))[x] == if Twins(S, x) != {} then multiset(live)[x] else 0
  {
    if n :| n in Twins(S, x) {
      if x in live {
        forall h | h in hits && h != n ensures !Equivalent(x.data, h.sub.data) { OneTwin(N, U, x, n, h); }
        ClassesOne(hits, live, x, n);
      } else {
        ClassesWithin(hits, live, x);
      }
    } else {
      forall h | h in hits ensures !Equivalent(x.data, h.sub.data) { assert h !in Twins(S, x); }
      ClassesNone(hits, live, x);
    }
  }

  lemma {:induction false} ClassesWithin(hits: seq<Node>, live: seq<Subscription>, x: Subscription)
    requires x !in live
    ensures multiset(JoinedClasses(hits, live))[x] == 0
  {
    if hits != [] {
      ClassesWithin(hits[..|hits| - 1], live, x);
      ClassMember(live, hits[|hits| - 1].sub, x);
    }
  }

  /** The live subscriptions of matching nodes are the ones that match. */
  lemma {:induction false} SelectedScan(N: set<Node>, U: iset<seq<Entry>>, l: seq<Subscription>, e: Event)
    requires Fits(N, U) && SoundOn(U) && From(l, U) && forall x | x in l :: Twins(N, x) != {}
    ensures Selected(l, Hits(N, e)) == Scan(l, e)
  {
    if l != [] {
      var k := |l| - 1;
      assert l[k] in l;
      SelectedScan(N, U, l[..k], e);
      HitTwin(N, U, l[k], e);
    }
  }

  lemma HitTwin(N: set<Node>, U: iset<seq<Entry>>, x: Subscription, e: Event)
    requires Fits(N, U) && SoundOn(U) && x.data in U && Twins(N, x) != {}
    ensures Twins(Hits(N, e), x) != {} <==> Accepts(x.data, e)
  {
    var n :| n in Twins(N, x);
    assert Sound(n.sub.data, x.data) && Sound(x.data, n.sub.data);
    if Accepts(x.data, e) { assert n in Twins(Hits(N, e), x); }
    if m :| m in Twins(Hits(N, e), x) { assert Sound(x.data, m.sub.data); }
  }

  // ---------------------------------------------------------------------------
  // What the nodes hold against their live classes
  // ---------------------------------------------------------------------------

  lemma {:induction false} FlatFaithful(N: set<Node>, live: seq<Subscription>, hits: seq<Node>)
    requires Faithful(N, live) && forall h | h in hits :: h in N
    ensures Flat(hits) == JoinedClasses(hits, live)
  {
    if hits != [] {
      FlatFaithful(N, live, hits[..|hits| - 1]);
      assert hits[|hits| - 1] in hits && FaithfulAt(hits[|hits| - 1], live);
    }
  }

  lemma {:induction false} FlatSize(N: set<Node>, U: iset<seq<Entry>>, live: seq<Subscription>, hits: seq<Node>)
    requires Classed(N, U, live) && forall h | h in hits :: h in N
    ensures |Flat(hits)| == |JoinedClasses(hits, live)|
  {
    if hits != [] {
      assert Counts(hits[|hits| - 1], U, live) by { assert hits[|hits| - 1] in hits; }
      FlatSize(N, U, live, hits[..|hits| - 1]);
    }
  }

  /** If all members of l are in the class of h, then l counts fully or not at all. */
  lemma {:induction false} ClassOfUniform(l: seq<Subscription>, h: Node, x: Subscription, U: iset<seq<Entry>>)
    requires Preorder(U) && h.sub.data in U && x.data in U
    requires forall o | o in l :: o.data in U && Equivalent(o.data, h.sub.data)
    ensures |Class(l, x)| == if Equivalent(h.sub.data, x.data) then |l| else 0
  {
    if l != [] {
      var o := l[|l| - 1];
      assert o in l;
      ClassOfUniform(l[..|l| - 1], h, x, U);
      EquivalentTransitive(U, o.data, h.sub.data, x.data);
    }
  }

  lemma {:induction false} ClassJoin(a: seq<Subscription>, b: seq<Subscription>, x: Subscription)
    ensures Class(a + b, x) == Class(a, x) + Class(b, x)
  {
    if b == [] {
      assert a + b == a;
    } else {
      var k := |b| - 1;
      assert (a + b)[..|a + b| - 1] == a + b[..k];
      ClassJoin(a, b[..k], x);
    }
  }

  lemma {:induction false} FlatClass(N: set<Node>, U: iset<seq<Entry>>, live: seq<Subscription>, hits: seq<Node>,
                                     x: Subscription)
    requires Fits(N, U) && Classed(N, U, live) && x.data in U && forall h | h in hits :: h in N
    ensures |Class(Flat(hits), x)| == |Class(JoinedClasses(hits, live), x)|
  {
    if hits != [] {
      var k := |hits| - 1;
      FlatClass(N, U, live, hits[..k], x);
      ClassJoin(Flat(hits[..k]), Reported(hits[k]), x);
      ClassJoin(JoinedClasses(hits[..k], live), Class(live, hits[k].sub), x);
      NodeClass(N, U, live, hits[k], x);
    }
  }

  lemma NodeClass(N: set<Node>, U: iset<seq<Entry>>, live: seq<Subscription>, h: Node, x: Subscription)
    requires Fits(N, U) && Classed(N, U, live) && x.data in U && h in N
    ensures |Class(Reported(h), x)| == |Class(Class(live, h.sub), x)|
  {
    assert Counts(h, U, live);
    forall o | o in Reported(h)
      ensures o.data in U && Equivalent(o.data, h.sub.data)
    {
      assert o == h.sub || o in h.overriden;
    }
    forall o | o in Class(live, h.sub)
      ensures o.data in U && Equivalent(o.data, h.sub.data)
    {
      ClassMember(live, h.sub, o);
    }
    ClassOfUniform(Reported(h), h, x, U);
    ClassOfUniform(Class(live, h.sub), h, x, U);
  }

  lemma {:induction false} ClassCount(l: seq<Subscription>, x: Subscription, y: Subscription)
    ensures multiset(Class(l, x))[y] == if Equivalent(y.data, x.data) then multiset(l)[y] else 0
  {
    if Equivalent(y.data, x.data) { ClassMultiplicity(l, x, y); } else { ClassMember(l, x, y); }
  }

  /** The size of a class depends on the members only, not on their order. */
  lemma ClassSizeOrder(a: seq<Subscription>, b: seq<Subscription>, x: Subscription)
    requires multiset(a) == multiset(b)
    ensures |Class(a, x)| == |Class(b, x)|
  {
    var A, B := multiset(Class(a, x)), multiset(Class(b, x));
    forall y | y in A + B ensures A[y] == B[y] {
      ClassCount(a, x, y);
      ClassCount(b, x, y);
    }
    SameMultiset(A, B);
    assert |A| == |Class(a, x)| && |B| == |Class(b, x)|;
  }

  lemma EquivalentAccept(U: iset<seq<Entry>>, y: Subscription, x: Subscription, e: Event)
    requires SoundOn(U) && x.data in U && y.data in U && Equivalent(y.data, x.data)
    ensures Accepts(y.data, e) == Accepts(x.data, e)
  {
    assert Sound(y.data, x.data) && Sound(x.data, y.data);
  }

  /** Of an equivalence class either all live members match or none. */
  lemma {:induction false} ScanClass(l: seq<Subscription>, e: Event, x: Subscription, U: iset<seq<Entry>>)
    requires SoundOn(U) && From(l, U) && x.data in U
    ensures Class(Scan(l, e), x) == if Accepts(x.data, e) then Class(l, x) else []
  {
    hide Equivalent, Accepts, SoundOn;
    if l != [] {
      var k := |l| - 1;
      var y, rest := l[k], Scan(l[..k], e);
      assert y in l;
      ScanClass(l[..k], e, x, U);
      if Equivalent(y.data, x.data) { EquivalentAccept(U, y, x, e); }
      ClassAppend(rest, y, x);
      if Accepts(y.data, e) {
        assert Scan(l, e) == rest + [y];
      } else {
        assert Scan(l, e) == rest;
      }
    }
  }

  /** The pruned match against the naive scan: the same number of reports, the
    * same number per class, and, if the nodes hold exactly what is live, the same reports. */
  lemma MatchIsScan(N: set<Node>, U: iset<seq<Entry>>, live: seq<Subscription>, e: Event, hits: seq<Node>)
    requires Fits(N, U) && SoundOn(U) && Classed(N, U, live) && Lists(hits, Hits(N, e))
    ensures |Flat(hits)| == |Scan(live, e)|
    ensures forall x | x in live :: |Class(Flat(hits), x)| == if Accepts(x.data, e) then |Class(live, x)| else 0
    ensures Faithful(N, live) ==> multiset(Flat(hits)) == multiset(Scan(live, e))
  {
    InLower(hits, Hits(N, e));
    ClassesSelect(N, U, live, Hits(N, e), hits);
    SelectedScan(N, U, live, e);
    FlatSize(N, U, live, hits);
    SameSize(JoinedClasses(hits, live), Scan(live, e));
    forall x | x in live ensures |Class(Flat(hits), x)| == if Accepts(x.data, e) then |Class(live, x)| else 0 {
      FlatClass(N, U, live, hits, x);
      ClassSizeOrder(JoinedClasses(hits, live), Scan(live, e), x);
      ScanClass(live, e, x, U);
    }
    if Faithful(N, live) { FlatFaithful(N, live, hits); }
  }

  lemma {:induction false} ScanCount(l: seq<Subscription>, e: Event, x: Subscription)
    ensures multiset(Scan(l, e))[x] == if Accepts(x.data, e) then multiset(l)[x] else 0
  {
    if l != [] {
      ScanCount(l[..|l| - 1], e, x);
      assert l == l[..|l| - 1] + [l[|l| - 1]];
    }
  }

  function OnlyIf(b: bool, m: Subscription): multiset<Subscription> { if b then multiset{m} else multiset{} }

  lemma ScanWithout(l: seq<Subscription>, d: seq<Subscription>, m: Subscription, e: Event)
    requires multiset(l) == multiset(d) + multiset{m}
    ensures multiset(Scan(l, e)) == multiset(Scan(d, e)) + OnlyIf(Accepts(m.data, e), m)
    ensures |Scan(l, e)| == |Scan(d, e)| + if Accepts(m.data, e) then 1 else 0
  {
    var A, B := multiset(Scan(l, e)), multiset(Scan(d, e)) + OnlyIf(Accepts(m.data, e), m);
    forall x | x in A + B ensures A[x] == B[x] {
      ScanCount(l, e, x);
      ScanCount(d, e, x);
    }
    hide Scan, Accepts;
    SameMultiset(A, B);
    assert |A| == |Scan(l, e)| && |multiset(Scan(d, e))| == |Scan(d, e)|;
  }

  /** A removal of s leaves the reports of e right if and only if e is nothing to
    * s, or s is the newest of its class: the newest is the one that goes. */
  lemma RemovedScan(l: seq<Subscription>, s: Subscription, U: iset<seq<Entry>>, e: Event)
    requires Preorder(U) && SoundOn(U) && From(l, U) && NoDup(l) && s in l
    ensures Class(l, s) != [] && |Scan(DropNewest(l, s), e)| == |Scan(Erase(l, s), e)|
    ensures multiset(Scan(DropNewest(l, s), e)) == multiset(Scan(Erase(l, s), e)) <==>
      !Accepts(s.data, e) || s == Newest(l, s)
  {
    DropIsErase(l, s);
    DropCount(l, s);
    EraseCount(l, s);
    var n := Newest(l, s);
    ClassMember(l, s, n);
    EquivalentAccept(U, n, s, e);
    hide *;
    ScanWithout(l, DropNewest(l, s), n, e);
    ScanWithout(l, Erase(l, s), s, e);
    Balanced(multiset(Scan(DropNewest(l, s), e)), multiset(Scan(Erase(l, s), e)), n, s, Accepts(s.data, e));
  }

  lemma Balanced(A: multiset<Subscription>, B: multiset<Subscription>, n: Subscription, s: Subscription, b: bool)
    requires A + OnlyIf(b, n) == B + OnlyIf(b, s)
    ensures A == B <==> !b || s == n
  {
    if !b {
      assert A + multiset{} == A && B + multiset{} == B;
    } else if n == s {
      Cancel(A, B, s);
    } else {
      assert (A + multiset{n})[s] == A[s] && (B + multiset{s})[s] == B[s] + 1;
    }
  }

  function Mapped<A, B>(f: A -> B, l: seq<A>): (r: seq<B>)
    ensures |r| == |l| && forall i | 0 <= i < |l| :: r[i] == f(l[i])
  {
    if l == [] then [] else Mapped(f, l[..|l| - 1]) + [f(l[|l| - 1])]
  }

  lemma Without<T>(s: seq<T>, j: nat) returns (rest: seq<T>)
    requires j < |s|
    ensures rest == s[..j] + s[j + 1..] && multiset(s) == multiset(rest) + multiset{s[j]}
  {
    rest := s[..j] + s[j + 1..];
    assert s == s[..j] + [s[j]] + s[j + 1..];
  }

  lemma Cancel<T>(A: multiset<T>, B: multiset<T>, x: T)
    requires A + multiset{x} == B + multiset{x}
    ensures A == B
  {
    assert A == A + multiset{x} - multiset{x};
    assert B == B + multiset{x} - multiset{x};
  }

  lemma MappedWithout<A, B>(f: A -> B, l: seq<A>, j: nat)
    requires j < |l|
    ensures multiset(Mapped(f, l)) == multiset(Mapped(f, l[..j] + l[j + 1..])) + multiset{f(l[j])}
  {
    hide Mapped;
    var m, n := Mapped(f, l), Mapped(f, l[..j] + l[j + 1..]);
    var rest := Without(m, j);
    forall i | 0 <= i < |rest| ensures rest[i] == n[i] { assert rest[i] == m[if i < j then i else i + 1]; }
    assert rest == n;
  }

  /** Mapping does not depend on the order. */
  lemma {:induction false} MapSame<A, B>(f: A -> B, a: seq<A>, b: seq<A>)
    requires multiset(a) == multiset(b)
    ensures multiset(Mapped(f, a)) == multiset(Mapped(f, b))
  {
    hide *;
    SameSize(a, b);
    if a == [] {
      assert a == b;
    } else {
      var k := |a| - 1;
      var x := a[k];
      assert x in multiset(a) && x in multiset(b);
      var j :| 0 <= j < |b| && b[j] == x;
      var rest := Without(b, j);
      var front := Without(a, k);
      Cancel(multiset(front), multiset(rest), x);
      MapSame(f, front, rest);
      MappedWithout(f, b, j);
      MappedWithout(f, a, k);
    }
  }

  lemma SameSize<T>(a: seq<T>, b: seq<T>)
    requires multiset(a) == multiset(b)
    ensures |a| == |b|
  {
    assert |multiset(a)| == |a| && |multiset(b)| == |b|;
  }

  // ---------------------------------------------------------------------------
  // The traversal itself
  // ---------------------------------------------------------------------------

  /** The statistics of every node since they were t0 and m0. */
  ghost predicate Tallied(N: set<Node>, V: set<Node>, hits: seq<Node>, t0: map<Node, int>, m0: map<Node, int>)
    reads N`tests, N`matches
  {
    N <= t0.Keys && N <= m0.Keys &&
    forall n | n in N ::
      n.tests == t0[n] + (if n in V then 1 else 0) && n.matches == m0[n] + (if n in hits then 1 else 0)
  }

  ghost function TestsOf(N: set<Node>): map<Node, int> reads N`tests { map n | n in N :: n.tests }
  ghost function MatchesOf(N: set<Node>): map<Node, int> reads N`matches { map n | n in N :: n.matches }

  lemma StatsMean(N: set<Node>)
    ensures TestsOf(N).Keys == N && forall n | n in N :: TestsOf(N)[n] == n.tests
    ensures MatchesOf(N).Keys == N && forall n | n in N :: MatchesOf(N)[n] == n.matches
  {}

  lemma TalliedStart(N: set<Node>)
    ensures Tallied(N, {}, [], TestsOf(N), MatchesOf(N))
  {}

  ghost predicate Bounded(N: set<Node>)
    reads N`count, N`overriden
  {
    forall n | n in N :: 1 <= n.count <= |n.overriden| + 1
  }

  lemma CountsBounded(N: set<Node>, U: iset<seq<Entry>>, live: seq<Subscription>)
    requires Classed(N, U, live)
    ensures Bounded(N)
  {
    assert forall n | n in N :: Counts(n, U, live);
  }

  /** Append what a matching node reports; the accesses to its list are in bounds. */
  method Report(c: Node, matches: seq<Subscription>) returns (r: seq<Subscription>)
    requires 1 <= c.count <= |c.overriden| + 1
    ensures r == matches + Reported(c)
  {
    r := matches;
    var i := 0;
    while i < c.count
      invariant 0 <= i <= c.count
      invariant r == matches + ([c.sub] + c.overriden)[..i]
    {
      var cur := c.sub;
      if i > 0 { cur := c.overriden[i - 1]; }
      assert ([c.sub] + c.overriden)[..i + 1] == ([c.sub] + c.overriden)[..i] + [cur];
      r := r + [cur];
      i := i + 1;
    }
  }

  /** A node that this match has not stamped yet is stamped and tested. */
  method TestNode(c: Node, e: Event, id: int, ghost N: set<Node>, ghost V: set<Node>, ghost hits: seq<Node>,
                  ghost t0: map<Node, int>, ghost m0: map<Node, int>) returns (hit: bool)
    requires c in N && c !in V && c !in hits && V == Stamped(N, id) && LastUpTo(N, id) && Tallied(N, V, hits, t0, m0)
    modifies c`last, c`tests, c`matches
    ensures hit == Accepts(c.sub.data, e)
    ensures Stamped(N, id) == V + {c} && LastUpTo(N, id)
    ensures Tallied(N, V + {c}, if hit then hits + [c] else hits, t0, m0)
  {
    hide Accepts;
    c.last := id;
    c.tests := c.tests + 1;
    hit := c.sub.Matches(e);
    if hit { c.matches := c.matches + 1; }
  }

  /** The stack loop of Graph::match. */
  method Explore(roots: seq<Node>, e: Event, id: int, matches: seq<Subscription>, ghost N: set<Node>)
    returns (r: seq<Subscription>, matched: int, tested: int, ghost hits: seq<Node>, ghost V: set<Node>)
    requires Lists(roots, Roots(N)) && Drawn(N) && LastUpTo(N, id - 1) && Bounded(N)
    modifies N`last, N`tests, N`matches
    ensures Exploring(N, e, V, [], hits) && V == Stamped(N, id) && LastUpTo(N, id)
    ensures r == matches + Flat(hits) && matched == |Flat(hits)| && tested == |V|
    ensures Tallied(N, V, hits, old(TestsOf(N)), old(MatchesOf(N)))
  {
    hide *;
    var cands := roots;
    r, matched, tested, hits, V := matches, 0, 0, [], {};
    ghost var t0, m0 := TestsOf(N), MatchesOf(N);
    Fresh(N, id);
    ExploreStart(N, e, roots);
    TalliedStart(N);
    while cands != []
      invariant Exploring(N, e, V, cands, hits) && V == Stamped(N, id) && LastUpTo(N, id)
      invariant r == matches + Flat(hits) && matched == |Flat(hits)| && tested == |V|
      invariant Tallied(N, V, hits, t0, m0)
      decreases N - V, |cands|
    {
      var c := cands[|cands| - 1];
      StampedMeans(N, id, e, V, cands, hits);
      if c.last >= id {
        ExploreSkip(N, e, V, cands, hits);
        cands := cands[..|cands| - 1];
      } else {
        ListedBelow(N, c);
        ExploreTest(N, e, V, cands, hits, c.containees);
        cands := cands[..|cands| - 1];
        var hit := TestNode(c, e, id, N, V, hits, t0, m0);
        tested := tested + 1;
        if hit {
          BoundedAt(N, c);
          FlatStep(hits, c);
          r := Report(c, r);
          cands := cands + c.containees;
          matched := matched + c.count;
          hits := hits + [c];
        }
        V := V + {c};
      }
    }
  }

  lemma Fresh(N: set<Node>, id: int)
    requires LastUpTo(N, id - 1)
    ensures Stamped(N, id) == {} && LastUpTo(N, id) && Flat([]) == []
  {}

  lemma StampedMeans(N: set<Node>, id: int, e: Event, V: set<Node>, cands: seq<Node>, hits: seq<Node>)
    requires V == Stamped(N, id) && LastUpTo(N, id) && Exploring(N, e, V, cands, hits) && cands != []
    ensures cands[|cands| - 1] in N
    ensures cands[|cands| - 1].last >= id <==> cands[|cands| - 1] in V
  {
    assert cands[|cands| - 1] in cands;
  }

  lemma ListedBelow(N: set<Node>, c: Node)
    requires Drawn(N) && c in N
    ensures Lists(c.containees, Lower(N, c))
  {}

  lemma BoundedAt(N: set<Node>, c: Node)
    requires Bounded(N) && c in N
    ensures 1 <= c.count <= |c.overriden| + 1
  {}

  lemma FlatStep(hits: seq<Node>, c: Node)
    requires 1 <= c.count <= |c.overriden| + 1
    ensures Flat(hits + [c]) == Flat(hits) + Reported(c) && |Reported(c)| == c.count
  {
    assert (hits + [c])[..|hits|] == hits;
  }
}
