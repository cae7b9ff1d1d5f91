/** The order on graph nodes and its covering (Hasse) diagram. A node's
  * subscription never changes, so nothing here depends on the heap. */
module Diagram {
  import opened Subscriptions
  import opened Containment

  class Node {
    const sub: Subscription
    var overriden: seq<Subscription>
    var containers: seq<Node>
    var containees: seq<Node>
    var count: int
    var last: int
    var depthMin: int
    var depthMax: int
    var matches: int
    var tests: int

    constructor (s: Subscription)
      ensures sub == s && overriden == [] && containers == [] && containees == []
      ensures count == 1 && last == 0 && depthMin == 0 && depthMax == 0 && matches == 0 && tests == 0
    {
      sub := s;
      overriden, containers, containees := [], [], [];
      count, last, depthMin, depthMax, matches, tests := 1, 0, 0, 0, 0, 0;
    }
  }

  predicate Geq(a: Node, b: Node) { Includes(a.sub.data, b.sub.data) }

  predicate Above(a: Node, b: Node) { StrictlyIncludes(a.sub.data, b.sub.data) }

  /** The nodes come from a family on which containment is a preorder, and no two are equivalent. */
  ghost predicate Fits(N: set<Node>, U: iset<seq<Entry>>) {
    && Preorder(U)
    && (forall n | n in N :: n.sub.data in U)
    && (forall a, b | a in N && b in N && Geq(a, b) && Geq(b, a) :: a == b)
  }

  /** p strictly contains c and no stored node lies strictly between. */
  ghost predicate Covers(N: set<Node>, p: Node, c: Node) {
    p in N && c in N && Above(p, c) && forall m | m in N :: !(Above(p, m) && Above(m, c))
  }

  ghost function Lower(N: set<Node>, p: Node): set<Node> { set c | c in N && Covers(N, p, c) }
  ghost function Upper(N: set<Node>, c: Node): set<Node> { set p | p in N && Covers(N, p, c) }
  ghost function Below(N: set<Node>, x: Node): set<Node> { set y | y in N && Above(x, y) }
  ghost function Over(N: set<Node>, x: Node): set<Node> { set y | y in N && Above(y, x) }
  ghost function Roots(N: set<Node>): set<Node> { set r | r in N && Over(N, r) == {} }
  ghost function Leaves(N: set<Node>): set<Node> { set l | l in N && Below(N, l) == {} }

  lemma AboveTransitive(N: set<Node>, U: iset<seq<Entry>>, a: Node, b: Node, c: Node)
    requires Fits(N, U) && a in N && b in N && c in N
    requires (Above(a, b) && Geq(b, c)) || (Geq(a, b) && Above(b, c))
    ensures Above(a, c)
  {
    var x, y, z := a.sub.data, b.sub.data, c.sub.data;
    assert TransitiveAt(x, y, z) && TransitiveAt(y, z, x) && TransitiveAt(z, x, y);
  }

  lemma GeqTransitive(N: set<Node>, U: iset<seq<Entry>>, a: Node, b: Node, c: Node)
    requires Fits(N, U) && a in N && b in N && c in N && Geq(a, b) && Geq(b, c)
    ensures Geq(a, c)
  {
    assert TransitiveAt(a.sub.data, b.sub.data, c.sub.data);
  }

  lemma AboveIffDistinct(N: set<Node>, U: iset<seq<Entry>>, a: Node, b: Node)
    requires Fits(N, U) && a in N && b in N
    ensures Above(a, b) <==> Geq(a, b) && a != b
  {}

  /** Every non-empty set of nodes has a maximal element... */
  lemma {:induction false} MaximalIn(N: set<Node>, U: iset<seq<Entry>>, X: set<Node>) returns (m: Node)
    requires Fits(N, U) && X <= N && X != {}
    ensures m in X && forall y | y in X :: !Above(y, m)
    decreases X
  {
    m :| m in X;
    if z :| z in X && Above(z, m) {
      var Y := set y | y in X && Above(y, m);
      assert z in Y && m !in Y;
      var top := MaximalIn(N, U, Y);
      forall y | y in X ensures !Above(y, top) {
        if Above(y, top) { AboveTransitive(N, U, y, top, m); }
      }
      m := top;
    }
  }

  /** ... and a minimal one. */
  lemma {:induction false} MinimalIn(N: set<Node>, U: iset<seq<Entry>>, X: set<Node>) returns (m: Node)
    requires Fits(N, U) && X <= N && X != {}
    ensures m in X && forall y | y in X :: !Above(m, y)
    decreases X
  {
    m :| m in X;
    if z :| z in X && Above(m, z) {
      var Y := set y | y in X && Above(m, y);
      assert z in Y && m !in Y;
      var bottom := MinimalIn(N, U, Y);
      forall y | y in X ensures !Above(bottom, y) {
        if Above(bottom, y) { AboveTransitive(N, U, m, bottom, y); }
      }
      m := bottom;
    }
  }

  /** Strict containment starts with a covering edge down from p... */
  lemma StepDown(N: set<Node>, U: iset<seq<Entry>>, p: Node, c: Node) returns (m: Node)
    requires Fits(N, U) && p in N && c in N && Above(p, c)
    ensures m in Lower(N, p) && Geq(m, c)
  {
    var X := set x | x in N && Above(p, x) && Geq(x, c);
    assert c in X;
    m := MaximalIn(N, U, X);
    forall x | x in N && Above(p, x) ensures !Above(x, m) {
      if Above(x, m) { AboveTransitive(N, U, x, m, c); }
    }
  }

  /** ... and ends with one up from c. */
  lemma StepUp(N: set<Node>, U: iset<seq<Entry>>, p: Node, c: Node) returns (m: Node)
    requires Fits(N, U) && p in N && c in N && Above(p, c)
    ensures m in Upper(N, c) && Geq(p, m)
  {
    var X := set x | x in N && Above(x, c) && Geq(p, x);
    assert p in X;
    m := MinimalIn(N, U, X);
    forall x | x in N && Above(x, c) ensures !Above(m, x) {
      if Above(m, x) { AboveTransitive(N, U, p, m, x); }
    }
  }

  lemma RootOver(N: set<Node>, U: iset<seq<Entry>>, c: Node) returns (r: Node)
    requires Fits(N, U) && c in N
    ensures r in Roots(N) && Geq(r, c)
  {
    var X := set x | x in N && Geq(x, c);
    assert c in X;
    r := MaximalIn(N, U, X);
    forall y | y in N ensures !Above(y, r) {
      if Above(y, r) { AboveTransitive(N, U, y, r, c); }
    }
  }

  /** A node is a root exactly when nothing covers it, and a leaf when it covers nothing. */
  lemma RootIffNoUpper(N: set<Node>, U: iset<seq<Entry>>, x: Node)
    requires Fits(N, U) && x in N
    ensures x in Roots(N) <==> Upper(N, x) == {}
    ensures x in Leaves(N) <==> Lower(N, x) == {}
  {
    if y :| y in Over(N, x) { var m := StepUp(N, U, y, x); }
    if p :| p in Upper(N, x) { assert p in Over(N, x); }
    if y :| y in Below(N, x) { var m := StepDown(N, U, x, y); }
    if c :| c in Lower(N, x) { assert c in Below(N, x); }
  }

  // ---------------------------------------------------------------------------
  // Lists without repetition
  // ---------------------------------------------------------------------------

  ghost predicate NoDup<T>(s: seq<T>) {
    forall i, j | 0 <= i < j < |s| :: s[i] != s[j]
  }

  /** s lists exactly the elements of S, each once. */
  ghost predicate Lists<T>(s: seq<T>, S: set<T>) {
    NoDup(s) && (forall x | x in s :: x in S) && (forall x | x in S :: x in s)
  }

  lemma {:induction false} ListsSize<T>(s: seq<T>, S: set<T>)
    requires Lists(s, S)
    ensures |s| == |S|
  {
    if s == [] {
      assert S == {};
    } else {
      var k := |s| - 1;
      assert s == s[..k] + [s[k]];
      ListsSize(s[..k], S - {s[k]});
    }
  }

  /** The erase-remove idiom: drop every occurrence. */
  function Erase<T(==)>(s: seq<T>, x: T): seq<T> {
    if s == [] then [] else (if s[0] == x then [] else [s[0]]) + Erase(s[1..], x)
  }

  lemma {:induction false} EraseMember<T>(s: seq<T>, x: T, y: T)
    ensures y in Erase(s, x) <==> y in s && y != x
  {
    if s != [] { EraseMember(s[1..], x, y); assert s == [s[0]] + s[1..]; }
  }

  lemma {:induction false} EraseNoDup<T>(s: seq<T>, x: T)
    requires NoDup(s)
    ensures NoDup(Erase(s, x))
  {
    if s != [] {
      EraseNoDup(s[1..], x);
      EraseMember(s[1..], x, s[0]);
    }
  }

  lemma EraseLists<T>(s: seq<T>, x: T, S: set<T>)
    requires Lists(s, S)
    ensures Lists(Erase(s, x), S - {x})
  {
    EraseNoDup(s, x);
    forall y | y in Erase(s, x) ensures y in S - {x} { EraseMember(s, x, y); }
    forall y | y in S - {x} ensures y in Erase(s, x) { EraseMember(s, x, y); }
  }

  lemma {:induction false} EraseAppend<T>(l: seq<T>, x: T, s: T)
    ensures Erase(l + [x], s) == Erase(l, s) + if x == s then [] else [x]
  {
    if l == [] {
      assert l + [x] == [x];
    } else {
      EraseAppend(l[1..], x, s);
      assert (l + [x])[1..] == l[1..] + [x];
    }
  }

  lemma {:induction false} EraseAbsent<T>(l: seq<T>, s: T)
    requires s !in l
    ensures Erase(l, s) == l
  {
    if l != [] { EraseAbsent(l[1..], s); }
  }

  lemma {:induction false} EraseCount<T>(l: seq<T>, s: T)
    requires NoDup(l) && s in l
    ensures multiset(l) == multiset(Erase(l, s)) + multiset{s}
  {
    assert l == [l[0]] + l[1..];
    if l[0] == s {
      assert s !in l[1..];
      EraseAbsent(l[1..], s);
    } else {
      EraseCount(l[1..], s);
    }
  }

  lemma AppendLists<T>(s: seq<T>, x: T, S: set<T>)
    requires Lists(s, S) && x !in S
    ensures Lists(s + [x], S + {x})
  {}

  lemma ListsEmpty<T>(s: seq<T>, S: set<T>)
    requires Lists(s, S)
    ensures s == [] <==> S == {}
  {
    if s != [] { assert s[0] in S; }
  }
}
