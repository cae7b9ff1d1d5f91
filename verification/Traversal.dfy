/** The recursive walks over the heap: the stamped collection of frontiers, the
  * greedy search, and the reachability tests. */
module Traversal {
  import opened Subscriptions
  import opened Containment
  import opened Diagram
  import opened DiagramUpdate

  /** The containee lists of N are E, each entry once. */
  ghost predicate DownLists(N: set<Node>, E: map<Node, set<Node>>)
    reads N`containees
  {
    N <= E.Keys && forall x | x in N :: Lists(x.containees, E[x])
  }

  ghost predicate UpLists(N: set<Node>, E: map<Node, set<Node>>)
    reads N`containers
  {
    N <= E.Keys && forall x | x in N :: Lists(x.containers, E[x])
  }

  /** Both edge lists of every node are the covering edges, each once. */
  ghost predicate Drawn(N: set<Node>)
    reads N`containees, N`containers
  {
    DownLists(N, LowerMap(N)) && UpLists(N, UpperMap(N))
  }

  /** One direction of the edges, with a rank that falls along them. */
  datatype Walk = Walk(next: map<Node, set<Node>>, rank: map<Node, set<Node>>)

  ghost predicate Ranked(w: Walk, N: set<Node>) {
    && w.next.Keys == N && w.rank.Keys == N
    && (forall x | x in N :: w.next[x] <= N)
    && (forall x, y | x in N && y in w.next[x] :: w.rank[y] < w.rank[x])
  }

  ghost function DownWalk(N: set<Node>, E: map<Node, set<Node>>): Walk { Walk(E, map x | x in N :: Below(N, x)) }
  ghost function UpWalk(N: set<Node>, E: map<Node, set<Node>>): Walk { Walk(E, map x | x in N :: Over(N, x)) }

  /** Edges that go down (up) in the order are ranked by the nodes below (above). */
  lemma DownRanked(N: set<Node>, U: iset<seq<Entry>>, E: map<Node, set<Node>>)
    requires Fits(N, U) && E.Keys == N && forall x, y | x in N && y in E[x] :: y in N && Above(x, y)
    ensures Ranked(DownWalk(N, E), N)
  {
    var w := DownWalk(N, E);
    forall x | x in N ensures w.next[x] <= N && forall y | y in w.next[x] :: w.rank[y] < w.rank[x] {
      DownRankedAt(N, U, E[x], x);
    }
  }

  lemma DownRankedAt(N: set<Node>, U: iset<seq<Entry>>, ys: set<Node>, x: Node)
    requires Fits(N, U) && x in N && forall y | y in ys :: y in N && Above(x, y)
    ensures ys <= N && forall y | y in ys :: Below(N, y) < Below(N, x)
  {
    forall y | y in ys ensures Below(N, y) < Below(N, x) { BelowShrinks(N, U, x, y); }
  }

  lemma UpRanked(N: set<Node>, U: iset<seq<Entry>>, E: map<Node, set<Node>>)
    requires Fits(N, U) && E.Keys == N && forall x, y | x in N && y in E[x] :: y in N && Above(y, x)
    ensures Ranked(UpWalk(N, E), N)
  {
    var w := UpWalk(N, E);
    forall x | x in N ensures w.next[x] <= N && forall y | y in w.next[x] :: w.rank[y] < w.rank[x] {
      UpRankedAt(N, U, E[x], x);
    }
  }

  lemma UpRankedAt(N: set<Node>, U: iset<seq<Entry>>, ys: set<Node>, x: Node)
    requires Fits(N, U) && x in N && forall y | y in ys :: y in N && Above(y, x)
    ensures ys <= N && forall y | y in ys :: Over(N, y) < Over(N, x)
  {
    forall y | y in ys ensures Over(N, y) < Over(N, x) { BelowShrinks(N, U, y, x); }
  }

  ghost function Stamped(N: set<Node>, id: int): set<Node>
    reads N`last
  {
    set x | x in N && x.last == id
  }

  ghost predicate AreContaining(N: set<Node>, s: Subscription, ok: set<Node>) {
    ok <= N && forall x | x in N :: x in ok <==> Includes(x.sub.data, s.data)
  }

  ghost predicate AreContained(N: set<Node>, s: Subscription, ok: set<Node>) {
    ok <= N && forall x | x in N :: x in ok <==> Includes(s.data, x.sub.data)
  }

  /** No stamp is newer than id. */
  ghost predicate LastUpTo(N: set<Node>, id: int)
    reads N`last
  {
    forall x | x in N :: x.last <= id
  }

  /** Of the neighbours in the list, those in ok are in V, and they are found many. */
  ghost predicate Progress(list: seq<Node>, ok: set<Node>, V: set<Node>, found: int) {
    if list == [] then found == 0
    else
      var k := |list| - 1;
      (list[k] in ok ==> list[k] in V) && Progress(list[..k], ok, V, if list[k] in ok then found - 1 else found)
  }

  lemma {:induction false} ProgressGrows(list: seq<Node>, ok: set<Node>, V: set<Node>, W: set<Node>, found: int)
    requires Progress(list, ok, V, found) && V <= W
    ensures Progress(list, ok, W, found)
  {
    if list != [] {
      var k := |list| - 1;
      ProgressGrows(list[..k], ok, V, W, if list[k] in ok then found - 1 else found);
    }
  }

  lemma ProgressStep(list: seq<Node>, i: nat, ok: set<Node>, V: set<Node>, W: set<Node>, before: int, found: int)
    requires i < |list| && Progress(list[..i], ok, V, before) && V <= W && (list[i] in ok ==> list[i] in W)
    requires found == if list[i] in ok then before + 1 else before
    ensures Progress(list[..i + 1], ok, W, found)
  {
    ProgressGrows(list[..i], ok, V, W, before);
    assert list[..i + 1][..i] == list[..i];
  }

  lemma {:induction false} ProgressAll(list: seq<Node>, ok: set<Node>, V: set<Node>, found: int)
    requires Progress(list, ok, V, found)
    ensures 0 <= found && (found == 0 <==> forall y | y in list :: y !in ok)
    ensures forall y | y in list && y in ok :: y in V
  {
    if list != [] {
      var k := |list| - 1;
      ProgressAll(list[..k], ok, V, if list[k] in ok then found - 1 else found);
      assert list == list[..k] + [list[k]];
    }
  }

  lemma ProgressDone(list: seq<Node>, S: set<Node>, ok: set<Node>, V: set<Node>, found: int)
    requires Progress(list, ok, V, found) && Lists(list, S)
    ensures S * ok <= V && (found == 0 <==> S * ok == {})
  {
    ProgressAll(list, ok, V, found);
    if y :| y in S * ok { assert y in list; }
    if y :| y in list && y in ok { assert y in S * ok; }
  }

  /** After all neighbours of x have been tried, x itself is listed if none was found. */
  lemma SweepDone(w: Walk, ok: set<Node>, x: Node, list: seq<Node>, found: int, V0: set<Node>, V: set<Node>,
                  c0: seq<Node>, c: seq<Node>)
    requires x in ok && x !in V0 && Sweep(w.next, ok, V0 + {x}, V, c0, c)
    requires Progress(list, ok, V, found) && Lists(list, w.next[x])
    ensures Sweep(w.next, ok, V0, V, c0, if found == 0 then c + [x] else c)
  {
    ProgressDone(list, w.next[x], ok, V, found);
    SweepNode(w.next, ok, x, V0, V, c0, c);
  }

  /** Node::find_containers: walk down from x, collecting the deepest nodes that contain s. */
  method FindContainers(x: Node, s: Subscription, c: seq<Node>, id: int, ghost w: Walk, ghost ok: set<Node>,
                        ghost N: set<Node>)
    returns (r: seq<Node>)
    requires Ranked(w, N) && DownLists(N, w.next) && AreContaining(N, s, ok) && x in ok && LastUpTo(N, id)
    modifies N`last
    decreases w.rank[x], 1
    ensures x in Stamped(N, id) && LastUpTo(N, id)
    ensures Sweep(w.next, ok, old(Stamped(N, id)), Stamped(N, id), c, r)
  {
    r := c;
    ghost var V0 := Stamped(N, id);
    if x.last == id {
      SweepNothing(w.next, ok, V0, c);
      return;
    }
    x.last := id;
    ghost var V := V0 + {x};
    assert Stamped(N, id) == V;
    SweepNothing(w.next, ok, V, c);
    var list, found, i := x.containees, 0, 0;
    while i < |list|
      invariant i <= |list| && V == Stamped(N, id) && LastUpTo(N, id)
      invariant Sweep(w.next, ok, V0 + {x}, V, c, r)
      invariant Progress(list[..i], ok, V, found)
    {
      var b;
      ghost var V1, before := V, found;
      b, r := FindContainersNext(list[i], s, V0 + {x}, c, r, id, w, ok, N, w.rank[x]);
      if b { found := found + 1; }
      V := Stamped(N, id);
      ProgressStep(list, i, ok, V1, V, before, found);
      i := i + 1;
    }
    assert list[..i] == list;
    SweepDone(w, ok, x, list, found, V0, V, c, r);
    if found == 0 { r := r + [x]; }
  }

  /** One candidate y: go there if it passes the containment test. */
  method FindContainersNext(y: Node, s: Subscription, ghost V: set<Node>, ghost c0: seq<Node>, c: seq<Node>,
                            id: int, ghost w: Walk, ghost ok: set<Node>, ghost N: set<Node>, ghost bound: set<Node>)
    returns (b: bool, r: seq<Node>)
    requires Ranked(w, N) && DownLists(N, w.next) && AreContaining(N, s, ok) && y in N && w.rank[y] < bound
    requires LastUpTo(N, id)
    requires Sweep(w.next, ok, V, Stamped(N, id), c0, c)
    modifies N`last
    decreases bound, 0
    ensures b == (y in ok) && (b ==> y in Stamped(N, id)) && LastUpTo(N, id) && old(Stamped(N, id)) <= Stamped(N, id)
    ensures Sweep(w.next, ok, V, Stamped(N, id), c0, r)
  {
    r := c;
    b := y.sub.GreaterEqual(s);
    if b {
      ghost var V1 := Stamped(N, id);
      r := FindContainers(y, s, c, id, w, ok, N);
      SweepCompose(w.next, ok, V, V1, Stamped(N, id), c0, c, r);
    }
  }

  /** Node::find_containees: walk up from x, collecting the highest nodes that s contains. */
  method FindContainees(x: Node, s: Subscription, c: seq<Node>, id: int, ghost w: Walk, ghost ok: set<Node>,
                        ghost N: set<Node>)
    returns (r: seq<Node>)
    requires Ranked(w, N) && UpLists(N, w.next) && AreContained(N, s, ok) && x in ok && LastUpTo(N, id)
    modifies N`last
    decreases w.rank[x], 1
    ensures x in Stamped(N, id) && LastUpTo(N, id)
    ensures Sweep(w.next, ok, old(Stamped(N, id)), Stamped(N, id), c, r)
  {
    r := c;
    ghost var V0 := Stamped(N, id);
    if x.last == id {
      SweepNothing(w.next, ok, V0, c);
      return;
    }
    x.last := id;
    ghost var V := V0 + {x};
    assert Stamped(N, id) == V;
    SweepNothing(w.next, ok, V, c);
    var list, found, i := x.containers, 0, 0;
    while i < |list|
      invariant i <= |list| && V == Stamped(N, id) && LastUpTo(N, id)
      invariant Sweep(w.next, ok, V0 + {x}, V, c, r)
      invariant Progress(list[..i], ok, V, found)
    {
      var b;
      ghost var V1, before := V, found;
      b, r := FindContaineesNext(list[i], s, V0 + {x}, c, r, id, w, ok, N, w.rank[x]);
      if b { found := found + 1; }
      V := Stamped(N, id);
      ProgressStep(list, i, ok, V1, V, before, found);
      i := i + 1;
    }
    assert list[..i] == list;
    SweepDone(w, ok, x, list, found, V0, V, c, r);
    if found == 0 { r := r + [x]; }
  }

  /** One candidate y: go there if it passes the containment test. */
  method FindContaineesNext(y: Node, s: Subscription, ghost V: set<Node>, ghost c0: seq<Node>, c: seq<Node>,
                            id: int, ghost w: Walk, ghost ok: set<Node>, ghost N: set<Node>, ghost bound: set<Node>)
    returns (b: bool, r: seq<Node>)
    requires Ranked(w, N) && UpLists(N, w.next) && AreContained(N, s, ok) && y in N && w.rank[y] < bound
    requires LastUpTo(N, id)
    requires Sweep(w.next, ok, V, Stamped(N, id), c0, c)
    modifies N`last
    decreases bound, 0
    ensures b == (y in ok) && (b ==> y in Stamped(N, id)) && LastUpTo(N, id) && old(Stamped(N, id)) <= Stamped(N, id)
    ensures Sweep(w.next, ok, V, Stamped(N, id), c0, r)
  {
    r := c;
    b := s.GreaterEqual(y.sub);
    if b {
      ghost var V1 := Stamped(N, id);
      r := FindContainees(y, s, c, id, w, ok, N);
      SweepCompose(w.next, ok, V, V1, Stamped(N, id), c0, c, r);
    }
  }

  // ---------------------------------------------------------------------------
  // Greedy search
  // ---------------------------------------------------------------------------

  /** The nodes at or below some element of v. */
  ghost function DownSet(N: set<Node>, v: seq<Node>): set<Node> {
    set y | y in N && exists x | x in v :: Geq(x, y)
  }

  lemma DownSetShrinks(N: set<Node>, U: iset<seq<Entry>>, v: seq<Node>, x: Node, w: seq<Node>)
    requires Fits(N, U) && x in v && x in N && (forall y | y in w :: y in Lower(N, x))
    ensures DownSet(N, w) < DownSet(N, v)
  {
    forall y | y in DownSet(N, w) ensures y in DownSet(N, v) && y != x {
      var z :| z in w && Geq(z, y);
      AboveTransitive(N, U, x, z, y);
    }
    assert x in DownSet(N, v);
  }

  /** The stored nodes equivalent to s; there is at most one. */
  ghost function Twins(N: set<Node>, s: Subscription): set<Node> {
    set e | e in N && Equivalent(e.sub.data, s.data)
  }

  /** Whatever is equivalent to s is at or below some element of v. */
  ghost predicate InReach(N: set<Node>, v: seq<Node>, s: Subscription) {
    (forall j | 0 <= j < |v| :: v[j] in N) && Twins(N, s) <= DownSet(N, v)
  }

  ghost predicate Found(N: set<Node>, s: Subscription, n: Node?) {
    if n == null then Twins(N, s) == {} else n in Twins(N, s)
  }

  /** A node equivalent to s that lies below the first container found lies below one of its children. */
  lemma SearchBelow(N: set<Node>, U: iset<seq<Entry>>, x: Node, s: Subscription, v: seq<Node>)
    requires Fits(N, U) && s.data in U && x in N && Lists(v, Lower(N, x))
    requires Includes(x.sub.data, s.data) && !Includes(s.data, x.sub.data)
    ensures InReach(N, v, s)
  {
    forall j | 0 <= j < |v| ensures v[j] in N { assert v[j] in v; }
    forall e | e in Twins(N, s) ensures e in DownSet(N, v) {
      var a, b, c := x.sub.data, s.data, e.sub.data;
      assert TransitiveAt(a, b, c) && TransitiveAt(b, c, a);
      var y := StepDown(N, U, x, e);
      assert y in v && Geq(y, e);
    }
  }

  lemma IncludesTransitive(U: iset<seq<Entry>>, a: seq<Entry>, b: seq<Entry>, c: seq<Entry>)
    requires Preorder(U) && a in U && b in U && c in U && Includes(a, b) && Includes(b, c)
    ensures Includes(a, c)
  {
    assert TransitiveAt(a, b, c);
  }

  lemma SearchFails(N: set<Node>, U: iset<seq<Entry>>, v: seq<Node>, s: Subscription)
    requires Fits(N, U) && s.data in U
    requires InReach(N, v, s) && forall j | 0 <= j < |v| :: !Includes(v[j].sub.data, s.data)
    ensures Twins(N, s) == {}
  {
    if e :| e in Twins(N, s) {
      assert e in DownSet(N, v);
      var x :| x in v && Geq(x, e);
      var j :| 0 <= j < |v| && v[j] == x;
      IncludesTransitive(U, x.sub.data, e.sub.data, s.data);
    }
  }

  /** Graph::search over a list of candidates: commit to the first one that
    * contains s. Complete although it never comes back. */
  method Search(v: seq<Node>, s: Subscription, ghost N: set<Node>, ghost U: iset<seq<Entry>>) returns (n: Node?)
    requires Fits(N, U) && Drawn(N) && s.data in U && InReach(N, v, s)
    decreases DownSet(N, v), 1
    ensures Found(N, s, n)
  {
    var i := 0;
    while i < |v|
      invariant i <= |v|
      invariant forall j | 0 <= j < i :: !Includes(v[j].sub.data, s.data)
    {
      var b := v[i].sub.GreaterEqual(s);
      if b {
        n := SearchAt(v[i], s, v, N, U);
        return;
      }
      i := i + 1;
    }
    SearchFails(N, U, v, s);
    return null;
  }

  /** The first container x of s decides. */
  method SearchAt(x: Node, s: Subscription, ghost v: seq<Node>, ghost N: set<Node>, ghost U: iset<seq<Entry>>)
    returns (n: Node?)
    requires Fits(N, U) && Drawn(N) && s.data in U && x in N && x in v && Includes(x.sub.data, s.data)
    decreases DownSet(N, v), 0
    ensures Found(N, s, n)
  {
    var b := s.GreaterEqual(x.sub);
    if b { return x; }
    SearchBelow(N, U, x, s, x.containees);
    DownSetShrinks(N, U, v, x, x.containees);
    n := Search(x.containees, s, N, U);
  }

  // ---------------------------------------------------------------------------
  // Reachability
  // ---------------------------------------------------------------------------

  /** b can be reached from a along the edges of w. */
  ghost predicate Path(w: Walk, M: set<Node>, a: Node, b: Node)
    requires Ranked(w, M) && a in M
    decreases w.rank[a]
  {
    exists m | m in w.next[a] :: m == b || Path(w, M, m, b)
  }

  /** Node::descendant */
  method Descendant(c: Node, p: Node, ghost w: Walk, ghost M: set<Node>) returns (r: bool)
    requires Ranked(w, M) && UpLists(M, w.next) && c in M
    decreases w.rank[c]
    ensures r == Path(w, M, c, p)
  {
    var list, i := c.containers, 0;
    while i < |list|
      invariant i <= |list|
      invariant forall m | m in list[..i] :: m != p && !Path(w, M, m, p)
    {
      var m := list[i];
      assert m in w.next[c];
      if m == p { return true; }
      r := Descendant(m, p, w, M);
      if r { return; }
      assert list[..i + 1] == list[..i] + [list[i]];
      i := i + 1;
    }
    assert list[..i] == list;
    return false;
  }

  /** Node::ancestor */
  method Ancestor(p: Node, c: Node, ghost w: Walk, ghost M: set<Node>) returns (r: bool)
    requires Ranked(w, M) && DownLists(M, w.next) && p in M
    decreases w.rank[p]
    ensures r == Path(w, M, p, c)
  {
    var list, i := p.containees, 0;
    while i < |list|
      invariant i <= |list|
      invariant forall m | m in list[..i] :: m != c && !Path(w, M, m, c)
    {
      var m := list[i];
      assert m in w.next[p];
      if m == c { return true; }
      r := Ancestor(m, c, w, M);
      if r { return; }
      assert list[..i + 1] == list[..i] + [list[i]];
      i := i + 1;
    }
    assert list[..i] == list;
    return false;
  }

  lemma {:induction false} PathUpAbove(w: Walk, M: set<Node>, U: iset<seq<Entry>>, c: Node, p: Node)
    requires Fits(M, U) && Ranked(w, M) && c in M && Path(w, M, c, p)
    requires forall x, y | x in M && y in w.next[x] :: Above(y, x)
    decreases w.rank[c]
    ensures p in M && Above(p, c)
  {
    var m :| m in w.next[c] && (m == p || Path(w, M, m, p));
    if m != p {
      PathUpAbove(w, M, U, m, p);
      AboveTransitive(M, U, p, m, c);
    }
  }

  lemma {:induction false} PathDownAbove(w: Walk, M: set<Node>, U: iset<seq<Entry>>, p: Node, c: Node)
    requires Fits(M, U) && Ranked(w, M) && p in M && Path(w, M, p, c)
    requires forall x, y | x in M && y in w.next[x] :: Above(x, y)
    decreases w.rank[p]
    ensures c in M && Above(p, c)
  {
    var m :| m in w.next[p] && (m == c || Path(w, M, m, c));
    if m != c {
      PathDownAbove(w, M, U, m, c);
      AboveTransitive(M, U, p, m, c);
    }
  }

  /** Edges on the nodes left without n: upward, and at least the old covering edges among them. */
  ghost predicate UpAround(w: Walk, N: set<Node>, n: Node) {
    && Ranked(w, N - {n})
    && (forall x, y | x in N - {n} && y in w.next[x] :: Above(y, x))
    && (forall x | x in N - {n} :: Upper(N, x) - {n} <= w.next[x])
  }

  ghost predicate DownAround(w: Walk, N: set<Node>, n: Node) {
    && Ranked(w, N - {n})
    && (forall x, y | x in N - {n} && y in w.next[x] :: Above(x, y))
    && (forall x | x in N - {n} :: Lower(N, x) - {n} <= w.next[x])
  }

  /** A containment that does not go through n is still a path. */
  lemma {:induction false} PathUpAround(w: Walk, N: set<Node>, U: iset<seq<Entry>>, n: Node, c: Node, p: Node)
    requires Fits(N, U) && n in N && UpAround(w, N, n)
    requires c in N - {n} && p in N - {n} && Above(p, c) && !(Above(p, n) && Above(n, c))
    decreases w.rank[c]
    ensures Path(w, N - {n}, c, p)
  {
    var m := StepUp(N, U, p, c);
    AboveIffDistinct(N, U, p, m);
    assert m != n && m in w.next[c];
    if m != p {
      if Above(n, m) { AboveTransitive(N, U, n, m, c); }
      PathUpAround(w, N, U, n, m, p);
    }
  }

  lemma {:induction false} PathDownAround(w: Walk, N: set<Node>, U: iset<seq<Entry>>, n: Node, p: Node, c: Node)
    requires Fits(N, U) && n in N && DownAround(w, N, n)
    requires c in N - {n} && p in N - {n} && Above(p, c) && !(Above(p, n) && Above(n, c))
    decreases w.rank[p]
    ensures Path(w, N - {n}, p, c)
  {
    var m := StepDown(N, U, p, c);
    AboveIffDistinct(N, U, m, c);
    assert m != n && m in w.next[p];
    if m != c {
      if Above(m, n) { AboveTransitive(N, U, p, m, n); }
      PathDownAround(w, N, U, n, m, c);
    }
  }

  /** For a parent p and child c of the removed node that are not linked yet,
    * the reachability test fails exactly when they must be linked, whichever
    * other pairs have been linked before. */
  lemma DescendantDecides(w: Walk, N: set<Node>, U: iset<seq<Entry>>, n: Node, p: Node, c: Node)
    requires Fits(N, U) && n in N && UpAround(w, N, n)
    requires p in Upper(N, n) && c in Lower(N, n) && p !in w.next[c]
    ensures Path(w, N - {n}, c, p) <==> !Covers(N - {n}, p, c)
  {
    if Path(w, N - {n}, c, p) {
      var m :| m in w.next[c] && (m == p || Path(w, N - {n}, m, p));
      PathUpAbove(w, N - {n}, U, m, p);
    }
    if !Covers(N - {n}, p, c) { UncoveredPathUp(w, N, U, n, p, c); }
  }

  lemma UncoveredPathUp(w: Walk, N: set<Node>, U: iset<seq<Entry>>, n: Node, p: Node, c: Node)
    requires Fits(N, U) && n in N && UpAround(w, N, n)
    requires p in Upper(N, n) && c in Lower(N, n) && !Covers(N - {n}, p, c)
    ensures Path(w, N - {n}, c, p)
  {
    AboveTransitive(N, U, p, n, c);
    var b :| b in N - {n} && Above(p, b) && Above(b, c);
    var m := StepUp(N, U, b, c);
    if m == n { AboveIffDistinct(N, U, b, n); }
    AboveTransitive(N, U, p, b, m);
    PathUpAround(w, N, U, n, m, p);
  }

  lemma AncestorDecides(w: Walk, N: set<Node>, U: iset<seq<Entry>>, n: Node, p: Node, c: Node)
    requires Fits(N, U) && n in N && DownAround(w, N, n)
    requires p in Upper(N, n) && c in Lower(N, n) && c !in w.next[p]
    ensures Path(w, N - {n}, p, c) <==> !Covers(N - {n}, p, c)
  {
    if Path(w, N - {n}, p, c) {
      var m :| m in w.next[p] && (m == c || Path(w, N - {n}, m, c));
      PathDownAbove(w, N - {n}, U, m, c);
    }
    if !Covers(N - {n}, p, c) { UncoveredPathDown(w, N, U, n, p, c); }
  }

  lemma UncoveredPathDown(w: Walk, N: set<Node>, U: iset<seq<Entry>>, n: Node, p: Node, c: Node)
    requires Fits(N, U) && n in N && DownAround(w, N, n)
    requires p in Upper(N, n) && c in Lower(N, n) && !Covers(N - {n}, p, c)
    ensures Path(w, N - {n}, p, c)
  {
    AboveTransitive(N, U, p, n, c);
    var b :| b in N - {n} && Above(p, b) && Above(b, c);
    var m := StepDown(N, U, p, b);
    if m == n { AboveIffDistinct(N, U, n, b); }
    AboveTransitive(N, U, m, b, c);
    PathDownAround(w, N, U, n, m, c);
  }
}
