/** Taking the graph down. The memory of the nodes is explicit here: a node that
  * has been freed is no longer in it, so it can be neither used nor freed again. */
module Destruction {
  import opened Diagram
  import opened Traversal
  import opened Edges

  datatype Links = Links(containers: seq<Node>, containees: seq<Node>)

  // ---------------------------------------------------------------------------
  // What clearing a node does, with a bound on the depth of recursion
  // ---------------------------------------------------------------------------

  /** Stuck: the bound was reached, or a freed node was used. */
  datatype End = Stuck | Left(links: map<Node, Links>)

  /** x has been erased from the containees of these nodes. */
  function Unlinked(links: map<Node, Links>, x: Node, parents: seq<Node>): End {
    if parents == [] then Left(links)
    else
      var k := |parents| - 1;
      match Unlinked(links, x, parents[..k])
      case Stuck => Stuck
      case Left(m) =>
        var p := parents[k];
        if p in m then Left(m[p := m[p].(containees := Erase(m[p].containees, x))]) else Stuck
  }

  /** Node::clear: the first containee is cleared and freed, and so on until there
    * is none; then x leaves the lists of its containers. */
  function ClearBy(links: map<Node, Links>, x: Node, bound: nat): End
    decreases bound
  {
    if bound == 0 || x !in links then Stuck
    else if links[x].containees == [] then Unlinked(links, x, links[x].containers)
    else
      var n := links[x].containees[0];
      match ClearBy(links, n, bound - 1)
      case Stuck => Stuck
      case Left(m) => if n in m then ClearBy(m - {n}, x, bound - 1) else Stuck
  }

  /** Clearing x ends, and leaves m. */
  ghost predicate Clears(links: map<Node, Links>, x: Node, m: map<Node, Links>) {
    exists bound: nat :: ClearBy(links, x, bound) == Left(m)
  }

  lemma {:induction false} HigherBound(links: map<Node, Links>, x: Node, a: nat, b: nat)
    requires a <= b && ClearBy(links, x, a).Left?
    ensures ClearBy(links, x, b) == ClearBy(links, x, a)
    decreases a
  {
    hide Unlinked;
    if links[x].containees != [] {
      var n := links[x].containees[0];
      HigherBound(links, n, a - 1, b - 1);
      HigherBound(ClearBy(links, n, a - 1).links - {n}, x, a - 1, b - 1);
    }
  }

  lemma ClearsOnce(links: map<Node, Links>, x: Node, l: map<Node, Links>, m: map<Node, Links>)
    requires Clears(links, x, l) && Clears(links, x, m)
    ensures l == m
  {
    var a: nat :| ClearBy(links, x, a) == Left(l);
    var b: nat :| ClearBy(links, x, b) == Left(m);
    HigherBound(links, x, a, a + b);
    HigherBound(links, x, b, a + b);
  }

  lemma ClearsBare(links: map<Node, Links>, x: Node, m: map<Node, Links>)
    requires x in links && links[x].containees == [] && Unlinked(links, x, links[x].containers) == Left(m)
    ensures Clears(links, x, m)
  {
    assert ClearBy(links, x, 1) == Left(m);
  }

  lemma ClearsNext(links: map<Node, Links>, x: Node, n: Node, m: map<Node, Links>, l: map<Node, Links>)
    requires x in links && links[x].containees != [] && n == links[x].containees[0]
    requires Clears(links, n, m) && n in m && Clears(m - {n}, x, l)
    ensures Clears(links, x, l)
  {
    var a: nat :| ClearBy(links, n, a) == Left(m);
    var b: nat :| ClearBy(m - {n}, x, b) == Left(l);
    HigherBound(links, n, a, a + b);
    HigherBound(m - {n}, x, b, a + b);
    assert ClearBy(links, x, a + b + 1) == Left(l);
  }

  lemma ClearsRest(links: map<Node, Links>, x: Node, n: Node, m: map<Node, Links>, l: map<Node, Links>)
    requires x in links && links[x].containees != [] && n == links[x].containees[0]
    requires Clears(links, x, l) && Clears(links, n, m)
    ensures n in m && Clears(m - {n}, x, l)
  {
    var b: nat :| ClearBy(links, x, b) == Left(l);
    var w := ClearBy(links, n, b - 1).links;
    assert Clears(links, n, w) by { assert ClearBy(links, n, b - 1) == Left(w); }
    ClearsOnce(links, n, m, w);
    assert ClearBy(m - {n}, x, b - 1) == Left(l);
  }

  /** Graph::~Graph: every root is cleared and freed. */
  function DestroyBy(links: map<Node, Links>, roots: seq<Node>, bound: nat): End
    decreases roots
  {
    if roots == [] then Left(links)
    else
      match ClearBy(links, roots[0], bound)
      case Stuck => Stuck
      case Left(m) => if roots[0] in m then DestroyBy(m - {roots[0]}, roots[1..], bound) else Stuck
  }

  /** Destruction ends, and leaves m. */
  ghost predicate Destroys(links: map<Node, Links>, roots: seq<Node>, m: map<Node, Links>) {
    exists bound: nat :: DestroyBy(links, roots, bound) == Left(m)
  }

  lemma {:induction false} DestroyHigher(links: map<Node, Links>, roots: seq<Node>, a: nat, b: nat)
    requires a <= b && DestroyBy(links, roots, a).Left?
    ensures DestroyBy(links, roots, b) == DestroyBy(links, roots, a)
    decreases roots
  {
    hide ClearBy;
    if roots != [] {
      HigherBound(links, roots[0], a, b);
      DestroyHigher(ClearBy(links, roots[0], a).links - {roots[0]}, roots[1..], a, b);
    }
  }

  lemma DestroysNext(links: map<Node, Links>, roots: seq<Node>, m: map<Node, Links>, l: map<Node, Links>)
    requires roots != [] && Clears(links, roots[0], m) && roots[0] in m && Destroys(m - {roots[0]}, roots[1..], l)
    ensures Destroys(links, roots, l)
  {
    hide ClearBy;
    var a: nat :| ClearBy(links, roots[0], a) == Left(m);
    var b: nat :| DestroyBy(m - {roots[0]}, roots[1..], b) == Left(l);
    HigherBound(links, roots[0], a, a + b);
    DestroyHigher(m - {roots[0]}, roots[1..], b, a + b);
    assert DestroyBy(links, roots, a + b) == Left(l);
  }

  lemma DestroysNone(links: map<Node, Links>)
    ensures Destroys(links, [], links)
  {
    assert DestroyBy(links, [], 0) == Left(links);
  }

  // ---------------------------------------------------------------------------
  // Symmetric edges
  // ---------------------------------------------------------------------------

  /** With a node everything above it is still allocated. */
  ghost predicate UpClosed(N: set<Node>, g: Shape, A: set<Node>) {
    A <= N && A <= g.up.Keys && forall c | c in A :: g.up[c] <= A
  }

  /** The allocated nodes refer to all of their containers, and to those of their
    * containees that are still allocated. */
  ghost predicate Standing(N: set<Node>, g: Shape, links: map<Node, Links>) {
    && UpClosed(N, g, links.Keys) && N <= g.down.Keys
    && (forall y | y in links :: Lists(links[y].containers, g.up[y]))
    && (forall y | y in links :: Lists(links[y].containees, g.down[y] * links.Keys))
  }

  lemma {:induction false} UpAlong(N: set<Node>, g: Shape, A: set<Node>, x: Node, y: Node)
    requires Layered(N, g) && UpClosed(N, g, A) && x in g.rank && y in Beneath(g, x) && y in A
    ensures x in A
    decreases g.rank[x]
  {
    var c := BeneathBack(g, x, y);
    if c != y { UpAlong(N, g, A, c, y); }
    assert x in g.up[c];
  }

  /** Freeing a node with all below it. */
  lemma CutDown(N: set<Node>, g: Shape, A: set<Node>, x: Node)
    requires Layered(N, g) && UpClosed(N, g, A) && x in A && x in g.rank
    ensures UpClosed(N, g, A - Beneath(g, x)) && UpClosed(N, g, A - Beneath(g, x) - {x})
  {
    forall c, p | c in A && c !in Beneath(g, x) && p in g.up[c]
      ensures p !in Beneath(g, x) && (c != x ==> p != x)
    {
      assert c in g.down[p];
      if p in Beneath(g, x) { BeneathClosed(g, x, p); }
      if p == x { BeneathStep(g, x, c); }
    }
  }

  /** With its containees gone, everything below x is gone. */
  lemma NothingBelow(N: set<Node>, g: Shape, A: set<Node>, x: Node)
    requires Layered(N, g) && UpClosed(N, g, A) && x in g.rank && g.down[x] * A == {}
    ensures A * Beneath(g, x) == {}
  {
    forall c | c in Beneath(g, x) ensures c !in A {
      var d := BeneathBack(g, x, c);
      if d != c && c in A { UpAlong(N, g, A, d, c); }
      assert d in A ==> d in g.down[x] * A;
    }
  }

  /** x has been taken out of the lists of its containers and is about to be freed. */
  ghost predicate Detached(N: set<Node>, g: Shape, links: map<Node, Links>, x: Node) {
    && x in links && UpClosed(N, g, links.Keys) && UpClosed(N, g, links.Keys - {x}) && N <= g.down.Keys
    && (forall y | y in links :: Lists(links[y].containers, g.up[y]))
    && (forall y | y in links && y != x :: Lists(links[y].containees, g.down[y] * (links.Keys - {x})))
  }

  lemma DetachedFreed(N: set<Node>, g: Shape, links: map<Node, Links>, x: Node)
    requires Detached(N, g, links, x)
    ensures x in links && Standing(N, g, links - {x}) && (links - {x}).Keys == links.Keys - {x}
  {
    assert (links - {x}).Keys == links.Keys - {x};
  }

  lemma FirstContainee(N: set<Node>, g: Shape, links: map<Node, Links>, x: Node)
    requires Layered(N, g) && Standing(N, g, links) && x in links && x in g.rank && links[x].containees != []
    ensures var n := links[x].containees[0];
      && n in links && n in g.rank && g.rank[n] < g.rank[x] && Beneath(g, n) + {n} <= Beneath(g, x)
      && x !in Beneath(g, n) + {n}
  {
    var n := links[x].containees[0];
    assert n in links[x].containees;
    BeneathStep(g, x, n);
    if x in Beneath(g, n) { BeneathClosed(g, n, x); }
  }

  /** x has been erased from the containee lists of the first i of its containers. */
  ghost predicate Erasing(N: set<Node>, g: Shape, links: map<Node, Links>, x: Node, parents: seq<Node>, i: nat)
    requires i <= |parents|
  {
    && x in links && UpClosed(N, g, links.Keys) && N <= g.down.Keys && Lists(parents, g.up[x])
    && (forall y | y in links :: Lists(links[y].containers, g.up[y]))
    && (forall y | y in links && y !in parents[..i] && y != x :: Lists(links[y].containees, g.down[y] * links.Keys))
    && (forall y | y in links && y in parents[..i] :: Lists(links[y].containees, g.down[y] * (links.Keys - {x})))
  }

  lemma EraseFirst(N: set<Node>, g: Shape, links: map<Node, Links>, x: Node)
    requires Standing(N, g, links) && x in links
    ensures Erasing(N, g, links, x, links[x].containers, 0)
  {}

  /** The next container is allocated. */
  lemma EraseNext(N: set<Node>, g: Shape, links: map<Node, Links>, x: Node, parents: seq<Node>, i: nat)
    requires i < |parents| && Erasing(N, g, links, x, parents, i) && x !in g.up[x]
    ensures parents[i] in links && parents[i] != x
    ensures var p := parents[i];
      Erasing(N, g, links[p := links[p].(containees := Erase(links[p].containees, x))], x, parents, i + 1)
  {
    var p := parents[i];
    assert p in parents && p in g.up[x];
    assert p !in parents[..i];
    var A := links.Keys;
    EraseLists(links[p].containees, x, g.down[p] * A);
    assert g.down[p] * A - {x} == g.down[p] * (A - {x});
    hide Erase;
    var w := links[p := links[p].(containees := Erase(links[p].containees, x))];
    assert w.Keys == A;
    assert parents[..i + 1] == parents[..i] + [p];
  }

  lemma {:induction false} EraseBy(N: set<Node>, g: Shape, links: map<Node, Links>, x: Node, parents: seq<Node>, i: nat)
    returns (m: map<Node, Links>)
    requires i <= |parents| && Erasing(N, g, links, x, parents, 0) && x !in g.up[x]
    ensures Unlinked(links, x, parents[..i]) == Left(m) && m.Keys == links.Keys && Erasing(N, g, m, x, parents, i)
  {
    if i == 0 {
      m := links;
    } else {
      m := EraseBy(N, g, links, x, parents, i - 1);
      EraseNext(N, g, m, x, parents, i - 1);
      hide Erasing, Erase;
      assert parents[..i][..i - 1] == parents[..i - 1];
      var p := parents[i - 1];
      m := m[p := m[p].(containees := Erase(m[p].containees, x))];
    }
  }

  lemma EraseDone(N: set<Node>, g: Shape, links: map<Node, Links>, x: Node, parents: seq<Node>)
    requires Symmetric(N, g) && Erasing(N, g, links, x, parents, |parents|) && UpClosed(N, g, links.Keys - {x})
    ensures Detached(N, g, links, x)
  {
    assert parents[..|parents|] == parents;
    forall y | y in links && y !in parents && y != x
      ensures g.down[y] * links.Keys == g.down[y] * (links.Keys - {x})
    {
      assert x in g.down[y] <==> y in g.up[x];
    }
  }

  /** Where x can be ranked, clearing it ends: everything beneath x is freed, and x
    * is in no list any more. */
  lemma {:induction false} ClearEnds(N: set<Node>, g: Shape, links: map<Node, Links>, x: Node)
    returns (l: map<Node, Links>)
    requires Layered(N, g) && Standing(N, g, links) && x in links && x in g.rank
    ensures Clears(links, x, l) && l.Keys == links.Keys - Beneath(g, x) && Detached(N, g, l, x)
    decreases g.rank[x], links.Keys
  {
    hide *;
    StandingMeans(N, g, links);
    if links[x].containees == [] {
      l := ClearBare(N, g, links, x);
    } else {
      var n := links[x].containees[0];
      FirstContainee(N, g, links, x);
      var m := ClearEnds(N, g, links, n);
      DetachedFreed(N, g, m, n);
      assert (m - {n}).Keys < links.Keys;
      l := ClearEnds(N, g, m - {n}, x);
      ClearsNext(links, x, n, m, l);
    }
  }

  lemma ClearBare(N: set<Node>, g: Shape, links: map<Node, Links>, x: Node) returns (m: map<Node, Links>)
    requires Layered(N, g) && Standing(N, g, links) && x in links && x in g.rank && links[x].containees == []
    ensures Unlinked(links, x, links[x].containers) == Left(m) && Clears(links, x, m)
    ensures m.Keys == links.Keys - Beneath(g, x) && Detached(N, g, m, x)
  {
    hide *;
    StandingMeans(N, g, links);
    NoContainees(N, g, links, x);
    NothingBelow(N, g, links.Keys, x);
    NotOwn(N, g, x);
    Apart(links.Keys, Beneath(g, x));
    CutDown(N, g, links.Keys, x);
    EraseFirst(N, g, links, x);
    var parents := links[x].containers;
    m := EraseBy(N, g, links, x, parents, |parents|);
    assert parents[..|parents|] == parents;
    EraseDone(N, g, m, x, parents);
    ClearsBare(links, x, m);
  }

  lemma Apart(A: set<Node>, B: set<Node>)
    requires A * B == {}
    ensures A - B == A
  {
    forall a | a in A ensures a !in B { assert a in A * B <==> a in B; }
  }

  lemma NoContainees(N: set<Node>, g: Shape, links: map<Node, Links>, x: Node)
    requires Standing(N, g, links) && x in links && links[x].containees == []
    ensures x in g.down && g.down[x] * links.Keys == {}
  {
    ListsEmpty(links[x].containees, g.down[x] * links.Keys);
  }

  lemma NotOwn(N: set<Node>, g: Shape, x: Node)
    requires Layered(N, g) && x in g.rank
    ensures x in g.up && x !in g.up[x] && Symmetric(N, g) && x in g.down && Falls(g.down, g.rank)
  {}

  lemma StandingMeans(N: set<Node>, g: Shape, links: map<Node, Links>)
    requires Standing(N, g, links)
    ensures UpClosed(N, g, links.Keys) && links.Keys <= N && links.Keys <= g.up.Keys
    ensures forall y | y in links :: Lists(links[y].containers, g.up[y])
  {}

  // ---------------------------------------------------------------------------
  // Cycles
  // ---------------------------------------------------------------------------

  /** Each of these allocated nodes has a containee among them. */
  ghost predicate Core(links: map<Node, Links>, Z: set<Node>) {
    forall z {:trigger Onward(links, z, Z)} | z in Z :: Onward(links, z, Z)
  }

  ghost predicate Onward(links: map<Node, Links>, z: Node, Z: set<Node>) {
    z in links && exists c | c in links[z].containees :: c in Z
  }

  lemma {:induction false} UnlinkedCore(links: map<Node, Links>, x: Node, parents: seq<Node>, Z: set<Node>)
    requires Unlinked(links, x, parents).Left? && Core(links, Z) && x !in Z
    ensures Core(Unlinked(links, x, parents).links, Z)
  {
    if parents != [] {
      var k := |parents| - 1;
      UnlinkedCore(links, x, parents[..k], Z);
      var m, p := Unlinked(links, x, parents[..k]).links, parents[k];
      var w := Unlinked(links, x, parents).links;
      hide Unlinked, Erase;
      forall z | z in Z ensures Onward(w, z, Z) {
        assert Onward(m, z, Z);
        var c :| c in m[z].containees && c in Z;
        EraseMember(m[z].containees, x, c);
        assert c in w[z].containees;
      }
    }
  }

  /** Whatever ends being cleared is not one of them, and leaves them as such. */
  lemma {:induction false} CoreStays(links: map<Node, Links>, x: Node, bound: nat, Z: set<Node>)
    requires ClearBy(links, x, bound).Left? && Core(links, Z)
    ensures x !in Z && Core(ClearBy(links, x, bound).links, Z)
    decreases bound
  {
    hide Unlinked;
    if links[x].containees == [] {
      assert x in Z ==> Onward(links, x, Z);
      UnlinkedCore(links, x, links[x].containers, Z);
    } else {
      var n := links[x].containees[0];
      CoreStays(links, n, bound - 1, Z);
      var m := ClearBy(links, n, bound - 1).links;
      CoreFreed(m, n, Z);
      CoreStays(m - {n}, x, bound - 1, Z);
    }
  }

  lemma CoreFreed(m: map<Node, Links>, n: Node, Z: set<Node>)
    requires Core(m, Z) && n !in Z
    ensures Core(m - {n}, Z)
  {
    forall z | z in Z ensures Onward(m - {n}, z, Z) { assert Onward(m, z, Z); }
  }

  /** While nothing has been freed, these are the sets with no way out of going round. */
  lemma CoreIffCycling(N: set<Node>, g: Shape, links: map<Node, Links>, Z: set<Node>)
    requires Symmetric(N, g) && Standing(N, g, links) && links.Keys == N
    ensures Core(links, Z) <==> Cycling(g.down, Z)
  {
    if Z <= N {
      forall z | z in Z ensures Onward(links, z, Z) <==> g.down[z] * Z != {} {
        if c :| c in links[z].containees && c in Z { assert c in g.down[z] * Z; }
        if c :| c in g.down[z] * Z { assert c in links[z].containees; }
      }
    } else {
      var z :| z in Z && z !in N;
      assert !Onward(links, z, Z);
    }
  }

  /** For any symmetric edge lists, with cycles or without: clearing a node ends if
    * and only if there is no going round from it. */
  lemma ClearExact(N: set<Node>, g: Shape, links: map<Node, Links>, x: Node)
    requires Symmetric(N, g) && Standing(N, g, links) && links.Keys == N && x in N
    ensures (exists l :: Clears(links, x, l)) <==> !exists Z :: Cycling(g.down, Z) && x in Z
  {
    if l :| Clears(links, x, l) {
      forall Z | Cycling(g.down, Z) ensures x !in Z {
        CoreIffCycling(N, g, links, Z);
        var bound: nat :| ClearBy(links, x, bound) == Left(l);
        CoreStays(links, x, bound, Z);
      }
    }
    if !exists Z :: Cycling(g.down, Z) && x in Z {
      var w := Ranking(N, g, x);
      SameStanding(N, g, w, links);
      var l := ClearEnds(N, w, links, x);
    }
  }

  lemma Ranking(N: set<Node>, g: Shape, x: Node) returns (w: Shape)
    requires Symmetric(N, g) && x in N && !exists Z :: Cycling(g.down, Z) && x in Z
    ensures w.down == g.down && w.up == g.up && Layered(N, w) && x in w.rank
  {
    RankExact(g.down, x);
    var rank :| Falls(g.down, rank) && rank.Keys <= g.down.Keys && x in rank;
    w := Shape(g.down, g.up, rank);
  }

  lemma SameStanding(N: set<Node>, g: Shape, w: Shape, links: map<Node, Links>)
    requires w.down == g.down && w.up == g.up && Standing(N, g, links)
    ensures Standing(N, w, links)
  {}

  lemma {:induction false} CoreLeft(links: map<Node, Links>, roots: seq<Node>, bound: nat, Z: set<Node>)
    requires DestroyBy(links, roots, bound).Left? && Core(links, Z)
    ensures Core(DestroyBy(links, roots, bound).links, Z)
    decreases roots
  {
    hide ClearBy, Core;
    if roots != [] {
      CoreStays(links, roots[0], bound, Z);
      var m := ClearBy(links, roots[0], bound).links;
      CoreFreed(m, roots[0], Z);
      CoreLeft(m - {roots[0]}, roots[1..], bound, Z);
    }
  }

  /** From root i on, where all nodes can be ranked. */
  lemma {:induction false} DestroyFrom(N: set<Node>, g: Shape, links: map<Node, Links>, roots: seq<Node>, i: nat)
    requires Layered(N, g) && g.rank.Keys == N && Lists(roots, Tops(N, g)) && Standing(N, g, links) && i <= |roots|
    requires (forall j | i <= j < |roots| :: roots[j] in links) && forall j | 0 <= j < i :: roots[j] !in links
    ensures Destroys(links, roots[i..], map[])
    decreases |roots| - i
  {
    hide *;
    RootsApart(N, g, roots);
    StandingMeans(N, g, links);
    if i == |roots| {
      NoneLeft(N, g, links.Keys, roots);
      assert links == map[] && roots[i..] == [];
      DestroysNone(links);
    } else {
      var r := roots[i];
      RootsLeft(N, g, roots, r);
      var m := ClearEnds(N, g, links, r);
      DetachedFreed(N, g, m, r);
      NotOwn(N, g, r);
      DestroyFrom(N, g, m - {r}, roots, i + 1);
      assert roots[i..][1..] == roots[i + 1..];
      DestroysNext(links, roots[i..], m, map[]);
    }
  }

  /** For any symmetric edge lists: destruction ends and nothing is left if and only
    * if there is no cycle. */
  lemma DestroyExact(N: set<Node>, g: Shape, links: map<Node, Links>, roots: seq<Node>)
    requires Symmetric(N, g) && Standing(N, g, links) && links.Keys == N && Lists(roots, Tops(N, g))
    ensures Destroys(links, roots, map[]) <==> forall Z | Cycling(g.down, Z) :: Z == {}
  {
    if Destroys(links, roots, map[]) {
      var bound: nat :| DestroyBy(links, roots, bound) == Left(map[]);
      forall Z | Cycling(g.down, Z) ensures Z == {} {
        CoreIffCycling(N, g, links, Z);
        CoreLeft(links, roots, bound, Z);
        NoCore(Z);
      }
    }
    if forall Z | Cycling(g.down, Z) :: Z == {} {
      var w := RankingAll(N, g);
      SameStanding(N, g, w, links);
      RootsStand(N, w, links, roots);
      DestroyFrom(N, w, links, roots, 0);
      assert roots[0..] == roots;
    }
  }

  lemma NoCore(Z: set<Node>)
    requires Core(map[], Z)
    ensures Z == {}
  {
    var none: map<Node, Links> := map[];
    assert forall z | z in Z :: Onward(none, z, Z);
  }

  lemma RankingAll(N: set<Node>, g: Shape) returns (w: Shape)
    requires Symmetric(N, g) && forall Z | Cycling(g.down, Z) :: Z == {}
    ensures w.down == g.down && w.up == g.up && Layered(N, w) && w.rank.Keys == N && Tops(N, w) == Tops(N, g)
  {
    var full := RankFrom(g.down, map[], 0);
    assert N - full.Keys == {};
    w := Shape(g.down, g.up, full);
  }

  lemma RootsStand(N: set<Node>, g: Shape, links: map<Node, Links>, roots: seq<Node>)
    requires links.Keys == N && Lists(roots, Tops(N, g))
    ensures forall j | 0 <= j < |roots| :: roots[j] in links
  {
    forall j | 0 <= j < |roots| ensures roots[j] in links { assert roots[j] in roots; }
  }

  // ---------------------------------------------------------------------------
  // The memory
  // ---------------------------------------------------------------------------

  class Memory {
    /** The allocated nodes and their lists. */
    var links: map<Node, Links>
    /** The nodes there were at first, and those freed since, in that order. */
    ghost const all: set<Node>
    ghost var freed: seq<Node>

    /** Every node is either allocated or has been freed, once. */
    ghost predicate Booked()
      reads this
    {
      && links.Keys <= all && NoDup(freed) && (forall n | n in freed :: n in all)
      && forall n | n in all :: n in freed <==> n !in links
    }

    constructor (nodes: seq<Node>)
      ensures Booked() && all == (set n | n in nodes) && links.Keys == all && freed == []
      ensures forall n | n in nodes :: links[n] == Links(n.containers, n.containees)
    {
      links := map n | n in nodes :: Links(n.containers, n.containees);
      all, freed := set n | n in nodes, [];
    }

    /** delete */
    method Free(n: Node)
      requires n in links && Booked()
      modifies this
      ensures links == old(links) - {n} && freed == old(freed) + [n] && Booked()
    {
      links, freed := links - {n}, freed + [n];
    }

    /** Only an allocated node can be written to. */
    method SetContainees(n: Node, list: seq<Node>)
      requires n in links && Booked()
      modifies this`links
      ensures links == old(links)[n := old(links)[n].(containees := list)] && Booked()
    {
      links := links[n := links[n].(containees := list)];
    }

    /** Node::clear, for any symmetric edge lists, as far as x can be ranked:
      * everything beneath x is freed, and x is in no list any more. */
    method Clear(x: Node, ghost N: set<Node>, ghost g: Shape)
      requires Layered(N, g) && x in g.rank && x in links && Standing(N, g, links) && Booked()
      modifies this
      decreases g.rank[x]
      ensures Clears(old(links), x, links) && links.Keys == old(links.Keys) - Beneath(g, x)
      ensures Detached(N, g, links, x) && Booked()
    {
      hide *;
      ghost var l := ClearEnds(N, g, links, x);
      while links[x].containees != []
        invariant x in links && Standing(N, g, links) && Booked()
        invariant Clears(links, x, l)
        decreases links.Keys
      {
        ghost var before := links;
        FirstContainee(N, g, links, x);
        var n := links[x].containees[0];
        Clear(n, N, g);
        DetachedFreed(N, g, links, n);
        ClearsRest(before, x, n, links, l);
        Free(n);
      }
      ghost var last := links;
      ghost var m := ClearBare(N, g, links, x);
      var parents, i := links[x].containers, 0;
      BareStart(last, x, parents);
      while i < |parents|
        invariant i <= |parents| && Unlinked(last, x, parents[..i]) == Left(links) && Booked()
      {
        BareNext(last, x, parents, i, links, m);
        SetContainees(parents[i], Erase(links[parents[i]].containees, x));
        i := i + 1;
      }
      assert parents[..i] == parents;
      ClearsBare(last, x, links);
      ClearsOnce(last, x, l, links);
    }

    /** Graph::~Graph, for any symmetric edge lists that can be ranked: nothing is left. */
    method Destroy(roots: seq<Node>, ghost N: set<Node>, ghost g: Shape)
      requires Layered(N, g) && g.rank.Keys == N && Lists(roots, Tops(N, g))
      requires links.Keys == N == all && Standing(N, g, links) && Booked()
      modifies this
      ensures links == map[] && Destroys(old(links), roots, links) && Lists(freed, N)
    {
      hide *;
      RootsStand(N, g, links, roots);
      DestroyFrom(N, g, links, roots, 0);
      assert roots[0..] == roots;
      RootsApart(N, g, roots);
      var i := 0;
      while i < |roots|
        invariant i <= |roots| && Standing(N, g, links) && links.Keys <= N && Booked()
        invariant (forall j | i <= j < |roots| :: roots[j] in links) && forall j | 0 <= j < i :: roots[j] !in links
      {
        var r := roots[i];
        RootsLeft(N, g, roots, r);
        Clear(r, N, g);
        DetachedFreed(N, g, links, r);
        Free(r);
        i := i + 1;
      }
      StandingMeans(N, g, links);
      NoneLeft(N, g, links.Keys, roots);
      assert links.Keys == {} ==> links == map[];
      AllFreed();
    }

    lemma AllFreed()
      requires Booked() && links == map[]
      ensures Lists(freed, all)
    {}
  }

  lemma BareStart(links: map<Node, Links>, x: Node, parents: seq<Node>)
    ensures Unlinked(links, x, parents[..0]) == Left(links)
  {}

  /** The next container is allocated, or the whole would not have ended. */
  lemma BareNext(links: map<Node, Links>, x: Node, parents: seq<Node>, i: nat, w: map<Node, Links>, m: map<Node, Links>)
    requires i < |parents| && Unlinked(links, x, parents[..i]) == Left(w) && Unlinked(links, x, parents) == Left(m)
    ensures var p := parents[i];
      p in w && Unlinked(links, x, parents[..i + 1]) == Left(w[p := w[p].(containees := Erase(w[p].containees, x))])
  {
    assert parents[..i + 1][..i] == parents[..i];
    UnlinkedPrefix(links, x, parents, i + 1);
    hide Erase;
  }

  lemma {:induction false} UnlinkedPrefix(links: map<Node, Links>, x: Node, parents: seq<Node>, i: nat)
    requires i <= |parents| && Unlinked(links, x, parents).Left?
    ensures Unlinked(links, x, parents[..i]).Left?
  {
    hide Erase;
    if i < |parents| {
      UnlinkedPrefix(links, x, parents[..|parents| - 1], i);
      assert parents[..|parents| - 1][..i] == parents[..i];
    } else {
      assert parents[..i] == parents;
    }
  }

  lemma RootsApart(N: set<Node>, g: Shape, roots: seq<Node>)
    requires Lists(roots, Tops(N, g))
    ensures (forall j | 0 <= j < |roots| :: roots[j] in N) && forall i, j | 0 <= i < j < |roots| :: roots[i] != roots[j]
  {
    forall j | 0 <= j < |roots| ensures roots[j] in N { assert roots[j] in roots; }
  }

  lemma RootsLeft(N: set<Node>, g: Shape, roots: seq<Node>, r: Node)
    requires Layered(N, g) && Lists(roots, Tops(N, g)) && r in N && r in g.rank
    ensures forall j | 0 <= j < |roots| :: roots[j] !in Beneath(g, r)
  {
    forall j | 0 <= j < |roots| ensures roots[j] !in Beneath(g, r) {
      assert roots[j] in roots;
      if roots[j] in Beneath(g, r) { BeneathUnder(N, g, r, roots[j]); }
    }
  }

  /** Whatever is still allocated has an allocated root above it. */
  lemma NoneLeft(N: set<Node>, g: Shape, A: set<Node>, roots: seq<Node>)
    requires Layered(N, g) && g.rank.Keys == N && UpClosed(N, g, A) && Lists(roots, Tops(N, g))
    requires forall j | 0 <= j < |roots| :: roots[j] !in A
    ensures A == {}
  {
    assert forall r | r in Tops(N, g) :: r in roots;
    hide *;
    if A != {} { var m := TopIn(N, g, A); }
  }

  lemma TopIn(N: set<Node>, g: Shape, A: set<Node>) returns (m: Node)
    requires Layered(N, g) && g.rank.Keys == N && UpClosed(N, g, A) && A != {}
    ensures m in A && m in Tops(N, g)
  {
    m := Highest(A, g.rank);
    forall p | p in N ensures p !in g.up[m] { assert p in g.up[m] <==> m in g.down[p]; }
    assert g.up[m] == {};
  }

  /** The lists of symmetric edges, put into the memory. */
  lemma StandingStart(N: set<Node>, g: Shape, links: map<Node, Links>)
    requires Symmetric(N, g) && DownLists(N, g.down) && UpLists(N, g.up)
    requires links.Keys == N && forall n | n in N :: links[n] == Links(n.containers, n.containees)
    ensures Standing(N, g, links)
  {
    forall y | y in N ensures g.down[y] * N == g.down[y] {}
  }
}
