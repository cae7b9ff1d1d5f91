/** The statistics of the graph: what each stored node contributes, once. */
module Statistics {
  import opened Subscriptions
  import opened Diagram
  import opened Traversal
  import opened Edges
  import opened Census
  import opened Classes
  import opened Matching
  import opened Counter
  import opened Depths

  function Copies(x: real, n: int): (r: seq<real>)
    ensures |r| == if n <= 0 then 0 else n
  {
    if n <= 0 then [] else Copies(x, n - 1) + [x]
  }

  /** Per published event. */
  function Rate(n: int, pubs: int): real { if pubs == 0 then 0.0 else n as real / pubs as real }

  /** The samples of all counters. */
  datatype Samples = Samples(depthMin: seq<real>, depthMax: seq<real>, containees: seq<real>, containers: seq<real>,
                             count: seq<real>, matches: seq<real>, tests: seq<real>)

  function Plus(a: Samples, b: Samples): Samples {
    Samples(a.depthMin + b.depthMin, a.depthMax + b.depthMax, a.containees + b.containees, a.containers + b.containers,
            a.count + b.count, a.matches + b.matches, a.tests + b.tests)
  }

  const NONE := Samples([], [], [], [], [], [], [])

  /** What a node contributes: its own figures once, its matches for every member
    * of its class, and its tests for the first member only. */
  ghost function Row(n: Node, pubs: int): Samples
    reads n`depthMin, n`depthMax, n`containees, n`containers, n`count, n`matches, n`tests
  {
    Samples([n.depthMin as real], [n.depthMax as real], [|n.containees| as real], [|n.containers| as real],
            [n.count as real], Copies(Rate(n.matches, pubs), n.count), [Rate(n.tests, pubs)] + Copies(0.0, n.count - 1))
  }

  ghost function Rows(order: seq<Node>, pubs: int): Samples
    reads order`depthMin, order`depthMax, order`containees, order`containers, order`count, order`matches, order`tests
  {
    if order == [] then NONE else Plus(Rows(order[..|order| - 1], pubs), Row(order[|order| - 1], pubs))
  }

  class Stats {
    var nodes: int
    var roots: int
    var leaves: int
    var singletons: int
    const depthMin: SmartCounter
    const depthMax: SmartCounter
    const containees: SmartCounter
    const containers: SmartCounter
    const count: SmartCounter
    const matches: SmartCounter
    const tests: SmartCounter

    constructor ()
      ensures Valid() && fresh(Counters()) && Read() == NONE
      ensures nodes == roots == leaves == singletons == 0
    {
      hide SmartCounter.Valid;
      nodes, roots, leaves, singletons := 0, 0, 0, 0;
      depthMin := new SmartCounter();
      depthMax := new SmartCounter();
      containees := new SmartCounter();
      containers := new SmartCounter();
      count := new SmartCounter();
      matches := new SmartCounter();
      tests := new SmartCounter();
    }

    ghost function Counters(): set<SmartCounter> { {depthMin, depthMax, containees, containers, count, matches, tests} }

    ghost predicate Apart() {
      NoDup([depthMin, depthMax, containees, containers, count, matches, tests])
    }

    ghost predicate Valid()
      reads Counters()
    {
      Apart() && forall c | c in Counters() :: c.Valid()
    }

    ghost function Read(): Samples
      reads Counters()
    {
      Samples(depthMin.all, depthMax.all, containees.all, containers.all, count.all, matches.all, tests.all)
    }

    /** The samples one node adds. */
    method Feed(n: Node, pubs: int)
      requires Valid() && 1 <= n.count
      modifies Counters()
      ensures Valid() && Read() == Plus(old(Read()), Row(n, pubs))
    {
      hide *;
      ghost var was, row := Read(), Row(n, pubs);
      ValidMeans();
      RowMeans(n, pubs);
      var lo, hi := n.depthMin as real, n.depthMax as real;
      var below, above := |n.containees| as real, |n.containers| as real;
      var many, hits, tried := n.count, Rate(n.matches, pubs), Rate(n.tests, pubs);
      depthMin.Add(lo);
      depthMax.Add(hi);
      containees.Add(below);
      containers.Add(above);
      count.Add(many as real);
      AddEach(matches, hits, many);
      tests.Add(tried);
      AddEach(tests, 0.0, many - 1);
      ValidMeans();
      PlusMeans(was, row);
    }

    lemma ValidMeans()
      ensures Valid() <==>
        && Apart() && depthMin.Valid() && depthMax.Valid() && containees.Valid() && containers.Valid()
        && count.Valid() && matches.Valid() && tests.Valid()
      ensures Apart() <==> NoDup([depthMin, depthMax, containees, containers, count, matches, tests])
      ensures Apart() ==> depthMin !in {depthMax, containees, containers, count, matches, tests}
      ensures Apart() ==> depthMax !in {containees, containers, count, matches, tests}
      ensures Apart() ==> containees !in {containers, count, matches, tests} && containers !in {count, matches, tests}
      ensures Apart() ==> count !in {matches, tests} && matches != tests
      ensures Read() ==
        Samples(depthMin.all, depthMax.all, containees.all, containers.all, count.all, matches.all, tests.all)
      ensures Counters() == {depthMin, depthMax, containees, containers, count, matches, tests}
    {
      hide SmartCounter.Valid;
      var l := [depthMin, depthMax, containees, containers, count, matches, tests];
      if Apart() {
        assert l[0] == depthMin && l[1] == depthMax && l[2] == containees && l[3] == containers;
        assert l[4] == count && l[5] == matches && l[6] == tests;
      }
    }
  }

  lemma RowMeans(n: Node, pubs: int)
    ensures Row(n, pubs) ==
      Samples([n.depthMin as real], [n.depthMax as real], [|n.containees| as real], [|n.containers| as real],
              [n.count as real], Copies(Rate(n.matches, pubs), n.count),
              [Rate(n.tests, pubs)] + Copies(0.0, n.count - 1))
  {}

  lemma PlusMeans(a: Samples, b: Samples)
    ensures Plus(a, b) ==
      Samples(a.depthMin + b.depthMin, a.depthMax + b.depthMax, a.containees + b.containees,
              a.containers + b.containers, a.count + b.count, a.matches + b.matches, a.tests + b.tests)
  {}

  method AddEach(c: SmartCounter, x: real, n: int)
    requires c.Valid()
    modifies c
    ensures c.Valid() && c.all == old(c.all) + Copies(x, n)
  {
    hide Sum, Square, Deviations, Mean, SmartCounter.Valid;
    var i := 0;
    while i < n
      invariant 0 <= i <= (if n < 0 then 0 else n) && c.Valid() && c.all == old(c.all) + Copies(x, i)
    {
      c.Add(x);
      i := i + 1;
    }
  }

  lemma RowsStep(base: Samples, order: seq<Node>, n: Node, pubs: int)
    ensures Plus(Plus(base, Rows(order, pubs)), Row(n, pubs)) == Plus(base, Rows(order + [n], pubs))
  {
    assert (order + [n])[..|order|] == order;
    hide Row;
    PlusChain(base, Rows(order, pubs), Row(n, pubs));
  }

  lemma PlusChain(a: Samples, b: Samples, c: Samples)
    ensures Plus(Plus(a, b), c) == Plus(a, Plus(b, c))
  {}

  /** The walk so far: the nodes stamped are those fed to the counters, each once,
    * and but for those still being worked on their containees are among them. */
  ghost predicate Fed(N: set<Node>, g: Shape, V: set<Node>, order: seq<Node>, open: set<Node>) {
    Lists(order, V) && Cleared(N, g, V, V, open)
  }

  /** The walk so far has been fed to the counters. */
  ghost predicate Walking(N: set<Node>, g: Shape, id: int, open: set<Node>, order: seq<Node>, stats: Stats, pubs: int,
                          base: Samples)
    reads N`last, stats.Counters()
    reads order`depthMin, order`depthMax, order`containees, order`containers, order`count, order`matches, order`tests
  {
    LastUpTo(N, id) && Fed(N, g, Stamped(N, id), order, open) && stats.Valid() &&
    stats.Read() == Plus(base, Rows(order, pubs))
  }

  lemma WalkingMeans(N: set<Node>, g: Shape, id: int, open: set<Node>, order: seq<Node>, stats: Stats, pubs: int,
                     base: Samples)
    ensures Walking(N, g, id, open, order, stats, pubs, base) <==>
      LastUpTo(N, id) && Fed(N, g, Stamped(N, id), order, open) && stats.Valid() &&
      stats.Read() == Plus(base, Rows(order, pubs))
  {}

  /** Node::compute_stats */
  method ComputeStats(x: Node, stats: Stats, pubs: int, id: int, ghost open: set<Node>, ghost order: seq<Node>,
                      ghost base: Samples,
                      ghost N: set<Node>, ghost g: Shape)
    returns (ghost r: seq<Node>)
    requires Symmetric(N, g) && DownLists(N, g.down) && x in N && forall n | n in N :: 1 <= n.count
    requires Walking(N, g, id, open, order, stats, pubs, base)
    modifies N`last, stats.Counters()
    decreases N - Stamped(N, id)
    ensures Walking(N, g, id, open, r, stats, pubs, base) && old(Stamped(N, id)) + {x} <= Stamped(N, id)
  {
    hide *;
    r := order;
    StampMeans(N, id, x);
    if x.last == id { return; }
    ghost var V := Stamped(N, id);
    r := FeedNext(x, stats, pubs, id, open, order, base, N, g);
    ListedLower(N, g, x);
    var list, i := x.containees, 0;
    NoneFirst(list, Stamped(N, id));
    while i < |list|
      invariant i <= |list| && Walking(N, g, id, open + {x}, r, stats, pubs, base)
      invariant V + {x} <= Stamped(N, id) && FirstIn(list, i, Stamped(N, id))
    {
      ghost var W := Stamped(N, id);
      r := ComputeStats(list[i], stats, pubs, id, open + {x}, r, base, N, g);
      FirstInStep(list, i, W, Stamped(N, id));
      i := i + 1;
    }
    WalkingMeans(N, g, id, open + {x}, r, stats, pubs, base);
    FedAll(N, g, Stamped(N, id), r, open, x, list);
    WalkingMeans(N, g, id, open, r, stats, pubs, base);
  }

  /** Stamp x and feed it to the counters. */
  method FeedNext(x: Node, stats: Stats, pubs: int, id: int, ghost open: set<Node>, ghost order: seq<Node>,
                  ghost base: Samples, ghost N: set<Node>, ghost g: Shape)
    returns (ghost r: seq<Node>)
    requires x in N && 1 <= x.count && x !in Stamped(N, id) && Walking(N, g, id, open, order, stats, pubs, base)
    modifies N`last, stats.Counters()
    ensures Walking(N, g, id, open + {x}, r, stats, pubs, base) && Stamped(N, id) == old(Stamped(N, id)) + {x}
  {
    hide *;
    ghost var V := Stamped(N, id);
    WalkingMeans(N, g, id, open, order, stats, pubs, base);
    LastMeans(N, id);
    FedMore(N, g, V, order, open, x);
    RowsStep(base, order, x, pubs);
    r := order + [x];
    x.last := id;
    StampedOne(N, id, x, V);
    stats.Feed(x, pubs);
    WalkingMeans(N, g, id, open + {x}, r, stats, pubs, base);
  }

  lemma StampedOne(N: set<Node>, id: int, x: Node, V: set<Node>)
    requires x in N && x.last == id && V <= N && forall y | y in N :: y.last <= id
    requires forall y | y in N && y != x :: y in V <==> y.last == id
    ensures Stamped(N, id) == V + {x} && LastUpTo(N, id)
  {}

  ghost predicate FirstIn(list: seq<Node>, i: nat, V: set<Node>)
    requires i <= |list|
  {
    forall j | 0 <= j < i :: list[j] in V
  }

  lemma NoneFirst(list: seq<Node>, V: set<Node>)
    ensures FirstIn(list, 0, V)
  {}

  lemma FirstInStep(list: seq<Node>, i: nat, V: set<Node>, W: set<Node>)
    requires i < |list| && FirstIn(list, i, V) && V + {list[i]} <= W
    ensures FirstIn(list, i + 1, W)
  {}

  lemma FedMore(N: set<Node>, g: Shape, V: set<Node>, order: seq<Node>, open: set<Node>, x: Node)
    requires Fed(N, g, V, order, open) && x !in V
    ensures Fed(N, g, V + {x}, order + [x], open + {x})
  {
    VisitedMore(N, g, V, V, open, x);
    AppendLists(order, x, V);
    hide Cleared, Lists;
  }

  lemma FedAll(N: set<Node>, g: Shape, V: set<Node>, order: seq<Node>, open: set<Node>, x: Node, list: seq<Node>)
    requires Fed(N, g, V, order, open + {x}) && x in g.down && Lists(list, g.down[x]) && FirstIn(list, |list|, V)
    ensures Fed(N, g, V, order, open)
  {
    VisitedAll(N, g, V, V, open, x, list);
  }

  /** The last part of Graph::stats: every stored node is fed to the counters, once. */
  method Gather(roots: seq<Node>, stats: Stats, pubs: int, id: int, ghost N: set<Node>, ghost g: Shape)
    returns (ghost order: seq<Node>)
    requires Layered(N, g) && g.rank.Keys == N && DownLists(N, g.down) && Lists(roots, Tops(N, g))
    requires LastUpTo(N, id - 1)
    requires forall n | n in N :: 1 <= n.count
    requires stats.Valid()
    modifies N`last, stats.Counters()
    ensures LastUpTo(N, id) && Lists(order, N) && stats.Valid()
    ensures stats.Read() == Plus(old(stats.Read()), Rows(order, pubs))
  {
    hide *;
    ghost var base := stats.Read();
    LastMeans(N, id);
    LastMeans(N, id - 1);
    LayeredMeans(N, g);
    RootsListed(N, g, roots);
    order := [];
    NothingFed(N, g, Stamped(N, id), base, pubs);
    WalkingMeans(N, g, id, {}, order, stats, pubs, base);
    var i := 0;
    while i < |roots|
      invariant i <= |roots| && Walking(N, g, id, {}, order, stats, pubs, base)
      invariant (set r | r in roots[..i]) <= Stamped(N, id)
    {
      order := ComputeStats(roots[i], stats, pubs, id, {}, order, base, N, g);
      assert roots[..i + 1] == roots[..i] + [roots[i]];
      i := i + 1;
    }
    assert roots[..i] == roots;
    WalkingMeans(N, g, id, {}, order, stats, pubs, base);
    LastMeans(N, id);
    AllFed(N, g, Stamped(N, id), order);
  }

  lemma NothingFed(N: set<Node>, g: Shape, V: set<Node>, base: Samples, pubs: int)
    requires V == {}
    ensures Fed(N, g, V, [], {}) && Plus(base, Rows([], pubs)) == base
  {}

  lemma AllFed(N: set<Node>, g: Shape, V: set<Node>, order: seq<Node>)
    requires Layered(N, g) && g.rank.Keys == N && V <= N && Tops(N, g) <= V && Fed(N, g, V, order, {})
    ensures Lists(order, N)
  {
    forall x | x in N ensures x in V { Visited(N, g, V, V, x); }
    assert V == N;
  }

  /** Roots without containees are the nodes that are also leaves. */
  method Singletons(roots: seq<Node>, ghost N: set<Node>, ghost g: Shape) returns (n: int)
    requires Layered(N, g) && g.rank.Keys == N && DownLists(N, g.down) && Lists(roots, Tops(N, g))
    ensures n == |Tops(N, g) * Bottoms(N, g)|
  {
    n := 0;
    var i := 0;
    while i < |roots|
      invariant i <= |roots| && n == |Alone(N, g, roots[..i])|
    {
      AloneStep(N, g, roots, i);
      if roots[i].containees == [] { n := n + 1; }
      i := i + 1;
    }
    assert roots[..i] == roots;
    assert Alone(N, g, roots) == Tops(N, g) * Bottoms(N, g);
  }

  ghost function Alone(N: set<Node>, g: Shape, list: seq<Node>): set<Node> { set r | r in list && r in Bottoms(N, g) }

  lemma AloneStep(N: set<Node>, g: Shape, roots: seq<Node>, i: nat)
    requires Layered(N, g) && g.rank.Keys == N && DownLists(N, g.down) && Lists(roots, Tops(N, g)) && i < |roots|
    ensures |Alone(N, g, roots[..i + 1])| == |Alone(N, g, roots[..i])| + if roots[i].containees == [] then 1 else 0
  {
    hide *;
    var r := roots[i];
    RootLeaf(N, g, roots, r);
    assert roots[..i + 1] == roots[..i] + [r];
    AloneAppend(N, g, roots[..i], r);
    ListedOnce(roots, Tops(N, g), i);
  }

  lemma RootLeaf(N: set<Node>, g: Shape, roots: seq<Node>, r: Node)
    requires Layered(N, g) && g.rank.Keys == N && DownLists(N, g.down) && Lists(roots, Tops(N, g)) && r in roots
    ensures r.containees == [] <==> r in Bottoms(N, g)
  {
    assert r in N;
    ListsEmpty(r.containees, g.down[r]);
  }

  lemma AloneAppend(N: set<Node>, g: Shape, list: seq<Node>, r: Node)
    ensures Alone(N, g, list + [r]) == Alone(N, g, list) + (if r in Bottoms(N, g) then {r} else {})
    ensures r !in list ==> r !in Alone(N, g, list)
  {
    hide Leaves;
  }

  lemma ListedOnce(list: seq<Node>, S: set<Node>, i: nat)
    requires Lists(list, S) && i < |list|
    ensures list[i] !in list[..i]
  {}

  /** Graph::stats, given the lengths of the list of nodes and of the list of leaves. */
  method Survey(stats: Stats, nodes: int, roots: seq<Node>, leaves: int, pubs: int, id: int, ghost N: set<Node>,
                ghost g: Shape)
    returns (ghost order: seq<Node>)
    requires Layered(N, g) && g.rank.Keys == N && DownLists(N, g.down) && Lists(roots, Tops(N, g)) && LastUpTo(N, id)
    requires (forall n | n in N :: 1 <= n.count)
    requires stats.Valid()
    modifies N`last, N`depthMin, N`depthMax, stats, stats.Counters()
    ensures stats.nodes == nodes && stats.roots == |Tops(N, g)| && stats.leaves == leaves
    ensures stats.singletons == |Tops(N, g) * Bottoms(N, g)|
    ensures LastUpTo(N, id + 2) && forall x | x in N :: Extremal(g.up, x, x.depthMin, x.depthMax)
    ensures Lists(order, N) && stats.Valid() && stats.Read() == Plus(old(stats.Read()), Rows(order, pubs))
  {
    hide *;
    Totals(stats, nodes, roots, leaves, N, g);
    LabelDepths(roots, id + 1, N, g);
    stats.ValidMeans();
    order := Gather(roots, stats, pubs, id + 2, N, g);
  }

  /** The first lines of Graph::stats. */
  method Totals(stats: Stats, nodes: int, roots: seq<Node>, leaves: int, ghost N: set<Node>, ghost g: Shape)
    requires Layered(N, g) && g.rank.Keys == N && DownLists(N, g.down) && Lists(roots, Tops(N, g)) && stats.Valid()
    modifies stats
    ensures stats.nodes == nodes && stats.roots == |Tops(N, g)| && stats.leaves == leaves
    ensures stats.singletons == |Tops(N, g) * Bottoms(N, g)|
    ensures stats.Valid() && stats.Read() == old(stats.Read())
  {
    hide *;
    stats.ValidMeans();
    ListsSize(roots, Tops(N, g));
    var alone := Singletons(roots, N, g);
    stats.nodes, stats.roots, stats.leaves, stats.singletons := nodes, |roots|, leaves, alone;
    stats.ValidMeans();
  }

  // ---------------------------------------------------------------------------
  // Conservation
  // ---------------------------------------------------------------------------

  lemma {:induction false} RowsSizes(N: set<Node>, U: iset<seq<Entry>>, live: seq<Subscription>, order: seq<Node>,
                                     pubs: int)
    requires Classed(N, U, live) && forall n | n in order :: n in N
    ensures var r := Rows(order, pubs);
      && |r.depthMin| == |r.depthMax| == |r.containees| == |r.containers| == |r.count| == |order|
      && Sum(r.count) == |r.matches| as real && |r.matches| == |r.tests| == |JoinedClasses(order, live)|
  {
    if order != [] {
      var k := |order| - 1;
      assert order[k] in order;
      RowsSizes(N, U, live, order[..k], pubs);
      RowSizes(order[k], U, live, pubs);
      Append(Rows(order[..k], pubs).count, order[k].count as real, 0.0);
      hide Row, Sum, Classed, Class;
    }
  }

  lemma RowSizes(n: Node, U: iset<seq<Entry>>, live: seq<Subscription>, pubs: int)
    requires Counts(n, U, live)
    ensures var r := Row(n, pubs);
      && |r.depthMin| == |r.depthMax| == |r.containees| == |r.containers| == 1 && r.count == [n.count as real]
      && |r.matches| == |r.tests| == n.count == |Class(live, n.sub)|
  {}

  /** The counts of all nodes add up to the number of live subscriptions. */
  lemma {:induction false} CountsAddUp(N: set<Node>, U: iset<seq<Entry>>, live: seq<Subscription>, order: seq<Node>,
                                       pubs: int)
    requires Fits(N, U) && Classed(N, U, live) && Lists(order, N)
    ensures var r := Rows(order, pubs);
      && |r.count| == |order| && Sum(r.count) == |live| as real && |r.matches| == |r.tests| == |live|
  {
    RowsSizes(N, U, live, order, pubs);
    ClassesSelect(N, U, live, N, order);
    AllSelected(live, N);
    SameSize(JoinedClasses(order, live), live);
  }

  lemma {:induction false} AllSelected(l: seq<Subscription>, N: set<Node>)
    requires forall x | x in l :: Twins(N, x) != {}
    ensures Selected(l, N) == l
  {
    hide Twins;
    if l != [] {
      assert l[|l| - 1] in l;
      AllSelected(l[..|l| - 1], N);
    }
  }

  // ---------------------------------------------------------------------------
  // What the samples of matches and tests add up to
  // ---------------------------------------------------------------------------

  /** The tests of all nodes. */
  ghost function TestsIn(order: seq<Node>): int
    reads order`tests
  {
    if order == [] then 0 else TestsIn(order[..|order| - 1]) + order[|order| - 1].tests
  }

  /** The matches of all nodes, for every member of their classes. */
  ghost function MatchesIn(order: seq<Node>): int
    reads order`matches, order`count
  {
    if order == [] then 0 else MatchesIn(order[..|order| - 1]) + order[|order| - 1].count * order[|order| - 1].matches
  }

  lemma RateScaled(n: int, pubs: int)
    ensures pubs != 0 ==> Product(Rate(n, pubs), pubs as real) == n as real
    ensures pubs == 0 ==> Rate(n, pubs) == 0.0
  {}

  lemma Scaled(x: real, y: real, s: real)
    ensures Product(x + y, s) == Product(x, s) + Product(y, s)
  {}

  lemma OneMore(n: real, x: real)
    ensures Product(n, x) == Product(n - 1.0, x) + x && Product(0.0, x) == 0.0 && Product(x, 0.0) == 0.0
  {}

  /** n samples of x, times s. */
  lemma SamplesScaled(n: int, x: real, s: real, y: int)
    requires Product(x, s) == y as real
    ensures Product(Product(n as real, x), s) == (n * y) as real
  {
    var m, z := n as real, y as real;
    assert (m * x) * s == m * (x * s);
    assert m * z == (n * y) as real;
  }

  lemma {:induction false} SumJoin(a: seq<real>, b: seq<real>)
    ensures Sum(a + b) == Sum(a) + Sum(b)
  {
    if b == [] {
      assert a + b == a;
    } else {
      var k := |b| - 1;
      assert (a + b)[..|a| + k] == a + b[..k];
      SumJoin(a, b[..k]);
    }
  }

  lemma {:induction false} SumCopies(x: real, n: nat)
    ensures Sum(Copies(x, n)) == Product(n as real, x) && forall c | c in Copies(x, n) :: c == x
  {
    hide *;
    OneMore(n as real, x);
    CopiesStep(x, n);
    if n > 0 {
      SumCopies(x, n - 1);
      Append(Copies(x, n - 1), x, 0.0);
    }
  }

  lemma CopiesStep(x: real, n: nat)
    ensures if n == 0 then Sum(Copies(x, n)) == 0.0 && Copies(x, n) == [] else Copies(x, n) == Copies(x, n - 1) + [x]
  {}

  /** The samples of one node: its matches per event for every member of its class,
    * its tests per event once for the class. */
  lemma RowRates(n: Node, pubs: int)
    requires 1 <= n.count && pubs != 0
    ensures forall x | x in Row(n, pubs).matches :: Product(x, pubs as real) == n.matches as real
    ensures Product(Sum(Row(n, pubs).matches), pubs as real) == (n.count * n.matches) as real
    ensures Product(Sum(Row(n, pubs).tests), pubs as real) == n.tests as real
  {
    hide *;
    RowMeans(n, pubs);
    RateScaled(n.matches, pubs);
    RateScaled(n.tests, pubs);
    SumCopies(Rate(n.matches, pubs), n.count);
    SamplesScaled(n.count, Rate(n.matches, pubs), pubs as real, n.matches);
    SumCopies(0.0, n.count - 1);
    OneMore(0.0, (n.count - 1) as real);
    SumJoin([Rate(n.tests, pubs)], Copies(0.0, n.count - 1));
    SumOne(Rate(n.tests, pubs));
  }

  lemma SumOne(x: real)
    ensures Sum([x]) == x
  {
    assert [x][..0] == [];
  }

  lemma {:induction false} RatesJoin(order: seq<Node>, pubs: int)
    requires pubs != 0 && forall n | n in order :: 1 <= n.count
    ensures Product(Sum(Rows(order, pubs).matches), pubs as real) == MatchesIn(order) as real
    ensures Product(Sum(Rows(order, pubs).tests), pubs as real) == TestsIn(order) as real
  {
    hide *;
    if order == [] {
      NoRows(pubs);
      OneMore(0.0, pubs as real);
    } else {
      var k := |order| - 1;
      var n := order[k];
      assert n in order && order == order[..k] + [n];
      RatesJoin(order[..k], pubs);
      RowRates(n, pubs);
      RowsLast(order[..k], n, pubs);
      var a, b := Rows(order[..k], pubs), Row(n, pubs);
      SumJoin(a.matches, b.matches);
      SumJoin(a.tests, b.tests);
      Scaled(Sum(a.matches), Sum(b.matches), pubs as real);
      Scaled(Sum(a.tests), Sum(b.tests), pubs as real);
    }
  }

  lemma NoRows(pubs: int)
    ensures Rows([], pubs).matches == Rows([], pubs).tests == [] && Sum([]) == 0.0
    ensures TestsIn([]) == 0 == MatchesIn([])
  {}

  lemma RowsLast(order: seq<Node>, n: Node, pubs: int)
    ensures Rows(order + [n], pubs).matches == Rows(order, pubs).matches + Row(n, pubs).matches
    ensures Rows(order + [n], pubs).tests == Rows(order, pubs).tests + Row(n, pubs).tests
    ensures TestsIn(order + [n]) == TestsIn(order) + n.tests
    ensures MatchesIn(order + [n]) == MatchesIn(order) + n.count * n.matches
  {
    assert (order + [n])[..|order|] == order;
    hide Row;
  }

  /** Nothing is lost between the nodes and the counters: times the number of events,
    * each sample of matches is that of its node, and the samples add up to the
    * matches and the tests of all nodes; before the first event they are 0. */
  ghost predicate Conserved(order: seq<Node>, pubs: int)
    reads order`depthMin, order`depthMax, order`containees, order`containers, order`count, order`matches, order`tests
  {
    var r, p := Rows(order, pubs), pubs as real;
    if pubs == 0 then (forall x | x in r.matches :: x == 0.0) && forall x | x in r.tests :: x == 0.0
    else
      && Sum(r.matches) * p == MatchesIn(order) as real && Sum(r.tests) * p == TestsIn(order) as real
      && forall n, x | n in order && x in Row(n, pubs).matches :: x * p == n.matches as real
  }

  lemma RatesAddUp(order: seq<Node>, pubs: int)
    requires forall n | n in order :: 1 <= n.count
    ensures Conserved(order, pubs)
  {
    hide *;
    if pubs == 0 {
      NoRates(order);
    } else {
      RatesJoin(order, pubs);
      forall n, x | n in order && x in Row(n, pubs).matches ensures Product(x, pubs as real) == n.matches as real {
        RowRates(n, pubs);
      }
    }
    ConservedIf(order, pubs);
  }

  lemma ConservedIf(order: seq<Node>, pubs: int)
    requires pubs == 0 ==> forall x | x in Rows(order, pubs).matches :: x == 0.0
    requires pubs == 0 ==> forall x | x in Rows(order, pubs).tests :: x == 0.0
    requires pubs != 0 ==>
      Product(Sum(Rows(order, pubs).matches), pubs as real) == MatchesIn(order) as real &&
      Product(Sum(Rows(order, pubs).tests), pubs as real) == TestsIn(order) as real
    requires pubs != 0 ==>
      forall n, x | n in order && x in Row(n, pubs).matches :: Product(x, pubs as real) == n.matches as real
    ensures Conserved(order, pubs)
  {
    hide Rows, Row, Sum, TestsIn, MatchesIn;
  }

  /** Before the first event all of them are 0. */
  lemma {:induction false} NoRates(order: seq<Node>)
    requires forall n | n in order :: 1 <= n.count
    ensures forall x | x in Rows(order, 0).matches :: x == 0.0
    ensures forall x | x in Rows(order, 0).tests :: x == 0.0
  {
    hide *;
    NoRows(0);
    if order != [] {
      var k := |order| - 1;
      var n := order[k];
      assert n in order && order == order[..k] + [n];
      NoRates(order[..k]);
      RowMeans(n, 0);
      RateScaled(n.matches, 0);
      RateScaled(n.tests, 0);
      SumCopies(0.0, n.count);
      SumCopies(0.0, n.count - 1);
      RowsLast(order[..k], n, 0);
      assert forall x | x in Row(n, 0).matches :: x == 0.0;
      assert forall x | x in Row(n, 0).tests :: x == 0.0;
    }
  }
}
