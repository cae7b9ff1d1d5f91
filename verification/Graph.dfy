/** The containment graph. */
module Graph {
  import opened Subscriptions
  import opened Containment
  import opened Diagram
  import opened DiagramUpdate
  import opened Traversal
  import opened Relinking
  import opened Census
  import opened Classes
  import opened Matching
  import opened Counter
  import opened Depths
  import opened Statistics
  import opened Destruction
  import opened Edges

  class Graph {
    /** The family the subscriptions come from. */
    ghost const U: iset<seq<Entry>>
    /** The live subscriptions, in the order they were added. */
    ghost var live: seq<Subscription>
    /** The nodes. */
    ghost var N: set<Node>

    var nextId: int
    var size: int
    var pubs: int
    var nodes: seq<Node>
    var roots: seq<Node>
    var leaves: seq<Node>

    /** The heap is exactly the covering diagram of the live subscriptions, each
      * node counting its class; no stamp is newer than the last one given out. */
    ghost predicate Valid()
      reads this, N
    {
      && Placed(N, U, nodes, roots, leaves)
      && Classed(N, U, live) && size == |live|
      && LastUpTo(N, nextId) && 0 <= nextId
    }

    lemma ValidParts()
      ensures Valid() <==>
        && Placed(N, U, nodes, roots, leaves)
        && Classed(N, U, live) && size == |live|
        && LastUpTo(N, nextId) && 0 <= nextId
    {}

    constructor (ghost U: iset<seq<Entry>>)
      requires Preorder(U)
      ensures Valid() && this.U == U && live == [] && N == {} && pubs == 0
    {
      this.U := U;
      N, live, nodes, roots, leaves := {}, [], [], [], [];
      nextId, size, pubs := 0, 0, 0;
    }

    /** Graph::add */
    method Add(s: Subscription)
      requires Valid() && s.data in U
      modifies this`nextId, this`size, this`N, this`live, this`nodes, this`roots, this`leaves, s`graphAttr
      modifies N`last, N`containers, N`containees, N`overriden, N`count
      ensures Valid() && live == old(live) + [s]
      ensures s.graphAttr is Node && s.graphAttr as Node in Twins(N, s)
      ensures old(N) <= N && fresh(N - old(N)) && (old(Twins(N, s)) != {} ==> N == old(N))
      ensures old(Pristine(N, live)) ==> Pristine(N, live)
      ensures old(Attached(N, live)) ==> Attached(N, live)
      ensures old(Faithful(N, live)) ==> (Faithful(N, live) <==> old(AllNext(N, s)))
      ensures forall n | n in old(N) ::
        n.overriden == old(n.overriden) + if n in Twins(old(N), s) then [s] else []
      ensures forall n | n in N - old(N) :: n.sub == s && n.overriden == [] && n.tests == n.matches == 0
    {
      hide *;
      ValidParts();
      ghost var p, a := Pristine(N, live), Attached(N, live);
      TrackedMeans(N, U, live, p, a);
      size := size + 1;
      SearchReady(N, U, nodes, roots, leaves, s);
      var n := Search(roots, s, N, U);
      FoundMeans(N, s, n);
      AllNextMeans(N, U, s, n);
      OnlyTwin(N, U, s, n);
      if n != null {
        AddEquivalent(n, s, p, a);
      } else {
        n := AddNode(s, p, a);
        OwnTwin(N, U, s, n);
      }
      TrackedMeans(N, U, live, p, a);
      ValidParts();
    }

    /** Graph::search: the holder of the class of s, if there is one. */
    method SearchFor(s: Subscription) returns (r: Subscription?)
      requires Valid() && s.data in U
      ensures if r == null then Class(live, s) == [] else Class(live, s) != [] && Equivalent(r.data, s.data)
    {
      hide *;
      ValidParts();
      SearchReady(N, U, nodes, roots, leaves, s);
      var n := Search(roots, s, N, U);
      FoundMeans(N, s, n);
      FoundIffLive(N, U, live, s, n);
      if n == null { return null; }
      TwinMeans(N, s, n);
      return n.sub;
    }

    /** An equivalent subscription joins the class of n. */
    method AddEquivalent(n: Node, s: Subscription, ghost p: bool, ghost a: bool)
      requires Fits(N, U) && n in N && n in Twins(N, s) && s.data in U && Tracked(N, U, live, p, a)
      modifies this`live, n`overriden, n`count, s`graphAttr
      ensures Tracked(N, U, live, p, a) && live == old(live) + [s]
      ensures old(Faithful(N, live)) ==> (Faithful(N, live) <==> old(NextIs(n, s)))
      ensures n.overriden == old(n.overriden) + [s] && s.graphAttr == n
    {
      hide *;
      ghost var l, f := live, Faithful(N, live);
      TrackedEach(N, U, live, p, a);
      CountsMeans(n, U, live);
      FaithfulEach(N, live);
      FaithfulAtMeans(n, live, s);
      ghost var o, k := n.overriden, n.count;
      s.graphAttr := n;
      n.overriden := n.overriden + [s];
      n.count := n.count + 1;
      live := live + [s];
      TrackedJoin(N, U, l, s, n, p, a);
      if f { FaithfulJoin(N, U, l, s, n, o, k); }
    }

    /** A subscription with no equivalent becomes a node between its direct containers and containees. */
    method AddNode(s: Subscription, ghost p: bool, ghost a: bool) returns (n: Node)
      requires Placed(N, U, nodes, roots, leaves) && LastUpTo(N, nextId) && 0 <= nextId
      requires Twins(N, s) == {} && s.data in U && Tracked(N, U, live, p, a)
      modifies this`N, this`live, this`nodes, this`roots, this`leaves, this`nextId, s`graphAttr
      modifies N`last, N`containers, N`containees
      ensures Placed(N, U, nodes, roots, leaves) && LastUpTo(N, nextId) && 0 <= nextId
      ensures Tracked(N, U, live, p, a) && live == old(live) + [s]
      ensures fresh(n) && N == old(N) + {n} && (old(Faithful(N, live)) ==> Faithful(N, live))
      ensures n.sub == s && n.overriden == [] && n.tests == n.matches == 0 && s.graphAttr == n
    {
      hide *;
      ghost var M := N;
      PlacedMeans(N, U, nodes, roots, leaves);
      n := Register(s, p, a);
      roots, leaves := InsertNode(n, nodes, roots, leaves, nextId, M, U);
      nextId := nextId + 2;
    }

    /** The node of s, not linked to any other yet. */
    method Register(s: Subscription, ghost p: bool, ghost a: bool) returns (n: Node)
      requires Fits(N, U) && Lists(nodes, N) && Twins(N, s) == {} && s.data in U && Tracked(N, U, live, p, a)
      modifies this`N, this`live, this`nodes, s`graphAttr
      ensures fresh(n) && N == old(N) + {n} && Lists(nodes, N) && n.sub == s && n.last == 0 && n.overriden == []
      ensures n.tests == n.matches == 0 && s.graphAttr == n
      ensures Tracked(N, U, live, p, a) && live == old(live) + [s]
      ensures old(Faithful(N, live)) ==> Faithful(N, live)
    {
      hide *;
      ghost var l := live;
      NotLive(N, U, l, s, p, a);
      TrackedMeans(N, U, l, p, a);
      ghost var f := Faithful(N, l);
      n := new Node(s);
      s.graphAttr := n;
      AppendLists(nodes, n, N);
      TrackedNew(N, U, l, n, s, p, a);
      if f { FaithfulNew(N, U, l, n, s); }
      nodes, N, live := nodes + [n], N + {n}, l + [s];
    }

    /** Graph::remove: the newest live member of the class of s goes. */
    method Remove(s: Subscription) returns (found: bool)
      requires Valid() && s.data in U
      modifies this`size, this`N, this`live, this`nodes, this`roots, this`leaves, s`graphAttr
      modifies N`containers, N`containees, N`count
      ensures Valid() && N <= old(N)
      ensures found <==> Class(old(live), s) != []
      ensures live == if found then DropNewest(old(live), s) else old(live)
      ensures s in old(live) && NoDup(old(live)) ==>
        found && (live == Erase(old(live), s) <==> s == Newest(old(live), s))
      ensures s.graphAttr == if found then null else old(s.graphAttr)
      ensures old(Faithful(N, live)) ==> Faithful(N, live)
      ensures forall n | n in N :: n.overriden == old(n.overriden)
    {
      hide *;
      ValidParts();
      ghost var f := Faithful(N, live);
      SearchReady(N, U, nodes, roots, leaves, s);
      var n := Search(roots, s, N, U);
      FoundMeans(N, s, n);
      FoundIffLive(N, U, live, s, n);
      if s in live && NoDup(live) { RemovalTakes(N, U, live, s); }
      if n == null { return false; }
      s.graphAttr := null;
      size := size - 1;
      if n.count > 1 {
        RemoveEquivalent(n, s, f);
      } else {
        RemoveNode(n, s, f);
      }
      ValidParts();
      return true;
    }

    /** One member less in the class of n. */
    method RemoveEquivalent(n: Node, s: Subscription, ghost f: bool)
      requires Fits(N, U) && n in N && n in Twins(N, s) && s.data in U && n.count > 1
      requires Classed(N, U, live) && (f ==> Faithful(N, live))
      modifies this`live, n`count
      ensures live == DropNewest(old(live), s) && |live| == |old(live)| - 1
      ensures Classed(N, U, live) && (f ==> Faithful(N, live))
    {
      hide Fits, Equivalent, Class, DropNewest;
      ClassesShrink(N, U, live, s, n);
      n.count := n.count - 1;
      live := DropNewest(live, s);
    }

    /** Graph::match: the event is tested against the roots and the containees
      * of matching nodes only, each once. Where containment is sound the report is
      * that of the naive scan. */
    method Match(e: Event, matches: seq<Subscription>)
      returns (r: seq<Subscription>, matched: int, tested: int, ghost hits: seq<Node>)
      requires Valid()
      modifies this`nextId, this`pubs, N`last, N`tests, N`matches
      ensures Valid() && pubs == old(pubs) + 1
      ensures r == matches + Flat(hits) && matched == |Flat(hits)|
      ensures NoDup(hits) && forall h | h in hits :: h in Hits(N, e) && h in Tested(N, e)
      ensures SoundOn(U) ==> matched == |Scan(live, e)|
      ensures SoundOn(U) ==>
        forall x | x in live :: |Class(r[|matches|..], x)| == if Accepts(x.data, e) then |Class(live, x)| else 0
      ensures SoundOn(U) && Faithful(N, live) ==> multiset(r[|matches|..]) == multiset(Scan(live, e))
      ensures SoundOn(U) ==> Lists(hits, Hits(N, e)) && tested == |Tested(N, e)|
      ensures SoundOn(U) ==> forall n | n in N :: n.tests == old(n.tests) + if n in Tested(N, e) then 1 else 0
      ensures SoundOn(U) ==> forall n | n in N :: n.matches == old(n.matches) + if n in Hits(N, e) then 1 else 0
    {
      hide *;
      ValidParts();
      pubs := pubs + 1;
      nextId := nextId + 1;
      PlacedMeans(N, U, nodes, roots, leaves);
      CountsBounded(N, U, live);
      ghost var t0, m0 := TestsOf(N), MatchesOf(N);
      StatsMean(N);
      ghost var V;
      r, matched, tested, hits, V := Explore(roots, e, nextId, matches, N);
      ExploredOnly(N, e, V, hits);
      assert r[|matches|..] == Flat(hits);
      if SoundOn(U) {
        ExploreDone(N, U, e, V, hits);
        MatchIsScan(N, U, live, e, hits);
        TalliedMeans(N, V, hits, t0, m0, e);
      }
      ValidParts();
    }

    /** Graph::stats: the depth labels are the lengths of a shortest and a longest
      * path from the roots, every stored node is sampled once, and the sampled
      * counts add up to the number of live subscriptions. */
    method Stats(stats: Stats) returns (ghost order: seq<Node>)
      requires Valid() && stats.Valid()
      modifies this`nextId, N`last, N`depthMin, N`depthMax, stats, stats.Counters()
      ensures Valid() && stats.Valid()
      ensures stats.nodes == |N| && stats.roots == |Roots(N)| && stats.leaves == |Leaves(N)|
      ensures stats.singletons == |Roots(N) * Leaves(N)|
      ensures forall x | x in N :: Extremal(UpperMap(N), x, x.depthMin, x.depthMax)
      ensures Lists(order, N) && stats.Read() == Plus(old(stats.Read()), Rows(order, pubs))
      ensures Sum(Rows(order, pubs).count) == size as real
      ensures |Rows(order, pubs).matches| == |Rows(order, pubs).tests| == size
      ensures Conserved(order, pubs)
    {
      hide *;
      ValidParts();
      PlacedLayered(N, U, nodes, roots, leaves);
      CountsPositive(N, U, live);
      order := Survey(stats, |nodes|, roots, |leaves|, pubs, nextId, N, Hasse(N));
      assert Placed(N, U, nodes, roots, leaves);
      assert Classed(N, U, live);
      nextId := nextId + 2;
      CountsAddUp(N, U, live, order, pubs);
      ListedIn(order, N);
      RatesAddUp(order, pubs);
      ValidParts();
    }

    /** Graph::~Graph: every node of the graph is freed, none of them twice or
      * used afterwards. */
    method Destroy() returns (memory: Memory)
      requires Valid()
      ensures fresh(memory) && memory.links == map[] && Lists(memory.freed, N)
    {
      hide *;
      ValidParts();
      memory := new Memory(nodes);
      PlacedLayered(N, U, nodes, roots, leaves);
      NodesListed(nodes, N);
      StandingStart(N, Hasse(N), memory.links);
      memory.Destroy(roots, N, Hasse(N));
    }

    /** Graph::primary */
    method Primary(s: Subscription) returns (p: Subscription)
      requires s.graphAttr is Node
      ensures p == (s.graphAttr as Node).sub
    {
      p := (s.graphAttr as Node).sub;
    }

    /** Graph::duplicates */
    method Duplicates(s: Subscription) returns (n: int)
      requires s.graphAttr is Node
      ensures n == (s.graphAttr as Node).count
    {
      n := (s.graphAttr as Node).count;
    }

    /** Graph::containers */
    method Containers(s: Subscription, c: seq<Subscription>) returns (r: seq<Subscription>)
      requires s.graphAttr is Node
      ensures r == c + Subs((s.graphAttr as Node).containers)
    {
      r := PushSubs(c, (s.graphAttr as Node).containers);
    }

    /** Graph::containees */
    method Containees(s: Subscription, c: seq<Subscription>) returns (r: seq<Subscription>)
      requires s.graphAttr is Node
      ensures r == c + Subs((s.graphAttr as Node).containees)
    {
      r := PushSubs(c, (s.graphAttr as Node).containees);
    }

    /** The last member takes its node with it. */
    method RemoveNode(n: Node, s: Subscription, ghost f: bool)
      requires Placed(N, U, nodes, roots, leaves) && LastUpTo(N, nextId)
      requires n in N && n in Twins(N, s) && s.data in U && n.count == 1
      requires Classed(N, U, live) && (f ==> Faithful(N, live))
      modifies this`N, this`live, this`nodes, this`roots, this`leaves, N`containers, N`containees
      ensures Placed(N, U, nodes, roots, leaves) && LastUpTo(N, nextId) && N == old(N) - {n}
      ensures live == DropNewest(old(live), s) && |live| == |old(live)| - 1
      ensures Classed(N, U, live) && (f ==> Faithful(N, live))
    {
      hide *;
      ghost var M := N;
      PlacedMeans(N, U, nodes, roots, leaves);
      ClassedGone(N, U, live, n, s);
      roots, leaves := UnplaceNode(n, nodes, roots, leaves, M, U);
      LastFewer(M, n, nextId);
      nodes, N, live := Erase(nodes, n), M - {n}, DropNewest(live, s);
    }
  }

  function Subs(list: seq<Node>): (r: seq<Subscription>)
    ensures |r| == |list| && forall i | 0 <= i < |r| :: r[i] == list[i].sub
  {
    if list == [] then [] else Subs(list[..|list| - 1]) + [list[|list| - 1].sub]
  }

  method PushSubs(c: seq<Subscription>, list: seq<Node>) returns (r: seq<Subscription>)
    ensures r == c + Subs(list)
  {
    r := c;
    var i := 0;
    while i < |list|
      invariant i <= |list| && r == c + Subs(list[..i])
    {
      assert list[..i + 1][..i] == list[..i];
      r := r + [list[i].sub];
      i := i + 1;
    }
    assert list[..i] == list;
  }

  /** The heap is exactly the covering diagram of N. */
  ghost predicate Placed(N: set<Node>, U: iset<seq<Entry>>, nodes: seq<Node>, roots: seq<Node>, leaves: seq<Node>)
    reads N`containers, N`containees
  {
    Fits(N, U) && Lists(nodes, N) && Drawn(N) && Lists(roots, Roots(N)) && Lists(leaves, Leaves(N))
  }

  lemma PlacedMeans(N: set<Node>, U: iset<seq<Entry>>, nodes: seq<Node>, roots: seq<Node>, leaves: seq<Node>)
    ensures Placed(N, U, nodes, roots, leaves) <==>
      Fits(N, U) && Lists(nodes, N) && Drawn(N) && Lists(roots, Roots(N)) && Lists(leaves, Leaves(N))
  {}

  /** The lists are those of symmetric edges without a cycle. */
  lemma PlacedLayered(N: set<Node>, U: iset<seq<Entry>>, nodes: seq<Node>, roots: seq<Node>, leaves: seq<Node>)
    requires Placed(N, U, nodes, roots, leaves)
    ensures var g := Hasse(N);
      && Layered(N, g) && Symmetric(N, g) && g.rank.Keys == N && g.up == UpperMap(N)
      && DownLists(N, g.down) && UpLists(N, g.up) && Lists(roots, Tops(N, g))
      && Tops(N, g) == Roots(N) && Bottoms(N, g) == Leaves(N)
    ensures Fits(N, U) && Lists(nodes, N) && |nodes| == |N| && |leaves| == |Leaves(N)|
  {
    HasseLayered(N, U);
    HasseMeans(N);
    LayeredMeans(N, Hasse(N));
    ListsSize(nodes, N);
    ListsSize(leaves, Leaves(N));
    hide Hasse, Layered, Symmetric, Fits, Roots, Leaves, Tops, Bottoms, Lists, DownLists, UpLists;
  }

  /** Everything stored lies below some root. */
  lemma SearchReady(N: set<Node>, U: iset<seq<Entry>>, nodes: seq<Node>, roots: seq<Node>, leaves: seq<Node>,
                    s: Subscription)
    requires Placed(N, U, nodes, roots, leaves)
    ensures Fits(N, U) && Drawn(N) && InReach(N, roots, s)
  {
    forall j | 0 <= j < |roots| ensures roots[j] in N { assert roots[j] in roots; }
    forall e | e in N ensures e in DownSet(N, roots) { var r := RootOver(N, U, e); assert r in roots; }
  }

  lemma OnlyTwin(N: set<Node>, U: iset<seq<Entry>>, s: Subscription, n: Node?)
    requires Fits(N, U) && s.data in U && (if n == null then Twins(N, s) == {} else n in N && n in Twins(N, s))
    ensures Twins(N, s) == if n == null then {} else {n}
  {
    hide Fits, Includes;
    if n != null {
      forall m | m in Twins(N, s) ensures m == n { OneTwin(N, U, s, n, m); }
    }
  }

  lemma OwnTwin(N: set<Node>, U: iset<seq<Entry>>, s: Subscription, n: Node)
    requires Preorder(U) && n in N && n.sub == s && s.data in U
    ensures n in Twins(N, s)
  {}

  lemma FoundMeans(N: set<Node>, s: Subscription, n: Node?)
    requires Found(N, s, n)
    ensures n == null ==> Twins(N, s) == {}
    ensures n != null ==> n in Twins(N, s) && n in N && Twins(N, s) != {}
  {}

  lemma NodesListed(nodes: seq<Node>, N: set<Node>)
    requires Lists(nodes, N)
    ensures (set n | n in nodes) == N && forall n | n in N :: n in nodes
  {}

  lemma RemovalTakes(N: set<Node>, U: iset<seq<Entry>>, live: seq<Subscription>, s: Subscription)
    requires Fits(N, U) && Classed(N, U, live) && s in live && NoDup(live)
    ensures Class(live, s) != [] && (DropNewest(live, s) == Erase(live, s) <==> s == Newest(live, s))
  {
    DropIsErase(live, s);
  }

  lemma TwinMeans(N: set<Node>, s: Subscription, n: Node)
    requires n in Twins(N, s)
    ensures Equivalent(n.sub.data, s.data)
  {}

  method InsertNode(n: Node, ghost nodes: seq<Node>, roots: seq<Node>, leaves: seq<Node>, id: int, ghost M: set<Node>,
                    ghost U: iset<seq<Entry>>)
    returns (roots': seq<Node>, leaves': seq<Node>)
    requires n !in M && Twins(M, n.sub) == {} && n.sub.data in U && n.last <= id
    requires Fits(M, U) && LastUpTo(M, id) && 0 <= id && Lists(nodes, M + {n})
    requires Drawn(M) && Lists(roots, Roots(M)) && Lists(leaves, Leaves(M))
    modifies M`last, M`containers, M`containees, n`containers, n`containees
    ensures Placed(M + {n}, U, nodes, roots', leaves') && LastUpTo(M + {n}, id + 2)
  {
    hide Fits, Drawn, Lists, Twins, Roots, Leaves, Upper, Lower, Covers, Above;
    FitsAdded(M, U, n);
    Frontiers(n, roots, leaves, id, M, U);
    roots', leaves' := Splice(n, roots, leaves, M, U);
  }

  /** The traversals of Graph::add, the first under the next stamp, the second under the one after. */
  method Frontiers(n: Node, roots: seq<Node>, leaves: seq<Node>, id: int, ghost M: set<Node>, ghost U: iset<seq<Entry>>)
    requires Fits(M, U) && Fits(M + {n}, U) && n !in M && LastUpTo(M, id)
    requires Drawn(M) && Lists(roots, Roots(M)) && Lists(leaves, Leaves(M))
    modifies n`containers, n`containees, M`last
    ensures Lists(n.containers, Upper(M + {n}, n)) && Lists(n.containees, Lower(M + {n}, n))
    ensures LastUpTo(M, id + 2) && Drawn(M)
  {
    hide *;
    var c := ContainersOf(roots, n.sub, id + 1, n, M, U);
    n.containers := c;
    c := ContaineesOf(leaves, n.sub, id + 2, n, M, U);
    n.containees := c;
  }

  /** The editing loops of Graph::add. */
  method Splice(n: Node, roots: seq<Node>, leaves: seq<Node>, ghost M: set<Node>, ghost U: iset<seq<Entry>>)
    returns (roots': seq<Node>, leaves': seq<Node>)
    requires Fits(M, U) && Fits(M + {n}, U) && n !in M
    requires Drawn(M) && Lists(roots, Roots(M)) && Lists(leaves, Leaves(M))
    requires Lists(n.containers, Upper(M + {n}, n)) && Lists(n.containees, Lower(M + {n}, n))
    modifies M`containers, M`containees
    ensures Drawn(M + {n}) && Lists(roots', Roots(M + {n})) && Lists(leaves', Leaves(M + {n}))
  {
    hide *;
    SpliceReady(M, U, n);
    leaves' := LinkBelow(n, leaves, M, LowerMap(M), Leaves(M));
    roots' := LinkAbove(n, roots, M, UpperMap(M), Roots(M));
    DrawnAdded(M, U, n);
    EndpointsAdded(M, U, n, roots', leaves');
    if n.containers == [] { roots' := roots' + [n]; }
    if n.containees == [] { leaves' := leaves' + [n]; }
  }

  lemma FitsAdded(M: set<Node>, U: iset<seq<Entry>>, n: Node)
    requires Fits(M, U) && n.sub.data in U && Twins(M, n.sub) == {} && n !in M
    ensures Fits(M + {n}, U)
  {
    forall a | a in M ensures !(Geq(a, n) && Geq(n, a)) { assert a !in Twins(M, n.sub); }
  }

  lemma SpliceReady(M: set<Node>, U: iset<seq<Entry>>, n: Node)
    requires Fits(M, U) && Drawn(M) && n !in M
    requires Lists(n.containers, Upper(M + {n}, n)) && Lists(n.containees, Lower(M + {n}, n))
    ensures LowerMap(M).Keys == M && UpperMap(M).Keys == M && DownLists(M, LowerMap(M)) && UpLists(M, UpperMap(M))
    ensures NoDup(n.containers) && NoDup(n.containees)
    ensures (forall p | p in n.containers :: p in M) && (forall c | c in n.containees :: c in M)
    ensures forall x | x in M :: n !in LowerMap(M)[x] && (x in Leaves(M) ==> LowerMap(M)[x] == {})
    ensures forall x | x in M :: n !in UpperMap(M)[x] && (x in Roots(M) ==> UpperMap(M)[x] == {})
  {
    forall x | x in M ensures (x in Leaves(M) ==> Lower(M, x) == {}) && (x in Roots(M) ==> Upper(M, x) == {}) {
      RootIffNoUpper(M, U, x);
    }
  }

  lemma DrawnAdded(M: set<Node>, U: iset<seq<Entry>>, n: Node)
    requires Fits(M + {n}, U) && n !in M
    requires Lists(n.containers, Upper(M + {n}, n)) && Lists(n.containees, Lower(M + {n}, n))
    requires DownLists(M, Spliced(LowerMap(M), n.containers, Elems(n.containees), n))
    requires UpLists(M, Spliced(UpperMap(M), n.containees, Elems(n.containers), n))
    ensures Drawn(M + {n})
  {
    assert Elems(n.containees) == Lower(M + {n}, n) && Elems(n.containers) == Upper(M + {n}, n);
    forall x | x in M ensures Lists(x.containees, Lower(M + {n}, x)) { LowerAdded(M, U, n, x); }
    forall x | x in M ensures Lists(x.containers, Upper(M + {n}, x)) { UpperAdded(M, U, n, x); }
  }

  lemma EndpointsAdded(M: set<Node>, U: iset<seq<Entry>>, n: Node, roots: seq<Node>, leaves: seq<Node>)
    requires Fits(M + {n}, U) && n !in M
    requires Lists(n.containers, Upper(M + {n}, n)) && Lists(n.containees, Lower(M + {n}, n))
    requires Lists(roots, Roots(M) - Elems(n.containees)) && Lists(leaves, Leaves(M) - Elems(n.containers))
    ensures Lists(if n.containers == [] then roots + [n] else roots, Roots(M + {n}))
    ensures Lists(if n.containees == [] then leaves + [n] else leaves, Leaves(M + {n}))
  {
    hide Fits, Covers, Roots, Leaves, Upper, Lower;
    RootsAdded(M, U, n);
    LeavesAdded(M, U, n);
    RootsInside(M);
    assert Elems(n.containees) == Lower(M + {n}, n) && Elems(n.containers) == Upper(M + {n}, n);
    ListsEmpty(n.containers, Upper(M + {n}, n));
    ListsEmpty(n.containees, Lower(M + {n}, n));
    AppendLists(roots, n, Roots(M) - Elems(n.containees));
    AppendLists(leaves, n, Leaves(M) - Elems(n.containers));
  }

  lemma RootsInside(M: set<Node>)
    ensures Roots(M) <= M && Leaves(M) <= M
  {}

  lemma LastFewer(N: set<Node>, n: Node, id: int)
    requires LastUpTo(N, id)
    ensures LastUpTo(N - {n}, id)
  {}

  lemma ListedIn(order: seq<Node>, N: set<Node>)
    requires Lists(order, N)
    ensures forall n | n in order :: n in N
  {}

  lemma CountsPositive(N: set<Node>, U: iset<seq<Entry>>, live: seq<Subscription>)
    requires Classed(N, U, live)
    ensures forall n | n in N :: 1 <= n.count
  {
    forall n | n in N ensures 1 <= n.count { assert Counts(n, U, live); }
  }

  lemma TalliedMeans(N: set<Node>, V: set<Node>, hits: seq<Node>, t0: map<Node, int>, m0: map<Node, int>, e: Event)
    requires Tallied(N, V, hits, t0, m0) && Lists(hits, Hits(N, e)) && V == Tested(N, e)
    ensures N <= t0.Keys && N <= m0.Keys
    ensures forall n | n in N :: n.tests == t0[n] + if n in Tested(N, e) then 1 else 0
    ensures forall n | n in N :: n.matches == m0[n] + if n in Hits(N, e) then 1 else 0
  {
    InLower(hits, Hits(N, e));
  }

  /** The editing part of Graph::remove. */
  method UnplaceNode(n: Node, ghost nodes: seq<Node>, roots: seq<Node>, leaves: seq<Node>, ghost N: set<Node>,
                     ghost U: iset<seq<Entry>>)
    returns (roots': seq<Node>, leaves': seq<Node>)
    requires Placed(N, U, nodes, roots, leaves) && n in N
    modifies (N - {n})`containers, (N - {n})`containees
    ensures Placed(N - {n}, U, Erase(nodes, n), roots', leaves')
  {
    hide *;
    var parents, children := n.containers, n.containees;
    UnplaceReady(n, nodes, roots, leaves, N, U);
    roots' := if n.containers == [] then Erase(roots, n) else roots;
    leaves' := if n.containees == [] then Erase(leaves, n) else leaves;
    UnlinkBelow(n, N - {n}, LowerLeft(N, n));
    UnlinkAbove(n, N - {n}, UpperLeft(N, n));
    NothingRelinked(N, n, parents, children);
    RelinkAll(n, parents, children, N, U);
    RelinkedAll(N, U, n, parents, children);
    leaves' := NewLeaves(leaves', parents, Leaves(N) - {n}, N - {n}, LowerMap(N - {n}));
    roots' := NewRoots(roots', children, Roots(N) - {n}, N - {n}, UpperMap(N - {n}));
    UnplaceDone(n, nodes, parents, children, roots', leaves', N, U);
  }

  lemma UnplaceReady(n: Node, nodes: seq<Node>, roots: seq<Node>, leaves: seq<Node>, N: set<Node>, U: iset<seq<Entry>>)
    requires Placed(N, U, nodes, roots, leaves) && n in N
    ensures Fits(N, U) && Lists(nodes, N) && n !in N - {n}
    ensures Lists(n.containers, Upper(N, n)) && Lists(n.containees, Lower(N, n))
    ensures NoDup(n.containers) && NoDup(n.containees)
    ensures (forall p | p in n.containers :: p in N - {n}) && (forall c | c in n.containees :: c in N - {n})
    ensures forall j | 0 <= j < |n.containers| :: n.containers[j] in N - {n} && n.containers[j] !in Leaves(N) - {n}
    ensures forall j | 0 <= j < |n.containees| :: n.containees[j] in N - {n} && n.containees[j] !in Roots(N) - {n}
    ensures N - {n} == LowerLeft(N, n).Keys && N - {n} == UpperLeft(N, n).Keys
    ensures DownLists(N - {n}, LowerLeft(N, n)) && UpLists(N - {n}, UpperLeft(N, n))
    ensures Lists(if n.containers == [] then Erase(roots, n) else roots, Roots(N) - {n})
    ensures Lists(if n.containees == [] then Erase(leaves, n) else leaves, Leaves(N) - {n})
  {
    EndsErased(n, roots, leaves, N, U);
    NeighboursInner(n, N);
  }

  lemma NeighboursInner(n: Node, N: set<Node>)
    requires n in N && Lists(n.containers, Upper(N, n)) && Lists(n.containees, Lower(N, n))
    ensures forall j | 0 <= j < |n.containers| :: n.containers[j] in N - {n} && n.containers[j] !in Leaves(N) - {n}
    ensures forall j | 0 <= j < |n.containees| :: n.containees[j] in N - {n} && n.containees[j] !in Roots(N) - {n}
  {
    forall j | 0 <= j < |n.containers| ensures n.containers[j] in N - {n} && n.containers[j] !in Leaves(N) {
      assert n.containers[j] in n.containers;
      assert n in Below(N, n.containers[j]);
    }
    forall j | 0 <= j < |n.containees| ensures n.containees[j] in N - {n} && n.containees[j] !in Roots(N) {
      assert n.containees[j] in n.containees;
      assert n in Over(N, n.containees[j]);
    }
  }

  /** Only a root (leaf) is on the list of roots (leaves). */
  lemma EndsErased(n: Node, roots: seq<Node>, leaves: seq<Node>, N: set<Node>, U: iset<seq<Entry>>)
    requires Fits(N, U) && n in N && Lists(roots, Roots(N)) && Lists(leaves, Leaves(N))
    requires Lists(n.containers, Upper(N, n)) && Lists(n.containees, Lower(N, n))
    ensures Lists(if n.containers == [] then Erase(roots, n) else roots, Roots(N) - {n})
    ensures Lists(if n.containees == [] then Erase(leaves, n) else leaves, Leaves(N) - {n})
  {
    ListsEmpty(n.containers, Upper(N, n));
    ListsEmpty(n.containees, Lower(N, n));
    RootIffNoUpper(N, U, n);
    EraseLists(roots, n, Roots(N));
    EraseLists(leaves, n, Leaves(N));
    assert n !in Roots(N) ==> Roots(N) - {n} == Roots(N);
    assert n !in Leaves(N) ==> Leaves(N) - {n} == Leaves(N);
  }

  lemma UnplaceDone(n: Node, nodes: seq<Node>, parents: seq<Node>, children: seq<Node>, roots: seq<Node>,
                    leaves: seq<Node>,
                    N: set<Node>, U: iset<seq<Entry>>)
    requires Fits(N, U) && Lists(nodes, N) && n in N && Lists(parents, Upper(N, n)) && Lists(children, Lower(N, n))
    requires DownLists(N - {n}, LowerMap(N - {n})) && UpLists(N - {n}, UpperMap(N - {n}))
    requires Lists(leaves, Leaves(N) - {n} + Bare(parents, LowerMap(N - {n})))
    requires Lists(roots, Roots(N) - {n} + Bare(children, UpperMap(N - {n})))
    ensures Placed(N - {n}, U, Erase(nodes, n), roots, leaves)
  {
    hide Fits, Lists, Roots, Leaves, LowerMap, UpperMap, Lower, Upper, Covers, DownLists, UpLists;
    EraseLists(nodes, n, N);
    RootsRemoved(N, U, n);
    LeavesRemoved(N, U, n);
    BareParents(N, n, parents);
    BareChildren(N, n, children);
    FitsFewer(N, U, n);
  }

  lemma FitsFewer(N: set<Node>, U: iset<seq<Entry>>, n: Node)
    requires Fits(N, U)
    ensures Fits(N - {n}, U)
  {}

  lemma BareParents(N: set<Node>, n: Node, parents: seq<Node>)
    requires Lists(parents, Upper(N, n))
    ensures Bare(parents, LowerMap(N - {n})) == NewLeafSet(N, n)
  {
    hide Covers;
    forall p | p in Upper(N, n)
      ensures p in N - {n} && LowerMap(N - {n})[p] == Lower(N - {n}, p)
    {
      UpperInside(N, n, p);
    }
  }

  lemma BareChildren(N: set<Node>, n: Node, children: seq<Node>)
    requires Lists(children, Lower(N, n))
    ensures Bare(children, UpperMap(N - {n})) == NewRootSet(N, n)
  {
    hide Covers;
    forall c | c in Lower(N, n)
      ensures c in N - {n} && UpperMap(N - {n})[c] == Upper(N - {n}, c)
    {
      UpperInside(N, n, c);
    }
  }

  lemma UpperInside(N: set<Node>, n: Node, x: Node)
    ensures x in Upper(N, n) || x in Lower(N, n) ==> x in N - {n}
  {}
}
