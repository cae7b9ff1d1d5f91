/** Edges between nodes in both directions, wherever they come from: what the
  * walks that follow them need, and exactly when they lead into a cycle. */
module Edges {
  import opened Subscriptions
  import opened Diagram
  import opened DiagramUpdate

  /** Down to the containees, up to the containers, and, for some of the nodes, a
    * rank that falls on the way down. */
  datatype Shape = Shape(down: map<Node, set<Node>>, up: map<Node, set<Node>>, rank: map<Node, nat>)

  /** Every edge is in the lists of both of its ends. */
  ghost predicate Symmetric(N: set<Node>, g: Shape) {
    && g.down.Keys == N == g.up.Keys
    && (forall x | x in N :: g.down[x] <= N && g.up[x] <= N)
    && forall p, c | p in N && c in N :: c in g.down[p] <==> p in g.up[c]
  }

  /** From a ranked node all edges down lead to nodes of lower rank. */
  ghost predicate Falls(down: map<Node, set<Node>>, rank: map<Node, nat>) {
    forall x | x in rank :: x in down && forall c | c in down[x] :: c in rank && rank[c] < rank[x]
  }

  ghost predicate Layered(N: set<Node>, g: Shape) { Symmetric(N, g) && Falls(g.down, g.rank) && g.rank.Keys <= N }

  ghost function Tops(N: set<Node>, g: Shape): set<Node> { set x | x in N && x in g.up && g.up[x] == {} }

  ghost function Bottoms(N: set<Node>, g: Shape): set<Node> { set x | x in N && x in g.down && g.down[x] == {} }

  /** A path leads down from x to y. */
  ghost predicate Leads(g: Shape, x: Node, y: Node)
    requires Falls(g.down, g.rank) && x in g.rank
    decreases g.rank[x]
  {
    exists c | c in g.down[x] :: c == y || Leads(g, c, y)
  }

  ghost function Beneath(g: Shape, x: Node): set<Node>
    requires Falls(g.down, g.rank) && x in g.rank
  {
    set y | y in g.rank && Leads(g, x, y)
  }

  lemma {:induction false} BeneathStep(g: Shape, x: Node, c: Node)
    requires Falls(g.down, g.rank) && x in g.rank && c in g.down[x]
    ensures c in g.rank && g.rank[c] < g.rank[x] && Beneath(g, c) + {c} <= Beneath(g, x)
  {
    forall y | y in Beneath(g, c) + {c} ensures y in Beneath(g, x) {}
  }

  lemma BeneathBack(g: Shape, x: Node, y: Node) returns (c: Node)
    requires Falls(g.down, g.rank) && x in g.rank && y in Beneath(g, x)
    ensures c in g.down[x] && c in g.rank && g.rank[c] < g.rank[x] && (c == y || y in Beneath(g, c))
  {
    c :| c in g.down[x] && (c == y || Leads(g, c, y));
  }

  /** What is beneath x has a lower rank, and its own edges stay beneath x. */
  lemma {:induction false} BeneathClosed(g: Shape, x: Node, y: Node)
    requires Falls(g.down, g.rank) && x in g.rank && y in Beneath(g, x)
    ensures y in g.rank && g.rank[y] < g.rank[x] && y != x && g.down[y] <= Beneath(g, x)
    decreases g.rank[x]
  {
    var c := BeneathBack(g, x, y);
    BeneathStep(g, x, c);
    if c == y {
      forall d | d in g.down[y] ensures d in Beneath(g, x) { BeneathStep(g, y, d); }
    } else {
      BeneathClosed(g, c, y);
    }
  }

  /** Something leads to whatever is beneath x. */
  lemma {:induction false} BeneathUnder(N: set<Node>, g: Shape, x: Node, y: Node)
    requires Layered(N, g) && x in g.rank && y in Beneath(g, x)
    ensures y in N && g.up[y] != {}
    decreases g.rank[x]
  {
    var c := BeneathBack(g, x, y);
    if c == y {
      assert x in g.up[y];
    } else {
      BeneathUnder(N, g, c, y);
    }
  }

  /** A non-empty set of ranked nodes has one of the highest rank. */
  lemma {:induction false} Highest(A: set<Node>, rank: map<Node, nat>) returns (m: Node)
    requires A != {} && A <= rank.Keys
    ensures m in A && forall x | x in A :: rank[x] <= rank[m]
  {
    m :| m in A;
    if A != {m} {
      var o := Highest(A - {m}, rank);
      if rank[m] < rank[o] { m := o; }
    }
  }

  // ---------------------------------------------------------------------------
  // Cycles
  // ---------------------------------------------------------------------------

  /** From every node of Z an edge leads down to a node of Z: there is no way out
    * of going round, and where there is a cycle its nodes are such a set. */
  ghost predicate Cycling(down: map<Node, set<Node>>, Z: set<Node>) {
    Z <= down.Keys && forall z | z in Z :: down[z] * Z != {}
  }

  /** A ranked node is in no such set... */
  lemma {:induction false} RankedOut(down: map<Node, set<Node>>, rank: map<Node, nat>, Z: set<Node>, x: Node)
    requires Falls(down, rank) && x in rank && Cycling(down, Z)
    ensures x !in Z
    decreases rank[x]
  {
    if x in Z {
      var c :| c in down[x] * Z;
      RankedOut(down, rank, Z, c);
    }
  }

  /** ... and what cannot be ranked is one: rank the nodes whose containees are all
    * ranked, until there is none. */
  lemma {:induction false} RankFrom(down: map<Node, set<Node>>, rank: map<Node, nat>, k: nat)
    returns (full: map<Node, nat>)
    requires (forall x | x in down :: down[x] <= down.Keys)
    requires Falls(down, rank) && rank.Keys <= down.Keys && forall x | x in rank :: rank[x] < k
    ensures Falls(down, full) && rank.Keys <= full.Keys <= down.Keys && Cycling(down, down.Keys - full.Keys)
    decreases down.Keys - rank.Keys
  {
    var Z := down.Keys - rank.Keys;
    if z :| z in Z && down[z] * Z == {} {
      forall c | c in down[z] ensures c in rank { assert c in down[z] * Z <==> c in Z; }
      full := RankFrom(down, rank[z := k], k + 1);
    } else {
      full := rank;
    }
  }

  /** A node can be ranked, with all that is below it, if and only if there is no
    * going round from it. */
  lemma RankExact(down: map<Node, set<Node>>, x: Node)
    requires (forall y | y in down :: down[y] <= down.Keys) && x in down
    ensures (exists rank :: Falls(down, rank) && rank.Keys <= down.Keys && x in rank) <==>
      !exists Z :: Cycling(down, Z) && x in Z
  {
    if rank :| Falls(down, rank) && rank.Keys <= down.Keys && x in rank {
      forall Z | Cycling(down, Z) ensures x !in Z { RankedOut(down, rank, Z, x); }
    }
    var full := RankFrom(down, map[], 0);
    assert x in full || x in down.Keys - full.Keys;
  }

  // ---------------------------------------------------------------------------
  // The covering diagram is an instance
  // ---------------------------------------------------------------------------

  ghost function Hasse(N: set<Node>): Shape {
    Shape(LowerMap(N), UpperMap(N), map x | x in N :: |Below(N, x)|)
  }

  lemma Fewer(A: set<Node>, B: set<Node>)
    requires A < B
    ensures |A| < |B|
  {
    assert B == A + (B - A) && B - A != {};
  }

  /** Where containment is a preorder the covering edges are symmetric and free of cycles. */
  lemma HasseLayered(N: set<Node>, U: iset<seq<Entry>>)
    requires Fits(N, U)
    ensures Layered(N, Hasse(N)) && Hasse(N).rank.Keys == N
    ensures Tops(N, Hasse(N)) == Roots(N) && Bottoms(N, Hasse(N)) == Leaves(N)
  {
    HasseSymmetric(N);
    HasseFalls(N, U);
    HasseTops(N, U);
    hide *;
    HasseMeans(N);
    LayeredIf(N, Hasse(N));
  }

  lemma LayeredIf(N: set<Node>, g: Shape)
    requires Symmetric(N, g) && Falls(g.down, g.rank) && g.rank.Keys <= N
    ensures Layered(N, g)
  {}

  lemma HasseSymmetric(N: set<Node>)
    ensures Symmetric(N, Hasse(N))
  {
    hide *;
    HasseMeans(N);
    var g := Hasse(N);
    forall x | x in N ensures g.down[x] <= N && g.up[x] <= N { BothWithin(N, x); }
    forall p, c | p in N && c in N ensures c in g.down[p] <==> p in g.up[c] { BothWays(N, p, c); }
    SymmetricIf(N, g);
  }

  lemma SymmetricIf(N: set<Node>, g: Shape)
    requires g.down.Keys == N == g.up.Keys && forall x | x in N :: g.down[x] <= N && g.up[x] <= N
    requires forall p, c | p in N && c in N :: c in g.down[p] <==> p in g.up[c]
    ensures Symmetric(N, g)
  {}

  lemma HasseFalls(N: set<Node>, U: iset<seq<Entry>>)
    requires Fits(N, U)
    ensures Falls(Hasse(N).down, Hasse(N).rank)
  {
    HasseMeans(N);
    var g := Hasse(N);
    hide Hasse, Fits, Lower, Below, Upper;
    forall x | x in g.rank ensures x in g.down && forall c | c in g.down[x] :: c in g.rank && g.rank[c] < g.rank[x] {
      forall c | c in g.down[x] ensures c in g.rank && g.rank[c] < g.rank[x] { LowerFewer(N, U, x, c); }
    }
  }

  lemma HasseTops(N: set<Node>, U: iset<seq<Entry>>)
    requires Fits(N, U)
    ensures Tops(N, Hasse(N)) == Roots(N) && Bottoms(N, Hasse(N)) == Leaves(N)
  {
    hide *;
    HasseMeans(N);
    RootsWithin(N);
    forall x | x in N
      ensures Upper(N, x) == {} <==> x in Roots(N)
      ensures Lower(N, x) == {} <==> x in Leaves(N)
    {
      RootIffNoUpper(N, U, x);
    }
    EndsIf(N, Hasse(N), Roots(N), Leaves(N));
  }

  lemma EndsIf(N: set<Node>, g: Shape, R: set<Node>, L: set<Node>)
    requires g.down.Keys == N == g.up.Keys && R <= N && L <= N
    requires forall x | x in N :: (g.up[x] == {} <==> x in R) && (g.down[x] == {} <==> x in L)
    ensures Tops(N, g) == R && Bottoms(N, g) == L
  {}

  lemma BothWithin(N: set<Node>, x: Node)
    ensures Lower(N, x) <= N && Upper(N, x) <= N
  {}

  lemma RootsWithin(N: set<Node>)
    ensures Roots(N) <= N && Leaves(N) <= N
  {}

  lemma HasseMeans(N: set<Node>)
    ensures var g := Hasse(N);
      && g.down == LowerMap(N) && g.up == UpperMap(N) && g.down.Keys == N == g.up.Keys && g.rank.Keys == N
      && forall x | x in N :: g.down[x] == Lower(N, x) && g.up[x] == Upper(N, x) && g.rank[x] == |Below(N, x)|
  {
    hide Lower, Upper, Below;
  }

  lemma BothWays(N: set<Node>, p: Node, c: Node)
    requires p in N && c in N
    ensures c in Lower(N, p) <==> p in Upper(N, c)
  {
    hide Covers;
  }

  lemma LowerFewer(N: set<Node>, U: iset<seq<Entry>>, x: Node, c: Node)
    requires Fits(N, U) && x in N && c in Lower(N, x)
    ensures c in N && |Below(N, c)| < |Below(N, x)| && Below(N, c) < Below(N, x) && c in Below(N, x)
  {
    BelowShrinks(N, U, x, c);
    Fewer(Below(N, c), Below(N, x));
  }

  /** There, what is beneath a node is what it strictly contains. */
  lemma {:induction false} HasseBeneath(N: set<Node>, U: iset<seq<Entry>>, x: Node)
    requires Fits(N, U) && x in N && Layered(N, Hasse(N)) && Hasse(N).rank.Keys == N
    ensures Beneath(Hasse(N), x) == Below(N, x)
    decreases Below(N, x)
  {
    hide *;
    HasseMeans(N);
    BothWithin(N, x);
    var g := Hasse(N);
    LayeredMeans(N, g);
    forall c | c in Lower(N, x)
      ensures Beneath(g, c) == Below(N, c) && c in g.rank && Below(N, c) + {c} <= Below(N, x)
    {
      LowerFewer(N, U, x, c);
      HasseBeneath(N, U, c);
    }
    forall y | y in Beneath(g, x) ensures y in Below(N, x) { var c := BeneathBack(g, x, y); }
    forall y | y in Below(N, x) ensures y in Beneath(g, x) {
      var c := LowerToward(N, U, x, y);
      BeneathStep(g, x, c);
    }
  }

  lemma LayeredMeans(N: set<Node>, g: Shape)
    requires Layered(N, g)
    ensures Symmetric(N, g) && Falls(g.down, g.rank) && g.rank.Keys <= N && g.down.Keys == N == g.up.Keys
  {}

  lemma LowerToward(N: set<Node>, U: iset<seq<Entry>>, x: Node, y: Node) returns (c: Node)
    requires Fits(N, U) && x in N && y in Below(N, x)
    ensures c in Lower(N, x) && (c == y || y in Below(N, c))
  {
    c := StepDown(N, U, x, y);
    if c != y { AboveIffDistinct(N, U, c, y); }
  }
}
