/** Depth labels: the re-relaxing walk of the statistics. */
module Depths {
  import opened Diagram
  import opened Traversal
  import opened Edges

  /** There is a path of n nodes from a root down to x. */
  ghost predicate PathOf(up: map<Node, set<Node>>, x: Node, n: int)
    decreases n
  {
    x in up && if n <= 1 then n == 1 && up[x] == {} else exists y | y in up[x] :: PathOf(up, y, n - 1)
  }

  /** lo and hi are the lengths of a shortest and a longest such path. */
  ghost predicate Extremal(up: map<Node, set<Node>>, x: Node, lo: int, hi: int) {
    PathOf(up, x, lo) && PathOf(up, x, hi) && forall n :: PathOf(up, x, n) ==> lo <= n <= hi
  }

  ghost predicate Child(g: Shape, y: Node, c: Node) { y in g.down && c in g.down[y] }

  /** y has a lower rank than x. */
  ghost predicate Under(g: Shape, x: Node, y: Node) { x in g.rank && y in g.rank && g.rank[y] < g.rank[x] }

  /** All that is still being worked on has a higher rank than x. */
  ghost predicate OpenOver(g: Shape, open: set<Node>, x: Node) { forall o | o in open :: Under(g, o, x) }

  /** The labels of all nodes; 0 stands for none yet. */
  datatype Labels = Labels(lo: map<Node, int>, hi: map<Node, int>)

  ghost function LabelsOf(N: set<Node>): (L: Labels)
    reads N`depthMin, N`depthMax
    ensures L.lo.Keys == N && L.hi.Keys == N
  {
    Labels(map x | x in N :: x.depthMin, map x | x in N :: x.depthMax)
  }

  /** Every label is the length of some path. */
  ghost predicate Sensible(N: set<Node>, g: Shape, L: Labels) {
    L.lo.Keys == N && L.hi.Keys == N && forall x | x in N :: Label(N, g, x, L.lo[x], L.hi[x])
  }

  ghost predicate Label(N: set<Node>, g: Shape, x: Node, lo: int, hi: int) {
    if hi == 0 then lo == 0 else PathOf(g.up, x, lo) && PathOf(g.up, x, hi)
  }

  /** The labels of c take the path through y into account. */
  ghost predicate Edge(N: set<Node>, L: Labels, y: Node, c: Node)
    requires L.lo.Keys == N && L.hi.Keys == N && y in N && c in N
  {
    L.hi[y] + 1 <= L.hi[c] && 0 < L.lo[c] <= L.lo[y] + 1
  }

  /** ... for every labelled node y but those still being worked on. */
  ghost predicate Relaxed(N: set<Node>, g: Shape, L: Labels, open: set<Node>)
    requires L.lo.Keys == N && L.hi.Keys == N
  {
    forall y, c | y in N && y !in open && L.hi[y] != 0 && Child(g, y, c) && c in N :: Edge(N, L, y, c)
  }

  /** From L to W labels only improved, and only at x and below. */
  ghost predicate Improved(N: set<Node>, g: Shape, L: Labels, W: Labels, x: Node)
    requires L.lo.Keys == N && L.hi.Keys == N && W.lo.Keys == N && W.hi.Keys == N
  {
    forall y | y in N ::
      && (y != x && !Under(g, x, y) ==> W.lo[y] == L.lo[y] && W.hi[y] == L.hi[y])
      && L.hi[y] <= W.hi[y] && (L.hi[y] != 0 ==> W.lo[y] <= L.lo[y])
  }

  lemma {:induction false} PathPositive(N: set<Node>, g: Shape, x: Node, n: int)
    requires PathOf(g.up, x, n)
    ensures 1 <= n
  {}

  lemma PathStep(N: set<Node>, g: Shape, y: Node, x: Node, n: int)
    requires Symmetric(N, g) && PathOf(g.up, y, n) && Child(g, y, x)
    ensures PathOf(g.up, x, n + 1)
  {
    assert y in g.up[x];
  }

  lemma RootPath(N: set<Node>, g: Shape, x: Node, n: int)
    requires x in Tops(N, g)
    ensures PathOf(g.up, x, n) <==> n == 1
  {
  }

  /** One relaxation of x over the edge from its container. */
  ghost function Relax(N: set<Node>, L: Labels, parent: Node?, x: Node): Labels
    requires L.lo.Keys == N && L.hi.Keys == N && x in N && (parent != null ==> parent in N)
  {
    if parent == null then Labels(L.lo[x := 1], L.hi[x := 1])
    else Labels(L.lo[x := if L.lo[x] == 0 || L.lo[x] > L.lo[parent] + 1 then L.lo[parent] + 1 else L.lo[x]],
                L.hi[x := if L.hi[x] == 0 || L.hi[x] < L.hi[parent] + 1 then L.hi[parent] + 1 else L.hi[x]])
  }

  /** There is something to relax. */
  ghost predicate Updates(L: Labels, parent: Node?, x: Node)
    requires x in L.lo && x in L.hi && (parent != null ==> parent in L.lo && parent in L.hi)
  {
    || parent == null || L.hi[x] == 0 || L.hi[x] < L.hi[parent] + 1 || L.lo[x] == 0 || L.lo[x] > L.lo[parent] + 1
  }

  /** Where a call stands: x is a root, or a containee of a labelled container being worked on. */
  ghost predicate Called(N: set<Node>, g: Shape, L: Labels, open: set<Node>, parent: Node?, x: Node) {
    && Sensible(N, g, L) && Relaxed(N, g, L, open) && x in N && x in g.rank && OpenOver(g, open, x)
    && (if parent == null then x in Tops(N, g)
        else parent in N && Under(g, parent, x) && Child(g, parent, x) && L.hi[parent] != 0)
  }

  lemma SensibleAt(N: set<Node>, g: Shape, L: Labels, x: Node)
    requires Sensible(N, g, L) && x in N
    ensures
      if L.hi[x] == 0 then L.lo[x] == 0
      else PathOf(g.up, x, L.lo[x]) && PathOf(g.up, x, L.hi[x]) && 1 <= L.lo[x] && 1 <= L.hi[x]
    ensures x in Tops(N, g) && L.hi[x] != 0 ==> L.lo[x] == 1 && L.hi[x] == 1
  {
    if L.hi[x] != 0 {
      PathPositive(N, g, x, L.lo[x]);
      PathPositive(N, g, x, L.hi[x]);
      if x in Tops(N, g) {
        RootPath(N, g, x, L.lo[x]);
        RootPath(N, g, x, L.hi[x]);
      }
    }
  }

  lemma SensibleUpdate(N: set<Node>, g: Shape, L: Labels, x: Node, lo: int, hi: int)
    requires Sensible(N, g, L) && x in N && Label(N, g, x, lo, hi)
    ensures Sensible(N, g, Labels(L.lo[x := lo], L.hi[x := hi]))
  {
    hide Label;
  }

  lemma Labelled(N: set<Node>, g: Shape, x: Node, lo: int, hi: int)
    requires PathOf(g.up, x, lo) && PathOf(g.up, x, hi)
    ensures Label(N, g, x, lo, hi) && 1 <= lo && 1 <= hi
  {
    PathPositive(N, g, x, lo);
    PathPositive(N, g, x, hi);
    hide PathOf;
  }

  lemma CalledMeans(N: set<Node>, g: Shape, L: Labels, open: set<Node>, parent: Node?, x: Node)
    requires Called(N, g, L, open, parent, x)
    ensures Sensible(N, g, L) && Relaxed(N, g, L, open) && x in N && L.lo.Keys == N && L.hi.Keys == N
    ensures
      if parent == null then x in Tops(N, g)
      else parent in N && parent in g.rank && Child(g, parent, x) && L.hi[parent] != 0 && parent != x
  {}

  /** What relaxing does to the labels of x. */
  lemma RelaxAt(N: set<Node>, g: Shape, L: Labels, open: set<Node>, parent: Node?, x: Node)
    requires Symmetric(N, g) && Called(N, g, L, open, parent, x)
    ensures var W := Relax(N, L, parent, x);
      && W == Labels(L.lo[x := W.lo[x]], L.hi[x := W.hi[x]])
      && Label(N, g, x, W.lo[x], W.hi[x]) && 1 <= W.hi[x] && L.hi[x] <= W.hi[x] && 0 < W.lo[x]
      && (L.hi[x] != 0 ==> W.lo[x] <= L.lo[x])
      && (parent != null ==> L.hi[parent] + 1 <= W.hi[x] && W.lo[x] <= L.lo[parent] + 1)
  {
    hide *;
    CalledMeans(N, g, L, open, parent, x);
    SensibleAt(N, g, L, x);
    if parent == null {
      RootPath(N, g, x, 1);
    } else {
      SensibleAt(N, g, L, parent);
      PathStep(N, g, parent, x, L.lo[parent]);
      PathStep(N, g, parent, x, L.hi[parent]);
    }
    RelaxMeans(N, L, parent, x);
    var W := Relax(N, L, parent, x);
    Labelled(N, g, x, W.lo[x], W.hi[x]);
  }

  lemma RelaxMeans(N: set<Node>, L: Labels, parent: Node?, x: Node)
    requires L.lo.Keys == N && L.hi.Keys == N && x in N && (parent != null ==> parent in N)
    ensures var W := Relax(N, L, parent, x);
      && W == Labels(L.lo[x := W.lo[x]], L.hi[x := W.hi[x]])
      && (parent == null ==> W.lo[x] == 1 && W.hi[x] == 1)
      && (parent != null ==>
        && W.lo[x] == (if L.lo[x] == 0 || L.lo[x] > L.lo[parent] + 1 then L.lo[parent] + 1 else L.lo[x])
        && W.hi[x] == (if L.hi[x] == 0 || L.hi[x] < L.hi[parent] + 1 then L.hi[parent] + 1 else L.hi[x]))
  {}

  /** Relaxing keeps every label a path length, and only x has to be worked on. */
  lemma RelaxKeeps(N: set<Node>, g: Shape, L: Labels, open: set<Node>, parent: Node?, x: Node)
    requires Symmetric(N, g) && Called(N, g, L, open, parent, x)
    ensures var W := Relax(N, L, parent, x);
      && Sensible(N, g, W) && Relaxed(N, g, W, open + {x}) && Improved(N, g, L, W, x)
      && W.hi[x] != 0 && (parent != null ==> Edge(N, W, parent, x))
  {
    hide *;
    CalledMeans(N, g, L, open, parent, x);
    RelaxAt(N, g, L, open, parent, x);
    var W := Relax(N, L, parent, x);
    SensibleUpdate(N, g, L, x, W.lo[x], W.hi[x]);
    ImprovedAt(N, g, L, W.lo[x], W.hi[x], x);
    RelaxedBut(N, g, L, W.lo[x], W.hi[x], open, x);
    if parent != null { EdgeTo(N, W, parent, x); }
  }

  lemma ImprovedAt(N: set<Node>, g: Shape, L: Labels, lo: int, hi: int, x: Node)
    requires L.lo.Keys == N && L.hi.Keys == N && x in N && L.hi[x] <= hi && (L.hi[x] != 0 ==> lo <= L.lo[x])
    ensures Improved(N, g, L, Labels(L.lo[x := lo], L.hi[x := hi]), x)
  {}

  lemma EdgeTo(N: set<Node>, L: Labels, y: Node, c: Node)
    requires L.lo.Keys == N && L.hi.Keys == N && y in N && c in N && L.hi[y] + 1 <= L.hi[c]
    requires 0 < L.lo[c] <= L.lo[y] + 1
    ensures Edge(N, L, y, c)
  {}

  lemma RelaxedBut(N: set<Node>, g: Shape, L: Labels, lo: int, hi: int, open: set<Node>, x: Node)
    requires Sensible(N, g, L) && L.lo.Keys == N && L.hi.Keys == N && x in N && Relaxed(N, g, L, open)
    requires L.hi[x] <= hi && 0 < lo && (L.hi[x] != 0 ==> lo <= L.lo[x])
    ensures Relaxed(N, g, Labels(L.lo[x := lo], L.hi[x := hi]), open + {x})
  {
    var W := Labels(L.lo[x := lo], L.hi[x := hi]);
    hide Label;
    forall y, c | y in N && y !in open + {x} && W.hi[y] != 0 && Child(g, y, c) && c in N ensures Edge(N, W, y, c) {
      assert Edge(N, L, y, c);
      SensibleAt(N, g, L, c);
      SensibleAt(N, g, L, y);
      hide PathOf, Tops;
    }
  }

  /** The outcome of a call on x: nothing more is left to do than before, and the
    * labels of x take the path through its container into account. */
  ghost predicate Settled(N: set<Node>, g: Shape, L: Labels, W: Labels, open: set<Node>, parent: Node?, x: Node)
    requires L.lo.Keys == N && L.hi.Keys == N && x in N && (parent != null ==> parent in N)
  {
    && Sensible(N, g, W) && Relaxed(N, g, W, open) && Improved(N, g, L, W, x)
    && W.hi[x] != 0 && (parent != null ==> Edge(N, W, parent, x))
  }

  /** Halfway through the containees of x, whose first labels were L. */
  ghost predicate Midway(N: set<Node>, g: Shape, L: Labels, V: Labels, open: set<Node>, x: Node, list: seq<Node>)
    requires L.lo.Keys == N && L.hi.Keys == N && x in N
  {
    && Sensible(N, g, V) && Relaxed(N, g, V, open + {x}) && Improved(N, g, L, V, x)
    && V.lo[x] == L.lo[x] && V.hi[x] == L.hi[x] != 0
    && forall c | c in list :: c in N && Edge(N, V, x, c)
  }

  lemma MidwayStart(N: set<Node>, g: Shape, L: Labels, open: set<Node>, x: Node)
    requires Sensible(N, g, L) && Relaxed(N, g, L, open + {x}) && x in N && L.hi[x] != 0
    ensures Midway(N, g, L, L, open, x, [])
  {
    hide Under, Label;
  }

  lemma NextCalled(N: set<Node>, g: Shape, L: Labels, V: Labels, open: set<Node>, x: Node, list: seq<Node>,
                   c: Node)
    requires Layered(N, g) && x in N && L.lo.Keys == N && L.hi.Keys == N && Midway(N, g, L, V, open, x, list)
    requires x in g.rank && OpenOver(g, open, x) && Child(g, x, c)
    ensures c in g.rank && Called(N, g, V, open + {x}, x, c) && g.rank[c] < g.rank[x]
  {
    hide Label, Improved, Relaxed;
  }

  lemma ImprovedOn(N: set<Node>, g: Shape, L: Labels, V: Labels, W: Labels, x: Node, c: Node)
    requires L.lo.Keys == N && L.hi.Keys == N && V.lo.Keys == N && V.hi.Keys == N && W.lo.Keys == N && W.hi.Keys == N
    requires Improved(N, g, L, V, x) && Improved(N, g, V, W, c) && Sensible(N, g, L) && Sensible(N, g, V)
    requires c == x || (x in N && Under(g, x, c))
    ensures Improved(N, g, L, W, x)
  {
    hide Sensible;
    forall y | y in N
      ensures y != x && !Under(g, x, y) ==> W.lo[y] == L.lo[y] && W.hi[y] == L.hi[y]
      ensures L.hi[y] <= W.hi[y] && (L.hi[y] != 0 ==> W.lo[y] <= L.lo[y])
    {
      SensibleAt(N, g, L, y);
      SensibleAt(N, g, V, y);
      hide PathOf, Tops;
    }
  }

  lemma MidwayMeans(N: set<Node>, g: Shape, L: Labels, V: Labels, open: set<Node>, x: Node, list: seq<Node>)
    requires L.lo.Keys == N && L.hi.Keys == N && x in N && Midway(N, g, L, V, open, x, list)
    ensures V.lo.Keys == N && V.hi.Keys == N && Sensible(N, g, V) && Relaxed(N, g, V, open + {x})
    ensures Improved(N, g, L, V, x)
    ensures V.lo[x] == L.lo[x] && V.hi[x] == L.hi[x] != 0 && forall c | c in list :: c in N && Edge(N, V, x, c)
  {
    hide Label, Under, Relaxed, Improved;
  }

  lemma SettledMeans(N: set<Node>, g: Shape, L: Labels, W: Labels, open: set<Node>, parent: Node?, x: Node)
    requires L.lo.Keys == N && L.hi.Keys == N && x in N && (parent != null ==> parent in N)
    requires Settled(N, g, L, W, open, parent, x)
    ensures W.lo.Keys == N && W.hi.Keys == N && Sensible(N, g, W) && Relaxed(N, g, W, open) && Improved(N, g, L, W, x)
    ensures W.hi[x] != 0 && (parent != null ==> Edge(N, W, parent, x))
  {
    hide Label, Under, Relaxed, Improved;
  }

  lemma ImprovedKeeps(N: set<Node>, g: Shape, V: Labels, W: Labels, c: Node, x: Node)
    requires V.lo.Keys == N && V.hi.Keys == N && W.lo.Keys == N && W.hi.Keys == N && Improved(N, g, V, W, c) && x in N
    requires x != c && !Under(g, c, x)
    ensures W.lo[x] == V.lo[x] && W.hi[x] == V.hi[x]
  {}

  /** The call on c keeps what was reached for x. */
  lemma MidwayStep(N: set<Node>, g: Shape, L: Labels, V: Labels, W: Labels, open: set<Node>, x: Node,
                   list: seq<Node>, c: Node)
    requires Layered(N, g) && x in N && Sensible(N, g, L) && L.lo.Keys == N && L.hi.Keys == N
    requires Midway(N, g, L, V, open, x, list)
    requires x in g.rank && c in N && Child(g, x, c) && V.lo.Keys == N && V.hi.Keys == N
    requires Settled(N, g, V, W, open + {x}, x, c)
    ensures Midway(N, g, L, W, open, x, list + [c])
  {
    hide *;
    LowerBelow(N, g, x, c);
    MidwayMeans(N, g, L, V, open, x, list);
    SettledMeans(N, g, V, W, open + {x}, x, c);
    ImprovedKeeps(N, g, V, W, c, x);
    ImprovedOn(N, g, L, V, W, x, c);
    forall d | d in list + [c] ensures d in N && Edge(N, W, x, d) {
      if d in list { EdgeKept(N, g, V, W, x, d, c); }
    }
    MidwayIf(N, g, L, W, open, x, list + [c]);
  }

  lemma MidwayIf(N: set<Node>, g: Shape, L: Labels, V: Labels, open: set<Node>, x: Node, list: seq<Node>)
    requires L.lo.Keys == N && L.hi.Keys == N && x in N && V.lo.Keys == N && V.hi.Keys == N
    requires Sensible(N, g, V) && Relaxed(N, g, V, open + {x}) && Improved(N, g, L, V, x)
    requires V.lo[x] == L.lo[x] && V.hi[x] == L.hi[x] != 0 && forall c | c in list :: c in N && Edge(N, V, x, c)
    ensures Midway(N, g, L, V, open, x, list)
  {
    hide Label, Under, Relaxed, Improved;
  }

  lemma LowerBelow(N: set<Node>, g: Shape, x: Node, c: Node)
    requires Layered(N, g) && x in g.rank && Child(g, x, c)
    ensures c in N && Under(g, x, c) && x != c && !Under(g, c, x)
  {}

  lemma EdgeKept(N: set<Node>, g: Shape, V: Labels, W: Labels, x: Node, d: Node, c: Node)
    requires Sensible(N, g, V) && Sensible(N, g, W) && x in N && d in N && Edge(N, V, x, d)
    requires Improved(N, g, V, W, c) && x != c && !Under(g, c, x)
    ensures Edge(N, W, x, d)
  {
    SensibleAt(N, g, V, d);
    SensibleAt(N, g, W, d);
    SensibleAt(N, g, V, x);
    hide Label, Sensible;
  }

  lemma MidwayDone(N: set<Node>, g: Shape, L0: Labels, L: Labels, V: Labels, open: set<Node>,
                   parent: Node?, x: Node, list: seq<Node>)
    requires Layered(N, g) && Called(N, g, L0, open, parent, x) && L0.lo.Keys == N && L0.hi.Keys == N
    requires (parent != null ==> parent in N) && x in N
    requires L == Relax(N, L0, parent, x) && L.lo.Keys == N && L.hi.Keys == N
    requires Midway(N, g, L, V, open, x, list) && x in g.down && Lists(list, g.down[x])
    ensures Settled(N, g, L0, V, open, parent, x)
  {
    hide *;
    CalledMeans(N, g, L0, open, parent, x);
    LayeredMeans(N, g);
    RelaxKeeps(N, g, L0, open, parent, x);
    MidwayMeans(N, g, L, V, open, x, list);
    ImprovedOn(N, g, L0, L, V, x, x);
    if parent != null {
      LowerBelow(N, g, parent, x);
      ImprovedKeeps(N, g, L, V, x, parent);
      EdgeSame(N, L, V, parent, x);
    }
    AllRelaxed(N, g, V, open, x, list);
    SettledIf(N, g, L0, V, open, parent, x);
  }

  lemma EdgeSame(N: set<Node>, L: Labels, V: Labels, y: Node, x: Node)
    requires L.lo.Keys == N && L.hi.Keys == N && V.lo.Keys == N && V.hi.Keys == N && y in N && x in N
    requires Edge(N, L, y, x) && V.lo[y] == L.lo[y] && V.hi[y] == L.hi[y] && V.lo[x] == L.lo[x] && V.hi[x] == L.hi[x]
    ensures Edge(N, V, y, x)
  {}

  lemma AllRelaxed(N: set<Node>, g: Shape, V: Labels, open: set<Node>, x: Node, list: seq<Node>)
    requires V.lo.Keys == N && V.hi.Keys == N && x in N && Relaxed(N, g, V, open + {x})
    requires x in g.down && Lists(list, g.down[x]) && forall c | c in list :: c in N && Edge(N, V, x, c)
    ensures Relaxed(N, g, V, open)
  {
    hide Edge;
    forall y, c | y in N && y !in open && V.hi[y] != 0 && Child(g, y, c) && c in N ensures Edge(N, V, y, c) {
      if y == x { assert c in list; }
    }
  }

  lemma SettledIf(N: set<Node>, g: Shape, L: Labels, W: Labels, open: set<Node>, parent: Node?, x: Node)
    requires L.lo.Keys == N && L.hi.Keys == N && x in N && (parent != null ==> parent in N)
    requires W.lo.Keys == N && W.hi.Keys == N && Sensible(N, g, W) && Relaxed(N, g, W, open) && Improved(N, g, L, W, x)
    requires W.hi[x] != 0 && (parent != null ==> Edge(N, W, parent, x))
    ensures Settled(N, g, L, W, open, parent, x)
  {
    hide Label, Under, Relaxed, Improved;
  }

  lemma NothingToDo(N: set<Node>, g: Shape, L: Labels, open: set<Node>, parent: Node?, x: Node)
    requires Symmetric(N, g) && Called(N, g, L, open, parent, x) && Relax(N, L, parent, x) == L
    ensures L.lo.Keys == N && L.hi.Keys == N && (parent != null ==> parent in N)
    ensures Settled(N, g, L, L, open, parent, x)
  {
    CalledMeans(N, g, L, open, parent, x);
    RelaxKeeps(N, g, L, open, parent, x);
    hide Label, Under, Child, Relax, Called;
  }

  // ---------------------------------------------------------------------------
  // What the walk does, with a bound on the depth of recursion
  // ---------------------------------------------------------------------------

  datatype Labelling = Endless | Done(labels: Labels)

  ghost function KidsOf(N: set<Node>): map<Node, seq<Node>>
    reads N`containees
  {
    map x | x in N :: x.containees
  }

  /** Node::prepare_stats: x is relaxed, and if that changed it, or it is a root,
    * all its containees are walked down to. */
  ghost function PrepareBy(kids: map<Node, seq<Node>>, L: Labels, parent: Node?, x: Node, bound: nat): Labelling
    decreases bound, 0
  {
    if bound == 0 || !Fitting(kids, L, parent, x) then Endless
    else
      var W := Relax(kids.Keys, L, parent, x);
      if !Updates(L, parent, x) then Done(L) else PrepareEach(kids, W, x, kids[x], bound - 1)
  }

  ghost function PrepareEach(kids: map<Node, seq<Node>>, L: Labels, x: Node, list: seq<Node>, bound: nat): Labelling
    decreases bound, |list|
  {
    if list == [] then Done(L)
    else
      match PrepareEach(kids, L, x, list[..|list| - 1], bound)
      case Endless => Endless
      case Done(M) => PrepareBy(kids, M, x, list[|list| - 1], bound)
  }

  predicate Fitting(kids: map<Node, seq<Node>>, L: Labels, parent: Node?, x: Node) {
    L.lo.Keys == kids.Keys && L.hi.Keys == kids.Keys && x in kids && (parent != null ==> parent in kids)
  }

  lemma PrepareUnfold(kids: map<Node, seq<Node>>, L: Labels, parent: Node?, x: Node, bound: nat)
    ensures bound == 0 || !Fitting(kids, L, parent, x) ==> PrepareBy(kids, L, parent, x, bound) == Endless
    ensures bound > 0 && Fitting(kids, L, parent, x) ==>
      L.lo.Keys == kids.Keys && L.hi.Keys == kids.Keys && x in kids && (parent != null ==> parent in kids) &&
      var W := Relax(kids.Keys, L, parent, x);
      && Fitting(kids, W, null, x) && (forall z | z in kids && z != x :: W.hi[z] == L.hi[z])
      && PrepareBy(kids, L, parent, x, bound) ==
           if Updates(L, parent, x) then PrepareEach(kids, W, x, kids[x], bound - 1) else Done(L)
  {
    hide PrepareEach, Updates;
  }

  lemma EachUnfold(kids: map<Node, seq<Node>>, L: Labels, x: Node, list: seq<Node>, bound: nat)
    ensures PrepareEach(kids, L, x, list, bound) ==
      if list == [] then Done(L)
      else
        match PrepareEach(kids, L, x, list[..|list| - 1], bound)
        case Endless => Endless
        case Done(M) => PrepareBy(kids, M, x, list[|list| - 1], bound)
  {
    hide PrepareBy;
  }

  lemma FittingMeans(kids: map<Node, seq<Node>>, L: Labels, parent: Node?, x: Node)
    ensures Fitting(kids, L, parent, x) <==>
      L.lo.Keys == kids.Keys && L.hi.Keys == kids.Keys && x in kids && (parent != null ==> parent in kids)
  {}

  lemma {:induction false} PrepareHigher(kids: map<Node, seq<Node>>, L: Labels, parent: Node?, x: Node, a: nat, b: nat)
    requires a <= b && PrepareBy(kids, L, parent, x, a).Done?
    ensures PrepareBy(kids, L, parent, x, b) == PrepareBy(kids, L, parent, x, a)
    decreases a, 0
  {
    hide Relax, Updates;
    var W := Relax(kids.Keys, L, parent, x);
    if Updates(L, parent, x) { PrepareEachHigher(kids, W, x, kids[x], a - 1, b - 1); }
  }

  lemma {:induction false} PrepareEachHigher(kids: map<Node, seq<Node>>, L: Labels, x: Node, list: seq<Node>, a: nat,
                                             b: nat)
    requires a <= b && PrepareEach(kids, L, x, list, a).Done?
    ensures PrepareEach(kids, L, x, list, b) == PrepareEach(kids, L, x, list, a)
    decreases a, |list|
  {
    hide PrepareBy;
    if list != [] {
      PrepareEachHigher(kids, L, x, list[..|list| - 1], a, b);
      PrepareHigher(kids, PrepareEach(kids, L, x, list[..|list| - 1], a).labels, x, list[|list| - 1], a, b);
    }
  }

  lemma PrepareEachNext(kids: map<Node, seq<Node>>, L: Labels, M: Labels, W: Labels, x: Node, list: seq<Node>, i: nat,
                        a: nat, b: nat)
    requires i < |list| && PrepareEach(kids, L, x, list[..i], b) == Done(M)
    requires PrepareBy(kids, M, x, list[i], a) == Done(W) && a <= b
    ensures PrepareEach(kids, L, x, list[..i + 1], b) == Done(W)
  {
    assert list[..i + 1][..i] == list[..i];
    PrepareHigher(kids, M, x, list[i], a, b);
    hide PrepareBy;
  }

  lemma PrepareNone(kids: map<Node, seq<Node>>, L: Labels, x: Node, list: seq<Node>, b: nat)
    ensures PrepareEach(kids, L, x, list[..0], b) == Done(L)
  {}

  lemma PrepareIf(kids: map<Node, seq<Node>>, L: Labels, W: Labels, V: Labels, updated: bool, parent: Node?, x: Node,
                  b: nat)
    requires Fitting(kids, L, parent, x) && L.lo.Keys == kids.Keys && L.hi.Keys == kids.Keys && x in kids
    requires (parent != null ==> parent in kids) && W == Relax(kids.Keys, L, parent, x)
    requires updated <==> Updates(L, parent, x)
    requires if updated then PrepareEach(kids, W, x, kids[x], b) == Done(V) else V == L
    ensures PrepareBy(kids, L, parent, x, b + 1) == Done(V)
  {
    hide Relax, PrepareEach, Updates;
  }

  /** The containee lists of all nodes. */
  ghost predicate Listed(N: set<Node>, g: Shape, kids: map<Node, seq<Node>>) {
    kids.Keys == N && forall x | x in N :: x in g.down && Lists(kids[x], g.down[x])
  }

  lemma ListedKids(N: set<Node>, g: Shape, kids: map<Node, seq<Node>>, x: Node)
    requires Layered(N, g) && Listed(N, g, kids)
    ensures kids.Keys == N && g.rank.Keys <= N
    ensures x in kids ==> forall c | c in kids[x] :: c in kids
    ensures x in g.rank ==> x in kids && forall c | c in kids[x] :: c in g.rank && g.rank[c] < g.rank[x]
  {
    if x in kids {
      forall c | c in kids[x] ensures c in g.down[x] {}
    }
  }

  /** What can be ranked is walked down from in finitely many steps, whatever the labels. */
  lemma {:induction false} PrepareEnds(N: set<Node>, g: Shape, kids: map<Node, seq<Node>>, L: Labels, parent: Node?,
                                       x: Node, bound: nat)
    requires Layered(N, g) && Listed(N, g, kids) && Fitting(kids, L, parent, x) && x in g.rank && g.rank[x] < bound
    ensures PrepareBy(kids, L, parent, x, bound).Done?
    ensures Fitting(kids, PrepareBy(kids, L, parent, x, bound).labels, parent, x)
    decreases bound, 0
  {
    hide *;
    PrepareUnfold(kids, L, parent, x, bound);
    FittingMeans(kids, L, parent, x);
    ListedKids(N, g, kids, x);
    var W := Relax(kids.Keys, L, parent, x);
    PrepareEachEnds(N, g, kids, W, x, kids[x], bound - 1);
    var M := PrepareBy(kids, L, parent, x, bound).labels;
    FittingMeans(kids, M, null, x);
    FittingMeans(kids, M, parent, x);
  }

  lemma {:induction false} PrepareEachEnds(N: set<Node>, g: Shape, kids: map<Node, seq<Node>>, L: Labels, x: Node,
                                           list: seq<Node>, bound: nat)
    requires Layered(N, g) && Listed(N, g, kids) && Fitting(kids, L, null, x)
    requires forall c | c in list :: c in g.rank && g.rank[c] < bound
    ensures PrepareEach(kids, L, x, list, bound).Done?
    ensures Fitting(kids, PrepareEach(kids, L, x, list, bound).labels, null, x)
    decreases bound, |list|
  {
    hide *;
    EachUnfold(kids, L, x, list, bound);
    if list != [] {
      var k := |list| - 1;
      PrepareEachEnds(N, g, kids, L, x, list[..k], bound);
      var M, c := PrepareEach(kids, L, x, list[..k], bound).labels, list[k];
      assert c in list;
      ListedKids(N, g, kids, c);
      FittingMeans(kids, M, null, x);
      FittingMeans(kids, M, x, c);
      PrepareEnds(N, g, kids, M, x, c, bound);
      var V := PrepareBy(kids, M, x, c, bound).labels;
      FittingMeans(kids, V, x, c);
      FittingMeans(kids, V, null, x);
    }
  }

  /** What can be ranked leads to what can be ranked only: the other labels stay. */
  lemma {:induction false} PrepareFrame(N: set<Node>, g: Shape, kids: map<Node, seq<Node>>, L: Labels, parent: Node?,
                                        x: Node, bound: nat, z: Node)
    requires Layered(N, g) && Listed(N, g, kids) && x in g.rank && z in N && z !in g.rank
    requires PrepareBy(kids, L, parent, x, bound).Done?
    ensures var M := PrepareBy(kids, L, parent, x, bound).labels;
      L.hi.Keys == N && M.hi.Keys == N && M.hi[z] == L.hi[z]
    decreases bound, 0
  {
    hide *;
    PrepareUnfold(kids, L, parent, x, bound);
    ListedKids(N, g, kids, x);
    var W := Relax(kids.Keys, L, parent, x);
    if Updates(L, parent, x) {
      FittingMeans(kids, W, null, x);
      PrepareEachFrame(N, g, kids, W, x, kids[x], bound - 1, z);
    }
  }

  lemma {:induction false} PrepareEachFrame(N: set<Node>, g: Shape, kids: map<Node, seq<Node>>, L: Labels, x: Node,
                                            list: seq<Node>, bound: nat, z: Node)
    requires Layered(N, g) && Listed(N, g, kids) && z in N && z !in g.rank && L.hi.Keys == N
    requires (forall c | c in list :: c in g.rank) && PrepareEach(kids, L, x, list, bound).Done?
    ensures var M := PrepareEach(kids, L, x, list, bound).labels;
      M.hi.Keys == N && M.hi[z] == L.hi[z]
    decreases bound, |list|
  {
    hide *;
    EachUnfold(kids, L, x, list, bound);
    if list != [] {
      var k := |list| - 1;
      PrepareEachFrame(N, g, kids, L, x, list[..k], bound, z);
      assert list[k] in list;
      PrepareFrame(N, g, kids, PrepareEach(kids, L, x, list[..k], bound).labels, x, list[k], bound, z);
    }
  }

  /** No label of a node that cannot be ranked is higher than h. */
  ghost predicate UpTo(N: set<Node>, g: Shape, L: Labels, h: int) {
    forall z | z in N && z !in g.rank && z in L.hi :: L.hi[z] <= h
  }

  /** A label that is not too high is raised, and then none is higher. */
  lemma RelaxRaises(N: set<Node>, g: Shape, L: Labels, parent: Node?, x: Node)
    requires L.lo.Keys == N && L.hi.Keys == N && x in N && (parent != null ==> parent in N) && x !in g.rank
    requires UpTo(N, g, L, if parent == null then 1 else L.hi[parent])
    ensures var W := Relax(N, L, parent, x);
      W.hi.Keys == N && UpTo(N, g, W, W.hi[x]) && Updates(L, parent, x)
  {
    var W := Relax(N, L, parent, x);
    if parent != null { assert L.hi[x] <= L.hi[parent]; }
  }

  /** Where there is no way out of going round, the walk goes ever deeper: every
    * call finds a label that is too low. */
  lemma {:induction false} PrepareEndless(N: set<Node>, g: Shape, kids: map<Node, seq<Node>>, L: Labels, parent: Node?,
                                          x: Node, bound: nat)
    requires Layered(N, g) && Listed(N, g, kids) && Cycling(g.down, N - g.rank.Keys) && x in N && x !in g.rank
    requires L.hi.Keys == N && (parent != null ==> parent in N)
    requires UpTo(N, g, L, if parent == null then 1 else L.hi[parent])
    ensures PrepareBy(kids, L, parent, x, bound) == Endless
    decreases bound, 0
  {
    hide *;
    PrepareUnfold(kids, L, parent, x, bound);
    if bound > 0 && Fitting(kids, L, parent, x) {
      ListedKids(N, g, kids, x);
      RelaxRaises(N, g, L, parent, x);
      var W := Relax(kids.Keys, L, parent, x);
      var c := UnrankedKid(N, g, kids, x);
      PrepareEachEndless(N, g, kids, W, x, kids[x], bound - 1, c);
    }
  }

  lemma UnrankedKid(N: set<Node>, g: Shape, kids: map<Node, seq<Node>>, x: Node) returns (c: Node)
    requires Layered(N, g) && Listed(N, g, kids) && Cycling(g.down, N - g.rank.Keys) && x in N && x !in g.rank
    ensures c in kids[x] && c !in g.rank
  {
    c :| c in g.down[x] * (N - g.rank.Keys);
  }

  lemma {:induction false} PrepareEachEndless(N: set<Node>, g: Shape, kids: map<Node, seq<Node>>, L: Labels, x: Node,
                                              list: seq<Node>, bound: nat, c: Node)
    requires Layered(N, g) && Listed(N, g, kids) && Cycling(g.down, N - g.rank.Keys) && x in N && x !in g.rank
    requires L.hi.Keys == N && UpTo(N, g, L, L.hi[x]) && c in list && c !in g.rank && forall d | d in list :: d in N
    ensures PrepareEach(kids, L, x, list, bound) == Endless
    decreases bound, |list|
  {
    hide *;
    EachUnfold(kids, L, x, list, bound);
    var k := |list| - 1;
    if d :| d in list[..k] && d !in g.rank {
      PrepareEachEndless(N, g, kids, L, x, list[..k], bound, d);
    } else if PrepareEach(kids, L, x, list[..k], bound).Done? {
      assert list == list[..k] + [list[k]];
      var M := PrepareEach(kids, L, x, list[..k], bound).labels;
      PrepareEachKeeps(N, g, kids, L, x, list[..k], bound);
      PrepareEndless(N, g, kids, M, x, c, bound);
    }
  }

  lemma PrepareEachKeeps(N: set<Node>, g: Shape, kids: map<Node, seq<Node>>, L: Labels, x: Node, list: seq<Node>,
                         bound: nat)
    requires Layered(N, g) && Listed(N, g, kids) && x in N && x !in g.rank && L.hi.Keys == N && UpTo(N, g, L, L.hi[x])
    requires (forall c | c in list :: c in g.rank) && PrepareEach(kids, L, x, list, bound).Done?
    ensures var M := PrepareEach(kids, L, x, list, bound).labels; M.hi.Keys == N && UpTo(N, g, M, M.hi[x])
  {
    hide PrepareEach, Layered, Listed;
    var M := PrepareEach(kids, L, x, list, bound).labels;
    PrepareEachFrame(N, g, kids, L, x, list, bound, x);
    forall z | z in N && z !in g.rank ensures M.hi[z] == L.hi[z] { PrepareEachFrame(N, g, kids, L, x, list, bound, z); }
  }

  /** For any symmetric edges: once the labels are cleared, the walk from a root ends
    * if and only if there is no going round from it. */
  lemma PrepareExact(N: set<Node>, g: Shape, kids: map<Node, seq<Node>>, L: Labels, x: Node)
    requires Symmetric(N, g) && Listed(N, g, kids) && x in N
    requires L.lo.Keys == N && L.hi.Keys == N && forall z | z in N :: L.hi[z] == 0
    ensures (exists bound: nat :: PrepareBy(kids, L, null, x, bound).Done?) <==>
      !exists Z :: Cycling(g.down, Z) && x in Z
  {
    hide *;
    var full := RankAll(N, g);
    var w := Shape(g.down, g.up, full);
    SameListed(N, g, w, kids);
    if x in full {
      PrepareRanked(N, w, kids, L, x);
    } else {
      PrepareUnranked(N, w, kids, L, x);
      OutOfRank(g.down, N, full, x);
    }
  }

  lemma OutOfRank(down: map<Node, set<Node>>, N: set<Node>, rank: map<Node, nat>, x: Node)
    requires Cycling(down, N - rank.Keys) && x in N && x !in rank
    ensures exists Z :: Cycling(down, Z) && x in Z
  {
    hide Cycling;
    assert x in N - rank.Keys;
  }

  lemma PrepareRanked(N: set<Node>, g: Shape, kids: map<Node, seq<Node>>, L: Labels, x: Node)
    requires Layered(N, g) && Listed(N, g, kids) && L.lo.Keys == N && L.hi.Keys == N && x in g.rank
    ensures exists bound: nat :: PrepareBy(kids, L, null, x, bound).Done?
    ensures forall Z | Cycling(g.down, Z) :: x !in Z
  {
    hide *;
    LayeredMeans(N, g);
    ListedKids(N, g, kids, x);
    FittingMeans(kids, L, null, x);
    PrepareEnds(N, g, kids, L, null, x, g.rank[x] + 1);
    forall Z | Cycling(g.down, Z) ensures x !in Z { RankedOut(g.down, g.rank, Z, x); }
  }

  lemma PrepareUnranked(N: set<Node>, g: Shape, kids: map<Node, seq<Node>>, L: Labels, x: Node)
    requires Layered(N, g) && Listed(N, g, kids) && Cycling(g.down, N - g.rank.Keys) && x in N && x !in g.rank
    requires L.hi.Keys == N && forall z | z in N :: L.hi[z] == 0
    ensures forall bound: nat :: !PrepareBy(kids, L, null, x, bound).Done?
  {
    hide *;
    NoneUp(N, g, L);
    forall bound: nat ensures !PrepareBy(kids, L, null, x, bound).Done? {
      PrepareEndless(N, g, kids, L, null, x, bound);
    }
  }

  lemma NoneUp(N: set<Node>, g: Shape, L: Labels)
    requires L.hi.Keys == N && forall z | z in N :: L.hi[z] == 0
    ensures UpTo(N, g, L, 1)
  {}

  /** All that can be ranked is; the rest is a set with no way out of going round. */
  lemma RankAll(N: set<Node>, g: Shape) returns (full: map<Node, nat>)
    requires Symmetric(N, g)
    ensures Layered(N, Shape(g.down, g.up, full)) && Cycling(g.down, N - full.Keys)
  {
    full := RankFrom(g.down, map[], 0);
  }

  lemma SameListed(N: set<Node>, g: Shape, w: Shape, kids: map<Node, seq<Node>>)
    requires Symmetric(N, g) && Listed(N, g, kids) && w.down == g.down
    ensures Listed(N, w, kids) && kids.Keys == N && w.down.Keys == N
  {}

  // ---------------------------------------------------------------------------
  // The walk
  // ---------------------------------------------------------------------------

  /** The first half of Node::prepare_stats. */
  method RelaxNode(x: Node, parent: Node?, ghost N: set<Node>) returns (updated: bool)
    requires x in N && (parent != null ==> parent in N && parent != x)
    modifies x`depthMin, x`depthMax
    ensures LabelsOf(N).lo.Keys == N && LabelsOf(N).hi.Keys == N
    ensures LabelsOf(N) == Relax(N, old(LabelsOf(N)), parent, x)
    ensures old(LabelsOf(N)).lo.Keys == N && old(LabelsOf(N)).hi.Keys == N
    ensures updated <==> Updates(old(LabelsOf(N)), parent, x)
  {
    hide *;
    ghost var L := LabelsOf(N);
    LabelsMean(N);
    updated := false;
    if parent == null {
      x.depthMin, x.depthMax := 1, 1;
      updated := true;
    } else {
      if x.depthMax == 0 || x.depthMax < parent.depthMax + 1 {
        x.depthMax := parent.depthMax + 1;
        updated := true;
      }
      if x.depthMin == 0 || x.depthMin > parent.depthMin + 1 {
        x.depthMin := parent.depthMin + 1;
        updated := true;
      }
    }
    ghost var W := Relax(N, L, parent, x);
    RelaxMeans(N, L, parent, x);
    UpdatesMeans(L, parent, x);
    LabelsAre(N, L, W, x);
  }

  lemma UpdatesMeans(L: Labels, parent: Node?, x: Node)
    requires x in L.lo && x in L.hi && (parent != null ==> parent in L.lo && parent in L.hi)
    ensures Updates(L, parent, x) <==>
      parent == null || L.hi[x] == 0 || L.hi[x] < L.hi[parent] + 1 || L.lo[x] == 0 || L.lo[x] > L.lo[parent] + 1
  {}

  lemma NoUpdate(N: set<Node>, L: Labels, parent: Node?, x: Node)
    requires L.lo.Keys == N && L.hi.Keys == N && x in N && (parent != null ==> parent in N) && !Updates(L, parent, x)
    ensures Relax(N, L, parent, x) == L
  {
    assert L.lo[x := L.lo[x]] == L.lo && L.hi[x := L.hi[x]] == L.hi;
  }

  /** The walk from x, whose labels were L, has been down to the first i of its containees. */
  ghost predicate Walked(N: set<Node>, g: Shape, kids: map<Node, seq<Node>>, L: Labels, V: Labels, open: set<Node>,
                         x: Node, list: seq<Node>, i: nat)
    requires i <= |list|
  {
    && L.lo.Keys == N && L.hi.Keys == N && V.lo.Keys == N && V.hi.Keys == N && x in N && x in g.rank
    && Sensible(N, g, L) && OpenOver(g, open, x)
    && Midway(N, g, L, V, open, x, list[..i]) && PrepareEach(kids, L, x, list[..i], g.rank[x]) == Done(V)
  }

  lemma WalkedMeans(N: set<Node>, g: Shape, kids: map<Node, seq<Node>>, L: Labels, V: Labels, open: set<Node>,
                    x: Node, list: seq<Node>, i: nat)
    requires i <= |list|
    ensures Walked(N, g, kids, L, V, open, x, list, i) <==>
      && L.lo.Keys == N && L.hi.Keys == N && V.lo.Keys == N && V.hi.Keys == N && x in N && x in g.rank
      && Sensible(N, g, L) && OpenOver(g, open, x)
      && Midway(N, g, L, V, open, x, list[..i]) && PrepareEach(kids, L, x, list[..i], g.rank[x]) == Done(V)
  {
    hide Sensible, OpenOver, Midway, PrepareEach;
  }

  lemma WalkStart(N: set<Node>, g: Shape, kids: map<Node, seq<Node>>, L: Labels, open: set<Node>, x: Node,
                  list: seq<Node>)
    requires x in N && x in g.rank && OpenOver(g, open, x) && Sensible(N, g, L) && L.lo.Keys == N && L.hi.Keys == N
    requires Relaxed(N, g, L, open + {x}) && L.hi[x] != 0
    ensures Walked(N, g, kids, L, L, open, x, list, 0)
  {
    hide *;
    WalkedMeans(N, g, kids, L, L, open, x, list, 0);
    MidwayStart(N, g, L, open, x);
    PrepareNone(kids, L, x, list, g.rank[x]);
    assert list[..0] == [];
  }

  /** The next containee can be walked down from. */
  lemma WalkCalls(N: set<Node>, g: Shape, kids: map<Node, seq<Node>>, L: Labels, V: Labels, open: set<Node>, x: Node,
                  list: seq<Node>, i: nat)
    requires Layered(N, g) && i < |list| && Walked(N, g, kids, L, V, open, x, list, i) && Child(g, x, list[i])
    ensures Called(N, g, V, open + {x}, x, list[i])
    ensures x in g.rank && list[i] in g.rank && g.rank[list[i]] < g.rank[x]
  {
    hide *;
    WalkedMeans(N, g, kids, L, V, open, x, list, i);
    NextCalled(N, g, L, V, open, x, list[..i], list[i]);
  }

  /** After that one more is done. */
  lemma WalkNext(N: set<Node>, g: Shape, kids: map<Node, seq<Node>>, L: Labels, V: Labels, W: Labels, open: set<Node>,
                 x: Node, list: seq<Node>, i: nat)
    requires Layered(N, g) && i < |list| && Walked(N, g, kids, L, V, open, x, list, i) && x in N
    requires list[i] in N && Child(g, x, list[i]) && x in g.rank && list[i] in g.rank && g.rank[list[i]] < g.rank[x]
    requires V.lo.Keys == N && V.hi.Keys == N && Settled(N, g, V, W, open + {x}, x, list[i])
    requires PrepareBy(kids, V, x, list[i], g.rank[list[i]] + 1) == Done(W)
    ensures Walked(N, g, kids, L, W, open, x, list, i + 1)
  {
    hide *;
    WalkedMeans(N, g, kids, L, V, open, x, list, i);
    MidwayStep(N, g, L, V, W, open, x, list[..i], list[i]);
    PrepareEachNext(kids, L, V, W, x, list, i, g.rank[list[i]] + 1, g.rank[x]);
    assert list[..i + 1] == list[..i] + [list[i]];
    SettledMeans(N, g, V, W, open + {x}, x, list[i]);
    WalkedMeans(N, g, kids, L, W, open, x, list, i + 1);
  }

  lemma WalkDone(N: set<Node>, g: Shape, kids: map<Node, seq<Node>>, L0: Labels, L: Labels, V: Labels, open: set<Node>,
                 parent: Node?, x: Node, list: seq<Node>)
    requires Layered(N, g) && g.rank.Keys <= N && Called(N, g, L0, open, parent, x)
    requires L0.lo.Keys == N && L0.hi.Keys == N && x in N && (parent != null ==> parent in N)
    requires L == Relax(N, L0, parent, x) && Walked(N, g, kids, L, V, open, x, list, |list|)
    requires x in g.down && Lists(list, g.down[x])
    ensures Settled(N, g, L0, V, open, parent, x)
    ensures x in g.rank && PrepareEach(kids, L, x, list, g.rank[x]) == Done(V)
  {
    hide *;
    WalkedMeans(N, g, kids, L, V, open, x, list, |list|);
    assert list[..|list|] == list;
    MidwayDone(N, g, L0, L, V, open, parent, x, list);
  }

  /** Node::prepare_stats, for any symmetric edges, as far as x can be ranked. */
  method PrepareStats(x: Node, parent: Node?, ghost open: set<Node>, ghost N: set<Node>, ghost g: Shape)
    requires Layered(N, g) && DownLists(N, g.down) && Called(N, g, LabelsOf(N), open, parent, x)
    modifies N`depthMin, N`depthMax
    decreases g.rank[x], 1
    ensures Settled(N, g, old(LabelsOf(N)), LabelsOf(N), open, parent, x)
    ensures PrepareBy(KidsOf(N), old(LabelsOf(N)), parent, x, g.rank[x] + 1) == Done(LabelsOf(N))
  {
    hide *;
    ghost var L := LabelsOf(N);
    CalledMeans(N, g, L, open, parent, x);
    CalledOpen(N, g, L, open, parent, x);
    LayeredMeans(N, g);
    var updated := RelaxNode(x, parent, N);
    ghost var W, kids := LabelsOf(N), KidsOf(N);
    KidsMean(N, L, parent, x);
    if updated {
      RelaxKeeps(N, g, L, open, parent, x);
      ListedLower(N, g, x);
      var list := x.containees;
      WalkStart(N, g, kids, W, open, x, list);
      PrepareChildren(x, list, open, W, kids, N, g);
      WalkDone(N, g, kids, L, W, LabelsOf(N), open, parent, x, list);
    } else {
      NoUpdate(N, L, parent, x);
      NothingToDo(N, g, L, open, parent, x);
    }
    PrepareIf(kids, L, W, LabelsOf(N), updated, parent, x, g.rank[x]);
  }

  /** The loop over the containees. */
  method PrepareChildren(x: Node, list: seq<Node>, ghost open: set<Node>, ghost W: Labels,
                         ghost kids: map<Node, seq<Node>>, ghost N: set<Node>, ghost g: Shape)
    requires Layered(N, g) && DownLists(N, g.down) && x in N && x in g.rank && kids == KidsOf(N)
    requires forall i | 0 <= i < |list| :: list[i] in N && Child(g, x, list[i])
    requires Walked(N, g, kids, W, LabelsOf(N), open, x, list, 0)
    modifies N`depthMin, N`depthMax
    decreases g.rank[x], 0
    ensures Walked(N, g, kids, W, LabelsOf(N), open, x, list, |list|)
  {
    hide *;
    var i := 0;
    LabelsMean(N);
    while i < |list|
      invariant i <= |list| && Walked(N, g, kids, W, LabelsOf(N), open, x, list, i)
    {
      ghost var V := LabelsOf(N);
      LabelsMean(N);
      WalkCalls(N, g, kids, W, V, open, x, list, i);
      PrepareStats(list[i], x, open + {x}, N, g);
      LabelsMean(N);
      WalkNext(N, g, kids, W, V, LabelsOf(N), open, x, list, i);
      i := i + 1;
    }
  }

  lemma KidsMean(N: set<Node>, L: Labels, parent: Node?, x: Node)
    requires L.lo.Keys == N && L.hi.Keys == N && x in N && (parent != null ==> parent in N)
    ensures KidsOf(N).Keys == N && KidsOf(N)[x] == x.containees && Fitting(KidsOf(N), L, parent, x)
  {}

  lemma CalledOpen(N: set<Node>, g: Shape, L: Labels, open: set<Node>, parent: Node?, x: Node)
    requires Called(N, g, L, open, parent, x)
    ensures x in g.rank && OpenOver(g, open, x)
  {}

  lemma LabelsMean(N: set<Node>)
    ensures LabelsOf(N).lo.Keys == N && LabelsOf(N).hi.Keys == N
    ensures forall y | y in N :: LabelsOf(N).lo[y] == y.depthMin && LabelsOf(N).hi[y] == y.depthMax
  {}

  lemma LabelsAre(N: set<Node>, L: Labels, W: Labels, x: Node)
    requires L.lo.Keys == N && L.hi.Keys == N && x in N
    requires W.lo == L.lo[x := x.depthMin] && W.hi == L.hi[x := x.depthMax]
    requires forall y | y in N && y != x :: L.lo[y] == y.depthMin && L.hi[y] == y.depthMax
    ensures LabelsOf(N) == W
  {
    assert LabelsOf(N).lo == W.lo && LabelsOf(N).hi == W.hi;
  }

  lemma ListedLower(N: set<Node>, g: Shape, x: Node)
    requires Symmetric(N, g) && DownLists(N, g.down) && x in N
    ensures x in g.down && Lists(x.containees, g.down[x])
    ensures forall i | 0 <= i < |x.containees| :: x.containees[i] in N && Child(g, x, x.containees[i])
  {
    forall i | 0 <= i < |x.containees|
      ensures x.containees[i] in g.down[x]
    {
      assert x.containees[i] in x.containees;
    }
  }

  // ---------------------------------------------------------------------------
  // Clearing the labels
  // ---------------------------------------------------------------------------

  ghost function Unlabelled(N: set<Node>): set<Node>
    reads N`depthMin, N`depthMax
  {
    set x | x in N && x.depthMin == 0 && x.depthMax == 0
  }

  /** The nodes V visited so far have no labels, and but for those still being
    * worked on their containees are visited too. */
  ghost predicate Cleared(N: set<Node>, g: Shape, V: set<Node>, Z: set<Node>, open: set<Node>) {
    V <= Z && forall x | x in V && x !in open && x in g.down :: g.down[x] <= V
  }

  /** Node::reset_stats */
  method ResetStats(x: Node, id: int, ghost open: set<Node>, ghost N: set<Node>, ghost g: Shape)
    requires Symmetric(N, g) && DownLists(N, g.down) && x in N && LastUpTo(N, id)
    requires Cleared(N, g, Stamped(N, id), Unlabelled(N), open)
    modifies N`last, N`depthMin, N`depthMax
    decreases N - Stamped(N, id)
    ensures Cleared(N, g, Stamped(N, id), Unlabelled(N), open) && LastUpTo(N, id)
    ensures old(Stamped(N, id)) + {x} <= Stamped(N, id)
  {
    hide *;
    StampMeans(N, id, x);
    if x.last == id { return; }
    ghost var V0, Z := Stamped(N, id), Unlabelled(N);
    LastMeans(N, id);
    VisitedMore(N, g, V0, Z, open, x);
    x.last := id;
    x.depthMin, x.depthMax := 0, 0;
    StampedNow(N, id, x, V0, Z);
    ListedLower(N, g, x);
    var list, i := x.containees, 0;
    while i < |list|
      invariant i <= |list| && LastUpTo(N, id)
      invariant Cleared(N, g, Stamped(N, id), Unlabelled(N), open + {x})
      invariant V0 + {x} + (set c | c in list[..i]) <= Stamped(N, id)
    {
      ResetStats(list[i], id, open + {x}, N, g);
      assert list[..i + 1] == list[..i] + [list[i]];
      i := i + 1;
    }
    assert list[..i] == list;
    VisitedAll(N, g, Stamped(N, id), Unlabelled(N), open, x, list);
  }

  lemma StampMeans(N: set<Node>, id: int, x: Node)
    requires x in N
    ensures x in Stamped(N, id) <==> x.last == id
    ensures Stamped(N, id) <= N
  {}

  lemma LastMeans(N: set<Node>, id: int)
    ensures LastUpTo(N, id) <==> forall y | y in N :: y.last <= id
    ensures forall y | y in N :: y in Stamped(N, id) <==> y.last == id
    ensures forall y | y in N :: y in Unlabelled(N) <==> y.depthMin == 0 && y.depthMax == 0
    ensures Stamped(N, id) <= N && Unlabelled(N) <= N
  {}

  /** After x has been stamped and its labels cleared. */
  lemma StampedNow(N: set<Node>, id: int, x: Node, V: set<Node>, Z: set<Node>)
    requires x in N && x.last == id && x.depthMin == 0 && x.depthMax == 0 && V <= N && Z <= N
    requires forall y | y in N :: y.last <= id
    requires forall y | y in N && y != x :: y in V <==> y.last == id
    requires forall y | y in N && y != x :: y in Z <==> y.depthMin == 0 && y.depthMax == 0
    ensures Stamped(N, id) == V + {x} && Unlabelled(N) == Z + {x} && LastUpTo(N, id)
  {}

  lemma VisitedMore(N: set<Node>, g: Shape, V: set<Node>, Z: set<Node>, open: set<Node>, x: Node)
    requires Cleared(N, g, V, Z, open)
    ensures Cleared(N, g, V + {x}, Z + {x}, open + {x})
  {
  }

  lemma VisitedAll(N: set<Node>, g: Shape, V: set<Node>, Z: set<Node>, open: set<Node>, x: Node, list: seq<Node>)
    requires Cleared(N, g, V, Z, open + {x}) && x in g.down && Lists(list, g.down[x]) && (set c | c in list) <= V
    ensures Cleared(N, g, V, Z, open)
  {
        forall c | c in g.down[x] ensures c in V { assert c in list; assert c in set d | d in list; }
  }

  // ---------------------------------------------------------------------------
  // All labels
  // ---------------------------------------------------------------------------

  /** With nothing left to relax, all roots labelled, the labels are extremal. */
  lemma {:induction false} PathWithin(N: set<Node>, g: Shape, L: Labels, x: Node, n: int)
    requires Symmetric(N, g) && Sensible(N, g, L) && L.lo.Keys == N && L.hi.Keys == N && Relaxed(N, g, L, {})
    requires x in N && PathOf(g.up, x, n)
    requires forall r | r in Tops(N, g) :: L.hi[r] != 0
    ensures L.hi[x] != 0 && L.lo[x] <= n <= L.hi[x]
    decreases n
  {
    hide *;
    PathPositive(N, g, x, n);
    SensibleAt(N, g, L, x);
    if n == 1 {
      RootsOnly(N, g, x);
    } else {
      var y := PathBack(N, g, x, n);
      PathWithin(N, g, L, y, n - 1);
      EdgeOf(N, g, L, y, x);
    }
  }

  lemma RootsOnly(N: set<Node>, g: Shape, x: Node)
    requires PathOf(g.up, x, 1) && x in N
    ensures x in Tops(N, g)
  {}

  lemma PathBack(N: set<Node>, g: Shape, x: Node, n: int) returns (y: Node)
    requires Symmetric(N, g) && PathOf(g.up, x, n) && 1 < n && x in N
    ensures y in N && Child(g, y, x) && PathOf(g.up, y, n - 1)
  {
    y :| y in g.up[x] && PathOf(g.up, y, n - 1);
  }

  lemma EdgeOf(N: set<Node>, g: Shape, L: Labels, y: Node, x: Node)
    requires L.lo.Keys == N && L.hi.Keys == N && Relaxed(N, g, L, {}) && y in N && x in N && Child(g, y, x)
    requires L.hi[y] != 0
    ensures L.hi[y] + 1 <= L.hi[x] && 0 < L.lo[x] <= L.lo[y] + 1
  {
    assert Edge(N, L, y, x);
  }

  lemma {:induction false} SomePath(N: set<Node>, g: Shape, x: Node) returns (n: int)
    requires Layered(N, g) && g.rank.Keys == N && x in N
    ensures PathOf(g.up, x, n)
    decreases Higher(g, x)
  {
    if x in Tops(N, g) {
      n := 1;
      RootPath(N, g, x, n);
    } else {
      var y := SomeContainer(N, g, x);
      hide *;
      n := SomePath(N, g, y);
      PathPositive(N, g, y, n);
      PathStep(N, g, y, x, n);
      n := n + 1;
    }
  }

  /** The nodes of higher rank. */
  ghost function Higher(g: Shape, x: Node): set<Node> { set y | y in g.rank && Under(g, y, x) }

  lemma SomeContainer(N: set<Node>, g: Shape, x: Node) returns (y: Node)
    requires Layered(N, g) && g.rank.Keys == N && x in N && x !in Tops(N, g)
    ensures y in N && Child(g, y, x) && Higher(g, y) < Higher(g, x)
  {
    y :| y in g.up[x];
    assert Child(g, y, x);
    assert y in Higher(g, x) && y !in Higher(g, y);
  }

  /** What is visited from all roots is everything. */
  lemma {:induction false} Visited(N: set<Node>, g: Shape, V: set<Node>, Z: set<Node>, x: Node)
    requires Layered(N, g) && g.rank.Keys == N && Tops(N, g) <= V && Cleared(N, g, V, Z, {}) && x in N
    ensures x in V && x in Z
    decreases Higher(g, x)
  {
    if x !in Tops(N, g) {
      var y := SomeContainer(N, g, x);
      Visited(N, g, V, Z, y);
    }
  }

  lemma LabelsExtremal(N: set<Node>, g: Shape, L: Labels, x: Node)
    requires Layered(N, g) && g.rank.Keys == N && x in N
    requires L.lo.Keys == N && L.hi.Keys == N && Sensible(N, g, L) && Relaxed(N, g, L, {})
    requires forall r | r in Tops(N, g) :: L.hi[r] != 0
    ensures Extremal(g.up, x, L.lo[x], L.hi[x])
  {
    var k := SomePath(N, g, x);
    PathWithin(N, g, L, x, k);
    SensibleAt(N, g, L, x);
    forall n | PathOf(g.up, x, n) ensures L.lo[x] <= n <= L.hi[x] { PathWithin(N, g, L, x, n); }
  }

  /** The part of Graph::stats that labels the nodes: clear all labels from the
    * roots, then walk down from every root. */
  method LabelDepths(roots: seq<Node>, id: int, ghost N: set<Node>, ghost g: Shape)
    requires Layered(N, g) && g.rank.Keys == N && DownLists(N, g.down) && Lists(roots, Tops(N, g))
    requires LastUpTo(N, id - 1)
    modifies N`last, N`depthMin, N`depthMax
    ensures LastUpTo(N, id) && forall x | x in N :: Extremal(g.up, x, x.depthMin, x.depthMax)
  {
    hide *;
    ClearLabels(roots, id, N, g);
    LayeredMeans(N, g);
    RootsListed(N, g, roots);
    var i := 0;
    while i < |roots|
      invariant i <= |roots| && Sensible(N, g, LabelsOf(N)) && Relaxed(N, g, LabelsOf(N), {})
      invariant (forall r | r in roots[..i] :: r.depthMax != 0) && LastUpTo(N, id)
    {
      ghost var L := LabelsOf(N);
      LabelsMean(N);
      RootCalled(N, g, L, roots[i]);
      PrepareStats(roots[i], null, {}, N, g);
      SettledMeans(N, g, L, LabelsOf(N), {}, null, roots[i]);
      LabelsMean(N);
      RootsKept(N, g, L, LabelsOf(N), roots, i);
      i := i + 1;
    }
    assert roots[..i] == roots;
    LabelsMean(N);
    forall x | x in N ensures Extremal(g.up, x, x.depthMin, x.depthMax) { LabelsExtremal(N, g, LabelsOf(N), x); }
  }

  /** Its first loop. */
  method ClearLabels(roots: seq<Node>, id: int, ghost N: set<Node>, ghost g: Shape)
    requires Layered(N, g) && g.rank.Keys == N && DownLists(N, g.down) && Lists(roots, Tops(N, g))
    requires LastUpTo(N, id - 1)
    modifies N`last, N`depthMin, N`depthMax
    ensures LastUpTo(N, id) && Sensible(N, g, LabelsOf(N)) && Relaxed(N, g, LabelsOf(N), {})
  {
    hide *;
    LastMeans(N, id);
    LastMeans(N, id - 1);
    LayeredMeans(N, g);
    RootsListed(N, g, roots);
    NothingCleared(N, g, Stamped(N, id), Unlabelled(N));
    var i := 0;
    while i < |roots|
      invariant i <= |roots| && LastUpTo(N, id) && Cleared(N, g, Stamped(N, id), Unlabelled(N), {})
      invariant (set r | r in roots[..i]) <= Stamped(N, id)
    {
      ResetStats(roots[i], id, {}, N, g);
      assert roots[..i + 1] == roots[..i] + [roots[i]];
      i := i + 1;
    }
    assert roots[..i] == roots;
    ClearedStart(N, g, Stamped(N, id));
  }

  lemma RootsListed(N: set<Node>, g: Shape, roots: seq<Node>)
    requires Lists(roots, Tops(N, g))
    ensures (set r | r in roots) == Tops(N, g)
    ensures forall i | 0 <= i < |roots| :: roots[i] in N && roots[i] in Tops(N, g)
    ensures forall r | r in Tops(N, g) :: r in roots
  {
    forall i | 0 <= i < |roots| ensures roots[i] in Tops(N, g) { assert roots[i] in roots; }
  }

  lemma NothingCleared(N: set<Node>, g: Shape, V: set<Node>, Z: set<Node>)
    requires V == {}
    ensures Cleared(N, g, V, Z, {})
  {}

  lemma ClearedStart(N: set<Node>, g: Shape, V: set<Node>)
    requires Layered(N, g) && g.rank.Keys == N && Tops(N, g) <= V && Cleared(N, g, V, Unlabelled(N), {})
    ensures Sensible(N, g, LabelsOf(N)) && Relaxed(N, g, LabelsOf(N), {})
  {
    LabelsMean(N);
    forall x | x in N ensures x.depthMin == 0 && x.depthMax == 0 { Visited(N, g, V, Unlabelled(N), x); }
    hide Tops, Cleared, LabelsOf;
  }

  lemma RootCalled(N: set<Node>, g: Shape, L: Labels, r: Node)
    requires Sensible(N, g, L) && Relaxed(N, g, L, {}) && r in N && r in g.rank && r in Tops(N, g)
    ensures Called(N, g, L, {}, null, r)
  {
    hide Label, Tops;
  }

  lemma RootsKept(N: set<Node>, g: Shape, L: Labels, W: Labels, roots: seq<Node>, i: nat)
    requires i < |roots| && L.lo.Keys == N && L.hi.Keys == N && W.lo.Keys == N && W.hi.Keys == N
    requires (forall j | 0 <= j < |roots| :: roots[j] in N) && Improved(N, g, L, W, roots[i]) && Sensible(N, g, L)
    requires W.hi[roots[i]] != 0 && forall r | r in roots[..i] :: L.hi[r] != 0
    ensures forall r | r in roots[..i + 1] :: W.hi[r] != 0
  {
    hide *;
    forall r | r in roots[..i + 1] ensures W.hi[r] != 0 {
      assert roots[..i + 1] == roots[..i] + [roots[i]];
      if r != roots[i] { KnownStays(N, g, L, W, roots[i], r); }
    }
  }

  lemma KnownStays(N: set<Node>, g: Shape, L: Labels, W: Labels, x: Node, r: Node)
    requires L.lo.Keys == N && L.hi.Keys == N && W.lo.Keys == N && W.hi.Keys == N
    requires r in N && Improved(N, g, L, W, x) && Sensible(N, g, L) && L.hi[r] != 0
    ensures W.hi[r] != 0
  {
    SensibleAt(N, g, L, r);
    hide Under, Sensible, PathOf, Tops;
  }
}
