/** Matching through the pre-filter index. */
module FilterMatch {
  import opened Subscriptions
  import opened Containment
  import opened Diagram
  import opened Bloom
  import opened Index
  import opened Pruning
  import opened Graph

  // ---------------------------------------------------------------------------
  // The array of marks
  // ---------------------------------------------------------------------------

  ghost predicate Numbered(all: set<Indexed>, n: nat) {
    && (forall b | b in all :: b.id < n)
    && (forall a, b | a in all && b in all && a.id == b.id :: a == b)
  }

  ghost function Marked(all: set<Indexed>, matched: array<bool>): set<Indexed>
    reads matched
  {
    set b | b in all && b.id < matched.Length && matched[b.id]
  }

  method Mark(b: Indexed, matched: array<bool>, ghost all: set<Indexed>)
    requires Numbered(all, matched.Length) && b in all
    modifies matched
    ensures Marked(all, matched) == old(Marked(all, matched)) + {b}
  {
    matched[b.id] := true;
  }

  method MarkEach(list: seq<Indexed>, matched: array<bool>, ghost all: set<Indexed>)
    requires Numbered(all, matched.Length) && forall b | b in list :: b in all
    modifies matched
    ensures Marked(all, matched) == old(Marked(all, matched)) + set b | b in list
  {
    var j := 0;
    while j < |list|
      invariant j <= |list|
      invariant Marked(all, matched) == old(Marked(all, matched)) + set b | b in list[..j]
    {
      Mark(list[j], matched, all);
      assert list[..j + 1] == list[..j] + [list[j]];
      j := j + 1;
    }
    assert list[..j] == list;
  }

  // ---------------------------------------------------------------------------
  // How the index, the subscriptions and the graph refer to each other
  // ---------------------------------------------------------------------------

  /** s is the subscription of a primary entry, and points to it. */
  ghost predicate Entered(v: View, s: Subscription)
    reads s`filterAttr
  {
    s.filterAttr is Indexed && Primary(v, s.filterAttr as Indexed) && (s.filterAttr as Indexed).sub == s
  }

  /** The entries of a list of subscriptions. */
  ghost function Pending(c: seq<Subscription>): set<Indexed>
    reads c`filterAttr
  {
    set t | t in c && t.filterAttr is Indexed :: t.filterAttr as Indexed
  }

  /** The entry b, its node and the primary of its class agree; the primary
    * lists the rest of the class, and the neighbours in the graph are primaries. */
  ghost predicate WiredAt(v: View, N: set<Node>, S: set<Subscription>, b: Indexed)
    reads S, N, v.all
  {
    b in v.prim && v.prim[b] in v.all && b.sub in S && b.sub.filterAttr == b && b.sub.graphAttr is Node &&
    var n, p := b.sub.graphAttr as Node, v.prim[b];
    && n in N && n.sub in S && n.sub.filterAttr == p && p.sub == n.sub
    && n.count == |Members(v, p)| && Lists(p.duplicates, Members(v, p) - {p})
    && Equivalent(n.sub.data, b.sub.data)
    && (forall m | m in n.containers :: m.sub in S && Entered(v, m.sub) && StrictlyIncludes(m.sub.data, n.sub.data))
    && (forall m | m in n.containees :: m.sub in S && Entered(v, m.sub) && StrictlyIncludes(n.sub.data, m.sub.data))
    && p in v.ups && v.ups[p] == Raised(n, S) && Downs(v, p) == Lowered(n, S)
  }

  /** The entries of the containers of a node. */
  ghost function Raised(n: Node, S: set<Subscription>): set<Indexed>
    reads n, S
  {
    set m | m in n.containers && m.sub in S && m.sub.filterAttr is Indexed :: m.sub.filterAttr as Indexed
  }

  /** The entries of the containees of a node. */
  ghost function Lowered(n: Node, S: set<Subscription>): set<Indexed>
    reads n, S
  {
    set m | m in n.containees && m.sub in S && m.sub.filterAttr is Indexed :: m.sub.filterAttr as Indexed
  }

  ghost predicate Wired(v: View, N: set<Node>, S: set<Subscription>)
    reads S, N, v.all
  {
    forall b | b in v.all :: WiredAt(v, N, S, b)
  }

  /** Without a graph every entry stands for itself. */
  ghost predicate Ungrouped(v: View)
    reads v.all`duplicates
  {
    v.prim.Keys == v.all && forall b | b in v.all :: v.prim[b] == b && b.duplicates == []
  }

  /** Everything a match relies on and does not change. */
  ghost predicate Ready(g: Graph?, v: View, N: set<Node>, S: set<Subscription>, U: iset<seq<Entry>>, e: Event)
    reads S, N, v.all
  {
    && Coherent(v, e)
    && if g == null then Ungrouped(v)
       else Wired(v, N, S) && UpsComplete(v) && Preorder(U) && SoundOn(U) && forall s | s in S :: s.data in U
  }

  function SubsOf(log: seq<Indexed>): seq<Subscription> {
    if log == [] then [] else SubsOf(log[..|log| - 1]) + [log[|log| - 1].sub]
  }

  // ---------------------------------------------------------------------------
  // Propagation to containers
  // ---------------------------------------------------------------------------

  /** A subscription waiting on the work stack: a primary whose answer is known. */
  ghost predicate Waiting(v: View, S: set<Subscription>, e: Event, t: Subscription, accepted: bool)
    reads S
  {
    t in S && Entered(v, t) && Accepts(t.data, e) == accepted
  }

  /** Its entry is marked. */
  ghost predicate Quiet(t: Subscription, M: set<Indexed>)
    reads t`filterAttr
  {
    t.filterAttr is Indexed && t.filterAttr as Indexed in M
  }

  ghost predicate AllQuiet(c: seq<Subscription>, M: set<Indexed>)
    reads c`filterAttr
  {
    forall t | t in c :: Quiet(t, M)
  }

  /** The node of an entry accepts what the entry accepts, and so its containers
    * do, and what it rejects its containees reject. */
  lemma NeighboursWait(g: Graph?, v: View, N: set<Node>, S: set<Subscription>, U: iset<seq<Entry>>, e: Event,
                       b: Indexed)
    requires g != null && Ready(g, v, N, S, U, e) && b in v.all
    ensures b.sub.graphAttr is Node
    ensures var n := b.sub.graphAttr as Node;
      && Accepts(n.sub.data, e) == Accepts(b.sub.data, e)
      && (forall m | m in n.containers :: m.sub in S && Entered(v, m.sub) && Sound(m.sub.data, n.sub.data))
      && (forall m | m in n.containees :: m.sub in S && Entered(v, m.sub) && Sound(n.sub.data, m.sub.data))
  {
    assert WiredAt(v, N, S, b);
    hide Accepts, Includes, Members, Raised, Preorder, UpsComplete, Sound, Entered, Lists, Wired, WiredAt;
    NodeAgrees(g, v, N, S, U, e, b);
    NeighboursSound(v, N, S, U, b);
  }

  lemma NodeAgrees(g: Graph?, v: View, N: set<Node>, S: set<Subscription>, U: iset<seq<Entry>>, e: Event, b: Indexed)
    requires Coherent(v, e) && b in v.all && WiredAt(v, N, S, b)
    ensures b.sub.graphAttr is Node && Accepts((b.sub.graphAttr as Node).sub.data, e) == Accepts(b.sub.data, e)
  {
    hide Accepts, Includes, StrictlyIncludes, Members, Raised, Entered, Lists;
  }

  lemma NeighboursSound(v: View, N: set<Node>, S: set<Subscription>, U: iset<seq<Entry>>, b: Indexed)
    requires SoundOn(U) && WiredAt(v, N, S, b) && forall s | s in S :: s.data in U
    ensures b.sub.graphAttr is Node
    ensures var n := b.sub.graphAttr as Node;
      && (forall m | m in n.containers :: m.sub in S && Entered(v, m.sub) && Sound(m.sub.data, n.sub.data))
      && (forall m | m in n.containees :: m.sub in S && Entered(v, m.sub) && Sound(n.sub.data, m.sub.data))
  {
    hide Includes, Members, Raised, Entered, Lists, Sound;
  }

  lemma NodeIn(l: seq<Node>, t: Subscription) returns (m: Node)
    requires t in Subs(l)
    ensures m in l && m.sub == t
  {
    var i :| 0 <= i < |l| && Subs(l)[i] == t;
    m := l[i];
  }

  lemma SoundMeans(a: seq<Entry>, b: seq<Entry>, e: Event)
    requires Sound(a, b)
    ensures Accepts(b, e) ==> Accepts(a, e)
  {
    hide Accepts;
  }

  lemma WaitingIf(v: View, S: set<Subscription>, e: Event, t: Subscription, accepted: bool)
    requires t in S && Entered(v, t) && Accepts(t.data, e) == accepted
    ensures Waiting(v, S, e, t, accepted)
  {}

  lemma ContainersWait(g: Graph?, v: View, N: set<Node>, S: set<Subscription>, U: iset<seq<Entry>>, e: Event,
                       b: Indexed)
    requires g != null && Ready(g, v, N, S, U, e) && b in v.all && Accepts(b.sub.data, e)
    ensures b.sub.graphAttr is Node
    ensures forall t | t in Subs((b.sub.graphAttr as Node).containers) :: Waiting(v, S, e, t, true)
  {
    hide *;
    NeighboursWait(g, v, N, S, U, e, b);
    var n := b.sub.graphAttr as Node;
    forall t | t in Subs(n.containers) ensures Waiting(v, S, e, t, true) {
      var m := NodeIn(n.containers, t);
      SoundMeans(m.sub.data, n.sub.data, e);
      WaitingIf(v, S, e, t, true);
    }
  }

  lemma ContaineesWait(g: Graph?, v: View, N: set<Node>, S: set<Subscription>, U: iset<seq<Entry>>, e: Event,
                       b: Indexed)
    requires g != null && Ready(g, v, N, S, U, e) && b in v.all && !Accepts(b.sub.data, e)
    ensures b.sub.graphAttr is Node
    ensures forall t | t in Subs((b.sub.graphAttr as Node).containees) :: Waiting(v, S, e, t, false)
  {
    hide *;
    NeighboursWait(g, v, N, S, U, e, b);
    var n := b.sub.graphAttr as Node;
    forall t | t in Subs(n.containees) ensures Waiting(v, S, e, t, false) {
      var m := NodeIn(n.containees, t);
      SoundMeans(n.sub.data, m.sub.data, e);
      WaitingIf(v, S, e, t, false);
    }
  }

  /** A primary entry's class is its own entry and its duplicates, as many as the graph counts. */
  lemma ClassKnown(g: Graph?, v: View, N: set<Node>, S: set<Subscription>, U: iset<seq<Entry>>, e: Event, b: Indexed)
    requires Ready(g, v, N, S, U, e) && Primary(v, b)
    ensures
      if g == null then |Members(v, b)| == 1
      else b.sub.graphAttr is Node && (b.sub.graphAttr as Node).count == |Members(v, b)|
    ensures forall d | d in b.duplicates :: d in v.all
    ensures (set d | d in b.duplicates) + {b} == Members(v, b)
  {
    hide *;
    ClassListed(g, v, N, S, U, e, b);
    ClassSets(v, b);
  }

  lemma ClassSets(v: View, b: Indexed)
    requires Primary(v, b) && Lists(b.duplicates, Members(v, b) - {b})
    ensures forall d | d in b.duplicates :: d in v.all
    ensures (set d | d in b.duplicates) + {b} == Members(v, b)
  {
    assert b in Members(v, b);
    assert forall d | d in b.duplicates :: d in Members(v, b) - {b};
    assert forall d | d in Members(v, b) - {b} :: d in b.duplicates;
  }

  lemma ClassListed(g: Graph?, v: View, N: set<Node>, S: set<Subscription>, U: iset<seq<Entry>>, e: Event, b: Indexed)
    requires Ready(g, v, N, S, U, e) && Primary(v, b)
    ensures
      if g == null then |Members(v, b)| == 1
      else b.sub.graphAttr is Node && (b.sub.graphAttr as Node).count == |Members(v, b)|
    ensures Lists(b.duplicates, Members(v, b) - {b})
  {
    if g == null {
      assert Members(v, b) == {b};
    } else {
      hide Lists, Members;
      assert WiredAt(v, N, S, b);
    }
  }

  /** Report the class of b and mark all of it. */
  method ReportAndMark(g: Graph?, b: Indexed, out: seq<Subscription>, matched: array<bool>, ghost log: seq<Indexed>,
                       ghost e: Event, ghost v: View, ghost N: set<Node>, ghost S: set<Subscription>,
                       ghost U: iset<seq<Entry>>)
    returns (r: seq<Subscription>, count: int)
    requires Ready(g, v, N, S, U, e) && Primary(v, b) && Numbered(v.all, matched.Length) && out == SubsOf(log)
    modifies matched
    ensures count == |Members(v, b)| && r == SubsOf(log + Repeat(b, count))
    ensures Marked(v.all, matched) == old(Marked(v.all, matched)) + Members(v, b)
  {
    hide *;
    ClassKnown(g, v, N, S, U, e, b);
    count := 1;
    if g != null { count := g.Duplicates(b.sub); }
    r := PushRepeat(out, b, count, log);
    MarkEach(b.duplicates, matched, v.all);
    PrimaryIn(v, b);
    Mark(b, matched, v.all);
  }

  lemma PrimaryIn(v: View, b: Indexed)
    requires Primary(v, b)
    ensures b in v.all && b in v.prim && v.prim[b] == b
  {}

  method PushRepeat(out: seq<Subscription>, b: Indexed, count: nat, ghost log: seq<Indexed>)
    returns (r: seq<Subscription>)
    requires out == SubsOf(log)
    ensures r == SubsOf(log + Repeat(b, count))
  {
    r := out;
    var j := 0;
    RepeatLast(log, b, 0);
    while j < count
      invariant 0 <= j <= count && r == SubsOf(log + Repeat(b, j))
    {
      r := r + [b.sub];
      j := j + 1;
      RepeatLast(log, b, j);
      assert (log + Repeat(b, j))[..|log + Repeat(b, j)| - 1] == log + Repeat(b, j - 1);
    }
  }

  lemma MarkedMeans(all: set<Indexed>, matched: array<bool>, b: Indexed)
    requires Numbered(all, matched.Length) && b in all
    ensures b.id < matched.Length && (matched[b.id] <==> b in Marked(all, matched))
    ensures Marked(all, matched) <= all
  {}

  lemma NodeKnown(g: Graph?, v: View, N: set<Node>, S: set<Subscription>, U: iset<seq<Entry>>, e: Event, b: Indexed)
    requires g != null && Ready(g, v, N, S, U, e) && b in v.all
    ensures b.sub.graphAttr is Node && Coherent(v, e)
    ensures (b.sub.graphAttr as Node).sub != b.sub <==> v.prim[b] != b
  {
    assert WiredAt(v, N, S, b);
  }

  /** The class of a matching primary keeps the bookkeeping exact. */
  lemma UpStep(v: View, e: Event, M: set<Indexed>, log: seq<Indexed>, b: Indexed, count: nat)
    requires Coherent(v, e) && Primary(v, b) && b !in M && Accepts(b.sub.data, e) && count == |Members(v, b)|
    ensures Scanning(v, e, M, log) ==> Scanning(v, e, M + Members(v, b), log + Repeat(b, count))
    ensures b in Members(v, b) && Members(v, b) <= v.all && |log + Repeat(b, count)| == |log| + count
  {
    RepeatOnly(b, count);
    if Scanning(v, e, M, log) { ReportClass(v, e, M, log, b, count); }
  }

  /** Every class marked since M contains the class of base strictly. */
  ghost predicate OnlyAbove(v: View, M: set<Indexed>, W: set<Indexed>, base: seq<Entry>) {
    forall q | q in W && q !in M :: q in v.prim && StrictlyIncludes(v.prim[q].sub.data, base)
  }

  ghost predicate AllAbove(c: seq<Subscription>, base: seq<Entry>)
  {
    forall t | t in c :: StrictlyIncludes(t.data, base)
  }

  lemma AboveNext(v: View, U: iset<seq<Entry>>, M: set<Indexed>, W: set<Indexed>, base: seq<Entry>, b: Indexed)
    requires OnlyAbove(v, M, W, base) && Primary(v, b) && StrictlyIncludes(b.sub.data, base)
    ensures OnlyAbove(v, M, W + Members(v, b), base)
  {
    hide StrictlyIncludes;
  }

  /** The containers of b: strictly above its class, and pending once b is marked. */
  lemma ContainersAbove(g: Graph?, v: View, N: set<Node>, S: set<Subscription>, U: iset<seq<Entry>>, e: Event,
                        b: Indexed)
    requires g != null && Ready(g, v, N, S, U, e) && b in v.all
    ensures b.sub.graphAttr is Node && v.prim[b] in v.ups
    ensures var c := Subs((b.sub.graphAttr as Node).containers);
      AllAbove(c, v.prim[b].sub.data) && Pending(c) == v.ups[v.prim[b]] && forall t | t in c :: t.data in U
    ensures v.prim[b].sub.data in U && Preorder(U)
  {
    assert WiredAt(v, N, S, b);
    RaisedPending(v, S, b.sub.graphAttr as Node);
    hide StrictlyIncludes, Includes, Equivalent, Members, Primary, UpsComplete, Coherent;
  }

  lemma RaisedPending(v: View, S: set<Subscription>, n: Node)
    requires forall m | m in n.containers :: m.sub in S && Entered(v, m.sub) && StrictlyIncludes(m.sub.data, n.sub.data)
    ensures Pending(Subs(n.containers)) == Raised(n, S)
    ensures forall t | t in Subs(n.containers) :: t in S && StrictlyIncludes(t.data, n.sub.data)
  {
    hide StrictlyIncludes, Primary;
    var c := Subs(n.containers);
    forall t | t in c
      ensures t in S && StrictlyIncludes(t.data, n.sub.data) && t.filterAttr is Indexed
      ensures t.filterAttr as Indexed in Raised(n, S)
    {
      var i :| 0 <= i < |n.containers| && c[i] == t;
      assert n.containers[i] in n.containers;
    }
    forall x | x in Raised(n, S) ensures x in Pending(c) {
      var m :| m in n.containers && m.sub in S && m.sub.filterAttr is Indexed && m.sub.filterAttr as Indexed == x;
      var i :| 0 <= i < |n.containers| && n.containers[i] == m;
      assert c[i] in c;
    }
  }

  /** The stack when the containers of b, above base, are pushed. */
  lemma Pushed(c: seq<Subscription>, l: seq<Subscription>, U: iset<seq<Entry>>, b: seq<Entry>, base: seq<Entry>)
    requires Preorder(U) && b in U && base in U && StrictlyIncludes(b, base) && (forall t | t in l :: t.data in U)
    requires AllAbove(c, base) && AllAbove(l, b)
    ensures AllAbove(c + l, base) && Pending(c + l) == Pending(c) + Pending(l)
  {
    forall t | t in c + l ensures StrictlyIncludes(t.data, base) {
      if t in l {
        var x := t.data;
        assert TransitiveAt(x, b, base) && TransitiveAt(b, base, x) && TransitiveAt(base, x, b);
      }
    }
    forall t | t in c + l ensures t in c || t in l {}
  }

  lemma Popped(c: seq<Subscription>, base: seq<Entry>)
    requires c != [] && AllAbove(c, base)
    ensures var t, rest := c[|c| - 1], c[..|c| - 1];
      && AllAbove(rest, base) && StrictlyIncludes(t.data, base)
      && (t.filterAttr is Indexed ==> Pending(c) == Pending(rest) + {t.filterAttr as Indexed})
  {
    assert c == c[..|c| - 1] + [c[|c| - 1]];
    hide StrictlyIncludes;
  }

  lemma ClosedPop(v: View, e: Event, M: set<Indexed>, P: set<Indexed>, b: Indexed)
    requires Closed(v, e, M, P + {b}) && b in M
    ensures Closed(v, e, M, P)
  {
    hide Accepts;
  }

  /** When b and its duplicates are marked, its containers are pending instead. */
  lemma ClosedMark(v: View, e: Event, M: set<Indexed>, P: set<Indexed>, b: Indexed)
    requires Closed(v, e, M, P + {b}) && Primary(v, b)
    ensures b in v.ups && Closed(v, e, M + Members(v, b), P + v.ups[b])
  {
    hide Accepts;
    assert b in Members(v, b);
  }

  /** Reporting and marking one container keeps what the propagation keeps. */
  lemma UpNext(v: View, e: Event, U: iset<seq<Entry>>, M0: set<Indexed>, M: set<Indexed>, P0: set<Indexed>,
               c: seq<Subscription>, b: Indexed,
               base: seq<Entry>, l: seq<Subscription>)
    requires Closed(v, e, M0, P0) ==> Closed(v, e, M, Pending(c) + {b})
    requires OnlyAbove(v, M0, M, base) && Primary(v, b) && StrictlyIncludes(b.sub.data, base)
    requires b in v.ups && Pending(l) == v.ups[b] && Pending(c + l) == Pending(c) + Pending(l)
    ensures Closed(v, e, M0, P0) ==> Closed(v, e, M + Members(v, b), Pending(c + l))
    ensures OnlyAbove(v, M0, M + Members(v, b), base)
  {
    hide *;
    AboveNext(v, U, M0, M, base, b);
    if Closed(v, e, M0, P0) { ClosedMark(v, e, M, Pending(c), b); }
  }

  lemma UpSkip(v: View, e: Event, M0: set<Indexed>, M: set<Indexed>, P0: set<Indexed>, P: set<Indexed>, b: Indexed)
    requires (Closed(v, e, M0, P0) ==> Closed(v, e, M, P + {b})) && b in M
    ensures Closed(v, e, M0, P0) ==> Closed(v, e, M, P)
  {
    hide *;
    if Closed(v, e, M0, P0) { ClosedPop(v, e, M, P, b); }
  }

  /** The state of positive propagation: c is the stack, M0 and log are from before. */
  ghost predicate Climbing(v: View, S: set<Subscription>, e: Event, M0: set<Indexed>, M: set<Indexed>,
                           log: seq<Indexed>, l: seq<Indexed>,
                           P0: set<Indexed>, base: seq<Entry>, quiet: bool, c: seq<Subscription>)
    reads S, c`filterAttr
  {
    && (forall t | t in c :: Waiting(v, S, e, t, true)) && AllAbove(c, base) && OnlyAbove(v, M0, M, base)
    && (Scanning(v, e, M0, log) ==> Scanning(v, e, M, l))
    && (Closed(v, e, M0, P0) ==> Closed(v, e, M, Pending(c)))
    && (quiet ==> M == M0 && l == log && forall t | t in c :: Quiet(t, M0))
  }

  lemma ClimbStart(v: View, S: set<Subscription>, e: Event, M: set<Indexed>, log: seq<Indexed>, base: seq<Entry>,
                   c: seq<Subscription>)
    requires (forall t | t in c :: Waiting(v, S, e, t, true)) && AllAbove(c, base)
    ensures Climbing(v, S, e, M, M, log, log, Pending(c), base, AllQuiet(c, M), c)
  {
    hide Waiting, StrictlyIncludes, Quiet, Closed, Scanning;
  }

  lemma ClimbTop(v: View, S: set<Subscription>, e: Event, M0: set<Indexed>, M: set<Indexed>, log: seq<Indexed>,
                 l: seq<Indexed>,
                 P0: set<Indexed>, base: seq<Entry>, quiet: bool, c: seq<Subscription>)
    requires Climbing(v, S, e, M0, M, log, l, P0, base, quiet, c) && c != []
    ensures var t := c[|c| - 1];
      t.filterAttr is Indexed && var b := t.filterAttr as Indexed;
      && Primary(v, b) && b in v.all && b.sub == t && Accepts(b.sub.data, e) && StrictlyIncludes(b.sub.data, base)
      && (quiet ==> b in M)
  {
    var t := c[|c| - 1];
    assert t in c && Waiting(v, S, e, t, true);
    hide StrictlyIncludes, Accepts, Closed, Scanning, Primary;
  }

  lemma ClimbSkip(v: View, S: set<Subscription>, e: Event, M0: set<Indexed>, M: set<Indexed>, log: seq<Indexed>,
                  l: seq<Indexed>,
                  P0: set<Indexed>, base: seq<Entry>, quiet: bool, c: seq<Subscription>)
    requires Climbing(v, S, e, M0, M, log, l, P0, base, quiet, c) && c != []
    requires c[|c| - 1].filterAttr is Indexed && c[|c| - 1].filterAttr as Indexed in M
    ensures Climbing(v, S, e, M0, M, log, l, P0, base, quiet, c[..|c| - 1])
  {
    Popped(c, base);
    UpSkip(v, e, M0, M, P0, Pending(c[..|c| - 1]), c[|c| - 1].filterAttr as Indexed);
    hide Waiting, StrictlyIncludes, Quiet, Closed, Scanning, OnlyAbove, AllAbove, Pending;
  }

  lemma ClimbNext(g: Graph?, v: View, N: set<Node>, S: set<Subscription>, U: iset<seq<Entry>>, e: Event,
                  M0: set<Indexed>, M: set<Indexed>,
                  log: seq<Indexed>, l: seq<Indexed>, P0: set<Indexed>, base: seq<Entry>, quiet: bool,
                  c: seq<Subscription>, n: nat)
    requires g != null && Ready(g, v, N, S, U, e) && base in U && Climbing(v, S, e, M0, M, log, l, P0, base, quiet, c)
    requires c != []
    requires c[|c| - 1].filterAttr is Indexed && c[|c| - 1].filterAttr as Indexed !in M
    requires n == |Members(v, c[|c| - 1].filterAttr as Indexed)|
    ensures var b := c[|c| - 1].filterAttr as Indexed;
      b.sub.graphAttr is Node && b in Members(v, b) && Members(v, b) <= v.all && |l + Repeat(b, n)| == |l| + n &&
      Climbing(v, S, e, M0, M + Members(v, b), log, l + Repeat(b, n), P0, base, quiet,
               c[..|c| - 1] + Subs((b.sub.graphAttr as Node).containers))
  {
    hide *;
    ClimbTop(v, S, e, M0, M, log, l, P0, base, quiet, c);
    var b, rest := c[|c| - 1].filterAttr as Indexed, c[..|c| - 1];
    ReadyMeans(g, v, N, S, U, e, b);
    PrimaryIn(v, b);
    ContainersWait(g, v, N, S, U, e, b);
    ContainersAbove(g, v, N, S, U, e, b);
    var more := Subs((b.sub.graphAttr as Node).containers);
    ClimbParts(v, S, e, M0, M, log, l, P0, base, quiet, c);
    Popped(c, base);
    Pushed(rest, more, U, b.sub.data, base);
    UpNext(v, e, U, M0, M, P0, rest, b, base, more);
    UpStep(v, e, M, l, b, n);
    ClimbIf(v, S, e, M0, M + Members(v, b), log, l + Repeat(b, n), P0, base, rest, more);
  }

  lemma ClimbParts(v: View, S: set<Subscription>, e: Event, M0: set<Indexed>, M: set<Indexed>, log: seq<Indexed>,
                   l: seq<Indexed>,
                   P0: set<Indexed>, base: seq<Entry>, quiet: bool, c: seq<Subscription>)
    requires Climbing(v, S, e, M0, M, log, l, P0, base, quiet, c)
    ensures (forall t | t in c :: Waiting(v, S, e, t, true)) && AllAbove(c, base) && OnlyAbove(v, M0, M, base)
    ensures Scanning(v, e, M0, log) ==> Scanning(v, e, M, l)
    ensures Closed(v, e, M0, P0) ==> Closed(v, e, M, Pending(c))
    ensures quiet ==> M == M0 && l == log
  {
    hide Waiting, AllAbove, OnlyAbove, Quiet, Closed, Scanning;
  }

  lemma ClimbIf(v: View, S: set<Subscription>, e: Event, M0: set<Indexed>, M: set<Indexed>, log: seq<Indexed>,
                l: seq<Indexed>,
                P0: set<Indexed>, base: seq<Entry>, rest: seq<Subscription>, more: seq<Subscription>)
    requires (forall t | t in rest :: Waiting(v, S, e, t, true)) && forall t | t in more :: Waiting(v, S, e, t, true)
    requires AllAbove(rest + more, base) && OnlyAbove(v, M0, M, base)
    requires Scanning(v, e, M0, log) ==> Scanning(v, e, M, l)
    requires Closed(v, e, M0, P0) ==> Closed(v, e, M, Pending(rest + more))
    ensures Climbing(v, S, e, M0, M, log, l, P0, base, false, rest + more)
  {
    hide Waiting, AllAbove, OnlyAbove, Quiet, Closed, Scanning;
  }

  lemma ClimbDone(v: View, S: set<Subscription>, e: Event, M0: set<Indexed>, M: set<Indexed>, log: seq<Indexed>,
                  l: seq<Indexed>,
                  P0: set<Indexed>, base: seq<Entry>, quiet: bool)
    requires Climbing(v, S, e, M0, M, log, l, P0, base, quiet, [])
    ensures Closed(v, e, M0, P0) ==> Closed(v, e, M, {})
    ensures OnlyAbove(v, M0, M, base) && (Scanning(v, e, M0, log) ==> Scanning(v, e, M, l))
    ensures quiet ==> M == M0 && l == log
  {
    hide Closed, Scanning, OnlyAbove;
    assert Pending([]) == {};
  }

  /** The containers of a matching entry match too: report those not settled yet. */
  method PropagateUp(g: Graph, b: Indexed, out: seq<Subscription>, matched: array<bool>, ghost log: seq<Indexed>,
                     ghost e: Event, ghost v: View, ghost N: set<Node>, ghost S: set<Subscription>,
                     ghost U: iset<seq<Entry>>)
    returns (r: seq<Subscription>, count: int, ghost l: seq<Indexed>)
    requires Ready(g, v, N, S, U, e) && b in v.all && Accepts(b.sub.data, e) && b in v.prim && v.prim[b] in v.ups
    requires Numbered(v.all, matched.Length) && out == SubsOf(log) && b.sub.graphAttr is Node
    modifies matched
    ensures r == SubsOf(l) && |l| == |log| + count
    ensures old(Marked(v.all, matched)) <= Marked(v.all, matched)
    ensures Scanning(v, e, old(Marked(v.all, matched)), log) ==> Scanning(v, e, Marked(v.all, matched), l)
    ensures Closed(v, e, old(Marked(v.all, matched)), v.ups[v.prim[b]]) ==> Closed(v, e, Marked(v.all, matched), {})
    ensures OnlyAbove(v, old(Marked(v.all, matched)), Marked(v.all, matched), v.prim[b].sub.data)
    ensures old(AllQuiet(Subs((b.sub.graphAttr as Node).containers), Marked(v.all, matched))) ==>
      Marked(v.all, matched) == old(Marked(v.all, matched)) && l == log
  {
    hide *;
    ContainersWait(g, v, N, S, U, e, b);
    ContainersAbove(g, v, N, S, U, e, b);
    r, count, l := out, 0, log;
    ghost var base, P0 := v.prim[b].sub.data, v.ups[v.prim[b]];
    var c := g.Containers(b.sub, []);
    assert c == Subs((b.sub.graphAttr as Node).containers);
    ghost var M0 := Marked(v.all, matched);
    ghost var M, quiet := M0, AllQuiet(c, M0);
    ClimbStart(v, S, e, M0, log, base, c);
    while c != []
      invariant M == Marked(v.all, matched) && M0 <= M && r == SubsOf(l) && |l| == |log| + count
      invariant Climbing(v, S, e, M0, M, log, l, P0, base, quiet, c)
      decreases v.all - M, |c|
    {
      ClimbTop(v, S, e, M0, M, log, l, P0, base, quiet, c);
      var t, rest := c[|c| - 1], c[..|c| - 1];
      var bs := t.filterAttr as Indexed;
      MarkedMeans(v.all, matched, bs);
      if !matched[bs.id] {
        var n;
        r, n := ReportAndMark(g, bs, r, matched, l, e, v, N, S, U);
        ClimbNext(g, v, N, S, U, e, M0, M, log, l, P0, base, quiet, c, n);
        count, l, M := count + n, l + Repeat(bs, n), M + Members(v, bs);
        c := g.Containers(t, rest);
      } else {
        ClimbSkip(v, S, e, M0, M, log, l, P0, base, quiet, c);
        c := rest;
      }
    }
    ClimbDone(v, S, e, M0, M, log, l, P0, base, quiet);
  }

  // ---------------------------------------------------------------------------
  // Propagation to containees
  // ---------------------------------------------------------------------------

  /** Everything marked since M is a primary that base contains strictly. */
  ghost predicate OnlyBelow(v: View, M: set<Indexed>, W: set<Indexed>, base: seq<Entry>) {
    forall q | q in W && q !in M :: Primary(v, q) && StrictlyIncludes(base, q.sub.data)
  }

  ghost predicate AllBelow(c: seq<Subscription>, base: seq<Entry>) {
    forall t | t in c :: StrictlyIncludes(base, t.data)
  }

  /** The containees of b: strictly below it, and pending once b is marked. */
  lemma ContaineesBelow(g: Graph?, v: View, N: set<Node>, S: set<Subscription>, U: iset<seq<Entry>>, e: Event,
                        b: Indexed)
    requires g != null && Ready(g, v, N, S, U, e) && b in v.all
    ensures b.sub.graphAttr is Node && b in v.prim && v.prim[b] in v.all && v.prim[b] in v.prim
    ensures var c := Subs((b.sub.graphAttr as Node).containees);
      AllBelow(c, b.sub.data) && Pending(c) == Downs(v, v.prim[b]) && forall t | t in c :: t.data in U
    ensures b.sub.data in U && Preorder(U) && Equivalent(v.prim[b].sub.data, b.sub.data)
    ensures v.prim[b].sub.data in U
  {
    assert WiredAt(v, N, S, b);
    var n := b.sub.graphAttr as Node;
    hide StrictlyIncludes, Includes, Equivalent, Members, Primary, UpsComplete, Coherent, Downs, WiredAt, Wired;
    LoweredPending(v, S, n);
    forall t | t in Subs(n.containees) ensures StrictlyIncludes(b.sub.data, t.data) {
      ThroughStrict(U, b.sub.data, n.sub.data, t.data);
    }
  }

  lemma LoweredPending(v: View, S: set<Subscription>, n: Node)
    requires forall m | m in n.containees :: m.sub in S && Entered(v, m.sub) && StrictlyIncludes(n.sub.data, m.sub.data)
    ensures Pending(Subs(n.containees)) == Lowered(n, S)
    ensures forall t | t in Subs(n.containees) :: t in S && StrictlyIncludes(n.sub.data, t.data)
  {
    hide StrictlyIncludes, Primary;
    var c := Subs(n.containees);
    forall t | t in c
      ensures t in S && StrictlyIncludes(n.sub.data, t.data) && t.filterAttr is Indexed
      ensures t.filterAttr as Indexed in Lowered(n, S)
    {
      var m := NodeIn(n.containees, t);
    }
    forall x | x in Lowered(n, S) ensures x in Pending(c) {
      var m :| m in n.containees && m.sub in S && m.sub.filterAttr is Indexed && m.sub.filterAttr as Indexed == x;
      var i :| 0 <= i < |n.containees| && n.containees[i] == m;
      assert c[i] in c;
    }
  }

  lemma ThroughStrict(U: iset<seq<Entry>>, a: seq<Entry>, b: seq<Entry>, c: seq<Entry>)
    requires Preorder(U) && a in U && b in U && c in U && Equivalent(a, b) && StrictlyIncludes(b, c)
    ensures StrictlyIncludes(a, c)
  {
    assert TransitiveAt(a, b, c) && TransitiveAt(c, a, b);
  }

  lemma StrictChain(U: iset<seq<Entry>>, a: seq<Entry>, b: seq<Entry>, c: seq<Entry>)
    requires Preorder(U) && a in U && b in U && c in U && StrictlyIncludes(a, b) && StrictlyIncludes(b, c)
    ensures StrictlyIncludes(a, c)
  {
    assert TransitiveAt(a, b, c) && TransitiveAt(b, c, a) && TransitiveAt(c, a, b);
  }

  /** The state of negative propagation: c is the stack, M0 is from before, and P0
    * are the entries of the containees it started with. */
  ghost predicate Sinking(v: View, S: set<Subscription>, e: Event, M0: set<Indexed>, M: set<Indexed>, P0: set<Indexed>,
                          base: seq<Entry>, c: seq<Subscription>)
    reads S, c`filterAttr
  {
    && (forall t | t in c :: Waiting(v, S, e, t, false)) && AllBelow(c, base) && OnlyBelow(v, M0, M, base)
    && P0 <= M + Pending(c) && (Sunk(v, e, M0, P0) ==> Sunk(v, e, M, Pending(c)))
  }

  lemma SinkStart(v: View, S: set<Subscription>, e: Event, M: set<Indexed>, base: seq<Entry>, c: seq<Subscription>)
    requires (forall t | t in c :: Waiting(v, S, e, t, false)) && AllBelow(c, base)
    ensures Sinking(v, S, e, M, M, Pending(c), base, c)
  {
    hide Waiting, StrictlyIncludes, Sunk;
  }

  lemma SinkTop(v: View, S: set<Subscription>, e: Event, M0: set<Indexed>, M: set<Indexed>, P0: set<Indexed>,
                base: seq<Entry>, c: seq<Subscription>)
    requires Sinking(v, S, e, M0, M, P0, base, c) && c != []
    ensures var t := c[|c| - 1];
      t.filterAttr is Indexed && var b := t.filterAttr as Indexed;
      && Primary(v, b) && b in v.all && b in v.prim && v.prim[b] == b && b.sub == t
      && !Accepts(b.sub.data, e) && StrictlyIncludes(base, b.sub.data)
  {
    var t := c[|c| - 1];
    assert t in c && Waiting(v, S, e, t, false);
    hide StrictlyIncludes, Accepts, Sunk;
  }

  lemma PendingPop(c: seq<Subscription>)
    requires c != [] && c[|c| - 1].filterAttr is Indexed
    ensures Pending(c) == Pending(c[..|c| - 1]) + {c[|c| - 1].filterAttr as Indexed}
  {
    assert c == c[..|c| - 1] + [c[|c| - 1]];
  }

  lemma PendingPush(c: seq<Subscription>, l: seq<Subscription>)
    ensures Pending(c + l) == Pending(c) + Pending(l)
  {
    assert forall t :: t in c + l <==> t in c || t in l;
  }

  lemma SunkSkip(v: View, e: Event, M: set<Indexed>, P: set<Indexed>, b: Indexed)
    requires Sunk(v, e, M, P + {b}) && b in M
    ensures Sunk(v, e, M, P)
  {
    hide Accepts, Downs, Primary;
  }

  /** When a primary is marked, its containees are pending instead. */
  lemma SunkMark(v: View, e: Event, M: set<Indexed>, P: set<Indexed>, b: Indexed)
    requires Sunk(v, e, M, P + {b})
    ensures Sunk(v, e, M + {b}, P + Downs(v, b))
  {
    hide Accepts, Downs, Primary;
  }

  lemma SinkSkip(v: View, S: set<Subscription>, e: Event, M0: set<Indexed>, M: set<Indexed>, P0: set<Indexed>,
                 base: seq<Entry>, c: seq<Subscription>)
    requires Sinking(v, S, e, M0, M, P0, base, c) && c != []
    requires c[|c| - 1].filterAttr is Indexed && c[|c| - 1].filterAttr as Indexed in M
    ensures Sinking(v, S, e, M0, M, P0, base, c[..|c| - 1])
  {
    PendingPop(c);
    var rest, b := c[..|c| - 1], c[|c| - 1].filterAttr as Indexed;
    if Sunk(v, e, M0, P0) { SunkSkip(v, e, M, Pending(rest), b); }
    hide Waiting, StrictlyIncludes, Sunk, OnlyBelow, Pending;
  }

  lemma SinkNext(g: Graph?, v: View, N: set<Node>, S: set<Subscription>, U: iset<seq<Entry>>, e: Event,
                 M0: set<Indexed>, M: set<Indexed>, P0: set<Indexed>, base: seq<Entry>, c: seq<Subscription>)
    requires g != null && Ready(g, v, N, S, U, e) && base in U && Sinking(v, S, e, M0, M, P0, base, c) && c != []
    requires c[|c| - 1].filterAttr is Indexed
    ensures var b := c[|c| - 1].filterAttr as Indexed;
      b.sub.graphAttr is Node &&
      Sinking(v, S, e, M0, M + {b}, P0, base, c[..|c| - 1] + Subs((b.sub.graphAttr as Node).containees))
  {
    hide *;
    SinkTop(v, S, e, M0, M, P0, base, c);
    var b, rest := c[|c| - 1].filterAttr as Indexed, c[..|c| - 1];
    ContaineesWait(g, v, N, S, U, e, b);
    ContaineesBelow(g, v, N, S, U, e, b);
    var more := Subs((b.sub.graphAttr as Node).containees);
    PendingPop(c);
    PendingPush(rest, more);
    SinkPush(v, S, U, e, M0, M, P0, base, c, b, more);
  }

  lemma SinkPush(v: View, S: set<Subscription>, U: iset<seq<Entry>>, e: Event, M0: set<Indexed>, M: set<Indexed>,
                 P0: set<Indexed>, base: seq<Entry>, c: seq<Subscription>, b: Indexed, more: seq<Subscription>)
    requires Preorder(U) && base in U && b.sub.data in U && StrictlyIncludes(base, b.sub.data) && Primary(v, b)
    requires Sinking(v, S, e, M0, M, P0, base, c) && c != []
    requires (forall t | t in more :: Waiting(v, S, e, t, false) && t.data in U) && AllBelow(more, b.sub.data)
    requires Pending(c) == Pending(c[..|c| - 1]) + {b} && Pending(more) == Downs(v, b)
    requires Pending(c[..|c| - 1] + more) == Pending(c[..|c| - 1]) + Pending(more)
    ensures Sinking(v, S, e, M0, M + {b}, P0, base, c[..|c| - 1] + more)
  {
    var rest := c[..|c| - 1];
    if Sunk(v, e, M0, P0) { SunkMark(v, e, M, Pending(rest), b); }
    hide Waiting, StrictlyIncludes, Sunk, Pending, Downs, Primary, Preorder;
    forall t | t in rest + more ensures Waiting(v, S, e, t, false) && StrictlyIncludes(base, t.data) {
      if t in more { StrictChain(U, base, b.sub.data, t.data); } else { assert t in c; }
    }
  }

  lemma SinkDone(v: View, S: set<Subscription>, e: Event, M0: set<Indexed>, M: set<Indexed>, P0: set<Indexed>,
                 base: seq<Entry>)
    requires Sinking(v, S, e, M0, M, P0, base, [])
    ensures OnlyBelow(v, M0, M, base) && P0 <= M && (Sunk(v, e, M0, P0) ==> Sunk(v, e, M, {}))
  {
    hide Sunk, OnlyBelow;
    assert Pending([]) == {};
  }

  /** Every primary that b contains strictly is marked. */
  ghost predicate BelowMarked(v: View, M: set<Indexed>, b: Indexed) {
    forall q | q in v.all && Primary(v, q) && StrictlyIncludes(b.sub.data, q.sub.data) :: q in M
  }

  lemma SunkMarked(g: Graph?, v: View, N: set<Node>, S: set<Subscription>, U: iset<seq<Entry>>, e: Event,
                   M: set<Indexed>, b: Indexed)
    requires g != null && Ready(g, v, N, S, U, e) && b in v.all && b in v.prim && !Accepts(b.sub.data, e)
    requires Sunk(v, e, M, {}) && Downs(v, v.prim[b]) <= M
    ensures BelowMarked(v, M, b)
  {
    hide *;
    ContaineesBelow(g, v, N, S, U, e, b);
    FamilyOf(g, v, N, S, U, e);
    SoundFamily(g, v, N, S, U, e, b);
    var p := v.prim[b];
    forall q | q in v.all && Primary(v, q) && StrictlyIncludes(b.sub.data, q.sub.data) ensures q in M {
      ThroughStrict(U, p.sub.data, b.sub.data, q.sub.data);
      SunkBelow(v, U, e, M, p, q);
    }
    BelowMarkedIf(v, M, b);
  }

  lemma BelowMarkedIf(v: View, M: set<Indexed>, b: Indexed)
    requires forall q | q in v.all && Primary(v, q) && StrictlyIncludes(b.sub.data, q.sub.data) :: q in M
    ensures BelowMarked(v, M, b)
  {}

  lemma FamilyOf(g: Graph?, v: View, N: set<Node>, S: set<Subscription>, U: iset<seq<Entry>>, e: Event)
    requires g != null && Ready(g, v, N, S, U, e)
    ensures Preorder(U) && SoundOn(U) && UpsComplete(v) && FromFamily(v, U) && Coherent(v, e)
    ensures forall b | b in v.all :: b.sub.data in U
  {
    hide Preorder, SoundOn, UpsComplete, Coherent;
    forall b | b in v.all ensures b.sub.data in U { InStore(v, N, S, b); }
  }

  lemma InStore(v: View, N: set<Node>, S: set<Subscription>, b: Indexed)
    requires b in v.all && WiredAt(v, N, S, b)
    ensures b.sub in S
  {}

  lemma SoundFamily(g: Graph?, v: View, N: set<Node>, S: set<Subscription>, U: iset<seq<Entry>>, e: Event, b: Indexed)
    requires Ready(g, v, N, S, U, e) && b in v.all
    ensures b in v.prim && Primary(v, v.prim[b]) && Accepts(v.prim[b].sub.data, e) == Accepts(b.sub.data, e)
  {
    hide Wired, UpsComplete, Preorder, SoundOn, Accepts;
  }

  ghost predicate NoneMatch(M: set<Indexed>, W: set<Indexed>, e: Event) {
    forall q | q in W && q !in M :: !Accepts(q.sub.data, e)
  }

  lemma NoneMatchMore(M: set<Indexed>, W: set<Indexed>, e: Event, b: Indexed)
    ensures NoneMatch(M, M, e)
    ensures NoneMatch(M, W, e) && !Accepts(b.sub.data, e) ==> NoneMatch(M, W + {b}, e)
  {
    hide Accepts;
  }

  /** The containees of an entry that does not match do not match either: mark them,
    * and with them everything below the entry, but nothing else. */
  method PropagateDown(g: Graph, b: Indexed, matched: array<bool>, ghost log: seq<Indexed>, ghost whole: set<Indexed>,
                       ghost e: Event, ghost v: View, ghost N: set<Node>, ghost S: set<Subscription>,
                       ghost U: iset<seq<Entry>>)
    requires Ready(g, v, N, S, U, e) && b in v.all && b in v.prim && !Accepts(b.sub.data, e)
    requires Numbered(v.all, matched.Length) && b.sub.graphAttr is Node
    modifies matched
    ensures old(Marked(v.all, matched)) <= Marked(v.all, matched)
    ensures NoneMatch(old(Marked(v.all, matched)), Marked(v.all, matched), e)
    ensures OnlyBelow(v, old(Marked(v.all, matched)), Marked(v.all, matched), b.sub.data)
    ensures Sunk(v, e, old(Marked(v.all, matched)), Downs(v, v.prim[b])) ==>
      Sunk(v, e, Marked(v.all, matched), {}) && BelowMarked(v, Marked(v.all, matched), b)
    ensures Scanning(v, e, old(Marked(v.all, matched)), log) ==> Scanning(v, e, Marked(v.all, matched), log)
    ensures Finishing(v, e, old(Marked(v.all, matched)), log, whole) ==>
      Finishing(v, e, Marked(v.all, matched), log, whole)
  {
    hide *;
    ContaineesWait(g, v, N, S, U, e, b);
    ContaineesBelow(g, v, N, S, U, e, b);
    var c := g.Containees(b.sub, []);
    assert c == Subs((b.sub.graphAttr as Node).containees);
    ghost var base, P0 := b.sub.data, Downs(v, v.prim[b]);
    ghost var M0 := Marked(v.all, matched);
    ghost var M := M0;
    NoneMatchMore(M0, M0, e, b);
    SinkStart(v, S, e, M0, base, c);
    while c != []
      invariant M == Marked(v.all, matched) && M0 <= M && NoneMatch(M0, M, e)
      invariant Sinking(v, S, e, M0, M, P0, base, c)
      invariant Scanning(v, e, M0, log) ==> Scanning(v, e, M, log)
      invariant Finishing(v, e, M0, log, whole) ==> Finishing(v, e, M, log, whole)
      decreases v.all - M, |c|
    {
      SinkTop(v, S, e, M0, M, P0, base, c);
      var t, rest := c[|c| - 1], c[..|c| - 1];
      var bs := t.filterAttr as Indexed;
      MarkedMeans(v.all, matched, bs);
      if !matched[bs.id] {
        Mark(bs, matched, v.all);
        NodeKnown(g, v, N, S, U, e, bs);
        Discard(v, e, M, log, bs);
        DiscardLate(v, e, M, log, whole, bs);
        NoneMatchMore(M0, M, e, bs);
        SinkNext(g, v, N, S, U, e, M0, M, P0, base, c);
        M := M + {bs};
        c := g.Containees(t, rest);
      } else {
        SinkSkip(v, S, e, M0, M, P0, base, c);
        c := rest;
      }
    }
    SinkDone(v, S, e, M0, M, P0, base);
    if Sunk(v, e, M0, P0) { SunkMarked(g, v, N, S, U, e, M, b); }
  }

  // ---------------------------------------------------------------------------
  // One entry of a bit list, one entry of the default list
  // ---------------------------------------------------------------------------

  ghost predicate VariantOk(variant: int, g: Graph?) { WithContainment(variant) ==> g != null }

  /** Of the classes that match, what is marked was found on the bit lists or, with
    * positive propagation, above such; and then nothing above is missing. With
    * negative propagation nothing is missing below those that do not match. */
  ghost predicate BitState(v: View, e: Event, variant: int, M: set<Indexed>) {
    && Explained(v, e, Positive(variant), M)
    && (Positive(variant) ==> Closed(v, e, M, {}))
    && (WithContainment(variant) ==> Sunk(v, e, M, {}))
  }

  lemma BitStateMeans(v: View, e: Event, variant: int, M: set<Indexed>)
    ensures BitState(v, e, variant, M) <==>
      && Explained(v, e, Positive(variant), M)
      && (Positive(variant) ==> Closed(v, e, M, {}))
      && (WithContainment(variant) ==> Sunk(v, e, M, {}))
  {}

  /** Marking duplicates does not matter. */
  lemma BitStateMore(v: View, e: Event, variant: int, M: set<Indexed>, W: set<Indexed>)
    requires BitState(v, e, variant, M) && M <= W
    requires forall q | q in W && q !in M :: !Primary(v, q)
    ensures BitState(v, e, variant, W)
  {
    hide Accepts, Primary, Lifted, Downs;
  }

  /** Nor does marking entries that do not match, if nothing is missing below them. */
  lemma BitStateMiss(v: View, e: Event, variant: int, M: set<Indexed>, W: set<Indexed>)
    requires BitState(v, e, variant, M) && M <= W && (WithContainment(variant) ==> Sunk(v, e, W, {}))
    requires forall q | q in W && q !in M :: !Accepts(q.sub.data, e)
    ensures BitState(v, e, variant, W)
  {
    hide Accepts, Primary, Lifted, Sunk;
  }

  /** A matching primary with filter bits is marked with its class... */
  lemma BitStateHit(v: View, e: Event, variant: int, M: set<Indexed>, b: Indexed)
    requires BitState(v, e, variant, M) && Primary(v, b) && b.bits != {} && (Positive(variant) ==> b in v.ups)
    requires Accepts(b.sub.data, e)
    ensures Explained(v, e, Positive(variant), M + Members(v, b))
    ensures WithContainment(variant) ==> Sunk(v, e, M + Members(v, b), {})
    ensures
      if Positive(variant) then Closed(v, e, M + Members(v, b), v.ups[b])
      else BitState(v, e, variant, M + Members(v, b))
  {
    hide Accepts, Lifted, Downs;
    if Positive(variant) {
      assert {} + {b} == {b};
      ClosedAny(v, e, M, {b});
      ClosedMark(v, e, M, {}, b);
      assert {} + v.ups[b] == v.ups[b];
    }
  }

  lemma ClosedAny(v: View, e: Event, M: set<Indexed>, P: set<Indexed>)
    requires Closed(v, e, M, {})
    ensures Closed(v, e, M, P) && Closed(v, e, M, {} + P)
  {
    hide Accepts;
  }

  /** ... and then its containers are. */
  lemma BitStateUp(v: View, e: Event, variant: int, M: set<Indexed>, W: set<Indexed>, b: Indexed)
    requires Positive(variant) && M <= W
    requires Explained(v, e, true, M) && Closed(v, e, W, {}) && OnlyAbove(v, M, W, b.sub.data) && Sunk(v, e, M, {})
    requires b in v.all && Primary(v, b) && b.bits != {} && Accepts(b.sub.data, e)
    requires forall q | q in v.all && StrictlyIncludes(q.sub.data, b.sub.data) :: Accepts(q.sub.data, e)
    ensures BitState(v, e, variant, W)
  {
    hide Closed, Accepts, StrictlyIncludes, Downs;
    forall p | p in v.all && p in W && Primary(v, p) && Accepts(p.sub.data, e)
      ensures p.bits != {} || Lifted(v, e, p)
    {
    }
  }

  lemma AboveAccepts(g: Graph?, v: View, N: set<Node>, S: set<Subscription>, U: iset<seq<Entry>>, e: Event, b: Indexed)
    requires g != null && Ready(g, v, N, S, U, e) && b in v.all && Accepts(b.sub.data, e)
    ensures forall q | q in v.all && StrictlyIncludes(q.sub.data, b.sub.data) :: Accepts(q.sub.data, e)
  {
    FamilyOf(g, v, N, S, U, e);
    hide Accepts, Includes, Preorder, UpsComplete, Coherent, Ready;
    forall q | q in v.all && StrictlyIncludes(q.sub.data, b.sub.data) ensures Accepts(q.sub.data, e) {
      assert Sound(q.sub.data, b.sub.data);
    }
  }

  ghost predicate NoFalseNegatives(v: View, e: Event, filter: set<nat>) {
    forall b | b in v.all && Accepts(b.sub.data, e) :: b.bits <= filter
  }

  lemma OwnClass(v: View, e: Event, b: Indexed)
    requires Coherent(v, e) && b in v.all
    ensures v.prim[b] == b <==> Primary(v, b)
    ensures v.prim[b] != b ==> v.prim[b] in v.all
    ensures b.bits != {} ==> Owed(v, b) == Members(v, b)
    ensures Members(v, b) <= v.all
    ensures Primary(v, b) ==> b in Members(v, b)
  {}

  lemma Skipped(v: View, filter: set<nat>, M: set<Indexed>, W: set<Indexed>, b: Indexed)
    requires b.bits != {} && forall q | q in W && q !in M :: q == b && !Primary(v, q)
    ensures forall q | q in W && q !in M :: !Eligible(v, filter, q) && !Primary(v, q)
  {
    hide Primary;
  }

  method BitEntry(g: Graph?, variant: int, b: Indexed, filter: set<nat>, e: Event, out: seq<Subscription>,
                  matched: array<bool>,
                  ghost log: seq<Indexed>, ghost v: View, ghost N: set<Node>, ghost S: set<Subscription>,
                  ghost U: iset<seq<Entry>>)
    returns (r: seq<Subscription>, match': int, test: int, ghost l: seq<Indexed>, ghost d: seq<Indexed>)
    requires Ready(g, v, N, S, U, e) && VariantOk(variant, g) && NoFalseNegatives(v, e, filter)
    requires Numbered(v.all, matched.Length) && out == SubsOf(log) && b in v.all && b.bits * filter != {}
    requires Scanning(v, e, Marked(v.all, matched), log) && BitState(v, e, variant, Marked(v.all, matched))
    modifies matched
    ensures Scanning(v, e, Marked(v.all, matched), l) && r == SubsOf(l) && |l| == |log| + match'
    ensures BitState(v, e, variant, Marked(v.all, matched))
    ensures old(Marked(v.all, matched)) + {b} <= Marked(v.all, matched)
    ensures test == |d| && Tried(v, e, variant, filter, old(Marked(v.all, matched)), Marked(v.all, matched), d)
  {
    hide *;
    r, match', test, l, d := out, 0, 0, log, [];
    ghost var M0 := Marked(v.all, matched);
    SkipDuplicate(g, b, matched, log, e, v, N, S, U);
    MarkedMeans(v.all, matched, b);
    ghost var M := Marked(v.all, matched);
    Skipped(v, filter, M0, M, b);
    BitStateMore(v, e, variant, M0, M);
    TriedNone(v, e, variant, filter, M0, M);
    if !matched[b.id] {
      r, match', test, l := TestPrimary(g, variant, b, filter, e, out, matched, log, v, N, S, U);
      d := if b.bits <= filter then [b] else [];
      TriedOne(v, e, variant, filter, M, Marked(v.all, matched), b);
      TriedJoin(v, e, variant, filter, M0, M, Marked(v.all, matched), [], d);
      assert [] + d == d;
    }
  }

  lemma NotFewer(A: set<Indexed>, B: set<Indexed>)
    requires A <= B
    ensures |A| <= |B|
  {
    assert B == A + (B - A);
  }

  lemma VariantMeans(variant: int, g: Graph?)
    requires VariantOk(variant, g)
    ensures WithContainment(variant) ==> g != null
    ensures variant == ALL_CONTAINMENT_NP ==> g != null && WithContainment(variant)
    ensures Positive(variant) <==> variant == ALL_CONTAINMENT_NP
  {}

  /** A duplicate is not tested: with a graph, an entry that is not the primary of its class is marked. */
  method SkipDuplicate(g: Graph?, b: Indexed, matched: array<bool>, ghost log: seq<Indexed>,
                       ghost e: Event, ghost v: View, ghost N: set<Node>, ghost S: set<Subscription>,
                       ghost U: iset<seq<Entry>>)
    requires Ready(g, v, N, S, U, e) && Numbered(v.all, matched.Length) && b in v.all && b.bits != {}
    requires Scanning(v, e, Marked(v.all, matched), log)
    modifies matched
    ensures Scanning(v, e, Marked(v.all, matched), log) && old(Marked(v.all, matched)) <= Marked(v.all, matched)
    ensures forall q | q in Marked(v.all, matched) && q !in old(Marked(v.all, matched)) :: q == b && !Primary(v, q)
    ensures b !in Marked(v.all, matched) ==> Primary(v, b)
  {
    hide *;
    ReadyMeans(g, v, N, S, U, e, b);
    OwnClass(v, e, b);
    if g != null {
      NodeKnown(g, v, N, S, U, e, b);
      var p := g.Primary(b.sub);
      if p != b.sub {
        Skip(v, e, Marked(v.all, matched), log, b);
        Mark(b, matched, v.all);
      }
    }
  }

  lemma ReadyMeans(g: Graph?, v: View, N: set<Node>, S: set<Subscription>, U: iset<seq<Entry>>, e: Event, b: Indexed)
    requires Ready(g, v, N, S, U, e) && b in v.all
    ensures Coherent(v, e) && b in v.prim && (g == null ==> v.prim[b] == b)
    ensures g != null ==> v.ups.Keys == v.all
  {}

  /** Test an unmarked primary, and propagate the answer as the variant asks for. */
  method TestPrimary(g: Graph?, variant: int, b: Indexed, filter: set<nat>, e: Event, out: seq<Subscription>,
                     matched: array<bool>,
                     ghost log: seq<Indexed>, ghost v: View, ghost N: set<Node>, ghost S: set<Subscription>,
                     ghost U: iset<seq<Entry>>)
    returns (r: seq<Subscription>, match': int, test: int, ghost l: seq<Indexed>)
    requires Ready(g, v, N, S, U, e) && VariantOk(variant, g) && NoFalseNegatives(v, e, filter)
    requires Numbered(v.all, matched.Length) && out == SubsOf(log) && Primary(v, b) && b in v.all
    requires b.bits * filter != {}
    requires Scanning(v, e, Marked(v.all, matched), log) && b !in Marked(v.all, matched)
    requires BitState(v, e, variant, Marked(v.all, matched))
    modifies matched
    ensures test == if b.bits <= filter then 1 else 0
    ensures Scanning(v, e, Marked(v.all, matched), l) && r == SubsOf(l) && |l| == |log| + match'
    ensures BitState(v, e, variant, Marked(v.all, matched))
    ensures old(Marked(v.all, matched)) + {b} <= Marked(v.all, matched)
    ensures Settles(v, e, variant, Marked(v.all, matched), b)
    ensures Justified(v, e, variant, filter, old(Marked(v.all, matched)), Marked(v.all, matched), b)
  {
    hide *;
    ReadyMeans(g, v, N, S, U, e, b);
    VariantMeans(variant, g);
    ghost var M0 := Marked(v.all, matched);
    BitStateMeans(v, e, variant, M0);
    var m;
    r, match', test, m, l := TestFilter(g, b, filter, e, out, matched, log, v, N, S, U);
    ghost var M := Marked(v.all, matched);
    if m {
      PrimaryIn(v, b);
      OwnClass(v, e, b);
      BitStateHit(v, e, variant, M0, b);
      if variant == ALL_CONTAINMENT_NP {
        NodeKnown(g, v, N, S, U, e, b);
        var n;
        r, n, l := PropagateUp(g, b, r, matched, l, e, v, N, S, U);
        match' := match' + n;
        AboveAccepts(g, v, N, S, U, e, b);
        BitStateUp(v, e, variant, M, Marked(v.all, matched), b);
        BitStateMeans(v, e, variant, Marked(v.all, matched));
        HitSettles(g, v, N, S, U, e, variant, Marked(v.all, matched), b);
      } else {
        HitPlain(v, e, variant, M, b);
      }
      HitJustified(v, e, variant, filter, M0, M, Marked(v.all, matched), b);
    } else {
      if WithContainment(variant) {
        NodeKnown(g, v, N, S, U, e, b);
        SunkFrom(v, e, M0, b);
        PropagateDown(g, b, matched, l, {}, e, v, N, S, U);
        NoneMatchMeans(M, Marked(v.all, matched), e);
      }
      BitStateMiss(v, e, variant, M0, Marked(v.all, matched));
      MissSettles(v, e, variant, Marked(v.all, matched), b);
      MetMeans(filter, b);
      MissJustified(v, e, variant, filter, M0, M, Marked(v.all, matched), b);
    }
  }

  /** An entry that does not match is marked: its containees are pending. */
  lemma SunkFrom(v: View, e: Event, M: set<Indexed>, b: Indexed)
    requires Sunk(v, e, M, {}) && b in v.prim
    ensures Sunk(v, e, M + {b}, Downs(v, v.prim[b]))
  {
    hide Accepts, Downs;
  }

  lemma HitSettles(g: Graph?, v: View, N: set<Node>, S: set<Subscription>, U: iset<seq<Entry>>, e: Event, variant: int,
                   M: set<Indexed>, b: Indexed)
    requires g != null && Ready(g, v, N, S, U, e) && Closed(v, e, M, {}) && b in M && b in v.all && Primary(v, b)
    requires Accepts(b.sub.data, e)
    ensures Settles(v, e, variant, M, b)
  {
    hide *;
    FamilyOf(g, v, N, S, U, e);
    forall q | q in v.all && Primary(v, q) && Spares(e, variant, b, q) ensures q in M {
      SparesMeans(e, variant, b, q);
      ClosedUp(v, U, e, M, q, b);
    }
    SettlesIf(v, e, variant, M, b);
  }

  lemma SparesMeans(e: Event, variant: int, a: Indexed, b: Indexed)
    ensures Spares(e, variant, a, b) <==>
      if Accepts(a.sub.data, e) then Positive(variant) && StrictlyIncludes(b.sub.data, a.sub.data)
      else WithContainment(variant) && StrictlyIncludes(a.sub.data, b.sub.data)
  {}

  lemma SettlesIf(v: View, e: Event, variant: int, M: set<Indexed>, b: Indexed)
    requires forall q | q in v.all && Primary(v, q) && Spares(e, variant, b, q) :: q in M
    ensures Settles(v, e, variant, M, b)
  {}

  /** Without positive propagation a match spares nothing. */
  lemma HitPlain(v: View, e: Event, variant: int, M: set<Indexed>, b: Indexed)
    requires !Positive(variant) && Accepts(b.sub.data, e)
    ensures Settles(v, e, variant, M, b)
  {}

  lemma MissSettles(v: View, e: Event, variant: int, M: set<Indexed>, b: Indexed)
    requires !Accepts(b.sub.data, e) && (WithContainment(variant) ==> BelowMarked(v, M, b))
    ensures Settles(v, e, variant, M, b)
  {
    hide StrictlyIncludes, Accepts;
  }

  /** What is marked with a match belongs to its class, or to classes above it. */
  lemma HitJustified(v: View, e: Event, variant: int, filter: set<nat>, M0: set<Indexed>, M: set<Indexed>,
                     W: set<Indexed>, b: Indexed)
    requires Coherent(v, e) && Primary(v, b) && b.bits != {} && Accepts(b.sub.data, e) && M == M0 + Members(v, b)
    requires if Positive(variant) then OnlyAbove(v, M, W, b.sub.data) else W == M
    ensures Justified(v, e, variant, filter, M0, W, b)
  {
    hide Accepts, StrictlyIncludes, Eligible;
    forall x | x in W && x !in M0 && x != b ensures Excused(v, e, variant, filter, x) {
      if x !in M { assert Lifted(v, e, v.prim[x]); }
    }
  }

  /** What is marked with a miss is below it. */
  lemma MissJustified(v: View, e: Event, variant: int, filter: set<nat>, M0: set<Indexed>, M: set<Indexed>,
                      W: set<Indexed>, b: Indexed)
    requires Coherent(v, e) && b in v.all && !Accepts(b.sub.data, e) && Met(filter, b) && M == M0 + {b}
    requires if WithContainment(variant) then OnlyBelow(v, M, W, b.sub.data) else W == M
    ensures Justified(v, e, variant, filter, M0, W, b)
  {
    hide Accepts, StrictlyIncludes, Eligible;
    forall x | x in W && x !in M0 && x != b ensures Excused(v, e, variant, filter, x) {
      assert Spares(e, variant, b, x);
    }
  }

  lemma NoneMatchMeans(M: set<Indexed>, W: set<Indexed>, e: Event)
    ensures NoneMatch(M, W, e) <==> forall q | q in W && q !in M :: !Accepts(q.sub.data, e)
  {}

  /** First the filter, then, if that passes, the subscription. */
  method TestFilter(g: Graph?, b: Indexed, filter: set<nat>, e: Event, out: seq<Subscription>, matched: array<bool>,
                    ghost log: seq<Indexed>, ghost v: View, ghost N: set<Node>, ghost S: set<Subscription>,
                    ghost U: iset<seq<Entry>>)
    returns (r: seq<Subscription>, match': int, test: int, m: bool, ghost l: seq<Indexed>)
    requires Ready(g, v, N, S, U, e) && NoFalseNegatives(v, e, filter)
    requires Numbered(v.all, matched.Length) && out == SubsOf(log) && Primary(v, b) && b in v.all && b.bits != {}
    requires Scanning(v, e, Marked(v.all, matched), log) && b !in Marked(v.all, matched)
    modifies matched
    ensures m == Accepts(b.sub.data, e) && test == if b.bits <= filter then 1 else 0
    ensures Scanning(v, e, Marked(v.all, matched), l) && r == SubsOf(l) && |l| == |log| + match'
    ensures Marked(v.all, matched) == old(Marked(v.all, matched)) + if m then Members(v, b) else {b}
    ensures b in Marked(v.all, matched)
  {
    hide *;
    ReadyMeans(g, v, N, S, U, e, b);
    OwnClass(v, e, b);
    Excluded(v, e, filter, b);
    r, match', test, m, l := out, 0, 0, false, log;
    ghost var M := Marked(v.all, matched);
    if b.bits <= filter {
      test := 1;
      m := b.sub.Matches(e);
      if m {
        r, match' := ReportAndMark(g, b, out, matched, log, e, v, N, S, U);
        l := log + Repeat(b, match');
        ReportClass(v, e, M, log, b, match');
        RepeatOnly(b, match');
      }
    }
    if !m {
      Discard(v, e, M, log, b);
      Mark(b, matched, v.all);
    }
  }

  lemma Excluded(v: View, e: Event, filter: set<nat>, b: Indexed)
    requires NoFalseNegatives(v, e, filter) && b in v.all
    ensures Accepts(b.sub.data, e) ==> b.bits <= filter
  {}

  ghost predicate ContainersQuiet(b: Indexed, M: set<Indexed>)
    reads b.sub, b.sub.graphAttr
    reads if b.sub.graphAttr is Node then Subs((b.sub.graphAttr as Node).containers) else []
  {
    b.sub.graphAttr is Node && AllQuiet(Subs((b.sub.graphAttr as Node).containers), M)
  }

  lemma ContainersQuietMeans(b: Indexed, M: set<Indexed>)
    ensures ContainersQuiet(b, M) <==>
      b.sub.graphAttr is Node && AllQuiet(Subs((b.sub.graphAttr as Node).containers), M)
  {}

  lemma StillQuiet(variant: int, b: Indexed, c: seq<Subscription>, M: set<Indexed>)
    requires b.sub.graphAttr is Node ==> Subs((b.sub.graphAttr as Node).containers) == c
    requires variant == ALL_CONTAINMENT_NP ==> b.sub.graphAttr is Node && AllQuiet(c, M)
    ensures variant == ALL_CONTAINMENT_NP ==> ContainersQuiet(b, M)
  {
    ContainersQuietMeans(b, M);
  }

  method DefaultEntry(g: Graph?, variant: int, b: Indexed, e: Event, out: seq<Subscription>, matched: array<bool>,
                      ghost log: seq<Indexed>, ghost whole: set<Indexed>, ghost filter: set<nat>,
                      ghost v: View, ghost N: set<Node>, ghost S: set<Subscription>, ghost U: iset<seq<Entry>>)
    returns (r: seq<Subscription>, match': int, test: int, ghost l: seq<Indexed>, ghost d: seq<Indexed>)
    requires Ready(g, v, N, S, U, e) && VariantOk(variant, g)
    requires Numbered(v.all, matched.Length) && out == SubsOf(log) && b in v.all && b.bits == {}
    requires Finishing(v, e, Marked(v.all, matched), log, whole)
    requires variant == ALL_CONTAINMENT_NP && Accepts(b.sub.data, e) ==> ContainersQuiet(b, Marked(v.all, matched))
    requires Accepts(b.sub.data, e) ==> Settles(v, e, variant, Marked(v.all, matched), b)
    requires WithContainment(variant) ==> Sunk(v, e, Marked(v.all, matched), {})
    modifies matched
    ensures Finishing(v, e, Marked(v.all, matched), l, whole) && r == SubsOf(l) && |l| == |log| + match'
    ensures l == log + Kept(d, e)
    ensures WithContainment(variant) ==> Sunk(v, e, Marked(v.all, matched), {})
    ensures old(Marked(v.all, matched)) + {b} <= Marked(v.all, matched)
    ensures forall x | x in d :: x in v.all && x.bits == {}
    ensures test == |d| && Tried(v, e, variant, filter, old(Marked(v.all, matched)), Marked(v.all, matched), d)
  {
    hide *;
    KeptOne(b, e);
    r, match', test, l, d := out, 0, 0, log, [];
    ghost var M := Marked(v.all, matched);
    MarkedMeans(v.all, matched, b);
    ReadyMeans(g, v, N, S, U, e, b);
    TriedNone(v, e, variant, filter, M, M);
    if !matched[b.id] {
      test, d := 1, [b];
      r, match', l := DefaultTest(g, variant, b, e, out, matched, log, whole, filter, v, N, S, U);
      TriedOne(v, e, variant, filter, M, Marked(v.all, matched), b);
    }
  }

  lemma KeptOne(b: Indexed, e: Event)
    ensures Kept([], e) == [] && Kept([b], e) == if Accepts(b.sub.data, e) then [b] else []
  {
    hide Accepts;
    assert [b][..0] == [];
  }

  /** An unmarked entry of the default list is marked and tested. */
  method DefaultTest(g: Graph?, variant: int, b: Indexed, e: Event, out: seq<Subscription>, matched: array<bool>,
                     ghost log: seq<Indexed>, ghost whole: set<Indexed>, ghost filter: set<nat>,
                     ghost v: View, ghost N: set<Node>, ghost S: set<Subscription>, ghost U: iset<seq<Entry>>)
    returns (r: seq<Subscription>, match': int, ghost l: seq<Indexed>)
    requires Ready(g, v, N, S, U, e) && VariantOk(variant, g)
    requires Numbered(v.all, matched.Length) && out == SubsOf(log) && b in v.all && b.bits == {}
    requires Finishing(v, e, Marked(v.all, matched), log, whole) && b !in Marked(v.all, matched)
    requires variant == ALL_CONTAINMENT_NP && Accepts(b.sub.data, e) ==> ContainersQuiet(b, Marked(v.all, matched))
    requires Accepts(b.sub.data, e) ==> Settles(v, e, variant, Marked(v.all, matched), b)
    requires WithContainment(variant) ==> Sunk(v, e, Marked(v.all, matched), {})
    modifies matched
    ensures Finishing(v, e, Marked(v.all, matched), l, whole) && r == SubsOf(l) && |l| == |log| + match'
    ensures WithContainment(variant) ==> Sunk(v, e, Marked(v.all, matched), {})
    ensures old(Marked(v.all, matched)) + {b} <= Marked(v.all, matched)
    ensures l == log + if Accepts(b.sub.data, e) then [b] else []
    ensures Settles(v, e, variant, Marked(v.all, matched), b)
    ensures Justified(v, e, variant, filter, old(Marked(v.all, matched)), Marked(v.all, matched), b)
  {
    hide *;
    r, match', l := out, 0, log;
    ghost var M := Marked(v.all, matched);
    ContainersQuietMeans(b, M);
    ghost var c := if b.sub.graphAttr is Node then Subs((b.sub.graphAttr as Node).containers) else [];
    Mark(b, matched, v.all);
    var m := b.sub.Matches(e);
    if m {
      StillQuiet(variant, b, c, M);
      r, match', l := DefaultHit(g, variant, b, e, out, matched, log, M, whole, v, N, S, U);
      HitMarked(v, e, variant, filter, M, b);
    } else {
      DefaultMiss(g, variant, b, e, matched, log, M, whole, filter, v, N, S, U);
    }
  }

  /** A match on the default list marks only itself. */
  lemma HitMarked(v: View, e: Event, variant: int, filter: set<nat>, M: set<Indexed>, b: Indexed)
    requires Accepts(b.sub.data, e) && Settles(v, e, variant, M, b)
    ensures Settles(v, e, variant, M + {b}, b) && Justified(v, e, variant, filter, M, M + {b}, b)
    ensures Sunk(v, e, M, {}) ==> Sunk(v, e, M + {b}, {})
  {
    hide Accepts, Spares, Primary, Downs;
  }

  /** A matching entry of the default list, just marked, reports itself; propagating that reports nothing. */
  method DefaultHit(g: Graph?, variant: int, b: Indexed, ghost e: Event, out: seq<Subscription>, matched: array<bool>,
                    ghost log: seq<Indexed>, ghost M: set<Indexed>, ghost whole: set<Indexed>,
                    ghost v: View, ghost N: set<Node>, ghost S: set<Subscription>, ghost U: iset<seq<Entry>>)
    returns (r: seq<Subscription>, match': int, ghost l: seq<Indexed>)
    requires Ready(g, v, N, S, U, e) && VariantOk(variant, g)
    requires Numbered(v.all, matched.Length) && out == SubsOf(log) && b in v.all && b.bits == {}
    requires Accepts(b.sub.data, e)
    requires Finishing(v, e, M, log, whole) && b !in M && Marked(v.all, matched) == M + {b}
    requires variant == ALL_CONTAINMENT_NP ==> ContainersQuiet(b, M)
    modifies matched
    ensures Finishing(v, e, Marked(v.all, matched), l, whole) && r == SubsOf(l) && |l| == |log| + match'
    ensures Marked(v.all, matched) == M + {b} && l == log + [b]
  {
    hide *;
    ReadyMeans(g, v, N, S, U, e, b);
    VariantMeans(variant, g);
    ContainersQuietMeans(b, M);
    ReportSelf(v, e, M, log, whole, b);
    SubsStep(log, b);
    r, match', l := out + [b.sub], 1, log + [b];
    if variant == ALL_CONTAINMENT_NP {
      QuietGrows(Subs((b.sub.graphAttr as Node).containers), M, M + {b});
      ContainersAbove(g, v, N, S, U, e, b);
      var n;
      r, n, l := PropagateUp(g, b, r, matched, l, e, v, N, S, U);
      match' := match' + n;
    }
  }

  method DefaultMiss(g: Graph?, variant: int, b: Indexed, ghost e: Event, matched: array<bool>,
                     ghost log: seq<Indexed>, ghost M: set<Indexed>, ghost whole: set<Indexed>,
                     ghost filter: set<nat>,
                     ghost v: View, ghost N: set<Node>, ghost S: set<Subscription>, ghost U: iset<seq<Entry>>)
    requires Ready(g, v, N, S, U, e) && VariantOk(variant, g) && Numbered(v.all, matched.Length) && b in v.all
    requires !Accepts(b.sub.data, e) && b.bits == {} && (WithContainment(variant) ==> Sunk(v, e, M, {}))
    requires Finishing(v, e, M, log, whole) && Marked(v.all, matched) == M + {b}
    modifies matched
    ensures Finishing(v, e, Marked(v.all, matched), log, whole) && M + {b} <= Marked(v.all, matched)
    ensures WithContainment(variant) ==> Sunk(v, e, Marked(v.all, matched), {})
    ensures Settles(v, e, variant, Marked(v.all, matched), b)
    ensures Justified(v, e, variant, filter, M, Marked(v.all, matched), b)
  {
    hide *;
    ReadyMeans(g, v, N, S, U, e, b);
    VariantMeans(variant, g);
    DiscardLate(v, e, M, log, whole, b);
    if WithContainment(variant) {
      NodeKnown(g, v, N, S, U, e, b);
      SunkFrom(v, e, M, b);
      PropagateDown(g, b, matched, log, whole, e, v, N, S, U);
    }
    MissSettles(v, e, variant, Marked(v.all, matched), b);
    MetMeans(filter, b);
    MissJustified(v, e, variant, filter, M, M + {b}, Marked(v.all, matched), b);
  }

  lemma MetMeans(filter: set<nat>, b: Indexed)
    ensures b.bits == {} || b.bits * filter != {} ==> Met(filter, b)
  {}

  lemma SubsStep(log: seq<Indexed>, b: Indexed)
    ensures SubsOf(log + [b]) == SubsOf(log) + [b.sub]
  {
    assert (log + [b])[..|log|] == log;
  }

  lemma QuietGrows(c: seq<Subscription>, M: set<Indexed>, W: set<Indexed>)
    requires AllQuiet(c, M) && M <= W
    ensures AllQuiet(c, W)
  {
    forall t | t in c ensures Quiet(t, W) { assert Quiet(t, M); }
  }

  // ---------------------------------------------------------------------------
  // The scans of the lists
  // ---------------------------------------------------------------------------

  ghost function On(all: set<Indexed>, k: nat): set<Indexed> { set b | b in all && k in b.bits }
  ghost function OnDefault(all: set<Indexed>): set<Indexed> { set b | b in all && b.bits == {} }

  /** Every entry is on the lists of its filter bits, or on the default list if it has none, once each. */
  ghost predicate Filed(f: Setup, all: set<Indexed>, lists: seq<seq<Indexed>>) {
    && |lists| == f.size + 1
    && (forall k | 0 <= k < f.size :: Lists(lists[k], On(all, k)))
    && Lists(lists[f.size], OnDefault(all))
  }

  /** Every entry has the filter its variant asks for. */
  ghost predicate Hashed(f: Setup, variant: int, all: set<Indexed>)
    requires f.Ok()
  {
    forall b | b in all :: Filters(f, variant == ONE_NO_CONTAINMENT, b.sub.data, b.bits)
  }

  /** What follows for scanning the lists. */
  ghost predicate Filtered(f: Setup, all: set<Indexed>)
    requires f.Ok()
  {
    forall b | b in all :: Indexes(f, b.sub.data, b.bits) && forall k | k in b.bits :: k < f.size
  }

  /** The entries on the lists of the first bits of the event. */
  ghost function Reached(all: set<Indexed>, filter: set<nat>, bit: nat): set<Indexed> {
    set b, k | b in all && k in b.bits && k in filter && k < bit :: b
  }

  lemma ReachedStep(all: set<Indexed>, filter: set<nat>, bit: nat)
    ensures Reached(all, filter, bit + 1) == Reached(all, filter, bit) + (if bit in filter then On(all, bit) else {})
  {
    forall b | b in all ensures b in Reached(all, filter, bit + 1) <==>
      b in Reached(all, filter, bit) || (bit in filter && b in On(all, bit))
    {
      if k :| k in b.bits && k in filter && k < bit + 1 { assert k < bit || k == bit; }
    }
  }

  method ScanBitList(g: Graph?, variant: int, list: seq<Indexed>, filter: set<nat>, e: Event, out: seq<Subscription>,
                     matched: array<bool>,
                     ghost log: seq<Indexed>, ghost v: View, ghost N: set<Node>, ghost S: set<Subscription>,
                     ghost U: iset<seq<Entry>>)
    returns (r: seq<Subscription>, match': int, test: int, ghost l: seq<Indexed>, ghost d: seq<Indexed>)
    requires Ready(g, v, N, S, U, e) && VariantOk(variant, g) && NoFalseNegatives(v, e, filter)
    requires Numbered(v.all, matched.Length) && out == SubsOf(log)
    requires forall b | b in list :: b in v.all && b.bits * filter != {}
    requires Scanning(v, e, Marked(v.all, matched), log) && BitState(v, e, variant, Marked(v.all, matched))
    modifies matched
    ensures BitState(v, e, variant, Marked(v.all, matched))
    ensures Scanning(v, e, Marked(v.all, matched), l) && r == SubsOf(l) && |l| == |log| + match'
    ensures old(Marked(v.all, matched)) + (set b | b in list) <= Marked(v.all, matched)
    ensures test == |d| && Tried(v, e, variant, filter, old(Marked(v.all, matched)), Marked(v.all, matched), d)
  {
    hide *;
    r, match', test, l, d := out, 0, 0, log, [];
    ghost var M0 := Marked(v.all, matched);
    TriedNone(v, e, variant, filter, M0, M0);
    var i := 0;
    while i < |list|
      invariant i <= |list|
      invariant BitState(v, e, variant, Marked(v.all, matched))
      invariant Scanning(v, e, Marked(v.all, matched), l) && r == SubsOf(l) && |l| == |log| + match'
      invariant M0 + (set b | b in list[..i]) <= Marked(v.all, matched)
      invariant test == |d| && Tried(v, e, variant, filter, M0, Marked(v.all, matched), d)
    {
      var m, t;
      ghost var M, c := Marked(v.all, matched), [];
      r, m, t, l, c := BitEntry(g, variant, list[i], filter, e, r, matched, l, v, N, S, U);
      TriedJoin(v, e, variant, filter, M0, M, Marked(v.all, matched), d, c);
      match', test, d := match' + m, test + t, d + c;
      assert list[..i + 1] == list[..i] + [list[i]];
      i := i + 1;
    }
    assert list[..i] == list;
  }

  method ScanBits(g: Graph?, variant: int, f: Setup, lists: array<seq<Indexed>>, filter: set<nat>, e: Event,
                  matched: array<bool>,
                  ghost v: View, ghost N: set<Node>, ghost S: set<Subscription>, ghost U: iset<seq<Entry>>)
    returns (r: seq<Subscription>, match': int, test: int, ghost l: seq<Indexed>, ghost d: seq<Indexed>)
    requires Ready(g, v, N, S, U, e) && VariantOk(variant, g) && NoFalseNegatives(v, e, filter)
    requires lists.Length == f.size + 1 && Filed(f, v.all, lists[..]) && Numbered(v.all, matched.Length)
    requires Scanning(v, e, Marked(v.all, matched), []) && BitState(v, e, variant, Marked(v.all, matched))
    modifies matched
    ensures BitState(v, e, variant, Marked(v.all, matched))
    ensures Scanning(v, e, Marked(v.all, matched), l) && r == SubsOf(l) && |l| == match'
    ensures Reached(v.all, filter, f.size) <= Marked(v.all, matched)
    ensures test == |d| && Tried(v, e, variant, filter, old(Marked(v.all, matched)), Marked(v.all, matched), d)
  {
    hide *;
    r, match', test, l, d := [], 0, 0, [], [];
    ghost var M0 := Marked(v.all, matched);
    TriedNone(v, e, variant, filter, M0, M0);
    NothingReached(v.all, filter);
    var c := |filter|;
    var bit := 0;
    while bit < f.size && c > 0
      invariant bit <= f.size && c == |filter|
      invariant BitState(v, e, variant, Marked(v.all, matched))
      invariant Scanning(v, e, Marked(v.all, matched), l) && r == SubsOf(l) && |l| == match'
      invariant Reached(v.all, filter, bit) <= Marked(v.all, matched)
      invariant test == |d| && Tried(v, e, variant, filter, M0, Marked(v.all, matched), d)
    {
      ReachedStep(v.all, filter, bit);
      if bit in filter {
        BitListed(f, v.all, lists[..], filter, bit);
        var m, t;
        ghost var M, k := Marked(v.all, matched), [];
        r, m, t, l, k := ScanBitList(g, variant, lists[bit], filter, e, r, matched, l, v, N, S, U);
        TriedJoin(v, e, variant, filter, M0, M, Marked(v.all, matched), d, k);
        match', test, d := match' + m, test + t, d + k;
      }
      bit := bit + 1;
    }
    if c == 0 { NoneReached(v.all, filter, f.size); }
  }

  lemma NothingReached(all: set<Indexed>, filter: set<nat>)
    ensures Reached(all, filter, 0) == {} && SubsOf([]) == []
  {}

  lemma NoneReached(all: set<Indexed>, filter: set<nat>, bit: nat)
    requires |filter| == 0
    ensures Reached(all, filter, bit) == {}
  {
    assert filter == {};
  }

  lemma BitListed(f: Setup, all: set<Indexed>, lists: seq<seq<Indexed>>, filter: set<nat>, bit: nat)
    requires Filed(f, all, lists) && bit < f.size && bit in filter
    ensures |lists| == f.size + 1 && (set b | b in lists[bit]) == On(all, bit)
    ensures forall b | b in lists[bit] :: b in all && b.bits * filter != {}
  {
    assert Lists(lists[bit], On(all, bit));
    forall b | b in lists[bit] ensures b in all && b.bits * filter != {} { assert bit in b.bits * filter; }
  }

  method ScanDefault(g: Graph?, variant: int, list: seq<Indexed>, e: Event, out: seq<Subscription>,
                     matched: array<bool>,
                     ghost log: seq<Indexed>, ghost whole: set<Indexed>, ghost filter: set<nat>,
                     ghost v: View, ghost N: set<Node>,
                     ghost S: set<Subscription>, ghost U: iset<seq<Entry>>)
    returns (r: seq<Subscription>, match': int, test: int, ghost l: seq<Indexed>, ghost d: seq<Indexed>)
    requires Ready(g, v, N, S, U, e) && VariantOk(variant, g)
    requires Lists(list, OnDefault(v.all)) && Numbered(v.all, matched.Length) && out == SubsOf(log)
    requires variant == ALL_CONTAINMENT_NP ==> ContainersFirst(list) && Preorder(U)
    requires Finishing(v, e, Marked(v.all, matched), log, whole) && BitsMarked(v, e, Marked(v.all, matched))
    requires WithContainment(variant) ==> Sunk(v, e, Marked(v.all, matched), {})
    modifies matched
    ensures Finishing(v, e, Marked(v.all, matched), l, whole) && r == SubsOf(l) && |l| == |log| + match'
    ensures OnDefault(v.all) <= Marked(v.all, matched) && l == log + Kept(d, e)
    ensures forall x | x in d :: x in v.all && x.bits == {}
    ensures test == |d| && Tried(v, e, variant, filter, old(Marked(v.all, matched)), Marked(v.all, matched), d)
  {
    hide *;
    r, match', test, l, d := out, 0, 0, log, [];
    ghost var M0 := Marked(v.all, matched);
    TriedNone(v, e, variant, filter, M0, M0);
    DefaultListed(v.all, list);
    KeptNone(e);
    var i := 0;
    while i < |list|
      invariant i <= |list|
      invariant Finishing(v, e, Marked(v.all, matched), l, whole) && r == SubsOf(l) && |l| == |log| + match'
      invariant (set b | b in list[..i]) <= Marked(v.all, matched) && M0 <= Marked(v.all, matched)
      invariant l == log + Kept(d, e)
      invariant WithContainment(variant) ==> Sunk(v, e, Marked(v.all, matched), {})
      invariant forall x | x in d :: x in v.all && x.bits == {}
      invariant test == |d| && Tried(v, e, variant, filter, M0, Marked(v.all, matched), d)
    {
      VariantMeans(variant, g);
      if variant == ALL_CONTAINMENT_NP && Accepts(list[i].sub.data, e) {
        BitsStayMarked(v, e, M0, Marked(v.all, matched));
        ContainersSettled(g, list, i, v, N, S, U, e, Marked(v.all, matched));
        AboveSettled(g, variant, list, i, v, N, S, U, e, Marked(v.all, matched));
      } else if Accepts(list[i].sub.data, e) {
        HitPlain(v, e, variant, Marked(v.all, matched), list[i]);
      }
      var m, t;
      ghost var M, c := Marked(v.all, matched), [];
      r, m, t, l, c := DefaultEntry(g, variant, list[i], e, r, matched, l, whole, filter, v, N, S, U);
      TriedJoin(v, e, variant, filter, M0, M, Marked(v.all, matched), d, c);
      KeptJoin(d, c, e);
      assert log + Kept(d, e) + Kept(c, e) == log + (Kept(d, e) + Kept(c, e));
      match', test, d := match' + m, test + t, d + c;
      assert list[..i + 1] == list[..i] + [list[i]];
      i := i + 1;
    }
    assert list[..i] == list;
  }

  lemma KeptNone(e: Event)
    ensures Kept([], e) == []
  {}

  lemma DefaultListed(all: set<Indexed>, list: seq<Indexed>)
    requires Lists(list, OnDefault(all))
    ensures (set b | b in list) == OnDefault(all)
    ensures forall i | 0 <= i < |list| :: list[i] in all && list[i].bits == {}
  {
    forall i | 0 <= i < |list| ensures list[i] in OnDefault(all) { assert list[i] in list; }
  }

  /** Every matching entry with filter bits is settled. */
  ghost predicate BitsMarked(v: View, e: Event, M: set<Indexed>) {
    forall b | b in v.all && b.bits != {} && Accepts(b.sub.data, e) :: b in M
  }

  lemma BitsStayMarked(v: View, e: Event, M: set<Indexed>, W: set<Indexed>)
    requires BitsMarked(v, e, M) && M <= W
    ensures BitsMarked(v, e, W)
  {}

  /** The containers of a matching default entry match too. Those with filter bits
    * are settled by then, and the others come first on the default list: positive
    * propagation from there reports nothing new. */
  lemma ContainersSettled(g: Graph?, list: seq<Indexed>, i: nat, v: View, N: set<Node>, S: set<Subscription>,
                          U: iset<seq<Entry>>, e: Event, M: set<Indexed>)
    requires g != null && Ready(g, v, N, S, U, e) && BitsMarked(v, e, M) && Preorder(U)
    requires Lists(list, OnDefault(v.all)) && ContainersFirst(list) && i < |list| && (set b | b in list[..i]) <= M
    requires Accepts(list[i].sub.data, e)
    ensures ContainersQuiet(list[i], M)
  {
    assert list[i] in list;
    ContainersWait(g, v, N, S, U, e, list[i]);
    assert WiredAt(v, N, S, list[i]);
    var n := list[i].sub.graphAttr as Node;
    hide Includes, StrictlyIncludes, Accepts;
    forall t | t in Subs(n.containers) ensures Quiet(t, M) {
      var k :| 0 <= k < |n.containers| && Subs(n.containers)[k] == t;
      assert n.containers[k] in n.containers;
      ContainerSettled(list, i, v, S, U, n.sub, t, e, M);
    }
  }

  lemma ContainerSettled(list: seq<Indexed>, i: nat, v: View, S: set<Subscription>, U: iset<seq<Entry>>,
                         primary: Subscription, t: Subscription, e: Event, M: set<Indexed>)
    requires BitsMarked(v, e, M) && Preorder(U) && Waiting(v, S, e, t, true)
    requires Lists(list, OnDefault(v.all)) && ContainersFirst(list) && i < |list| && (set b | b in list[..i]) <= M
    requires t.data in U && primary.data in U && list[i].sub.data in U
    requires StrictlyIncludes(t.data, primary.data) && Equivalent(primary.data, list[i].sub.data)
    ensures Quiet(t, M)
  {
    StrictThrough(U, t.data, primary.data, list[i].sub.data);
    ListedAbove(list, i, v, e, M, t.filterAttr as Indexed);
  }

  /** A matching container of an entry of the default list is marked when that entry's turn comes. */
  lemma ListedAbove(list: seq<Indexed>, i: nat, v: View, e: Event, M: set<Indexed>, x: Indexed)
    requires BitsMarked(v, e, M) && x in v.all && Accepts(x.sub.data, e)
    requires Lists(list, OnDefault(v.all)) && ContainersFirst(list) && i < |list| && (set b | b in list[..i]) <= M
    requires StrictlyIncludes(x.sub.data, list[i].sub.data)
    ensures x in M
  {
    if x.bits == {} {
      assert x in OnDefault(v.all);
      EarlierInList(list, i, x);
    }
  }

  /** So a match on the default list leaves nothing above it to be tested. */
  lemma AboveSettled(g: Graph?, variant: int, list: seq<Indexed>, i: nat, v: View, N: set<Node>, S: set<Subscription>,
                     U: iset<seq<Entry>>, e: Event, M: set<Indexed>)
    requires g != null && Ready(g, v, N, S, U, e) && BitsMarked(v, e, M)
    requires Lists(list, OnDefault(v.all)) && ContainersFirst(list) && i < |list| && (set b | b in list[..i]) <= M
    requires Accepts(list[i].sub.data, e) && list[i] in v.all
    ensures Settles(v, e, variant, M, list[i])
  {
    hide *;
    AboveAccepts(g, v, N, S, U, e, list[i]);
    forall q | q in v.all && Primary(v, q) && Spares(e, variant, list[i], q) ensures q in M {
      SparesMeans(e, variant, list[i], q);
      ListedAbove(list, i, v, e, M, q);
    }
    SettlesIf(v, e, variant, M, list[i]);
  }

  lemma EarlierInList(list: seq<Indexed>, i: nat, x: Indexed)
    requires ContainersFirst(list) && i < |list| && x in list && StrictlyIncludes(x.sub.data, list[i].sub.data)
    ensures x in list[..i]
  {
    var k :| 0 <= k < |list| && list[k] == x;
    assert k < i;
  }

  lemma StrictThrough(U: iset<seq<Entry>>, a: seq<Entry>, b: seq<Entry>, c: seq<Entry>)
    requires Preorder(U) && a in U && b in U && c in U && StrictlyIncludes(a, b) && Equivalent(b, c)
    ensures StrictlyIncludes(a, c)
  {
    assert TransitiveAt(a, b, c) && TransitiveAt(b, c, a);
  }
}
