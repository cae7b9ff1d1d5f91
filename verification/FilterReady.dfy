/** What a match finds when it starts: the index, the subscriptions and the graph agree. */
module FilterReady {
  import opened Subscriptions
  import opened Containment
  import opened Diagram
  import opened Traversal
  import opened Census
  import opened Classes
  import opened Graph
  import opened Bloom
  import opened Index
  import opened Pruning
  import opened FilterMatch
  import opened FilterGroups
  import opened FilterLinks

  ghost function SetOf(l: seq<Subscription>): set<Subscription> { set s | s in l }

  /** The entries of the containers of every entry's node. */
  ghost predicate UpsAre(N: set<Node>, S: set<Subscription>, subs: seq<Indexed>, ups: map<Indexed, set<Indexed>>)
    reads N, S, set b | b in subs :: b.sub
  {
    ups.Keys == Entries(subs) && forall b, n | b in subs && n in N && b.sub.graphAttr == n :: ups[b] == Raised(n, S)
  }

  lemma FindUps(N: set<Node>, S: set<Subscription>, subs: seq<Indexed>) returns (ups: map<Indexed, set<Indexed>>)
    ensures UpsAre(N, S, subs, ups)
  {
    ups := map b | b in Entries(subs) ::
      if b.sub.graphAttr is Node && b.sub.graphAttr as Node in N then Raised(b.sub.graphAttr as Node, S) else {};
  }

  lemma AloneView(subs: seq<Indexed>, ups: map<Indexed, set<Indexed>>, e: Event)
    requires Unlinked(Entries(subs))
    ensures Ungrouped(MatchView(subs, false, ups)) && Coherent(MatchView(subs, false, ups), e)
  {}

  /** Members of a class accept the same events. */
  lemma GroupedView(subs: seq<Indexed>, U: iset<seq<Entry>>, ups: map<Indexed, set<Indexed>>, e: Event)
    requires Preorder(U) && SoundOn(U) && AllFrom(subs, U)
    ensures Coherent(MatchView(subs, true, ups), e)
  {
    AllFromAt(subs, U);
    forall b | b in subs
      ensures var p := PrimaryOf(subs, true, b);
        p in subs && PrimaryOf(subs, true, p) == p && Accepts(b.sub.data, e) == Accepts(p.sub.data, e)
    {
      PrimaryFacts(subs, U, b);
      AcceptAlike(U, PrimaryOf(subs, true, b).sub.data, b.sub.data, e);
    }
    hide PrimaryOf, Accepts;
  }

  lemma AcceptAlike(U: iset<seq<Entry>>, a: seq<Entry>, b: seq<Entry>, e: Event)
    requires SoundOn(U) && a in U && b in U && Equivalent(a, b)
    ensures Accepts(a, e) == Accepts(b, e)
  {
    assert Sound(a, b) && Sound(b, a);
  }

  /** Every node of the graph holds the subscription of a primary. */
  lemma NodeEntered(g: Graph, subs: seq<Indexed>, ups: map<Indexed, set<Indexed>>, m: Node)
    requires InStep(g, subs) && SubsOf(subs) == g.live && Linked(ViewOf(subs, true)) && m in g.N
    ensures m.sub in SetOf(g.live) && Entered(MatchView(subs, true, ups), m.sub)
    ensures m.sub.filterAttr is Indexed
    ensures PrimaryOf(subs, true, m.sub.filterAttr as Indexed) == m.sub.filterAttr as Indexed
    ensures m.sub.filterAttr as Indexed in subs
  {
    hide *;
    InStepMeans(g, subs);
    SubsOfAt(subs);
    LinkedMeans(subs);
    assert Equivalent(m.sub.data, m.sub.data) by { Reflexive(g.U, m.sub.data); }
    NodeHoldsFirst(g.live, g.U, m, m.sub);
    var j := FirstEq(g.live, m.sub);
    assert g.live[j] in g.live && subs[j] in subs;
    EnteredAt(subs, ups, j, m.sub);
  }

  lemma Reflexive(U: iset<seq<Entry>>, a: seq<Entry>)
    requires Preorder(U) && a in U
    ensures Equivalent(a, a)
  {}

  lemma EnteredAt(subs: seq<Indexed>, ups: map<Indexed, set<Indexed>>, j: nat, s: Subscription)
    requires j < |subs| && j == FirstEq(SubsOf(subs), s) && subs[j].sub == s && s.filterAttr == subs[j]
    requires |SubsOf(subs)| == |subs| && SubsOf(subs)[j] == s
    ensures PrimaryOf(subs, true, subs[j]) == subs[j] && Entered(MatchView(subs, true, ups), s)
    ensures s in SetOf(SubsOf(subs))
  {}

  /** The node of an entry is that of its primary, and it counts the class. */
  lemma NodeOfEntry(g: Graph, subs: seq<Indexed>, b: Indexed)
    requires InStep(g, subs) && SubsOf(subs) == g.live && NoDup(subs) && Linked(ViewOf(subs, true)) && b in subs
    ensures b.sub.graphAttr is Node
    ensures var n, p := b.sub.graphAttr as Node, PrimaryOf(subs, true, b);
      && n in g.N && p in subs && PrimaryOf(subs, true, p) == p && p.sub == n.sub && n.sub.filterAttr == p
      && Equivalent(n.sub.data, b.sub.data) && n.count == |Members(ViewOf(subs, true), p)|
  {
    hide *;
    InStepMeans(g, subs);
    SubsOfAt(subs);
    LinkedMeans(subs);
    AllFromLive(g, subs);
    PrimaryFacts(subs, g.U, b);
    var i := IndexOf(subs, b);
    assert PointsBack(g.live[i], g.N);
    TwinEquivalent(g.N, b.sub);
    var n, p := b.sub.graphAttr as Node, PrimaryOf(subs, true, b);
    NodeHoldsFirst(g.live, g.U, n, b.sub);
    PrimaryAt(subs, b);
    CountOf(g, n);
    MembersAlike(subs, g.U, p);
    AlikeSize(subs, p.sub);
  }

  lemma AllFromLive(g: Graph, subs: seq<Indexed>)
    requires From(g.live, g.U) && SubsOf(subs) == g.live
    ensures AllFrom(subs, g.U)
  {}

  lemma IndexOf(subs: seq<Indexed>, b: Indexed) returns (i: nat)
    requires b in subs
    ensures i < |subs| && subs[i] == b
  {
    i :| 0 <= i < |subs| && subs[i] == b;
  }

  lemma PrimaryAt(subs: seq<Indexed>, b: Indexed)
    requires FirstEq(SubsOf(subs), b.sub) < |subs|
    ensures PrimaryOf(subs, true, b) == subs[FirstEq(SubsOf(subs), b.sub)]
  {}

  lemma CountOf(g: Graph, n: Node)
    requires g.Valid() && n in g.N
    ensures n.count == |Class(g.live, n.sub)|
  {
    hide Placed, Class;
  }

  /** The primary of an entry has the same node. */
  lemma NodeOfPrimary(g: Graph, subs: seq<Indexed>, b: Indexed)
    requires InStep(g, subs) && SubsOf(subs) == g.live && NoDup(subs) && Linked(ViewOf(subs, true)) && b in subs
    ensures b.sub.graphAttr is Node && PrimaryOf(subs, true, b) in subs
    ensures PrimaryOf(subs, true, b).sub.graphAttr == b.sub.graphAttr
  {
    hide *;
    NodeOfEntry(g, subs, b);
    var p := PrimaryOf(subs, true, b);
    NodeOfEntry(g, subs, p);
    InStepMeans(g, subs);
    SameNode(g, b.sub.graphAttr as Node, p.sub.graphAttr as Node);
  }

  lemma SameNode(g: Graph, a: Node, b: Node)
    requires g.Valid() && a in g.N && b in g.N && a.sub == b.sub
    ensures a == b
  {
    hide Includes, Drawn, Classed;
  }

  lemma UpsAt(N: set<Node>, S: set<Subscription>, subs: seq<Indexed>, ups: map<Indexed, set<Indexed>>, b: Indexed,
              n: Node)
    requires UpsAre(N, S, subs, ups) && b in subs && n in N && b.sub.graphAttr == n
    ensures b in ups && ups[b] == Raised(n, S)
  {}

  lemma WiredEntry(g: Graph, subs: seq<Indexed>, ups: map<Indexed, set<Indexed>>, b: Indexed)
    requires InStep(g, subs) && SubsOf(subs) == g.live && NoDup(subs) && Linked(ViewOf(subs, true)) && b in subs
    requires UpsAre(g.N, SetOf(g.live), subs, ups)
    ensures WiredAt(MatchView(subs, true, ups), g.N, SetOf(g.live), b)
  {
    hide *;
    NodeOfEntry(g, subs, b);
    LinkedMeans(subs);
    InStepMeans(g, subs);
    var n := b.sub.graphAttr as Node;
    NodeEntered(g, subs, ups, n);
    NeighboursOf(g, n);
    forall m | m in n.containers + n.containees
      ensures m.sub in SetOf(g.live) && Entered(MatchView(subs, true, ups), m.sub)
    {
      NodeEntered(g, subs, ups, m);
    }
    EntrySet(subs, b);
    NodeOfPrimary(g, subs, b);
    UpsAt(g.N, SetOf(g.live), subs, ups, PrimaryOf(subs, true, b), n);
    DownsAre(g, subs, ups, PrimaryOf(subs, true, b), n);
    WiredParts(g, subs, ups, b);
  }

  /** The containees of a node are those among whose containers it is. */
  lemma EdgeBothWays(g: Graph, n: Node, m: Node)
    requires g.Valid() && n in g.N && m in g.N
    ensures m in n.containees <==> n in m.containers
  {
    hide Classed, Includes;
    assert Lists(n.containees, Lower(g.N, n)) && Lists(m.containers, Upper(g.N, m));
  }

  /** The node of a primary holds its subscription. */
  lemma OwnNode(g: Graph, subs: seq<Indexed>, ups: map<Indexed, set<Indexed>>, q: Indexed) returns (m: Node)
    requires InStep(g, subs) && SubsOf(subs) == g.live && NoDup(subs) && Linked(ViewOf(subs, true))
    requires q in subs && PrimaryOf(subs, true, q) == q && UpsAre(g.N, SetOf(g.live), subs, ups)
    ensures m in g.N && m.sub == q.sub && m.sub.filterAttr == q && m.sub in SetOf(g.live)
    ensures q in ups && ups[q] == Raised(m, SetOf(g.live))
  {
    hide *;
    NodeOfEntry(g, subs, q);
    m := q.sub.graphAttr as Node;
    UpsAt(g.N, SetOf(g.live), subs, ups, q, m);
    EntrySet(subs, q);
  }

  /** The entries below p in the graph are those of the containees of its node. */
  lemma DownsAre(g: Graph, subs: seq<Indexed>, ups: map<Indexed, set<Indexed>>, p: Indexed, n: Node)
    requires InStep(g, subs) && SubsOf(subs) == g.live && NoDup(subs) && Linked(ViewOf(subs, true))
    requires UpsAre(g.N, SetOf(g.live), subs, ups) && p in subs && PrimaryOf(subs, true, p) == p
    requires n in g.N && n.sub == p.sub && n.sub.filterAttr == p
    ensures Downs(MatchView(subs, true, ups), p) == Lowered(n, SetOf(g.live))
  {
    hide *;
    var v, S := MatchView(subs, true, ups), SetOf(g.live);
    InStepMeans(g, subs);
    EntrySet(subs, p);
    forall q | q in Downs(v, p) ensures q in Lowered(n, S) {
      DownsMean(subs, ups, p, q);
      var m := OwnNode(g, subs, ups, q);
      NeighboursOf(g, m);
      var x := RaisedFrom(m, S, p);
      NodeEntered(g, subs, ups, x);
      EnteredMeans(v, x.sub);
      SameNode(g, x, n);
      EdgeBothWays(g, n, m);
      LoweredMeans(n, S, q);
    }
    forall q | q in Lowered(n, S) ensures q in Downs(v, p) {
      var m := LoweredFrom(n, S, q);
      NeighboursOf(g, n);
      NodeEntered(g, subs, ups, m);
      EnteredMeans(v, m.sub);
      var x := OwnNode(g, subs, ups, q);
      SameNode(g, x, m);
      EdgeBothWays(g, n, m);
      RaisedBy(m, S, n, p);
      DownsMean(subs, ups, p, q);
    }
  }

  lemma DownsMean(subs: seq<Indexed>, ups: map<Indexed, set<Indexed>>, p: Indexed, q: Indexed)
    ensures q in Downs(MatchView(subs, true, ups), p) <==>
      q in subs && PrimaryOf(subs, true, q) == q && q in ups && p in ups[q]
  {
    hide PrimaryOf;
  }

  lemma LoweredMeans(n: Node, S: set<Subscription>, q: Indexed)
    ensures q in Lowered(n, S) <==> exists m | m in n.containees :: m.sub in S && m.sub.filterAttr == q
  {}

  lemma LoweredFrom(n: Node, S: set<Subscription>, q: Indexed) returns (m: Node)
    requires q in Lowered(n, S)
    ensures m in n.containees && m.sub in S && m.sub.filterAttr == q
  {
    m :| m in n.containees && m.sub in S && m.sub.filterAttr == q;
  }

  lemma RaisedFrom(n: Node, S: set<Subscription>, q: Indexed) returns (m: Node)
    requires q in Raised(n, S)
    ensures m in n.containers && m.sub in S && m.sub.filterAttr == q
  {
    m :| m in n.containers && m.sub in S && m.sub.filterAttr == q;
  }

  lemma RaisedBy(n: Node, S: set<Subscription>, m: Node, q: Indexed)
    requires m in n.containers && m.sub in S && m.sub.filterAttr == q
    ensures q in Raised(n, S)
  {}

  lemma EnteredMeans(v: View, s: Subscription)
    requires Entered(v, s)
    ensures s.filterAttr is Indexed && (s.filterAttr as Indexed).sub == s
  {}

  lemma EntrySet(subs: seq<Indexed>, b: Indexed)
    requires b in subs
    ensures b.sub in SetOf(SubsOf(subs))
  {
    SubsOfAt(subs);
    var i :| 0 <= i < |subs| && subs[i] == b;
    assert SubsOf(subs)[i] in SubsOf(subs);
  }

  lemma NeighboursOf(g: Graph, n: Node)
    requires g.Valid() && n in g.N
    ensures forall m | m in n.containers :: m in g.N && StrictlyIncludes(m.sub.data, n.sub.data)
    ensures forall m | m in n.containees :: m in g.N && StrictlyIncludes(n.sub.data, m.sub.data)
    ensures forall m | m in n.containers + n.containees :: m in g.N
  {
    hide Classed, Includes;
    assert Lists(n.containers, Upper(g.N, n)) && Lists(n.containees, Lower(g.N, n));
  }

  lemma WiredParts(g: Graph, subs: seq<Indexed>, ups: map<Indexed, set<Indexed>>, b: Indexed)
    requires b in subs && b.sub in SetOf(g.live) && b.sub.filterAttr == b && b.sub.graphAttr is Node
    requires (b.sub.graphAttr as Node).sub in SetOf(g.live)
    requires var n, p := b.sub.graphAttr as Node, PrimaryOf(subs, true, b);
      && n in g.N && p in subs && PrimaryOf(subs, true, p) == p && p.sub == n.sub && n.sub.filterAttr == p
      && Equivalent(n.sub.data, b.sub.data) && n.count == |Members(ViewOf(subs, true), p)|
      && (forall m | m in n.containers :: StrictlyIncludes(m.sub.data, n.sub.data))
      && (forall m | m in n.containees :: StrictlyIncludes(n.sub.data, m.sub.data))
      && (forall m | m in n.containers + n.containees ::
            m.sub in SetOf(g.live) && Entered(MatchView(subs, true, ups), m.sub))
    requires forall q | q in subs && Primary(ViewOf(subs, true), q) ::
      Lists(q.duplicates, Members(ViewOf(subs, true), q) - {q})
    requires PrimaryOf(subs, true, b) in ups
    requires ups[PrimaryOf(subs, true, b)] == Raised(b.sub.graphAttr as Node, SetOf(g.live))
    requires Downs(MatchView(subs, true, ups), PrimaryOf(subs, true, b)) ==
      Lowered(b.sub.graphAttr as Node, SetOf(g.live))
    ensures WiredAt(MatchView(subs, true, ups), g.N, SetOf(g.live), b)
  {
    hide Includes, StrictlyIncludes, Equivalent, PrimaryOf, Entered, Raised, Lowered, Downs;
    var n, p := b.sub.graphAttr as Node, PrimaryOf(subs, true, b);
    var v, w := ViewOf(subs, true), MatchView(subs, true, ups);
    assert Primary(v, p);
    assert Members(v, p) == Members(w, p);
  }

  /** Below a container there is a direct one, in the graph and so among the entries. */
  lemma DirectEntry(g: Graph, subs: seq<Indexed>, ups: map<Indexed, set<Indexed>>, p: Indexed, q: Indexed)
    requires InStep(g, subs) && SubsOf(subs) == g.live && NoDup(subs) && Linked(ViewOf(subs, true))
    requires UpsAre(g.N, SetOf(g.live), subs, ups) && p in subs && q in subs && StrictlyIncludes(p.sub.data, q.sub.data)
    requires PrimaryOf(subs, true, p) == p && PrimaryOf(subs, true, q) == q
    ensures q in ups && DirectBetween(MatchView(subs, true, ups), p, q)
  {
    hide *;
    NodeOfEntry(g, subs, p);
    NodeOfEntry(g, subs, q);
    InStepMeans(g, subs);
    var a, c := p.sub.graphAttr as Node, q.sub.graphAttr as Node;
    UpsAt(g.N, SetOf(g.live), subs, ups, q, c);
    var m := NodeBetween(g, a, c);
    NodeEntered(g, subs, ups, m);
    EntryBetween(g, subs, ups, p, q, c, m, m.sub.filterAttr as Indexed);
  }

  lemma NodeBetween(g: Graph, a: Node, c: Node) returns (m: Node)
    requires g.Valid() && a in g.N && c in g.N && StrictlyIncludes(a.sub.data, c.sub.data)
    ensures m in g.N && m in c.containers && StrictlyIncludes(m.sub.data, c.sub.data)
    ensures m == a || StrictlyIncludes(a.sub.data, m.sub.data)
  {
    hide Includes, Classed;
    m := StepUp(g.N, g.U, a, c);
    assert Lists(c.containers, Upper(g.N, c));
  }

  lemma EntryBetween(g: Graph, subs: seq<Indexed>, ups: map<Indexed, set<Indexed>>, p: Indexed, q: Indexed, c: Node,
                     m: Node, x: Indexed)
    requires p in subs && q in subs && q in ups && ups[q] == Raised(c, SetOf(g.live)) && m in c.containers
    requires m.sub in SetOf(g.live)
    requires m.sub.filterAttr == x && x in subs && PrimaryOf(subs, true, x) == x
    requires Entered(MatchView(subs, true, ups), m.sub)
    requires StrictlyIncludes(m.sub.data, q.sub.data) && p.sub.filterAttr == p
    requires m.sub == p.sub || StrictlyIncludes(p.sub.data, m.sub.data)
    ensures DirectBetween(MatchView(subs, true, ups), p, q)
  {
    hide StrictlyIncludes, PrimaryOf;
    assert x in Raised(c, SetOf(g.live));
    assert x.sub == m.sub;
    assert Primary(MatchView(subs, true, ups), x);
  }

  // ---------------------------------------------------------------------------
  // The start of a match
  // ---------------------------------------------------------------------------

  ghost function NodesOf(g: Graph?): set<Node>
    reads g
  {
    if g == null then {} else g.N
  }

  ghost function LiveOf(g: Graph?): set<Subscription>
    reads g
  {
    if g == null then {} else SetOf(g.live)
  }

  /** The index and the graph hold the same subscriptions, entered in the same order. */
  ghost predicate Level(g: Graph?, subs: seq<Indexed>, U: iset<seq<Entry>>)
    reads if g == null then {} else {g} + g.N
    reads if g == null then [] else g.live
  {
    g != null ==> U == g.U && InStep(g, subs) && SubsOf(subs) == g.live && SoundOn(U)
  }

  lemma LevelMeans(g: Graph?, subs: seq<Indexed>, U: iset<seq<Entry>>)
    ensures Level(g, subs, U) <==> (g != null ==> U == g.U && InStep(g, subs) && SubsOf(subs) == g.live && SoundOn(U))
  {}

  lemma ReadyFor(g: Graph?, subs: seq<Indexed>, U: iset<seq<Entry>>, ups: map<Indexed, set<Indexed>>, e: Event)
    requires NoDup(subs) && Level(g, subs, U)
    requires
      if g == null then Unlinked(Entries(subs))
      else Preorder(U) && AllFrom(subs, U) && Linked(ViewOf(subs, true))
    requires UpsAre(NodesOf(g), LiveOf(g), subs, ups)
    ensures Ready(g, MatchView(subs, g != null, ups), NodesOf(g), LiveOf(g), U, e)
  {
    hide *;
    LevelMeans(g, subs, U);
    NodesMean(g);
    var v := MatchView(subs, g != null, ups);
    if g == null {
      AloneView(subs, ups, e);
    } else {
      GroupedView(subs, U, ups, e);
      forall b | b in subs ensures WiredAt(v, g.N, SetOf(g.live), b) { WiredEntry(g, subs, ups, b); }
      UpsCompleteFor(g, subs, ups);
      SetFrom(g, subs);
    }
    ReadyIf(g, subs, U, ups, e);
  }

  lemma NodesMean(g: Graph?)
    ensures g != null ==> NodesOf(g) == g.N && LiveOf(g) == SetOf(g.live)
  {}

  lemma UpsCompleteFor(g: Graph, subs: seq<Indexed>, ups: map<Indexed, set<Indexed>>)
    requires InStep(g, subs) && SubsOf(subs) == g.live && NoDup(subs) && Linked(ViewOf(subs, true))
    requires UpsAre(g.N, SetOf(g.live), subs, ups)
    ensures UpsComplete(MatchView(subs, true, ups))
  {
    var v := MatchView(subs, true, ups);
    forall p, q | p in v.all && q in v.all && Primary(v, p) && Primary(v, q) && StrictlyIncludes(p.sub.data, q.sub.data)
      ensures DirectBetween(v, p, q)
    {
      DirectEntry(g, subs, ups, p, q);
    }
    hide *;
    UpsKeys(g.N, SetOf(g.live), subs, ups);
    UpsCompleteIf(v);
  }

  lemma UpsKeys(N: set<Node>, S: set<Subscription>, subs: seq<Indexed>, ups: map<Indexed, set<Indexed>>)
    requires UpsAre(N, S, subs, ups)
    ensures MatchView(subs, true, ups).ups.Keys == MatchView(subs, true, ups).all
  {}

  lemma UpsCompleteIf(v: View)
    requires v.ups.Keys == v.all
    requires forall p, q |
      p in v.all && q in v.all && Primary(v, p) && Primary(v, q) && StrictlyIncludes(p.sub.data, q.sub.data) ::
      DirectBetween(v, p, q)
    ensures UpsComplete(v)
  {
    hide Primary, StrictlyIncludes, DirectBetween;
  }

  lemma SetFrom(g: Graph, subs: seq<Indexed>)
    requires InStep(g, subs)
    ensures forall s | s in SetOf(g.live) :: s.data in g.U
  {
    hide Placed, Pristine, Attached;
  }

  lemma ReadyIf(g: Graph?, subs: seq<Indexed>, U: iset<seq<Entry>>, ups: map<Indexed, set<Indexed>>, e: Event)
    requires var v := MatchView(subs, g != null, ups);
      && Coherent(v, e)
      && if g == null then Ungrouped(v)
         else
           && UpsComplete(v) && Preorder(U) && SoundOn(U)
           && (forall b | b in subs :: WiredAt(v, g.N, SetOf(g.live), b))
           && forall s | s in SetOf(g.live) :: s.data in U
    ensures Ready(g, MatchView(subs, g != null, ups), NodesOf(g), LiveOf(g), U, e)
  {
    hide Coherent, Ungrouped, WiredAt, SetOf, UpsComplete;
  }

  /** The filter of an event is a superset of the filter of every entry that accepts it. */
  lemma NothingMissed(f: Setup, v: View, e: Event, filter: set<nat>)
    requires f.Ok() && Filtered(f, v.all) && CoversEvent(f, e, filter)
    ensures NoFalseNegatives(v, e, filter)
  {
    forall b | b in v.all && Accepts(b.sub.data, e) ensures b.bits <= filter {
      NoFalseNegative(f, b.sub.data, b.bits, e, filter);
    }
  }

  /** After the bit lists every entry that shares a bit with the event is settled. */
  lemma BitsSettled(f: Setup, v: View, e: Event, filter: set<nat>, M: set<Indexed>)
    requires f.Ok() && Filtered(f, v.all) && NoFalseNegatives(v, e, filter) && Reached(v.all, filter, f.size) <= M
    ensures forall b | b in v.all && b.bits * filter != {} :: b in M
    ensures forall b | b in v.all && Accepts(b.sub.data, e) :: b.bits <= filter
    ensures BitsMarked(v, e, M)
  {
    forall b | b in v.all && b.bits * filter != {} ensures b in M {
      var k :| k in b.bits * filter;
      assert b in Reached(v.all, filter, f.size);
    }
    forall b | b in v.all && b.bits != {} && Accepts(b.sub.data, e) ensures b in M {
      assert b.bits * filter == b.bits;
    }
  }
}
