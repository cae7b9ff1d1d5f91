/** How the index, the subscriptions and the graph are linked when a subscription is added. */
module FilterLinks {
  import opened Subscriptions
  import opened Containment
  import opened Diagram
  import opened Census
  import opened Classes
  import opened Graph
  import opened Index
  import opened FilterMatch
  import opened FilterGroups

  /** Every entry's subscription points back to it, and every primary lists the rest of its class. */
  ghost predicate Linked(v: View)
    reads v.all, set b | b in v.all :: b.sub`filterAttr
  {
    && (forall b | b in v.all :: b.sub.filterAttr == b)
    && (forall p | p in v.all && Primary(v, p) :: Lists(p.duplicates, Members(v, p) - {p}))
  }

  ghost predicate Unlinked(all: set<Indexed>)
    reads all`duplicates
  {
    forall b | b in all :: b.duplicates == []
  }

  // ---------------------------------------------------------------------------
  // Joining a class
  // ---------------------------------------------------------------------------

  /** The graph holds what the index holds, in the same order, and more to come
    * perhaps; no subscription was added twice, and none has been removed. */
  ghost predicate InStep(g: Graph, subs: seq<Indexed>)
    reads g, g.N, g.live`graphAttr
  {
    && g.Valid() && Pristine(g.N, g.live) && Attached(g.N, g.live) && NoDup(g.live)
    && SubsOf(subs) <= g.live
  }

  /** What the graph says of the order of classes, as plain facts. */
  lemma InStepMeans(g: Graph, subs: seq<Indexed>)
    requires InStep(g, subs)
    ensures g.Valid() && Preorder(g.U) && From(g.live, g.U) && (forall i | 0 <= i < |g.live| :: g.live[i].data in g.U)
    ensures SubsOf(subs) <= g.live && NoDup(g.live)
    ensures forall i | 0 <= i < |g.live| :: PointsBack(g.live[i], g.N)
    ensures forall n | n in g.N :: n.sub.data in g.U && Complete(n, g.live)
  {
    forall i | 0 <= i < |g.live|
      ensures PointsBack(g.live[i], g.N) && g.live[i].data in g.U
    {
      assert g.live[i] in g.live;
    }
  }

  /** A node holds the first live member of its class. */
  lemma NodeHoldsFirst(live: seq<Subscription>, U: iset<seq<Entry>>, n: Node, s: Subscription)
    requires Preorder(U) && From(live, U) && n.sub.data in U && s.data in U && Complete(n, live)
    requires Equivalent(n.sub.data, s.data)
    ensures FirstEq(live, s) < |live| && n.sub == live[FirstEq(live, s)]
  {
    ClassHead(live, n.sub);
    FirstEqSame(live, n.sub, s, U);
    assert Class(live, n.sub)[0] == ([n.sub] + n.overriden)[0];
  }

  /** In a longer list, the first member of a class that has one in the prefix is in the prefix. */
  lemma FirstInPrefix(live: seq<Subscription>, i: nat, U: iset<seq<Entry>>)
    requires Preorder(U) && From(live, U) && i < |live|
    ensures FirstEq(live, live[i]) == FirstEq(live[..i + 1], live[i]) <= i
  {
    var l, s := live[..i + 1], live[i];
    assert s in live && l[i] == s && s in l;
    ClassMember(l, s, s);
    ClassHead(l, s);
    FirstEqPrefix(live, i + 1, s);
  }

  lemma PrimaryInGraph(g: Graph, subs: seq<Indexed>, b: Indexed)
    requires InStep(g, subs) && |subs| < |g.live| && g.live[|subs|] == b.sub && b !in subs
    ensures b.sub.graphAttr is Node
    ensures var p, n := PrimaryOf(subs + [b], true, b), b.sub.graphAttr as Node;
      p in subs + [b] && n.sub == p.sub && (n.sub == b.sub <==> p == b)
  {
    hide *;
    InStepMeans(g, subs);
    var i := |subs|;
    LivePrefix(g.live, subs, b);
    assert PointsBack(g.live[i], g.N);
    TwinEquivalent(g.N, b.sub);
    var n := b.sub.graphAttr as Node;
    NodeHoldsFirst(g.live, g.U, n, b.sub);
    FirstInPrefix(g.live, i, g.U);
    var j := FirstEq(SubsOf(subs + [b]), b.sub);
    FirstEntry(subs, b, j);
    assert n.sub == g.live[j];
  }

  lemma LivePrefix(live: seq<Subscription>, subs: seq<Indexed>, b: Indexed)
    requires SubsOf(subs) <= live && |subs| < |live| && live[|subs|] == b.sub && NoDup(live)
    ensures |SubsOf(subs + [b])| == |subs| + 1 && live[..|subs| + 1] == SubsOf(subs + [b])
    ensures forall j | 0 <= j <= |subs| :: live[j] == (subs + [b])[j].sub && (live[j] == live[|subs|] <==> j == |subs|)
  {
    SubsOfAt(subs);
    SubsStep(subs, b);
    hide SubsOf;
    assert live[..|subs| + 1] == live[..|subs|] + [live[|subs|]];
  }

  lemma TwinEquivalent(N: set<Node>, s: Subscription)
    requires PointsBack(s, N)
    ensures s.graphAttr is Node && s.graphAttr as Node in N && Equivalent((s.graphAttr as Node).sub.data, s.data)
  {}

  lemma FirstEntry(subs: seq<Indexed>, b: Indexed, j: nat)
    requires j == FirstEq(SubsOf(subs + [b]), b.sub) && j <= |subs| && b !in subs
    requires |SubsOf(subs + [b])| == |subs| + 1
    ensures PrimaryOf(subs + [b], true, b) == (subs + [b])[j] && (subs + [b])[j] in subs + [b]
    ensures (subs + [b])[j] == b <==> j == |subs|
  {
    if j < |subs| { assert (subs + [b])[j] == subs[j] && subs[j] in subs; }
  }

  /** The step of PreFilter::add that enters b among the duplicates of its primary. */
  method JoinClass(g: Graph, subs: seq<Indexed>, b: Indexed, ghost U: iset<seq<Entry>>)
    requires InStep(g, subs) && U == g.U && |subs| < |g.live| && g.live[|subs|] == b.sub
    requires NoDup(subs) && AllFrom(subs, U) && (forall x | x in subs :: x.sub.filterAttr == x)
    requires forall q | q in subs && Primary(ViewOf(subs, true), q) ::
      Lists(q.duplicates, Members(ViewOf(subs, true), q) - {q})
    requires b !in subs && b.sub.filterAttr == b && b.duplicates == []
    modifies Entries(subs)`duplicates
    ensures AllFrom(subs + [b], U) && forall x | x in subs + [b] :: x.sub.filterAttr == x
    ensures forall q | q in subs + [b] && Primary(ViewOf(subs + [b], true), q) ::
      Lists(q.duplicates, Members(ViewOf(subs + [b], true), q) - {q})
  {
    hide *;
    PrimaryInGraph(g, subs, b);
    ghost var p := PrimaryOf(subs + [b], true, b);
    EntryPointers(subs, b, p);
    JoinFacts(g, subs, b);
    ghost var d := p.duplicates;
    var ps := g.Primary(b.sub);
    if ps != b.sub {
      var pbs := ps.filterAttr as Indexed;
      pbs.duplicates := pbs.duplicates + [b];
    }
    LinkedGrows(subs, U, b, p, d);
    LinkedMeans(subs + [b]);
  }

  lemma JoinFacts(g: Graph, subs: seq<Indexed>, b: Indexed)
    requires InStep(g, subs) && |subs| < |g.live| && g.live[|subs|] == b.sub && AllFrom(subs, g.U)
    ensures Preorder(g.U) && AllFrom(subs + [b], g.U)
  {
    SubsStep(subs, b);
    assert b.sub in g.live;
  }

  /** Every entry so far, and the new one, is pointed back to by its subscription. */
  lemma EntryPointers(subs: seq<Indexed>, b: Indexed, p: Indexed)
    requires (forall x | x in subs :: x.sub.filterAttr == x) && b.sub.filterAttr == b && p in subs + [b]
    ensures p.sub.filterAttr == p && (p != b ==> p in Entries(subs))
  {}

  lemma LinkedMeans(subs: seq<Indexed>)
    requires Linked(ViewOf(subs, true))
    ensures forall x | x in subs :: x.sub.filterAttr == x
    ensures forall q | q in subs && Primary(ViewOf(subs, true), q) ::
      Lists(q.duplicates, Members(ViewOf(subs, true), q) - {q})
  {}

  lemma LinkedIf(subs: seq<Indexed>)
    requires forall x | x in subs :: x.sub.filterAttr == x
    requires forall q | q in subs && Primary(ViewOf(subs, true), q) ::
      Lists(q.duplicates, Members(ViewOf(subs, true), q) - {q})
    ensures Linked(ViewOf(subs, true))
  {}

  lemma LinkedGrows(subs: seq<Indexed>, U: iset<seq<Entry>>, b: Indexed, p: Indexed, d: seq<Indexed>)
    requires Preorder(U) && AllFrom(subs, U) && AllFrom(subs + [b], U) && b !in subs
    requires p == PrimaryOf(subs + [b], true, b)
    requires b.sub.filterAttr == b && forall x | x in subs :: x.sub.filterAttr == x
    requires forall q | q in subs && q != p && Primary(ViewOf(subs, true), q) ::
      Lists(q.duplicates, Members(ViewOf(subs, true), q) - {q})
    requires p != b ==>
      p.duplicates == d + [b] && (Primary(ViewOf(subs, true), p) ==> Lists(d, Members(ViewOf(subs, true), p) - {p}))
    requires b.duplicates == []
    ensures Linked(ViewOf(subs + [b], true))
  {
    var v, w := ViewOf(subs, true), ViewOf(subs + [b], true);
    forall q | q in w.all && Primary(w, q) ensures Lists(q.duplicates, Members(w, q) - {q}) {
      MembersAppend(subs, U, true, b, q);
      PrimaryFacts(subs + [b], U, b);
      if q == b {
        NoMembersYet(subs, b);
        assert Members(w, q) - {q} == {};
      } else {
        PrimaryAppend(subs, U, true, b, q);
        if q == p {
          AppendLists(d, b, Members(v, p) - {p});
          assert Members(w, p) - {p} == Members(v, p) - {p} + {b};
        }
      }
    }
  }

  lemma NoMembersYet(subs: seq<Indexed>, b: Indexed)
    requires b !in subs
    ensures Members(ViewOf(subs, true), b) == {}
  {}

  /** The subscription points to its entry, and with a graph the entry joins its class. */
  method LinkEntry(g: Graph?, subs: seq<Indexed>, b: Indexed, ghost U: iset<seq<Entry>>)
    requires NoDup(subs) && b !in subs && b.duplicates == []
    requires g != null ==>
      U == g.U && InStep(g, subs) && |subs| < |g.live| && g.live[|subs|] == b.sub && AllFrom(subs, U)
    requires g != null ==> forall x | x in subs :: x.sub.filterAttr == x
    requires g != null ==>
      forall q | q in subs && Primary(ViewOf(subs, true), q) ::
        Lists(q.duplicates, Members(ViewOf(subs, true), q) - {q})
    requires g == null ==> forall x | x in subs :: x.duplicates == []
    modifies b.sub`filterAttr, Entries(subs)`duplicates
    ensures b.sub.filterAttr == b
    ensures g != null ==> Preorder(U) && InStep(g, subs + [b]) && AllFrom(subs + [b], U)
    ensures g != null ==> (forall x | x in subs + [b] :: x.sub.data in U && x.sub.filterAttr == x)
    ensures g != null ==>
      forall q | q in subs + [b] && Primary(ViewOf(subs + [b], true), q) ::
        Lists(q.duplicates, Members(ViewOf(subs + [b], true), q) - {q})
    ensures g == null ==> forall x | x in subs + [b] :: x.duplicates == []
  {
    hide *;
    if g != null {
      NotEntered(g, subs, b.sub);
      JoinFacts(g, subs, b);
      AllFromAt(subs + [b], U);
    }
    b.sub.filterAttr := b;
    if g != null {
      JoinClass(g, subs, b, U);
      StepTaken(g, subs, b);
    }
  }

  /** A subscription that comes later in the graph's list has no entry yet. */
  lemma NotEntered(g: Graph, subs: seq<Indexed>, s: Subscription)
    requires InStep(g, subs) && |subs| < |g.live| && g.live[|subs|] == s
    ensures forall x | x in subs :: x.sub != s
  {
    SubsOfAt(subs);
    forall x | x in subs ensures x.sub != s {
      var i :| 0 <= i < |subs| && subs[i] == x;
      assert g.live[i] == x.sub;
    }
  }

  lemma StepTaken(g: Graph, subs: seq<Indexed>, b: Indexed)
    requires InStep(g, subs) && |subs| < |g.live| && g.live[|subs|] == b.sub
    ensures InStep(g, subs + [b])
  {
    hide Pristine, Attached;
    SubsOfAt(subs);
    SubsStep(subs, b);
  }
}
