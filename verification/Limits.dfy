/** Runs on which the matching layers fall short: where containment is not sound,
  * after a removal, and where a class is filed without its equality. */
module Limits {
  import opened Subscriptions
  import opened Containment
  import opened Diagram
  import opened Traversal
  import opened Census
  import opened Classes
  import opened Matching
  import opened Graph
  import opened Bloom
  import opened Index
  import opened Pruning
  import opened FilterMatch
  import opened FilterGroups
  import opened FilterLinks
  import opened FilterReady
  import opened FilterExact
  import opened PreFilter
  import opened Runs

  // ---------------------------------------------------------------------------
  // Where containment is not sound
  // ---------------------------------------------------------------------------

  /** In an add-only graph every node holds a live subscription, the first of its class. */
  lemma HolderIsLive(g: Graph, n: Node)
    requires g.Valid() && Pristine(g.N, g.live) && n in g.N
    ensures n.sub in g.live && Class(g.live, n.sub) != [] && Class(g.live, n.sub)[0] == n.sub
  {
    assert Complete(n, g.live);
    assert ([n.sub] + n.overriden)[0] == n.sub;
    ClassMember(g.live, n.sub, n.sub);
  }

  lemma FirstNode(g: Graph, first: Subscription) returns (n: Node)
    requires g.Valid() && Pristine(g.N, g.live) && g.live == [first]
    ensures n in g.N && n.sub == first
  {
    assert first in g.live;
    n :| n in Twins(g.N, first);
    HolderIsLive(g, n);
  }

  /** Which of two subscriptions a matching node holds. */
  lemma SecondHeld(g: Graph, first: Subscription, second: Subscription, e: Event, h: Node)
    requires g.Valid() && Pristine(g.N, g.live) && g.live == [first, second] && first != second
    requires !Accepts(first.data, e) && h in Hits(g.N, e)
    ensures h in g.N && h.sub == second && !Equivalent(first.data, second.data)
  {
    HolderIsLive(g, h);
    hide Class, Equivalent;
    SecondClass(g.live, first, second);
  }

  /** The second of two never gets tested if the first contains it and fails. */
  lemma SecondHidden(g: Graph, n: Node, first: Subscription, second: Subscription, e: Event, h: Node)
    requires g.Valid() && Pristine(g.N, g.live) && g.live == [first, second] && first != second
    requires n in g.N && n.sub == first && Includes(first.data, second.data)
    requires !Accepts(first.data, e) && h in Hits(g.N, e)
    ensures h !in Tested(g.N, e)
  {
    SecondHeld(g, first, second, e, h);
    forall p | p in Hits(g.N, e) ensures h !in Lower(g.N, p) {
      SecondHeld(g, first, second, e, p);
      SameHolder(g, p, h);
    }
    BelowFirst(g.N, n, h);
    hide Accepts, Lower;
  }

  lemma BelowFirst(N: set<Node>, n: Node, h: Node)
    requires n in N && Includes(n.sub.data, h.sub.data) && !Equivalent(n.sub.data, h.sub.data)
    ensures h !in Roots(N)
  {
    assert n in Over(N, h);
  }

  lemma SecondClass(l: seq<Subscription>, first: Subscription, second: Subscription)
    requires l == [first, second] && first != second && Class(l, second) != [] && Class(l, second)[0] == second
    ensures !Equivalent(first.data, second.data)
  {
    assert l == [first] + [second] && [first] == [] + [first];
    ClassAppend([first], second, second);
    ClassAppend([], first, second);
    hide Class;
  }

  lemma SameHolder(g: Graph, p: Node, h: Node)
    requires g.Valid() && p in g.N && h in g.N && p.sub == h.sub
    ensures h !in Lower(g.N, p)
  {}

  method AddPair(a: Multimap, b: Multimap, ghost U: iset<seq<Entry>>)
    returns (g: Graph, first: Subscription, second: Subscription, ghost n: Node)
    requires Preorder(U) && a in U && b in U
    ensures fresh(g) && fresh(g.N) && fresh(first) && fresh(second) && g.Valid() && g.U == U
    ensures Pristine(g.N, g.live) && Attached(g.N, g.live) && g.live == [first, second] && first != second
    ensures first.data == a && second.data == b && n in g.N && n.sub == first
  {
    hide *;
    first := new Subscription("1", "", a);
    second := new Subscription("2", "", b);
    g := new Graph(U);
    Nothing(g);
    g.Add(first);
    n := FirstNode(g, first);
    g.Add(second);
  }

  /** Two subscriptions, one contained in the other and matched by some event, are a
    * family on which containment is a preorder. */
  lemma TwoPreorder(a: seq<Entry>, b: seq<Entry>, e: Event)
    requires Includes(a, b) && Accepts(b, e)
    ensures Preorder(iset{a, b})
  {
    AcceptsAll(b, e);
    forall t | t in b ensures t.pred.op.Supported() { assert EntryHolds(t, e); }
    IncludesAll(a, b);
    forall t | t in a ensures t.pred.op.Supported() {
      if !t.pred.op.Supported() { UnsupportedNotCovered(t.pred, Range(b, t.key)); }
    }
    ReflexiveExact(a);
    ReflexiveExact(b);
    hide Includes;
  }

  /** A subscription that is wrongly taken to be contained is missed by the graph of
    * the two, so matching meets the scan on every run of a family only if
    * containment is sound on it. */
  method ContaineeMissed(a: Multimap, b: Multimap, e: Event)
    returns (first: Subscription, second: Subscription, report: seq<Subscription>)
    requires Includes(a, b) && Accepts(b, e) && !Accepts(a, e)
    ensures first.data == a && second.data == b && report == [] && Scan([first, second], e) == [second]
  {
    hide *;
    var g;
    ghost var n;
    TwoPreorder(a, b, e);
    g, first, second, n := AddPair(a, b, iset{a, b});
    ScanOfTwo(first, second, e);
    forall h | h in Hits(g.N, e) ensures h !in Tested(g.N, e) { SecondHidden(g, n, first, second, e, h); }
    var matched, tested;
    ghost var hits;
    report, matched, tested, hits := g.Match(e, []);
    NoHits(hits, Hits(g.N, e), Tested(g.N, e));
  }

  lemma NoHits(hits: seq<Node>, S: set<Node>, T: set<Node>)
    requires NoDup(hits) && (forall h | h in hits :: h in S && h in T) && forall h | h in S :: h !in T
    ensures hits == [] && Flat(hits) == []
  {
    ListsSize(hits, {});
  }

  lemma ScanOfTwo(first: Subscription, second: Subscription, e: Event)
    requires !Accepts(first.data, e) && Accepts(second.data, e)
    ensures Scan([first, second], e) == [second]
  {
    assert Scan([first], e) == [] by { assert [first][..0] == []; }
    assert [first, second][..1] == [first];
  }

  /** A run of the graph that misses a = 7. */
  method LooseRangeMissed() returns (first: Subscription, second: Subscription, report: seq<Subscription>)
    ensures second.data == [Entry("a", Predicate(Ge, 5)), Entry("a", Predicate(Le, 10))]
    ensures report == [] && Scan([first, second], map["a" := 7]) == [second]
  {
    var point := [Entry("a", Predicate(Eq, 5))];
    var range := [Entry("a", Predicate(Ge, 5)), Entry("a", Predicate(Le, 10))];
    LooseRangeUnsound();
    first, second, report := ContaineeMissed(point, range, map["a" := 7]);
  }

  // ---------------------------------------------------------------------------
  // After a removal
  // ---------------------------------------------------------------------------

  /** What a removal followed by a match reports, against the caller's list: the
    * number is always right, and the subscriptions are right if and only if the
    * event is nothing to s or s came last of its class. */
  method RemoveThenMatch(g: Graph, s: Subscription, e: Event) returns (report: seq<Subscription>)
    requires g.Valid() && SoundOn(g.U) && Faithful(g.N, g.live) && NoDup(g.live) && s in g.live && s.data in g.U
    modifies g, g.N, s`graphAttr
    ensures |report| == |Scan(Erase(old(g.live), s), e)|
    ensures Class(old(g.live), s) != []
    ensures multiset(report) == multiset(Scan(Erase(old(g.live), s), e)) <==>
      !Accepts(s.data, e) || s == Newest(old(g.live), s)
  {
    hide *;
    GraphFacts(g);
    ghost var l, U := g.live, g.U;
    RemovedScan(l, s, U, e);
    var found := g.Remove(s);
    var matched, tested;
    ghost var hits;
    report, matched, tested, hits := g.Match(e, []);
    assert report[0..] == report;
  }

  lemma GraphFacts(g: Graph)
    requires g.Valid()
    ensures Preorder(g.U) && From(g.live, g.U)
  {
    hide Preorder;
  }

  method AddTwo(d: Multimap) returns (g: Graph, first: Subscription, second: Subscription)
    requires Preorder(iset{d})
    ensures fresh(g) && fresh(g.N) && fresh(first) && fresh(second) && g.Valid() && g.U == iset{d}
    ensures g.live == [first, second] && first != second
    ensures Faithful(g.N, g.live) && first.data == second.data == d
  {
    hide *;
    ghost var n;
    g, first, second, n := AddPair(d, d, iset{d});
    g.ValidParts();
    PristineFaithful(g.N, g.U, g.live);
  }

  /** After first and second have been added and first has been removed, an event
    * they both accept is reported to first, and not to second, which is stored. */
  method RemovedStays() returns (first: Subscription, second: Subscription, report: seq<Subscription>)
    ensures first != second && first.data == second.data && report == [first]
  {
    var d := [Entry("a", Predicate(Eq, 1))];
    OneKind(d);
    hide *;
    var g;
    g, first, second := AddTwo(d);
    NewestGone(first, second, d);
    report := RemoveAndMatch(g, first, map["a" := 1], [first]);
    OnlyReported(first, report, map["a" := 1]);
  }

  method RemoveAndMatch(g: Graph, s: Subscription, e: Event, ghost left: seq<Subscription>)
    returns (report: seq<Subscription>)
    requires g.Valid() && SoundOn(g.U) && Faithful(g.N, g.live) && s.data in g.U
    requires Class(g.live, s) != [] && left == DropNewest(g.live, s)
    modifies g, g.N, s`graphAttr
    ensures multiset(report) == multiset(Scan(left, e))
  {
    hide *;
    var found := g.Remove(s);
    var matched, tested;
    ghost var hits;
    report, matched, tested, hits := g.Match(e, []);
    assert report[0..] == report;
  }

  lemma OneKind(d: seq<Entry>)
    requires d == [Entry("a", Predicate(Eq, 1))]
    ensures Preorder(iset{d}) && SoundOn(iset{d}) && Equivalent(d, d)
    ensures Accepts(d, map["a" := 1])
  {
    forall k ensures !HasOp(Range(d, k), Ge) {
      assert d[1..] == [] && (Under(d[0], k) + [])[..] == Under(d[0], k);
      assert Under(d[0], k) != [] ==> Under(d[0], k)[1..] == [];
    }
    NoPairWellBehaved(iset{d});
    WellBehavedSoundPreorder(iset{d});
    assert d[1..] == [];
  }

  /** With one kind of subscription there is one node, and it counts all. */
  lemma OneNode(N: set<Node>, d: seq<Entry>, live: seq<Subscription>, n: Node)
    requires Fits(N, iset{d}) && Classed(N, iset{d}, live) && n in N && Equivalent(d, d)
    ensures N == {n} && n.count == |live| && Class(live, n.sub) == live && Twins(N, n.sub) == {n}
  {
    assert n.sub.data == d && Counts(n, iset{d}, live);
    forall m | m in N ensures m == n { assert Geq(m, n) && Geq(n, m); }
    ClassAll(live, n.sub);
  }

  lemma {:induction false} ClassAll(l: seq<Subscription>, s: Subscription)
    requires forall x | x in l :: Equivalent(x.data, s.data)
    ensures Class(l, s) == l
  {
    if l != [] {
      assert l[|l| - 1] in l;
      ClassAll(l[..|l| - 1], s);
    }
  }

  lemma Nothing(g: Graph)
    requires g.live == [] && g.N == {}
    ensures Pristine(g.N, g.live) && Attached(g.N, g.live)
  {}

  lemma HeldBoth(g: Graph, n: Node, first: Subscription, second: Subscription)
    requires Pristine(g.N, g.live) && n in g.N && g.live == [first, second] && Class(g.live, n.sub) == g.live
    ensures n.sub == first && n.overriden == [second]
  {
    assert Complete(n, g.live);
    assert ([n.sub] + n.overriden)[0] == first && ([n.sub] + n.overriden)[1..] == [second];
    assert ([n.sub] + n.overriden)[1..] == n.overriden;
  }

  lemma NewestGone(first: Subscription, second: Subscription, d: seq<Entry>)
    requires first.data == second.data == d && Equivalent(d, d)
    ensures DropNewest([first, second], second) == [first] && Class([first, second], second) != []
    ensures DropNewest([first, second], first) == [first] && Class([first, second], first) != []
  {
    assert [first, second][..1] == [first];
  }

  lemma OnlyReported(first: Subscription, report: seq<Subscription>, e: Event)
    requires multiset(report) == multiset(Scan([first], e)) && Accepts(first.data, e)
    ensures report == [first]
  {
    assert [first][..0] == [];
    assert Scan([first], e) == [first];
    SameSize(report, [first]);
    assert report[0] in multiset(report);
  }

  lemma OneHit(g: Graph, n: Node, hits: seq<Node>, first: Subscription, second: Subscription, e: Event)
    requires g.N == {n} && Lists(hits, Hits(g.N, e)) && Accepts(n.sub.data, e)
    requires n.sub == first && [second] <= n.overriden && n.count == 2
    ensures Flat(hits) == [first, second]
  {
    ListsSize(hits, Hits(g.N, e));
    assert Hits(g.N, e) == {n};
    assert hits[0] in hits;
    assert hits == [n];
    assert Flat([]) == [] && hits[..0] == [];
    assert Reported(n) == ([n.sub] + n.overriden)[..2];
    assert n.overriden[0] == second;
  }

  method AddTwoRemoveOne(d: Multimap) returns (g: Graph, first: Subscription, second: Subscription, ghost n: Node)
    requires Preorder(iset{d}) && Equivalent(d, d)
    ensures fresh(g) && fresh(g.N) && g.Valid() && g.U == iset{d} && g.live == [first]
    ensures g.N == {n} && n.sub == first && n.overriden == [second] && first.data == second.data == d
  {
    hide *;
    first := new Subscription("1", "", d);
    second := new Subscription("2", "", d);
    g := new Graph(iset{d});
    Nothing(g);
    g.Add(first);
    n := NodeFor(g, d, first);
    g.Add(second);
    n := NodeFor(g, d, first);
    HeldBoth(g, n, first, second);
    var found := g.Remove(second);
    NewestGone(first, second, d);
    ghost var m := NodeFor(g, d, first);
    assert m == n;
  }

  method AddThenMatch(g: Graph, third: Subscription, e: Event, ghost d: seq<Entry>, ghost n: Node,
                      ghost first: Subscription, ghost second: Subscription)
    returns (report: seq<Subscription>)
    requires g.Valid() && g.U == iset{d} && g.live == [first] && g.N == {n} && n.sub == first && n.overriden == [second]
    requires third.data == d && Equivalent(d, d) && Accepts(d, e) && SoundOn(iset{d})
    modifies g, g.N, third`graphAttr
    ensures report == [first, second]
  {
    hide *;
    g.Add(third);
    ghost var m := NodeFor(g, d, first);
    assert m == n;
    var matched, tested;
    ghost var hits;
    report, matched, tested, hits := g.Match(e, []);
    OneHit(g, n, hits, first, second, e);
  }

  lemma ThreeSteps(a: Subscription, b: Subscription, c: Subscription, d: seq<Entry>) returns (steps: seq<Step>)
    requires a != b && b != c && a != c && a.data == b.data == c.data == d && Equivalent(d, d)
    ensures steps == [Enter(a), Enter(b), Enter(c), Leave(a), Leave(c)]
    ensures Legal(steps, iset{d}) && Held(steps) == [b] && Since(steps, d) == [a, b, c] && Size([b], d) == 1
  {
    var U := iset{d};
    var s1: seq<Step>, s2 := [Enter(a)], [Enter(a), Enter(b)];
    var s3, s4 := [Enter(a), Enter(b), Enter(c)], [Enter(a), Enter(b), Enter(c), Leave(a)];
    steps := [Enter(a), Enter(b), Enter(c), Leave(a), Leave(c)];
    assert s1 == [] + [Enter(a)] && s2 == s1 + [Enter(b)] && s3 == s2 + [Enter(c)];
    assert s4 == s3 + [Leave(a)] && steps == s4 + [Leave(c)];
    Leaving(a, b, c, d);
    hide *;
    NoSteps(U, d);
    MoreSteps([], Enter(a), U, d);
    MoreSteps(s1, Enter(b), U, d);
    MoreSteps(s2, Enter(c), U, d);
    assert Held(s3) == [a, b, c];
    MoreSteps(s3, Leave(a), U, d);
    assert Held(s4) == [b, c];
    MoreSteps(s4, Leave(c), U, d);
  }

  lemma MoreSteps(steps: seq<Step>, step: Step, U: iset<seq<Entry>>, d: seq<Entry>)
    requires Legal(steps, U) && !step.Ask? && d in U && step.s.data == d && Equivalent(d, d)
    requires step.Leave? ==> step.s in Held(steps)
    ensures Legal(steps + [step], U)
    ensures Held(steps + [step]) == if step.Enter? then Held(steps) + [step.s] else TakeOut(Held(steps), step.s)
    ensures step.Enter? ==> Since(steps + [step], d) == Since(steps, d) + [step.s]
    ensures step.Leave? && Size(Held(steps + [step]), d) != 0 ==> Since(steps + [step], d) == Since(steps, d)
  {
    hide *;
    FairMeans(steps, step, U);
    LegalNext(steps, step, U);
    HeldStep(steps, step);
    SinceStep(steps, step, d);
  }

  lemma NoSteps(U: iset<seq<Entry>>, d: seq<Entry>)
    ensures Legal([], U) && Held([]) == [] && Since([], d) == []
  {}

  lemma Leaving(a: Subscription, b: Subscription, c: Subscription, d: seq<Entry>)
    requires a != b && b != c && a != c && a.data == b.data == c.data == d && Equivalent(d, d)
    ensures TakeOut([a, b, c], a) == [b, c] && TakeOut([b, c], c) == [b]
    ensures Size([b, c], d) == 2 && Size([b], d) == 1
  {
    assert [a, b, c][..2] == [a, b] && [a, b][..1] == [a] && [b, c][..1] == [b] && [a][..0] == [] && [b][..0] == [];
    SizeAppend([], b, d);
    SizeAppend([b], c, d);
    assert [] + [b] == [b] && [b] + [c] == [b, c];
    assert TakeOut([a], a) == [];
    assert TakeOut([a, b], a) == [b];
  }

  /** With one held of three, the first of them is told. */
  lemma FirstReported(steps: seq<Step>, a: Subscription, b: Subscription, e: Event, r: seq<Subscription>)
    requires Answered(steps, Ask(e), Told(r)) && Held(steps) == [b] && Size([b], b.data) == 1 && Accepts(b.data, e)
    requires |Since(steps, b.data)| == 3 && Since(steps, b.data)[0] == a
    ensures r == [a]
  {
    hide *;
    AnsweredMeans(steps, e, r, b);
    FirstOfIs(steps, e, r, b);
    ScanOne(b, e);
    var all := Since(steps, b.data);
    assert all[..1] == [a];
    assert a in Class(r, b);
    ClassMember(r, b, a);
  }

  lemma AnsweredMeans(steps: seq<Step>, e: Event, r: seq<Subscription>, x: Subscription)
    requires Answered(steps, Ask(e), Told(r)) && x in Held(steps)
    ensures |r| == |Scan(Held(steps), e)| && FirstOf(steps, e, r, x)
  {
    hide Held, Scan, Class, LatestGone, FirstOf, Accepts;
  }

  lemma FirstOfIs(steps: seq<Step>, e: Event, r: seq<Subscription>, x: Subscription)
    requires FirstOf(steps, e, r, x) && Accepts(x.data, e)
    ensures var k := Size(Held(steps), x.data);
      k <= |Since(steps, x.data)| && Class(r, x) == Since(steps, x.data)[..k]
  {
    hide Held, Size, Since, Class, Accepts;
  }

  lemma ScanOne(x: Subscription, e: Event)
    requires Accepts(x.data, e)
    ensures Scan([x], e) == [x]
  {
    assert [x][..0] == [];
  }

  /** Once a wrong one has gone, removing the newest does not help: after a, b and c
    * have been added and a and then c removed, an event that all accept is
    * reported to a, and the caller holds b. */
  method RemovedTwice() returns (a: Subscription, b: Subscription, c: Subscription, report: seq<Subscription>)
    ensures a != b && b != c && a != c && a.data == b.data == c.data && report == [a]
    ensures Held([Enter(a), Enter(b), Enter(c), Leave(a), Leave(c)]) == [b]
  {
    var d := [Entry("a", Predicate(Eq, 1))];
    OneKind(d);
    hide *;
    a := new Subscription("1", "", d);
    b := new Subscription("2", "", d);
    c := new Subscription("3", "", d);
    report := AskAfter(a, b, c, d, map["a" := 1]);
  }

  method AskAfter(a: Subscription, b: Subscription, c: Subscription, d: Multimap, e: Event)
    returns (report: seq<Subscription>)
    requires a != b && b != c && a != c && a.data == b.data == c.data == d && Equivalent(d, d) && Accepts(d, e)
    requires Preorder(iset{d}) && SoundOn(iset{d})
    modifies a`graphAttr, b`graphAttr, c`graphAttr
    ensures report == [a] && Held([Enter(a), Enter(b), Enter(c), Leave(a), Leave(c)]) == [b]
  {
    hide *;
    ghost var before := ThreeSteps(a, b, c, d);
    var steps := [Enter(a), Enter(b), Enter(c), Leave(a), Leave(c)];
    report := AskLast(steps, e, {a, b, c}, iset{d});
    FirstReported(steps, a, b, e, report);
  }

  /** The answer to one more step. */
  method AskLast(steps: seq<Step>, e: Event, ghost S: set<Subscription>, ghost U: iset<seq<Entry>>)
    returns (report: seq<Subscription>)
    requires Preorder(U) && SoundOn(U) && Legal(steps, U)
    requires forall i | 0 <= i < |steps| :: !steps[i].Ask? && steps[i].s in S
    modifies S`graphAttr
    ensures Answered(steps, Ask(e), Told(report))
  {
    hide *;
    FairAsk(steps, e, U);
    LegalNext(steps, Ask(e), U);
    var answers := Replay(steps + [Ask(e)], U);
    assert (steps + [Ask(e)])[..|steps|] == steps;
    AnswerTold(steps, e, answers[|steps|]);
    report := answers[|steps|].r;
  }

  lemma AnswerTold(steps: seq<Step>, e: Event, answer: Answer)
    requires Answered(steps, Ask(e), answer)
    ensures answer.Told? && answer == Told(answer.r)
  {}

  /** After first and second have been added, second removed and third added, an
    * event they all accept is reported to first and, wrongly, to second. */
  method RemovedIsReported()
    returns (first: Subscription, second: Subscription, third: Subscription, report: seq<Subscription>)
    ensures second != third && first.data == second.data == third.data && report == [first, second]
  {
    var d := [Entry("a", Predicate(Eq, 1))];
    OneKind(d);
    hide *;
    var g;
    ghost var n;
    g, first, second, n := AddTwoRemoveOne(d);
    third := new Subscription("3", "", d);
    report := AddThenMatch(g, third, map["a" := 1], d, n, first, second);
  }

  lemma NodeFor(g: Graph, d: seq<Entry>, s: Subscription) returns (n: Node)
    requires g.Valid() && g.U == iset{d} && s in g.live && Equivalent(d, d)
    ensures g.N == {n} && n.count == |g.live| && Class(g.live, n.sub) == g.live && Twins(g.N, s) == {n}
    ensures n.sub.data == d
  {
    var m :| m in Twins(g.N, s);
    OneNode(g.N, d, g.live, m);
    n := m;
  }

  // ---------------------------------------------------------------------------
  // A class filed without its equality
  // ---------------------------------------------------------------------------

  /** An equality and the same condition written as a pair contain each other. */
  lemma PairPoint(pair: seq<Entry>, point: seq<Entry>)
    requires pair == [Entry("a", Predicate(Ge, 5)), Entry("a", Predicate(Le, 5))]
    requires point == [Entry("a", Predicate(Eq, 5))]
    ensures Includes(pair, pair) && Includes(point, point) && Equivalent(pair, point)
    ensures Preorder(iset{pair, point}) && HasEq(point) && !HasEq(pair)
    ensures forall e: Event :: Accepts(pair, e) <==> Accepts(point, e)
    ensures Accepts(pair, map["a" := 5]) && Accepts(point, map["a" := 5])
  {
    PairLosesEquality();
    ReflexiveExact(pair);
    ReflexiveExact(point);
    assert pair[1..] == [Entry("a", Predicate(Le, 5))] && pair[1..][1..] == [] && point[1..] == [];
    hide Includes;
  }

  lemma PairPointSound(pair: seq<Entry>, point: seq<Entry>)
    requires forall e: Event :: Accepts(pair, e) <==> Accepts(point, e)
    ensures SoundOn(iset{pair, point})
  {
    hide Accepts, Includes;
  }

  lemma Leader(first: Subscription, second: Subscription, e: Event, np: bool)
    requires Equivalent(first.data, first.data) && Equivalent(first.data, second.data)
    requires HasEq(second.data) && !HasEq(first.data)
    requires Accepts(first.data, e) && Accepts(second.data, e)
    ensures var l := [first, second];
      !Whole(l, e, np, first) && Reports(l, e, np, first) == 1 && Scan(l, e) == l
  {
    var l := [first, second];
    assert l[..1] == [first] && [first][..0] == [];
    hide Accepts, Includes, HasEq;
    assert FirstEq([first], first) == 0;
    assert FirstEq(l, first) == 0;
    assert second in l;
    assert Scan([first], e) == [first];
    assert Plain([first]) == [first] && Plain(l) == [first];
    assert Class([first], first) == [first];
  }

  lemma HalfReported(l: seq<Subscription>, first: Subscription, e: Event, np: bool, r: seq<Subscription>)
    requires ClassesReported(l, e, np, r) && first in l && !Whole(l, e, np, first) && Reports(l, e, np, first) == 1
    requires |r| <= 2 && (|r| == 2 <==> AllWhole(l, e, np))
    ensures |r| == 1
  {
    ClassSize(r, first);
    hide Whole, Reports, Class;
  }

  lemma {:induction false} ClassSize(l: seq<Subscription>, s: Subscription)
    ensures |Class(l, s)| <= |l|
  {
    if l != [] { ClassSize(l[..|l| - 1], s); }
  }

  /** Whatever the filter and with every variant: when the pair was added before the
    * equality, a = 5 is reported once although both subscriptions accept it. */
  method LeaderLosesEquality(f: Setup, variant: int)
    returns (first: Subscription, second: Subscription, report: seq<Subscription>)
    requires f.Ok()
    ensures first.data == [Entry("a", Predicate(Ge, 5)), Entry("a", Predicate(Le, 5))]
    ensures second.data == [Entry("a", Predicate(Eq, 5))]
    ensures |report| == 1 && Scan([first, second], map["a" := 5]) == [first, second]
  {
    var pair := [Entry("a", Predicate(Ge, 5)), Entry("a", Predicate(Le, 5))];
    var point := [Entry("a", Predicate(Eq, 5))];
    PairPoint(pair, point);
    PairPointSound(pair, point);
    first, second, report := OnceOfTwo(f, variant, pair, point, map["a" := 5]);
  }

  method OnceOfTwo(f: Setup, variant: int, a: Multimap, b: Multimap, e: Event)
    returns (first: Subscription, second: Subscription, report: seq<Subscription>)
    requires f.Ok() && Preorder(iset{a, b}) && SoundOn(iset{a, b})
    requires Equivalent(a, a) && Equivalent(a, b) && HasEq(b) && !HasEq(a) && Accepts(a, e) && Accepts(b, e)
    ensures first.data == a && second.data == b && |report| == 1 && Scan([first, second], e) == [first, second]
  {
    hide *;
    var g;
    ghost var n;
    g, first, second, n := AddPair(a, b, iset{a, b});
    var filter := FileBoth(f, variant, g, first, second);
    Leader(first, second, e, Positive(variant));
    var matched, tested;
    ghost var log, bits, tried;
    report, matched, tested, log, bits, tried := filter.Match(e);
    HalfReported([first, second], first, e, Positive(variant), report);
  }

  /** The pre-filter over a graph, with the two subscriptions of the graph entered. */
  method FileBoth(f: Setup, variant: int, g: Graph, first: Subscription, second: Subscription)
    returns (filter: PreFilter)
    requires f.Ok() && g.Valid() && Pristine(g.N, g.live) && Attached(g.N, g.live) && SoundOn(g.U)
    requires g.live == [first, second] && first != second
    modifies first`filterAttr, second`filterAttr
    ensures filter.Valid() && filter.graph == g && filter.variant == variant && filter.U == g.U && fresh(filter)
    ensures Level(g, filter.subs, filter.U)
  {
    hide *;
    GraphFacts(g);
    SetupMeans(f);
    filter := new PreFilter(f, variant, g);
    Unfilled(g, filter.subs);
    OneFilled(first, second);
    EntriesOf(filter.subs);
    filter.Add(first);
    SubsOfAt(filter.subs);
    EntriesOf(filter.subs);
    filter.Add(second);
    LevelMeans(g, filter.subs, filter.U);
  }

  lemma SetupMeans(f: Setup)
    ensures f.Ok() <==> 1 <= f.hashes <= f.size
  {}

  lemma EntriesOf(subs: seq<Indexed>)
    ensures subs == [] ==> Entries(subs) == {}
    ensures |subs| == 1 ==> Entries(subs) == {subs[0]}
  {}

  lemma Unfilled(g: Graph, subs: seq<Indexed>)
    requires g.Valid() && Pristine(g.N, g.live) && Attached(g.N, g.live) && NoDup(g.live) && subs == []
    ensures InStep(g, subs) && SubsOf(subs) == []
  {}

  lemma OneFilled(first: Subscription, second: Subscription)
    requires first != second
    ensures NoDup([first, second]) && [] + [first] == [first] && [first] + [second] == [first, second]
  {}
}
