/** How the index groups its entries into the classes of the graph. */
module FilterGroups {
  import opened Subscriptions
  import opened Containment
  import opened Diagram
  import opened Census
  import opened Index
  import opened FilterMatch

  /** The position of the first subscription equivalent to s, or the length if there is none. */
  function FirstEq(l: seq<Subscription>, s: Subscription): nat {
    if l == [] then 0
    else
      var k := |l| - 1;
      var r := FirstEq(l[..k], s);
      if r < k then r else if Equivalent(l[k].data, s.data) then k else |l|
  }

  lemma {:induction false} ClassHead(l: seq<Subscription>, s: Subscription)
    ensures FirstEq(l, s) <= |l| && (FirstEq(l, s) < |l| <==> Class(l, s) != [])
    ensures FirstEq(l, s) < |l| ==> Class(l, s)[0] == l[FirstEq(l, s)] && Equivalent(l[FirstEq(l, s)].data, s.data)
  {
    if l != [] { ClassHead(l[..|l| - 1], s); }
  }

  lemma FirstEqAppend(l: seq<Subscription>, x: Subscription, s: Subscription)
    ensures FirstEq(l + [x], s) ==
      if FirstEq(l, s) < |l| then FirstEq(l, s) else if Equivalent(x.data, s.data) then |l| else |l| + 1
  {
    assert (l + [x])[..|l|] == l;
  }

  lemma {:induction false} FirstEqSame(l: seq<Subscription>, s: Subscription, t: Subscription, U: iset<seq<Entry>>)
    requires Preorder(U) && From(l, U) && s.data in U && t.data in U && Equivalent(s.data, t.data)
    ensures FirstEq(l, s) == FirstEq(l, t)
  {
    if l != [] {
      var x := l[|l| - 1];
      assert x in l;
      FirstEqSame(l[..|l| - 1], s, t, U);
      EquivalentTransitive(U, s.data, t.data, x.data);
    }
  }

  /** A longer list has the same first member of a class. */
  lemma {:induction false} FirstEqPrefix(l: seq<Subscription>, n: nat, s: Subscription)
    requires n <= |l| && FirstEq(l[..n], s) < n
    ensures FirstEq(l, s) == FirstEq(l[..n], s)
  {
    if n < |l| {
      assert l[..|l| - 1][..n] == l[..n];
      FirstEqPrefix(l[..|l| - 1], n, s);
    } else {
      assert l[..n] == l;
    }
  }

  lemma {:induction false} SubsOfAt(subs: seq<Indexed>)
    ensures |SubsOf(subs)| == |subs| && forall i | 0 <= i < |subs| :: SubsOf(subs)[i] == subs[i].sub
  {
    if subs != [] { SubsOfAt(subs[..|subs| - 1]); }
  }

  // ---------------------------------------------------------------------------
  // The view of the index
  // ---------------------------------------------------------------------------

  ghost function Entries(subs: seq<Indexed>): set<Indexed> { set b | b in subs }

  ghost predicate Enumerated(subs: seq<Indexed>) {
    forall i | 0 <= i < |subs| :: subs[i].id == i
  }

  /** Without a graph each entry is its own primary; with one, the first of its class. */
  ghost function PrimaryOf(subs: seq<Indexed>, grouped: bool, b: Indexed): Indexed {
    var j := FirstEq(SubsOf(subs), b.sub);
    if grouped && j < |subs| then subs[j] else b
  }

  ghost function ViewOf(subs: seq<Indexed>, grouped: bool): View {
    View(Entries(subs), map b | b in Entries(subs) :: PrimaryOf(subs, grouped, b), map[])
  }

  /** The view for a match, which also needs the containers in the graph. */
  ghost function MatchView(subs: seq<Indexed>, grouped: bool, ups: map<Indexed, set<Indexed>>): View {
    ViewOf(subs, grouped).(ups := ups)
  }

  lemma EnumeratedDistinct(subs: seq<Indexed>)
    requires Enumerated(subs)
    ensures NoDup(subs) && Numbered(Entries(subs), |subs|)
  {}

  /** The class of a primary, entry by entry. */
  ghost function Alike(subs: seq<Indexed>, s: Subscription): set<Indexed> {
    set b | b in subs && Equivalent(b.sub.data, s.data)
  }

  lemma {:induction false} AlikeSize(subs: seq<Indexed>, s: Subscription)
    requires NoDup(subs)
    ensures |Alike(subs, s)| == |Class(SubsOf(subs), s)|
  {
    if subs != [] {
      var k := |subs| - 1;
      var rest, b := subs[..k], subs[k];
      AlikeSize(rest, s);
      hide Class, SubsOf, Equivalent;
      SubsStep(rest, b);
      assert subs == rest + [b] && b !in rest;
      ClassAppend(SubsOf(rest), b.sub, s);
      assert Alike(subs, s) == Alike(rest, s) + (if Equivalent(b.sub.data, s.data) then {b} else {});
    }
  }

  ghost predicate AllFrom(subs: seq<Indexed>, U: iset<seq<Entry>>) { From(SubsOf(subs), U) }

  lemma AllFromAt(subs: seq<Indexed>, U: iset<seq<Entry>>)
    requires AllFrom(subs, U)
    ensures forall b | b in subs :: b.sub.data in U
  {
    SubsOfAt(subs);
    forall b | b in subs ensures b.sub.data in U {
      var i :| 0 <= i < |subs| && subs[i] == b;
      assert SubsOf(subs)[i] in SubsOf(subs);
    }
  }

  /** The primary of an entry is an equivalent entry, and its own primary. */
  lemma PrimaryFacts(subs: seq<Indexed>, U: iset<seq<Entry>>, b: Indexed)
    requires Preorder(U) && AllFrom(subs, U) && b in subs
    ensures var p := PrimaryOf(subs, true, b);
      p in subs && Equivalent(p.sub.data, b.sub.data) && PrimaryOf(subs, true, p) == p
    ensures FirstEq(SubsOf(subs), b.sub) < |subs|
  {
    var l := SubsOf(subs);
    SubsOfAt(subs);
    AllFromAt(subs, U);
    ClassHead(l, b.sub);
    var i :| 0 <= i < |subs| && subs[i] == b;
    assert l[i] == b.sub && l[i] in l;
    assert Equivalent(b.sub.data, b.sub.data);
    ClassMember(l, b.sub, b.sub);
    var p := subs[FirstEq(l, b.sub)];
    FirstEqSame(l, p.sub, b.sub, U);
  }

  lemma SamePrimary(subs: seq<Indexed>, U: iset<seq<Entry>>, b: Indexed, p: Indexed)
    requires Preorder(U) && AllFrom(subs, U) && b in subs && p in subs && PrimaryOf(subs, true, p) == p
    ensures PrimaryOf(subs, true, b) == p <==> Equivalent(b.sub.data, p.sub.data)
  {
    PrimaryFacts(subs, U, b);
    PrimaryFacts(subs, U, p);
    AllFromAt(subs, U);
    if Equivalent(b.sub.data, p.sub.data) { FirstEqSame(SubsOf(subs), b.sub, p.sub, U); }
  }

  lemma MembersAlike(subs: seq<Indexed>, U: iset<seq<Entry>>, p: Indexed)
    requires Preorder(U) && AllFrom(subs, U) && p in subs && PrimaryOf(subs, true, p) == p
    ensures Members(ViewOf(subs, true), p) == Alike(subs, p.sub)
  {
    forall b | b in subs ensures b in Members(ViewOf(subs, true), p) <==> b in Alike(subs, p.sub) {
      SamePrimary(subs, U, b, p);
    }
  }

  // ---------------------------------------------------------------------------
  // A new entry
  // ---------------------------------------------------------------------------

  /** A new entry joins the class of the first equivalent one, or starts its own. */
  lemma PrimaryAppend(subs: seq<Indexed>, U: iset<seq<Entry>>, grouped: bool, b: Indexed, x: Indexed)
    requires grouped ==> Preorder(U) && AllFrom(subs, U)
    requires x in subs
    ensures PrimaryOf(subs + [b], grouped, x) == PrimaryOf(subs, grouped, x)
  {
    if grouped {
      PrimaryFacts(subs, U, x);
      SubsStep(subs, b);
      SubsOfAt(subs);
      FirstEqAppend(SubsOf(subs), b.sub, x.sub);
    }
  }

  lemma MembersAppend(subs: seq<Indexed>, U: iset<seq<Entry>>, grouped: bool, b: Indexed, p: Indexed)
    requires grouped ==> Preorder(U) && AllFrom(subs, U)
    requires b !in subs
    ensures Members(ViewOf(subs + [b], grouped), p) ==
      Members(ViewOf(subs, grouped), p) + (if PrimaryOf(subs + [b], grouped, b) == p then {b} else {})
  {
    var v, w := ViewOf(subs, grouped), ViewOf(subs + [b], grouped);
    assert Entries(subs + [b]) == Entries(subs) + {b};
    forall x | x in subs ensures w.prim[x] == v.prim[x] { PrimaryAppend(subs, U, grouped, b, x); }
  }
}
