/** What an exact report of the index means against the naive scan. */
module FilterExact {
  import opened Subscriptions
  import opened Containment
  import opened Diagram
  import opened Census
  import opened Matching
  import opened Bloom
  import opened Index
  import opened FilterMatch
  import opened FilterGroups

  /** The naive scan over entries: every entry that accepts the event, in order. */
  function Naive(subs: seq<Indexed>, e: Event): seq<Indexed> {
    if subs == [] then []
    else Naive(subs[..|subs| - 1], e) + (if Accepts(subs[|subs| - 1].sub.data, e) then [subs[|subs| - 1]] else [])
  }

  lemma {:induction false} NaiveIsScan(subs: seq<Indexed>, e: Event)
    ensures SubsOf(Naive(subs, e)) == Scan(SubsOf(subs), e)
  {
    if subs != [] {
      var rest, b := subs[..|subs| - 1], subs[|subs| - 1];
      NaiveIsScan(rest, e);
      SubsStep(Naive(rest, e), b);
      assert SubsOf(subs)[..|subs| - 1] == SubsOf(rest) by { SubsOfAt(subs); SubsOfAt(rest); }
      if Accepts(b.sub.data, e) {
        assert Naive(subs, e) == Naive(rest, e) + [b];
      } else {
        assert Naive(subs, e) == Naive(rest, e);
      }
    }
  }

  lemma {:induction false} NaiveWithin(subs: seq<Indexed>, e: Event)
    ensures forall b | b in Naive(subs, e) :: b in subs
  {
    if subs != [] {
      NaiveWithin(subs[..|subs| - 1], e);
      assert subs == subs[..|subs| - 1] + [subs[|subs| - 1]];
    }
  }

  /** Of a class the naive scan reports all members or none. */
  lemma {:induction false} NaiveTally(v: View, subs: seq<Indexed>, e: Event, p: Indexed)
    requires Coherent(v, e) && NoDup(subs) && (forall b | b in subs :: b in v.all) && Primary(v, p)
    ensures Tally(v, Naive(subs, e), p) == if Accepts(p.sub.data, e) then |Among(v, subs, p)| else 0
  {
    if subs != [] {
      var rest, b := subs[..|subs| - 1], subs[|subs| - 1];
      assert subs == rest + [b] && b in subs;
      NaiveTally(v, rest, e, p);
      TallyAppend(v, Naive(rest, e), b, p);
      hide Accepts, Tally;
      assert Among(v, subs, p) == Among(v, rest, p) + (if v.prim[b] == p then {b} else {});
      assert b !in Among(v, rest, p);
      assert Naive(rest, e) + [] == Naive(rest, e);
    }
  }

  ghost function Among(v: View, subs: seq<Indexed>, p: Indexed): set<Indexed>
  {
    set b | b in subs && b in Members(v, p)
  }

  lemma NaiveExact(subs: seq<Indexed>, grouped: bool, e: Event, p: Indexed)
    requires Coherent(ViewOf(subs, grouped), e) && NoDup(subs) && Primary(ViewOf(subs, grouped), p)
    ensures Tally(ViewOf(subs, grouped), Naive(subs, e), p) ==
      if Accepts(p.sub.data, e) then |Members(ViewOf(subs, grouped), p)| else 0
  {
    var v := ViewOf(subs, grouped);
    NaiveTally(v, subs, e, p);
    assert Among(v, subs, p) == Members(v, p);
  }

  ghost function Prim(v: View, b: Indexed): Indexed { if b in v.prim then v.prim[b] else b }

  /** The primaries of the reports, in order. */
  ghost function Primaries(v: View, log: seq<Indexed>): seq<Indexed> {
    if log == [] then [] else Primaries(v, log[..|log| - 1]) + [Prim(v, log[|log| - 1])]
  }

  lemma {:induction false} PrimariesTally(v: View, log: seq<Indexed>, p: Indexed)
    requires forall b | b in log :: b in v.prim
    ensures multiset(Primaries(v, log))[p] == Tally(v, log, p)
  {
    if log != [] {
      assert log == log[..|log| - 1] + [log[|log| - 1]];
      PrimariesTally(v, log[..|log| - 1], p);
    }
  }

  lemma {:induction false} PrimariesPrimary(v: View, e: Event, log: seq<Indexed>)
    requires Coherent(v, e) && forall b | b in log :: b in v.all
    ensures forall q | q in Primaries(v, log) :: q in v.all && Primary(v, q)
  {
    if log != [] {
      assert log == log[..|log| - 1] + [log[|log| - 1]];
      PrimariesPrimary(v, e, log[..|log| - 1]);
      hide Accepts;
    }
  }

  lemma {:induction false} PrimariesLength(v: View, log: seq<Indexed>)
    ensures |Primaries(v, log)| == |log|
  {
    if log != [] { PrimariesLength(v, log[..|log| - 1]); }
  }

  ghost predicate TalliesAgree(v: View, a: seq<Indexed>, b: seq<Indexed>) {
    forall p | p in v.all && Primary(v, p) :: Tally(v, a, p) == Tally(v, b, p)
  }

  lemma SameTallies(v: View, e: Event, a: seq<Indexed>, b: seq<Indexed>)
    requires Coherent(v, e) && (forall x | x in a :: x in v.all) && (forall x | x in b :: x in v.all)
    requires TalliesAgree(v, a, b)
    ensures multiset(Primaries(v, a)) == multiset(Primaries(v, b)) && |a| == |b|
  {
    hide *;
    PrimariesLength(v, a);
    PrimariesLength(v, b);
    var A, B := Primaries(v, a), Primaries(v, b);
    forall p | p in multiset(A) + multiset(B) ensures multiset(A)[p] == multiset(B)[p] {
      SameCount(v, e, a, b, p);
    }
    SameMultiset(multiset(A), multiset(B));
    SameSize(A, B);
  }

  lemma SameCount(v: View, e: Event, a: seq<Indexed>, b: seq<Indexed>, p: Indexed)
    requires Coherent(v, e) && (forall x | x in a :: x in v.all) && (forall x | x in b :: x in v.all)
    requires TalliesAgree(v, a, b) && p in multiset(Primaries(v, a)) + multiset(Primaries(v, b))
    ensures multiset(Primaries(v, a))[p] == multiset(Primaries(v, b))[p]
  {
    PrimariesPrimary(v, e, a);
    PrimariesPrimary(v, e, b);
    Known(v, e);
    hide Coherent, Primary, Primaries, Tally;
    assert p in Primaries(v, a) || p in Primaries(v, b);
    assert Tally(v, a, p) == Tally(v, b, p);
    PrimariesTally(v, a, p);
    PrimariesTally(v, b, p);
  }

  lemma Known(v: View, e: Event)
    requires Coherent(v, e)
    ensures forall x | x in v.all :: x in v.prim
  {}

  // ---------------------------------------------------------------------------
  // Without a graph: exact entry by entry
  // ---------------------------------------------------------------------------

  lemma {:induction false} OwnPrimaries(v: View, log: seq<Indexed>)
    requires forall b | b in log :: Prim(v, b) == b
    ensures Primaries(v, log) == log
  {
    hide Prim;
    if log != [] {
      assert log == log[..|log| - 1] + [log[|log| - 1]];
      OwnPrimaries(v, log[..|log| - 1]);
    }
  }

  lemma SubsOfSame(a: seq<Indexed>, b: seq<Indexed>)
    requires multiset(a) == multiset(b)
    ensures multiset(SubsOf(a)) == multiset(SubsOf(b))
  {
    var f := (x: Indexed) => x.sub;
    SubsOfAt(a);
    SubsOfAt(b);
    MapSame(f, a, b);
    assert SubsOf(a) == Mapped(f, a) && SubsOf(b) == Mapped(f, b);
  }

  /** Without a graph the report is the naive scan, each matching subscription once. */
  lemma AloneExact(subs: seq<Indexed>, e: Event, log: seq<Indexed>)
    requires Coherent(ViewOf(subs, false), e) && NoDup(subs) && Exact(ViewOf(subs, false), e, false, log)
    ensures multiset(SubsOf(log)) == multiset(Scan(SubsOf(subs), e))
  {
    var v, naive := ViewOf(subs, false), Naive(subs, e);
    NaiveWithin(subs, e);
    forall p | p in v.all && Primary(v, p)
      ensures Tally(v, log, p) == Tally(v, naive, p)
    {
      AloneTallies(subs, e, log, p);
    }
    hide Tally, Exact, Coherent, PrimaryOf, Accepts, SubsOf, Scan, Naive;
    SameTallies(v, e, log, naive);
    forall b | b in subs ensures Prim(v, b) == b { AloneOwn(subs, b); }
    OwnPrimaries(v, log);
    OwnPrimaries(v, naive);
    SubsOfSame(log, naive);
    NaiveIsScan(subs, e);
  }

  lemma AloneOwn(subs: seq<Indexed>, b: Indexed)
    requires b in subs
    ensures Prim(ViewOf(subs, false), b) == b
  {}

  lemma AloneTallies(subs: seq<Indexed>, e: Event, log: seq<Indexed>, p: Indexed)
    requires Coherent(ViewOf(subs, false), e) && NoDup(subs) && Exact(ViewOf(subs, false), e, false, log)
    requires p in ViewOf(subs, false).all && Primary(ViewOf(subs, false), p)
    ensures Tally(ViewOf(subs, false), log, p) == Tally(ViewOf(subs, false), Naive(subs, e), p)
  {
    var v := ViewOf(subs, false);
    AloneOwed(v, p);
    assert Members(v, p) == {p};
    NaiveExact(subs, false, e, p);
    hide Tally, Accepts, Naive;
  }

  // ---------------------------------------------------------------------------
  // With a graph: exact class by class
  // ---------------------------------------------------------------------------

  lemma {:induction false} TallyIsClass(subs: seq<Indexed>, U: iset<seq<Entry>>, log: seq<Indexed>, p: Indexed)
    requires Preorder(U) && AllFrom(subs, U) && (forall b | b in log :: b in subs)
    requires p in subs && PrimaryOf(subs, true, p) == p
    ensures Tally(ViewOf(subs, true), log, p) == |Class(SubsOf(log), p.sub)|
  {
    if log != [] {
      var rest, b := log[..|log| - 1], log[|log| - 1];
      assert log == rest + [b];
      TallyIsClass(subs, U, rest, p);
      TallyAppend(ViewOf(subs, true), rest, b, p);
      SamePrimary(subs, U, b, p);
      SubsStep(rest, b);
      ClassAppend(SubsOf(rest), b.sub, p.sub);
      hide Tally, Class, SubsOf, Equivalent, PrimaryOf;
    }
  }

  /** The primary of the class of x, and what the two reports hold of that class. */
  lemma ClassReports(subs: seq<Indexed>, U: iset<seq<Entry>>, e: Event, log: seq<Indexed>, x: Subscription)
    returns (p: Indexed)
    requires Preorder(U) && AllFrom(subs, U) && NoDup(subs) && Coherent(ViewOf(subs, true), e)
    requires x in SubsOf(subs) && forall b | b in log :: b in subs
    ensures p in subs && PrimaryOf(subs, true, p) == p && Equivalent(p.sub.data, x.data)
    ensures Primary(ViewOf(subs, true), p)
    ensures FirstEq(SubsOf(subs), x) < |subs| && p == subs[FirstEq(SubsOf(subs), x)]
    ensures Accepts(p.sub.data, e) == Accepts(x.data, e)
    ensures |Class(SubsOf(log), x)| == Tally(ViewOf(subs, true), log, p)
    ensures |Class(Scan(SubsOf(subs), e), x)| == if Accepts(x.data, e) then |Members(ViewOf(subs, true), p)| else 0
  {
    hide *;
    p := ClassPrimary(subs, U, e, x);
    ReportsOfClass(subs, U, log, p, x);
    NaiveWithin(subs, e);
    ReportsOfClass(subs, U, Naive(subs, e), p, x);
    NaiveIsScan(subs, e);
    NaiveExact(subs, true, e, p);
  }

  lemma ReportsOfClass(subs: seq<Indexed>, U: iset<seq<Entry>>, log: seq<Indexed>, p: Indexed, x: Subscription)
    requires Preorder(U) && AllFrom(subs, U) && (forall b | b in log :: b in subs)
    requires p in subs && PrimaryOf(subs, true, p) == p && Equivalent(p.sub.data, x.data) && p.sub.data in U
    requires x.data in U
    ensures |Class(SubsOf(log), x)| == Tally(ViewOf(subs, true), log, p)
  {
    hide *;
    TallyIsClass(subs, U, log, p);
    ClassFromSame(log, subs, U, p.sub, x);
  }

  lemma ClassPrimary(subs: seq<Indexed>, U: iset<seq<Entry>>, e: Event, x: Subscription) returns (p: Indexed)
    requires Preorder(U) && AllFrom(subs, U) && Coherent(ViewOf(subs, true), e) && x in SubsOf(subs)
    ensures p in subs && PrimaryOf(subs, true, p) == p && Equivalent(p.sub.data, x.data)
    ensures Primary(ViewOf(subs, true), p)
    ensures FirstEq(SubsOf(subs), x) < |subs| && p == subs[FirstEq(SubsOf(subs), x)]
    ensures Accepts(p.sub.data, e) == Accepts(x.data, e)
    ensures p.sub.data in U && x.data in U
  {
    SubsOfAt(subs);
    AllFromAt(subs, U);
    var i :| 0 <= i < |subs| && SubsOf(subs)[i] == x;
    var b := subs[i];
    assert b in subs;
    PrimaryFacts(subs, U, b);
    p := PrimaryOf(subs, true, b);
    hide Accepts;
    assert ViewOf(subs, true).prim[b] == p;
  }

  /** The class of x is filed by its first member: that has an equality, or no member has. */
  ghost predicate ClassLed(l: seq<Subscription>, x: Subscription) {
    FirstEq(l, x) < |l| ==>
      HasEq(l[FirstEq(l, x)].data) || forall y | y in l && Equivalent(y.data, x.data) :: !HasEq(y.data)
  }

  /** ... exactly then all of its reports can be accounted to its primary. */
  lemma LedIffOwed(f: Setup, subs: seq<Indexed>, U: iset<seq<Entry>>, x: Subscription, p: Indexed)
    requires Preorder(U) && AllFrom(subs, U) && f.Ok() && Filtered(f, Entries(subs)) && x.data in U
    requires p in subs && PrimaryOf(subs, true, p) == p && Equivalent(p.sub.data, x.data)
    requires FirstEq(SubsOf(subs), x) < |subs| && p == subs[FirstEq(SubsOf(subs), x)]
    ensures ClassLed(SubsOf(subs), x) <==> Owed(ViewOf(subs, true), p) == Members(ViewOf(subs, true), p)
  {
    var l, v := SubsOf(subs), ViewOf(subs, true);
    SubsOfAt(subs);
    AllFromAt(subs, U);
    MembersAlike(subs, U, p);
    forall b | b in subs ensures b in Members(v, p) <==> Equivalent(b.sub.data, x.data) {
      EquivalentTransitive(U, p.sub.data, x.data, b.sub.data);
    }
    hide Equivalent, PrimaryOf, FirstEq, HasEq, Indexes;
    forall b | b in subs ensures b.bits == {} <==> !HasEq(b.sub.data) { assert b in Entries(subs); FilterTells(f, b); }
    if ClassLed(l, x) {
      forall b | b in Members(v, p) ensures b in Owed(v, p) {
        var i :| 0 <= i < |subs| && subs[i] == b;
        assert l[i] in l;
      }
    } else {
      var y :| y in l && Equivalent(y.data, x.data) && HasEq(y.data);
      var i :| 0 <= i < |l| && l[i] == y;
      assert subs[i] in subs && subs[i] in Members(v, p) && subs[i] !in Owed(v, p);
    }
  }

  lemma FilterTells(f: Setup, b: Indexed)
    requires f.Ok() && Indexes(f, b.sub.data, b.bits)
    ensures b.bits == {} <==> !HasEq(b.sub.data)
  {}

  /** Some class below x is filed by an equality and accepts e: positive propagation
    * from there reports all of the class of x. */
  ghost predicate LiftedBy(l: seq<Subscription>, e: Event, x: Subscription) {
    exists y | y in l :: LedByEquality(l, y) && StrictlyIncludes(x.data, y.data) && Accepts(y.data, e)
  }

  /** The first member of the class of x has an equality. */
  predicate LedByEquality(l: seq<Subscription>, x: Subscription) {
    FirstEq(l, x) < |l| && HasEq(l[FirstEq(l, x)].data)
  }

  /** The subscriptions without an equality, which are on the default list. */
  function Plain(l: seq<Subscription>): seq<Subscription> {
    if l == [] then []
    else Plain(l[..|l| - 1]) + (if HasEq(l[|l| - 1].data) then [] else [l[|l| - 1]])
  }

  /** How often the class of x is reported. */
  ghost function Reports(l: seq<Subscription>, e: Event, np: bool, x: Subscription): nat {
    if !Accepts(x.data, e) then 0
    else if LedByEquality(l, x) || (np && LiftedBy(l, e, x)) then |Class(l, x)| else |Class(Plain(l), x)|
  }

  /** The class of x is reported as often as the naive scan reports it. */
  ghost predicate Whole(l: seq<Subscription>, e: Event, np: bool, x: Subscription) {
    ClassLed(l, x) || !Accepts(x.data, e) || (np && LiftedBy(l, e, x))
  }

  ghost predicate AllWhole(l: seq<Subscription>, e: Event, np: bool) { forall x | x in l :: Whole(l, e, np, x) }

  function PlainEntries(subs: seq<Indexed>): seq<Indexed> {
    if subs == [] then []
    else PlainEntries(subs[..|subs| - 1]) + (if HasEq(subs[|subs| - 1].sub.data) then [] else [subs[|subs| - 1]])
  }

  lemma {:induction false} PlainEntriesSubs(subs: seq<Indexed>)
    ensures SubsOf(PlainEntries(subs)) == Plain(SubsOf(subs))
  {
    if subs != [] {
      var rest, b := subs[..|subs| - 1], subs[|subs| - 1];
      PlainEntriesSubs(rest);
      SubsStep(PlainEntries(rest), b);
      assert SubsOf(subs)[..|subs| - 1] == SubsOf(rest) by { SubsOfAt(subs); SubsOfAt(rest); }
      assert PlainEntries(rest) + [] == PlainEntries(rest) && Plain(SubsOf(rest)) + [] == Plain(SubsOf(rest));
      hide HasEq;
    }
  }

  lemma {:induction false} PlainEntriesListed(subs: seq<Indexed>)
    requires NoDup(subs)
    ensures NoDup(PlainEntries(subs)) && forall b | b in PlainEntries(subs) :: b in subs && !HasEq(b.sub.data)
    ensures forall b | b in subs && !HasEq(b.sub.data) :: b in PlainEntries(subs)
  {
    hide HasEq;
    if subs != [] {
      var rest, b := subs[..|subs| - 1], subs[|subs| - 1];
      assert subs == rest + [b];
      PlainEntriesListed(rest);
    }
  }

  /** What is owed to a primary: its class, or the members without an equality. */
  lemma OwedSize(f: Setup, subs: seq<Indexed>, U: iset<seq<Entry>>, x: Subscription, p: Indexed)
    requires Preorder(U) && AllFrom(subs, U) && NoDup(subs) && f.Ok() && Filtered(f, Entries(subs)) && x.data in U
    requires p in subs && PrimaryOf(subs, true, p) == p && Equivalent(p.sub.data, x.data)
    requires FirstEq(SubsOf(subs), x) < |subs| && p == subs[FirstEq(SubsOf(subs), x)]
    ensures var l, v := SubsOf(subs), ViewOf(subs, true);
      && |Members(v, p)| == |Class(l, x)|
      && |Owed(v, p)| == if LedByEquality(l, x) then |Class(l, x)| else |Class(Plain(l), x)|
  {
    hide *;
    SubsOfAt(subs);
    AllFromAt(subs, U);
    MembersAlike(subs, U, p);
    AlikeSize(subs, p.sub);
    Within(subs, subs);
    ClassFromSame(subs, subs, U, p.sub, x);
    LedMeans(SubsOf(subs), x);
    FilterTellsIn(f, subs, p);
    if HasEq(p.sub.data) {
      OwedAll(ViewOf(subs, true), p);
    } else {
      var plain := PlainEntries(subs);
      PlainEntriesListed(subs);
      PlainEntriesSubs(subs);
      AlikeSize(plain, p.sub);
      ClassFromSame(plain, subs, U, p.sub, x);
      OwedPlain(f, subs, p);
    }
  }

  lemma Within(a: seq<Indexed>, subs: seq<Indexed>)
    requires a == subs
    ensures forall b | b in a :: b in subs
  {}

  lemma LedMeans(l: seq<Subscription>, x: Subscription)
    ensures LedByEquality(l, x) <==> FirstEq(l, x) < |l| && HasEq(l[FirstEq(l, x)].data)
  {}

  lemma OwedAll(v: View, p: Indexed)
    requires p.bits != {}
    ensures Owed(v, p) == Members(v, p)
  {}

  lemma OwedPlain(f: Setup, subs: seq<Indexed>, p: Indexed)
    requires f.Ok() && Filtered(f, Entries(subs)) && p.bits == {}
    requires Members(ViewOf(subs, true), p) == Alike(subs, p.sub)
    requires forall b | b in PlainEntries(subs) :: b in subs && !HasEq(b.sub.data)
    requires forall b | b in subs && !HasEq(b.sub.data) :: b in PlainEntries(subs)
    ensures Owed(ViewOf(subs, true), p) == Alike(PlainEntries(subs), p.sub)
  {
    hide Members, PlainEntries, HasEq, Equivalent, Filtered;
    forall b | b in subs ensures b.bits == {} <==> !HasEq(b.sub.data) { FilterTellsIn(f, subs, b); }
  }

  lemma FilterTellsIn(f: Setup, subs: seq<Indexed>, b: Indexed)
    requires f.Ok() && Filtered(f, Entries(subs)) && b in subs
    ensures b.bits == {} <==> !HasEq(b.sub.data)
  {
    hide HasEq, Indexes;
    assert b in Entries(subs);
    FilterTells(f, b);
  }

  /** In the index and among the subscriptions, the same classes are found by positive propagation. */
  lemma LiftedIff(f: Setup, subs: seq<Indexed>, U: iset<seq<Entry>>, e: Event, x: Subscription, p: Indexed)
    requires Preorder(U) && AllFrom(subs, U) && f.Ok() && Filtered(f, Entries(subs)) && Coherent(ViewOf(subs, true), e)
    requires p.sub.data in U && x.data in U && Equivalent(p.sub.data, x.data)
    ensures Lifted(ViewOf(subs, true), e, p) <==> LiftedBy(SubsOf(subs), e, x)
  {
    hide *;
    var l := SubsOf(subs);
    SubsOfAt(subs);
    if Lifted(ViewOf(subs, true), e, p) {
      var q := LiftedFrom(subs, e, p);
      PrimaryListed(subs, U, q);
      FilterTellsIn(f, subs, q);
      StrictSwap(U, p.sub.data, x.data, q.sub.data);
      EntryIn(subs, q);
      LedMeans(l, q.sub);
      LiftedByIf(l, e, x, q.sub);
    }
    if LiftedBy(l, e, x) {
      var y := LiftedByFrom(l, e, x);
      var q := ClassPrimary(subs, U, e, y);
      LedMeans(l, y);
      FilterTellsIn(f, subs, q);
      StrictSwap(U, p.sub.data, x.data, y.data);
      StrictDown(U, p.sub.data, y.data, q.sub.data);
      LiftedIf(subs, e, p, q);
    }
  }

  lemma LiftedFrom(subs: seq<Indexed>, e: Event, p: Indexed) returns (q: Indexed)
    requires Lifted(ViewOf(subs, true), e, p)
    ensures q in ViewOf(subs, true).all && q in subs && Primary(ViewOf(subs, true), q)
    ensures q.bits != {} && Accepts(q.sub.data, e) && StrictlyIncludes(p.sub.data, q.sub.data)
  {
    q :| q in ViewOf(subs, true).all && Primary(ViewOf(subs, true), q) && q.bits != {} && Accepts(q.sub.data, e) &&
      StrictlyIncludes(p.sub.data, q.sub.data);
  }

  lemma LiftedIf(subs: seq<Indexed>, e: Event, p: Indexed, q: Indexed)
    requires q in subs && Primary(ViewOf(subs, true), q)
    requires q.bits != {} && Accepts(q.sub.data, e) && StrictlyIncludes(p.sub.data, q.sub.data)
    ensures Lifted(ViewOf(subs, true), e, p)
  {
    hide Primary, Accepts, StrictlyIncludes, PrimaryOf;
    assert q in ViewOf(subs, true).all;
  }

  lemma LiftedByFrom(l: seq<Subscription>, e: Event, x: Subscription) returns (y: Subscription)
    requires LiftedBy(l, e, x)
    ensures y in l && LedByEquality(l, y) && StrictlyIncludes(x.data, y.data) && Accepts(y.data, e)
  {
    y :| y in l && LedByEquality(l, y) && StrictlyIncludes(x.data, y.data) && Accepts(y.data, e);
  }

  lemma LiftedByIf(l: seq<Subscription>, e: Event, x: Subscription, y: Subscription)
    requires y in l && LedByEquality(l, y) && StrictlyIncludes(x.data, y.data) && Accepts(y.data, e)
    ensures LiftedBy(l, e, x)
  {}

  lemma EntryIn(subs: seq<Indexed>, b: Indexed)
    requires b in subs
    ensures b.sub in SubsOf(subs)
  {
    SubsOfAt(subs);
    var i :| 0 <= i < |subs| && subs[i] == b;
    assert SubsOf(subs)[i] in SubsOf(subs);
  }

  lemma StrictSwap(U: iset<seq<Entry>>, a: seq<Entry>, b: seq<Entry>, c: seq<Entry>)
    requires Preorder(U) && a in U && b in U && c in U && Equivalent(a, b)
    ensures StrictlyIncludes(a, c) <==> StrictlyIncludes(b, c)
  {
    assert TransitiveAt(a, b, c) && TransitiveAt(b, a, c) && TransitiveAt(c, a, b) && TransitiveAt(c, b, a);
  }

  lemma StrictDown(U: iset<seq<Entry>>, a: seq<Entry>, b: seq<Entry>, c: seq<Entry>)
    requires Preorder(U) && a in U && b in U && c in U && StrictlyIncludes(a, b) && Equivalent(c, b)
    ensures StrictlyIncludes(a, c)
  {
    assert TransitiveAt(a, b, c) && TransitiveAt(b, c, a);
  }

  /** With a graph: how often the class of x is reported, which is as often as the
    * naive scan reports it exactly if its filing, or propagation, allows. */
  lemma GroupedClass(f: Setup, subs: seq<Indexed>, U: iset<seq<Entry>>, np: bool, e: Event, log: seq<Indexed>,
                     x: Subscription)
    requires Preorder(U) && AllFrom(subs, U) && NoDup(subs) && Coherent(ViewOf(subs, true), e) && x in SubsOf(subs)
    requires f.Ok() && Filtered(f, Entries(subs)) && Exact(ViewOf(subs, true), e, np, log)
    ensures |Class(SubsOf(log), x)| == Reports(SubsOf(subs), e, np, x)
    ensures |Class(SubsOf(log), x)| <= |Class(Scan(SubsOf(subs), e), x)|
    ensures |Class(SubsOf(log), x)| == |Class(Scan(SubsOf(subs), e), x)| <==> Whole(SubsOf(subs), e, np, x)
  {
    hide *;
    LogWithin(subs, np, e, log);
    var p := ClassPrimary(subs, U, e, x);
    p := ClassReports(subs, U, e, log, x);
    ShareAt(subs, np, e, log, p);
    LedIffOwed(f, subs, U, x, p);
    OwedIsMembers(ViewOf(subs, true), p);
    OwedNoMore(ViewOf(subs, true), p);
    OwedSize(f, subs, U, x, p);
    LiftedIff(f, subs, U, e, x, p);
    ReportsMean(SubsOf(subs), e, np, x);
  }

  lemma OwedNoMore(v: View, p: Indexed)
    ensures |Owed(v, p)| <= |Members(v, p)|
  {
    assert Members(v, p) == Owed(v, p) + (Members(v, p) - Owed(v, p));
  }

  lemma ReportsMean(l: seq<Subscription>, e: Event, np: bool, x: Subscription)
    ensures Reports(l, e, np, x) ==
      if !Accepts(x.data, e) then 0
      else if np && LiftedBy(l, e, x) then |Class(l, x)|
      else if LedByEquality(l, x) then |Class(l, x)| else |Class(Plain(l), x)|
    ensures Whole(l, e, np, x) <==> ClassLed(l, x) || !Accepts(x.data, e) || (np && LiftedBy(l, e, x))
  {
    hide LiftedBy, LedByEquality, Class, Accepts, ClassLed;
  }

  lemma ShareAt(subs: seq<Indexed>, np: bool, e: Event, log: seq<Indexed>, p: Indexed)
    requires Exact(ViewOf(subs, true), e, np, log) && Primary(ViewOf(subs, true), p)
    ensures var v := ViewOf(subs, true);
      Tally(v, log, p) ==
        if !Accepts(p.sub.data, e) then 0 else if np && Lifted(v, e, p) then |Members(v, p)| else |Owed(v, p)|
  {
    hide Accepts, Tally, Lifted, PrimaryOf;
  }

  lemma LogWithin(subs: seq<Indexed>, np: bool, e: Event, log: seq<Indexed>)
    requires Exact(ViewOf(subs, true), e, np, log)
    ensures forall b | b in log :: b in subs
  {}

  /** Every class is filed by its first member. */
  ghost predicate AllLed(l: seq<Subscription>) { forall x | x in l :: ClassLed(l, x) }

  lemma LedWhole(l: seq<Subscription>, e: Event, np: bool)
    requires AllLed(l)
    ensures AllWhole(l, e, np)
  {
    hide ClassLed, Accepts, LiftedBy;
  }

  /** With a graph: never more reports than the naive scan has, and as many exactly if every class is reported whole. */
  lemma GroupedExact(f: Setup, subs: seq<Indexed>, U: iset<seq<Entry>>, np: bool, e: Event, log: seq<Indexed>)
    requires Preorder(U) && AllFrom(subs, U) && NoDup(subs) && Coherent(ViewOf(subs, true), e)
    requires f.Ok() && Filtered(f, Entries(subs)) && Exact(ViewOf(subs, true), e, np, log)
    ensures |SubsOf(log)| <= |Scan(SubsOf(subs), e)|
    ensures |SubsOf(log)| == |Scan(SubsOf(subs), e)| <==> AllWhole(SubsOf(subs), e, np)
  {
    hide *;
    var v, l, naive := ViewOf(subs, true), SubsOf(subs), Naive(subs, e);
    NaiveWithin(subs, e);
    NaiveIsScan(subs, e);
    SubsOfAt(log);
    SubsOfAt(naive);
    LogWithin(subs, np, e, log);
    TalliesFrom(f, subs, U, np, e, log);
    ViewAll(subs);
    FewerReports(v, e, log, naive);
    if AllWhole(l, e, np) {
      WholeAgrees(f, subs, U, np, e, log);
      SameTallies(v, e, log, naive);
    }
    if |log| == |naive| { AgreeWhole(f, subs, U, np, e, log); }
  }

  lemma ViewAll(subs: seq<Indexed>)
    ensures forall b | b in subs :: b in ViewOf(subs, true).all
  {}

  ghost predicate TalliesBelow(v: View, a: seq<Indexed>, b: seq<Indexed>) {
    forall p | p in v.all && Primary(v, p) :: Tally(v, a, p) <= Tally(v, b, p)
  }

  lemma FewerReports(v: View, e: Event, a: seq<Indexed>, b: seq<Indexed>)
    requires Coherent(v, e) && (forall x | x in a :: x in v.all) && (forall x | x in b :: x in v.all)
    requires TalliesBelow(v, a, b)
    ensures |a| <= |b| && (|a| == |b| ==> TalliesAgree(v, a, b))
  {
    hide *;
    PrimariesLength(v, a);
    PrimariesLength(v, b);
    Known(v, e);
    var A, B := multiset(Primaries(v, a)), multiset(Primaries(v, b));
    forall p | p in A ensures A[p] <= B[p] { FewerAt(v, e, a, b, p); }
    SubMultiset(A, B);
    if A == B {
      forall p | p in v.all ensures Tally(v, a, p) == Tally(v, b, p) {
        PrimariesTally(v, a, p);
        PrimariesTally(v, b, p);
      }
      AgreeIf(v, a, b);
    }
  }

  lemma AgreeIf(v: View, a: seq<Indexed>, b: seq<Indexed>)
    requires forall p | p in v.all :: Tally(v, a, p) == Tally(v, b, p)
    ensures TalliesAgree(v, a, b)
  {
    hide Tally;
  }

  lemma SubMultiset(A: multiset<Indexed>, B: multiset<Indexed>)
    requires forall p | p in A :: A[p] <= B[p]
    ensures |A| <= |B| && (|A| == |B| ==> A == B)
  {
    var C := B - A;
    assert A + C == B;
    assert |B| == |A| + |C|;
  }

  lemma FewerAt(v: View, e: Event, a: seq<Indexed>, b: seq<Indexed>, p: Indexed)
    requires Coherent(v, e) && (forall x | x in a :: x in v.all) && (forall x | x in b :: x in v.all)
    requires TalliesBelow(v, a, b) && p in multiset(Primaries(v, a))
    ensures multiset(Primaries(v, a))[p] <= multiset(Primaries(v, b))[p]
  {
    PrimariesPrimary(v, e, a);
    Known(v, e);
    hide Coherent, Primary, Primaries, Tally;
    assert p in Primaries(v, a);
    PrimariesTally(v, a, p);
    PrimariesTally(v, b, p);
  }

  lemma TalliesFrom(f: Setup, subs: seq<Indexed>, U: iset<seq<Entry>>, np: bool, e: Event, log: seq<Indexed>)
    requires Preorder(U) && AllFrom(subs, U) && NoDup(subs) && Coherent(ViewOf(subs, true), e)
    requires f.Ok() && Filtered(f, Entries(subs)) && Exact(ViewOf(subs, true), e, np, log)
    ensures TalliesBelow(ViewOf(subs, true), log, Naive(subs, e))
  {
    var v := ViewOf(subs, true);
    forall p | p in v.all && Primary(v, p) ensures Tally(v, log, p) <= Tally(v, Naive(subs, e), p) {
      hide *;
      ShareAt(subs, np, e, log, p);
      OwedNoMore(v, p);
      NaiveExact(subs, true, e, p);
    }
  }

  /** The two reports of the class of p, as tallies and as classes. */
  lemma ClassTallies(subs: seq<Indexed>, U: iset<seq<Entry>>, e: Event, log: seq<Indexed>, p: Indexed)
    requires Preorder(U) && AllFrom(subs, U) && p in subs && PrimaryOf(subs, true, p) == p
    requires forall b | b in log :: b in subs
    ensures Tally(ViewOf(subs, true), log, p) == |Class(SubsOf(log), p.sub)|
    ensures Tally(ViewOf(subs, true), Naive(subs, e), p) == |Class(Scan(SubsOf(subs), e), p.sub)|
  {
    hide *;
    TallyIsClass(subs, U, log, p);
    NaiveWithin(subs, e);
    NaiveIsScan(subs, e);
    TallyIsClass(subs, U, Naive(subs, e), p);
  }

  lemma WholeAgrees(f: Setup, subs: seq<Indexed>, U: iset<seq<Entry>>, np: bool, e: Event, log: seq<Indexed>)
    requires Preorder(U) && AllFrom(subs, U) && NoDup(subs) && Coherent(ViewOf(subs, true), e)
    requires f.Ok() && Filtered(f, Entries(subs)) && Exact(ViewOf(subs, true), e, np, log)
    requires AllWhole(SubsOf(subs), e, np)
    ensures TalliesAgree(ViewOf(subs, true), log, Naive(subs, e))
  {
    var v, l := ViewOf(subs, true), SubsOf(subs);
    forall p | p in v.all && Primary(v, p) ensures Tally(v, log, p) == Tally(v, Naive(subs, e), p) {
      hide *;
      LogWithin(subs, np, e, log);
      PrimaryListed(subs, U, p);
      EntryIn(subs, p);
      WholeAt(l, e, np, p.sub);
      GroupedClass(f, subs, U, np, e, log, p.sub);
      ClassTallies(subs, U, e, log, p);
    }
  }

  lemma WholeAt(l: seq<Subscription>, e: Event, np: bool, x: Subscription)
    requires AllWhole(l, e, np) && x in l
    ensures Whole(l, e, np, x)
  {}

  lemma AgreeWhole(f: Setup, subs: seq<Indexed>, U: iset<seq<Entry>>, np: bool, e: Event, log: seq<Indexed>)
    requires Preorder(U) && AllFrom(subs, U) && NoDup(subs) && Coherent(ViewOf(subs, true), e)
    requires f.Ok() && Filtered(f, Entries(subs)) && Exact(ViewOf(subs, true), e, np, log)
    requires TalliesAgree(ViewOf(subs, true), log, Naive(subs, e))
    ensures AllWhole(SubsOf(subs), e, np)
  {
    var v, l := ViewOf(subs, true), SubsOf(subs);
    forall x | x in l ensures Whole(l, e, np, x) {
      hide *;
      LogWithin(subs, np, e, log);
      var p := ClassPrimary(subs, U, e, x);
      p := ClassReports(subs, U, e, log, x);
      AgreeAt(subs, log, Naive(subs, e), p);
      NaiveExact(subs, true, e, p);
      GroupedClass(f, subs, U, np, e, log, x);
    }
  }

  lemma AgreeAt(subs: seq<Indexed>, a: seq<Indexed>, b: seq<Indexed>, p: Indexed)
    requires TalliesAgree(ViewOf(subs, true), a, b) && p in subs && Primary(ViewOf(subs, true), p)
    ensures Tally(ViewOf(subs, true), a, p) == Tally(ViewOf(subs, true), b, p)
  {
    hide Tally, PrimaryOf;
  }

  lemma PrimaryListed(subs: seq<Indexed>, U: iset<seq<Entry>>, p: Indexed)
    requires Preorder(U) && AllFrom(subs, U) && p in ViewOf(subs, true).all && Primary(ViewOf(subs, true), p)
    ensures p in subs && PrimaryOf(subs, true, p) == p && p.sub.data in U && Equivalent(p.sub.data, p.sub.data)
    ensures FirstEq(SubsOf(subs), p.sub) < |subs| && p == subs[FirstEq(SubsOf(subs), p.sub)]
  {
    PrimaryFacts(subs, U, p);
    AllFromAt(subs, U);
  }

  lemma ClassFromSame(log: seq<Indexed>, subs: seq<Indexed>, U: iset<seq<Entry>>, s: Subscription, t: Subscription)
    requires Preorder(U) && AllFrom(subs, U) && (forall b | b in log :: b in subs)
    requires s.data in U && t.data in U && Equivalent(s.data, t.data)
    ensures Class(SubsOf(log), s) == Class(SubsOf(log), t)
  {
    AllFromAt(subs, U);
    SubsOfAt(log);
    ClassSame(SubsOf(log), s, t, U);
  }

  /** Where containers keep equalities, every class is filed by its first member. */
  lemma KeptLed(l: seq<Subscription>, U: iset<seq<Entry>>)
    requires Preorder(U) && From(l, U) && EqualityKept(U)
    ensures AllLed(l)
  {
    forall x | x in l ensures ClassLed(l, x) {
      ClassHead(l, x);
      if FirstEq(l, x) < |l| {
        var p := l[FirstEq(l, x)];
        assert p in l;
        forall y | y in l && Equivalent(y.data, x.data) ensures HasEq(y.data) ==> HasEq(p.data) {
          EquivalentTransitive(U, p.data, x.data, y.data);
        }
      }
    }
  }

  /** Where no subscription bounds a key from both sides every class is filed by its first member. */
  lemma PairFreeLed(l: seq<Subscription>, U: iset<seq<Entry>>)
    requires Preorder(U) && From(l, U) && forall d :: d in U ==> NoPair(d)
    ensures AllLed(l)
  {
    hide *;
    NoPairEqualityKept(U);
    KeptLed(l, U);
  }
}
