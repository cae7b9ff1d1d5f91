/** Three subscriptions that strictly contain one another in a circle. */
module Circle {
  import opened Subscriptions
  import opened Containment

  // Three ways to say that a value is 5. The second is wrongly taken to contain the
  // third but not to be contained in it; the first goes with both.
  const POINT := [Predicate(Eq, 5)]
  const LOOSE := [Predicate(Ge, 5), Predicate(Le, 6), Predicate(Ne, 6)]
  const TIGHT := [Predicate(Ge, 5), Predicate(Le, 5)]

  ghost predicate AllCovered(ps: seq<Predicate>, qs: seq<Predicate>) { forall p | p in ps :: Covered(p, qs) }

  predicate AllHold(ps: seq<Predicate>, x: Value) { forall p | p in ps :: Holds(p, x) }

  function On(k: Key, ps: seq<Predicate>): seq<Entry> {
    if ps == [] then [] else [Entry(k, ps[0])] + On(k, ps[1..])
  }

  function Triple(ps: seq<Predicate>, qs: seq<Predicate>, rs: seq<Predicate>): seq<Entry> {
    On("a", ps) + On("b", qs) + On("c", rs)
  }

  lemma {:induction false} OnMembers(k: Key, ps: seq<Predicate>, t: Entry)
    ensures t in On(k, ps) <==> t.key == k && t.pred in ps
  {
    if ps != [] {
      OnMembers(k, ps[1..], t);
      assert ps == [ps[0]] + ps[1..];
    }
  }

  lemma {:induction false} OnRange(k: Key, ps: seq<Predicate>, j: Key)
    ensures Range(On(k, ps), j) == if j == k then ps else []
  {
    if ps != [] {
      OnRange(k, ps[1..], j);
      RangeCons(Entry(k, ps[0]), On(k, ps[1..]), j);
    }
  }

  lemma TripleRange(ps: seq<Predicate>, qs: seq<Predicate>, rs: seq<Predicate>)
    ensures var d := Triple(ps, qs, rs); Range(d, "a") == ps && Range(d, "b") == qs && Range(d, "c") == rs
  {
    TripleRangeAt(ps, qs, rs, "a");
    TripleRangeAt(ps, qs, rs, "b");
    TripleRangeAt(ps, qs, rs, "c");
    hide Triple, Range;
    Different();
  }

  lemma Different()
    ensures "a" != "b" && "a" != "c" && "b" != "c"
  {
    assert "a"[0] == 'a' && "b"[0] == 'b' && "c"[0] == 'c';
  }

  lemma TripleRangeAt(ps: seq<Predicate>, qs: seq<Predicate>, rs: seq<Predicate>, k: Key)
    ensures Range(Triple(ps, qs, rs), k) ==
      (if k == "a" then ps else []) + (if k == "b" then qs else []) + if k == "c" then rs else []
  {
    hide Range, On;
    RangeAppend(On("a", ps) + On("b", qs), On("c", rs), k);
    RangeAppend(On("a", ps), On("b", qs), k);
    OnRange("a", ps, k);
    OnRange("b", qs, k);
    OnRange("c", rs, k);
  }

  lemma TripleMembers(ps: seq<Predicate>, qs: seq<Predicate>, rs: seq<Predicate>, t: Entry)
    ensures t in Triple(ps, qs, rs) <==>
      (t.key == "a" && t.pred in ps) || (t.key == "b" && t.pred in qs) || (t.key == "c" && t.pred in rs)
  {
    OnMembers("a", ps, t);
    OnMembers("b", qs, t);
    OnMembers("c", rs, t);
    hide On;
  }

  /** Key by key. */
  lemma TripleIncludes(ps: seq<Predicate>, qs: seq<Predicate>, rs: seq<Predicate>, us: seq<Predicate>,
                       vs: seq<Predicate>, ws: seq<Predicate>)
    ensures Includes(Triple(ps, qs, rs), Triple(us, vs, ws)) <==>
      AllCovered(ps, us) && AllCovered(qs, vs) && AllCovered(rs, ws)
  {
    var d, b := Triple(ps, qs, rs), Triple(us, vs, ws);
    IncludesAll(d, b);
    TripleRange(us, vs, ws);
    forall t ensures t in d <==>
      (t.key == "a" && t.pred in ps) || (t.key == "b" && t.pred in qs) || (t.key == "c" && t.pred in rs)
    {
      TripleMembers(ps, qs, rs, t);
    }
    hide Triple, Range, Covered, Includes;
    assert "a" != "b" && "a" != "c" && "b" != "c";
    if Includes(d, b) {
      forall p | p in ps ensures Covered(p, us) { assert Entry("a", p) in d; }
      forall p | p in qs ensures Covered(p, vs) { assert Entry("b", p) in d; }
      forall p | p in rs ensures Covered(p, ws) { assert Entry("c", p) in d; }
    }
  }

  lemma TripleAccepts(ps: seq<Predicate>, qs: seq<Predicate>, rs: seq<Predicate>, e: Event)
    requires ps != [] && qs != [] && rs != []
    ensures Accepts(Triple(ps, qs, rs), e) <==>
      "a" in e && "b" in e && "c" in e && AllHold(ps, e["a"]) && AllHold(qs, e["b"]) && AllHold(rs, e["c"])
  {
    var d := Triple(ps, qs, rs);
    AcceptsAll(d, e);
    forall t ensures t in d <==>
      (t.key == "a" && t.pred in ps) || (t.key == "b" && t.pred in qs) || (t.key == "c" && t.pred in rs)
    {
      TripleMembers(ps, qs, rs, t);
    }
    hide Triple, Accepts, Holds;
    if Accepts(d, e) {
      assert Entry("a", ps[0]) in d && Entry("b", qs[0]) in d && Entry("c", rs[0]) in d;
      forall p | p in ps ensures Holds(p, e["a"]) { assert EntryHolds(Entry("a", p), e); }
      forall p | p in qs ensures Holds(p, e["b"]) { assert EntryHolds(Entry("b", p), e); }
      forall p | p in rs ensures Holds(p, e["c"]) { assert EntryHolds(Entry("c", p), e); }
    }
  }

  lemma CoveredTwo(p: Predicate, q: Predicate, r: Predicate)
    ensures Covered(p, [q]) <==> Implies(p, q)
    ensures Covered(p, [q, r]) <==> Implies(p, q) || Implies(p, r) || (p.op == Eq && PairHead(p.val, [q, r]))
  {
    hide Implies;
    assert [q, r][1..] == [r] && [q][1..] == [] && [r][1..] == [];
    assert !HasOp([], Ge) && !HasOp([], Le);
  }

  lemma CoveredThree(p: Predicate, q: Predicate, r: Predicate, s: Predicate)
    ensures Covered(p, [q, r, s]) <==>
      || Implies(p, q) || Implies(p, r) || Implies(p, s)
      || (p.op == Eq && (PairHead(p.val, [q, r, s]) || PairHead(p.val, [r, s])))
  {
    CoveredTwo(p, r, s);
    hide Implies, PairHead;
    assert [q, r, s][1..] == [r, s];
  }

  lemma PairHeads()
    ensures PairHead(5, LOOSE) && PairHead(5, TIGHT)
  {
    assert LOOSE[1..] == [Predicate(Le, 6), Predicate(Ne, 6)] && TIGHT[1..] == [Predicate(Le, 5)];
  }

  /** What covers what: all but the third by the second. */
  lemma Strands()
    ensures AllCovered(POINT, LOOSE) && AllCovered(LOOSE, TIGHT) && AllCovered(TIGHT, POINT)
    ensures !AllCovered(TIGHT, LOOSE)
  {
    PairHeads();
    CoveredThree(Predicate(Eq, 5), LOOSE[0], LOOSE[1], LOOSE[2]);
    forall p | p in LOOSE ensures Covered(p, TIGHT) { CoveredTwo(p, TIGHT[0], TIGHT[1]); }
    forall p | p in TIGHT ensures Covered(p, POINT) { CoveredTwo(p, POINT[0], POINT[0]); }
    CoveredThree(Predicate(Le, 5), LOOSE[0], LOOSE[1], LOOSE[2]);
    hide Covered, PairHead;
    assert Predicate(Le, 5) in TIGHT;
  }

  lemma Fives(x: Value)
    ensures AllHold(POINT, x) <==> x == 5
    ensures AllHold(LOOSE, x) <==> x == 5
    ensures AllHold(TIGHT, x) <==> x == 5
  {
    assert Predicate(Ge, 5) in LOOSE && Predicate(Le, 6) in LOOSE && Predicate(Ne, 6) in LOOSE;
    assert Predicate(Ge, 5) in TIGHT && Predicate(Le, 5) in TIGHT;
    assert POINT[0] in POINT;
  }

  /** All three accept exactly the events with a, b and c 5, and yet each strictly
    * contains the next. No family on which containment is a preorder holds all of
    * them. */
  lemma StrictCircle()
    ensures
      var c, p, n := Triple(POINT, TIGHT, LOOSE), Triple(LOOSE, POINT, TIGHT), Triple(TIGHT, LOOSE, POINT);
      && StrictlyIncludes(c, p) && StrictlyIncludes(p, n) && StrictlyIncludes(n, c)
      && Satisfiable(c) && Satisfiable(p) && Satisfiable(n)
      && (forall e: Event :: (Accepts(c, e) <==> Accepts(p, e)) && (Accepts(p, e) <==> Accepts(n, e)))
      && forall U :: c in U && p in U && n in U ==> !Preorder(U)
  {
    var c, p, n := Triple(POINT, TIGHT, LOOSE), Triple(LOOSE, POINT, TIGHT), Triple(TIGHT, LOOSE, POINT);
    Strands();
    TripleIncludes(POINT, TIGHT, LOOSE, LOOSE, POINT, TIGHT);
    TripleIncludes(LOOSE, POINT, TIGHT, POINT, TIGHT, LOOSE);
    TripleIncludes(LOOSE, POINT, TIGHT, TIGHT, LOOSE, POINT);
    TripleIncludes(TIGHT, LOOSE, POINT, LOOSE, POINT, TIGHT);
    TripleIncludes(TIGHT, LOOSE, POINT, POINT, TIGHT, LOOSE);
    TripleIncludes(POINT, TIGHT, LOOSE, TIGHT, LOOSE, POINT);
    CircleMeans(c, p, n);
    hide *;
    CircleNoPreorder(c, p, n);
  }

  lemma AllFives(e: Event)
    ensures var five := "a" in e && "b" in e && "c" in e && e["a"] == 5 && e["b"] == 5 && e["c"] == 5;
      && (Accepts(Triple(POINT, TIGHT, LOOSE), e) <==> five)
      && (Accepts(Triple(LOOSE, POINT, TIGHT), e) <==> five)
      && (Accepts(Triple(TIGHT, LOOSE, POINT), e) <==> five)
  {
    TripleAccepts(POINT, TIGHT, LOOSE, e);
    TripleAccepts(LOOSE, POINT, TIGHT, e);
    TripleAccepts(TIGHT, LOOSE, POINT, e);
    forall x
      ensures (AllHold(POINT, x) <==> x == 5) && (AllHold(LOOSE, x) <==> x == 5) && (AllHold(TIGHT, x) <==> x == 5)
    {
      Fives(x);
    }
    hide Accepts, Triple, AllHold;
  }

  lemma CircleMeans(c: seq<Entry>, p: seq<Entry>, n: seq<Entry>)
    requires c == Triple(POINT, TIGHT, LOOSE) && p == Triple(LOOSE, POINT, TIGHT) && n == Triple(TIGHT, LOOSE, POINT)
    ensures Satisfiable(c) && Satisfiable(p) && Satisfiable(n)
    ensures forall e: Event :: (Accepts(c, e) <==> Accepts(p, e)) && (Accepts(p, e) <==> Accepts(n, e))
  {
    hide Triple, Accepts;
    forall e: Event ensures (Accepts(c, e) <==> Accepts(p, e)) && (Accepts(p, e) <==> Accepts(n, e)) { AllFives(e); }
    var e: Event := map["a" := 5, "b" := 5, "c" := 5];
    AllFives(e);
  }

  lemma CircleNoPreorder(c: seq<Entry>, p: seq<Entry>, n: seq<Entry>)
    requires StrictlyIncludes(c, p) && StrictlyIncludes(p, n) && StrictlyIncludes(n, c)
    ensures forall U :: c in U && p in U && n in U ==> !Preorder(U)
  {
    hide Includes;
    forall U | c in U && p in U && n in U ensures !Preorder(U) {
      assert Preorder(U) ==> TransitiveAt(p, n, c);
    }
  }
}
