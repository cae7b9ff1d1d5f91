/** Exactly where the answer of the containment test depends on the order in
  * which predicates were added, and exactly which containments are inherited. */
module Exactness {
  import opened Subscriptions
  import opened Containment

  // ---------------------------------------------------------------------------
  // Rearranging the predicates of a key
  // ---------------------------------------------------------------------------

  /** One bound at v, and some bound on the other side, wherever it is. */
  predicate Straddled(ps: seq<Predicate>, v: Value) {
    (Predicate(Ge, v) in ps && HasOp(ps, Le)) || (Predicate(Le, v) in ps && HasOp(ps, Ge))
  }

  function Having(ps: seq<Predicate>, o: Op): seq<Predicate> {
    if ps == [] then [] else (if ps[0].op == o then [ps[0]] else []) + Having(ps[1..], o)
  }

  function Lacking(ps: seq<Predicate>, o: Op): seq<Predicate> {
    if ps == [] then [] else (if ps[0].op == o then [] else [ps[0]]) + Lacking(ps[1..], o)
  }

  lemma {:induction false} Regrouped(ps: seq<Predicate>, o: Op)
    ensures multiset(Having(ps, o)) + multiset(Lacking(ps, o)) == multiset(ps)
  {
    if ps != [] {
      Regrouped(ps[1..], o);
      assert ps == [ps[0]] + ps[1..];
    }
  }

  lemma {:induction false} Ops(ps: seq<Predicate>, o: Op)
    ensures (forall q | q in Having(ps, o) :: q.op == o) && forall q | q in Lacking(ps, o) :: q.op != o
  {
    if ps != [] { Ops(ps[1..], o); }
  }

  lemma {:induction false} NoOp(ps: seq<Predicate>, o: Op)
    requires forall q | q in ps :: q.op != o
    ensures !HasOp(ps, o)
  {
    if ps != [] {
      assert ps[0] in ps;
      NoOp(ps[1..], o);
    }
  }

  /** With all bounds on the other side first, no bound at v is followed by one. */
  lemma {:induction false} NoPairLeft(front: seq<Predicate>, back: seq<Predicate>, v: Value, near: Op, far: Op)
    requires (near == Ge && far == Le) || (near == Le && far == Ge)
    requires (forall q | q in front :: q.op == far && q.val != v) && !HasOp(back, far)
    requires Predicate(Eq, v) !in back
    ensures !Covered(Predicate(Eq, v), front + back)
  {
    if front != [] {
      assert (front + back)[1..] == front[1..] + back;
      assert front[0] in front;
      NoPairLeft(front[1..], back, v, near, far);
    } else if back != [] {
      assert front + back == back;
      assert back[1..] == [] + back[1..];
      NoPairLeft([], back[1..], v, near, far);
    }
  }

  /** An order in which the bound at v comes first... */
  lemma BoundFirst(ps: seq<Predicate>, v: Value, near: Op, far: Op) returns (first: seq<Predicate>)
    requires (near == Ge && far == Le) || (near == Le && far == Ge)
    requires Predicate(near, v) in ps && HasOp(ps, far)
    ensures multiset(first) == multiset(ps) && Covered(Predicate(Eq, v), first)
  {
    var p := Predicate(near, v);
    var j :| 0 <= j < |ps| && ps[j] == p;
    var rest := ps[..j] + ps[j + 1..];
    assert ps == ps[..j] + [p] + ps[j + 1..];
    first := [p] + rest;
    assert first[1..] == rest;
    var q := HasOpWitness(ps, far);
    assert q in multiset(first) && q != p;
    assert q in rest;
    HasOpFrom(rest, q);
  }

  /** ... and one in which all bounds on the other side come before it. */
  lemma BoundLast(ps: seq<Predicate>, v: Value, near: Op, far: Op) returns (last: seq<Predicate>)
    requires (near == Ge && far == Le) || (near == Le && far == Ge)
    requires Predicate(near, v) in ps && !Pins(ps, v)
    ensures multiset(last) == multiset(ps) && !Covered(Predicate(Eq, v), last)
  {
    Regrouped(ps, far);
    Ops(ps, far);
    NoOp(Lacking(ps, far), far);
    hide Having, Lacking, Covered;
    last := Having(ps, far) + Lacking(ps, far);
    forall x | x in last ensures x in ps { assert x in multiset(last); }
    NoPairLeft(Having(ps, far), Lacking(ps, far), v, near, far);
  }

  lemma SameMembers(ps: seq<Predicate>, qs: seq<Predicate>)
    requires multiset(ps) == multiset(qs)
    ensures forall q :: q in ps <==> q in qs
    ensures forall o :: HasOp(ps, o) <==> HasOp(qs, o)
  {
    forall q ensures q in ps <==> q in qs { assert q in multiset(ps) <==> q in multiset(qs); }
    forall o ensures HasOp(ps, o) <==> HasOp(qs, o) {
      if HasOp(ps, o) {
        var q := HasOpWitness(ps, o);
        HasOpFrom(qs, q);
      }
      if HasOp(qs, o) {
        var q := HasOpWitness(qs, o);
        HasOpFrom(ps, q);
      }
    }
  }

  /** Where no bound is straddled only the equality itself covers it. */
  lemma PlainEquality(ps: seq<Predicate>, v: Value)
    requires !Straddled(ps, v)
    ensures Covered(Predicate(Eq, v), ps) <==> Predicate(Eq, v) in ps
  {
    if Covered(Predicate(Eq, v), ps) { CoveredEquality(ps, v); }
    if Predicate(Eq, v) in ps { CoveredBy(Predicate(Eq, v), Predicate(Eq, v), ps); }
  }

  /** All arrangements of ps give the same answer if and only if p is no
    * equality, or ps pins its constant, or no bound at it is straddled. */
  lemma OrderExact(p: Predicate, ps: seq<Predicate>)
    ensures
      (forall qs :: multiset(qs) == multiset(ps) ==> (Covered(p, qs) <==> Covered(p, ps))) <==>
      (p.op == Eq ==> Pins(ps, p.val) || !Straddled(ps, p.val))
  {
    var v := p.val;
    if p.op == Eq && !Pins(ps, v) && Straddled(ps, v) {
      var first, last;
      if Predicate(Ge, v) in ps && HasOp(ps, Le) {
        first := BoundFirst(ps, v, Ge, Le);
        last := BoundLast(ps, v, Ge, Le);
      } else {
        first := BoundFirst(ps, v, Le, Ge);
        last := BoundLast(ps, v, Le, Ge);
      }
      assert Covered(p, first) != Covered(p, last);
    } else {
      forall qs | multiset(qs) == multiset(ps) ensures Covered(p, qs) <==> Covered(p, ps) { SameAnswer(p, ps, qs); }
    }
  }

  lemma SameAnswer(p: Predicate, ps: seq<Predicate>, qs: seq<Predicate>)
    requires multiset(qs) == multiset(ps) && (p.op == Eq ==> Pins(ps, p.val) || !Straddled(ps, p.val))
    ensures Covered(p, qs) <==> Covered(p, ps)
  {
    SameMembers(ps, qs);
    if p.op == Eq && Pins(ps, p.val) {
      PinsCovered(ps, p.val);
      PinsCovered(qs, p.val);
    } else if p.op == Eq {
      PlainEquality(ps, p.val);
      PlainEquality(qs, p.val);
    } else {
      OrderIrrelevant(p, ps, qs);
      OrderIrrelevant(p, qs, ps);
    }
  }

  // ---------------------------------------------------------------------------
  // Transitivity of the relation as the code has it
  // ---------------------------------------------------------------------------

  /** ps does not bound its key from both sides. */
  ghost predicate OneSided(ps: seq<Predicate>) {
    forall v: Value, w: Value :: !(Covered(Predicate(Ge, v), ps) && Covered(Predicate(Le, w), ps))
  }

  /** ps is found to cover every equality, and both extreme bounds. */
  ghost predicate Saturated(ps: seq<Predicate>) {
    && Covered(Predicate(Le, MIN), ps) && Covered(Predicate(Ge, MAX), ps)
    && forall u: Value :: Covered(Predicate(Eq, u), ps)
  }

  /** Containment of c is inherited: what contains a container of c contains c. */
  ghost predicate Inherited(c: seq<Entry>) {
    forall a, b {:trigger Includes(a, b), Includes(b, c)} :: Includes(a, b) && Includes(b, c) ==> Includes(a, c)
  }

  lemma OneSidedHasOne(qs: seq<Predicate>, ps: seq<Predicate>)
    requires OneSided(qs) && forall q | q in ps :: Covered(q, qs)
    ensures !(HasOp(ps, Ge) && HasOp(ps, Le))
  {
    if HasOp(ps, Ge) && HasOp(ps, Le) {
      var v := BoundOf(ps, Ge);
      var w := BoundOf(ps, Le);
    }
  }

  lemma BoundOf(ps: seq<Predicate>, o: Op) returns (v: Value)
    requires HasOp(ps, o)
    ensures Predicate(o, v) in ps
  {
    var q := HasOpWitness(ps, o);
    v := q.val;
    assert q == Predicate(o, v);
  }

  /** In a one-sided list an equality is covered by itself only. */
  lemma OneSidedEquality(qs: seq<Predicate>, v: Value)
    requires OneSided(qs) && Covered(Predicate(Eq, v), qs)
    ensures Predicate(Eq, v) in qs
  {
    CoveredEquality(qs, v);
    forall q | q in qs && q.op.Supported() ensures Covered(q, qs) { CoveredBy(q, q, qs); }
    if HasOp(qs, Ge) && HasOp(qs, Le) {
      var v := BoundOf(qs, Ge);
      var w := BoundOf(qs, Le);
    }
  }

  lemma OneSidedStep(p: Predicate, ps: seq<Predicate>, qs: seq<Predicate>)
    requires Covered(p, ps) && OneSided(qs) && forall q | q in ps :: Covered(q, qs)
    ensures Covered(p, qs)
  {
    OneSidedHasOne(qs, ps);
    if p.op == Eq {
      CoveredEquality(ps, p.val);
    } else {
      var q := CoveredWitness(p, ps);
      if q.op == Eq {
        OneSidedEquality(qs, q.val);
        CoveredBy(p, q, qs);
      } else {
        var r := CoveredWitness(q, qs);
        CoveredBy(p, r, qs);
      }
    }
  }

  lemma SaturatedStep(p: Predicate, ps: seq<Predicate>, qs: seq<Predicate>)
    requires Covered(p, ps) && Saturated(qs) && forall q | q in ps :: Covered(q, qs)
    ensures Covered(p, qs)
  {
    if p.op != Eq {
      var lo := CoveredWitness(Predicate(Le, MIN), qs);
      var hi := CoveredWitness(Predicate(Ge, MAX), qs);
      if Implies(p, lo) {
        CoveredBy(p, lo, qs);
      } else if Implies(p, hi) {
        CoveredBy(p, hi, qs);
      } else {
        var q := CoveredWitness(p, ps);
        assert q == p;
      }
    }
  }

  /** On this key c bounds from one side at most, or covers all that can be covered. */
  ghost predicate Conclusive(c: seq<Entry>, k: Key) { OneSided(Range(c, k)) || Saturated(Range(c, k)) }

  lemma InheritedIf(c: seq<Entry>)
    requires forall k :: Conclusive(c, k)
    ensures Inherited(c)
  {
    forall a: seq<Entry>, b: seq<Entry> | Includes(a, b) && Includes(b, c) ensures Includes(a, c) {
      IncludesAll(a, b);
      IncludesAll(b, c);
      IncludesAll(a, c);
      forall t | t in a ensures Covered(t.pred, Range(c, t.key)) { InheritedAt(b, c, t); }
    }
  }

  lemma InheritedAt(b: seq<Entry>, c: seq<Entry>, t: Entry)
    requires Conclusive(c, t.key) && Covered(t.pred, Range(b, t.key))
    requires forall x :: x in b ==> Covered(x.pred, Range(c, x.key))
    ensures Covered(t.pred, Range(c, t.key))
  {
    var ps, qs := Range(b, t.key), Range(c, t.key);
    forall q | q in ps ensures Covered(q, qs) {
      RangeMember(b, t.key, q);
      assert Entry(t.key, q) in b;
    }
    if OneSided(qs) { OneSidedStep(t.pred, ps, qs); } else { SaturatedStep(t.pred, ps, qs); }
  }

  /** What a pair of covered predicates covers is covered too. */
  lemma Carry(c: seq<Entry>, k: Key, p: Predicate, q: Predicate, r: Predicate)
    requires Inherited(c) && Covered(q, Range(c, k)) && Covered(r, Range(c, k))
    requires Implies(p, q) || Implies(p, r) ||
      (p.op == Eq && q.val == p.val && ((q.op == Ge && r.op == Le) || (q.op == Le && r.op == Ge)))
    ensures Covered(p, Range(c, k))
  {
    var a, b := [Entry(k, p)], [Entry(k, q), Entry(k, r)];
    TwoOnOneKey(k, q, r);
    hide Covered;
    assert Includes(b, c);
    OneEntry(k, p, b);
    OneEntry(k, p, c);
    assert Covered(p, [q, r]);
    assert Includes(a, b);
  }

  lemma OneEntry(k: Key, p: Predicate, d: seq<Entry>)
    ensures Includes([Entry(k, p)], d) <==> Covered(p, Range(d, k))
  {
    assert [Entry(k, p)][1..] == [];
  }

  lemma InheritedOnlyIf(c: seq<Entry>, k: Key)
    requires Inherited(c)
    ensures Conclusive(c, k)
  {
    var ps := Range(c, k);
    if v: Value, w: Value :| Covered(Predicate(Ge, v), ps) && Covered(Predicate(Le, w), ps) {
      hide Covered, Inherited;
      var low, high := Predicate(Ge, MIN), Predicate(Le, MAX);
      Carry(c, k, low, Predicate(Ge, v), Predicate(Ge, v));
      Carry(c, k, high, Predicate(Le, w), Predicate(Le, w));
      Carry(c, k, Predicate(Eq, MIN), low, high);
      Carry(c, k, Predicate(Eq, MAX), high, low);
      Carry(c, k, Predicate(Le, MIN), Predicate(Eq, MIN), high);
      Carry(c, k, Predicate(Ge, MAX), Predicate(Eq, MAX), low);
      forall u: Value ensures Covered(Predicate(Eq, u), ps) {
        Carry(c, k, Predicate(Ge, u), Predicate(Ge, MAX), low);
        Carry(c, k, Predicate(Eq, u), Predicate(Ge, u), high);
      }
    }
  }

  /** Containment of c is inherited if and only if c bounds each key from one side
    * at most, or covers there, rightly or not, all that can be covered. */
  lemma TransitivityExact(c: seq<Entry>)
    ensures Inherited(c) <==> forall k :: Conclusive(c, k)
  {
    if Inherited(c) {
      forall k ensures Conclusive(c, k) { InheritedOnlyIf(c, k); }
    }
    if forall k :: Conclusive(c, k) { InheritedIf(c); }
    hide OneSided, Saturated, Inherited;
  }

  lemma {:induction false} Interval(s: set<int>, lo: int, n: nat)
    requires forall u | lo <= u < lo + n :: u in s
    ensures |s| >= n
  {
    if n > 0 {
      Interval(s - {lo}, lo + 1, n - 1);
      assert s == s - {lo} + {lo};
    }
  }

  function Values(ps: seq<Predicate>): set<int> { if ps == [] then {} else {ps[0].val} + Values(ps[1..]) }

  lemma {:induction false} ValuesOf(ps: seq<Predicate>)
    ensures |Values(ps)| <= |ps| && forall p | p in ps :: p.val in Values(ps)
  {
    if ps != [] { ValuesOf(ps[1..]); }
  }

  /** The second case needs a predicate for every value there is. */
  lemma SaturatedSize(ps: seq<Predicate>)
    requires Saturated(ps)
    ensures |ps| >= 0x1_0000_0000
  {
    ValuesOf(ps);
    forall u: int | MIN <= u < MIN + 0x1_0000_0000 ensures u in Values(ps) { CoveredEquality(ps, u); }
    Interval(Values(ps), MIN, 0x1_0000_0000);
  }

  ghost predicate OneSidedAt(c: seq<Entry>, k: Key) { OneSided(Range(c, k)) }

  /** For all others: inherited if and only if no key is bounded from both sides. */
  lemma TransitivityOneSided(c: seq<Entry>)
    requires forall k :: |Range(c, k)| < 0x1_0000_0000
    ensures Inherited(c) <==> forall k :: OneSidedAt(c, k)
  {
    TransitivityExact(c);
    forall k ensures Conclusive(c, k) <==> OneSidedAt(c, k) {
      if Saturated(Range(c, k)) { SaturatedSize(Range(c, k)); }
    }
    hide Conclusive, OneSidedAt, Inherited;
  }

  /** Not only subscriptions that nothing matches break transitivity: all of
    * these are matched by some event, but the bounds of b do not agree. */
  lemma LooseRangeNotTransitive()
    ensures
      var a := [Entry("a", Predicate(Eq, 4))];
      var b := [Entry("a", Predicate(Ge, 4)), Entry("a", Predicate(Le, 10))];
      var c := [Entry("a", Predicate(Eq, 5))];
      && Includes(a, b) && Includes(b, c) && !Includes(a, c)
      && CrossFree(c) && Satisfiable(a) && Satisfiable(b) && Satisfiable(c)
  {
    var a := [Entry("a", Predicate(Eq, 4))];
    var b := [Entry("a", Predicate(Ge, 4)), Entry("a", Predicate(Le, 10))];
    var c := [Entry("a", Predicate(Eq, 5))];
    TwoOnOneKey("a", Predicate(Ge, 4), Predicate(Le, 10));
    OneEntry("a", Predicate(Eq, 4), b);
    OneEntry("a", Predicate(Eq, 4), c);
    assert Range(c, "a") == [Predicate(Eq, 5)] && c[1..] == [];
    SinglePredicate(Predicate(Eq, 5));
    Matched(a, b, c);
    hide Covered, Includes, Satisfiable, CrossFree, Feasible;
    SatisfiableIffFeasible(c);
    FeasibleCrossFree(c);
  }

  lemma SinglePredicate(q: Predicate)
    ensures forall p :: Covered(p, [q]) <==> Implies(p, q)
  {
    assert [q][1..] == [];
  }

  lemma Matched(a: seq<Entry>, b: seq<Entry>, c: seq<Entry>)
    requires a == [Entry("a", Predicate(Eq, 4))] && c == [Entry("a", Predicate(Eq, 5))]
    requires b == [Entry("a", Predicate(Ge, 4)), Entry("a", Predicate(Le, 10))]
    ensures Satisfiable(a) && Satisfiable(b) && Satisfiable(c)
  {
    var four: Event, five: Event := map["a" := 4], map["a" := 5];
    assert a[1..] == [] && c[1..] == [] && b[1..] == [Entry("a", Predicate(Le, 10))] && b[1..][1..] == [];
    assert Accepts(a, four);
    assert Accepts(b[1..], four);
    assert Accepts(b, four);
    assert Accepts(c, five);
  }
}
