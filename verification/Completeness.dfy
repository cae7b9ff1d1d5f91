/** Containment finds what there is to find: the case table decides implication
  * over the reals, and so does the whole decision where no key is constrained twice. */
module Completeness {
  import opened Subscriptions
  import opened Containment

  /** What a predicate allows among the reals. */
  ghost predicate Allows(p: Predicate, x: real) {
    var v := p.val as real;
    match p.op
    case Exists => true
    case Eq => x == v
    case Ne => x < v || v < x
    case Lt => x < v
    case Gt => v < x
    case Le => !(v < x)
    case Ge => !(x < v)
    case _ => false
  }

  /** On integral values that is what matching tests. */
  lemma AllowsHolds(p: Predicate, x: Value)
    ensures Allows(p, x as real) <==> Holds(p, x)
  {}

  /** Every real that q allows, p allows. */
  ghost predicate Weaker(p: Predicate, q: Predicate) { forall x: real :: Allows(q, x) ==> Allows(p, x) }

  /** The case table is exact: a predicate is found to imply another if and only if it does. */
  lemma ImpliesExact(p: Predicate, q: Predicate)
    requires q.op.Supported()
    ensures Implies(p, q) <==> Weaker(p, q)
  {
    if !Implies(p, q) {
      var x := Apart(p, q);
      assert Allows(q, x) && !Allows(p, x);
    }
  }

  /** A value that q allows and p does not. */
  ghost function Apart(p: Predicate, q: Predicate): (x: real)
    requires q.op.Supported() && !Implies(p, q)
    ensures Allows(q, x) && !Allows(p, x)
  {
    var a, b := p.val as real, q.val as real;
    var lo, hi := if a < b then a - 1.0 else b - 1.0, if a < b then b + 1.0 else a + 1.0;
    if Allows(q, lo) && !Allows(p, lo) then lo
    else if Allows(q, hi) && !Allows(p, hi) then hi
    else if Allows(q, a) && !Allows(p, a) then a
    else if Allows(q, b) && !Allows(p, b) then b
    else (a + b) / 2.0
  }

  ghost predicate AllowsInteger(p: Predicate, x: int) { Allows(p, x as real) }

  predicate IntegerTest(p: Predicate, x: int) {
    match p.op
    case Exists => true
    case Eq => x == p.val
    case Ne => x != p.val
    case Lt => x < p.val
    case Gt => x > p.val
    case Le => x <= p.val
    case Ge => x >= p.val
    case _ => false
  }

  lemma AllowsIntegerMeans(p: Predicate, x: int)
    ensures AllowsInteger(p, x) <==> IntegerTest(p, x)
  {}

  /** Among the integers alone two more implications hold, which the table does not
    * find: a < v + 1 implies a <= v, and a > v - 1 implies a >= v. */
  lemma IntegersExact(p: Predicate, q: Predicate)
    requires q.op.Supported()
    ensures (forall x: int :: AllowsInteger(q, x) ==> AllowsInteger(p, x)) <==>
      || Implies(p, q)
      || (p.op == Le && q.op == Lt && q.val == p.val + 1)
      || (p.op == Ge && q.op == Gt && q.val == p.val - 1)
  {
    forall x: int
      ensures AllowsInteger(p, x) <==> IntegerTest(p, x)
      ensures AllowsInteger(q, x) <==> IntegerTest(q, x)
    {
      AllowsIntegerMeans(p, x);
      AllowsIntegerMeans(q, x);
    }
    hide AllowsInteger;
    var a: int, b: int := p.val, q.val;
    var lo, hi, up, down := Min(a, b) - 1, Max(a, b) + 1, a + 1, a - 1;
    assert IntegerTest(q, lo) && !IntegerTest(p, lo) ==> !(AllowsInteger(q, lo) ==> AllowsInteger(p, lo));
    assert IntegerTest(q, hi) && !IntegerTest(p, hi) ==> !(AllowsInteger(q, hi) ==> AllowsInteger(p, hi));
    assert IntegerTest(q, a) && !IntegerTest(p, a) ==> !(AllowsInteger(q, a) ==> AllowsInteger(p, a));
    assert IntegerTest(q, b) && !IntegerTest(p, b) ==> !(AllowsInteger(q, b) ==> AllowsInteger(p, b));
    assert IntegerTest(q, up) && !IntegerTest(p, up) ==> !(AllowsInteger(q, up) ==> AllowsInteger(p, up));
    assert IntegerTest(q, down) && !IntegerTest(p, down) ==> !(AllowsInteger(q, down) ==> AllowsInteger(p, down));
  }

  // ---------------------------------------------------------------------------
  // Lists of predicates
  // ---------------------------------------------------------------------------

  /** A bound at v and, later in the list, one from the other side. */
  ghost predicate Bounded(v: Value, ps: seq<Predicate>) {
    exists i, j | 0 <= i < j < |ps| :: Opposite(v, ps[i], ps[j])
  }

  ghost predicate Opposite(v: Value, p: Predicate, q: Predicate) {
    p.val == v && ((p.op == Ge && q.op == Le) || (p.op == Le && q.op == Ge))
  }

  /** What covers p: a predicate that implies it, or, for an equality, a bound at
    * its constant followed by any bound from the other side. */
  lemma {:induction false} CoveredExact(p: Predicate, ps: seq<Predicate>)
    requires forall q | q in ps :: q.op.Supported()
    ensures Covered(p, ps) <==> (exists q | q in ps :: Weaker(p, q)) || (p.op == Eq && Bounded(p.val, ps))
  {
    hide Implies, Weaker;
    if ps != [] {
      var rest := ps[1..];
      assert ps == [ps[0]] + rest && ps[0] in ps;
      CoveredExact(p, rest);
      ImpliesExact(p, ps[0]);
      HeadExact(p.val, ps);
      assert forall q :: q in ps <==> q == ps[0] || q in rest;
    }
  }

  lemma HeadExact(v: Value, ps: seq<Predicate>)
    requires ps != []
    ensures Bounded(v, ps) <==> PairHead(v, ps) || Bounded(v, ps[1..])
  {
    var rest := ps[1..];
    if PairHead(v, ps) {
      var q := HasOpWitness(rest, if ps[0].op == Ge then Le else Ge);
      var j :| 0 <= j < |rest| && rest[j] == q;
      assert Opposite(v, ps[0], ps[j + 1]);
    }
    if i, j :| 0 <= i < j < |rest| && Opposite(v, rest[i], rest[j]) {
      assert Opposite(v, ps[i + 1], ps[j + 1]);
    }
    if i, j :| 0 <= i < j < |ps| && Opposite(v, ps[i], ps[j]) {
      if i == 0 {
        assert ps[j] == rest[j - 1];
        HasOpFrom(rest, ps[j]);
      } else {
        assert Opposite(v, rest[i - 1], rest[j - 1]);
      }
    }
  }

  // ---------------------------------------------------------------------------
  // Subscriptions with one predicate on each key
  // ---------------------------------------------------------------------------

  /** A publication with real values. */
  type RealEvent = map<Key, real>

  ghost predicate AcceptsReal(d: seq<Entry>, e: RealEvent) {
    forall t | t in d :: t.key in e && Allows(t.pred, e[t.key])
  }

  ghost predicate Single(d: seq<Entry>) {
    (forall t | t in d :: t.pred.op.Supported()) && forall k :: |Range(d, k)| <= 1
  }

  /** Containment of b is found if and only if it is there. */
  lemma IncludesExact(a: seq<Entry>, b: seq<Entry>)
    requires Single(b)
    ensures Includes(a, b) <==> forall e: RealEvent :: AcceptsReal(b, e) ==> AcceptsReal(a, e)
  {
    IncludesAll(a, b);
    if Includes(a, b) {
      forall e: RealEvent | AcceptsReal(b, e) ensures AcceptsReal(a, e) {
        forall t | t in a ensures t.key in e && Allows(t.pred, e[t.key]) { CoverHolds(t, b, e); }
      }
    }
    if forall e: RealEvent :: AcceptsReal(b, e) ==> AcceptsReal(a, e) {
      forall t | t in a ensures Covered(t.pred, Range(b, t.key)) { HoldingCovered(a, b, t); }
    }
  }

  lemma CoverHolds(t: Entry, b: seq<Entry>, e: RealEvent)
    requires Single(b) && AcceptsReal(b, e) && Covered(t.pred, Range(b, t.key))
    ensures t.key in e && Allows(t.pred, e[t.key])
  {
    hide Allows;
    var ps := Range(b, t.key);
    forall q | q in ps ensures Entry(t.key, q) in b { RangeMember(b, t.key, q); }
    CoveredExact(t.pred, ps);
    var q :| q in ps && Weaker(t.pred, q);
    assert Entry(t.key, q) in b;
  }

  /** Some value that a predicate allows. */
  ghost function Sample(p: Predicate): (x: real)
    requires p.op.Supported()
    ensures Allows(p, x)
  {
    match p.op
    case Ne | Gt => p.val as real + 1.0
    case Lt => p.val as real - 1.0
    case _ => p.val as real
  }

  /** A publication that b accepts. */
  ghost function Accepted(b: seq<Entry>): (e: RealEvent)
    requires Single(b)
    ensures AcceptsReal(b, e) && e.Keys == KeysOf(b)
  {
    var e := map k | k in KeysOf(b) :: SampleAt(b, k);
    assert AcceptsReal(b, e) by {
      forall t | t in b ensures t.key in e && Allows(t.pred, e[t.key]) {
        assert t.key in KeysOf(b);
        OnlyOne(b, t);
      }
    }
    e
  }

  ghost function SampleAt(b: seq<Entry>, k: Key): real
    requires Single(b)
  {
    var ps := Range(b, k);
    if ps != [] && ps[0].op.Supported() then Sample(ps[0]) else 0.0
  }

  lemma OnlyOne(b: seq<Entry>, t: Entry)
    requires Single(b) && t in b
    ensures Range(b, t.key) == [t.pred]
  {
    RangeMember(b, t.key, t.pred);
  }

  lemma HoldingCovered(a: seq<Entry>, b: seq<Entry>, t: Entry)
    requires Single(b) && t in a && forall e: RealEvent :: AcceptsReal(b, e) ==> AcceptsReal(a, e)
    ensures Covered(t.pred, Range(b, t.key))
  {
    hide *;
    var e := Accepted(b);
    assert AcceptsReal(a, e);
    KeyAsked(a, e, t);
    var s := OnKey(b, t.key);
    OnlyOne(b, s);
    if !Implies(t.pred, s.pred) {
      var x := Apart(t.pred, s.pred);
      AcceptsChanged(b, e, s, x);
      KeyAsked(a, e[s.key := x], t);
      assert false;
    }
    CoveredBy(t.pred, s.pred, [s.pred]);
  }

  lemma KeyAsked(a: seq<Entry>, e: RealEvent, t: Entry)
    requires t in a && AcceptsReal(a, e)
    ensures t.key in e && Allows(t.pred, e[t.key])
  {
    hide Allows;
  }

  lemma OnKey(b: seq<Entry>, k: Key) returns (s: Entry)
    requires k in KeysOf(b)
    ensures s in b && s.key == k && (Single(b) ==> s.pred.op.Supported())
  {
    s :| s in b && s.key == k;
  }

  /** The value of the key of s may be any that s allows. */
  lemma AcceptsChanged(b: seq<Entry>, e: RealEvent, s: Entry, x: real)
    requires Single(b) && s in b && AcceptsReal(b, e) && Allows(s.pred, x)
    ensures AcceptsReal(b, e[s.key := x])
  {
    hide Allows;
    OnlyOne(b, s);
    forall r | r in b ensures r.key in e[s.key := x] && Allows(r.pred, e[s.key := x][r.key]) {
      if r.key == s.key { OnlyOne(b, r); }
    }
  }
}
