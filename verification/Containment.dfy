/** What containment means: it is sound exactly when the two-predicate rule for
  * equality fires only on lists that pin the value, and on families where that
  * holds it is a preorder. */
module Containment {
  import opened Subscriptions

  const MIN: int := -0x8000_0000
  const MAX: int := 0x7fff_ffff

  // ---------------------------------------------------------------------------
  // The allowed values of a list of predicates, as bounds and excluded points
  // ---------------------------------------------------------------------------

  predicate AllHold(ps: seq<Predicate>, x: Value) {
    ps == [] || (Holds(ps[0], x) && AllHold(ps[1..], x))
  }

  function Max(a: int, b: int): int { if a < b then b else a }
  function Min(a: int, b: int): int { if a < b then a else b }

  /** The tightest lower bound; an unsupported operator allows nothing. */
  function Low(ps: seq<Predicate>): int {
    if ps == [] then MIN else
      var p, rest := ps[0], Low(ps[1..]);
      match p.op
      case Eq | Ge => Max(p.val, rest)
      case Gt => Max(p.val + 1, rest)
      case Contains | StartsWith => MAX + 1
      case _ => rest
  }

  /** The tightest upper bound. */
  function High(ps: seq<Predicate>): int {
    if ps == [] then MAX else
      var p, rest := ps[0], High(ps[1..]);
      match p.op
      case Eq | Le => Min(p.val, rest)
      case Lt => Min(p.val - 1, rest)
      case Contains | StartsWith => MIN - 1
      case _ => rest
  }

  predicate Hole(ps: seq<Predicate>, x: int) {
    ps != [] && ((ps[0].op == Ne && ps[0].val == x) || Hole(ps[1..], x))
  }

  /** Inside the bounds and not an excluded point. */
  predicate Admits(ps: seq<Predicate>, x: int) {
    Low(ps) <= x <= High(ps) && !Hole(ps, x)
  }

  lemma {:induction false} AdmitsExact(ps: seq<Predicate>, x: Value)
    ensures Admits(ps, x) <==> AllHold(ps, x)
  {
    if ps != [] { AdmitsExact(ps[1..], x); }
  }

  lemma {:induction false} AllHoldMember(ps: seq<Predicate>, x: Value, p: Predicate)
    requires AllHold(ps, x) && p in ps
    ensures Holds(p, x)
  {
    if p != ps[0] { AllHoldMember(ps[1..], x, p); }
  }

  // ---------------------------------------------------------------------------
  // From lists to subscriptions
  // ---------------------------------------------------------------------------

  predicate HasKey(d: seq<Entry>, k: Key) { d != [] && (d[0].key == k || HasKey(d[1..], k)) }

  /** A subscription accepts an event when each of its keys is there with an allowed value. */
  lemma {:induction false} AcceptsByKey(d: seq<Entry>, e: Event, k: Key)
    requires Accepts(d, e)
    ensures HasKey(d, k) ==> k in e
    ensures k in e ==> AllHold(Range(d, k), e[k])
  {
    if d != [] {
      AcceptsByKey(d[1..], e, k);
      var first, rest := Under(d[0], k), Range(d[1..], k);
      assert first == [] ==> first + rest == rest;
      assert first != [] ==> (first + rest)[1..] == rest;
    }
  }

  lemma {:induction false} AcceptsFromKeys(d: seq<Entry>, e: Event)
    requires forall k :: HasKey(d, k) ==> k in e && AllHold(Range(d, k), e[k])
    ensures Accepts(d, e)
  {
    AcceptsAll(d, e);
    forall t | t in d ensures EntryHolds(t, e) {
      HasKeyMember(d, t);
      RangeMember(d, t.key, t.pred);
      AllHoldMember(Range(d, t.key), e[t.key], t.pred);
    }
  }

  lemma {:induction false} HasKeyMember(d: seq<Entry>, t: Entry)
    requires t in d
    ensures HasKey(d, t.key)
  {
    if t != d[0] { HasKeyMember(d[1..], t); }
  }

  lemma {:induction false} HasKeyWitness(d: seq<Entry>, k: Key) returns (t: Entry)
    requires HasKey(d, k)
    ensures t in d && t.key == k
  {
    if d[0].key == k { t := d[0]; } else { t := HasKeyWitness(d[1..], k); }
  }

  ghost predicate Satisfiable(d: seq<Entry>) { exists e: Event :: Accepts(d, e) }

  /** Every key leaves some value. */
  ghost predicate Feasible(d: seq<Entry>) {
    forall k :: HasKey(d, k) ==> exists x: Value :: Admits(Range(d, k), x)
  }

  ghost function SomeValue(ps: seq<Predicate>): (x: Value)
    ensures (exists y: Value :: Admits(ps, y)) ==> Admits(ps, x)
  {
    if exists y: Value :: Admits(ps, y) then var y: Value :| Admits(ps, y); y else 0
  }

  ghost function KeysOf(d: seq<Entry>): set<Key> { set t | t in d :: t.key }

  /** An event that a feasible subscription accepts. */
  ghost function Witness(d: seq<Entry>): Event {
    map k | k in KeysOf(d) :: SomeValue(Range(d, k))
  }

  lemma WitnessAccepted(d: seq<Entry>, k: Key, x: Value)
    requires Feasible(d) && AllHold(Range(d, k), x)
    ensures Accepts(d, Witness(d)[k := x])
  {
    var e := Witness(d)[k := x];
    forall c | HasKey(d, c) ensures c in e && AllHold(Range(d, c), e[c]) {
      var t := HasKeyWitness(d, c);
      if c != k { AdmitsExact(Range(d, c), e[c]); }
    }
    AcceptsFromKeys(d, e);
  }

  /** A subscription matches some event exactly when every key leaves a value. */
  lemma SatisfiableIffFeasible(d: seq<Entry>)
    ensures Satisfiable(d) <==> Feasible(d)
  {
    if Satisfiable(d) {
      var e :| Accepts(d, e);
      forall k | HasKey(d, k) ensures exists x: Value :: Admits(Range(d, k), x) {
        AcceptsByKey(d, e, k);
        AdmitsExact(Range(d, k), e[k]);
      }
    }
    if Feasible(d) {
      var e := Witness(d);
      forall k | HasKey(d, k) ensures k in e && AllHold(Range(d, k), e[k]) {
        var t := HasKeyWitness(d, k);
        AdmitsExact(Range(d, k), e[k]);
      }
      AcceptsFromKeys(d, e);
    }
  }

  // ---------------------------------------------------------------------------
  // Soundness
  // ---------------------------------------------------------------------------

  /** Every event that b matches, a matches. */
  ghost predicate Sound(a: seq<Entry>, b: seq<Entry>) {
    forall e: Event :: Accepts(b, e) ==> Accepts(a, e)
  }

  /** The bounds and excluded points of ps leave no value but v. */
  ghost predicate Only(ps: seq<Predicate>, v: Value) {
    forall x: Value :: Admits(ps, x) ==> x == v
  }

  lemma {:induction false} HasOpWitness(ps: seq<Predicate>, o: Op) returns (p: Predicate)
    requires HasOp(ps, o)
    ensures p in ps && p.op == o
  {
    if ps[0].op == o { p := ps[0]; } else { p := HasOpWitness(ps[1..], o); }
  }

  /** Apart from equality, a covered predicate is implied by a single one. */
  lemma {:induction false} CoveredWitness(p: Predicate, ps: seq<Predicate>) returns (q: Predicate)
    requires Covered(p, ps) && p.op != Eq
    ensures q in ps && Implies(p, q)
  {
    if Implies(p, ps[0]) { q := ps[0]; } else { q := CoveredWitness(p, ps[1..]); }
  }

  lemma {:induction false} CoveredBy(p: Predicate, q: Predicate, ps: seq<Predicate>)
    requires q in ps && Implies(p, q)
    ensures Covered(p, ps)
  {
    if q != ps[0] { CoveredBy(p, q, ps[1..]); }
  }

  lemma ImpliesSound(p: Predicate, q: Predicate, x: Value)
    requires Implies(p, q) && Holds(q, x)
    ensures Holds(p, x)
  {}

  /** For a contained subscription that some event matches, containment is sound
    * if and only if each equality of the container is on a key where the
    * contained subscription's bounds leave no other value. */
  lemma SoundnessExact(a: seq<Entry>, b: seq<Entry>)
    requires Includes(a, b)
    ensures Sound(a, b) <==>
      (Feasible(b) ==> forall t :: t in a && t.pred.op == Eq ==> Only(Range(b, t.key), t.pred.val))
  {
    SatisfiableIffFeasible(b);
    if Feasible(b) {
      if Sound(a, b) {
        forall t | t in a && t.pred.op == Eq ensures Only(Range(b, t.key), t.pred.val) {
          SoundPins(a, b, t);
        }
      }
      if forall t :: t in a && t.pred.op == Eq ==> Only(Range(b, t.key), t.pred.val) {
        forall e: Event | Accepts(b, e) ensures Accepts(a, e) { PinnedAccepts(a, b, e); }
      }
    }
  }

  lemma SoundPins(a: seq<Entry>, b: seq<Entry>, t: Entry)
    requires Feasible(b) && Sound(a, b) && t in a && t.pred.op == Eq
    ensures Only(Range(b, t.key), t.pred.val)
  {
    forall x: Value | Admits(Range(b, t.key), x) ensures x == t.pred.val {
      AdmitsExact(Range(b, t.key), x);
      WitnessAccepted(b, t.key, x);
      AcceptsAll(a, Witness(b)[t.key := x]);
      assert EntryHolds(t, Witness(b)[t.key := x]);
    }
  }

  lemma {:induction false} CoveredHasKey(p: Predicate, b: seq<Entry>, k: Key)
    requires Covered(p, Range(b, k))
    ensures HasKey(b, k)
  {
    if !(b[0].key == k) {
      assert Range(b, k) == Range(b[1..], k);
      CoveredHasKey(p, b[1..], k);
    }
  }

  lemma PinnedAccepts(a: seq<Entry>, b: seq<Entry>, e: Event)
    requires Includes(a, b) && Accepts(b, e)
    requires forall t :: t in a && t.pred.op == Eq ==> Only(Range(b, t.key), t.pred.val)
    ensures Accepts(a, e)
  {
    IncludesAll(a, b);
    AcceptsAll(a, e);
    forall t | t in a ensures EntryHolds(t, e) {
      var ps := Range(b, t.key);
      CoveredHasKey(t.pred, b, t.key);
      AcceptsByKey(b, e, t.key);
      if t.pred.op == Eq {
        AdmitsExact(ps, e[t.key]);
      } else {
        var q := CoveredWitness(t.pred, ps);
        AllHoldMember(ps, e[t.key], q);
        ImpliesSound(t.pred, q, e[t.key]);
      }
    }
  }

  // ---------------------------------------------------------------------------
  // When the two-predicate rule means what it should
  // ---------------------------------------------------------------------------

  /** The list pins v by an equality or by both bounds at v. */
  predicate Pins(ps: seq<Predicate>, v: Value) {
    Predicate(Eq, v) in ps || (Predicate(Ge, v) in ps && Predicate(Le, v) in ps)
  }

  /** Each equality of a that the code finds covered in b is really pinned there. */
  ghost predicate PairsPinned(a: seq<Entry>, b: seq<Entry>) {
    forall t :: t in a && t.pred.op == Eq && Covered(t.pred, Range(b, t.key)) ==> Pins(Range(b, t.key), t.pred.val)
  }

  lemma {:induction false} HasOpFrom(ps: seq<Predicate>, p: Predicate)
    requires p in ps
    ensures HasOp(ps, p.op)
  {
    if ps[0] != p { HasOpFrom(ps[1..], p); }
  }

  lemma {:induction false} PinsCovered(ps: seq<Predicate>, v: Value)
    requires Pins(ps, v)
    ensures Covered(Predicate(Eq, v), ps)
  {
    var lo, hi, eq := Predicate(Ge, v), Predicate(Le, v), Predicate(Eq, v);
    if eq in ps {
      CoveredBy(eq, eq, ps);
    } else if ps[0] == lo {
      HasOpFrom(ps[1..], hi);
    } else if ps[0] == hi {
      HasOpFrom(ps[1..], lo);
    } else {
      PinsCovered(ps[1..], v);
    }
  }

  /** What the code accepts as a cover of an equality. */
  lemma {:induction false} CoveredEquality(ps: seq<Predicate>, v: Value)
    requires Covered(Predicate(Eq, v), ps)
    ensures Predicate(Eq, v) in ps ||
      (HasOp(ps, Ge) && HasOp(ps, Le) && (Predicate(Ge, v) in ps || Predicate(Le, v) in ps))
  {
    if ps[0] != Predicate(Eq, v) && !PairHead(v, ps) { CoveredEquality(ps[1..], v); }
  }

  lemma PinsOnly(ps: seq<Predicate>, v: Value)
    requires Pins(ps, v)
    ensures Only(ps, v)
  {
    forall x: Value | Admits(ps, x) ensures x == v {
      AdmitsExact(ps, x);
      if Predicate(Eq, v) in ps {
        AllHoldMember(ps, x, Predicate(Eq, v));
      } else {
        AllHoldMember(ps, x, Predicate(Ge, v));
        AllHoldMember(ps, x, Predicate(Le, v));
      }
    }
  }

  lemma PinnedSound(a: seq<Entry>, b: seq<Entry>)
    requires Includes(a, b) && PairsPinned(a, b)
    ensures Sound(a, b)
  {
    IncludesAll(a, b);
    forall t | t in a && t.pred.op == Eq ensures Only(Range(b, t.key), t.pred.val) {
      PinsOnly(Range(b, t.key), t.pred.val);
    }
    forall e: Event | Accepts(b, e) ensures Accepts(a, e) { PinnedAccepts(a, b, e); }
  }

  /** A cover that does not rest on a pair with unequal constants survives every rearrangement. */
  lemma OrderIrrelevant(p: Predicate, ps: seq<Predicate>, qs: seq<Predicate>)
    requires forall q :: q in ps ==> q in qs
    requires p.op == Eq && Covered(p, ps) ==> Pins(ps, p.val)
    ensures Covered(p, ps) ==> Covered(p, qs)
  {
    if Covered(p, ps) {
      if p.op == Eq {
        PinsCovered(qs, p.val);
      } else {
        var q := CoveredWitness(p, ps);
        CoveredBy(p, q, qs);
      }
    }
  }

  // ---------------------------------------------------------------------------
  // Reflexivity and transitivity
  // ---------------------------------------------------------------------------

  /** A subscription contains itself exactly when all its operators are supported. */
  lemma ReflexiveExact(a: seq<Entry>)
    ensures Includes(a, a) <==> forall t :: t in a ==> t.pred.op.Supported()
  {
    IncludesAll(a, a);
    forall t | t in a ensures Covered(t.pred, Range(a, t.key)) <==> t.pred.op.Supported() {
      RangeMember(a, t.key, t.pred);
      if t.pred.op.Supported() {
        CoveredBy(t.pred, t.pred, Range(a, t.key));
      } else {
        UnsupportedNotCovered(t.pred, Range(a, t.key));
      }
    }
  }

  /** No key of c is bounded from both sides at a value it does not pin. */
  ghost predicate CrossFree(c: seq<Entry>) {
    forall k, v: Value ::
      Covered(Predicate(Ge, v), Range(c, k)) && Covered(Predicate(Le, v), Range(c, k)) ==>
      Covered(Predicate(Eq, v), Range(c, k))
  }

  /** Every contained subscription that some event matches is such. */
  lemma FeasibleCrossFree(c: seq<Entry>)
    requires Feasible(c)
    ensures CrossFree(c)
  {
    forall k, v: Value | Covered(Predicate(Ge, v), Range(c, k)) && Covered(Predicate(Le, v), Range(c, k))
      ensures Covered(Predicate(Eq, v), Range(c, k))
    {
      CoveredHasKey(Predicate(Ge, v), c, k);
      var ps := Range(c, k);
      var x: Value :| Admits(ps, x);
      AdmitsExact(ps, x);
      var lo := CoveredWitness(Predicate(Ge, v), ps);
      var hi := CoveredWitness(Predicate(Le, v), ps);
      AllHoldMember(ps, x, lo);
      AllHoldMember(ps, x, hi);
      PinsCovered(ps, v);
    }
  }

  /** Covering composes: ps is b's list, qs is c's list for the same key. */
  lemma CoverTransitive(p: Predicate, ps: seq<Predicate>, qs: seq<Predicate>)
    requires Covered(p, ps) && forall q :: q in ps ==> Covered(q, qs)
    requires p.op == Eq ==> Pins(ps, p.val)
    requires p.op == Eq && p !in ps && Covered(Predicate(Ge, p.val), qs) && Covered(Predicate(Le, p.val), qs) ==>
      Covered(p, qs)
    requires forall q :: q in ps && q.op == Eq ==> Pins(qs, q.val)
    ensures Covered(p, qs)
  {
    if p.op != Eq {
      var q := CoveredWitness(p, ps);
      if q.op == Eq {
        if q in qs { CoveredBy(p, q, qs); } else { BoundsCover(p, q.val, qs); }
      } else {
        var r := CoveredWitness(q, qs);
        CoveredBy(p, r, qs);
      }
    }
  }

  lemma BoundsCover(p: Predicate, v: Value, qs: seq<Predicate>)
    requires p.op != Eq && Implies(p, Predicate(Eq, v))
    requires Predicate(Ge, v) in qs && Predicate(Le, v) in qs
    ensures Covered(p, qs)
  {
    if Implies(p, Predicate(Ge, v)) {
      CoveredBy(p, Predicate(Ge, v), qs);
    } else {
      CoveredBy(p, Predicate(Le, v), qs);
    }
  }

  lemma TransitiveStep(a: seq<Entry>, b: seq<Entry>, c: seq<Entry>)
    requires Includes(a, b) && Includes(b, c) && PairsPinned(a, b) && PairsPinned(b, c)
    requires CrossFree(c) || NoPair(b)
    ensures Includes(a, c)
  {
    IncludesAll(a, b);
    IncludesAll(b, c);
    IncludesAll(a, c);
    forall t | t in a ensures Covered(t.pred, Range(c, t.key)) {
      var ps, qs := Range(b, t.key), Range(c, t.key);
      forall q | q in ps ensures Covered(q, qs) && (q.op == Eq ==> Pins(qs, q.val)) {
        RangeMember(b, t.key, q);
        assert Entry(t.key, q) in b;
      }
      if NoPair(b) && t.pred.op == Eq { CoveredEquality(ps, t.pred.val); }
      CoverTransitive(t.pred, ps, qs);
    }
  }

  /** No key has both a >= and a <= predicate, so the two-predicate rule never fires. */
  ghost predicate NoPair(b: seq<Entry>) {
    forall k :: !(HasOp(Range(b, k), Ge) && HasOp(Range(b, k), Le))
  }

  /** Where the two-predicate rule only fires on pairs with equal constants,
    * containment of c is inherited if and only if c is cross-free. */
  lemma PinnedTransitivityExact(c: seq<Entry>)
    ensures CrossFree(c) <==>
      forall a, b :: Includes(a, b) && Includes(b, c) && PairsPinned(a, b) && PairsPinned(b, c) ==> Includes(a, c)
  {
    if CrossFree(c) {
      forall a, b | Includes(a, b) && Includes(b, c) && PairsPinned(a, b) && PairsPinned(b, c) ensures Includes(a, c) {
        TransitiveStep(a, b, c);
      }
    }
    if forall a, b :: Includes(a, b) && Includes(b, c) && PairsPinned(a, b) && PairsPinned(b, c) ==> Includes(a, c) {
      forall k, v: Value | Covered(Predicate(Ge, v), Range(c, k)) && Covered(Predicate(Le, v), Range(c, k))
        ensures Covered(Predicate(Eq, v), Range(c, k))
      {
        var a, b := CrossWitness(c, k, v);
        assert Includes(a, c);
      }
    }
  }

  lemma CrossWitness(c: seq<Entry>, k: Key, v: Value) returns (a: seq<Entry>, b: seq<Entry>)
    requires Covered(Predicate(Ge, v), Range(c, k)) && Covered(Predicate(Le, v), Range(c, k))
    ensures a == [Entry(k, Predicate(Eq, v))]
    ensures Includes(a, b) && Includes(b, c) && PairsPinned(a, b) && PairsPinned(b, c)
  {
    a := [Entry(k, Predicate(Eq, v))];
    b := [Entry(k, Predicate(Ge, v)), Entry(k, Predicate(Le, v))];
    RangeMember(b, k, Predicate(Ge, v));
    RangeMember(b, k, Predicate(Le, v));
    PinsCovered(Range(b, k), v);
    IncludesAll(a, b);
    IncludesAll(b, c);
  }

  // ---------------------------------------------------------------------------
  // Families of subscriptions on which containment can be relied on
  // ---------------------------------------------------------------------------

  ghost predicate TransitiveAt(a: seq<Entry>, b: seq<Entry>, c: seq<Entry>) {
    Includes(a, b) && Includes(b, c) ==> Includes(a, c)
  }

  ghost predicate Preorder(U: iset<seq<Entry>>) {
    && (forall a :: a in U ==> Includes(a, a))
    && (forall a, b, c {:trigger TransitiveAt(a, b, c)} :: a in U && b in U && c in U ==> TransitiveAt(a, b, c))
  }

  ghost predicate SoundOn(U: iset<seq<Entry>>) {
    forall a, b :: a in U && b in U && Includes(a, b) ==> Sound(a, b)
  }

  ghost predicate WellBehaved(U: iset<seq<Entry>>) {
    && (forall a, t :: a in U && t in a ==> t.pred.op.Supported())
    && (forall a, b :: a in U && b in U ==> PairsPinned(a, b))
    && ((forall c :: c in U ==> Feasible(c)) || (forall b :: b in U ==> NoPair(b)))
  }

  /** Containment is a sound preorder on every such family. */
  lemma WellBehavedSoundPreorder(U: iset<seq<Entry>>)
    requires WellBehaved(U)
    ensures Preorder(U) && SoundOn(U)
  {
    forall a | a in U ensures Includes(a, a) { ReflexiveExact(a); }
    forall a, b, c | a in U && b in U && c in U ensures TransitiveAt(a, b, c) {
      if Includes(a, b) && Includes(b, c) {
        if Feasible(c) { FeasibleCrossFree(c); }
        TransitiveStep(a, b, c);
      }
    }
    forall a, b | a in U && b in U && Includes(a, b) ensures Sound(a, b) { PinnedSound(a, b); }
  }

  /** Two families that need no check against each other's members: subscriptions
    * without a >= / <= pair on one key, and feasible ones whose pairs agree. */
  ghost predicate Tight(b: seq<Entry>) {
    forall k, p, q :: p in Range(b, k) && q in Range(b, k) && p.op == Ge && q.op == Le ==> p.val == q.val
  }

  lemma PairsAgree(a: seq<Entry>, b: seq<Entry>)
    requires NoPair(b) || Tight(b)
    ensures PairsPinned(a, b)
  {
    forall t | t in a && t.pred.op == Eq && Covered(t.pred, Range(b, t.key)) ensures Pins(Range(b, t.key), t.pred.val) {
      var ps := Range(b, t.key);
      CoveredEquality(ps, t.pred.val);
      if t.pred !in ps {
        var lo := HasOpWitness(ps, Ge);
        var hi := HasOpWitness(ps, Le);
        assert lo == Predicate(Ge, lo.val) && hi == Predicate(Le, hi.val);
      }
    }
  }

  lemma NoPairWellBehaved(U: iset<seq<Entry>>)
    requires forall a :: a in U ==> NoPair(a) && forall t :: t in a ==> t.pred.op.Supported()
    ensures WellBehaved(U)
  {
    forall a, b | a in U && b in U ensures PairsPinned(a, b) { PairsAgree(a, b); }
  }

  lemma TightWellBehaved(U: iset<seq<Entry>>)
    requires forall a :: a in U ==> Tight(a) && Satisfiable(a) && forall t :: t in a ==> t.pred.op.Supported()
    ensures WellBehaved(U)
  {
    forall a, b | a in U && b in U ensures PairsPinned(a, b) { PairsAgree(a, b); }
    forall c | c in U ensures Feasible(c) { SatisfiableIffFeasible(c); }
  }

  // ---------------------------------------------------------------------------
  // The inputs on which the code falls short
  // ---------------------------------------------------------------------------

  lemma TwoOnOneKey(k: Key, q: Predicate, r: Predicate)
    ensures Range([Entry(k, q), Entry(k, r)], k) == [q, r]
    ensures forall p :: Covered(p, [q, r]) <==>
      Implies(p, q) || Implies(p, r) ||
      (p.op == Eq && q.val == p.val && ((q.op == Ge && r.op == Le) || (q.op == Le && r.op == Ge)))
    ensures forall b :: Includes([Entry(k, q), Entry(k, r)], b) <==> Covered(q, Range(b, k)) && Covered(r, Range(b, k))
  {
    var d := [Entry(k, q), Entry(k, r)];
    assert d[1..] == [Entry(k, r)];
    assert Range(d[1..], k) == [r];
    assert [q, r][1..] == [r];
    assert forall o :: HasOp([r], o) <==> r.op == o;
    forall p ensures Covered(p, [r]) <==> Implies(p, r) { assert [r][1..] == []; }
    forall b ensures Includes(d[1..], b) <==> Covered(r, Range(b, k)) { assert d[1..][1..] == []; }
  }

  /** a = 5 is taken to contain 5 <= a <= 10, yet misses a = 7; and it is not
    * taken to contain the same range with its bounds added in the other order. */
  lemma LooseRangeUnsound()
    ensures
      var point := [Entry("a", Predicate(Eq, 5))];
      var range := [Entry("a", Predicate(Ge, 5)), Entry("a", Predicate(Le, 10))];
      var swapped := [Entry("a", Predicate(Le, 10)), Entry("a", Predicate(Ge, 5))];
      var event: Event := map["a" := 7];
      Includes(point, range) && Accepts(range, event) && !Accepts(point, event) && !Includes(point, swapped)
  {
    TwoOnOneKey("a", Predicate(Ge, 5), Predicate(Le, 10));
    TwoOnOneKey("a", Predicate(Le, 10), Predicate(Ge, 5));
    assert [Entry("a", Predicate(Ge, 5)), Entry("a", Predicate(Le, 10))][1..] == [Entry("a", Predicate(Le, 10))];
  }

  /** A subscription that nothing matches can break transitivity. */
  lemma InfeasibleNotTransitive()
    ensures
      var point := [Entry("a", Predicate(Eq, 5))];
      var pair := [Entry("a", Predicate(Ge, 5)), Entry("a", Predicate(Le, 5))];
      var never := [Entry("a", Predicate(Ge, 6)), Entry("a", Predicate(Le, 4))];
      Includes(point, pair) && Includes(pair, never) && !Includes(point, never)
  {
    TwoOnOneKey("a", Predicate(Ge, 5), Predicate(Le, 5));
    TwoOnOneKey("a", Predicate(Ge, 6), Predicate(Le, 4));
  }
}
