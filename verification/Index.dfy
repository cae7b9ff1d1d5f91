/** The bookkeeping of a pre-filter match: which entries are settled, and how
  * often each class has been reported. */
module Index {
  import opened Subscriptions
  import opened Containment

  /** A subscription in the index, with its filter and the later entries of its class. */
  class Indexed {
    const sub: Subscription
    const id: nat
    const bits: set<nat>
    var duplicates: seq<Indexed>

    constructor (s: Subscription, id: nat, bits: set<nat>)
      ensures sub == s && this.id == id && this.bits == bits && duplicates == []
    {
      sub := s;
      this.id := id;
      this.bits := bits;
      duplicates := [];
    }
  }

  /** All entries, the primary of each one's class (without a graph every entry is
    * its own), and the entries of its containers in the graph. */
  datatype View = View(all: set<Indexed>, prim: map<Indexed, Indexed>, ups: map<Indexed, set<Indexed>>)

  ghost predicate Coherent(v: View, e: Event) {
    && v.prim.Keys == v.all
    && (forall b | b in v.all :: v.prim[b] in v.all && v.prim[v.prim[b]] == v.prim[b])
    && (forall b | b in v.all :: Accepts(b.sub.data, e) == Accepts(v.prim[b].sub.data, e))
  }

  ghost predicate Primary(v: View, p: Indexed) { p in v.all && p in v.prim && v.prim[p] == p }

  ghost function Members(v: View, p: Indexed): set<Indexed> {
    set b | b in v.all && b in v.prim && v.prim[b] == p
  }

  /** The members whose reports can be accounted to p: all if p has filter bits,
    * else the ones that are on the default list like p. */
  ghost function Owed(v: View, p: Indexed): set<Indexed> {
    set b | b in Members(v, p) && (p.bits == {} ==> b.bits == {})
  }

  /** How many reports so far are of the class of p. */
  function Tally(v: View, log: seq<Indexed>, p: Indexed): nat {
    if log == [] then 0
    else
      var b := log[|log| - 1];
      Tally(v, log[..|log| - 1], p) + (if b in v.prim && v.prim[b] == p then 1 else 0)
  }

  function Repeat(b: Indexed, n: nat): seq<Indexed> { if n == 0 then [] else Repeat(b, n - 1) + [b] }

  /** While the bit lists are scanned only primaries are reported, and a class is
    * settled once its primary is. */
  ghost predicate Scanning(v: View, e: Event, M: set<Indexed>, log: seq<Indexed>) {
    && M <= v.all
    && (forall b | b in log :: b in v.all && Primary(v, b))
    && forall p | p in v.all && Primary(v, p) :: Resolved(v, e, M, log, p)
  }

  ghost predicate Resolved(v: View, e: Event, M: set<Indexed>, log: seq<Indexed>, p: Indexed) {
    if !Accepts(p.sub.data, e) then Tally(v, log, p) == 0
    else if p in M then Tally(v, log, p) == |Members(v, p)| && Members(v, p) <= M
    else Tally(v, log, p) == 0 && (p.bits == {} ==> Owed(v, p) !! M)
  }

  /** While the default list is scanned each entry there reports itself; W was
    * marked before, and classes with their primary in W have been reported whole. */
  ghost predicate Finishing(v: View, e: Event, M: set<Indexed>, log: seq<Indexed>, W: set<Indexed>) {
    && M <= v.all
    && (forall b | b in log :: b in v.all)
    && forall p | p in v.all && Primary(v, p) :: Due(v, e, M, log, W, p)
  }

  ghost predicate Due(v: View, e: Event, M: set<Indexed>, log: seq<Indexed>, W: set<Indexed>, p: Indexed) {
    if !Accepts(p.sub.data, e) then Tally(v, log, p) == 0
    else if p in W then Tally(v, log, p) == |Members(v, p)| && Members(v, p) <= M
    else p.bits == {} && Tally(v, log, p) == |Owed(v, p) * M|
  }

  /** The outcome: of the classes whose primary matches, those of W have been
    * reported whole, the others as far as they are on the default list. */
  ghost predicate Accounted(v: View, e: Event, log: seq<Indexed>, W: set<Indexed>) {
    && (forall b | b in log :: b in v.all)
    && forall p | p in v.all && Primary(v, p) ::
         Tally(v, log, p) == if !Accepts(p.sub.data, e) then 0 else if p in W then |Members(v, p)| else |Owed(v, p)|
  }

  lemma ScanStart(v: View, e: Event)
    ensures Scanning(v, e, {}, [])
  {}

  lemma TallyAppend(v: View, log: seq<Indexed>, b: Indexed, p: Indexed)
    ensures Tally(v, log + [b], p) == Tally(v, log, p) + (if b in v.prim && v.prim[b] == p then 1 else 0)
  {
    assert (log + [b])[..|log|] == log;
  }

  lemma RepeatLast(log: seq<Indexed>, b: Indexed, n: nat)
    ensures log + Repeat(b, n) == if n == 0 then log else (log + Repeat(b, n - 1)) + [b]
  {}

  lemma {:induction false} TallyRepeat(v: View, log: seq<Indexed>, b: Indexed, n: nat, p: Indexed)
    ensures Tally(v, log + Repeat(b, n), p) == Tally(v, log, p) + (if b in v.prim && v.prim[b] == p then n else 0)
  {
    hide Tally, Repeat;
    RepeatLast(log, b, n);
    if n > 0 {
      TallyRepeat(v, log, b, n - 1, p);
      TallyAppend(v, log + Repeat(b, n - 1), b, p);
    }
  }

  lemma {:induction false} RepeatOnly(b: Indexed, n: nat)
    ensures forall x | x in Repeat(b, n) :: x == b
    ensures |Repeat(b, n)| == n
  {
    if n > 0 { RepeatOnly(b, n - 1); }
  }

  /** An entry of a class that does not match may be marked at any time. */
  lemma Discard(v: View, e: Event, M: set<Indexed>, log: seq<Indexed>, b: Indexed)
    requires Coherent(v, e) && b in v.all && !Accepts(b.sub.data, e)
    ensures Scanning(v, e, M, log) ==> Scanning(v, e, M + {b}, log)
  {
    hide Accepts;
    if Scanning(v, e, M, log) {
      forall p | p in v.all && Primary(v, p)
        ensures Resolved(v, e, M + {b}, log, p)
      {
        assert Resolved(v, e, M, log, p);
      }
    }
  }

  lemma DiscardLate(v: View, e: Event, M: set<Indexed>, log: seq<Indexed>, W: set<Indexed>, b: Indexed)
    requires Coherent(v, e) && b in v.all && !Accepts(b.sub.data, e)
    ensures Finishing(v, e, M, log, W) ==> Finishing(v, e, M + {b}, log, W)
  {
    hide Accepts;
    if Finishing(v, e, M, log, W) {
      forall p | p in v.all && Primary(v, p) ensures Due(v, e, M + {b}, log, W, p) {
        assert Due(v, e, M, log, W, p);
        if v.prim[b] != p { assert Owed(v, p) * (M + {b}) == Owed(v, p) * M; }
      }
    }
  }

  /** A duplicate on a bit list is skipped: its primary answers for it. */
  lemma Skip(v: View, e: Event, M: set<Indexed>, log: seq<Indexed>, b: Indexed)
    requires Coherent(v, e) && Scanning(v, e, M, log) && b in v.all && v.prim[b] != b && b.bits != {}
    ensures Scanning(v, e, M + {b}, log)
  {
    hide Accepts;
    forall p | p in v.all && Primary(v, p) ensures Resolved(v, e, M + {b}, log, p) { assert Resolved(v, e, M, log, p); }
  }

  /** A matching primary is reported for its whole class, which is settled with it. */
  lemma ReportClass(v: View, e: Event, M: set<Indexed>, log: seq<Indexed>, p: Indexed, n: nat)
    requires Coherent(v, e) && Scanning(v, e, M, log) && Primary(v, p) && p !in M && Accepts(p.sub.data, e)
    requires n == |Members(v, p)|
    ensures Scanning(v, e, M + Members(v, p), log + Repeat(p, n))
  {
    hide Accepts;
    RepeatOnly(p, n);
    forall q | q in v.all && Primary(v, q) ensures Resolved(v, e, M + Members(v, p), log + Repeat(p, n), q) {
      assert Resolved(v, e, M, log, q);
      TallyRepeat(v, log, p, n, q);
      assert p in Members(v, p);
      if q != p { assert q !in Members(v, p) && Owed(v, q) !! Members(v, p); }
    }
  }

  /** Without false negatives, scanning the lists of the event's bits settles every class with filter bits. */
  lemma BitsDone(v: View, e: Event, M: set<Indexed>, log: seq<Indexed>, filter: set<nat>)
    requires Scanning(v, e, M, log)
    requires forall b | b in v.all && b.bits * filter != {} :: b in M
    requires forall b | b in v.all && Accepts(b.sub.data, e) :: b.bits <= filter
    ensures Finishing(v, e, M, log, M)
  {
    hide Accepts;
    forall p | p in v.all && Primary(v, p) ensures Due(v, e, M, log, M, p) {
      assert Resolved(v, e, M, log, p);
      if Accepts(p.sub.data, e) && p.bits != {} { assert p.bits * filter == p.bits; }
      if Accepts(p.sub.data, e) && p !in M { assert Owed(v, p) * M == {}; }
    }
  }

  /** An unsettled matching entry of the default list reports itself. */
  lemma ReportSelf(v: View, e: Event, M: set<Indexed>, log: seq<Indexed>, W: set<Indexed>, b: Indexed)
    requires Coherent(v, e) && Finishing(v, e, M, log, W) && b in v.all && b !in M && b.bits == {}
    requires Accepts(b.sub.data, e)
    ensures Finishing(v, e, M + {b}, log + [b], W)
  {
    forall q | q in v.all && Primary(v, q) ensures Due(v, e, M + {b}, log + [b], W, q) {
      ReportSelfAt(v, e, M, log, W, b, q);
    }
    hide Accepts, Due, Primary, Tally;
    assert forall x | x in log + [b] :: x in log || x == b;
  }

  lemma ReportSelfAt(v: View, e: Event, M: set<Indexed>, log: seq<Indexed>, W: set<Indexed>, b: Indexed, q: Indexed)
    requires Coherent(v, e) && Due(v, e, M, log, W, q) && b in v.all && b !in M && b.bits == {}
    requires Accepts(b.sub.data, e)
    requires q in v.all && Primary(v, q)
    ensures Due(v, e, M + {b}, log + [b], W, q)
  {
    TallyAppend(v, log, b, q);
    hide Accepts, Tally;
    if v.prim[b] == q {
      assert b in Members(v, q);
      if q !in W {
        assert b in Owed(v, q);
        hide Owed, Members, Primary;
        assert Owed(v, q) * (M + {b}) == Owed(v, q) * M + {b};
      }
    } else {
      assert b !in Owed(v, q);
      hide Owed, Members, Primary;
      assert Owed(v, q) * (M + {b}) == Owed(v, q) * M;
    }
  }

  lemma DefaultDone(v: View, e: Event, M: set<Indexed>, log: seq<Indexed>, W: set<Indexed>)
    requires Finishing(v, e, M, log, W) && forall b | b in v.all && b.bits == {} :: b in M
    ensures Accounted(v, e, log, W)
  {
    hide Accepts;
    forall p | p in v.all && Primary(v, p)
      ensures Tally(v, log, p) ==
        if !Accepts(p.sub.data, e) then 0 else if p in W then |Members(v, p)| else |Owed(v, p)|
    {
      assert Due(v, e, M, log, W, p);
      if p.bits == {} { assert Owed(v, p) * M == Owed(v, p); }
    }
  }

  // ---------------------------------------------------------------------------
  // Which classes are settled by the bit lists
  // ---------------------------------------------------------------------------

  /** p matches, and so does a smaller class whose primary has filter bits. */
  ghost predicate Lifted(v: View, e: Event, p: Indexed) {
    exists q | q in v.all ::
      Primary(v, q) && q.bits != {} && Accepts(q.sub.data, e) && StrictlyIncludes(p.sub.data, q.sub.data)
  }

  /** What is settled has filter bits, or was found by positive propagation from such. */
  ghost predicate Explained(v: View, e: Event, np: bool, M: set<Indexed>) {
    forall p | p in v.all && p in M && Primary(v, p) && Accepts(p.sub.data, e) ::
      p.bits != {} || (np && Lifted(v, e, p))
  }

  /** With a settled matching class its containers are settled, but for pending. */
  ghost predicate Closed(v: View, e: Event, M: set<Indexed>, pending: set<Indexed>) {
    v.ups.Keys == v.all &&
    forall p | p in v.all && p in M && Primary(v, p) && Accepts(p.sub.data, e) :: v.ups[p] <= M + pending
  }

  /** Below a container there is always a direct one. */
  ghost predicate UpsComplete(v: View) {
    && v.ups.Keys == v.all
    && forall p, q |
         p in v.all && q in v.all && Primary(v, p) && Primary(v, q) && StrictlyIncludes(p.sub.data, q.sub.data) ::
         DirectBetween(v, p, q)
  }

  ghost predicate DirectBetween(v: View, p: Indexed, q: Indexed)
    requires q in v.ups
  {
    exists m | m in v.ups[q] ::
      && m in v.all && Primary(v, m) && StrictlyIncludes(m.sub.data, q.sub.data)
      && (m == p || StrictlyIncludes(p.sub.data, m.sub.data))
  }

  /** All primaries that strictly contain q. */
  ghost function Overs(v: View, q: Indexed): set<Indexed> {
    set p | p in v.all && Primary(v, p) && StrictlyIncludes(p.sub.data, q.sub.data)
  }

  ghost predicate FromFamily(v: View, U: iset<seq<Entry>>) { forall b | b in v.all :: b.sub.data in U }

  /** When nothing is pending, all containers of a settled matching class are settled. */
  lemma {:induction false} ClosedUp(v: View, U: iset<seq<Entry>>, e: Event, M: set<Indexed>, p: Indexed, q: Indexed)
    requires Preorder(U) && SoundOn(U) && FromFamily(v, U) && UpsComplete(v) && Closed(v, e, M, {})
    requires p in v.all && q in v.all && Primary(v, p) && Primary(v, q) && q in M && Accepts(q.sub.data, e)
    requires StrictlyIncludes(p.sub.data, q.sub.data)
    ensures p in M
    decreases Overs(v, q)
  {
    assert DirectBetween(v, p, q);
    var m :| m in v.ups[q] && m in v.all && Primary(v, m) && StrictlyIncludes(m.sub.data, q.sub.data) &&
      (m == p || StrictlyIncludes(p.sub.data, m.sub.data));
    assert m in M;
    if m != p {
      OversShrink(v, U, m, q);
      assert Sound(m.sub.data, q.sub.data);
      ClosedUp(v, U, e, M, p, m);
    }
  }

  lemma OversShrink(v: View, U: iset<seq<Entry>>, m: Indexed, q: Indexed)
    requires Preorder(U) && FromFamily(v, U) && m in v.all && q in v.all && Primary(v, m)
    requires StrictlyIncludes(m.sub.data, q.sub.data)
    ensures Overs(v, m) < Overs(v, q)
  {
    forall p | p in Overs(v, m) ensures p in Overs(v, q) {
      var x, y, z := p.sub.data, m.sub.data, q.sub.data;
      assert TransitiveAt(x, y, z) && TransitiveAt(y, z, x) && TransitiveAt(z, x, y);
    }
    assert m in Overs(v, q) && m !in Overs(v, m);
  }

  /** Exactly the matching classes with filter bits have been settled, and with
    * positive propagation those that contain one of them. */
  lemma SettledExactly(v: View, U: iset<seq<Entry>>, e: Event, np: bool, M: set<Indexed>, p: Indexed)
    requires Explained(v, e, np, M) && p in v.all && Primary(v, p) && Accepts(p.sub.data, e)
    requires forall b | b in v.all && b.bits != {} && Accepts(b.sub.data, e) :: b in M
    requires np ==> Preorder(U) && SoundOn(U) && FromFamily(v, U) && UpsComplete(v) && Closed(v, e, M, {})
    ensures p in M <==> p.bits != {} || (np && Lifted(v, e, p))
  {
    hide Accepts, StrictlyIncludes, Preorder, SoundOn, Closed, UpsComplete, FromFamily;
    if np && Lifted(v, e, p) {
      var q :| q in v.all && Primary(v, q) && q.bits != {} && Accepts(q.sub.data, e) &&
        StrictlyIncludes(p.sub.data, q.sub.data);
      ClosedUp(v, U, e, M, p, q);
    }
  }

  /** What a match has reported of each class, in terms of the index alone. */
  ghost predicate Exact(v: View, e: Event, np: bool, log: seq<Indexed>) {
    && (forall b | b in log :: b in v.all)
    && forall p | p in v.all && Primary(v, p) :: Tally(v, log, p) == Share(v, e, np, p)
  }

  ghost function Share(v: View, e: Event, np: bool, p: Indexed): nat {
    if !Accepts(p.sub.data, e) then 0 else if np && Lifted(v, e, p) then |Members(v, p)| else |Owed(v, p)|
  }

  lemma ExactlyReported(v: View, U: iset<seq<Entry>>, e: Event, np: bool, M: set<Indexed>, log: seq<Indexed>)
    requires Accounted(v, e, log, M) && Explained(v, e, np, M)
    requires forall b | b in v.all && b.bits != {} && Accepts(b.sub.data, e) :: b in M
    requires np ==> Preorder(U) && SoundOn(U) && FromFamily(v, U) && UpsComplete(v) && Closed(v, e, M, {})
    ensures Exact(v, e, np, log)
  {
    hide Preorder, SoundOn, FromFamily, UpsComplete, Closed, Explained, Accepts, Lifted, Tally;
    forall p | p in v.all && Primary(v, p) ensures Tally(v, log, p) == Share(v, e, np, p) {
      if Accepts(p.sub.data, e) {
        SettledExactly(v, U, e, np, M, p);
        if p.bits != {} { assert Owed(v, p) == Members(v, p); }
      }
    }
  }

  // ---------------------------------------------------------------------------
  // Which entries are reported
  // ---------------------------------------------------------------------------

  /** How often each entry is reported: of a class that is reported whole its primary,
    * once for every member; of any other class that matches each entry of the default list. */
  ghost function Times(v: View, e: Event, np: bool, b: Indexed): nat
    requires b in v.prim
  {
    var p := v.prim[b];
    if !Accepts(b.sub.data, e) then 0
    else if p.bits != {} || (np && Lifted(v, e, p)) then if b == p then |Members(v, p)| else 0
    else if b.bits == {} then 1
    else 0
  }

  ghost predicate Itemized(v: View, e: Event, np: bool, log: seq<Indexed>) {
    forall b | b in v.all && b in v.prim :: multiset(log)[b] == Times(v, e, np, b)
  }

  /** Of the tested entries of the default list those that match are reported, in that order. */
  ghost function Kept(d: seq<Indexed>, e: Event): seq<Indexed> {
    if d == [] then []
    else Kept(d[..|d| - 1], e) + (if Accepts(d[|d| - 1].sub.data, e) then [d[|d| - 1]] else [])
  }

  lemma {:induction false} KeptJoin(a: seq<Indexed>, b: seq<Indexed>, e: Event)
    ensures Kept(a + b, e) == Kept(a, e) + Kept(b, e)
  {
    hide Accepts;
    if b == [] {
      assert a + b == a;
    } else {
      var k := |b| - 1;
      assert (a + b)[..|a| + k] == a + b[..k];
      KeptJoin(a, b[..k], e);
    }
  }

  lemma {:induction false} KeptOnce(d: seq<Indexed>, e: Event, b: Indexed)
    requires forall i, j | 0 <= i < j < |d| :: d[i] != d[j]
    ensures multiset(Kept(d, e))[b] == if b in d && Accepts(b.sub.data, e) then 1 else 0
  {
    hide Accepts;
    if d != [] {
      var k := |d| - 1;
      KeptOnce(d[..k], e, b);
      assert d == d[..k] + [d[k]];
    }
  }

  /** The reports of a class are the reports of its members. */
  lemma {:induction false} TallyOnly(v: View, log: seq<Indexed>, p: Indexed)
    requires forall b | b in log && b in v.prim && v.prim[b] == p :: b == p
    ensures p in v.prim && v.prim[p] == p ==> Tally(v, log, p) == multiset(log)[p]
  {
    if log != [] {
      var k := |log| - 1;
      assert log == log[..k] + [log[k]];
      assert log[k] in log && forall b | b in log[..k] :: b in log;
      TallyOnly(v, log[..k], p);
    }
  }

  lemma {:induction false} TallyNone(v: View, log: seq<Indexed>, p: Indexed)
    ensures Tally(v, log, p) == 0 <==> forall b | b in log && b in v.prim :: v.prim[b] != p
  {
    if log != [] {
      var k := |log| - 1;
      assert log == log[..k] + [log[k]];
      TallyNone(v, log[..k], p);
    }
  }

  lemma {:induction false} TallyJoin(v: View, a: seq<Indexed>, b: seq<Indexed>, p: Indexed)
    ensures Tally(v, a + b, p) == Tally(v, a, p) + Tally(v, b, p)
  {
    if b == [] {
      assert a + b == a;
    } else {
      var k := |b| - 1;
      assert (a + b)[..|a| + k] == a + b[..k];
      TallyJoin(v, a, b[..k], p);
    }
  }

  ghost function OfClass(v: View, log: seq<Indexed>, p: Indexed): set<Indexed> {
    set b | b in log && b in v.prim && v.prim[b] == p
  }

  /** Reports of a class without repeats are as many as its members among them. */
  lemma {:induction false} TallyDistinct(v: View, log: seq<Indexed>, p: Indexed)
    requires forall i, j | 0 <= i < j < |log| :: log[i] != log[j]
    ensures Tally(v, log, p) == |OfClass(v, log, p)|
  {
    if log != [] {
      var k := |log| - 1;
      TallyDistinct(v, log[..k], p);
      OfClassLast(v, log[..k], log[k], p);
      assert log == log[..k] + [log[k]];
      hide OfClass;
    }
  }

  lemma OfClassLast(v: View, log: seq<Indexed>, x: Indexed, p: Indexed)
    requires x !in log
    ensures |OfClass(v, log + [x], p)| == |OfClass(v, log, p)| + if x in v.prim && v.prim[x] == p then 1 else 0
  {
    assert OfClass(v, log + [x], p) == OfClass(v, log, p) + if x in v.prim && v.prim[x] == p then {x} else {};
    assert x !in OfClass(v, log, p);
  }

  lemma {:induction false} KeptDistinct(d: seq<Indexed>, e: Event)
    requires forall i, j | 0 <= i < j < |d| :: d[i] != d[j]
    ensures forall b | b in Kept(d, e) :: b in d
    ensures forall i, j | 0 <= i < j < |Kept(d, e)| :: Kept(d, e)[i] != Kept(d, e)[j]
  {
    hide Accepts;
    if d != [] {
      var k := |d| - 1;
      KeptDistinct(d[..k], e);
      assert d == d[..k] + [d[k]] && d[k] !in d[..k];
      assert forall b | b in d[..k] :: b in d;
    }
  }

  lemma Superset(A: set<Indexed>, B: set<Indexed>)
    requires A <= B && |A| == |B|
    ensures A == B
  {
    assert B == A + (B - A);
  }

  /** What was reported from the bit lists and then from the default list, entry by entry. */
  lemma ReportedItems(v: View, e: Event, np: bool, W: set<Indexed>, bitLog: seq<Indexed>, d: seq<Indexed>)
    requires Coherent(v, e) && Scanning(v, e, W, bitLog) && Exact(v, e, np, bitLog + Kept(d, e))
    requires (forall i, j | 0 <= i < j < |d| :: d[i] != d[j]) && forall b | b in d :: b in v.all && b.bits == {}
    requires forall p | p in v.all && Primary(v, p) && Accepts(p.sub.data, e) ::
      p in W <==> p.bits != {} || (np && Lifted(v, e, p))
    ensures Itemized(v, e, np, bitLog + Kept(d, e))
  {
    forall b | b in v.all && b in v.prim ensures multiset(bitLog + Kept(d, e))[b] == Times(v, e, np, b) {
      ReportedItem(v, e, np, W, bitLog, d, b);
      hide Times;
    }
  }

  lemma ReportedItem(v: View, e: Event, np: bool, W: set<Indexed>, bitLog: seq<Indexed>, d: seq<Indexed>, b: Indexed)
    requires Coherent(v, e) && Scanning(v, e, W, bitLog) && Exact(v, e, np, bitLog + Kept(d, e))
    requires (forall i, j | 0 <= i < j < |d| :: d[i] != d[j]) && forall x | x in d :: x in v.all && x.bits == {}
    requires forall p | p in v.all && Primary(v, p) && Accepts(p.sub.data, e) ::
      p in W <==> p.bits != {} || (np && Lifted(v, e, p))
    requires b in v.all && b in v.prim
    ensures multiset(bitLog + Kept(d, e))[b] == Times(v, e, np, b)
  {
    hide Accepts, Lifted;
    var p := v.prim[b];
    var late := Kept(d, e);
    assert Primary(v, p) && Resolved(v, e, W, bitLog, p);
    MultisetJoin(bitLog, late, b);
    TallyJoin(v, bitLog, late, p);
    TallyNone(v, bitLog, p);
    TallyNone(v, late, p);
    TallyOnly(v, bitLog, p);
    KeptOnce(d, e, b);
    if !Accepts(p.sub.data, e) {
      assert b !in bitLog;
    } else if p in W {
      if p.bits != {} { assert Owed(v, p) == Members(v, p); }
      assert Tally(v, late, p) == 0 && b !in late;
      if b in bitLog { assert Primary(v, b); }
    } else {
      assert b !in bitLog;
      OwedLate(v, e, d, p);
      hide Tally, Members;
      if b.bits == {} { assert b in Owed(v, p); }
    }
  }

  lemma MultisetJoin(a: seq<Indexed>, c: seq<Indexed>, b: Indexed)
    ensures multiset(a + c)[b] == multiset(a)[b] + multiset(c)[b]
    ensures (b in a <==> multiset(a)[b] > 0) && (b in c <==> multiset(c)[b] > 0)
  {}

  /** All entries of the default list in the class have been reported. */
  lemma OwedLate(v: View, e: Event, d: seq<Indexed>, p: Indexed)
    requires Coherent(v, e) && p in v.all && Primary(v, p) && p.bits == {} && Tally(v, Kept(d, e), p) == |Owed(v, p)|
    requires (forall i, j | 0 <= i < j < |d| :: d[i] != d[j]) && forall x | x in d :: x in v.all && x.bits == {}
    ensures forall b | b in Owed(v, p) :: b in d
  {
    hide Accepts, Tally, Kept;
    KeptDistinct(d, e);
    TallyDistinct(v, Kept(d, e), p);
    OfClassOwed(v, e, d, p);
    Superset(OfClass(v, Kept(d, e), p), Owed(v, p));
  }

  lemma OfClassOwed(v: View, e: Event, d: seq<Indexed>, p: Indexed)
    requires p.bits == {} && forall b | b in Kept(d, e) :: b in v.all && b.bits == {}
    ensures OfClass(v, Kept(d, e), p) <= Owed(v, p)
  {
    hide Kept;
  }

  /** The containers in the graph are no longer needed. */
  lemma ItemizedNarrow(v: View, ups: map<Indexed, set<Indexed>>, e: Event, np: bool, log: seq<Indexed>)
    requires Itemized(v.(ups := ups), e, np, log)
    ensures Itemized(v, e, np, log)
  {
    var w := v.(ups := ups);
    forall b | b in v.all && b in v.prim ensures Times(v, e, np, b) == Times(w, e, np, b) {
      LiftedNarrow(v, ups, e, v.prim[b]);
      hide Accepts, Lifted;
      assert Members(w, v.prim[b]) == Members(v, v.prim[b]);
    }
    hide Times;
  }

  lemma LiftedNarrow(v: View, ups: map<Indexed, set<Indexed>>, e: Event, p: Indexed)
    ensures Lifted(v.(ups := ups), e, p) <==> Lifted(v, e, p)
  {
    hide Accepts, StrictlyIncludes;
    assert forall q :: Primary(v, q) <==> Primary(v.(ups := ups), q);
    hide Primary;
  }

  lemma {:induction false} TallyNarrow(v: View, ups: map<Indexed, set<Indexed>>, log: seq<Indexed>, p: Indexed)
    ensures Tally(v.(ups := ups), log, p) == Tally(v, log, p)
  {
    if log != [] { TallyNarrow(v, ups, log[..|log| - 1], p); }
  }

  /** The containers in the graph are no longer needed. */
  lemma ExactNarrow(v: View, ups: map<Indexed, set<Indexed>>, e: Event, np: bool, log: seq<Indexed>)
    requires Exact(v.(ups := ups), e, np, log)
    ensures Exact(v, e, np, log)
  {
    var w := v.(ups := ups);
    forall p | p in v.all && Primary(v, p) ensures Tally(v, log, p) == Share(v, e, np, p) {
      TallyNarrow(v, ups, log, p);
      hide Accepts, Tally, StrictlyIncludes;
      assert Primary(w, p) && Owed(w, p) == Owed(v, p) && Members(w, p) == Members(v, p);
      assert Lifted(w, e, p) <==> Lifted(v, e, p) by {
        assert forall q | q in v.all :: Primary(v, q) <==> Primary(w, q);
      }
    }
  }

  // ---------------------------------------------------------------------------
  // Classes reported whole
  // ---------------------------------------------------------------------------

  lemma OwedIsMembers(v: View, p: Indexed)
    ensures Owed(v, p) <= Members(v, p)
    ensures |Owed(v, p)| == |Members(v, p)| <==> Owed(v, p) == Members(v, p)
  {
    if Owed(v, p) != Members(v, p) {
      var rest := Members(v, p) - Owed(v, p);
      assert Members(v, p) == Owed(v, p) + rest && rest != {};
    }
  }

  lemma AloneOwed(v: View, b: Indexed)
    requires v.prim.Keys == v.all && (forall x | x in v.all :: v.prim[x] == x) && b in v.all
    ensures Owed(v, b) == {b}
  {}

  // ---------------------------------------------------------------------------
  // Containers first
  // ---------------------------------------------------------------------------

  /** No entry comes before one that strictly contains it. */
  ghost predicate ContainersFirst(l: seq<Indexed>) {
    forall i, j | 0 <= i < j < |l| :: !StrictlyIncludes(l[j].sub.data, l[i].sub.data)
  }

  /** Inserting before the first entry that b contains keeps containers first, without any sorting. */
  lemma InsertKeepsOrder(l: seq<Indexed>, j: nat, b: Indexed, U: iset<seq<Entry>>)
    requires Preorder(U) && b.sub.data in U && (forall i | 0 <= i < |l| :: l[i].sub.data in U)
    requires ContainersFirst(l) && j <= |l|
    requires forall i | 0 <= i < j :: !Includes(b.sub.data, l[i].sub.data)
    requires j < |l| ==> Includes(b.sub.data, l[j].sub.data)
    ensures ContainersFirst(l[..j] + [b] + l[j..])
  {
    var r := l[..j] + [b] + l[j..];
    forall x, y | 0 <= x < y < |r| ensures !StrictlyIncludes(r[y].sub.data, r[x].sub.data) {
      InsertedAt(l, j, b, x);
      InsertedAt(l, j, b, y);
      hide StrictlyIncludes, Preorder;
      if x == j {
        AfterInserted(l, j, b, U, y - 1);
      } else if y == j {
        NotAbove(b, l[x]);
      }
    }
  }

  lemma NotAbove(b: Indexed, c: Indexed)
    requires !Includes(b.sub.data, c.sub.data)
    ensures !StrictlyIncludes(b.sub.data, c.sub.data)
  {}

  lemma InsertedAt(l: seq<Indexed>, j: nat, b: Indexed, x: nat)
    requires j <= |l| && x <= |l|
    ensures (l[..j] + [b] + l[j..])[x] == if x < j then l[x] else if x == j then b else l[x - 1]
  {}

  lemma AfterInserted(l: seq<Indexed>, j: nat, b: Indexed, U: iset<seq<Entry>>, y: nat)
    requires Preorder(U) && b.sub.data in U && (forall i | 0 <= i < |l| :: l[i].sub.data in U)
    requires ContainersFirst(l) && j <= y < |l| && Includes(b.sub.data, l[j].sub.data)
    ensures !StrictlyIncludes(l[y].sub.data, b.sub.data)
  {
    var p, q, r := l[y].sub.data, b.sub.data, l[j].sub.data;
    assert TransitiveAt(p, q, r) && TransitiveAt(q, r, p);
  }
}
