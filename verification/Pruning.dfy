/** Which entries a pre-filter match need not test: what an answer spares, and what
  * the graph passes on of it. */
module Pruning {
  import opened Subscriptions
  import opened Containment
  import opened Diagram
  import opened Index

  const ONE_NO_CONTAINMENT := 1
  const ALL_CONTAINMENT_N := 2
  const ALL_CONTAINMENT_NP := 3

  predicate WithContainment(variant: int) { variant == ALL_CONTAINMENT_N || variant == ALL_CONTAINMENT_NP }

  predicate Positive(variant: int) { variant == ALL_CONTAINMENT_NP }

  // ---------------------------------------------------------------------------
  // Down from a class that does not match
  // ---------------------------------------------------------------------------

  /** The primaries of the direct containees of p. */
  ghost function Downs(v: View, p: Indexed): set<Indexed> {
    set q | q in v.all && Primary(v, q) && q in v.ups && p in v.ups[q]
  }

  /** With a marked primary that does not match its containees are marked, but for pending. */
  ghost predicate Sunk(v: View, e: Event, M: set<Indexed>, pending: set<Indexed>) {
    forall p | p in v.all && p in M && Primary(v, p) && !Accepts(p.sub.data, e) :: Downs(v, p) <= M + pending
  }

  /** When nothing is pending, everything below a marked primary that does not match is marked. */
  lemma {:induction false} SunkDown(v: View, U: iset<seq<Entry>>, e: Event, M: set<Indexed>, p: Indexed, q: Indexed)
    requires Preorder(U) && SoundOn(U) && FromFamily(v, U) && UpsComplete(v) && Sunk(v, e, M, {})
    requires p in v.all && q in v.all && Primary(v, p) && Primary(v, q) && p in M && !Accepts(p.sub.data, e)
    requires StrictlyIncludes(p.sub.data, q.sub.data)
    ensures q in M
    decreases Overs(v, q)
  {
    hide Accepts;
    assert DirectBetween(v, p, q);
    var m :| m in v.ups[q] && m in v.all && Primary(v, m) && StrictlyIncludes(m.sub.data, q.sub.data) &&
      (m == p || StrictlyIncludes(p.sub.data, m.sub.data));
    if m != p {
      OversShrink(v, U, m, q);
      SunkDown(v, U, e, M, p, m);
      assert Sound(p.sub.data, m.sub.data);
    }
    assert q in Downs(v, m);
  }

  /** ... and so below one whose direct containees are marked. */
  lemma SunkBelow(v: View, U: iset<seq<Entry>>, e: Event, M: set<Indexed>, p: Indexed, q: Indexed)
    requires Preorder(U) && SoundOn(U) && FromFamily(v, U) && UpsComplete(v) && Sunk(v, e, M, {})
    requires p in v.all && q in v.all && Primary(v, p) && Primary(v, q) && !Accepts(p.sub.data, e)
    requires Downs(v, p) <= M && StrictlyIncludes(p.sub.data, q.sub.data)
    ensures q in M
  {
    assert Sunk(v, e, M + {p}, {}) by {
      hide Accepts, Downs, Primary;
    }
    SunkDown(v, U, e, M + {p}, p, q);
  }

  // ---------------------------------------------------------------------------
  // What an answer spares
  // ---------------------------------------------------------------------------

  /** With the answer for a known, b need not be tested: negative propagation spares
    * what a failed subscription contains, positive propagation what contains a matching one. */
  ghost predicate Spares(e: Event, variant: int, a: Indexed, b: Indexed) {
    if Accepts(a.sub.data, e) then Positive(variant) && StrictlyIncludes(b.sub.data, a.sub.data)
    else WithContainment(variant) && StrictlyIncludes(a.sub.data, b.sub.data)
  }

  /** Every primary that b spares is marked. */
  ghost predicate Settles(v: View, e: Event, variant: int, M: set<Indexed>, b: Indexed) {
    forall q | q in v.all && Primary(v, q) && Spares(e, variant, b, q) :: q in M
  }

  /** No primary is tested after an entry that spares it. */
  ghost predicate Spared(v: View, e: Event, variant: int, d: seq<Indexed>) {
    forall i, j | 0 <= i < j < |d| && Primary(v, d[j]) :: !Spares(e, variant, d[i], d[j])
  }

  /** What may be tested: entries with all of their bits in the filter of the event,
    * and but for the default list only primaries. */
  ghost predicate Eligible(v: View, filter: set<nat>, b: Indexed) {
    b.bits <= filter && (b.bits == {} || Primary(v, b))
  }

  /** The scans come across b: it shares a bit with the event or is on the default list. */
  ghost predicate Met(filter: set<nat>, b: Indexed) { b.bits == {} || b.bits * filter != {} }

  /** Why x need not be tested: its class is reported whole, or an entry that is
    * come across and does not match spares it. */
  ghost predicate Excused(v: View, e: Event, variant: int, filter: set<nat>, x: Indexed) {
    x in v.prim &&
    (|| (v.prim[x] != x && v.prim[x].bits != {} && Accepts(x.sub.data, e))
     || (Positive(variant) && Lifted(v, e, v.prim[x]))
     || exists b | b in v.all :: Met(filter, b) && !Accepts(b.sub.data, e) && Spares(e, variant, b, x))
  }

  /** All that was marked together with b is excused. */
  ghost predicate Justified(v: View, e: Event, variant: int, filter: set<nat>, M: set<Indexed>, W: set<Indexed>,
                            b: Indexed) {
    forall x | x in W && x !in M && x != b && Eligible(v, filter, x) :: Excused(v, e, variant, filter, x)
  }

  // ---------------------------------------------------------------------------
  // What is tested
  // ---------------------------------------------------------------------------

  /** The entries d tested between two states of the marks: each eligible, once and
    * not marked before; whatever else was marked and is eligible is excused; what
    * they spare is marked, and none of them was tested after one that spares it. */
  ghost predicate Tried(v: View, e: Event, variant: int, filter: set<nat>, M: set<Indexed>, W: set<Indexed>,
                        d: seq<Indexed>) {
    && M <= W && NoDup(d)
    && (forall b | b in d ::
          b in v.all && b in W && b !in M && Eligible(v, filter, b) && Settles(v, e, variant, W, b))
    && (forall x | x in W && x !in M && Eligible(v, filter, x) :: x in d || Excused(v, e, variant, filter, x))
    && Spared(v, e, variant, d)
  }

  lemma TriedNone(v: View, e: Event, variant: int, filter: set<nat>, M: set<Indexed>, W: set<Indexed>)
    requires M <= W && forall x | x in W && x !in M :: !Eligible(v, filter, x)
    ensures Tried(v, e, variant, filter, M, W, [])
  {
    hide Eligible, Excused;
  }

  lemma TriedOnce(v: View, e: Event, variant: int, filter: set<nat>, M: set<Indexed>, W: set<Indexed>, d: seq<Indexed>)
    requires Tried(v, e, variant, filter, M, W, d)
    ensures NoDup(d)
  {}

  lemma TriedOne(v: View, e: Event, variant: int, filter: set<nat>, M: set<Indexed>, W: set<Indexed>, b: Indexed)
    requires b in v.all && b !in M && M + {b} <= W && (b.bits == {} || Primary(v, b))
    requires Settles(v, e, variant, W, b) && Justified(v, e, variant, filter, M, W, b)
    ensures Tried(v, e, variant, filter, M, W, if b.bits <= filter then [b] else [])
  {
    hide Settles, Excused, Spares, Primary;
  }

  lemma TriedJoin(v: View, e: Event, variant: int, filter: set<nat>, M: set<Indexed>, W: set<Indexed>, X: set<Indexed>,
                  c: seq<Indexed>, d: seq<Indexed>)
    requires Tried(v, e, variant, filter, M, W, c) && Tried(v, e, variant, filter, W, X, d)
    ensures Tried(v, e, variant, filter, M, X, c + d) && M <= W <= X
  {
    hide Primary, Eligible, Excused, Spares;
    forall i, j | 0 <= i < j < |c + d|
      ensures (c + d)[i] != (c + d)[j]
      ensures Primary(v, (c + d)[j]) ==> !Spares(e, variant, (c + d)[i], (c + d)[j])
    {
      if i < |c| <= j {
        assert c[i] in c && d[j - |c|] in d;
        assert Settles(v, e, variant, W, c[i]);
      }
    }
    forall b | b in c ensures Settles(v, e, variant, X, b) { assert Settles(v, e, variant, W, b); }
  }

  /** The entries tested in a match: each once, all of them eligible, none after one
    * that spares it, and whatever else is eligible is excused. */
  ghost predicate AllTried(v: View, e: Event, variant: int, filter: set<nat>, tried: seq<Indexed>) {
    && NoDup(tried)
    && (forall b | b in tried :: b in v.all && Eligible(v, filter, b))
    && (forall x | x in v.all && Eligible(v, filter, x) :: x in tried || Excused(v, e, variant, filter, x))
    && Spared(v, e, variant, tried)
  }

  lemma TriedAll(v: View, e: Event, variant: int, filter: set<nat>, M: set<Indexed>, W: set<Indexed>,
                 tried: seq<Indexed>)
    requires Tried(v, e, variant, filter, {}, W, tried) && M <= W <= v.all
    requires forall b | b in v.all && b.bits * filter != {} :: b in M
    requires forall b | b in v.all && b.bits == {} :: b in W
    ensures AllTried(v, e, variant, filter, tried)
  {
    hide Primary, Excused, Spared, Settles;
    forall b | b in v.all && b.bits <= filter ensures b in W { assert b.bits * filter == b.bits; }
  }

  /** Without a graph there is no excuse. */
  lemma AloneTried(v: View, e: Event, variant: int, filter: set<nat>, tried: seq<Indexed>, b: Indexed)
    requires AllTried(v, e, variant, filter, tried) && !WithContainment(variant)
    requires Primary(v, b) && b.bits <= filter
    ensures b in tried
  {}

  /** The containers in the graph are no longer needed. */
  lemma TriedNarrow(v: View, ups: map<Indexed, set<Indexed>>, e: Event, variant: int, filter: set<nat>,
                    tried: seq<Indexed>)
    requires AllTried(v.(ups := ups), e, variant, filter, tried)
    ensures AllTried(v, e, variant, filter, tried)
  {
    var w := v.(ups := ups);
    forall x ensures Primary(v, x) <==> Primary(w, x) {}
    hide Primary, Spares;
    forall x | Excused(w, e, variant, filter, x) ensures Excused(v, e, variant, filter, x) {
      LiftedNarrow(v, ups, e, v.prim[x]);
      hide Lifted;
    }
    assert forall x :: Eligible(v, filter, x) <==> Eligible(w, filter, x);
    hide Eligible, Excused;
  }
}
