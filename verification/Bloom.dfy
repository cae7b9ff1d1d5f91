/** Bloom filters over attribute values, and why they never lose a match. */
module Bloom {
  import opened Subscriptions
  import opened Containment

  /** The parameters shared by all filters of an index. The value hash is any
    * function of a value and a seed. */
  datatype Setup = Setup(size: nat, hashes: nat, murmur: (Value, nat) -> nat) {
    predicate Ok() { 1 <= hashes <= size }
  }

  /** n bit positions for a value: each hash is seeded with the one before. */
  function HashN(f: Setup, val: Value, seed: nat, n: nat): (r: seq<nat>)
    requires f.Ok()
    decreases n
    ensures |r| == n
    ensures forall i | 0 <= i < n :: r[i] < f.size
  {
    if n == 0 then []
    else var h := f.murmur(val, seed); [h % f.size] + HashN(f, val, h, n - 1)
  }

  /** The k-th hash of a value: the value hashed with the hash before as the seed, 0 at first. */
  function Chain(f: Setup, val: Value, k: nat): nat {
    if k == 0 then 0 else f.murmur(val, Chain(f, val, k - 1))
  }

  /** From the j-th hash on, the positions are those of the hashes after it. */
  lemma {:induction false} HashNChain(f: Setup, val: Value, j: nat, n: nat, i: nat)
    requires f.Ok() && i < n
    ensures HashN(f, val, Chain(f, val, j), n)[i] == Chain(f, val, j + i + 1) % f.size
    decreases n
  {
    if i > 0 { HashNChain(f, val, j + 1, n - 1, i - 1); }
  }

  function Bits(f: Setup, val: Value): set<nat>
    requires f.Ok()
  {
    set b | b in HashN(f, val, 0, f.hashes)
  }

  /** hash_n */
  method HashLoop(f: Setup, val: Value) returns (hashes: seq<nat>)
    requires f.Ok()
    ensures hashes == HashN(f, val, 0, f.hashes)
    ensures |hashes| == f.hashes && forall i | 0 <= i < f.hashes :: hashes[i] == Chain(f, val, i + 1) % f.size
  {
    hide Chain;
    hashes := [];
    var h: nat, n := 0, f.hashes;
    while n > 0
      invariant 0 <= n <= f.hashes
      invariant hashes + HashN(f, val, h, n) == HashN(f, val, 0, f.hashes)
    {
      h := f.murmur(val, h);
      hashes := hashes + [h % f.size];
      n := n - 1;
    }
    HashesChain(f, val, hashes);
  }

  lemma HashesChain(f: Setup, val: Value, hashes: seq<nat>)
    requires f.Ok() && hashes == HashN(f, val, 0, f.hashes)
    ensures |hashes| == f.hashes && forall i | 0 <= i < f.hashes :: hashes[i] == Chain(f, val, i + 1) % f.size
  {
    forall i | 0 <= i < f.hashes ensures hashes[i] == Chain(f, val, i + 1) % f.size {
      HashNChain(f, val, 0, f.hashes, i);
      hide HashN;
    }
  }

  class BloomFilter {
    const f: Setup
    var bits: set<nat>

    constructor (f: Setup)
      ensures this.f == f && bits == {}
    {
      this.f := f;
      bits := {};
    }

    /** Set every bit of the value. */
    method Insert(val: Value)
      requires f.Ok()
      modifies this
      ensures bits == old(bits) + Bits(f, val)
    {
      var hashes := HashLoop(f, val);
      var i := 0;
      while i < |hashes|
        invariant i <= |hashes|
        invariant bits == old(bits) + set b | b in hashes[..i]
      {
        bits := bits + {hashes[i]};
        assert hashes[..i + 1] == hashes[..i] + [hashes[i]];
        i := i + 1;
      }
      assert hashes[..i] == hashes;
    }

    /** Set one bit of the value, whichever the shuffle puts first. */
    method Insert1(val: Value)
      requires f.Ok()
      modifies this
      ensures exists b :: b in Bits(f, val) && bits == old(bits) + {b}
    {
      var hashes := HashLoop(f, val);
      assert hashes[0] in hashes;
      var b :| b in hashes;
      bits := bits + {b};
      assert b in Bits(f, val);
    }
  }

  // ---------------------------------------------------------------------------
  // Filters of subscriptions and events
  // ---------------------------------------------------------------------------

  predicate HasEq(d: seq<Entry>) { d != [] && (d[0].pred.op == Eq || HasEq(d[1..])) }

  /** All bits of all equality constants. */
  function EqBits(f: Setup, d: seq<Entry>): set<nat>
    requires f.Ok()
  {
    if d == [] then {}
    else EqBits(f, d[..|d| - 1]) + (if d[|d| - 1].pred.op == Eq then Bits(f, d[|d| - 1].pred.val) else {})
  }

  /** They are the bits of the equality constants and no other. */
  lemma {:induction false} EqBitsExact(f: Setup, d: seq<Entry>, b: nat)
    requires f.Ok()
    ensures b in EqBits(f, d) <==> exists t | t in d :: t.pred.op == Eq && b in Bits(f, t.pred.val)
  {
    if d != [] {
      var k := |d| - 1;
      EqBitsExact(f, d[..k], b);
      assert forall t :: t in d <==> t in d[..k] || t == d[k];
    }
  }

  /** One bit of each equality constant, whichever, and no other. */
  ghost predicate Picked(f: Setup, d: seq<Entry>, bits: set<nat>)
    requires f.Ok()
  {
    exists picks: seq<nat> :: PickedBy(f, d, picks, bits)
  }

  ghost predicate PickedBy(f: Setup, d: seq<Entry>, picks: seq<nat>, bits: set<nat>)
    requires f.Ok()
  {
    && |picks| == |d|
    && (forall i | 0 <= i < |d| && d[i].pred.op == Eq :: picks[i] in Bits(f, d[i].pred.val))
    && bits == set i | 0 <= i < |d| && d[i].pred.op == Eq :: picks[i]
  }

  /** The filter of a subscription: one bit per equality in variant ONE, all otherwise. */
  ghost predicate Filters(f: Setup, one: bool, d: seq<Entry>, bits: set<nat>)
    requires f.Ok()
  {
    if one then Picked(f, d, bits) else bits == EqBits(f, d)
  }

  /** What the index needs of a subscription's filter: no bit but those of its
    * equality constants, and some bit if it has an equality at all. */
  ghost predicate Indexes(f: Setup, d: seq<Entry>, bits: set<nat>)
    requires f.Ok()
  {
    bits <= EqBits(f, d) && (bits == {} <==> !HasEq(d))
  }

  lemma FiltersIndex(f: Setup, one: bool, d: seq<Entry>, bits: set<nat>)
    requires f.Ok() && Filters(f, one, d, bits)
    ensures Indexes(f, d, bits)
  {
    if one {
      var picks :| PickedBy(f, d, picks, bits);
      forall b | b in bits ensures b in EqBits(f, d) && HasEq(d) {
        var i :| 0 <= i < |d| && d[i].pred.op == Eq && picks[i] == b;
        EqBitsExact(f, d, b);
        HasEqMember(d, d[i]);
      }
    } else {
      forall b | b in bits ensures HasEq(d) {
        var t := EqBitsWitness(f, d, b);
        HasEqMember(d, t);
      }
    }
    if HasEq(d) {
      var t := HasEqWitness(d);
      var i :| 0 <= i < |d| && d[i] == t;
      BitsSome(f, t.pred.val);
      if one {
        var picks :| PickedBy(f, d, picks, bits);
        assert picks[i] in bits;
      } else {
        var b :| b in Bits(f, t.pred.val);
        EqBitsExact(f, d, b);
      }
    }
  }

  lemma BitsSome(f: Setup, val: Value)
    requires f.Ok()
    ensures Bits(f, val) != {}
  {
    var hs := HashN(f, val, 0, f.hashes);
    assert hs[0] in hs;
    assert hs[0] in Bits(f, val);
  }

  ghost predicate CoversEvent(f: Setup, e: Event, bits: set<nat>)
    requires f.Ok()
  {
    (forall k | k in e :: Bits(f, e[k]) <= bits) && (forall b | b in bits :: exists k | k in e :: b in Bits(f, e[k]))
  }

  /** The loop of PreFilter::add over the predicates. */
  method SubscriptionFilter(f: Setup, d: seq<Entry>, one: bool) returns (bf: BloomFilter)
    requires f.Ok()
    ensures fresh(bf) && bf.f == f && Filters(f, one, d, bf.bits)
  {
    bf := new BloomFilter(f);
    var i := 0;
    FiltersNone(f, one);
    while i < |d|
      invariant i <= |d| && bf.f == f
      invariant Filters(f, one, d[..i], bf.bits)
    {
      ghost var bits := bf.bits;
      if d[i].pred.op == Eq {
        if one { bf.Insert1(d[i].pred.val); } else { bf.Insert(d[i].pred.val); }
      }
      FiltersStep(f, one, d, i, bits, bf.bits);
      i := i + 1;
    }
    assert d[..i] == d;
  }

  lemma FiltersNone(f: Setup, one: bool)
    requires f.Ok()
    ensures Filters(f, one, [], {})
  {
    assert PickedBy(f, [], [], {});
  }

  lemma FiltersStep(f: Setup, one: bool, d: seq<Entry>, i: nat, bits: set<nat>, more: set<nat>)
    requires f.Ok() && i < |d| && Filters(f, one, d[..i], bits)
    requires
      if d[i].pred.op != Eq then more == bits
      else if one then exists b :: b in Bits(f, d[i].pred.val) && more == bits + {b}
      else more == bits + Bits(f, d[i].pred.val)
    ensures Filters(f, one, d[..i + 1], more)
  {
    assert d[..i + 1][..i] == d[..i];
    if one {
      var picks :| PickedBy(f, d[..i], picks, bits);
      var b := 0;
      if d[i].pred.op == Eq { b :| b in Bits(f, d[i].pred.val) && more == bits + {b}; }
      PickedNext(f, d[..i + 1], picks, bits, b, more);
    }
  }

  lemma PickedNext(f: Setup, d: seq<Entry>, picks: seq<nat>, bits: set<nat>, b: nat, more: set<nat>)
    requires f.Ok() && d != [] && PickedBy(f, d[..|d| - 1], picks, bits)
    requires if d[|d| - 1].pred.op == Eq then b in Bits(f, d[|d| - 1].pred.val) && more == bits + {b} else more == bits
    ensures PickedBy(f, d, picks + [b], more)
  {
    hide Bits;
    var k, all := |d| - 1, picks + [b];
    forall x ensures x in more <==> exists i | 0 <= i < |d| && d[i].pred.op == Eq :: all[i] == x {
      if x in bits {
        var i :| 0 <= i < k && d[..k][i].pred.op == Eq && picks[i] == x;
        assert d[i].pred.op == Eq && all[i] == x;
      }
      if i :| 0 <= i < |d| && d[i].pred.op == Eq && all[i] == x {
        if i < k { assert d[..k][i] == d[i] && picks[i] == x; }
      }
    }
  }

  method EventFilter(f: Setup, e: Event) returns (bf: BloomFilter)
    requires f.Ok()
    ensures fresh(bf) && bf.f == f && CoversEvent(f, e, bf.bits)
  {
    bf := new BloomFilter(f);
    var keys := e.Keys;
    while keys != {}
      invariant keys <= e.Keys && bf.f == f
      invariant forall k | k in e && k !in keys :: Bits(f, e[k]) <= bf.bits
      invariant forall b | b in bf.bits :: exists k | k in e :: b in Bits(f, e[k])
      decreases keys
    {
      var k :| k in keys;
      bf.Insert(e[k]);
      keys := keys - {k};
    }
  }

  /** No false negatives: whatever the hash function and whichever bits were
    * picked, a matching event has all bits of the subscription. */
  lemma {:induction false} NoFalseNegative(f: Setup, d: seq<Entry>, bits: set<nat>, e: Event, filter: set<nat>)
    requires f.Ok() && bits <= EqBits(f, d) && CoversEvent(f, e, filter) && Accepts(d, e)
    ensures bits <= filter
  {
    AcceptsAll(d, e);
    forall b | b in bits ensures b in filter {
      var t := EqBitsWitness(f, d, b);
      assert EntryHolds(t, e);
      assert Bits(f, e[t.key]) <= filter;
    }
  }

  lemma {:induction false} EqBitsWitness(f: Setup, d: seq<Entry>, b: nat) returns (t: Entry)
    requires f.Ok() && b in EqBits(f, d)
    ensures t in d && t.pred.op == Eq && b in Bits(f, t.pred.val)
  {
    var k := |d| - 1;
    if d[k].pred.op == Eq && b in Bits(f, d[k].pred.val) { t := d[k]; } else { t := EqBitsWitness(f, d[..k], b); }
  }

  // ---------------------------------------------------------------------------
  // Equalities along containment
  // ---------------------------------------------------------------------------

  /** What a container demands by an equality, its containees also demand by one. */
  ghost predicate EqualityKept(U: iset<seq<Entry>>) {
    forall a, b :: a in U && b in U && Includes(a, b) && HasEq(a) ==> HasEq(b)
  }

  lemma {:induction false} HasEqWitness(d: seq<Entry>) returns (t: Entry)
    requires HasEq(d)
    ensures t in d && t.pred.op == Eq
  {
    if d[0].pred.op == Eq { t := d[0]; } else { t := HasEqWitness(d[1..]); }
  }

  lemma {:induction false} HasEqMember(d: seq<Entry>, t: Entry)
    requires t in d && t.pred.op == Eq
    ensures HasEq(d)
  {
    if t != d[0] { HasEqMember(d[1..], t); }
  }

  /** It holds where no subscription bounds a key from both sides... */
  lemma NoPairEqualityKept(U: iset<seq<Entry>>)
    requires forall b :: b in U ==> NoPair(b)
    ensures EqualityKept(U)
  {
    forall a, b | a in U && b in U && Includes(a, b) && HasEq(a) ensures HasEq(b) {
      var t := HasEqWitness(a);
      IncludesAll(a, b);
      CoveredEquality(Range(b, t.key), t.pred.val);
      RangeMember(b, t.key, t.pred);
      HasEqMember(b, t);
    }
  }

  /** ... and fails for an equality next to the same equality written as a pair. */
  lemma PairLosesEquality()
    ensures
      var point := [Entry("a", Predicate(Eq, 5))];
      var pair := [Entry("a", Predicate(Ge, 5)), Entry("a", Predicate(Le, 5))];
      Equivalent(point, pair) && HasEq(point) && !HasEq(pair)
  {
    var pair := [Entry("a", Predicate(Ge, 5)), Entry("a", Predicate(Le, 5))];
    TwoOnOneKey("a", Predicate(Ge, 5), Predicate(Le, 5));
    assert pair[1..] == [Entry("a", Predicate(Le, 5))];
  }
}
