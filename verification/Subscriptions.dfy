/** Subscriptions, events and the two operations on them: matching an event
  * and containment between subscriptions. */
module Subscriptions {

  /** The source's attribute values are 32-bit integers; they are only ever compared. */
  type Value = v: int | -0x8000_0000 <= v < 0x8000_0000

  type Key = string

  datatype Op = Exists | Eq | Ne | Lt | Gt | Le | Ge | Contains | StartsWith {
    predicate Supported() { this != Contains && this != StartsWith }
  }

  datatype Predicate = Predicate(op: Op, val: Value)

  datatype Entry = Entry(key: Key, pred: Predicate)

  type Event = map<Key, Value>

  // ---------------------------------------------------------------------------
  // The ordered multimap that holds the predicates
  // ---------------------------------------------------------------------------

  /** Lexicographic order on keys. */
  predicate KeyLess(a: Key, b: Key) {
    b != [] && (a == [] || a[0] < b[0] || (a[0] == b[0] && KeyLess(a[1..], b[1..])))
  }

  /** At the first difference a has the smaller character, or it ends there. */
  lemma {:induction false} KeyLessExact(a: Key, b: Key)
    ensures KeyLess(a, b) <==>
      exists n | 0 <= n <= |a| && n < |b| :: a[..n] == b[..n] && (n == |a| || a[n] < b[n])
  {
    if a == [] {
      assert b != [] ==> a[..0] == b[..0];
    } else if b != [] {
      KeyLessExact(a[1..], b[1..]);
      if KeyLess(a, b) {
        if a[0] < b[0] {
          assert a[..0] == b[..0];
        } else {
          var n :| 0 <= n <= |a[1..]| && n < |b[1..]| && a[1..][..n] == b[1..][..n] &&
            (n == |a[1..]| || a[1..][n] < b[1..][n]);
          assert a[..n + 1] == [a[0]] + a[1..][..n] && b[..n + 1] == [b[0]] + b[1..][..n];
        }
      }
      if n :| 0 <= n <= |a| && n < |b| && a[..n] == b[..n] && (n == |a| || a[n] < b[n]) {
        if n > 0 {
          assert a[0] == a[..n][0] == b[..n][0];
          assert a[1..][..n - 1] == a[..n][1..] && b[1..][..n - 1] == b[..n][1..];
        }
      }
    }
  }

  ghost predicate Sorted(d: seq<Entry>) {
    forall i, j :: 0 <= i < j < |d| ==> !KeyLess(d[j].key, d[i].key)
  }

  /** The predicates of a multimap in iteration order: by key, then by insertion. */
  type Multimap = d: seq<Entry> | Sorted(d) witness []

  lemma {:induction false} KeyLessTransitive(a: Key, b: Key, c: Key)
    requires !KeyLess(b, a) && !KeyLess(c, b)
    ensures !KeyLess(c, a)
  {
    if a != [] && c != [] && b != [] && a[0] == b[0] && b[0] == c[0] {
      KeyLessTransitive(a[1..], b[1..], c[1..]);
    }
  }

  lemma {:induction false} KeyLessTotal(a: Key, b: Key)
    ensures !(KeyLess(a, b) && KeyLess(b, a))
    ensures a == b <==> !KeyLess(a, b) && !KeyLess(b, a)
  {
    if a != [] && b != [] {
      KeyLessTotal(a[1..], b[1..]);
      assert a == [a[0]] + a[1..] && b == [b[0]] + b[1..];
    }
  }

  function Under(t: Entry, k: Key): seq<Predicate> { if t.key == k then [t.pred] else [] }

  /** The predicates stored for one key, in insertion order. */
  function Range(d: seq<Entry>, k: Key): seq<Predicate> {
    if d == [] then [] else Under(d[0], k) + Range(d[1..], k)
  }

  /** Inserting keeps the order of keys and goes after the entries of an equal key. */
  function Insert(d: seq<Entry>, e: Entry): seq<Entry> {
    if d == [] || KeyLess(e.key, d[0].key) then [e] + d
    else [d[0]] + Insert(d[1..], e)
  }

  lemma {:induction false} InsertMembers(d: seq<Entry>, e: Entry, t: Entry)
    ensures t in Insert(d, e) <==> t in d || t == e
  {
    if d != [] && !KeyLess(e.key, d[0].key) {
      InsertMembers(d[1..], e, t);
      assert d == [d[0]] + d[1..];
    }
  }

  lemma {:induction false} InsertSorted(d: seq<Entry>, e: Entry)
    requires Sorted(d)
    ensures Sorted(Insert(d, e))
  {
    if d == [] {
    } else if KeyLess(e.key, d[0].key) {
      var r := [e] + d;
      KeyLessTotal(e.key, d[0].key);
      forall j | 0 < j < |r| ensures !KeyLess(r[j].key, e.key) {
        if j > 1 {
          assert !KeyLess(d[j - 1].key, d[0].key);
          KeyLessTransitive(e.key, d[0].key, d[j - 1].key);
        }
      }
    } else {
      var rest := Insert(d[1..], e);
      InsertSorted(d[1..], e);
      forall j | 0 <= j < |rest| ensures !KeyLess(rest[j].key, d[0].key) {
        InsertMembers(d[1..], e, rest[j]);
        if rest[j] != e {
          var i :| 0 <= i < |d[1..]| && d[1..][i] == rest[j];
          assert d[1 + i] == rest[j];
        }
      }
    }
  }

  lemma RangeCons(t: Entry, d: seq<Entry>, k: Key)
    ensures Range([t] + d, k) == Under(t, k) + Range(d, k)
  {
    assert ([t] + d)[1..] == d;
  }

  /** Within one key, insertion appends; other keys are untouched. */
  lemma {:induction false} InsertRange(d: seq<Entry>, e: Entry, k: Key)
    requires Sorted(d)
    ensures Range(Insert(d, e), k) == Range(d, k) + Under(e, k)
  {
    if d == [] {
      RangeCons(e, d, k);
    } else if KeyLess(e.key, d[0].key) {
      RangeCons(e, d, k);
      if e.key == k { RangeEmptyBelow(d, k); }
    } else {
      var rest := d[1..];
      InsertRange(rest, e, k);
      calc {
        Range(Insert(d, e), k);
        { RangeCons(d[0], Insert(rest, e), k); }
        Under(d[0], k) + (Range(rest, k) + Under(e, k));
        Under(d[0], k) + Range(rest, k) + Under(e, k);
        Range(d, k) + Under(e, k);
      }
    }
  }

  lemma {:induction false} RangeEmptyBelow(d: seq<Entry>, k: Key)
    requires Sorted(d) && (d != [] ==> KeyLess(k, d[0].key))
    ensures Range(d, k) == []
  {
    if d != [] {
      KeyLessTotal(k, d[0].key);
      if |d| > 1 {
        assert !KeyLess(d[1].key, d[0].key);
        if !KeyLess(k, d[1].key) {
          KeyLessTransitive(d[0].key, d[1].key, k);
        }
      }
      RangeEmptyBelow(d[1..], k);
    }
  }

  /** An entry is listed under its key, and only entries are. */
  lemma {:induction false} RangeMember(d: seq<Entry>, k: Key, p: Predicate)
    ensures p in Range(d, k) <==> Entry(k, p) in d
  {
    if d != [] {
      RangeMember(d[1..], k, p);
      assert d == [d[0]] + d[1..];
    }
  }

  // ---------------------------------------------------------------------------
  // Matching: the meaning of a subscription
  // ---------------------------------------------------------------------------

  predicate Holds(p: Predicate, x: Value) {
    match p.op
    case Exists => true
    case Eq => x == p.val
    case Ne => x != p.val
    case Lt => x < p.val
    case Gt => x > p.val
    case Le => x <= p.val
    case Ge => x >= p.val
    case _ => false
  }

  /** One predicate holds of an event: its key is present with an allowed value. */
  predicate EntryHolds(t: Entry, e: Event) {
    t.key in e && Holds(t.pred, e[t.key])
  }

  predicate Accepts(d: seq<Entry>, e: Event) {
    d == [] || (EntryHolds(d[0], e) && Accepts(d[1..], e))
  }

  /** Acceptance is the conjunction over all predicates. */
  lemma {:induction false} AcceptsAll(d: seq<Entry>, e: Event)
    ensures Accepts(d, e) <==> forall t :: t in d ==> EntryHolds(t, e)
  {
    if d != [] {
      AcceptsAll(d[1..], e);
      assert forall t :: t in d <==> t == d[0] || t in d[1..];
    }
  }

  // ---------------------------------------------------------------------------
  // Containment: the syntactic decision procedure
  // ---------------------------------------------------------------------------

  /** The case table: q alone implies p. */
  predicate Implies(p: Predicate, q: Predicate) {
    match p.op
    case Exists => true
    case Eq => q.op == Eq && q.val == p.val
    case Ne =>
      || (q.op == Ne && q.val == p.val)
      || (q.op == Eq && q.val != p.val)
      || (q.op == Lt && q.val <= p.val)
      || (q.op == Le && q.val < p.val)
      || (q.op == Gt && q.val >= p.val)
      || (q.op == Ge && q.val > p.val)
    case Lt => (q.op == Lt && q.val <= p.val) || ((q.op == Le || q.op == Eq) && q.val < p.val)
    case Le => (q.op == Lt || q.op == Le || q.op == Eq) && q.val <= p.val
    case Gt => (q.op == Gt && q.val >= p.val) || ((q.op == Ge || q.op == Eq) && q.val > p.val)
    case Ge => (q.op == Gt || q.op == Ge || q.op == Eq) && q.val >= p.val
    case _ => false
  }

  predicate HasOp(ps: seq<Predicate>, o: Op) {
    ps != [] && (ps[0].op == o || HasOp(ps[1..], o))
  }

  /** The two-predicate rule for equality as the code has it: a first bound with
    * the constant v and some later opposite bound, whatever its constant. */
  predicate PairHead(v: Value, ps: seq<Predicate>)
    requires ps != []
  {
    ps[0].val == v && ((ps[0].op == Ge && HasOp(ps[1..], Le)) || (ps[0].op == Le && HasOp(ps[1..], Ge)))
  }

  /** Some predicate of the list, or pair of predicates, implies p. */
  predicate Covered(p: Predicate, ps: seq<Predicate>) {
    ps != [] &&
    (Implies(p, ps[0]) || (p.op == Eq && PairHead(p.val, ps)) || Covered(p, ps[1..]))
  }

  /** a >= b: every predicate of a is covered by those of b for the same key. */
  predicate Includes(a: seq<Entry>, b: seq<Entry>) {
    a == [] || (Covered(a[0].pred, Range(b, a[0].key)) && Includes(a[1..], b))
  }

  lemma {:induction false} IncludesAll(a: seq<Entry>, b: seq<Entry>)
    ensures Includes(a, b) <==> forall t :: t in a ==> Covered(t.pred, Range(b, t.key))
  {
    if a != [] {
      IncludesAll(a[1..], b);
      assert forall t :: t in a <==> t == a[0] || t in a[1..];
    }
  }

  /** a > b: strict containment. */
  predicate StrictlyIncludes(a: seq<Entry>, b: seq<Entry>) { Includes(a, b) && !Includes(b, a) }

  /** a == b: mutual containment. */
  predicate Equivalent(a: seq<Entry>, b: seq<Entry>) { Includes(a, b) && Includes(b, a) }

  // ---------------------------------------------------------------------------
  // The class
  // ---------------------------------------------------------------------------

  lemma {:induction false} RangeAppend(a: seq<Entry>, b: seq<Entry>, k: Key)
    ensures Range(a + b, k) == Range(a, k) + Range(b, k)
  {
    if a == [] {
      assert a + b == b;
    } else {
      assert (a + b)[1..] == a[1..] + b;
      RangeAppend(a[1..], b, k);
    }
  }

  lemma {:induction false} RangeNone(d: seq<Entry>, k: Key)
    requires forall i :: 0 <= i < |d| ==> d[i].key != k
    ensures Range(d, k) == []
  {
    if d != [] { RangeNone(d[1..], k); }
  }

  /** equal_range: the contiguous stretch of entries with key k. */
  method EqualRange(d: Multimap, k: Key) returns (lo: nat, hi: nat)
    ensures lo <= hi <= |d|
    ensures forall i :: 0 <= i < |d| ==> (lo <= i < hi <==> d[i].key == k)
    ensures Range(d, k) == Range(d[lo..hi], k)
  {
    lo := 0;
    while lo < |d| && KeyLess(d[lo].key, k)
      invariant lo <= |d|
      invariant forall i :: 0 <= i < lo ==> KeyLess(d[i].key, k)
    {
      lo := lo + 1;
    }
    hi := lo;
    while hi < |d| && !KeyLess(k, d[hi].key)
      invariant lo <= hi <= |d|
      invariant forall i :: lo <= i < hi ==> d[i].key == k
    {
      if hi > lo { assert d[lo].key == k; }
      KeyLessTotal(d[hi].key, k);
      hi := hi + 1;
    }
    StretchExact(d, k, lo, hi);
    StretchRange(d, k, lo, hi);
  }

  lemma StretchExact(d: Multimap, k: Key, lo: nat, hi: nat)
    requires lo <= hi <= |d|
    requires forall i :: 0 <= i < lo ==> KeyLess(d[i].key, k)
    requires hi < |d| ==> KeyLess(k, d[hi].key)
    ensures forall i :: 0 <= i < lo || hi <= i < |d| ==> d[i].key != k
  {
    forall i | 0 <= i < lo || hi <= i < |d| ensures d[i].key != k {
      KeyLessTotal(d[i].key, k);
      if hi < i { assert !KeyLess(d[i].key, d[hi].key); }
    }
  }

  lemma StretchRange(d: seq<Entry>, k: Key, lo: nat, hi: nat)
    requires lo <= hi <= |d|
    requires forall i :: 0 <= i < lo || hi <= i < |d| ==> d[i].key != k
    ensures Range(d, k) == Range(d[lo..hi], k)
  {
    var mid, last := d[lo..hi], d[hi..];
    assert d == d[..lo] + (mid + last);
    RangeAppend(d[..lo], mid + last, k);
    RangeAppend(mid, last, k);
    RangeNone(d[..lo], k);
    RangeNone(last, k);
  }

  /** A subscription. Its predicates do not change once it is built; the two
    * attributes are the back pointers the graph and the pre-filter write. */
  class Subscription {
    const name: string
    const hash: string
    const data: Multimap
    var graphAttr: object?
    var filterAttr: object?

    constructor (name: string, hash: string, data: Multimap)
      ensures this.name == name && this.hash == hash && this.data == data
      ensures graphAttr == null && filterAttr == null
    {
      this.name, this.hash, this.data := name, hash, data;
      graphAttr, filterAttr := null, null;
    }

    method Matches(e: Event) returns (r: bool)
      ensures r == Accepts(data, e)
    {
      var i := 0;
      while i < |data|
        invariant i <= |data|
        invariant Accepts(data, e) == Accepts(data[i..], e)
      {
        if data[i].key !in e { return false; }
        var p, x := data[i].pred, e[data[i].key];
        match p.op {
          case Exists =>
          case Eq => if x != p.val { return false; }
          case Ne => if x == p.val { return false; }
          case Lt => if x >= p.val { return false; }
          case Gt => if x <= p.val { return false; }
          case Le => if x > p.val { return false; }
          case Ge => if x < p.val { return false; }
          case _ => return false;
        }
        i := i + 1;
      }
      return true;
    }

    /** operator>= */
    method GreaterEqual(s: Subscription) returns (r: bool)
      ensures r == Includes(data, s.data)
    {
      var i := 0;
      while i < |data|
        invariant i <= |data|
        invariant Includes(data, s.data) == Includes(data[i..], s.data)
      {
        var lo, hi := EqualRange(s.data, data[i].key);
        if lo == hi { return false; }
        var c := CoverLoop(data[i].pred, s.data, lo, hi, data[i].key);
        if !c { return false; }
        i := i + 1;
      }
      return true;
    }
  }

  lemma CoverStep(p: Predicate, d: seq<Entry>, j: nat, hi: nat, k: Key)
    requires j < hi <= |d| && d[j].key == k
    ensures
      var q, rest := d[j].pred, Range(d[j + 1..hi], k);
      Covered(p, Range(d[j..hi], k)) ==
        (Implies(p, q) || Covered(p, rest)
        || (p.op == Eq && q.val == p.val && ((q.op == Ge && HasOp(rest, Le)) || (q.op == Le && HasOp(rest, Ge)))))
  {
    assert d[j..hi] == [d[j]] + d[j + 1..hi];
    assert d[j..hi][1..] == d[j + 1..hi];
    hide Implies, HasOp;
  }

  lemma NoCover(p: Predicate, k: Key)
    ensures !Covered(p, Range([], k))
  {}

  /** The inner loop of operator>=: scan the stretch of one key for a cover of p. */
  method CoverLoop(p: Predicate, d: seq<Entry>, lo: nat, hi: nat, k: Key) returns (c: bool)
    requires lo < hi <= |d|
    requires forall i :: lo <= i < hi ==> d[i].key == k
    ensures c == Covered(p, Range(d[lo..hi], k))
  {
    hide Covered, Range, HasOp;
    c := false;
    if !p.op.Supported() {
      UnsupportedNotCovered(p, Range(d[lo..hi], k));
      return;
    }
    var j := lo;
    NoCover(p, k);
    while j < hi && !c
      invariant lo <= j <= hi
      invariant Covered(p, Range(d[lo..hi], k)) == (c || Covered(p, Range(d[j..hi], k)))
    {
      var q := d[j].pred;
      CoverStep(p, d, j, hi, k);
      c := Implies(p, q);
      if p.op == Eq && (q.op == Ge || q.op == Le) && q.val == p.val {
        c := OppositeLoop(if q.op == Ge then Le else Ge, d, j + 1, hi, k);
      }
      j := j + 1;
    }
    if j == hi { assert d[j..hi] == []; }
  }

  method OppositeLoop(o: Op, d: seq<Entry>, from: nat, hi: nat, k: Key) returns (c: bool)
    requires from <= hi <= |d|
    requires forall i :: from <= i < hi ==> d[i].key == k
    ensures c == HasOp(Range(d[from..hi], k), o)
  {
    c := false;
    var m := from;
    while m < hi && !c
      invariant from <= m <= hi
      invariant HasOp(Range(d[from..hi], k), o) == (c || HasOp(Range(d[m..hi], k), o))
    {
      assert d[m..hi] == [d[m]] + d[m + 1..hi];
      c := d[m].pred.op == o;
      m := m + 1;
    }
  }

  lemma {:induction false} UnsupportedNotCovered(p: Predicate, ps: seq<Predicate>)
    requires !p.op.Supported()
    ensures !Covered(p, ps)
  {
    if ps != [] { UnsupportedNotCovered(p, ps[1..]); }
  }
}
