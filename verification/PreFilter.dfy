/** The Bloom pre-filter index. */
module PreFilter {
  import opened Subscriptions
  import opened Containment
  import opened Diagram
  import opened Census
  import opened Matching
  import opened Graph
  import opened Bloom
  import opened Index
  import opened Pruning
  import opened FilterMatch
  import opened FilterGroups
  import opened FilterLinks
  import opened FilterReady
  import opened FilterExact

  ghost predicate AllContainersFirst(lists: seq<seq<Indexed>>) {
    forall k | 0 <= k < |lists| :: ContainersFirst(lists[k])
  }

  // ---------------------------------------------------------------------------
  // Filing an entry
  // ---------------------------------------------------------------------------

  /** b is put before the first entry it contains if asked for, else at the end. */
  ghost predicate Put(list: seq<Indexed>, b: Indexed, contain: bool, r: seq<Indexed>) {
    exists j | 0 <= j <= |list| :: r == list[..j] + [b] + list[j..] && FirstPlace(list, b, contain, j)
  }

  ghost predicate FirstPlace(list: seq<Indexed>, b: Indexed, contain: bool, j: nat)
    requires j <= |list|
  {
    if contain then
      && (forall i | 0 <= i < j :: !Includes(b.sub.data, list[i].sub.data))
      && (j < |list| ==> Includes(b.sub.data, list[j].sub.data))
    else j == |list|
  }

  /** Put b on a list. */
  method PutOn(list: seq<Indexed>, b: Indexed, contain: bool, ghost S: set<Indexed>, ghost U: iset<seq<Entry>>)
    returns (r: seq<Indexed>)
    requires Lists(list, S) && b !in S
    requires contain ==> Preorder(U) && b.sub.data in U && forall x | x in S :: x.sub.data in U
    ensures Lists(r, S + {b}) && Put(list, b, contain, r)
    ensures contain && ContainersFirst(list) ==> ContainersFirst(r)
  {
    if contain {
      var j := 0;
      while j < |list|
        invariant j <= |list|
        invariant forall i | 0 <= i < j :: !Includes(b.sub.data, list[i].sub.data)
      {
        var c := b.sub.GreaterEqual(list[j].sub);
        if c { break; }
        j := j + 1;
      }
      r := list[..j] + [b] + list[j..];
      assert FirstPlace(list, b, contain, j);
      InsertLists(list, j, b, S);
      if ContainersFirst(list) {
        ListFrom(list, S, U);
        InsertKeepsOrder(list, j, b, U);
      }
    } else {
      AppendLists(list, b, S);
      r := list + [b];
      assert r == list[..|list|] + [b] + list[|list|..] && FirstPlace(list, b, contain, |list|);
    }
  }

  lemma ListFrom(list: seq<Indexed>, S: set<Indexed>, U: iset<seq<Entry>>)
    requires Lists(list, S) && forall x | x in S :: x.sub.data in U
    ensures forall i | 0 <= i < |list| :: list[i].sub.data in U
  {
    forall i | 0 <= i < |list| ensures list[i].sub.data in U { assert list[i] in list; }
  }

  lemma InsertLists(list: seq<Indexed>, j: nat, b: Indexed, S: set<Indexed>)
    requires Lists(list, S) && b !in S && j <= |list|
    ensures Lists(list[..j] + [b] + list[j..], S + {b})
  {
    var r := list[..j] + [b] + list[j..];
    assert list == list[..j] + list[j..];
    forall x, y | 0 <= x < y < |r| ensures r[x] != r[y] {
      InsertedAt(list, j, b, x);
      InsertedAt(list, j, b, y);
      assert forall i | 0 <= i < |list| :: list[i] in list;
    }
  }

  /** While an entry with filter bits is being filed, the first i lists have it. */
  ghost predicate Filing(f: Setup, all: set<Indexed>, b: Indexed, lists: seq<seq<Indexed>>, i: nat) {
    && |lists| == f.size + 1
    && (forall k | 0 <= k < i && k < f.size :: Lists(lists[k], On(all + {b}, k)))
    && (forall k | i <= k < f.size :: Lists(lists[k], On(all, k)))
    && Lists(lists[f.size], OnDefault(all))
  }

  lemma FilingStart(f: Setup, all: set<Indexed>, b: Indexed, lists: seq<seq<Indexed>>)
    requires Filed(f, all, lists)
    ensures Filing(f, all, b, lists, 0)
  {}

  lemma FilingStep(f: Setup, all: set<Indexed>, b: Indexed, lists: seq<seq<Indexed>>, i: nat, list: seq<Indexed>)
    requires Filing(f, all, b, lists, i) && i < f.size && b !in all
    requires if i in b.bits then Lists(list, On(all, i) + {b}) else list == lists[i]
    ensures Filing(f, all, b, lists[i := list], i + 1)
  {
    assert On(all + {b}, i) == On(all, i) + if i in b.bits then {b} else {};
  }

  lemma FilingDone(f: Setup, all: set<Indexed>, b: Indexed, lists: seq<seq<Indexed>>)
    requires Filing(f, all, b, lists, f.size) && b.bits != {}
    ensures Filed(f, all + {b}, lists)
  {
    assert OnDefault(all + {b}) == OnDefault(all);
  }

  lemma FiledDefault(f: Setup, all: set<Indexed>, b: Indexed, lists: seq<seq<Indexed>>, list: seq<Indexed>)
    requires Filed(f, all, lists) && b.bits == {} && Lists(list, OnDefault(all) + {b})
    ensures Filed(f, all + {b}, lists[f.size := list])
  {
    forall k | 0 <= k < f.size ensures On(all + {b}, k) == On(all, k) {}
    assert OnDefault(all + {b}) == OnDefault(all) + {b};
  }

  lemma FilingAt(f: Setup, all: set<Indexed>, b: Indexed, lists: seq<seq<Indexed>>, i: nat)
    requires Filing(f, all, b, lists, i) && i < f.size && b !in all
    ensures Lists(lists[i], On(all, i)) && b !in On(all, i) && On(all, i) <= all
  {}

  lemma FiledAt(f: Setup, all: set<Indexed>, b: Indexed, lists: seq<seq<Indexed>>)
    requires Filed(f, all, lists) && b !in all
    ensures |lists| == f.size + 1 && Lists(lists[f.size], OnDefault(all)) && b !in OnDefault(all)
    ensures OnDefault(all) <= all
  {}

  lemma FirstUpdate(lists: seq<seq<Indexed>>, i: nat, list: seq<Indexed>)
    requires i < |lists|
    ensures AllContainersFirst(lists) ==> ContainersFirst(lists[i])
    ensures AllContainersFirst(lists) && ContainersFirst(list) ==> AllContainersFirst(lists[i := list])
  {}

  /** Whether b belongs on list k. */
  ghost predicate Belongs(f: Setup, b: Indexed, k: nat) { if k < f.size then k in b.bits else b.bits == {} }

  /** Of the first n lists, b is put on those it belongs on; all others are as before. */
  ghost predicate PutOnto(f: Setup, b: Indexed, contain: bool, before: seq<seq<Indexed>>, lists: seq<seq<Indexed>>,
                          n: nat)
  {
    |lists| == |before| == f.size + 1 &&
    forall k | 0 <= k < |lists| ::
      if k < n && Belongs(f, b, k) then Put(before[k], b, contain, lists[k]) else lists[k] == before[k]
  }

  lemma PutNone(f: Setup, b: Indexed, contain: bool, before: seq<seq<Indexed>>)
    requires |before| == f.size + 1
    ensures PutOnto(f, b, contain, before, before, 0)
  {}

  lemma PutStep(f: Setup, b: Indexed, contain: bool, before: seq<seq<Indexed>>, lists: seq<seq<Indexed>>, n: nat,
                list: seq<Indexed>)
    requires PutOnto(f, b, contain, before, lists, n) && n < f.size
    requires if n in b.bits then Put(lists[n], b, contain, list) else list == lists[n]
    ensures PutOnto(f, b, contain, before, lists[n := list], n + 1)
  {
    hide Put;
  }

  lemma PutEnd(f: Setup, b: Indexed, contain: bool, before: seq<seq<Indexed>>, lists: seq<seq<Indexed>>)
    requires PutOnto(f, b, contain, before, lists, f.size) && b.bits != {}
    ensures PutOnto(f, b, contain, before, lists, f.size + 1)
  {
    hide Put;
  }

  lemma PutDefault(f: Setup, b: Indexed, contain: bool, before: seq<seq<Indexed>>, list: seq<Indexed>)
    requires |before| == f.size + 1 && b.bits == {} && Put(before[f.size], b, contain, list)
    ensures PutOnto(f, b, contain, before, before[f.size := list], f.size + 1)
  {
    hide Put;
  }

  /** The last part of PreFilter::add: one entry on each list of its bits, or on the default list. */
  method FileEntry(f: Setup, lists: array<seq<Indexed>>, b: Indexed, contain: bool, ghost all: set<Indexed>,
                   ghost U: iset<seq<Entry>>)
    requires lists.Length == f.size + 1 && Filed(f, all, lists[..]) && b !in all
    requires contain ==> Preorder(U) && b.sub.data in U && forall x | x in all :: x.sub.data in U
    modifies lists
    ensures Filed(f, all + {b}, lists[..])
    ensures PutOnto(f, b, contain, old(lists[..]), lists[..], f.size + 1)
    ensures contain && AllContainersFirst(old(lists[..])) ==> AllContainersFirst(lists[..])
  {
    hide *;
    if b.bits != {} {
      FilingStart(f, all, b, lists[..]);
      PutNone(f, b, contain, lists[..]);
      var i := 0;
      while i < f.size
        invariant i <= f.size && Filing(f, all, b, lists[..], i)
        invariant PutOnto(f, b, contain, old(lists[..]), lists[..], i)
        invariant contain && AllContainersFirst(old(lists[..])) ==> AllContainersFirst(lists[..])
      {
        ghost var before := lists[..];
        FilingAt(f, all, b, before, i);
        if i in b.bits {
          var list := PutOn(lists[i], b, contain, On(all, i), U);
          FirstUpdate(before, i, list);
          FilingStep(f, all, b, before, i, list);
          PutStep(f, b, contain, old(lists[..]), before, i, list);
          lists[i] := list;
          assert lists[..] == before[i := list];
        } else {
          FilingStep(f, all, b, before, i, lists[i]);
          PutStep(f, b, contain, old(lists[..]), before, i, lists[i]);
          assert lists[..] == before[i := lists[i]];
        }
        i := i + 1;
      }
      FilingDone(f, all, b, lists[..]);
      PutEnd(f, b, contain, old(lists[..]), lists[..]);
    } else {
      ghost var before := lists[..];
      FiledAt(f, all, b, before);
      var list := PutOn(lists[f.size], b, contain, OnDefault(all), U);
      FirstUpdate(before, f.size, list);
      FiledDefault(f, all, b, before, list);
      PutDefault(f, b, contain, before, list);
      lists[f.size] := list;
      assert lists[..] == before[f.size := list];
    }
  }

  // ---------------------------------------------------------------------------
  // Taking an entry off its lists
  // ---------------------------------------------------------------------------

  /** The bits of an entry from i on. */
  ghost function Later(b: Indexed, i: nat): set<nat> { set k | k in b.bits && i <= k }

  /** While b is being taken off, the first i lists no longer have it; count of its bits are left. */
  ghost predicate Unfiling(f: Setup, all: set<Indexed>, b: Indexed, lists: seq<seq<Indexed>>, i: nat, count: int) {
    && |lists| == f.size + 1 && count == |Later(b, i)|
    && (forall k | 0 <= k < i && k < f.size :: Lists(lists[k], On(all - {b}, k)))
    && (forall k | i <= k < f.size :: Lists(lists[k], On(all, k)))
    && Lists(lists[f.size], OnDefault(all))
  }

  lemma UnfilingStart(f: Setup, all: set<Indexed>, b: Indexed, lists: seq<seq<Indexed>>)
    requires Filed(f, all, lists)
    ensures Unfiling(f, all, b, lists, 0, |b.bits|)
  {
    assert Later(b, 0) == b.bits;
  }

  lemma UnfilingStep(f: Setup, all: set<Indexed>, b: Indexed, lists: seq<seq<Indexed>>, i: nat, count: int)
    requires Unfiling(f, all, b, lists, i, count) && i < f.size && b in all
    ensures i in b.bits ==> Unfiling(f, all, b, lists[i := Erase(lists[i], b)], i + 1, count - 1)
    ensures i !in b.bits ==> Unfiling(f, all, b, lists, i + 1, count)
  {
    EraseLists(lists[i], b, On(all, i));
    assert On(all - {b}, i) == On(all, i) - {b};
    assert i !in b.bits ==> On(all, i) - {b} == On(all, i);
    assert Later(b, i) == Later(b, i + 1) + if i in b.bits then {i} else {};
  }

  lemma UnfilingDone(f: Setup, all: set<Indexed>, b: Indexed, lists: seq<seq<Indexed>>, i: nat, count: int)
    requires Unfiling(f, all, b, lists, i, count) && b.bits != {} && (i >= f.size || count == 0)
    ensures Filed(f, all - {b}, lists)
  {
    assert OnDefault(all - {b}) == OnDefault(all);
    forall k | 0 <= k < f.size ensures Lists(lists[k], On(all - {b}, k)) {
      if i <= k {
        assert Later(b, i) == {};
        assert k in Later(b, i) <==> k in b.bits;
        assert On(all - {b}, k) == On(all, k);
      }
    }
  }

  lemma UnfiledDefault(f: Setup, all: set<Indexed>, b: Indexed, lists: seq<seq<Indexed>>)
    requires Filed(f, all, lists) && b.bits == {} && b in all
    ensures Filed(f, all - {b}, lists[f.size := Erase(lists[f.size], b)])
  {
    EraseLists(lists[f.size], b, OnDefault(all));
    forall k | 0 <= k < f.size ensures On(all - {b}, k) == On(all, k) {}
    assert OnDefault(all - {b}) == OnDefault(all) - {b};
  }

  lemma FiledSize(f: Setup, all: set<Indexed>, lists: seq<seq<Indexed>>)
    requires Filed(f, all, lists)
    ensures |lists| == f.size + 1
  {}

  lemma {:induction false} EraseKeepsOrder(l: seq<Indexed>, b: Indexed)
    ensures ContainersFirst(l) ==> ContainersFirst(Erase(l, b))
  {
    if l != [] && ContainersFirst(l) {
      var rest := l[1..];
      assert ContainersFirst(rest);
      EraseKeepsOrder(rest, b);
      forall y | y in Erase(rest, b) ensures !StrictlyIncludes(y.sub.data, l[0].sub.data) {
        EraseMember(rest, b, y);
        var i :| 0 <= i < |rest| && rest[i] == y;
        assert l[i + 1] == y;
      }
    }
  }

  /** The first part of PreFilter::remove. */
  method Unfile(f: Setup, lists: array<seq<Indexed>>, b: Indexed, ghost all: set<Indexed>)
    requires lists.Length == f.size + 1 && Filed(f, all, lists[..]) && b in all
    modifies lists
    ensures Filed(f, all - {b}, lists[..])
    ensures forall k | 0 <= k < lists.Length :: lists[k] == Erase(old(lists[k]), b)
    ensures AllContainersFirst(old(lists[..])) ==> AllContainersFirst(lists[..])
  {
    hide *;
    ghost var before := lists[..];
    var count := |b.bits|;
    if count == 0 {
      UnfiledDefault(f, all, b, before);
      FiledSize(f, all, before);
      FirstUpdate(before, f.size, Erase(before[f.size], b));
      EraseKeepsOrder(before[f.size], b);
      NotOnBits(f, all, b, before);
      lists[f.size] := Erase(lists[f.size], b);
      assert lists[..] == before[f.size := Erase(before[f.size], b)];
    } else {
      UnfilingStart(f, all, b, before);
      var bit := 0;
      while bit < f.size && count > 0
        invariant bit <= f.size && Unfiling(f, all, b, lists[..], bit, count)
        invariant forall k | 0 <= k < lists.Length ::
          lists[k] == if k < bit && k in b.bits then Erase(old(lists[k]), b) else old(lists[k])
        invariant AllContainersFirst(old(lists[..])) ==> AllContainersFirst(lists[..])
      {
        before := lists[..];
        UnfilingStep(f, all, b, before, bit, count);
        FirstUpdate(before, bit, Erase(before[bit], b));
        EraseKeepsOrder(before[bit], b);
        if bit in b.bits {
          lists[bit] := Erase(lists[bit], b);
          assert lists[..] == before[bit := Erase(before[bit], b)];
          count := count - 1;
        }
        bit := bit + 1;
      }
      UnfilingLeft(f, all, b, lists[..], bit, count);
      NotOnOthers(f, all, b, old(lists[..]), bit, count);
      UnfilingDone(f, all, b, lists[..], bit, count);
    }
  }

  lemma NotOnBits(f: Setup, all: set<Indexed>, b: Indexed, lists: seq<seq<Indexed>>)
    requires Filed(f, all, lists) && b.bits == {}
    ensures |lists| == f.size + 1 && forall k | 0 <= k < f.size :: Erase(lists[k], b) == lists[k]
  {
    forall k | 0 <= k < f.size ensures Erase(lists[k], b) == lists[k] {
      assert b !in On(all, k) && Lists(lists[k], On(all, k));
      EraseAbsent(lists[k], b);
    }
  }

  /** An entry is on no list but those of its bits, and count bits from i on are left. */
  lemma NotOnOthers(f: Setup, all: set<Indexed>, b: Indexed, lists: seq<seq<Indexed>>, i: nat, count: int)
    requires Filed(f, all, lists) && b.bits != {} && count == |Later(b, i)| && (i >= f.size || count == 0)
    ensures |lists| == f.size + 1
    ensures forall k | 0 <= k <= f.size && (k >= i || k !in b.bits) :: Erase(lists[k], b) == lists[k]
  {
    forall k | 0 <= k <= f.size && (k >= i || k !in b.bits) ensures Erase(lists[k], b) == lists[k] {
      if k < f.size {
        if k >= i { assert Later(b, i) == {} && (k in b.bits ==> k in Later(b, i)); }
        assert b !in On(all, k) && Lists(lists[k], On(all, k));
      } else {
        assert b !in OnDefault(all) && Lists(lists[k], OnDefault(all));
      }
      EraseAbsent(lists[k], b);
    }
  }

  lemma UnfilingLeft(f: Setup, all: set<Indexed>, b: Indexed, lists: seq<seq<Indexed>>, i: nat, count: int)
    requires Unfiling(f, all, b, lists, i, count)
    ensures 0 <= count == |Later(b, i)|
  {}

  lemma {:induction false} EraseOne(subs: seq<Indexed>, k: nat)
    requires k < |subs| && NoDup(subs)
    ensures Erase(subs, subs[k]) == subs[..k] + subs[k + 1..]
  {
    if k == 0 {
      EraseAbsent(subs[1..], subs[0]);
    } else {
      EraseOne(subs[1..], k - 1);
    }
  }

  /** The entries are still numbered by their positions, and their numbers fit an
    * array of their number, exactly if the newest entry goes. */
  lemma NumbersAfter(subs: seq<Indexed>, b: Indexed)
    requires Enumerated(subs) && b in subs
    ensures Numbered(Entries(Erase(subs, b)), |Erase(subs, b)|) <==> b == subs[|subs| - 1]
    ensures Enumerated(Erase(subs, b)) <==> b == subs[|subs| - 1]
    ensures b == subs[|subs| - 1] ==> Erase(subs, b) == subs[..|subs| - 1]
    ensures Entries(Erase(subs, b)) == Entries(subs) - {b} && b !in Erase(subs, b)
  {
    EnumeratedDistinct(subs);
    var k :| 0 <= k < |subs| && subs[k] == b;
    EraseOne(subs, k);
    EraseLists(subs, b, Entries(subs));
    hide Erase;
    var rest := Erase(subs, b);
    assert |rest| == |subs| - 1;
    if k < |rest| {
      StillListed(subs, k, |rest|);
    } else {
      forall x | x in Entries(rest) ensures x.id < |rest| {
        var i :| 0 <= i < |rest| && rest[i] == x;
        assert rest[i] == subs[i];
      }
    }
  }

  /** The newest entry keeps its number, which is now too large. */
  lemma StillListed(subs: seq<Indexed>, k: nat, n: nat)
    requires Enumerated(subs) && k < n == |subs| - 1
    ensures var rest := subs[..k] + subs[k + 1..];
      subs[n] in Entries(rest) && subs[n].id == n == |rest| && !Enumerated(rest) && subs[k] != subs[n]
  {
    var rest := subs[..k] + subs[k + 1..];
    assert rest[n - 1] == subs[n];
  }

  /** Without the newest entry the classes are still listed by their primaries
    * exactly if that entry was the primary of its own class: otherwise its
    * primary goes on listing it. */
  lemma LinkedShrinks(rest: seq<Indexed>, U: iset<seq<Entry>>, b: Indexed)
    requires Preorder(U) && AllFrom(rest + [b], U) && AllFrom(rest, U) && b !in rest && Linked(ViewOf(rest + [b], true))
    ensures Linked(ViewOf(rest, true)) <==> PrimaryOf(rest + [b], true, b) == b
  {
    hide *;
    LinkedMeans(rest + [b]);
    PrimaryFacts(rest + [b], U, b);
    var p := PrimaryOf(rest + [b], true, b);
    forall q | q in rest
      ensures PrimaryOf(rest + [b], true, q) == PrimaryOf(rest, true, q)
      ensures Members(ViewOf(rest + [b], true), q) == Members(ViewOf(rest, true), q) + if p == q then {b} else {}
    {
      PrimaryAppend(rest, U, true, b, q);
      MembersAppend(rest, U, true, b, q);
    }
    LinkedWithout(rest, b, p);
  }

  lemma LinkedWithout(rest: seq<Indexed>, b: Indexed, p: Indexed)
    requires b !in rest && p in rest + [b] && PrimaryOf(rest + [b], true, p) == p
    requires forall q | q in rest :: PrimaryOf(rest + [b], true, q) == PrimaryOf(rest, true, q)
    requires forall q | q in rest ::
      Members(ViewOf(rest + [b], true), q) == Members(ViewOf(rest, true), q) + if p == q then {b} else {}
    requires forall x | x in rest + [b] :: x.sub.filterAttr == x
    requires forall q | q in rest + [b] && Primary(ViewOf(rest + [b], true), q) ::
      Lists(q.duplicates, Members(ViewOf(rest + [b], true), q) - {q})
    ensures Linked(ViewOf(rest, true)) <==> p == b
  {
    hide PrimaryOf;
    var v, w := ViewOf(rest, true), ViewOf(rest + [b], true);
    assert forall q | q in rest :: q in rest + [b];
    if p == b {
      forall q | q in v.all && Primary(v, q) ensures Lists(q.duplicates, Members(v, q) - {q}) {
        assert Primary(w, q);
      }
    } else {
      assert Primary(w, p) && Primary(v, p);
      assert b in Members(w, p) - {p} && b in p.duplicates;
      assert b !in Members(v, p);
    }
  }

  class PreFilter {
    const f: Setup
    const variant: int
    const graph: Graph?
    ghost const U: iset<seq<Entry>>
    const lists: array<seq<Indexed>>
    var pubs: int
    var subs: seq<Indexed>

    ghost predicate Valid()
      reads this, lists, subs, set b | b in subs :: b.sub`filterAttr
    {
      && f.Ok() && lists.Length == f.size + 1
      && Enumerated(subs) && Hashed(f, variant, Entries(subs)) && Filed(f, Entries(subs), lists[..])
      && (WithContainment(variant) ==> graph != null && AllContainersFirst(lists[..]))
      && (if graph == null then Unlinked(Entries(subs))
          else Preorder(U) && AllFrom(subs, U) && Linked(ViewOf(subs, true)))
    }

    constructor (f: Setup, variant: int, graph: Graph?)
      requires 1 <= f.hashes <= f.size
      requires variant == ALL_CONTAINMENT_N || variant == ALL_CONTAINMENT_NP ==> graph != null
      requires graph != null ==> Preorder(graph.U)
      ensures Valid() && fresh(lists) && subs == [] && pubs == 0
      ensures this.f == f && this.variant == variant && this.graph == graph && (graph != null ==> U == graph.U)
    {
      this.f, this.variant, this.graph := f, variant, graph;
      U := if graph == null then iset{} else graph.U;
      lists := new seq<Indexed>[f.size + 1](_ => []);
      pubs, subs := 0, [];
    }

    lemma ValidParts()
      ensures Valid() <==>
        && f.Ok() && lists.Length == f.size + 1
        && Enumerated(subs) && Hashed(f, variant, Entries(subs)) && Filed(f, Entries(subs), lists[..])
        && (WithContainment(variant) ==> graph != null && AllContainersFirst(lists[..]))
        && (if graph == null then Unlinked(Entries(subs))
            else Preorder(U) && AllFrom(subs, U) && Linked(ViewOf(subs, true)))
      ensures Valid() ==> Filtered(f, Entries(subs))
    {
      if Valid() { HashedFiltered(f, variant, Entries(subs)); }
    }

    /** PreFilter::add. With a graph, the subscriptions are entered in the order the graph got them. */
    method Add(s: Subscription)
      requires Valid()
      requires graph != null ==> U == graph.U && InStep(graph, subs) && |subs| < |graph.live| && s == graph.live[|subs|]
      modifies this`subs, lists, s`filterAttr, Entries(subs)`duplicates
      ensures Valid() && SubsOf(subs) == SubsOf(old(subs)) + [s]
      ensures |subs| == |old(subs)| + 1 && subs[..|old(subs)|] == old(subs) && fresh(subs[|old(subs)|])
      ensures var b := subs[|old(subs)|];
        && b.sub == s && s.filterAttr == b && b.id == |old(subs)|
        && Filters(f, variant == ONE_NO_CONTAINMENT, s.data, b.bits)
      ensures PutOnto(f, subs[|old(subs)|], WithContainment(variant), old(lists[..]), lists[..], f.size + 1)
      ensures graph != null ==> InStep(graph, subs)
    {
      hide *;
      ValidParts();
      if graph != null { LinkedMeans(subs); } else { UnlinkedMeans(subs); }
      var bf := SubscriptionFilter(f, s.data, variant == ONE_NO_CONTAINMENT);
      var b := new Indexed(s, |subs|, bf.bits);
      EntryGrows(f, variant, subs, b);
      LinkEntry(graph, subs, b, U);
      FileEntry(f, lists, b, WithContainment(variant), Entries(subs), U);
      subs := subs + [b];
      if graph != null { LinkedIf(subs); } else { UnlinkedIf(subs); }
      ValidParts();
    }

    /** PreFilter::remove. The lists are those of the entries that are left, but
      * entries keep their numbers and their places among duplicates, and s keeps
      * its pointer: the index is as good as before exactly if the newest entry went
      * and, with a graph, led its class. Removing s again would use the deleted entry. */
    method Remove(s: Subscription) returns (found: bool)
      requires Valid() && (s.filterAttr != null ==> s.filterAttr is Indexed && s.filterAttr as Indexed in subs)
      modifies this`subs, lists
      ensures found <==> s.filterAttr != null
      ensures !found ==> Valid() && subs == old(subs) && lists[..] == old(lists[..])
      ensures found ==> s.filterAttr as Indexed in old(subs) && s.filterAttr as Indexed !in subs
      ensures found ==> subs == Erase(old(subs), s.filterAttr as Indexed) && Filed(f, Entries(subs), lists[..])
      ensures found ==>
        forall k | 0 <= k < lists.Length :: lists[k] == Erase(old(lists[k]), s.filterAttr as Indexed)
      ensures found ==> (Numbered(Entries(subs), |subs|) <==> s.filterAttr == old(subs)[|old(subs)| - 1])
      ensures found ==>
        var b := s.filterAttr as Indexed;
        Valid() <==> old(subs)[|old(subs)| - 1] == b == PrimaryOf(old(subs), graph != null, b)
    {
      hide *;
      ValidParts();
      if s.filterAttr == null { return false; }
      var bs := s.filterAttr as Indexed;
      NumbersAfter(subs, bs);
      EntriesMean(subs);
      ghost var before := subs;
      if graph == null { UnlinkedMeans(before); } else { LinkedMeans(before); }
      Unfile(f, lists, bs, Entries(subs));
      subs := Erase(subs, bs);
      if graph == null { UnlinkedIf(before); } else { LinkedIf(before); }
      if bs == before[|before| - 1] { AfterNewest(f, variant, before, bs, graph != null, U); }
      ValidParts();
      return true;
    }

    /** PreFilter::match. The entries tested are those of AllTried. Without a graph the report is the naive scan, each
      * subscription once. With one it never has more of a class than the scan has,
      * and exactly the classes that Whole describes are reported whole. */
    method Match(e: Event)
      returns (r: seq<Subscription>, matched: int, tested: int, ghost log: seq<Indexed>, ghost bits: set<nat>,
               ghost tried: seq<Indexed>)
      requires Valid() && Level(graph, subs, U)
      modifies this`pubs
      ensures Valid() && pubs == old(pubs) + 1 && |r| == matched && 0 <= tested <= |subs|
      ensures tested == |tried| && CoversEvent(f, e, bits)
      ensures AllTried(ViewOf(subs, graph != null), e, variant, bits, tried)
      ensures graph == null ==> forall b | b in subs && b.bits <= bits :: b in tried
      ensures r == SubsOf(log) && Exact(ViewOf(subs, graph != null), e, Positive(variant), log)
      ensures Itemized(ViewOf(subs, graph != null), e, Positive(variant), log)
      ensures graph == null ==> multiset(r) == multiset(Scan(SubsOf(subs), e))
      ensures graph != null ==> ClassesReported(graph.live, e, Positive(variant), r)
      ensures graph != null ==> matched <= |Scan(graph.live, e)|
      ensures graph != null ==> (matched == |Scan(graph.live, e)| <==> AllWhole(graph.live, e, Positive(variant)))
      ensures graph != null && (forall d :: d in U ==> NoPair(d)) ==> AllWhole(graph.live, e, Positive(variant))
    {
      hide *;
      ValidParts();
      EnumeratedDistinct(subs);
      LevelMeans(graph, subs, U);
      if graph != null { LinkedMeans(subs); } else { UnlinkedMeans(subs); }
      pubs := pubs + 1;
      r, matched, tested, log, bits, tried := ScanIndex(graph, variant, f, lists, subs, e, U);
      if graph != null { LinkedIf(subs); } else { UnlinkedIf(subs); }
      SubsOfAt(log);
      if graph == null {
        AloneMatch(f, subs, variant, e, log);
        AloneAll(subs, e, variant, bits, tried);
      } else {
        GroupedMatch(f, subs, U, Positive(variant), e, log);
        if forall d :: d in U ==> NoPair(d) {
          AllFromMeans(subs, U);
          PairFreeLed(graph.live, U);
          LedWhole(graph.live, e, Positive(variant));
        }
      }
      ValidParts();
    }
  }

  /** Of every class r has what Reports says, never more than the scan, and as much exactly if the class is Whole. */
  ghost predicate ClassesReported(l: seq<Subscription>, e: Event, np: bool, r: seq<Subscription>) {
    forall x | x in l ::
      && |Class(r, x)| == Reports(l, e, np, x) <= |Class(Scan(l, e), x)|
      && (|Class(r, x)| == |Class(Scan(l, e), x)| <==> Whole(l, e, np, x))
  }

  /** What is left of the index when the newest entry is gone. */
  lemma AfterNewest(f: Setup, variant: int, subs: seq<Indexed>, b: Indexed, grouped: bool, U: iset<seq<Entry>>)
    requires f.Ok() && subs != [] && b == subs[|subs| - 1] && b !in subs[..|subs| - 1]
    requires Hashed(f, variant, Entries(subs))
    requires if grouped then Preorder(U) && AllFrom(subs, U) && Linked(ViewOf(subs, true)) else Unlinked(Entries(subs))
    ensures var rest := subs[..|subs| - 1];
      Hashed(f, variant, Entries(rest)) &&
      if grouped then AllFrom(rest, U) && (Linked(ViewOf(rest, true)) <==> PrimaryOf(subs, true, b) == b)
      else Unlinked(Entries(rest)) && PrimaryOf(subs, false, b) == b
  {
    var rest := subs[..|subs| - 1];
    assert subs == rest + [b];
    hide Linked, PrimaryOf, Filters;
    assert Entries(rest) <= Entries(subs);
    if grouped {
      SubsStep(rest, b);
      assert forall s | s in SubsOf(rest) :: s in SubsOf(subs);
      LinkedShrinks(rest, U, b);
    } else {
      AlonePrimary(subs, b);
    }
  }

  lemma AlonePrimary(subs: seq<Indexed>, b: Indexed)
    ensures PrimaryOf(subs, false, b) == b
  {}

  lemma EntriesMean(subs: seq<Indexed>)
    ensures forall b | b in subs :: b in Entries(subs)
  {}

  /** The two scans: the lists of the bits of the event, then the default list. */
  method ScanIndex(g: Graph?, variant: int, f: Setup, lists: array<seq<Indexed>>, subs: seq<Indexed>, e: Event,
                   ghost U: iset<seq<Entry>>)
    returns (r: seq<Subscription>, match': int, test: int, ghost log: seq<Indexed>, ghost bits: set<nat>,
             ghost tried: seq<Indexed>)
    requires f.Ok() && lists.Length == f.size + 1 && NoDup(subs) && Numbered(Entries(subs), |subs|)
    requires Filtered(f, Entries(subs)) && Filed(f, Entries(subs), lists[..])
    requires WithContainment(variant) ==> g != null && AllContainersFirst(lists[..])
    requires g == null ==> forall x | x in subs :: x.duplicates == []
    requires g != null ==>
      U == g.U && InStep(g, subs) && SubsOf(subs) == g.live && SoundOn(U) && Preorder(U) && AllFrom(subs, U)
    requires g != null ==> forall x | x in subs :: x.sub.filterAttr == x
    requires g != null ==>
      forall q | q in subs && Primary(ViewOf(subs, true), q) ::
        Lists(q.duplicates, Members(ViewOf(subs, true), q) - {q})
    ensures r == SubsOf(log) && |log| == match' && Exact(ViewOf(subs, g != null), e, Positive(variant), log)
    ensures 0 <= test <= |subs| && test == |tried| && CoversEvent(f, e, bits)
    ensures AllTried(ViewOf(subs, g != null), e, variant, bits, tried)
    ensures Itemized(ViewOf(subs, g != null), e, Positive(variant), log)
  {
    hide *;
    var bf := EventFilter(f, e);
    var matched := new bool[|subs|](_ => false);
    ghost var N, S := NodesOf(g), LiveOf(g);
    ghost var ups := FindUps(N, S, subs);
    ghost var v := MatchView(subs, g != null, ups);
    if g != null { LinkedIf(subs); } else { UnlinkedIf(subs); }
    LevelMeans(g, subs, U);
    ReadyFor(g, subs, U, ups, e);
    ScansStart(g, variant, f, lists[..], subs, v, ups);
    NothingMissed(f, v, e, bf.bits);
    bits := bf.bits;
    r, match', test, log, tried := Scans(g, variant, f, lists, bf.bits, e, matched, v, N, S, U);
    ViewNarrow(subs, g != null, ups);
    ExactNarrow(ViewOf(subs, g != null), ups, e, Positive(variant), log);
    ItemizedNarrow(ViewOf(subs, g != null), ups, e, Positive(variant), log);
    TriedNarrow(ViewOf(subs, g != null), ups, e, variant, bits, tried);
    TriedSize(subs, g != null, e, variant, bits, tried);
  }

  lemma TriedSize(subs: seq<Indexed>, grouped: bool, e: Event, variant: int, bits: set<nat>, tried: seq<Indexed>)
    requires AllTried(ViewOf(subs, grouped), e, variant, bits, tried) && NoDup(subs)
    ensures |tried| <= |subs|
  {
    EntriesSize(subs);
    var all := set b | b in tried;
    ListsSize(tried, all);
    NotFewer(all, Entries(subs));
  }

  lemma AloneAll(subs: seq<Indexed>, e: Event, variant: int, bits: set<nat>, tried: seq<Indexed>)
    requires AllTried(ViewOf(subs, false), e, variant, bits, tried) && !WithContainment(variant)
    ensures forall b | b in subs && b.bits <= bits :: b in tried
  {
    hide AllTried;
    forall b | b in subs && b.bits <= bits ensures b in tried {
      AloneTried(ViewOf(subs, false), e, variant, bits, tried, b);
    }
  }

  lemma ViewNarrow(subs: seq<Indexed>, grouped: bool, ups: map<Indexed, set<Indexed>>)
    ensures MatchView(subs, grouped, ups) == ViewOf(subs, grouped).(ups := ups)
  {}

  lemma EntriesSize(subs: seq<Indexed>)
    requires NoDup(subs)
    ensures |Entries(subs)| == |subs|
  {
    ListsSize(subs, Entries(subs));
  }

  method Scans(g: Graph?, variant: int, f: Setup, lists: array<seq<Indexed>>, filter: set<nat>, e: Event,
               matched: array<bool>,
               ghost v: View, ghost N: set<Node>, ghost S: set<Subscription>, ghost U: iset<seq<Entry>>)
    returns (r: seq<Subscription>, match': int, test: int, ghost log: seq<Indexed>, ghost tried: seq<Indexed>)
    requires Ready(g, v, N, S, U, e) && VariantOk(variant, g) && NoFalseNegatives(v, e, filter)
    requires f.Ok() && Filtered(f, v.all) && lists.Length == f.size + 1 && Filed(f, v.all, lists[..])
    requires Numbered(v.all, matched.Length)
    requires Lists(lists[f.size], OnDefault(v.all))
    requires (variant == ALL_CONTAINMENT_NP ==> ContainersFirst(lists[f.size]) && Preorder(U))
    requires forall i | 0 <= i < matched.Length :: !matched[i]
    modifies matched
    ensures r == SubsOf(log) && |log| == match' && Exact(v, e, Positive(variant), log)
    ensures test == |tried| && AllTried(v, e, variant, filter, tried) && Itemized(v, e, Positive(variant), log)
  {
    hide *;
    ScanStart(v, e);
    NothingMarked(v.all, matched);
    BitStateStart(g, variant, v, N, S, U, e);
    r, match', test, log, tried := ScanBits(g, variant, f, lists, filter, e, matched, v, N, S, U);
    ghost var whole := Marked(v.all, matched);
    BitsSettled(f, v, e, filter, whole);
    BitsDone(v, e, whole, log, filter);
    BitStateMeans(v, e, variant, whole);
    ghost var bitLog := log;
    var m, t;
    ghost var d;
    r, m, t, log, d := ScanDefault(g, variant, lists[f.size], e, r, matched, log, whole, filter, v, N, S, U);
    TriedOnce(v, e, variant, filter, whole, Marked(v.all, matched), d);
    TriedJoin(v, e, variant, filter, {}, whole, Marked(v.all, matched), tried, d);
    match', test, tried := match' + m, test + t, tried + d;
    DefaultMarked(v.all, Marked(v.all, matched));
    DefaultDone(v, e, Marked(v.all, matched), log, whole);
    BitStateEnd(g, variant, v, N, S, U, e, whole);
    ExactlyReported(v, U, e, Positive(variant), whole, log);
    ItemsReported(g, variant, v, N, S, U, e, whole, bitLog, d);
    MarkedWithin(v.all, matched);
    TriedAll(v, e, variant, filter, whole, Marked(v.all, matched), tried);
  }

  lemma BitStateStart(g: Graph?, variant: int, v: View, N: set<Node>, S: set<Subscription>, U: iset<seq<Entry>>,
                      e: Event)
    requires Ready(g, v, N, S, U, e) && VariantOk(variant, g)
    ensures BitState(v, e, variant, {})
  {
    hide Accepts, StrictlyIncludes;
  }

  /** What the graph adds when the bit lists are done. */
  lemma BitStateEnd(g: Graph?, variant: int, v: View, N: set<Node>, S: set<Subscription>, U: iset<seq<Entry>>,
                    e: Event, M: set<Indexed>)
    requires Ready(g, v, N, S, U, e) && VariantOk(variant, g) && BitState(v, e, variant, M)
    requires BitsMarked(v, e, M)
    ensures Explained(v, e, Positive(variant), M)
    ensures Positive(variant) ==> Preorder(U) && SoundOn(U) && FromFamily(v, U) && UpsComplete(v) && Closed(v, e, M, {})
    ensures forall b | b in v.all && b.bits != {} && Accepts(b.sub.data, e) :: b in M
  {
    hide Accepts, Explained, Closed, UpsComplete, Preorder, SoundOn, Coherent, WiredAt;
    if Positive(variant) {
      forall b | b in v.all ensures b.sub.data in U { InStore(v, N, S, b); }
    }
  }

  lemma ItemsReported(g: Graph?, variant: int, v: View, N: set<Node>, S: set<Subscription>, U: iset<seq<Entry>>,
                      e: Event, whole: set<Indexed>, bitLog: seq<Indexed>, d: seq<Indexed>)
    requires Ready(g, v, N, S, U, e) && VariantOk(variant, g) && BitState(v, e, variant, whole)
    requires BitsMarked(v, e, whole) && Scanning(v, e, whole, bitLog)
    requires Exact(v, e, Positive(variant), bitLog + Kept(d, e)) && NoDup(d)
    requires forall b | b in d :: b in v.all && b.bits == {}
    ensures Itemized(v, e, Positive(variant), bitLog + Kept(d, e))
  {
    hide *;
    BitStateEnd(g, variant, v, N, S, U, e, whole);
    ReadyCoherent(g, v, N, S, U, e);
    forall p | p in v.all && Primary(v, p) && Accepts(p.sub.data, e)
      ensures p in whole <==> p.bits != {} || (Positive(variant) && Lifted(v, e, p))
    {
      SettledExactly(v, U, e, Positive(variant), whole, p);
    }
    Distinct(d);
    ReportedItems(v, e, Positive(variant), whole, bitLog, d);
  }

  lemma ReadyCoherent(g: Graph?, v: View, N: set<Node>, S: set<Subscription>, U: iset<seq<Entry>>, e: Event)
    requires Ready(g, v, N, S, U, e)
    ensures Coherent(v, e)
  {}

  lemma Distinct(d: seq<Indexed>)
    requires NoDup(d)
    ensures forall i, j | 0 <= i < j < |d| :: d[i] != d[j]
  {}

  lemma MarkedWithin(all: set<Indexed>, matched: array<bool>)
    ensures Marked(all, matched) <= all
  {}

  lemma NothingMarked(all: set<Indexed>, matched: array<bool>)
    requires forall i | 0 <= i < matched.Length :: !matched[i]
    ensures Marked(all, matched) == {}
  {}

  lemma DefaultMarked(all: set<Indexed>, M: set<Indexed>)
    requires OnDefault(all) <= M
    ensures forall b | b in all && b.bits == {} :: b in M
  {
    forall b | b in all && b.bits == {} ensures b in M { assert b in OnDefault(all); }
  }

  lemma ScansStart(g: Graph?, variant: int, f: Setup, lists: seq<seq<Indexed>>, subs: seq<Indexed>, v: View,
                   ups: map<Indexed, set<Indexed>>)
    requires v == MatchView(subs, g != null, ups) && Filed(f, Entries(subs), lists)
    requires WithContainment(variant) ==> g != null && AllContainersFirst(lists)
    ensures v.all == Entries(subs) && VariantOk(variant, g) && |lists| == f.size + 1
    ensures Lists(lists[f.size], OnDefault(v.all))
    ensures variant == ALL_CONTAINMENT_NP ==> g != null && ContainersFirst(lists[f.size])
  {}

  lemma AloneMatch(f: Setup, subs: seq<Indexed>, variant: int, e: Event, log: seq<Indexed>)
    requires Unlinked(Entries(subs)) && NoDup(subs) && !WithContainment(variant)
    requires Exact(ViewOf(subs, false), e, Positive(variant), log)
    ensures multiset(SubsOf(log)) == multiset(Scan(SubsOf(subs), e))
  {
    PlainView(subs, false);
    AloneView(subs, map[], e);
    hide Exact, Ungrouped, Coherent, Unlinked;
    AloneExact(subs, e, log);
  }

  lemma GroupedMatch(f: Setup, subs: seq<Indexed>, U: iset<seq<Entry>>, np: bool, e: Event, log: seq<Indexed>)
    requires Preorder(U) && SoundOn(U) && AllFrom(subs, U) && NoDup(subs) && f.Ok() && Filtered(f, Entries(subs))
    requires Exact(ViewOf(subs, true), e, np, log)
    ensures |SubsOf(log)| <= |Scan(SubsOf(subs), e)|
    ensures |SubsOf(log)| == |Scan(SubsOf(subs), e)| <==> AllWhole(SubsOf(subs), e, np)
    ensures ClassesReported(SubsOf(subs), e, np, SubsOf(log))
  {
    hide Exact, Coherent, Reports, Whole, AllWhole, AllFrom, Filtered, SubsOf, Scan, Class;
    GroupedView(subs, U, map[], e);
    PlainView(subs, true);
    GroupedExact(f, subs, U, np, e, log);
    forall x | x in SubsOf(subs)
      ensures |Class(SubsOf(log), x)| == Reports(SubsOf(subs), e, np, x) <= |Class(Scan(SubsOf(subs), e), x)|
      ensures |Class(SubsOf(log), x)| == |Class(Scan(SubsOf(subs), e), x)| <==> Whole(SubsOf(subs), e, np, x)
    {
      GroupedClass(f, subs, U, np, e, log, x);
    }
  }

  lemma AllFromMeans(subs: seq<Indexed>, U: iset<seq<Entry>>)
    requires AllFrom(subs, U)
    ensures From(SubsOf(subs), U)
  {}

  lemma PlainView(subs: seq<Indexed>, grouped: bool)
    ensures MatchView(subs, grouped, map[]) == ViewOf(subs, grouped)
  {}

  lemma UnlinkedIf(subs: seq<Indexed>)
    requires forall x | x in subs :: x.duplicates == []
    ensures Unlinked(Entries(subs))
  {}

  lemma UnlinkedMeans(subs: seq<Indexed>)
    requires Unlinked(Entries(subs))
    ensures forall x | x in subs :: x.duplicates == []
  {
    forall x | x in subs ensures x.duplicates == [] { assert x in Entries(subs); }
  }

  /** The new entry has the next number and a proper filter. */
  lemma EntryGrows(f: Setup, variant: int, subs: seq<Indexed>, b: Indexed)
    requires f.Ok() && Enumerated(subs) && Hashed(f, variant, Entries(subs))
    requires b.id == |subs| && Filters(f, variant == ONE_NO_CONTAINMENT, b.sub.data, b.bits) && b.duplicates == []
    ensures b !in subs && b !in Entries(subs) && NoDup(subs) && Entries(subs + [b]) == Entries(subs) + {b}
    ensures Enumerated(subs + [b]) && Hashed(f, variant, Entries(subs + [b]))
    ensures forall x | x in Entries(subs) :: x in subs + [b]
    ensures b in subs + [b] && SubsOf(subs + [b]) == SubsOf(subs) + [b.sub]
  {
    EnumeratedDistinct(subs);
    SubsStep(subs, b);
    hide Filters;
  }

  lemma HashedFiltered(f: Setup, variant: int, all: set<Indexed>)
    requires f.Ok() && Hashed(f, variant, all)
    ensures Filtered(f, all)
  {
    forall b | b in all ensures Indexes(f, b.sub.data, b.bits) && forall k | k in b.bits :: k < f.size {
      FiltersIndex(f, variant == ONE_NO_CONTAINMENT, b.sub.data, b.bits);
      EqBitsBounded(f, b.sub.data);
    }
  }

  lemma {:induction false} EqBitsBounded(f: Setup, d: seq<Entry>)
    requires f.Ok()
    ensures forall k | k in EqBits(f, d) :: k < f.size
  {
    if d != [] { EqBitsBounded(f, d[..|d| - 1]); }
  }
}
