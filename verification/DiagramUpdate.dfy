/** How the covering diagram changes when a node joins or leaves, and what a
  * stamped traversal of it collects. */
module DiagramUpdate {
  import opened Subscriptions
  import opened Diagram

  lemma BelowShrinks(N: set<Node>, U: iset<seq<Entry>>, p: Node, c: Node)
    requires Fits(N, U) && p in N && c in N && Above(p, c)
    ensures Below(N, c) < Below(N, p) && Over(N, p) < Over(N, c)
  {
    forall x | x in Below(N, c) ensures x in Below(N, p) { AboveTransitive(N, U, p, c, x); }
    forall x | x in Over(N, p) ensures x in Over(N, c) { AboveTransitive(N, U, x, p, c); }
    assert c in Below(N, p) && c !in Below(N, c);
    assert p in Over(N, c) && p !in Over(N, p);
  }

  // ---------------------------------------------------------------------------
  // A node joins
  // ---------------------------------------------------------------------------

  /** Old covering edges survive unless the new node comes between their ends. */
  lemma CoversAdded(N: set<Node>, n: Node, p: Node, c: Node)
    requires p in N && c in N
    ensures Covers(N + {n}, p, c) <==> Covers(N, p, c) && !(Above(p, n) && Above(n, c))
  {
    assert forall m :: m in N + {n} <==> m in N || m == n;
  }

  /** An edge that is split has one end directly above the new node, the other directly below. */
  lemma SplitEdge(N: set<Node>, U: iset<seq<Entry>>, n: Node, p: Node, c: Node)
    requires Fits(N + {n}, U) && Covers(N, p, c) && Above(p, n) && Above(n, c)
    ensures p in Upper(N + {n}, n) && c in Lower(N + {n}, n)
  {
    var M := N + {n};
    forall m | m in M ensures !(Above(p, m) && Above(m, n)) && !(Above(n, m) && Above(m, c)) {
      if Above(m, n) { AboveTransitive(M, U, m, n, c); }
      if Above(n, m) { AboveTransitive(M, U, p, n, m); }
    }
  }

  lemma LowerAdded(N: set<Node>, U: iset<seq<Entry>>, n: Node, p: Node)
    requires Fits(N + {n}, U) && n !in N && p in N
    ensures var M := N + {n};
      Lower(M, p) == if p in Upper(M, n) then Lower(N, p) - Lower(M, n) + {n} else Lower(N, p)
  {
    var M := N + {n};
    forall c | c in N ensures c in Lower(M, p) <==> c in Lower(N, p) && !(p in Upper(M, n) && c in Lower(M, n)) {
      CoversAdded(N, n, p, c);
      if Covers(N, p, c) && Above(p, n) && Above(n, c) { SplitEdge(N, U, n, p, c); }
    }
  }

  lemma UpperAdded(N: set<Node>, U: iset<seq<Entry>>, n: Node, c: Node)
    requires Fits(N + {n}, U) && n !in N && c in N
    ensures var M := N + {n};
      Upper(M, c) == if c in Lower(M, n) then Upper(N, c) - Upper(M, n) + {n} else Upper(N, c)
  {
    var M := N + {n};
    forall p | p in N ensures p in Upper(M, c) <==> p in Upper(N, c) && !(c in Lower(M, n) && p in Upper(M, n)) {
      CoversAdded(N, n, p, c);
      if Covers(N, p, c) && Above(p, n) && Above(n, c) { SplitEdge(N, U, n, p, c); }
    }
  }

  lemma RootsAdded(N: set<Node>, U: iset<seq<Entry>>, n: Node)
    requires Fits(N + {n}, U) && n !in N
    ensures Roots(N + {n}) == Roots(N) - Lower(N + {n}, n) + (if Upper(N + {n}, n) == {} then {n} else {})
  {
    RootIffNoUpper(N + {n}, U, n);
    forall x | x in N ensures x in Roots(N + {n}) <==> x in Roots(N) && x !in Lower(N + {n}, n) { RootAdded(N, n, x); }
    hide Upper, Lower, Covers, Fits;
  }

  lemma RootAdded(N: set<Node>, n: Node, x: Node)
    requires n !in N && x in N
    ensures x in Roots(N + {n}) <==> x in Roots(N) && x !in Lower(N + {n}, n)
  {
    var M := N + {n};
    assert Over(M, x) == Over(N, x) + (if Above(n, x) then {n} else {});
    if x in Roots(N) && Above(n, x) {
      forall m | m in M ensures !(Above(n, m) && Above(m, x)) { assert m !in Over(N, x); }
    }
  }

  lemma LeavesAdded(N: set<Node>, U: iset<seq<Entry>>, n: Node)
    requires Fits(N + {n}, U) && n !in N
    ensures Leaves(N + {n}) == Leaves(N) - Upper(N + {n}, n) + (if Lower(N + {n}, n) == {} then {n} else {})
  {
    RootIffNoUpper(N + {n}, U, n);
    forall x | x in N
      ensures x in Leaves(N + {n}) <==> x in Leaves(N) && x !in Upper(N + {n}, n)
    {
      LeafAdded(N, n, x);
    }
    hide Upper, Lower, Covers, Fits;
  }

  lemma LeafAdded(N: set<Node>, n: Node, x: Node)
    requires n !in N && x in N
    ensures x in Leaves(N + {n}) <==> x in Leaves(N) && x !in Upper(N + {n}, n)
  {
    var M := N + {n};
    assert Below(M, x) == Below(N, x) + (if Above(x, n) then {n} else {});
    if x in Leaves(N) && Above(x, n) {
      forall m | m in M ensures !(Above(x, m) && Above(m, n)) { assert m !in Below(N, x); }
    }
  }

  // ---------------------------------------------------------------------------
  // A node leaves
  // ---------------------------------------------------------------------------

  /** The covering edges without n: those there were, and those that n alone had split. */
  lemma CoversRemoved(N: set<Node>, n: Node, p: Node, c: Node)
    requires p in N - {n} && c in N - {n}
    ensures Covers(N, p, c) ==> Covers(N - {n}, p, c)
    ensures Covers(N - {n}, p, c) ==> Covers(N, p, c) || (Above(p, n) && Above(n, c))
  {
    assert forall m :: m in N ==> m in N - {n} || m == n;
  }

  lemma SplitByRemoved(N: set<Node>, U: iset<seq<Entry>>, n: Node, p: Node, c: Node)
    requires Fits(N, U) && n in N && Covers(N - {n}, p, c) && Above(p, n) && Above(n, c)
    ensures p in Upper(N, n) && c in Lower(N, n)
  {
    var M := N - {n};
    assert N == M + {n};
    SplitEdge(M, U, n, p, c);
  }

  lemma LowerRemoved(N: set<Node>, U: iset<seq<Entry>>, n: Node, p: Node)
    requires Fits(N, U) && n in N && p in N - {n}
    ensures var M := N - {n};
      Lower(M, p) == Lower(N, p) - {n} +
        (if p in Upper(N, n) then (set c | c in Lower(N, n) && Covers(M, p, c)) else {})
  {
    var M := N - {n};
    var extra := if p in Upper(N, n) then (set c | c in Lower(N, n) && Covers(M, p, c)) else {};
    forall c | c in M ensures c in Lower(M, p) <==> c in Lower(N, p) || c in extra {
      CoversRemoved(N, n, p, c);
      if Covers(M, p, c) && Above(p, n) && Above(n, c) { SplitByRemoved(N, U, n, p, c); }
    }
  }

  lemma UpperRemoved(N: set<Node>, U: iset<seq<Entry>>, n: Node, c: Node)
    requires Fits(N, U) && n in N && c in N - {n}
    ensures var M := N - {n};
      Upper(M, c) == Upper(N, c) - {n} +
        (if c in Lower(N, n) then (set p | p in Upper(N, n) && Covers(M, p, c)) else {})
  {
    var M := N - {n};
    var extra := if c in Lower(N, n) then (set p | p in Upper(N, n) && Covers(M, p, c)) else {};
    forall p | p in M ensures p in Upper(M, c) <==> p in Upper(N, c) || p in extra {
      CoversRemoved(N, n, p, c);
      if Covers(M, p, c) && Above(p, n) && Above(n, c) { SplitByRemoved(N, U, n, p, c); }
    }
  }

  ghost function NewRootSet(N: set<Node>, n: Node): set<Node> { set c | c in Lower(N, n) && Upper(N - {n}, c) == {} }
  ghost function NewLeafSet(N: set<Node>, n: Node): set<Node> { set p | p in Upper(N, n) && Lower(N - {n}, p) == {} }

  lemma RootsRemoved(N: set<Node>, U: iset<seq<Entry>>, n: Node)
    requires Fits(N, U) && n in N
    ensures Roots(N - {n}) == Roots(N) - {n} + NewRootSet(N, n)
  {
    forall x | x in N - {n}
      ensures x in Roots(N - {n}) <==> x in Roots(N) || (x in Lower(N, n) && Upper(N - {n}, x) == {})
    {
      RootRemoved(N, U, n, x);
    }
  }

  lemma RootRemoved(N: set<Node>, U: iset<seq<Entry>>, n: Node, x: Node)
    requires Fits(N, U) && n in N && x in N - {n}
    ensures x in Roots(N - {n}) <==> x in Roots(N) || (x in Lower(N, n) && Upper(N - {n}, x) == {})
  {
    var M := N - {n};
    RootIffNoUpper(M, U, x);
    assert Over(N, x) == Over(M, x) + (if Above(n, x) then {n} else {});
    if x in Roots(M) && Above(n, x) {
      forall m | m in N ensures !(Above(n, m) && Above(m, x)) { if m in M { assert m !in Over(M, x); } }
    }
  }

  lemma LeavesRemoved(N: set<Node>, U: iset<seq<Entry>>, n: Node)
    requires Fits(N, U) && n in N
    ensures Leaves(N - {n}) == Leaves(N) - {n} + NewLeafSet(N, n)
  {
    forall x | x in N - {n}
      ensures x in Leaves(N - {n}) <==> x in Leaves(N) || (x in Upper(N, n) && Lower(N - {n}, x) == {})
    {
      LeafRemoved(N, U, n, x);
    }
  }

  lemma LeafRemoved(N: set<Node>, U: iset<seq<Entry>>, n: Node, x: Node)
    requires Fits(N, U) && n in N && x in N - {n}
    ensures x in Leaves(N - {n}) <==> x in Leaves(N) || (x in Upper(N, n) && Lower(N - {n}, x) == {})
  {
    var M := N - {n};
    RootIffNoUpper(M, U, x);
    assert Below(N, x) == Below(M, x) + (if Above(x, n) then {n} else {});
    if x in Leaves(M) && Above(x, n) {
      forall m | m in N ensures !(Above(x, m) && Above(m, n)) { if m in M { assert m !in Below(M, x); } }
    }
  }

  // ---------------------------------------------------------------------------
  // Stamped traversals
  // ---------------------------------------------------------------------------

  /** The nodes of W that a traversal along next ends at: none of their neighbours is in ok. */
  ghost function Ends(next: map<Node, set<Node>>, ok: set<Node>, W: set<Node>): set<Node>
    requires W <= next.Keys
  {
    set x | x in W && next[x] * ok == {}
  }

  /** A traversal step: from the stamped nodes V0 to V1 it enters only nodes of
    * ok, leaves none of their neighbours in ok unstamped, and appends to the
    * list c the nodes it ended at, each once. */
  ghost predicate Sweep(next: map<Node, set<Node>>, ok: set<Node>, V0: set<Node>, V1: set<Node>, c0: seq<Node>,
                        c1: seq<Node>)
  {
    && V0 <= V1 <= next.Keys
    && c0 <= c1
    && V1 - V0 <= ok
    && (forall x | x in V1 - V0 :: next[x] * ok <= V1)
    && Lists(c1[|c0|..], Ends(next, ok, V1 - V0))
  }

  lemma SweepNothing(next: map<Node, set<Node>>, ok: set<Node>, V: set<Node>, c: seq<Node>)
    requires V <= next.Keys
    ensures Sweep(next, ok, V, V, c, c)
  {}

  lemma ListsJoin(a: seq<Node>, b: seq<Node>, A: set<Node>, B: set<Node>)
    requires Lists(a, A) && Lists(b, B) && A !! B
    ensures Lists(a + b, A + B)
  {
    var s := a + b;
    forall i, j | 0 <= i < j < |s| ensures s[i] != s[j] {
      if i < |a| <= j { assert a[i] in A && b[j - |a|] in B; }
    }
  }

  lemma SweepCompose(next: map<Node, set<Node>>, ok: set<Node>, V0: set<Node>, V1: set<Node>, V2: set<Node>,
                     c0: seq<Node>, c1: seq<Node>, c2: seq<Node>)
    requires Sweep(next, ok, V0, V1, c0, c1) && Sweep(next, ok, V1, V2, c1, c2)
    ensures Sweep(next, ok, V0, V2, c0, c2)
  {
    assert c2[|c0|..] == c1[|c0|..] + c2[|c1|..];
    ListsJoin(c1[|c0|..], c2[|c1|..], Ends(next, ok, V1 - V0), Ends(next, ok, V2 - V1));
    assert Ends(next, ok, V2 - V0) == Ends(next, ok, V1 - V0) + Ends(next, ok, V2 - V1);
  }

  /** Entering x, sweeping all its neighbours in ok, and listing x if there were none. */
  lemma SweepNode(next: map<Node, set<Node>>, ok: set<Node>, x: Node, V0: set<Node>, V1: set<Node>, c0: seq<Node>,
                  c1: seq<Node>)
    requires x in ok && x !in V0 && Sweep(next, ok, V0 + {x}, V1, c0, c1)
    requires next[x] * ok <= V1
    ensures Sweep(next, ok, V0, V1, c0, if next[x] * ok == {} then c1 + [x] else c1)
  {
    var W := V1 - (V0 + {x});
    assert V1 - V0 == W + {x};
    if next[x] * ok == {} {
      assert (c1 + [x])[|c0|..] == c1[|c0|..] + [x];
      AppendLists(c1[|c0|..], x, Ends(next, ok, W));
      assert Ends(next, ok, V1 - V0) == Ends(next, ok, W) + {x};
    } else {
      assert Ends(next, ok, V1 - V0) == Ends(next, ok, W);
    }
  }

  ghost function LowerMap(N: set<Node>): map<Node, set<Node>> { map x | x in N :: Lower(N, x) }
  ghost function UpperMap(N: set<Node>): map<Node, set<Node>> { map x | x in N :: Upper(N, x) }
  ghost function Containing(N: set<Node>, s: Subscription): set<Node> { set x | x in N && Includes(x.sub.data, s.data) }
  ghost function ContainedIn(N: set<Node>, s: Subscription): set<Node>
  {
    set x | x in N && Includes(s.data, x.sub.data)
  }

  /** What is stamped from the roots downwards is everything that contains n. */
  lemma {:induction false} DownwardComplete(N: set<Node>, U: iset<seq<Entry>>, n: Node, V: set<Node>, x: Node)
    requires Fits(N + {n}, U) && Fits(N, U) && x in Containing(N, n.sub)
    requires Roots(N) * Containing(N, n.sub) <= V
    requires forall y | y in V * N :: Lower(N, y) * Containing(N, n.sub) <= V
    ensures x in V
    decreases Over(N, x)
  {
    if x !in Roots(N) {
      var y :| y in Over(N, x);
      var p := StepUp(N, U, y, x);
      BelowShrinks(N, U, p, x);
      GeqTransitive(N + {n}, U, p, x, n);
      DownwardComplete(N, U, n, V, p);
      assert x in Lower(N, p);
    }
  }

  lemma {:induction false} UpwardComplete(N: set<Node>, U: iset<seq<Entry>>, n: Node, V: set<Node>, x: Node)
    requires Fits(N + {n}, U) && Fits(N, U) && x in ContainedIn(N, n.sub)
    requires Leaves(N) * ContainedIn(N, n.sub) <= V
    requires forall y | y in V * N :: Upper(N, y) * ContainedIn(N, n.sub) <= V
    ensures x in V
    decreases Below(N, x)
  {
    if x !in Leaves(N) {
      var y :| y in Below(N, x);
      var c := StepDown(N, U, x, y);
      BelowShrinks(N, U, x, c);
      GeqTransitive(N + {n}, U, n, x, c);
      UpwardComplete(N, U, n, V, c);
      assert x in Upper(N, c);
    }
  }

  /** The nodes a complete downward traversal ends at are the ones directly above n. */
  lemma EndsAreUpper(N: set<Node>, U: iset<seq<Entry>>, n: Node)
    requires Fits(N + {n}, U) && Fits(N, U) && n !in N
    ensures Ends(LowerMap(N), Containing(N, n.sub), Containing(N, n.sub)) == Upper(N + {n}, n)
  {
    var M, ok := N + {n}, Containing(N, n.sub);
    forall x | x in N ensures x in Ends(LowerMap(N), ok, ok) <==> Covers(M, x, n) {
      AboveIffDistinct(M, U, x, n);
      if x in ok && Lower(N, x) * ok == {} {
        forall m | m in M ensures !(Above(x, m) && Above(m, n)) {
          if Above(x, m) && Above(m, n) {
            var y := StepDown(N, U, x, m);
            GeqTransitive(M, U, y, m, n);
          }
        }
      }
      if y :| y in Lower(N, x) * ok { AboveIffDistinct(M, U, y, n); assert Above(x, y) && Above(y, n); }
    }
  }

  lemma EndsAreLower(N: set<Node>, U: iset<seq<Entry>>, n: Node)
    requires Fits(N + {n}, U) && Fits(N, U) && n !in N
    ensures Ends(UpperMap(N), ContainedIn(N, n.sub), ContainedIn(N, n.sub)) == Lower(N + {n}, n)
  {
    var M, ok := N + {n}, ContainedIn(N, n.sub);
    forall x | x in N ensures x in Ends(UpperMap(N), ok, ok) <==> Covers(M, n, x) {
      AboveIffDistinct(M, U, n, x);
      if x in ok && Upper(N, x) * ok == {} {
        forall m | m in M ensures !(Above(n, m) && Above(m, x)) {
          if Above(n, m) && Above(m, x) {
            var y := StepUp(N, U, m, x);
            GeqTransitive(M, U, n, m, y);
          }
        }
      }
      if y :| y in Upper(N, x) * ok { AboveIffDistinct(M, U, n, y); assert Above(n, y) && Above(y, x); }
    }
  }
}
