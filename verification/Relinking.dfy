/** The loops that edit the edge lists when a node joins or leaves the graph. */
module Relinking {
  import opened Subscriptions
  import opened Diagram
  import opened DiagramUpdate
  import opened Traversal

  /** Erase every element of gone from a list. */
  method EraseEach(list: seq<Node>, gone: seq<Node>, ghost S: set<Node>) returns (r: seq<Node>)
    requires Lists(list, S)
    ensures Lists(r, S - Elems(gone))
  {
    r := list;
    var j := 0;
    while j < |gone|
      invariant j <= |gone|
      invariant Lists(r, S - Elems(gone[..j]))
    {
      EraseLists(r, gone[j], S - Elems(gone[..j]));
      r := Erase(r, gone[j]);
      assert gone[..j + 1] == gone[..j] + [gone[j]];
      assert S - Elems(gone[..j + 1]) == S - Elems(gone[..j]) - {gone[j]};
      j := j + 1;
    }
    assert gone[..j] == gone;
  }

  ghost function Elems<T>(s: seq<T>): set<T> { set x | x in s }

  /** The lists after the first few nodes of at have had n put in place of C. */
  ghost function Spliced(E: map<Node, set<Node>>, at: seq<Node>, C: set<Node>, n: Node): map<Node, set<Node>> {
    map x | x in E :: if x in at then E[x] - C + {n} else E[x]
  }

  lemma SplicedStep(E: map<Node, set<Node>>, at: seq<Node>, i: nat, C: set<Node>, n: Node)
    requires i < |at| && at[i] in E && at[i] !in at[..i]
    ensures Spliced(E, at[..i + 1], C, n) == Spliced(E, at[..i], C, n)[at[i] := E[at[i]] - C + {n}]
  {
    assert at[..i + 1] == at[..i] + [at[i]];
  }

  lemma ElemsStep(L: set<Node>, at: seq<Node>, i: nat)
    requires i < |at|
    ensures L - Elems(at[..i + 1]) == L - Elems(at[..i]) - {at[i]}
  {
    assert at[..i + 1] == at[..i] + [at[i]];
  }

  /** First unlink loop of Graph::add: every container of the new node n gets n as
    * containee in place of n's containees, and stops being a leaf. */
  method LinkBelow(n: Node, leaves: seq<Node>, ghost N: set<Node>, ghost E: map<Node, set<Node>>, ghost L: set<Node>)
    returns (r: seq<Node>)
    requires n !in N && E.Keys == N && DownLists(N, E) && Lists(leaves, L)
    requires NoDup(n.containers) && (forall p | p in n.containers :: p in N)
    requires forall x | x in N :: n !in E[x] && (x in L ==> E[x] == {})
    modifies N`containees
    ensures DownLists(N, Spliced(E, n.containers, Elems(n.containees), n))
    ensures Lists(r, L - Elems(n.containers))
  {
    var at, gone, i := n.containers, n.containees, 0;
    r := leaves;
    while i < |at|
      invariant i <= |at|
      invariant DownLists(N, Spliced(E, at[..i], Elems(gone), n))
      invariant Lists(r, L - Elems(at[..i]))
    {
      ghost var before := Spliced(E, at[..i], Elems(gone), n);
      assert before[at[i]] == E[at[i]];
      r := LinkBelowOne(at[i], n, gone, r, E[at[i]], L - Elems(at[..i]));
      SplicedStep(E, at, i, Elems(gone), n);
      ElemsStep(L, at, i);
      i := i + 1;
    }
    assert at[..i] == at;
  }

  method LinkBelowOne(p: Node, n: Node, gone: seq<Node>, leaves: seq<Node>, ghost S: set<Node>, ghost L: set<Node>)
    returns (r: seq<Node>)
    requires Lists(p.containees, S) && Lists(leaves, L) && n !in S && (p in L ==> S == {})
    modifies p`containees
    ensures Lists(p.containees, S - Elems(gone) + {n}) && Lists(r, L - {p})
  {
    r := leaves;
    ListsEmpty(p.containees, S);
    if p.containees == [] {
      EraseLists(r, p, L);
      r := Erase(r, p);
    } else {
      p.containees := EraseEach(p.containees, gone, S);
    }
    AppendLists(p.containees, n, S - Elems(gone));
    p.containees := p.containees + [n];
  }

  /** Second unlink loop of Graph::add: every containee of n gets n as container in
    * place of n's containers, and stops being a root. */
  method LinkAbove(n: Node, roots: seq<Node>, ghost N: set<Node>, ghost E: map<Node, set<Node>>, ghost L: set<Node>)
    returns (r: seq<Node>)
    requires n !in N && E.Keys == N && UpLists(N, E) && Lists(roots, L)
    requires NoDup(n.containees) && (forall p | p in n.containees :: p in N)
    requires forall x | x in N :: n !in E[x] && (x in L ==> E[x] == {})
    modifies N`containers
    ensures UpLists(N, Spliced(E, n.containees, Elems(n.containers), n))
    ensures Lists(r, L - Elems(n.containees))
  {
    var at, gone, i := n.containees, n.containers, 0;
    r := roots;
    while i < |at|
      invariant i <= |at|
      invariant UpLists(N, Spliced(E, at[..i], Elems(gone), n))
      invariant Lists(r, L - Elems(at[..i]))
    {
      ghost var before := Spliced(E, at[..i], Elems(gone), n);
      assert before[at[i]] == E[at[i]];
      r := LinkAboveOne(at[i], n, gone, r, E[at[i]], L - Elems(at[..i]));
      SplicedStep(E, at, i, Elems(gone), n);
      ElemsStep(L, at, i);
      i := i + 1;
    }
    assert at[..i] == at;
  }

  method LinkAboveOne(p: Node, n: Node, gone: seq<Node>, roots: seq<Node>, ghost S: set<Node>, ghost L: set<Node>)
    returns (r: seq<Node>)
    requires Lists(p.containers, S) && Lists(roots, L) && n !in S && (p in L ==> S == {})
    modifies p`containers
    ensures Lists(p.containers, S - Elems(gone) + {n}) && Lists(r, L - {p})
  {
    r := roots;
    ListsEmpty(p.containers, S);
    if p.containers == [] {
      EraseLists(r, p, L);
      r := Erase(r, p);
    } else {
      p.containers := EraseEach(p.containers, gone, S);
    }
    AppendLists(p.containers, n, S - Elems(gone));
    p.containers := p.containers + [n];
  }

  ghost function Thinned(E: map<Node, set<Node>>, at: seq<Node>, n: Node): map<Node, set<Node>> {
    map x | x in E :: if x in at then E[x] - {n} else E[x]
  }

  lemma ThinnedStep(E: map<Node, set<Node>>, at: seq<Node>, i: nat, n: Node)
    requires i < |at| && at[i] in E && at[i] !in at[..i]
    ensures Thinned(E, at[..i + 1], n) == Thinned(E, at[..i], n)[at[i] := E[at[i]] - {n}]
  {
    assert at[..i + 1] == at[..i] + [at[i]];
  }

  /** Erase the departing node n from the containees of each of its containers. */
  method UnlinkBelow(n: Node, ghost M: set<Node>, ghost E: map<Node, set<Node>>)
    requires n !in M && M == E.Keys && DownLists(M, E)
    requires NoDup(n.containers) && (forall p | p in n.containers :: p in M)
    modifies M`containees
    ensures DownLists(M, Thinned(E, n.containers, n))
  {
    var at, i := n.containers, 0;
    while i < |at|
      invariant i <= |at|
      invariant DownLists(M, Thinned(E, at[..i], n))
    {
      var p := at[i];
      assert Thinned(E, at[..i], n)[p] == E[p];
      EraseLists(p.containees, n, E[p]);
      p.containees := Erase(p.containees, n);
      ThinnedStep(E, at, i, n);
      i := i + 1;
    }
    assert at[..i] == at;
  }

  /** Erase the departing node n from the containers of each of its containees. */
  method UnlinkAbove(n: Node, ghost M: set<Node>, ghost E: map<Node, set<Node>>)
    requires n !in M && M == E.Keys && UpLists(M, E)
    requires NoDup(n.containees) && (forall p | p in n.containees :: p in M)
    modifies M`containers
    ensures UpLists(M, Thinned(E, n.containees, n))
  {
    var at, i := n.containees, 0;
    while i < |at|
      invariant i <= |at|
      invariant UpLists(M, Thinned(E, at[..i], n))
    {
      var p := at[i];
      assert Thinned(E, at[..i], n)[p] == E[p];
      EraseLists(p.containers, n, E[p]);
      p.containers := Erase(p.containers, n);
      ThinnedStep(E, at, i, n);
      i := i + 1;
    }
    assert at[..i] == at;
  }

  /** The edges once the pairs D of the removed node's containers and containees have been relinked. */
  ghost function LowerDone(N: set<Node>, n: Node, D: set<(Node, Node)>): map<Node, set<Node>> {
    map x | x in N - {n} :: Lower(N, x) - {n} + LowerNew(N, n, D, x)
  }

  ghost function UpperDone(N: set<Node>, n: Node, D: set<(Node, Node)>): map<Node, set<Node>> {
    map x | x in N - {n} :: Upper(N, x) - {n} + UpperNew(N, n, D, x)
  }

  ghost function LowerNew(N: set<Node>, n: Node, D: set<(Node, Node)>, x: Node): set<Node> {
    set c | c in Lower(N, n) && (x, c) in D && Covers(N - {n}, x, c)
  }

  ghost function UpperNew(N: set<Node>, n: Node, D: set<(Node, Node)>, x: Node): set<Node> {
    set p | p in Upper(N, n) && (p, x) in D && Covers(N - {n}, p, x)
  }

  /** The edge lists E with the edge from x to y added if it is wanted. */
  ghost function WithEdge(E: map<Node, set<Node>>, x: Node, y: Node, wanted: bool): map<Node, set<Node>>
    requires x in E
  {
    if wanted then E[x := E[x] + {y}] else E
  }

  lemma FreshStamp(N: set<Node>, id: int)
    requires LastUpTo(N, id - 1)
    ensures Stamped(N, id) == {} && LastUpTo(N, id)
  {}

  method ContainersFrom(roots: seq<Node>, s: Subscription, id: int, ghost w: Walk, ghost ok: set<Node>,
                        ghost N: set<Node>, ghost bound: set<Node>)
    returns (c: seq<Node>, ghost V: set<Node>, ghost found: int)
    requires Ranked(w, N) && DownLists(N, w.next) && AreContaining(N, s, ok) && LastUpTo(N, id - 1)
    requires forall j | 0 <= j < |roots| :: roots[j] in N && w.rank[roots[j]] < bound
    modifies N`last
    ensures LastUpTo(N, id) && Sweep(w.next, ok, {}, V, [], c) && Progress(roots, ok, V, found)
  {
    V, found, c := {}, 0, [];
    FreshStamp(N, id);
    SweepNothing(w.next, ok, V, c);
    var i := 0;
    while i < |roots|
      invariant i <= |roots| && V == Stamped(N, id) && LastUpTo(N, id)
      invariant Sweep(w.next, ok, {}, V, [], c)
      invariant Progress(roots[..i], ok, V, found)
    {
      ghost var V1, before := V, found;
      var b;
      b, c := FindContainersNext(roots[i], s, {}, [], c, id, w, ok, N, bound);
      V, found := Stamped(N, id), if b then found + 1 else found;
      ProgressStep(roots, i, ok, V1, V, before, found);
      i := i + 1;
    }
    assert roots[..i] == roots;
  }

  /** First traversal of Graph::add: from the roots, the nodes directly above the newcomer. */
  method ContainersOf(roots: seq<Node>, s: Subscription, id: int, ghost n: Node, ghost N: set<Node>,
                      ghost U: iset<seq<Entry>>) returns (c: seq<Node>)
    requires Fits(N, U) && Fits(N + {n}, U) && n !in N && n.sub == s
    requires Drawn(N) && Lists(roots, Roots(N)) && LastUpTo(N, id - 1)
    modifies N`last
    ensures Lists(c, Upper(N + {n}, n)) && LastUpTo(N, id)
  {
    DownRanked(N, U, LowerMap(N));
    forall j | 0 <= j < |roots|
      ensures roots[j] in N && Below(N, roots[j]) < N
    {
      assert roots[j] in roots && roots[j] !in Below(N, roots[j]);
    }
    ghost var V, found;
    c, V, found := ContainersFrom(roots, s, id, DownWalk(N, LowerMap(N)), Containing(N, s), N, N);
    ContainersOfDone(roots, n, N, U, V, c, found);
  }

  lemma ContainersOfDone(roots: seq<Node>, n: Node, N: set<Node>, U: iset<seq<Entry>>, V: set<Node>, c: seq<Node>,
                         found: int)
    requires Fits(N, U) && Fits(N + {n}, U) && n !in N && Lists(roots, Roots(N))
    requires Sweep(LowerMap(N), Containing(N, n.sub), {}, V, [], c) && Progress(roots, Containing(N, n.sub), V, found)
    ensures Lists(c, Upper(N + {n}, n))
  {
    var ok := Containing(N, n.sub);
    ProgressDone(roots, Roots(N), ok, V, found);
    forall y | y in V * N ensures Lower(N, y) * ok <= V { assert LowerMap(N)[y] * ok <= V; }
    forall x | x in ok ensures x in V { DownwardComplete(N, U, n, V, x); }
    assert V - {} == ok && c[0..] == c;
    EndsAreUpper(N, U, n);
  }

  method ContaineesFrom(leaves: seq<Node>, s: Subscription, id: int, ghost w: Walk, ghost ok: set<Node>,
                        ghost N: set<Node>, ghost bound: set<Node>)
    returns (c: seq<Node>, ghost V: set<Node>, ghost found: int)
    requires Ranked(w, N) && UpLists(N, w.next) && AreContained(N, s, ok) && LastUpTo(N, id - 1)
    requires forall j | 0 <= j < |leaves| :: leaves[j] in N && w.rank[leaves[j]] < bound
    modifies N`last
    ensures LastUpTo(N, id) && Sweep(w.next, ok, {}, V, [], c) && Progress(leaves, ok, V, found)
  {
    V, found, c := {}, 0, [];
    FreshStamp(N, id);
    SweepNothing(w.next, ok, V, c);
    var i := 0;
    while i < |leaves|
      invariant i <= |leaves| && V == Stamped(N, id) && LastUpTo(N, id)
      invariant Sweep(w.next, ok, {}, V, [], c)
      invariant Progress(leaves[..i], ok, V, found)
    {
      ghost var V1, before := V, found;
      var b;
      b, c := FindContaineesNext(leaves[i], s, {}, [], c, id, w, ok, N, bound);
      V, found := Stamped(N, id), if b then found + 1 else found;
      ProgressStep(leaves, i, ok, V1, V, before, found);
      i := i + 1;
    }
    assert leaves[..i] == leaves;
  }

  /** Second traversal: from the leaves, the nodes directly below it. */
  method ContaineesOf(leaves: seq<Node>, s: Subscription, id: int, ghost n: Node, ghost N: set<Node>,
                      ghost U: iset<seq<Entry>>) returns (c: seq<Node>)
    requires Fits(N, U) && Fits(N + {n}, U) && n !in N && n.sub == s
    requires Drawn(N) && Lists(leaves, Leaves(N)) && LastUpTo(N, id - 1)
    modifies N`last
    ensures Lists(c, Lower(N + {n}, n)) && LastUpTo(N, id)
  {
    UpRanked(N, U, UpperMap(N));
    forall j | 0 <= j < |leaves|
      ensures leaves[j] in N && Over(N, leaves[j]) < N
    {
      assert leaves[j] in leaves && leaves[j] !in Over(N, leaves[j]);
    }
    ghost var V, found;
    c, V, found := ContaineesFrom(leaves, s, id, UpWalk(N, UpperMap(N)), ContainedIn(N, s), N, N);
    ContaineesOfDone(leaves, n, N, U, V, c, found);
  }

  lemma ContaineesOfDone(leaves: seq<Node>, n: Node, N: set<Node>, U: iset<seq<Entry>>, V: set<Node>, c: seq<Node>,
                         found: int)
    requires Fits(N, U) && Fits(N + {n}, U) && n !in N && Lists(leaves, Leaves(N))
    requires Sweep(UpperMap(N), ContainedIn(N, n.sub), {}, V, [], c)
    requires Progress(leaves, ContainedIn(N, n.sub), V, found)
    ensures Lists(c, Lower(N + {n}, n))
  {
    var ok := ContainedIn(N, n.sub);
    ProgressDone(leaves, Leaves(N), ok, V, found);
    forall y | y in V * N ensures Upper(N, y) * ok <= V { assert UpperMap(N)[y] * ok <= V; }
    forall x | x in ok ensures x in V { UpwardComplete(N, U, n, V, x); }
    assert V - {} == ok && c[0..] == c;
    EndsAreLower(N, U, n);
  }

  // ---------------------------------------------------------------------------
  // Graph::remove
  // ---------------------------------------------------------------------------

  /** One turn of the relinking loop of Graph::remove, first half: the containee
    * c gets the container p exactly when that is a covering edge of what is left. */
  method RelinkUp(p: Node, c: Node, ghost wanted: bool, ghost w: Walk, ghost M: set<Node>)
    requires Ranked(w, M) && UpLists(M, w.next) && c in M && p !in w.next[c]
    requires Path(w, M, c, p) <==> !wanted
    modifies c`containers
    ensures UpLists(M, WithEdge(w.next, c, p, wanted))
  {
    var r := Descendant(c, p, w, M);
    if !r { c.containers := c.containers + [p]; }
  }

  /** Second half: p gets c under the same condition. */
  method RelinkDown(p: Node, c: Node, ghost wanted: bool, ghost w: Walk, ghost M: set<Node>)
    requires Ranked(w, M) && DownLists(M, w.next) && p in M && c !in w.next[p]
    requires Path(w, M, p, c) <==> !wanted
    modifies p`containees
    ensures DownLists(M, WithEdge(w.next, p, c, wanted))
  {
    var r := Ancestor(p, c, w, M);
    if !r { p.containees := p.containees + [c]; }
  }

  lemma NewStep(N: set<Node>, n: Node, D: set<(Node, Node)>, p: Node, c: Node, x: Node)
    requires p in Upper(N, n) && c in Lower(N, n)
    ensures LowerNew(N, n, D + {(p, c)}, x) ==
      LowerNew(N, n, D, x) + (if x == p && Covers(N - {n}, p, c) then {c} else {})
    ensures UpperNew(N, n, D + {(p, c)}, x) ==
      UpperNew(N, n, D, x) + (if x == c && Covers(N - {n}, p, c) then {p} else {})
  {
    hide Covers, Upper, Lower;
  }

  /** A pair not relinked yet is in neither list. */
  lemma NotYet(N: set<Node>, n: Node, D: set<(Node, Node)>, p: Node, c: Node)
    requires n in N && p in Upper(N, n) && c in Lower(N, n) && (p, c) !in D
    ensures p in N - {n} && c in N - {n}
    ensures c !in Lower(N, p) && c !in LowerNew(N, n, D, p) && p !in Upper(N, c) && p !in UpperNew(N, n, D, c)
  {
    assert !Covers(N, p, c);
  }

  lemma LowerDoneStep(N: set<Node>, n: Node, D: set<(Node, Node)>, p: Node, c: Node)
    requires n in N && p in Upper(N, n) && c in Lower(N, n) && (p, c) !in D
    ensures p in LowerDone(N, n, D) && c !in LowerDone(N, n, D)[p]
    ensures LowerDone(N, n, D + {(p, c)}) == WithEdge(LowerDone(N, n, D), p, c, Covers(N - {n}, p, c))
  {
    hide Covers, Upper, Lower, LowerNew, UpperNew;
    NotYet(N, n, D, p, c);
    forall x { NewStep(N, n, D, p, c, x); }
    var E, F := WithEdge(LowerDone(N, n, D), p, c, Covers(N - {n}, p, c)), LowerDone(N, n, D + {(p, c)});
    forall x | x in N - {n} ensures F[x] == E[x] {}
  }

  lemma UpperDoneStep(N: set<Node>, n: Node, D: set<(Node, Node)>, p: Node, c: Node)
    requires n in N && p in Upper(N, n) && c in Lower(N, n) && (p, c) !in D
    ensures c in UpperDone(N, n, D) && p !in UpperDone(N, n, D)[c]
    ensures UpperDone(N, n, D + {(p, c)}) == WithEdge(UpperDone(N, n, D), c, p, Covers(N - {n}, p, c))
  {
    hide Covers, Upper, Lower, LowerNew, UpperNew;
    NotYet(N, n, D, p, c);
    forall x { NewStep(N, n, D, p, c, x); }
    var E, F := WithEdge(UpperDone(N, n, D), c, p, Covers(N - {n}, p, c)), UpperDone(N, n, D + {(p, c)});
    forall x | x in N - {n} ensures F[x] == E[x] {}
  }

  /** While relinking, the edges stay within the order and keep the old covering edges. */
  lemma UpperDoneAround(N: set<Node>, U: iset<seq<Entry>>, n: Node, D: set<(Node, Node)>)
    requires Fits(N, U) && n in N
    ensures UpAround(UpWalk(N - {n}, UpperDone(N, n, D)), N, n)
  {
    UpRanked(N - {n}, U, UpperDone(N, n, D));
  }

  lemma LowerDoneAround(N: set<Node>, U: iset<seq<Entry>>, n: Node, D: set<(Node, Node)>)
    requires Fits(N, U) && n in N
    ensures DownAround(DownWalk(N - {n}, LowerDone(N, n, D)), N, n)
  {
    DownRanked(N - {n}, U, LowerDone(N, n, D));
  }

  lemma AroundRanked(up: Walk, down: Walk, N: set<Node>, n: Node)
    requires UpAround(up, N, n) && DownAround(down, N, n)
    ensures Ranked(up, N - {n}) && Ranked(down, N - {n})
  {}

  lemma RelinkReady(N: set<Node>, U: iset<seq<Entry>>, n: Node, p: Node, c: Node, D: set<(Node, Node)>)
    requires Fits(N, U) && n in N && p in Upper(N, n) && c in Lower(N, n) && (p, c) !in D
    ensures Ranked(UpWalk(N - {n}, UpperDone(N, n, D)), N - {n})
    ensures Ranked(DownWalk(N - {n}, LowerDone(N, n, D)), N - {n})
    ensures p in N - {n} && c in N - {n}
    ensures Path(UpWalk(N - {n}, UpperDone(N, n, D)), N - {n}, c, p) <==> !Covers(N - {n}, p, c)
    ensures Path(DownWalk(N - {n}, LowerDone(N, n, D)), N - {n}, p, c) <==> !Covers(N - {n}, p, c)
  {
    assert p in N - {n} && c in N - {n};
    hide *;
    UpperDoneAround(N, U, n, D);
    LowerDoneAround(N, U, n, D);
    UpperDoneStep(N, n, D, p, c);
    LowerDoneStep(N, n, D, p, c);
    WalkMeans(N - {n}, UpperDone(N, n, D), LowerDone(N, n, D));
    AroundRanked(UpWalk(N - {n}, UpperDone(N, n, D)), DownWalk(N - {n}, LowerDone(N, n, D)), N, n);
    DescendantDecides(UpWalk(N - {n}, UpperDone(N, n, D)), N, U, n, p, c);
    AncestorDecides(DownWalk(N - {n}, LowerDone(N, n, D)), N, U, n, p, c);
  }

  /** One turn of the relinking loop: both edge lists get the pair exactly when
    * it is a covering edge of what is left. */
  method RelinkPair(n: Node, p: Node, c: Node, ghost D: set<(Node, Node)>, ghost N: set<Node>,
                    ghost U: iset<seq<Entry>>)
    requires Fits(N, U) && n in N && p in Upper(N, n) && c in Lower(N, n) && (p, c) !in D
    requires UpLists(N - {n}, UpperDone(N, n, D)) && DownLists(N - {n}, LowerDone(N, n, D))
    modifies c`containers, p`containees
    ensures UpLists(N - {n}, UpperDone(N, n, D + {(p, c)})) && DownLists(N - {n}, LowerDone(N, n, D + {(p, c)}))
  {
    hide *;
    RelinkReady(N, U, n, p, c, D);
    UpperDoneStep(N, n, D, p, c);
    LowerDoneStep(N, n, D, p, c);
    WalkMeans(N - {n}, UpperDone(N, n, D), LowerDone(N, n, D));
    RelinkUp(p, c, Covers(N - {n}, p, c), UpWalk(N - {n}, UpperDone(N, n, D)), N - {n});
    RelinkDown(p, c, Covers(N - {n}, p, c), DownWalk(N - {n}, LowerDone(N, n, D)), N - {n});
  }

  lemma WalkMeans(M: set<Node>, up: map<Node, set<Node>>, down: map<Node, set<Node>>)
    ensures UpWalk(M, up).next == up && DownWalk(M, down).next == down
  {}

  ghost function Pairs(ps: seq<Node>, cs: seq<Node>): set<(Node, Node)> { set p, c | p in ps && c in cs :: (p, c) }

  lemma PairsStep(ps: seq<Node>, cs: seq<Node>, i: nat, j: nat)
    requires i < |ps| && j < |cs| && NoDup(ps) && NoDup(cs)
    ensures (ps[i], cs[j]) !in Pairs(ps[..i], cs) + Pairs([ps[i]], cs[..j])
    ensures Pairs(ps[..i], cs) + Pairs([ps[i]], cs[..j + 1]) ==
      Pairs(ps[..i], cs) + Pairs([ps[i]], cs[..j]) + {(ps[i], cs[j])}
  {
    assert cs[..j + 1] == cs[..j] + [cs[j]];
  }

  lemma PairsRow(ps: seq<Node>, cs: seq<Node>, i: nat)
    requires i < |ps|
    ensures Pairs(ps[..i + 1], cs) == Pairs(ps[..i], cs) + Pairs([ps[i]], cs)
    ensures Pairs(ps[..i], cs) + Pairs([ps[i]], cs[..0]) == Pairs(ps[..i], cs)
  {
    assert ps[..i + 1] == ps[..i] + [ps[i]];
  }

  /** The relinking loops, over all parents and children of the departing node. */
  method RelinkAll(n: Node, parents: seq<Node>, children: seq<Node>, ghost N: set<Node>, ghost U: iset<seq<Entry>>)
    requires Fits(N, U) && n in N && Lists(parents, Upper(N, n)) && Lists(children, Lower(N, n))
    requires UpLists(N - {n}, UpperDone(N, n, {})) && DownLists(N - {n}, LowerDone(N, n, {}))
    modifies (N - {n})`containers, (N - {n})`containees
    ensures UpLists(N - {n}, UpperDone(N, n, Pairs(parents, children)))
    ensures DownLists(N - {n}, LowerDone(N, n, Pairs(parents, children)))
  {
    hide *;
    var i := 0;
    ghost var D := {};
    ListsOf(N, n, parents, children);
    while i < |parents|
      invariant i <= |parents| && D == Pairs(parents[..i], children)
      invariant UpLists(N - {n}, UpperDone(N, n, D)) && DownLists(N - {n}, LowerDone(N, n, D))
    {
      PairsRow(parents, children, i);
      var j := 0;
      while j < |children|
        invariant j <= |children| && D == Pairs(parents[..i], children) + Pairs([parents[i]], children[..j])
        invariant UpLists(N - {n}, UpperDone(N, n, D)) && DownLists(N - {n}, LowerDone(N, n, D))
      {
        PairsStep(parents, children, i, j);
        RelinkPair(n, parents[i], children[j], D, N, U);
        D := D + {(parents[i], children[j])};
        j := j + 1;
      }
      assert children[..j] == children;
      i := i + 1;
    }
    assert parents[..i] == parents;
  }

  lemma ListsOf(N: set<Node>, n: Node, parents: seq<Node>, children: seq<Node>)
    requires Lists(parents, Upper(N, n)) && Lists(children, Lower(N, n))
    ensures NoDup(parents) && NoDup(children) && Pairs(parents[..0], children) == {}
    ensures forall i | 0 <= i < |parents| :: parents[i] in Upper(N, n) && parents[i] in N - {n}
    ensures forall j | 0 <= j < |children| :: children[j] in Lower(N, n) && children[j] in N - {n}
  {
    forall i | 0 <= i < |parents| ensures parents[i] in Upper(N, n) { assert parents[i] in parents; }
    forall j | 0 <= j < |children| ensures children[j] in Lower(N, n) { assert children[j] in children; }
  }

  /** Relinking all pairs gives the covering edges of what is left. */
  lemma RelinkedAll(N: set<Node>, U: iset<seq<Entry>>, n: Node, parents: seq<Node>, children: seq<Node>)
    requires Fits(N, U) && n in N && Lists(parents, Upper(N, n)) && Lists(children, Lower(N, n))
    ensures LowerDone(N, n, Pairs(parents, children)) == LowerMap(N - {n})
    ensures UpperDone(N, n, Pairs(parents, children)) == UpperMap(N - {n})
  {
    var D, M := Pairs(parents, children), N - {n};
    forall x | x in M ensures LowerDone(N, n, D)[x] == Lower(M, x) { LowerRemoved(N, U, n, x); }
    forall x | x in M ensures UpperDone(N, n, D)[x] == Upper(M, x) { UpperRemoved(N, U, n, x); }
  }

  /** Before any pair is relinked only n has been erased. */
  lemma NothingRelinked(N: set<Node>, n: Node, parents: seq<Node>, children: seq<Node>)
    requires n in N && Lists(parents, Upper(N, n)) && Lists(children, Lower(N, n))
    ensures Thinned(LowerLeft(N, n), parents, n) == LowerDone(N, n, {})
    ensures Thinned(UpperLeft(N, n), children, n) == UpperDone(N, n, {})
  {
    hide Covers, Upper, Lower, UpperNew, LowerNew, Lists;
    forall x | x in N - {n}
      ensures Thinned(LowerLeft(N, n), parents, n)[x] == LowerDone(N, n, {})[x]
      ensures Thinned(UpperLeft(N, n), children, n)[x] == UpperDone(N, n, {})[x]
    {
      NeighbourListed(N, n, parents, children, x);
    }
  }

  lemma NeighbourListed(N: set<Node>, n: Node, parents: seq<Node>, children: seq<Node>, x: Node)
    requires n in N && x in N && Lists(parents, Upper(N, n)) && Lists(children, Lower(N, n))
    ensures x in parents <==> n in Lower(N, x)
    ensures x in children <==> n in Upper(N, x)
    ensures LowerNew(N, n, {}, x) == {} && UpperNew(N, n, {}, x) == {}
  {}

  ghost function LowerLeft(N: set<Node>, n: Node): map<Node, set<Node>> { map x | x in N - {n} :: Lower(N, x) }
  ghost function UpperLeft(N: set<Node>, n: Node): map<Node, set<Node>> { map x | x in N - {n} :: Upper(N, x) }

  /** The nodes of the list without edges in E. */
  ghost function Bare(list: seq<Node>, E: map<Node, set<Node>>): set<Node> { set x | x in list && x in E && E[x] == {} }

  /** The new leaves: parents left without containees. */
  method NewLeaves(leaves: seq<Node>, parents: seq<Node>, ghost L: set<Node>, ghost N: set<Node>,
                   ghost E: map<Node, set<Node>>) returns (r: seq<Node>)
    requires Lists(leaves, L) && DownLists(N, E) && NoDup(parents)
    requires forall j | 0 <= j < |parents| :: parents[j] in N && parents[j] !in L
    ensures Lists(r, L + Bare(parents, E))
  {
    var i := 0;
    r := leaves;
    while i < |parents|
      invariant i <= |parents|
      invariant Lists(r, L + Bare(parents[..i], E))
    {
      var p := parents[i];
      assert parents[..i + 1] == parents[..i] + [p] && p !in parents[..i];
      ListsEmpty(p.containees, E[p]);
      if p.containees == [] { r := r + [p]; }
      i := i + 1;
    }
    assert parents[..i] == parents;
  }

  method NewRoots(roots: seq<Node>, children: seq<Node>, ghost R: set<Node>, ghost N: set<Node>,
                  ghost E: map<Node, set<Node>>) returns (r: seq<Node>)
    requires Lists(roots, R) && UpLists(N, E) && NoDup(children)
    requires forall j | 0 <= j < |children| :: children[j] in N && children[j] !in R
    ensures Lists(r, R + Bare(children, E))
  {
    var i := 0;
    r := roots;
    while i < |children|
      invariant i <= |children|
      invariant Lists(r, R + Bare(children[..i], E))
    {
      var c := children[i];
      assert children[..i + 1] == children[..i] + [c] && c !in children[..i];
      ListsEmpty(c.containers, E[c]);
      if c.containers == [] { r := r + [c]; }
      i := i + 1;
    }
    assert children[..i] == children;
  }
}
