/** Whole runs of the graph against the list its caller keeps. */
module Runs {
  import opened Subscriptions
  import opened Containment
  import opened Diagram
  import opened Traversal
  import opened Census
  import opened Classes
  import opened Matching
  import opened Graph

  datatype Step = Enter(s: Subscription) | Leave(s: Subscription) | Ask(e: Event)

  // ---------------------------------------------------------------------------
  // What the caller keeps
  // ---------------------------------------------------------------------------

  /** l without one occurrence of s. */
  function TakeOut(l: seq<Subscription>, s: Subscription): seq<Subscription> {
    if l == [] then []
    else if l[|l| - 1] == s then l[..|l| - 1]
    else TakeOut(l[..|l| - 1], s) + [l[|l| - 1]]
  }

  /** The subscriptions the caller has added and not removed. */
  function Held(steps: seq<Step>): seq<Subscription> {
    if steps == [] then []
    else
      var l := Held(steps[..|steps| - 1]);
      match steps[|steps| - 1]
      case Enter(s) => l + [s]
      case Leave(s) => TakeOut(l, s)
      case Ask(_) => l
  }

  /** How many members the class of d has. */
  function Size(l: seq<Subscription>, d: seq<Entry>): nat {
    if l == [] then 0 else Size(l[..|l| - 1], d) + if Equivalent(l[|l| - 1].data, d) then 1 else 0
  }

  /** What has been added to the class of d since it was last empty. */
  function Since(steps: seq<Step>, d: seq<Entry>): seq<Subscription> {
    if steps == [] then []
    else
      var l := Since(steps[..|steps| - 1], d);
      match steps[|steps| - 1]
      case Enter(s) => if Equivalent(s.data, d) then l + [s] else l
      case Leave(s) => if Size(Held(steps), d) == 0 then [] else l
      case Ask(_) => l
  }

  /** What has been removed from it since. */
  function Gone(steps: seq<Step>, d: seq<Entry>): multiset<Subscription> {
    if steps == [] then multiset{}
    else
      var m := Gone(steps[..|steps| - 1], d);
      match steps[|steps| - 1]
      case Enter(_) => m
      case Leave(s) =>
        if Size(Held(steps), d) == 0 then multiset{} else if Equivalent(s.data, d) then m + multiset{s} else m
      case Ask(_) => m
  }

  /** The caller removes what it holds, or what has no equivalent. */
  ghost predicate Fair(steps: seq<Step>, step: Step, U: iset<seq<Entry>>) {
    match step
    case Enter(s) => s.data in U
    case Leave(s) => s.data in U && (s in Held(steps) || Size(Held(steps), s.data) == 0)
    case Ask(_) => true
  }

  ghost predicate Legal(steps: seq<Step>, U: iset<seq<Entry>>) {
    forall i | 0 <= i < |steps| :: Fair(steps[..i], steps[i], U)
  }

  /** The members removed since the class of d was last empty are, as a multiset,
    * the ones added last since then. */
  predicate LatestGone(steps: seq<Step>, d: seq<Entry>) {
    var k, all := Size(Held(steps), d), Since(steps, d);
    k <= |all| && multiset(all[k..]) == Gone(steps, d)
  }

  /** Of the class of x the report has the first of those added since it was last
    * empty, as many as the caller holds, or, if x does not accept e, nothing. */
  predicate FirstOf(steps: seq<Step>, e: Event, r: seq<Subscription>, x: Subscription) {
    var k := Size(Held(steps), x.data);
    && k <= |Since(steps, x.data)|
    && Class(r, x) == if Accepts(x.data, e) then Since(steps, x.data)[..k] else []
  }

  datatype Answer = Taken | Dropped(found: bool) | Told(r: seq<Subscription>)

  /** Which subscriptions are reported, and against the caller's list: numbers are always right, in all and per class,
    * and the subscriptions are, if and only if of every class that accepts the
    * event the ones removed were the ones added last. */
  ghost predicate Answered(steps: seq<Step>, step: Step, answer: Answer) {
    var l := Held(steps);
    match step
    case Enter(_) => answer == Taken
    case Leave(s) => answer == Dropped(Size(l, s.data) != 0)
    case Ask(e) =>
      && answer.Told? && |answer.r| == |Scan(l, e)|
      && (forall x | x in l :: FirstOf(steps, e, answer.r, x) && |Class(answer.r, x)| == |Class(Scan(l, e), x)|)
      && (multiset(answer.r) == multiset(Scan(l, e)) <==>
            forall x | x in l && Accepts(x.data, e) :: LatestGone(steps, x.data))
  }

  // ---------------------------------------------------------------------------
  // Sizes of classes
  // ---------------------------------------------------------------------------

  lemma {:induction false} SizeIsClass(l: seq<Subscription>, s: Subscription)
    ensures Size(l, s.data) == |Class(l, s)|
  {
    if l != [] { SizeIsClass(l[..|l| - 1], s); }
  }

  lemma SizeAppend(l: seq<Subscription>, x: Subscription, d: seq<Entry>)
    ensures Size(l + [x], d) == Size(l, d) + if Equivalent(x.data, d) then 1 else 0
  {
    assert (l + [x])[..|l|] == l;
  }

  lemma {:induction false} SizeSame(l: seq<Subscription>, a: seq<Entry>, b: seq<Entry>, U: iset<seq<Entry>>)
    requires Preorder(U) && From(l, U) && a in U && b in U && Equivalent(a, b)
    ensures Size(l, a) == Size(l, b)
  {
    if l != [] {
      var x := l[|l| - 1];
      assert x in l;
      SizeSame(l[..|l| - 1], a, b, U);
      EquivalentTransitive(U, a, b, x.data);
      EquivalentFlips(a, x.data);
      EquivalentFlips(b, x.data);
    }
  }

  lemma EquivalentFlips(a: seq<Entry>, b: seq<Entry>)
    ensures Equivalent(a, b) <==> Equivalent(b, a)
  {}

  lemma {:induction false} SizeMember(l: seq<Subscription>, x: Subscription, d: seq<Entry>)
    requires x in l && Equivalent(x.data, d)
    ensures Size(l, d) > 0
  {
    hide Equivalent;
    if l[|l| - 1] != x {
      assert l == l[..|l| - 1] + [l[|l| - 1]];
      SizeMember(l[..|l| - 1], x, d);
    }
  }

  lemma {:induction false} SizeWitness(l: seq<Subscription>, d: seq<Entry>) returns (x: Subscription)
    requires Size(l, d) > 0
    ensures x in l && Equivalent(x.data, d)
  {
    hide Equivalent;
    if Equivalent(l[|l| - 1].data, d) { x := l[|l| - 1]; } else { x := SizeWitness(l[..|l| - 1], d); }
  }

  lemma {:induction false} TakeOutSize(l: seq<Subscription>, s: Subscription, d: seq<Entry>)
    ensures s !in l ==> TakeOut(l, s) == l
    ensures s in l ==> Size(l, d) == Size(TakeOut(l, s), d) + if Equivalent(s.data, d) then 1 else 0
    ensures s in l ==> multiset(l) == multiset(TakeOut(l, s)) + multiset{s}
  {
    hide Equivalent;
    if l != [] {
      var rest, x := l[..|l| - 1], l[|l| - 1];
      assert l == rest + [x];
      TakeOutSize(rest, s, d);
      if x != s && s in l { SizeAppend(TakeOut(rest, s), x, d); }
    }
  }

  lemma {:induction false} DropSize(l: seq<Subscription>, s: Subscription, d: seq<Entry>, U: iset<seq<Entry>>)
    requires Preorder(U) && From(l, U) && s.data in U && d in U && Size(l, s.data) > 0
    ensures Size(l, d) == Size(DropNewest(l, s), d) + if Equivalent(s.data, d) then 1 else 0
  {
    var rest, x := l[..|l| - 1], l[|l| - 1];
    assert l == rest + [x];
    LastFrom(l, U);
    DropMeans(l, s);
    hide *;
    SizeAppend(rest, x, d);
    SizeAppend(rest, x, s.data);
    if Equivalent(x.data, s.data) {
      EquivalentTransitive(U, x.data, s.data, d);
    } else {
      DropSize(rest, s, d, U);
      SizeAppend(DropNewest(rest, s), x, d);
    }
  }

  lemma LastFrom(l: seq<Subscription>, U: iset<seq<Entry>>)
    requires From(l, U) && l != []
    ensures l[|l| - 1].data in U && From(l[..|l| - 1], U)
  {
    assert l[|l| - 1] in l;
  }

  lemma DropMeans(l: seq<Subscription>, s: Subscription)
    requires l != []
    ensures var rest, x := l[..|l| - 1], l[|l| - 1];
      DropNewest(l, s) == if Equivalent(x.data, s.data) then rest else DropNewest(rest, s) + [x]
  {
    hide Equivalent;
  }

  ghost predicate SameSizes(l: seq<Subscription>, m: seq<Subscription>, U: iset<seq<Entry>>) {
    forall d :: d in U ==> Size(l, d) == Size(m, d)
  }

  /** Lists with classes of the same sizes have scans of the same size. */
  lemma {:induction false} SameScanSize(l: seq<Subscription>, m: seq<Subscription>, U: iset<seq<Entry>>, e: Event)
    requires Preorder(U) && SoundOn(U) && From(l, U) && From(m, U) && SameSizes(l, m, U)
    ensures |Scan(l, e)| == |Scan(m, e)|
    decreases |l|
  {
    hide *;
    if l == [] {
      NoneScanned(e);
      SizeNone(m, U);
      if m != [] { var d := SomeSize(m, U); }
    } else {
      var rest, x := l[..|l| - 1], l[|l| - 1];
      assert l == rest + [x] && x in l;
      LastFrom(l, U);
      SelfEquivalent(U, x.data);
      SizeMember(l, x, x.data);
      SizesAt(l, m, U, x.data);
      var y := SizeWitness(m, x.data);
      FromAt(m, U, y);
      var n := TakeOut(m, y);
      TakeOutSize(m, y, x.data);
      TakeOutFrom(m, y, U);
      forall d | d in U ensures Size(rest, d) == Size(n, d) {
        SizesAt(l, m, U, d);
        SizeAppend(rest, x, d);
        TakeOutSize(m, y, d);
        EquivalentTransitive(U, y.data, x.data, d);
      }
      SameSizesIf(rest, n, U);
      SameScanSize(rest, n, U, e);
      EquivalentAccept(U, y, x, e);
      assert multiset(l) == multiset(rest) + multiset{x};
      ScanWithout(l, rest, x, e);
      ScanWithout(m, n, y, e);
    }
  }

  lemma NoneScanned(e: Event)
    ensures Scan([], e) == []
  {}

  lemma SizeNone(m: seq<Subscription>, U: iset<seq<Entry>>)
    requires SameSizes([], m, U)
    ensures forall d :: d in U ==> Size(m, d) == 0
  {
    assert forall d :: Size([], d) == 0;
  }

  lemma SomeSize(m: seq<Subscription>, U: iset<seq<Entry>>) returns (d: seq<Entry>)
    requires m != [] && From(m, U) && Preorder(U)
    ensures d in U && Size(m, d) > 0
  {
    LastFrom(m, U);
    d := m[|m| - 1].data;
    SelfEquivalent(U, d);
    SizeMember(m, m[|m| - 1], d);
  }

  lemma SizesAt(l: seq<Subscription>, m: seq<Subscription>, U: iset<seq<Entry>>, d: seq<Entry>)
    requires SameSizes(l, m, U) && d in U
    ensures Size(l, d) == Size(m, d)
  {
    hide Size;
  }

  lemma SameSizesIf(l: seq<Subscription>, m: seq<Subscription>, U: iset<seq<Entry>>)
    requires forall d | d in U :: Size(l, d) == Size(m, d)
    ensures SameSizes(l, m, U)
  {
    hide Size;
  }

  lemma FromAt(l: seq<Subscription>, U: iset<seq<Entry>>, x: Subscription)
    requires From(l, U) && x in l
    ensures x.data in U
  {}

  lemma SelfEquivalent(U: iset<seq<Entry>>, d: seq<Entry>)
    requires Preorder(U) && d in U
    ensures Equivalent(d, d)
  {}

  lemma {:induction false} TakeOutFrom(l: seq<Subscription>, s: Subscription, U: iset<seq<Entry>>)
    requires From(l, U)
    ensures From(TakeOut(l, s), U)
  {
    if l != [] {
      assert l == l[..|l| - 1] + [l[|l| - 1]];
      TakeOutFrom(l[..|l| - 1], s, U);
    }
  }

  // ---------------------------------------------------------------------------
  // One step more
  // ---------------------------------------------------------------------------

  lemma HeldStep(steps: seq<Step>, step: Step)
    ensures step.Enter? ==> Held(steps + [step]) == Held(steps) + [step.s]
    ensures step.Leave? ==> Held(steps + [step]) == TakeOut(Held(steps), step.s)
    ensures step.Ask? ==> Held(steps + [step]) == Held(steps)
  {
    assert (steps + [step])[..|steps|] == steps;
  }

  lemma SinceStep(steps: seq<Step>, step: Step, d: seq<Entry>)
    ensures step.Enter? ==>
      && Since(steps + [step], d) == Since(steps, d) + (if Equivalent(step.s.data, d) then [step.s] else [])
      && Gone(steps + [step], d) == Gone(steps, d)
    ensures step.Leave? && Size(Held(steps + [step]), d) == 0 ==>
      Since(steps + [step], d) == [] && Gone(steps + [step], d) == multiset{}
    ensures step.Leave? && Size(Held(steps + [step]), d) != 0 ==>
      && Since(steps + [step], d) == Since(steps, d)
      && Gone(steps + [step], d) == Gone(steps, d) + if Equivalent(step.s.data, d) then multiset{step.s} else multiset{}
    ensures step.Ask? ==> Since(steps + [step], d) == Since(steps, d) && Gone(steps + [step], d) == Gone(steps, d)
  {
    assert (steps + [step])[..|steps|] == steps;
    hide Equivalent, Held, Size;
  }

  lemma LegalStep(steps: seq<Step>, step: Step, U: iset<seq<Entry>>)
    requires Legal(steps + [step], U)
    ensures Legal(steps, U) && Fair(steps, step, U)
  {
    var next := steps + [step];
    assert next[..|steps|] == steps && next[|steps|] == step;
    forall i | 0 <= i < |steps| ensures Fair(steps[..i], steps[i], U) {
      assert next[..i] == steps[..i] && next[i] == steps[i];
    }
    hide Fair;
  }

  lemma LegalNext(steps: seq<Step>, step: Step, U: iset<seq<Entry>>)
    requires Legal(steps, U) && Fair(steps, step, U)
    ensures Legal(steps + [step], U)
  {
    var next := steps + [step];
    forall i | 0 <= i < |next| ensures Fair(next[..i], next[i], U) {
      assert next[..i] == steps[..i];
    }
    hide Fair;
  }

  lemma FairMeans(steps: seq<Step>, step: Step, U: iset<seq<Entry>>)
    ensures step.Enter? ==> (Fair(steps, step, U) <==> step.s.data in U)
    ensures step.Leave? ==>
      (Fair(steps, step, U) <==> step.s.data in U && (step.s in Held(steps) || Size(Held(steps), step.s.data) == 0))
  {
    hide Held, Size;
  }

  /** How a step changes the size of a class. */
  lemma SizeStep(steps: seq<Step>, step: Step, U: iset<seq<Entry>>, d: seq<Entry>)
    requires Preorder(U) && Fair(steps, step, U) && From(Held(steps), U)
    ensures From(Held(steps + [step]), U)
    ensures step.Enter? ==>
      Size(Held(steps + [step]), d) == Size(Held(steps), d) + if Equivalent(step.s.data, d) then 1 else 0
    ensures step.Leave? ==> (step.s in Held(steps) <==> Size(Held(steps), step.s.data) != 0)
    ensures step.Leave? && step.s in Held(steps) ==>
      Size(Held(steps), d) == Size(Held(steps + [step]), d) + if Equivalent(step.s.data, d) then 1 else 0
    ensures step.Leave? && step.s !in Held(steps) ==> Held(steps + [step]) == Held(steps)
    ensures step.Ask? ==> Held(steps + [step]) == Held(steps)
  {
    hide *;
    HeldStep(steps, step);
    FairMeans(steps, step, U);
    var l := Held(steps);
    match step {
      case Enter(s) =>
        SizeAppend(l, s, d);
        FromAppend(l, s, U);
      case Leave(s) =>
        TakeOutSize(l, s, d);
        TakeOutFrom(l, s, U);
        SelfEquivalent(U, s.data);
        if s in l { SizeMember(l, s, s.data); }
      case Ask(_) =>
    }
  }

  lemma FromAppend(l: seq<Subscription>, s: Subscription, U: iset<seq<Entry>>)
    requires From(l, U) && s.data in U
    ensures From(l + [s], U)
  {}

  lemma {:induction false} HeldFrom(steps: seq<Step>, U: iset<seq<Entry>>)
    requires Preorder(U) && Legal(steps, U)
    ensures From(Held(steps), U)
  {
    if steps != [] {
      var rest, step := steps[..|steps| - 1], steps[|steps| - 1];
      assert steps == rest + [step];
      hide *;
      LegalStep(rest, step, U);
      HeldFrom(rest, U);
      match step {
        case Enter(s) => SizeStep(rest, step, U, s.data);
        case Leave(s) => SizeStep(rest, step, U, s.data);
        case Ask(_) => HeldStep(rest, step);
      }
    }
  }

  /** An empty class has no past. */
  lemma {:induction false} SinceNone(steps: seq<Step>, U: iset<seq<Entry>>, d: seq<Entry>)
    requires Preorder(U) && Legal(steps, U) && d in U && Size(Held(steps), d) == 0
    ensures Since(steps, d) == [] && Gone(steps, d) == multiset{}
  {
    if steps != [] {
      var rest, step := steps[..|steps| - 1], steps[|steps| - 1];
      assert steps == rest + [step];
      hide *;
      LegalStep(rest, step, U);
      HeldFrom(rest, U);
      SizeStep(rest, step, U, d);
      SinceStep(rest, step, d);
      if !step.Leave? { SinceNone(rest, U, d); }
    }
  }

  lemma {:induction false} SinceMembers(steps: seq<Step>, U: iset<seq<Entry>>, d: seq<Entry>)
    requires Preorder(U) && Legal(steps, U) && d in U
    ensures forall o | o in Since(steps, d) :: o.data in U && Equivalent(o.data, d)
  {
    if steps != [] {
      var rest, step := steps[..|steps| - 1], steps[|steps| - 1];
      assert steps == rest + [step];
      hide *;
      LegalStep(rest, step, U);
      FairMeans(rest, step, U);
      SinceMembers(rest, U, d);
      SinceStep(rest, step, d);
    }
  }

  lemma {:induction false} SinceSame(steps: seq<Step>, U: iset<seq<Entry>>, a: seq<Entry>, b: seq<Entry>)
    requires Preorder(U) && Legal(steps, U) && a in U && b in U && Equivalent(a, b)
    ensures Since(steps, a) == Since(steps, b) && Gone(steps, a) == Gone(steps, b)
  {
    if steps != [] {
      var rest, step := steps[..|steps| - 1], steps[|steps| - 1];
      assert steps == rest + [step];
      hide *;
      LegalStep(rest, step, U);
      FairMeans(rest, step, U);
      SinceSame(rest, U, a, b);
      SinceStep(rest, step, a);
      SinceStep(rest, step, b);
      HeldFrom(steps, U);
      SizeSame(Held(steps), a, b, U);
      match step {
        case Enter(s) =>
          EquivalentTransitive(U, a, b, s.data);
          EquivalentFlips(a, s.data);
          EquivalentFlips(b, s.data);
        case Leave(s) =>
          EquivalentTransitive(U, a, b, s.data);
          EquivalentFlips(a, s.data);
          EquivalentFlips(b, s.data);
        case Ask(_) =>
      }
    }
  }

  /** What a class holds and what has left it make up what has been added. */
  lemma {:induction false} Balance(steps: seq<Step>, U: iset<seq<Entry>>, x: Subscription)
    requires Preorder(U) && Legal(steps, U) && x.data in U
    ensures multiset(Class(Held(steps), x)) + Gone(steps, x.data) == multiset(Since(steps, x.data))
  {
    hide *;
    if steps == [] {
      EmptyPast(x);
    } else {
      var rest, step := steps[..|steps| - 1], steps[|steps| - 1];
      assert steps == rest + [step];
      LegalStep(rest, step, U);
      Balance(rest, U, x);
      match step {
        case Enter(s) => BalanceEnter(rest, s, x);
        case Leave(s) => BalanceLeave(rest, s, U, x);
        case Ask(e) => BalanceAsk(rest, e, x);
      }
    }
  }

  lemma BalanceAsk(steps: seq<Step>, e: Event, x: Subscription)
    requires multiset(Class(Held(steps), x)) + Gone(steps, x.data) == multiset(Since(steps, x.data))
    ensures var next := steps + [Ask(e)];
      multiset(Class(Held(next), x)) + Gone(next, x.data) == multiset(Since(next, x.data))
  {
    hide *;
    HeldStep(steps, Ask(e));
    SinceStep(steps, Ask(e), x.data);
  }

  lemma BalanceEnter(steps: seq<Step>, s: Subscription, x: Subscription)
    requires multiset(Class(Held(steps), x)) + Gone(steps, x.data) == multiset(Since(steps, x.data))
    ensures var next := steps + [Enter(s)];
      multiset(Class(Held(next), x)) + Gone(next, x.data) == multiset(Since(next, x.data))
  {
    hide *;
    HeldStep(steps, Enter(s));
    SinceStep(steps, Enter(s), x.data);
    ClassAppend(Held(steps), s, x);
    MoreOnBoth(Class(Held(steps), x), Gone(steps, x.data), Since(steps, x.data),
           if Equivalent(s.data, x.data) then [s] else []);
  }

  lemma MoreOnBoth(c: seq<Subscription>, G: multiset<Subscription>, all: seq<Subscription>, more: seq<Subscription>)
    requires multiset(c) + G == multiset(all)
    ensures multiset(c + more) + G == multiset(all + more)
  {}

  lemma BalanceLeave(steps: seq<Step>, s: Subscription, U: iset<seq<Entry>>, x: Subscription)
    requires Preorder(U) && Legal(steps, U) && Fair(steps, Leave(s), U) && x.data in U
    requires multiset(Class(Held(steps), x)) + Gone(steps, x.data) == multiset(Since(steps, x.data))
    ensures var next := steps + [Leave(s)];
      multiset(Class(Held(next), x)) + Gone(next, x.data) == multiset(Since(next, x.data))
  {
    hide *;
    var l, d := Held(steps), x.data;
    var m := Held(steps + [Leave(s)]);
    HeldFrom(steps, U);
    HeldStep(steps, Leave(s));
    SinceStep(steps, Leave(s), d);
    SizeStep(steps, Leave(s), U, d);
    FairMeans(steps, Leave(s), U);
    SizeIsClass(m, x);
    if Size(m, d) == 0 {
      assert Class(m, x) == [];
    } else if s in l {
      TakeOutClass(l, s, x);
      if Equivalent(s.data, d) {
        Rejoin(Class(m, x), Class(l, x), s, Gone(steps, d));
      } else {
        assert Gone(steps, d) + multiset{} == Gone(steps, d);
      }
    } else {
      SizeIsClass(l, s);
      NotAlike(l, s, d, U);
      assert Gone(steps, d) + multiset{} == Gone(steps, d);
    }
  }

  lemma EmptyPast(x: Subscription)
    ensures multiset(Class(Held([]), x)) + Gone([], x.data) == multiset(Since([], x.data))
  {}

  lemma Rejoin(a: seq<Subscription>, b: seq<Subscription>, s: Subscription, G: multiset<Subscription>)
    requires multiset(a) + multiset{s} == multiset(b)
    ensures multiset(a) + (G + multiset{s}) == multiset(b) + G
  {}

  /** s has no equivalent, so d, which has some, is not equivalent to it. */
  lemma NotAlike(l: seq<Subscription>, s: Subscription, d: seq<Entry>, U: iset<seq<Entry>>)
    requires Preorder(U) && From(l, U) && s.data in U && d in U && Size(l, s.data) == 0 && Size(l, d) != 0
    ensures !Equivalent(s.data, d)
  {
    if Equivalent(s.data, d) { SizeSame(l, s.data, d, U); }
  }

  lemma {:induction false} TakeOutClass(l: seq<Subscription>, s: Subscription, x: Subscription)
    requires s in l
    ensures if Equivalent(s.data, x.data) then multiset(Class(TakeOut(l, s), x)) + multiset{s} == multiset(Class(l, x))
      else Class(TakeOut(l, s), x) == Class(l, x)
  {
    hide Equivalent;
    var rest, y := l[..|l| - 1], l[|l| - 1];
    assert l == rest + [y];
    if y == s {
      assert TakeOut(l, s) == rest;
    } else {
      TakeOutClass(rest, s, x);
      ClassAppend(TakeOut(rest, s), y, x);
    }
  }

  // ---------------------------------------------------------------------------
  // The graph in step with its caller
  // ---------------------------------------------------------------------------

  /** Classes have the sizes the caller expects, and every node holds all that was
    * added to its class since that was last empty. */
  ghost predicate Kept(g: Graph, steps: seq<Step>, U: iset<seq<Entry>>)
    reads g, g.N
  {
    && g.Valid() && g.U == U && Legal(steps, U) && SameSizes(g.live, Held(steps), U)
    && forall n | n in g.N :: n.sub.data in U && [n.sub] + n.overriden == Since(steps, n.sub.data)
  }

  lemma KeptMeans(g: Graph, steps: seq<Step>, U: iset<seq<Entry>>)
    ensures Kept(g, steps, U) <==>
      && g.Valid() && g.U == U && Legal(steps, U) && SameSizes(g.live, Held(steps), U)
      && forall n | n in g.N :: n.sub.data in U && [n.sub] + n.overriden == Since(steps, n.sub.data)
  {
    hide Legal, SameSizes;
  }

  lemma GraphMeans(g: Graph)
    requires g.Valid()
    ensures Preorder(g.U) && Fits(g.N, g.U) && From(g.live, g.U) && Classed(g.N, g.U, g.live)
    ensures forall n | n in g.N :: n.sub.data in g.U && 1 <= n.count == |Class(g.live, n.sub)|
  {
    hide Class, Twins, Preorder, Drawn;
  }

  /** Without a node there is no class. */
  lemma NoTwin(g: Graph, s: Subscription)
    requires g.Valid() && s.data in g.U
    ensures Twins(g.N, s) == {} ==> Size(g.live, s.data) == 0
  {
    hide Class, Twins, Drawn;
    if Twins(g.N, s) == {} { FoundIffLive(g.N, g.U, g.live, s, null); }
    SizeIsClass(g.live, s);
  }

  method EnterStep(g: Graph, s: Subscription, ghost steps: seq<Step>, ghost U: iset<seq<Entry>>)
    requires Kept(g, steps, U) && Fair(steps, Enter(s), U)
    modifies g, g.N, s`graphAttr
    ensures Kept(g, steps + [Enter(s)], U) && fresh(g.N - old(g.N))
  {
    hide *;
    KeptMeans(g, steps, U);
    GraphMeans(g);
    FairMeans(steps, Enter(s), U);
    NoTwin(g, s);
    ghost var l, N := g.live, g.N;
    g.Add(s);
    GraphMeans(g);
    LegalNext(steps, Enter(s), U);
    EnterSizes(l, steps, s, U);
    forall n | n in g.N ensures n.sub.data in U && [n.sub] + n.overriden == Since(steps + [Enter(s)], n.sub.data) {
      if n in N {
        EnterOld(N, steps, s, n, old(n.overriden), n.overriden);
      } else {
        EnterNew(l, steps, s, U);
        assert [s] + [] == [s];
      }
    }
    KeptMeans(g, steps + [Enter(s)], U);
  }

  lemma EnterOld(N: set<Node>, steps: seq<Step>, s: Subscription, n: Node, o: seq<Subscription>, all: seq<Subscription>)
    requires n in N && [n.sub] + o == Since(steps, n.sub.data) && all == o + if n in Twins(N, s) then [s] else []
    ensures [n.sub] + all == Since(steps + [Enter(s)], n.sub.data)
  {
    SinceStep(steps, Enter(s), n.sub.data);
    hide Since, Includes;
    assert [n.sub] + (o + [s]) == [n.sub] + o + [s] && o + [] == o;
  }

  lemma EnterNew(l: seq<Subscription>, steps: seq<Step>, s: Subscription, U: iset<seq<Entry>>)
    requires Preorder(U) && Legal(steps, U) && s.data in U && SameSizes(l, Held(steps), U) && Size(l, s.data) == 0
    ensures Since(steps + [Enter(s)], s.data) == [s]
  {
    hide *;
    SizesAt(l, Held(steps), U, s.data);
    SinceNone(steps, U, s.data);
    SelfEquivalent(U, s.data);
    SinceStep(steps, Enter(s), s.data);
    assert [] + [s] == [s];
  }

  lemma EnterSizes(l: seq<Subscription>, steps: seq<Step>, s: Subscription, U: iset<seq<Entry>>)
    requires SameSizes(l, Held(steps), U)
    ensures SameSizes(l + [s], Held(steps + [Enter(s)]), U)
  {
    hide *;
    HeldStep(steps, Enter(s));
    forall d | d in U ensures Size(l + [s], d) == Size(Held(steps + [Enter(s)]), d) {
      SizesAt(l, Held(steps), U, d);
      SizeAppend(l, s, d);
      SizeAppend(Held(steps), s, d);
    }
    SameSizesIf(l + [s], Held(steps + [Enter(s)]), U);
  }

  method LeaveStep(g: Graph, s: Subscription, ghost steps: seq<Step>, ghost U: iset<seq<Entry>>) returns (found: bool)
    requires Kept(g, steps, U) && Fair(steps, Leave(s), U)
    modifies g, g.N, s`graphAttr
    ensures Kept(g, steps + [Leave(s)], U) && g.N <= old(g.N) && found == (Size(Held(steps), s.data) != 0)
  {
    hide *;
    KeptMeans(g, steps, U);
    GraphMeans(g);
    FairMeans(steps, Leave(s), U);
    ghost var l := g.live;
    SizesAt(l, Held(steps), U, s.data);
    SizeIsClass(l, s);
    found := g.Remove(s);
    GraphMeans(g);
    LegalNext(steps, Leave(s), U);
    LeaveSizes(l, g.live, steps, s, U, found);
    forall n | n in g.N ensures n.sub.data in U && [n.sub] + n.overriden == Since(steps + [Leave(s)], n.sub.data) {
      SizesAt(g.live, Held(steps + [Leave(s)]), U, n.sub.data);
      SizeIsClass(g.live, n.sub);
      SinceStep(steps, Leave(s), n.sub.data);
    }
    KeptMeans(g, steps + [Leave(s)], U);
  }

  lemma LeaveSizes(l: seq<Subscription>, m: seq<Subscription>, steps: seq<Step>, s: Subscription, U: iset<seq<Entry>>,
                   found: bool)
    requires Preorder(U) && From(l, U) && Legal(steps, U) && SameSizes(l, Held(steps), U) && Fair(steps, Leave(s), U)
    requires s.data in U && found == (Size(l, s.data) != 0) && m == if found then DropNewest(l, s) else l
    ensures SameSizes(m, Held(steps + [Leave(s)]), U)
  {
    hide *;
    HeldFrom(steps, U);
    forall d | d in U ensures Size(m, d) == Size(Held(steps + [Leave(s)]), d) {
      SizesAt(l, Held(steps), U, d);
      SizesAt(l, Held(steps), U, s.data);
      SizeStep(steps, Leave(s), U, d);
      if found { DropSize(l, s, d, U); }
    }
    SameSizesIf(m, Held(steps + [Leave(s)]), U);
  }

  // ---------------------------------------------------------------------------
  // Reports
  // ---------------------------------------------------------------------------

  /** What the node reports is of its class. */
  ghost predicate Alike(h: Node, U: iset<seq<Entry>>)
    reads h`overriden, h`count
  {
    forall o | o in Reported(h) :: o.data in U && Equivalent(o.data, h.sub.data)
  }

  /** Of the class of a node that is hit, the report holds what that node reports... */
  lemma {:induction false} FlatOne(N: set<Node>, U: iset<seq<Entry>>, hits: seq<Node>, n: Node, x: Subscription)
    requires Fits(N, U) && NoDup(hits) && n in hits && x.data in U && n in Twins(N, x)
    requires forall h | h in hits :: h in N && Alike(h, U)
    ensures Class(Flat(hits), x) == Reported(n)
  {
    hide *;
    var k := |hits| - 1;
    var rest, h := hits[..k], hits[k];
    assert hits == rest + [h] && h in hits;
    FitsMeans(N, U);
    FlatLast(hits);
    ClassJoin(Flat(rest), Reported(h), x);
    OneTwin(N, U, x, n, h);
    NodeClassOf(h, x, U);
    if h == n {
      NotBefore(hits);
      FlatNone(N, U, rest, n, x);
      assert [] + Reported(n) == Reported(n);
    } else {
      DistinctPrefix(hits);
      FlatOne(N, U, rest, n, x);
      assert Reported(n) + [] == Reported(n);
    }
  }

  lemma FitsMeans(N: set<Node>, U: iset<seq<Entry>>)
    requires Fits(N, U)
    ensures Preorder(U) && forall n | n in N :: n.sub.data in U
  {}

  lemma FlatLast(hits: seq<Node>)
    requires hits != []
    ensures Flat(hits) == Flat(hits[..|hits| - 1]) + Reported(hits[|hits| - 1])
  {
    hide Reported;
  }

  lemma NotBefore(hits: seq<Node>)
    requires NoDup(hits) && hits != []
    ensures hits[|hits| - 1] !in hits[..|hits| - 1]
  {}

  lemma DistinctPrefix(hits: seq<Node>)
    requires NoDup(hits) && hits != []
    ensures NoDup(hits[..|hits| - 1])
  {}

  lemma NodeClassOf(h: Node, x: Subscription, U: iset<seq<Entry>>)
    requires Preorder(U) && h.sub.data in U && x.data in U && Alike(h, U)
    ensures Class(Reported(h), x) == if Equivalent(x.data, h.sub.data) then Reported(h) else []
  {
    hide Equivalent, Reported, Class, Preorder;
    EquivalentFlips(x.data, h.sub.data);
    if Equivalent(x.data, h.sub.data) {
      WholeClass(Reported(h), h, x, U);
    } else {
      NoneOfClass(Reported(h), h, x, U);
    }
  }

  /** ... and if no other is hit, nothing. */
  lemma {:induction false} FlatNone(N: set<Node>, U: iset<seq<Entry>>, hits: seq<Node>, n: Node, x: Subscription)
    requires Fits(N, U) && n !in hits && x.data in U && n in N && n in Twins(N, x)
    requires forall h | h in hits :: h in N && Alike(h, U)
    ensures Class(Flat(hits), x) == []
  {
    if hits != [] {
      var k := |hits| - 1;
      var rest, h := hits[..k], hits[k];
      assert hits == rest + [h] && h in hits;
      FitsMeans(N, U);
      FlatNone(N, U, rest, n, x);
      ClassJoin(Flat(rest), Reported(h), x);
      OneTwin(N, U, x, n, h);
      NodeClassOf(h, x, U);
      hide Equivalent, Reported, Class, Alike, Fits, Twins;
    }
  }

  lemma {:induction false} WholeClass(l: seq<Subscription>, h: Node, x: Subscription, U: iset<seq<Entry>>)
    requires Preorder(U) && h.sub.data in U && x.data in U && Equivalent(h.sub.data, x.data)
    requires forall o | o in l :: o.data in U && Equivalent(o.data, h.sub.data)
    ensures Class(l, x) == l
  {
    if l != [] {
      var o := l[|l| - 1];
      assert o in l && l == l[..|l| - 1] + [o];
      EquivalentTransitive(U, o.data, h.sub.data, x.data);
      hide Equivalent;
      WholeClass(l[..|l| - 1], h, x, U);
    }
  }

  lemma {:induction false} NoneOfClass(l: seq<Subscription>, h: Node, x: Subscription, U: iset<seq<Entry>>)
    requires Preorder(U) && h.sub.data in U && x.data in U && !Equivalent(x.data, h.sub.data)
    requires forall o | o in l :: o.data in U && Equivalent(o.data, h.sub.data)
    ensures Class(l, x) == []
  {
    if l != [] {
      var o := l[|l| - 1];
      assert o in l;
      EquivalentTransitive(U, o.data, h.sub.data, x.data);
      EquivalentFlips(h.sub.data, x.data);
      hide Equivalent;
      NoneOfClass(l[..|l| - 1], h, x, U);
    }
  }

  lemma {:induction false} FlatMembers(hits: seq<Node>, y: Subscription) returns (h: Node)
    requires y in Flat(hits)
    ensures h in hits && y in Reported(h)
  {
    var k := |hits| - 1;
    assert hits == hits[..k] + [hits[k]];
    if y in Reported(hits[k]) { h := hits[k]; } else { h := FlatMembers(hits[..k], y); }
  }

  /** What a matching node reports are the first of those added to its class since it was last empty. */
  lemma NodeReports(g: Graph, steps: seq<Step>, U: iset<seq<Entry>>, h: Node)
    requires Kept(g, steps, U) && h in g.N
    ensures Preorder(U) && Legal(steps, U) && h.sub.data in U && Alike(h, U)
    ensures var k, all := Size(Held(steps), h.sub.data), Since(steps, h.sub.data);
      1 <= k <= |all| && Reported(h) == all[..k]
  {
    hide *;
    KeptMeans(g, steps, U);
    GraphMeans(g);
    CountIs(g, h);
    SizesAt(g.live, Held(steps), U, h.sub.data);
    SizeIsClass(g.live, h.sub);
    SinceMembers(steps, U, h.sub.data);
    ReportedIs(h);
    AlikeIf(h, U, Since(steps, h.sub.data), h.count);
  }

  lemma CountIs(g: Graph, h: Node)
    requires g.Valid() && h in g.N
    ensures 1 <= h.count <= |h.overriden| + 1
  {
    hide Drawn, Class, Twins;
    assert Counts(h, g.U, g.live);
  }

  lemma ReportedIs(h: Node)
    requires 1 <= h.count <= |h.overriden| + 1
    ensures Reported(h) == ([h.sub] + h.overriden)[..h.count]
  {}

  lemma AlikeIf(h: Node, U: iset<seq<Entry>>, all: seq<Subscription>, k: nat)
    requires (forall o | o in all :: o.data in U && Equivalent(o.data, h.sub.data)) && k <= |all|
    requires Reported(h) == all[..k]
    ensures Alike(h, U)
  {
    hide Equivalent, Reported;
    forall o | o in all[..k] ensures o in all {}
  }

  /** Of the class of x the report holds the first of those added, as many as the caller holds, or nothing. */
  lemma ClassReported(g: Graph, steps: seq<Step>, U: iset<seq<Entry>>, e: Event, hits: seq<Node>, x: Subscription)
    requires Kept(g, steps, U) && SoundOn(U) && Lists(hits, Hits(g.N, e)) && x in Held(steps)
    ensures x.data in U && Size(Held(steps), x.data) <= |Since(steps, x.data)|
    ensures Class(Flat(hits), x) ==
      if Accepts(x.data, e) then Since(steps, x.data)[..Size(Held(steps), x.data)] else []
  {
    hide *;
    KeptMeans(g, steps, U);
    GraphMeans(g);
    HeldFrom(steps, U);
    FromAt(Held(steps), U, x);
    SelfEquivalent(U, x.data);
    SizeMember(Held(steps), x, x.data);
    SizesAt(g.live, Held(steps), U, x.data);
    NoTwin(g, x);
    var n := TwinNode(g.N, x, e);
    NodeReports(g, steps, U, n);
    SinceSame(steps, U, n.sub.data, x.data);
    SizeSame(Held(steps), n.sub.data, x.data, U);
    EquivalentAccept(U, n.sub, x, e);
    HitsKnown(g.N, e, hits, n);
    forall h | h in hits ensures h in g.N && Alike(h, U) { NodeReports(g, steps, U, h); }
    if Accepts(x.data, e) {
      FlatOne(g.N, U, hits, n, x);
    } else {
      FlatNone(g.N, U, hits, n, x);
    }
  }

  lemma TwinNode(N: set<Node>, x: Subscription, e: Event) returns (n: Node)
    requires Twins(N, x) != {}
    ensures n in N && n in Twins(N, x) && Equivalent(n.sub.data, x.data)
  {
    n :| n in Twins(N, x);
  }

  lemma HitsKnown(N: set<Node>, e: Event, hits: seq<Node>, n: Node)
    requires Lists(hits, Hits(N, e)) && n in N
    ensures NoDup(hits) && (n in hits <==> Accepts(n.sub.data, e)) && forall h | h in hits :: h in N
  {
    hide Accepts;
    assert n in Hits(N, e) <==> Accepts(n.sub.data, e);
    forall h | h in hits ensures h in N { assert h in Hits(N, e); }
  }

  /** Whatever is reported is of the class of something the caller holds. */
  lemma ReportHeld(g: Graph, steps: seq<Step>, U: iset<seq<Entry>>, e: Event, hits: seq<Node>, y: Subscription)
    returns (x: Subscription)
    requires Kept(g, steps, U) && SoundOn(U) && Lists(hits, Hits(g.N, e)) && y in Flat(hits)
    ensures x in Held(steps) && Accepts(x.data, e) && Equivalent(y.data, x.data)
  {
    hide *;
    KeptMeans(g, steps, U);
    GraphMeans(g);
    HeldFrom(steps, U);
    var h := FlatMembers(hits, y);
    HitListed(g.N, e, hits, h);
    HitsKnown(g.N, e, hits, h);
    NodeReports(g, steps, U, h);
    AlikeAt(h, U, y);
    x := SizeWitness(Held(steps), h.sub.data);
    FromAt(Held(steps), U, x);
    EquivalentAccept(U, x, h.sub, e);
    EquivalentFlips(x.data, h.sub.data);
    EquivalentFlips(y.data, h.sub.data);
    EquivalentFlips(y.data, x.data);
    EquivalentTransitive(U, h.sub.data, x.data, y.data);
  }

  lemma HitListed(N: set<Node>, e: Event, hits: seq<Node>, h: Node)
    requires Lists(hits, Hits(N, e)) && h in hits
    ensures h in N
  {
    assert h in Hits(N, e);
  }

  lemma AlikeAt(h: Node, U: iset<seq<Entry>>, y: Subscription)
    requires Alike(h, U) && y in Reported(h)
    ensures y.data in U && Equivalent(y.data, h.sub.data)
  {}

  // ---------------------------------------------------------------------------
  // Against the scan of the caller's list
  // ---------------------------------------------------------------------------

  /** A report that consists of the first members of each accepting class. */
  ghost predicate FirstOnes(steps: seq<Step>, U: iset<seq<Entry>>, e: Event, r: seq<Subscription>) {
    var l := Held(steps);
    && (forall x | x in l :: FirstOf(steps, e, r, x))
    && forall y | y in r :: exists x | x in l :: Accepts(x.data, e) && Equivalent(y.data, x.data)
  }

  lemma FirstOfAt(steps: seq<Step>, U: iset<seq<Entry>>, e: Event, r: seq<Subscription>, x: Subscription)
    requires FirstOnes(steps, U, e, r) && x in Held(steps)
    ensures FirstOf(steps, e, r, x)
  {
    hide FirstOf;
  }

  lemma FirstOfMeans(steps: seq<Step>, U: iset<seq<Entry>>, e: Event, r: seq<Subscription>, x: Subscription)
    requires FirstOnes(steps, U, e, r) && x in Held(steps)
    ensures Size(Held(steps), x.data) <= |Since(steps, x.data)|
    ensures Class(r, x) == if Accepts(x.data, e) then Since(steps, x.data)[..Size(Held(steps), x.data)] else []
  {
    assert FirstOf(steps, e, r, x);
    hide Since, Size, Held, Class, Accepts;
  }

  lemma LatestGoneMeans(steps: seq<Step>, d: seq<Entry>)
    ensures var k, all := Size(Held(steps), d), Since(steps, d);
      LatestGone(steps, d) <==> k <= |all| && multiset(all[k..]) == Gone(steps, d)
  {
    hide Size, Since, Gone, Held;
  }

  /** Of a class that accepts the event, what is reported is what the caller holds
    * if and only if the ones that were removed were added last. */
  lemma ClassRight(steps: seq<Step>, U: iset<seq<Entry>>, e: Event, r: seq<Subscription>, x: Subscription)
    requires Preorder(U) && SoundOn(U) && Legal(steps, U) && FirstOnes(steps, U, e, r) && x in Held(steps)
    ensures |Class(r, x)| == |Class(Scan(Held(steps), e), x)|
    ensures multiset(Class(r, x)) == multiset(Class(Scan(Held(steps), e), x)) <==>
      !Accepts(x.data, e) || LatestGone(steps, x.data)
  {
    hide *;
    FirstOfMeans(steps, U, e, r, x);
    HeldFrom(steps, U);
    FromAt(Held(steps), U, x);
    ScanClass(Held(steps), e, x, U);
    SizeIsClass(Held(steps), x);
    if Accepts(x.data, e) {
      Balance(steps, U, x);
      LatestGoneMeans(steps, x.data);
      SplitRight(Since(steps, x.data), Size(Held(steps), x.data), Class(Held(steps), x), Gone(steps, x.data));
    }
  }

  lemma SplitRight(all: seq<Subscription>, k: nat, c: seq<Subscription>, G: multiset<Subscription>)
    requires k <= |all| && multiset(c) + G == multiset(all)
    ensures multiset(all[..k]) == multiset(c) <==> multiset(all[k..]) == G
  {
    assert all == all[..k] + all[k..];
    SplitEvenly(multiset(all[..k]), multiset(all[k..]), multiset(c), G);
  }

  lemma SplitEvenly<T>(A: multiset<T>, B: multiset<T>, C: multiset<T>, D: multiset<T>)
    requires A + B == C + D
    ensures A == C <==> B == D
  {
    Remainder(A, B);
    Remainder(B, A);
    Remainder(C, D);
    Remainder(D, C);
  }

  lemma Remainder<T>(A: multiset<T>, B: multiset<T>)
    ensures (A + B) - A == B && A + B == B + A
  {}

  lemma ReportRight(steps: seq<Step>, U: iset<seq<Entry>>, e: Event, r: seq<Subscription>)
    requires Preorder(U) && SoundOn(U) && Legal(steps, U) && FirstOnes(steps, U, e, r)
    ensures multiset(r) == multiset(Scan(Held(steps), e)) <==>
      forall x | x in Held(steps) && Accepts(x.data, e) :: LatestGone(steps, x.data)
  {
    var l := Held(steps);
    hide *;
    if multiset(r) == multiset(Scan(l, e)) {
      forall x | x in l && Accepts(x.data, e) ensures LatestGone(steps, x.data) {
        ClassRight(steps, U, e, r, x);
        ClassMultisets(r, Scan(l, e), x);
      }
    }
    if forall x | x in l && Accepts(x.data, e) :: LatestGone(steps, x.data) {
      var A, B := multiset(r), multiset(Scan(l, e));
      forall y | y in A + B ensures A[y] == B[y] {
        var x := SomeHeld(steps, U, e, r, y);
        ClassRight(steps, U, e, r, x);
        ClassCount(r, x, y);
        ClassCount(Scan(l, e), x, y);
      }
      SameMultiset(A, B);
    }
  }

  lemma ClassMultisets(a: seq<Subscription>, b: seq<Subscription>, x: Subscription)
    requires multiset(a) == multiset(b)
    ensures multiset(Class(a, x)) == multiset(Class(b, x))
  {
    var A, B := multiset(Class(a, x)), multiset(Class(b, x));
    forall y | y in A + B ensures A[y] == B[y] {
      ClassCount(a, x, y);
      ClassCount(b, x, y);
    }
    SameMultiset(A, B);
  }

  lemma SomeHeld(steps: seq<Step>, U: iset<seq<Entry>>, e: Event, r: seq<Subscription>, y: Subscription)
    returns (x: Subscription)
    requires Preorder(U) && Legal(steps, U) && FirstOnes(steps, U, e, r)
    requires y in multiset(r) + multiset(Scan(Held(steps), e))
    ensures x in Held(steps) && Accepts(x.data, e) && Equivalent(y.data, x.data)
  {
    if y in r {
      x :| x in Held(steps) && Accepts(x.data, e) && Equivalent(y.data, x.data);
    } else {
      x := y;
      HeldFrom(steps, U);
      ScanAccepts(Held(steps), e, y);
      SelfEquivalent(U, y.data);
    }
  }

  lemma {:induction false} ScanAccepts(l: seq<Subscription>, e: Event, y: Subscription)
    requires y in Scan(l, e)
    ensures y in l && Accepts(y.data, e)
  {
    hide Accepts;
    var k := |l| - 1;
    assert l == l[..k] + [l[k]];
    if y in Scan(l[..k], e) { ScanAccepts(l[..k], e, y); }
  }

  method AskStep(g: Graph, e: Event, ghost steps: seq<Step>, ghost U: iset<seq<Entry>>) returns (r: seq<Subscription>)
    requires Kept(g, steps, U) && SoundOn(U)
    modifies g`nextId, g`pubs, g.N`last, g.N`tests, g.N`matches
    ensures Kept(g, steps + [Ask(e)], U) && Answered(steps, Ask(e), Told(r))
  {
    hide *;
    KeptMeans(g, steps, U);
    GraphMeans(g);
    var matched, tested;
    ghost var hits;
    r, matched, tested, hits := g.Match(e, []);
    KeptMeans(g, steps, U);
    assert r == Flat(hits) && r[0..] == r;
    HeldFrom(steps, U);
    SameScanSize(g.live, Held(steps), U, e);
    ReportFirst(g, steps, U, e, hits);
    ReportRight(steps, U, e, r);
    forall x | x in Held(steps)
      ensures FirstOf(steps, e, r, x) && |Class(r, x)| == |Class(Scan(Held(steps), e), x)|
    {
      FirstOfAt(steps, U, e, r, x);
      ClassRight(steps, U, e, r, x);
    }
    AnsweredIf(steps, e, r);
    AskKept(g, steps, U, e);
  }

  lemma AnsweredIf(steps: seq<Step>, e: Event, r: seq<Subscription>)
    requires |r| == |Scan(Held(steps), e)|
    requires forall x | x in Held(steps) :: FirstOf(steps, e, r, x) && |Class(r, x)| == |Class(Scan(Held(steps), e), x)|
    requires multiset(r) == multiset(Scan(Held(steps), e)) <==>
      forall x | x in Held(steps) && Accepts(x.data, e) :: LatestGone(steps, x.data)
    ensures Answered(steps, Ask(e), Told(r))
  {
    hide Held, Scan, Class, Accepts, LatestGone, FirstOf;
  }

  lemma ReportFirst(g: Graph, steps: seq<Step>, U: iset<seq<Entry>>, e: Event, hits: seq<Node>)
    requires Kept(g, steps, U) && SoundOn(U) && Lists(hits, Hits(g.N, e))
    ensures FirstOnes(steps, U, e, Flat(hits))
  {
    var l, r := Held(steps), Flat(hits);
    forall x | x in l ensures FirstOf(steps, e, r, x) {
      ClassReported(g, steps, U, e, hits, x);
    }
    forall y | y in r ensures exists x | x in l :: Accepts(x.data, e) && Equivalent(y.data, x.data) {
      var x := ReportHeld(g, steps, U, e, hits, y);
    }
    hide Held, Flat, Accepts, Equivalent, FirstOf;
  }

  lemma AskKept(g: Graph, steps: seq<Step>, U: iset<seq<Entry>>, e: Event)
    requires Kept(g, steps, U)
    ensures Kept(g, steps + [Ask(e)], U)
  {
    hide *;
    KeptMeans(g, steps, U);
    HeldStep(steps, Ask(e));
    FairAsk(steps, e, U);
    LegalNext(steps, Ask(e), U);
    forall n | n in g.N ensures Since(steps + [Ask(e)], n.sub.data) == Since(steps, n.sub.data) {
      SinceStep(steps, Ask(e), n.sub.data);
    }
    KeptMeans(g, steps + [Ask(e)], U);
  }

  lemma FairAsk(steps: seq<Step>, e: Event, U: iset<seq<Entry>>)
    ensures Fair(steps, Ask(e), U)
  {}

  /** Every run: additions, removals and matches in any order. */
  method Replay(steps: seq<Step>, ghost U: iset<seq<Entry>>) returns (answers: seq<Answer>)
    requires Preorder(U) && SoundOn(U) && Legal(steps, U)
    modifies (set i | 0 <= i < |steps| && !steps[i].Ask? :: steps[i].s)`graphAttr
    ensures |answers| == |steps| && forall i | 0 <= i < |steps| :: Answered(steps[..i], steps[i], answers[i])
  {
    hide *;
    var g := new Graph(U);
    KeptStart(g, U);
    answers := [];
    var i := 0;
    while i < |steps|
      invariant i == |answers| <= |steps| && Kept(g, steps[..i], U) && fresh(g) && forall n | n in g.N :: fresh(n)
      invariant forall j | 0 <= j < i :: Answered(steps[..j], steps[j], answers[j])
    {
      ghost var before, N := steps[..i], g.N;
      assert steps[..i + 1] == before + [steps[i]];
      LegalAt(steps, i, U);
      label L:
      match steps[i] {
        case Enter(s) =>
          EnterStep(g, s, before, U);
          assert forall n | n in g.N - N :: fresh@L(n);
          assert forall n | n in g.N :: n in N || n in g.N - N;
          AnsweredTaken(before, s);
          answers := answers + [Taken];
        case Leave(s) =>
          var found := LeaveStep(g, s, before, U);
          AnsweredDropped(before, s, found);
          answers := answers + [Dropped(found)];
        case Ask(e) =>
          var r := AskStep(g, e, before, U);
          answers := answers + [Told(r)];
      }
      i := i + 1;
    }
    assert steps[..i] == steps;
  }

  lemma KeptStart(g: Graph, U: iset<seq<Entry>>)
    requires g.Valid() && g.U == U && g.live == [] && g.N == {}
    ensures Kept(g, [], U)
  {}

  lemma LegalAt(steps: seq<Step>, i: nat, U: iset<seq<Entry>>)
    requires Legal(steps, U) && i < |steps|
    ensures Fair(steps[..i], steps[i], U)
  {
    hide Fair;
  }

  lemma AnsweredTaken(steps: seq<Step>, s: Subscription)
    ensures Answered(steps, Enter(s), Taken)
  {}

  lemma AnsweredDropped(steps: seq<Step>, s: Subscription, found: bool)
    requires found == (Size(Held(steps), s.data) != 0)
    ensures Answered(steps, Leave(s), Dropped(found))
  {}
}
