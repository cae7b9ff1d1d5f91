/** The one-pass counter of the statistics: mean, variance, minimum and maximum,
  * over the reals. */
module Counter {
  function Sum(l: seq<real>): real {
    if l == [] then 0.0 else Sum(l[..|l| - 1]) + l[|l| - 1]
  }

  function Square(x: real): real { x * x }

  /** The sum of the squared deviations from c. */
  function Deviations(l: seq<real>, c: real): real {
    if l == [] then 0.0 else Deviations(l[..|l| - 1], c) + Square(l[|l| - 1] - c)
  }

  /** The sum of the deviations from c. */
  function Excess(l: seq<real>, c: real): real {
    if l == [] then 0.0 else Excess(l[..|l| - 1], c) + (l[|l| - 1] - c)
  }

  /** The two-pass average. */
  function Mean(l: seq<real>): real
    requires l != []
  {
    Sum(l) / |l| as real
  }

  lemma Append(l: seq<real>, x: real, c: real)
    ensures Sum(l + [x]) == Sum(l) + x && Deviations(l + [x], c) == Deviations(l, c) + Square(x - c)
  {
    assert (l + [x])[..|l|] == l;
  }

  lemma {:induction false} ExcessIs(l: seq<real>, c: real)
    ensures Excess(l, c) == Sum(l) - |l| as real * c
  {
    if l != [] { ExcessIs(l[..|l| - 1], c); }
  }

  /** What n deviations that sum up to r gain by moving the centre by d. */
  function Shift(n: real, d: real, r: real): real { n * d * d + 2.0 * d * r }

  /** Moving the centre from m to c. */
  lemma {:induction false} Recentre(l: seq<real>, m: real, c: real)
    ensures Deviations(l, c) == Deviations(l, m) + Shift(|l| as real, m - c, Excess(l, m))
  {
    if l == [] {
      NoShift(m - c);
    } else {
      hide Shift, Square;
      var k := |l| - 1;
      Recentre(l[..k], m, c);
      ShiftStep(l[k], m, c, k as real, Excess(l[..k], m));
    }
  }

  lemma NoShift(d: real)
    ensures Shift(0.0, d, 0.0) == 0.0
  {}

  lemma ShiftStep(x: real, m: real, c: real, n: real, r: real)
    ensures Shift(n, m - c, r) + Square(x - c) == Square(x - m) + Shift(n + 1.0, m - c, r + (x - m))
  {
    var d, y := m - c, x - m;
    assert x - c == y + d;
    assert Square(y + d) == y * y + 2.0 * d * y + d * d;
    assert 2.0 * d * (r + y) == 2.0 * d * r + 2.0 * d * y;
    assert (n + 1.0) * d * d == n * d * d + d * d;
  }

  /** The mean m of n samples, moved by its share of one sample more. */
  function Moved(m: real, n: nat, x: real): real { m + (x - m) / (n as real + 1.0) }

  function Product(x: real, y: real): real { x * y }

  /** One sample more moves the mean by its share, and adds the product of its
    * distances from the old and the new mean to the squared deviations. */
  lemma OnePass(l: seq<real>, x: real, m: real)
    requires Sum(l) == Product(|l| as real, m)
    ensures Sum(l + [x]) == Product(|l + [x]| as real, Moved(m, |l|, x))
    ensures Deviations(l + [x], Moved(m, |l|, x)) == Deviations(l, m) + Product(x - m, x - Moved(m, |l|, x))
  {
    hide *;
    var n, m' := |l| as real, Moved(m, |l|, x);
    var d := m' - m;
    Append(l, x, m');
    Recentre(l, m, m');
    ExcessNone(l, m);
    ShareOf(x, m, |l|);
    ShiftBack(x - m, n, d);
    assert m - m' == -d && x - m' == (x - m) - d;
    assert |l + [x]| as real == n + 1.0;
  }

  lemma ExcessNone(l: seq<real>, m: real)
    requires Sum(l) == Product(|l| as real, m)
    ensures Excess(l, m) == 0.0
  {
    ExcessIs(l, m);
    hide Sum, Excess;
  }

  lemma ShareOf(x: real, m: real, k: nat)
    ensures Product(k as real + 1.0, Moved(m, k, x)) == Product(k as real, m) + x
    ensures Product(k as real + 1.0, Moved(m, k, x) - m) == x - m
  {
    var n := k as real;
    var d := (x - m) / (n + 1.0);
    assert Moved(m, k, x) == m + d;
    assert (n + 1.0) * (m + d) == (n + 1.0) * m + (n + 1.0) * d;
  }

  lemma ShiftBack(y: real, n: real, d: real)
    requires Product(n + 1.0, d) == y
    ensures Shift(n, -d, 0.0) + Square(y - d) == Product(y, y - d)
  {
    assert y - d == n * d;
    assert n * (-d) * (-d) == (n * d) * d;
    assert y * (y - d) == (y - d) * (y - d) + d * (y - d);
  }

  lemma {:induction false} SumBounds(l: seq<real>, lo: real, hi: real)
    requires forall x | x in l :: lo <= x <= hi
    ensures |l| as real * lo <= Sum(l) <= |l| as real * hi
  {
    if l != [] {
      var k := |l| - 1;
      assert forall x | x in l[..k] :: x in l;
      assert l[k] in l;
      SumBounds(l[..k], lo, hi);
    }
  }

  /** The fields after one sample more, from the fields before. */
  lemma SampleAdded(l: seq<real>, x: real, m: real)
    requires m == if l == [] then 0.0 else Mean(l)
    ensures Moved(m, |l|, x) == Mean(l + [x])
    ensures Deviations(l + [x], Moved(m, |l|, x)) ==
      (if l == [] then 0.0 else Deviations(l, m)) + Product(x - m, x - Moved(m, |l|, x))
  {
    hide *;
    OldMean(l, m);
    Empty(m);
    OnePass(l, x, m);
    MeanIs(l + [x], Moved(m, |l|, x));
  }

  lemma Empty(c: real)
    ensures Sum([]) == 0.0 && Deviations([], c) == 0.0
  {}

  lemma OldMean(l: seq<real>, m: real)
    requires l == [] || m == Mean(l)
    ensures Sum(l) == Product(|l| as real, m)
  {}

  lemma MeanIs(l: seq<real>, m: real)
    requires l != [] && Sum(l) == Product(|l| as real, m)
    ensures Mean(l) == m
  {}

  lemma SignOf(n: real, a: real)
    requires 0.0 < n && 0.0 <= n * a
    ensures 0.0 <= a
  {}

  lemma QuotientBetween(s: real, n: real, lo: real, hi: real)
    requires 0.0 < n && n * lo <= s <= n * hi
    ensures lo <= s / n <= hi
  {
    var q := s / n;
    assert n * q == s;
    assert n * (q - lo) == s - n * lo && n * (hi - q) == n * hi - s;
    SignOf(n, q - lo);
    SignOf(n, hi - q);
  }

  class SmartCounter {
    /** The samples so far. */
    ghost var all: seq<real>
    var samples: nat
    var mean: real
    var sumSquares: real
    var min: real
    var max: real

    /** The fields are what two passes over all samples would give. */
    ghost predicate Valid()
      reads this
    {
      && samples == |all|
      && (all == [] ==> mean == 0.0 && sumSquares == 0.0 && min == 0.0 && max == 0.0)
      && (all != [] ==> mean == Mean(all) && sumSquares == Deviations(all, Mean(all)))
      && (all != [] ==> min in all && max in all && forall x | x in all :: min <= x <= max)
    }

    constructor ()
      ensures Valid() && all == []
    {
      all, samples, mean, sumSquares, min, max := [], 0, 0.0, 0.0, 0.0, 0.0;
    }

    /** SmartCounter::add */
    method Add(sample: real)
      requires Valid()
      modifies this
      ensures Valid() && all == old(all) + [sample]
    {
      hide Sum, Mean, Deviations, Moved, Product;
      var prev := mean;
      ghost var l := all;
      if samples == 0 {
        min, max := sample, sample;
      } else if sample < min {
        min := sample;
      } else if sample > max {
        max := sample;
      }
      mean := Moved(mean, samples, sample);
      sumSquares := sumSquares + Product(sample - prev, sample - mean);
      SampleAdded(l, sample, prev);
      samples, all := samples + 1, l + [sample];
      assert all[|l|] == sample && forall x | x in l :: x in all;
    }

    /** SmartCounter::variance, the sample variance. */
    method Variance() returns (v: real)
      requires Valid()
      ensures v == if |all| <= 1 then 0.0 else Deviations(all, Mean(all)) / (|all| - 1) as real
    {
      if samples <= 1 { return 0.0; }
      v := sumSquares / (samples - 1) as real;
    }

    lemma MeanBetween()
      requires Valid() && all != []
      ensures min <= mean <= max
    {
      hide Sum, Deviations;
      SumBounds(all, min, max);
      QuotientBetween(Sum(all), |all| as real, min, max);
    }
  }
}
