/** Running statistics of a measurement: Welford's in-place mean and squared
    deviation with minimum and maximum (`common/src/lib.rs`), proved against the
    two-pass definitions over the whole history. `f64` is modelled as `real`. */
module Statistics {

  // ----- Two-pass reference definitions -----

  function Total(f: real -> real, xs: seq<real>): real {
    if xs == [] then 0.0 else Total(f, xs[..|xs| - 1]) + f(xs[|xs| - 1])
  }

  lemma TotalOfOne(f: real -> real, v: real)
    ensures Total(f, [v]) == f(v)
  {
    assert [v][..0] == [];
  }

  function Sum(xs: seq<real>): real {
    Total(x => x, xs)
  }

  /** Products are named so that facts about them carry over between lemmas. */
  function Times(a: real, b: real): real {
    a * b
  }

  function Square(a: real): real {
    a * a
  }

  function SquareFrom(c: real): real -> real {
    x => Square(x - c)
  }

  /** Sum of the squared deviations of `xs` from `c`. */
  function SqDev(xs: seq<real>, c: real): real {
    Total(SquareFrom(c), xs)
  }

  function Mean(xs: seq<real>): real
    requires xs != []
  {
    Sum(xs) / |xs| as real
  }

  function Least(xs: seq<real>): real
    requires xs != []
  {
    var v := xs[|xs| - 1];
    if |xs| == 1 then v
    else
      var m := Least(xs[..|xs| - 1]);
      if v < m then v else m
  }

  function Greatest(xs: seq<real>): real
    requires xs != []
  {
    var v := xs[|xs| - 1];
    if |xs| == 1 then v
    else
      var m := Greatest(xs[..|xs| - 1]);
      if v > m then v else m
  }

  /** The extremes are attained and bound every sample. */
  lemma {:induction false} ExtremesBound(xs: seq<real>)
    requires xs != []
    ensures Least(xs) in xs && Greatest(xs) in xs
    ensures forall x :: x in xs ==> Least(xs) <= x <= Greatest(xs)
  {
    if |xs| > 1 {
      ExtremesBound(xs[..|xs| - 1]);
      assert xs == xs[..|xs| - 1] + [xs[|xs| - 1]];
    }
  }

  // ----- The running record -----

  /** The fields that `update` writes. Before the first sample the source holds NaN;
      here the fields are then unspecified and only `samples` is meaningful. */
  datatype Stats = Stats(samples: nat, mean: real, variance: real, min: real, max: real) {

    function Update(value: real): Stats {
      var n := samples + 1;
      if n == 1 then
        Stats(n, value, 0.0, value, value)
      else
        var m := mean + (value - mean) / n as real;
        Stats(n, m, variance + Times(value - mean, value - m),
              if value < min then value else min, if value > max then value else max)
    }

    /** The accessor `variance()`: the accumulated squares over the sample count. */
    function Variance(): real
      requires samples > 0
    {
      variance / samples as real
    }
  }

  /** The record after all of `xs`, starting from any fresh record. */
  function After(s0: Stats, xs: seq<real>): Stats {
    if xs == [] then s0 else After(s0, xs[..|xs| - 1]).Update(xs[|xs| - 1])
  }

  /** What a record has to hold to describe the history `xs`. */
  ghost predicate Describes(s: Stats, xs: seq<real>) {
    && s.samples == |xs|
    && (xs != [] ==>
          && s.mean == Mean(xs)
          && s.variance == SqDev(xs, Mean(xs))
          && s.min == Least(xs)
          && s.max == Greatest(xs))
  }

  // ----- Algebra of squared deviations -----

  /** Moving the centre of the squared deviations from `c` to `d`. */
  lemma {:induction false} ShiftCentre(xs: seq<real>, c: real, d: real)
    ensures var n := |xs| as real;
            SqDev(xs, d) == SqDev(xs, c) + 2.0 * Times(c - d, Sum(xs) - Times(n, c)) + Times(n, Square(c - d))
  {
    if xs != [] {
      var ys, v := xs[..|xs| - 1], xs[|xs| - 1];
      ShiftCentre(ys, c, d);
      ShiftAlgebra(|ys| as real, c, d, v, Sum(ys));
    }
  }

  lemma ShiftAlgebra(n: real, c: real, d: real, v: real, s: real)
    ensures 2.0 * Times(c - d, s - Times(n, c)) + Times(n, Square(c - d)) + Square(v - d)
         == 2.0 * Times(c - d, s + v - Times(n + 1.0, c)) + Times(n + 1.0, Square(c - d)) + Square(v - c)
  {
    var t, a, r := c - d, v - c, s - n * c;
    assert Square(a + t) == Square(a) + 2.0 * (t * a) + Square(t);
    assert a + t == v - d;
    assert s + v - (n + 1.0) * c == r + a;
    assert t * (r + a) == t * r + t * a;
    assert (n + 1.0) * Square(t) == n * Square(t) + Square(t);
  }

  lemma SumIsMean(xs: seq<real>)
    requires xs != []
    ensures Sum(xs) == Times(|xs| as real, Mean(xs))
  {
  }

  /** One Welford step: the new mean and the new squared deviation. */
  lemma WelfordStep(xs: seq<real>, v: real)
    requires xs != []
    ensures var m := Mean(xs) + (v - Mean(xs)) / (|xs| as real + 1.0);
            && Mean(xs + [v]) == m
            && SqDev(xs + [v], m) == SqDev(xs, Mean(xs)) + Times(v - Mean(xs), v - m)
  {
    var ys := xs + [v];
    assert ys[..|ys| - 1] == xs;
    var k, c := |xs| as real, Mean(xs);
    var m := c + (v - c) / (k + 1.0);
    SumIsMean(xs);
    WelfordAlgebra(k, c, v, m);
    assert Sum(ys) == Sum(xs) + v;
    SumIsMean(ys);
    Cancel(k + 1.0, Mean(ys), m);
    ShiftCentre(xs, c, m);
    assert Times(c - m, 0.0) == 0.0;
  }

  lemma WelfordAlgebra(k: real, c: real, v: real, m: real)
    requires k > 0.0 && m == c + (v - c) / (k + 1.0)
    ensures Times(k + 1.0, m) == Times(k, c) + v
    ensures Times(k, Square(c - m)) + Square(v - m) == Times(v - c, v - m)
  {
    var e := m - c;
    assert (k + 1.0) * e == v - c;
    assert v - m == k * e;
    assert k * (e * e) + (k * e) * (k * e) == ((k + 1.0) * e) * (k * e);
    assert Square(c - m) == Square(e);
  }

  lemma Cancel(k: real, a: real, b: real)
    requires k > 0.0 && Times(k, a) == Times(k, b)
    ensures a == b
  {
    assert k * (a - b) == 0.0;
  }

  /** The in-place update refines the two-pass definition over every nonempty history. */
  lemma {:induction false} RefinesTwoPass(s0: Stats, xs: seq<real>)
    requires s0.samples == 0
    ensures Describes(After(s0, xs), xs)
  {
    if xs != [] {
      var ys, v := xs[..|xs| - 1], xs[|xs| - 1];
      assert xs == ys + [v];
      RefinesTwoPass(s0, ys);
      UpdateDescribes(After(s0, ys), ys, v);
    }
  }

  lemma UpdateDescribes(s: Stats, xs: seq<real>, v: real)
    requires Describes(s, xs)
    ensures Describes(s.Update(v), xs + [v])
  {
    UpdateMoments(s, xs, v);
    UpdateExtremes(s, xs, v);
  }

  lemma UpdateMoments(s: Stats, xs: seq<real>, v: real)
    requires s.samples == |xs|
    requires xs != [] ==> s.mean == Mean(xs) && s.variance == SqDev(xs, Mean(xs))
    ensures s.Update(v).mean == Mean(xs + [v])
    ensures s.Update(v).variance == SqDev(xs + [v], Mean(xs + [v]))
  {
    if xs == [] {
      assert xs + [v] == [v];
      TotalOfOne(x => x, v);
      TotalOfOne(SquareFrom(v), v);
      assert Mean([v]) == v / 1.0 == v;
      SquareSign(v - v);
    } else {
      WelfordStep(xs, v);
      assert (s.samples + 1) as real == |xs| as real + 1.0;
    }
  }

  lemma UpdateExtremes(s: Stats, xs: seq<real>, v: real)
    requires s.samples == |xs|
    requires xs != [] ==> s.min == Least(xs) && s.max == Greatest(xs)
    ensures s.Update(v).min == Least(xs + [v]) && s.Update(v).max == Greatest(xs + [v])
  {
    assert (xs + [v])[..|xs|] == xs;
  }

  // ----- The record depends on the multiset of samples only -----

  lemma {:induction false} TakeOut(f: real -> real, xs: seq<real>, i: nat)
    requires i < |xs|
    ensures Total(f, xs) == Total(f, xs[..i] + xs[i + 1..]) + f(xs[i])
  {
    var rest := xs[..i] + xs[i + 1..];
    var last := |xs| - 1;
    if i == last {
      assert rest == xs[..last];
    } else {
      TakeOut(f, xs[..last], i);
      assert rest[..|rest| - 1] == xs[..last][..i] + xs[..last][i + 1..];
    }
  }

  lemma BagWithout(ys: seq<real>, i: nat)
    requires i < |ys|
    ensures multiset(ys[..i] + ys[i + 1..]) == multiset(ys) - multiset{ys[i]}
  {
    assert ys == ys[..i] + [ys[i]] + ys[i + 1..];
  }

  lemma FindLast(xs: seq<real>, ys: seq<real>) returns (i: nat)
    requires multiset(xs) == multiset(ys) && xs != []
    ensures i < |ys| && ys[i] == xs[|xs| - 1]
    ensures multiset(ys[..i] + ys[i + 1..]) == multiset(xs[..|xs| - 1])
  {
    var last := |xs| - 1;
    assert xs[last] in multiset(xs);
    assert xs[last] in ys;
    i :| 0 <= i < |ys| && ys[i] == xs[last];
    BagWithout(xs, last);
    assert xs[..last] + xs[last + 1..] == xs[..last];
    BagWithout(ys, i);
  }

  lemma {:induction false} PermutationKeepsTotal(f: real -> real, xs: seq<real>, ys: seq<real>)
    requires multiset(xs) == multiset(ys)
    ensures Total(f, xs) == Total(f, ys)
    decreases |xs|
  {
    assert |xs| == |multiset(xs)| == |multiset(ys)| == |ys|;
    if xs != [] {
      var i := FindLast(xs, ys);
      PermutationKeepsTotal(f, xs[..|xs| - 1], ys[..i] + ys[i + 1..]);
      TakeOut(f, ys, i);
    }
  }

  /** Any two histories with the same samples leave the same record. */
  lemma OrderDoesNotMatter(s0: Stats, t0: Stats, xs: seq<real>, ys: seq<real>)
    requires s0.samples == t0.samples == 0 && xs != []
    requires multiset(xs) == multiset(ys)
    ensures After(s0, xs) == After(t0, ys)
  {
    assert |multiset(xs)| == |xs| && |multiset(ys)| == |ys|;
    RefinesTwoPass(s0, xs);
    RefinesTwoPass(t0, ys);
    PermutationKeepsTotal(x => x, xs, ys);
    PermutationKeepsTotal(SquareFrom(Mean(xs)), xs, ys);
    ExtremesBound(xs);
    ExtremesBound(ys);
    assert forall x :: x in xs <==> x in multiset(xs);
    assert forall x :: x in ys <==> x in multiset(ys);
  }

  // ----- Shape of the result -----

  lemma {:induction false} SumBetween(xs: seq<real>, lo: real, hi: real)
    requires forall x :: x in xs ==> lo <= x <= hi
    ensures Times(|xs| as real, lo) <= Sum(xs) <= Times(|xs| as real, hi)
  {
    if xs != [] {
      var ys, v := xs[..|xs| - 1], xs[|xs| - 1];
      assert v in xs && forall x :: x in ys ==> x in xs;
      SumBetween(ys, lo, hi);
      OneMore(|ys| as real, lo);
      OneMore(|ys| as real, hi);
    }
  }

  lemma OneMore(n: real, a: real)
    ensures Times(n + 1.0, a) == Times(n, a) + a
  {
  }

  lemma {:induction false} SqDevIsNonnegative(xs: seq<real>, c: real)
    ensures SqDev(xs, c) >= 0.0
    ensures SqDev(xs, c) == 0.0 <==> forall x :: x in xs ==> x == c
  {
    if xs != [] {
      var ys, v := xs[..|xs| - 1], xs[|xs| - 1];
      assert xs == ys + [v];
      SqDevIsNonnegative(ys, c);
      var a := v - c;
      SquareSign(a);
      assert SqDev(xs, c) == SqDev(ys, c) + a * a;
      if SqDev(xs, c) == 0.0 {
        assert v == c && SqDev(ys, c) == 0.0;
      } else {
        assert v in xs && forall x :: x in ys ==> x in xs;
      }
    }
  }

  lemma SquareSign(a: real)
    ensures Square(a) >= 0.0
    ensures Square(a) == 0.0 <==> a == 0.0
  {
    if a > 0.0 {
      PositiveProduct(a, a, Square(a));
    } else if a < 0.0 {
      PositiveProduct(-a, -a, Square(a));
    }
  }

  lemma PositiveProduct(a: real, b: real, c: real)
    requires a > 0.0 && b > 0.0 && c == a * b
    ensures c > 0.0
  {
  }

  /** `(hi - x)(x - lo) >= 0` for every sample, summed up. */
  lemma {:induction false} SpreadBound(xs: seq<real>, lo: real, hi: real, c: real)
    requires forall x :: x in xs ==> lo <= x <= hi
    ensures var n := |xs| as real;
            SqDev(xs, c) <= Times(hi + lo - 2.0 * c, Sum(xs) - Times(n, c)) + Times(n, Times(hi - c, c - lo))
  {
    if xs != [] {
      var ys, v := xs[..|xs| - 1], xs[|xs| - 1];
      assert v in xs && forall x :: x in ys ==> x in xs;
      SpreadBound(ys, lo, hi, c);
      SpreadAlgebra(|ys| as real, lo, hi, c, v, Sum(ys));
    }
  }

  lemma SpreadAlgebra(n: real, lo: real, hi: real, c: real, v: real, s: real)
    requires lo <= v <= hi
    ensures Times(hi + lo - 2.0 * c, s - Times(n, c)) + Times(n, Times(hi - c, c - lo)) + Square(v - c)
         <= Times(hi + lo - 2.0 * c, s + v - Times(n + 1.0, c)) + Times(n + 1.0, Times(hi - c, c - lo))
  {
    var p, q, a, r := hi - c, c - lo, v - c, s - n * c;
    assert (p - a) * (a + q) >= 0.0;
    assert (p - a) * (a + q) == (p - q) * a + p * q - a * a;
    assert Times(p - q, r + a) == (p - q) * r + (p - q) * a;
    assert s + v - (n + 1.0) * c == r + a;
    assert (n + 1.0) * Times(p, q) == n * Times(p, q) + Times(p, q);
    assert hi + lo - 2.0 * c == p - q;
  }

  lemma MeanWithinExtremes(s: Stats, xs: seq<real>)
    requires xs != [] && Describes(s, xs)
    ensures s.min <= s.mean <= s.max
  {
    SumIsMean(xs);
    ExtremesBound(xs);
    SumBetween(xs, s.min, s.max);
    AtMost(|xs| as real, s.min, s.mean);
    AtMost(|xs| as real, s.mean, s.max);
  }

  lemma VarianceWithinSpread(s: Stats, xs: seq<real>)
    requires xs != [] && Describes(s, xs)
    ensures 0.0 <= s.Variance() <= Times(s.max - s.mean, s.mean - s.min)
    ensures s.Variance() == 0.0 <==> s.variance == 0.0
  {
    var n, m := |xs| as real, s.mean;
    SumIsMean(xs);
    SqDevIsNonnegative(xs, m);
    ExtremesBound(xs);
    SpreadBound(xs, s.min, s.max, m);
    assert Times(s.max + s.min - 2.0 * m, 0.0) == 0.0;
    PerSample(n, s.variance, Times(s.max - m, m - s.min));
  }

  lemma ZeroVariance(s: Stats, xs: seq<real>)
    requires xs != [] && Describes(s, xs) && s.min <= s.mean <= s.max
    ensures s.variance == 0.0 <==> forall x, y :: x in xs && y in xs ==> x == y
  {
    SqDevIsNonnegative(xs, s.mean);
    ExtremesBound(xs);
    if forall x, y :: x in xs && y in xs ==> x == y {
      assert s.min == s.max == s.mean;
    }
  }

  lemma AtMost(n: real, a: real, b: real)
    requires n > 0.0 && Times(n, a) <= Times(n, b)
    ensures a <= b
  {
    assert n * (b - a) >= 0.0;
  }

  lemma PerSample(n: real, a: real, b: real)
    requires n > 0.0 && 0.0 <= a <= Times(n, b)
    ensures 0.0 <= a / n <= b && (a / n == 0.0 <==> a == 0.0)
  {
    assert Times(n, a / n) == a;
    AtMost(n, a / n, b);
  }

  lemma MiddleProduct(lo: real, m: real, hi: real)
    ensures Times(hi - m, m - lo) <= Square(hi - lo) / 4.0
  {
    var p, q := hi - m, m - lo;
    SquareSign(p - q);
    assert Square(p + q) == Square(p - q) + 4.0 * Times(p, q);
    assert p + q == hi - lo;
  }

  /** The mean lies between the extremes, the variance vanishes exactly for constant
      histories, and it is bounded by the distances of the mean from the extremes. */
  ghost predicate WellShaped(s: Stats, xs: seq<real>) {
    && s.samples > 0
    && s.min <= s.mean <= s.max
    && (s.Variance() == 0.0 <==> forall x, y :: x in xs && y in xs ==> x == y)
    && 0.0 <= s.Variance() <= Times(s.max - s.mean, s.mean - s.min) <= Square(s.max - s.min) / 4.0
  }

  /** `variance()` is the mean squared deviation from the mean. */
  lemma VarianceIsTwoPass(s0: Stats, xs: seq<real>)
    requires s0.samples == 0 && xs != []
    ensures After(s0, xs).samples > 0
    ensures Times(|xs| as real, After(s0, xs).Variance()) == SqDev(xs, Mean(xs))
  {
    RefinesTwoPass(s0, xs);
    CancelRatio(|xs| as real, After(s0, xs).variance);
  }

  lemma CancelRatio(n: real, a: real)
    requires n > 0.0
    ensures Times(n, a / n) == a
  {
  }

  lemma ShapeOfStatistics(s0: Stats, xs: seq<real>)
    requires s0.samples == 0 && xs != []
    ensures WellShaped(After(s0, xs), xs)
  {
    var s := After(s0, xs);
    RefinesTwoPass(s0, xs);
    MeanWithinExtremes(s, xs);
    ZeroVariance(s, xs);
    VarianceWithinSpread(s, xs);
    MiddleProduct(s.min, s.mean, s.max);
  }

  // ----- The object -----

  class RunningStatistics {
    var mean: real
    var variance: real
    var min: real
    var max: real
    var samples: nat
    ghost var history: seq<real>

    ghost predicate Valid()
      reads this
    {
      Describes(View(), history)
    }

    function View(): Stats
      reads this
    {
      Stats(samples, mean, variance, min, max)
    }

    /** The accessors `variance()` and `mean()`. */
    function CurrentVariance(): (v: real)
      requires Valid() && history != []
      reads this
      ensures Times(|history| as real, v) == SqDev(history, Mean(history))
    {
      CancelRatio(samples as real, variance);
      variance / samples as real
    }

    function CurrentMean(): (m: real)
      requires Valid() && history != []
      reads this
      ensures Times(|history| as real, m) == Sum(history)
    {
      SumIsMean(history);
      mean
    }

    constructor ()
      ensures Valid() && history == []
    {
      // The source stores NaN here.
      mean, variance, min, max, samples := 0.0, 0.0, 0.0, 0.0, 0;
      history := [];
    }

    method Update(value: real)
      requires Valid()
      modifies this
      ensures Valid() && history == old(history) + [value]
    {
      ghost var before := View();
      samples := samples + 1;
      if samples == 1 {
        mean := value;
        variance := 0.0;
        min := value;
        max := value;
      } else {
        var oldMean := mean;
        mean := oldMean + (value - oldMean) / samples as real;
        variance := variance + Times(value - oldMean, value - mean);
        min := if value < min then value else min;
        max := if value > max then value else max;
      }
      assert View() == before.Update(value);
      UpdateDescribes(before, history, value);
      history := history + [value];
    }
  }
}
