/** What the closed forms behind `average_ensemble` and `stddev_ensemble` promise: the result
    does not depend on the order of the runs, a mean lies between the smallest and largest
    value, the variance is never negative, one run has deviation zero, and the worked
    two-run example. */
module AggregatorProperties {
  import opened Trajectories
  import opened EnsembleAggregator

  lemma {:induction false} TotalAppend(a: seq<Trajectory>, b: seq<Trajectory>, term: Trajectory -> real)
    ensures Total(a + b, term) == Total(a, term) + Total(b, term)
    decreases |b|
  {
    if |b| == 0 {
      assert a + b == a;
    } else {
      var b' := b[..|b| - 1];
      assert (a + b)[..|a + b| - 1] == a + b';
      assert (a + b)[|a + b| - 1] == b[|b| - 1];
      TotalAppend(a, b', term);
    }
  }

  /** The reduction is commutative: any reordering of the runs gives the same total. */
  lemma {:induction false} TotalPermutation(a: seq<Trajectory>, b: seq<Trajectory>, term: Trajectory -> real)
    requires multiset(a) == multiset(b)
    ensures Total(a, term) == Total(b, term)
    decreases |a|
  {
    if |a| == 0 {
      assert |b| == |multiset(b)| == 0;
    } else {
      var x := a[|a| - 1];
      var a' := a[..|a| - 1];
      assert a == a' + [x];
      assert multiset(a) == multiset(a') + multiset{x};
      assert x in multiset(b);
      var j :| 0 <= j < |b| && b[j] == x;
      var b' := RemoveAt(b, j);
      TotalRemoveAt(b, j, term);
      TotalPermutation(a', b', term);
    }
  }

  /** `b` without its element at `j`. */
  function RemoveAt(b: seq<Trajectory>, j: nat): (r: seq<Trajectory>)
    requires j < |b|
    ensures |r| == |b| - 1
    ensures multiset(r) == multiset(b) - multiset{b[j]}
  {
    assert b == b[..j] + [b[j]] + b[j + 1..];
    b[..j] + b[j + 1..]
  }

  /** Taking one run out of the total takes out its term. */
  lemma {:induction false} TotalRemoveAt(b: seq<Trajectory>, j: nat, term: Trajectory -> real)
    requires j < |b|
    ensures Total(b, term) == Total(RemoveAt(b, j), term) + term(b[j])
  {
    var x, front, back := b[j], b[..j], b[j + 1..];
    assert b == (front + [x]) + back;
    assert RemoveAt(b, j) == front + back;
    TotalAppend(front + [x], back, term);
    TotalAppend(front, [x], term);
    TotalAppend(front, back, term);
    assert Total([x], term) == term(x) by {
      assert [x][..0] == [];
    }
  }

  lemma {:induction false} TotalBounds(runs: seq<Trajectory>, term: Trajectory -> real, lo: real, hi: real)
    requires forall i :: 0 <= i < |runs| ==> lo <= term(runs[i]) <= hi
    ensures (|runs| as real) * lo <= Total(runs, term) <= (|runs| as real) * hi
    decreases |runs|
  {
    if |runs| > 0 {
      var runs' := runs[..|runs| - 1];
      assert forall i :: 0 <= i < |runs'| ==> runs'[i] == runs[i];
      TotalBounds(runs', term, lo, hi);
    }
  }

  /** The mean of cell (`s`, `k`) is the same for every ordering of the runs. */
  lemma MeanOrderInvariant(a: seq<Trajectory>, b: seq<Trajectory>, s: string, k: nat)
    requires |a| > 0 && multiset(a) == multiset(b)
    ensures |b| > 0 && Mean(a, s, k) == Mean(b, s, k)
  {
    assert |a| == |multiset(a)| == |multiset(b)| == |b|;
    TotalPermutation(a, b, t => Contribution(t, s, k));
  }

  /** The sum of squared deviations around any centre is the same for every ordering. */
  lemma SquaredDeviationsOrderInvariant(a: seq<Trajectory>, b: seq<Trajectory>, s: string, k: nat, m: real)
    requires multiset(a) == multiset(b)
    ensures SumSquaredDeviations(a, s, k, m) == SumSquaredDeviations(b, s, k, m)
  {
    TotalPermutation(a, b, t => SquaredDeviation(t, s, k, m));
  }

  /** The mean of exactly the runs that have series `s` lies between the smallest and the
      largest of their values. */
  lemma MeanBetweenExtremes(runs: seq<Trajectory>, s: string, k: nat, lo: real, hi: real)
    requires |runs| > 0
    requires forall i :: 0 <= i < |runs| ==> s in runs[i].data.values && k < |runs[i].data.values[s]|
    requires forall i :: 0 <= i < |runs| ==> lo <= runs[i].data.values[s][k] <= hi
    ensures lo <= Mean(runs, s, k) <= hi
  {
    var term := t => Contribution(t, s, k);
    assert forall i :: 0 <= i < |runs| ==> term(runs[i]) == runs[i].data.values[s][k];
    TotalBounds(runs, term, lo, hi);
    var n := |runs| as real;
    assert n * lo <= Sum(runs, s, k) <= n * hi;
    DivideBounds(Sum(runs, s, k), n, lo, hi);
  }

  lemma DivideBounds(x: real, n: real, lo: real, hi: real)
    requires n > 0.0 && n * lo <= x <= n * hi
    ensures lo <= x / n <= hi
  {
    assert x / n * n == x;
  }

  /** When every run has the same value `v` in cell (`s`, `k`), that is the mean. */
  lemma MeanOfEqualValues(runs: seq<Trajectory>, s: string, k: nat, v: real)
    requires |runs| > 0
    requires forall i :: 0 <= i < |runs| ==> s in runs[i].data.values && k < |runs[i].data.values[s]|
    requires forall i :: 0 <= i < |runs| ==> runs[i].data.values[s][k] == v
    ensures Mean(runs, s, k) == v
  {
    MeanBetweenExtremes(runs, s, k, v, v);
  }

  /** The mean of a concatenation is the run-count-weighted mean of the parts. */
  lemma MeanOfConcatenation(a: seq<Trajectory>, b: seq<Trajectory>, s: string, k: nat)
    requires |a| > 0 && |b| > 0
    ensures (|a + b| as real) * Mean(a + b, s, k) == (|a| as real) * Mean(a, s, k) + (|b| as real) * Mean(b, s, k)
  {
    TotalAppend(a, b, t => Contribution(t, s, k));
  }

  /** The squared deviations, and so the variance for `ddof < N`, are never negative: the
      square root `stddev_ensemble` takes is always defined. */
  lemma VarianceNonnegative(runs: seq<Trajectory>, s: string, k: nat, ddof: int)
    requires |runs| > 0 && Time in runs[0].data.values && ddof < |runs|
    ensures Variance(runs, s, k, ddof) >= 0.0
  {
    var m := Mean(runs, s, k);
    var term := t => SquaredDeviation(t, s, k, m);
    forall i | 0 <= i < |runs| ensures 0.0 <= term(runs[i]) {
      var t := runs[i];
      if s in t.data.values && k < |t.data.values[s]| {
        var d := t.data.values[s][k] - m;
        assert d * d >= 0.0;
      }
    }
    NonnegativeTotal(runs, term);
  }

  lemma {:induction false} NonnegativeTotal(runs: seq<Trajectory>, term: Trajectory -> real)
    requires forall i :: 0 <= i < |runs| ==> 0.0 <= term(runs[i])
    ensures Total(runs, term) >= 0.0
    decreases |runs|
  {
    if |runs| > 0 {
      var runs' := runs[..|runs| - 1];
      assert forall i :: 0 <= i < |runs'| ==> runs'[i] == runs[i];
      NonnegativeTotal(runs', term);
    }
  }

  function Square(y: real): real {
    y * y
  }

  /** `math.sqrt` on the non-negative reals: the non-negative number whose square is its
      argument. */
  ghost predicate IsSqrt(root: real -> real) {
    forall x :: x >= 0.0 ==> root(x) >= 0.0 && Square(root(x)) == x
  }

  /** Squaring is strictly increasing on the non-negative reals. */
  lemma SquareIncreasing(r: real, y: real)
    requires 0.0 <= r < y
    ensures Square(r) < Square(y)
  {
    var d := y - r;
    assert r * d >= 0.0 && y * d > 0.0;
    assert Square(y) - Square(r) == r * d + y * d;
  }

  /** Non-negative square roots are unique. */
  lemma SquareInjective(r: real, y: real)
    requires r >= 0.0 && y >= 0.0 && Square(r) == Square(y)
    ensures r == y
  {
    if r < y {
      SquareIncreasing(r, y);
    } else if y < r {
      SquareIncreasing(y, r);
    }
  }

  /** So such a root undoes squaring on the non-negative reals. */
  lemma SqrtOfSquare(root: real -> real, y: real)
    requires IsSqrt(root) && y >= 0.0
    ensures root(Square(y)) == y
  {
    assert Square(y) >= 0.0;
    SquareInjective(root(Square(y)), y);
  }

  /** Each standard-deviation entry is non-negative and squares to the variance. */
  lemma StddevSquaresToVariance(runs: seq<Trajectory>, s: string, k: nat, ddof: int, root: real -> real)
    requires |runs| > 0 && Time in runs[0].data.values && ddof < |runs| && IsSqrt(root)
    ensures root(Variance(runs, s, k, ddof)) >= 0.0
    ensures Square(root(Variance(runs, s, k, ddof))) == Variance(runs, s, k, ddof)
  {
    VarianceNonnegative(runs, s, k, ddof);
  }

  /** A single run deviates from its own mean by nothing: its standard deviation is 0. */
  lemma SingleRunStddevZero(runs: seq<Trajectory>, s: string, k: nat, ddof: int, root: real -> real)
    requires |runs| == 1 && Time in runs[0].data.values && ddof < 1 && IsSqrt(root)
    ensures Variance(runs, s, k, ddof) == 0.0
    ensures root(Variance(runs, s, k, ddof)) == 0.0
  {
    var t := runs[0];
    assert runs[..0] == [];
    var m := Mean(runs, s, k);
    var sum := t' => Contribution(t', s, k);
    assert Total(runs, sum) == Total(runs[..0], sum) + sum(t);
    assert m == Contribution(t, s, k);
    var dev := t' => SquaredDeviation(t', s, k, m);
    assert Total(runs, dev) == Total(runs[..0], dev) + dev(t);
    assert SumSquaredDeviations(runs, s, k, m) == SquaredDeviation(t, s, k, m) == 0.0;
    assert Square(0.0) == 0.0;
    SqrtOfSquare(root, 0.0);
  }

  /** Two runs over `time = [0, 1]` with `A = [2, 4]` and `A = [6, 8]`: the mean of `A` is
      `[4, 6]` and its population standard deviation is `[2, 2]`, also when `ddof == N`. */
  lemma TwoRunExample(m: ModelRef, root: real -> real)
    requires IsSqrt(root)
    ensures var runs := [ExampleRun([2.0, 4.0], m), ExampleRun([6.0, 8.0], m)];
      Mean(runs, "A", 0) == 4.0 && Mean(runs, "A", 1) == 6.0 &&
      root(Variance(runs, "A", 0, EffectiveDdof(2, 0))) == 2.0 &&
      root(Variance(runs, "A", 1, EffectiveDdof(2, 0))) == 2.0 &&
      EffectiveDdof(2, 2) == EffectiveDdof(2, 0)
  {
    var r1, r2 := ExampleRun([2.0, 4.0], m), ExampleRun([6.0, 8.0], m);
    var runs := [r1, r2];
    assert runs[..1] == [r1] && [r1][..0] == [];
    forall k: nat | k < 2
      ensures Sum(runs, "A", k) == r1.data.values["A"][k] + r2.data.values["A"][k]
      ensures SumSquaredDeviations(runs, "A", k, Mean(runs, "A", k)) ==
        SquaredDeviation(r1, "A", k, Mean(runs, "A", k)) + SquaredDeviation(r2, "A", k, Mean(runs, "A", k))
    {
      var sum := t => Contribution(t, "A", k);
      assert Total(runs, sum) == Total([r1], sum) + sum(r2);
      assert Total([r1], sum) == Total([], sum) + sum(r1);
      var dev := t => SquaredDeviation(t, "A", k, Mean(runs, "A", k));
      assert Total(runs, dev) == Total([r1], dev) + dev(r2);
      assert Total([r1], dev) == Total([], dev) + dev(r1);
    }
    assert Square(2.0) == 4.0;
    SqrtOfSquare(root, 2.0);
  }

  function ExampleRun(a: seq<real>, m: ModelRef): Trajectory {
    Trajectory(OrderedDict(["time", "A"], map["time" := [0.0, 1.0], "A" := a]), m, "SSA", 0, "Success")
  }
}
