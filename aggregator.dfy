/** `average_ensemble` and `stddev_ensemble`: per-timestep mean and standard deviation across
    the runs of an ensemble, accumulated into freshly allocated zeroed buffers and then
    divided (and square-rooted), proved equal to the closed forms `Sum / N` and
    `sqrt(SumOfSquaredDeviations / (N - ddof))`. */
module EnsembleAggregator {
  import opened Trajectories
  import opened Ensembles

  /** What run `t` adds to cell (`s`, `k`): its value there, or nothing when it has no series
      `s` (the accumulation loop only visits the run's own species). */
  function Contribution(t: Trajectory, s: string, k: nat): real {
    if s in t.data.values && k < |t.data.values[s]| then t.data.values[s][k] else 0.0
  }

  /** The sum of `term` over the runs, added in run order (the accumulation loops visit the
      runs from first to last). */
  function Total(runs: seq<Trajectory>, term: Trajectory -> real): real
    decreases |runs|
  {
    if |runs| == 0 then 0.0
    else Total(runs[..|runs| - 1], term) + term(runs[|runs| - 1])
  }

  /** The sum over the runs of cell (`s`, `k`). */
  function Sum(runs: seq<Trajectory>, s: string, k: nat): real {
    Total(runs, t => Contribution(t, s, k))
  }

  function Mean(runs: seq<Trajectory>, s: string, k: nat): real
    requires |runs| > 0
  {
    Sum(runs, s, k) / (|runs| as real)
  }

  /** What run `t` adds to the squared-deviation sum of cell (`s`, `k`) around `m`. */
  function SquaredDeviation(t: Trajectory, s: string, k: nat, m: real): real {
    if s in t.data.values && k < |t.data.values[s]| then
      (t.data.values[s][k] - m) * (t.data.values[s][k] - m)
    else 0.0
  }

  function SumSquaredDeviations(runs: seq<Trajectory>, s: string, k: nat, m: real): real {
    Total(runs, t => SquaredDeviation(t, s, k, m))
  }

  /** What both aggregations demand of their input: at least one run (run 0 is read), run 0
      has a `time` series, and every other series of every run is a series of run 0 that is
      at least as long (otherwise the loops raise KeyError or IndexError). */
  ghost predicate Aligned(runs: seq<Trajectory>) {
    |runs| > 0 &&
    (forall i :: 0 <= i < |runs| ==> runs[i].Valid()) &&
    Time in runs[0].data.values &&
    forall i, s :: 0 <= i < |runs| && s in runs[i].data.values && s != Time ==>
      s in runs[0].data.values && |runs[i].data.values[s]| >= |runs[0].data.values[s]|
  }

  /** The standard deviation additionally walks every series of run 0 over `time`'s indices. */
  ghost predicate TimeAligned(runs: seq<Trajectory>) {
    Aligned(runs) &&
    forall s :: s in runs[0].data.values && s != Time ==>
      |runs[0].data.values[s]| >= |runs[0].data.values[Time]|
  }

  /** `ddof == N` is replaced by 0 (with a warning); every other value is used as given. */
  function EffectiveDdof(n: nat, ddof: int): int {
    if ddof == n then 0 else ddof
  }

  /** The variance in cell (`s`, `k`): squared deviations from the mean summed over `time`'s
      indices only (later cells keep their initial 0), divided by `N - ddof`. */
  function Variance(runs: seq<Trajectory>, s: string, k: nat, ddof: int): real
    requires |runs| > 0 && Time in runs[0].data.values && ddof < |runs|
  {
    var deviations := if k < |runs[0].data.values[Time]| then SumSquaredDeviations(runs, s, k, Mean(runs, s, k)) else 0.0;
    deviations / ((|runs| - ddof) as real)
  }

  /** `out` is what `average_ensemble` builds from `runs`: run 0's keys in run 0's order,
      run 0's `time`, every other series as long as run 0's and holding the per-index mean;
      model and solver name from run 0, return code 0. */
  ghost predicate IsMeanOf(out: Trajectory, runs: seq<Trajectory>)
    requires Aligned(runs)
  {
    var r0 := runs[0];
    out.Valid() &&
    out.data.keys == r0.data.keys &&
    out.model == r0.model && out.solverName == r0.solverName && out.rc == 0 && out.status == "Success" &&
    (forall s :: s in out.data.values <==> s in r0.data.values) &&
    out.data.values[Time] == r0.data.values[Time] &&
    forall s :: s in out.data.values && s != Time ==>
      |out.data.values[s]| == |r0.data.values[s]| &&
      forall k :: 0 <= k < |out.data.values[s]| ==> out.data.values[s][k] == Mean(runs, s, k)
  }

  /** `out` is what `stddev_ensemble(ddof)` builds: as `IsMeanOf`, but every non-time entry
      is `root` of the variance with divisor `N - ddof`. */
  ghost predicate IsStddevOf(out: Trajectory, runs: seq<Trajectory>, ddof: int, root: real -> real)
    requires Aligned(runs) && ddof < |runs|
  {
    var r0 := runs[0];
    out.Valid() &&
    out.data.keys == r0.data.keys &&
    out.model == r0.model && out.solverName == r0.solverName && out.rc == 0 && out.status == "Success" &&
    (forall s :: s in out.data.values <==> s in r0.data.values) &&
    out.data.values[Time] == r0.data.values[Time] &&
    forall s :: s in out.data.values && s != Time ==>
      |out.data.values[s]| == |r0.data.values[s]| &&
      forall k :: 0 <= k < |out.data.values[s]| ==> out.data.values[s][k] == root(Variance(runs, s, k, ddof))
  }

  lemma PrefixStep<T>(xs: seq<T>, i: nat)
    requires i < |xs|
    ensures xs[..i + 1][..i] == xs[..i] && xs[..i + 1][i] == xs[i] && |xs[..i + 1]| == i + 1
  {
  }

  /** The accumulate-then-divide loops of `average_ensemble` for one species `s`. */
  method MeanSeries(runs: seq<Trajectory>, s: string) returns (mean: seq<real>)
    requires Aligned(runs) && s in runs[0].data.values && s != Time
    ensures |mean| == |runs[0].data.values[s]|
    ensures forall k :: 0 <= k < |mean| ==> mean[k] == Mean(runs, s, k)
  {
    var len := |runs[0].data.values[s]|;
    var acc := new real[len](_ => 0.0);
    for i := 0 to |runs|
      invariant forall k :: 0 <= k < len ==> acc[k] == Sum(runs[..i], s, k)
    {
      PrefixStep(runs, i);
      var t := runs[i];
      if s in t.data.values {
        for k := 0 to len
          invariant forall j :: 0 <= j < k ==> acc[j] == Sum(runs[..i + 1], s, j)
          invariant forall j :: k <= j < len ==> acc[j] == Sum(runs[..i], s, j)
        {
          acc[k] := acc[k] + t.data.values[s][k];
        }
      }
    }
    assert runs[..|runs|] == runs;
    for k := 0 to len
      invariant forall j :: 0 <= j < k ==> acc[j] == Mean(runs, s, j)
      invariant forall j :: k <= j < len ==> acc[j] == Sum(runs, s, j)
    {
      acc[k] := acc[k] / (|runs| as real);
    }
    mean := acc[..];
  }

  /** `average_ensemble()`: a Results holding the one trajectory of per-index means. */
  method AverageEnsemble(res: Results) returns (avg: Results)
    requires Aligned(res.runs)
    ensures |avg.runs| == 1 && IsMeanOf(avg.runs[0], res.runs)
  {
    var r0 := res.runs[0];
    var keys := r0.data.keys;
    var d := EmptyDict();
    for j := 0 to |keys|
      invariant d.Valid() && d.keys == keys[..j]
      invariant Time in d.values ==> d.values[Time] == r0.data.values[Time]
      invariant forall s :: s in d.values && s != Time ==>
        |d.values[s]| == |r0.data.values[s]| &&
        forall k :: 0 <= k < |d.values[s]| ==> d.values[s][k] == Mean(res.runs, s, k)
    {
      PrefixStep(keys, j);
      var s := keys[j];
      assert s !in keys[..j];
      if s == Time {
        d := d.Insert(s, r0.data.values[Time]);
      } else {
        var mean := MeanSeries(res.runs, s);
        d := d.Insert(s, mean);
      }
    }
    assert keys[..|keys|] == keys;
    var made := NewTrajectory(d, r0.model, r0.solverName, 0);
    avg := Results([made.value]);
  }

  /** The accumulation loops of `stddev_ensemble` for one species `s`: over the runs that
      have `s`, add each squared deviation from `mean` to the first `time`-length cells. */
  method AccumulateSquaredDeviations(acc: array<real>, runs: seq<Trajectory>, s: string, mean: seq<real>)
    requires TimeAligned(runs) && s in runs[0].data.values && s != Time
    requires acc.Length == |mean| == |runs[0].data.values[s]|
    requires forall k :: 0 <= k < acc.Length ==> acc[k] == 0.0
    modifies acc
    ensures forall k :: 0 <= k < |runs[0].data.values[Time]| ==> acc[k] == SumSquaredDeviations(runs, s, k, mean[k])
    ensures forall k :: |runs[0].data.values[Time]| <= k < acc.Length ==> acc[k] == 0.0
  {
    var timeLen := |runs[0].data.values[Time]|;
    for i := 0 to |runs|
      invariant forall k :: 0 <= k < timeLen ==> acc[k] == SumSquaredDeviations(runs[..i], s, k, mean[k])
      invariant forall k :: timeLen <= k < acc.Length ==> acc[k] == 0.0
    {
      PrefixStep(runs, i);
      var t := runs[i];
      if s in t.data.values {
        for k := 0 to timeLen
          invariant forall j :: 0 <= j < k ==> acc[j] == SumSquaredDeviations(runs[..i + 1], s, j, mean[j])
          invariant forall j :: k <= j < timeLen ==> acc[j] == SumSquaredDeviations(runs[..i], s, j, mean[j])
          invariant forall j :: timeLen <= j < acc.Length ==> acc[j] == 0.0
        {
          assert SumSquaredDeviations(runs[..i + 1], s, k, mean[k]) ==
            SumSquaredDeviations(runs[..i], s, k, mean[k]) + SquaredDeviation(t, s, k, mean[k]);
          acc[k] := acc[k] + (t.data.values[s][k] - mean[k]) * (t.data.values[s][k] - mean[k]);
        }
      }
    }
    assert runs[..|runs|] == runs;
  }

  /** `stddev_ensemble`'s loops for one species `s`, given the mean series computed by
      `average_ensemble`: accumulate, then divide by `N - ddof` and take the root in place. */
  method StddevSeries(runs: seq<Trajectory>, s: string, mean: seq<real>, ddof: int, root: real -> real)
    returns (sd: seq<real>)
    requires TimeAligned(runs) && s in runs[0].data.values && s != Time && ddof < |runs|
    requires |mean| == |runs[0].data.values[s]|
    requires forall k :: 0 <= k < |mean| ==> mean[k] == Mean(runs, s, k)
    ensures |sd| == |runs[0].data.values[s]|
    ensures forall k :: 0 <= k < |sd| ==> sd[k] == root(Variance(runs, s, k, ddof))
  {
    var len := |runs[0].data.values[s]|;
    var acc := new real[len](_ => 0.0);
    AccumulateSquaredDeviations(acc, runs, s, mean);
    for k := 0 to len
      invariant forall j :: 0 <= j < k ==> acc[j] == root(Variance(runs, s, j, ddof))
      invariant forall j :: k <= j < len ==>
        acc[j] == if j < |runs[0].data.values[Time]| then SumSquaredDeviations(runs, s, j, Mean(runs, s, j)) else 0.0
    {
      acc[k] := acc[k] / ((|runs| - ddof) as real);
      acc[k] := root(acc[k]);
    }
    sd := acc[..];
  }

  /** `stddev_ensemble(ddof)`, with the flag telling whether the `ddof == N` warning is
      emitted; `math.sqrt` is the parameter `root`. */
  method StddevEnsemble(res: Results, ddof: int, root: real -> real) returns (sd: Results, warned: bool)
    requires TimeAligned(res.runs) && ddof <= |res.runs|
    ensures warned <==> ddof == |res.runs|
    ensures |sd.runs| == 1 && IsStddevOf(sd.runs[0], res.runs, EffectiveDdof(|res.runs|, ddof), root)
  {
    var n := |res.runs|;
    var divisorDdof := ddof;
    warned := false;
    if divisorDdof == n {
      warned := true;
      divisorDdof := 0;
    }
    var average := AverageEnsemble(res);
    var averageRun := average.runs[0];
    var r0 := res.runs[0];
    var keys := r0.data.keys;
    var d := EmptyDict();
    for j := 0 to |keys|
      invariant d.Valid() && d.keys == keys[..j]
      invariant Time in d.values ==> d.values[Time] == r0.data.values[Time]
      invariant forall s :: s in d.values && s != Time ==>
        |d.values[s]| == |r0.data.values[s]| &&
        forall k :: 0 <= k < |d.values[s]| ==> d.values[s][k] == root(Variance(res.runs, s, k, divisorDdof))
    {
      PrefixStep(keys, j);
      var s := keys[j];
      assert s !in keys[..j];
      if s == Time {
        d := d.Insert(s, r0.data.values[Time]);
      } else {
        var series := StddevSeries(res.runs, s, averageRun.data.values[s], divisorDdof, root);
        d := d.Insert(s, series);
      }
    }
    assert keys[..|keys|] == keys;
    var made := NewTrajectory(d, r0.model, r0.solverName, 0);
    sd := Results([made.value]);
  }
}
