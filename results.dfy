/** The ordered collection of runs: legacy indexing and attribute forwarding to the first
    run, and concatenation guarded by the homogeneity checks. */
module Ensembles {
  import opened Trajectories
  import opened EnsembleValidator

  datatype Results = Results(runs: seq<Trajectory>)
  {
    ghost predicate Valid() {
      forall i :: 0 <= i < |runs| ==> runs[i].Valid()
    }
  }

  /** Python's list indexing: `i` and `i - n` name the same element of a list of length `n`. */
  predicate InRange(n: nat, i: int) {
    -(n as int) <= i < n
  }

  function Position(n: nat, i: int): (p: nat)
    requires InRange(n, i)
    ensures p < n
    ensures 0 <= i ==> p == i
    ensures i < 0 ==> p == n + i
  {
    if i < 0 then n + i else i
  }

  /** `Results.__getitem__`, with the flag telling whether the ambiguity warning is emitted.
      An integer is plain list indexing; a string other than `"data"` is looked up in run 0,
      with a warning when there is more than one run; `"data"` reaches `list.__getitem__`
      with a string and raises TypeError. */
  function GetItem(res: Results, key: Key): (r: (Result<Item>, bool))
    requires res.Valid()
    ensures r.1 <==> key.Name? && key.s != "data" && |res.runs| > 1
    ensures key.Index? && InRange(|res.runs|, key.i) ==> r.0 == Ok(Run(res.runs[Position(|res.runs|, key.i)]))
    ensures key.Index? && !InRange(|res.runs|, key.i) ==> r.0 == Err(IndexError)
    ensures key == Name("data") ==> r.0 == Err(TypeError)
    ensures key.Name? && key.s != "data" && |res.runs| == 0 ==> r.0 == Err(IndexError)
    ensures key.Name? && key.s != "data" && |res.runs| > 0 ==> r.0 == Trajectories.GetItem(res.runs[0], key).0
  {
    match key
    case Name(s) =>
      if s == "data" then (Err(TypeError), false)
      else
        var warn := |res.runs| > 1;
        if |res.runs| == 0 then (Err(IndexError), warn)
        else (Trajectories.GetItem(res.runs[0], key).0, warn)
    case Index(i) =>
      if InRange(|res.runs|, i) then (Ok(Run(res.runs[Position(|res.runs|, i)])), false)
      else (Err(IndexError), false)
  }

  /** `results[i - n]` and `results[i]` are the same run of an `n`-run ensemble. */
  lemma NegativeIndexAgrees(res: Results, i: nat)
    requires res.Valid() && i < |res.runs|
    ensures GetItem(res, Index(i - |res.runs|)).0 == GetItem(res, Index(i)).0 == Ok(Run(res.runs[i]))
  {
  }

  /** The legacy `results[key]` reads what `results[0][key]` reads; it only adds the warning
      when the ensemble has more than one run. */
  lemma StringKeyIsFirstRunKey(res: Results, s: string)
    requires res.Valid() && |res.runs| > 0 && s != "data"
    ensures GetItem(res, Index(0)).0.Ok? && GetItem(res, Index(0)).0.value.Run?
    ensures GetItem(res, Name(s)).0 == Trajectories.GetItem(GetItem(res, Index(0)).0.value.run, Name(s)).0
    ensures |res.runs| == 1 ==> !GetItem(res, Name(s)).1
  {
  }

  /** The run attributes `Results.__getattribute__` forwards to run 0. */
  datatype Attribute = ModelAttr | SolverNameAttr | RcAttr | StatusAttr

  datatype AttributeValue = ModelValue(model: ModelRef) | TextValue(text: string) | CodeValue(code: int)

  /** The value of attribute `a` on one run. */
  function RunAttribute(t: Trajectory, a: Attribute): AttributeValue {
    match a
    case ModelAttr => ModelValue(t.model)
    case SolverNameAttr => TextValue(t.solverName)
    case RcAttr => CodeValue(t.rc)
    case StatusAttr => TextValue(t.status)
  }

  /** `results.model`, `results.solver_name`, `results.rc`, `results.status`: run 0's value,
      with a warning exactly when there is more than one run; IndexError when there is none. */
  function GetAttribute(res: Results, a: Attribute): (r: (Result<AttributeValue>, bool))
    ensures r.1 <==> |res.runs| > 1
    ensures |res.runs| == 0 <==> r.0 == Err(IndexError)
    ensures |res.runs| > 0 ==> r.0 == Ok(RunAttribute(res.runs[0], a))
  {
    if |res.runs| == 0 then (Err(IndexError), false)
    else (Ok(RunAttribute(res.runs[0], a)), |res.runs| > 1)
  }

  /** The legacy `results.model` (and the other forwarded attributes) equals `results[0].model`. */
  lemma AttributeIsFirstRunAttribute(res: Results, a: Attribute)
    requires res.Valid() && |res.runs| > 0
    ensures GetItem(res, Index(0)).0.Ok? && GetItem(res, Index(0)).0.value.Run?
    ensures GetAttribute(res, a).0 == Ok(RunAttribute(GetItem(res, Index(0)).0.value.run, a))
  {
  }

  const MultipleModelsMessage: string := "Results objects contain Trajectory objects from multiple models."

  /** `Results.__add__`, with the flag telling whether the multiple-solvers warning is emitted.
      The solver check only warns; a model mismatch raises ValidationError and no Results
      is returned; with no runs at all, `_validate_solver` raises IndexError first. */
  function Concat(self: Results, other: Results): (r: (Result<Results>, bool))
    ensures |self.runs + other.runs| == 0 ==> r == (Err(IndexError), false)
    ensures r.1 <==> |self.runs + other.runs| > 0 && !SolversConsistent(self.runs + other.runs)
    ensures r.0.Ok? <==> |self.runs + other.runs| > 0 && ModelsConsistent(self.runs + other.runs)
    ensures r.0.Ok? ==> r.0.value.runs == self.runs + other.runs
    ensures r.0.Ok? ==> |r.0.value.runs| == |self.runs| + |other.runs|
    ensures |self.runs + other.runs| > 0 && r.0.Err? ==> r.0.error == ValidationError(MultipleModelsMessage)
  {
    var combined := self.runs + other.runs;
    if |combined| == 0 then (Err(IndexError), false)
    else
      var warn := !SolversConsistent(combined);
      if !ModelsConsistent(combined) then (Err(ValidationError(MultipleModelsMessage)), warn)
      else (Ok(Results(combined)), warn)
  }

  /** A successful concatenation is itself a homogeneous ensemble: it validates its model. */
  lemma ConcatValidates(self: Results, other: Results)
    requires Concat(self, other).0.Ok?
    ensures var c := Concat(self, other).0.value; |c.runs| > 0 && ModelsConsistent(c.runs)
    ensures AllModelsAre(self.runs, Concat(self, other).0.value.runs[0].model)
    ensures AllModelsAre(other.runs, Concat(self, other).0.value.runs[0].model)
  {
    var c := self.runs + other.runs;
    forall i | 0 <= i < |self.runs| ensures self.runs[i].model == c[0].model {
      assert c[i] == self.runs[i];
    }
    forall i | 0 <= i < |other.runs| ensures other.runs[i].model == c[0].model {
      assert c[|self.runs| + i] == other.runs[i];
    }
  }

  /** Whether concatenation succeeds, and whether it warns, does not depend on the order
      of the operands. */
  lemma {:induction false} ConcatOrderInvariant(a: Results, b: Results)
    ensures Concat(a, b).0.Ok? <==> Concat(b, a).0.Ok?
    ensures Concat(a, b).1 <==> Concat(b, a).1
  {
    var ab, ba := a.runs + b.runs, b.runs + a.runs;
    if |ab| > 0 {
      assert forall x :: x in ab <==> x in ba;
      ModelsConsistentPairwise(ab);
      ModelsConsistentPairwise(ba);
      SolversConsistentPairwise(ab);
      SolversConsistentPairwise(ba);
    }
  }

  /** With no empty operand, concatenation is associative: both groupings succeed or both
      fail, and when they succeed they hold the same runs. */
  lemma {:induction false} ConcatAssociative(a: Results, b: Results, c: Results)
    requires |a.runs| > 0 && |b.runs| > 0 && |c.runs| > 0
    ensures var ab := Concat(a, b).0; var bc := Concat(b, c).0;
      (ab.Ok? && Concat(ab.value, c).0.Ok?) <==> (bc.Ok? && Concat(a, bc.value).0.Ok?)
    ensures var ab := Concat(a, b).0; var bc := Concat(b, c).0;
      ab.Ok? && Concat(ab.value, c).0.Ok? ==> Concat(ab.value, c).0.value == Concat(a, bc.value).0.value
  {
    var all := a.runs + b.runs + c.runs;
    assert all == a.runs + (b.runs + c.runs);
    var m := a.runs[0].model;
    assert all[0] == a.runs[0] && (a.runs + b.runs)[0] == a.runs[0] && (b.runs + c.runs)[0] == b.runs[0];
    if ModelsConsistent(all) {
      forall i | 0 <= i < |a.runs + b.runs| ensures (a.runs + b.runs)[i].model == m {
        assert (a.runs + b.runs)[i] == all[i];
      }
      forall i | 0 <= i < |b.runs + c.runs| ensures (b.runs + c.runs)[i].model == m {
        assert (b.runs + c.runs)[i] == all[|a.runs| + i];
      }
      assert b.runs[0].model == m;
    } else {
      var j :| 0 <= j < |all| && all[j].model != m;
      if j < |a.runs| + |b.runs| {
        assert (a.runs + b.runs)[j] == all[j];
        assert !ModelsConsistent(a.runs + b.runs);
      } else {
        assert (a.runs + b.runs)[|a.runs| + |b.runs| - 1] == b.runs[|b.runs| - 1];
        assert (b.runs + c.runs)[j - |a.runs|] == all[j];
        assert (b.runs + c.runs)[|b.runs| - 1] == b.runs[|b.runs| - 1];
        assert !ModelsConsistent(a.runs + b.runs) || !ModelsConsistent(b.runs + c.runs);
      }
    }
  }

  /** Two ensembles of one model run by different solvers concatenate with a warning and
      keep every run, in order. */
  lemma SameModelDifferentSolvers(a: Results, b: Results, m: ModelRef, sa: string, sb: string)
    requires |a.runs| > 0 && |b.runs| > 0 && sa != sb
    requires AllModelsAre(a.runs, m) && AllModelsAre(b.runs, m)
    requires AllSolversAre(a.runs, sa) && AllSolversAre(b.runs, sb)
    ensures Concat(a, b) == (Ok(Results(a.runs + b.runs)), true)
  {
    var c := a.runs + b.runs;
    forall i | 0 <= i < |c| ensures c[i].model == m {
      if i >= |a.runs| { assert c[i] == b.runs[i - |a.runs|]; }
    }
    assert c[|a.runs|] == b.runs[0];
  }

  /** Two ensembles of different models do not concatenate. */
  lemma DifferentModels(a: Results, b: Results, ma: ModelRef, mb: ModelRef)
    requires |a.runs| > 0 && |b.runs| > 0 && ma != mb
    requires AllModelsAre(a.runs, ma) && AllModelsAre(b.runs, mb)
    ensures Concat(a, b).0 == Err(ValidationError(MultipleModelsMessage))
  {
    var c := a.runs + b.runs;
    assert c[|a.runs|] == b.runs[0];
  }
}
