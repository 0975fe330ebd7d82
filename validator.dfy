/** The homogeneity checks of `Results` (`_validate_model`, `_validate_solver`) and the
    title built from them (`_validate_title`). */
module EnsembleValidator {
  import opened Trajectories

  /** Every run was produced by model `m`. */
  predicate AllModelsAre(runs: seq<Trajectory>, m: ModelRef) {
    forall i :: 0 <= i < |runs| ==> runs[i].model == m
  }

  /** Every run was produced by the solver named `s`. */
  predicate AllSolversAre(runs: seq<Trajectory>, s: string) {
    forall i :: 0 <= i < |runs| ==> runs[i].solverName == s
  }

  /** The model compared against: the argument unless it is `None`, else run 0's model
      (an empty list then raises IndexError, which the validators check first). */
  function ReferenceModel(runs: seq<Trajectory>, reference: ModelRef): ModelRef
    requires reference != NoModel || |runs| > 0
  {
    if reference != NoModel then reference else runs[0].model
  }

  function ReferenceSolver(runs: seq<Trajectory>, reference: Option<string>): string
    requires reference.Some? || |runs| > 0
  {
    if reference.Some? then reference.value else runs[0].solverName
  }

  /** `_validate_model(reference)`: a `None` reference is run 0's model, so on an empty list
      it raises IndexError; otherwise whether every run's model is the reference. */
  method ValidateModel(runs: seq<Trajectory>, reference: ModelRef) returns (r: Result<bool>)
    ensures r.Err? <==> reference == NoModel && |runs| == 0
    ensures r.Err? ==> r.error == IndexError
    ensures r.Ok? ==> (r.value <==> forall i :: 0 <= i < |runs| ==> runs[i].model == ReferenceModel(runs, reference))
  {
    if reference == NoModel && |runs| == 0 {
      return Err(IndexError);
    }
    var referenceModel := ReferenceModel(runs, reference);
    var isValid := true;
    for i := 0 to |runs|
      invariant isValid <==> forall j :: 0 <= j < i ==> runs[j].model == referenceModel
    {
      if runs[i].model != referenceModel {
        isValid := false;
      }
    }
    r := Ok(isValid);
  }

  /** `_validate_solver(reference)`: the same over solver names. */
  method ValidateSolver(runs: seq<Trajectory>, reference: Option<string>) returns (r: Result<bool>)
    ensures r.Err? <==> reference.None? && |runs| == 0
    ensures r.Err? ==> r.error == IndexError
    ensures r.Ok? ==> (r.value <==> forall i :: 0 <= i < |runs| ==> runs[i].solverName == ReferenceSolver(runs, reference))
  {
    if reference.None? && |runs| == 0 {
      return Err(IndexError);
    }
    var referenceSolver := ReferenceSolver(runs, reference);
    var isValid := true;
    for i := 0 to |runs|
      invariant isValid <==> forall j :: 0 <= j < i ==> runs[j].solverName == referenceSolver
    {
      if runs[i].solverName != referenceSolver {
        isValid := false;
      }
    }
    r := Ok(isValid);
  }

  /** What `_validate_model()` answers with its default reference, on a non-empty list. */
  predicate ModelsConsistent(runs: seq<Trajectory>)
    requires |runs| > 0
  {
    AllModelsAre(runs, runs[0].model)
  }

  /** What `_validate_solver()` answers with its default reference, on a non-empty list. */
  predicate SolversConsistent(runs: seq<Trajectory>)
    requires |runs| > 0
  {
    AllSolversAre(runs, runs[0].solverName)
  }

  const MultipleModels: string := "Multiple Models"
  const MultipleSolvers: string := "Multiple Solvers"
  const TitleSeparator: string := " - "

  /** `_validate_title()`: `<model name> - <solver name>`, each half replaced by its placeholder
      when the runs disagree on it. An empty list raises IndexError; `.name` of a `None`
      model raises AttributeError. */
  function Title(runs: seq<Trajectory>): (r: Result<string>)
    ensures |runs| == 0 ==> r == Err(IndexError)
    ensures |runs| > 0 ==> (r.Ok? <==> !ModelsConsistent(runs) || runs[0].model.Model?)
    ensures |runs| > 0 && r.Err? ==> r.error == AttributeError
    ensures r.Ok? ==> (|runs| > 0 && r.value ==
      (if ModelsConsistent(runs) then runs[0].model.name else MultipleModels)
      + TitleSeparator
      + (if SolversConsistent(runs) then runs[0].solverName else MultipleSolvers))
  {
    if |runs| == 0 then Err(IndexError)
    else if ModelsConsistent(runs) && runs[0].model.NoModel? then Err(AttributeError)
    else
      var titleModel := if ModelsConsistent(runs) then runs[0].model.name else MultipleModels;
      var titleSolver := if SolversConsistent(runs) then runs[0].solverName else MultipleSolvers;
      Ok(titleModel + TitleSeparator + titleSolver)
  }

  /** With the default reference, consistency is agreement of every pair of runs, so it
      depends only on which runs are present, not on their order. */
  lemma ModelsConsistentPairwise(runs: seq<Trajectory>)
    requires |runs| > 0
    ensures ModelsConsistent(runs) <==> forall x, y :: x in runs && y in runs ==> x.model == y.model
  {
  }

  lemma SolversConsistentPairwise(runs: seq<Trajectory>)
    requires |runs| > 0
    ensures SolversConsistent(runs) <==> forall x, y :: x in runs && y in runs ==> x.solverName == y.solverName
  {
  }

  /** A single run always validates against itself. */
  lemma SingleRunConsistent(t: Trajectory)
    ensures ModelsConsistent([t]) && SolversConsistent([t])
  {
  }

  /** The title of two ensembles put together does not depend on which comes first. */
  lemma {:induction false} TitleOrderInvariant(a: seq<Trajectory>, b: seq<Trajectory>)
    ensures Title(a + b) == Title(b + a)
  {
    var ab, ba := a + b, b + a;
    if |a| == 0 || |b| == 0 {
      assert ab == ba;
      return;
    }
    assert forall x :: x in ab <==> x in ba;
    ModelsConsistentPairwise(ab);
    ModelsConsistentPairwise(ba);
    SolversConsistentPairwise(ab);
    SolversConsistentPairwise(ba);
    if ModelsConsistent(ab) {
      assert ab[0] in ba && ba[0] in ab;
      assert ab[0].model == ba[0].model;
    }
    if SolversConsistent(ab) {
      assert ab[0] in ba && ba[0] in ab;
      assert ab[0].solverName == ba[0].solverName;
    }
  }

  /** The title of a homogeneous ensemble names its model and solver. */
  lemma TitleOfHomogeneous(runs: seq<Trajectory>, ident: nat, name: string, solver: string)
    requires |runs| > 0
    requires AllModelsAre(runs, Model(ident, name)) && AllSolversAre(runs, solver)
    ensures Title(runs) == Ok(name + " - " + solver)
  {
  }
}
