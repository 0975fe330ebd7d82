# GillesPy2 results: trajectories and ensembles, in Dafny

This project models the result containers of GillesPy2's stochastic simulations
(`gillespy2/core/results.py`) and proves properties of them.

- A `Trajectory` is one simulation run. It holds an insertion-ordered dict of named
  series, always with a `"time"` series. It also holds the model, the solver name, the
  return code, and the status looked up from that code.
- A `Results` is an ordered list of runs. It has these parts:
  - legacy indexing and attribute access that forward to the first run;
  - the homogeneity checks and the title built from them;
  - concatenation, where a solver mismatch only warns and a model mismatch is fatal;
  - the per-timestep ensemble mean and standard deviation;
  - the table layout and naming rule of the CSV export.

Modules, following the components of the source file:

| file | module | part of `results.py` |
|---|---|---|
| `trajectory.dfy` | `Trajectories` | the `Trajectory` class, the dict it wraps, the errors raised |
| `validator.dfy` | `EnsembleValidator` | `_validate_model`, `_validate_solver`, `_validate_title` |
| `results.dfy` | `Ensembles` | the `Results` class: `__getattribute__`, `__getitem__`, `__add__` |
| `aggregator.dfy` | `EnsembleAggregator` | `average_ensemble`, `stddev_ensemble` |
| `aggregator_properties.dfy` | `AggregatorProperties` | what the closed forms of the two aggregations promise |
| `export.dfy` | `CsvExport` | `to_csv`: the tables and the directory and file names |

Modelling choices:

- Trajectories and Results are values (datatypes). A Python dict becomes
  `OrderedDict(keys, values)`: the keys in insertion order plus a map. `Insert` models
  `d[key] = value`.
- Numbers are `real`. `math.sqrt` is the function parameter `root` of `StddevEnsemble`.
  `IsSqrt(root)` states only that `root(x)` is non-negative and squares to `x` for
  `x >= 0`, and the lemmas assume it. That such a root undoes squaring is proved
  (`SqrtOfSquare`).
- Warnings are returned flags, true exactly when the source calls `warnings.warn`.
- Exceptions are `Err` values of `Result`: `KeyError`, `IndexError`, `TypeError`,
  `AttributeError` and `ValidationError`. A crash the source does not guard against is a
  precondition instead. Examples: a later run with a species that run 0 lacks, and a
  series shorter than `time` in the export.
- A model of `None` is `NoModel`. `_validate_model(reference)` treats a `None` reference as
  "use run 0's model", so a `NoModel` reference means the same in `ValidateModel`. On an
  empty list that lookup raises `IndexError`, and the validators return it as `Err`.
- The aggregations are methods. Each allocates a zeroed array (`[0]*len`), accumulates run
  by run, then divides in place (and, for the deviation, takes the root in place). They
  are proved equal to `Sum / N` and `root(SumSquaredDeviations / (N - ddof))`. The loops
  are nested species first, then runs, then index. The source nests runs first, then the
  run's species, then index. Every cell still receives its additions in the same order,
  run 0 first, so the result is the same, even in floating point.
- A species that a later run does not have adds nothing to that cell. The source's loop
  only visits the run's own species. The divisor is still N.
- `stddev_ensemble` adds squared deviations only over the indices of run 0's `time`. Its
  output series still have run 0's lengths, and the cells past `time`'s length are
  `root(0 / (N - ddof))`. The model keeps this.

The model keeps the code's own behaviour at its edges:

- The status table is partial. Any return code other than 0 and 33 raises `KeyError`.
- `results["data"]` does not forward to run 0. It reaches `list.__getitem__` with a string
  and raises `TypeError`.
- Concatenating two empty Results raises `IndexError`, because `_validate_solver` reads
  `data[0]` of an empty list.
- `_validate_title` with consistent models whose model is `None` raises `AttributeError`.
- Negative `ddof` is not rejected: the divisor `N - ddof` is then larger than N, and the
  model allows it.
- The code does not check that series share `time`'s length or that `time` is
  non-decreasing. The model requires only what the loops need not to raise.

## Model

| member | source | states |
|---|---|---|
| `Trajectories.OrderedDict.Insert` | gillespy2/core/results.py:436-439 | `d[key] = value` keeps the dict valid; a new key is appended to the key order, an existing key keeps its place; the stored value is replaced |
| `Trajectories.NewTrajectory` | gillespy2/core/results.py:97-105 | return code 0 gives status "Success", 33 gives "Timed Out", any other code fails with `KeyError(rc)`; data, model and solver name are stored as given |
| `Trajectories.GetItem` | gillespy2/core/results.py:107-115 | an integer key returns the trajectory itself and warns; a string key succeeds exactly when it is a key and then returns that series, else `KeyError(key)`; only integer keys warn |
| `Trajectories.StatusDeterminesCode` | gillespy2/core/results.py:104-105 | the status of a constructed trajectory determines its return code: "Success" for 0, "Timed Out" for 33 |
| `Trajectories.LegacyIndexTransparent` | gillespy2/core/results.py:107-115 | the legacy spelling `trajectory[i][key]` reads the same as `trajectory[key]` |
| `EnsembleValidator.ValidateModel` | gillespy2/core/results.py:165-174 | with no reference on an empty list, `IndexError`; otherwise true iff every run's model equals the reference, which is run 0's model when none is given (an empty list with a reference is valid) |
| `EnsembleValidator.ValidateSolver` | gillespy2/core/results.py:176-185 | with no reference on an empty list, `IndexError`; otherwise true iff every run's solver name equals the reference, which is run 0's solver name when none is given (an empty list with a reference is valid) |
| `EnsembleValidator.ModelsConsistentPairwise` | gillespy2/core/results.py:165-174 | with the default reference, model validation holds iff every two runs have equal models |
| `EnsembleValidator.SolversConsistentPairwise` | gillespy2/core/results.py:176-185 | with the default reference, solver validation holds iff every two runs have equal solver names |
| `EnsembleValidator.SingleRunConsistent` | gillespy2/core/results.py:165-185 | a one-run list always validates its model and its solver |
| `EnsembleValidator.Title` | gillespy2/core/results.py:187-197 | `<model name> - <solver name>`, with "Multiple Models" / "Multiple Solvers" for whichever half fails validation; `IndexError` on no runs; `AttributeError` when the consistent model is `None` |
| `EnsembleValidator.TitleOrderInvariant` | gillespy2/core/results.py:187-197 | the title (or its error) of two ensembles put together is the same in either order |
| `EnsembleValidator.TitleOfHomogeneous` | gillespy2/core/results.py:187-197 | an ensemble of one model and one solver is titled `name - solver` |
| `Ensembles.GetItem` | gillespy2/core/results.py:138-147 | an integer is Python list indexing (negative from the end, `IndexError` out of range); `"data"` raises `TypeError`; any other string is run 0's lookup of that key (`IndexError` with no runs); the warning is emitted exactly for such a string key with more than one run |
| `Ensembles.NegativeIndexAgrees` | gillespy2/core/results.py:145-146 | `results[i - n]` and `results[i]` are the same run |
| `Ensembles.StringKeyIsFirstRunKey` | gillespy2/core/results.py:141-144 | `results[key]` reads what `results[0][key]` reads, without a warning on a one-run ensemble |
| `Ensembles.AttributeIsFirstRunAttribute` | gillespy2/core/results.py:130-134 | `results.model`, `.solver_name`, `.rc` and `.status` equal those of `results[0]` |
| `Ensembles.GetAttribute` | gillespy2/core/results.py:130-136 | `model`, `solver_name`, `rc` and `status` are run 0's values; `IndexError` exactly when there are no runs; warns exactly when there is more than one run |
| `Ensembles.Concat` | gillespy2/core/results.py:149-163 | succeeds iff the combined runs are non-empty and share run 0's model, and then holds exactly `self` runs followed by `other` runs; a model mismatch gives `ValidationError` and no Results; no runs gives `IndexError`; warns iff the solver check fails, even when the model check then fails |
| `Ensembles.ConcatValidates` | gillespy2/core/results.py:149-163 | a successful concatenation validates its model, and both operands were of that model |
| `Ensembles.ConcatOrderInvariant` | gillespy2/core/results.py:149-163 | whether concatenation succeeds, and whether it warns, is the same for `a + b` and `b + a` |
| `Ensembles.ConcatAssociative` | gillespy2/core/results.py:149-163 | with non-empty operands, `(a + b) + c` succeeds iff `a + (b + c)` does, and both then hold the same runs |
| `Ensembles.SameModelDifferentSolvers` | gillespy2/core/results.py:149-163 | two ensembles of one model and different solvers concatenate with the warning and keep all runs in order |
| `Ensembles.DifferentModels` | gillespy2/core/results.py:149-163 | two ensembles of different models fail with `ValidationError` |
| `EnsembleAggregator.MeanSeries` | gillespy2/core/results.py:436-453 | the accumulate-then-divide loops for one species give a series of run 0's length whose entry `k` is the sum over runs of entry `k` divided by N |
| `EnsembleAggregator.AverageEnsemble` | gillespy2/core/results.py:425-457 | one trajectory: run 0's keys in run 0's order, run 0's `time`, each other series of run 0's length holding the per-index mean; model and solver name from run 0, return code 0 and status "Success" |
| `EnsembleAggregator.AccumulateSquaredDeviations` | gillespy2/core/results.py:492-499 | the buffer ends with the sum over runs of `(x - mean)^2` at every index of `time`, and 0 beyond |
| `EnsembleAggregator.StddevSeries` | gillespy2/core/results.py:487-506 | each entry is the root of the squared-deviation sum divided by `N - ddof` |
| `EnsembleAggregator.StddevEnsemble` | gillespy2/core/results.py:459-509 | warns iff `ddof == N`, and then computes with `ddof` 0; one trajectory with run 0's keys, `time` and metadata, each other entry the root of the variance |
| `AggregatorProperties.TotalAppend` | gillespy2/core/results.py:441-447 | summing over two lists of runs one after the other is summing over their concatenation |
| `AggregatorProperties.TotalPermutation` | gillespy2/core/results.py:441-447 | the per-cell sum is the same for every reordering of the runs |
| `AggregatorProperties.TotalBounds` | gillespy2/core/results.py:441-447 | terms between `lo` and `hi` give a sum between `N*lo` and `N*hi` |
| `AggregatorProperties.MeanOrderInvariant` | gillespy2/core/results.py:441-453 | the mean of a cell does not depend on the order of the runs |
| `AggregatorProperties.SquaredDeviationsOrderInvariant` | gillespy2/core/results.py:492-499 | the squared-deviation sum does not depend on the order of the runs |
| `AggregatorProperties.MeanBetweenExtremes` | gillespy2/core/results.py:441-453 | when every run has the species, the mean lies between the smallest and largest value |
| `AggregatorProperties.MeanOfEqualValues` | gillespy2/core/results.py:441-453 | runs that agree on a value have that value as their mean |
| `AggregatorProperties.MeanOfConcatenation` | gillespy2/core/results.py:441-453 | the mean of a concatenation is the run-count-weighted mean of the parts |
| `AggregatorProperties.VarianceNonnegative` | gillespy2/core/results.py:492-505 | for `ddof < N` the value given to `sqrt` is never negative |
| `AggregatorProperties.StddevSquaresToVariance` | gillespy2/core/results.py:501-506 | each standard-deviation entry is non-negative and its square is the variance |
| `AggregatorProperties.SingleRunStddevZero` | gillespy2/core/results.py:479-506 | one run has variance 0 and standard deviation 0 everywhere |
| `AggregatorProperties.SqrtOfSquare` | gillespy2/core/results.py:505 | a root satisfying `IsSqrt` returns `y` for `y * y` when `y >= 0` |
| `AggregatorProperties.TwoRunExample` | gillespy2/core/results.py:425-509 | runs `A=[2,4]` and `A=[6,8]` have mean `[4,6]` and standard deviation `[2,2]`; `ddof == N` behaves as `ddof == 0` |
| `CsvExport.NatToString` | gillespy2/core/results.py:226 | `str(i)` is a non-empty string of decimal digits with no leading zero |
| `CsvExport.ParseNatToString` | gillespy2/core/results.py:226 | the digits of `str(i)` denote `i` |
| `CsvExport.NatToStringInjective` | gillespy2/core/results.py:226 | distinct indices have distinct `str(i)` |
| `CsvExport.PathJoin` | gillespy2/core/results.py:219-226 | an absolute second part replaces the first; otherwise the parts are concatenated directly when the first is empty or ends in `/`, and with one `/` between them otherwise |
| `CsvExport.FileNamesDistinct` | gillespy2/core/results.py:225-226 | two runs never get the same file name |
| `CsvExport.BuildHeader` | gillespy2/core/results.py:227-229 | the header is the run's keys in insertion order |
| `CsvExport.BuildRow` | gillespy2/core/results.py:234-236 | row `n` has one value per key, column `j` holding series `j`'s entry `n` |
| `CsvExport.BuildRows` | gillespy2/core/results.py:233-237 | one row per entry of `time`, each laid out as in `BuildRow` |
| `CsvExport.ToCsv` | gillespy2/core/results.py:199-237 | fails iff there is no nametag and the title fails, with the title's error; otherwise the directory is `<identifier><stamp>` under the path or `.`; run `i` gets file `<identifier><i>.csv` in it, with its keys as header and its table as rows |
| `CsvExport.ColumnsRecoverSeries` | gillespy2/core/results.py:227-237 | column `j` of a run's table is series `j` truncated to `time`'s length, so all of it when the lengths agree |
| `CsvExport.SingleRunTable` | gillespy2/core/results.py:227-237 | the run `{time: [0, 1], A: [5, 6]}` gives rows `[0, 5]` and `[1, 6]` |

## Left out

- Plotting (`plot`, `plotplotly`, `_plot_iterate`, `_plotplotly_iterate`, `plot_std_dev_range`, `plotplotly_std_dev_range`) and the colour palette: matplotlib and plotly calls and figure layout.
- The file system side of `to_csv`: `os.mkdir`, `open`, `csv.writer` quoting and number formatting, and the `datetime` time stamp. `stamp` is a parameter holding the stamp's text.
- `to_csv`'s `isinstance(self.data, list)` guard: `data` is always a list in the model.
- Slice keys of `Results.__getitem__`, and keys that are neither `int` nor `str`: only integer and string keys are modelled.
- The default arguments of `Trajectory.__init__`: `NewTrajectory` takes every argument explicitly.
- `gillespy2/solvers/utilities/cpp_support_test.py`: an environment probe that looks for executables and logs a warning, with no logic to model.
- `pickle` and the `warnings` machinery: warnings are returned flags.
- Floating-point rounding: values are exact reals. `math.sqrt` is the parameter `root`.
- Aliasing: the mean trajectory's `time` is the same list object as run 0's `time`. Values have no identity, so the model only says that the two are equal.
- In-place update of the output dict: the model builds the output dict by inserting each finished series, in run 0's key order.
- StddevEnsemble: requires `ddof <= N`. For `ddof > N` the divisor is negative and `math.sqrt` raises on a negative variance; the model does not cover this case.
- AverageEnsemble: requires the shape the loops need: at least one run, a `time` series in run 0, and every other series of every run present in run 0 and at least as long. Otherwise the source raises `IndexError` or `KeyError`.
- ConcatAssociative: holds only for non-empty operands. With empty ones the groupings can differ: `(empty + empty)` raises `IndexError`, while `empty + (empty + c)` can succeed.
