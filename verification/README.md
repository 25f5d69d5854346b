# GPyOpt `BO` control loop in Dafny

This project models the control loop of the `BO` class in GPyOpt
(`GPyOpt/core/bo.py`). `BO` drives Bayesian optimisation.

- **Construction** (`__init__`) fixes the defaults: `model_data_init` becomes
  `2 * input_dim` when it is `None`.
- **`start_optimization`** stores the acquisition settings and resets the
  acquisition counter. It then refits the surrogate on the seed data, seeds the
  traces of predicted means and deviations (`m_in_min`, `s_in_min`), and hands
  over to `continue_optimization`.
- **`continue_optimization`** repeats one pass. A pass appends the suggested
  batch to X, its objective values to Y and its predictions to the traces,
  counts one acquisition, and refits (`_update_model`). The loop stops:
  - when `max_iter` passes have completed;
  - when the last two rows of X are within `stop_criteria`;
  - when a refit hits a singular linear system (`LinAlgError`).

  At the end it prints one of two messages and returns the arg-min row of Y.
- **`_update_model`** re-optimises the hyperparameters only when the
  acquisition counter is a multiple of `model_optimize_interval`.
- **`change_to_sparseGP` and `change_to_standardGP`** are guarded mode switches.
  Each one rebuilds the surrogate.

The model is functional. `Controller` is an immutable record of the
optimiser's attributes, and the attributes that exist only after a start are
gathered in `Run`. Each operation is a pure function returning either a new
record or a `Fault`. The objective, GPy's prediction, the singular-refit
condition and the batch acquisition optimiser are oracles: total functions in
the `Oracles` datatype that the controller consumes without knowing how they
are computed.

Files:

- `wrappers.dfy`: `Option` and `Result`.
- `collaborators.dfy`: points, batches, the surrogate record and the oracles.
- `cadence.dfy`: the hyperparameter re-optimisation rule.
- `distance.dfy`: the stopping distance, computed without a square root.
- `state.dfy`: the configuration, the optimiser state, and one loop pass (append, refit).
- `loop.dfy`: the `while` loop of `continue_optimization`, as a recursive function and as a method.
- `best.dfy`: `argmin` and `min` over Y.
- `bo.dfy`: `start_optimization`, `continue_optimization` and the mode switches.

Modelling decisions:

- **Input dimension.** `input_dim` is an explicit argument of `NewConfig`.
  Line 23 reads `self.bounds`, but the constructor never assigns it; the
  `bounds` parameter is ignored.
- **Distance test.** `sqrt(s) > tol` is decided as `tol < 0 || s > tol * tol`.
  `FarApartIsRootComparison` proves that this is the same test for any
  non-negative root. The loop's initial distance `stop_criteria + 1` is the
  `Unmeasured` gap. Over the reals it always passes the test; see "Floating
  point" under "## Left out" for where binary64 differs.
- **One-row X.** With a single row in X, line 126 reads `X[-1]`, which is that
  row, so the distance is 0.
- **Refit failure.** The `LinAlgError` caught at lines 119-123 is the oracle
  `singular`, applied to the retrained surrogate (`Retrain`). `set_XY` runs
  first (lines 161/163), so after a failure the surrogate holds the new X and
  Y. The assignment of `suggested_sample` at line 167 is never reached, and
  the loop breaks before `k += 1`.
- **Cadence.** Line 164 tests Python's `%`, which is floored and takes the
  sign of the divisor; `PyMod` models it. The predicate `Due` counts the same
  cadence by stepping back the absolute value of the interval at a time, and `DueIsMultiple` proves
  the two agree for positive and negative intervals.

Behaviour of `bo.py` worth noting:

- `max_iter` is never validated. A negative budget runs no pass and reports
  "close samples collected", because `k == max_iter` fails.
- The closing message depends only on `k == max_iter`. A refit failure
  therefore reports close samples. A loop whose last allowed pass also
  produced close rows reports the iteration bound.
- Before any start, line 108 reads `optimization_started`, which only line 75
  assigns. On `BO` as written this raises `AttributeError`; a subclass that
  sets the flag to false gets the message of line 139 and `None`. The model
  reports `NotStarted` for both and leaves the state untouched.

## Model

| member | source | states |
|---|---|---|
| ControllerState.NewConfig | GPyOpt/core/bo.py:23-32 | `model_data_init` is `2 * input_dim` when it is `None` and the given value otherwise; the other settings are stored as given |
| ControllerState.NewController | GPyOpt/core/bo.py:17-32 | the constructor assigns no run attribute (no counter, traces, tolerance or start flag), so a new optimiser is not started; X, Y, the surrogate and the mode are subclass state taken as arguments, with X and Y paired |
| ControllerState.Refit | GPyOpt/core/bo.py:155-167 | a refit fails iff the retrained surrogate is singular; otherwise the surrogate holds X and Y and the normalising flag, keeps its mode, runs one extra hyperparameter search exactly when Python's `num_acquisitions % model_optimize_interval` is 0, and the next batch is the one the acquisition proposes from it |
| ControllerState.RefitSearchesOnMultiples | GPyOpt/core/bo.py:164-166 | a successful refit re-optimises the hyperparameters iff the counter is a multiple of the interval's size, counting from zero, for either sign of the interval |
| ControllerState.Append | GPyOpt/core/bo.py:112-118 | the suggested batch is appended to X, its objective values to Y and the current surrogate's predictions at it to both traces, with the counter one higher whatever the batch size; pairing of X, Y and the traces is preserved |
| ControllerState.Pass | GPyOpt/core/bo.py:112-124 | one pass appends, then refits; either way the surrogate has been handed the new X and Y; a singular refit keeps the appended rows and the previous suggested batch; otherwise the next batch comes from the refitted surrogate |
| Cadence.PyMod | GPyOpt/core/bo.py:164 | Python's remainder lies between 0 and the divisor, on the divisor's side, and is 0 exactly when the divisor divides the counter |
| Cadence.DueIsMultiple | GPyOpt/core/bo.py:164 | stepping back by the absolute value of the interval reaches zero exactly when Python's `counter % interval` is 0, for positive and negative intervals |
| Distance.SqDist | GPyOpt/core/bo.py:126 | a squared distance is never negative |
| Distance.FarApartIsRootComparison | GPyOpt/core/bo.py:126 | for a non-negative distance `d`, `d > tol` iff `FarApart(d*d, tol)`, so comparing squares decides the source's square-root test |
| Distance.SqDistSelf | GPyOpt/core/bo.py:126 | a row is at distance 0 from itself |
| Distance.RepeatedRowIsClose | GPyOpt/core/bo.py:111 | with a non-negative tolerance, two equal rows fail the loop's distance test |
| OptimizationLoop.Loop | GPyOpt/core/bo.py:109-126 | the loop completes at most `max_iter` passes, ends by the bound iff it completed at least `max_iter`, stops for closeness only after a failing distance test, counts one acquisition per completed pass plus one for a pass cut short by a singular refit, and keeps configuration, mode, tolerance and settings |
| OptimizationLoop.RunLoop | GPyOpt/core/bo.py:109-126 | the `while` loop over mutable locals computes the same final state, pass count and exit as the recursive definition |
| OptimizationLoop.LoopKeepsTracesAligned | GPyOpt/core/bo.py:112-118 | X, Y, `m_in_min` and `s_in_min` keep equal lengths through the loop |
| OptimizationLoop.PassAppendsOnly | GPyOpt/core/bo.py:112-118 | one pass keeps X, Y and both traces as prefixes, and every appended row of X has its objective value in Y |
| OptimizationLoop.LoopAppendsOnly | GPyOpt/core/bo.py:112-126 | the loop only appends to X, Y and the traces, and every row it appends to X is paired with its objective value in Y |
| OptimizationLoop.LoopStopsOnlyWhenClose | GPyOpt/core/bo.py:111-126 | a close-samples stop happens only when the measured distance between the last two rows of X is within the tolerance, or the incoming distance already was |
| OptimizationLoop.PassSingularKeepsBatch | GPyOpt/core/bo.py:112-123 | a pass cut short by a singular refit leaves the batch it appended as the suggested one, at the end of X, with its objective values at the end of Y |
| OptimizationLoop.SingularStopKeepsBatch | GPyOpt/core/bo.py:112-123 | a singular refit ends the loop before `k` reaches `max_iter`, with the batch being fitted still the suggested one, at the end of X, and its objective values at the end of Y |
| OptimizationLoop.LoopGrowsX | GPyOpt/core/bo.py:109-126 | the loop never removes rows from X |
| OptimizationLoop.LoopAttemptsAPass | GPyOpt/core/bo.py:109-115 | when the budget and the distance test allow, the loop appends at least one row and advances the counter |
| OptimizationLoop.CloseRowsEndLoop | GPyOpt/core/bo.py:111-126 | once a completed pass leaves the last two rows of X within the tolerance, the loop ends right after that pass, reporting close samples, or the bound if that pass was the last allowed |
| OptimizationLoop.RepeatedRowEndsLoop | GPyOpt/core/bo.py:124-126 | once a completed pass leaves two equal rows at the end of X, a non-negative tolerance ends the loop after that pass |
| Best.ArgMin | GPyOpt/core/bo.py:135 | `np.argmin(Y)` is an index of Y whose value is at most every entry and below every earlier entry |
| Best.Minimum | GPyOpt/core/bo.py:136 | `min(Y)` is an entry of Y that is at most every entry |
| Best.ArgMinAttainsMinimum | GPyOpt/core/bo.py:134-137 | `fx_opt`, computed by `min`, is the value of Y at the arg-min index `x_opt` is read from |
| BO.Initialize | GPyOpt/core/bo.py:57-75 | start resets the counter to 0, stores the tolerance, the batch size, both method names and the restart count (ten for `None`), and refits on X and Y with one hyperparameter search, since 0 is always due; then it seeds both traces with the refitted surrogate's predictions at every row of X; a singular initial refit is an error |
| BO.Continue | GPyOpt/core/bo.py:101-139 | before a start the call reports `NotStarted` and changes nothing; otherwise it runs the loop, keeps X, Y and the traces paired, reports "maximum iterations" iff `k == max_iter`, completes at most `max_iter` passes, adds one to the counter per completed pass plus one for a singular stop, and returns the first index where Y is least with its row of X and its value; an empty Y is an error |
| BO.Start | GPyOpt/core/bo.py:38-76 | start fails exactly when the initial refit does; otherwise it is continue on the initialised optimiser with the budget, and a `None` budget completes no pass and reports the iteration bound |
| BO.StartResetsCounter | GPyOpt/core/bo.py:57-76 | after a start the counter equals the passes made (plus one for a singular stop), and a start ends the same whatever run attributes an earlier start left behind |
| BO.DefaultStart | GPyOpt/core/bo.py:38-66 | with every default, start stores a batch size of 1, the `random` and `predmean` methods, ten restarts and tolerance `1e-6`, runs no pass and reports the iteration bound |
| BO.ContinueBeforeStart | GPyOpt/core/bo.py:101-139 | continuing a newly constructed optimiser reports that it was not started and changes nothing |
| BO.ContinueSingularStop | GPyOpt/core/bo.py:119-132 | after a refit failure the message is "close samples collected", and the sample being fitted stays at the end of X with its value at the end of Y |
| BO.ContinueEmptyData | GPyOpt/core/bo.py:109-135 | a positive budget always makes a pass; Y can be empty at the report only with no budget and no data, and then the call changed nothing |
| BO.ToSparse | GPyOpt/core/bo.py:84-89 | switching to sparse is refused iff already sparse; otherwise it records the inducing-point count, sets sparse, and rebuilds the surrogate on X and Y, changing nothing else |
| BO.ToStandard | GPyOpt/core/bo.py:95-99 | switching to standard is refused iff already standard; otherwise it clears sparse and rebuilds the surrogate on X and Y, changing nothing else |
| BO.SparseRoundTrip | GPyOpt/core/bo.py:84-99 | switching to sparse and back restores the optimiser, except for the recorded inducing-point count and the rebuilt surrogate |
| BO.RepeatedSwitchRefused | GPyOpt/core/bo.py:84-99 | repeating a successful switch is refused |

## Left out

- **GPy internals.** The surrogate's regression, likelihood and hyperparameter optimisation are GPy code. The surrogate is a record of what the controller handed it, and prediction is an oracle.
- **Square root in the trace.** The `np.sqrt` of the predicted variance (lines 74 and 118) is folded into the `predict` oracle's `sd` field.
- **Normalisation.** The statistics `(Y - mean) / std` (line 161) are floating point. The surrogate only records which branch ran.
- **Acquisition optimiser.** `batch_optimization` (line 146) is in a file that is not part of this model. It is the `acquire` oracle, which returns a non-empty batch.
- **`best_value`.** The `Y_best` trace (line 134) comes from a helper that is not part of this model.
- **Output.** Plotting (lines 169-186) and console output are left out.
- **Hyperparameter restart count.** The restart count and verbosity handed to `optimize_restarts` (line 166) only matter inside GPy. They are stored in the configuration but not used.
- **`_init_model`.** The method (line 35) is a hook the subclasses override. Rebuilding the surrogate is modelled as a fresh surrogate on X and Y in the requested mode.
- **Interval of `None` or 0.** `model_optimize_interval` must be non-zero. With `None` or 0, Python raises at the first refit. A negative interval is modelled, with Python's floored `%`.
- **Floating point.** Coordinates, objective values, distances and the tolerance are reals, not binary64. Rounding of the sum of squares and of `stop_criteria + 1`, infinities and NaN are not modelled.
- BO.ContinueEmptyData: "a positive budget always makes a pass" holds over the reals. In binary64 a tolerance so large that `stop_criteria + 1` rounds back to it (say `1e16`), or a NaN tolerance, fails the first test at line 111; the source then makes no pass and reports close samples.
- **Subclass state.** `X`, `Y`, `model`, `sparse` and `num_inducing` are assigned by the subclasses, not by lines 17-32. `NewController` takes them as arguments, with a surrogate freshly built on X and Y.
- **Acquisition back-reference.** Line 70 points `acquisition_func.model` at the surrogate only at a start. After a mode switch rebuilds the surrogate, the source's acquisition may still score with the old one until the next start. The model's `acquire` always receives the current surrogate.
- **Row widths.** Rows of X of differing widths are not rejected. numpy's `vstack` would raise on them. `SqDist` sums over the coordinates both rows have.
- **Raising a string.** The Python 2 string raises of lines 85 and 96 are the faults `AlreadySparse` and `AlreadyStandard`. The source's message for the second one also says "Sparse GP is already in use".
- **State before the loop.** `Continue` and `Start` require `Consistent` (X and Y of equal length). Every state the model constructs has this property; the source never checks it.
- **Python integer conversion.** A `None` `max_iter` passed to `continue_optimization` directly is not modelled. Only `start_optimization` converts it to 0.
- BO.Start: a singular initial refit propagates as an exception after lines 57-70 have already assigned attributes and GPy may have taken the new data. The model returns only the fault and says nothing about that partial state.
- ControllerState.Pass: after a singular refit the contract states that the surrogate holds the new X and Y, keeps its mode and is singular, and that `suggested_sample` is unchanged. It does not state the hyperparameter search count, because whether the search at line 166 ran before the error depends on where inside GPy the error arose.
