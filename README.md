# Student Performance Predictor: model selection and form validation in Dafny

This project models the two places in the Student Performance Predictor that hold logic of their own.

The first is the model trainer (`ModelTrainer.initiate_model_trainer`). It does the following, in order:

- splits the training and test matrices into features and target, taking the target from the last column;
- builds a registry of six regression families, plus CatBoost when that library imports;
- takes the name-to-score report produced by the evaluation helper;
- picks the highest score, breaking ties by the first family in report order;
- rejects a winner whose score is below 0.6;
- otherwise records a tracking run and saves the winning model.

The second is the browser script behind the prediction form. It does four things:

- validates each input and marks the `.form-group` around it with `error` or `success`;
- on submit, validates every input and blocks the submission unless all pass;
- clamps score inputs to [0, 100];
- colours a score input's border by score band.

Modules:

- `Wrappers`: `Option` and `Result`.
- `Entries`: name-keyed entries in insertion order (the registry and the report), their keys, their values, and key uniqueness.
- `ColumnSplit`: the split into features and target.
- `Registry`: the families, the optional CatBoost entry and the hyperparameter grids.
- `Selection`: maximum, first occurrence, and the 0.6 floor.
- `MetricKeys`: per-family metric keys.
- `Trainer`: the outcome function `Train`, and the class `ModelTrainer`.
  - Every effect on the tracking store and on the artifact file is an `Event` appended to the `trace` field of `ModelTrainer`.
  - `InitiateModelTrainer` does its work step by step and is proved to agree with `Train`.
- `TrainerProperties`: lemmas about `Train` over all inputs.
  - A run that was opened is always closed.
  - Every logging call happens inside the run.
  - The artifact is saved if and only if the call succeeds.
  - A best score below the floor starts no run.
  - The exact order of events on success.
- `Form`: the classes `FormGroup` (the `error`/`success` flags) and `Field` (an input element), and the methods `ValidateInput` and `Submit`.
- `ScoreInputs`: the colour bands, the clamp, and the `input` handler.

Scores are exact `real`s and are only compared. The tracking and file calls, the foreign estimators, the evaluation helper and number parsing are inputs to the model:

- `Environment` carries whether CatBoost imported and the evaluation report, or `None` if the helper raised.
- It also carries the winner's parameter string and four metrics, as the foreign libraries would report them.
- `failAt` names which call inside the tracking run raises, and `saveFails` whether saving raises.
- A form input carries the results of `parseFloat` and `parseInt` on its value, with `None` for NaN.

## Behaviour worth noting

- **The floor error is re-wrapped.** The "No best model found" exception is raised inside the `try` block, so the generic `except` wraps it again in the same exception type. `Failure` keeps the cause (`NoBestModel`) apart, but the caller sees one exception type for every failure.
- **Rejection still sets the experiment.** `mlflow.set_experiment` is called before the report is evaluated. So a rejected call still leaves one `SetExperiment` event in the trace, although it opens no run and saves nothing.
- **The registry is built inside the trainer.** It is not supplied by the caller. Names in the report that are not in the registry fail at `models[name]` (`UnknownModel`), and that failure comes before the 0.6 gate.
- **An empty, optional number input is invalid.** The validator parses the empty string to NaN, so such an input fails.

## Model

| member | source | states |
|---|---|---|
| `ColumnSplit.SplitLastColumn` | src/components/model_trainer.py:42-47 | fails exactly when the matrix has no column; otherwise keeps the row count, and every feature row is one column shorter |
| `ColumnSplit.ColumnStack` | tests/conftest.py:47-49 | each stacked row is the feature row, unchanged and first, followed by the target value |
| `ColumnSplit.SplitThenStack` | src/components/model_trainer.py:42-47 | putting the target back after the features rebuilds every original row, so the split loses nothing |
| `ColumnSplit.StackThenSplit` | tests/conftest.py:43-58 | splitting a matrix built as in the fixtures (`width` feature columns, then the score) recovers exactly those features and that target |
| `Registry.Build` | src/components/model_trainer.py:49-59 | the six base families in insertion order, then CatBoost seventh exactly when it imported; names are unique |
| `Registry.Lookup` | src/components/model_trainer.py:105 | `models[name]` fails exactly when the name is not registered; otherwise it returns an estimator registered under that name |
| `Registry.LookupAt` | src/components/model_trainer.py:105 | with unique names, looking up the i-th name returns the i-th estimator |
| `Registry.CatBoostPresence` | src/components/model_trainer.py:8-11 | "CatBoosting Regressor" is registered if and only if the optional import succeeded |
| `Registry.GridPoints` | src/components/model_trainer.py:61-87 | an empty grid is one search point, and a grid whose every parameter has candidate values has at least one point |
| `Registry.ParamsCoverRegistry` | src/components/model_trainer.py:49-87 | every family the registry can hold has a grid with at least one combination to search, and linear regression's grid is empty (a single default fit) |
| `Selection.Max` | src/components/model_trainer.py:99 | the maximum is one of the scores, and no score exceeds it |
| `Selection.IndexOf` | src/components/model_trainer.py:102-104 | `list.index` returns a position holding the value, with no earlier occurrence |
| `Selection.BestIndex` | src/components/model_trainer.py:99-104 | the winner's position holds the best score, nothing beats it, and every earlier entry scores strictly lower |
| `Entries.Values` | src/components/model_trainer.py:99 | `list(model_report.values())`: one score per entry, in report order |
| `Entries.Keys` | src/components/model_trainer.py:102-105 | one name per entry, in insertion order: `list(model_report.keys())`, and the names `models[name]` can find |
| `Selection.BestName` | src/components/model_trainer.py:102-104 | the winning name is the name of an entry that is the first maximum of the report |
| `Selection.BestNameIsFirstArgmax` | src/components/model_trainer.py:102-104 | with unique names, the winner is entry k if and only if k is the first maximum of the report |
| `Selection.FirstArgmaxUnique` | src/components/model_trainer.py:102-104 | a report has only one first maximum |
| `Selection.TieGoesToEarlier` | src/components/model_trainer.py:102-104 | when two entries tie at the top, the later one is never chosen |
| `Selection.BestScoreIsMaximum` | src/components/model_trainer.py:99 | the best score occurs in the report and bounds every score |
| `Selection.Accepts` | src/components/model_trainer.py:107-108 | the gate accepts a best score exactly when it is at least the 0.6 floor |
| `Selection.GateBoundary` | src/components/model_trainer.py:107-108 | the boundary of the strict `<` test: 0.6 itself passes and 0.59 is rejected |
| `MetricKeys.ReplaceSpaces` | src/components/model_trainer.py:138 | keeps the length; each space becomes `_`, and every other character is kept |
| `MetricKeys.MetricKey` | src/components/model_trainer.py:138 | the key has no space, is the sanitised name followed by `_r2`, and is three characters longer |
| `MetricKeys.ReplaceSpacesIdempotent` | src/components/model_trainer.py:138 | sanitising leaves a space-free name unchanged and is idempotent |
| `MetricKeys.RandomForestKey` | src/components/model_trainer.py:138 | "Random Forest" is logged as "Random_Forest_r2" |
| `MetricKeys.SameKeyIff` | src/components/model_trainer.py:138 | two names collide as keys if and only if they differ only by space versus underscore |
| `Trainer.Train` | src/components/model_trainer.py:39-151 | a call leaves no trace exactly when the split fails; otherwise the experiment is set first; success returns the winner's r2; any failure before the run leaves at most the experiment event |
| `Trainer.RecordAndSave` | src/components/model_trainer.py:113-148 | after acceptance the run is opened first; success returns the winner's r2 and ends with saving the winning estimator to `artifacts/model.pkl`; the only failures are a raising tracking call or a raising save, and a failed save follows a normally closed run |
| `Trainer.ModelTrainer.constructor` | src/components/model_trainer.py:36-37 | a new trainer has had no effects |
| `Trainer.ModelTrainer.Track` | src/components/model_trainer.py:113-138 | a call inside the run is skipped after an earlier call raised; it raises when it is the faulty one; otherwise it is appended |
| `Trainer.ModelTrainer.RecordBestModel` | src/components/model_trainer.py:113-140 | appends the run start, the calls up to the first that raises, and the run end (failed or finished); reports whether a call raised |
| `Trainer.ModelTrainer.SaveAfterRun` | src/components/model_trainer.py:113-148 | after the run, saves the winner only if the run closed normally, and returns its r2 only if saving succeeded too |
| `Trainer.ModelTrainer.InitiateModelTrainer` | src/components/model_trainer.py:39-151 | returns exactly `Train`'s result and appends exactly `Train`'s events to the trace |
| `TrainerProperties.RunCallsAreCalls` | src/components/model_trainer.py:115-138 | everything logged inside the run is a parameter, metric or model call |
| `TrainerProperties.FamilyMetricsFollowReport` | src/components/model_trainer.py:137-138 | one metric per report entry, in report order, under the entry's space-free key and with its score |
| `TrainerProperties.RunIsBracketed` | src/components/model_trainer.py:113-140 | a start, logging calls and an end, between set-experiment and save events, form a well-bracketed trace |
| `TrainerProperties.TailBracketed` | src/components/model_trainer.py:113-146 | what follows acceptance is well-bracketed, whether a call raises, saving raises, or all succeed |
| `TrainerProperties.RunAlwaysClosed` | src/components/model_trainer.py:113-140 | on every path: either no run event at all, or exactly one start and one later end, with every logging call between them |
| `TrainerProperties.SuccessTrace` | src/components/model_trainer.py:113-148 | on success: run start; model_name; best_params; r2, mae, mse, rmse; model artifact; per-family metrics; run end; save of the registry object. The call returns the winner's r2 |
| `TrainerProperties.SavedIffSucceeded` | src/components/model_trainer.py:143-148 | the artifact is saved if and only if the call succeeds |
| `TrainerProperties.NoSaveOnFailure` | src/components/model_trainer.py:107-151 | no failure path, from the split to the save, saves anything |
| `TrainerProperties.TailSavesNothingOnFailure` | src/components/model_trainer.py:113-146 | when the run or the save fails after acceptance, nothing is saved |
| `TrainerProperties.RunOnlyWhenAccepted` | src/components/model_trainer.py:107-113 | a run starts only when the best score passed the floor; below it, no run starts and nothing is saved |
| `TrainerProperties.RejectedBelowFloor` | src/components/model_trainer.py:107-108 | below 0.6 the call fails with "No best model found", after setting the experiment and nothing else |
| `TrainerProperties.AcceptedAtFloor` | src/components/model_trainer.py:107-148 | a best score of exactly 0.6 is accepted, and with no failing call the winner's r2 is returned |
| `TrainerProperties.WinnerIsRegistryEntry` | src/components/model_trainer.py:102-105 | when the report lists the registry's families in order, the winning name is always found and maps to the registry entry at the winning position |
| `Form.ValidateInput` | static/js/main.js:80-106 | returns `Passes`: true without a group, otherwise the rule. Validation touches the group except for an empty, optional, non-number input; a touched group keeps exactly one of `error`/`success`, set according to the result; an untouched group is unchanged. A false result always leaves `error` set. The group's new classes are those that `Mark` of the input prescribes, which is how `Submit` and its lemmas reason about groups shared between inputs |
| `Form.Acceptable` | static/js/main.js:84-101 | the rule: a passing number input is never empty, required or not (`parseFloat("")` is NaN); any other input fails only when it is required and empty |
| `Form.Touches` | static/js/main.js:84-103 | an input that leaves its group's classes alone is empty and passes |
| `Form.Passes` | static/js/main.js:80-105 | an input that fails always sits in a group and marks it |
| `Form.Submit` | static/js/main.js:59-74 | every input is validated; submission proceeds if and only if all pass; each group carries the mark of the last input that marked it, or its old classes |
| `Form.ValidationCases` | static/js/main.js:84-105 | the cases of the rule: an empty required input fails; a number input passes if and only if it parses to a number in [0, 100]; other non-empty inputs pass; an empty, optional, non-number input passes untouched |
| `Form.SoleInputMarksItsGroup` | static/js/main.js:60-66 | a group holding a single input ends with that input's mark, whatever inputs elsewhere do |
| `Form.NoInputNoMark` | static/js/main.js:60-66 | a group holding none of the inputs gets no mark |
| `ScoreInputs.Band` | static/js/main.js:146-156 | scores of 80 and up are success, 60–79 accent-primary, 40–59 warning, 1–39 danger, and 0 or below glass-border; the bands cover every integer |
| `ScoreInputs.BandMonotone` | static/js/main.js:146-156 | a higher score never falls in a lower band |
| `ScoreInputs.ScoreColour` | static/js/main.js:141-157 | the band of the parsed integer score; NaN falls back to 0, so an unparsable value gets the glass-border colour |
| `ScoreInputs.Clamp` | static/js/main.js:126-130 | below 0 becomes 0 and above 100 becomes 100; in-range values and NaN are kept; the result is NaN or in [0, 100] |
| `ScoreInputs.ClampIdempotent` | static/js/main.js:126-130 | clamping twice is clamping once |
| `ScoreInputs.ClampKeepsColour` | static/js/main.js:126-133 | clamping never changes the border colour |
| `ScoreInputs.OnScoreInput` | static/js/main.js:125-134 | the integer parse becomes its clamp. An out-of-range value is overwritten with "0" or "100", and anything else is untouched. The colour is the band of the new value |

## Left out

- The evaluation helper (`evaluate_models`) is not part of this model. Its report, or the fact that it raised, is an input. Hyperparameter search, fitting and prediction are not modelled; they are floating-point numerics in foreign libraries.
- The evaluation helper fits the registry's estimator objects in place, which is why the winner can `predict` (src/components/model_trainer.py:119) and why the logged and saved object is the registry's own (`models[best_model_name]`). The model tracks only each object's identity (family and constructor arguments), not its fitted state.
- The metric formulas (r2, MAE, MSE, RMSE) and `str(best_model.get_params())` are not modelled; their values are inputs. A failure in `predict` or in a metric function leaves the same trace as a failure of the `r2_score` call (`failAt` = 2).
- The artifact writer (`save_object`) is not part of this model. Saving is an event, and its failure is a flag. A failing save is modelled as leaving no artifact, so no `Save` event is recorded; a partly written file is not modelled. `SavedIffSucceeded` and `TailSavesNothingOnFailure` rely on this for the `SaveFailed` case.
- `mlflow.set_experiment` and `mlflow.start_run` are assumed not to raise; only calls inside the run and the save can fail in the model. The logger calls are left out: they have no effect the rest of the code observes.
- The internals of the exception wrapper (message and traceback formatting) are not modelled. `Failure` records only the cause.
- NaN scores in the report are not modelled: scores are exact reals.
- The relation between `parseFloat` and `parseInt` on the same string is not modelled beyond "an empty value is NaN for both". Parsing itself is abstract.
- `Field` is one input element; moving it into a `.score-input-wrapper` does not change its `.form-group` ancestor, so that DOM move is not modelled.
- UI-only parts of the script are left out:
  - the `focused` class toggled on focus and blur (UI only); the blur and select `change` handlers also call `validateInput`, which is modelled;
  - the navbar scroll effect;
  - scroll and result animations;
  - the loading state and the form shake;
  - the injected CSS;
  - the early return when the page has no form.
