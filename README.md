# Trial-history GLM features, logistic objective and sweep bookkeeping

A Dafny model of the analysis code in the animal-learning repository. It covers rodent
psychophysics (the PWM task) fitted with generalized linear models. It models three parts:

- **Design matrices.**
  - `generate_design_matrix.py` builds a pandas design matrix in place: standardized stimuli,
    a bias column, and one-trial-lagged history regressors.
  - Those regressors are zeroed at session boundaries and, for some of them, after a
    violation trial.
  - It adds exponential-kernel history columns, made by numpy's clipped "full" convolution,
    and one-hot choice labels.
  - The PWM generator composes named feature functions over one animal's trials. Its
    exponential filter restarts at every session.
- **Binary logistic regression.**
  - The negative log-likelihood with an optional Gaussian prior, and its gradient.
  - The numerically stable `log(1 + exp(a))`.
  - The model object's fit/eval state.
- **Bookkeeping.**
  - The sigma sweep: one design matrix and split per animal, then one appended result record
    per prior width.
  - The model visualizers: the best fit per animal and group, the merge with the null models,
    and bits per trial relative to the null model.

The modules:

- `Numerics`: exp, log and sqrt as a `RealFns` value whose `Valid()` predicate holds their
  axioms; sums; maxima.
- `Frames`: pandas cells (a number or NaN), the Series operations used, and a `Frame` class
  with named columns assigned, inserted and dropped in place.
- `Convolution`: the kernel, the whole-column causal convolution, the per-session one, and
  scaling by the maximum.
- `DesignMatrix`: the older builder.
- `DesignMatrixPWM`: the PWM feature functions.
- `LogisticRegression`: the objective and the model object.
- `SigmaSweep`: the sweep experiment.
- `GroupBy`: the sorted group keys of pandas' `groupby`.
- `Visualizer`: the two visualizer classes.
- `Strings`: decimal rendering of integers and code-point order.
- `Wrappers`: `Option`, `Result` and the Python exceptions raised.

Real arithmetic is exact (`real`). Each method is specified by a function of its inputs and
old state, and the properties are lemmas about those functions.

Parameters stand in for what is not modelled:

- the optimizer (a function from the problem and start point to weights);
- the random initial weights;
- the experiment base class (design, split, fit and evaluation as functions);
- exp/log/sqrt.

## Model

| member | source | states |
|---|---|---|
| DesignMatrix.SessionMaskFalseAtStarts | src/features/generate_design_matrix.py:103 | the session mask is false at trial 0 and wherever the session id differs from the previous trial's |
| DesignMatrix.PrevViolation | src/features/generate_design_matrix.py:106 | `prev_violation`: the shifted violation flag times the session mask with NaN filled by 0, one value per trial (its values: BaseDesignZeroAtSessionStart, BaseDesignAfterViolation) |
| DesignMatrix.PrevSoundAvg | src/features/generate_design_matrix.py:113-119 | `prev_sound_avg`: the shifted stimulus mean, z-scored, times both masks, one value per trial |
| DesignMatrix.PrevCorrect | src/features/generate_design_matrix.py:124-128 | `prev_correct`: the shifted correct side with 0 as -1, times both masks, one value per trial, on a NaN-free `correct_side` |
| DesignMatrix.PrevChoice | src/features/generate_design_matrix.py:133-136 | `prev_choice`: the shifted choice with 0 as -1 and NaN as 0, times the session mask only, one value per trial |
| DesignMatrix.BaseDesignZeroAtSessionStart | src/features/generate_design_matrix.py:103-138 | at every session start `prev_sound_avg`, `prev_correct` and `prev_choice` are 0 after the final fill |
| DesignMatrix.BaseDesignAfterViolation | src/features/generate_design_matrix.py:106-136 | mid-session after a violation `prev_sound_avg` and `prev_correct` are 0 but `prev_choice` is still the remapped previous choice |
| DesignMatrix.BaseDesignMidSession | src/features/generate_design_matrix.py:124-136 | mid-session and not after a violation, `prev_correct` and `prev_choice` are the remapped values of trial t - 1 |
| DesignMatrix.CodesOnBinaryValues | src/features/generate_design_matrix.py:125-134 | correct side 0 -> -1, 1 -> 1; choice 0 -> -1, 1 -> 1, missing -> 0 |
| DesignMatrix.BaseDesignShape | src/features/generate_design_matrix.py:96-140 | `BaseDesign` (the base matrix after the fill): the base design has exactly the six base columns, `bias` is constant 1, every column has one value per trial and no NaN |
| DesignMatrix.DropPrevViolationName | src/features/generate_design_matrix.py:139-140 | after inserting `bias` first and dropping `prev_violation` the columns are `bias, s_a, s_b, prev_sound_avg, prev_correct, prev_choice` |
| DesignMatrix.AddRawColumns | src/features/generate_design_matrix.py:96-136 | the assignments in order leave the frame with the raw column list and the raw column values, `prev_violation` included |
| DesignMatrix.BaseFromRaw | src/features/generate_design_matrix.py:138-140 | filling NaN with 0, inserting the bias and dropping `prev_violation` turns the raw columns into the base design |
| DesignMatrix.GenerateBaseDesignMatrix | src/features/generate_design_matrix.py:65-146 | a fresh frame with the input's row count, the base column order and the base design values; labels exactly when requested |
| DesignMatrix.Categories | src/features/generate_design_matrix.py:167 | the label categories are strictly increasing and are exactly the non-NaN choice values |
| DesignMatrix.OneHotEncodeLabels | src/features/generate_design_matrix.py:149-168 | one label row per trial |
| DesignMatrix.OneHotExactlyOne | src/features/generate_design_matrix.py:167 | every label row has one 1, in its choice's category column or in the NaN column for a missing choice, and 0 elsewhere |
| DesignMatrix.OneHotRow | src/features/generate_design_matrix.py:167 | one label row: a column per category and then the NaN column (its content: OneHotExactlyOne) |
| Frames.Frame.Assign | src/features/generate_design_matrix.py:99-136 | column assignment replaces an existing column or appends a new one, keeping the frame well formed |
| Frames.Frame.FillNaAll | src/features/generate_design_matrix.py:138 | every NaN becomes the fill value; names unchanged |
| Frames.Frame.InsertFirst | src/features/generate_design_matrix.py:139 | the new column comes first; all others kept |
| Frames.Frame.Drop | src/features/generate_design_matrix.py:140 | the column is removed from names and data, order of the rest kept |
| Frames.Without | src/features/generate_design_matrix.py:140 | dropping a name keeps exactly the other names and keeps them distinct |
| Convolution.Kernel | src/features/generate_design_matrix.py:215 | the kernel has `len_factor * tau` entries, none when that is not positive |
| Convolution.KernelShape | src/features/generate_design_matrix.py:215 | for positive tau the kernel starts at 1, stays in (0, 1] and decays strictly |
| Convolution.Convolve | src/features/generate_design_matrix.py:218-220 | the clipped full convolution has the input's length |
| Convolution.ConvolveIsCausal | src/features/generate_design_matrix.py:218-220 | the value at t depends only on the source up to t |
| Convolution.ConvolveNonNegative | src/features/generate_design_matrix.py:218-220 | a non-negative source and kernel give a non-negative result |
| Convolution.ConvolvePositiveMax | src/features/generate_design_matrix.py:218-223 | a non-negative source with one positive value, under a positive-tau kernel, has a positive maximum, so scaling is defined |
| Convolution.ConvolveCrossesSessions | src/features/generate_design_matrix.py:218 | the whole-column filter is not reset at a session boundary: an event in session 1 reaches the first trial of session 2 |
| Convolution.ScaleByMax | src/features/generate_design_matrix.py:222-223 | dividing by a positive maximum puts every value at most 1, the maximum at exactly 1, and keeps non-negative values non-negative |
| Convolution.Scale | src/features/generate_design_matrix.py:222-223 | `convolution_result / max`: one value per trial (bounds: ScaleByMax) |
| DesignMatrix.ExpFilterScaled | src/features/generate_design_matrix.py:222-223 | a scaled filter column is at most 1 everywhere and peaks at exactly 1 |
| DesignMatrix.ExpFilter | src/features/generate_design_matrix.py:213-223 | the clipped full convolution, divided by its maximum when `scale` is set, one value per trial (bounds: ExpFilterScaled; causality: ExpFilterUnscaledCausal) |
| DesignMatrix.ExpFilterUnscaledCausal | src/features/generate_design_matrix.py:218-220 | the unscaled filter column at t depends only on the source up to t |
| DesignMatrix.FilterNameInjective | src/features/generate_design_matrix.py:227-229 | distinct (column, tau) pairs give distinct `<column>_exp_<tau>` names |
| DesignMatrix.FilterNameNotBase | src/features/generate_design_matrix.py:227 | a filter name never coincides with a base column |
| DesignMatrix.ExpFilterResult | src/features/generate_design_matrix.py:215-223 | the filter succeeds exactly for a present, non-empty column and a positive kernel length, with one value per row |
| DesignMatrix.ExpFilterStepAdds | src/features/generate_design_matrix.py:215-229 | `ExpFilterStep` (one `create_exp_filter` call on the design table): a successful call sets exactly the filter column to the filtered values, keeps every other column, and appends the name unless present |
| DesignMatrix.ExpFilterStepFails | src/features/generate_design_matrix.py:215-229 | a missing column is a KeyError, empty inputs are numpy's two ValueErrors in order, a length mismatch is pandas' ValueError |
| DesignMatrix.CreateExpFilter | src/features/generate_design_matrix.py:171-234 | `tau = None` changes nothing; on success the target (output frame if given, else source) gets the filter column; on error both frames are unchanged |
| DesignMatrix.FilterPairsOrder | src/features/generate_design_matrix.py:46-47 | the wrapper visits `|columns| * |taus|` pairs, pair `i * |taus| + j` being (columns[i], taus[j]) |
| DesignMatrix.ApplyFiltersAppend | src/features/generate_design_matrix.py:46-56 | applying filters in two runs is applying them in one; after the first error no later filter runs |
| DesignMatrix.ApplyFiltersSuccess | src/features/generate_design_matrix.py:46-56 | `ApplyFilters` (the wrapper's loops as a fold): after all filters succeed the old columns come first, unfiltered columns are kept, every filter is present with its values, and row counts are kept |
| DesignMatrix.AddColumnFilters | src/features/generate_design_matrix.py:47-56 | the inner tau loop equals the fold of `create_exp_filter` over that column's pairs, stopping at the first error |
| DesignMatrix.AddAllFilters | src/features/generate_design_matrix.py:46-56 | the outer column loop equals the fold over all pairs, columns outer and taus inner |
| DesignMatrix.DesignMatAndLabelsContents | src/features/generate_design_matrix.py:41-62 | `DesignMatAndLabels` (the wrapper as a value): a successful wrapper call keeps the six base columns first and unchanged, holds every requested filter column, and has as many label rows as design rows |
| DesignMatrix.GenerateDesignMatAndLabels | src/features/generate_design_matrix.py:5-62 | non-list `taus` or `columns_to_filter` fail their assertion; otherwise a fresh frame and labels equal to the specification, `len(X) == len(Y)` |
| DesignMatrixPWM.RunInitTestsPasses | src/multiglm/features/design_matrix_generator_PWM.py:19-23 | the check passes exactly for a non-empty table all of whose rows name one animal |
| DesignMatrixPWM.RemapOnePass | src/multiglm/features/design_matrix_generator_PWM.py:79-94 | `remap_values` makes one pass: a value whose image is itself a key keeps that image, so a second pass would change it |
| DesignMatrixPWM.PrevChoiceRemap | src/multiglm/features/design_matrix_generator_PWM.py:79 | left, right and violation become -1, 1 and 0; a violation is not carried on to -1 |
| DesignMatrixPWM.PrevViolationRemap | src/multiglm/features/design_matrix_generator_PWM.py:94 | left and right become 0 and a violation 1; a violation is not carried on to 0 |
| DesignMatrixPWM.Standardize | src/multiglm/features/design_matrix_generator_PWM.py:155 | `standardize`: one value per trial (a column without spread gives zeros) |
| DesignMatrixPWM.PrevAvgStim | src/multiglm/features/design_matrix_generator_PWM.py:34-49 | `prev_avg_stim`: one value per trial (what each is: PrevAvgStimAt) |
| DesignMatrixPWM.PrevAvgStimAt | src/multiglm/features/design_matrix_generator_PWM.py:34-49 | 0 at a session start; mid-session the previous standardized stimulus mean, or 0 after a violation only when the mask is on |
| DesignMatrixPWM.PrevCorrectSide | src/multiglm/features/design_matrix_generator_PWM.py:52-67 | `prev_correct_side`: one value per trial (what each is: PrevCorrectSideAt) |
| DesignMatrixPWM.PrevCorrectSideAt | src/multiglm/features/design_matrix_generator_PWM.py:52-67 | 0 at a session start or after a violation, else the previous correct side with left as -1 |
| DesignMatrixPWM.PrevChoice | src/multiglm/features/design_matrix_generator_PWM.py:70-83 | `prev_choice`: one value per trial (what each is: PrevChoiceValues) |
| DesignMatrixPWM.PrevChoiceValues | src/multiglm/features/design_matrix_generator_PWM.py:70-83 | values in {-1, 0, 1}: the remapped previous choice mid-session whatever the violation flag, 0 at a session start |
| DesignMatrixPWM.PrevViolation | src/multiglm/features/design_matrix_generator_PWM.py:86-98 | `prev_violation`: one value per trial (what each is: PrevViolationValues) |
| DesignMatrixPWM.PrevViolationValues | src/multiglm/features/design_matrix_generator_PWM.py:86-98 | values in {0, 1}, 1 exactly mid-session after a violation |
| DesignMatrixPWM.PrevTrialNotStarted | src/multiglm/features/design_matrix_generator_PWM.py:101-109 | 1 exactly when `n_prev_trial_not_started > 0`, else 0 |
| DesignMatrixPWM.ExpFilterColumn | src/multiglm/features/design_matrix_generator_PWM.py:121 | `exp_filter_column` as the unscaled kernel sum restarted in each session, one value per trial |
| DesignMatrixPWM.ExpFilterColumnAt | src/multiglm/features/design_matrix_generator_PWM.py:121 | the per-session filter keeps a non-negative column non-negative and passes a session's first value through unchanged |
| Convolution.SessionConvolveStaysInSession | src/multiglm/features/design_matrix_generator_PWM.py:121 | the per-session filter at t depends only on t's session up to t |
| Convolution.SessionConvolveAtStart | src/multiglm/features/design_matrix_generator_PWM.py:121 | at a session start the per-session filter sees that trial alone |
| Convolution.SessionConvolve | src/multiglm/features/design_matrix_generator_PWM.py:121 | the filter restarted at each session boundary, one value per trial (what it reads: SessionConvolveStaysInSession) |
| DesignMatrixPWM.FilteredPrevViol | src/multiglm/features/design_matrix_generator_PWM.py:112-123 | `filtered_prev_viol`: one value per trial (values: FilteredPrevViolAt) |
| DesignMatrixPWM.FilteredPrevViolAt | src/multiglm/features/design_matrix_generator_PWM.py:112-123 | the filtered previous violation is non-negative and 0 at every session start |
| DesignMatrixPWM.FilteredPrevDisengaged | src/multiglm/features/design_matrix_generator_PWM.py:126-143 | `filtered_prev_disengaged` without pre-filter binarization: one value per trial (values: FilteredPrevDisengagedAt) |
| DesignMatrixPWM.FilteredPrevDisengagedAt | src/multiglm/features/design_matrix_generator_PWM.py:126-143 | without pre-filter binarization: non-negative, and at a session start equal to the trial's own not-started flag |
| DesignMatrixPWM.Stimulus | src/multiglm/features/design_matrix_generator_PWM.py:155 | `df[stim_name]` succeeds exactly for the numeric columns, giving `s_a`, `s_b` or the named column; `animal_id` fails to standardize with a TypeError; any other name is a KeyError |
| DesignMatrixPWM.StimFiltViolIntrx | src/multiglm/features/design_matrix_generator_PWM.py:146-159 | succeeds exactly for a numeric column, with one value per trial; otherwise the selection's TypeError or KeyError |
| DesignMatrixPWM.StimFiltViolIntrxAt | src/multiglm/features/design_matrix_generator_PWM.py:146-159 | the interaction is the standardized selected column times the filtered previous violation, row by row |
| DesignMatrixPWM.StimFiltViolIntrxZeroAtStart | src/multiglm/features/design_matrix_generator_PWM.py:146-159 | the interaction is 0 at every session start |
| DesignMatrixPWM.MultiChoiceLabels | src/multiglm/features/design_matrix_generator_PWM.py:176-182 | the multi map is the identity on {0, 1, 2} for the `choice` column |
| DesignMatrixPWM.BinaryChoiceLabels | src/multiglm/features/design_matrix_generator_PWM.py:185-193 | the binary map keeps 0 and 1 and sends exactly 2 to NaN (dropped) |
| DesignMatrixPWM.BinaryKeepsNonViolations | src/multiglm/features/design_matrix_generator_PWM.py:185-193 | with binary labels exactly the non-violation trials are kept, in order |
| DesignMatrixPWM.MultiKeepsAll | src/multiglm/features/design_matrix_generator_PWM.py:176-182 | with multi-class labels every trial is kept |
| LogisticRegression.LogitsWeightStep | src/models/binary_logistic_regression.py:59 | `X @ w` is linear in each weight: moving `w[j]` by h moves each logit by `X[i][j] * h`, so on the bias column of ones every logit moves by h |
| LogisticRegression.StableLogIsLogOnePlusExp | src/models/binary_logistic_regression.py:117-132 | `StableLogOnePlusExp` (`stable_log_one_plus_exp`): the stable form equals `log(1 + exp(a))` and exceeds `max(0, a)` |
| LogisticRegression.ProbabilityBounds | src/models/binary_logistic_regression.py:98-101 | `p = exp(-log1pexp(-a))` lies strictly between 0 and 1 |
| LogisticRegression.Penalty | src/models/binary_logistic_regression.py:60-63 | the cost penalty is non-negative and 0 when `sigma` is falsy |
| LogisticRegression.PenaltyIncludesBias | src/models/binary_logistic_regression.py:61 | the cost penalty counts the bias weight's square |
| LogisticRegression.CostRegularization | src/models/binary_logistic_regression.py:59-68 | `Cost` is `-mean(y * a - log1pexp(a)) + penalty` with `a = X @ w`: cost = unregularized cost + penalty; equal to it for a falsy `sigma`, never below it |
| LogisticRegression.CostPositive | src/models/binary_logistic_regression.py:59-68 | for 0/1 labels the cost is positive |
| LogisticRegression.Gradient | src/models/binary_logistic_regression.py:94-109 | one gradient entry per weight |
| LogisticRegression.GradientRegularization | src/models/binary_logistic_regression.py:103-109 | the bias entry and every entry for a falsy `sigma` equal the unregularized gradient; other entries add `w[j] / sigma ** 2` |
| LogisticRegression.PenaltyGradient | src/models/binary_logistic_regression.py:103-107 | the prior's gradient term, one entry per weight (content: GradientRegularization) |
| LogisticRegression.DataGradient | src/models/binary_logistic_regression.py:94-109 | `X.T @ (p - y) / N`, one entry per weight |
| LogisticRegression.PenaltyStep | src/models/binary_logistic_regression.py:61 | moving `w[j]` by h moves the cost penalty by `h * w[j] / sigma ** 2` plus a second-order term, the bias included |
| LogisticRegression.PenaltyGradientMissesBias | src/models/binary_logistic_regression.py:61-105 | as written, the gradient's bias penalty term (0) is not the derivative of the cost's bias penalty |
| LogisticRegression.BiasFreePenalty | src/models/binary_logistic_regression.py:103-105 | the penalty the bias exemption intends is non-negative and 0 for a falsy `sigma` |
| LogisticRegression.BiasFreePenaltyMatchesGradient | src/models/binary_logistic_regression.py:103-105 | the gradient's penalty term is the exact derivative of the bias-free penalty in every coordinate |
| LogisticRegression.BinaryLogisticRegression.constructor | src/models/binary_logistic_regression.py:7-11 | a new model has no weights and keeps its prior, method and display flag |
| LogisticRegression.BinaryLogisticRegression.Fit | src/models/binary_logistic_regression.py:13-30 | the optimizer, handed the data, the prior, the stored method and `disp` and `maxiter=10000`, starts from the start point; its result is stored and returned; one weight per column when the optimizer keeps the shape |
| LogisticRegression.BinaryLogisticRegression.Eval | src/models/binary_logistic_regression.py:32-33 | before `fit` a ValueError from matmul; otherwise succeeds exactly for weights of the right shape on a non-empty table; the result plus the penalty is the regularized cost, so evaluation is unregularized |
| SigmaSweep.AnimalRows | src/violmulti/experiments/experiment_sigma_sweep.py:25 | the query keeps exactly the table's rows of that animal |
| SigmaSweep.AnimalRowsInOrder | src/violmulti/experiments/experiment_sigma_sweep.py:25 | the query keeps table order and repeats: the animal's positions are strictly increasing and none is missed, and the i-th kept row is the row at the i-th position |
| SigmaSweep.ExperimentSigmaSweep.constructor | src/violmulti/experiments/experiment_sigma_sweep.py:19-21 | a new experiment has an empty results table |
| SigmaSweep.ExperimentSigmaSweep.SigmaRecordsAt | src/violmulti/experiments/experiment_sigma_sweep.py:42-66 | record j is the fit with `sigmas[j]`: loop animal, model name and type, sigma, test and train NLL, the test columns as features, train and test sizes |
| SigmaSweep.ExperimentSigmaSweep.SigmaRecordsLength | src/violmulti/experiments/experiment_sigma_sweep.py:42-67 | one record per sigma |
| SigmaSweep.ExperimentSigmaSweep.RunRecordsLength | src/violmulti/experiments/experiment_sigma_sweep.py:23-28 | a run appends `|animals| * |sigmas|` records |
| SigmaSweep.ExperimentSigmaSweep.RunRecordAt | src/violmulti/experiments/experiment_sigma_sweep.py:23-67 | record `i * |sigmas| + j` is animal i's fit with sigma j, from that animal's rows and its one split |
| SigmaSweep.ExperimentSigmaSweep.Store | src/violmulti/experiments/experiment_sigma_sweep.py:67 | the record is appended |
| SigmaSweep.ExperimentSigmaSweep.RunSingleAnimal | src/violmulti/experiments/experiment_sigma_sweep.py:30-67 | the design and split are built once; the table grows by that animal's records, earlier ones untouched |
| SigmaSweep.ExperimentSigmaSweep.Run | src/violmulti/experiments/experiment_sigma_sweep.py:23-28 | the table grows by the records of every animal in order |
| GroupBy.SortedDistinct | src/visualizations/model_visualizer.py:49-54 | the group keys are strictly ascending and are exactly the column's values |
| Visualizer.GroupsMembers | src/visualizations/model_visualizer.py:49-55 | every row's value is a group key and every group key is some row's value |
| Visualizer.FirstMin | src/visualizations/model_visualizer.py:49-55 | `idxmin`: a row of the group with least `nll`, the first such |
| Visualizer.GroupBestSpec | src/visualizations/model_visualizer.py:49-50 | one row per group, in key order, each a row with least `nll` in its group |
| Visualizer.GroupBestByAnimal | src/visualizations/model_visualizer.py:48-50 | grouping by animal gives one best row per animal, every animal covered, animals ascending |
| Visualizer.PerAnimalBest | src/visualizations/model_visualizer.py:53-58 | each chosen row is best in its (animal, group value) subset and belongs to a visited animal |
| Visualizer.PerAnimalCovers | src/visualizations/model_visualizer.py:53-58 | every (animal, group value) pair of a visited animal has a chosen row |
| Visualizer.PerAnimalSorted | src/visualizations/model_visualizer.py:53-58 | the chosen rows are ascending in (animal, group value), so no pair repeats |
| Visualizer.BestFitSpec | src/visualizations/model_visualizer.py:48-58 | `BestFit` (`ModelVisualizer.find_best_fit`): for either branch: best per subset, every subset covered, no subset twice |
| Visualizer.CompareBestFitSpec | src/visualizations/model_visualizer.py:537-544 | `CompareBestFit` (`ModelVisualizerCompare.find_best_fit`): best per (animal, group value), all covered, no pair twice |
| Visualizer.BestPerAnimal | src/visualizations/model_visualizer.py:537-544 | the animal loop computes the per-animal best fits |
| Visualizer.ModelVisualizer.FindBestFit | src/visualizations/model_visualizer.py:25-58 | returns the best fits of the stored table |
| Visualizer.ModelVisualizerCompare.constructor | src/visualizations/model_visualizer.py:394-398 | keeps the fit and null tables; nothing merged or computed yet |
| Visualizer.ModelVisualizerCompare.FindBestFit | src/visualizations/model_visualizer.py:514-544 | returns the per-animal best fits of the stored table |
| Visualizer.InsertRow | src/visualizations/model_visualizer.py:560 | insertion keeps the rows sorted and adds exactly the new row |
| Visualizer.SortRows | src/visualizations/model_visualizer.py:560 | sorted by animal then model name, and a permutation of the input |
| Visualizer.SortRowsStable | src/visualizations/model_visualizer.py:560 | stable: the rows sharing an (animal, model name) key come out in their input order, as pandas' two-key `sort_values` (a lexsort) keeps them, so the first `null` row per animal is the first one concatenated |
| Visualizer.MergedSpec | src/visualizations/model_visualizer.py:546-564 | `Merged` (sorted `MergeInputs`, the concatenated best fits and null rows): the merged table is a sorted permutation of the best fits per model plus the null rows, with `log_like = -nll` on every row |
| Visualizer.ModelVisualizerCompare.MergeNullAndFitModelsDfs | src/visualizations/model_visualizer.py:546-564 | stores the merged table; bits table unchanged |
| Visualizer.FirstNull | src/visualizations/model_visualizer.py:606 | finds the first null row exactly when there is one |
| Visualizer.BitsSign | src/visualizations/model_visualizer.py:602-614 | `BitsFor` (one row's bits per trial): undefined exactly for zero test trials; a model row's bits times `n_test * ln 2` is `log_like - null_ll`, positive, zero or negative as the model beats, ties or trails the null; the null row's is `null_ll` |
| Visualizer.CalculateBitsPerTrial | src/visualizations/model_visualizer.py:586-617 | fails with IndexError exactly for an empty group or one without a null row; else every row kept in order with its bits, using the first row's test size |
| Visualizer.CalcBitsSucceeds | src/visualizations/model_visualizer.py:602-606 | `CalcBits` (`_calculate_bits_per_trial` as a value): the per-animal computation succeeds exactly for a non-empty group with a null row |
| Visualizer.AnimalGroupMembers | src/visualizations/model_visualizer.py:578 | the animal's group holds exactly its merged rows |
| Visualizer.BitsTableSucceeds | src/visualizations/model_visualizer.py:577-581 | `BitsTable` (the grouped apply as a value): the table is computed exactly when every animal has a null row |
| Visualizer.BitsTableRows | src/visualizations/model_visualizer.py:577-581 | every output row is a row of its animal's group with that group's bits |
| Visualizer.BitsTableFailureStays | src/visualizations/model_visualizer.py:577-581 | the first failing animal decides the error |
| Visualizer.ModelVisualizerCompare.ComputeBitsPerTrialDf | src/visualizations/model_visualizer.py:566-584 | merges first if needed, returns the bits table of the merged rows grouped by animal, stores it on success |

## Left out

- Printing (`verbose` output, the progress lines of the sweep) and all plotting: no effect on
  the values computed.
- `ModelVisualizer.unpack_features_and_weights` and `unpack_row`: they only reshape results
  for plots.
- The commented-out sweep visualizer class is not part of this model.
- `_init_config_dtypes_`: dtype coercion. Keys are modelled as text or real values directly.
- Floating-point rounding and overflow: arithmetic is over `real`. exp, log and sqrt satisfy
  only the axioms in `Numerics.Valid`, so numerical stability itself is not verified.
- `scipy.optimize.minimize` and `np.random.normal` in `fit` are parameters.
- `generate_data` (data synthesis from randomness) is not part of this model.
- `sigmoid` is unused by the objective and is not part of this model.
- The experiment base class (`generate_design_matrix_for_animal`,
  `get_animal_train_test_sessions`, `apply_session_split`, `fit_and_evaluate_model`) is not
  part of this model. Its operations are function parameters, and `store` is an append.
- `get_animals_tau`: it reads a CSV file at a fixed path.
- The PWM helper module (`shift_n_trials_up`, `mask_prev_event`, `remap_values`, `binarize`,
  `combine_two_cols`, `standardize`, `exp_filter_column`) is not part of this model. Each is
  given the minimal definition its uses here call for, and `standardize` gives zeros for a
  column without spread.
- `DesignMatrixPWM.ExpFilterColumn`: no scaling by the maximum is applied. `exp_filter_column`
  lives in the helper module, which is not part of this model, and its uses here pass no scale
  flag. `ExpFilterColumnAt` and `FilteredPrevDisengagedAt` rest on this choice: a helper that
  divides by the column maximum would give `c[t] / max` at a session start.
- `DesignMatrixPWM.StimFiltViolIntrx`: the trial table has only the modelled columns, so a
  column that a real table carries beyond them is a KeyError here. The TypeError for
  `animal_id` is modelled by kind; its message is not pandas' text.
- The `DesignMatrixGenerator` base class behind `DesignMatrixGeneratorPWM.create` is not part
  of this model. Only `run_init_tests` and the label rules it is given are modelled.
- `DesignMatrixPWM.FilteredPrevDisengaged`: only `binarize_pre_filt=False` is modelled. With
  True the source passes the function `combine_two_cols` instead of the column to `binarize`
  (src/multiglm/features/design_matrix_generator_PWM.py:139).
- `DesignMatrix.ExpFilterResult`: the scaled branch requires a non-zero maximum. Division by a
  zero maximum produces NaN/inf in numpy, which is not modelled.
- `DesignMatrix.CreateExpFilter`: `tau` is an integer or None. A float tau makes `range`
  raise TypeError, which is not modelled. The length-mismatch ValueError has a fixed message
  without the lengths.
- `DesignMatrix.PrevCorrect`: requires a NaN-free `correct_side`, because `astype(int)` raises
  on NaN and that exception is not modelled.
- `DesignMatrix.OneHotEncodeLabels`: `get_dummies` column names are not modelled, only the
  column order (ascending categories, then the NaN column).
- NaN semantics: NaN is modelled in the older builder's cells (shift, mask products,
  `fillna`, `mean`, `std`). It is not modelled in the PWM features, whose inputs are numbers.
  The source column that `create_exp_filter` filters is assumed NaN-free, although
  `np.convolve` would carry a NaN through.
- `LogisticRegression.Cost`: requires at least one trial. numpy's mean of an empty array is
  NaN with a warning. `Eval` models that case as a ValueError failure.
- `LogisticRegression.BinaryLogisticRegression.Eval`: numpy broadcasting of mismatched
  shapes is modelled as failure. Labels are a vector, not a column matrix.
- `LogisticRegression.PenaltyGradient`: an empty `w` with a truthy `sigma` is an IndexError
  in the source (`penalty_gradient[0] = 0`), while the model gives the empty gradient. A design
  matrix always has the bias column, so `w` is never empty in use.
- Visualizer group keys:
  - NaN keys (which pandas drops from groups) and unobserved categorical levels are not
    modelled.
  - Groups come out in ascending key order.
  - `find_best_fit` takes one grouping column, not a list of columns.
- `Visualizer.BitsFor`: a zero test size is a division by zero (inf/NaN in numpy). It is
  modelled as a missing value (`None`).
- Concurrency: none in the source.

## Findings

| source | as written | input that shows it | evidently intended | confidence | as-written member | corrected member |
|---|---|---|---|---|---|---|
| src/models/binary_logistic_regression.py:61, 103-105 | `cost` adds `sum(w ** 2) / (2 sigma ** 2)` over all weights, bias included, while `_gradient` sets the bias entry of the penalty gradient to 0, so the gradient passed to the optimizer is not the gradient of the cost | any truthy `sigma` with `w[0] != 0`, e.g. `sigma = 1`, `w = [1]`: moving `w[0]` by h changes the cost penalty by `h + h ** 2 / 2`, the gradient predicts `0 * h` | the bias exempt from the prior in both, with penalty `sum(w[1:] ** 2) / (2 sigma ** 2)` | not executed | LogisticRegression.PenaltyGradientMissesBias | LogisticRegression.BiasFreePenaltyMatchesGradient |
