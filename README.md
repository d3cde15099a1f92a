# SABS PK/PD protocol design, modelled in Dafny

A Dafny model of the sequential core of the `sabs_pkpd` package, with proofs
about it. The package designs experimental protocols for pharmacokinetic and
pharmacodynamic models. The modelled parts are:

- the identifiability objective of `ProtocolOptimizer`: the Fisher
  information from parameter sensitivities, the Cramer-Rao score with its
  singular-matrix fallback, batch evaluation, swarm seeding and the
  posterior-median update of the model parameters;
- the piecewise-constant event protocols and the parameter clamps of the
  toy simulators;
- experimental data loading after the CSV has been parsed: the column
  check, the stable sort by condition and time, and the grouping into one
  time series per experiment;
- model runs under experimental or hand-given conditions: the argument
  checks, the split of fitted or fixed parameters between the initial state
  (written in place into the shared default state) and the constants, the
  order in which the condition's constant is set, and the output shape;
- the model-distinction score: the response matrix, min-max normalisation
  and the nested pairwise sum.

Reals stand for Python floats. Foreign code enters as function parameters:
the simulator, the numerical differentiator, matrix inversion, MCMC
inference, the particle swarm, the myokit state evolution and read-out,
random draws and `np.log`.

Files (modules): `wrappers.dfy` (Option, Result), `real_sums.dfy` (sums,
dot products, minimum and maximum), `stable_sort.dfy` (keyed stable insertion
sort), `statistics.dfy` (median), `identifiability.dfy`,
`event_protocols.dfy`, `protocol_optimizer.dfy`, `load_data.dfy`,
`simulation.dfy` (the abstract myokit simulation), `run_model.dfy`,
`model_distinction.dfy`.

## Model

| member | source | states |
|---|---|---|
| ProtocolOptimization.ProtocolOptimizer.constructor | sabs_pkpd/optimize_protocol.py:73-85 | every argument is stored as given; with no ground truth, the ground truth is a fresh array copied from the model parameters, so it does not alias them |
| ProtocolOptimization.ProtocolOptimizer.Objective | sabs_pkpd/optimize_protocol.py:128-189 | one protocol gives the identifiability objective at the current model parameters; a 2-D input gives one score per row, in row order, and entry k is the objective of row k |
| ProtocolOptimization.ProtocolOptimizer.ObjectiveOfRows | sabs_pkpd/optimize_protocol.py:128-136 | the pool map is an order-preserving map of the single-protocol objective over the rows |
| ProtocolOptimization.ProtocolOptimizer.ObjectiveOf | sabs_pkpd/optimize_protocol.py:139-189 | the steps of one evaluation (partials, derivatives, Fisher matrix, inverse or fallback, score) compute the objective value |
| ProtocolOptimization.ProtocolOptimizer.Partials | sabs_pkpd/optimize_protocol.py:143-151 | one closure per model parameter; closure k runs the simulator on the parameters with coordinate k replaced by its argument |
| ProtocolOptimization.ProtocolOptimizer.Derivatives | sabs_pkpd/optimize_protocol.py:153-160 | derivative k is the differentiator, with step 1e-2, applied to closure k at the current value of parameter k |
| Identifiability.Perturb | sabs_pkpd/optimize_protocol.py:146 | the list keeps its length, coordinate i becomes x and every other coordinate is unchanged |
| Identifiability.PerturbIsUpdate | sabs_pkpd/optimize_protocol.py:146 | the perturbation is the sequence update `mp[i := x]` |
| Identifiability.PerturbAtCurrentValue | sabs_pkpd/optimize_protocol.py:146 | perturbing a coordinate to its own value gives back the parameters |
| Identifiability.PartialAtCurrentValue | sabs_pkpd/optimize_protocol.py:145-149 | closure i at the current value of parameter i is the simulator run at the current parameters |
| Identifiability.Sensitivities | sabs_pkpd/optimize_protocol.py:154-160 | one sensitivity vector per model parameter |
| Identifiability.Fisher | sabs_pkpd/optimize_protocol.py:163-169 | the Fisher matrix is n by n for n parameters |
| Identifiability.FisherMatrix | sabs_pkpd/optimize_protocol.py:163-169 | the nested loops over a fresh array produce exactly the matrix 100 * sum_t d_i[t] d_j[t] |
| Identifiability.FillProducts | sabs_pkpd/optimize_protocol.py:163-166 | after the nested loop, entry (a, b) is the dot product of sensitivities a and b |
| Identifiability.ScaleProducts | sabs_pkpd/optimize_protocol.py:168-169 | every entry is multiplied by the same factor and nothing else changes |
| Identifiability.FisherEntries | sabs_pkpd/optimize_protocol.py:163-169 | entry (i, j) of the Fisher matrix is 100 times the dot product of sensitivities i and j, the factor being 1 / 0.1^2 |
| Identifiability.FisherSymmetric | sabs_pkpd/optimize_protocol.py:163-169 | the Fisher matrix is symmetric with a non-negative diagonal |
| Identifiability.FisherDiagonalZero | sabs_pkpd/optimize_protocol.py:166 | diagonal entry i is zero exactly when sensitivity i is zero at every time point |
| Identifiability.InverseOrFallback | sabs_pkpd/optimize_protocol.py:177-182 | the inverse when inversion succeeds, otherwise the n by n diagonal matrix with 1e10 on the diagonal |
| Identifiability.Diagonal | sabs_pkpd/optimize_protocol.py:182 | an n by n matrix with the given value on the diagonal and zero elsewhere |
| Identifiability.CrlbTerms | sabs_pkpd/optimize_protocol.py:183-184 | term i is J_inv[i, i] / model_params[i] |
| Identifiability.Score | sabs_pkpd/optimize_protocol.py:183-187 | the Cramer-Rao sum of J_inv[i, i] / model_params[i] plus the regulariser; CrlbScore computes it and FallbackPenalty bounds it |
| Identifiability.Regulariser | sabs_pkpd/optimize_protocol.py:187 | 0.001 times the sum of the squared protocol parameters; RegulariserZero states its sign and zeros |
| Identifiability.RegulariserZero | sabs_pkpd/optimize_protocol.py:187 | the regulariser 0.001 * sum p_k^2 is non-negative and zero exactly when every protocol parameter is zero |
| Identifiability.CrlbScore | sabs_pkpd/optimize_protocol.py:163-187 | the Fisher loops, the inverse or fallback and the comprehension sum compute the Cramer-Rao sum plus the regulariser |
| Identifiability.ObjectiveValue | sabs_pkpd/optimize_protocol.py:139-189 | the value of the objective for one protocol: the score of the inverse or fallback of the Fisher matrix of the sensitivities; ObjectiveOf computes it and FallbackScore gives it when inversion fails |
| Identifiability.FallbackScore | sabs_pkpd/optimize_protocol.py:177-187 | when inversion fails, the objective is a value: sum of 1e10 / model_params[i] plus the regulariser |
| Identifiability.FallbackPenalty | sabs_pkpd/optimize_protocol.py:182-184 | with the fallback and positive parameters at most `bound`, the Cramer-Rao sum is at least n * 1e10 / bound |
| ProtocolOptimization.InitialSwarm | sabs_pkpd/optimize_protocol.py:205-208 | the protocol followed by 24 draws about it; InitialSwarmShape states its shape and InitialPositions builds it |
| ProtocolOptimization.InitialSwarmShape | sabs_pkpd/optimize_protocol.py:199-208 | 25 particles, each as wide as the protocol; particle 0 is the protocol itself; a zero protocol coordinate stays zero in every particle |
| ProtocolOptimization.ProtocolOptimizer.InitialPositions | sabs_pkpd/optimize_protocol.py:199-208 | the append loop builds exactly the initial swarm |
| ProtocolOptimization.ProtocolOptimizer.OptimizeProtocol | sabs_pkpd/optimize_protocol.py:195-216 | the swarm is handed a cost that is the batch objective at the current model parameters; the new protocol is the best position it reports from the seeded start; data and posterior are unchanged |
| ProtocolOptimization.ProtocolOptimizer.InferModelParameters | sabs_pkpd/optimize_protocol.py:244-257 | inference runs on the ground truth under the current protocol; its data and chains are stored and the protocol is unchanged |
| ProtocolOptimization.ProtocolOptimizer.UpdateModelParameters | sabs_pkpd/optimize_protocol.py:260-270 | with no model parameters the posterior is never read and the call succeeds; otherwise, without a posterior or chain 0, it fails and nothing changes; otherwise each parameter in index order becomes the median of its chain-0 samples after n_iter // 2, stopping at the first missing column or empty window; a separate ground truth is untouched |
| ProtocolOptimization.ProtocolOptimizer.UpdateFromChain | sabs_pkpd/optimize_protocol.py:266-270 | the update loop sets exactly the parameters before the first failure to their medians and reports that failure |
| ProtocolOptimization.ProtocolOptimizer.SetParameter | sabs_pkpd/optimize_protocol.py:270 | one in-place write: only entry i changes |
| ProtocolOptimization.Window | sabs_pkpd/optimize_protocol.py:269 | the samples of parameter i from index burn-in onward, in chain order |
| ProtocolOptimization.UpdateReach | sabs_pkpd/optimize_protocol.py:266-270 | how many parameters the loop updates and why it stops; updated parameters have a column and a non-empty window |
| ProtocolOptimization.UpdateReachStops | sabs_pkpd/optimize_protocol.py:268-270 | once the loop has stopped, more parameters do not change the outcome |
| ProtocolOptimization.UpdatedWithinSamples | sabs_pkpd/optimize_protocol.py:269-270 | every updated parameter lies between the smallest and the largest of its samples |
| ProtocolOptimization.UpdatedPrefixStep | sabs_pkpd/optimize_protocol.py:268-270 | one more loop step writes the next median and nothing else |
| ProtocolOptimization.MapSeq | sabs_pkpd/optimize_protocol.py:131 | the pool map as a map built from the front; MapSeqPointwise states it pointwise |
| ProtocolOptimization.MapSeqPointwise | sabs_pkpd/optimize_protocol.py:131 | the map has one result per row and result k is the function at row k |
| Statistics.Median | sabs_pkpd/optimize_protocol.py:270 | `np.median`: the middle of the sorted samples; MedianBounds, MedianOrderIndependent and MedianOfAscending state its properties |
| Statistics.Sorted | sabs_pkpd/optimize_protocol.py:270 | the samples in ascending order, as a permutation of them |
| Statistics.MedianBounds | sabs_pkpd/optimize_protocol.py:270 | the median lies between the minimum and the maximum |
| Statistics.MedianOrderIndependent | sabs_pkpd/optimize_protocol.py:270 | the median depends only on the multiset of samples |
| Statistics.MedianOfAscending | sabs_pkpd/optimize_protocol.py:270 | for sorted samples, the middle one for odd counts, the mean of the two middle ones for even counts |
| Statistics.AscendingUnique | sabs_pkpd/optimize_protocol.py:270 | two ascending sequences with the same elements are equal |
| EventProtocols.OneStepProtocol | sabs_pkpd/optimize_protocol.py:385-386 | the one-step protocol as a function of time; its values are stated by OneStepValue and OneStepIsEventTrain |
| EventProtocols.ThreeEventProtocol | sabs_pkpd/optimize_protocol.py:394-409 | the three-event protocol as a function of time; ThreeEventIsEventTrain states it is a train of three events |
| EventProtocols.FiveEventProtocol | sabs_pkpd/optimize_protocol.py:420-439 | the five-event protocol as a function of time; FiveEventIsEventTrain and FiveEventProtocolValue state its values |
| EventProtocols.OneStepValue | sabs_pkpd/optimize_protocol.py:385-386 | the amplitude for 1 < t < 1 + duration and 0 otherwise |
| EventProtocols.OneStepIsEventTrain | sabs_pkpd/optimize_protocol.py:385-386 | the one-step protocol is a train of one event starting at 1 |
| EventProtocols.ThreeEventIsEventTrain | sabs_pkpd/optimize_protocol.py:394-409 | the three-event protocol is the train of three events starting at 1 |
| EventProtocols.FiveEventIsEventTrain | sabs_pkpd/optimize_protocol.py:420-439 | the five-event protocol is the train of five events starting at 1 |
| EventProtocols.FiveEventProtocolValue | sabs_pkpd/optimize_protocol.py:432-437 | the five-event protocol is the sum of five indicator-weighted levels on the open intervals between the cumulative start times |
| EventProtocols.InsideEvent | sabs_pkpd/optimize_protocol.py:404-407 | with non-negative durations, strictly inside segment k the train is level k |
| EventProtocols.BeforeStart | sabs_pkpd/optimize_protocol.py:404-407 | with non-negative durations, the train is 0 at and before the start time |
| EventProtocols.AfterEnd | sabs_pkpd/optimize_protocol.py:404-407 | with non-negative durations, the train is 0 from the end of the last segment on |
| EventProtocols.AtEventBoundary | sabs_pkpd/optimize_protocol.py:404-407 | with non-negative durations, the train is 0 at every segment boundary |
| EventProtocols.NegativeDurationOverlaps | sabs_pkpd/optimize_protocol.py:404-407 | with a negative duration the intervals overlap and two levels add up |
| EventProtocols.LogisticClamp | sabs_pkpd/optimize_protocol.py:466-467 | alpha becomes non-negative and beta non-positive; a value already allowed is kept |
| EventProtocols.LogisticClampFixedPoints | sabs_pkpd/optimize_protocol.py:466-467 | the clamp changes nothing exactly on allowed values and is idempotent |
| EventProtocols.OscillatorClamp | sabs_pkpd/optimize_protocol.py:496-499 | c and k become non-negative; a negative mass becomes 0.1; allowed values are kept |
| EventProtocols.OscillatorClampFixedPoints | sabs_pkpd/optimize_protocol.py:496-499 | the clamp changes nothing exactly on allowed values and is idempotent |
| EventProtocols.OscillatorClampKeepsZeroMass | sabs_pkpd/optimize_protocol.py:496 | the mass clamp lets a zero mass through, which the equation then divides by |
| LoadData.DataExp.constructor | sabs_pkpd/load_data.py:31-36 | the four fields hold the given values and there are no fitting instructions |
| LoadData.DataExp.AddFittingInstructions | sabs_pkpd/load_data.py:38-45 | the fitting instructions become the record of exactly the three given annotations; no other field changes |
| LoadData.TableError | sabs_pkpd/load_data.py:60-62 | a table is accepted exactly when it has rows of width 4; rows wider than 4 are rejected as too many columns |
| LoadData.ReshapeFlatten | sabs_pkpd/load_data.py:67-68 | concatenating the sorted rows and reshaping to width 4 gives back the rows |
| LoadData.SortedTable | sabs_pkpd/load_data.py:66 | the rows sorted by (condition, time); SortedTableOrder and SortedTableIsTable state its properties |
| LoadData.SortedTableOrder | sabs_pkpd/load_data.py:66 | the sorted rows are a permutation, ordered by (condition, time), and rows with equal keys keep their order |
| LoadData.SortedTableIsTable | sabs_pkpd/load_data.py:66 | sorting keeps every row of width 4 |
| StableSort.Sort | sabs_pkpd/load_data.py:66 | the keyed sort keeps the length and is a permutation of its input |
| StableSort.SortSorted | sabs_pkpd/load_data.py:66 | the keyed sort is ordered by the key |
| StableSort.SortStable | sabs_pkpd/load_data.py:66 | the keyed sort keeps the order of elements with equal keys |
| LoadData.Distinct | sabs_pkpd/load_data.py:69-70 | `list(set(...))` in first-occurrence order, never longer than the column; DistinctValues states its elements |
| LoadData.Select | sabs_pkpd/load_data.py:75 | the boolean mask on the experiment number; it keeps rows of width 4 and is never longer than the table; SelectMembers and SelectSorted state which rows it keeps |
| LoadData.Grouped | sabs_pkpd/load_data.py:71-77 | series k holds the times and values of the rows of the k-th listed experiment; GroupRows establishes it |
| LoadData.DistinctValues | sabs_pkpd/load_data.py:69-70 | the distinct values of a column hold no duplicate and exactly the values that occur in the column |
| LoadData.SelectMembers | sabs_pkpd/load_data.py:75 | the boolean mask keeps exactly the rows whose experiment number is e |
| LoadData.SelectSorted | sabs_pkpd/load_data.py:75 | the mask keeps the sorted order |
| LoadData.GroupRows | sabs_pkpd/load_data.py:71-77 | the append loop gives, for each experiment number in turn, the times and values of exactly its rows, in sorted order |
| LoadData.GroupedLengths | sabs_pkpd/load_data.py:74-77 | the series lengths add up to the number of rows counted per listed experiment |
| LoadData.Partition | sabs_pkpd/load_data.py:69-77 | when the experiment list has no duplicate and covers every row, the groups count every row exactly once |
| LoadData.SeriesPartitionTable | sabs_pkpd/load_data.py:69-79 | every series is non-empty with as many times as values, and the series together hold every row |
| LoadData.LoadDataFile | sabs_pkpd/load_data.py:53-79 | fails exactly on the rejected tables; otherwise a fresh record with no fitting instructions, the distinct experiment numbers and conditions of the sorted rows, and the grouped series |
| Simulations.Simulation.Reset | sabs_pkpd/run_model.py:41 | the state returns to the default state and the time to 0; constants are kept |
| Simulations.Simulation.SetTime | sabs_pkpd/run_model.py:43 | only the time changes |
| Simulations.Simulation.State | sabs_pkpd/run_model.py:49 | a fresh list holding the current state |
| Simulations.Simulation.SetState | sabs_pkpd/run_model.py:62 | only the state changes, to the given list |
| Simulations.Simulation.SetConstant | sabs_pkpd/run_model.py:70-76 | only the named constant changes |
| Simulations.Simulation.Pre | sabs_pkpd/run_model.py:79 | the state evolves for the given duration and becomes the new default state |
| Simulations.Simulation.Run | sabs_pkpd/run_model.py:82 | the log is the read-out at the log times from the state before the run; the state evolves and the time advances by the duration |
| Simulations.IndexOf | sabs_pkpd/run_model.py:56-58 | the index of a state name |
| Simulations.Overwrite | sabs_pkpd/run_model.py:51-59 | the state list after the fitted values of state variables are written into it in list order; it keeps its length; OverwriteAt states each entry |
| Simulations.FittedConstants | sabs_pkpd/run_model.py:65-72 | the constants set from the fitted parameters that are not states, later ones overriding earlier ones; FittedConstantsKeys and FittedConstantsLast state its keys and values |
| Simulations.ConditionConstants | sabs_pkpd/run_model.py:65-76 | the fitted constants over the current ones, then the condition's constant |
| Simulations.ConditionSetLast | sabs_pkpd/run_model.py:65-76 | the condition's constant is set last: it has the condition's value whatever the fitted list says, and the other fitted constants keep their fitted values |
| Simulations.OverwriteAt | sabs_pkpd/run_model.py:51-59 | entry j of the state to set is the last fitted value written to state j, or its old value when none is |
| Simulations.LastWriteNone | sabs_pkpd/run_model.py:51-59 | entry j is untouched exactly when no fitted annotation names state j |
| Simulations.LastWriteOfLast | sabs_pkpd/run_model.py:51-59 | the last annotation of a state decides its value |
| Simulations.OverwriteIdempotent | sabs_pkpd/run_model.py:51-59 | writing the fitted states twice is the same as once |
| Simulations.FittedConstantsKeys | sabs_pkpd/run_model.py:65-72 | the constants set are exactly the fitted annotations that are not state names |
| Simulations.FittedConstantsLast | sabs_pkpd/run_model.py:65-72 | a constant gets the value of its last annotation |
| Simulations.ConditionConstantsTwice | sabs_pkpd/run_model.py:65-76 | applying the fitted constants and the condition again with a new condition value only changes the condition |
| RunModel.WriteStates | sabs_pkpd/run_model.py:51-59 | the loop writes the fitted states into the list in place, as the overwrite function says |
| RunModel.SetFittedConstants | sabs_pkpd/run_model.py:65-72 | the loop sets exactly the fitted constants |
| RunModel.ApplyFixed | sabs_pkpd/run_model.py:193-201 | one loop writes fixed states into the list and sets the other fixed parameters as constants |
| RunModel.SetUpCondition | sabs_pkpd/run_model.py:41-79 | reset, time 0, fitted states written into the shared default state (or a copy of the state), fitted constants, the condition last, then the pre-run |
| RunModel.SetUpQuickCondition | sabs_pkpd/run_model.py:184-209 | the same set-up for one given condition value with the fixed parameters |
| RunModel.SetUpSingle | sabs_pkpd/run_model.py:216-241 | the set-up of the run without conditions: reset, time 0, fixed states written into the shared default state (or a copy), fixed constants, then the pre-run, whose state becomes the default |
| RunModel.SetUpAgain | sabs_pkpd/run_model.py:40-79 | the set-up for the next condition starts from the state the previous one left, so the shared default state carries over |
| RunModel.SimulateStep | sabs_pkpd/run_model.py:40-86 | one condition: set-up, run for 1.00001 times the last time point, append the read-out row; no row when the series is missing or empty |
| RunModel.QuickStep | sabs_pkpd/run_model.py:183-214 | one given condition value: set-up, run, append the read-out row |
| RunModel.DataRuns | sabs_pkpd/run_model.py:40-86 | the condition loop: it succeeds exactly when every condition to run has a non-empty series; then it gives one row per condition and leaves the state of the last condition and run behind, and with no conditions it leaves the state and clock untouched |
| RunModel.SimulateData | sabs_pkpd/run_model.py:34-88 | missing instructions or a length mismatch fail with nothing changed; otherwise one row per distinct condition, each the read-out after the set-up of that condition, or a missing-series error when a series runs out; on success the shared default state keeps the fitted states written into it, the constants of the last condition stay set, and the default state, clock and state are those the last pre-run and run left, or, with no conditions, untouched |
| RunModel.FixedMismatch | sabs_pkpd/run_model.py:158-160 | the length comparison of the fixed names and values: a `TypeError` when either is missing, a `ValueError` when their lengths differ, otherwise nothing; the same comparison is repeated at line 170 |
| RunModel.QuickCheckAsWritten | sabs_pkpd/run_model.py:152-172 | the argument checks as written, including the second length check of the fixed parameters; AsWrittenRejectsConditionsAlone states where they differ from the intended ones |
| RunModel.QuickCheck | sabs_pkpd/run_model.py:152-168 | the argument checks without the second length check; QuickCheckAccepts states exactly which calls pass |
| RunModel.QuickCheckAccepts | sabs_pkpd/run_model.py:152-172 | the intended checks accept exactly: samples ending within time_max, fixed names and values both missing or of equal length, conditions missing or a list with a string name |
| RunModel.QuickCheckRejections | tests/test_run_model.py:101-146 | the rejected calls of the tests are rejected for the stated reasons |
| RunModel.AsWrittenRejectsConditionsAlone | sabs_pkpd/run_model.py:170-172 | the checks as written differ from the intended ones exactly on well-formed conditions without fixed parameters |
| RunModel.LinspaceGrid | sabs_pkpd/run_model.py:174-175 | the default grid runs from 0 to time_max in equal steps |
| RunModel.Linspace | sabs_pkpd/run_model.py:175 | `num` points |
| RunModel.Samples | sabs_pkpd/run_model.py:174-175 | the given time samples, or 100 evenly spaced points from 0 to time_max; LinspaceGrid states the grid |
| RunModel.QuickRuns | sabs_pkpd/run_model.py:182-214 | the condition loop produces one row per condition value, each the read-out after that condition's set-up; it leaves the shared default state, the constants and default state of the last condition and the clock and state of its run behind, and with no condition values it leaves the state and clock untouched |
| RunModel.QuickSimulate | sabs_pkpd/run_model.py:152-248 | fails exactly when the intended checks fail, with nothing changed; otherwise one row per condition value (or one row without conditions), each as long as the time samples and equal to the read-out after the set-up; on success the fixed states stay written into the shared default state, the constants (of the last condition) stay set, and the default state, clock and state are those the last pre-run and run left, or, with an empty list of condition values, untouched |
| ModelDistinction.ObjectiveStepPhase | sabs_pkpd/optimize_protocol_model_distinction.py:28-55 | a length mismatch of durations and amplitudes fails; normalising empty rows fails; no other failure occurs; on success a constant normalised row makes the score NaN when there are two models or more, otherwise the score is that of the (normalised) responses |
| ModelDistinction.ResponseRow | sabs_pkpd/optimize_protocol_model_distinction.py:42-45 | one model's row: normalised when asked (none for a constant row), otherwise the read-out as it is; it keeps the row's length |
| ModelDistinction.ResponseRows | sabs_pkpd/optimize_protocol_model_distinction.py:33-45 | the response matrix as rows, one per model and each m wide; FillResponse builds it |
| ModelDistinction.FillResponse | sabs_pkpd/optimize_protocol_model_distinction.py:33-45 | a fresh matrix with one row per model and one column per sample, holding each response (normalised when asked); reports whether a normalised row was constant |
| ModelDistinction.FillRow | sabs_pkpd/optimize_protocol_model_distinction.py:42-45 | row i holds the response, normalised in place when asked; other rows are unchanged |
| ModelDistinction.Normalised | sabs_pkpd/optimize_protocol_model_distinction.py:43-45 | min-max normalisation of a row, none for a constant row (which normalises to NaN); NormalisedRange and NormalisedAffine state its properties |
| ModelDistinction.NormalisedRange | sabs_pkpd/optimize_protocol_model_distinction.py:43-45 | for a non-constant row every entry is in [0, 1]; exactly the minima map to 0 and exactly the maxima to 1 |
| ModelDistinction.NormalisedAffine | sabs_pkpd/optimize_protocol_model_distinction.py:43-45 | rescaling a response by a positive factor and shifting it does not change its normalisation |
| ModelDistinction.ScoreUnitFree | sabs_pkpd/optimize_protocol_model_distinction.py:43-55 | with normalisation, changing the units and offset of the read-out changes neither the responses nor the score |
| ModelDistinction.SquaredDistance | sabs_pkpd/optimize_protocol_model_distinction.py:51 | `np.sum(np.square(a - b))`; SquaredDistanceProperties states its properties |
| ModelDistinction.SquaredDistanceProperties | sabs_pkpd/optimize_protocol_model_distinction.py:51 | each pairwise term is non-negative, zero between equal responses, positive between different ones, and symmetric |
| ModelDistinction.ModelSumNonNegative | sabs_pkpd/optimize_protocol_model_distinction.py:49-51 | the accumulated inner sum to which the logarithm is applied is non-negative |
| ModelDistinction.ModelSum | sabs_pkpd/optimize_protocol_model_distinction.py:49-51 | the sum of squared distances from model i to the first `count` models; ModelSumNonNegative states its sign |
| ModelDistinction.ModelScore | sabs_pkpd/optimize_protocol_model_distinction.py:49-51 | the inner loop sums the distances from model i to models 0 .. n - i - 1 |
| ModelDistinction.ScoreUpTo | sabs_pkpd/optimize_protocol_model_distinction.py:47-54 | the score after the first k passes of the outer loop; ThreeModels and IdenticalModels state its values |
| ModelDistinction.ScoreOf | sabs_pkpd/optimize_protocol_model_distinction.py:47-55 | minus the sum over i < n - 1 of the logarithm of the inner sums, 0 for fewer than two models; ThreeModels and IdenticalModels state its values |
| ModelDistinction.PairwiseScore | sabs_pkpd/optimize_protocol_model_distinction.py:47-55 | the nested loops compute minus the sum over i < n - 1 of the logarithm of the inner sums |
| ModelDistinction.ThreeModels | sabs_pkpd/optimize_protocol_model_distinction.py:48-53 | with three models the distance between models 1 and 2 never enters the score and that between 0 and 1 enters twice |
| ModelDistinction.IdenticalModels | sabs_pkpd/optimize_protocol_model_distinction.py:47-55 | identical responses give n - 1 times minus log(0) |
| ModelDistinction.ObjectiveFourierPhase | sabs_pkpd/optimize_protocol_model_distinction.py:68-97 | fails exactly when there are not fewer low than high frequencies, or when normalising empty rows; no other failure occurs, so every other call returns nothing |

## Left out

- Numerical differentiation, matrix inversion, the ODE solvers and `interp1d`, MCMC inference and the particle swarm are foreign numerical code. They are function parameters; `general_protocol` and the sine-wave protocols are not modelled.
- The random particle positions are a parameter of draws in standard form. Only their use (mean the protocol, spread five times its absolute value) is modelled.
- Bayesian inference (`infer_model_parameters` at module level) and `pints_problem_def.py` are not part of this model. `parameter_is_state` and `find_index_of_state` are modelled as membership in, and the index in, the simulation's state names.
- The process pool is concurrency. Only its order-preserving map is modelled.
- Plotting, printing, `load_model.py` and the web layer (`pkpd.py`) are left out. So is `np.loadtxt`: the model starts from the parsed rows, and a one-row file is taken as a one-row table. In the source such a file is read as a 1-D array, so the column index `data[:, 0]` at `sabs_pkpd/load_data.py:53` raises `IndexError`; the model instead returns a data set with that one row.
- Floating point: reals are exact. So 1 / 0.1^2 is exactly 100, there is no rounding, and NaN and infinity exist only where noted.
- Identifiability.CrlbScore, Identifiability.CrlbTerms, Identifiability.Score, Identifiability.ObjectiveValue, Identifiability.FallbackScore, ProtocolOptimization.ProtocolOptimizer.Value, ProtocolOptimization.ProtocolOptimizer.RowValue, ProtocolOptimization.ProtocolOptimizer.Objective, ProtocolOptimization.ProtocolOptimizer.ObjectiveOf and ProtocolOptimization.ProtocolOptimizer.ObjectiveOfRows: require every model parameter to be non-zero, because division by zero yields an IEEE infinity or NaN, which reals do not have.
- Identifiability.CrlbScore: requires all sensitivity vectors to have one length, which the elementwise products need. It also requires the inversion oracle to return a square matrix of the input's size.
- ProtocolOptimization.ProtocolOptimizer.UpdateModelParameters: an empty post-burn-in window is reported as an error. The source would store NaN (the median of nothing).
- The checks at `sabs_pkpd/load_data.py:53` and `:55` cannot fire on a parsed float table, so they are not modelled.
- LoadData.LoadDataFile: Python's set order in `list(set(...))` is unspecified. The model uses first-occurrence order; the grouping lemmas hold for any duplicate-free enumeration of the values.
- RunModel.SimulateData: when a series runs out part way through the conditions, the state the earlier conditions left in the simulation is not described.
- RunModel.SimulateData: condition k is run with the k-th time series, as `sabs_pkpd/run_model.py:76` and `:82` do. The series are grouped by experiment number and the conditions are a separate set (`sabs_pkpd/load_data.py:69-70`), so in the source the pairing holds only when the two set orders happen to agree. The model lists both in first-occurrence order of the sorted rows; these agree when each experiment has a single condition of its own, and the model does not promise more.
- RunModel.SimulateData: requires a shared default state to be as long as the state vector, because myokit rejects other lengths when the state is set.
- Simulations.Simulation.SetConstant: any name is accepted. myokit's rejection of unknown constants is left out.
- Simulations.Simulation.Pre: assumes that myokit's `pre` makes the evolved state the new default and leaves the time unchanged.
- The myokit state evolution and read-out are function parameters of the simulation and are not modelled.
- ModelDistinction.ObjectiveStepPhase: the simulator runs and the protocol built from durations and amplitudes are an input: one sampled read-out per model. The same holds for ObjectiveFourierPhase.
- `np.log` is a function parameter.
- A constant row normalises to NaN. The model reports NaN for the score instead of carrying NaN entries.
- ModelDistinction.ObjectiveFourierPhase: `EventsListFromFourier` is not part of this model. The score computed and then discarded is not modelled.

## Findings

| source | as written | input that shows it | evidently intended | confidence | as-written member | corrected member |
|---|---|---|---|---|---|---|
| sabs_pkpd/run_model.py:170-172 | with conditions given, the lengths of the fixed names and values are compared again, even when both are `None` | `quick_simulate(s, 6, 'comp1.y', exp_cond_param_annot='constants.T', exp_cond_param_values=[37])` takes `len(None)` and raises `TypeError` | conditions without fixed parameters are run (lines 193 and 227 handle missing fixed parameters) | not executed | RunModel.QuickCheckAsWritten (shown by RunModel.AsWrittenRejectsConditionsAlone) | RunModel.QuickCheck (proved by RunModel.QuickCheckAccepts, used by RunModel.QuickSimulate) |
