# Dexterous-hand RL toolkit: the discrete bookkeeping, in Dafny

This project models the discrete bookkeeping of a reinforcement-learning and RNN-analysis
code base for a simulated dexterous robot hand. Around its floating-point numerics, the code base
keeps records, counters, shapes and tables, and those are what the model covers:

- **Fixed-point finding** (`LSTM/fixedpointfinder.py`, modules `FixedPointRecords`,
  `FixedPointFinders`, `LexOrder`). This is the finders' record pipeline:
  - the number of hidden units is derived from the architecture tag;
  - noise and sampling;
  - one raw record per initial condition;
  - records are split into good and bad against `q_threshold`;
  - good records are deduplicated by rounded location, as `np.unique(..., axis=0, return_index=True)` does;
  - Jacobians are attached, with an LSTM state split into `h` and `c`;
  - the Adam (joint and sequential) and SciPy front ends.
- **Shape helpers** (`utilities/util.py`, module `Util`): `flatten`, unknown-dimension replacement,
  `add_state_dims` / `merge_into_batch` on shapes, `env_extract_dims` over gym space kinds, and
  finished-episode detection.
- **Configurations** (`configs.py`, modules `Configs`, `ConfigTable`, `Recommended`): `make_config` with
  its 33 defaults, `derive_config` as a map override, the named configurations, and
  `recommended_config`.
- **Hand environments** (`environments/shadowhand.py`, module `ShadowHandEnvs`):
  - the step counter and time limit of `ShadowHand`;
  - the forced-finger check and one-hot goal of `ShadowHandFreeReach`;
  - the sequence position, clamping and reward exclusion rule of the tapping task;
  - the resting counter of the delayed tapping task.
- **Experience gathering** (`agent/gather.py`, `agent/gathering.py`, modules `Rollouts`, `Gather`,
  `Gathering`):
  - the counters, histories and data set of the continuous gatherer;
  - the trajectory shapes of the episodic and fixed-horizon gatherers.
- **Neuron classification** (`fixedpointfinder/fixedpoint_example.py`, module `FixedPointExample`):
  `classify_neurons`.

Floating-point values are `real`. The numerics the code calls but does not contain enter as opaque
functions carried in datatypes:
- `FixedPointFinders.Numerics`: the recurrent dynamics, their Jacobians, Adam and SciPy `minimize`;
- `Gather.Statistics`: `estimate_advantage`, `statistics.stdev`, the z-score;
- `Rollouts.Environment` and `Rollouts.Agent`: `env.reset`/`env.step` and `agent.act`/`agent.critic`.

Code that changes state step by step is modelled imperatively:
- classes with `modifies` clauses;
- loops with invariants;
- an array updated in place by `_compute_jacobian`.

Each such method is proved against a specification function, and the lemmas about that function
carry what the code promises.

Three points where the model follows the code rather than its description:
- Deduplication rounds each coordinate to `d` decimals and keeps the first record of each rounded
  location, in ascending lexicographic order of that location. It does not compare distances
  against a tolerance.
- The sequential Adam mode of `find_fixed_points` scores every record with the objective of the
  last input row, and with no initial condition it fails before post-processing
  (`FixedPointFinders.AdamFixedPointFinder.FindFixedPoints`). The corrected dispatch is
  `FindFixedPointsCorrected` (see Findings).
- `recommended_config` joins its groups with `dict(**g0, **g1, ...)`. That call raises a TypeError
  for a key listed twice. `Recommended.GroupsDisjoint` shows that no key is listed twice.

## Model

| member | source | states |
|---|---|---|
| FixedPointRecords.RoundHalfEven | LSTM/fixedpointfinder.py:175 | the rounded value is within half a unit of its argument, and a tie goes to the even neighbour (NumPy's rounding) |
| FixedPointRecords.RoundAtSpec | LSTM/fixedpointfinder.py:175 | rounding to `d` decimals lands on a whole number of steps of 10^-d, at most half a step from the value |
| FixedPointRecords.PartitionMembers | LSTM/fixedpointfinder.py:131-139 | a record is among the good ones iff it is an input record with `fun <= q_threshold`, and among the bad ones iff it is an input record with `fun > q_threshold` |
| FixedPointRecords.PartitionComplete | LSTM/fixedpointfinder.py:131-139 | good and bad together are the input as a multiset, and their lengths sum to the input length |
| FixedPointRecords.PartitionKeepsOrder | LSTM/fixedpointfinder.py:133-137 | both lists keep input order: splitting a concatenation gives the concatenations of the splits |
| FixedPointRecords.UniqueSortedKeys | LSTM/fixedpointfinder.py:175-177 | the rounded locations of the kept records are exactly those of the input |
| FixedPointRecords.UniqueSortedAscending | LSTM/fixedpointfinder.py:175 | the kept records are in strictly ascending order of rounded location, so no two share one |
| FixedPointRecords.UniqueSortedFirstOccurrences | LSTM/fixedpointfinder.py:175-177 | each kept record is the first input record with its rounded location (`return_index`) |
| FixedPointRecords.UniqueSortedOfSorted | LSTM/fixedpointfinder.py:175-177 | a list already strictly ascending in rounded location is kept as it is |
| FixedPointRecords.UniqueFixedPoints | LSTM/fixedpointfinder.py:164-177 | deduplication fails exactly on an empty list (`np.vstack([])`); otherwise it returns between 1 and `len(fps)` records |
| FixedPointRecords.UniqueFixedPointsIdempotent | LSTM/fixedpointfinder.py:173-177 | deduplicating the output again returns the same list |
| FixedPointRecords.SplitHiddenCell | LSTM/fixedpointfinder.py:240 | `h ++ c == x`, with `h` of length `n_hidden`, clamped to the state length as a Python slice clamps |
| FixedPointFinders.ParseRnnType | LSTM/fixedpointfinder.py:76-84 | exactly 'vanilla', 'gru' and 'lstm' are accepted, each to its own architecture; any other tag is a ValueError naming it |
| FixedPointFinders.HiddenUnits | LSTM/fixedpointfinder.py:76-81 | `n_hidden` is all the recurrent columns for vanilla, and the truncated third or quarter of them for GRU or LSTM |
| FixedPointFinders.AddGaussianNoise | LSTM/fixedpointfinder.py:117-123 | a zero scale returns the data; a negative scale fails, and only a negative one; a positive scale keeps the shape and shifts each entry by scale times its noise sample |
| FixedPointFinders.SampleStates | LSTM/fixedpointfinder.py:92-101 | fails iff an empty list of batches is stacked or draws are asked of an empty pool; otherwise one sample per draw (none for `n_inits = 0`): the drawn row plus 0.5 times its noise |
| FixedPointFinders.Records | LSTM/fixedpointfinder.py:205-216 | one record per optimised row, in order; record `k` holds `fun(fps[k])`, `fps[k]`, `x0[k]`, `inputs[k]` and no Jacobian |
| FixedPointFinders.PerPointRecords | LSTM/fixedpointfinder.py:441-446 | one record per row, scored by the objective of the system for that row's own input |
| FixedPointFinders.SingleRecord | LSTM/fixedpointfinder.py:441-446 | the SciPy worker's list holds exactly one record for its reshaped row |
| FixedPointFinders.ConcatSingletons | LSTM/fixedpointfinder.py:409 | flattening one-record lists gives one record per list, in list order |
| FixedPointFinders.ConcatPerPoint | LSTM/fixedpointfinder.py:370-389 | the single-record lists built one row at a time, flattened, are the per-point records of those rows |
| FixedPointFinders.FixedPointFinder.constructor | LSTM/fixedpointfinder.py:66-81 | the finder keeps the architecture, threshold, decimals and numerics, with `n_hidden` as `HiddenUnits` derives it |
| FixedPointFinders.FixedPointFinder.Create | LSTM/fixedpointfinder.py:76-84 | construction fails exactly for an unknown tag, with that tag's error; otherwise a fresh finder of the parsed architecture |
| FixedPointFinders.FixedPointFinder.HandleBadApproximations | LSTM/fixedpointfinder.py:125-139 | the appending loop returns exactly `Good` and `Bad` of its input |
| FixedPointFinders.FixedPointFinder.CreateFixedPointObjects | LSTM/fixedpointfinder.py:184-216 | the loop with the running counter `k` builds exactly `Records` |
| FixedPointFinders.FixedPointFinder.JacobianArgumentOf | LSTM/fixedpointfinder.py:239-243 | LSTM states are passed as `h` and `c` with `h ++ c == x`; other architectures get the whole state |
| FixedPointFinders.FixedPointFinder.WithJacobian | LSTM/fixedpointfinder.py:239-243 | adding `jac` keeps every other entry of the record and sets `jac` to the Jacobian at the record's own input |
| FixedPointFinders.FixedPointFinder.ComputeJacobian | LSTM/fixedpointfinder.py:218-245 | every record of the array is updated in place to carry its Jacobian, and to nothing else |
| FixedPointFinders.FixedPointFinder.AttachJacobians | LSTM/fixedpointfinder.py:229-245 | as many records as before, each the same record with its Jacobian |
| FixedPointFinders.FixedPointFinder.PostProcess | LSTM/fixedpointfinder.py:312-318 | the shared tail fails exactly when no record is good; otherwise it returns between 1 and `len(raw)` records |
| FixedPointFinders.FixedPointFinder.PostProcessRecords | LSTM/fixedpointfinder.py:312-315 | the imperative filter, deduplicate and attach-Jacobians sequence computes `PostProcess` |
| FixedPointFinders.FixedPointFinder.AttachJacobiansKeys | LSTM/fixedpointfinder.py:229-245 | attaching Jacobians changes no rounded location and no order |
| FixedPointFinders.FixedPointFinder.PostProcessConverged | LSTM/fixedpointfinder.py:312-315 | every returned record is converged (`fun <= q_threshold`) and carries a Jacobian |
| FixedPointFinders.FixedPointFinder.PostProcessDistinct | LSTM/fixedpointfinder.py:312-315 | the returned records are strictly ascending in rounded location and cover exactly the rounded locations of the good records |
| FixedPointFinders.FixedPointFinder.PostProcessSource | LSTM/fixedpointfinder.py:312-316 | every returned record is a raw record with `fun <= q_threshold`, with its Jacobian attached |
| FixedPointFinders.FixedPointFinder.PostProcessFirstOccurrence | LSTM/fixedpointfinder.py:175-177 | each returned record is the first good record with its rounded location, plus its Jacobian |
| FixedPointFinders.AdamFixedPointFinder.constructor | LSTM/fixedpointfinder.py:282-289 | the base finder gets the architecture, column count and `q_threshold`, while `tol_unique` keeps its default (3 decimals); the optimisation method is kept |
| FixedPointFinders.AdamFixedPointFinder.SequentialRecordsAsWritten | LSTM/fixedpointfinder.py:369-389 | as written, an empty `x0` leaves the objective unbound; otherwise every record is scored by the system for the last input |
| FixedPointFinders.AdamFixedPointFinder.JointOptimization | LSTM/fixedpointfinder.py:320-354 | one record per initial condition, record `k` tied to `x0[k]` and `inputs[k]`, scored by the joint objective |
| FixedPointFinders.AdamFixedPointFinder.SequentialOptimization | LSTM/fixedpointfinder.py:356-389 | one record per initial condition, in order, each optimised and scored on the system for its own input |
| FixedPointFinders.AdamFixedPointFinder.SequentialOptimizationAsWritten | LSTM/fixedpointfinder.py:369-389 | the loop as written computes `SequentialRecordsAsWritten` |
| FixedPointFinders.AdamFixedPointFinder.FindFixedPoints | LSTM/fixedpointfinder.py:291-318 | 'joint' post-processes the joint records; 'sequential' post-processes the records of the loop as written, all scored by the last input's system, and with no initial condition fails with the unbound objective; any other method is a ValueError naming it; at most `len(x0)` records are returned |
| FixedPointFinders.AdamFixedPointFinder.FindFixedPointsCorrected | LSTM/fixedpointfinder.py:291-318 | the same dispatch with the corrected sequential loop: every record it returns in sequential mode is converged at its own input (`q(x) <= q_threshold`) |
| FixedPointFinders.AdamFixedPointFinder.SequentialConverged | LSTM/fixedpointfinder.py:356-389 | post-processing the corrected sequential records keeps only records converged on the system for their own input |
| FixedPointFinders.SequentialAsWrittenAgreesOnSharedInput | LSTM/fixedpointfinder.py:370-387 | when all input rows are equal, the code as written and the corrected loop agree |
| FixedPointFinders.SequentialAsWrittenKeepsUnconverged | LSTM/fixedpointfinder.py:370-387 | a concrete input where the loop as written keeps a record whose speed at its own input is above the threshold |
| FixedPointFinders.ScipyFixedPointFinder.constructor | LSTM/fixedpointfinder.py:397-400 | the base finder gets the architecture and column count only, so `q_threshold` is the default 1e-12 and `tol_unique` the default (3 decimals) |
| FixedPointFinders.ScipyFixedPointFinder.ScipyOptimization | LSTM/fixedpointfinder.py:418-446 | a worker returns one record: the minimiser's result from its initial condition, tied to that condition and input, and scored at that input |
| FixedPointFinders.ScipyFixedPointFinder.FindFixedPoints | LSTM/fixedpointfinder.py:402-416 | the work items mapped in order and flattened are one record per initial condition; the result is their post-processing, at most `len(x0)` records |
| Util.Flatten | utilities/util.py:70-72 | a flattened value contains no lists, and a non-list flattens to a one-element list of itself |
| Util.FlattenItems | utilities/util.py:72 | the comprehension over a list's items yields no lists |
| Util.FlattenItemsAppend | utilities/util.py:72 | leaves keep their left-to-right order: a concatenation flattens to the concatenation of the flattenings |
| Util.FlattenItemsOfAtoms | utilities/util.py:72 | a list without sublists flattens to itself |
| Util.FlattenIdempotent | utilities/util.py:70-72 | `flatten(flatten(x)) == flatten(x)` |
| Util.InsertUnknownShapeDimensions | utilities/util.py:114-116 | the length is kept, each unknown dimension becomes `none_replacer`, and every known one is kept |
| Util.InsertIntoKnownShape | utilities/util.py:114-116 | a shape without unknown dimensions comes back unchanged, whatever the replacer |
| Util.InsertUnknownIdempotent | utilities/util.py:114-116 | replacing again with the same replacer changes nothing |
| Util.ExpandDims | utilities/util.py:98-99 | `numpy.expand_dims` on a shape inserts one axis of size 1 at a non-negative axis, or counted from the end; an axis out of range is an AxisError, and only then |
| Util.ExpandEach | utilities/util.py:99 | each component of a tuple state gets the axis; the whole fails only if some component does |
| Util.AddStateDims | utilities/util.py:93-99 | `dims < 1` returns the state itself; otherwise an array stays an array and a tuple keeps its arity |
| Util.AddStateDimsRank | utilities/util.py:93-99 | a successful call adds exactly `dims` axes (none for `dims < 1`) to the array or to every tuple component |
| Util.AddStateDimsAt | utilities/util.py:93-99 | for an axis within the rank, the new axes sit together at that axis: `shape[:axis] + (1,)*dims + shape[axis:]` |
| Util.AddStateDimsAtNegative | utilities/util.py:93-99 | for a negative axis within range, the new axes sit together before the last `-axis - 1` entries: `shape[:p] + (1,)*dims + shape[p:]` with `p = len(shape) + axis + 1` |
| Util.AddStateDimsAxisTooLarge | utilities/util.py:98 | an axis past the array's rank is rejected with an AxisError |
| Util.MergeIntoBatch | utilities/util.py:102-111 | an empty list is an IndexError; a merged batch has a leading dimension equal to the number of states, one batch per tuple component; a failure means some state differs from the first |
| Util.MergeUniform | utilities/util.py:102-111 | a non-empty list of equal states always merges |
| Util.LeadingDimension | utilities/util.py:51 | `space.shape[0]` succeeds exactly for a space with a non-empty shape, and is that shape's first entry |
| Util.ObservationDimsOf | utilities/util.py:37-51 | a Dict space's field gives `shape[0]` for a Box, or the field shapes for a Tuple; it is an error for any other field kind and a KeyError when the field is missing; a non-Dict space, of any kind that has a shape, gives `shape[0]` |
| Util.ActionDimOf | utilities/util.py:53-59 | `n` for Discrete, `shape[0]` for Box, NotImplementedError for every other space |
| Util.EnvExtractDims | utilities/util.py:34-61 | succeeds exactly when both sides do, with the pair of their results; an observation-side failure is reported first |
| Util.DetectFinishedEpisodes | utilities/util.py:119-129 | row `i` is finished iff its last entry is 0; any empty row is an IndexError, and only an empty row |
| Util.DetectFinishedEpisodesRows | utilities/util.py:128 | rows are judged independently: a split batch gives the two results joined |
| Configs.Derived | configs.py:14-19 | the derived keys are the original keys together with the overruled keys; overruled keys take the overruling value, and every other key keeps its original value |
| Configs.DeriveConfig | configs.py:14-19 | copying and assigning one overruling key at a time yields `Derived`; the original is a value and is left as it was |
| Configs.DeriveNothing | configs.py:16-19 | overruling nothing returns the original |
| Configs.DeriveTwice | configs.py:14-19 | deriving twice is deriving once, with the later overrules winning |
| ConfigTable.MakeConfig | configs.py:4-11 | the keywords are accepted iff all are parameters (the others are reported); the result has exactly the 33 parameters, each bound to the given value or else its default |
| ConfigTable.Make | configs.py:4-11 | a configuration made from valid keywords is what `MakeConfig` returns |
| ConfigTable.NoEntropyVariant | configs.py:27-42 | `discrete_no_ent` has the same keys as `discrete` and agrees with it except for `c_entropy`, which is 0.0 instead of 0.01 |
| ConfigTable.NoNormsVariant | configs.py:47-48 | `discrete_no_norms` agrees with `discrete` except for the two norming flags, which are set |
| ConfigTable.IterationBudgets | configs.py:116-141 | the budgets written as floor divisions are 488 (mujoco) and 3051 (roboschool) iterations |
| Recommended.FromKeys | configs.py:188-189 | `dict.fromkeys` maps exactly the listed ids, each to the given value |
| Recommended.JoinedKeys | configs.py:187-204 | an id is in the joined map iff some group lists it |
| Recommended.JoinedLookup | configs.py:187-204 | an id that no later group lists maps to its group's configuration |
| Recommended.GroupsDisjoint | configs.py:187-204 | no environment id is listed in two groups, so the `dict(**...)` join raises no duplicate-keyword error |
| Recommended.RecommendedConfig | configs.py:187-204 | every listed environment id is recommended its group's configuration |
| Recommended.RecommendedReacher | configs.py:197-200 | Reacher-v2 gets `mujoco` while Hopper-v2 gets `mujoco_beta` |
| Recommended.RecommendedConfigKeys | configs.py:187-204 | only listed environment ids have a recommendation |
| ShadowHandEnvs.ShadowHand.constructor | environments/shadowhand.py:73-74 | the step counter starts at 0 with the given step budget |
| ShadowHandEnvs.ShadowHand.Step | environments/shadowhand.py:189-196 | the counter goes up by exactly 1, and `done` holds iff the simulator ended the episode, the object dropped, or the counter reached `max_steps` |
| ShadowHandEnvs.ShadowHand.Reset | environments/shadowhand.py:198-201 | the counter is back at 0 |
| ShadowHandEnvs.Without | environments/shadowhand.py:406 | the comprehension keeps exactly the names other than the excluded one |
| ShadowHandEnvs.IndexOf | environments/shadowhand.py:412 | `list.index` gives the first position holding the name |
| ShadowHandEnvs.FreeFingers | environments/shadowhand.py:406 | the free draw chooses among the four non-thumb fingertips |
| ShadowHandEnvs.DrawnFinger | environments/shadowhand.py:405-412 | a free draw is a fingertip index and never the thumb |
| ShadowHandEnvs.DrawnFingerCovers | environments/shadowhand.py:405-412 | every non-thumb finger can be drawn |
| ShadowHandEnvs.OneHot | environments/shadowhand.py:419-420 | the goal has one entry per fingertip: 1 at the target and 0 everywhere else |
| ShadowHandEnvs.OneHotIndex | environments/shadowhand.py:428 | `np.where(goal == 1)` on the one-hot goal finds the target and nothing else |
| ShadowHandEnvs.ShadowHandFreeReach.constructor | environments/shadowhand.py:381-388 | the fields set before the robot environment's own initialisation runs: the forced finger, and the `"none"` target that `ShadowHandReach.__init__` sets at line 258 |
| ShadowHandEnvs.ShadowHandFreeReach.Create | environments/shadowhand.py:381-388 | construction fails exactly when the forced finger is neither None nor in 0..4; otherwise the first goal is sampled during construction, so the target is the forced finger, or the drawn non-thumb finger |
| ShadowHandEnvs.ShadowHandFreeReach.SampleGoal | environments/shadowhand.py:404-422 | the target becomes the forced finger, or a drawn non-thumb finger; the goal is the fresh one-hot vector of the target |
| ShadowHandEnvs.TappingAdvance | environments/shadowhand.py:599-606 | a success moves one element on and no success stays put; the position stays within the sequence; the episode is finished iff the last element is tapped |
| ShadowHandEnvs.TappingRun | environments/shadowhand.py:595-606 | any run of steps keeps the position within the sequence |
| ShadowHandEnvs.TappingRunSuccesses | environments/shadowhand.py:599-606 | `k` consecutive successes advance the position by exactly `k` while the sequence lasts |
| ShadowHandEnvs.TappingCompletes | environments/shadowhand.py:550-606 | after a reset, six successes reach the last of the seven taps and a seventh finishes the episode |
| ShadowHandEnvs.LastGoal | environments/shadowhand.py:555-557 | the last goal is the previous element of the sequence, or the first at position 0 |
| ShadowHandEnvs.BonusIgnoresExcluded | environments/shadowhand.py:565-570 | the distance bonus does not depend on the thumb, the current target or the last target |
| ShadowHandEnvs.BonusCountsOthers | environments/shadowhand.py:565-570 | the bonus grows by exactly the change in distance to any finger not excluded |
| ShadowHandEnvs.ShadowHandTappingSequence.constructor | environments/shadowhand.py:547-551 | the sequence is `[0,1,2,3,2,1,0]` and the position starts at 0 |
| ShadowHandEnvs.ShadowHandTappingSequence.ComputeReward | environments/shadowhand.py:553-574 | the reward is minus the distance to the target, plus the success bonus, plus a fifth of the bonus distance that leaves out the thumb, the target and the last target, minus 0.1 |
| ShadowHandEnvs.ShadowHandTappingSequence.Step | environments/shadowhand.py:595-608 | the position moves as `TappingAdvance` says and stays within the sequence; `done` holds iff the simulator ended the episode or the last tap succeeded |
| ShadowHandEnvs.ShadowHandTappingSequence.Reset | environments/shadowhand.py:610-614 | the position is back at 0 |
| ShadowHandEnvs.DelayedAdvance | environments/shadowhand.py:648-667 | no success changes nothing; a success while resting only counts up; a success after resting advances as the tapping task does and restarts the count; the count stays within the resting duration |
| ShadowHandEnvs.DelayedRun | environments/shadowhand.py:648-667 | any run of steps keeps the position within the sequence |
| ShadowHandEnvs.DelayedRests | environments/shadowhand.py:652-655 | successes within the resting period only count up, and the position stays |
| ShadowHandEnvs.DelayedMovesAfterResting | environments/shadowhand.py:652-659 | from a fresh target, `resting_duration + 1` successes move to the next element with the count back at 0 |
| ShadowHandEnvs.DelayedRunAppend | environments/shadowhand.py:648-667 | running two stretches of steps is running them one after the other |
| ShadowHandEnvs.ShadowHandDelayedTappingSequence.constructor | environments/shadowhand.py:642-646 | position and resting count start at 0 with the given resting duration |
| ShadowHandEnvs.ShadowHandDelayedTappingSequence.Step | environments/shadowhand.py:648-667 | the position and count move as `DelayedAdvance` says, keeping `steps_on_target <= resting_duration`; `done` holds iff the simulator ended the episode or the last tap succeeded after its resting period (once `steps_on_target` has reached `resting_duration`) |
| ShadowHandEnvs.ShadowHandDelayedTappingSequence.Reset | environments/shadowhand.py:610-614 | the inherited reset returns the position to 0 and leaves the resting count as it was |
| Gather.NormalizeAdvantages | agent/gather.py:42-46 | with normalising off the advantages come back unchanged; with it on they are z-scored |
| Gather.NextRollout | agent/gather.py:84-108 | one step appends exactly one state, action, reward, probability and terminal; a `done` appends the episode length and return and restarts the step count at 1, otherwise the count goes up by one |
| Gather.RolloutAfter | agent/gather.py:77-108 | after `t` steps the per-step lists have `t` entries each, and there are as many episode lengths as returns |
| Gather.ValuePredictions | agent/gather.py:117 | one critic value per state, each the critic's value of that state |
| Gather.RolloutEpisodeCount | agent/gather.py:94-102 | the number of completed episodes is the number of steps that reported `done` |
| Gather.RolloutLengthSum | agent/gather.py:77-108 | the completed lengths plus the steps of the current episode account for every step, so the lengths sum to at most the steps taken |
| Gather.RolloutEpisodesNonEmpty | agent/gather.py:100-108 | every completed episode lasted at least one step |
| Gather.ContinuousGatherer.constructor | agent/gather.py:16-36 | all counters and histories start empty, and the continuous gatherer normalises |
| Gather.ContinuousGatherer.Gather | agent/gather.py:60-130 | frames grow by `horizon`, the step count is `horizon`, and the histories grow by the completed episodes; the mean and stdev gain one entry each (0 when too few episodes); the data set holds `horizon` steps, with `return[t] = advantage[t] + value[t]` before normalisation |
| Gather.ContinuousGatherer.Collect | agent/gather.py:68-108 | the stepping loop reaches `RolloutAfter(horizon)`, counts every step as a frame, and appends exactly the completed episodes to the histories |
| Gather.ContinuousGatherer.StepRollout | agent/gather.py:84-108 | one pass of the loop body computes `NextRollout`, extending lengths and returns exactly when the step reported `done` |
| Gathering.Advance | agent/gathering.py:52-62 | a pass of the inner loop records exactly one more entry in each of the four lists |
| Gathering.AdvanceFollows | agent/gathering.py:52-62 | a pass records the agent's choice on the current state and the environment's reward, and moves on to the observation |
| Gathering.EpisodeAfter | agent/gathering.py:49-62 | the four lists stay equally long, at most one entry per pass, and exactly one per pass until `done` |
| Gathering.DoneStays | agent/gathering.py:51 | once `done`, further passes change nothing |
| Gathering.RunningWithinLimit | agent/gathering.py:51-53 | an episode still running after some passes has not reached the environment's time limit |
| Gathering.EpisodeEnds | agent/gathering.py:51 | under a time limit, every episode ends within the limit, so the `while not done` loop terminates |
| Gathering.EpisodeAfterFollows | agent/gathering.py:49-62 | every run the loop reaches starts from the reset state and follows the agent and the environment; its next state and `done` came with its last recorded step, and no earlier step reported `done` |
| Gathering.EpisodeShape | agent/gathering.py:49-62 | an episode has at least one step; it starts from the reset observation; its last step, and only that one, reports `done` |
| Gathering.EpisodicGatherer.constructor | agent/gathering.py:15-22 | the gatherer keeps the number of trajectories |
| Gathering.EpisodicGatherer.Gather | agent/gathering.py:31-69 | four lists of `n_trajectories` entries (states, rewards, actions, probabilities); entry `k` is the `k`-th episode |
| Gathering.EpisodicGatherer.CollectEpisode | agent/gathering.py:44-62 | the `while not done` loop records exactly the episode `Episode` describes |
| Gathering.StretchAfter | agent/gathering.py:102-114 | after `t` steps every list has exactly `t` entries, whatever `done` was reported |
| Gathering.StretchFollows | agent/gathering.py:102-114 | a fixed-length trajectory starts from its own reset and follows the agent and the environment for every step, `done` or not |
| Gathering.ContinuousGatherer.constructor | agent/gathering.py:74-82 | the gatherer keeps the number of trajectories and `T` |
| Gathering.ContinuousGatherer.Gather | agent/gathering.py:84-121 | four lists of `n_trajectories` entries; entry `k` has exactly `T` steps, starting from the `k`-th reset |
| Gathering.ContinuousGatherer.CollectStretch | agent/gathering.py:97-114 | the `for t in range(T)` loop records exactly `StretchAfter(T)` |
| FixedPointExample.Abs | fixedpointfinder/fixedpoint_example.py:90 | the absolute value is non-negative and is the entry or its negation |
| FixedPointExample.BucketOf | fixedpointfinder/fixedpoint_example.py:89-101 | a bucket has one weight row per index, and each index is a row of the input |
| FixedPointExample.BucketMembership | fixedpointfinder/fixedpoint_example.py:90-100 | neuron `k` is in bucket `j` iff its weight to output `j` exceeds the threshold in absolute value |
| FixedPointExample.BucketOrdered | fixedpointfinder/fixedpoint_example.py:87-101 | a bucket's indices strictly increase, and `weights[m]` is the row of neuron `index[m]` |
| FixedPointExample.Classified | fixedpointfinder/fixedpoint_example.py:84-86 | there are three buckets, `number_one` to `number_three` |
| FixedPointExample.ClassifiedMembership | fixedpointfinder/fixedpoint_example.py:90-100 | bucket `j` of three lists neuron `k` iff `abs(w[k][j]) > threshold`; weights to outputs from the fourth on play no part, and one neuron may be in several buckets |
| FixedPointExample.ThresholdIsStrict | fixedpointfinder/fixedpoint_example.py:90 | a weight equal to the threshold does not qualify, and only the second bucket lists the example neuron |
| FixedPointExample.ClassifyNeurons | fixedpointfinder/fixedpoint_example.py:83-102 | the nested loops with the counter `k` build exactly the three classified buckets |

## Left out

- The recurrent dynamics (`build_rnn_ds`, `build_gru_ds`, `build_lstm_ds`), `adam_optimizer`, SciPy `minimize` and the numdifftools gradient and Hessian are floating-point numerics that this repository does not contain. They are opaque functions of `FixedPointFinders.Numerics`.
- FixedPointFinders.FixedPointFinder.constructor: takes the recurrent kernel's column count and the rounding decimals `d`. It does not take the weights and `tol_unique`, because computing `d = int(round(-log10(tol_unique)))` needs a logarithm. Verbose printing (`_print_hps`) is left out.
- The hyperparameters handed to the optimisers (`epsilon`, `max_iters`, `print_every`, `norm_clip`, `alr_hps`, the SciPy method and display flag) are left out. They only reach the opaque optimisers.
- FixedPointFinders.AdamFixedPointFinder.JointOptimization: requires `FixedPointFinders.JointKeepsCount`, that `adam_optimizer` on all initial conditions returns one row per initial condition. The optimiser is opaque, so this is assumed of it rather than derived. `JointRecords` and both dispatchers require it for the joint mode too.
- FixedPointFinders.AdamFixedPointFinder.JointOptimization: the objective used to score joint records, including the LSTM rebuild in sequential mode, is one opaque function, `jointSpeed`.
- The random draws of `sample_states` and `_add_gaussian_noise` (`randint`, `randn`) are parameters. A draw is reduced modulo the pool size.
- The multiprocessing pool of the SciPy finder is an ordered sequential map. Concurrency is not modelled.
- `compute_velocities` is left out. It overwrites its input argument and is not used by the finders.
- The Adam and SciPy finders hold a base finder rather than inheriting from it. Dafny classes here have no inheritance.
- Arrays in `utilities/util.py` are represented by their shapes only. `normalize`, `parse_state`, `get_available_gpus`, `set_all_seeds` and `flat_print` are left out: they are floating-point, device or I/O helpers.
- Util.MergeIntoBatch: rejects every list whose states are not all equal in shape. NumPy would also accept later tuple states with extra components and ignore those components.
- ConfigTable.MakeConfig: the failure carries the set of all unexpected keywords. Python's TypeError names only the first one.
- `make_config` is modelled for keyword arguments only; positional arguments are not. The `__main__` table export of configs.py is left out (pandas and file I/O).
- Recommended: the values of `recommended_config` are the names of the configurations (`ConfigName`); `Recommended.Named` maps each name to its configuration.
- The MuJoCo simulation is left out of the hand environments. The simulator's `done`, `info["is_success"]`, whether the object dropped and the fingertip distances are parameters.
- Rendering, colours, observation spaces and touch sensors are left out, as is the geometric goal sampling of `ShadowHandReach` and `ShadowHandMultiReach`.
- The reward of `ShadowHandFreeReach` is left out: it needs simulator positions and the force punishment. So is the reward of `ShadowHandFreeReachAction`.
- `FINGERTIP_SITE_NAMES` comes from gym. Its value (four fingers, then the thumb) is written out as `ShadowHandEnvs.FingertipSiteNames`.
- ShadowHandEnvs.ShadowHandFreeReach.constructor: gym's `RobotEnv.__init__`, which `ShadowHandReach.__init__` reaches through `super().__init__`, is not part of this model. Only its goal sampling is modelled, as the `SampleGoal` call that ends `ShadowHandFreeReach.Create`.
- ShadowHandEnvs.ShadowHandFreeReach.SampleGoal: the random finger choice is a parameter `draw`, mapped onto the four non-thumb fingers.
- The tapping classes do not inherit from `ShadowHandFreeReach`. Each carries only the state its own `step` and `reset` change. The delayed class does not restate the inherited `compute_reward`.
- The environment and the agent of the gatherers are values (`Rollouts.Environment`, `Rollouts.Agent`). `reset(k)` is the `k`-th reset and `step(k, i, a)` the `i`-th step after it, both counted within one `gather` call. Environment state carried from one call to the next is not modelled. A step's outcome depends on the reset count, the step index and the current action only, not on earlier actions of the episode (the simulator state they leave behind). `act` is a function, so the policy's sampling is a fixed choice per observation rather than a fresh random draw. The properties proved hold for any such functions. The `gathering.py` gatherers receive the environment in `gather` instead of storing it.
- `estimate_advantage`, `statistics.mean`/`stdev` input handling, TensorFlow reshaping and casting, `numpy.atleast_1d` and the `tf.data.Dataset` wrapping are left out. The z-score of `normalize_advantages` is the opaque `Statistics.zscore`; only its identity branch is concrete.
- Gather.ContinuousGatherer.Gather: requires `Gather.AdvantagePerReward`, that `estimate_advantage` returns one advantage per reward. The function is opaque, so this is assumed of it rather than derived.
- Gathering.EpisodicGatherer.Gather: requires an environment that ends every episode within its `maxEpisodeSteps` (`Rollouts.EndsEpisodes`). On an environment that never reports `done`, the code's `while not done` loop does not terminate, and the model does not cover that case.
- The rest of fixedpointfinder/fixedpoint_example.py (PCA, plotting, model reconstruction) is left out.

## Findings

| source | as written | input that shows it | evidently intended | confidence | as-written member | corrected member |
|---|---|---|---|---|---|---|
| LSTM/fixedpointfinder.py:370-387 | the sequential loop rebinds `fun` for each input row, but records are built after the loop, so every record's `fun` is the speed under the system for the LAST input row; with no initial condition `fun` is unbound | `x0 = [[0.0], [0.0]]`, `inputs = [[1.0], [0.0]]`, `q_threshold = 0.5`, with speed at input `u` equal to `u[0]` and an optimiser that stays put: the first record's speed at its own input is 1.0, yet it is scored 0.0 and kept as converged | each record scored by the system built for its own input, as the joint mode and the SciPy finder do | not executed; high | FixedPointFinders.AdamFixedPointFinder.SequentialOptimizationAsWritten, FixedPointFinders.SequentialAsWrittenKeepsUnconverged | FixedPointFinders.AdamFixedPointFinder.SequentialOptimization, FixedPointFinders.AdamFixedPointFinder.FindFixedPointsCorrected |
