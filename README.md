# Learning-SAT-Solvers: the combinatorial core, modelled in Dafny

Learning-SAT-Solvers trains a neural policy to satisfy CNF formulas. The policy
picks a value for one variable per step, and policy-gradient training improves it. Around the network sits exact
bookkeeping, which this project models and proves things about:

- **Clause evaluator** (`ClauseEval`, `RootUtils`). This covers `num_sat_clauses`,
  `num_sat_clauses_tensor`, `sampled_sol` and the duplicate `assignment_verifier`.
  Literals are non-zero signed integers naming 1-based variables. A literal `-v`
  holds when the value of `v` is 0, and `v` holds when it is not 0.
- **DIMACS reader** (`Dimacs`, `RootUtils`). This covers both copies of `dimacs2list`,
  taken over text already split into lines and tokens. A printer `Print` is
  its partner, and the two are proved to round-trip.
- **Literal/clause graph** (`LiteralGraph`). These are the edges `dimacs2graph` builds
  on 2n+m nodes.
- **Variable orders** (`VarPermutation`).
  - `FixedVarsPermutation` orders the variables by incidence count, descending, with ties going to the larger index.
  - `RandomVarsPermutation` takes its random draws as inputs.
- **Episode runner** (`Episode`). This covers `Buffer` / `Buffer.update` and `run_episode`.
  The policy is an oracle returning 0 or 1 for each query.
- **Rollout baseline** (`Baselines`). This covers `BaselineRollout`'s validation, its
  strategy mapping and its mean of counts.
- **Trainer** (`Trainer`). This covers the schedule of `train`, its evaluation strategies
  and the active-search record. The baseline is called with keywords, and the
  call binds against the parameter list the baseline's `forward` declares.
  `train` as written has the `forward` of src/architecture/baselines.py
  (`ForwardParams`). With that list, a run with a baseline ends in TypeError
  (see Findings). Passing the corrected list models the intended program.

The network, the sampling and the loss are outside the model. `run_episode`
calls `utils.vars_permutation`, which is commented out in src/utils.py
(lines 93-108) and so is not part of this model. The permutation table
is therefore an input: a per-rollout provider that must return, for each row, a
permutation of 0..n-1.

## Model

| member | source | states |
|---|---|---|
| ClauseEval.NumSatClauses | src/utils.py:164-192 | one flag per clause, true iff some literal of the clause holds; the count is the number of true flags, at most the clause count; `is_sat` iff the count equals the clause count iff every clause holds |
| ClauseEval.NumSatBounds | src/utils.py:189-192 | 0 <= num_sat <= len(formula), and num_sat == len(formula) exactly when every clause has a true literal |
| ClauseEval.CountTrueBounds | src/utils.py:190-191 | `sum` of a boolean list is at most its length, and equals it iff `all` holds |
| ClauseEval.EmptyClauseUnsatisfied | src/utils.py:186-189 | an empty clause is never satisfied (`any([])` is false), so a formula holding one is never fully satisfied |
| ClauseEval.UnitClausesComplementary | src/utils.py:184-187 | polarity: under every assignment exactly one of the unit clauses [v] and [-v] holds |
| ClauseEval.SmallFormulaCounts | src/utils.py:180-192 | worked instance: (x1 or x2)(not x1 or x2)(x1 or not x2) has count 3 under [1,1] and 2 under [0,0] |
| ClauseEval.NumSatClausesTensor | src/utils.py:139-161 | one count per batch row, each equal to the single-row count of that row and at most the clause count; the type check never raises, so there is no error path |
| ClauseEval.SampledSol | src/utils.py:656-684 | the result is at least every row's count; it is (0, None) exactly when no row satisfies a clause; otherwise the row returned is the first one reaching the maximum (strict `>`) |
| RootUtils.AssignmentVerifier | utils.py:4-29 | computes the same flags and count as `num_sat_clauses`; `is_sat` iff every clause has a true literal; the empty formula is satisfied with count 0 |
| RootUtils.Dimacs2List | utils.py:38-68 | the `if`/`if`-`elif` version reads every token-line list exactly as the specification `Dimacs.Parse` does (same result, same errors) |
| Dimacs.Dimacs2List | src/utils.py:218-248 | the line loop returns exactly `Parse(lines)`: header from tokens 2 and 3 of `p` lines, one clause per other line, stop at `%`, IndexError/ValueError/unbound-header failures |
| Dimacs.ReadClause | src/utils.py:238-245 | reads tokens as integers up to and excluding the first 0, failing with ValueError on the first token `int` rejects |
| Dimacs.ClauseIgnoresTail | src/utils.py:239-244 | whatever follows the first 0 on a clause line is never read, not even tokens `int` would reject |
| Dimacs.PercentEndsScan | src/utils.py:246-247 | a `%` line ends parsing: lines after it do not affect the result |
| Dimacs.CommentIgnored | src/utils.py:237 | removing a `c` line anywhere leaves the result unchanged |
| Dimacs.NoHeaderFails | src/utils.py:234-248 | text without a `p` line never yields a formula, empty lines included (IndexError there; otherwise n and m are unbound at the return) |
| Dimacs.TrailingEmptyLineFails | src/utils.py:232-234 | text with no `%` line that ends in an empty line fails with IndexError, since `line[0]` is read before any length test, unless an earlier line has already raised its own IndexError or ValueError, which is then the result |
| Dimacs.ClauseLineRoundTrip | src/utils.py:238-245 | a clause written as its literals followed by 0 is read back as the same clause |
| Dimacs.PrintParseRoundTrip | src/utils.py:232-248 | parsing printed DIMACS gives back n, m and every clause in order |
| LiteralGraph.LiteralNodeBijective | src/utils.py:275 | literal v maps to node v-1 and -v to node v+n-1, a bijection between the 2n literals and the nodes 0..2n-1, with node u+n the negation of node u |
| LiteralGraph.LinkNegations | src/utils.py:266-269 | 2n edges: at position 2u the edge (u, u+n), followed by its reverse, all below 2n |
| LiteralGraph.LinkClause | src/utils.py:274-277 | the clause node is joined to each literal node in clause order, every edge followed by its reverse |
| LiteralGraph.LinkStep | src/utils.py:272-277 | one clause round keeps the builder's invariants: edge count, reverse pairs, node bound 2n+c+1, earlier clauses' edges untouched |
| LiteralGraph.Dimacs2Graph | src/utils.py:251-277 | 2n+m nodes numbered 0..2n+m-1; 2n + 2·Σ\|clause\| edges; every edge is followed by its reverse; negation edges first; clause c's edges link node 2n+c to its literals; all endpoints below 2n + len(formula) |
| VarPermutation.RandomVarsPermutation.constructor | src/utils.py:37-39 | stores num_variables and random_batch |
| VarPermutation.RandomVarsPermutation.Permute | src/utils.py:41-48 | fails exactly when batch_size is 0 (`torch.cat` of an empty list); otherwise it returns n rows of batch_size entries, every column a permutation of 0..n-1, column b being draw b (random_batch) or the single draw |
| VarPermutation.SharedDrawSameColumns | src/utils.py:46-48 | with random_batch false, all columns are equal |
| VarPermutation.CountIncidences | src/utils.py:63-72 | the `var_count` dictionary: keys exactly 1..n, each value the variable's incidence count; KeyError exactly when some literal is 0 or names a variable beyond n, keyed by the first such literal in clause-then-literal order |
| VarPermutation.SortFacts | src/utils.py:75 | the sort keeps the items (as a multiset), orders them by (count, variable) descending, keeps them distinct |
| VarPermutation.FixedVarsPermutation.constructor | src/utils.py:78-83 | stores the computed order as `sorted_variables` |
| VarPermutation.NewFixedVarsPermutation | src/utils.py:60-83 | with `importance`, the order is the incidence order (KeyError keyed by the first literal, in clause-then-literal order, that is 0 or beyond n); without it, the identity 0..n-1 |
| VarPermutation.ImportanceOrderIsPermutation | src/utils.py:75-78 | the incidence order is a permutation of 0..n-1 |
| VarPermutation.ImportanceOrderRanked | src/utils.py:74-78 | along the order the incidence counts never increase, and equal counts put the larger variable index first |
| VarPermutation.FixedOrderIsPermutation | src/utils.py:60-83 | either way it is built, the fixed order is a permutation of 0..n-1 |
| VarPermutation.FixedVarsPermutation.Permute | src/utils.py:85-89 | fails exactly when batch_size is 0; otherwise every column is `sorted_variables`, so it is a permutation table whenever the order is a permutation |
| Episode.Buffer.Update | src/train.py:42-47 | the update happens iff the dtype is int64 (the assert); cell (idx[k], t[k]) then holds value k; every untargeted cell is unchanged |
| Episode.DecoderVars | src/train.py:139-160 | GRU/LSTM decoders see the current variable only; the transformer sees the first t+1 variables of the row's permutation |
| Episode.PrefixLength | src/train.py:117-124 | the previous-action prefix starts as the single init token; it has length t+1 after t steps for the transformer and stays length 1 for GRU/LSTM, ending with the latest action |
| Episode.ScatterAt | src/train.py:223 | writing step t's action at the row's t-th permuted variable puts it exactly there |
| Episode.BufferIsEpisodeRows | src/train.py:137-223 | when every (row, step) cell has been written at the permuted index, the buffer equals the episode's rows |
| Episode.Buffer.constructor | src/train.py:29-37 | the action tensor is a fresh [batch_size, num_variables] array |
| Episode.RecurrentStateInputs | src/train.py:139-149 | a GRU/LSTM state has consumed, at each earlier step i, the row's i-th variable and the previous token (the initial token at step 0) |
| Episode.PrefixStep | src/train.py:231-244 | one action replaces the GRU/LSTM prefix by that action and appends it to the transformer's |
| Episode.StateStep | src/train.py:145-149 | one GRU/LSTM step adds that step's (variable, previous token) input to the state |
| Episode.NextRow | src/train.py:139-244 | one step extends the row's actions by the oracle's choice; the prefix grows (transformer) or is replaced (GRU/LSTM), and a GRU/LSTM state absorbs the step's variable and token |
| Episode.WriteStep | src/train.py:223 | step t writes each row's action at `perm[t][b]` and keeps the cells of earlier steps (a permutation never repeats a variable) |
| Episode.RunStep | src/train.py:137-244 | one loop iteration takes the loop state at step t to the state at step t+1 |
| Episode.RunEpisode | src/train.py:51-252 | fails exactly as the source does, in its order: clipping < 1, temperature < 1, output size not 1 or 2, then an unknown strategy once a step runs; otherwise action[b, perm[t][b]] is row b's t-th oracle action, and the buffer holds one 0/1 value per (row, variable) |
| Baselines.RolloutSettings | src/architecture/baselines.py:20-30 | ValueError iff num_rollouts is not an int, is < -1, or is 0; -1 gives ('greedy', 1); k >= 1 gives ('sampled', k) |
| Baselines.BaselineRollout.constructor | src/architecture/baselines.py:25-30 | stores the strategy and rollout count it is given |
| Baselines.NewBaselineRollout | src/architecture/baselines.py:20-30 | construction fails exactly as `RolloutSettings` does; on success, strategy is greedy or sampled and num_rollouts >= 1 |
| Baselines.SumBound | src/architecture/baselines.py:44 | a sum of counts each at most m is at most length·m |
| Baselines.MeanBounds | src/architecture/baselines.py:44 | a mean of counts each between 0 and m lies between 0 and m |
| Baselines.BaselineRollout.Forward | src/architecture/baselines.py:33-45 | as written: one rollout of batch num_rollouts with no clipping or temperature; fails exactly on a bad output size, with that output-size error; the value is the mean of the per-row counts, between 0 and len(formula) |
| Baselines.BaselineRollout.ForwardCorrected | src/architecture/baselines.py:33-45 | the signature train calls: the same rollout with clipping and temperature passed through, failing exactly as that rollout does, the value again the mean of counts within [0, len(formula)] |
| Baselines.BaselineRollout.MeanRollout | src/architecture/baselines.py:36-45 | the shared body: run the episode, count per row, return the mean |
| Baselines.BindKeywords | src/architecture/baselines.py:33-34 | a keyword call binds iff every keyword is a parameter and every parameter is given |
| Baselines.TrainCallRejected | src/train.py:381-389 | train's baseline call fails against `forward`'s parameters, on `logit_clipping` |
| Baselines.TrainCallAccepted | src/train.py:381-389 | the same call binds against the corrected parameter list |
| Trainer.NumEpisodes | src/train.py:356 | the episode count e = ceil(num_samples / batch_size): e·batch_size >= num_samples > (e-1)·batch_size |
| Trainer.BreakOnlyAtEnd | src/train.py:576-599 | the `current_samples == num_samples` break can only happen in the last episode |
| Trainer.Multiples | src/train.py:431-435 | the episodes 1..hi where `episode % d == 0`, strictly increasing, and none when d is 0 |
| Trainer.FirstMultiple | src/train.py:479 | the first evaluation cannot come before episode \|eval_interval\| |
| Trainer.ArgMax | src/train.py:529 | `argmax` returns the first index holding the maximum |
| Trainer.EvalRows | src/train.py:489-497 | an evaluation rollout has 1 row for strategy 0 and k rows for k, each with one value per variable |
| Trainer.EvalOutcome | src/train.py:500-530 | the evaluation is tagged with its episode and strategy; its value is at most len(formula), for strategy 0 (greedy) it is the single row's count with the whole batch as solution; for k (best of k) it is the count of the first row reaching the maximum over the k rows, with that row as solution |
| Trainer.CycleEvals | src/train.py:486-530 | an evaluation cycle yields exactly one evaluation per strategy |
| Trainer.ReplayKeepsBest | src/train.py:520-530 | the record's num_sat is the maximum of its start and all evaluations, never decreasing; it changes only on a strictly larger count, and then it is the first evaluation reaching the maximum |
| Trainer.ReplayAppend | src/train.py:520-530 | processing evaluations in two batches gives the same record as processing them at once |
| Trainer.ReplayIgnoresTotals | src/train.py:552-553 | refreshing total_samples/total_episodes does not affect how later evaluations update the record |
| Trainer.EpisodeCheck | src/train.py:361-415 | an episode's checks pass iff clipping is absent or >= 1, the output size is 1 or 2, with a baseline the keyword call binds and the temperature is absent or >= 1, and the estimator is crude or smooth; without a baseline no baseline error arises |
| Trainer.TrainingEpisode | src/train.py:361-415 | the training part of an episode fails exactly as `EpisodeCheck` says, in order: rollout clipping, output size, the baseline's keyword call (TypeError), baseline temperature, entropy estimator; only two parameter lists are meaningful: `ForwardParams` (as written) and `CorrectedForwardParams` |
| Trainer.TrainFailure | src/train.py:255-601 | `train` succeeds iff the verbose level is valid, batch_size >= 1 and, when an episode runs, the episode checks pass, no interval is 0 and the first evaluation cycle (if reached) passes |
| Trainer.BaselineRunFails | src/train.py:380-389 | with the `forward` as written, every run with a baseline whose training rollout passes ends with TypeError at `logit_clipping` |
| Trainer.CorrectedBaselineRuns | src/train.py:380-389 | with the corrected `forward`, a baseline adds only the temperature check to an episode's checks |
| Trainer.EvalStrategy | src/train.py:489-517 | an evaluation rollout fails exactly as `run_episode` does and otherwise reports `EvalOutcome` |
| Trainer.EvalAndOffer | src/train.py:489-530 | the evaluation is offered to the record, which adopts it only on a strictly larger count |
| Trainer.EvalCycle | src/train.py:486-530 | validates each strategy in order (TypeError if it does not compare with 0, ValueError if negative or not an int), fails exactly as `EvalFailure` says, and otherwise returns the record after all strategies' evaluations |
| Trainer.FailureInEpisode | src/train.py:361-497 | a failure in episode e after good episodes is the failure `TrainFailure` names |
| Trainer.QuietEpisode | src/train.py:431-438 | an episode with no evaluation keeps the record and logs the optimizer step iff e % accumulation_episodes == 0 |
| Trainer.ScheduleGrows | src/train.py:479 | a multiple of eval_interval adds one cycle to the evaluation schedule and becomes its last cycle |
| Trainer.CycleEpisode | src/train.py:479-553 | an evaluation episode appends its evaluations and sets total_samples/total_episodes to this episode |
| Trainer.TrainLoopStep | src/train.py:357-599 | one loop iteration, with the baseline called against its declared parameters, either fails as `TrainFailure` says or advances the progress invariant by one episode |
| Trainer.CompletedRunSucceeds | src/train.py:356-601 | once all episodes have run, `TrainFailure` reports no failure |
| Trainer.Train | src/train.py:255-601 | fails exactly as `TrainFailure` says (verbose, batch size 0, the first episode's checks including the baseline's keyword call, a zero interval, the first evaluation cycle); otherwise it runs ceil(num_samples/batch_size) episodes, steps the optimizer exactly at the multiples of accumulation_episodes, evaluates exactly at the multiples of eval_interval, and returns the record those evaluations produce with the totals of the last cycle |

## Left out

- The neural network, its decoders and their floating-point numerics are left out. This covers tanh clipping, temperature division, sigmoid/softmax, Bernoulli/Categorical sampling and log-probabilities. The policy's step is an oracle `Query -> Bit`. Each query carries the rollout's identity (training, baseline, or evaluation j of episode e), so sampling randomness and parameter updates between episodes are folded into the oracle.
- The buffer's `action_logits`, `action_probs` and `action_log_prob` arrays are float tensors written by the same `update` call. Only the `action` array is modelled.
- The entropy values, the loss, `backward`, gradient clipping and the optimizer's effect on parameters are left out. An optimizer step is recorded only as the episode it happens in. The loss division by `accumulation_episodes` (src/train.py:425) divides a tensor, so it does not raise. The ZeroDivisionError comes from the `%` at line 431, which is where the model raises it.
- Randomness: `torch.randperm` draws are inputs to `RandomVarsPermutation.Permute`.
- The permutation used by `run_episode` comes from a provider of permutation tables. The source's `utils.vars_permutation`, which would supply it, is commented out (src/utils.py:93-108).
- File reading in both `dimacs2list` copies is left out. So are the `split` of the text into lines and tokens, the solution.json dump, tensorboard writers, ray `session.report`, tqdm and prints.
- `int()` is modelled as an optional sign followed by ASCII digits. Python also accepts underscores between digits, surrounding whitespace and non-ASCII digits.
- `torch_geometric`'s `Data` object and `graph.validate` in `dimacs2graph` are left out.
- LiteralGraph.Dimacs2Graph requires every literal to name a variable in 1..n. The source computes a node index for any non-zero literal, and only `graph.validate` (not modelled) might reject it. Dimacs2Graph also takes `n` and `m` as natural numbers. In the source they come from `int()` on the header and may be negative; `range(2*n+m)` and the edge loops still run on such values.
- The following members require the formula to be well formed, with literals non-zero and within 1..n (the assignment's length):
  - ClauseEval.NumSatClauses, ClauseEval.NumSatClausesTensor and ClauseEval.SampledSol;
  - RootUtils.AssignmentVerifier;
  - Baselines.BaselineRollout.Forward, Baselines.BaselineRollout.ForwardCorrected and Baselines.BaselineRollout.MeanRollout;
  - Trainer.EvalRows, Trainer.EvalOutcome, Trainer.CycleEvals, Trainer.EvalStrategy, Trainer.EvalAndOffer, Trainer.EvalCycle, Trainer.TrainingEpisode, Trainer.TrainLoopStep and Trainer.Train (through `ValidRun`).

  On other input the source indexes the assignment out of range, or with `-1`. Python's negative indexing is not modelled. Episode.RunEpisode takes no formula.
- `PyArg` stands for Python argument types. `PyInt` is an `int`. `PyNumber` is any other value that compares with 0, such as a float or a bool. `PyOther` is a value whose comparison with 0 raises TypeError.
- Trainer.TrainingEpisode runs the corrected `forward` for any parameter list the training loop's keywords bind to. Such a list has exactly the nine corrected names, possibly reordered. The model gives meaning only to `ForwardParams` (as written) and `CorrectedForwardParams`.
- Trainer.Train takes `batch_size` as a natural number. A negative batch size (a negative episode count, or negative samples) is not modelled.
- `np.ceil(num_samples / batch_size)` uses floating-point division. The model uses exact integer ceiling, which agrees for counts below 2^53.
- The commented-out stopping criteria (all clauses satisfied, early stopping on entropy) are not modelled. Training stops only on the sample budget.
- `assignment_eval` (MiniSat), node2vec, plotting, `EntropyWeightDecay`, `sampling_assignment` and the configuration scripts are not part of this model.

## Findings

| source | as written | input that shows it | evidently intended | confidence | as-written member | corrected member |
|---|---|---|---|---|---|---|
| src/train.py:381-389 | `train` calls the baseline with keywords `logit_clipping`, `logit_temp` and `num_sat`, which `BaselineRollout.forward` (src/architecture/baselines.py:33-34) does not declare, so any run with a baseline raises TypeError in its first episode | `baseline = BaselineRollout(-1)` passed to `train` with no clipping, a network of output size 1 and num_samples >= 1, any formula | `forward` accepts clipping and temperature (and the unused `num_sat`) and passes them to its rollout | not executed | Trainer.BaselineRunFails | Trainer.CorrectedBaselineRuns |
