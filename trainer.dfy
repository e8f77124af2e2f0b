/** The bookkeeping of `train` in src/train.py: the episode schedule, the
    optimizer-step and evaluation schedules, the evaluation strategies and the
    active-search record. Losses, gradients and logging are not modelled; an
    optimizer step is recorded by the episode it happens in. */
module Trainer {
  import opened Common
  import opened ClauseEval
  import opened VarPermutation
  import opened Episode
  import opened Baselines

  /** `active_search['sol']`: nothing yet, the whole greedy batch
      (`buffer.action.tolist()`, one row), or the best sampled row. */
  datatype Solution = NoSolution | WholeBatch(rows: seq<seq<int>>) | BestRow(row: seq<int>)

  /** The `active_search` dictionary. */
  datatype ActiveSearch = ActiveSearch(
    episode: int, samples: int, numSat: nat, strategy: Option<string>, sol: Solution,
    totalEpisodes: int, totalSamples: int, trainableParams: nat)

  /** The outcome of one evaluation strategy in one evaluation cycle. */
  datatype Evaluation = Evaluation(episode: int, strat: nat, value: nat, sol: Solution)

  /** The exceptions `train` can end with: ValueError for `verbose`, a
      ZeroDivisionError (`batch_size` in the episode count, or a `%` by an
      interval of 0), a failed rollout, TypeError from the keyword call of the
      baseline, a failed baseline rollout, ValueError for the entropy
      estimator, and ValueError / TypeError for an evaluation strategy that is
      negative or not an int / not a number. */
  datatype TrainError =
    | VerboseError(verbose: int)
    | ZeroDivision(name: string)
    | RolloutFailed(episodeError: EpisodeError)
    | BaselineCallError(callError: CallError)
    | BaselineFailed(baselineError: EpisodeError)
    | EntropyEstimatorError(estimator: string)
    | EvalStrategyError(strat: PyArg)
    | EvalStrategyTypeError(strat: PyArg)

  /** What every rollout of a run shares: the formula, the network, the
      permutation provider (one [n, batch] table per rollout) and the options. */
  datatype Run = Run(formula: Formula, numVariables: nat, net: Network, perms: (Draw, nat) -> seq<seq<nat>>,
                     clipping: Option<real>, temperature: Option<real>)

  /** The provider's table for rollout d with b rows is a permutation table. */
  ghost predicate Provides(run: Run, d: Draw, b: nat)
  {
    IsPermutationTable(run.perms(d, b), run.numVariables, b)
  }

  ghost predicate ValidRun(run: Run)
  {
    && WellFormed(run.formula, run.numVariables)
    && forall d: Draw, b: nat :: Provides(run, d, b)
  }

  function Initial(trainableParams: nat): ActiveSearch
  {
    ActiveSearch(0, 0, 0, None, NoSolution, 0, 0, trainableParams)
  }

  // ---------------------------------------------------------------
  // Schedules
  // ---------------------------------------------------------------

  /** `int(np.ceil(num_samples / batch_size))`. */
  function NumEpisodes(numSamples: int, batchSize: nat): (episodes: int)
    requires batchSize >= 1
    ensures episodes * batchSize >= numSamples
    ensures (episodes - 1) * batchSize < numSamples
  {
    var q := (-numSamples) / batchSize;
    assert -numSamples == q * batchSize + (-numSamples) % batchSize;
    -q
  }

  /** `current_samples == num_samples` holds at most at the last episode, so the
      loop's `break` never cuts the episode range short. */
  lemma BreakOnlyAtEnd(numSamples: int, batchSize: nat, e: int)
    requires batchSize >= 1 && e * batchSize == numSamples
    ensures e == NumEpisodes(numSamples, batchSize)
  {
  }

  /** The episodes 1..hi at which `episode % d == 0` holds, in order (none for d == 0). */
  function Multiples(hi: int, d: int): (r: seq<int>)
    ensures forall x :: x in r <==> 1 <= x <= hi && d != 0 && x % d == 0
    ensures forall i, j | 0 <= i < j < |r| :: r[i] < r[j]
    ensures forall i | 0 <= i < |r| :: r[i] <= hi
    decreases if hi < 0 then 0 else hi
  {
    if hi < 1 || d == 0 then []
    else Multiples(hi - 1, d) + (if hi % d == 0 then [hi] else [])
  }

  /** The first evaluation comes at episode |eval_interval|. */
  lemma FirstMultiple(d: int, e: int)
    requires d != 0 && e >= 1 && e % d == 0
    ensures e >= Abs(d)
  {
    var q := e / d;
    assert e == d * q;
    if d > 0 {
      assert q >= 1;
    } else {
      assert q <= -1;
    }
  }

  lemma AbsIsMultiple(d: int)
    requires d != 0
    ensures Abs(d) % d == 0
  {
    if d < 0 {
      assert Abs(d) == d * -1;
    }
  }

  function LastOf(xs: seq<int>): int
  {
    if xs == [] then 0 else xs[|xs| - 1]
  }

  // ---------------------------------------------------------------
  // Evaluation
  // ---------------------------------------------------------------

  /** Strategy 0 is greedy over one row; k >= 1 samples k rows. */
  function EvalBatch(k: nat): nat
  {
    if k == 0 then 1 else k
  }

  function StrategyArg(k: nat): string
  {
    if k == 0 then "greedy" else "sampled"
  }

  /** The strategy recorded in `active_search`: "greedy" or "sampled-k". */
  function StrategyName(k: nat): string
  {
    if k == 0 then "greedy" else "sampled-" + NatToString(k)
  }

  /** The index of the first maximum (`torch.argmax`). */
  function ArgMax(s: seq<nat>): (i: nat)
    requires |s| > 0
    ensures i < |s|
    ensures forall j | 0 <= j < |s| :: s[j] <= s[i]
    ensures forall j | 0 <= j < i :: s[j] < s[i]
  {
    if |s| == 1 then 0
    else
      var i := ArgMax(s[..|s| - 1]);
      if s[|s| - 1] > s[i] then |s| - 1 else i
  }

  /** The rows the j-th evaluation strategy (k) produces in episode e. */
  function EvalRows(run: Run, e: int, j: nat, k: nat): (rows: seq<seq<int>>)
    requires ValidRun(run)
    ensures |rows| == EvalBatch(k)
    ensures forall b | 0 <= b < |rows| :: |rows[b]| == run.numVariables
  {
    var draw := EvalDraw(e, j);
    assert Provides(run, draw, EvalBatch(k));
    EpisodeRows(run.net, Config(draw, k == 0, run.clipping, run.temperature),
                run.perms(draw, EvalBatch(k)), EvalBatch(k), run.numVariables)
  }

  /** What the j-th strategy (k) reports in episode e: the single greedy count,
      or the best of the k sampled counts with the first row that reaches it. */
  function EvalOutcome(run: Run, e: int, j: nat, k: nat): (ev: Evaluation)
    requires ValidRun(run)
    ensures ev.episode == e && ev.strat == k && ev.value <= |run.formula|
    ensures var rows := EvalRows(run, e, j, k);
      forall b | 0 <= b < |rows| :: NumSat(run.formula, rows[b]) <= ev.value || k == 0
    ensures k == 0 ==> ev.value == NumSat(run.formula, EvalRows(run, e, j, k)[0])
    ensures k == 0 ==> ev.sol == WholeBatch(EvalRows(run, e, j, k))
    ensures k > 0 ==> var rows := EvalRows(run, e, j, k);
      exists b | 0 <= b < |rows| ::
        && ev.sol == BestRow(rows[b]) && ev.value == NumSat(run.formula, rows[b])
        && forall c | 0 <= c < b :: NumSat(run.formula, rows[c]) < ev.value
  {
    var rows := EvalRows(run, e, j, k);
    var counts := Counts(run.formula, rows);
    assert forall b | 0 <= b < |rows| :: counts[b] == NumSat(run.formula, rows[b]);
    NumSatBounds(run.formula, rows[0]);
    if k == 0 then Evaluation(e, k, counts[0], WholeBatch(rows))
    else
      var best := ArgMax(counts);
      NumSatBounds(run.formula, rows[best]);
      Evaluation(e, k, counts[best], BestRow(rows[best]))
  }

  /** The int value of a strategy that passed validation. */
  function StrategyValue(s: PyArg): nat
  {
    if s.PyInt? && s.i >= 0 then s.i else 0
  }

  /** The evaluations of one cycle, strategies in order. */
  function CycleEvals(run: Run, e: int, strategies: seq<PyArg>): (evals: seq<Evaluation>)
    requires ValidRun(run)
    ensures |evals| == |strategies|
  {
    if strategies == [] then []
    else
      var j := |strategies| - 1;
      CycleEvals(run, e, strategies[..j]) + [EvalOutcome(run, e, j, StrategyValue(strategies[j]))]
  }

  /** The evaluations of all cycles at the given episodes. */
  function EvalSchedule(run: Run, episodes: seq<int>, strategies: seq<PyArg>): (evals: seq<Evaluation>)
    requires ValidRun(run)
  {
    if episodes == [] then []
    else EvalSchedule(run, episodes[..|episodes| - 1], strategies) + CycleEvals(run, episodes[|episodes| - 1], strategies)
  }

  /** The first failure a cycle of evaluations raises, strategies in order:
      a non-number fails `strat < 0` (TypeError), a negative or non-int value
      is a ValueError, and a valid one may still fail in its rollout. */
  function EvalFailure(run: Run, strategies: seq<PyArg>, j: nat): Option<TrainError>
    decreases |strategies| - j
  {
    if j >= |strategies| then None
    else match strategies[j]
      case PyOther => Some(EvalStrategyTypeError(strategies[j]))
      case PyNumber(_) => Some(EvalStrategyError(strategies[j]))
      case PyInt(k) =>
        if k < 0 then Some(EvalStrategyError(strategies[j]))
        else match EpisodeFailure(run.numVariables, run.net, StrategyArg(k), run.clipping, run.temperature)
          case Some(err) => Some(RolloutFailed(err))
          case None => EvalFailure(run, strategies, j + 1)
  }

  // ---------------------------------------------------------------
  // The active-search record
  // ---------------------------------------------------------------

  /** The record taken over by evaluation ev. */
  function Adopt(rec: ActiveSearch, ev: Evaluation, batchSize: nat): ActiveSearch
  {
    rec.(numSat := ev.value, episode := ev.episode, samples := ev.episode * batchSize,
         strategy := Some(StrategyName(ev.strat)), sol := ev.sol)
  }

  /** The record after evaluation ev: replaced only on a strictly larger count. */
  function Observe(rec: ActiveSearch, ev: Evaluation, batchSize: nat): ActiveSearch
  {
    if ev.value > rec.numSat then Adopt(rec, ev, batchSize) else rec
  }

  /** The record after the evaluations in order. */
  function Replay(rec: ActiveSearch, evals: seq<Evaluation>, batchSize: nat): ActiveSearch
  {
    if evals == [] then rec else Observe(Replay(rec, evals[..|evals| - 1], batchSize), evals[|evals| - 1], batchSize)
  }

  function WithTotals(rec: ActiveSearch, episode: int, batchSize: nat): ActiveSearch
  {
    rec.(totalEpisodes := episode, totalSamples := episode * batchSize)
  }

  /** Evaluation i is the first to reach the final count, and the record is its. */
  predicate Winner(rec: ActiveSearch, evals: seq<Evaluation>, batchSize: nat, i: nat, r: ActiveSearch)
  {
    && i < |evals|
    && r == Adopt(rec, evals[i], batchSize)
    && forall k | 0 <= k < i :: evals[k].value < evals[i].value
  }

  /** The record holds the largest count of all evaluations (or its start); it
      changes only if some evaluation beats the start, and then it is the
      first evaluation reaching the largest count. */
  lemma {:induction false} ReplayKeepsBest(rec: ActiveSearch, evals: seq<Evaluation>, batchSize: nat)
    ensures var r := Replay(rec, evals, batchSize);
      && r.numSat >= rec.numSat
      && (forall i | 0 <= i < |evals| :: evals[i].value <= r.numSat)
      && (r.numSat == rec.numSat ==> r == rec)
      && (r.numSat > rec.numSat ==> exists i: nat :: Winner(rec, evals, batchSize, i, r) && evals[i].value > rec.numSat)
  {
    if evals != [] {
      var init := evals[..|evals| - 1];
      var last := evals[|evals| - 1];
      ReplayKeepsBest(rec, init, batchSize);
      var p := Replay(rec, init, batchSize);
      var r := Replay(rec, evals, batchSize);
      forall i | 0 <= i < |evals| ensures evals[i].value <= r.numSat {
        if i < |init| {
          assert evals[i] == init[i];
        }
      }
      if last.value > p.numSat {
        assert Winner(rec, evals, batchSize, |init|, r) by {
          forall k | 0 <= k < |init| ensures evals[k].value < last.value {
            assert evals[k] == init[k];
          }
        }
      } else if r.numSat > rec.numSat {
        var i: nat :| Winner(rec, init, batchSize, i, p) && init[i].value > rec.numSat;
        assert Winner(rec, evals, batchSize, i, r) by {
          forall k | 0 <= k < i ensures evals[k].value < evals[i].value {
            assert evals[k] == init[k];
          }
        }
      }
    }
  }

  lemma {:induction false} ReplayAppend(rec: ActiveSearch, a: seq<Evaluation>, b: seq<Evaluation>, batchSize: nat)
    ensures Replay(rec, a + b, batchSize) == Replay(Replay(rec, a, batchSize), b, batchSize)
  {
    if b == [] {
      assert a + b == a;
    } else {
      var init := b[..|b| - 1];
      ReplayAppend(rec, a, init, batchSize);
      assert (a + b)[..|a + b| - 1] == a + init;
    }
  }

  lemma {:induction false} ReplayIgnoresTotals(rec: ActiveSearch, evals: seq<Evaluation>, episode: int, batchSize: nat)
    ensures Replay(WithTotals(rec, episode, batchSize), evals, batchSize) == WithTotals(Replay(rec, evals, batchSize), episode, batchSize)
  {
    if evals != [] {
      ReplayIgnoresTotals(rec, evals[..|evals| - 1], episode, batchSize);
    }
  }

  // ---------------------------------------------------------------
  // The training loop
  // ---------------------------------------------------------------

  /** The failure one training episode raises, in order: the training rollout
      (with temperature 1), the keyword call of the baseline against the
      parameters `baselineParams` its `forward` declares, the baseline rollout,
      the entropy estimator. */
  function EpisodeCheck(run: Run, hasBaseline: bool, baselineParams: seq<string>, entropyEstimator: string): (r: Option<TrainError>)
    ensures r.None? <==>
      && (run.clipping.None? || run.clipping.value >= 1.0)
      && (run.net.outputSize == 1 || run.net.outputSize == 2)
      && (hasBaseline ==> BindKeywords(baselineParams, TrainBaselineKeywords).Success?)
      && (hasBaseline ==> run.temperature.None? || run.temperature.value >= 1.0)
      && (entropyEstimator == "crude" || entropyEstimator == "smooth")
    ensures r.Some? && !hasBaseline ==> !r.value.BaselineCallError? && !r.value.BaselineFailed?
  {
    if run.clipping.Some? && run.clipping.value < 1.0 then Some(RolloutFailed(ClippingError(run.clipping.value)))
    else if run.net.outputSize != 1 && run.net.outputSize != 2 then Some(RolloutFailed(OutputSizeError(run.net.outputSize)))
    else if hasBaseline && BindKeywords(baselineParams, TrainBaselineKeywords).Failure? then
      Some(BaselineCallError(BindKeywords(baselineParams, TrainBaselineKeywords).error))
    else if hasBaseline && run.temperature.Some? && run.temperature.value < 1.0 then
      Some(BaselineFailed(TemperatureError(run.temperature.value)))
    else if entropyEstimator != "crude" && entropyEstimator != "smooth" then Some(EntropyEstimatorError(entropyEstimator))
    else None
  }

  /** The options of `train` that steer its schedule; `baselineParams` are the
      parameters of the baseline's `forward` (`ForwardParams` as written). */
  datatype Schedule = Schedule(
    batchSize: nat, hasBaseline: bool, baselineParams: seq<string>, entropyEstimator: string, numSamples: int,
    accumulationEpisodes: int, logInterval: int, evalInterval: int, evalStrategies: seq<PyArg>,
    raytune: bool, verbose: int)

  /** How `train` fails, if it does: the checks of the first episode, then the
      first evaluation cycle (episode |eval_interval|), if one is reached. */
  function TrainFailure(run: Run, s: Schedule): (r: Option<TrainError>)
    ensures r.None? <==>
      var level := if s.raytune then 0 else s.verbose;
      && (level == 0 || level == 1 || level == 2)
      && s.batchSize >= 1
      && (NumEpisodes(s.numSamples, s.batchSize) >= 1 ==>
            && EpisodeCheck(run, s.hasBaseline, s.baselineParams, s.entropyEstimator).None?
            && s.accumulationEpisodes != 0 && s.logInterval != 0 && s.evalInterval != 0
            && (Abs(s.evalInterval) <= NumEpisodes(s.numSamples, s.batchSize) ==> EvalFailure(run, s.evalStrategies, 0).None?))
  {
    var level := if s.raytune then 0 else s.verbose;
    if level != 0 && level != 1 && level != 2 then Some(VerboseError(s.verbose))
    else if s.batchSize == 0 then Some(ZeroDivision("batch_size"))
    else if NumEpisodes(s.numSamples, s.batchSize) < 1 then None
    else if EpisodeCheck(run, s.hasBaseline, s.baselineParams, s.entropyEstimator).Some? then EpisodeCheck(run, s.hasBaseline, s.baselineParams, s.entropyEstimator)
    else if s.accumulationEpisodes == 0 then Some(ZeroDivision("accumulation_episodes"))
    else if s.logInterval == 0 then Some(ZeroDivision("log_interval"))
    else if s.evalInterval == 0 then Some(ZeroDivision("eval_interval"))
    else if Abs(s.evalInterval) <= NumEpisodes(s.numSamples, s.batchSize) then EvalFailure(run, s.evalStrategies, 0)
    else None
  }

  /** As written, `forward` lacks three of the keywords the training loop
      passes, so every run with a baseline whose first episode gets past the
      training rollout ends with TypeError at `logit_clipping`. */
  lemma BaselineRunFails(run: Run, s: Schedule)
    requires s.hasBaseline && s.baselineParams == ForwardParams
    requires var level := if s.raytune then 0 else s.verbose; level == 0 || level == 1 || level == 2
    requires s.batchSize >= 1 && NumEpisodes(s.numSamples, s.batchSize) >= 1
    requires run.clipping.None? || run.clipping.value >= 1.0
    requires run.net.outputSize == 1 || run.net.outputSize == 2
    ensures TrainFailure(run, s) == Some(BaselineCallError(UnexpectedKeyword("logit_clipping")))
  {
    TrainCallRejected();
    var check := EpisodeCheck(run, true, ForwardParams, s.entropyEstimator);
    assert check == Some(BaselineCallError(UnexpectedKeyword("logit_clipping")));
  }

  /** With the corrected `forward` the call binds, and a run with a baseline
      fails only where a run without one does, or on the baseline rollout's
      temperature check. */
  lemma CorrectedBaselineRuns(run: Run, s: Schedule)
    requires s.hasBaseline && s.baselineParams == CorrectedForwardParams
    ensures var plain := EpisodeCheck(run, false, s.baselineParams, s.entropyEstimator);
      EpisodeCheck(run, true, s.baselineParams, s.entropyEstimator)
        == if plain.Some? && plain.value.RolloutFailed? then plain
           else if run.temperature.Some? && run.temperature.value < 1.0 then Some(BaselineFailed(TemperatureError(run.temperature.value)))
           else plain
  {
    TrainCallAccepted();
  }

  /** The state of `train` after `completed` episodes: the checks every
      episode repeats have passed, so has the first evaluation cycle if it
      came, and the logs and the record are those of the schedule so far. */
  ghost predicate Progress(run: Run, s: Schedule, trainableParams: nat, completed: int,
                           steps: seq<int>, evals: seq<Evaluation>, rec: ActiveSearch)
  {
    && ValidRun(run) && s.batchSize >= 1 && 0 <= completed
    && (completed >= 1 ==> EpisodeCheck(run, s.hasBaseline, s.baselineParams, s.entropyEstimator).None?)
    && (completed >= 1 ==> s.accumulationEpisodes != 0 && s.logInterval != 0 && s.evalInterval != 0)
    && (completed >= 1 && Abs(s.evalInterval) <= completed ==> EvalFailure(run, s.evalStrategies, 0).None?)
    && steps == Multiples(completed, s.accumulationEpisodes)
    && evals == EvalSchedule(run, Multiples(completed, s.evalInterval), s.evalStrategies)
    && rec == WithTotals(Replay(Initial(trainableParams), evals, s.batchSize), LastOf(Multiples(completed, s.evalInterval)), s.batchSize)
  }

  /** Once every episode has run, nothing failed. */
  lemma CompletedRunSucceeds(run: Run, s: Schedule, trainableParams: nat, completed: int,
                             steps: seq<int>, evals: seq<Evaluation>, rec: ActiveSearch)
    requires Progress(run, s, trainableParams, completed, steps, evals, rec)
    requires var level := if s.raytune then 0 else s.verbose; level == 0 || level == 1 || level == 2
    requires var episodes := NumEpisodes(s.numSamples, s.batchSize); completed == if episodes < 1 then 0 else episodes
    ensures TrainFailure(run, s).None?
  {
  }

  /** A failure in episode e, which follows `completed` = e - 1 good episodes,
      is the one `TrainFailure` names. */
  lemma FailureInEpisode(run: Run, s: Schedule, trainableParams: nat, e: int,
                         steps: seq<int>, evals: seq<Evaluation>, rec: ActiveSearch, err: TrainError)
    requires Progress(run, s, trainableParams, e - 1, steps, evals, rec)
    requires var level := if s.raytune then 0 else s.verbose; level == 0 || level == 1 || level == 2
    requires 1 <= e <= NumEpisodes(s.numSamples, s.batchSize)
    requires var check := EpisodeCheck(run, s.hasBaseline, s.baselineParams, s.entropyEstimator);
      || (check.Some? && err == check.value)
      || (check.None? && s.accumulationEpisodes == 0 && err == ZeroDivision("accumulation_episodes"))
      || (check.None? && s.accumulationEpisodes != 0 && s.logInterval == 0 && err == ZeroDivision("log_interval"))
      || (check.None? && s.accumulationEpisodes != 0 && s.logInterval != 0 && s.evalInterval == 0 &&
          err == ZeroDivision("eval_interval"))
      || (check.None? && s.accumulationEpisodes != 0 && s.logInterval != 0 && s.evalInterval != 0 &&
          e % s.evalInterval == 0 && EvalFailure(run, s.evalStrategies, 0) == Some(err))
    ensures TrainFailure(run, s) == Some(err)
  {
    if s.evalInterval != 0 && e % s.evalInterval == 0 {
      FirstMultiple(s.evalInterval, e);
    }
  }

  /** The training part of one episode: the sampled rollout (temperature fixed
      at 1), its counts, the baseline rollout when there is one, and the
      entropy estimator check. */
  method TrainingEpisode(run: Run, batchSize: nat, baseline: Option<BaselineRollout>, baselineParams: seq<string>,
                         entropyEstimator: string, e: int)
    returns (err: Option<TrainError>)
    requires ValidRun(run) && (baseline.Some? ==> baseline.value.Valid())
    ensures err == EpisodeCheck(run, baseline.Some?, baselineParams, entropyEstimator)
  {
    var draw := TrainingDraw(e);
    assert Provides(run, draw, batchSize);
    var episode := RunEpisode(run.numVariables, run.net, "sampled", batchSize, run.perms(draw, batchSize),
                              run.clipping, Some(1.0), draw);
    if episode.Failure? {
      return Some(RolloutFailed(episode.error));
    }
    var counts := NumSatClausesTensor(run.formula, ActionRows(episode.value.action));
    if baseline.Some? {
      var call := BindKeywords(baselineParams, TrainBaselineKeywords);
      if call.Failure? {
        return Some(BaselineCallError(call.error));
      }
      var baselineDraw := BaselineDraw(e);
      var rollouts := baseline.value.numRollouts;
      assert Provides(run, baselineDraw, rollouts);
      var value := baseline.value.ForwardCorrected(run.formula, run.numVariables, run.net, run.perms(baselineDraw, rollouts),
                                                   run.clipping, run.temperature, counts, baselineDraw);
      if value.Failure? {
        return Some(BaselineFailed(value.error));
      }
    }
    if entropyEstimator != "crude" && entropyEstimator != "smooth" {
      return Some(EntropyEstimatorError(entropyEstimator));
    }
    return None;
  }

  /** One evaluation rollout with strategy k and what it reports. */
  method EvalStrategy(run: Run, e: int, j: nat, k: nat) returns (r: Result<Evaluation, EpisodeError>)
    requires ValidRun(run)
    ensures r.Failure? <==> EpisodeFailure(run.numVariables, run.net, StrategyArg(k), run.clipping, run.temperature).Some?
    ensures r.Failure? ==> r.error == EpisodeFailure(run.numVariables, run.net, StrategyArg(k), run.clipping, run.temperature).value
    ensures r.Success? ==> r.value == EvalOutcome(run, e, j, k)
  {
    var draw := EvalDraw(e, j);
    var batch := if k == 0 then 1 else k;
    assert Provides(run, draw, batch);
    var episode := RunEpisode(run.numVariables, run.net, StrategyArg(k), batch, run.perms(draw, batch),
                              run.clipping, run.temperature, draw);
    if episode.Failure? {
      return Failure(episode.error);
    }
    var rows := ActionRows(episode.value.action);
    assert (StrategyArg(k) == "greedy") == (k == 0) by {
      assert "sampled"[0] != "greedy"[0];
    }
    assert batch == EvalBatch(k);
    assert rows == EvalRows(run, e, j, k);
    var counts := NumSatClausesTensor(run.formula, rows);
    assert counts == Counts(run.formula, rows);
    if k == 0 {
      r := Success(Evaluation(e, k, counts[0], WholeBatch(rows)));
    } else {
      var best := ArgMax(counts);
      r := Success(Evaluation(e, k, counts[best], BestRow(rows[best])));
    }
  }

  /** Runs strategy k and offers its evaluation to the record, which takes it
      over only on a strictly larger count. */
  method EvalAndOffer(run: Run, e: int, j: nat, k: nat, batchSize: nat, current: ActiveSearch)
    returns (r: Result<ActiveSearch, EpisodeError>, ghost ev: Evaluation)
    requires ValidRun(run)
    ensures r.Failure? <==> EpisodeFailure(run.numVariables, run.net, StrategyArg(k), run.clipping, run.temperature).Some?
    ensures r.Failure? ==> r.error == EpisodeFailure(run.numVariables, run.net, StrategyArg(k), run.clipping, run.temperature).value
    ensures r.Success? ==> ev == EvalOutcome(run, e, j, k) && r.value == Observe(current, ev, batchSize)
  {
    var outcome := EvalStrategy(run, e, j, k);
    if outcome.Failure? {
      return Failure(outcome.error), Evaluation(e, k, 0, NoSolution);
    }
    ev := outcome.value;
    var next := current;
    if outcome.value.value > current.numSat {
      next := current.(numSat := outcome.value.value, episode := e, samples := e * batchSize,
                       strategy := Some(StrategyName(k)), sol := outcome.value.sol);
    }
    return Success(next), ev;
  }

  lemma ReplayStep(rec: ActiveSearch, evals: seq<Evaluation>, ev: Evaluation, batchSize: nat)
    ensures Replay(rec, evals + [ev], batchSize) == Observe(Replay(rec, evals, batchSize), ev, batchSize)
  {
    assert (evals + [ev])[..|evals|] == evals;
  }

  /** Strategy j's evaluation extends the evaluations of strategies 0..j-1. */
  lemma CycleGrows(run: Run, e: int, strategies: seq<PyArg>, j: nat, evals: seq<Evaluation>, ev: Evaluation)
    requires ValidRun(run) && j < |strategies| && strategies[j].PyInt? && strategies[j].i >= 0
    requires evals == CycleEvals(run, e, strategies[..j])
    requires ev == EvalOutcome(run, e, j, strategies[j].i)
    ensures evals + [ev] == CycleEvals(run, e, strategies[..j + 1])
  {
    assert strategies[..j + 1][..j] == strategies[..j];
  }

  /** One evaluation cycle: every strategy in order, each validated, run and
      offered to the record. */
  method EvalCycle(run: Run, batchSize: nat, strategies: seq<PyArg>, e: int, rec: ActiveSearch)
    returns (r: Result<ActiveSearch, TrainError>, ghost evals: seq<Evaluation>)
    requires ValidRun(run)
    ensures r.Failure? <==> EvalFailure(run, strategies, 0).Some?
    ensures r.Failure? ==> r.error == EvalFailure(run, strategies, 0).value
    ensures r.Success? ==> evals == CycleEvals(run, e, strategies) && r.value == Replay(rec, evals, batchSize)
  {
    var current := rec;
    evals := [];
    for j := 0 to |strategies|
      invariant EvalFailure(run, strategies, 0) == EvalFailure(run, strategies, j)
      invariant evals == CycleEvals(run, e, strategies[..j])
      invariant current == Replay(rec, evals, batchSize)
    {
      var strat := strategies[j];
      if strat.PyOther? {
        return Failure(EvalStrategyTypeError(strat)), evals;
      }
      if strat.PyNumber? || strat.i < 0 {
        return Failure(EvalStrategyError(strat)), evals;
      }
      var k: nat := strat.i;
      var offered;
      ghost var ev;
      offered, ev := EvalAndOffer(run, e, j, k, batchSize, current);
      if offered.Failure? {
        return Failure(RolloutFailed(offered.error)), evals;
      }
      current := offered.value;
      CycleGrows(run, e, strategies, j, evals, ev);
      ReplayStep(rec, evals, ev, batchSize);
      evals := evals + [ev];
    }
    assert strategies[..|strategies|] == strategies;
    return Success(current), evals;
  }

  /** One pass of the episode loop: the training part, the optimizer step when
      the episode is a multiple of `accumulation_episodes`, and the evaluation
      cycle and totals when it is a multiple of `eval_interval`. */
  method TrainLoopStep(run: Run, s: Schedule, baseline: Option<BaselineRollout>, trainableParams: nat, episode: int,
                       ghost steps: seq<int>, ghost evals: seq<Evaluation>, activeSearch: ActiveSearch)
    returns (r: Result<ActiveSearch, TrainError>, ghost steps': seq<int>, ghost evals': seq<Evaluation>)
    requires Progress(run, s, trainableParams, episode - 1, steps, evals, activeSearch)
    requires var level := if s.raytune then 0 else s.verbose; level == 0 || level == 1 || level == 2
    requires 1 <= episode <= NumEpisodes(s.numSamples, s.batchSize)
    requires baseline.Some? == s.hasBaseline && (baseline.Some? ==> baseline.value.Valid())
    ensures r.Failure? ==> TrainFailure(run, s) == Some(r.error)
    ensures r.Success? ==> Progress(run, s, trainableParams, episode, steps', evals', r.value)
  {
    steps', evals' := steps, evals;
    var completed := episode - 1;
    var currentSamples := episode * s.batchSize;
    var err := TrainingEpisode(run, s.batchSize, baseline, s.baselineParams, s.entropyEstimator, episode);
    if err.Some? {
      FailureInEpisode(run, s, trainableParams, episode, steps, evals, activeSearch, err.value);
      return Failure(err.value), steps', evals';
    }
    if s.accumulationEpisodes == 0 {
      FailureInEpisode(run, s, trainableParams, episode, steps, evals, activeSearch, ZeroDivision("accumulation_episodes"));
      return Failure(ZeroDivision("accumulation_episodes")), steps', evals';
    }
    if episode % s.accumulationEpisodes == 0 {
      steps' := steps' + [episode];
    }
    if s.logInterval == 0 {
      FailureInEpisode(run, s, trainableParams, episode, steps, evals, activeSearch, ZeroDivision("log_interval"));
      return Failure(ZeroDivision("log_interval")), steps', evals';
    }
    if s.evalInterval == 0 {
      FailureInEpisode(run, s, trainableParams, episode, steps, evals, activeSearch, ZeroDivision("eval_interval"));
      return Failure(ZeroDivision("eval_interval")), steps', evals';
    }
    var next := activeSearch;
    if episode % s.evalInterval == 0 {
      FirstMultiple(s.evalInterval, episode);
      var cycle, cycleEvals := EvalCycle(run, s.batchSize, s.evalStrategies, episode, activeSearch);
      if cycle.Failure? {
        FailureInEpisode(run, s, trainableParams, episode, steps, evals, activeSearch, cycle.error);
        return Failure(cycle.error), steps', evals';
      }
      next := cycle.value.(totalSamples := currentSamples, totalEpisodes := episode);
      evals' := evals + cycleEvals;
      CycleEpisode(run, s, trainableParams, episode, steps, evals, activeSearch, steps', cycleEvals);
    } else {
      QuietEpisode(run, s, trainableParams, episode, steps, evals, activeSearch, steps');
    }
    return Success(next), steps', evals';
  }

  /** An episode that passed its checks and ran no evaluation cycle advances
      the progress by one, with an optimizer step if it is due. */
  lemma QuietEpisode(run: Run, s: Schedule, trainableParams: nat, episode: int,
                     steps: seq<int>, evals: seq<Evaluation>, rec: ActiveSearch, steps': seq<int>)
    requires Progress(run, s, trainableParams, episode - 1, steps, evals, rec)
    requires episode >= 1 && EpisodeCheck(run, s.hasBaseline, s.baselineParams, s.entropyEstimator).None?
    requires s.accumulationEpisodes != 0 && s.logInterval != 0 && s.evalInterval != 0
    requires episode % s.evalInterval != 0
    requires steps' == steps + if episode % s.accumulationEpisodes == 0 then [episode] else []
    ensures Progress(run, s, trainableParams, episode, steps', evals, rec)
  {
    assert Multiples(episode, s.evalInterval) == Multiples(episode - 1, s.evalInterval);
    assert steps' == Multiples(episode, s.accumulationEpisodes);
    AbsIsMultiple(s.evalInterval);
    assert Abs(s.evalInterval) != episode;
  }

  /** A cycle at episode e appends its evaluations to the schedule and becomes its last cycle. */
  lemma ScheduleGrows(run: Run, d: int, e: int, strategies: seq<PyArg>)
    requires ValidRun(run) && d != 0 && e >= 1 && e % d == 0
    ensures Multiples(e, d) == Multiples(e - 1, d) + [e]
    ensures LastOf(Multiples(e, d)) == e
    ensures EvalSchedule(run, Multiples(e, d), strategies)
            == EvalSchedule(run, Multiples(e - 1, d), strategies) + CycleEvals(run, e, strategies)
  {
    var before := Multiples(e - 1, d);
    assert (before + [e])[..|before|] == before;
  }

  /** An episode that passed its checks and ran an evaluation cycle advances
      the progress by one: the cycle's evaluations join the log, the record
      replays them and takes the new totals. */
  lemma CycleEpisode(run: Run, s: Schedule, trainableParams: nat, episode: int,
                     steps: seq<int>, evals: seq<Evaluation>, rec: ActiveSearch, steps': seq<int>,
                     cycleEvals: seq<Evaluation>)
    requires Progress(run, s, trainableParams, episode - 1, steps, evals, rec)
    requires episode >= 1 && EpisodeCheck(run, s.hasBaseline, s.baselineParams, s.entropyEstimator).None?
    requires s.accumulationEpisodes != 0 && s.logInterval != 0 && s.evalInterval != 0
    requires episode % s.evalInterval == 0 && EvalFailure(run, s.evalStrategies, 0).None?
    requires steps' == steps + if episode % s.accumulationEpisodes == 0 then [episode] else []
    requires cycleEvals == CycleEvals(run, episode, s.evalStrategies)
    ensures Progress(run, s, trainableParams, episode, steps', evals + cycleEvals,
                     Replay(rec, cycleEvals, s.batchSize).(totalSamples := episode * s.batchSize, totalEpisodes := episode))
  {
    var before := Multiples(episode - 1, s.evalInterval);
    ScheduleGrows(run, s.evalInterval, episode, s.evalStrategies);
    ReplayAppend(Initial(trainableParams), evals, cycleEvals, s.batchSize);
    ReplayIgnoresTotals(Replay(Initial(trainableParams), evals, s.batchSize), cycleEvals, LastOf(before), s.batchSize);
  }

  /** `train`: runs ceil(num_samples / batch_size) episodes; steps the
      optimizer in the episodes divisible by `accumulation_episodes`; runs an
      evaluation cycle in the episodes divisible by `eval_interval`, then
      records the totals; and returns the active-search record. `steps` and
      `evals` log the optimizer steps and the evaluations. */
  method Train(run: Run, batchSize: nat, baseline: Option<BaselineRollout>, baselineParams: seq<string>, entropyEstimator: string,
               numSamples: int, accumulationEpisodes: int, logInterval: int, evalInterval: int,
               evalStrategies: seq<PyArg>, raytune: bool, verbose: int, trainableParams: nat)
    returns (r: Result<ActiveSearch, TrainError>, ghost steps: seq<int>, ghost evals: seq<Evaluation>)
    requires ValidRun(run) && (baseline.Some? ==> baseline.value.Valid())
    ensures var failure := TrainFailure(run, Schedule(batchSize, baseline.Some?, baselineParams, entropyEstimator, numSamples,
                                        accumulationEpisodes, logInterval, evalInterval, evalStrategies, raytune, verbose));
      && (r.Failure? <==> failure.Some?)
      && (r.Failure? ==> r.error == failure.value)
    ensures r.Success? ==> batchSize >= 1
    ensures r.Success? ==>
      var episodes := NumEpisodes(numSamples, batchSize);
      var cycles := Multiples(episodes, evalInterval);
      && steps == Multiples(episodes, accumulationEpisodes)
      && evals == EvalSchedule(run, cycles, evalStrategies)
      && r.value == WithTotals(Replay(Initial(trainableParams), evals, batchSize), LastOf(cycles), batchSize)
  {
    var s := Schedule(batchSize, baseline.Some?, baselineParams, entropyEstimator, numSamples,
                      accumulationEpisodes, logInterval, evalInterval, evalStrategies, raytune, verbose);
    steps, evals := [], [];
    var level := if raytune then 0 else verbose;
    if level != 0 && level != 1 && level != 2 {
      return Failure(VerboseError(verbose)), steps, evals;
    }
    if batchSize == 0 {
      return Failure(ZeroDivision("batch_size")), steps, evals;
    }
    var activeSearch := Initial(trainableParams);
    var numEpisodes := NumEpisodes(numSamples, batchSize);
    ghost var completed := 0;
    var episode := 1;
    while episode <= numEpisodes
      invariant completed == episode - 1 && completed <= if numEpisodes < 1 then 0 else numEpisodes
      invariant Progress(run, s, trainableParams, completed, steps, evals, activeSearch)
    {
      var result;
      result, steps, evals := TrainLoopStep(run, s, baseline, trainableParams, episode, steps, evals, activeSearch);
      if result.Failure? {
        return Failure(result.error), steps, evals;
      }
      activeSearch := result.value;
      completed := episode;
      if episode * batchSize == numSamples {
        BreakOnlyAtEnd(numSamples, batchSize, episode);
        assert completed == numEpisodes;
        break;
      }
      episode := episode + 1;
    }
    CompletedRunSucceeds(run, s, trainableParams, completed, steps, evals, activeSearch);
    return Success(activeSearch), steps, evals;
  }
}
