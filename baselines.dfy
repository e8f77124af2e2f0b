/** `BaselineRollout` of src/architecture/baselines.py: a rollout of the current
    policy whose mean satisfied-clause count serves as the policy-gradient
    baseline. */
module Baselines {
  import opened Common
  import opened ClauseEval
  import opened VarPermutation
  import opened Episode

  /** ValueError from the constructor: `num_rollouts` not an int, below -1, or 0. */
  datatype BaselineError = InvalidRollouts(numRollouts: PyArg)

  /** The (strategy, num_rollouts) pair `__init__` stores. */
  function RolloutSettings(numRollouts: PyArg): (r: Result<(string, nat), BaselineError>)
    ensures r.Failure? <==> !numRollouts.PyInt? || numRollouts.i < -1 || numRollouts.i == 0
    ensures r.Failure? ==> r.error == InvalidRollouts(numRollouts)
    ensures r.Success? ==> (r.value.0 == "greedy" || r.value.0 == "sampled") && r.value.1 >= 1
    ensures numRollouts == PyInt(-1) ==> r == Success(("greedy", 1))
    ensures numRollouts.PyInt? && numRollouts.i >= 1 ==> r == Success(("sampled", numRollouts.i as nat))
  {
    match numRollouts
    case PyInt(k) =>
      if k < -1 || k == 0 then Failure(InvalidRollouts(numRollouts))
      else if k == -1 then Success(("greedy", 1))
      else Success(("sampled", k as nat))
    case _ => Failure(InvalidRollouts(numRollouts))
  }

  function Sum(s: seq<nat>): (total: nat)
  {
    if s == [] then 0 else Sum(s[..|s| - 1]) + s[|s| - 1]
  }

  lemma {:induction false} SumBound(s: seq<nat>, m: nat)
    requires forall i | 0 <= i < |s| :: s[i] <= m
    ensures Sum(s) <= |s| * m
  {
    if s != [] {
      SumBound(s[..|s| - 1], m);
    }
  }

  /** `tensor.mean()` of a non-empty vector of counts. */
  function Mean(s: seq<nat>): real
    requires |s| > 0
  {
    (Sum(s) as real) / (|s| as real)
  }

  /** A mean of counts each between 0 and m lies between 0 and m. */
  lemma MeanBounds(s: seq<nat>, m: nat)
    requires |s| > 0 && forall i | 0 <= i < |s| :: s[i] <= m
    ensures 0.0 <= Mean(s) <= m as real
  {
    SumBound(s, m);
    var k := |s| as real;
    assert (Sum(s) as real) <= k * (m as real);
    QuotientBounds(Sum(s) as real, k, m as real);
  }

  lemma QuotientBounds(a: real, k: real, m: real)
    requires k > 0.0 && 0.0 <= a <= k * m
    ensures 0.0 <= a / k <= m
  {
    assert a / k * k == a;
  }

  class BaselineRollout {
    const strategy: string
    const numRollouts: nat

    constructor(settings: (string, nat))
      ensures strategy == settings.0 && numRollouts == settings.1
    {
      strategy := settings.0;
      numRollouts := settings.1;
    }

    /** Keeps what `__init__` establishes. */
    predicate Valid()
    {
      (strategy == "greedy" || strategy == "sampled") && numRollouts >= 1
    }

    /** `forward` as written: one rollout of `num_rollouts` rows with the stored
        strategy and no clipping or temperature, averaged. */
    method Forward(formula: Formula, numVariables: nat, net: Network, perm: seq<seq<nat>>, draw: Draw)
      returns (r: Result<real, EpisodeError>)
      requires Valid() && WellFormed(formula, numVariables)
      requires IsPermutationTable(perm, numVariables, numRollouts)
      ensures r.Failure? <==> net.outputSize != 1 && net.outputSize != 2
      ensures r.Failure? ==> r.error == OutputSizeError(net.outputSize)
      ensures r.Success? ==>
                var rows := EpisodeRows(net, Config(draw, strategy == "greedy", None, None), perm, numRollouts, numVariables);
                r.value == Mean(Counts(formula, rows)) && 0.0 <= r.value <= |formula| as real
    {
      r := MeanRollout(formula, numVariables, net, perm, None, None, draw);
    }

    /** `forward` with the keywords the training loop passes: clipping and
        temperature are passed on to the rollout, the batch counts are accepted
        and not used. */
    method ForwardCorrected(formula: Formula, numVariables: nat, net: Network, perm: seq<seq<nat>>,
                            clipping: Option<real>, temperature: Option<real>, numSat: seq<nat>, draw: Draw)
      returns (r: Result<real, EpisodeError>)
      requires Valid() && WellFormed(formula, numVariables)
      requires IsPermutationTable(perm, numVariables, numRollouts)
      ensures r.Failure? <==> EpisodeFailure(numVariables, net, strategy, clipping, temperature).Some?
      ensures r.Failure? ==> r.error == EpisodeFailure(numVariables, net, strategy, clipping, temperature).value
      ensures r.Success? ==>
                var rows := EpisodeRows(net, Config(draw, strategy == "greedy", clipping, temperature), perm, numRollouts, numVariables);
                r.value == Mean(Counts(formula, rows)) && 0.0 <= r.value <= |formula| as real
    {
      r := MeanRollout(formula, numVariables, net, perm, clipping, temperature, draw);
    }

    method MeanRollout(formula: Formula, numVariables: nat, net: Network, perm: seq<seq<nat>>,
                       clipping: Option<real>, temperature: Option<real>, draw: Draw)
      returns (r: Result<real, EpisodeError>)
      requires Valid() && WellFormed(formula, numVariables)
      requires IsPermutationTable(perm, numVariables, numRollouts)
      ensures r.Failure? <==> EpisodeFailure(numVariables, net, strategy, clipping, temperature).Some?
      ensures r.Failure? ==> r.error == EpisodeFailure(numVariables, net, strategy, clipping, temperature).value
      ensures r.Success? ==>
                var rows := EpisodeRows(net, Config(draw, strategy == "greedy", clipping, temperature), perm, numRollouts, numVariables);
                r.value == Mean(Counts(formula, rows)) && 0.0 <= r.value <= |formula| as real
    {
      var episode := RunEpisode(numVariables, net, strategy, numRollouts, perm, clipping, temperature, draw);
      if episode.Failure? {
        return Failure(episode.error);
      }
      var rows := ActionRows(episode.value.action);
      var counts := NumSatClausesTensor(formula, rows);
      assert counts == Counts(formula, rows);
      MeanBounds(counts, |formula|);
      return Success(Mean(counts));
    }
  }

  /** `BaselineRollout(num_rollouts)`: validation, then the stored settings. */
  method NewBaselineRollout(numRollouts: PyArg) returns (r: Result<BaselineRollout, BaselineError>)
    ensures r.Failure? <==> RolloutSettings(numRollouts).Failure?
    ensures r.Failure? ==> r.error == RolloutSettings(numRollouts).error
    ensures r.Success? ==> fresh(r.value) && r.value.Valid()
    ensures r.Success? ==> (r.value.strategy, r.value.numRollouts) == RolloutSettings(numRollouts).value
  {
    var settings := RolloutSettings(numRollouts);
    if settings.Failure? {
      return Failure(settings.error);
    }
    var baseline := new BaselineRollout(settings.value);
    return Success(baseline);
  }

  // ---------------------------------------------------------------
  // The keyword call in the training loop
  // ---------------------------------------------------------------

  /** A call with keyword arguments only: TypeError at the first keyword that
      names no parameter, else at the first parameter left unbound. */
  datatype CallError = UnexpectedKeyword(name: string) | MissingArgument(name: string)

  function BindKeywords(params: seq<string>, keywords: seq<string>): (r: Result<(), CallError>)
    ensures r.Success? <==> (forall k | 0 <= k < |keywords| :: keywords[k] in params) &&
                            (forall p | 0 <= p < |params| :: params[p] in keywords)
  {
    if exists k | 0 <= k < |keywords| :: keywords[k] !in params then
      Failure(UnexpectedKeyword(FirstNotIn(keywords, params)))
    else if exists p | 0 <= p < |params| :: params[p] !in keywords then
      Failure(MissingArgument(FirstNotIn(params, keywords)))
    else Success(())
  }

  /** The first name of xs that ys lacks. */
  function FirstNotIn(xs: seq<string>, ys: seq<string>): (x: string)
    requires exists k | 0 <= k < |xs| :: xs[k] !in ys
    ensures x in xs && x !in ys
  {
    if xs[0] !in ys then xs[0] else FirstNotIn(xs[1..], ys)
  }

  /** The parameters of `forward` as written. */
  const ForwardParams: seq<string> :=
    ["formula", "num_variables", "policy_network", "device", "permute_vars", "permute_seed"]

  /** The parameters of the corrected `forward`. */
  const CorrectedForwardParams: seq<string> := ForwardParams + ["logit_clipping", "logit_temp", "num_sat"]

  /** The keywords the training loop passes to `baseline(...)`. */
  const TrainBaselineKeywords: seq<string> :=
    ["formula", "num_variables", "policy_network", "device", "permute_vars", "permute_seed",
     "logit_clipping", "logit_temp", "num_sat"]

  /** As written, the training loop's baseline call raises TypeError at `logit_clipping`. */
  lemma TrainCallRejected()
    ensures BindKeywords(ForwardParams, TrainBaselineKeywords) == Failure(UnexpectedKeyword("logit_clipping"))
  {
    var kw := TrainBaselineKeywords;
    assert kw[6] == "logit_clipping" && kw[6] !in ForwardParams;
    assert kw[..6] == ForwardParams;
    assert FirstNotIn(kw, ForwardParams) == "logit_clipping" by {
      assert kw[1..][1..][1..][1..][1..][1..][0] == "logit_clipping";
    }
  }

  /** With the corrected parameters every keyword binds and none is missing. */
  lemma TrainCallAccepted()
    ensures BindKeywords(CorrectedForwardParams, TrainBaselineKeywords) == Success(())
  {
    assert CorrectedForwardParams == TrainBaselineKeywords;
  }
}
