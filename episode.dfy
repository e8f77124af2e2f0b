/** The episode runner of src/train.py: the `Buffer` of chosen actions and the
    control flow of `run_episode`. The policy network is an oracle that maps
    what the decoder is given at one step, for one batch row, to an action 0/1. */
module Episode {
  import opened Common
  import opened VarPermutation

  /** A one-hot class fed back to the decoder: an action 0/1, or the network's
      initial token (`F.one_hot(..., 3)` accepts 0, 1 and 2). */
  type Token = t: int | 0 <= t < 3

  /** Which rollout an episode is: the training rollout of an episode, the
      baseline's rollout in that episode, or the index-th evaluation strategy.
      The oracle sees it, so the network may differ between episodes (after
      optimizer steps) and sampling may differ between rollouts. */
  datatype Draw = TrainingDraw(episode: int) | BaselineDraw(episode: int) | EvalDraw(episode: int, index: nat)

  /** The settings one rollout runs under. */
  datatype Config = Config(draw: Draw, greedy: bool, clipping: Option<real>, temperature: Option<real>)

  /** What a GRU/LSTM decoder consumes at one step besides its state: the
      variable (its embedding and context) and the previous-action token. */
  datatype Input = Input(variable: nat, token: Token)

  /** What the decoder receives for batch row `row` at step `step`: the variable
      indices fed in, the previous-action prefix, and (for GRU/LSTM) the inputs
      its hidden state has consumed at the earlier steps. */
  datatype Query = Query(config: Config, row: nat, step: nat, vars: seq<nat>, prefix: seq<Token>, state: seq<Input>)

  /** The policy network as far as the episode runner uses it. */
  datatype Network = Network(decoderType: string, outputSize: int, initAction: Token, decide: Query -> Bit)

  predicate IsRecurrent(net: Network)
  {
    net.decoderType == "GRU" || net.decoderType == "LSTM"
  }

  /** ValueError for clipping or temperature below 1, AssertionError for an
      output size other than 1 or 2, TypeError for an unknown strategy. */
  datatype EpisodeError =
    | ClippingError(clipping: real)
    | TemperatureError(temperature: real)
    | OutputSizeError(size: int)
    | StrategyError(strategy: string)

  datatype DType = Int64 | OtherDType

  /** Cell (r, c) is one of the cells (idx[k], t[k]). */
  predicate Targeted(idx: seq<nat>, t: seq<nat>, r: int, c: int)
    requires |idx| == |t|
  {
    exists k | 0 <= k < |idx| :: idx[k] == r && t[k] == c
  }

  /** The episode buffer; only the integer action tensor is kept
      ([batch_size, num_variables], uninitialised as `torch.empty` leaves it). */
  class Buffer {
    const action: array2<int>

    constructor(batchSize: nat, numVariables: nat)
      ensures action.Length0 == batchSize && action.Length1 == numVariables
      ensures fresh(action)
    {
      action := new int[batchSize, numVariables];
    }

    /** `update`: asserts the action dtype is int64, then writes values[k] into
        cell (idx[k], t[k]) for every k, all at once. */
    method Update(idx: seq<nat>, t: seq<nat>, values: seq<int>, dtype: DType) returns (ok: bool)
      requires |idx| == |t| == |values|
      requires forall k | 0 <= k < |idx| :: idx[k] < action.Length0 && t[k] < action.Length1
      requires forall k, l | 0 <= k < l < |idx| :: idx[k] != idx[l]
      modifies action
      ensures ok <==> dtype == Int64
      ensures forall k | 0 <= k < |idx| :: action[idx[k], t[k]] == if ok then values[k] else old(action[idx[k], t[k]])
      ensures forall r, c | 0 <= r < action.Length0 && 0 <= c < action.Length1 && !Targeted(idx, t, r, c) ::
                action[r, c] == old(action[r, c])
    {
      if dtype != Int64 {
        return false;
      }
      forall k | 0 <= k < |idx| {
        action[idx[k], t[k]] := values[k];
      }
      return true;
    }
  }

  // ---------------------------------------------------------------
  // Specification of one rollout
  // ---------------------------------------------------------------

  predicate ColumnsInRange(perm: seq<seq<nat>>, b: nat)
  {
    forall k | 0 <= k < |perm| :: b < |perm[k]|
  }

  /** The variable indices the decoder gets at step t: the current one for
      GRU/LSTM, the whole order so far for the transformer. */
  function DecoderVars(net: Network, perm: seq<seq<nat>>, b: nat, t: nat): (vars: seq<nat>)
    requires t < |perm| && ColumnsInRange(perm, b)
    ensures |vars| == if IsRecurrent(net) then 1 else t + 1
  {
    if IsRecurrent(net) then [perm[t][b]] else Column(perm[..t + 1], b)
  }

  function Tokens(h: seq<Bit>): (tokens: seq<Token>)
    ensures |tokens| == |h| && forall i | 0 <= i < |h| :: tokens[i] == h[i]
  {
    seq(|h|, i requires 0 <= i < |h| => h[i])
  }

  /** `action_prev` of one row once the actions h have been taken: the last
      token only for GRU/LSTM, the initial token and every action for the
      transformer. */
  function Prefix(net: Network, h: seq<Bit>): (prefix: seq<Token>)
    ensures |prefix| >= 1
  {
    if IsRecurrent(net) then (if h == [] then [net.initAction] else [h[|h| - 1]])
    else [net.initAction] + Tokens(h)
  }

  /** What a GRU/LSTM hidden state has absorbed once row b has taken the
      actions h: the input of every step so far, each step feeding its variable
      and the prefix it was given. A transformer keeps no state. */
  function HiddenState(net: Network, perm: seq<seq<nat>>, b: nat, h: seq<Bit>): seq<Input>
    requires |h| <= |perm| && ColumnsInRange(perm, b)
  {
    if !IsRecurrent(net) || h == [] then []
    else
      var t := |h| - 1;
      HiddenState(net, perm, b, h[..t]) + [Input(perm[t][b], Prefix(net, h[..t])[0])]
  }

  /** The recurrent state has consumed, at each earlier step i, the row's i-th
      variable and the token of the action before it (the initial token at
      step 0). */
  lemma {:induction false} RecurrentStateInputs(net: Network, perm: seq<seq<nat>>, b: nat, h: seq<Bit>)
    requires |h| <= |perm| && ColumnsInRange(perm, b) && IsRecurrent(net)
    ensures |HiddenState(net, perm, b, h)| == |h|
    ensures forall i | 0 <= i < |h| ::
              HiddenState(net, perm, b, h)[i] == Input(perm[i][b], if i == 0 then net.initAction else h[i - 1])
  {
    if h != [] {
      var t := |h| - 1;
      RecurrentStateInputs(net, perm, b, h[..t]);
    }
  }

  /** The action row b takes at step t, having taken h before. */
  function Step(net: Network, cfg: Config, perm: seq<seq<nat>>, b: nat, t: nat, h: seq<Bit>): Bit
    requires t < |perm| && |h| <= |perm| && ColumnsInRange(perm, b)
  {
    net.decide(Query(cfg, b, t, DecoderVars(net, perm, b, t), Prefix(net, h), HiddenState(net, perm, b, h)))
  }

  /** The actions row b takes in its first t steps. */
  function RowActions(net: Network, cfg: Config, perm: seq<seq<nat>>, b: nat, t: nat): (h: seq<Bit>)
    requires t <= |perm| && ColumnsInRange(perm, b)
    ensures |h| == t
  {
    if t == 0 then []
    else
      var h := RowActions(net, cfg, perm, b, t - 1);
      h + [Step(net, cfg, perm, b, t - 1, h)]
  }

  /** A row of the action tensor: acts[t] written at variable col[t]; cells no
      step writes read 0 (a permutation leaves none). */
  function Scatter(col: seq<nat>, acts: seq<Bit>, n: nat): (row: seq<int>)
    requires |col| == |acts| && forall t | 0 <= t < |col| :: col[t] < n
    ensures |row| == n
    ensures forall v | 0 <= v < n :: 0 <= row[v] <= 1
  {
    if col == [] then seq(n, _ => 0)
    else Scatter(col[..|col| - 1], acts[..|acts| - 1], n)[col[|col| - 1] := acts[|acts| - 1]]
  }

  /** With distinct variables, step t's action lands at variable col[t]. */
  lemma {:induction false} ScatterAt(col: seq<nat>, acts: seq<Bit>, n: nat, t: nat)
    requires |col| == |acts| && forall k | 0 <= k < |col| :: col[k] < n
    requires forall i, j | 0 <= i < j < |col| :: col[i] != col[j]
    requires t < |col|
    ensures Scatter(col, acts, n)[col[t]] == acts[t]
  {
    var last := |col| - 1;
    if t < last {
      assert col[t] != col[last];
      ScatterAt(col[..last], acts[..last], n, t);
    }
  }

  /** The action tensor one rollout fills, row by row. */
  function EpisodeRows(net: Network, cfg: Config, perm: seq<seq<nat>>, batchSize: nat, n: nat): (rows: seq<seq<int>>)
    requires IsPermutationTable(perm, n, batchSize)
    ensures |rows| == batchSize
    ensures forall b | 0 <= b < batchSize :: |rows[b]| == n && forall v | 0 <= v < n :: 0 <= rows[b][v] <= 1
  {
    seq(batchSize, b requires 0 <= b < batchSize =>
      assert IsPermutation(Column(perm, b), n);
      Scatter(Column(perm, b), RowActions(net, cfg, perm, b, n), n))
  }

  /** The previous-action prefix starts as the one initial token; after step t
      (t+1 actions) it holds t+2 tokens for the transformer and stays at one
      token for GRU/LSTM, whose last entry is the latest action. */
  lemma PrefixLength(net: Network, h: seq<Bit>)
    ensures Prefix(net, []) == [net.initAction]
    ensures |Prefix(net, h)| == if IsRecurrent(net) then 1 else |h| + 1
    ensures h != [] ==> Prefix(net, h)[|Prefix(net, h)| - 1] == h[|h| - 1]
  {
  }

  /** The failure `run_episode` raises, if any, checked in its order: clipping,
      temperature, output size, then (only once a step runs) the strategy. */
  function EpisodeFailure(numVariables: nat, net: Network, strategy: string,
                          clipping: Option<real>, temperature: Option<real>): Option<EpisodeError>
  {
    if clipping.Some? && clipping.value < 1.0 then Some(ClippingError(clipping.value))
    else if temperature.Some? && temperature.value < 1.0 then Some(TemperatureError(temperature.value))
    else if net.outputSize != 1 && net.outputSize != 2 then Some(OutputSizeError(net.outputSize))
    else if numVariables > 0 && strategy != "greedy" && strategy != "sampled" then Some(StrategyError(strategy))
    else None
  }

  lemma ColumnEntry(perm: seq<seq<nat>>, n: nat, batchSize: nat, b: nat, s: nat, t: nat)
    requires IsPermutationTable(perm, n, batchSize) && b < batchSize && s < n && t < n
    ensures perm[t][b] < n
    ensures s != t ==> perm[s][b] != perm[t][b]
  {
    var col := Column(perm, b);
    assert IsPermutation(col, n);
    assert col[s] == perm[s][b] && col[t] == perm[t][b];
  }

  /** After all n steps, each cell (b, v) holds the action row b took at the
      step whose variable is v. */
  lemma BufferIsEpisodeRows(action: array2<int>, net: Network, cfg: Config, perm: seq<seq<nat>>,
                            batchSize: nat, n: nat, history: seq<seq<Bit>>)
    requires IsPermutationTable(perm, n, batchSize)
    requires action.Length0 == batchSize && action.Length1 == n && |history| == batchSize
    requires forall b | 0 <= b < batchSize :: history[b] == RowActions(net, cfg, perm, b, n) && |history[b]| == n
    requires forall b, s | 0 <= b < batchSize && 0 <= s < n :: action[b, perm[s][b]] == history[b][s]
    ensures forall b, v | 0 <= b < batchSize && 0 <= v < n :: action[b, v] == EpisodeRows(net, cfg, perm, batchSize, n)[b][v]
  {
    var rows := EpisodeRows(net, cfg, perm, batchSize, n);
    forall b, v | 0 <= b < batchSize && 0 <= v < n
      ensures action[b, v] == rows[b][v]
    {
      var col := Column(perm, b);
      assert IsPermutation(col, n);
      PermutationCovers(col, n, v);
      var t :| 0 <= t < n && col[t] == v;
      ScatterAt(col, history[b], n, t);
      assert rows[b] == Scatter(col, history[b], n);
    }
  }

  /** One step of the episode loop keeps the cells written at earlier steps. */
  lemma StepKeepsEarlier(perm: seq<seq<nat>>, n: nat, batchSize: nat, batchIdx: seq<nat>, t: nat, b: nat, s: nat)
    requires IsPermutationTable(perm, n, batchSize) && t < n && b < batchSize && s < t
    requires batchIdx == seq(batchSize, i requires 0 <= i < batchSize => i)
    ensures !Targeted(batchIdx, perm[t], b, perm[s][b])
  {
    ColumnEntry(perm, n, batchSize, b, s, t);
  }

  /** Each row's actions in its first t steps, and the prefix and hidden state
      built from them. */
  ghost predicate RowsState(net: Network, cfg: Config, perm: seq<seq<nat>>, batchSize: nat, t: nat,
                            actionPrev: seq<seq<Token>>, state: seq<seq<Input>>, history: seq<seq<Bit>>)
  {
    && t <= |perm| && (forall b | 0 <= b < batchSize :: ColumnsInRange(perm, b))
    && |actionPrev| == |state| == |history| == batchSize
    && (forall b | 0 <= b < batchSize :: history[b] == RowActions(net, cfg, perm, b, t))
    && (forall b | 0 <= b < batchSize :: actionPrev[b] == Prefix(net, history[b]))
    && (forall b | 0 <= b < batchSize :: state[b] == HiddenState(net, perm, b, history[b]))
  }

  /** Every cell written in the first t steps holds its row's action. */
  ghost predicate CellsWritten(action: array2<int>, perm: seq<seq<nat>>, n: nat, batchSize: nat, t: nat, history: seq<seq<Bit>>)
    reads action
    requires IsPermutationTable(perm, n, batchSize) && t <= n && |history| == batchSize
    requires forall b | 0 <= b < batchSize :: |history[b]| == t
  {
    && action.Length0 == batchSize && action.Length1 == n
    && forall b, s | 0 <= b < batchSize && 0 <= s < t :: action[b, perm[s][b]] == history[b][s]
  }

  /** What the episode loop knows before step t. */
  ghost predicate LoopState(action: array2<int>, net: Network, cfg: Config, perm: seq<seq<nat>>, n: nat, batchSize: nat,
                            t: nat, actionPrev: seq<seq<Token>>, state: seq<seq<Input>>, history: seq<seq<Bit>>)
    reads action
  {
    && IsPermutationTable(perm, n, batchSize) && t <= n
    && RowsState(net, cfg, perm, batchSize, t, actionPrev, state, history)
    && CellsWritten(action, perm, n, batchSize, t, history)
  }

  /** Taking the network's step-t actions moves the row state from t to t + 1. */
  lemma NextRowsState(net: Network, cfg: Config, perm: seq<seq<nat>>, batchSize: nat, t: nat,
                      actionPrev: seq<seq<Token>>, state: seq<seq<Input>>, history: seq<seq<Bit>>, actions: seq<Bit>,
                      actionPrev': seq<seq<Token>>, state': seq<seq<Input>>, history': seq<seq<Bit>>)
    requires RowsState(net, cfg, perm, batchSize, t, actionPrev, state, history) && t < |perm|
    requires |actions| == batchSize
    requires forall b | 0 <= b < batchSize ::
               actions[b] == net.decide(Query(cfg, b, t, DecoderVars(net, perm, b, t), actionPrev[b], state[b]))
    requires |actionPrev'| == |state'| == |history'| == batchSize
    requires forall b | 0 <= b < batchSize :: history'[b] == history[b] + [actions[b]]
    requires forall b | 0 <= b < batchSize ::
               actionPrev'[b] == if IsRecurrent(net) then Tokens([actions[b]]) else actionPrev[b] + Tokens([actions[b]])
    requires forall b | 0 <= b < batchSize ::
               && b < |perm[t]|
               && state'[b] == if IsRecurrent(net) then state[b] + [Input(perm[t][b], actionPrev[b][0])] else state[b]
    ensures RowsState(net, cfg, perm, batchSize, t + 1, actionPrev', state', history')
  {
    forall b | 0 <= b < batchSize
      ensures history'[b] == RowActions(net, cfg, perm, b, t + 1)
      ensures actionPrev'[b] == Prefix(net, history'[b])
      ensures state'[b] == HiddenState(net, perm, b, history'[b])
    {
      NextRow(net, cfg, perm, b, t, actionPrev[b], state[b], history[b], actions[b], actionPrev'[b], state'[b], history'[b]);
    }
  }

  lemma NextRow(net: Network, cfg: Config, perm: seq<seq<nat>>, b: nat, t: nat,
                prev: seq<Token>, st: seq<Input>, h: seq<Bit>, a: Bit, prev': seq<Token>, st': seq<Input>, h': seq<Bit>)
    requires t < |perm| && ColumnsInRange(perm, b)
    requires h == RowActions(net, cfg, perm, b, t) && prev == Prefix(net, h) && st == HiddenState(net, perm, b, h)
    requires a == net.decide(Query(cfg, b, t, DecoderVars(net, perm, b, t), prev, st))
    requires h' == h + [a]
    requires prev' == if IsRecurrent(net) then Tokens([a]) else prev + Tokens([a])
    requires st' == if IsRecurrent(net) then st + [Input(perm[t][b], prev[0])] else st
    ensures h' == RowActions(net, cfg, perm, b, t + 1)
    ensures prev' == Prefix(net, h') && st' == HiddenState(net, perm, b, h')
  {
    assert a == Step(net, cfg, perm, b, t, h);
    PrefixStep(net, h, a);
    if IsRecurrent(net) {
      StateStep(net, perm, b, h, a);
    }
  }

  /** One action replaces the GRU/LSTM prefix and extends the transformer's. */
  lemma PrefixStep(net: Network, h: seq<Bit>, a: Bit)
    ensures Prefix(net, h + [a]) == if IsRecurrent(net) then Tokens([a]) else Prefix(net, h) + Tokens([a])
  {
    assert Tokens(h + [a]) == Tokens(h) + Tokens([a]);
  }

  /** One action adds that step's input to the GRU/LSTM state. */
  lemma StateStep(net: Network, perm: seq<seq<nat>>, b: nat, h: seq<Bit>, a: Bit)
    requires |h| < |perm| && ColumnsInRange(perm, b) && IsRecurrent(net)
    ensures HiddenState(net, perm, b, h + [a]) == HiddenState(net, perm, b, h) + [Input(perm[|h|][b], Prefix(net, h)[0])]
  {
    assert (h + [a])[..|h|] == h;
  }

  /** The network's actions for every row at step t. */
  function Decisions(net: Network, cfg: Config, perm: seq<seq<nat>>, batchSize: nat, t: nat,
                     actionPrev: seq<seq<Token>>, state: seq<seq<Input>>): (actions: seq<Bit>)
    requires t < |perm| && forall b | 0 <= b < batchSize :: ColumnsInRange(perm, b)
    requires |actionPrev| == |state| == batchSize
    ensures |actions| == batchSize
    ensures forall b | 0 <= b < batchSize ::
              actions[b] == net.decide(Query(cfg, b, t, DecoderVars(net, perm, b, t), actionPrev[b], state[b]))
  {
    if batchSize == 0 then []
    else
      Decisions(net, cfg, perm, batchSize - 1, t, actionPrev[..batchSize - 1], state[..batchSize - 1])
        + [net.decide(Query(cfg, batchSize - 1, t, DecoderVars(net, perm, batchSize - 1, t),
                            actionPrev[batchSize - 1], state[batchSize - 1]))]
  }

  /** The buffer write of step t (`buffer.update(batch_idx, perm[t], actions)`):
      each row's action lands at the row's t-th variable, and the cells of the
      earlier steps keep theirs. */
  method WriteStep(buffer: Buffer, perm: seq<seq<nat>>, n: nat, batchSize: nat, batchIdx: seq<nat>, t: nat,
                   actions: seq<Bit>, ghost history: seq<seq<Bit>>, ghost history': seq<seq<Bit>>)
    requires IsPermutationTable(perm, n, batchSize) && t < n && |actions| == batchSize
    requires batchIdx == seq(batchSize, i requires 0 <= i < batchSize => i)
    requires |history| == batchSize && (forall b | 0 <= b < batchSize :: |history[b]| == t)
    requires CellsWritten(buffer.action, perm, n, batchSize, t, history)
    requires |history'| == batchSize && forall b | 0 <= b < batchSize :: history'[b] == history[b] + [actions[b]]
    modifies buffer.action
    ensures CellsWritten(buffer.action, perm, n, batchSize, t + 1, history')
  {
    var ok := buffer.Update(batchIdx, perm[t], actions, Int64);
    forall b, s | 0 <= b < batchSize && 0 <= s < t + 1
      ensures buffer.action[b, perm[s][b]] == history'[b][s]
    {
      if s < t {
        StepKeepsEarlier(perm, n, batchSize, batchIdx, t, b, s);
      }
    }
  }

  /** One step of the episode loop: ask the network, write the actions at
      each row's t-th variable, and extend the prefix (transformer) or replace
      it (GRU/LSTM). */
  method RunStep(buffer: Buffer, net: Network, cfg: Config, perm: seq<seq<nat>>, n: nat, batchSize: nat,
                 batchIdx: seq<nat>, t: nat, actionPrev: seq<seq<Token>>, state: seq<seq<Input>>, ghost history: seq<seq<Bit>>)
    returns (actionPrev': seq<seq<Token>>, state': seq<seq<Input>>, ghost history': seq<seq<Bit>>)
    requires t < n && batchIdx == seq(batchSize, i requires 0 <= i < batchSize => i)
    requires LoopState(buffer.action, net, cfg, perm, n, batchSize, t, actionPrev, state, history)
    modifies buffer.action
    ensures LoopState(buffer.action, net, cfg, perm, n, batchSize, t + 1, actionPrev', state', history')
  {
    var actions := Decisions(net, cfg, perm, batchSize, t, actionPrev, state);
    history' := seq(batchSize, b requires 0 <= b < batchSize => history[b] + [actions[b]]);
    WriteStep(buffer, perm, n, batchSize, batchIdx, t, actions, history, history');
    assert forall b | 0 <= b < batchSize :: b < |perm[t]| && |actionPrev[b]| >= 1;
    if IsRecurrent(net) {
      actionPrev' := seq(batchSize, b requires 0 <= b < batchSize => Tokens([actions[b]]));
      state' := seq(batchSize, b requires 0 <= b < batchSize => state[b] + [Input(perm[t][b], actionPrev[b][0])]);
    } else {
      actionPrev' := seq(batchSize, b requires 0 <= b < batchSize => actionPrev[b] + Tokens([actions[b]]));
      state' := state;
    }
    NextRowsState(net, cfg, perm, batchSize, t, actionPrev, state, history, actions, actionPrev', state', history');
  }

  /** The action tensor as nested lists (`buffer.action.tolist()`). */
  function ActionRows(action: array2<int>): (rows: seq<seq<int>>)
    reads action
    ensures |rows| == action.Length0
    ensures forall b | 0 <= b < action.Length0 :: |rows[b]| == action.Length1
    ensures forall b, v | 0 <= b < action.Length0 && 0 <= v < action.Length1 :: rows[b][v] == action[b, v]
  {
    seq(action.Length0, b requires 0 <= b < action.Length0 reads action =>
      seq(action.Length1, v requires 0 <= v < action.Length1 reads action => action[b, v]))
  }

  /** `run_episode` with the permutation supplied: validates its options, then
      at step t asks the network for every row's action and writes it at the
      row's t-th variable. */
  method RunEpisode(numVariables: nat, net: Network, strategy: string, batchSize: nat, perm: seq<seq<nat>>,
                    clipping: Option<real>, temperature: Option<real>, draw: Draw)
    returns (r: Result<Buffer, EpisodeError>)
    requires IsPermutationTable(perm, numVariables, batchSize)
    ensures r.Failure? <==> EpisodeFailure(numVariables, net, strategy, clipping, temperature).Some?
    ensures r.Failure? ==> r.error == EpisodeFailure(numVariables, net, strategy, clipping, temperature).value
    ensures r.Success? ==> fresh(r.value.action)
    ensures r.Success? ==> r.value.action.Length0 == batchSize && r.value.action.Length1 == numVariables
    ensures r.Success? ==>
              var cfg := Config(draw, strategy == "greedy", clipping, temperature);
              && (forall b, t | 0 <= b < batchSize && 0 <= t < numVariables ::
                    r.value.action[b, perm[t][b]] == RowActions(net, cfg, perm, b, numVariables)[t])
              && ActionRows(r.value.action) == EpisodeRows(net, cfg, perm, batchSize, numVariables)
  {
    if clipping.Some? && clipping.value < 1.0 {
      return Failure(ClippingError(clipping.value));
    }
    if temperature.Some? && temperature.value < 1.0 {
      return Failure(TemperatureError(temperature.value));
    }
    if net.outputSize != 1 && net.outputSize != 2 {
      return Failure(OutputSizeError(net.outputSize));
    }
    var buffer := new Buffer(batchSize, numVariables);
    var batchIdx := seq(batchSize, i requires 0 <= i < batchSize => i);
    var cfg := Config(draw, strategy == "greedy", clipping, temperature);
    var actionPrev: seq<seq<Token>> := seq(batchSize, _ => [net.initAction]);
    var state: seq<seq<Input>> := seq(batchSize, _ => []);
    ghost var history: seq<seq<Bit>> := seq(batchSize, _ => []);
    for t := 0 to numVariables
      invariant LoopState(buffer.action, net, cfg, perm, numVariables, batchSize, t, actionPrev, state, history)
      invariant t > 0 ==> strategy == "greedy" || strategy == "sampled"
    {
      if strategy != "greedy" && strategy != "sampled" {
        return Failure(StrategyError(strategy));
      }
      actionPrev, state, history := RunStep(buffer, net, cfg, perm, numVariables, batchSize, batchIdx, t, actionPrev, state, history);
    }
    BufferIsEpisodeRows(buffer.action, net, cfg, perm, batchSize, numVariables, history);
    ghost var rows := EpisodeRows(net, cfg, perm, batchSize, numVariables);
    assert ActionRows(buffer.action) == rows by {
      forall b | 0 <= b < batchSize ensures ActionRows(buffer.action)[b] == rows[b] {
      }
    }
    return Success(buffer);
  }
}
