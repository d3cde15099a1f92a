/** `ProtocolOptimizer` of `sabs_pkpd/optimize_protocol.py`: the object that
    holds a model, its parameters and a protocol, evaluates the
    identifiability objective, seeds the particle swarm and moves the model
    parameters to posterior medians. */
module ProtocolOptimization {
  import opened Wrappers
  import opened RealSums
  import opened Identifiability
  import opened Statistics

  /** `protocol_form(*protocol_params)`: a protocol as a function of time. */
  type ProtocolForm = seq<real> -> (real -> real)

  /** The module-level `infer_model_parameters(simulator, x0, protocol,
      true_model_params, times, num_mcmc_iterations)`: synthetic data and
      MCMC chains indexed as chain, iteration, parameter. */
  type Inference = (Simulator, real, real -> real, seq<real>, seq<real>, nat)
                   -> (seq<real>, seq<seq<seq<real>>>)

  /** The cost the swarm minimises: one value per particle of a swarm. */
  type SwarmCost = seq<seq<real>> -> seq<real>

  /** `GlobalBestPSO(...).optimize(objective, iters=100)` with the given
      cost, started from the given initial positions: the best cost and
      position. */
  type SwarmOptimizer = (SwarmCost, seq<seq<real>>) -> (real, seq<real>)

  /** Draws of `np.random.normal` in standard form: the draw for particle k,
      coordinate c. */
  type Noise = (nat, nat) -> real

  const NumParticles: nat := 25
  const SpreadFactor: real := 5.0

  /** The argument of `objective`: one protocol, or a 2-D array of them. */
  datatype ProtocolInput = Single(params: seq<real>) | Batch(rows: seq<seq<real>>)

  datatype ObjectiveOutput = Scalar(value: real) | Scores(values: seq<real>)

  /** Why `update_model_parameters` stops: no `posterior` attribute yet, no
      chain 0, a parameter index beyond the sample width, or an empty
      post-burn-in window. */
  datatype UpdateError = NoPosterior | NoChain | ParameterOutOfRange(index: nat) | EmptyWindow

  function Abs(x: real): real {
    if x < 0.0 then -x else x
  }

  // ---------------------------------------------------------------------
  // Swarm seeding

  /** Particle k: the protocol itself for k = 0, otherwise a draw of
      Normal(p[c], 5 |p[c]|) in every coordinate. */
  function SwarmRow(p: seq<real>, noise: Noise, k: nat): (r: seq<real>)
    ensures |r| == |p|
  {
    if k == 0 then p
    else seq(|p|, c requires 0 <= c < |p| => p[c] + SpreadFactor * Abs(p[c]) * noise(k, c))
  }

  function InitialSwarm(p: seq<real>, noise: Noise): seq<seq<real>> {
    seq(NumParticles, k requires 0 <= k < NumParticles => SwarmRow(p, noise, k))
  }

  /** 25 particles of the protocol's width; the first is the protocol
      exactly, and a zero coordinate has zero spread, so it is zero in every
      particle. */
  lemma InitialSwarmShape(p: seq<real>, noise: Noise)
    ensures |InitialSwarm(p, noise)| == 25
    ensures forall k :: 0 <= k < 25 ==> |InitialSwarm(p, noise)[k]| == |p|
    ensures InitialSwarm(p, noise)[0] == p
    ensures forall k, c :: 0 <= k < 25 && 0 <= c < |p| && p[c] == 0.0 ==> InitialSwarm(p, noise)[k][c] == 0.0
  {
    forall k, c | 0 <= k < 25 && 0 <= c < |p| && p[c] == 0.0
      ensures InitialSwarm(p, noise)[k][c] == 0.0
    {
      if k > 0 {
        assert SpreadFactor * Abs(p[c]) == 0.0;
        assert InitialSwarm(p, noise)[k][c] == 0.0 + 0.0 * noise(k, c);
      }
    }
  }

  // ---------------------------------------------------------------------
  // Posterior windows

  /** Column `i` of chain 0 from the burn-in index on:
      `posterior[0, :, i][burnin:]`. */
  function Window(chain: seq<seq<real>>, i: nat, burnin: nat): (w: seq<real>)
    requires HasParameter(chain, i)
    ensures |w| == if burnin <= |chain| then |chain| - burnin else 0
    ensures forall k :: 0 <= k < |w| ==> w[k] == chain[burnin + k][i]
  {
    if burnin <= |chain| then
      seq(|chain| - burnin, k requires 0 <= k < |chain| - burnin => chain[burnin + k][i])
    else []
  }

  /** Every sample of the chain has more than `i` coordinates. */
  predicate HasParameter(chain: seq<seq<real>>, i: nat) {
    forall k :: 0 <= k < |chain| ==> i < |chain[k]|
  }

  /** The new value of parameter `i`: the median of its window.  Defined
      as 0 where the window does not exist; the update never writes it
      there. */
  function ParameterMedian(chain: seq<seq<real>>, i: nat, burnin: nat): real
  {
    if HasParameter(chain, i) && burnin < |chain| then Median(Window(chain, i, burnin)) else 0.0
  }

  /** How many model parameters the update loop sets before it stops, and
      why it stops. */
  function UpdateReach(chain: seq<seq<real>>, burnin: nat, n: nat): (r: (nat, Option<UpdateError>))
    ensures r.0 <= n
    ensures forall i :: 0 <= i < r.0 ==> HasParameter(chain, i)
    ensures r.1.None? <==> r.0 == n
    ensures r.1.Some? ==> r.1 == Some(EmptyWindow) || r.1 == Some(ParameterOutOfRange(r.0))
    ensures r.0 > 0 ==> burnin < |chain|
    decreases n
  {
    if n == 0 then (0, None)
    else
      var prev := UpdateReach(chain, burnin, n - 1);
      if prev.1.Some? then prev
      else if !HasParameter(chain, n - 1) then (n - 1, Some(ParameterOutOfRange(n - 1)))
      else if |chain| <= burnin then (n - 1, Some(EmptyWindow))
      else (n, None)
  }

  /** `f` applied to every element, built by appending at the back as a
      loop over the elements does. */
  ghost function MapSeq<A, B>(f: A --> B, s: seq<A>): (r: seq<B>)
    requires forall k :: 0 <= k < |s| ==> f.requires(s[k])
    decreases |s|
  {
    if |s| == 0 then [] else MapSeq(f, s[..|s| - 1]) + [f(s[|s| - 1])]
  }

  /** `MapSeq` applies `f` to each element in place. */
  lemma {:induction false} MapSeqPointwise<A, B>(f: A --> B, s: seq<A>)
    requires forall k :: 0 <= k < |s| ==> f.requires(s[k])
    ensures |MapSeq(f, s)| == |s|
    ensures forall k :: 0 <= k < |s| ==> MapSeq(f, s)[k] == f(s[k])
    decreases |s|
  {
    if |s| > 0 {
      var front := s[..|s| - 1];
      MapSeqPointwise(f, front);
      assert forall k :: 0 <= k < |front| ==> front[k] == s[k];
    }
  }

  lemma MapSeqSnoc<A, B>(f: A --> B, s: seq<A>, k: nat, r: seq<B>, y: B)
    requires k < |s| && forall m :: 0 <= m < |s| ==> f.requires(s[m])
    requires r == MapSeq(f, s[..k]) && y == f(s[k])
    ensures r + [y] == MapSeq(f, s[..k + 1])
  {
    assert s[..k + 1][..k] == s[..k];
  }

  class ProtocolOptimizer {
    const simulator: Simulator
    const protocolForm: ProtocolForm
    const times: seq<real>
    const x0: real
    const numMcmcIterations: nat
    /** The caller's list, held by reference and overwritten in place. */
    const modelParams: array<real>
    const trueModelParams: array<real>
    var protocolParams: seq<real>
    var data: Option<seq<real>>
    var posterior: Option<seq<seq<seq<real>>>>

    /** Stores the arguments as given; without ground-truth parameters, the
        ground truth is a copy of the model parameters, so later updates of
        the model parameters leave it alone. */
    constructor(simulator: Simulator, protocolForm: ProtocolForm, times: seq<real>, x0: real,
                modelParams: array<real>, protocolParams: seq<real>, numMcmcIterations: nat,
                trueModelParams: array?<real>)
      ensures this.simulator == simulator && this.protocolForm == protocolForm
      ensures this.times == times && this.x0 == x0
      ensures this.modelParams == modelParams
      ensures this.protocolParams == protocolParams
      ensures this.numMcmcIterations == numMcmcIterations
      ensures trueModelParams != null ==> this.trueModelParams == trueModelParams
      ensures trueModelParams == null ==>
                (fresh(this.trueModelParams) && this.trueModelParams[..] == modelParams[..])
      ensures data.None? && posterior.None?
    {
      this.simulator := simulator;
      this.protocolForm := protocolForm;
      this.times := times;
      this.x0 := x0;
      this.modelParams := modelParams;
      this.protocolParams := protocolParams;
      this.numMcmcIterations := numMcmcIterations;
      if trueModelParams != null {
        this.trueModelParams := trueModelParams;
      } else {
        var copy := new real[modelParams.Length](i requires 0 <= i < modelParams.Length reads modelParams => modelParams[i]);
        this.trueModelParams := copy;
      }
      data := None;
      posterior := None;
    }

    /** The objective is defined for protocol `p` at model parameters `mp`:
        every sensitivity vector has the one length the elementwise
        products need. */
    ghost predicate Evaluable(diff: Differentiator, mp: seq<real>, p: seq<real>) {
      SameLength(Sensitivities(simulator, diff, mp, protocolForm(p), times, x0))
    }

    ghost predicate EvaluableInput(diff: Differentiator, mp: seq<real>, input: ProtocolInput) {
      match input
      case Single(p) => Evaluable(diff, mp, p)
      case Batch(rows) => forall k :: 0 <= k < |rows| ==> Evaluable(diff, mp, rows[k])
    }

    /** The value `objective` returns for protocol `p` at model parameters
        `mp`. */
    ghost function Value(diff: Differentiator, inv: Inverter, mp: seq<real>, p: seq<real>): real
      requires ShapePreserving(inv) && NonZero(mp) && Evaluable(diff, mp, p)
    {
      ObjectiveValue(simulator, diff, inv, protocolForm(p), mp, times, x0, p)
    }

    /** `objective`: a 2-D input gives one score per row, in row order. */
    method Objective(input: ProtocolInput, diff: Differentiator, inv: Inverter)
      returns (out: ObjectiveOutput)
      requires ShapePreserving(inv) && NonZero(modelParams[..])
      requires EvaluableInput(diff, modelParams[..], input)
      ensures input.Single? ==> out == Scalar(Value(diff, inv, modelParams[..], input.params))
      ensures input.Batch? ==> out.Scores? && |out.values| == |input.rows|
      ensures input.Batch? ==> forall k :: 0 <= k < |input.rows| ==>
                out.values[k] == Value(diff, inv, modelParams[..], input.rows[k])
    {
      var mp := modelParams[..];
      match input
      case Single(p) =>
        var F := ObjectiveOf(mp, p, diff, inv);
        assert F == Value(diff, inv, mp, p);
        out := Scalar(F);
      case Batch(rows) =>
        var all := ObjectiveOfRows(mp, rows, diff, inv);
        MapSeqPointwise(RowValue(diff, inv, mp), rows);
        out := Scores(all);
    }

    /** `objective` as a function of one row. */
    ghost function RowValue(diff: Differentiator, inv: Inverter, mp: seq<real>): seq<real> --> real
      requires ShapePreserving(inv) && NonZero(mp)
    {
      q requires Evaluable(diff, mp, q) => Value(diff, inv, mp, q)
    }

    /** `pool.map(self.objective, rows)`: evaluated here in sequence; the
        results come back in row order. */
    method ObjectiveOfRows(mp: seq<real>, rows: seq<seq<real>>, diff: Differentiator, inv: Inverter)
      returns (all: seq<real>)
      requires ShapePreserving(inv) && NonZero(mp)
      requires forall k :: 0 <= k < |rows| ==> Evaluable(diff, mp, rows[k])
      ensures all == MapSeq(RowValue(diff, inv, mp), rows)
    {
      ghost var f := RowValue(diff, inv, mp);
      all := [];
      var k := 0;
      while k < |rows|
        invariant 0 <= k <= |rows|
        invariant all == MapSeq(f, rows[..k])
      {
        var F := ObjectiveOf(mp, rows[k], diff, inv);
        MapSeqSnoc(f, rows, k, all, F);
        all := all + [F];
        k := k + 1;
      }
      assert rows[..k] == rows;
    }

    /** The objective of one protocol at model parameters `mp`, step by
        step: the partials, their derivatives, the Fisher matrix, its
        inverse or the fallback, the score. */
    method ObjectiveOf(mp: seq<real>, p: seq<real>, diff: Differentiator, inv: Inverter) returns (F: real)
      requires ShapePreserving(inv) && NonZero(mp)
      requires Evaluable(diff, mp, p)
      ensures F == RowValue(diff, inv, mp)(p)
    {
      var protocol := protocolForm(p);
      var partials := Partials(mp, protocol);
      var derivatives := Derivatives(mp, protocol, partials, diff);
      F := CrlbScore(derivatives, mp, p, inv);
      assert F == Value(diff, inv, mp, p);
    }

    /** The closures `partial_output(x, i)`, one per model parameter. */
    method Partials(mp: seq<real>, protocol: real -> real) returns (partials: seq<real -> seq<real>>)
      ensures |partials| == |mp|
      ensures forall k :: 0 <= k < |mp| ==> partials[k] == Partial(simulator, mp, protocol, times, x0, k)
    {
      partials := [];
      var i := 0;
      while i < |mp|
        invariant 0 <= i <= |mp|
        invariant |partials| == i
        invariant forall k :: 0 <= k < i ==> partials[k] == Partial(simulator, mp, protocol, times, x0, k)
      {
        partials := partials + [Partial(simulator, mp, protocol, times, x0, i)];
        i := i + 1;
      }
    }

    /** The derivative of each closure at the current parameter value. */
    method Derivatives(mp: seq<real>, protocol: real -> real, partials: seq<real -> seq<real>>,
                       diff: Differentiator) returns (derivatives: seq<seq<real>>)
      requires |partials| == |mp|
      requires forall k :: 0 <= k < |mp| ==> partials[k] == Partial(simulator, mp, protocol, times, x0, k)
      ensures derivatives == Sensitivities(simulator, diff, mp, protocol, times, x0)
    {
      ghost var d := Sensitivities(simulator, diff, mp, protocol, times, x0);
      derivatives := [];
      var i := 0;
      while i < |mp|
        invariant 0 <= i <= |mp|
        invariant derivatives == d[..i]
      {
        derivatives := derivatives + [diff(partials[i], DerivativeStep, mp[i])];
        i := i + 1;
      }
    }

    /** `cost` is `objective` at the current model parameters, called on a
        swarm: wherever the objective is defined it gives the objective of
        each particle, in particle order. */
    ghost predicate IsObjective(cost: SwarmCost, diff: Differentiator, inv: Inverter)
      reads this, modelParams
    {
      ShapePreserving(inv) && NonZero(modelParams[..]) ==>
        forall rows: seq<seq<real>> {:trigger cost(rows)} ::
          EvaluableInput(diff, modelParams[..], Batch(rows)) ==>
            cost(rows) == MapSeq(RowValue(diff, inv, modelParams[..]), rows)
    }

    /** `optimize_protocol`: seeds the swarm, hands it the objective and
        keeps the best position it reports as the new protocol. */
    method OptimizeProtocol(noise: Noise, pso: SwarmOptimizer, cost: SwarmCost,
                            ghost diff: Differentiator, ghost inv: Inverter)
      requires IsObjective(cost, diff, inv)
      modifies this
      ensures protocolParams == pso(cost, InitialSwarm(old(protocolParams), noise)).1
      ensures data == old(data) && posterior == old(posterior)
    {
      var initPos := InitialPositions(noise);
      var result := pso(cost, initPos);
      protocolParams := result.1;
    }

    /** The initial positions, built by appending one particle at a time. */
    method InitialPositions(noise: Noise) returns (initPos: seq<seq<real>>)
      ensures initPos == InitialSwarm(protocolParams, noise)
    {
      initPos := [protocolParams];
      var k := 1;
      while k < NumParticles
        invariant 1 <= k <= NumParticles
        invariant |initPos| == k
        invariant forall m :: 0 <= m < k ==> initPos[m] == SwarmRow(protocolParams, noise, m)
      {
        var p := protocolParams;
        var row := seq(|p|, c requires 0 <= c < |p| => p[c] + SpreadFactor * Abs(p[c]) * noise(k, c));
        initPos := initPos + [row];
        k := k + 1;
      }
    }

    /** `infer_model_parameters`: runs inference on the ground truth under
        the current protocol and stores the data and the chains. */
    method InferModelParameters(infer: Inference)
      modifies this
      ensures var r := infer(simulator, x0, protocolForm(old(protocolParams)),
                             trueModelParams[..], times, numMcmcIterations);
              data == Some(r.0) && posterior == Some(r.1)
      ensures protocolParams == old(protocolParams)
    {
      var result := infer(simulator, x0, protocolForm(protocolParams),
                          trueModelParams[..], times, numMcmcIterations);
      data := Some(result.0);
      posterior := Some(result.1);
    }

    /** `update_model_parameters`: each model parameter, in index order,
        becomes the median of its column of chain 0 after the first
        n_iter // 2 samples.  The posterior is read only inside the loop, so
        without model parameters nothing is read and nothing fails.  The
        model parameters keep their length; the ground truth changes only if
        it is the very same array. */
    method UpdateModelParameters() returns (err: Option<UpdateError>)
      modifies modelParams
      ensures modelParams.Length == 0 ==> err.None?
      ensures modelParams.Length > 0 && posterior.None? ==>
                err == Some(NoPosterior) && modelParams[..] == old(modelParams[..])
      ensures modelParams.Length > 0 && posterior.Some? && |posterior.value| == 0 ==>
                err == Some(NoChain) && modelParams[..] == old(modelParams[..])
      ensures posterior.Some? && |posterior.value| > 0 ==>
                var chain := posterior.value[0];
                var reach := UpdateReach(chain, numMcmcIterations / 2, modelParams.Length);
                err == reach.1
                && modelParams[..] == UpdatedPrefix(old(modelParams[..]), chain, numMcmcIterations / 2, reach.0)
      ensures trueModelParams != modelParams ==> unchanged(trueModelParams)
    {
      if modelParams.Length == 0 {
        return None;
      }
      if posterior.None? {
        return Some(NoPosterior);
      }
      if |posterior.value| == 0 {
        return Some(NoChain);
      }
      err := UpdateFromChain(posterior.value[0], numMcmcIterations / 2);
    }

    /** The loop of `update_model_parameters` over one chain. */
    method UpdateFromChain(chain: seq<seq<real>>, burnin: nat) returns (err: Option<UpdateError>)
      modifies modelParams
      ensures var reach := UpdateReach(chain, burnin, modelParams.Length);
              err == reach.1 && modelParams[..] == UpdatedPrefix(old(modelParams[..]), chain, burnin, reach.0)
    {
      ghost var before := modelParams[..];
      var i := 0;
      while i < modelParams.Length
        invariant 0 <= i <= modelParams.Length
        invariant UpdateReach(chain, burnin, i) == (i, None)
        invariant modelParams[..] == UpdatedPrefix(before, chain, burnin, i)
      {
        if !HasParameter(chain, i) {
          assert UpdateReach(chain, burnin, i + 1) == (i, Some(ParameterOutOfRange(i)));
          UpdateReachStops(chain, burnin, i + 1, modelParams.Length);
          return Some(ParameterOutOfRange(i));
        }
        var samples := Window(chain, i, burnin);
        if |samples| == 0 {
          assert UpdateReach(chain, burnin, i + 1) == (i, Some(EmptyWindow));
          UpdateReachStops(chain, burnin, i + 1, modelParams.Length);
          return Some(EmptyWindow);
        }
        SetParameter(i, Median(samples));
        UpdatedPrefixStep(before, chain, burnin, i);
        i := i + 1;
      }
      err := None;
    }

    /** One write of the update loop. */
    method SetParameter(i: nat, v: real)
      requires i < modelParams.Length
      modifies modelParams
      ensures modelParams[..] == old(modelParams[..])[i := v]
    {
      modelParams[i] := v;
    }
  }

  /** The model parameters after the first `i` have been set to their
      medians. */
  function UpdatedPrefix(s: seq<real>, chain: seq<seq<real>>, burnin: nat, i: nat): seq<real> {
    seq(|s|, k requires 0 <= k < |s| => if k < i then ParameterMedian(chain, k, burnin) else s[k])
  }

  lemma UpdatedPrefixStep(s: seq<real>, chain: seq<seq<real>>, burnin: nat, i: nat)
    requires i < |s| && HasParameter(chain, i) && burnin < |chain|
    ensures UpdatedPrefix(s, chain, burnin, i)[i := Median(Window(chain, i, burnin))]
         == UpdatedPrefix(s, chain, burnin, i + 1)
  {
  }

  /** Once the update loop has stopped, more parameters do not restart it. */
  lemma {:induction false} UpdateReachStops(chain: seq<seq<real>>, burnin: nat, m: nat, n: nat)
    requires m <= n && UpdateReach(chain, burnin, m).1.Some?
    ensures UpdateReach(chain, burnin, n) == UpdateReach(chain, burnin, m)
    decreases n - m
  {
    if m < n {
      UpdateReachStops(chain, burnin, m + 1, n);
    }
  }

  /** Each updated parameter lies between the smallest and the largest of
      its post-burn-in samples. */
  lemma UpdatedWithinSamples(chain: seq<seq<real>>, burnin: nat, n: nat, i: nat)
    requires i < UpdateReach(chain, burnin, n).0
    ensures HasParameter(chain, i) && |Window(chain, i, burnin)| > 0
    ensures Min(Window(chain, i, burnin)) <= ParameterMedian(chain, i, burnin) <= Max(Window(chain, i, burnin))
  {
    MedianBounds(Window(chain, i, burnin));
  }
}
