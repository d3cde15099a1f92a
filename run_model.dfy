/** Running the model in the conditions of an experiment (`simulate_data`)
    or in conditions given by hand (`quick_simulate`): the argument checks,
    the split of the fitted or fixed parameters between the initial state
    and the constants, the order in which the condition's constant is set,
    and the shape of the output. The default state is a module-level list
    that the runs write into in place; it is the array `shared` here, `null`
    where the list is `None`. */
module RunModel {
  import opened Wrappers
  import opened Simulations
  import opened LoadData

  /** The exceptions raised before or between the runs. */
  datatype SimError =
    | LengthMismatch        // ValueError: names and values of different lengths
    | MissingInstructions   // AttributeError: no fitting instructions attached
    | MissingSeries         // IndexError: a missing or empty time series
    | SamplesBeyondTimeMax  // ValueError: the last time sample exceeds time_max
    | BadConditions         // ValueError: conditions not a list or name not a string
    | NoLength              // TypeError: the length of a missing list is taken
    | EmptySamples          // IndexError: the last of no time samples

  function Last(s: seq<real>): real
    requires |s| > 0
  {
    s[|s| - 1]
  }

  /** Writes the fitted values of state variables into `target`, in list
      order: the first loop of `simulate_data`. */
  method WriteStates(target: array<real>, names: seq<string>, annots: seq<string>, values: seq<real>)
    requires |annots| == |values| && target.Length == |names|
    modifies target
    ensures target[..] == Overwrite(old(target[..]), names, annots, values)
  {
    ghost var x := target[..];
    var i := 0;
    while i < |annots|
      invariant 0 <= i <= |annots|
      invariant target[..] == Overwrite(x, names, annots[..i], values[..i])
    {
      OverwriteStep(x, names, annots, values, i);
      if annots[i] in names {
        target[IndexOf(names, annots[i])] := values[i];
      }
      i := i + 1;
    }
    assert annots[..i] == annots && values[..i] == values;
  }

  /** Sets the fitted values of the parameters that are not state
      variables as constants: the second loop of `simulate_data`. */
  method SetFittedConstants(sim: Simulation, annots: seq<string>, values: seq<real>)
    requires sim.Valid() && |annots| == |values|
    modifies sim
    ensures sim.Valid()
    ensures sim.constants == old(sim.constants) + FittedConstants(sim.stateNames, annots, values)
    ensures sim.state == old(sim.state) && sim.defaultState == old(sim.defaultState) && sim.time == old(sim.time)
  {
    ghost var c := sim.constants;
    var i := 0;
    while i < |annots|
      invariant 0 <= i <= |annots| && sim.Valid()
      invariant sim.constants == c + FittedConstants(sim.stateNames, annots[..i], values[..i])
      invariant sim.state == old(sim.state) && sim.defaultState == old(sim.defaultState) && sim.time == old(sim.time)
    {
      FittedConstantsStep(c, sim.stateNames, annots, values, i);
      if annots[i] !in sim.stateNames {
        sim.SetConstant(annots[i], values[i]);
      }
      i := i + 1;
    }
    assert annots[..i] == annots && values[..i] == values;
  }

  /** The single loop of `quick_simulate` that sends each fixed parameter
      either into `target` or to the constants. */
  method ApplyFixed(sim: Simulation, target: array<real>, annots: seq<string>, values: seq<real>)
    requires sim.Valid() && |annots| == |values| && target.Length == |sim.stateNames|
    modifies sim, target
    ensures sim.Valid()
    ensures target[..] == Overwrite(old(target[..]), sim.stateNames, annots, values)
    ensures sim.constants == old(sim.constants) + FittedConstants(sim.stateNames, annots, values)
    ensures sim.state == old(sim.state) && sim.defaultState == old(sim.defaultState) && sim.time == old(sim.time)
  {
    ghost var x := target[..];
    ghost var c := sim.constants;
    var i := 0;
    while i < |annots|
      invariant 0 <= i <= |annots| && sim.Valid()
      invariant target[..] == Overwrite(x, sim.stateNames, annots[..i], values[..i])
      invariant sim.constants == c + FittedConstants(sim.stateNames, annots[..i], values[..i])
      invariant sim.state == old(sim.state) && sim.defaultState == old(sim.defaultState) && sim.time == old(sim.time)
    {
      OverwriteStep(x, sim.stateNames, annots, values, i);
      FittedConstantsStep(c, sim.stateNames, annots, values, i);
      if annots[i] in sim.stateNames {
        target[IndexOf(sim.stateNames, annots[i])] := values[i];
      } else {
        sim.SetConstant(annots[i], values[i]);
      }
      i := i + 1;
    }
    assert annots[..i] == annots && values[..i] == values;
  }

  /** What the simulation looked like before the first condition: the
      contents of the shared default state, if one is set, the simulation's
      own default state and its constants. */
  datatype Start = Start(shared: Option<seq<real>>, defaultState: seq<real>, constants: map<string, real>)

  predicate StartFits(sim: Simulation, start: Start) {
    |start.defaultState| == |sim.stateNames| &&
    (start.shared.Some? ==> |start.shared.value| == |sim.stateNames|)
  }

  /** What the runs of all conditions are made of: the parameters to
      assign, the name and the values of the condition constant, the
      pre-run time, the read-out and each condition's log times. */
  datatype Plan = Plan(annots: seq<string>, values: seq<real>, condName: string, conds: seq<real>,
                       preRun: real, readOut: string, times: seq<seq<real>>)

  predicate PlanFits(plan: Plan) {
    |plan.annots| == |plan.values|
  }

  /** The state a run starts from once the fitted values are written into
      `base` and the pre-run is done. */
  function PreRunState(sim: Simulation, base: seq<real>, annots: seq<string>, values: seq<real>,
                       c: map<string, real>, preRun: real): (x: seq<real>)
    requires |annots| == |values| && |base| == |sim.stateNames|
    ensures |x| == |sim.stateNames|
  {
    Advance(sim.evolution, |sim.stateNames|, Overwrite(base, sim.stateNames, annots, values), c, preRun)
  }

  /** The constants of the `k`-th condition. */
  function ConstantsOf(sim: Simulation, start: Start, plan: Plan, k: nat): map<string, real>
    requires PlanFits(plan) && k < |plan.conds|
  {
    ConditionConstants(start.constants, sim.stateNames, plan.annots, plan.values, plan.condName, plan.conds[k])
  }

  /** The simulation's default state when the `k`-th condition begins:
      each pre-run leaves its final state behind as the new default. */
  function DefaultBefore(sim: Simulation, start: Start, plan: Plan, k: nat): (d: seq<real>)
    requires StartFits(sim, start) && PlanFits(plan) && k <= |plan.conds|
    ensures |d| == |sim.stateNames|
    decreases k, 0
  {
    if k == 0 then start.defaultState
    else PreRunState(sim, BaseOf(sim, start, plan, k - 1), plan.annots, plan.values,
                     ConstantsOf(sim, start, plan, k - 1), plan.preRun)
  }

  /** The state the `k`-th condition's values are written into: the shared
      default state when there is one, the simulation's own otherwise. */
  function BaseOf(sim: Simulation, start: Start, plan: Plan, k: nat): (b: seq<real>)
    requires StartFits(sim, start) && PlanFits(plan) && k <= |plan.conds|
    ensures |b| == |sim.stateNames|
    decreases k, 1
  {
    if start.shared.Some? then start.shared.value else DefaultBefore(sim, start, plan, k)
  }

  /** The output of the `k`-th condition: the log of a run from that
      condition's pre-run state, under that condition's constants. */
  function RowFor(sim: Simulation, start: Start, plan: Plan, k: nat): (row: seq<real>)
    requires StartFits(sim, start) && PlanFits(plan) && k < |plan.conds| && k < |plan.times|
    ensures |row| == |plan.times[k]|
  {
    var c := ConstantsOf(sim, start, plan, k);
    Trace(sim.trajectory, PreRunState(sim, BaseOf(sim, start, plan, k), plan.annots, plan.values, c, plan.preRun),
          c, plan.readOut, plan.times[k])
  }

  /** Every condition to run has a non-empty time series. */
  predicate TimesCover(times: seq<seq<real>>, n: nat) {
    n <= |times| && forall k :: 0 <= k < n ==> |times[k]| > 0
  }

  /** The outputs of the first `k` conditions. */
  ghost predicate RowsSoFar(sim: Simulation, start: Start, plan: Plan, rows: seq<seq<real>>, k: nat)
    requires StartFits(sim, start) && PlanFits(plan) && k <= |plan.conds| && k <= |plan.times|
  {
    |rows| == k && forall i :: 0 <= i < k ==> rows[i] == RowFor(sim, start, plan, i)
  }

  /** The state of the simulation and of the shared default state after
      `k` conditions, and the rows produced so far. */
  ghost predicate Progress(sim: Simulation, shared: array?<real>, start: Start, plan: Plan,
                           rows: seq<seq<real>>, k: nat)
    reads sim, shared
    requires StartFits(sim, start) && PlanFits(plan) && k <= |plan.conds|
  {
    sim.Valid() && TimesCover(plan.times, k) &&
    (shared != null <==> start.shared.Some?) &&
    (shared != null ==>
      shared.Length == |sim.stateNames| &&
      shared[..] == if k == 0 then start.shared.value
                    else Overwrite(start.shared.value, sim.stateNames, plan.annots, plan.values)) &&
    sim.defaultState == DefaultBefore(sim, start, plan, k) &&
    sim.constants == (if k == 0 then start.constants else ConstantsOf(sim, start, plan, k - 1)) &&
    RowsSoFar(sim, start, plan, rows, k)
  }

  /** The clock and the state after the run of condition `k - 1` for
      `duration`: the run starts from that condition's pre-run state. */
  ghost predicate AfterRun(sim: Simulation, start: Start, plan: Plan, k: nat, duration: real)
    reads sim
    requires StartFits(sim, start) && PlanFits(plan) && 0 < k <= |plan.conds|
  {
    sim.time == duration &&
    sim.state == Advance(sim.evolution, |sim.stateNames|, DefaultBefore(sim, start, plan, k),
                         ConstantsOf(sim, start, plan, k - 1), duration)
  }

  /** One condition of `simulate_data` up to the run: reset, write the
      fitted states into the default state (in place when it is shared) and
      hand it to the simulation, set the fitted constants, then the
      condition's constant, then pre-run. */
  method SetUpCondition(sim: Simulation, shared: array?<real>, annots: seq<string>, values: seq<real>,
                        condName: string, cond: real, preRun: real)
    requires sim.Valid() && |annots| == |values|
    requires shared != null ==> shared.Length == |sim.stateNames|
    modifies sim, shared
    ensures sim.Valid()
    ensures var base := if shared != null then old(shared[..]) else old(sim.defaultState);
            var c := ConditionConstants(old(sim.constants), sim.stateNames, annots, values, condName, cond);
            sim.constants == c && sim.time == 0.0 &&
            sim.state == PreRunState(sim, base, annots, values, c, preRun) && sim.defaultState == sim.state &&
            (shared != null ==> shared[..] == Overwrite(base, sim.stateNames, annots, values))
  {
    sim.Reset();
    sim.SetTime(0.0);
    var target: array<real>;
    if shared != null {
      target := shared;
    } else {
      target := sim.State();
    }
    WriteStates(target, sim.stateNames, annots, values);
    sim.SetState(target[..]);
    SetFittedConstants(sim, annots, values);
    sim.SetConstant(condName, cond);
    sim.Pre(preRun);
  }

  /** One condition of `quick_simulate` up to the run: as in
      `simulate_data`, except that one loop sends each fixed parameter to
      the state or to the constants. */
  method SetUpQuickCondition(sim: Simulation, shared: array?<real>, annots: seq<string>, values: seq<real>,
                             condName: string, cond: real, preRun: real)
    requires sim.Valid() && |annots| == |values|
    requires shared != null ==> shared.Length == |sim.stateNames|
    modifies sim, shared
    ensures sim.Valid()
    ensures var base := if shared != null then old(shared[..]) else old(sim.defaultState);
            var c := ConditionConstants(old(sim.constants), sim.stateNames, annots, values, condName, cond);
            sim.constants == c && sim.time == 0.0 &&
            sim.state == PreRunState(sim, base, annots, values, c, preRun) && sim.defaultState == sim.state &&
            (shared != null ==> shared[..] == Overwrite(base, sim.stateNames, annots, values))
  {
    sim.Reset();
    sim.SetTime(0.0);
    var target: array<real>;
    if shared != null {
      target := shared;
    } else {
      target := sim.State();
    }
    ApplyFixed(sim, target, annots, values);
    sim.SetState(target[..]);
    sim.SetConstant(condName, cond);
    sim.Pre(preRun);
  }

  /** What condition `k` starts from does not depend on what earlier
      conditions wrote: the fitted values are written over the shared state
      once for all, and the condition constant is overridden. */
  lemma SetUpAgain(sim: Simulation, start: Start, plan: Plan, k: nat, shared: Option<seq<real>>, c: map<string, real>)
    requires StartFits(sim, start) && PlanFits(plan) && k < |plan.conds|
    requires shared.Some? <==> start.shared.Some?
    requires shared.Some? ==>
      shared.value == if k == 0 then start.shared.value
                      else Overwrite(start.shared.value, sim.stateNames, plan.annots, plan.values)
    requires c == if k == 0 then start.constants else ConstantsOf(sim, start, plan, k - 1)
    ensures ConditionConstants(c, sim.stateNames, plan.annots, plan.values, plan.condName, plan.conds[k])
         == ConstantsOf(sim, start, plan, k)
    ensures shared.Some? ==>
      Overwrite(shared.value, sim.stateNames, plan.annots, plan.values)
        == Overwrite(start.shared.value, sim.stateNames, plan.annots, plan.values)
  {
    if k > 0 {
      ConditionConstantsTwice(start.constants, sim.stateNames, plan.annots, plan.values, plan.condName,
                              plan.conds[k - 1], plan.conds[k]);
      if shared.Some? {
        OverwriteIdempotent(start.shared.value, sim.stateNames, plan.annots, plan.values);
      }
    }
  }

  lemma RowsSnoc(sim: Simulation, start: Start, plan: Plan, rows: seq<seq<real>>, log: seq<real>, k: nat)
    requires StartFits(sim, start) && PlanFits(plan) && k < |plan.conds| && k < |plan.times|
    requires RowsSoFar(sim, start, plan, rows, k) && log == RowFor(sim, start, plan, k)
    ensures RowsSoFar(sim, start, plan, rows + [log], k + 1)
  {
    var r := rows + [log];
    forall i | 0 <= i < k + 1 ensures r[i] == RowFor(sim, start, plan, i) {
      if i < k {
        assert r[i] == rows[i];
      }
    }
  }

  /** One pass of the loop of `simulate_data`: set up the condition, then
      run it to just past its last time point, or stop with an
      `IndexError` when it has no time series. */
  method SimulateStep(sim: Simulation, shared: array?<real>, ghost start: Start, plan: Plan,
                      rows: seq<seq<real>>, k: nat)
    returns (next: Option<seq<seq<real>>>)
    requires StartFits(sim, start) && PlanFits(plan) && k < |plan.conds|
    requires Progress(sim, shared, start, plan, rows, k)
    modifies sim, shared
    ensures sim.Valid()
    ensures next.None? <==> !(k < |plan.times| && |plan.times[k]| > 0)
    ensures next.Some? ==> Progress(sim, shared, start, plan, next.value, k + 1)
    ensures next.Some? ==> AfterRun(sim, start, plan, k + 1, Last(plan.times[k]) * 1.00001)
  {
    ghost var before := if shared != null then Some(shared[..]) else None;
    SetUpAgain(sim, start, plan, k, before, sim.constants);
    SetUpCondition(sim, shared, plan.annots, plan.values, plan.condName, plan.conds[k], plan.preRun);
    if k >= |plan.times| || |plan.times[k]| == 0 {
      return None;
    }
    var log := sim.Run(Last(plan.times[k]) * 1.00001, plan.times[k], plan.readOut);
    RowsSnoc(sim, start, plan, rows, log, k);
    return Some(rows + [log]);
  }

  /** One pass of the condition loop of `quick_simulate`. */
  method QuickStep(sim: Simulation, shared: array?<real>, ghost start: Start, plan: Plan,
                   rows: seq<seq<real>>, k: nat, duration: real)
    returns (next: seq<seq<real>>)
    requires StartFits(sim, start) && PlanFits(plan) && k < |plan.conds| && TimesCover(plan.times, k + 1)
    requires Progress(sim, shared, start, plan, rows, k)
    modifies sim, shared
    ensures Progress(sim, shared, start, plan, next, k + 1)
    ensures AfterRun(sim, start, plan, k + 1, duration)
  {
    ghost var before := if shared != null then Some(shared[..]) else None;
    SetUpAgain(sim, start, plan, k, before, sim.constants);
    SetUpQuickCondition(sim, shared, plan.annots, plan.values, plan.condName, plan.conds[k], plan.preRun);
    var log := sim.Run(duration, plan.times[k], plan.readOut);
    RowsSnoc(sim, start, plan, rows, log, k);
    next := rows + [log];
  }

  lemma NotCovered(times: seq<seq<real>>, n: nat, k: nat)
    requires k < n && !(k < |times| && |times[k]| > 0)
    ensures !TimesCover(times, n)
  {
    if k < |times| {
      assert |times[k]| == 0;
    }
  }

  /** The shared default state, if one is set, `shared` refers to. */
  function SharedContents(shared: array?<real>): Option<seq<real>>
    reads shared
  {
    if shared != null then Some(shared[..]) else None
  }

  /** The runs `simulate_data` makes: one per distinct experimental
      condition, with the fitted parameters and the data's time points. */
  function DataPlan(data: FittingInstructions, values: seq<real>, conds: seq<real>, preRun: real,
                    times: seq<seq<real>>): Plan
  {
    Plan(data.fittedParamsAnnot, values, data.expCondParamAnnot, conds, preRun, data.simOutputParamAnnot, times)
  }

  /** `simulate_data`: one output row per distinct experimental condition,
      each the read-out at the condition's time points. */
  method SimulateData(fittedValues: seq<real>, sim: Simulation, data: DataExp, shared: array?<real>, preRun: real)
    returns (r: Result<seq<seq<real>>, SimError>)
    requires sim.Valid()
    requires shared != null ==> shared.Length == |sim.stateNames|
    modifies sim, shared
    ensures sim.Valid()
    ensures data.fittingInstructions.None? ==> r == Failure(MissingInstructions)
    ensures data.fittingInstructions.Some? ==>
      (r == Failure(LengthMismatch) <==> |fittedValues| != |data.fittingInstructions.value.fittedParamsAnnot|)
    ensures r == Failure(MissingInstructions) || r == Failure(LengthMismatch) ==>
      unchanged(sim) && (shared != null ==> unchanged(shared))
    ensures data.fittingInstructions.Some? && |fittedValues| == |data.fittingInstructions.value.fittedParamsAnnot| ==>
      (r.Success? <==> TimesCover(data.times, |Distinct(data.expConds)|)) &&
      (r.Failure? ==> r.error == MissingSeries)
    ensures r.Success? ==>
      var plan := DataPlan(data.fittingInstructions.value, fittedValues, data.expConds, preRun, data.times);
      var start := Start(old(SharedContents(shared)), old(sim.defaultState), old(sim.constants));
      var n := |Distinct(data.expConds)|;
      StartFits(sim, start) && PlanFits(plan) && n <= |data.expConds| && n <= |data.times| &&
      // the rows, and what stays behind: the shared default state, the
      // constants of the last condition, the default state and clock of the
      // last run, or the untouched state and clock without conditions
      Progress(sim, shared, start, plan, r.value, n) &&
      (n > 0 ==> AfterRun(sim, start, plan, n, Last(data.times[n - 1]) * 1.00001)) &&
      (n == 0 ==> sim.state == old(sim.state) && sim.time == old(sim.time))
  {
    if data.fittingInstructions.None? {
      return Failure(MissingInstructions);
    }
    var fi := data.fittingInstructions.value;
    if |fittedValues| != |fi.fittedParamsAnnot| {
      return Failure(LengthMismatch);
    }
    var n := |Distinct(data.expConds)|;
    var plan := DataPlan(fi, fittedValues, data.expConds, preRun, data.times);
    ghost var start := Start(SharedContents(shared), sim.defaultState, sim.constants);
    var rows := DataRuns(sim, shared, start, plan, n);
    if rows.None? {
      return Failure(MissingSeries);
    }
    return Success(rows.value);
  }

  /** The condition loop of `simulate_data`, up to the first condition
      without a time series. */
  method DataRuns(sim: Simulation, shared: array?<real>, ghost start: Start, plan: Plan, n: nat)
    returns (rows: Option<seq<seq<real>>>)
    requires StartFits(sim, start) && PlanFits(plan) && n <= |plan.conds|
    requires Progress(sim, shared, start, plan, [], 0)
    modifies sim, shared
    ensures sim.Valid()
    ensures rows.Some? <==> TimesCover(plan.times, n)
    ensures rows.Some? ==> Progress(sim, shared, start, plan, rows.value, n)
    ensures rows.Some? && n > 0 ==> AfterRun(sim, start, plan, n, Last(plan.times[n - 1]) * 1.00001)
    ensures n == 0 ==> sim.state == old(sim.state) && sim.time == old(sim.time)
  {
    var done := [];
    var k := 0;
    while k < n
      invariant 0 <= k <= n && Progress(sim, shared, start, plan, done, k)
      invariant k > 0 ==> AfterRun(sim, start, plan, k, Last(plan.times[k - 1]) * 1.00001)
      invariant k == 0 ==> sim.state == old(sim.state) && sim.time == old(sim.time)
    {
      var next := SimulateStep(sim, shared, start, plan, done, k);
      if next.None? {
        NotCovered(plan.times, n, k);
        return None;
      }
      done := next.value;
      k := k + 1;
    }
    return Some(done);
  }

  /** The value passed as `exp_cond_param_values`: a list or array of
      values, or something else. */
  datatype ConditionValues = ValuesList(values: seq<real>) | OtherValues

  /** The value passed as `exp_cond_param_annot`: a string, or something
      else. */
  datatype ConditionName = NameString(name: string) | OtherName

  predicate ConditionsWellTyped(condName: Option<ConditionName>, condValues: Option<ConditionValues>) {
    condValues.Some? && condValues.value.ValuesList? && condName.Some? && condName.value.NameString?
  }

  /** `len(fixed_params_annot) != len(fixed_params_values)`, where the
      length of `None` raises a `TypeError`. */
  function FixedMismatch(fixedAnnots: Option<seq<string>>, fixedValues: Option<seq<real>>): Option<SimError> {
    if fixedAnnots.None? || fixedValues.None? then Some(NoLength)
    else if |fixedAnnots.value| != |fixedValues.value| then Some(LengthMismatch)
    else None
  }

  /** The argument checks of `quick_simulate` exactly as they are written:
      the time samples, the fixed parameters, the conditions, and then the
      fixed parameters a second time. */
  function QuickCheckAsWritten(timeMax: real, condName: Option<ConditionName>, condValues: Option<ConditionValues>,
                               fixedAnnots: Option<seq<string>>, fixedValues: Option<seq<real>>,
                               timeSamples: Option<seq<real>>): Option<SimError>
  {
    if timeSamples.Some? && |timeSamples.value| == 0 then Some(EmptySamples)
    else if timeSamples.Some? && Last(timeSamples.value) > timeMax then Some(SamplesBeyondTimeMax)
    else if (fixedValues.Some? || fixedAnnots.Some?) && FixedMismatch(fixedAnnots, fixedValues).Some? then
      FixedMismatch(fixedAnnots, fixedValues)
    else if (condValues.Some? || condName.Some?) && !ConditionsWellTyped(condName, condValues) then Some(BadConditions)
    else if condValues.Some? || condName.Some? then FixedMismatch(fixedAnnots, fixedValues)
    else None
  }

  /** The argument checks of `quick_simulate` without the second check of
      the fixed parameters, which only repeats the first one when fixed
      parameters are given and rejects conditions given on their own. */
  function QuickCheck(timeMax: real, condName: Option<ConditionName>, condValues: Option<ConditionValues>,
                      fixedAnnots: Option<seq<string>>, fixedValues: Option<seq<real>>,
                      timeSamples: Option<seq<real>>): Option<SimError>
  {
    if timeSamples.Some? && |timeSamples.value| == 0 then Some(EmptySamples)
    else if timeSamples.Some? && Last(timeSamples.value) > timeMax then Some(SamplesBeyondTimeMax)
    else if (fixedValues.Some? || fixedAnnots.Some?) && FixedMismatch(fixedAnnots, fixedValues).Some? then
      FixedMismatch(fixedAnnots, fixedValues)
    else if (condValues.Some? || condName.Some?) && !ConditionsWellTyped(condName, condValues) then Some(BadConditions)
    else None
  }

  /** `quick_simulate` accepts exactly the calls whose time samples end
      within `time_max`, whose fixed names and values are both missing or
      of equal lengths, and whose conditions are missing or a list of
      values with a string name. */
  lemma QuickCheckAccepts(timeMax: real, condName: Option<ConditionName>, condValues: Option<ConditionValues>,
                          fixedAnnots: Option<seq<string>>, fixedValues: Option<seq<real>>,
                          timeSamples: Option<seq<real>>)
    ensures QuickCheck(timeMax, condName, condValues, fixedAnnots, fixedValues, timeSamples) == None <==>
      (timeSamples.None? || (|timeSamples.value| > 0 && Last(timeSamples.value) <= timeMax)) &&
      ((fixedAnnots.None? && fixedValues.None?) ||
       (fixedAnnots.Some? && fixedValues.Some? && |fixedAnnots.value| == |fixedValues.value|)) &&
      ((condName.None? && condValues.None?) || ConditionsWellTyped(condName, condValues))
  {
  }

  /** The checks as written differ from the intended ones on exactly the
      calls that give well-formed conditions and no fixed parameters: those
      raise a `TypeError`. */
  lemma AsWrittenRejectsConditionsAlone(timeMax: real, condName: Option<ConditionName>, condValues: Option<ConditionValues>,
                                        fixedAnnots: Option<seq<string>>, fixedValues: Option<seq<real>>,
                                        timeSamples: Option<seq<real>>)
    ensures (QuickCheckAsWritten(timeMax, condName, condValues, fixedAnnots, fixedValues, timeSamples)
             != QuickCheck(timeMax, condName, condValues, fixedAnnots, fixedValues, timeSamples))
        <==>
      (QuickCheck(timeMax, condName, condValues, fixedAnnots, fixedValues, timeSamples) == None &&
       ConditionsWellTyped(condName, condValues) && fixedAnnots.None? && fixedValues.None?)
    ensures QuickCheckAsWritten(6.0, Some(NameString("constants.T")), Some(ValuesList([37.0])), None, None, None)
         == Some(NoLength)
  {
  }

  /** The rejected calls of the test suite are rejected for the stated
      reasons. */
  lemma QuickCheckRejections()
    ensures QuickCheck(10.0, None, None, None, None, Some([0.0, 0.01, 0.05, 0.1, 0.3, 0.5, 1.0, 5.0, 20.0]))
         == Some(SamplesBeyondTimeMax)
    ensures QuickCheck(6.0, None, None, Some(["constants.unknown_cst", "constants.unknown_cst2"]),
                       Some([0.1, 0.1, 10.0]), Some([0.0, 0.01, 0.05, 0.1, 0.3, 0.5, 1.0, 5.0])) == Some(LengthMismatch)
    ensures QuickCheck(6.0, Some(OtherName), Some(ValuesList([37.0])),
                       Some(["constants.unknown_cst", "constants.unknown_cst2"]), Some([0.1, 0.1]),
                       Some([0.0, 0.01, 0.05, 0.1, 0.3, 0.5, 1.0, 5.0]))
         == Some(BadConditions)
    ensures QuickCheck(6.0, Some(NameString("constants.T")), Some(ValuesList([37.0])),
                       Some(["constants.unknown_cst", "constants.unknown_cst2"]), Some([0.1, 0.1, 10.0]),
                       Some([0.0, 0.01, 0.05, 0.1, 0.3, 0.5, 1.0, 5.0]))
         == Some(LengthMismatch)
  {
  }

  /** `np.linspace(start, stop, num)`: `num` evenly spaced points from
      `start` to `stop`, both included. */
  function Linspace(start: real, stop: real, num: nat): (xs: seq<real>)
    requires num >= 2
    ensures |xs| == num
  {
    seq(num, i requires 0 <= i < num => GridPoint(start, stop, num, i))
  }

  function GridPoint(start: real, stop: real, num: nat, i: nat): real
    requires num >= 2
  {
    start + (stop - start) * (i as real) / ((num - 1) as real)
  }

  /** The grid starts at `start`, ends at `stop` and has equal steps. */
  lemma LinspaceGrid(start: real, stop: real, num: nat)
    requires num >= 2
    ensures Linspace(start, stop, num)[0] == start
    ensures Linspace(start, stop, num)[num - 1] == stop
    ensures forall i :: 0 <= i < num - 1 ==>
      Linspace(start, stop, num)[i + 1] - Linspace(start, stop, num)[i] == (stop - start) / ((num - 1) as real)
  {
    var xs := Linspace(start, stop, num);
    GridEnds(start, stop, num);
    forall i | 0 <= i < num - 1 ensures xs[i + 1] - xs[i] == (stop - start) / ((num - 1) as real) {
      GridStep(start, stop, num, i);
    }
  }

  lemma GridEnds(start: real, stop: real, num: nat)
    requires num >= 2
    ensures GridPoint(start, stop, num, 0) == start
    ensures GridPoint(start, stop, num, num - 1) == stop
  {
    var d := (num - 1) as real;
    assert (stop - start) * d / d == stop - start;
  }

  lemma GridStep(start: real, stop: real, num: nat, i: nat)
    requires num >= 2
    ensures GridPoint(start, stop, num, i + 1) - GridPoint(start, stop, num, i) == (stop - start) / ((num - 1) as real)
  {
    var a, x, d := stop - start, i as real, (num - 1) as real;
    assert (i + 1) as real == x + 1.0;
    assert a * (x + 1.0) == a * x + a;
    assert (a * x + a) / d == a * x / d + a / d;
  }

  /** The one run of `quick_simulate` without conditions: reset, write the
      fixed states, set the fixed constants, pre-run. */
  method SetUpSingle(sim: Simulation, shared: array?<real>, annots: seq<string>, values: seq<real>, preRun: real)
    requires sim.Valid() && |annots| == |values|
    requires shared != null ==> shared.Length == |sim.stateNames|
    modifies sim, shared
    ensures sim.Valid()
    ensures var base := if shared != null then old(shared[..]) else old(sim.defaultState);
            var c := old(sim.constants) + FittedConstants(sim.stateNames, annots, values);
            sim.constants == c && sim.time == 0.0 &&
            sim.state == PreRunState(sim, base, annots, values, c, preRun) && sim.defaultState == sim.state &&
            (shared != null ==> shared[..] == Overwrite(base, sim.stateNames, annots, values))
  {
    sim.Reset();
    var target: array<real>;
    if shared != null {
      target := shared;
    } else {
      target := sim.State();
    }
    sim.SetTime(0.0);
    ApplyFixed(sim, target, annots, values);
    sim.SetState(target[..]);
    sim.Pre(preRun);
  }

  /** The time points of `quick_simulate`: the given ones, or 100 evenly
      spaced points on [0, time_max]. */
  function Samples(timeMax: real, timeSamples: Option<seq<real>>): seq<real> {
    if timeSamples.Some? then timeSamples.value else Linspace(0.0, timeMax, 100)
  }

  /** The runs `quick_simulate` makes for given conditions: every one logs
      at the same time points. */
  function QuickPlan(annots: seq<string>, values: seq<real>, condName: string, conds: seq<real>, preRun: real,
                     readOut: string, samples: seq<real>): Plan
  {
    Plan(annots, values, condName, conds, preRun, readOut, seq(|conds|, _ => samples))
  }

  /** The condition loop of `quick_simulate`. */
  method QuickRuns(sim: Simulation, shared: array?<real>, ghost start: Start, plan: Plan, duration: real)
    returns (rows: seq<seq<real>>)
    requires StartFits(sim, start) && PlanFits(plan) && TimesCover(plan.times, |plan.conds|)
    requires Progress(sim, shared, start, plan, [], 0)
    modifies sim, shared
    ensures Progress(sim, shared, start, plan, rows, |plan.conds|)
    ensures |plan.conds| > 0 ==> AfterRun(sim, start, plan, |plan.conds|, duration)
    ensures |plan.conds| == 0 ==> sim.state == old(sim.state) && sim.time == old(sim.time)
  {
    rows := [];
    var k := 0;
    while k < |plan.conds|
      invariant 0 <= k <= |plan.conds| && Progress(sim, shared, start, plan, rows, k)
      invariant k > 0 ==> AfterRun(sim, start, plan, k, duration)
      invariant k == 0 ==> sim.state == old(sim.state) && sim.time == old(sim.time)
    {
      rows := QuickStep(sim, shared, start, plan, rows, k, duration);
      k := k + 1;
    }
  }

  /** `quick_simulate` with the argument checks as intended: one row per
      condition value, or a single row without conditions, each the
      read-out at the time samples. */
  method QuickSimulate(sim: Simulation, shared: array?<real>, timeMax: real, readOut: string,
                       condName: Option<ConditionName>, condValues: Option<ConditionValues>,
                       fixedAnnots: Option<seq<string>>, fixedValues: Option<seq<real>>,
                       preRun: real, timeSamples: Option<seq<real>>)
    returns (r: Result<seq<seq<real>>, SimError>)
    requires sim.Valid()
    requires shared != null ==> shared.Length == |sim.stateNames|
    modifies sim, shared
    ensures sim.Valid()
    ensures var err := QuickCheck(timeMax, condName, condValues, fixedAnnots, fixedValues, timeSamples);
            (r.Failure? <==> err.Some?) &&
            (r.Failure? ==> r.error == err.value && unchanged(sim) && (shared != null ==> unchanged(shared)))
    ensures r.Success? ==>
      var samples := Samples(timeMax, timeSamples);
      var annots := fixedAnnots.GetOr([]);
      var values := fixedValues.GetOr([]);
      var start := Start(old(SharedContents(shared)), old(sim.defaultState), old(sim.constants));
      |annots| == |values| && StartFits(sim, start) &&
      |r.value| == (if condValues.Some? then |condValues.value.values| else 1) &&
      (forall k :: 0 <= k < |r.value| ==> |r.value[k]| == |samples|) &&
      (condValues.Some? ==>
        var plan := QuickPlan(annots, values, condName.value.name, condValues.value.values, preRun, readOut, samples);
        RowsSoFar(sim, start, plan, r.value, |r.value|) &&
        Progress(sim, shared, start, plan, r.value, |r.value|) &&
        (|r.value| > 0 ==> AfterRun(sim, start, plan, |r.value|, timeMax * 1.000001)) &&
        (|r.value| == 0 ==> sim.state == old(sim.state) && sim.time == old(sim.time))) &&
      (condValues.None? ==>
        var c := start.constants + FittedConstants(sim.stateNames, annots, values);
        var base := if start.shared.Some? then start.shared.value else start.defaultState;
        var x := PreRunState(sim, base, annots, values, c, preRun);
        r.value == [Trace(sim.trajectory, x, c, readOut, samples)] &&
        // what stays behind: the constants, the pre-run state as the new
        // default, the clock and state of the run, the shared default state
        sim.constants == c && sim.defaultState == x && sim.time == timeMax * 1.00001 &&
        sim.state == Advance(sim.evolution, |sim.stateNames|, x, c, timeMax * 1.00001) &&
        (shared != null ==> shared[..] == Overwrite(base, sim.stateNames, annots, values)))
  {
    var err := QuickCheck(timeMax, condName, condValues, fixedAnnots, fixedValues, timeSamples);
    if err.Some? {
      return Failure(err.value);
    }
    var samples := Samples(timeMax, timeSamples);
    // Without fixed parameters the assignment loop does nothing.
    var annots := fixedAnnots.GetOr([]);
    var values := fixedValues.GetOr([]);
    ghost var start := Start(SharedContents(shared), sim.defaultState, sim.constants);
    if condValues.Some? {
      var plan := QuickPlan(annots, values, condName.value.name, condValues.value.values, preRun, readOut, samples);
      var rows := QuickRuns(sim, shared, start, plan, timeMax * 1.000001);
      return Success(rows);
    } else {
      SetUpSingle(sim, shared, annots, values, preRun);
      var log := sim.Run(timeMax * 1.00001, samples, readOut);
      return Success([log]);
    }
  }
}
