/** The simulator the runs are delegated to, seen from the outside: a state
    vector indexed by the model's state names, a default state, a map of
    constants and a clock. How the model's equations evolve the state and
    what they read out are parameters (`Evolution`, `Trajectory`); only the
    bookkeeping around them is modelled. Also here: how a list of fitted or
    fixed parameters is split between state entries and constants. */
module Simulations {
  import opened Wrappers

  /** The read-out `name` at time `t` of a run started at time 0 from state
      `x` with constants `c`. */
  type Trajectory = (seq<real>, map<string, real>, string, real) -> real

  /** Entry `i` of the state reached from state `x` with constants `c` after
      running for `d` time units. */
  type Evolution = (seq<real>, map<string, real>, real, nat) -> real

  /** The state reached by a run. */
  function Advance(evolution: Evolution, n: nat, x: seq<real>, c: map<string, real>, d: real): (y: seq<real>)
    ensures |y| == n
  {
    seq(n, i requires 0 <= i < n => evolution(x, c, d, i))
  }

  /** The log of read-out `name` at the requested times. */
  function Trace(trajectory: Trajectory, x: seq<real>, c: map<string, real>, name: string, times: seq<real>): (log: seq<real>)
    ensures |log| == |times|
  {
    seq(|times|, i requires 0 <= i < |times| => trajectory(x, c, name, times[i]))
  }

  class Simulation {
    const stateNames: seq<string>
    const trajectory: Trajectory
    const evolution: Evolution
    var state: seq<real>
    var defaultState: seq<real>
    var constants: map<string, real>
    var time: real

    ghost predicate Valid()
      reads this
    {
      |state| == |stateNames| && |defaultState| == |stateNames|
    }

    constructor (stateNames: seq<string>, trajectory: Trajectory, evolution: Evolution,
                 defaultState: seq<real>, constants: map<string, real>)
      requires |defaultState| == |stateNames|
      ensures Valid()
      ensures this.stateNames == stateNames && this.trajectory == trajectory && this.evolution == evolution
      ensures state == defaultState && this.defaultState == defaultState
      ensures this.constants == constants && time == 0.0
    {
      this.stateNames := stateNames;
      this.trajectory := trajectory;
      this.evolution := evolution;
      state := defaultState;
      this.defaultState := defaultState;
      this.constants := constants;
      time := 0.0;
    }

    /** `reset`: back to the default state at time 0; constants are kept. */
    method Reset()
      requires Valid()
      modifies this
      ensures Valid()
      ensures state == defaultState && time == 0.0
      ensures defaultState == old(defaultState) && constants == old(constants)
    {
      state := defaultState;
      time := 0.0;
    }

    /** `set_time`. */
    method SetTime(t: real)
      modifies this
      ensures time == t
      ensures state == old(state) && defaultState == old(defaultState) && constants == old(constants)
    {
      time := t;
    }

    /** `state()`: a fresh copy of the current state. */
    method State() returns (x: array<real>)
      ensures fresh(x) && x[..] == state
    {
      x := new real[|state|](i requires 0 <= i < |state| reads this => state[i]);
    }

    /** `set_state`: the state is replaced by a copy of `x`. */
    method SetState(x: seq<real>)
      requires Valid() && |x| == |stateNames|
      modifies this
      ensures Valid()
      ensures state == x
      ensures defaultState == old(defaultState) && constants == old(constants) && time == old(time)
    {
      state := x;
    }

    /** `set_constant`. */
    method SetConstant(name: string, v: real)
      modifies this
      ensures constants == old(constants)[name := v]
      ensures state == old(state) && defaultState == old(defaultState) && time == old(time)
    {
      constants := constants[name := v];
    }

    /** `pre`: an unlogged run whose final state becomes both the current
        and the default state. */
    method Pre(duration: real)
      requires Valid()
      modifies this
      ensures Valid()
      ensures state == Advance(evolution, |stateNames|, old(state), constants, duration)
      ensures defaultState == state
      ensures constants == old(constants) && time == old(time)
    {
      state := Advance(evolution, |stateNames|, state, constants, duration);
      defaultState := state;
    }

    /** `run` with logging at `logTimes`, returning the log of `name`. */
    method Run(duration: real, logTimes: seq<real>, name: string) returns (log: seq<real>)
      requires Valid()
      modifies this
      ensures Valid()
      ensures log == Trace(trajectory, old(state), constants, name, logTimes)
      ensures state == Advance(evolution, |stateNames|, old(state), constants, duration)
      ensures time == old(time) + duration
      ensures defaultState == old(defaultState) && constants == old(constants)
    {
      log := Trace(trajectory, state, constants, name, logTimes);
      state := Advance(evolution, |stateNames|, state, constants, duration);
      time := time + duration;
    }
  }

  /** The position of a state name in the state vector (its first
      occurrence). */
  function IndexOf(names: seq<string>, a: string): (i: nat)
    requires a in names
    ensures i < |names| && names[i] == a
  {
    if names[0] == a then 0 else 1 + IndexOf(names[1..], a)
  }

  /** The state after the fitted values of state variables are written into
      it, in list order. */
  function Overwrite(x: seq<real>, names: seq<string>, annots: seq<string>, values: seq<real>): (y: seq<real>)
    requires |annots| == |values| && |x| == |names|
    ensures |y| == |x|
    decreases |annots|
  {
    if |annots| == 0 then x
    else
      var n := |annots| - 1;
      var p := Overwrite(x, names, annots[..n], values[..n]);
      if annots[n] in names then p[IndexOf(names, annots[n]) := values[n]] else p
  }

  /** The value last written to state entry `j`, if any. */
  function LastWrite(names: seq<string>, annots: seq<string>, values: seq<real>, j: nat): Option<real>
    requires |annots| == |values|
    decreases |annots|
  {
    if |annots| == 0 then None
    else
      var n := |annots| - 1;
      if annots[n] in names && IndexOf(names, annots[n]) == j then Some(values[n])
      else LastWrite(names, annots[..n], values[..n], j)
  }

  /** Each state entry holds the value last written to it, or its old value
      when no fitted state variable is stored there. */
  lemma {:induction false} OverwriteAt(x: seq<real>, names: seq<string>, annots: seq<string>, values: seq<real>, j: nat)
    requires |annots| == |values| && |x| == |names| && j < |x|
    ensures Overwrite(x, names, annots, values)[j] == LastWrite(names, annots, values, j).GetOr(x[j])
    decreases |annots|
  {
    if |annots| > 0 {
      var n := |annots| - 1;
      OverwriteAt(x, names, annots[..n], values[..n], j);
    }
  }

  /** Writing the same fitted values twice leaves the state as writing them
      once: repeated runs over the aliased default state agree. */
  lemma OverwriteIdempotent(x: seq<real>, names: seq<string>, annots: seq<string>, values: seq<real>)
    requires |annots| == |values| && |x| == |names|
    ensures Overwrite(Overwrite(x, names, annots, values), names, annots, values)
         == Overwrite(x, names, annots, values)
  {
    var y := Overwrite(x, names, annots, values);
    var z := Overwrite(y, names, annots, values);
    forall j | 0 <= j < |x| ensures z[j] == y[j] {
      OverwriteAt(x, names, annots, values, j);
      OverwriteAt(y, names, annots, values, j);
    }
  }

  /** No write lands on an entry that no fitted state variable names. */
  lemma {:induction false} LastWriteNone(names: seq<string>, annots: seq<string>, values: seq<real>, j: nat)
    requires |annots| == |values|
    ensures LastWrite(names, annots, values, j) == None
        <==> forall i :: 0 <= i < |annots| && annots[i] in names ==> IndexOf(names, annots[i]) != j
    decreases |annots|
  {
    if |annots| > 0 {
      var n := |annots| - 1;
      LastWriteNone(names, annots[..n], values[..n], j);
      assert forall i :: 0 <= i < n ==> annots[..n][i] == annots[i];
    }
  }

  /** The entry of a fitted state variable holds the value paired with its
      last occurrence in the list. */
  lemma {:induction false} LastWriteOfLast(names: seq<string>, annots: seq<string>, values: seq<real>, i: nat)
    requires |annots| == |values| && i < |annots| && annots[i] in names && annots[i] !in annots[i + 1..]
    ensures LastWrite(names, annots, values, IndexOf(names, annots[i])) == Some(values[i])
    decreases |annots|
  {
    var n := |annots| - 1;
    if i < n {
      assert annots[n] in annots[i + 1..];
      assert annots[..n][i + 1..] == annots[i + 1..n];
      assert annots[i] !in annots[..n][i + 1..];
      LastWriteOfLast(names, annots[..n], values[..n], i);
    }
  }

  /** The constants set from the fitted values that are not state
      variables, later entries overriding earlier ones. */
  function FittedConstants(names: seq<string>, annots: seq<string>, values: seq<real>): map<string, real>
    requires |annots| == |values|
    decreases |annots|
  {
    if |annots| == 0 then map[]
    else
      var n := |annots| - 1;
      var m := FittedConstants(names, annots[..n], values[..n]);
      if annots[n] in names then m else m[annots[n] := values[n]]
  }

  /** One more fitted parameter: a constant is set over the earlier ones,
      a state variable leaves the constants alone. */
  lemma FittedConstantsStep(c: map<string, real>, names: seq<string>, annots: seq<string>, values: seq<real>, i: nat)
    requires |annots| == |values| && i < |annots|
    ensures c + FittedConstants(names, annots[..i + 1], values[..i + 1])
         == if annots[i] in names then c + FittedConstants(names, annots[..i], values[..i])
            else (c + FittedConstants(names, annots[..i], values[..i]))[annots[i] := values[i]]
  {
    assert annots[..i + 1][..i] == annots[..i] && values[..i + 1][..i] == values[..i];
  }

  /** One more fitted parameter: a state variable's value is written into
      its entry, a constant leaves the state alone. */
  lemma OverwriteStep(x: seq<real>, names: seq<string>, annots: seq<string>, values: seq<real>, i: nat)
    requires |annots| == |values| && |x| == |names| && i < |annots|
    ensures Overwrite(x, names, annots[..i + 1], values[..i + 1])
         == if annots[i] in names then Overwrite(x, names, annots[..i], values[..i])[IndexOf(names, annots[i]) := values[i]]
            else Overwrite(x, names, annots[..i], values[..i])
  {
    assert annots[..i + 1][..i] == annots[..i] && values[..i + 1][..i] == values[..i];
  }

  /** Exactly the fitted annotations that are not state variables become
      constants. */
  lemma {:induction false} FittedConstantsKeys(names: seq<string>, annots: seq<string>, values: seq<real>)
    requires |annots| == |values|
    ensures forall a :: a in FittedConstants(names, annots, values) <==> a in annots && a !in names
    decreases |annots|
  {
    if |annots| > 0 {
      var n := |annots| - 1;
      FittedConstantsKeys(names, annots[..n], values[..n]);
      assert annots == annots[..n] + [annots[n]];
    }
  }

  /** A fitted constant gets the value paired with its last occurrence. */
  lemma {:induction false} FittedConstantsLast(names: seq<string>, annots: seq<string>, values: seq<real>, i: nat)
    requires |annots| == |values| && i < |annots| && annots[i] !in names && annots[i] !in annots[i + 1..]
    ensures annots[i] in FittedConstants(names, annots, values)
    ensures FittedConstants(names, annots, values)[annots[i]] == values[i]
    decreases |annots|
  {
    var n := |annots| - 1;
    if i < n {
      assert annots[n] in annots[i + 1..];
      assert annots[..n][i + 1..] == annots[i + 1..n];
      assert annots[i] !in annots[..n][i + 1..];
      FittedConstantsLast(names, annots[..n], values[..n], i);
    }
  }

  /** The constants for one experimental condition: the fitted constants
      over the current ones, then the condition's constant. */
  function ConditionConstants(c: map<string, real>, names: seq<string>, annots: seq<string>, values: seq<real>,
                              condName: string, cond: real): map<string, real>
    requires |annots| == |values|
  {
    (c + FittedConstants(names, annots, values))[condName := cond]
  }

  /** The condition's constant has the condition's value, whatever the
      fitted list says; the other fitted constants keep their values. */
  lemma ConditionSetLast(c: map<string, real>, names: seq<string>, annots: seq<string>, values: seq<real>,
                         condName: string, cond: real)
    requires |annots| == |values|
    ensures ConditionConstants(c, names, annots, values, condName, cond)[condName] == cond
    ensures forall a :: a in FittedConstants(names, annots, values) && a != condName ==>
      ConditionConstants(c, names, annots, values, condName, cond)[a] == FittedConstants(names, annots, values)[a]
  {
  }

  /** Setting up a second condition on top of a first gives what setting
      it up directly gives: the earlier condition leaves nothing behind. */
  lemma ConditionConstantsTwice(c: map<string, real>, names: seq<string>, annots: seq<string>, values: seq<real>,
                                condName: string, cond: real, cond': real)
    requires |annots| == |values|
    ensures ConditionConstants(ConditionConstants(c, names, annots, values, condName, cond), names, annots, values, condName, cond')
         == ConditionConstants(c, names, annots, values, condName, cond')
  {
    var f := FittedConstants(names, annots, values);
    var lhs := ConditionConstants(ConditionConstants(c, names, annots, values, condName, cond), names, annots, values, condName, cond');
    var rhs := ConditionConstants(c, names, annots, values, condName, cond');
    assert lhs.Keys == rhs.Keys;
    forall a | a in lhs.Keys ensures lhs[a] == rhs[a] {
      if a != condName && a !in f {
        assert lhs[a] == c[a];
      }
    }
  }
}
