/** The piecewise-constant input protocols of the optimiser's test models
    (`sabs_pkpd/optimize_protocol.py`) and the parameter clamps applied by
    the two toy simulators before they integrate.

    A protocol maps a time to a stimulus value.  The source evaluates it
    over a whole numpy array of times at once; the three- and five-event
    protocols wrap a Python or numpy float into a one-element array first
    and then return that array, while an integer time has no length and
    fails.  The evaluation is elementwise, so the model states the value at
    a single real time. */
module EventProtocols {
  import opened RealSums

  /** A boolean cast to float, as numpy's `astype(float)` or a product with
      a boolean mask does. */
  function Indicator(b: bool): (r: real)
    ensures b ==> r == 1.0
    ensures !b ==> r == 0.0
  {
    if b then 1.0 else 0.0
  }

  /** `amplitude` on the open interval (1, 1 + duration), zero elsewhere. */
  function OneStepProtocol(amplitude: real, duration: real): real -> real {
    t => Indicator(t > 1.0 && t < 1.0 + duration) * amplitude
  }

  /** Three back-to-back events starting at t = 1, written as the source's
      sum of three masked levels. */
  function ThreeEventProtocol(d1: real, d2: real, d3: real,
                              a1: real, a2: real, a3: real): real -> real {
    t => 0.0
      + a1 * Indicator(t > 1.0 && t < 1.0 + d1)
      + a2 * Indicator(t > 1.0 + d1 && t < 1.0 + d1 + d2)
      + a3 * Indicator(t > 1.0 + d1 + d2 && t < 1.0 + d1 + d2 + d3)
  }

  /** Five back-to-back events starting at t = 1. */
  function FiveEventProtocol(d1: real, d2: real, d3: real, d4: real, d5: real,
                             a1: real, a2: real, a3: real, a4: real, a5: real): real -> real {
    t => 0.0
      + a1 * Indicator(t > 1.0 && t < 1.0 + d1)
      + a2 * Indicator(t > 1.0 + d1 && t < 1.0 + d1 + d2)
      + a3 * Indicator(t > 1.0 + d1 + d2 && t < 1.0 + d1 + d2 + d3)
      + a4 * Indicator(t > 1.0 + d1 + d2 + d3 && t < 1.0 + d1 + d2 + d3 + d4)
      + a5 * Indicator(t > 1.0 + d1 + d2 + d3 + d4 && t < 1.0 + d1 + d2 + d3 + d4 + d5)
  }

  /** Reference definition: a train of events, event k holding level
      `levels[k]` on the open interval that starts where event k - 1 ends;
      the first event starts at `start`. */
  function EventTrain(durations: seq<real>, levels: seq<real>, start: real, t: real): real
    requires |durations| == |levels|
    decreases |durations|
  {
    if |durations| == 0 then 0.0
    else
      levels[0] * Indicator(t > start && t < start + durations[0])
      + EventTrain(durations[1..], levels[1..], start + durations[0], t)
  }

  /** Where event k starts: `start` plus the first k durations. */
  function EventStart(durations: seq<real>, start: real, k: nat): real
    requires k <= |durations|
  {
    start + Sum(durations[..k])
  }

  predicate NonNegative(s: seq<real>) {
    forall k :: 0 <= k < |s| ==> s[k] >= 0.0
  }

  // ---------------------------------------------------------------------
  // The source's protocols are event trains starting at t = 1.

  lemma OneStepIsEventTrain(amplitude: real, duration: real, t: real)
    ensures OneStepProtocol(amplitude, duration)(t)
         == EventTrain([duration], [amplitude], 1.0, t)
  {
    assert [duration][1..] == [] && [amplitude][1..] == [];
  }

  lemma ThreeEventIsEventTrain(d1: real, d2: real, d3: real,
                               a1: real, a2: real, a3: real, t: real)
    ensures ThreeEventProtocol(d1, d2, d3, a1, a2, a3)(t)
         == EventTrain([d1, d2, d3], [a1, a2, a3], 1.0, t)
  {
    TrainOfThree(d1, d2, d3, a1, a2, a3, 1.0, t);
    var i1 := Indicator(t > 1.0 && t < 1.0 + d1);
    var i2 := Indicator(t > 1.0 + d1 && t < 1.0 + d1 + d2);
    var i3 := Indicator(t > 1.0 + d1 + d2 && t < 1.0 + d1 + d2 + d3);
    assert ThreeEventProtocol(d1, d2, d3, a1, a2, a3)(t) == 0.0 + a1 * i1 + a2 * i2 + a3 * i3;
    assert EventTrain([d1, d2, d3], [a1, a2, a3], 1.0, t) == a1 * i1 + a2 * i2 + a3 * i3;
  }

  lemma FiveEventIsEventTrain(d1: real, d2: real, d3: real, d4: real, d5: real,
                              a1: real, a2: real, a3: real, a4: real, a5: real, t: real)
    ensures FiveEventProtocol(d1, d2, d3, d4, d5, a1, a2, a3, a4, a5)(t)
         == EventTrain([d1, d2, d3, d4, d5], [a1, a2, a3, a4, a5], 1.0, t)
  {
    FiveEventProtocolValue(d1, d2, d3, d4, d5, a1, a2, a3, a4, a5, t);
    FiveEventTrainValue(d1, d2, d3, d4, d5, a1, a2, a3, a4, a5, t);
  }

  lemma FiveEventProtocolValue(d1: real, d2: real, d3: real, d4: real, d5: real,
                               a1: real, a2: real, a3: real, a4: real, a5: real, t: real)
    ensures var s1, s2, s3, s4 := 1.0 + d1, 1.0 + d1 + d2, 1.0 + d1 + d2 + d3, 1.0 + d1 + d2 + d3 + d4;
      FiveEventProtocol(d1, d2, d3, d4, d5, a1, a2, a3, a4, a5)(t)
      == a1 * Indicator(t > 1.0 && t < s1) + a2 * Indicator(t > s1 && t < s2)
       + a3 * Indicator(t > s2 && t < s3) + a4 * Indicator(t > s3 && t < s4)
       + a5 * Indicator(t > s4 && t < s4 + d5)
  {
  }

  lemma FiveEventTrainValue(d1: real, d2: real, d3: real, d4: real, d5: real,
                            a1: real, a2: real, a3: real, a4: real, a5: real, t: real)
    ensures var s1, s2, s3, s4 := 1.0 + d1, 1.0 + d1 + d2, 1.0 + d1 + d2 + d3, 1.0 + d1 + d2 + d3 + d4;
      EventTrain([d1, d2, d3, d4, d5], [a1, a2, a3, a4, a5], 1.0, t)
      == a1 * Indicator(t > 1.0 && t < s1) + a2 * Indicator(t > s1 && t < s2)
       + a3 * Indicator(t > s2 && t < s3) + a4 * Indicator(t > s3 && t < s4)
       + a5 * Indicator(t > s4 && t < s4 + d5)
  {
    var s1, s2 := 1.0 + d1, 1.0 + d1 + d2;
    TrainOfThree(d3, d4, d5, a3, a4, a5, s2, t);
    EventTrainCons(d2, [d3, d4, d5], a2, [a3, a4, a5], s1, t);
    assert [d2] + [d3, d4, d5] == [d2, d3, d4, d5] && [a2] + [a3, a4, a5] == [a2, a3, a4, a5];
    EventTrainCons(d1, [d2, d3, d4, d5], a1, [a2, a3, a4, a5], 1.0, t);
    assert [d1] + [d2, d3, d4, d5] == [d1, d2, d3, d4, d5];
    assert [a1] + [a2, a3, a4, a5] == [a1, a2, a3, a4, a5];
  }

  /** A train of three events, unfolded. */
  lemma TrainOfThree(d1: real, d2: real, d3: real, a1: real, a2: real, a3: real, start: real, t: real)
    ensures EventTrain([d1, d2, d3], [a1, a2, a3], start, t)
         == a1 * Indicator(t > start && t < start + d1)
          + a2 * Indicator(t > start + d1 && t < start + d1 + d2)
          + a3 * Indicator(t > start + d1 + d2 && t < start + d1 + d2 + d3)
  {
    EventTrainCons(d3, [], a3, [], start + d1 + d2, t);
    assert [d3] + [] == [d3] && [a3] + [] == [a3];
    EventTrainCons(d2, [d3], a2, [a3], start + d1, t);
    assert [d2] + [d3] == [d2, d3] && [a2] + [a3] == [a2, a3];
    EventTrainCons(d1, [d2, d3], a1, [a2, a3], start, t);
    assert [d1] + [d2, d3] == [d1, d2, d3] && [a1] + [a2, a3] == [a1, a2, a3];
  }

  /** Unfolds the first event of a train. */
  lemma EventTrainCons(d: real, ds: seq<real>, a: real, levels: seq<real>, start: real, t: real)
    requires |ds| == |levels|
    ensures EventTrain([d] + ds, [a] + levels, start, t)
         == a * Indicator(t > start && t < start + d) + EventTrain(ds, levels, start + d, t)
  {
    assert ([d] + ds)[1..] == ds && ([a] + levels)[1..] == levels;
  }

  /** The single step holds `amplitude` exactly inside (1, 1 + duration). */
  lemma OneStepValue(amplitude: real, duration: real, t: real)
    ensures 1.0 < t < 1.0 + duration ==> OneStepProtocol(amplitude, duration)(t) == amplitude
    ensures !(1.0 < t < 1.0 + duration) ==> OneStepProtocol(amplitude, duration)(t) == 0.0
  {
    var b := t > 1.0 && t < 1.0 + duration;
    assert OneStepProtocol(amplitude, duration)(t) == Indicator(b) * amplitude;
  }

  // ---------------------------------------------------------------------
  // Properties of event trains with non-negative durations.

  lemma {:induction false} PrefixSumSplit(durations: seq<real>, k: nat)
    requires 0 < k <= |durations|
    ensures Sum(durations[..k]) == durations[0] + Sum(durations[1..][..k - 1])
  {
    assert durations[..k][1..] == durations[1..][..k - 1];
  }

  lemma NonNegativeTail(durations: seq<real>)
    requires |durations| > 0 && NonNegative(durations)
    ensures NonNegative(durations[1..])
  {
    assert forall k :: 0 <= k < |durations[1..]| ==> durations[1..][k] == durations[k + 1];
  }

  lemma NonNegativeSum(durations: seq<real>)
    requires NonNegative(durations)
    ensures Sum(durations) >= 0.0
  {
    SumAtLeast(durations, 0.0);
  }

  lemma NonNegativePrefix(durations: seq<real>, k: nat)
    requires k <= |durations| && NonNegative(durations)
    ensures NonNegative(durations[..k])
  {
  }

  /** Nothing happens up to the start of the train. */
  lemma {:induction false} BeforeStart(durations: seq<real>, levels: seq<real>, start: real, t: real)
    requires |durations| == |levels| && NonNegative(durations)
    requires t <= start
    ensures EventTrain(durations, levels, start, t) == 0.0
    decreases |durations|
  {
    if |durations| > 0 {
      NonNegativeTail(durations);
      BeforeStart(durations[1..], levels[1..], start + durations[0], t);
    }
  }

  /** Nothing happens once the last event has ended. */
  lemma {:induction false} AfterEnd(durations: seq<real>, levels: seq<real>, start: real, t: real)
    requires |durations| == |levels| && NonNegative(durations)
    requires t >= start + Sum(durations)
    ensures EventTrain(durations, levels, start, t) == 0.0
    decreases |durations|
  {
    if |durations| > 0 {
      NonNegativeTail(durations);
      NonNegativeSum(durations[1..]);
      AfterEnd(durations[1..], levels[1..], start + durations[0], t);
    }
  }

  /** Strictly inside event k the train holds level k. */
  lemma {:induction false} InsideEvent(durations: seq<real>, levels: seq<real>, start: real, t: real, k: nat)
    requires |durations| == |levels| && NonNegative(durations)
    requires k < |durations|
    requires EventStart(durations, start, k) < t < EventStart(durations, start, k + 1)
    ensures EventTrain(durations, levels, start, t) == levels[k]
    decreases k
  {
    NonNegativeTail(durations);
    PrefixSumSplit(durations, k + 1);
    if k == 0 {
      assert durations[..0] == [];
      assert durations[1..][..0] == [];
      BeforeStart(durations[1..], levels[1..], start + durations[0], t);
    } else {
      PrefixSumSplit(durations, k);
      NonNegativePrefix(durations[1..], k - 1);
      NonNegativeSum(durations[1..][..k - 1]);
      InsideEvent(durations[1..], levels[1..], start + durations[0], t, k - 1);
    }
  }

  /** At the instant one event hands over to the next the value is zero:
      both intervals are open. */
  lemma {:induction false} AtEventBoundary(durations: seq<real>, levels: seq<real>, start: real, t: real, k: nat)
    requires |durations| == |levels| && NonNegative(durations)
    requires k <= |durations|
    requires t == EventStart(durations, start, k)
    ensures EventTrain(durations, levels, start, t) == 0.0
    decreases k
  {
    if k == 0 {
      assert durations[..0] == [];
      BeforeStart(durations, levels, start, t);
    } else {
      NonNegativeTail(durations);
      PrefixSumSplit(durations, k);
      NonNegativePrefix(durations[1..], k - 1);
      NonNegativeSum(durations[1..][..k - 1]);
      AtEventBoundary(durations[1..], levels[1..], start + durations[0], t, k - 1);
    }
  }

  /** With a negative duration the intervals are no longer disjoint: the
      source adds the levels of overlapping events. */
  lemma NegativeDurationOverlaps()
    ensures ThreeEventProtocol(2.0, -1.0, 1.0, 5.0, 7.0, 11.0)(2.5) == 5.0 + 11.0
  {
    ThreeEventIsEventTrain(2.0, -1.0, 1.0, 5.0, 7.0, 11.0, 2.5);
    var ds, ls := [2.0, -1.0, 1.0], [5.0, 7.0, 11.0];
    assert ds[1..] == [-1.0, 1.0] && ls[1..] == [7.0, 11.0];
    assert ds[1..][1..] == [1.0] && ls[1..][1..] == [11.0];
    assert ds[1..][1..][1..] == [] && ls[1..][1..][1..] == [];
  }

  // ---------------------------------------------------------------------
  // Parameter clamps of the toy simulators.

  datatype LogisticParams = LogisticParams(alpha: real, beta: real)

  /** The logistic model forces a non-negative growth rate and a
      non-positive self-limiting term. */
  function LogisticClamp(p: LogisticParams): (r: LogisticParams)
    ensures r.alpha >= 0.0 && r.beta <= 0.0
    ensures p.alpha >= 0.0 ==> r.alpha == p.alpha
    ensures p.beta <= 0.0 ==> r.beta == p.beta
  {
    LogisticParams(if p.alpha < 0.0 then 0.0 else p.alpha,
                   if p.beta > 0.0 then 0.0 else p.beta)
  }

  /** The clamp changes exactly the inadmissible parameters, so clamping
      twice is clamping once. */
  lemma LogisticClampFixedPoints(p: LogisticParams)
    ensures LogisticClamp(p) == p <==> p.alpha >= 0.0 && p.beta <= 0.0
    ensures LogisticClamp(LogisticClamp(p)) == LogisticClamp(p)
  {
  }

  datatype OscillatorParams = OscillatorParams(c: real, k: real, m: real)

  /** The oscillator replaces a negative mass by 0.1 and negative damping or
      spring constants by 0. */
  function OscillatorClamp(p: OscillatorParams): (r: OscillatorParams)
    ensures r.c >= 0.0 && r.k >= 0.0 && r.m >= 0.0
    ensures p.m < 0.0 ==> r.m == 0.1
    ensures p.c >= 0.0 ==> r.c == p.c
    ensures p.k >= 0.0 ==> r.k == p.k
    ensures p.m >= 0.0 ==> r.m == p.m
  {
    OscillatorParams(if p.c < 0.0 then 0.0 else p.c,
                     if p.k < 0.0 then 0.0 else p.k,
                     if p.m < 0.0 then 0.1 else p.m)
  }

  lemma OscillatorClampFixedPoints(p: OscillatorParams)
    ensures OscillatorClamp(p) == p <==> p.c >= 0.0 && p.k >= 0.0 && p.m >= 0.0
    ensures OscillatorClamp(OscillatorClamp(p)) == OscillatorClamp(p)
  {
  }

  /** The clamp guarantees a non-negative mass, not a positive one: a zero
      mass passes through, and the right-hand side then divides by it. */
  lemma OscillatorClampKeepsZeroMass(c: real, k: real)
    ensures OscillatorClamp(OscillatorParams(c, k, 0.0)).m == 0.0
  {
  }
}
