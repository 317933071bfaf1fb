/**
 * The DDIM scheduler's integer bookkeeping: its default configuration, the
 * grid of timesteps it denoises through, and the two indices into the
 * cumulative alpha table that each step reads.  The update formula itself
 * is float arithmetic and is left out.
 */
module Ddim {
  import opened Wrappers
  import S = Schedulers
  import Arith

  datatype Config = Config(betaStart: real, betaEnd: real, betaSchedule: S.BetaSchedule, eta: real,
                           stepsOffset: nat, predictionType: S.PredictionType, trainTimesteps: nat)

  function DefaultConfig(): (c: Config)
    ensures c.betaStart == 0.00085 && c.betaEnd == 0.012 && c.betaSchedule == S.ScaledLinear
    ensures c.eta == 0.0 && c.stepsOffset == 1 && c.predictionType == S.VPrediction
    ensures c.trainTimesteps == 1000
  {
    Config(0.00085, 0.012, S.ScaledLinear, 0.0, 1, S.VPrediction, 1000)
  }

  /** A step adds fresh noise only for a positive eta. */
  predicate AddsNoise(c: Config)
  {
    c.eta > 0.0
  }

  /** The default configuration is deterministic: its steps add no noise. */
  lemma DefaultAddsNoNoise()
    ensures !AddsNoise(DefaultConfig())
  {
  }

  /** The sequence read back to front. */
  function Reverse<T>(s: seq<T>): (r: seq<T>)
    ensures |r| == |s|
    ensures forall i :: 0 <= i < |s| ==> r[i] == s[|s| - 1 - i]
  {
    if |s| == 0 then [] else Reverse(s[1..]) + [s[0]]
  }

  /** The timesteps in the order they are built: `s * ratio + offset` for `s` in `0..n`. */
  function Ascending(n: nat, ratio: nat, offset: nat): seq<nat>
  {
    seq(n, s requires 0 <= s < n => s * ratio + offset)
  }

  /** The scheduler's state; `step` writes none of it. */
  datatype DdimScheduler = DdimScheduler(timesteps: seq<nat>, alphasCumprodLen: nat, stepRatio: nat,
                                         initNoiseSigma: real, config: Config)

  /**
   * `DDIMScheduler::new`: the ratio is the training length over the
   * inference steps in integer division, which panics (None) for zero
   * steps; the timesteps are the ascending grid reversed; the alpha table
   * has one entry per training timestep.
   */
  function New(inferenceSteps: nat): (r: Option<DdimScheduler>)
    ensures r.Some? <==> inferenceSteps > 0
    ensures r.Some? ==> r.value.config == DefaultConfig() && r.value.initNoiseSigma == 1.0
    ensures r.Some? ==> r.value.alphasCumprodLen == 1000 && r.value.stepRatio == 1000 / inferenceSteps
  {
    var config := DefaultConfig();
    if inferenceSteps == 0 then None
    else
      var ratio := config.trainTimesteps / inferenceSteps;
      Some(DdimScheduler(Reverse(Ascending(inferenceSteps, ratio, config.stepsOffset)),
                         config.trainTimesteps, ratio, 1.0, config))
  }

  /**
   * The grid of `new`: `n` timesteps, element `j` being `(n - 1 - j) * ratio
   * + offset`, so it counts down, strictly once the ratio is positive, and
   * ends at the offset.
   */
  lemma GridShape(n: nat)
    requires n > 0
    ensures var d := New(n).value; var ratio := d.stepRatio;
      |d.timesteps| == n &&
      (forall j :: 0 <= j < n ==> d.timesteps[j] == (n - 1 - j) * ratio + 1) &&
      (ratio >= 1 ==> forall i, j :: 0 <= i < j < n ==> d.timesteps[i] > d.timesteps[j]) &&
      d.timesteps[n - 1] == 1
  {
    var d := New(n).value;
    assert d.timesteps == Reverse(Ascending(n, d.stepRatio, 1));
    ReversedGrid(n, d.stepRatio, 1);
  }

  /** The ascending grid read back to front counts down by the ratio to the offset. */
  lemma ReversedGrid(n: nat, ratio: nat, offset: nat)
    requires n > 0
    ensures var g := Reverse(Ascending(n, ratio, offset));
      |g| == n &&
      (forall j :: 0 <= j < n ==> g[j] == (n - 1 - j) * ratio + offset) &&
      (ratio >= 1 ==> forall i, j :: 0 <= i < j < n ==> g[i] > g[j]) &&
      g[n - 1] == offset
  {
    var a := Ascending(n, ratio, offset);
    var g := Reverse(a);
    forall j | 0 <= j < n
      ensures g[j] == (n - 1 - j) * ratio + offset
    {
      assert g[j] == a[n - 1 - j];
    }
    if ratio >= 1 {
      forall i, j | 0 <= i < j < n
        ensures g[i] > g[j]
      {
        Arith.MulStrict(n - 1 - j, n - 1 - i, ratio);
      }
    }
  }

  /**
   * The indices a step at `timestep` reads from the alpha table: a timestep
   * at or past the end of the table is moved back by one (at 0 that
   * subtraction underflows and panics), the previous timestep is one ratio
   * earlier or 0, and a timestep still past the end panics on the read.
   */
  function StepIndices(d: DdimScheduler, timestep: nat): (r: Option<(nat, nat)>)
    ensures r.Some? <==> timestep < d.alphasCumprodLen || (timestep == d.alphasCumprodLen && timestep > 0)
    ensures r.Some? ==> r.value.1 <= r.value.0 < d.alphasCumprodLen
    ensures r.Some? && timestep < d.alphasCumprodLen ==> r.value.0 == timestep
    ensures r.Some? ==> r.value.0 - r.value.1 <= d.stepRatio
  {
    if timestep >= d.alphasCumprodLen && timestep == 0 then None
    else
      var t := if timestep >= d.alphasCumprodLen then timestep - 1 else timestep;
      var prev := if t > d.stepRatio then t - d.stepRatio else 0;
      if t >= d.alphasCumprodLen then None else Some((t, prev))
  }

  /**
   * Every timestep that `new` produces can be stepped: both indices it
   * reads lie in the alpha table.  Only 1000 inference steps reach the
   * table's end, where the move back by one applies.
   */
  lemma GridStepsInBounds(n: nat, j: nat)
    requires n > 0 && j < n
    ensures StepIndices(New(n).value, New(n).value.timesteps[j]).Some?
  {
    var d := New(n).value;
    var ratio := d.stepRatio;
    GridShape(n);
    assert 1000 == n * ratio + 1000 % n;
    assert (n - 1 - j) * ratio <= (n - 1) * ratio by {
      Arith.MulMonotone(ratio, n - 1 - j, n - 1);
    }
    assert (n - 1) * ratio + ratio == n * ratio;
  }
}
