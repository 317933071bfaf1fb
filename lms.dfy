/**
 * The linear multistep (LMS) scheduler's bookkeeping: the buffer of recent
 * derivatives each step pushes into and trims, the lookup of the step's
 * position in the timestep grid, the number of coefficients a step
 * combines, and the sigma indices the coefficient product reads.  Sigmas,
 * derivatives and the integration are opaque values; `D` stands for a
 * derivative tensor.
 */
module Lms {
  import opened Wrappers
  import S = Schedulers

  datatype Config = Config(betaStart: real, betaEnd: real, betaSchedule: S.BetaSchedule,
                           trainTimesteps: nat, order: nat, predictionType: S.PredictionType)

  function DefaultConfig(): (c: Config)
    ensures c.betaStart == 0.00085 && c.betaEnd == 0.012 && c.betaSchedule == S.ScaledLinear
    ensures c.trainTimesteps == 1000 && c.order == 4 && c.predictionType == S.VPrediction
  {
    Config(0.00085, 0.012, S.ScaledLinear, 1000, 4, S.VPrediction)
  }

  /** The beta schedules `new` implements; the squared-cosine one panics. */
  predicate BetasImplemented(b: S.BetaSchedule)
  {
    b == S.Linear || b == S.ScaledLinear
  }

  /** The prediction types `step` implements; predicting the sample itself panics. */
  predicate PredictionImplemented(p: S.PredictionType)
  {
    p == S.Epsilon || p == S.VPrediction
  }

  /** The default configuration builds and steps without panicking. */
  lemma DefaultImplemented()
    ensures BetasImplemented(DefaultConfig().betaSchedule)
    ensures PredictionImplemented(DefaultConfig().predictionType)
  {
  }

  /** `position`: the first index holding `t`, if any. */
  function FirstIndex(ts: seq<real>, t: real): (r: Option<nat>)
    ensures r.None? <==> t !in ts
    ensures r.Some? ==> r.value < |ts| && ts[r.value] == t
    ensures r.Some? ==> forall j :: 0 <= j < r.value ==> ts[j] != t
  {
    if |ts| == 0 then None
    else if ts[0] == t then Some(0)
    else match FirstIndex(ts[1..], t)
      case None => None
      case Some(i) => Some(i + 1)
  }

  /** The last `n` entries of a history, or all of it when it is shorter. */
  function Recent<T>(history: seq<T>, n: nat): (r: seq<T>)
    ensures |r| == if |history| < n then |history| else n
  {
    if |history| <= n then history else history[|history| - n..]
  }

  /** The buffer update of `step`: push the new derivative, then drop the oldest once over `order`. */
  function Pushed<T>(buffer: seq<T>, d: T, order: nat): seq<T>
  {
    if |buffer + [d]| > order then (buffer + [d])[1..] else buffer + [d]
  }

  /**
   * Pushing and trimming keeps the buffer equal to the `order` most recent
   * derivatives of the whole history, oldest first.
   */
  lemma PushedKeepsRecent<T>(history: seq<T>, d: T, order: nat)
    ensures Pushed(Recent(history, order), d, order) == Recent(history + [d], order)
  {
    var h := history + [d];
    if |history| > order {
      assert Recent(history, order) + [d] == h[|history| - order..];
      assert (h[|history| - order..])[1..] == h[|h| - order..];
    } else if |history| == order {
      if order > 0 {
        assert (history + [d])[1..] == h[|h| - order..];
      }
    }
  }

  /**
   * The number of coefficients a step combines: the configured order, but
   * no more than the steps taken so far.
   */
  function EffectiveOrder(order: nat, stepIndex: nat): (r: nat)
    ensures r <= order && r <= stepIndex + 1
    ensures r == order || r == stepIndex + 1
  {
    if order < stepIndex + 1 then order else stepIndex + 1
  }

  /** Coefficient `o` paired with the `o`-th most recent derivative, as far as both lists go. */
  function Terms<T>(order: nat, buffer: seq<T>): (r: seq<(nat, T)>)
    ensures |r| == if order < |buffer| then order else |buffer|
    ensures forall o :: 0 <= o < |r| ==> r[o] == (o, buffer[|buffer| - 1 - o])
  {
    var n := if order < |buffer| then order else |buffer|;
    seq(n, o requires 0 <= o < n => (o, buffer[|buffer| - 1 - o]))
  }

  /** What a step computes besides the float arithmetic. */
  datatype StepPlan<T> = StepPlan(stepIndex: nat, order: nat, terms: seq<(nat, T)>)

  class LmsScheduler<D> {
    var timesteps: seq<real>
    var sigmas: seq<real>
    var derivatives: seq<D>
    var config: Config
    /** Every derivative any step has pushed, oldest first. */
    ghost var history: seq<D>

    /** The sigma table has a trailing 0 beyond the grid, and the buffer holds the recent derivatives. */
    ghost predicate Valid()
      reads this
    {
      |sigmas| == |timesteps| + 1 && derivatives == Recent(history, config.order)
    }

    /**
     * `new` with the default configuration: `grid` stands for the
     * timesteps counting down from 999 to 0 and `interpolated` for the
     * sigma at each of them; a 0 is appended to the sigmas.
     */
    constructor (grid: seq<real>, interpolated: seq<real>)
      requires |interpolated| == |grid|
      ensures Valid()
      ensures timesteps == grid && sigmas == interpolated + [0.0]
      ensures derivatives == [] && history == [] && config == DefaultConfig()
    {
      timesteps := grid;
      sigmas := interpolated + [0.0];
      derivatives := [];
      history := [];
      config := DefaultConfig();
    }

    /**
     * `step` given the derivative it computes: the position of the
     * timestep (panicking, None, when the grid lacks it or the prediction
     * type is not implemented, before anything changes), the buffer update,
     * the effective order and the pairing of coefficients with the
     * derivatives, most recent first.
     */
    method Step(timestep: real, derivative: D) returns (r: Option<StepPlan<D>>)
      requires Valid()
      modifies this
      ensures Valid()
      ensures timesteps == old(timesteps) && sigmas == old(sigmas) && config == old(config)
      ensures r.Some? <==> timestep in timesteps && PredictionImplemented(config.predictionType)
      ensures r.None? ==> derivatives == old(derivatives) && history == old(history)
      ensures r.Some? ==>
        history == old(history) + [derivative] &&
        r.value.stepIndex == FirstIndex(timesteps, timestep).value &&
        r.value.order == EffectiveOrder(config.order, r.value.stepIndex) &&
        r.value.terms == Terms(r.value.order, derivatives)
    {
      var found := FirstIndex(timesteps, timestep);
      if found.None? || !PredictionImplemented(config.predictionType) {
        return None;
      }
      var stepIndex := found.value;
      PushedKeepsRecent(history, derivative, config.order);
      derivatives := derivatives + [derivative];
      if |derivatives| > config.order {
        derivatives := derivatives[1..];
      }
      history := history + [derivative];
      var order := EffectiveOrder(config.order, stepIndex);
      r := Some(StepPlan(stepIndex, order, Terms(order, derivatives)));
    }
  }

  /** The buffer never holds more than `order` derivatives. */
  lemma RecentBounded<T>(history: seq<T>, order: nat)
    ensures |Recent(history, order)| <= order
    ensures |history| <= order ==> Recent(history, order) == history
  {
  }

  /**
   * When the grid is walked from its start, one step per timestep, the
   * buffer holds exactly as many derivatives as the step combines: every
   * coefficient finds its derivative.
   */
  lemma TermsCoverOrder<T>(history: seq<T>, order: nat, stepIndex: nat)
    requires |history| == stepIndex + 1
    ensures |Terms(EffectiveOrder(order, stepIndex), Recent(history, order))| == EffectiveOrder(order, stepIndex)
  {
  }

  /**
   * The factors of `get_lms_coefficient`'s product: one per `k` in
   * `0..order` except `current`, each reading the sigmas at `t - k` and
   * `t - current`; the integration then reads `t` and `t + 1`.
   */
  method ProductFactors(order: nat, t: nat, current: nat) returns (factors: seq<(int, int)>)
    ensures |factors| == if current < order then order - 1 else order
    ensures forall i :: 0 <= i < |factors| ==>
      var k := if i < current then i else i + 1;
      factors[i] == (t - k, t - current)
  {
    factors := [];
    for k := 0 to order
      invariant |factors| == if current < k then k - 1 else k
      invariant forall i :: 0 <= i < |factors| ==>
        var kk := if i < current then i else i + 1;
        factors[i] == (t - kk, t - current)
    {
      if current == k {
        continue;
      }
      factors := factors + [(t - k, t - current)];
    }
  }

  /**
   * Every sigma index a coefficient reads is in bounds, because the
   * effective order is at most `t + 1`, the coefficient index is below it,
   * and the sigma table is one longer than the grid the step index points
   * into.
   */
  lemma CoefficientReadsInBounds(nTimesteps: nat, nSigmas: nat, order: nat, t: nat, current: nat,
                                 factors: seq<(int, int)>)
    requires nSigmas == nTimesteps + 1 && t < nTimesteps
    requires current < EffectiveOrder(order, t)
    requires |factors| == EffectiveOrder(order, t) - 1
    requires forall i :: 0 <= i < |factors| ==>
      var k := if i < current then i else i + 1;
      factors[i] == (t - k, t - current)
    ensures forall i :: 0 <= i < |factors| ==> 0 <= factors[i].0 < nSigmas && 0 <= factors[i].1 < nSigmas
    ensures 0 <= t < nSigmas && t + 1 < nSigmas
  {
  }
}
