/**
 * The scheduler layer of the diffusion UNet: the vocabulary shared by the
 * schedulers, the choice of scheduler by name, the denoising loop with its
 * progress ticks, and the time grid of the squared-cosine beta schedule.
 * The UNet, the noise prediction and every float formula are parameters
 * or left out.
 */
module Schedulers {
  import opened Wrappers
  import Types
  import opened Message
  import T = Ticks

  datatype BetaSchedule = Linear | ScaledLinear | SquaredcosCapV2

  datatype PredictionType = Epsilon | VPrediction | Sample

  datatype SchedulerKind = Lms | Ddim

  /** `select_scheduler`: the scheduler a name selects; any other name panics (None). */
  function SelectScheduler(name: string): (r: Option<SchedulerKind>)
    ensures r == Some(Lms) <==> name == "dlms"
    ensures r == Some(Ddim) <==> name == "ddims"
  {
    if name == "dlms" then Some(Lms)
    else if name == "ddims" then Some(Ddim)
    else None
  }

  /** A name selects a scheduler exactly when it is one of the two known names. */
  lemma SelectSchedulerTotal(name: string)
    ensures SelectScheduler(name).Some? <==> name == "dlms" || name == "ddims"
  {
  }

  /**
   * The latents after denoising through `timesteps`: the scheduler step is
   * applied once per timestep, in order, each to the latents the previous
   * one produced.
   */
  ghost function Denoise<L>(latents: L, timesteps: seq<real>, step: (real, L) -> L): L
    decreases |timesteps|
  {
    if |timesteps| == 0 then latents
    else step(timesteps[|timesteps| - 1], Denoise(latents, timesteps[..|timesteps| - 1], step))
  }

  /** Denoising through two runs of timesteps is denoising through the first, then the second. */
  lemma {:induction false} DenoiseAppend<L>(latents: L, a: seq<real>, b: seq<real>, step: (real, L) -> L)
    ensures Denoise(latents, a + b, step) == Denoise(Denoise(latents, a, step), b, step)
    decreases |b|
  {
    if |b| > 0 {
      assert (a + b)[..|a + b| - 1] == a + b[..|b| - 1];
      DenoiseAppend(latents, a, b[..|b| - 1], step);
    } else {
      assert a + b == a;
    }
  }

  /**
   * `schedule`: tick 0 goes out before the loop and tick `k + 1` after the
   * step for timestep `k`, all with the caller's `steps`; a tick nobody
   * hears panics.  `init` is the initial latents already scaled by the
   * scheduler's initial noise sigma, and `slots` is what the bus does at
   * each of the `|timesteps| + 1` ticks.
   */
  method Schedule<L>(init: L, timesteps: seq<real>, steps: nat, step: (real, L) -> L,
                     sender: bool, slots: seq<T.Slot>, bus: seq<Message>)
    returns (latents: L, bus': seq<Message>, panicked: bool)
    requires |slots| == |timesteps| + 1
    ensures panicked <==> sender && !T.AllHeard(slots)
    ensures !panicked ==> latents == Denoise(init, timesteps, step)
    ensures !panicked ==> bus' == bus + (if sender then T.TickRun(Types.SchedulerStep, 0, steps, slots) else [])
    ensures panicked ==> bus' == bus + T.TickRun(Types.SchedulerStep, 0, steps, slots[..T.FirstUnheard(slots)])
  {
    latents := init;
    bus' := bus;
    if sender {
      assert slots[..0] == [];
      bus', panicked := T.EmitNext(bus, bus', Types.SchedulerStep, 0, steps, slots, 0);
      if panicked {
        return;
      }
    }
    var index := 0;
    while index < |timesteps|
      invariant index <= |timesteps|
      invariant latents == Denoise(init, timesteps[..index], step)
      invariant sender ==> T.AllHeard(slots[..index + 1])
      invariant sender ==> bus' == bus + T.TickRun(Types.SchedulerStep, 0, steps, slots[..index + 1])
      invariant !sender ==> bus' == bus
    {
      assert timesteps[..index + 1][..index] == timesteps[..index];
      latents := step(timesteps[index], latents);
      if sender {
        bus', panicked := T.EmitNext(bus, bus', Types.SchedulerStep, 0, steps, slots, index + 1);
        if panicked {
          return;
        }
      }
      index := index + 1;
    }
    assert timesteps[..index] == timesteps;
    assert slots[..index + 1] == slots;
    panicked := false;
  }

  /**
   * The pair of times at which `betas_for_alpha_bar` evaluates the
   * cumulative alpha curve for each of its `n` betas, as written: the
   * fractions `i / n` and `(i + 1) / n` are taken in integer division.
   */
  method AlphaBarTimes(n: nat) returns (times: seq<(nat, nat)>)
    ensures |times| == n
    ensures forall i :: 0 <= i < n ==> times[i] == (i / n, (i + 1) / n)
  {
    times := [];
    for i := 0 to n
      invariant |times| == i
      invariant forall j :: 0 <= j < i ==> times[j] == (j / n, (j + 1) / n)
    {
      times := times + [(i / n, (i + 1) / n)];
    }
  }

  /**
   * As written, every beta but the last compares the curve at time 0 with
   * itself: the first time is always 0 and the second is 1 only for the
   * last beta.
   */
  lemma AlphaBarTimesCollapse(n: nat, i: nat)
    requires i < n
    ensures i / n == 0
    ensures (i + 1) / n == (if i == n - 1 then 1 else 0)
  {
  }

  /**
   * The times the squared-cosine schedule is meant to use: the fractions
   * `i / n` and `(i + 1) / n` as real numbers.
   */
  function IntendedAlphaBarTimes(n: nat): (times: seq<(real, real)>)
  {
    seq(n, i requires 0 <= i < n => (i as real / n as real, (i + 1) as real / n as real))
  }

  /**
   * The intended times split [0, 1] into `n` consecutive intervals of
   * equal width: each interval is non-empty, each begins where the
   * previous ended, the first begins at 0 and the last ends at 1.
   */
  lemma IntendedAlphaBarTimesTile(n: nat)
    requires n > 0
    ensures |IntendedAlphaBarTimes(n)| == n
    ensures IntendedAlphaBarTimes(n)[0].0 == 0.0 && IntendedAlphaBarTimes(n)[n - 1].1 == 1.0
    ensures forall i :: 0 <= i < n ==>
      IntendedAlphaBarTimes(n)[i].1 - IntendedAlphaBarTimes(n)[i].0 == 1.0 / n as real
    ensures forall i :: 0 <= i < n - 1 ==> IntendedAlphaBarTimes(n)[i].1 == IntendedAlphaBarTimes(n)[i + 1].0
  {
    var times := IntendedAlphaBarTimes(n);
    forall i | 0 <= i < n
      ensures times[i].1 - times[i].0 == 1.0 / n as real
    {
      assert times[i].1 - times[i].0 == ((i + 1) as real - i as real) / n as real;
    }
  }

  /** For two or more betas, the time pair written in integer division collapses where the intended one does not. */
  lemma AlphaBarTimesDiffer()
    ensures IntendedAlphaBarTimes(2)[0] == (0.0, 0.5)
    ensures 0 / 2 == 0 && (0 + 1) / 2 == 0
  {
  }
}
