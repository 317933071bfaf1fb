/**
 * The three ways of running the diffusion pipe: one image, a sequence of
 * interpolated images on one device, and a batch split across the GPUs.
 * Modelled here: the configuration each builds, the argument checks that
 * panic, the frame files a sequence writes and how a parallel batch splits
 * its frames between GPUs.
 */
module Pipelines {
  import opened Wrappers
  import Arith
  import DiffusionUtils
  import opened Pipe

  datatype Oneshot = Oneshot(prompt: string, height: int, width: int, seed: int)

  datatype Sequence = Sequence(prompt: string, height: int, width: int, seed: int, inference: int)

  datatype Parallel = Parallel(prompt: string, height: int, width: int, seed: int, inference: int)

  /** The prompt, size and seed of a single image; everything else default. */
  function FromOneshot(o: Oneshot, host: Device): (c: PipeConfig)
    ensures c.prompt == Some(o.prompt) && c.inference.None?
    ensures c.height == o.height && c.width == o.width && c.seed == o.seed
    ensures c.(prompt := None, height := 768, width := 768, seed := 42) == Default(host)
  {
    Default(host).(prompt := Some(o.prompt), height := o.height, width := o.width, seed := o.seed)
  }

  /** The prompt, size, seed and image count of a sequence; everything else default. */
  function FromSequence(s: Sequence, host: Device): (c: PipeConfig)
    ensures c.prompt == Some(s.prompt) && c.inference == Some(s.inference)
    ensures c.height == s.height && c.width == s.width && c.seed == s.seed
    ensures c.(prompt := None, height := 768, width := 768, seed := 42, inference := None) == Default(host)
  {
    Default(host).(prompt := Some(s.prompt), height := s.height, width := s.width, inference := Some(s.inference), seed := s.seed)
  }

  /** The prompt, size, seed and image count of a parallel batch; everything else default. */
  function FromParallel(p: Parallel, host: Device): (c: PipeConfig)
    ensures c.prompt == Some(p.prompt) && c.inference == Some(p.inference)
    ensures c.height == p.height && c.width == p.width && c.seed == p.seed
    ensures c.(prompt := None, height := 768, width := 768, seed := 42, inference := None) == Default(host)
  {
    Default(host).(prompt := Some(p.prompt), height := p.height, width := p.width, inference := Some(p.inference), seed := p.seed)
  }

  /** The assertions a sequence run starts with: both sides are multiples of 64. */
  predicate SequenceAccepts(s: Sequence)
  {
    s.height % 64 == 0 && s.width % 64 == 0
  }

  /** The number of images a sequence asks for; none for a negative count. */
  function Count(n: int): nat
  {
    if n < 0 then 0 else n
  }

  /**
   * A sequence run with every save succeeding: one diffusion per
   * interpolation point, on a pipe whose counter starts at zero. It returns
   * the files written, or nothing where the run panics (a failed assertion,
   * or the frame counter overflowing).
   */
  method SequenceRun(s: Sequence, host: Device) returns (r: Option<seq<string>>)
    ensures r.Some? <==> SequenceAccepts(s) && Count(s.inference) <= U32_MAX
    ensures r.Some? ==>
      |r.value| == Count(s.inference) && forall k :: 0 <= k < |r.value| ==> r.value[k] == FrameName(k)
  {
    if !SequenceAccepts(s) {
      return None;
    }
    var fromArgs := FromSequence(s, host);
    assert fromArgs.nFrame == Default(host).nFrame == 0;
    var config := WithDevice(fromArgs, host);
    assert config.nFrame == fromArgs.nFrame;
    var pipe := new Pipe(config);
    var points := DiffusionUtils.LinspaceIndices(s.inference);
    assert |points| == Count(s.inference);
    var written: seq<string> := [];
    for i := 0 to |points|
      invariant pipe.config.nFrame == i
      invariant |written| == i && forall k :: 0 <= k < i ==> written[k] == FrameName(k)
    {
      var out := pipe.Diffuse(true);
      if out.CounterOverflow? {
        assert i == U32_MAX < Count(s.inference);
        return None;
      }
      written := written + out.paths;
    }
    return Some(written);
  }

  /** The frame counter each GPU starts from: the interval, cast to 32 bits, times the GPU's index. */
  function StartFrame(interval: int, g: nat): int
  {
    (interval % (U32_MAX + 1)) * g
  }

  /**
   * How a parallel batch splits its frames: the interval each GPU renders
   * and the frame each starts from. Nothing where the run panics: the image
   * count not a multiple of 8, no GPU (a division by zero), a negative
   * interval, or a start frame past the 32-bit range.
   */
  function ParallelPlan(p: Parallel, gpus: nat): (r: Option<(nat, seq<nat>)>)
    ensures r.Some? ==>
      p.inference % 8 == 0 && gpus > 0 && |r.value.1| == gpus && r.value.0 == Arith.TruncDiv(p.inference, gpus)
      && forall g :: 0 <= g < gpus ==> r.value.1[g] == StartFrame(r.value.0, g) <= U32_MAX
  {
    if p.inference % 8 != 0 || gpus == 0 then None
    else
      var interval := Arith.TruncDiv(p.inference, gpus);
      if interval < 0 || StartFrame(interval, gpus - 1) > U32_MAX then None
      else
        StartFramesBounded(interval, gpus);
        Some((interval, seq(gpus, g requires 0 <= g < gpus => StartFrame(interval, g))))
  }

  /** The start frames grow with the GPU's index, from 0 up to the last GPU's. */
  lemma StartFramesBounded(interval: int, gpus: nat)
    requires gpus > 0
    ensures forall g :: 0 <= g < gpus ==> 0 <= StartFrame(interval, g) <= StartFrame(interval, gpus - 1)
  {
    forall g | 0 <= g < gpus
      ensures 0 <= StartFrame(interval, g) <= StartFrame(interval, gpus - 1)
    {
      Arith.MulMonotone(interval % (U32_MAX + 1), 0, g);
      Arith.MulMonotone(interval % (U32_MAX + 1), g, gpus - 1);
    }
  }

  /** The plan exists exactly when none of the run's checks panics. */
  lemma ParallelPlanDefined(p: Parallel, gpus: nat)
    ensures ParallelPlan(p, gpus).Some? <==>
      p.inference % 8 == 0 && gpus > 0 && Arith.TruncDiv(p.inference, gpus) >= 0
      && forall g :: 0 <= g < gpus ==> StartFrame(Arith.TruncDiv(p.inference, gpus), g) <= U32_MAX
  {
    if p.inference % 8 == 0 && gpus > 0 {
      StartFramesBounded(Arith.TruncDiv(p.inference, gpus), gpus);
    }
  }

  /** Below the 32-bit range, GPU `g`'s frames lie in its own interval, below `interval * gpus`. */
  lemma ParallelInRange(p: Parallel, gpus: nat, g: nat, k: nat)
    requires ParallelPlan(p, gpus).Some?
    requires ParallelPlan(p, gpus).value.0 <= U32_MAX
    requires g < gpus && k < ParallelPlan(p, gpus).value.0
    ensures var plan := ParallelPlan(p, gpus).value;
      plan.1[g] == plan.0 * g && plan.1[g] + k < plan.0 * (g + 1) <= plan.0 * gpus
  {
    var plan := ParallelPlan(p, gpus).value;
    var interval: nat := plan.0;
    assert interval % (U32_MAX + 1) == interval;
    assert interval * (g + 1) == interval * g + interval;
    Arith.MulMonotone(interval, g + 1, gpus);
  }

  /** Below the 32-bit range, no two GPUs render the same frame, and no GPU renders a frame twice. */
  lemma ParallelDisjoint(p: Parallel, gpus: nat, g1: nat, k1: nat, g2: nat, k2: nat)
    requires ParallelPlan(p, gpus).Some?
    requires ParallelPlan(p, gpus).value.0 <= U32_MAX
    requires g1 < gpus && k1 < ParallelPlan(p, gpus).value.0
    requires g2 < gpus && k2 < ParallelPlan(p, gpus).value.0
    requires ParallelPlan(p, gpus).value.1[g1] + k1 == ParallelPlan(p, gpus).value.1[g2] + k2
    ensures g1 == g2 && k1 == k2
  {
    var interval := ParallelPlan(p, gpus).value.0;
    ParallelInRange(p, gpus, g1, k1);
    ParallelInRange(p, gpus, g2, k2);
    if g1 < g2 {
      Arith.MulMonotone(interval, g1 + 1, g2);
      assert false;
    } else if g2 < g1 {
      Arith.MulMonotone(interval, g2 + 1, g1);
      assert false;
    }
  }

  /** Below the 32-bit range, every frame below `interval * gpus` is rendered by some GPU. */
  lemma ParallelCovers(p: Parallel, gpus: nat, f: nat)
    requires ParallelPlan(p, gpus).Some?
    requires ParallelPlan(p, gpus).value.0 <= U32_MAX
    requires f < ParallelPlan(p, gpus).value.0 * gpus
    ensures var plan := ParallelPlan(p, gpus).value;
      f / plan.0 < gpus && plan.1[f / plan.0] + f % plan.0 == f
  {
    var plan := ParallelPlan(p, gpus).value;
    var interval: nat := plan.0;
    DivCovers(interval, gpus, f);
    var g := f / interval;
    assert plan.1[g] == StartFrame(interval, g);
    assert interval % (U32_MAX + 1) == interval;
    assert StartFrame(interval, g) == interval * g;
  }

  /** A number below `interval * n` falls in one of the `n` intervals, at its remainder. */
  lemma DivCovers(interval: nat, n: nat, f: nat)
    requires f < interval * n
    ensures interval > 0 && f / interval < n && interval * (f / interval) + f % interval == f
  {
    assert interval > 0;
    var g := f / interval;
    if g >= n {
      Arith.MulMonotone(interval, n, g);
      assert false;
    }
  }

  /** The label shown for the `k`-th image of GPU `g`: one past its frame number. */
  function Label(interval: nat, g: nat, k: nat): nat
  {
    interval * g + k + 1
  }

  /** Below the 32-bit range, each image's label is its frame number plus one. */
  lemma LabelIsFrame(p: Parallel, gpus: nat, g: nat, k: nat)
    requires ParallelPlan(p, gpus).Some?
    requires ParallelPlan(p, gpus).value.0 <= U32_MAX && g < gpus
    ensures var plan := ParallelPlan(p, gpus).value;
      Label(plan.0, g, k) == plan.1[g] + k + 1
  {
    var plan := ParallelPlan(p, gpus).value;
    assert plan.0 % (U32_MAX + 1) == plan.0;
  }
}
