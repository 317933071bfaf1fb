/**
 * The diffusion pipe's configuration and its frame counter: each diffusion
 * writes one image named after the counter and then advances it. The
 * denoising itself and the image conversion are not modelled.
 */
module Pipe {
  import opened Wrappers
  import Text

  const U32_MAX: nat := 0xFFFF_FFFF

  type U32 = x: int | 0 <= x <= U32_MAX

  datatype Device = Cpu | Cuda(ordinal: nat)

  datatype PipeConfig = PipeConfig(
    prompt: Option<string>,
    device: Device,
    scheduler: string,
    steps: nat,
    nFrame: U32,
    height: int,
    width: int,
    seed: int,
    inference: Option<int>)

  /** The defaults; the device is whatever the host offers. */
  function Default(device: Device): (c: PipeConfig)
    ensures c.prompt.None? && c.inference.None? && c.device == device
    ensures c.scheduler == "dlms" && c.steps == 30 && c.nFrame == 0
    ensures c.height == 768 && c.width == 768 && c.seed == 42
  {
    PipeConfig(None, device, "dlms", 30, 0, 768, 768, 42, None)
  }

  /** A copy on another device; putting the old device back gives the original. */
  function WithDevice(c: PipeConfig, device: Device): (r: PipeConfig)
    ensures r.device == device && r.(device := c.device) == c
  {
    c.(device := device)
  }

  /** A copy with another frame counter; putting the old counter back gives the original. */
  function WithFrame(c: PipeConfig, nFrame: U32): (r: PipeConfig)
    ensures r.nFrame == nFrame && r.(nFrame := c.nFrame) == c
  {
    c.(nFrame := nFrame)
  }

  /** The counter one higher, or nothing where the 32-bit counter would overflow and panic. */
  function IncNFrame(c: PipeConfig): (r: Option<PipeConfig>)
    ensures r.Some? <==> c.nFrame < U32_MAX
    ensures r.Some? ==> r.value.nFrame == c.nFrame + 1 && r.value.(nFrame := c.nFrame) == c
  {
    if c.nFrame < U32_MAX then Some(c.(nFrame := c.nFrame + 1)) else None
  }

  /** The image file of frame `n`: its number padded to four digits. */
  function FrameName(n: nat): string
  {
    "images/frame" + Text.ZeroPad(Text.Decimal(n), 4) + ".png"
  }

  /** Distinct frames get distinct files. */
  lemma FrameNameInjective(a: nat, b: nat)
    requires FrameName(a) == FrameName(b)
    ensures a == b
  {
    var pa := Text.ZeroPad(Text.Decimal(a), 4);
    var pb := Text.ZeroPad(Text.Decimal(b), 4);
    var x := FrameName(a);
    assert x == "images/frame" + pa + ".png";
    assert |pa| == |pb|;
    assert pa == x[12..12 + |pa|];
    assert pb == FrameName(b)[12..12 + |pb|];
    Text.PaddedDecimalInjective(a, b, 4);
  }

  datatype Diffused = Saved(paths: seq<string>) | SaveFailed | CounterOverflow

  class Pipe {
    var config: PipeConfig

    constructor (config: PipeConfig)
      ensures this.config == config
    {
      this.config := config;
    }

    /**
     * One diffusion: save the image under the current frame's name and
     * return that name, then advance the counter. A failed save returns an
     * error before anything changes; a counter at its maximum panics after
     * the save.
     */
    method Diffuse(saved: bool) returns (r: Diffused)
      modifies this
      ensures !saved ==> r == SaveFailed && config == old(config)
      ensures saved && old(config.nFrame) < U32_MAX ==>
        r == Saved([FrameName(old(config.nFrame))]) && Some(config) == IncNFrame(old(config))
      ensures saved && old(config.nFrame) == U32_MAX ==> r == CounterOverflow
    {
      if !saved {
        return SaveFailed;
      }
      var images := [FrameName(config.nFrame)];
      var next := IncNFrame(config);
      if next.None? {
        return CounterOverflow;
      }
      config := next.value;
      return Saved(images);
    }
  }
}
