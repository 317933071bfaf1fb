/**
 * The image-to-image sketch program: its argument check on the strength,
 * the crop of the input image to whole 32-pixel blocks, the timesteps each
 * sample is denoised through, and the names of the files it writes.  The
 * networks, the image I/O and the float maths are left out.
 */
module Sketch {
  import opened Wrappers
  import Text

  /** The strength must lie in [0, 1]; anything else ends the run with an error. */
  predicate StrengthAccepted(strength: real)
  {
    0.0 <= strength <= 1.0
  }

  /** The input image's side cut down to a whole number of 32-pixel blocks. */
  function Crop(side: nat): nat
  {
    side - side % 32
  }

  /** The crop is the largest multiple of 32 that fits in the side. */
  lemma CropIsLargestMultiple(side: nat)
    ensures Crop(side) % 32 == 0 && Crop(side) <= side < Crop(side) + 32
    ensures forall m: nat :: m % 32 == 0 && m <= side ==> m <= Crop(side)
  {
    forall m: nat | m % 32 == 0 && m <= side
      ensures m <= Crop(side)
    {
      assert side == (side / 32) * 32 + side % 32;
      assert m == (m / 32) * 32;
    }
  }

  /**
   * The index of the first timestep that is denoised: the steps minus the
   * part of them the strength asks for, the product truncated to an
   * unsigned integer.
   */
  function TStart(nSteps: nat, strength: real): (t: nat)
    requires StrengthAccepted(strength)
    ensures t <= nSteps
    ensures strength == 0.0 ==> t == nSteps
    ensures strength == 1.0 ==> t == 0
  {
    var part := nSteps as real * strength;
    ScaledWithin(nSteps as real, strength);
    FloorWithin(part, nSteps);
    nSteps - part.Floor
  }

  /** A fraction in [0, 1] of a non-negative amount lies between 0 and that amount. */
  lemma ScaledWithin(amount: real, fraction: real)
    requires amount >= 0.0 && 0.0 <= fraction <= 1.0
    ensures 0.0 <= amount * fraction <= amount
    ensures fraction == 0.0 ==> amount * fraction == 0.0
    ensures fraction == 1.0 ==> amount * fraction == amount
  {
    assert amount - amount * fraction == amount * (1.0 - fraction);
  }

  /** The integer part of a real in [0, n] lies in [0, n]. */
  lemma FloorWithin(x: real, n: nat)
    requires 0.0 <= x <= n as real
    ensures 0 <= x.Floor <= n
    ensures x == 0.0 ==> x.Floor == 0
    ensures x == n as real ==> x.Floor == n
  {
  }

  /**
   * The timesteps one sample is denoised through: the loop visits every
   * timestep and skips those before `tStart`.
   */
  method Denoised(timesteps: seq<real>, tStart: nat) returns (stepped: seq<real>)
    ensures tStart <= |timesteps| ==> stepped == timesteps[tStart..]
    ensures tStart > |timesteps| ==> stepped == []
  {
    stepped := [];
    for i := 0 to |timesteps|
      invariant i <= tStart ==> stepped == []
      invariant i > tStart ==> stepped == timesteps[tStart..i]
    {
      if i < tStart {
        continue;
      }
      stepped := stepped + [timesteps[i]];
    }
  }

  /** `rsplit_once('.')`: the text before and after the last dot, if there is one. */
  function RSplitDot(s: string): (r: Option<(string, string)>)
    ensures r.None? <==> '.' !in s
    ensures r.Some? ==> s == r.value.0 + "." + r.value.1 && '.' !in r.value.1
  {
    if |s| == 0 then None
    else if s[|s| - 1] == '.' then Some((s[..|s| - 1], ""))
    else match RSplitDot(s[..|s| - 1])
      case None =>
        assert forall i :: 0 <= i < |s| - 1 ==> s[i] == s[..|s| - 1][i];
        None
      case Some((stem, ext)) =>
        assert s == s[..|s| - 1] + [s[|s| - 1]];
        Some((stem, ext + [s[|s| - 1]]))
  }

  /**
   * The file sample `idx` is saved to: the given name for a single sample;
   * otherwise the sample's number, counted from 1, goes before the
   * extension, or before an added ".png" when the name has no dot.
   */
  function OutputName(finalImage: string, numSamples: int, idx: nat): string
  {
    if numSamples > 1 then
      match RSplitDot(finalImage)
      case None => finalImage + "." + Text.Decimal(idx + 1) + ".png"
      case Some((stem, ext)) => stem + "." + Text.Decimal(idx + 1) + "." + ext
    else finalImage
  }

  /** What comes before a sample's number: the name, or its stem, and a dot. */
  function NamePrefix(finalImage: string): string
  {
    match RSplitDot(finalImage)
    case None => finalImage + "."
    case Some((stem, _)) => stem + "."
  }

  /** What comes after a sample's number: a dot and the extension, ".png" when the name had none. */
  function NameSuffix(finalImage: string): (e: string)
    ensures |e| > 0 && e[0] == '.'
  {
    match RSplitDot(finalImage)
    case None => ".png"
    case Some((_, ext)) => "." + ext
  }

  /**
   * With several samples, a name is split at its last dot and the sample's
   * number goes in between; a name without a dot keeps its whole text and
   * gains ".png".
   */
  lemma OutputNameShape(finalImage: string, numSamples: int, idx: nat)
    requires numSamples > 1
    ensures OutputName(finalImage, numSamples, idx) ==
            NamePrefix(finalImage) + Text.Decimal(idx + 1) + NameSuffix(finalImage)
    ensures '.' !in finalImage ==> NamePrefix(finalImage) == finalImage + "." && NameSuffix(finalImage) == ".png"
    ensures '.' in finalImage ==> finalImage == NamePrefix(finalImage) + NameSuffix(finalImage)[1..]
  {
    var d := Text.Decimal(idx + 1);
    match RSplitDot(finalImage)
    case None =>
    case Some((stem, ext)) =>
      assert stem + "." + d + "." + ext == (stem + "." + d) + ("." + ext);
      assert NameSuffix(finalImage)[1..] == ext;
  }

  /**
   * With several samples, different samples are saved to different files,
   * so no sample overwrites another.
   */
  lemma OutputNamesDistinct(finalImage: string, numSamples: int, i: nat, j: nat)
    requires numSamples > 1 && i != j
    ensures OutputName(finalImage, numSamples, i) != OutputName(finalImage, numSamples, j)
  {
    OutputNameShape(finalImage, numSamples, i);
    OutputNameShape(finalImage, numSamples, j);
    NumbersBetween(NamePrefix(finalImage), i + 1, j + 1, NameSuffix(finalImage));
  }

  /** Different numbers framed by the same prefix and by a suffix starting with a dot give different texts. */
  lemma NumbersBetween(p: string, x: nat, y: nat, e: string)
    requires x != y && |e| > 0 && e[0] == '.'
    ensures p + Text.Decimal(x) + e != p + Text.Decimal(y) + e
  {
    var a, b := Text.Decimal(x), Text.Decimal(y);
    if p + a + e == p + b + e {
      Text.DecimalDigits(x);
      Text.DecimalDigits(y);
      DigitsBetween(p, a, e, b);
      Text.DecimalInjective(x, y);
      assert false;
    }
  }

  /** Digits framed by the same prefix and by a suffix starting with a dot are determined by the text. */
  lemma DigitsBetween(p: string, a: string, e: string, b: string)
    requires forall k :: 0 <= k < |a| ==> '0' <= a[k] <= '9'
    requires forall k :: 0 <= k < |b| ==> '0' <= b[k] <= '9'
    requires |e| > 0 && e[0] == '.'
    requires p + a + e == p + b + e
    ensures a == b
  {
    var x, y := p + a + e, p + b + e;
    var k := if |a| < |b| then |a| else |b|;
    assert x[|p| + k] == y[|p| + k];
    assert a == x[|p|..|p| + |a|] && b == y[|p|..|p| + |b|];
  }

  /** How a run ends: the strength is refused, a panic, or the files written and the timesteps each sample went through. */
  datatype RunOutcome = StrengthRejected | Panicked | Finished(files: seq<string>, denoised: seq<seq<real>>)

  /**
   * `run`: after the strength check, each sample adds noise at the
   * timestep `t_start` (an index past the grid panics), is denoised from
   * there to the end of the grid and is saved under its own name.
   * `timesteps` is the scheduler's grid.
   */
  method Run(strength: real, nSteps: nat, numSamples: int, finalImage: string, timesteps: seq<real>)
    returns (r: RunOutcome)
    ensures r.StrengthRejected? <==> !StrengthAccepted(strength)
    ensures r.Panicked? <==> StrengthAccepted(strength) && numSamples > 0 && TStart(nSteps, strength) >= |timesteps|
    ensures r.Finished? ==>
      |r.files| == |r.denoised| == (if numSamples > 0 then numSamples else 0) &&
      (forall i :: 0 <= i < |r.files| ==> r.files[i] == OutputName(finalImage, numSamples, i)) &&
      (forall i :: 0 <= i < |r.denoised| ==> r.denoised[i] == timesteps[TStart(nSteps, strength)..])
  {
    if !StrengthAccepted(strength) {
      return StrengthRejected;
    }
    r := Samples(TStart(nSteps, strength), numSamples, finalImage, timesteps);
  }

  /** The sample loop of `run`, from the timestep `tStart` on. */
  method Samples(tStart: nat, numSamples: int, finalImage: string, timesteps: seq<real>) returns (r: RunOutcome)
    ensures r.Panicked? <==> numSamples > 0 && tStart >= |timesteps|
    ensures !r.StrengthRejected?
    ensures r.Finished? ==>
      |r.files| == |r.denoised| == (if numSamples > 0 then numSamples else 0) &&
      (forall i :: 0 <= i < |r.files| ==> r.files[i] == OutputName(finalImage, numSamples, i)) &&
      (forall i :: 0 <= i < |r.denoised| ==> r.denoised[i] == timesteps[tStart..])
  {
    var files: seq<string> := [];
    var denoised: seq<seq<real>> := [];
    var idx := 0;
    while idx < numSamples
      invariant 0 <= idx && (numSamples > 0 ==> idx <= numSamples) && (numSamples <= 0 ==> idx == 0)
      invariant idx > 0 ==> tStart < |timesteps|
      invariant |files| == |denoised| == idx
      invariant forall i :: 0 <= i < idx ==> files[i] == OutputName(finalImage, numSamples, i)
      invariant forall i :: 0 <= i < idx ==> tStart <= |timesteps| && denoised[i] == timesteps[tStart..]
      decreases numSamples - idx
    {
      if tStart >= |timesteps| {
        return Panicked;
      }
      var stepped := Denoised(timesteps, tStart);
      files := files + [OutputName(finalImage, numSamples, idx)];
      denoised := denoised + [stepped];
      idx := idx + 1;
    }
    return Finished(files, denoised);
  }

  /**
   * A strength of 0 passes the check but starts denoising past the last
   * timestep of an `nSteps`-long grid, so the first sample panics.
   */
  lemma ZeroStrengthPanics(nSteps: nat, numSamples: int, finalImage: string, timesteps: seq<real>)
    requires |timesteps| == nSteps && numSamples > 0
    ensures StrengthAccepted(0.0) && TStart(nSteps, 0.0) >= |timesteps|
  {
  }
}
