/**
 * The shape arithmetic of the LLaMA network: its 7B configuration, the
 * width of the feed-forward layer, the split of the attention projection
 * into queries, keys and values, the reshapes around the rotary embedding
 * and the size of the rotary frequency table.  The tensor maths itself is
 * not modelled.
 */
module LlamaModel {
  import opened Wrappers
  import Arith

  /** How many of the most recent tokens the network looks at. */
  const CONTEXT_SIZE: nat := 512

  datatype Config = Config(blockSize: nat, vocabSize: nat, nLayer: nat, nHead: nat, nEmbd: nat)

  /** The 7B parameter configuration. */
  function Config7b(): (c: Config)
    ensures c.blockSize == 4096 && c.vocabSize == 32000
    ensures c.nLayer == 32 && c.nHead == 32 && c.nEmbd == 4096
  {
    Config(4096, 32000, 32, 32, 4096)
  }

  /** The unrounded hidden width: eight thirds of the embedding, in 64-bit signed division. */
  function MlpBase(nEmbd: int): int
  {
    Arith.TruncDiv(8 * nEmbd, 3)
  }

  /** The hidden width of the feed-forward layer: `(base - 1) / 256 * 256 + 256`, signed division. */
  function MlpHidden(nEmbd: int): int
  {
    Arith.TruncDiv(MlpBase(nEmbd) - 1, 256) * 256 + 256
  }

  /**
   * For a positive base, the hidden width is the base rounded up to a
   * multiple of 256: a multiple of 256, at least the base, and the
   * smallest such.
   */
  lemma MlpHiddenRoundsUp(nEmbd: int)
    requires MlpBase(nEmbd) >= 1
    ensures MlpHidden(nEmbd) % 256 == 0
    ensures MlpBase(nEmbd) <= MlpHidden(nEmbd) < MlpBase(nEmbd) + 256
    ensures forall m: int :: m % 256 == 0 && m >= MlpBase(nEmbd) ==> m >= MlpHidden(nEmbd)
  {
    var b := MlpBase(nEmbd) - 1;
    var q := b / 256;
    assert b == q * 256 + b % 256;
    assert MlpHidden(nEmbd) == (q + 1) * 256;
    forall m: int | m % 256 == 0 && m >= MlpBase(nEmbd)
      ensures m >= MlpHidden(nEmbd)
    {
      var k := m / 256;
      assert m == k * 256;
    }
  }

  /**
   * With an empty embedding the base is 0 and the division of -1 rounds
   * toward zero, so the width is one block of 256 rather than 0.
   */
  lemma MlpHiddenOfEmpty()
    ensures MlpBase(0) == 0 && MlpHidden(0) == 256
  {
  }

  /** The 7B model's feed-forward layer is 11008 wide. */
  lemma MlpHidden7b()
    ensures MlpBase(Config7b().nEmbd) == 10922
    ensures MlpHidden(Config7b().nEmbd) == 11008
  {
  }

  /** A half-open column range `[start, end)`. */
  datatype Range = Range(start: int, end: int)

  predicate Within(r: Range, c: int)
  {
    r.start <= c < r.end
  }

  /** The columns of the `3 * n`-wide attention projection read as queries, keys and values. */
  function QkvSlices(n: nat): (r: seq<Range>)
    ensures |r| == 3
  {
    [Range(0, n), Range(n, 2 * n), Range(2 * n, 3 * n)]
  }

  /**
   * The three slices tile the projection: they start at column 0, each
   * starts where the previous ends, the last ends at its width `3 * n`, each
   * is `n` wide, and every column lies in exactly one of them.
   */
  lemma QkvPartition(n: nat)
    ensures QkvSlices(n)[0].start == 0 && QkvSlices(n)[2].end == 3 * n
    ensures forall i :: 0 <= i < 2 ==> QkvSlices(n)[i].end == QkvSlices(n)[i + 1].start
    ensures forall i :: 0 <= i < 3 ==> QkvSlices(n)[i].end - QkvSlices(n)[i].start == n
    ensures forall c :: Within(Range(0, 3 * n), c) <==> exists i :: 0 <= i < 3 && Within(QkvSlices(n)[i], c)
    ensures forall c, i, j :: 0 <= i < 3 && 0 <= j < 3 && Within(QkvSlices(n)[i], c) && Within(QkvSlices(n)[j], c) ==> i == j
  {
    var r := QkvSlices(n);
    forall c | Within(Range(0, 3 * n), c)
      ensures exists i :: 0 <= i < 3 && Within(r[i], c)
    {
      if c < n {
        assert Within(r[0], c);
      } else if c < 2 * n {
        assert Within(r[1], c);
      } else {
        assert Within(r[2], c);
      }
    }
  }

  /**
   * The shapes around the rotary embedding.  The last dimension `v` is
   * popped and `v / 2` and 2 pushed to view the input as pairs; the rotated
   * tensor has that same pair shape, whose last two dimensions are popped
   * and their product pushed to flatten it again.  Popping from an empty
   * shape panics (None).  Returns the pair shape and the flattened shape.
   */
  method RotaryShapes(dims: seq<int>) returns (r: Option<(seq<int>, seq<int>)>)
    ensures r.Some? <==> |dims| > 0
    ensures r.Some? ==>
      var v := dims[|dims| - 1];
      r.value.0 == dims[..|dims| - 1] + [Arith.TruncDiv(v, 2), 2] &&
      r.value.1 == dims[..|dims| - 1] + [2 * Arith.TruncDiv(v, 2)]
  {
    var shape := dims;
    if |shape| == 0 {
      return None;
    }
    var v := shape[|shape| - 1];
    shape := shape[..|shape| - 1];
    shape := shape + [Arith.TruncDiv(v, 2)];
    shape := shape + [2];
    var paired := shape;
    // the rotated tensor concatenates two width-1 halves along the last axis
    var rope := paired;
    var v1 := rope[|rope| - 1];
    rope := rope[..|rope| - 1];
    var v2 := rope[|rope| - 1];
    rope := rope[..|rope| - 1];
    rope := rope + [v1 * v2];
    return Some((paired, rope));
  }

  /** The flattened shape gives back the input shape exactly when the last dimension is even. */
  lemma RotaryRoundTrip(dims: seq<int>)
    requires |dims| > 0
    ensures dims[..|dims| - 1] + [2 * Arith.TruncDiv(dims[|dims| - 1], 2)] == dims <==>
            dims[|dims| - 1] % 2 == 0
  {
    var v := dims[|dims| - 1];
    var flat := dims[..|dims| - 1] + [2 * Arith.TruncDiv(v, 2)];
    if flat == dims {
      assert flat[|dims| - 1] == v;
    }
    if v % 2 == 0 {
      assert 2 * Arith.TruncDiv(v, 2) == v;
      assert flat == dims;
    }
  }

  /** The per-head width; a configuration without heads divides by zero (None). */
  function NElem(c: Config): (r: Option<nat>)
    ensures r.Some? <==> c.nHead > 0
  {
    if c.nHead == 0 then None else Some(c.nEmbd / c.nHead)
  }

  /**
   * The exponents of the rotary frequencies: 0, 2, 4, ... below `nElem`,
   * built by a stepping loop.
   */
  method FrequencyIndices(nElem: nat) returns (idx: seq<nat>)
    ensures |idx| == (nElem + 1) / 2
    ensures forall k :: 0 <= k < |idx| ==> idx[k] == 2 * k && idx[k] < nElem
  {
    idx := [];
    var i := 0;
    while i < nElem
      invariant i == 2 * |idx| && i <= nElem + 1
      invariant forall k :: 0 <= k < |idx| ==> idx[k] == 2 * k && idx[k] < nElem
      decreases nElem - i
    {
      idx := idx + [i];
      i := i + 2;
    }
  }

  /**
   * The table is built with one column per exponent but reshaped to
   * `nElem / 2` columns: the two counts agree exactly when `nElem` is even.
   */
  lemma FrequencyShapeAgrees(nElem: nat)
    ensures (nElem + 1) / 2 == nElem / 2 <==> nElem % 2 == 0
  {
  }

  /** The 7B model has 128-wide heads and 64 rotary frequencies, so its table reshapes cleanly. */
  lemma Frequencies7b()
    ensures NElem(Config7b()) == Some(128)
    ensures (NElem(Config7b()).value + 1) / 2 == NElem(Config7b()).value / 2 == 64
  {
  }

  /** The network's output keeps only the final position of the context. */
  function LastPosition<T>(positions: seq<T>): (r: seq<T>)
    requires |positions| >= 1
    ensures |r| == 1 && r[0] == positions[|positions| - 1]
    ensures positions == positions[..|positions| - 1] + r
  {
    positions[|positions| - 1..]
  }
}
