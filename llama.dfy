/**
 * LLaMA text generation: the bookkeeping of the sampling loop.  Each step
 * feeds the network the most recent tokens, appends the sampled token to
 * the running text and to the answer, and with a sender publishes a
 * progress tick.  The network, the sampling and the tokenizer are
 * parameters.
 */
module Llama {
  import opened Wrappers
  import Types
  import Arith
  import opened Message
  import T = Ticks
  import LlamaModel

  /** The tokens the network sees: the suffix of at most CONTEXT_SIZE tokens. */
  function Context(tokens: seq<nat>): (c: seq<nat>)
    ensures |c| == if |tokens| < LlamaModel.CONTEXT_SIZE then |tokens| else LlamaModel.CONTEXT_SIZE
    ensures tokens == tokens[..|tokens| - |c|] + c
  {
    tokens[Arith.SaturatingSub(|tokens|, LlamaModel.CONTEXT_SIZE)..]
  }

  /**
   * The window slides: after one more token, a short text is seen whole,
   * and a full window drops its oldest token and gains the new one.
   */
  lemma ContextSlides(tokens: seq<nat>, x: nat)
    ensures |tokens| < LlamaModel.CONTEXT_SIZE ==> Context(tokens + [x]) == tokens + [x]
    ensures |tokens| >= LlamaModel.CONTEXT_SIZE ==> Context(tokens + [x]) == Context(tokens)[1..] + [x]
  {
    var n := |tokens|;
    if n >= LlamaModel.CONTEXT_SIZE {
      var s := n - LlamaModel.CONTEXT_SIZE;
      assert Context(tokens + [x]) == (tokens + [x])[s + 1..];
      assert Context(tokens)[1..] == tokens[s + 1..];
    }
  }

  /**
   * The tokens a run samples: step `k` draws from the context of the prompt
   * followed by the `k` tokens drawn before it.
   */
  ghost function Sampled(prompt: seq<nat>, n: nat, sample: (nat, seq<nat>) -> nat): (r: seq<nat>)
    ensures |r| == n
    decreases n
  {
    if n == 0 then []
    else
      var before := Sampled(prompt, n - 1, sample);
      before + [sample(n - 1, Context(prompt + before))]
  }

  /** A longer run begins with a shorter one: sampling never revises an earlier token. */
  lemma {:induction false} SampledPrefix(prompt: seq<nat>, m: nat, n: nat, sample: (nat, seq<nat>) -> nat)
    requires m <= n
    ensures Sampled(prompt, m, sample) == Sampled(prompt, n, sample)[..m]
    decreases n - m
  {
    if m < n {
      SampledPrefix(prompt, m, n - 1, sample);
      assert Sampled(prompt, n - 1, sample) == Sampled(prompt, n, sample)[..n - 1];
    }
  }

  /** Each token of a run is drawn from the context of the prompt and the tokens before it. */
  lemma SampledStep(prompt: seq<nat>, n: nat, sample: (nat, seq<nat>) -> nat, k: nat)
    requires k < n
    ensures Sampled(prompt, n, sample)[k] == sample(k, Context(prompt + Sampled(prompt, n, sample)[..k]))
  {
    var s := Sampled(prompt, n, sample);
    SampledPrefix(prompt, k + 1, n, sample);
    SampledPrefix(prompt, k, n, sample);
    assert Sampled(prompt, k + 1, sample)[k] == s[k];
  }

  /**
   * The sampling loop.  `encoded` is the prompt's encoding (None when the
   * tokenizer refuses it, which panics); `slots` is what the bus does at
   * each tick.  Without a panic it returns the whole text and the new
   * tokens, and with a sender the bus has gained ticks 1 to `sampleLen`;
   * a tick nobody hears panics, after the ticks before it went out.
   */
  method Generate(encoded: Option<seq<nat>>, sampleLen: nat, sample: (nat, seq<nat>) -> nat,
                  sender: bool, slots: seq<T.Slot>, bus: seq<Message>)
    returns (tokens: seq<nat>, newTokens: seq<nat>, bus': seq<Message>, panicked: bool)
    requires |slots| == sampleLen
    ensures panicked <==> encoded.None? || (sender && !T.AllHeard(slots))
    ensures !panicked ==> newTokens == Sampled(encoded.value, sampleLen, sample)
    ensures !panicked ==> tokens == encoded.value + newTokens
    ensures !panicked && sender ==> bus' == bus + T.TickRun(Types.LlamaTokenGen, 1, sampleLen, slots)
    ensures !panicked && !sender ==> bus' == bus
    ensures panicked && encoded.Some? ==>
      bus' == bus + T.TickRun(Types.LlamaTokenGen, 1, sampleLen, slots[..T.FirstUnheard(slots)])
  {
    bus' := bus;
    newTokens := [];
    if encoded.None? {
      tokens := [];
      return tokens, newTokens, bus', true;
    }
    tokens := encoded.value;
    var index := 0;
    while index < sampleLen
      invariant index <= sampleLen
      invariant newTokens == Sampled(encoded.value, index, sample)
      invariant tokens == encoded.value + newTokens
      invariant sender ==> T.AllHeard(slots[..index])
      invariant sender ==> bus' == bus + T.TickRun(Types.LlamaTokenGen, 1, sampleLen, slots[..index])
      invariant !sender ==> bus' == bus
    {
      var next := sample(index, Context(tokens));
      tokens := tokens + [next];
      newTokens := newTokens + [next];
      if sender {
        var failed;
        bus', failed := T.EmitNext(bus, bus', Types.LlamaTokenGen, 1, sampleLen, slots, index);
        if failed {
          return tokens, newTokens, bus', true;
        }
      }
      index := index + 1;
    }
    assert slots[..index] == slots;
    panicked := false;
  }

  /** `prediction`: the loop's new tokens, decoded. */
  method Prediction(encoded: Option<seq<nat>>, sampleLen: nat, sample: (nat, seq<nat>) -> nat,
                    sender: bool, slots: seq<T.Slot>, bus: seq<Message>, decode: seq<nat> -> string)
    returns (text: string, bus': seq<Message>, panicked: bool)
    requires |slots| == sampleLen
    ensures panicked <==> encoded.None? || (sender && !T.AllHeard(slots))
    ensures !panicked ==> text == decode(Sampled(encoded.value, sampleLen, sample))
    ensures !panicked ==> bus' == bus + (if sender then T.TickRun(Types.LlamaTokenGen, 1, sampleLen, slots) else [])
  {
    var tokens, newTokens;
    tokens, newTokens, bus', panicked := Generate(encoded, sampleLen, sample, sender, slots, bus);
    text := if panicked then "" else decode(newTokens);
  }
}
