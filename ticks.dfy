// Progress ticks: the `{tick, steps}` records that the diffusion scheduler
// and the LLaMA sampler publish on the event bus while they work.

module Ticks {
  import opened Wrappers
  import Types
  import Text
  import opened Message
  import E = Emit

  /**
   * The JSON text of a tick record.  The record goes through a JSON value
   * before it is printed, and JSON objects keep their keys sorted, so
   * "steps" comes before "tick".
   */
  function TickJson(tick: nat, steps: nat): string
  {
    "{\"steps\":" + Text.Decimal(steps) + ",\"tick\":" + Text.Decimal(tick) + "}"
  }

  /** Two tick records print the same text only when they are the same record. */
  lemma TickJsonInjective(t1: nat, s1: nat, t2: nat, s2: nat)
    requires TickJson(t1, s1) == TickJson(t2, s2)
    ensures t1 == t2 && s1 == s2
  {
    Text.DecimalDigits(s1);
    Text.DecimalDigits(s2);
    DigitsThenComma("{\"steps\":", Text.Decimal(s1), ",\"tick\":", Text.Decimal(t1), "}",
                    Text.Decimal(s2), Text.Decimal(t2));
    Text.DecimalInjective(s1, s2);
    Text.DecimalInjective(t1, t2);
  }

  /**
   * Two texts of the shape prefix, digits, separator, field, suffix agree
   * only when their digits and their fields agree, as long as the
   * separator starts with a comma.
   */
  lemma DigitsThenComma(p: string, a: string, m: string, c: string, e: string, b: string, d: string)
    requires forall i :: 0 <= i < |a| ==> '0' <= a[i] <= '9'
    requires forall i :: 0 <= i < |b| ==> '0' <= b[i] <= '9'
    requires |m| > 0 && m[0] == ','
    requires p + a + m + c + e == p + b + m + d + e
    ensures a == b && c == d
  {
    var x, y := p + a + m + c + e, p + b + m + d + e;
    var k := if |a| < |b| then |a| else |b|;
    assert x[|p| + k] == y[|p| + k];
    assert a == x[|p|..|p| + |a|] && b == y[|p|..|p| + |b|];
    var o := |p| + |a| + |m|;
    assert c == x[o..o + |c|] && d == y[o..o + |d|];
  }

  /** What the environment does at one emission: the clock reading and whether anyone listens. */
  datatype Slot = Slot(now: nat, receivers: bool)

  /** The kinds of message that carry ticks. */
  predicate IsTick(t: Types.MessageType)
  {
    t == Types.SchedulerStep || t == Types.LlamaTokenGen
  }

  /**
   * The tick message number `tick` of `steps`, built from the default
   * source: owner ROOT, command type Process and model type Diffusion.
   */
  function TickMessage(t: Types.MessageType, tick: nat, steps: nat, now: nat): (m: Message)
    requires IsTick(t)
    ensures MessageTypeOf(m) == t && m.owner == Types.ROOT && m.timestamp == now
    ensures m.commandType == Types.CommandType.Process && m.modelType == Types.Diffusion
    ensures m.value == TickJson(tick, steps)
  {
    E.DefaultSourceEmits(t, TickJson(tick, steps), now);
    var m := E.Build(t, E.DefaultSource(), Some(TickJson(tick, steps)), now).value;
    E.BuildContents(t, E.DefaultSource(), Some(TickJson(tick, steps)), now, m);
    m
  }

  /** The ticks `first`, `first + 1`, ... published one per slot. */
  function TickRun(t: Types.MessageType, first: nat, steps: nat, slots: seq<Slot>): (r: seq<Message>)
    requires IsTick(t)
    ensures |r| == |slots|
    ensures forall k :: 0 <= k < |r| ==> r[k] == TickMessage(t, first + k, steps, slots[k].now)
  {
    seq(|slots|, k requires 0 <= k < |slots| => TickMessage(t, first + k, steps, slots[k].now))
  }

  /** Every emission found a listener. */
  predicate AllHeard(slots: seq<Slot>)
  {
    forall k :: 0 <= k < |slots| ==> slots[k].receivers
  }

  /** How many emissions go out before the first one nobody hears. */
  function FirstUnheard(slots: seq<Slot>): (k: nat)
    ensures k <= |slots| && AllHeard(slots[..k])
    ensures k < |slots| ==> !slots[k].receivers
    ensures k == |slots| <==> AllHeard(slots)
  {
    if |slots| == 0 then 0
    else if !slots[0].receivers then 0
    else
      var k := 1 + FirstUnheard(slots[1..]);
      assert slots[..k] == [slots[0]] + slots[1..][..k - 1];
      k
  }

  /** The first unheard emission is the one that is unheard after all before it were heard. */
  lemma FirstUnheardAt(slots: seq<Slot>, i: nat)
    requires i < |slots| && AllHeard(slots[..i]) && !slots[i].receivers
    ensures FirstUnheard(slots) == i
  {
  }

  /** One more tick extends the run by its message. */
  lemma TickRunSnoc(t: Types.MessageType, first: nat, steps: nat, slots: seq<Slot>, s: Slot)
    requires IsTick(t)
    ensures TickRun(t, first, steps, slots + [s]) ==
            TickRun(t, first, steps, slots) + [TickMessage(t, first + |slots|, steps, s.now)]
  {
  }

  /**
   * Publishing one tick: the bus gains the tick exactly when someone
   * listens; otherwise the unwrap on the send error panics.
   */
  method EmitTick(bus: seq<Message>, t: Types.MessageType, tick: nat, steps: nat, slot: Slot)
    returns (bus': seq<Message>, panicked: bool)
    requires IsTick(t)
    ensures panicked <==> !slot.receivers
    ensures !panicked ==> bus' == bus + [TickMessage(t, tick, steps, slot.now)]
    ensures panicked ==> bus' == bus
  {
    var e := E.EmitTo(bus, t, E.DefaultSource(), Some(TickJson(tick, steps)), slot.now, slot.receivers);
    bus' := e.0;
    panicked := e.1 != E.Sent;
  }

  /**
   * Publishing the next tick of a run whose earlier ticks all went out:
   * either the run grows by one, or this is the first unheard tick and the
   * bus stays as it was.
   */
  method EmitNext(base: seq<Message>, bus: seq<Message>, t: Types.MessageType, first: nat, steps: nat,
                  slots: seq<Slot>, i: nat)
    returns (bus': seq<Message>, panicked: bool)
    requires IsTick(t) && i < |slots|
    requires AllHeard(slots[..i]) && bus == base + TickRun(t, first, steps, slots[..i])
    ensures panicked <==> !slots[i].receivers
    ensures panicked ==> bus' == bus && FirstUnheard(slots) == i
    ensures !panicked ==> AllHeard(slots[..i + 1]) && bus' == base + TickRun(t, first, steps, slots[..i + 1])
  {
    TickRunSnoc(t, first, steps, slots[..i], slots[i]);
    assert slots[..i + 1] == slots[..i] + [slots[i]];
    bus', panicked := EmitTick(bus, t, first + i, steps, slots[i]);
    if panicked {
      FirstUnheardAt(slots, i);
    }
  }
}
