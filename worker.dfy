/**
 * What every model worker does with the bus: it announces that it started
 * and that its model is loaded, then answers each instruction from its
 * channel with a prediction or an error.  A prediction may itself publish
 * progress ticks on the same bus, and may panic inside the model.  Each of
 * these is one step of the worker's plan; `Deliver` says which messages
 * reach the bus and how the worker ends, given whether the bus had
 * receivers at each step.
 */
module Worker {
  import opened Wrappers
  import Types
  import opened Message
  import E = Emit
  import I = Instruction
  import T = Ticks

  /** How a worker task ends: its channel closed, an error string, or a panic. */
  datatype Exit = Finished | Failed(reason: string) | Panicked

  /** The environment of one step: the clock and whether the bus has receivers. */
  type Step = T.Slot

  /**
   * One step of a worker: a message to publish, or a panic inside the
   * model that publishes nothing.  A message that finds no receiver
   * panics when it is a progress tick (its send error is unwrapped), and
   * otherwise gives the error `failReason`.
   */
  datatype Emission =
    | Emission(t: Types.MessageType, source: E.EmitSource, value: Option<string>, failReason: string, tick: bool)
    | Crash

  /** Display of the bus's send error. */
  const CLOSED: string := "channel closed"

  /** The error text a worker reports for undecodable input (also, as written, for a failed start announcement). */
  const PARSE_ERROR: string := "Json Parse Error"

  predicate Buildable(e: Emission)
  {
    e.Crash? || E.Supplies(e.t, e.source, e.value)
  }

  predicate AllBuildable(plan: seq<Emission>)
  {
    forall i :: 0 <= i < |plan| ==> Buildable(plan[i])
  }

  /** A message whose failed send is an error the worker returns, not a panic. */
  predicate Plain(e: Emission)
  {
    e.Emission? && !e.tick
  }

  predicate AllPlain(plan: seq<Emission>)
  {
    forall i :: 0 <= i < |plan| ==> Plain(plan[i])
  }

  /** The step goes through: it is a message, and someone hears it. */
  predicate Goes(e: Emission, st: Step)
  {
    e.Emission? && st.receivers
  }

  function Published(e: Emission, st: Step): Message
    requires Buildable(e) && e.Emission?
  {
    E.Build(e.t, e.source, e.value, st.now).value
  }

  /** Every step of `plan` from `lo` on went through, and `events` records what it published. */
  predicate PublishedFrom(plan: seq<Emission>, steps: seq<Step>, events: seq<Message>, lo: nat)
  {
    |steps| >= |plan| && |events| == |plan| && AllBuildable(plan)
    && forall i :: lo <= i < |plan| ==> Goes(plan[i], steps[i]) && events[i] == Published(plan[i], steps[i])
  }

  /** What holds of the steps from `lo` on holds from any later position. */
  lemma PublishedLater(plan: seq<Emission>, steps: seq<Step>, events: seq<Message>, lo: nat, o: nat)
    requires PublishedFrom(plan, steps, events, lo) && lo <= o
    ensures PublishedFrom(plan, steps, events, o)
  {
  }

  /** The progress tick number `tick` of `steps`, published from the default source. */
  function Tick(t: Types.MessageType, tick: nat, steps: nat): (e: Emission)
    requires T.IsTick(t)
    ensures Buildable(e) && e.Emission? && e.tick
    ensures forall st: Step :: Published(e, st) == T.TickMessage(t, tick, steps, st.now)
  {
    E.DefaultSourceEmits(t, T.TickJson(tick, steps), 0);
    Emission(t, E.DefaultSource(), Some(T.TickJson(tick, steps)), CLOSED, true)
  }

  /** The ticks `first`, `first + 1`, ... out of `total`, as `count` steps of a plan. */
  function TickSteps(t: Types.MessageType, first: nat, count: nat, total: nat): (ts: seq<Emission>)
    requires T.IsTick(t)
    ensures |ts| == count && forall k :: 0 <= k < count ==> ts[k] == Tick(t, first + k, total)
  {
    seq(count, k requires 0 <= k < count => Tick(t, first + k, total))
  }

  /**
   * Ticks that all go through reach the bus as the tick run the model
   * publishes: consecutive numbers, one per step, each stamped with its
   * step's clock.
   */
  lemma TicksPublished(t: Types.MessageType, first: nat, count: nat, total: nat,
                       plan: seq<Emission>, steps: seq<Step>, events: seq<Message>, pos: nat)
    requires T.IsTick(t) && pos + count <= |plan| && |plan| <= |steps| && |plan| <= |events|
    requires plan[pos..pos + count] == TickSteps(t, first, count, total)
    requires forall i :: pos <= i < pos + count ==> Goes(plan[i], steps[i]) && events[i] == Published(plan[i], steps[i])
    ensures events[pos..pos + count] == T.TickRun(t, first, total, steps[pos..pos + count])
  {
    forall i | pos <= i < pos + count
      ensures events[i] == T.TickMessage(t, first + (i - pos), total, steps[i].now)
    {
      assert plan[i] == plan[pos..pos + count][i - pos] == Tick(t, first + (i - pos), total);
      assert Goes(plan[i], steps[i]);
    }
  }

  /** One step: published, or the end of the worker (a panic, or when fatal a failed message). */
  function Attempt(events: seq<Message>, e: Emission, st: Step, fatal: bool): (r: (seq<Message>, Exit))
    requires Buildable(e)
  {
    if e.Crash? then (events, Panicked)
    else if st.receivers then (events + [Published(e, st)], Finished)
    else if e.tick then (events, Panicked)
    else if fatal then (events, Failed(e.failReason))
    else (events, Finished)
  }

  /** A worker's steps in order, stopping at the first panic or fatal failure. */
  function Deliver(plan: seq<Emission>, steps: seq<Step>, fatal: bool): (r: (seq<Message>, Exit))
    requires |steps| >= |plan| && AllBuildable(plan)
    decreases |plan|
  {
    if |plan| == 0 then ([], Finished)
    else
      var n := |plan| - 1;
      var before := Deliver(plan[..n], steps, fatal);
      if !before.1.Finished? then before else Attempt(before.0, plan[n], steps[n], fatal)
  }

  /** One more step of the plan: attempted unless an earlier one already ended the worker. */
  lemma DeliverStep(plan: seq<Emission>, steps: seq<Step>, fatal: bool, n: nat)
    requires |steps| >= |plan| && AllBuildable(plan) && n < |plan|
    ensures var before := Deliver(plan[..n], steps, fatal);
      Deliver(plan[..n + 1], steps, fatal)
        == if !before.1.Finished? then before else Attempt(before.0, plan[n], steps[n], fatal)
  {
    assert plan[..n + 1][..n] == plan[..n];
  }

  /**
   * Attempting step `n` once all earlier ones went through: the worker is
   * one step further, a plain message of a worker that only logs failures
   * never ends it, and a step that ends the worker ends the whole plan.
   */
  method Next(ghost plan: seq<Emission>, steps: seq<Step>, fatal: bool, n: nat, events: seq<Message>, e: Emission)
    returns (events': seq<Message>, exit: Exit)
    requires |steps| >= |plan| && AllBuildable(plan) && n < |plan| && e == plan[n]
    requires Deliver(plan[..n], steps, fatal) == (events, Finished)
    ensures (events', exit) == Deliver(plan[..n + 1], steps, fatal)
    ensures !fatal && Plain(e) ==> exit == Finished
    ensures !exit.Finished? ==> (events', exit) == Deliver(plan, steps, fatal)
  {
    DeliverStep(plan, steps, fatal, n);
    var r := Attempt(events, e, steps[n], fatal);
    events', exit := r.0, r.1;
    if !exit.Finished? {
      DeliverStopsAtFailure(plan, steps, fatal, n + 1);
    }
  }

  /** The steps for a run of instructions: one block per instruction, in order. */
  function Blocks(bs: seq<seq<Emission>>): seq<Emission>
    decreases |bs|
  {
    if |bs| == 0 then [] else Blocks(bs[..|bs| - 1]) + bs[|bs| - 1]
  }

  /** The blocks of the first instructions open the blocks of all of them. */
  lemma {:induction false} BlocksPrefix(bs: seq<seq<Emission>>, k: nat)
    requires k <= |bs|
    ensures Blocks(bs[..k]) <= Blocks(bs)
    decreases |bs| - k
  {
    if k < |bs| {
      BlocksPrefix(bs, k + 1);
      assert bs[..k + 1][..k] == bs[..k];
    } else {
      assert bs[..k] == bs;
    }
  }

  /** Block `k` sits in the blocks right after the blocks before it. */
  lemma BlockAt(bs: seq<seq<Emission>>, k: nat)
    requires k < |bs|
    ensures |Blocks(bs[..k + 1])| == |Blocks(bs[..k])| + |bs[k]| <= |Blocks(bs)|
    ensures Blocks(bs)[|Blocks(bs[..k])|..|Blocks(bs[..k])| + |bs[k]|] == bs[k]
  {
    assert bs[..k + 1][..k] == bs[..k];
    BlocksPrefix(bs, k + 1);
  }

  /** In a plan of two announcements and then the blocks, block `k` starts after the announcements and the blocks before it. */
  lemma PlanBlock(plan: seq<Emission>, bs: seq<seq<Emission>>, k: nat)
    requires |plan| >= 2 && plan[2..] == Blocks(bs) && k < |bs|
    ensures var pos := 2 + |Blocks(bs[..k])|;
      pos + |bs[k]| <= |plan| && plan[pos..pos + |bs[k]|] == bs[k]
      && 2 + |Blocks(bs[..k + 1])| == pos + |bs[k]|
  {
    BlockAt(bs, k);
    var a := |Blocks(bs[..k])|;
    assert plan[2 + a..2 + a + |bs[k]|] == plan[2..][a..a + |bs[k]|];
  }

  /** A property of every step of every block holds of every step of the blocks together. */
  lemma {:induction false} BlocksEvery(bs: seq<seq<Emission>>, P: Emission -> bool)
    requires forall k, j :: 0 <= k < |bs| && 0 <= j < |bs[k]| ==> P(bs[k][j])
    ensures forall i :: 0 <= i < |Blocks(bs)| ==> P(Blocks(bs)[i])
    decreases |bs|
  {
    if |bs| > 0 {
      var n := |bs| - 1;
      assert forall k :: 0 <= k < n ==> bs[..n][k] == bs[k];
      BlocksEvery(bs[..n], P);
      var before := Blocks(bs[..n]);
      forall i | 0 <= i < |Blocks(bs)|
        ensures P(Blocks(bs)[i])
      {
        if i >= |before| {
          assert Blocks(bs)[i] == bs[n][i - |before|];
        }
      }
    }
  }

  /** Blocks of one step each are those steps, one per instruction. */
  lemma {:induction false} BlocksOfSingles(bs: seq<seq<Emission>>)
    requires forall i :: 0 <= i < |bs| ==> |bs[i]| == 1
    ensures |Blocks(bs)| == |bs|
    ensures forall i :: 0 <= i < |bs| ==> Blocks(bs)[i] == bs[i][0]
    decreases |bs|
  {
    if |bs| > 0 {
      var n := |bs| - 1;
      BlocksOfSingles(bs[..n]);
      assert Blocks(bs) == Blocks(bs[..n]) + bs[n];
    }
  }

  /** A plan of the announcements and then one answer per instruction is served one single-answer block at a time. */
  lemma SingleAnswers(plan: seq<Emission>, blocks: seq<seq<Emission>>)
    requires |plan| >= 2 && |blocks| == |plan| - 2
    requires forall k :: 0 <= k < |blocks| ==> blocks[k] == [plan[2 + k]]
    ensures plan[2..] == Blocks(blocks)
  {
    BlocksOfSingles(blocks);
  }

  /**
   * One instruction's block of steps, carried out once everything before
   * it went through: either the whole block goes through, or the worker
   * ends inside it and with it the whole plan.
   */
  method ServeBlock(ghost plan: seq<Emission>, steps: seq<Step>, fatal: bool, pos: nat, block: seq<Emission>,
                    events: seq<Message>)
    returns (events': seq<Message>, exit: Exit)
    requires |steps| >= |plan| && AllBuildable(plan) && pos + |block| <= |plan|
    requires plan[pos..pos + |block|] == block
    requires Deliver(plan[..pos], steps, fatal) == (events, Finished)
    ensures exit.Finished? ==> Deliver(plan[..pos + |block|], steps, fatal) == (events', Finished)
    ensures !exit.Finished? ==> (events', exit) == Deliver(plan, steps, fatal)
  {
    events', exit := events, Finished;
    var j := 0;
    while j < |block|
      invariant 0 <= j <= |block|
      invariant Deliver(plan[..pos + j], steps, fatal) == (events', Finished)
      invariant exit == Finished
    {
      assert plan[pos + j] == block[j];
      events', exit := Next(plan, steps, fatal, pos + j, events', block[j]);
      if !exit.Finished? {
        return;
      }
      j := j + 1;
    }
  }

  /** Block `k`, found at `pos`, fits in the plan and is followed by block `k + 1`. */
  lemma BlockFits(plan: seq<Emission>, blocks: seq<seq<Emission>>, k: nat, pos: nat, block: seq<Emission>)
    requires |plan| >= 2 && plan[2..] == Blocks(blocks) && k < |blocks|
    requires pos == 2 + |Blocks(blocks[..k])| && block == blocks[k]
    ensures pos + |block| <= |plan| && plan[pos..pos + |block|] == block
    ensures pos + |block| == 2 + |Blocks(blocks[..k + 1])|
  {
    PlanBlock(plan, blocks, k);
  }

  /**
   * The serving loop: once both announcements went through, take each
   * instruction of the channel in turn and carry out its block of steps,
   * stopping at a panic or a fatal failure.
   */
  method Serve(ghost plan: seq<Emission>, steps: seq<Step>, fatal: bool, rx: seq<I.Process>,
               answer: I.Process -> seq<Emission>, ghost blocks: seq<seq<Emission>>, events: seq<Message>)
    returns (events': seq<Message>, exit: Exit)
    requires |steps| >= |plan| && |plan| >= 2 && AllBuildable(plan)
    requires |blocks| == |rx| && forall k :: 0 <= k < |rx| ==> blocks[k] == answer(rx[k])
    requires plan[2..] == Blocks(blocks)
    requires Deliver(plan[..2], steps, fatal) == (events, Finished)
    ensures (events', exit) == Deliver(plan, steps, fatal)
  {
    events', exit := events, Finished;
    var k := 0;
    var pos := 2;
    while k < |rx|
      invariant 0 <= k <= |rx|
      invariant pos == 2 + |Blocks(blocks[..k])| <= |plan|
      invariant Deliver(plan[..pos], steps, fatal) == (events', Finished)
      invariant exit == Finished
    {
      var block := answer(rx[k]);
      BlockFits(plan, blocks, k, pos, block);
      events', exit := ServeBlock(plan, steps, fatal, pos, block, events');
      if !exit.Finished? {
        return;
      }
      pos := pos + |block|;
      k := k + 1;
    }
    assert blocks[..k] == blocks;
    assert pos == |plan|;
    assert plan[..pos] == plan;
  }

  /** Without fatal failures, a plain message is attempted after all the earlier ones. */
  lemma DeliverLogged(plan: seq<Emission>, steps: seq<Step>, n: nat)
    requires |steps| >= |plan| && AllBuildable(plan) && AllPlain(plan) && n < |plan|
    ensures Deliver(plan[..n + 1], steps, false) == Attempt(Deliver(plan[..n], steps, false).0, plan[n], steps[n], false)
  {
    DeliverNonFatalFinishes(plan[..n], steps);
    DeliverStep(plan, steps, false, n);
  }

  /** Once a step has ended the worker, the rest of the plan is never attempted. */
  lemma {:induction false} DeliverStopsAtFailure(plan: seq<Emission>, steps: seq<Step>, fatal: bool, i: nat)
    requires |steps| >= |plan| && AllBuildable(plan) && i <= |plan|
    requires !Deliver(plan[..i], steps, fatal).1.Finished?
    ensures Deliver(plan, steps, fatal) == Deliver(plan[..i], steps, fatal)
    decreases |plan| - i
  {
    if i < |plan| {
      assert plan[..i + 1][..i] == plan[..i];
      DeliverStopsAtFailure(plan, steps, fatal, i + 1);
    } else {
      assert plan[..i] == plan;
    }
  }

  /** When every step goes through, every message is published, in order, and the worker finishes. */
  lemma {:induction false} DeliverAllReceived(plan: seq<Emission>, steps: seq<Step>, fatal: bool)
    requires |steps| >= |plan| && AllBuildable(plan)
    requires forall i :: 0 <= i < |plan| ==> Goes(plan[i], steps[i])
    ensures var events, exit := Deliver(plan, steps, fatal).0, Deliver(plan, steps, fatal).1;
      exit == Finished && |events| == |plan|
      && forall i :: 0 <= i < |plan| ==> Goes(plan[i], steps[i]) && events[i] == Published(plan[i], steps[i])
    decreases |plan|
  {
    if |plan| > 0 {
      var n := |plan| - 1;
      forall i | 0 <= i < n
        ensures Buildable(plan[..n][i]) && Goes(plan[..n][i], steps[i])
      {
        assert plan[..n][i] == plan[i];
      }
      DeliverAllReceived(plan[..n], steps, fatal);
      var before := Deliver(plan[..n], steps, fatal).0;
      var events := Deliver(plan, steps, fatal).0;
      assert events == before + [Published(plan[n], steps[n])];
      forall i | 0 <= i < |plan|
        ensures events[i] == Published(plan[i], steps[i])
      {
        if i < n {
          assert events[i] == before[i];
          assert plan[..n][i] == plan[i];
        }
      }
    }
  }

  /** A worker that only logs failed messages, and has no tick or panic to meet, always finishes. */
  lemma {:induction false} DeliverNonFatalFinishes(plan: seq<Emission>, steps: seq<Step>)
    requires |steps| >= |plan| && AllBuildable(plan) && AllPlain(plan)
    ensures Deliver(plan, steps, false).1 == Finished
    decreases |plan|
  {
    if |plan| > 0 {
      var n := |plan| - 1;
      assert forall i :: 0 <= i < n ==> plan[..n][i] == plan[i];
      DeliverNonFatalFinishes(plan[..n], steps);
    }
  }

  /**
   * With fatal failures, the length of what was published tells how far
   * the worker got: every step before it went through and was published,
   * and the step at that position ended the worker, with an error exactly
   * when it was a plain message.
   */
  lemma {:induction false} DeliverFatalLength(plan: seq<Emission>, steps: seq<Step>)
    requires |steps| >= |plan| && AllBuildable(plan)
    ensures var events, exit := Deliver(plan, steps, true).0, Deliver(plan, steps, true).1;
      |events| <= |plan|
      && (exit == Finished <==> |events| == |plan|)
      && (forall j :: 0 <= j < |events| ==> Goes(plan[j], steps[j]) && events[j] == Published(plan[j], steps[j]))
      && (!exit.Finished? ==> !Goes(plan[|events|], steps[|events|]))
      && (exit.Failed? <==> !exit.Finished? && Plain(plan[|events|]))
      && (exit.Failed? ==> exit.reason == plan[|events|].failReason)
    decreases |plan|
  {
    if |plan| > 0 {
      var n := |plan| - 1;
      assert forall i :: 0 <= i < n ==> plan[..n][i] == plan[i];
      DeliverFatalLength(plan[..n], steps);
      var (events, exit) := Deliver(plan[..n], steps, true);
      if !exit.Finished? {
        assert Deliver(plan, steps, true) == (events, exit);
      } else {
        assert Deliver(plan, steps, true) == Attempt(events, plan[n], steps[n], true);
        FatalLastStep(plan, steps, events);
      }
    }
  }

  /** The last step of a plan whose earlier steps all went through, with failures fatal. */
  lemma FatalLastStep(plan: seq<Emission>, steps: seq<Step>, events: seq<Message>)
    requires |plan| > 0 && |steps| >= |plan| && AllBuildable(plan) && |events| == |plan| - 1
    requires forall j :: 0 <= j < |events| ==> Goes(plan[j], steps[j]) && events[j] == Published(plan[j], steps[j])
    ensures var n := |plan| - 1;
      var events', exit := Attempt(events, plan[n], steps[n], true).0, Attempt(events, plan[n], steps[n], true).1;
      |events'| <= |plan|
      && (exit == Finished <==> |events'| == |plan|)
      && (forall j :: 0 <= j < |events'| ==> Goes(plan[j], steps[j]) && events'[j] == Published(plan[j], steps[j]))
      && (!exit.Finished? ==> !Goes(plan[|events'|], steps[|events'|]))
      && (exit.Failed? <==> !exit.Finished? && Plain(plan[|events'|]))
      && (exit.Failed? ==> exit.reason == plan[|events'|].failReason)
  {
  }

  /**
   * A worker whose failed messages are fatal ends early exactly when some
   * step does not go through; it then stops at the first such step, after
   * publishing everything before it, and returns that message's error when
   * it was a plain message and panics otherwise.
   */
  lemma DeliverFatalFailure(plan: seq<Emission>, steps: seq<Step>)
    requires |steps| >= |plan| && AllBuildable(plan)
    ensures var events, exit := Deliver(plan, steps, true).0, Deliver(plan, steps, true).1;
      (!exit.Finished? <==> exists i :: 0 <= i < |plan| && !Goes(plan[i], steps[i]))
      && (!exit.Finished? ==>
            var f := |events|;
            f < |plan| && !Goes(plan[f], steps[f]) && (forall j :: 0 <= j < f ==> Goes(plan[j], steps[j]))
            && (exit.Failed? <==> Plain(plan[f]))
            && (exit.Failed? ==> exit.reason == plan[f].failReason))
  {
    DeliverFatalLength(plan, steps);
  }

  /** The two announcements every worker makes before serving. */
  function Announcements(src: E.EmitSource): seq<Emission>
  {
    [Emission(Types.ModelStarted, src, None, PARSE_ERROR, false), Emission(Types.ModelLoaded, src, None, CLOSED, false)]
  }

  /** The answer to one instruction: a prediction from `src`, or the parse error from `errSrc`. */
  function Answer(predicted: Option<(E.EmitSource, string)>, errSrc: E.EmitSource): (e: Emission)
    ensures Plain(e)
  {
    match predicted
    case Some((src, v)) => Emission(Types.ModelPrediction, src, Some(v), CLOSED, false)
    case None => Emission(Types.ModelError, errSrc, Some(PARSE_ERROR), CLOSED, false)
  }

  /** A source that names its model and its task can publish every announcement and answer. */
  predicate Ready(src: E.EmitSource)
  {
    src.modelType.Some? && src.taskId.Some?
  }

  /** An announcement is published as the start or load message of the worker's own task. */
  lemma AnnouncementPublished(src: E.EmitSource, j: nat, st: Step)
    requires Ready(src) && j < 2
    ensures Buildable(Announcements(src)[j]) && Plain(Announcements(src)[j])
    ensures var m := Published(Announcements(src)[j], st);
      (if j == 0 then m.ModelStarted? else m.ModelLoaded?)
      && TaskIdOf(m) == src.taskId && m.owner == src.owner
  {
    var e := Announcements(src)[j];
    E.BuildContents(e.t, src, None, st.now, Published(e, st));
  }

  /**
   * When every step goes through, a worker whose plan opens with the two
   * announcements publishes them under its own source and then every
   * later message, in order.
   */
  lemma {:induction false} AnnouncedThenAnswered(src: E.EmitSource, plan: seq<Emission>, steps: seq<Step>, fatal: bool)
    requires Ready(src) && AllBuildable(plan)
    requires |plan| >= 2 && plan[0] == Announcements(src)[0] && plan[1] == Announcements(src)[1]
    requires |steps| >= |plan|
    requires forall i :: 0 <= i < |plan| ==> Goes(plan[i], steps[i])
    ensures var events, exit := Deliver(plan, steps, fatal).0, Deliver(plan, steps, fatal).1;
      exit == Finished && |events| == |plan|
      && events[0].ModelStarted? && events[1].ModelLoaded?
      && (forall i :: 0 <= i < 2 ==> TaskIdOf(events[i]) == src.taskId && events[i].owner == src.owner)
      && forall i :: 2 <= i < |plan| ==> Goes(plan[i], steps[i]) && events[i] == Published(plan[i], steps[i])
  {
    DeliverAllReceived(plan, steps, fatal);
    var events := Deliver(plan, steps, fatal).0;
    assert events[0] == Published(plan[0], steps[0]) && events[1] == Published(plan[1], steps[1]);
    AnnouncementPublished(src, 0, steps[0]);
    AnnouncementPublished(src, 1, steps[1]);
  }

  /** An answer from sources that name their model and task can always be published. */
  lemma AnswerBuildable(predicted: Option<(E.EmitSource, string)>, errSrc: E.EmitSource)
    requires predicted.Some? ==> Ready(predicted.value.0)
    requires Ready(errSrc)
    ensures Buildable(Answer(predicted, errSrc))
  {
  }

  /**
   * A published answer is a prediction carrying the model's output exactly
   * when there was one, and otherwise the parse error; each comes from the
   * source it was given.
   */
  lemma {:induction false} AnswerPublished(predicted: Option<(E.EmitSource, string)>, errSrc: E.EmitSource, st: Step)
    requires predicted.Some? ==> Ready(predicted.value.0)
    requires Ready(errSrc)
    ensures Buildable(Answer(predicted, errSrc))
    ensures var m := Published(Answer(predicted, errSrc), st);
      (m.ModelPrediction? <==> predicted.Some?) && (predicted.None? <==> m.ModelError?)
      && (predicted.Some? ==>
            m.value == predicted.value.1 && m.owner == predicted.value.0.owner
            && TaskIdOf(m) == predicted.value.0.taskId)
      && (predicted.None? ==>
            m.error == PARSE_ERROR && m.owner == errSrc.owner && TaskIdOf(m) == errSrc.taskId)
  {
    AnswerBuildable(predicted, errSrc);
    var e := Answer(predicted, errSrc);
    E.BuildContents(e.t, e.source, e.value, st.now, Published(e, st));
  }

  /**
   * A fatal worker that returns an error reports "Json Parse Error"
   * exactly when its very first announcement found no receiver, and the
   * bus's "channel closed" for any later message.
   */
  lemma {:induction false} FailureReason(src: E.EmitSource, plan: seq<Emission>, steps: seq<Step>)
    requires |steps| >= |plan| && AllBuildable(plan)
    requires |plan| >= 1 && plan[0] == Announcements(src)[0]
    requires forall i :: 1 <= i < |plan| && plan[i].Emission? ==> plan[i].failReason == CLOSED
    ensures var events, exit := Deliver(plan, steps, true).0, Deliver(plan, steps, true).1;
      exit.Failed? ==>
        (exit.reason == PARSE_ERROR <==> events == []) && (exit.reason == CLOSED <==> events != [])
  {
    DeliverFatalLength(plan, steps);
  }

  /**
   * A fatal worker that opens with its start announcement ends early
   * exactly when some step does not go through.  It returns "Json Parse
   * Error" when that was the start announcement and the bus's "channel
   * closed" when it was a later plain message; it panics exactly when the
   * first such step is a tick or a panic of the model.
   */
  lemma FatalFailure(src: E.EmitSource, plan: seq<Emission>, steps: seq<Step>)
    requires |steps| >= |plan| && AllBuildable(plan)
    requires |plan| >= 1 && plan[0] == Announcements(src)[0]
    requires forall i :: 1 <= i < |plan| && plan[i].Emission? ==> plan[i].failReason == CLOSED
    ensures var events, exit := Deliver(plan, steps, true).0, Deliver(plan, steps, true).1;
      (!exit.Finished? <==> exists i :: 0 <= i < |plan| && !Goes(plan[i], steps[i]))
      && (exit.Failed? ==> (exit.reason == PARSE_ERROR <==> !steps[0].receivers))
      && (exit.Failed? ==> (exit.reason == CLOSED <==> steps[0].receivers))
      && (!exit.Finished? ==> |events| < |plan| && (exit.Panicked? <==> !Plain(plan[|events|])))
      && (AllPlain(plan) ==> !exit.Panicked?)
  {
    DeliverFatalFailure(plan, steps);
    FailureReason(src, plan, steps);
  }
}
