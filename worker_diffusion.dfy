/**
 * The diffusion worker: every failed emission ends it. Each prediction
 * publishes the scheduler's progress ticks on the worker's own bus and the
 * worker then answers with the JSON list of image paths; a tick nobody
 * hears, a prompt the text encoder refuses and a pipe error each panic it.
 */
module DiffusionWorker {
  import opened Wrappers
  import Types
  import I = Instruction
  import opened Message
  import E = Emit
  import opened Worker
  import Text
  import Pipe
  import T = Ticks

  /** The JSON input a diffusion instruction carries (i64 fields as integers). */
  datatype Input = Input(prompt: string, seed: int, height: int, width: int)

  /**
   * How the model's prediction ends: the text encoder refuses the prompt
   * (a panic before any denoising step), the pipe fails to save the image
   * after denoising (a panic on its error), or the paths of the images saved.
   */
  datatype Prediction = PromptRefused | PipeFailed | Images(paths: seq<string>)

  /** The number of denoising steps of the model's pipe, as configured by default. */
  const STEPS: nat := Pipe.Default(Pipe.Cpu).steps

  /**
   * The ticks of one prediction: tick 0 before the first timestep and tick
   * `k + 1` after timestep `k`, each out of the pipe's 30 steps.
   */
  function Progress(): (ts: seq<Emission>)
    ensures STEPS == 30 && |ts| == STEPS + 1
    ensures forall k :: 0 <= k < |ts| ==> ts[k] == Tick(Types.SchedulerStep, k, STEPS)
  {
    TickSteps(Types.SchedulerStep, 0, STEPS + 1, STEPS)
  }

  /** The steps one instruction leads to, published from the task's own source. */
  function Block(src: E.EmitSource, p: I.Process, parse: string -> Option<Input>,
                 predict: (string, int, int, int) -> Prediction): seq<Emission>
  {
    match parse(p.jsonInput)
    case None => [Answer(None, src)]
    case Some(x) =>
      match predict(x.prompt, x.seed, x.height, x.width)
      case PromptRefused => [Crash]
      case PipeFailed => Progress() + [Crash]
      case Images(paths) => Progress() + [Answer(Some((src, Text.JsonStringArray(paths))), src)]
  }

  /** The blocks of the instructions of the channel, in order. */
  function BlockList(src: E.EmitSource, rx: seq<I.Process>, parse: string -> Option<Input>,
                     predict: (string, int, int, int) -> Prediction): (bs: seq<seq<Emission>>)
    ensures |bs| == |rx| && forall k :: 0 <= k < |rx| ==> bs[k] == Block(src, rx[k], parse, predict)
  {
    seq(|rx|, k requires 0 <= k < |rx| => Block(src, rx[k], parse, predict))
  }

  /** Every step can be published, reports the bus's error when it fails, and is a tick exactly when it is a scheduler step. */
  predicate WellFormed(e: Emission)
  {
    Buildable(e) && (e.Emission? ==> e.failReason == CLOSED && (e.tick <==> e.t == Types.SchedulerStep))
  }

  lemma BlockWellFormed(src: E.EmitSource, p: I.Process, parse: string -> Option<Input>,
                        predict: (string, int, int, int) -> Prediction)
    requires Ready(src)
    ensures forall j :: 0 <= j < |Block(src, p, parse, predict)| ==> WellFormed(Block(src, p, parse, predict)[j])
  {
    var b := Block(src, p, parse, predict);
    match parse(p.jsonInput)
    case None =>
      AnswerBuildable(None, src);
    case Some(x) =>
      match predict(x.prompt, x.seed, x.height, x.width)
      case PromptRefused =>
      case PipeFailed =>
      case Images(paths) =>
        AnswerBuildable(Some((src, Text.JsonStringArray(paths))), src);
        assert b[|b| - 1] == Answer(Some((src, Text.JsonStringArray(paths))), src);
  }

  /** Everything the worker does, in order: the announcements, then each instruction's block. */
  function Plan(source: E.EmitSource, selfId: string, rx: seq<I.Process>,
                parse: string -> Option<Input>, predict: (string, int, int, int) -> Prediction): (plan: seq<Emission>)
    requires source.modelType.Some?
    ensures |plan| >= 2 && AllBuildable(plan)
    ensures plan[..2] == Announcements(E.SetTaskId(source, selfId))
    ensures plan[2..] == Blocks(BlockList(E.SetTaskId(source, selfId), rx, parse, predict))
    ensures forall i :: 1 <= i < |plan| && plan[i].Emission? ==> plan[i].failReason == CLOSED
    ensures forall i :: 0 <= i < |plan| && plan[i].Emission? ==> (plan[i].tick <==> plan[i].t == Types.SchedulerStep)
  {
    var src := E.SetTaskId(source, selfId);
    var bs: seq<seq<Emission>> := BlockList(src, rx, parse, predict);
    forall k | 0 <= k < |bs| {
      BlockWellFormed(src, rx[k], parse, predict);
    }
    BlocksEvery(bs, WellFormed);
    Announcements(src) + Blocks(bs)
  }

  /**
   * The worker task: name the source after the task, announce, then handle
   * every instruction of the channel; the first failed emission ends it.
   */
  method Run(rx: seq<I.Process>, source: E.EmitSource, selfId: string,
             parse: string -> Option<Input>, predict: (string, int, int, int) -> Prediction, steps: seq<Step>)
    returns (events: seq<Message>, exit: Exit)
    requires source.modelType.Some?
    requires |steps| >= |Plan(source, selfId, rx, parse, predict)|
    ensures (events, exit) == Deliver(Plan(source, selfId, rx, parse, predict), steps, true)
  {
    ghost var plan := Plan(source, selfId, rx, parse, predict);
    var src := E.SetTaskId(source, selfId);
    var announce := Announcements(src);
    assert plan[..0] == [];
    events, exit := Next(plan, steps, true, 0, [], announce[0]);
    if !exit.Finished? {
      return;
    }
    events, exit := Next(plan, steps, true, 1, events, announce[1]);
    if !exit.Finished? {
      return;
    }
    ghost var blocks := BlockList(src, rx, parse, predict);
    events, exit := Serve(plan, steps, true, rx, p => Block(src, p, parse, predict), blocks, events);
  }

  /** The prediction of the decoded input of `instr`. */
  function PredictionOf(instr: I.Process, parse: string -> Option<Input>,
                        predict: (string, int, int, int) -> Prediction): Prediction
    requires parse(instr.jsonInput).Some?
  {
    var x := parse(instr.jsonInput).value;
    predict(x.prompt, x.seed, x.height, x.width)
  }

  /** Every decodable instruction of the channel gets its images saved. */
  predicate Succeeds(rx: seq<I.Process>, parse: string -> Option<Input>, predict: (string, int, int, int) -> Prediction)
  {
    forall k :: 0 <= k < |rx| && parse(rx[k].jsonInput).Some? ==> PredictionOf(rx[k], parse, predict).Images?
  }

  /**
   * What `instr` led to on the bus from position `o` on: when its input
   * decodes, the 31 scheduler ticks (0 to 30 out of 30, each with the clock
   * of its own step) and then the JSON array of the image paths; otherwise
   * the parse error. Replies come under the task's own id and its spawner's owner.
   */
  predicate Handled(events: seq<Message>, steps: seq<Step>, o: nat, source: E.EmitSource, selfId: string,
                    instr: I.Process, parse: string -> Option<Input>, predict: (string, int, int, int) -> Prediction)
  {
    if parse(instr.jsonInput).Some? then
      var r := o + STEPS + 1;
      r < |events| && r <= |steps|
      && events[o..r] == T.TickRun(Types.SchedulerStep, 0, STEPS, steps[o..r])
      && PredictionOf(instr, parse, predict).Images?
      && events[r].ModelPrediction? && TaskIdOf(events[r]) == Some(selfId) && events[r].owner == source.owner
      && events[r].value == Text.JsonStringArray(PredictionOf(instr, parse, predict).paths)
    else
      o < |events| && events[o].ModelError? && events[o].error == PARSE_ERROR
      && TaskIdOf(events[o]) == Some(selfId) && events[o].owner == source.owner
  }

  /** Under `Succeeds`, no step of the plan is a panic. */
  lemma NoCrash(source: E.EmitSource, selfId: string, rx: seq<I.Process>,
                parse: string -> Option<Input>, predict: (string, int, int, int) -> Prediction)
    requires source.modelType.Some? && Succeeds(rx, parse, predict)
    ensures forall i :: 0 <= i < |Plan(source, selfId, rx, parse, predict)| ==> Plan(source, selfId, rx, parse, predict)[i].Emission?
  {
    var src := E.SetTaskId(source, selfId);
    var bs: seq<seq<Emission>> := BlockList(src, rx, parse, predict);
    var plan := Plan(source, selfId, rx, parse, predict);
    forall k: nat, j: nat | k < |bs| && j < |bs[k]|
      ensures bs[k][j].Emission?
    {
      if parse(rx[k].jsonInput).Some? {
        assert PredictionOf(rx[k], parse, predict).Images?;
      }
    }
    BlocksEvery(bs, (e: Emission) => e.Emission?);
    forall i | 0 <= i < |plan|
      ensures plan[i].Emission?
    {
      if i >= 2 {
        assert plan[i] == Blocks(bs)[i - 2];
      }
    }
  }

  /** The messages of one instruction's block at position `o` of a plan, when each of its steps went through. */
  lemma HandledBlock(source: E.EmitSource, selfId: string, instr: I.Process,
                     parse: string -> Option<Input>, predict: (string, int, int, int) -> Prediction,
                     b: seq<Emission>, plan: seq<Emission>, steps: seq<Step>, events: seq<Message>, o: nat)
    requires source.modelType.Some?
    requires parse(instr.jsonInput).Some? ==> PredictionOf(instr, parse, predict).Images?
    requires b == Block(E.SetTaskId(source, selfId), instr, parse, predict)
    requires |steps| >= |plan| && |events| == |plan| && AllBuildable(plan)
    requires o + |b| <= |plan| && plan[o..o + |b|] == b
    requires PublishedFrom(plan, steps, events, o)
    ensures Handled(events, steps, o, source, selfId, instr, parse, predict)
  {
    var src := E.SetTaskId(source, selfId);
    assert plan[o] == b[0];
    match parse(instr.jsonInput)
    case None =>
      HandledError(source, selfId, instr, parse, predict, plan, steps, events, o);
    case Some(x) =>
      var answer := Answer(Some((src, Text.JsonStringArray(PredictionOf(instr, parse, predict).paths))), src);
      assert b == Progress() + [answer];
      assert plan[o..o + STEPS + 1] == b[..STEPS + 1];
      assert plan[o + STEPS + 1] == b[STEPS + 1];
      HandledReply(source, selfId, instr, parse, predict, plan, steps, events, o);
  }

  /** The parse error, once its step went through. */
  lemma HandledError(source: E.EmitSource, selfId: string, instr: I.Process,
                     parse: string -> Option<Input>, predict: (string, int, int, int) -> Prediction,
                     plan: seq<Emission>, steps: seq<Step>, events: seq<Message>, o: nat)
    requires source.modelType.Some? && parse(instr.jsonInput).None?
    requires o < |plan| <= |steps| && |events| == |plan| && Buildable(plan[o])
    requires plan[o] == Answer(None, E.SetTaskId(source, selfId))
    requires Goes(plan[o], steps[o]) && events[o] == Published(plan[o], steps[o])
    ensures Handled(events, steps, o, source, selfId, instr, parse, predict)
  {
    AnswerPublished(None, E.SetTaskId(source, selfId), steps[o]);
  }

  /** The scheduler ticks and the image paths, once their steps went through. */
  lemma HandledReply(source: E.EmitSource, selfId: string, instr: I.Process,
                     parse: string -> Option<Input>, predict: (string, int, int, int) -> Prediction,
                     plan: seq<Emission>, steps: seq<Step>, events: seq<Message>, o: nat)
    requires source.modelType.Some? && parse(instr.jsonInput).Some? && PredictionOf(instr, parse, predict).Images?
    requires o + STEPS + 1 < |plan| <= |steps| && |events| == |plan| && AllBuildable(plan)
    requires plan[o..o + STEPS + 1] == Progress()
    requires plan[o + STEPS + 1] == Answer(Some((E.SetTaskId(source, selfId), Text.JsonStringArray(PredictionOf(instr, parse, predict).paths))),
                                           E.SetTaskId(source, selfId))
    requires PublishedFrom(plan, steps, events, o)
    ensures Handled(events, steps, o, source, selfId, instr, parse, predict)
  {
    var src := E.SetTaskId(source, selfId);
    TicksPublished(Types.SchedulerStep, 0, STEPS + 1, STEPS, plan, steps, events, o);
    AnswerPublished(Some((src, Text.JsonStringArray(PredictionOf(instr, parse, predict).paths))), src, steps[o + STEPS + 1]);
  }

  /** Every instruction's block, once every step after the announcements went through. */
  lemma EachHandled(source: E.EmitSource, selfId: string, rx: seq<I.Process>,
                    parse: string -> Option<Input>, predict: (string, int, int, int) -> Prediction,
                    bs: seq<seq<Emission>>, plan: seq<Emission>, steps: seq<Step>, events: seq<Message>)
    requires source.modelType.Some? && Succeeds(rx, parse, predict)
    requires bs == BlockList(E.SetTaskId(source, selfId), rx, parse, predict)
    requires |plan| >= 2 && plan[2..] == Blocks(bs) && PublishedFrom(plan, steps, events, 2)
    ensures forall k :: 0 <= k < |rx| ==>
      |Blocks(bs[..k + 1])| == |Blocks(bs[..k])| + (if parse(rx[k].jsonInput).Some? then STEPS + 2 else 1)
      && Handled(events, steps, 2 + |Blocks(bs[..k])|, source, selfId, rx[k], parse, predict)
  {
    forall k | 0 <= k < |rx|
      ensures |Blocks(bs[..k + 1])| == |Blocks(bs[..k])| + (if parse(rx[k].jsonInput).Some? then STEPS + 2 else 1)
      ensures Handled(events, steps, 2 + |Blocks(bs[..k])|, source, selfId, rx[k], parse, predict)
    {
      BlockListAt(E.SetTaskId(source, selfId), rx, parse, predict, k);
      SucceedsAt(rx, parse, predict, k);
      OneHandled(source, selfId, rx, parse, predict, bs, plan, steps, events, k);
    }
  }

  /** The `k`-th block of the channel is instruction `k`'s. */
  lemma BlockListAt(src: E.EmitSource, rx: seq<I.Process>, parse: string -> Option<Input>,
                    predict: (string, int, int, int) -> Prediction, k: nat)
    requires k < |rx|
    ensures |BlockList(src, rx, parse, predict)| == |rx|
    ensures BlockList(src, rx, parse, predict)[k] == Block(src, rx[k], parse, predict)
  {
  }

  /** Under `Succeeds`, instruction `k`'s prediction does not fail once its input decodes. */
  lemma SucceedsAt(rx: seq<I.Process>, parse: string -> Option<Input>, predict: (string, int, int, int) -> Prediction, k: nat)
    requires Succeeds(rx, parse, predict) && k < |rx|
    ensures parse(rx[k].jsonInput).Some? ==> PredictionOf(rx[k], parse, predict).Images?
  {
  }

  /** The block of instruction `k`, once every step after the announcements went through. */
  lemma OneHandled(source: E.EmitSource, selfId: string, rx: seq<I.Process>,
                   parse: string -> Option<Input>, predict: (string, int, int, int) -> Prediction,
                   bs: seq<seq<Emission>>, plan: seq<Emission>, steps: seq<Step>, events: seq<Message>, k: nat)
    requires source.modelType.Some? && k < |rx|
    requires parse(rx[k].jsonInput).Some? ==> PredictionOf(rx[k], parse, predict).Images?
    requires |bs| == |rx| && bs[k] == Block(E.SetTaskId(source, selfId), rx[k], parse, predict)
    requires |plan| >= 2 && plan[2..] == Blocks(bs) && PublishedFrom(plan, steps, events, 2)
    ensures |Blocks(bs[..k + 1])| == |Blocks(bs[..k])| + (if parse(rx[k].jsonInput).Some? then STEPS + 2 else 1)
    ensures Handled(events, steps, 2 + |Blocks(bs[..k])|, source, selfId, rx[k], parse, predict)
  {
    BlockLength(E.SetTaskId(source, selfId), rx[k], parse, predict);
    PlanBlock(plan, bs, k);
    var o := 2 + |Blocks(bs[..k])|;
    PublishedLater(plan, steps, events, 2, o);
    HandledBlock(source, selfId, rx[k], parse, predict, bs[k], plan, steps, events, o);
  }

  /** One instruction's block: the scheduler ticks and the reply when its input decodes, otherwise the parse error alone. */
  lemma BlockLength(src: E.EmitSource, instr: I.Process, parse: string -> Option<Input>,
                    predict: (string, int, int, int) -> Prediction)
    requires parse(instr.jsonInput).Some? ==> PredictionOf(instr, parse, predict).Images?
    ensures |Block(src, instr, parse, predict)| == if parse(instr.jsonInput).Some? then STEPS + 2 else 1
  {
  }

  /**
   * With receivers throughout and every prediction saving its images, the
   * worker finishes after publishing its start and load announcements and
   * then, instruction after instruction, the 31 scheduler ticks and the
   * image paths for an input that decodes, or the parse error: 32 messages
   * or one per instruction, with nothing in between.
   */
  lemma {:induction false} Serves(source: E.EmitSource, selfId: string, rx: seq<I.Process>,
               parse: string -> Option<Input>, predict: (string, int, int, int) -> Prediction, steps: seq<Step>)
    requires source.modelType.Some? && Succeeds(rx, parse, predict)
    requires |steps| >= |Plan(source, selfId, rx, parse, predict)|
    requires forall i :: 0 <= i < |Plan(source, selfId, rx, parse, predict)| ==> steps[i].receivers
    ensures Deliver(Plan(source, selfId, rx, parse, predict), steps, true).1 == Finished
    ensures var events, bs := Deliver(Plan(source, selfId, rx, parse, predict), steps, true).0,
                              BlockList(E.SetTaskId(source, selfId), rx, parse, predict);
      |events| == |Plan(source, selfId, rx, parse, predict)| == 2 + |Blocks(bs)|
      && events[0].ModelStarted? && events[1].ModelLoaded?
      && (forall i :: 0 <= i < 2 ==> TaskIdOf(events[i]) == Some(selfId) && events[i].owner == source.owner)
      && (forall k :: 0 <= k < |rx| ==>
            |Blocks(bs[..k + 1])| == |Blocks(bs[..k])| + (if parse(rx[k].jsonInput).Some? then STEPS + 2 else 1))
      && forall k :: 0 <= k < |rx| ==> Handled(events, steps, 2 + |Blocks(bs[..k])|, source, selfId, rx[k], parse, predict)
  {
    var src := E.SetTaskId(source, selfId);
    var plan := Plan(source, selfId, rx, parse, predict);
    var bs: seq<seq<Emission>> := BlockList(src, rx, parse, predict);
    NoCrash(source, selfId, rx, parse, predict);
    AnnouncedThenAnswered(src, plan, steps, true);
    var events := Deliver(plan, steps, true).0;
    EachHandled(source, selfId, rx, parse, predict, bs, plan, steps, events);
  }

  /**
   * The worker stops early exactly when some step does not go through. It
   * then panics exactly when that step is a panic of the model or a
   * scheduler tick nobody hears; otherwise it ends with "Json Parse Error"
   * when that was its start announcement and "channel closed" otherwise.
   */
  lemma Fails(source: E.EmitSource, selfId: string, rx: seq<I.Process>,
              parse: string -> Option<Input>, predict: (string, int, int, int) -> Prediction, steps: seq<Step>)
    requires source.modelType.Some?
    requires |steps| >= |Plan(source, selfId, rx, parse, predict)|
    ensures var plan := Plan(source, selfId, rx, parse, predict);
      var events, exit := Deliver(plan, steps, true).0, Deliver(plan, steps, true).1;
      (!exit.Finished? <==> exists i :: 0 <= i < |plan| && !Goes(plan[i], steps[i]))
      && (exit.Failed? ==> (exit.reason == PARSE_ERROR <==> !steps[0].receivers))
      && (exit.Failed? ==> (exit.reason == CLOSED <==> steps[0].receivers))
      && (!exit.Finished? ==>
            |events| < |plan| && (exit.Panicked? <==> plan[|events|].Crash? || plan[|events|].t == Types.SchedulerStep))
  {
    var src := E.SetTaskId(source, selfId);
    var plan := Plan(source, selfId, rx, parse, predict);
    FatalFailure(src, plan, steps);
  }
}
