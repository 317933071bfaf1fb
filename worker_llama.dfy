/**
 * The Llama worker: every failed emission ends it. Each prediction
 * publishes one progress tick per generated token on the worker's own bus
 * and the worker then answers with the generated text; a tick nobody hears
 * and a prompt the tokenizer refuses each panic it.
 */
module LlamaWorker {
  import opened Wrappers
  import Types
  import I = Instruction
  import opened Message
  import E = Emit
  import opened Worker
  import T = Ticks

  /** The JSON input a Llama instruction carries; the temperature is kept as its exact value. */
  datatype Input = Input(prompt: string, sampleLen: nat, temperature: real)

  /** How the model's prediction ends: the tokenizer refuses the prompt (a panic before any token), or the text generated. */
  datatype Prediction = PromptRefused | Generated(text: string)

  /** The ticks of one prediction of `n` tokens: tick `k + 1` out of `n` after the `k`-th token. */
  function Progress(n: nat): (ts: seq<Emission>)
    ensures |ts| == n
    ensures forall k :: 0 <= k < n ==> ts[k] == Tick(Types.LlamaTokenGen, k + 1, n)
  {
    TickSteps(Types.LlamaTokenGen, 1, n, n)
  }

  /** The steps one instruction leads to, published from the task's own source. */
  function Block(src: E.EmitSource, p: I.Process, parse: string -> Option<Input>,
                 predict: (string, nat, real) -> Prediction): seq<Emission>
  {
    match parse(p.jsonInput)
    case None => [Answer(None, src)]
    case Some(x) =>
      match predict(x.prompt, x.sampleLen, x.temperature)
      case PromptRefused => [Crash]
      case Generated(text) => Progress(x.sampleLen) + [Answer(Some((src, text)), src)]
  }

  /** The blocks of the instructions of the channel, in order. */
  function BlockList(src: E.EmitSource, rx: seq<I.Process>, parse: string -> Option<Input>,
                     predict: (string, nat, real) -> Prediction): (bs: seq<seq<Emission>>)
    ensures |bs| == |rx| && forall k :: 0 <= k < |rx| ==> bs[k] == Block(src, rx[k], parse, predict)
  {
    seq(|rx|, k requires 0 <= k < |rx| => Block(src, rx[k], parse, predict))
  }

  /** Every step can be published, reports the bus's error when it fails, and is a tick exactly when it is a token tick. */
  predicate WellFormed(e: Emission)
  {
    Buildable(e) && (e.Emission? ==> e.failReason == CLOSED && (e.tick <==> e.t == Types.LlamaTokenGen))
  }

  lemma BlockWellFormed(src: E.EmitSource, p: I.Process, parse: string -> Option<Input>,
                        predict: (string, nat, real) -> Prediction)
    requires Ready(src)
    ensures forall j :: 0 <= j < |Block(src, p, parse, predict)| ==> WellFormed(Block(src, p, parse, predict)[j])
  {
    var b := Block(src, p, parse, predict);
    match parse(p.jsonInput)
    case None =>
      AnswerBuildable(None, src);
    case Some(x) =>
      match predict(x.prompt, x.sampleLen, x.temperature)
      case PromptRefused =>
      case Generated(text) =>
        AnswerBuildable(Some((src, text)), src);
        assert b[|b| - 1] == Answer(Some((src, text)), src);
  }

  /** Everything the worker does, in order: the announcements, then each instruction's block. */
  function Plan(source: E.EmitSource, selfId: string, rx: seq<I.Process>,
                parse: string -> Option<Input>, predict: (string, nat, real) -> Prediction): (plan: seq<Emission>)
    requires source.modelType.Some?
    ensures |plan| >= 2 && AllBuildable(plan)
    ensures plan[..2] == Announcements(E.SetTaskId(source, selfId))
    ensures plan[2..] == Blocks(BlockList(E.SetTaskId(source, selfId), rx, parse, predict))
    ensures forall i :: 1 <= i < |plan| && plan[i].Emission? ==> plan[i].failReason == CLOSED
    ensures forall i :: 0 <= i < |plan| && plan[i].Emission? ==> (plan[i].tick <==> plan[i].t == Types.LlamaTokenGen)
  {
    var src := E.SetTaskId(source, selfId);
    var bs: seq<seq<Emission>> := BlockList(src, rx, parse, predict);
    forall k | 0 <= k < |bs| {
      BlockWellFormed(src, rx[k], parse, predict);
    }
    BlocksEvery(bs, WellFormed);
    Announcements(src) + Blocks(bs)
  }

  /**
   * The worker task: name the source after the task, announce, then handle
   * every instruction of the channel; the first failed emission ends it.
   */
  method Run(rx: seq<I.Process>, source: E.EmitSource, selfId: string,
             parse: string -> Option<Input>, predict: (string, nat, real) -> Prediction, steps: seq<Step>)
    returns (events: seq<Message>, exit: Exit)
    requires source.modelType.Some?
    requires |steps| >= |Plan(source, selfId, rx, parse, predict)|
    ensures (events, exit) == Deliver(Plan(source, selfId, rx, parse, predict), steps, true)
  {
    ghost var plan := Plan(source, selfId, rx, parse, predict);
    var src := E.SetTaskId(source, selfId);
    var announce := Announcements(src);
    assert plan[..0] == [];
    events, exit := Next(plan, steps, true, 0, [], announce[0]);
    if !exit.Finished? {
      return;
    }
    events, exit := Next(plan, steps, true, 1, events, announce[1]);
    if !exit.Finished? {
      return;
    }
    ghost var blocks := BlockList(src, rx, parse, predict);
    events, exit := Serve(plan, steps, true, rx, p => Block(src, p, parse, predict), blocks, events);
  }

  /** The prediction of the decoded input of `instr`. */
  function PredictionOf(instr: I.Process, parse: string -> Option<Input>,
                        predict: (string, nat, real) -> Prediction): Prediction
    requires parse(instr.jsonInput).Some?
  {
    var x := parse(instr.jsonInput).value;
    predict(x.prompt, x.sampleLen, x.temperature)
  }

  /** The tokenizer accepts the prompt of every decodable instruction of the channel. */
  predicate Succeeds(rx: seq<I.Process>, parse: string -> Option<Input>, predict: (string, nat, real) -> Prediction)
  {
    forall k :: 0 <= k < |rx| && parse(rx[k].jsonInput).Some? ==> PredictionOf(rx[k], parse, predict).Generated?
  }

  /**
   * What `instr` led to on the bus from position `o` on: when its input
   * decodes, one token tick per requested token (1 to `sampleLen` out of
   * `sampleLen`, each with the clock of its own step) and then the generated
   * text; otherwise the parse error. Replies come under the task's own id
   * and its spawner's owner.
   */
  predicate Handled(events: seq<Message>, steps: seq<Step>, o: nat, source: E.EmitSource, selfId: string,
                    instr: I.Process, parse: string -> Option<Input>, predict: (string, nat, real) -> Prediction)
  {
    if parse(instr.jsonInput).Some? then
      var n := parse(instr.jsonInput).value.sampleLen;
      o + n < |events| && o + n <= |steps|
      && events[o..o + n] == T.TickRun(Types.LlamaTokenGen, 1, n, steps[o..o + n])
      && PredictionOf(instr, parse, predict).Generated?
      && events[o + n].ModelPrediction? && TaskIdOf(events[o + n]) == Some(selfId) && events[o + n].owner == source.owner
      && events[o + n].value == PredictionOf(instr, parse, predict).text
    else
      o < |events| && events[o].ModelError? && events[o].error == PARSE_ERROR
      && TaskIdOf(events[o]) == Some(selfId) && events[o].owner == source.owner
  }

  /** Under `Succeeds`, no step of the plan is a panic. */
  lemma NoCrash(source: E.EmitSource, selfId: string, rx: seq<I.Process>,
                parse: string -> Option<Input>, predict: (string, nat, real) -> Prediction)
    requires source.modelType.Some? && Succeeds(rx, parse, predict)
    ensures forall i :: 0 <= i < |Plan(source, selfId, rx, parse, predict)| ==> Plan(source, selfId, rx, parse, predict)[i].Emission?
  {
    var src := E.SetTaskId(source, selfId);
    var bs: seq<seq<Emission>> := BlockList(src, rx, parse, predict);
    var plan := Plan(source, selfId, rx, parse, predict);
    forall k: nat, j: nat | k < |bs| && j < |bs[k]|
      ensures bs[k][j].Emission?
    {
      if parse(rx[k].jsonInput).Some? {
        assert PredictionOf(rx[k], parse, predict).Generated?;
      }
    }
    BlocksEvery(bs, (e: Emission) => e.Emission?);
    forall i | 0 <= i < |plan|
      ensures plan[i].Emission?
    {
      if i >= 2 {
        assert plan[i] == Blocks(bs)[i - 2];
      }
    }
  }

  /** The ticks opening a block found at position `o` of a plan. */
  lemma TicksAt(plan: seq<Emission>, b: seq<Emission>, o: nat, n: nat)
    requires |b| == n + 1 && b[..n] == Progress(n)
    requires o + |b| <= |plan| && plan[o..o + |b|] == b
    ensures plan[o..o + n] == TickSteps(Types.LlamaTokenGen, 1, n, n)
  {
    assert plan[o..o + n] == plan[o..o + |b|][..n];
  }

  /** The messages of one instruction's block at position `o` of a plan, when each of its steps went through. */
  lemma HandledBlock(source: E.EmitSource, selfId: string, instr: I.Process,
                     parse: string -> Option<Input>, predict: (string, nat, real) -> Prediction,
                     b: seq<Emission>, plan: seq<Emission>, steps: seq<Step>, events: seq<Message>, o: nat)
    requires source.modelType.Some?
    requires parse(instr.jsonInput).Some? ==> PredictionOf(instr, parse, predict).Generated?
    requires b == Block(E.SetTaskId(source, selfId), instr, parse, predict)
    requires |steps| >= |plan| && |events| == |plan| && AllBuildable(plan)
    requires o + |b| <= |plan| && plan[o..o + |b|] == b
    requires PublishedFrom(plan, steps, events, o)
    ensures Handled(events, steps, o, source, selfId, instr, parse, predict)
  {
    if parse(instr.jsonInput).None? {
      assert plan[o] == b[0];
      HandledError(source, selfId, instr, parse, predict, plan, steps, events, o);
    } else {
      HandledGenerated(source, selfId, instr, parse, predict, b, plan, steps, events, o);
    }
  }

  /** The block of an instruction whose input decodes, at position `o` of a plan, when each of its steps went through. */
  lemma HandledGenerated(source: E.EmitSource, selfId: string, instr: I.Process,
                         parse: string -> Option<Input>, predict: (string, nat, real) -> Prediction,
                         b: seq<Emission>, plan: seq<Emission>, steps: seq<Step>, events: seq<Message>, o: nat)
    requires source.modelType.Some?
    requires parse(instr.jsonInput).Some? && PredictionOf(instr, parse, predict).Generated?
    requires b == Block(E.SetTaskId(source, selfId), instr, parse, predict)
    requires |steps| >= |plan| && |events| == |plan| && AllBuildable(plan)
    requires o + |b| <= |plan| && plan[o..o + |b|] == b
    requires PublishedFrom(plan, steps, events, o)
    ensures Handled(events, steps, o, source, selfId, instr, parse, predict)
  {
    var src := E.SetTaskId(source, selfId);
    var n := parse(instr.jsonInput).value.sampleLen;
    var answer := Answer(Some((src, PredictionOf(instr, parse, predict).text)), src);
    assert b == Progress(n) + [answer];
    TicksAt(plan, b, o, n);
    assert plan[o + n] == b[n];
    HandledReply(source, selfId, instr, parse, predict, plan, steps, events, o);
  }

  /** The parse error, once its step went through. */
  lemma HandledError(source: E.EmitSource, selfId: string, instr: I.Process,
                     parse: string -> Option<Input>, predict: (string, nat, real) -> Prediction,
                     plan: seq<Emission>, steps: seq<Step>, events: seq<Message>, o: nat)
    requires source.modelType.Some? && parse(instr.jsonInput).None?
    requires o < |plan| <= |steps| && |events| == |plan| && Buildable(plan[o])
    requires plan[o] == Answer(None, E.SetTaskId(source, selfId))
    requires Goes(plan[o], steps[o]) && events[o] == Published(plan[o], steps[o])
    ensures Handled(events, steps, o, source, selfId, instr, parse, predict)
  {
    AnswerPublished(None, E.SetTaskId(source, selfId), steps[o]);
  }

  /** The token ticks and the generated text, once their steps went through. */
  lemma HandledReply(source: E.EmitSource, selfId: string, instr: I.Process,
                     parse: string -> Option<Input>, predict: (string, nat, real) -> Prediction,
                     plan: seq<Emission>, steps: seq<Step>, events: seq<Message>, o: nat)
    requires source.modelType.Some? && parse(instr.jsonInput).Some? && PredictionOf(instr, parse, predict).Generated?
    requires var n := parse(instr.jsonInput).value.sampleLen;
      o + n < |plan| <= |steps| && |events| == |plan| && AllBuildable(plan)
      && plan[o..o + n] == TickSteps(Types.LlamaTokenGen, 1, n, n)
      && plan[o + n] == Answer(Some((E.SetTaskId(source, selfId), PredictionOf(instr, parse, predict).text)), E.SetTaskId(source, selfId))
    requires PublishedFrom(plan, steps, events, o)
    ensures Handled(events, steps, o, source, selfId, instr, parse, predict)
  {
    var n := parse(instr.jsonInput).value.sampleLen;
    var src := E.SetTaskId(source, selfId);
    TicksPublished(Types.LlamaTokenGen, 1, n, n, plan, steps, events, o);
    AnswerPublished(Some((src, PredictionOf(instr, parse, predict).text)), src, steps[o + n]);
  }

  /** Every instruction's block, once every step after the announcements went through. */
  lemma EachHandled(source: E.EmitSource, selfId: string, rx: seq<I.Process>,
                    parse: string -> Option<Input>, predict: (string, nat, real) -> Prediction,
                    bs: seq<seq<Emission>>, plan: seq<Emission>, steps: seq<Step>, events: seq<Message>)
    requires source.modelType.Some? && Succeeds(rx, parse, predict)
    requires bs == BlockList(E.SetTaskId(source, selfId), rx, parse, predict)
    requires |plan| >= 2 && plan[2..] == Blocks(bs) && PublishedFrom(plan, steps, events, 2)
    ensures forall k :: 0 <= k < |rx| ==>
      |Blocks(bs[..k + 1])| == |Blocks(bs[..k])| + (if parse(rx[k].jsonInput).Some? then parse(rx[k].jsonInput).value.sampleLen + 1 else 1)
      && Handled(events, steps, 2 + |Blocks(bs[..k])|, source, selfId, rx[k], parse, predict)
  {
    forall k | 0 <= k < |rx|
      ensures |Blocks(bs[..k + 1])| == |Blocks(bs[..k])| + (if parse(rx[k].jsonInput).Some? then parse(rx[k].jsonInput).value.sampleLen + 1 else 1)
      ensures Handled(events, steps, 2 + |Blocks(bs[..k])|, source, selfId, rx[k], parse, predict)
    {
      BlockListAt(E.SetTaskId(source, selfId), rx, parse, predict, k);
      SucceedsAt(rx, parse, predict, k);
      OneHandled(source, selfId, rx, parse, predict, bs, plan, steps, events, k);
    }
  }

  /** The `k`-th block of the channel is instruction `k`'s. */
  lemma BlockListAt(src: E.EmitSource, rx: seq<I.Process>, parse: string -> Option<Input>,
                    predict: (string, nat, real) -> Prediction, k: nat)
    requires k < |rx|
    ensures |BlockList(src, rx, parse, predict)| == |rx|
    ensures BlockList(src, rx, parse, predict)[k] == Block(src, rx[k], parse, predict)
  {
  }

  /** Under `Succeeds`, instruction `k`'s prediction does not fail once its input decodes. */
  lemma SucceedsAt(rx: seq<I.Process>, parse: string -> Option<Input>, predict: (string, nat, real) -> Prediction, k: nat)
    requires Succeeds(rx, parse, predict) && k < |rx|
    ensures parse(rx[k].jsonInput).Some? ==> PredictionOf(rx[k], parse, predict).Generated?
  {
  }

  /** The block of instruction `k`, once every step after the announcements went through. */
  lemma OneHandled(source: E.EmitSource, selfId: string, rx: seq<I.Process>,
                   parse: string -> Option<Input>, predict: (string, nat, real) -> Prediction,
                   bs: seq<seq<Emission>>, plan: seq<Emission>, steps: seq<Step>, events: seq<Message>, k: nat)
    requires source.modelType.Some? && k < |rx|
    requires parse(rx[k].jsonInput).Some? ==> PredictionOf(rx[k], parse, predict).Generated?
    requires |bs| == |rx| && bs[k] == Block(E.SetTaskId(source, selfId), rx[k], parse, predict)
    requires |plan| >= 2 && plan[2..] == Blocks(bs) && PublishedFrom(plan, steps, events, 2)
    ensures |Blocks(bs[..k + 1])| == |Blocks(bs[..k])| + (if parse(rx[k].jsonInput).Some? then parse(rx[k].jsonInput).value.sampleLen + 1 else 1)
    ensures Handled(events, steps, 2 + |Blocks(bs[..k])|, source, selfId, rx[k], parse, predict)
  {
    BlockLength(E.SetTaskId(source, selfId), rx[k], parse, predict);
    PlanBlock(plan, bs, k);
    var o := 2 + |Blocks(bs[..k])|;
    PublishedLater(plan, steps, events, 2, o);
    HandledBlock(source, selfId, rx[k], parse, predict, bs[k], plan, steps, events, o);
  }

  /** One instruction's block: the token ticks and the reply when its input decodes, otherwise the parse error alone. */
  lemma BlockLength(src: E.EmitSource, instr: I.Process, parse: string -> Option<Input>,
                    predict: (string, nat, real) -> Prediction)
    requires parse(instr.jsonInput).Some? ==> PredictionOf(instr, parse, predict).Generated?
    ensures |Block(src, instr, parse, predict)| == if parse(instr.jsonInput).Some? then parse(instr.jsonInput).value.sampleLen + 1 else 1
  {
  }

  /**
   * With receivers throughout and every prompt accepted, the worker
   * finishes after publishing its start and load announcements and then,
   * instruction after instruction, one token tick per requested token and
   * the generated text for an input that decodes, or the parse error:
   * `sampleLen + 1` messages or one per instruction, with nothing in between.
   */
  lemma {:induction false} Serves(source: E.EmitSource, selfId: string, rx: seq<I.Process>,
               parse: string -> Option<Input>, predict: (string, nat, real) -> Prediction, steps: seq<Step>)
    requires source.modelType.Some? && Succeeds(rx, parse, predict)
    requires |steps| >= |Plan(source, selfId, rx, parse, predict)|
    requires forall i :: 0 <= i < |Plan(source, selfId, rx, parse, predict)| ==> steps[i].receivers
    ensures Deliver(Plan(source, selfId, rx, parse, predict), steps, true).1 == Finished
    ensures var events, bs := Deliver(Plan(source, selfId, rx, parse, predict), steps, true).0,
                              BlockList(E.SetTaskId(source, selfId), rx, parse, predict);
      |events| == |Plan(source, selfId, rx, parse, predict)| == 2 + |Blocks(bs)|
      && events[0].ModelStarted? && events[1].ModelLoaded?
      && (forall i :: 0 <= i < 2 ==> TaskIdOf(events[i]) == Some(selfId) && events[i].owner == source.owner)
      && (forall k :: 0 <= k < |rx| ==>
            |Blocks(bs[..k + 1])| == |Blocks(bs[..k])| + (if parse(rx[k].jsonInput).Some? then parse(rx[k].jsonInput).value.sampleLen + 1 else 1))
      && forall k :: 0 <= k < |rx| ==> Handled(events, steps, 2 + |Blocks(bs[..k])|, source, selfId, rx[k], parse, predict)
  {
    var src := E.SetTaskId(source, selfId);
    var plan := Plan(source, selfId, rx, parse, predict);
    var bs: seq<seq<Emission>> := BlockList(src, rx, parse, predict);
    NoCrash(source, selfId, rx, parse, predict);
    AnnouncedThenAnswered(src, plan, steps, true);
    var events := Deliver(plan, steps, true).0;
    EachHandled(source, selfId, rx, parse, predict, bs, plan, steps, events);
  }

  /**
   * The worker stops early exactly when some step does not go through. It
   * then panics exactly when that step is a panic of the model or a
   * token tick nobody hears; otherwise it ends with "Json Parse Error"
   * when that was its start announcement and "channel closed" otherwise.
   */
  lemma Fails(source: E.EmitSource, selfId: string, rx: seq<I.Process>,
              parse: string -> Option<Input>, predict: (string, nat, real) -> Prediction, steps: seq<Step>)
    requires source.modelType.Some?
    requires |steps| >= |Plan(source, selfId, rx, parse, predict)|
    ensures var plan := Plan(source, selfId, rx, parse, predict);
      var events, exit := Deliver(plan, steps, true).0, Deliver(plan, steps, true).1;
      (!exit.Finished? <==> exists i :: 0 <= i < |plan| && !Goes(plan[i], steps[i]))
      && (exit.Failed? ==> (exit.reason == PARSE_ERROR <==> !steps[0].receivers))
      && (exit.Failed? ==> (exit.reason == CLOSED <==> steps[0].receivers))
      && (!exit.Finished? ==>
            |events| < |plan| && (exit.Panicked? <==> plan[|events|].Crash? || plan[|events|].t == Types.LlamaTokenGen))
  {
    var src := E.SetTaskId(source, selfId);
    var plan := Plan(source, selfId, rx, parse, predict);
    FatalFailure(src, plan, steps);
  }
}
