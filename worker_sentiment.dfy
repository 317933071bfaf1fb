/** The sentiment worker: every failed emission ends it; it answers from the task's own source. */
module SentimentWorker {
  import opened Wrappers
  import Types
  import I = Instruction
  import opened Message
  import E = Emit
  import opened Worker

  /** The JSON input a sentiment instruction carries. */
  datatype Input = Input(input: string)

  /** The prediction for one instruction, when its input decodes, with the source it is published from. */
  function Predicted(src: E.EmitSource, p: I.Process, parse: string -> Option<Input>, predict: string -> string)
    : Option<(E.EmitSource, string)>
  {
    match parse(p.jsonInput)
    case Some(params) => Some((src, predict(params.input)))
    case None => None
  }

  /** The answer to one instruction, from the task's own source. */
  function Reply(src: E.EmitSource, p: I.Process, parse: string -> Option<Input>, predict: string -> string): Emission
  {
    Answer(Predicted(src, p, parse, predict), src)
  }

  /** Every answer can be published once the source names the task. */
  lemma ReplyBuildable(src: E.EmitSource, p: I.Process, parse: string -> Option<Input>, predict: string -> string)
    requires Ready(src)
    ensures Buildable(Reply(src, p, parse, predict))
  {
    AnswerBuildable(Predicted(src, p, parse, predict), src);
  }

  /** Everything the worker emits, in order: the announcements, then one answer per instruction. */
  function Plan(source: E.EmitSource, selfId: string, rx: seq<I.Process>,
                parse: string -> Option<Input>, predict: string -> string): (plan: seq<Emission>)
    requires source.modelType.Some?
    ensures |plan| == 2 + |rx| && AllBuildable(plan) && AllPlain(plan)
  {
    var src := E.SetTaskId(source, selfId);
    assert forall k :: 0 <= k < |rx| ==> Buildable(Reply(src, rx[k], parse, predict)) by {
      forall k | 0 <= k < |rx| {
        ReplyBuildable(src, rx[k], parse, predict);
      }
    }
    Announcements(src) + seq(|rx|, i requires 0 <= i < |rx| => Reply(src, rx[i], parse, predict))
  }

  /** The plan opens with the two announcements, and every later emission reports the bus's error when it fails. */
  lemma PlanShape(source: E.EmitSource, selfId: string, rx: seq<I.Process>,
                  parse: string -> Option<Input>, predict: string -> string)
    requires source.modelType.Some?
    ensures var plan, src := Plan(source, selfId, rx, parse, predict), E.SetTaskId(source, selfId);
      plan[0] == Announcements(src)[0] && plan[1] == Announcements(src)[1]
      && forall i :: 1 <= i < |plan| ==> plan[i].failReason == CLOSED
  {
    var src := E.SetTaskId(source, selfId);
    var plan := Plan(source, selfId, rx, parse, predict);
    forall i | 2 <= i < |plan|
      ensures plan[i].failReason == CLOSED
    {
      assert plan[i] == Reply(src, rx[i - 2], parse, predict);
    }
  }

  /**
   * The worker task: name the source after the task, announce, then answer
   * every instruction of the channel; the first failed emission ends it.
   */
  method Run(rx: seq<I.Process>, source: E.EmitSource, selfId: string,
             parse: string -> Option<Input>, predict: string -> string, steps: seq<Step>)
    returns (events: seq<Message>, exit: Exit)
    requires source.modelType.Some?
    requires |steps| >= 2 + |rx|
    ensures (events, exit) == Deliver(Plan(source, selfId, rx, parse, predict), steps, true)
  {
    ghost var plan := Plan(source, selfId, rx, parse, predict);
    var src := E.SetTaskId(source, selfId);
    var announce := Announcements(src);
    PlanShape(source, selfId, rx, parse, predict);
    assert plan[..0] == [];
    events, exit := Next(plan, steps, true, 0, [], announce[0]);
    if exit.Failed? {
      return;
    }
    events, exit := Next(plan, steps, true, 1, events, announce[1]);
    if exit.Failed? {
      return;
    }
    forall k | 0 <= k < |rx|
      ensures plan[2 + k] == Reply(src, rx[k], parse, predict)
    {
    }
    ghost var blocks := seq(|rx|, k requires 0 <= k < |rx| => [Reply(src, rx[k], parse, predict)]);
    SingleAnswers(plan, blocks);
    events, exit := Serve(plan, steps, true, rx, p => [Reply(src, p, parse, predict)], blocks, events);
  }

  /** The answer to `instr` as published: under the task's own id and its spawner's owner, the sentiment of the decoded input exactly when it decodes, otherwise the parse error. */
  predicate Replied(m: Message, source: E.EmitSource, selfId: string, instr: I.Process,
                    parse: string -> Option<Input>, predict: string -> string)
  {
    TaskIdOf(m) == Some(selfId) && m.owner == source.owner
    && (m.ModelPrediction? <==> parse(instr.jsonInput).Some?)
    && (m.ModelPrediction? ==> m.value == predict(parse(instr.jsonInput).value.input))
    && (m.ModelError? ==> m.error == PARSE_ERROR)
  }

  /**
   * The published answer to one instruction: a prediction of the decoded
   * input exactly when it decodes, otherwise the parse error, under the
   * task's own id and its spawner's owner.
   */
  lemma {:induction false} Answered(source: E.EmitSource, selfId: string, rx: seq<I.Process>,
                                    parse: string -> Option<Input>, predict: string -> string, st: Step, i: nat)
    requires source.modelType.Some? && i < |rx|
    ensures Replied(Published(Plan(source, selfId, rx, parse, predict)[2 + i], st), source, selfId, rx[i], parse, predict)
  {
    var src := E.SetTaskId(source, selfId);
    assert Plan(source, selfId, rx, parse, predict)[2 + i] == Reply(src, rx[i], parse, predict);
    AnswerPublished(Predicted(src, rx[i], parse, predict), src, st);
  }

  /**
   * With receivers throughout, the worker publishes its start and load
   * announcements and then, for each instruction, a prediction exactly when
   * the input decodes, all under its own task id and its spawner's owner.
   */
  lemma {:induction false} Serves(source: E.EmitSource, selfId: string, rx: seq<I.Process>,
               parse: string -> Option<Input>, predict: string -> string, steps: seq<Step>)
    requires source.modelType.Some?
    requires |steps| >= 2 + |rx|
    requires forall i :: 0 <= i < 2 + |rx| ==> steps[i].receivers
    ensures Deliver(Plan(source, selfId, rx, parse, predict), steps, true).1 == Finished
    ensures var events := Deliver(Plan(source, selfId, rx, parse, predict), steps, true).0;
      |events| == 2 + |rx|
      && events[0].ModelStarted? && events[1].ModelLoaded?
      && (forall i :: 0 <= i < 2 ==> TaskIdOf(events[i]) == Some(selfId) && events[i].owner == source.owner)
      && forall i :: 0 <= i < |rx| ==> Replied(events[2 + i], source, selfId, rx[i], parse, predict)
  {
    var src := E.SetTaskId(source, selfId);
    var plan := Plan(source, selfId, rx, parse, predict);
    AnnouncedThenAnswered(src, plan, steps, true);
    var events := Deliver(plan, steps, true).0;
    forall i | 0 <= i < |rx|
      ensures Replied(events[2 + i], source, selfId, rx[i], parse, predict)
    {
      Answered(source, selfId, rx, parse, predict, steps[2 + i], i);
      assert events[2 + i] == Published(plan[2 + i], steps[2 + i]);
    }
  }

  /**
   * The worker fails exactly when some emission finds no receiver, and it
   * never panics; the error is "Json Parse Error" when that was its start
   * announcement and "channel closed" otherwise.
   */
  lemma Fails(source: E.EmitSource, selfId: string, rx: seq<I.Process>,
              parse: string -> Option<Input>, predict: string -> string, steps: seq<Step>)
    requires source.modelType.Some?
    requires |steps| >= 2 + |rx|
    ensures var events, exit := Deliver(Plan(source, selfId, rx, parse, predict), steps, true).0,
                                Deliver(Plan(source, selfId, rx, parse, predict), steps, true).1;
      (exit.Failed? <==> exists i :: 0 <= i < 2 + |rx| && !steps[i].receivers)
      && (exit.Failed? ==> (exit.reason == PARSE_ERROR <==> !steps[0].receivers))
      && (exit.Failed? ==> (exit.reason == CLOSED <==> steps[0].receivers))
      && !exit.Panicked?
  {
    var src := E.SetTaskId(source, selfId);
    var plan := Plan(source, selfId, rx, parse, predict);
    PlanShape(source, selfId, rx, parse, predict);
    FatalFailure(src, plan, steps);
  }
}
