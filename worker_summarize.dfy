/**
 * The summarization worker: a failed emission is only logged; each answer
 * is published on behalf of the owner of the instruction it answers.
 */
module SummarizeWorker {
  import opened Wrappers
  import Types
  import I = Instruction
  import opened Message
  import E = Emit
  import opened Worker

  /** The JSON input a summarization instruction carries. */
  datatype Input = Input(input: string)

  /** The prediction for one instruction, when its input decodes, with the source it is published from. */
  function Predicted(src: E.EmitSource, p: I.Process, parse: string -> Option<Input>, predict: string -> string)
    : Option<(E.EmitSource, string)>
  {
    match parse(p.jsonInput)
    case Some(params) => Some((E.SetOwner(src, p.owner), predict(params.input)))
    case None => None
  }

  /** The answer to one instruction, on behalf of its owner. */
  function Reply(src: E.EmitSource, p: I.Process, parse: string -> Option<Input>, predict: string -> string): Emission
  {
    Answer(Predicted(src, p, parse, predict), E.SetOwner(src, p.owner))
  }

  /** Every answer can be published once the source names the task. */
  lemma ReplyBuildable(src: E.EmitSource, p: I.Process, parse: string -> Option<Input>, predict: string -> string)
    requires Ready(src)
    ensures Buildable(Reply(src, p, parse, predict))
  {
    AnswerBuildable(Predicted(src, p, parse, predict), E.SetOwner(src, p.owner));
  }

  /** Everything the worker emits, in order: the announcements, then one answer per instruction. */
  function Plan(source: E.EmitSource, selfId: string, rx: seq<I.Process>,
                parse: string -> Option<Input>, predict: string -> string): (plan: seq<Emission>)
    requires source.modelType.Some?
    ensures |plan| == 2 + |rx| && AllBuildable(plan) && AllPlain(plan)
  {
    var src := E.SetTaskId(source, selfId);
    assert forall k :: 0 <= k < |rx| ==> Buildable(Reply(src, rx[k], parse, predict)) by {
      forall k | 0 <= k < |rx| {
        ReplyBuildable(src, rx[k], parse, predict);
      }
    }
    Announcements(src) + seq(|rx|, i requires 0 <= i < |rx| => Reply(src, rx[i], parse, predict))
  }

  /** The plan opens with the two announcements, and every later emission reports the bus's error when it fails. */
  lemma PlanShape(source: E.EmitSource, selfId: string, rx: seq<I.Process>,
                  parse: string -> Option<Input>, predict: string -> string)
    requires source.modelType.Some?
    ensures var plan, src := Plan(source, selfId, rx, parse, predict), E.SetTaskId(source, selfId);
      plan[0] == Announcements(src)[0] && plan[1] == Announcements(src)[1]
      && forall i :: 1 <= i < |plan| ==> plan[i].failReason == CLOSED
  {
    var src := E.SetTaskId(source, selfId);
    var plan := Plan(source, selfId, rx, parse, predict);
    forall i | 2 <= i < |plan|
      ensures plan[i].failReason == CLOSED
    {
      assert plan[i] == Reply(src, rx[i - 2], parse, predict);
    }
  }

  /**
   * The worker task: name the source after the task, announce, then answer
   * every instruction of the channel; a failed emission is only logged.
   */
  method Run(rx: seq<I.Process>, source: E.EmitSource, selfId: string,
             parse: string -> Option<Input>, predict: string -> string, steps: seq<Step>)
    returns (events: seq<Message>, exit: Exit)
    requires source.modelType.Some?
    requires |steps| >= 2 + |rx|
    ensures (events, exit) == Deliver(Plan(source, selfId, rx, parse, predict), steps, false)
  {
    ghost var plan := Plan(source, selfId, rx, parse, predict);
    var src := E.SetTaskId(source, selfId);
    var announce := Announcements(src);
    PlanShape(source, selfId, rx, parse, predict);
    assert plan[..0] == [];
    events, exit := Next(plan, steps, false, 0, [], announce[0]);
    events, exit := Next(plan, steps, false, 1, events, announce[1]);
    forall k | 0 <= k < |rx|
      ensures plan[2 + k] == Reply(src, rx[k], parse, predict)
    {
    }
    ghost var blocks := seq(|rx|, k requires 0 <= k < |rx| => [Reply(src, rx[k], parse, predict)]);
    SingleAnswers(plan, blocks);
    events, exit := Serve(plan, steps, false, rx, p => [Reply(src, p, parse, predict)], blocks, events);
  }

  /** The answer to `instr` as published: under the task's own id and the instruction's owner, the summary of the decoded input exactly when it decodes, otherwise the parse error. */
  predicate Replied(m: Message, source: E.EmitSource, selfId: string, instr: I.Process,
                    parse: string -> Option<Input>, predict: string -> string)
  {
    TaskIdOf(m) == Some(selfId) && m.owner == instr.owner
    && (m.ModelPrediction? <==> parse(instr.jsonInput).Some?)
    && (m.ModelPrediction? ==> m.value == predict(parse(instr.jsonInput).value.input))
    && (m.ModelError? ==> m.error == PARSE_ERROR)
  }

  /**
   * The published answer to one instruction: a summary exactly when the
   * input decodes, otherwise the parse error, under the task's own id and on
   * behalf of the instruction's owner.
   */
  lemma {:induction false} Answered(source: E.EmitSource, selfId: string, rx: seq<I.Process>,
                                    parse: string -> Option<Input>, predict: string -> string, st: Step, i: nat)
    requires source.modelType.Some? && i < |rx|
    ensures Replied(Published(Plan(source, selfId, rx, parse, predict)[2 + i], st), source, selfId, rx[i], parse, predict)
  {
    var src := E.SetTaskId(source, selfId);
    assert Plan(source, selfId, rx, parse, predict)[2 + i] == Answer(Predicted(src, rx[i], parse, predict), E.SetOwner(src, rx[i].owner)) by {
      assert Plan(source, selfId, rx, parse, predict)[2 + i] == Reply(src, rx[i], parse, predict);
    }
    AnswerPublished(Predicted(src, rx[i], parse, predict), E.SetOwner(src, rx[i].owner), st);
  }

  /**
   * With receivers throughout, the worker publishes its start and load
   * announcements and then, for each instruction, a summary exactly when the
   * input decodes, each on behalf of the instruction's owner.
   */
  lemma {:induction false} Serves(source: E.EmitSource, selfId: string, rx: seq<I.Process>,
               parse: string -> Option<Input>, predict: string -> string, steps: seq<Step>)
    requires source.modelType.Some?
    requires |steps| >= 2 + |rx|
    requires forall i :: 0 <= i < 2 + |rx| ==> steps[i].receivers
    ensures Deliver(Plan(source, selfId, rx, parse, predict), steps, false).1 == Finished
    ensures var events := Deliver(Plan(source, selfId, rx, parse, predict), steps, false).0;
      |events| == 2 + |rx|
      && events[0].ModelStarted? && events[1].ModelLoaded?
      && (forall i :: 0 <= i < 2 ==> TaskIdOf(events[i]) == Some(selfId) && events[i].owner == source.owner)
      && forall i :: 0 <= i < |rx| ==> Replied(events[2 + i], source, selfId, rx[i], parse, predict)
  {
    var src := E.SetTaskId(source, selfId);
    var plan := Plan(source, selfId, rx, parse, predict);
    AnnouncedThenAnswered(src, plan, steps, false);
    var events := Deliver(plan, steps, false).0;
    forall i | 0 <= i < |rx|
      ensures Replied(events[2 + i], source, selfId, rx[i], parse, predict)
    {
      Answered(source, selfId, rx, parse, predict, steps[2 + i], i);
      assert events[2 + i] == Published(plan[2 + i], steps[2 + i]);
    }
  }

  /** A failed emission never stops the worker: it finishes whatever the bus does. */
  lemma AlwaysFinishes(source: E.EmitSource, selfId: string, rx: seq<I.Process>,
                       parse: string -> Option<Input>, predict: string -> string, steps: seq<Step>)
    requires source.modelType.Some?
    requires |steps| >= 2 + |rx|
    ensures Deliver(Plan(source, selfId, rx, parse, predict), steps, false).1 == Finished
  {
    DeliverNonFatalFinishes(Plan(source, selfId, rx, parse, predict), steps);
  }
}
