/**
 * The translation worker: every failed emission ends it; a prediction is
 * published on behalf of the owner named inside the input, an error on
 * behalf of the spawner.
 */
module TranslationWorker {
  import opened Wrappers
  import Types
  import I = Instruction
  import opened Message
  import E = Emit
  import opened Worker

  /** The JSON input a translation instruction carries. */
  datatype Input = Input(input: string, owner: string, sourceLang: string, targetLang: string)

  /** The input of `instr` decodes but the model fails to translate it, which panics the worker. */
  predicate Refused(instr: I.Process, parse: string -> Option<Input>, predict: (string, string, string) -> Option<string>)
  {
    parse(instr.jsonInput).Some?
    && var x := parse(instr.jsonInput).value;
    predict(x.input, x.sourceLang, x.targetLang).None?
  }

  /**
   * The step one instruction leads to: a prediction for the owner its input
   * names, a panic when the translation fails, or the parse error from the
   * task's own source.
   */
  function Reply(src: E.EmitSource, p: I.Process, parse: string -> Option<Input>, predict: (string, string, string) -> Option<string>): Emission
  {
    match parse(p.jsonInput)
    case None => Answer(None, src)
    case Some(x) =>
      match predict(x.input, x.sourceLang, x.targetLang)
      case None => Crash
      case Some(text) => Answer(Some((E.SetOwner(src, x.owner), text)), src)
  }

  /** Every answer can be published once the source names the task. */
  lemma ReplyBuildable(src: E.EmitSource, p: I.Process, parse: string -> Option<Input>, predict: (string, string, string) -> Option<string>)
    requires Ready(src)
    ensures Buildable(Reply(src, p, parse, predict))
  {
    match parse(p.jsonInput)
    case None =>
      AnswerBuildable(None, src);
    case Some(x) =>
      match predict(x.input, x.sourceLang, x.targetLang)
      case None =>
      case Some(text) =>
        AnswerBuildable(Some((E.SetOwner(src, x.owner), text)), src);
  }

  /** Everything the worker does, in order: the announcements, then one step per instruction. */
  function Plan(source: E.EmitSource, selfId: string, rx: seq<I.Process>,
                parse: string -> Option<Input>, predict: (string, string, string) -> Option<string>): (plan: seq<Emission>)
    requires source.modelType.Some?
    ensures |plan| == 2 + |rx| && AllBuildable(plan)
    ensures forall i :: 0 <= i < |plan| && plan[i].Emission? ==> !plan[i].tick
    ensures forall k :: 0 <= k < |rx| ==> (plan[2 + k].Crash? <==> Refused(rx[k], parse, predict))
    ensures plan[0].Emission? && plan[1].Emission?
  {
    var src := E.SetTaskId(source, selfId);
    assert forall k :: 0 <= k < |rx| ==> Buildable(Reply(src, rx[k], parse, predict)) by {
      forall k | 0 <= k < |rx| {
        ReplyBuildable(src, rx[k], parse, predict);
      }
    }
    Announcements(src) + seq(|rx|, i requires 0 <= i < |rx| => Reply(src, rx[i], parse, predict))
  }

  /** The plan opens with the two announcements, and every later emission reports the bus's error when it fails. */
  lemma PlanShape(source: E.EmitSource, selfId: string, rx: seq<I.Process>,
                  parse: string -> Option<Input>, predict: (string, string, string) -> Option<string>)
    requires source.modelType.Some?
    ensures var plan, src := Plan(source, selfId, rx, parse, predict), E.SetTaskId(source, selfId);
      plan[0] == Announcements(src)[0] && plan[1] == Announcements(src)[1]
      && (forall i :: 1 <= i < |plan| && plan[i].Emission? ==> plan[i].failReason == CLOSED)
      && forall k :: 0 <= k < |rx| ==> plan[2 + k] == Reply(src, rx[k], parse, predict)
  {
    var src := E.SetTaskId(source, selfId);
    var plan := Plan(source, selfId, rx, parse, predict);
    forall i | 2 <= i < |plan| && plan[i].Emission?
      ensures plan[i].failReason == CLOSED
    {
      assert plan[i] == Reply(src, rx[i - 2], parse, predict);
    }
  }

  /**
   * The worker task: name the source after the task, announce, then answer
   * every instruction of the channel; the first failed emission or failed
   * translation ends it.
   */
  method Run(rx: seq<I.Process>, source: E.EmitSource, selfId: string,
             parse: string -> Option<Input>, predict: (string, string, string) -> Option<string>, steps: seq<Step>)
    returns (events: seq<Message>, exit: Exit)
    requires source.modelType.Some?
    requires |steps| >= 2 + |rx|
    ensures (events, exit) == Deliver(Plan(source, selfId, rx, parse, predict), steps, true)
  {
    ghost var plan := Plan(source, selfId, rx, parse, predict);
    var src := E.SetTaskId(source, selfId);
    var announce := Announcements(src);
    PlanShape(source, selfId, rx, parse, predict);
    assert plan[..0] == [];
    events, exit := Next(plan, steps, true, 0, [], announce[0]);
    if !exit.Finished? {
      return;
    }
    events, exit := Next(plan, steps, true, 1, events, announce[1]);
    if !exit.Finished? {
      return;
    }
    ghost var blocks := seq(|rx|, k requires 0 <= k < |rx| => [Reply(src, rx[k], parse, predict)]);
    SingleAnswers(plan, blocks);
    events, exit := Serve(plan, steps, true, rx, p => [Reply(src, p, parse, predict)], blocks, events);
  }

  /** The answer to `instr` as published: under the task's own id, the translation for the owner the decoded input names exactly when it decodes, otherwise the parse error for the spawner's owner. */
  predicate Replied(m: Message, source: E.EmitSource, selfId: string, instr: I.Process,
                    parse: string -> Option<Input>, predict: (string, string, string) -> Option<string>)
  {
    var p := parse(instr.jsonInput);
    TaskIdOf(m) == Some(selfId)
    && (m.ModelPrediction? <==> p.Some?)
    && (m.ModelPrediction? ==>
          m.owner == p.value.owner && Some(m.value) == predict(p.value.input, p.value.sourceLang, p.value.targetLang))
    && (m.ModelError? ==> m.error == PARSE_ERROR && m.owner == source.owner)
  }

  /**
   * The published answer to an instruction whose translation does not
   * fail: a translation for the owner the input names exactly when it
   * decodes, otherwise the parse error for the spawner, under the task's own id.
   */
  lemma {:induction false} Answered(source: E.EmitSource, selfId: string, rx: seq<I.Process>,
                                    parse: string -> Option<Input>, predict: (string, string, string) -> Option<string>, st: Step, i: nat)
    requires source.modelType.Some? && i < |rx| && !Refused(rx[i], parse, predict)
    ensures Plan(source, selfId, rx, parse, predict)[2 + i].Emission?
    ensures Replied(Published(Plan(source, selfId, rx, parse, predict)[2 + i], st), source, selfId, rx[i], parse, predict)
  {
    var src := E.SetTaskId(source, selfId);
    PlanShape(source, selfId, rx, parse, predict);
    match parse(rx[i].jsonInput)
    case None =>
      AnswerPublished(None, src, st);
    case Some(x) =>
      var text := predict(x.input, x.sourceLang, x.targetLang).value;
      AnswerPublished(Some((E.SetOwner(src, x.owner), text)), src, st);
  }

  /**
   * With receivers throughout and every translation succeeding, the worker
   * finishes after publishing its start and load announcements and then, for
   * each instruction, a translation for the owner the input names exactly
   * when it decodes, all under its own task id.
   */
  lemma {:induction false} Serves(source: E.EmitSource, selfId: string, rx: seq<I.Process>,
               parse: string -> Option<Input>, predict: (string, string, string) -> Option<string>, steps: seq<Step>)
    requires source.modelType.Some?
    requires |steps| >= 2 + |rx|
    requires forall i :: 0 <= i < 2 + |rx| ==> steps[i].receivers
    requires forall k :: 0 <= k < |rx| ==> !Refused(rx[k], parse, predict)
    ensures Deliver(Plan(source, selfId, rx, parse, predict), steps, true).1 == Finished
    ensures var events := Deliver(Plan(source, selfId, rx, parse, predict), steps, true).0;
      |events| == 2 + |rx|
      && events[0].ModelStarted? && events[1].ModelLoaded?
      && (forall i :: 0 <= i < 2 ==> TaskIdOf(events[i]) == Some(selfId) && events[i].owner == source.owner)
      && forall i :: 0 <= i < |rx| ==> Replied(events[2 + i], source, selfId, rx[i], parse, predict)
  {
    var src := E.SetTaskId(source, selfId);
    var plan := Plan(source, selfId, rx, parse, predict);
    forall i | 0 <= i < |plan|
      ensures Goes(plan[i], steps[i])
    {
      if i >= 2 {
        Answered(source, selfId, rx, parse, predict, steps[i], i - 2);
      }
    }
    AnnouncedThenAnswered(src, plan, steps, true);
    var events := Deliver(plan, steps, true).0;
    forall i | 0 <= i < |rx|
      ensures Replied(events[2 + i], source, selfId, rx[i], parse, predict)
    {
      Answered(source, selfId, rx, parse, predict, steps[2 + i], i);
      assert events[2 + i] == Published(plan[2 + i], steps[2 + i]);
    }
  }

  /**
   * The worker stops early exactly when some emission finds no receiver or
   * some translation fails. It panics exactly when it stopped at a failed
   * translation, and otherwise fails with "Json Parse Error" when that was
   * its start announcement and "channel closed" otherwise. When every
   * translation succeeds it fails exactly when some emission finds no
   * receiver, and never panics.
   */
  lemma Fails(source: E.EmitSource, selfId: string, rx: seq<I.Process>,
              parse: string -> Option<Input>, predict: (string, string, string) -> Option<string>, steps: seq<Step>)
    requires source.modelType.Some?
    requires |steps| >= 2 + |rx|
    ensures var events, exit := Deliver(Plan(source, selfId, rx, parse, predict), steps, true).0,
                                Deliver(Plan(source, selfId, rx, parse, predict), steps, true).1;
      (!exit.Finished? <==>
         (exists i :: 0 <= i < 2 + |rx| && !steps[i].receivers) || (exists k :: 0 <= k < |rx| && Refused(rx[k], parse, predict)))
      && (exit.Failed? ==> (exit.reason == PARSE_ERROR <==> !steps[0].receivers))
      && (exit.Failed? ==> (exit.reason == CLOSED <==> steps[0].receivers))
      && (exit.Panicked? <==> !exit.Finished? && 2 <= |events| < 2 + |rx| && Refused(rx[|events| - 2], parse, predict))
      && ((forall k :: 0 <= k < |rx| ==> !Refused(rx[k], parse, predict)) ==>
            (exit.Failed? <==> exists i :: 0 <= i < 2 + |rx| && !steps[i].receivers) && !exit.Panicked?)
  {
    var src := E.SetTaskId(source, selfId);
    var plan := Plan(source, selfId, rx, parse, predict);
    PlanShape(source, selfId, rx, parse, predict);
    FatalFailure(src, plan, steps);
    StopsWhere(source, selfId, rx, parse, predict, steps);
  }

  /** A step fails to go through exactly when it finds no receiver or is a failed translation. */
  lemma StopsWhere(source: E.EmitSource, selfId: string, rx: seq<I.Process>,
                   parse: string -> Option<Input>, predict: (string, string, string) -> Option<string>, steps: seq<Step>)
    requires source.modelType.Some?
    requires |steps| >= 2 + |rx|
    ensures var plan := Plan(source, selfId, rx, parse, predict);
      ((exists i :: 0 <= i < |plan| && !Goes(plan[i], steps[i])) <==>
         (exists i :: 0 <= i < 2 + |rx| && !steps[i].receivers) || (exists k :: 0 <= k < |rx| && Refused(rx[k], parse, predict)))
      && (forall i :: 0 <= i < |plan| ==> (!Plain(plan[i]) <==> 2 <= i && Refused(rx[i - 2], parse, predict)))
  {
    var plan := Plan(source, selfId, rx, parse, predict);
    CrashesAt(source, selfId, rx, parse, predict);
    if exists k :: 0 <= k < |rx| && Refused(rx[k], parse, predict) {
      var k :| 0 <= k < |rx| && Refused(rx[k], parse, predict);
      assert !Goes(plan[2 + k], steps[2 + k]);
    }
    if exists i :: 0 <= i < 2 + |rx| && !steps[i].receivers {
      var i :| 0 <= i < 2 + |rx| && !steps[i].receivers;
      assert !Goes(plan[i], steps[i]);
    }
    if exists i :: 0 <= i < |plan| && !Goes(plan[i], steps[i]) {
      var i :| 0 <= i < |plan| && !Goes(plan[i], steps[i]);
      if steps[i].receivers {
        assert plan[i].Crash?;
      }
    }
  }

  /** The steps that are not plain emissions are exactly the failed translations. */
  lemma CrashesAt(source: E.EmitSource, selfId: string, rx: seq<I.Process>,
                  parse: string -> Option<Input>, predict: (string, string, string) -> Option<string>)
    requires source.modelType.Some?
    ensures var plan := Plan(source, selfId, rx, parse, predict);
      forall i :: 0 <= i < |plan| ==> (!Plain(plan[i]) <==> plan[i].Crash?) && (plan[i].Crash? <==> 2 <= i && Refused(rx[i - 2], parse, predict))
  {
    var plan := Plan(source, selfId, rx, parse, predict);
    forall i | 0 <= i < |plan|
      ensures (!Plain(plan[i]) <==> plan[i].Crash?) && (plan[i].Crash? <==> 2 <= i && Refused(rx[i - 2], parse, predict))
    {
      if i >= 2 {
        assert plan[2 + (i - 2)].Crash? <==> Refused(rx[i - 2], parse, predict);
      }
    }
  }
}
