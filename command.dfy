/** The commands the supervisor receives, and the constructors the crates use to build them. */
module Command {
  import opened Wrappers
  import Types
  import I = Instruction

  datatype Command =
    | Process(process: I.Process)
    | Kill(kill: I.Kill)
    | Pause(pause: I.Pause)
    | Resume(resume: I.Resume)
    | Spawn(spawn: I.Spawn)

  /** The command's instruction, boxed. */
  function BoxedInstruction(c: Command): I.Boxed
  {
    match c
    case Process(i) => I.OfProcess(i)
    case Kill(i) => I.OfKill(i)
    case Pause(i) => I.OfPause(i)
    case Resume(i) => I.OfResume(i)
    case Spawn(i) => I.OfSpawn(i)
  }

  /**
   * The boxed instruction shows the wrapped record's own fields; only kill,
   * pause and resume turn their task id into a present one, and only a
   * process has an input.
   */
  lemma BoxedInstructionFields(c: Command)
    ensures c.Process? ==> var b, i := BoxedInstruction(c), c.process;
      I.CommandTypeOf(b) == i.commandType && I.ModelTypeOf(b) == i.modelType && I.TaskIdOf(b) == i.taskId
      && I.JsonInputOf(b) == Some(i.jsonInput) && I.OwnerOf(b) == i.owner && I.TimestampOf(b) == i.timestamp
    ensures c.Kill? ==> var b, i := BoxedInstruction(c), c.kill;
      I.CommandTypeOf(b) == i.commandType && I.ModelTypeOf(b) == i.modelType && I.TaskIdOf(b) == Some(i.taskId)
      && I.JsonInputOf(b) == None && I.OwnerOf(b) == i.owner && I.TimestampOf(b) == i.timestamp
    ensures c.Pause? ==> var b, i := BoxedInstruction(c), c.pause;
      I.CommandTypeOf(b) == i.commandType && I.ModelTypeOf(b) == i.modelType && I.TaskIdOf(b) == Some(i.taskId)
      && I.JsonInputOf(b) == None && I.OwnerOf(b) == i.owner && I.TimestampOf(b) == i.timestamp
    ensures c.Resume? ==> var b, i := BoxedInstruction(c), c.resume;
      I.CommandTypeOf(b) == i.commandType && I.ModelTypeOf(b) == i.modelType && I.TaskIdOf(b) == Some(i.taskId)
      && I.JsonInputOf(b) == None && I.OwnerOf(b) == i.owner && I.TimestampOf(b) == i.timestamp
    ensures c.Spawn? ==> var b, i := BoxedInstruction(c), c.spawn;
      I.CommandTypeOf(b) == i.commandType && I.ModelTypeOf(b) == i.modelType && I.TaskIdOf(b) == None
      && I.JsonInputOf(b) == None && I.OwnerOf(b) == i.owner && I.TimestampOf(b) == i.timestamp
  {
  }

  /** A spawn command issued by the supervisor's root. */
  function SpawnCommand(modelType: Types.ModelType, now: nat): (c: Command)
    ensures c.Spawn?
    ensures var b := BoxedInstruction(c);
      I.CommandTypeOf(b) == Types.CommandType.Spawn && I.OwnerOf(b) == Types.ROOT
      && I.ModelTypeOf(b) == modelType && I.TaskIdOf(b) == None
  {
    Spawn(I.Spawn(Types.CommandType.Spawn, modelType, now, Types.ROOT))
  }

  /** A process command from root, aimed at one task. */
  function ProcessCommand(id: string, input: string, modelType: Types.ModelType, now: nat): (c: Command)
    ensures c.Process?
    ensures var b := BoxedInstruction(c);
      I.CommandTypeOf(b) == Types.CommandType.Process && I.OwnerOf(b) == Types.ROOT
      && I.ModelTypeOf(b) == modelType && I.TaskIdOf(b) == Some(id) && I.JsonInputOf(b) == Some(input)
  {
    Process(I.Process(Types.CommandType.Process, modelType, Some(id), input, now, Types.ROOT))
  }

  /** A kill command from root, aimed at one task. */
  function KillCommand(id: string, modelType: Types.ModelType, now: nat): (c: Command)
    ensures c.Kill?
    ensures var b := BoxedInstruction(c);
      I.CommandTypeOf(b) == Types.CommandType.Kill && I.OwnerOf(b) == Types.ROOT
      && I.ModelTypeOf(b) == modelType && I.TaskIdOf(b) == Some(id) && I.JsonInputOf(b) == None
  {
    Kill(I.Kill(Types.CommandType.Kill, modelType, id, now, Types.ROOT))
  }
}
