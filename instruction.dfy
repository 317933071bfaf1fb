/**
 * The five instruction records a command carries, and the uniform view of
 * them that the supervisor and the workers use (a boxed instruction).
 */
module Instruction {
  import opened Wrappers
  import Types

  datatype Process = Process(
    commandType: Types.CommandType, modelType: Types.ModelType, taskId: Option<string>,
    jsonInput: string, timestamp: nat, owner: string)

  datatype Kill = Kill(
    commandType: Types.CommandType, modelType: Types.ModelType, taskId: string,
    timestamp: nat, owner: string)

  /** Built by the server with the same fields as a resume instruction. */
  datatype Pause = Pause(
    commandType: Types.CommandType, modelType: Types.ModelType, taskId: string,
    timestamp: nat, owner: string)

  datatype Resume = Resume(
    commandType: Types.CommandType, modelType: Types.ModelType, taskId: string,
    timestamp: nat, owner: string)

  datatype Spawn = Spawn(
    commandType: Types.CommandType, modelType: Types.ModelType, timestamp: nat, owner: string)

  /** A boxed instruction: any of the five, seen through the accessors below. */
  datatype Boxed =
    | OfProcess(process: Process)
    | OfKill(kill: Kill)
    | OfPause(pause: Pause)
    | OfResume(resume: Resume)
    | OfSpawn(spawn: Spawn)

  function CommandTypeOf(b: Boxed): Types.CommandType
  {
    match b
    case OfProcess(i) => i.commandType
    case OfKill(i) => i.commandType
    case OfPause(i) => i.commandType
    case OfResume(i) => i.commandType
    case OfSpawn(i) => i.commandType
  }

  function ModelTypeOf(b: Boxed): Types.ModelType
  {
    match b
    case OfProcess(i) => i.modelType
    case OfKill(i) => i.modelType
    case OfPause(i) => i.modelType
    case OfResume(i) => i.modelType
    case OfSpawn(i) => i.modelType
  }

  /** Kill, pause and resume always name a task; spawn never does. */
  function TaskIdOf(b: Boxed): Option<string>
  {
    match b
    case OfProcess(i) => i.taskId
    case OfKill(i) => Some(i.taskId)
    case OfPause(i) => Some(i.taskId)
    case OfResume(i) => Some(i.taskId)
    case OfSpawn(_) => None
  }

  /** Only a process instruction carries a JSON input. */
  function JsonInputOf(b: Boxed): Option<string>
  {
    match b
    case OfProcess(i) => Some(i.jsonInput)
    case _ => None
  }

  function OwnerOf(b: Boxed): string
  {
    match b
    case OfProcess(i) => i.owner
    case OfKill(i) => i.owner
    case OfPause(i) => i.owner
    case OfResume(i) => i.owner
    case OfSpawn(i) => i.owner
  }

  function TimestampOf(b: Boxed): nat
  {
    match b
    case OfProcess(i) => i.timestamp
    case OfKill(i) => i.timestamp
    case OfPause(i) => i.timestamp
    case OfResume(i) => i.timestamp
    case OfSpawn(i) => i.timestamp
  }

  /** The accessors agree with the record kind: who has a task id and who has an input. */
  lemma AccessorsByKind(b: Boxed)
    ensures TaskIdOf(b).Some? <==> !b.OfSpawn? && (b.OfProcess? ==> b.process.taskId.Some?)
    ensures JsonInputOf(b).Some? <==> b.OfProcess?
    ensures b.OfKill? ==> TaskIdOf(b) == Some(b.kill.taskId)
  {
  }

  /** A kill instruction stamped now, for the given owner and task. */
  function NewKill(owner: string, modelType: Types.ModelType, taskId: string, now: nat): (k: Kill)
    ensures var b := OfKill(k);
      CommandTypeOf(b) == Types.CommandType.Kill && OwnerOf(b) == owner
      && TaskIdOf(b) == Some(taskId) && ModelTypeOf(b) == modelType && TimestampOf(b) == now
  {
    Kill(Types.CommandType.Kill, modelType, taskId, now, owner)
  }

  /** A spawn instruction stamped now. */
  function NewSpawn(owner: string, modelType: Types.ModelType, now: nat): (s: Spawn)
    ensures var b := OfSpawn(s);
      CommandTypeOf(b) == Types.CommandType.Spawn && OwnerOf(b) == owner
      && TaskIdOf(b) == None && JsonInputOf(b) == None && ModelTypeOf(b) == modelType
  {
    Spawn(Types.CommandType.Spawn, modelType, now, owner)
  }

  /** A worker's pause check: a pause instruction from the worker's own owner. */
  predicate IsPausedWithOwner(b: Boxed, owner: string)
  {
    match CommandTypeOf(b)
    case Pause => OwnerOf(b) == owner
    case _ => false
  }

  /** A worker's resume check: a resume instruction from the worker's own owner. */
  predicate IsResumedWithOwner(b: Boxed, owner: string)
  {
    match CommandTypeOf(b)
    case Resume => OwnerOf(b) == owner
    case _ => false
  }

  /** No instruction asks both to pause and to resume, and each asks it of exactly one owner. */
  lemma PauseResumeExclusive(b: Boxed, owner: string, other: string)
    ensures !(IsPausedWithOwner(b, owner) && IsResumedWithOwner(b, other))
    ensures IsPausedWithOwner(b, owner) && IsPausedWithOwner(b, other) ==> owner == other
    ensures IsPausedWithOwner(b, owner) <==> CommandTypeOf(b) == Types.CommandType.Pause && OwnerOf(b) == owner
    ensures IsResumedWithOwner(b, owner) <==> CommandTypeOf(b) == Types.CommandType.Resume && OwnerOf(b) == owner
  {
  }
}
