/**
 * The JSON bodies the server accepts on its command routes. Each body keeps
 * the command type it was sent with, which need not match the route.
 */
module Payload {
  import opened Wrappers
  import Types

  datatype Payload =
    | ProcessBody(commandType: Types.CommandType, modelType: Types.ModelType, jsonInput: string, maybeTaskId: Option<string>)
    | KillBody(commandType: Types.CommandType, modelType: Types.ModelType, taskId: string)
    | PauseBody(commandType: Types.CommandType, modelType: Types.ModelType, taskId: string)
    | SpawnBody(commandType: Types.CommandType, modelType: Types.ModelType)

  /** The command type the body claims. */
  function CommandTypeOf(p: Payload): Types.CommandType
  {
    p.commandType
  }

  function ModelTypeOf(p: Payload): Types.ModelType
  {
    p.modelType
  }

  /** Kill and pause bodies always name a task, a spawn body never does, a process body may. */
  function TaskIdOf(p: Payload): Option<string>
  {
    match p
    case ProcessBody(_, _, _, id) => id
    case KillBody(_, _, id) => Some(id)
    case PauseBody(_, _, id) => Some(id)
    case SpawnBody(_, _) => None
  }

  /** Only a process body carries a JSON input. */
  function JsonInputOf(p: Payload): Option<string>
  {
    match p
    case ProcessBody(_, _, input, _) => Some(input)
    case _ => None
  }

  /** A process body for a given task and input. */
  function NewProcess(modelType: Types.ModelType, taskId: string, jsonInput: string): (p: Payload)
    ensures CommandTypeOf(p) == Types.CommandType.Process && ModelTypeOf(p) == modelType
    ensures TaskIdOf(p) == Some(taskId) && JsonInputOf(p) == Some(jsonInput)
  {
    ProcessBody(Types.CommandType.Process, modelType, jsonInput, Some(taskId))
  }

  /** A kill body for a given task. */
  function NewKill(modelType: Types.ModelType, taskId: string): (p: Payload)
    ensures CommandTypeOf(p) == Types.CommandType.Kill && ModelTypeOf(p) == modelType
    ensures TaskIdOf(p) == Some(taskId) && JsonInputOf(p) == None
  {
    KillBody(Types.CommandType.Kill, modelType, taskId)
  }

  /** A pause body for a given task. */
  function NewPause(modelType: Types.ModelType, taskId: string): (p: Payload)
    ensures CommandTypeOf(p) == Types.CommandType.Pause && ModelTypeOf(p) == modelType
    ensures TaskIdOf(p) == Some(taskId) && JsonInputOf(p) == None
  {
    PauseBody(Types.CommandType.Pause, modelType, taskId)
  }

  /** A spawn body for a model. */
  function NewSpawn(modelType: Types.ModelType): (p: Payload)
    ensures CommandTypeOf(p) == Types.CommandType.Spawn && ModelTypeOf(p) == modelType
    ensures TaskIdOf(p) == None && JsonInputOf(p) == None
  {
    SpawnBody(Types.CommandType.Spawn, modelType)
  }

  /** What each kind of body offers, whatever command type it claims. */
  lemma AccessorsByBody(p: Payload)
    ensures p.ProcessBody? <==> JsonInputOf(p).Some?
    ensures (p.KillBody? || p.PauseBody?) ==> TaskIdOf(p).Some?
    ensures p.SpawnBody? ==> TaskIdOf(p).None? && JsonInputOf(p).None?
    ensures p.ProcessBody? ==> TaskIdOf(p) == p.maybeTaskId
  {
  }
}
