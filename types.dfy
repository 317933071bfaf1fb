/**
 * The shared vocabulary of the actor system: the kinds of command, message and
 * model that travel between the HTTP server, the supervisor and the workers,
 * and the constants the crates share.
 */
module Types {
  /** What a command asks the supervisor to do. */
  datatype CommandType = Kill | Pause | Spawn | Resume | Process

  /** The kind of an event published on the broadcast bus. */
  datatype MessageType =
    | Health
    | CommandSucess
    | CommandFailed
    | ModelPaused
    | ModelResumed
    | ModelKilled
    | ModelStarted
    | ModelLoaded
    | ModelPrediction
    | ModelError
    | SchedulerStep
    | LlamaTokenGen

  /** The five model kinds a worker can serve. */
  datatype ModelType = Sentiment | Summarize | Translation | Diffusion | Llama

  /** Owner of every command the supervisor issues itself. */
  const ROOT: string := "ROOT"

  /** Capacity of each worker's command channel. */
  const MPSC_LEN: nat := 200

  /** Capacity of the broadcast bus. */
  const BORDCAST_LEN: nat := 200

  /** Period of the supervisor's health task, in milliseconds. */
  const INTERVAL: nat := 2000
}
