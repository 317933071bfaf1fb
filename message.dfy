/** The events published on the broadcast bus, one record shape per message type. */
module Message {
  import opened Wrappers
  import Types

  datatype Message =
    | Health(owner: string, messageType: Types.MessageType, timestamp: nat, taskId: string, value: string)
    | CommandSucess(owner: string, messageType: Types.MessageType, commandType: Types.CommandType,
                    modelType: Types.ModelType, timestamp: nat, taskId: string)
    | CommandFailed(owner: string, timestamp: nat, commandType: Types.CommandType,
                    modelType: Types.ModelType, messageType: Types.MessageType, error: string)
    | ModelPaused(owner: string, timestamp: nat, messageType: Types.MessageType, modelType: Types.ModelType, taskId: string)
    | ModelResumed(owner: string, timestamp: nat, messageType: Types.MessageType, modelType: Types.ModelType, taskId: string)
    | ModelKilled(owner: string, timestamp: nat, messageType: Types.MessageType, modelType: Types.ModelType, taskId: string)
    | ModelStarted(owner: string, timestamp: nat, messageType: Types.MessageType, modelType: Types.ModelType, taskId: string)
    | ModelLoaded(owner: string, timestamp: nat, messageType: Types.MessageType, modelType: Types.ModelType, taskId: string)
    | ModelPrediction(owner: string, timestamp: nat, messageType: Types.MessageType, modelType: Types.ModelType,
                      value: string, taskId: string)
    | ModelError(owner: string, timestamp: nat, messageType: Types.MessageType, modelType: Types.ModelType,
                 error: string, taskId: string)
    | SchedulerStep(owner: string, timestamp: nat, commandType: Types.CommandType, modelType: Types.ModelType,
                    messageType: Types.MessageType, value: string)
    | LlamaTokenGen(owner: string, timestamp: nat, commandType: Types.CommandType, modelType: Types.ModelType,
                    messageType: Types.MessageType, value: string)

  /** The message's type, read from its variant (not from its `messageType` field). */
  function MessageTypeOf(m: Message): Types.MessageType
  {
    match m
    case Health(_, _, _, _, _) => Types.Health
    case CommandSucess(_, _, _, _, _, _) => Types.CommandSucess
    case CommandFailed(_, _, _, _, _, _) => Types.CommandFailed
    case ModelPaused(_, _, _, _, _) => Types.ModelPaused
    case ModelResumed(_, _, _, _, _) => Types.ModelResumed
    case ModelKilled(_, _, _, _, _) => Types.ModelKilled
    case ModelStarted(_, _, _, _, _) => Types.ModelStarted
    case ModelLoaded(_, _, _, _, _) => Types.ModelLoaded
    case ModelPrediction(_, _, _, _, _, _) => Types.ModelPrediction
    case ModelError(_, _, _, _, _, _) => Types.ModelError
    case SchedulerStep(_, _, _, _, _, _) => Types.SchedulerStep
    case LlamaTokenGen(_, _, _, _, _, _) => Types.LlamaTokenGen
  }

  predicate IsHealth(m: Message)
  {
    m.Health?
  }

  /** The message types whose task id the `task_id` accessor reports. */
  const TaskReporting: set<Types.MessageType> :=
    {Types.ModelPaused, Types.ModelResumed, Types.ModelPrediction, Types.ModelLoaded,
     Types.ModelKilled, Types.ModelStarted, Types.Health, Types.ModelError}

  /** The task id of task-related messages; none for the others (command success included). */
  function TaskIdOf(m: Message): (r: Option<string>)
    ensures r.Some? <==> MessageTypeOf(m) in TaskReporting
    ensures r.Some? ==> r.value == m.taskId
  {
    match m
    case ModelPaused(_, _, _, _, id) => Some(id)
    case ModelResumed(_, _, _, _, id) => Some(id)
    case ModelPrediction(_, _, _, _, _, id) => Some(id)
    case ModelLoaded(_, _, _, _, id) => Some(id)
    case ModelKilled(_, _, _, _, id) => Some(id)
    case ModelStarted(_, _, _, _, id) => Some(id)
    case Health(_, _, _, id, _) => Some(id)
    case ModelError(_, _, _, _, _, id) => Some(id)
    case _ => None
  }

  /** Two messages have the same type exactly when they are built by the same variant. */
  lemma MessageTypeDistinct(a: Message, b: Message)
    ensures MessageTypeOf(a) == MessageTypeOf(b) <==>
      a.Health? == b.Health? && a.CommandSucess? == b.CommandSucess? && a.CommandFailed? == b.CommandFailed? &&
      a.ModelPaused? == b.ModelPaused? && a.ModelResumed? == b.ModelResumed? && a.ModelKilled? == b.ModelKilled? &&
      a.ModelStarted? == b.ModelStarted? && a.ModelLoaded? == b.ModelLoaded? &&
      a.ModelPrediction? == b.ModelPrediction? && a.ModelError? == b.ModelError? &&
      a.SchedulerStep? == b.SchedulerStep? && a.LlamaTokenGen? == b.LlamaTokenGen?
  {
  }

  /** `is_health` holds exactly of the messages whose type is Health. */
  lemma IsHealthIffHealthType(m: Message)
    ensures IsHealth(m) <==> MessageTypeOf(m) == Types.Health
  {
  }

  /** The number of messages of one type in a stretch of the bus. */
  function CountOf(ms: seq<Message>, t: Types.MessageType): (n: nat)
    ensures n <= |ms|
  {
    if |ms| == 0 then 0
    else CountOf(ms[..|ms| - 1], t) + (if MessageTypeOf(ms[|ms| - 1]) == t then 1 else 0)
  }

  lemma {:induction false} CountOfAppend(a: seq<Message>, b: seq<Message>, t: Types.MessageType)
    ensures CountOf(a + b, t) == CountOf(a, t) + CountOf(b, t)
    decreases |b|
  {
    if |b| == 0 {
      assert a + b == a;
    } else {
      assert (a + b)[..|a + b| - 1] == a + b[..|b| - 1];
      CountOfAppend(a, b[..|b| - 1], t);
    }
  }
}
