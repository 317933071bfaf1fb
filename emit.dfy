/**
 * Building a bus message from an emit source and publishing it. A message
 * type needs certain fields of its source; a missing one makes the builder
 * panic. Publishing fails when the bus has no receiver.
 */
module Emit {
  import opened Wrappers
  import Types
  import I = Instruction
  import opened Message

  /** Who an event is about: filled from an instruction, then from the emitting task. */
  datatype EmitSource = EmitSource(
    commandType: Option<Types.CommandType>, owner: string,
    taskId: Option<string>, modelType: Option<Types.ModelType>)

  /** Root's source, with nothing else known. */
  function DefaultSource(): (s: EmitSource)
    ensures s.owner == Types.ROOT && s.commandType.None? && s.taskId.None? && s.modelType.None?
  {
    EmitSource(None, Types.ROOT, None, None)
  }

  /** The same source, now naming the emitting task. */
  function SetTaskId(s: EmitSource, id: string): (r: EmitSource)
    ensures r.taskId == Some(id)
    ensures r.owner == s.owner && r.commandType == s.commandType && r.modelType == s.modelType
  {
    s.(taskId := Some(id))
  }

  /** The same source, now speaking for another owner. */
  function SetOwner(s: EmitSource, owner: string): (r: EmitSource)
    ensures r.owner == owner
    ensures r.taskId == s.taskId && r.commandType == s.commandType && r.modelType == s.modelType
  {
    s.(owner := owner)
  }

  /** The health task's source. */
  function HealthSource(id: string): (s: EmitSource)
    ensures s.owner == Types.ROOT && s.taskId == Some(id) && s.commandType.None? && s.modelType.None?
  {
    EmitSource(None, Types.ROOT, Some(id), None)
  }

  /** The source an instruction describes. */
  function FromInstruction(b: I.Boxed): (s: EmitSource)
    ensures s.commandType == Some(I.CommandTypeOf(b)) && s.modelType == Some(I.ModelTypeOf(b))
    ensures s.owner == I.OwnerOf(b) && s.taskId == I.TaskIdOf(b)
  {
    EmitSource(Some(I.CommandTypeOf(b)), I.OwnerOf(b), I.TaskIdOf(b), Some(I.ModelTypeOf(b)))
  }

  /** The optional inputs a message type reads. */
  datatype Field = CommandTypeField | TaskIdField | ModelTypeField | ValueField

  /** Which optional inputs each message type cannot do without. */
  function Needs(t: Types.MessageType): set<Field>
  {
    match t
    case Health => {TaskIdField, ValueField}
    case SchedulerStep => {ValueField}
    case LlamaTokenGen => {ValueField}
    case CommandFailed => {CommandTypeField, ModelTypeField, ValueField}
    case CommandSucess => {CommandTypeField, ModelTypeField, TaskIdField}
    case ModelPrediction => {ModelTypeField, TaskIdField, ValueField}
    case ModelError => {ModelTypeField, TaskIdField, ValueField}
    case _ => {ModelTypeField, TaskIdField}
  }

  /** Which optional inputs a source and value supply. */
  function Present(s: EmitSource, value: Option<string>): set<Field>
  {
    (if s.commandType.Some? then {CommandTypeField} else {})
    + (if s.taskId.Some? then {TaskIdField} else {})
    + (if s.modelType.Some? then {ModelTypeField} else {})
    + (if value.Some? then {ValueField} else {})
  }

  /** Whether a source and value hold every field a message type unwraps. */
  predicate Supplies(t: Types.MessageType, s: EmitSource, value: Option<string>)
  {
    match t
    case Health => s.taskId.Some? && value.Some?
    case SchedulerStep => value.Some?
    case LlamaTokenGen => value.Some?
    case CommandFailed => s.commandType.Some? && s.modelType.Some? && value.Some?
    case CommandSucess => s.commandType.Some? && s.modelType.Some? && s.taskId.Some?
    case ModelPrediction => s.modelType.Some? && s.taskId.Some? && value.Some?
    case ModelError => s.modelType.Some? && s.taskId.Some? && value.Some?
    case _ => s.modelType.Some? && s.taskId.Some?
  }

  /** A source supplies a type exactly when the fields it has cover the fields the type needs. */
  lemma SuppliesNeeds(t: Types.MessageType, s: EmitSource, value: Option<string>)
    ensures Supplies(t, s, value) <==> Needs(t) <= Present(s, value)
  {
    var p := Present(s, value);
    assert CommandTypeField in p <==> s.commandType.Some?;
    assert TaskIdField in p <==> s.taskId.Some?;
    assert ModelTypeField in p <==> s.modelType.Some?;
    assert ValueField in p <==> value.Some?;
  }

  /**
   * The message a type builds from a source, an optional value and the
   * current time; None when a field it unwraps is missing (a panic).
   */
  function Build(t: Types.MessageType, s: EmitSource, value: Option<string>, now: nat): (r: Option<Message>)
    ensures r.Some? <==> Supplies(t, s, value)
  {
    var o := s.owner;
    match t
    case Health =>
      if s.taskId.Some? && value.Some? then Some(Health(o, t, now, s.taskId.value, value.value)) else None
    case SchedulerStep =>
      if value.Some? then Some(SchedulerStep(o, now, Types.CommandType.Process, Types.Diffusion, t, value.value)) else None
    case LlamaTokenGen =>
      if value.Some? then Some(LlamaTokenGen(o, now, Types.CommandType.Process, Types.Diffusion, t, value.value)) else None
    case CommandFailed =>
      if s.commandType.Some? && value.Some? && s.modelType.Some? then
        Some(CommandFailed(o, now, s.commandType.value, s.modelType.value, t, value.value))
      else None
    case CommandSucess =>
      if s.commandType.Some? && s.modelType.Some? && s.taskId.Some? then
        Some(CommandSucess(o, t, s.commandType.value, s.modelType.value, now, s.taskId.value))
      else None
    case ModelKilled =>
      if s.modelType.Some? && s.taskId.Some? then Some(ModelKilled(o, now, t, s.modelType.value, s.taskId.value)) else None
    case ModelPaused =>
      if s.modelType.Some? && s.taskId.Some? then Some(ModelPaused(o, now, t, s.modelType.value, s.taskId.value)) else None
    case ModelResumed =>
      if s.modelType.Some? && s.taskId.Some? then Some(ModelResumed(o, now, t, s.modelType.value, s.taskId.value)) else None
    case ModelStarted =>
      if s.modelType.Some? && s.taskId.Some? then Some(ModelStarted(o, now, t, s.modelType.value, s.taskId.value)) else None
    case ModelLoaded =>
      if s.modelType.Some? && s.taskId.Some? then Some(ModelLoaded(o, now, t, s.modelType.value, s.taskId.value)) else None
    case ModelPrediction =>
      if s.modelType.Some? && s.taskId.Some? && value.Some? then
        Some(ModelPrediction(o, now, t, s.modelType.value, value.value, s.taskId.value))
      else None
    case ModelError =>
      if s.modelType.Some? && s.taskId.Some? && value.Some? then
        Some(ModelError(o, now, t, s.modelType.value, value.value, s.taskId.value))
      else None
  }

  /**
   * A built message has the requested type, the source's owner and the
   * current time; the task id, command type, model type and value come from
   * the source and value where the type carries them, and the tick messages
   * always say Process and Diffusion.
   */
  lemma BuildContents(t: Types.MessageType, s: EmitSource, value: Option<string>, now: nat, m: Message)
    requires Build(t, s, value, now) == Some(m)
    ensures MessageTypeOf(m) == t && m.messageType == t
    ensures m.owner == s.owner && m.timestamp == now
    ensures TaskIdOf(m) == (if t in TaskReporting then s.taskId else None)
    ensures t == Types.SchedulerStep || t == Types.LlamaTokenGen ==>
      m.commandType == Types.CommandType.Process && m.modelType == Types.Diffusion
    ensures t == Types.CommandSucess || t == Types.CommandFailed ==>
      Some(m.commandType) == s.commandType && Some(m.modelType) == s.modelType
    ensures t == Types.CommandSucess ==> Some(m.taskId) == s.taskId
    ensures t == Types.CommandFailed || t == Types.ModelError ==> Some(m.error) == value
    ensures m.Health? || m.ModelPrediction? || m.SchedulerStep? || m.LlamaTokenGen? ==> Some(m.value) == value
  {
  }

  /** How an emit ends: published, refused by a bus without receivers, or a panic while building. */
  datatype Outcome = Sent | SendFailed | Panicked

  /** Emitting onto a bus: the bus grows by the built message exactly when it is published. */
  function EmitTo(bus: seq<Message>, t: Types.MessageType, s: EmitSource, value: Option<string>,
                  now: nat, receivers: bool): (r: (seq<Message>, Outcome))
    ensures r.1 == Panicked <==> !Supplies(t, s, value)
    ensures r.1 == Sent <==> Supplies(t, s, value) && receivers
    ensures r.1 == Sent ==> r.0 == bus + [Build(t, s, value, now).value]
    ensures r.1 != Sent ==> r.0 == bus
  {
    match Build(t, s, value, now)
    case None => (bus, Panicked)
    case Some(m) => if receivers then (bus + [m], Sent) else (bus, SendFailed)
  }

  /** A source taken from an instruction can always report success of its command once it names a task. */
  lemma InstructionSourceReports(b: I.Boxed, id: string, now: nat, error: string)
    ensures Build(Types.CommandSucess, SetTaskId(FromInstruction(b), id), None, now).Some?
    ensures Build(Types.CommandFailed, SetTaskId(FromInstruction(b), id), Some(error), now).Some?
    ensures Build(Types.ModelStarted, SetTaskId(FromInstruction(b), id), None, now).Some?
  {
  }

  /** Every type but the scheduler and token ticks needs a task id or a command type: the default source cannot emit them. */
  lemma DefaultSourceEmits(t: Types.MessageType, v: string, now: nat)
    ensures Build(t, DefaultSource(), Some(v), now).Some? <==> t == Types.SchedulerStep || t == Types.LlamaTokenGen
  {
  }
}
