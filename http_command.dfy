/**
 * The server's translation of an authenticated request body into a command
 * for the supervisor. The branch is chosen by the command type the body
 * claims; a field that branch needs but the body lacks makes the server
 * panic, modelled as no command.
 */
module HttpCommand {
  import opened Wrappers
  import Types
  import I = Instruction
  import opened Command
  import P = Payload

  /** Whether the body has what its claimed command type needs. */
  predicate Convertible(p: P.Payload)
  {
    match P.CommandTypeOf(p)
    case Process => P.JsonInputOf(p).Some?
    case Kill => P.TaskIdOf(p).Some?
    case Pause => P.TaskIdOf(p).Some?
    case Resume => P.TaskIdOf(p).Some?
    case Spawn => true
  }

  /** The command for a body sent by `userId` at time `now`; `None` where the server panics. */
  function CommandFrom(userId: string, p: P.Payload, now: nat): (r: Option<Command>)
    ensures r.Some? <==> Convertible(p)
  {
    match P.CommandTypeOf(p)
    case Process =>
      if P.JsonInputOf(p).None? then None
      else Some(Process(I.Process(Types.CommandType.Process, P.ModelTypeOf(p), P.TaskIdOf(p), P.JsonInputOf(p).value, now, userId)))
    case Kill =>
      if P.TaskIdOf(p).None? then None
      else Some(Kill(I.Kill(Types.CommandType.Kill, P.ModelTypeOf(p), P.TaskIdOf(p).value, now, userId)))
    case Pause =>
      if P.TaskIdOf(p).None? then None
      else Some(Pause(I.Pause(Types.CommandType.Pause, P.ModelTypeOf(p), P.TaskIdOf(p).value, now, userId)))
    case Resume =>
      if P.TaskIdOf(p).None? then None
      else Some(Resume(I.Resume(Types.CommandType.Resume, P.ModelTypeOf(p), P.TaskIdOf(p).value, now, userId)))
    case Spawn =>
      Some(Spawn(I.Spawn(Types.CommandType.Spawn, P.ModelTypeOf(p), now, userId)))
  }

  /** The variant of a command, as a command type. */
  function KindOf(c: Command): Types.CommandType
  {
    match c
    case Process(_) => Types.CommandType.Process
    case Kill(_) => Types.CommandType.Kill
    case Pause(_) => Types.CommandType.Pause
    case Resume(_) => Types.CommandType.Resume
    case Spawn(_) => Types.CommandType.Spawn
  }

  /**
   * A converted body gives the command its claimed type selects, with that
   * type as its command type, the sender as owner, the body's model type,
   * and the body's task id and input where the command has them.
   */
  lemma CommandFromContents(userId: string, p: P.Payload, now: nat)
    requires Convertible(p)
    ensures var c := CommandFrom(userId, p, now).value;
      var b := BoxedInstruction(c);
      KindOf(c) == P.CommandTypeOf(p) && I.CommandTypeOf(b) == P.CommandTypeOf(p)
      && I.OwnerOf(b) == userId && I.ModelTypeOf(b) == P.ModelTypeOf(p) && I.TimestampOf(b) == now
      && (c.Spawn? ==> I.TaskIdOf(b).None? && I.JsonInputOf(b).None?)
      && (!c.Spawn? ==> I.TaskIdOf(b) == P.TaskIdOf(p))
      && (c.Process? ==> I.JsonInputOf(b) == P.JsonInputOf(p))
  {
  }

  /** A body built by its own constructor always converts, to the command of its kind. */
  lemma ConstructedBodiesConvert(userId: string, mt: Types.ModelType, id: string, input: string, now: nat)
    ensures CommandFrom(userId, P.NewProcess(mt, id, input), now).Some?
    ensures CommandFrom(userId, P.NewProcess(mt, id, input), now).value.Process?
    ensures CommandFrom(userId, P.NewKill(mt, id), now).Some?
    ensures CommandFrom(userId, P.NewKill(mt, id), now).value.Kill?
    ensures CommandFrom(userId, P.NewPause(mt, id), now).Some?
    ensures CommandFrom(userId, P.NewPause(mt, id), now).value.Pause?
    ensures CommandFrom(userId, P.NewSpawn(mt), now) == Some(Spawn(I.Spawn(Types.CommandType.Spawn, mt, now, userId)))
  {
  }

  /** A body claiming "process" panics the server unless it is a process body. */
  lemma ProcessClaimNeedsProcessBody(userId: string, p: P.Payload, now: nat)
    requires P.CommandTypeOf(p) == Types.CommandType.Process
    ensures CommandFrom(userId, p, now).Some? <==> p.ProcessBody?
  {
    P.AccessorsByBody(p);
  }

  /** A spawn body relabelled as kill, pause or resume panics the server. */
  lemma RelabelledSpawnPanics(userId: string, mt: Types.ModelType, tag: Types.CommandType, now: nat)
    requires tag != Types.CommandType.Spawn && tag != Types.CommandType.Process
    ensures CommandFrom(userId, P.SpawnBody(tag, mt), now).None?
  {
  }

  /** The owner of every command is the sender, whoever the body names. */
  lemma OwnerIsSender(userId: string, p: P.Payload, now: nat)
    requires Convertible(p)
    ensures I.OwnerOf(BoxedInstruction(CommandFrom(userId, p, now).value)) == userId
  {
    CommandFromContents(userId, p, now);
  }
}
