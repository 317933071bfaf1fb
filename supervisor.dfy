/**
 * The supervisor: a registry of running model tasks keyed by task id, fed by
 * a stream of commands. Each command is applied to the registry, and its
 * outcome (success, or failure with the error's Debug text) is published on
 * the broadcast bus.
 *
 * What the runtime decides is an input here: per command, an `Env` gives the
 * clock, the supervisor's own task id, the id the runtime hands a newly
 * spawned task, whether that spawn succeeds, whether the bus has receivers,
 * and the order in which the concurrent map is iterated.
 */
module Supervisor {
  import opened Wrappers
  import Types
  import I = Instruction
  import C = Command
  import opened Message
  import E = Emit
  import opened Errors
  import Text

  /**
   * A running task: its id, its name, whether the supervisor aborted it, and
   * whether its worker ended by itself (a worker returns its error or panics
   * when an emission fails), which drops the receiving end of its channel.
   */
  datatype TaskHandle = TaskHandle(id: string, name: string, aborted: bool, exited: bool)

  /** Nothing receives on the task's channel any more. */
  predicate Gone(h: TaskHandle)
  {
    h.aborted || h.exited
  }

  /** A registered worker: its task, the queue of its command channel, and what it serves. */
  datatype Register = Register(handle: TaskHandle, tx: seq<I.Process>, owner: string, modelType: Types.ModelType)

  type Registry = map<string, Register>

  datatype Env = Env(now: nat, selfId: string, freshId: string, spawnOk: bool, receivers: bool, order: seq<string>)

  /** A handler's result: success, an error, or a panic of the supervisor task. */
  datatype Response = Ok | Err(error: ActorError) | Panic

  datatype State = State(registry: Registry, bus: seq<Message>)

  /** Debug rendering of a model type. */
  function ModelTypeName(t: Types.ModelType): string
  {
    match t
    case Sentiment => "Sentiment"
    case Summarize => "Summarize"
    case Translation => "Translation"
    case Diffusion => "Diffusion"
    case Llama => "Llama"
  }

  /** How many registered tasks serve a model type. */
  function CountOfType(reg: Registry, t: Types.ModelType): nat
  {
    |set k | k in reg && reg[k].modelType == t|
  }

  /** A spawned task's name: its model type and how many of that type were registered before. */
  function TaskName(t: Types.ModelType, count: nat): string
  {
    ModelTypeName(t) + "-" + Text.Decimal(count)
  }

  /** Distinct counts give distinct names for one model type. */
  lemma TaskNamesDistinct(t: Types.ModelType, a: nat, b: nat)
    requires TaskName(t, a) == TaskName(t, b)
    ensures a == b
  {
    var p := ModelTypeName(t) + "-";
    assert TaskName(t, a)[|p|..] == Text.Decimal(a);
    assert TaskName(t, b)[|p|..] == Text.Decimal(b);
    Text.DecimalInjective(a, b);
  }

  predicate Serves(reg: Registry, k: string, t: Types.ModelType)
  {
    k in reg && reg[k].modelType == t
  }

  /** The first position from `from` on, in iteration order, of a task serving `t`. */
  function FindFrom(reg: Registry, order: seq<string>, t: Types.ModelType, from: nat): (r: Option<nat>)
    requires from <= |order|
    ensures r.Some? ==> from <= r.value < |order| && Serves(reg, order[r.value], t)
    ensures r.Some? ==> forall j :: from <= j < r.value ==> !Serves(reg, order[j], t)
    ensures r.None? ==> forall j :: from <= j < |order| ==> !Serves(reg, order[j], t)
    decreases |order| - from
  {
    if from == |order| then None
    else if Serves(reg, order[from], t) then Some(from)
    else FindFrom(reg, order, t, from + 1)
  }

  /** The register a process instruction goes to, if any: the named task, or the first task of its type. */
  function ProcessTarget(reg: Registry, p: I.Process, order: seq<string>): Option<string>
  {
    match p.taskId
    case Some(id) => if id in reg then Some(id) else None
    case None =>
      match FindFrom(reg, order, p.modelType, 0)
      case Some(i) => Some(order[i])
      case None => None
  }

  /** `reg'` is `reg` with one more instruction queued on task `k`, and nothing else changed. */
  predicate QueuedOn(reg: Registry, reg': Registry, k: string, p: I.Process)
  {
    k in reg && reg'.Keys == reg.Keys
    && reg'[k] == reg[k].(tx := reg[k].tx + [p])
    && forall j :: j in reg && j != k ==> reg'[j] == reg[j]
  }

  /** Handling a process instruction: forward it to its target's channel. */
  function ProcessSpec(reg: Registry, p: I.Process, order: seq<string>): (r: (Registry, Response))
  {
    match ProcessTarget(reg, p, order)
    case None =>
      if p.taskId.Some? then (reg, Err(SupervisorModelProcessTaskIdNotFound(p.owner))) else (reg, Panic)
    case Some(k) =>
      if Gone(reg[k].handle) then (reg, Err(SupervisorModelProcessEchoFailed(p.owner)))
      else (reg[k := reg[k].(tx := reg[k].tx + [p])], Ok)
  }

  /**
   * A process instruction panics only when it names no task and no task of
   * its type exists; it fails when the named task is unknown or the target's
   * worker is gone; otherwise exactly the target's queue grows by it.
   */
  lemma ProcessOutcome(reg: Registry, p: I.Process, order: seq<string>)
    ensures var r := ProcessSpec(reg, p, order);
      var t := ProcessTarget(reg, p, order);
      (r.1.Panic? <==> p.taskId.None? && FindFrom(reg, order, p.modelType, 0).None?)
      && (r.1 == Err(SupervisorModelProcessTaskIdNotFound(p.owner)) <==> p.taskId.Some? && p.taskId.value !in reg)
      && (r.1 == Err(SupervisorModelProcessEchoFailed(p.owner)) <==> t.Some? && Gone(reg[t.value].handle))
      && (r.1.Ok? <==> t.Some? && !Gone(reg[t.value].handle))
      && (r.1.Ok? ==> QueuedOn(reg, r.0, t.value, p))
      && (!r.1.Ok? ==> r.0 == reg)
  {
  }

  /**
   * When iteration visits every registered task, a process instruction
   * panics exactly when it names no task and no registered task serves its
   * model type.
   */
  lemma ProcessPanicsIffNoTaskOfType(reg: Registry, p: I.Process, order: seq<string>)
    requires forall k :: k in reg ==> k in order
    ensures ProcessSpec(reg, p, order).1.Panic? <==>
      p.taskId.None? && forall k :: k in reg ==> !Serves(reg, k, p.modelType)
  {
    ProcessOutcome(reg, p, order);
    if ProcessSpec(reg, p, order).1.Panic? {
      forall k | k in reg
        ensures !Serves(reg, k, p.modelType)
      {
        var j :| 0 <= j < |order| && order[j] == k;
      }
    } else if p.taskId.None? {
      var i := FindFrom(reg, order, p.modelType, 0).value;
      assert Serves(reg, order[i], p.modelType);
    }
  }

  /** Without a task id, a process instruction goes to the first task of its type in iteration order. */
  lemma ProcessRoutesByType(reg: Registry, p: I.Process, order: seq<string>)
    requires p.taskId.None?
    requires ProcessSpec(reg, p, order).1.Ok?
    ensures var k := ProcessTarget(reg, p, order).value;
      Serves(reg, k, p.modelType) && k in order
      && forall j :: 0 <= j < |order| && order[j] != k && Serves(reg, order[j], p.modelType) ==>
           exists i :: 0 <= i < j && order[i] == k
  {
    var i := FindFrom(reg, order, p.modelType, 0).value;
    forall j | 0 <= j < |order| && order[j] != order[i] && Serves(reg, order[j], p.modelType)
      ensures exists i' :: 0 <= i' < j && order[i'] == order[i]
    {
      assert i < j;
    }
  }

  /**
   * With a task id, the instruction's model type is not checked against the
   * task's: an instruction for a live task is queued on it whatever the task serves.
   */
  lemma ProcessIgnoresModelTypeWithId(reg: Registry, p: I.Process, order: seq<string>, t: Types.ModelType)
    requires p.taskId.Some? && p.taskId.value in reg && !Gone(reg[p.taskId.value].handle)
    ensures var k := p.taskId.value;
      var reg' := reg[k := reg[k].(modelType := t)];
      ProcessSpec(reg', p, order).1.Ok? && ProcessSpec(reg, p, order).1.Ok?
      && QueuedOn(reg', ProcessSpec(reg', p, order).0, k, p)
  {
  }

  /** The runtime's record that the worker of task `k` ended by itself. */
  function WorkerEnded(reg: Registry, k: string): (reg': Registry)
    requires k in reg
    ensures reg'.Keys == reg.Keys && Gone(reg'[k].handle)
    ensures reg'[k].(handle := reg[k].handle) == reg[k] && reg'[k].handle.(exited := reg[k].handle.exited) == reg[k].handle
    ensures forall j :: j in reg && j != k ==> reg'[j] == reg[j]
  {
    reg[k := reg[k].(handle := reg[k].handle.(exited := true))]
  }

  /** The search for a task of one type only looks at the model types of the registers. */
  lemma {:induction false} FindFromSameTypes(reg: Registry, reg': Registry, order: seq<string>, t: Types.ModelType, from: nat)
    requires from <= |order| && reg'.Keys == reg.Keys
    requires forall j :: j in reg ==> reg'[j].modelType == reg[j].modelType
    ensures FindFrom(reg', order, t, from) == FindFrom(reg, order, t, from)
    decreases |order| - from
  {
    if from < |order| {
      FindFromSameTypes(reg, reg', order, t, from + 1);
    }
  }

  /**
   * Once a task's worker has ended, every process instruction routed to that
   * task fails to reach it and changes nothing.
   */
  lemma EndedWorkerRefuses(reg: Registry, k: string, p: I.Process, order: seq<string>)
    requires k in reg && ProcessTarget(reg, p, order) == Some(k)
    ensures ProcessSpec(WorkerEnded(reg, k), p, order) == (WorkerEnded(reg, k), Err(SupervisorModelProcessEchoFailed(p.owner)))
  {
    FindFromSameTypes(reg, WorkerEnded(reg, k), order, p.modelType, 0);
  }

  /** Handling a kill: abort the named task, keep its entry, and announce the kill. */
  function KillSpec(s: State, k: I.Kill, env: Env): (r: (State, Response))
  {
    if k.taskId in s.registry then
      var reg := s.registry[k.taskId := s.registry[k.taskId].(handle := s.registry[k.taskId].handle.(aborted := true))];
      var emitted := E.EmitTo(s.bus, Types.ModelKilled, E.FromInstruction(I.OfKill(k)), None, env.now, env.receivers);
      (State(reg, emitted.0), if emitted.1 == E.Sent then Ok else Err(SupervisorModelEmitKillEmitMessageFailed(k.owner)))
    else (s, Err(SupervisorModelKillEmitTaskIdNotFound(k.owner)))
  }

  /**
   * A kill of an unknown task changes nothing; a kill of a known task aborts
   * it, and succeeds exactly when the kill announcement is published, naming
   * the task, the instruction's owner and its model type.
   */
  lemma KillOutcome(s: State, k: I.Kill, env: Env)
    ensures var r := KillSpec(s, k, env);
      (k.taskId !in s.registry ==> r == (s, Err(SupervisorModelKillEmitTaskIdNotFound(k.owner))))
      && (k.taskId in s.registry ==>
            r.0.registry == s.registry[k.taskId := s.registry[k.taskId].(handle := s.registry[k.taskId].handle.(aborted := true))])
      && (r.1.Ok? <==> k.taskId in s.registry && env.receivers)
      && (k.taskId in s.registry && !env.receivers ==> r.1 == Err(SupervisorModelEmitKillEmitMessageFailed(k.owner)))
      && (r.1.Ok? ==> |r.0.bus| == |s.bus| + 1 && r.0.bus[..|s.bus|] == s.bus)
      && (r.1.Ok? ==> var m := r.0.bus[|s.bus|];
            m.ModelKilled? && m.taskId == k.taskId && m.owner == k.owner && m.modelType == k.modelType && m.timestamp == env.now)
      && (!r.1.Ok? ==> r.0.bus == s.bus)
  {
    if k.taskId in s.registry && env.receivers {
      var src := E.FromInstruction(I.OfKill(k));
      E.BuildContents(Types.ModelKilled, src, None, env.now, E.Build(Types.ModelKilled, src, None, env.now).value);
    }
  }

  /** A killed task stays registered: its key, owner, type and queue are kept, only its handle is aborted. */
  lemma KillKeepsEntry(s: State, k: I.Kill, env: Env)
    requires k.taskId in s.registry
    ensures var reg := KillSpec(s, k, env).0.registry;
      reg.Keys == s.registry.Keys && reg[k.taskId].handle.aborted
      && reg[k.taskId].owner == s.registry[k.taskId].owner && reg[k.taskId].tx == s.registry[k.taskId].tx
  {
  }

  /** The register a spawn creates. */
  function NewRegister(reg: Registry, sp: I.Spawn, id: string): Register
  {
    Register(TaskHandle(id, TaskName(sp.modelType, CountOfType(reg, sp.modelType)), false, false), [], sp.owner, sp.modelType)
  }

  /**
   * Handling a spawn: start a task and register it under its task id. A
   * second register under an id already present replaces the first and the
   * spawn still reports failure to insert.
   */
  function SpawnSpec(reg: Registry, sp: I.Spawn, env: Env): (r: (Registry, Response))
  {
    if env.spawnOk then
      var reg' := reg[env.freshId := NewRegister(reg, sp, env.freshId)];
      (reg', if env.freshId in reg then Err(SupervisorModelSpawnInsertTaskIdFailed(sp.owner)) else Ok)
    else (reg, Err(SupervisorModelSpawnModelSpawnFailed(sp.owner)))
  }

  /**
   * A failed start changes nothing. A started task is registered under its
   * id with an empty queue, the spawn's owner and model type; every other
   * entry is kept; the spawn succeeds exactly when the id was not yet taken.
   */
  lemma SpawnOutcome(reg: Registry, sp: I.Spawn, env: Env)
    ensures var r := SpawnSpec(reg, sp, env);
      (!env.spawnOk ==> r == (reg, Err(SupervisorModelSpawnModelSpawnFailed(sp.owner))))
      && (env.spawnOk ==> r.0.Keys == reg.Keys + {env.freshId})
      && (env.spawnOk ==> var n := r.0[env.freshId];
            n.handle.id == env.freshId && !Gone(n.handle) && n.tx == [] && n.owner == sp.owner && n.modelType == sp.modelType)
      && (env.spawnOk ==> forall j :: j in reg && j != env.freshId ==> r.0[j] == reg[j])
      && (env.spawnOk ==> (r.1.Ok? <==> env.freshId !in reg))
      && (env.spawnOk && !r.1.Ok? ==> r.1 == Err(SupervisorModelSpawnInsertTaskIdFailed(sp.owner)))
  {
  }

  /** The source a spawned worker starts from: the spawn instruction's, naming the worker's own task. */
  function WorkerSource(sp: I.Spawn, id: string): (s: E.EmitSource)
    ensures s.taskId == Some(id) && s.modelType == Some(sp.modelType) && s.owner == sp.owner
  {
    E.SetTaskId(E.FromInstruction(I.OfSpawn(sp)), id)
  }

  /** The source a command's outcome is reported with. */
  function CommandSource(c: C.Command, selfId: string): E.EmitSource
  {
    E.SetTaskId(E.FromInstruction(C.BoxedInstruction(c)), selfId)
  }

  /** What the handler of a command does, before its outcome is reported. */
  function Apply(s: State, c: C.Command, env: Env): (State, Response)
  {
    match c
    case Kill(k) => KillSpec(s, k, env)
    case Spawn(sp) => var r := SpawnSpec(s.registry, sp, env); (State(r.0, s.bus), r.1)
    case Process(p) => var r := ProcessSpec(s.registry, p, env.order); (State(r.0, s.bus), r.1)
    case _ => (s, Err(SupervisoRunCommandNotImplemented))
  }

  /** Reporting an outcome; a failed report is only logged. */
  function Report(bus: seq<Message>, c: C.Command, r: Response, env: Env): seq<Message>
    requires !r.Panic?
  {
    var src := CommandSource(c, env.selfId);
    if r.Ok? then E.EmitTo(bus, Types.CommandSucess, src, None, env.now, env.receivers).0
    else E.EmitTo(bus, Types.CommandFailed, src, Some(ErrorDebug(r.error)), env.now, env.receivers).0
  }

  /** One turn of the command loop. */
  function Dispatch(s: State, c: C.Command, env: Env): (State, Response)
  {
    var handled := Apply(s, c, env);
    if handled.1.Panic? then handled
    else (State(handled.0.registry, Report(handled.0.bus, c, handled.1, env)), handled.1)
  }

  /**
   * Every handled command is answered by exactly one report on the bus when
   * it has receivers: success or failure as the handler returned, for the
   * command's owner, under the supervisor's task id.
   */
  lemma DispatchReportsOnce(s: State, c: C.Command, env: Env)
    requires env.receivers
    requires !Dispatch(s, c, env).1.Panic?
    ensures var s', r := Dispatch(s, c, env).0, Dispatch(s, c, env).1;
      var h := Apply(s, c, env).0;
      |s'.bus| == |h.bus| + 1 && s'.bus[..|h.bus|] == h.bus
      && var m := s'.bus[|h.bus|];
      (m.CommandSucess? <==> r.Ok?) && (m.CommandFailed? <==> r.Err?)
      && m.owner == I.OwnerOf(C.BoxedInstruction(c))
      && (m.CommandSucess? ==> m.taskId == env.selfId)
      && (m.CommandFailed? ==> m.error == ErrorDebug(r.error))
  {
    var (h, r) := Apply(s, c, env);
    E.InstructionSourceReports(C.BoxedInstruction(c), env.selfId, env.now, if r.Err? then ErrorDebug(r.error) else "");
  }

  /** Pause and resume are not implemented: the registry is untouched and the failure names that. */
  lemma PauseResumeNotImplemented(s: State, c: C.Command, env: Env)
    requires c.Pause? || c.Resume?
    requires env.receivers
    ensures var s', r := Dispatch(s, c, env).0, Dispatch(s, c, env).1;
      s'.registry == s.registry && r == Err(SupervisoRunCommandNotImplemented)
      && s'.bus == s.bus + [CommandFailed(I.OwnerOf(C.BoxedInstruction(c)), env.now, I.CommandTypeOf(C.BoxedInstruction(c)),
                                          I.ModelTypeOf(C.BoxedInstruction(c)), Types.CommandFailed,
                                          "SupervisoRunCommandNotImplemented")]
  {
  }

  /** The command loop over a prefix of the command stream; it stops at a panic. */
  function Loop(s: State, cmds: seq<C.Command>, envs: seq<Env>): (r: (State, bool))
    requires |envs| >= |cmds|
    decreases |cmds|
  {
    if |cmds| == 0 then (s, false)
    else
      var prev := Loop(s, cmds[..|cmds| - 1], envs);
      if prev.1 then prev
      else
        var turn := Dispatch(prev.0, cmds[|cmds| - 1], envs[|cmds| - 1]);
        (turn.0, turn.1.Panic?)
  }

  function Outcomes(bus: seq<Message>): nat
  {
    CountOf(bus, Types.CommandSucess) + CountOf(bus, Types.CommandFailed)
  }

  lemma {:induction false} ApplyAddsNoOutcome(s: State, c: C.Command, env: Env)
    ensures var h := Apply(s, c, env).0;
      |h.bus| >= |s.bus| && h.bus[..|s.bus|] == s.bus && Outcomes(h.bus[|s.bus|..]) == 0
  {
    var h := Apply(s, c, env).0;
    if |h.bus| == |s.bus| {
      assert h.bus[|s.bus|..] == [];
    } else {
      var tail := h.bus[|s.bus|..];
      assert tail == [h.bus[|s.bus|]];
      assert tail[..0] == [];
    }
  }

  lemma {:induction false} OutcomesAppend(a: seq<Message>, b: seq<Message>)
    ensures Outcomes(a + b) == Outcomes(a) + Outcomes(b)
  {
    CountOfAppend(a, b, Types.CommandSucess);
    CountOfAppend(a, b, Types.CommandFailed);
  }

  /** On a bus with receivers, reporting adds one outcome message. */
  lemma ReportAddsOneOutcome(bus: seq<Message>, c: C.Command, r: Response, env: Env)
    requires env.receivers && !r.Panic?
    ensures var b := Report(bus, c, r, env);
      |b| == |bus| + 1 && b[..|bus|] == bus && Outcomes(b[|bus|..]) == 1
  {
    E.InstructionSourceReports(C.BoxedInstruction(c), env.selfId, env.now, if r.Err? then ErrorDebug(r.error) else "");
    var b := Report(bus, c, r, env);
    var m := b[|bus|];
    assert b[|bus|..] == [] + [m];
    assert CountOf([], Types.CommandSucess) == 0;
  }

  /** A turn that does not panic, on a bus with receivers, adds exactly one outcome report. */
  lemma DispatchAddsOneOutcome(s: State, c: C.Command, env: Env)
    requires env.receivers
    requires !Dispatch(s, c, env).1.Panic?
    ensures var s' := Dispatch(s, c, env).0;
      |s'.bus| >= |s.bus| && s'.bus[..|s.bus|] == s.bus && Outcomes(s'.bus[|s.bus|..]) == 1
  {
    var (h, r) := Apply(s, c, env);
    var s' := Dispatch(s, c, env).0;
    assert s'.bus == Report(h.bus, c, r, env);
    ApplyAddsNoOutcome(s, c, env);
    ReportAddsOneOutcome(h.bus, c, r, env);
    ExtendsCompose(s.bus, h.bus, s'.bus);
    OutcomesAppend(h.bus[|s.bus|..], s'.bus[|h.bus|..]);
  }

  /**
   * On a bus that always has receivers, a loop that does not panic reports
   * exactly one outcome per command.
   */
  lemma {:induction false} LoopReportsEveryCommand(s: State, cmds: seq<C.Command>, envs: seq<Env>)
    requires |envs| >= |cmds|
    requires forall i :: 0 <= i < |cmds| ==> envs[i].receivers
    requires !Loop(s, cmds, envs).1
    ensures var s' := Loop(s, cmds, envs).0;
      |s'.bus| >= |s.bus| && s'.bus[..|s.bus|] == s.bus && Outcomes(s'.bus[|s.bus|..]) == |cmds|
    decreases |cmds|
  {
    if |cmds| > 0 {
      var n := |cmds| - 1;
      LoopLast(s, cmds, envs);
      var s1 := Loop(s, cmds[..n], envs).0;
      LoopReportsEveryCommand(s, cmds[..n], envs);
      DispatchAddsOneOutcome(s1, cmds[n], envs[n]);
      var s2 := Dispatch(s1, cmds[n], envs[n]).0;
      ExtendsCompose(s.bus, s1.bus, s2.bus);
      OutcomesAppend(s1.bus[|s.bus|..], s2.bus[|s1.bus|..]);
    }
  }

  /** A loop that did not panic ran its last command on the state the earlier ones left, without a panic. */
  lemma LoopLast(s: State, cmds: seq<C.Command>, envs: seq<Env>)
    requires |envs| >= |cmds| > 0
    requires !Loop(s, cmds, envs).1
    ensures var n := |cmds| - 1; var prev := Loop(s, cmds[..n], envs);
      !prev.1 && !Dispatch(prev.0, cmds[n], envs[n]).1.Panic?
      && Loop(s, cmds, envs).0 == Dispatch(prev.0, cmds[n], envs[n]).0
  {
  }

  /** Extending a bus twice extends it by the two additions in turn. */
  lemma ExtendsCompose(a: seq<Message>, b: seq<Message>, c: seq<Message>)
    requires |b| >= |a| && b[..|a|] == a
    requires |c| >= |b| && c[..|b|] == b
    ensures |c| >= |a| && c[..|a|] == a && c[|a|..] == b[|a|..] + c[|b|..]
  {
    assert c == b + c[|b|..];
    assert b == a + b[|a|..];
  }

  /** Starting up: the health task, then one worker per configured model, each fatal on failure. */
  function Boot(healthOk: bool, models: seq<Types.ModelType>, envs: seq<Env>): (r: Option<Registry>)
    requires |envs| >= |models|
    decreases |models|
  {
    if !healthOk then None
    else if |models| == 0 then Some(map[])
    else
      var n := |models| - 1;
      match Boot(healthOk, models[..n], envs)
      case None => None
      case Some(reg) =>
        var spawned := SpawnSpec(reg, I.NewSpawn(Types.ROOT, models[n], envs[n].now), envs[n]);
        if spawned.1.Ok? then Some(spawned.0) else None
  }

  /** A successful start registers the last model under a fresh id, on top of the earlier models' registry. */
  lemma BootLast(healthOk: bool, models: seq<Types.ModelType>, envs: seq<Env>)
    requires |envs| >= |models| > 0
    requires Boot(healthOk, models, envs).Some?
    ensures var n := |models| - 1;
      var reg := Boot(healthOk, models[..n], envs);
      reg.Some? && envs[n].freshId !in reg.value &&
      Boot(healthOk, models, envs).value ==
        reg.value[envs[n].freshId := NewRegister(reg.value, I.NewSpawn(Types.ROOT, models[n], envs[n].now), envs[n].freshId)]
  {
  }

  /** After a successful start, one root-owned task serves each configured model. */
  lemma {:induction false} BootRegistersEachModel(healthOk: bool, models: seq<Types.ModelType>, envs: seq<Env>)
    requires |envs| >= |models|
    requires Boot(healthOk, models, envs).Some?
    ensures var reg := Boot(healthOk, models, envs).value;
      |reg| == |models|
      && forall i :: 0 <= i < |models| ==>
           (envs[i].freshId in reg && reg[envs[i].freshId].modelType == models[i]
            && reg[envs[i].freshId].owner == Types.ROOT)
    decreases |models|
  {
    if |models| > 0 {
      var n := |models| - 1;
      var reg := Boot(healthOk, models[..n], envs).value;
      BootRegistersEachModel(healthOk, models[..n], envs);
      BootLast(healthOk, models, envs);
      assert forall i :: 0 <= i < n ==> models[..n][i] == models[i];
      InsertRegistersModel(reg, models, envs, NewRegister(reg, I.NewSpawn(Types.ROOT, models[n], envs[n].now), envs[n].freshId));
    }
  }

  /** Registering the last model under a fresh id keeps the earlier models' tasks and adds one for it. */
  lemma InsertRegistersModel(reg: Registry, models: seq<Types.ModelType>, envs: seq<Env>, entry: Register)
    requires |envs| >= |models| > 0
    requires |reg| == |models| - 1 && envs[|models| - 1].freshId !in reg
    requires entry.modelType == models[|models| - 1] && entry.owner == Types.ROOT
    requires forall i :: 0 <= i < |models| - 1 ==>
      envs[i].freshId in reg && reg[envs[i].freshId].modelType == models[i] && reg[envs[i].freshId].owner == Types.ROOT
    ensures var reg' := reg[envs[|models| - 1].freshId := entry];
      |reg'| == |models|
      && forall i :: 0 <= i < |models| ==>
           (envs[i].freshId in reg' && reg'[envs[i].freshId].modelType == models[i]
            && reg'[envs[i].freshId].owner == Types.ROOT)
  {
    var newId := envs[|models| - 1].freshId;
    var reg' := reg[newId := entry];
    forall i | 0 <= i < |models| - 1
      ensures reg'[envs[i].freshId] == reg[envs[i].freshId]
    {
      assert envs[i].freshId != newId;
    }
  }

  /** A snapshot record of one register, as the health report lists it. */
  datatype RegisterJson = RegisterJson(taskId: string, owner: string, modelType: Types.ModelType)

  /** The health report's list of registers, in iteration order. */
  function Snapshot(reg: Registry, order: seq<string>): (r: seq<RegisterJson>)
    requires forall i :: 0 <= i < |order| ==> order[i] in reg
    ensures |r| == |order|
    ensures forall i :: 0 <= i < |r| ==>
      (r[i].taskId == order[i] && r[i].owner == reg[order[i]].owner && r[i].modelType == reg[order[i]].modelType)
  {
    seq(|order|, i requires 0 <= i < |order| => RegisterJson(order[i], reg[order[i]].owner, reg[order[i]].modelType))
  }

  predicate Distinct(order: seq<string>)
  {
    forall i, j :: 0 <= i < j < |order| ==> order[i] != order[j]
  }

  lemma {:induction false} DistinctElements(order: seq<string>)
    requires Distinct(order)
    ensures |set i | 0 <= i < |order| :: order[i]| == |order|
  {
    if |order| > 0 {
      var n := |order| - 1;
      DistinctElements(order[..n]);
      var before := set i | 0 <= i < n :: order[..n][i];
      var all := set i | 0 <= i < |order| :: order[i];
      assert all == before + {order[n]};
      assert order[n] !in before;
    }
  }

  /** When iteration visits every key once, the snapshot lists every task once. */
  lemma SnapshotListsEveryTask(reg: Registry, order: seq<string>)
    requires Distinct(order)
    requires forall i :: 0 <= i < |order| ==> order[i] in reg
    requires forall k :: k in reg ==> k in order
    ensures var r := Snapshot(reg, order);
      |r| == |reg| && (set i | 0 <= i < |r| :: r[i].taskId) == reg.Keys
  {
    var ids := set i | 0 <= i < |order| :: order[i];
    assert ids == reg.Keys;
    DistinctElements(order);
    var r := Snapshot(reg, order);
    assert (set i | 0 <= i < |r| :: r[i].taskId) == ids;
  }
}
