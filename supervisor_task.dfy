/**
 * The supervisor task as it runs: a registry and the broadcast bus, updated
 * in place by the handlers, each proved to do what the functional
 * description in module Supervisor says.
 */
module SupervisorTask {
  import opened Wrappers
  import Types
  import I = Instruction
  import C = Command
  import opened Message
  import E = Emit
  import opened Errors
  import opened Supervisor

  /** Once the loop has panicked, later commands are never read. */
  lemma {:induction false} LoopStopsAtPanic(s: State, cmds: seq<C.Command>, envs: seq<Env>, i: nat)
    requires |envs| >= |cmds| && i <= |cmds|
    requires Loop(s, cmds[..i], envs).1
    ensures Loop(s, cmds, envs) == Loop(s, cmds[..i], envs)
    decreases |cmds| - i
  {
    if i < |cmds| {
      var longer := cmds[..i + 1];
      assert longer[..i] == cmds[..i];
      assert Loop(s, longer, envs) == Loop(s, cmds[..i], envs);
      LoopStopsAtPanic(s, cmds, envs, i + 1);
    } else {
      assert cmds[..i] == cmds;
    }
  }

  class Runtime {
    /** The concurrent map of registered tasks. */
    var registry: Registry
    /** Everything published on the broadcast bus so far. */
    var bus: seq<Message>

    constructor (bus: seq<Message>)
      ensures registry == map[] && this.bus == bus
    {
      registry := map[];
      this.bus := bus;
    }

    /** Publish one message; the outcome says whether it was sent. */
    method Emit(t: Types.MessageType, s: E.EmitSource, value: Option<string>, now: nat, receivers: bool)
      returns (outcome: E.Outcome)
      modifies this
      ensures (bus, outcome) == E.EmitTo(old(bus), t, s, value, now, receivers)
      ensures registry == old(registry)
    {
      var m := E.Build(t, s, value, now);
      if m.None? {
        outcome := E.Panicked;
      } else if receivers {
        bus := bus + [m.value];
        outcome := E.Sent;
      } else {
        outcome := E.SendFailed;
      }
    }

    /** Forward a process instruction to its worker's channel. */
    method ModelProcess(p: I.Process, order: seq<string>) returns (r: Response)
      modifies this
      ensures (registry, r) == ProcessSpec(old(registry), p, order)
      ensures bus == old(bus)
    {
      var target: string;
      if p.taskId.Some? {
        if p.taskId.value !in registry {
          return Err(SupervisorModelProcessTaskIdNotFound(p.owner));
        }
        target := p.taskId.value;
      } else {
        // The first register of the instruction's model type, in iteration order.
        var i := 0;
        while i < |order| && !Serves(registry, order[i], p.modelType)
          invariant 0 <= i <= |order|
          invariant FindFrom(registry, order, p.modelType, i) == FindFrom(registry, order, p.modelType, 0)
        {
          i := i + 1;
        }
        if i == |order| {
          return Panic;
        }
        target := order[i];
      }
      var reg := registry[target];
      if Gone(reg.handle) {
        return Err(SupervisorModelProcessEchoFailed(p.owner));
      }
      registry := registry[target := reg.(tx := reg.tx + [p])];
      r := Ok;
    }

    /** Abort a task, keep its entry, and announce the kill. */
    method ModelKill(k: I.Kill, env: Env) returns (r: Response)
      modifies this
      ensures (State(registry, bus), r) == KillSpec(old(State(registry, bus)), k, env)
    {
      if k.taskId in registry {
        var reg := registry[k.taskId];
        registry := registry[k.taskId := reg.(handle := reg.handle.(aborted := true))];
        var outcome := Emit(Types.ModelKilled, E.FromInstruction(I.OfKill(k)), None, env.now, env.receivers);
        r := if outcome == E.Sent then Ok else Err(SupervisorModelEmitKillEmitMessageFailed(k.owner));
      } else {
        r := Err(SupervisorModelKillEmitTaskIdNotFound(k.owner));
      }
    }

    /** Start a worker task and register it under its task id. */
    method ModelSpawn(sp: I.Spawn, env: Env) returns (r: Response)
      modifies this
      ensures (registry, r) == SpawnSpec(old(registry), sp, env)
      ensures bus == old(bus)
    {
      if !env.spawnOk {
        return Err(SupervisorModelSpawnModelSpawnFailed(sp.owner));
      }
      var taken := env.freshId in registry;
      registry := registry[env.freshId := NewRegister(registry, sp, env.freshId)];
      r := if taken then Err(SupervisorModelSpawnInsertTaskIdFailed(sp.owner)) else Ok;
    }

    /** One turn of the command loop: handle the command, then report its outcome. */
    method HandleCommand(c: C.Command, env: Env) returns (r: Response)
      modifies this
      ensures (State(registry, bus), r) == Dispatch(old(State(registry, bus)), c, env)
    {
      var source := CommandSource(c, env.selfId);
      match c {
        case Kill(k) => r := ModelKill(k, env);
        case Spawn(sp) => r := ModelSpawn(sp, env);
        case Process(p) => r := ModelProcess(p, env.order);
        case _ => r := Err(SupervisoRunCommandNotImplemented);
      }
      if r.Panic? {
        return;
      }
      var outcome;
      if r.Ok? {
        outcome := Emit(Types.CommandSucess, source, None, env.now, env.receivers);
      } else {
        outcome := Emit(Types.CommandFailed, source, Some(ErrorDebug(r.error)), env.now, env.receivers);
      }
    }

    /**
     * The supervisor's life: start the health task and the configured
     * models (exiting on any failure), then handle commands until the stream
     * ends or a handler panics.
     */
    method Run(healthOk: bool, models: seq<Types.ModelType>, bootEnvs: seq<Env>, cmds: seq<C.Command>, envs: seq<Env>)
      returns (exited: bool, crashed: bool)
      requires |bootEnvs| >= |models| && |envs| >= |cmds|
      modifies this
      ensures exited <==> Boot(healthOk, models, bootEnvs).None?
      ensures exited ==> bus == old(bus)
      ensures !exited ==> (State(registry, bus), crashed) == Loop(State(Boot(healthOk, models, bootEnvs).value, old(bus)), cmds, envs)
    {
      exited := Start(healthOk, models, bootEnvs);
      crashed := false;
      if exited {
        return;
      }
      crashed := Listen(cmds, envs);
    }

    /** Start-up: the health check, then one spawn per configured model, stopping at the first failure. */
    method Start(healthOk: bool, models: seq<Types.ModelType>, bootEnvs: seq<Env>) returns (exited: bool)
      requires |bootEnvs| >= |models|
      modifies this
      ensures exited <==> Boot(healthOk, models, bootEnvs).None?
      ensures !exited ==> Some(registry) == Boot(healthOk, models, bootEnvs)
      ensures bus == old(bus)
    {
      registry := map[];
      if !healthOk {
        return true;
      }
      for i := 0 to |models|
        invariant Boot(healthOk, models[..i], bootEnvs) == Some(registry)
        invariant bus == old(bus)
      {
        assert models[..i + 1][..i] == models[..i];
        var r := ModelSpawn(I.NewSpawn(Types.ROOT, models[i], bootEnvs[i].now), bootEnvs[i]);
        if !r.Ok? {
          BootFailureIsFinal(healthOk, models, bootEnvs, i + 1);
          return true;
        }
      }
      assert models[..|models|] == models;
      exited := false;
    }

    /** The command loop: handle commands in order until the stream ends or a handler panics. */
    method Listen(cmds: seq<C.Command>, envs: seq<Env>) returns (crashed: bool)
      requires |envs| >= |cmds|
      modifies this
      ensures (State(registry, bus), crashed) == Loop(old(State(registry, bus)), cmds, envs)
    {
      crashed := false;
      ghost var start := State(registry, bus);
      var i := 0;
      while i < |cmds| && !crashed
        invariant 0 <= i <= |cmds|
        invariant (State(registry, bus), crashed) == Loop(start, cmds[..i], envs)
      {
        assert cmds[..i + 1][..i] == cmds[..i];
        var r := HandleCommand(cmds[i], envs[i]);
        crashed := r.Panic?;
        i := i + 1;
      }
      if crashed {
        LoopStopsAtPanic(start, cmds, envs, i);
      } else {
        assert cmds[..i] == cmds;
      }
    }
  }

  /** A failed start of one configured model ends the whole start-up. */
  lemma {:induction false} BootFailureIsFinal(healthOk: bool, models: seq<Types.ModelType>, envs: seq<Env>, i: nat)
    requires |envs| >= |models| && i <= |models|
    requires Boot(healthOk, models[..i], envs).None?
    ensures Boot(healthOk, models, envs).None?
    decreases |models| - i
  {
    if i < |models| {
      assert models[..i + 1][..i] == models[..i];
      BootFailureIsFinal(healthOk, models, envs, i + 1);
    } else {
      assert models[..i] == models;
    }
  }
}
