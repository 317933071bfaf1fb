# ai-back dispatch core and model bookkeeping, in Dafny

This project models the core of ai-back, a back-end that runs inference
models as long-lived workers behind a single command and event interface.

The dispatch side (crates `shared` and `actors`):

- **Messages and instructions.** The message and instruction datatypes with
  their accessors, the command envelope and the payloads, and the emit
  functions that build and publish each message on the broadcast bus.
  A publish fails when the bus has no receivers.
- **Supervisor.** A registry of running tasks, keyed by task id. The
  supervisor handles spawn, process, kill, pause and resume, and reports
  one command outcome per command. At start-up it launches one task per
  configured model, and it can take a health snapshot.
  The supervisor appears twice: as functions on values (`Supervisor`), and
  as a class whose methods update the registry and the bus in place
  (`SupervisorTask.Runtime`). Each method is proved to leave exactly the
  state that the function describes.
- **Workers.** The generic worker loop: it publishes ModelStarted and
  ModelLoaded, then takes one process instruction at a time from its queue
  and publishes a prediction or an error. The five workers (sentiment,
  summarisation, translation, LLaMA and diffusion) are instances of it.
  The diffusion and LLaMA predictions also publish progress ticks on the
  worker's own bus before the reply: 31 scheduler ticks per image, and one
  tick per generated token. A tick nobody hears panics the worker, and so
  does a prompt that the model cannot encode.
- **HTTP commands.** How an HTTP command becomes an instruction.

The model-side bookkeeping (crate `models`):

- the BPE tokenizer (merges, encoding with its start and end markers and
  padding, decoding);
- the scheduler layer: selecting a scheduler by name, the denoising loop
  with its progress ticks, the DDIM timestep grid and its table indices,
  and the LMS step indices and coefficients bookkeeping;
- the diffusion pipe and the pipeline descriptions;
- the LLaMA generation loop, which reports one tick per token;
- the LLaMA model's shape bookkeeping;
- the image-to-image sketch program's strength check, crop, timestep range
  and output names;
- the tools, resources, engine paths and translation configuration.

Panics are modelled as explicit outcomes wherever the code can reach them.
Examples are `unwrap` on a missing value, an index past the end, unsigned
underflow and 32-bit overflow, the last following debug-build semantics.
The tensor arithmetic is not modelled. The networks, and the predictions
of the libraries the workers wrap, are opaque function parameters.

Three behaviours of the supervisor a reader might not expect:

- A kill aborts the task's handle but keeps its registry entry
  (`Supervisor.KillKeepsEntry`). A later process for that task is queued on
  a register whose receiver is gone. It therefore fails with
  SupervisorModelProcessEchoFailed rather than
  SupervisorModelProcessTaskIdNotFound.
- A process instruction without a task id panics when no task serves its
  model type (`Supervisor.ProcessOutcome`). It does not return an error.
- A spawn whose new id is already registered replaces the entry and still
  reports SupervisorModelSpawnInsertTaskIdFailed.

Two more behaviours of the code as written are worth knowing:

- In the sketch program, a strength of 0 passes the argument check. It
  then starts denoising one index past the end of the timestep grid, so
  the first sample panics (`Sketch.ZeroStrengthPanics`).
- The LLaMA loop runs the model's forward pass twice per token. The second
  pass runs on the softmaxed logits of the first. `Llama.Generate` does not
  model these calls one by one: each token is a single opaque draw from the
  context. That draw stands for the two forward passes, the softmax, the
  temperature and the multinomial sampling.

## Model

| member | source | states |
|---|---|---|
| Message.TaskIdOf | crate/shared/src/message/mod.rs:44-56 | a task id is reported exactly for Health, ModelPaused, ModelResumed, ModelKilled, ModelStarted, ModelLoaded, ModelPrediction and ModelError, and it is the payload's own task id; command success, command failure and the two tick types report none |
| Message.MessageTypeDistinct | crate/shared/src/message/mod.rs:27-42 | two messages have the same message type exactly when they are the same variant |
| Message.IsHealthIffHealthType | crate/shared/src/message/mod.rs:23-25 | `is_health` holds exactly when the message type is Health |
| Instruction.AccessorsByKind | crate/shared/src/command/instruction/kill.rs:35-41 | through the boxed view, every kind but spawn reports a task id (a process only when it stores one), and only a process reports a JSON input |
| Instruction.NewKill | crate/shared/src/command/instruction/kill.rs:15-23 | a new kill has command type Kill and the given owner, model type, task id and timestamp |
| Instruction.NewSpawn | crate/shared/src/command/instruction/spawn.rs:14-21 | a new spawn has command type Spawn, the given owner and model type, and no task id and no input |
| Instruction.PauseResumeExclusive | crate/shared/src/command/instruction/mod.rs:33-46 | the pause check holds exactly for a Pause-typed instruction from that owner and the resume check exactly for a Resume-typed one; no instruction passes both, and a pause names only one owner |
| Command.BoxedInstructionFields | crate/shared/src/command/mod.rs:19-27 | the boxed instruction reports the wrapped record's command type, model type, owner and timestamp; kill, pause and resume report their task id, spawn none, and only a process reports an input |
| Command.SpawnCommand | crate/shared/src/command/mod.rs:29-36 | `Command::spawn` is a Spawn command of type Spawn, owned by ROOT, for the given model, with no task id |
| Command.ProcessCommand | crate/shared/src/command/mod.rs:38-47 | `Command::process` is a Process command of type Process, owned by ROOT, naming the given task and carrying the given input |
| Command.KillCommand | crate/shared/src/command/mod.rs:49-57 | `Command::kill` is a Kill command of type Kill, owned by ROOT, naming the given task, with no input |
| Payload.NewProcess | crate/server/src/app/private/command/playload/process.rs:12-19 | a new process body claims Process and carries the model type, the task id (as present) and the input |
| Payload.NewKill | crate/server/src/app/private/command/playload/kill.rs:11-18 | a new kill body claims Kill, names the task and has no input |
| Payload.NewPause | crate/server/src/app/private/command/playload/pause.rs:11-18 | a new pause body claims Pause, names the task and has no input |
| Payload.NewSpawn | crate/server/src/app/private/command/playload/spawn.rs:10-15 | a new spawn body claims Spawn and has neither task id nor input |
| Payload.AccessorsByBody | crate/server/src/app/private/command/playload/kill.rs:29-35 | only a process body has an input; kill and pause bodies always name a task, a spawn body never does, a process body reports its stored task id |
| HttpCommand.CommandFrom | crate/server/src/app/private/command/mod.rs:25-64 | a body converts exactly when it has what its claimed command type unwraps: an input for Process, a task id for Kill, Pause and Resume; a Spawn always converts; otherwise the server panics |
| HttpCommand.CommandFromContents | crate/server/src/app/private/command/mod.rs:25-64 | the command's variant and command type are the body's claimed type, not the route's; the owner is the sender; model type, task id and input are copied from the body |
| HttpCommand.ConstructedBodiesConvert | crate/server/src/app/private/command/playload/process.rs:12-37 | bodies built by their own constructors always convert, each to the command of its own kind |
| HttpCommand.ProcessClaimNeedsProcessBody | crate/server/src/app/private/command/mod.rs:28-35 | a body claiming Process converts exactly when it is a process body; a kill, pause or spawn body relabelled Process panics the server |
| HttpCommand.RelabelledSpawnPanics | crate/server/src/app/private/command/mod.rs:36-56 | a spawn body claiming Kill, Pause or Resume panics the server, since it has no task id |
| HttpCommand.OwnerIsSender | crate/server/src/app/private/command/mod.rs:20 | every command is owned by the authenticated sender, whatever the body says |
| Emit.DefaultSource | crate/shared/src/message/emit.rs:28-37 | the default source speaks for ROOT and knows no command type, task id or model type |
| Emit.SetTaskId | crate/shared/src/message/emit.rs:54-67 | only the task id changes, to the given one |
| Emit.SetOwner | crate/shared/src/message/emit.rs:69-82 | only the owner changes, to the given one |
| Emit.HealthSource | crate/shared/src/message/emit.rs:84-91 | the health source speaks for ROOT, names the health task and knows no command or model type |
| Emit.FromInstruction | crate/shared/src/message/emit.rs:94-103 | a source built from an instruction has its command type and model type (both present), its owner and its task id |
| Emit.SuppliesNeeds | crate/shared/src/message/emit.rs:122-212 | a source supplies a message type exactly when the fields it holds cover the fields that type unwraps: task id and value for Health; command type, model type and value for CommandFailed; command type, model type and task id for CommandSucess; model type and task id, plus value for Prediction and Error, for the other model events; the value only for the two tick types |
| Emit.Build | crate/shared/src/message/emit.rs:121-213 | building succeeds exactly when the source supplies every field the type unwraps; otherwise it panics |
| Emit.BuildContents | crate/shared/src/message/emit.rs:121-213 | a built message has the emitting type (as its variant and in its type field), the source's owner and the current time; it reports the source's task id exactly for the task-reporting types; the tick types always say Process and Diffusion; command events copy the command and model type; values and errors are the given value |
| Emit.EmitTo | crate/shared/src/message/emit.rs:114-217 | an emit panics exactly when the source lacks a needed field, and is sent exactly when it builds and the bus has a receiver; only a sent message is appended to the bus, and nothing else changes |
| Emit.InstructionSourceReports | crate/actors/src/supervisor/mod.rs:228-240 | a source taken from an instruction and given a task id can always build CommandSucess, CommandFailed and ModelStarted |
| Emit.DefaultSourceEmits | crate/shared/src/message/emit.rs:28-37 | with a value, the default source builds exactly the two tick types and panics for every other type |
| Errors.DebugCharClean | crate/actors/src/error.rs:5-28 | the Debug form of one character of an owner contains no control character and puts a backslash before every quote; a printable character other than the quote and the backslash is kept as it is |
| Errors.DebugEscapeClean | crate/actors/src/supervisor/mod.rs:238 | the escaped owner inside a reported error contains no control character and no quote without a backslash before it, so it cannot close the quoted field; text without control characters, quotes or backslashes is reported unchanged |
| Errors.ErrorDebug | crate/actors/src/supervisor/mod.rs:238 | the Debug text of an error starts with its variant name, and is exactly that name only for the owner-less SupervisoRunCommandNotImplemented |
| Supervisor.TaskNamesDistinct | crate/actors/src/supervisor/mod.rs:154-162 | task names `{model_type:?}-{count}` of one model type differ when the counts differ |
| Supervisor.FindFrom | crate/actors/src/supervisor/mod.rs:88-91 | the search finds the first key, in iteration order, whose register serves the model type, and finds none exactly when no key does |
| Supervisor.ProcessOutcome | crate/actors/src/supervisor/mod.rs:65-100 | for the given iteration order, a process instruction panics exactly when it names no task and the search finds no task of its type; it fails with TaskIdNotFound exactly when the named task is absent, with EchoFailed exactly when the target's worker is gone (its handle was aborted or its worker ended by itself); on success exactly the target's queue grows by the instruction, and on every other outcome the registry is unchanged |
| Supervisor.ProcessPanicsIffNoTaskOfType | crate/actors/src/supervisor/mod.rs:87-91 | when iteration visits every registered task, a process instruction panics exactly when it names no task and no registered task serves its model type |
| Supervisor.ProcessRoutesByType | crate/actors/src/supervisor/mod.rs:87-94 | without a task id the instruction goes to a task of its model type that comes before every other such task in iteration order |
| Supervisor.ProcessIgnoresModelTypeWithId | crate/actors/src/supervisor/mod.rs:77-86 | for every registry and every instruction naming a registered task whose worker is not gone, the instruction is queued on that task whatever model type the task serves |
| Supervisor.WorkerEnded | crate/actors/src/supervisor/mod.rs:97-99 | a worker that ended by itself leaves its task registered with everything but its handle's exit flag unchanged; its handle is then gone, and every other register is kept |
| Supervisor.EndedWorkerRefuses | crate/actors/src/supervisor/mod.rs:97-99 | once a task's worker has ended by itself, every process instruction routed to that task fails with EchoFailed and leaves the registry unchanged |
| Supervisor.KillOutcome | crate/actors/src/supervisor/mod.rs:102-119 | a kill of an absent task changes nothing and fails with KillEmitTaskIdNotFound; a kill of a present task aborts its handle and succeeds exactly when the ModelKilled message, naming the task, the instruction's owner and model type, is published; otherwise it fails with EmitKillEmitMessageFailed and the bus is unchanged |
| Supervisor.KillKeepsEntry | crate/actors/src/supervisor/mod.rs:108-109 | a killed task keeps its key, owner and queue; only its handle is aborted |
| Supervisor.SpawnOutcome | crate/actors/src/supervisor/mod.rs:147-189 | a failed start changes nothing and fails with ModelSpawnFailed; a started task is registered under its id with a live handle, an empty queue, the spawn's owner and model type, every other entry kept; the spawn succeeds exactly when the id was new, and otherwise fails with InsertTaskIdFailed |
| Supervisor.WorkerSource | crate/actors/src/supervisor/mod.rs:164 | a spawned worker's source carries the spawn's owner and model type and the worker's own task id |
| Supervisor.DispatchReportsOnce | crate/actors/src/supervisor/mod.rs:216-244 | on a bus with receivers, every handled command is followed by exactly one report: CommandSucess exactly when the handler succeeded, CommandFailed with the error's Debug text exactly when it failed, for the command's owner and under the supervisor's task id |
| Supervisor.PauseResumeNotImplemented | crate/actors/src/supervisor/mod.rs:225 | pause and resume leave the registry unchanged, fail with SupervisoRunCommandNotImplemented and publish exactly that CommandFailed message |
| Supervisor.ApplyAddsNoOutcome | crate/actors/src/supervisor/mod.rs:219-226 | a handler only appends to the bus and never publishes a command outcome |
| Supervisor.ReportAddsOneOutcome | crate/actors/src/supervisor/mod.rs:228-243 | reporting on a bus with receivers appends exactly one outcome message |
| Supervisor.DispatchAddsOneOutcome | crate/actors/src/supervisor/mod.rs:216-244 | a loop turn that does not panic, on a bus with receivers, appends to the bus and adds exactly one outcome |
| Supervisor.LoopReportsEveryCommand | crate/actors/src/supervisor/mod.rs:216-244 | a command loop that does not panic, with receivers throughout, only appends to the bus and reports exactly one outcome per command |
| Supervisor.LoopLast | crate/actors/src/supervisor/mod.rs:216-226 | a loop that did not panic ran its last command, without a panic, on the state the earlier commands left |
| Supervisor.BootLast | crate/actors/src/supervisor/mod.rs:203-214 | a successful start-up registered its last model under a new id on top of the registry of the earlier models |
| Supervisor.BootRegistersEachModel | crate/actors/src/supervisor/mod.rs:203-214 | after a successful start-up the registry has one ROOT-owned entry per configured model, under the id each received, serving that model |
| Supervisor.Snapshot | crate/actors/src/supervisor/mod.rs:40-63 | the health snapshot has one record per key in iteration order, each with the key as task id and the register's owner and model type |
| Supervisor.SnapshotListsEveryTask | crate/actors/src/supervisor/mod.rs:57-63 | when iteration visits every key once, the snapshot lists as many records as there are tasks and exactly the registered task ids |
| SupervisorTask.LoopStopsAtPanic | crate/actors/src/supervisor/mod.rs:216-226 | once a handler has panicked, no later command changes the state |
| SupervisorTask.Runtime.constructor | crate/actors/src/supervisor/mod.rs:196 | the registry starts empty |
| SupervisorTask.Runtime.Emit | crate/shared/src/message/emit.rs:114-217 | publishing updates the bus as the functional emit does, and leaves the registry alone |
| SupervisorTask.Runtime.ModelProcess | crate/actors/src/supervisor/mod.rs:65-100 | the in-place handler, including its search loop over the iteration order, leaves the registry and returns the response that the functional description of process gives; the bus is untouched |
| SupervisorTask.Runtime.ModelKill | crate/actors/src/supervisor/mod.rs:102-119 | the in-place kill leaves the registry, bus and response that the functional description of kill gives |
| SupervisorTask.Runtime.ModelSpawn | crate/actors/src/supervisor/mod.rs:147-189 | the in-place spawn leaves the registry and response that the functional description of spawn gives; the bus is untouched |
| SupervisorTask.Runtime.HandleCommand | crate/actors/src/supervisor/mod.rs:216-244 | one turn of the loop leaves the state and response of one functional loop turn |
| SupervisorTask.Runtime.Run | crate/actors/src/supervisor/mod.rs:191-245 | the supervisor exits at start-up exactly when the health task or a configured model fails to start, leaving the bus unchanged; otherwise it ends in the state the command loop reaches from the started registry, stopping at the first panic |
| SupervisorTask.Runtime.Start | crate/actors/src/supervisor/mod.rs:196-214 | start-up exits exactly when the health task or a configured model fails to start; otherwise the registry is the one the start-up specification builds, and the bus is untouched |
| SupervisorTask.Runtime.Listen | crate/actors/src/supervisor/mod.rs:216-245 | the command loop ends in the state the loop specification reaches from the state it started in, stopping at the first panic |
| SupervisorTask.BootFailureIsFinal | crate/actors/src/supervisor/mod.rs:210-213 | a model that fails to start ends the whole start-up |
| Worker.DeliverStep | crate/actors/src/worker/sentiment.rs:23-52 | each emission is attempted only while no earlier emission has failed fatally, and then after all the earlier ones |
| Worker.Tick | crate/models/src/diffusion/unet/schedulers/mod.rs:95-103 | a tick step of a worker's plan can always be published, and it is published as exactly the tick message the model sends: the default source, the `{tick, steps}` JSON and the step's clock |
| Worker.TicksPublished | crate/models/src/diffusion/unet/schedulers/mod.rs:93-139 | consecutive tick steps that all go through reach the bus as exactly the tick run the model publishes, each stamped with its own step's clock |
| Worker.Next | crate/actors/src/worker/sentiment.rs:42-49 | one step advances the worker by exactly one step of the plan; a worker that only logs failures never fails on a plain emission, and a failure or panic ends the whole plan there |
| Worker.ServeBlock | crate/actors/src/worker/diffusion.rs:36-60 | the steps one instruction leads to (its ticks, then its reply or a panic) leave the bus and exit as the plan up to the end of that block does, or as the whole plan does when the worker stopped inside it |
| Worker.Serve | crate/actors/src/worker/sentiment.rs:33-52 | the receive loop handles the channel's instructions in order, each by its own block of steps, and leaves the bus and exit exactly as the whole plan does |
| Worker.DeliverLogged | crate/actors/src/worker/summarize.rs:25-60 | when failures are only logged, each emission is attempted after every earlier one, whatever happened to them |
| Worker.DeliverStopsAtFailure | crate/actors/src/worker/sentiment.rs:23-52 | after a fatal failure (`?`) nothing more from the plan reaches the bus |
| Worker.DeliverAllReceived | crate/actors/src/worker/sentiment.rs:23-54 | when every step is an emission that has receivers, all of them are published in order and the worker returns `Ok` |
| Worker.DeliverNonFatalFinishes | crate/actors/src/worker/summarize.rs:25-63 | a worker that only logs failed emissions always returns `Ok` |
| Worker.DeliverFatalLength | crate/actors/src/worker/sentiment.rs:23-54 | with fatal failures, the published prefix holds every step that went through; the worker finishes exactly when that prefix is the whole plan; otherwise the next step did not go through, and the worker fails with that emission's error exactly when it is a plain emission, and panics when it is a tick or a panic of the model |
| Worker.DeliverFatalFailure | crate/actors/src/worker/sentiment.rs:23-54 | a fatal worker stops early exactly when some step does not go through; it stops at the first such step after everything before it was published, failing with that emission's error when it is plain and panicking otherwise |
| Worker.AnnouncementPublished | crate/actors/src/worker/sentiment.rs:21-31 | the two announcements are published as ModelStarted and ModelLoaded under the task's own id and the spawner's owner |
| Worker.AnnouncedThenAnswered | crate/actors/src/worker/sentiment.rs:21-52 | with receivers throughout, the start and load announcements come first under the worker's own source, then every answer in order |
| Worker.AnswerBuildable | crate/shared/src/message/emit.rs:114-217 | a prediction or error answer from sources naming their model and task always builds a message (the `emit` error paths are not reached) |
| Worker.AnswerPublished | crate/actors/src/worker/sentiment.rs:38-51 | the published answer is a ModelPrediction carrying the model's output exactly when there was one, and otherwise a ModelError with "Json Parse Error"; each is published under the owner and task id of its own source |
| Worker.FailureReason | crate/actors/src/worker/sentiment.rs:23-31 | a fatal worker that fails reports "Json Parse Error" exactly when nothing was published, that is, when its start announcement failed, and otherwise the bus's "channel closed" |
| Worker.FatalFailure | crate/actors/src/worker/sentiment.rs:23-54 | a fatal worker stops early exactly when some step does not go through; it panics exactly when that step is a tick or a panic of the model, and a plan with neither never panics; a failure's reason is "Json Parse Error" exactly when the first emission was the one that failed |
| SentimentWorker.ReplyBuildable | crate/actors/src/worker/sentiment.rs:38-51 | every answer of the sentiment worker can be published once its source names the task |
| SentimentWorker.Plan | crate/actors/src/worker/sentiment.rs:21-52 | the worker emits two announcements and then one answer per instruction, and every emission can be built |
| SentimentWorker.PlanShape | crate/actors/src/worker/sentiment.rs:23-49 | the plan opens with the start and load announcements under the renamed source; every emission after the first fails with the bus's error |
| SentimentWorker.Run | crate/actors/src/worker/sentiment.rs:16-55 | the task publishes and returns exactly what its plan delivers with every failure fatal |
| SentimentWorker.Answered | crate/actors/src/worker/sentiment.rs:33-52 | the answer to each instruction carries the task's own id and the spawner's owner; it is the sentiment of the decoded input exactly when the input decodes, and otherwise the parse error |
| SentimentWorker.Serves | crate/actors/src/worker/sentiment.rs:16-55 | with receivers throughout, the worker finishes after publishing the start and load announcements and then one reply per instruction, in order |
| SentimentWorker.Fails | crate/actors/src/worker/sentiment.rs:23-49 | the worker fails exactly when some emission has no receiver, with "Json Parse Error" for a failed start announcement and "channel closed" otherwise, and it never panics |
| SummarizeWorker.ReplyBuildable | crate/actors/src/worker/summarize.rs:35-60 | every answer of the summarize worker can be published once its source names the task |
| SummarizeWorker.Plan | crate/actors/src/worker/summarize.rs:23-61 | the worker emits two announcements and then one answer per instruction, and every emission can be built |
| SummarizeWorker.PlanShape | crate/actors/src/worker/summarize.rs:23-60 | the plan opens with the start and load announcements under the renamed source; every emission after the first fails with the bus's error |
| SummarizeWorker.Run | crate/actors/src/worker/summarize.rs:18-64 | the task publishes and returns exactly what its plan delivers when failures are only logged |
| SummarizeWorker.Answered | crate/actors/src/worker/summarize.rs:35-60 | each answer carries the task's own id and the instruction's owner; it is the summary of the decoded input exactly when the input decodes, and otherwise the parse error |
| SummarizeWorker.Serves | crate/actors/src/worker/summarize.rs:18-64 | with receivers throughout, the worker finishes after publishing the start and load announcements and then one reply per instruction, each on behalf of the instruction's owner |
| SummarizeWorker.AlwaysFinishes | crate/actors/src/worker/summarize.rs:25-63 | a failed emission is only logged, so the worker returns `Ok` whatever the bus does |
| TranslationWorker.ReplyBuildable | crate/actors/src/worker/translation.rs:41-60 | every step the translation worker takes for an instruction can be published once its source names the task |
| TranslationWorker.Plan | crate/actors/src/worker/translation.rs:24-62 | the worker emits two announcements and then takes one step per instruction, every emission can be built and none is a progress tick, and the step for an instruction is a panic exactly when its input decodes but the translation fails (crate/models/src/translation.rs:83-92 unwraps the result) |
| TranslationWorker.PlanShape | crate/actors/src/worker/translation.rs:26-59 | the plan opens with the start and load announcements under the renamed source; every emission after the first fails with the bus's error; instruction k's step is its reply |
| TranslationWorker.Run | crate/actors/src/worker/translation.rs:19-65 | the task publishes and returns exactly what its plan delivers with every failure fatal |
| TranslationWorker.Answered | crate/actors/src/worker/translation.rs:36-62 | when the translation does not fail, the step is an emission; a prediction goes to the owner named inside the decoded input and carries the translation of its text between its two languages; an undecodable input gets the parse error under the task's own source |
| TranslationWorker.Serves | crate/actors/src/worker/translation.rs:19-65 | with receivers throughout and every translation succeeding, the worker finishes after publishing the start and load announcements and then one reply per instruction, in order |
| TranslationWorker.Fails | crate/actors/src/worker/translation.rs:26-59 | the worker stops early exactly when some emission has no receiver or some translation fails; it panics exactly when the step it stopped at is a failed translation (crate/models/src/translation.rs:83-92); otherwise it fails with "Json Parse Error" for a failed start announcement and "channel closed" otherwise; when every translation succeeds it fails exactly when some emission has no receiver and never panics |
| TranslationWorker.StopsWhere | crate/actors/src/worker/translation.rs:41-59 | a step fails to go through exactly when it finds no receiver or is a failed translation, and the only steps that are not plain emissions are the failed translations |
| TranslationWorker.CrashesAt | crate/models/src/translation.rs:83-92 | a step of the plan is a panic exactly when it belongs to an instruction whose input decodes but whose translation fails, and those are the only steps that are not plain emissions |
| LlamaWorker.Progress | crate/models/src/llama/mod.rs:87-116 | a prediction of n tokens ticks n times, tick k+1 out of n after the k-th token |
| LlamaWorker.Plan | crate/actors/src/worker/llama.rs:23-58 | the worker's steps are the two announcements and then each instruction's block: the parse error, or a panic when the prompt cannot be encoded, or one token tick per requested token and then the generated text; every emission can be built, reports "channel closed" after the first, and is a tick exactly when it is a token tick |
| LlamaWorker.Run | crate/actors/src/worker/llama.rs:18-61 | the task publishes and returns exactly what its plan delivers with every failure fatal |
| LlamaWorker.HandledBlock | crate/actors/src/worker/llama.rs:35-58 | once an instruction's block went through, the bus holds, from the block's start, the parse error for an undecodable input, and otherwise the run of `sampleLen` token ticks and then the generated text, under the task's own id and its spawner's owner |
| LlamaWorker.Serves | crate/actors/src/worker/llama.rs:18-61 | with receivers throughout and every prompt encodable, the worker finishes after publishing the start and load announcements and then, instruction after instruction with nothing in between, either the parse error or `sampleLen` token ticks followed by the generated text |
| LlamaWorker.Fails | crate/actors/src/worker/llama.rs:25-55 | the worker stops early exactly when some step does not go through; it panics exactly when that step is a token tick with no receiver or a prompt the tokenizer refuses, and otherwise fails with "Json Parse Error" for a failed start announcement and "channel closed" for any other emission |
| DiffusionWorker.Progress | crate/models/src/diffusion/unet/schedulers/mod.rs:93-139 | a prediction with the pipe's default 30 steps ticks 31 times, tick k out of 30 for k from 0 to 30 |
| DiffusionWorker.Plan | crate/actors/src/worker/diffusion.rs:24-61 | the worker's steps are the two announcements and then each instruction's block: the parse error, or a panic when the prompt cannot be encoded, or the 31 scheduler ticks and then either the image paths or a panic when the pipe fails; every emission can be built, reports "channel closed" after the first, and is a tick exactly when it is a scheduler tick |
| DiffusionWorker.Run | crate/actors/src/worker/diffusion.rs:19-64 | the task publishes and returns exactly what its plan delivers with every failure fatal |
| DiffusionWorker.HandledBlock | crate/actors/src/worker/diffusion.rs:36-61 | once an instruction's block went through, the bus holds, from the block's start, the parse error for an undecodable input, and otherwise the 31 scheduler ticks and then the JSON array of the image paths, under the task's own id and its spawner's owner |
| DiffusionWorker.Serves | crate/actors/src/worker/diffusion.rs:19-64 | with receivers throughout and every prediction saving its images, the worker finishes after publishing the start and load announcements and then, instruction after instruction with nothing in between, either the parse error or 31 scheduler ticks followed by the image paths: 32 messages or one per instruction |
| DiffusionWorker.Fails | crate/actors/src/worker/diffusion.rs:26-58 | the worker stops early exactly when some step does not go through; it panics exactly when that step is a scheduler tick with no receiver, a prompt the text encoder refuses or a failed pipe, and otherwise fails with "Json Parse Error" for a failed start announcement and "channel closed" for any other emission |
| Ticks.TickJsonInjective | crate/models/src/diffusion/unet/schedulers/mod.rs:65-70 | the JSON text of a `{tick, steps}` record determines the record: different ticks or step counts never print the same text |
| Ticks.TickMessage | crate/models/src/diffusion/unet/schedulers/mod.rs:95-103 | a tick is published from the default source: message type as asked, owner ROOT, command type Process, model type Diffusion, the emission's clock, and the record's JSON as its value |
| Ticks.TickRun | crate/models/src/diffusion/unet/schedulers/mod.rs:93-141 | a run of ticks publishes one message per emission, numbered consecutively from its first tick, with the same step count throughout |
| Ticks.FirstUnheard | crate/models/src/diffusion/unet/schedulers/mod.rs:125-139 | the number of ticks sent before the first one that has no receiver: every earlier one was heard, that one was not, and it is the run's length exactly when all were heard |
| Ticks.EmitTick | crate/models/src/diffusion/unet/schedulers/mod.rs:96-103 | a tick reaches the bus exactly when someone listens; otherwise the unwrap of the send error panics and the bus is unchanged |
| Ticks.EmitNext | crate/models/src/llama/mod.rs:102-116 | the next tick of a run whose earlier ticks all went out either extends the run by one or is the first unheard tick, and then the bus is unchanged |
| Schedulers.SelectScheduler | crate/models/src/diffusion/unet/schedulers/mod.rs:157-163 | "dlms" selects LMS and "ddims" selects DDIM (both directions); any other name is `unimplemented!` |
| Schedulers.SelectSchedulerTotal | crate/models/src/diffusion/unet/schedulers/mod.rs:157-163 | a name selects a scheduler exactly when it is one of the two known names |
| Schedulers.DenoiseAppend | crate/models/src/diffusion/unet/schedulers/mod.rs:108-142 | denoising through two runs of timesteps is denoising through the first and then through the second |
| Schedulers.Schedule | crate/models/src/diffusion/unet/schedulers/mod.rs:74-149 | with a sender, tick 0 goes out before the loop and tick k+1 after step k, all with the caller's step count; the latents are the step applied once per timestep in order; without listeners it panics right after the last tick that was heard |
| Schedulers.AlphaBarTimes | crate/models/src/diffusion/unet/schedulers/mod.rs:32-44 | as written, beta i reads the curve at `i / n` and `(i + 1) / n` in integer division |
| Schedulers.AlphaBarTimesCollapse | crate/models/src/diffusion/unet/schedulers/mod.rs:37-40 | as written, the first time is always 0, and the second is 1 only for the last beta |
| Schedulers.IntendedAlphaBarTimesTile | crate/models/src/diffusion/unet/schedulers/mod.rs:32-44 | the intended real-valued times split [0, 1] into n consecutive intervals of width 1/n, from 0 to 1 |
| Schedulers.AlphaBarTimesDiffer | crate/models/src/diffusion/unet/schedulers/mod.rs:37-39 | for n = 2 the first beta should read the curve on (0, 0.5) but reads it at 0 and 0 |
| Ddim.DefaultConfig | crate/models/src/diffusion/unet/schedulers/ddim.rs:15-26 | the default DDIM configuration: betas 0.00085 to 0.012 on the scaled-linear schedule, eta 0, offset 1, v-prediction, 1000 training timesteps |
| Ddim.DefaultAddsNoNoise | crate/models/src/diffusion/unet/schedulers/ddim.rs:81-85 | the default eta of 0 means a step adds no random noise |
| Ddim.Reverse | crate/models/src/diffusion/unet/schedulers/ddim.rs:105-108 | the reversed sequence has the same length and holds element i at position n-1-i |
| Ddim.New | crate/models/src/diffusion/unet/schedulers/ddim.rs:102-134 | `new` succeeds exactly for a positive step count (integer division by zero panics); it uses the default configuration, an initial noise sigma of 1, a 1000-entry alpha table and a step ratio of 1000 divided by the step count |
| Ddim.GridShape | crate/models/src/diffusion/unet/schedulers/ddim.rs:104-108 | the grid has n timesteps; element j is (n-1-j)*ratio + 1, so it strictly decreases once the ratio is positive and ends at the offset 1 |
| Ddim.StepIndices | crate/models/src/diffusion/unet/schedulers/ddim.rs:39-53 | a step reads the alpha table at its timestep, moved back by one at or past the table's end, and at the previous timestep one ratio earlier or 0; it panics exactly when an index is still out of range or the move underflows; both indices are in range, in order, and at most one ratio apart |
| Ddim.GridStepsInBounds | crate/models/src/diffusion/unet/schedulers/ddim.rs:39-53 | every timestep that `new` produces can be stepped without an out-of-range read |
| Lms.DefaultConfig | crate/models/src/diffusion/unet/schedulers/lms_discrete.rs:15-26 | the default LMS configuration: betas 0.00085 to 0.012 on the scaled-linear schedule, 1000 training timesteps, order 4, v-prediction |
| Lms.DefaultImplemented | crate/models/src/diffusion/unet/schedulers/lms_discrete.rs:39-56 | the default configuration reaches neither the `unimplemented!` beta schedule nor the `unimplemented!` prediction type |
| Lms.FirstIndex | crate/models/src/diffusion/unet/schedulers/lms_discrete.rs:113 | `position` finds the first index holding the timestep, and nothing when the grid lacks it |
| Lms.Recent | crate/models/src/diffusion/unet/schedulers/lms_discrete.rs:128-132 | the last `order` entries of the history, or all of it when it is shorter |
| Lms.PushedKeepsRecent | crate/models/src/diffusion/unet/schedulers/lms_discrete.rs:128-132 | pushing a derivative and then dropping the oldest one once there are more than `order` keeps the buffer equal to the `order` most recent derivatives of the whole history |
| Lms.EffectiveOrder | crate/models/src/diffusion/unet/schedulers/lms_discrete.rs:135 | a step combines the configured order of coefficients, but no more than the steps taken so far |
| Lms.Terms | crate/models/src/diffusion/unet/schedulers/lms_discrete.rs:141-145 | the zip pairs coefficient o with the o-th most recent derivative, as far as both lists go |
| Lms.LmsScheduler.constructor | crate/models/src/diffusion/unet/schedulers/lms_discrete.rs:61-85 | a new scheduler keeps the given grid, appends a 0 to the interpolated sigmas, has an empty derivative buffer and the default configuration |
| Lms.LmsScheduler.Step | crate/models/src/diffusion/unet/schedulers/lms_discrete.rs:112-148 | a step panics before changing anything when the grid lacks the timestep or the prediction type is not implemented; otherwise it pushes the derivative, keeps the buffer at the most recent `order`, and pairs the effective order's coefficients with the derivatives, most recent first |
| Lms.RecentBounded | crate/models/src/diffusion/unet/schedulers/lms_discrete.rs:128-132 | the buffer never holds more than `order` derivatives, and holds the whole history while it is that short |
| Lms.TermsCoverOrder | crate/models/src/diffusion/unet/schedulers/lms_discrete.rs:135-145 | walking the grid from its start, the buffer always holds as many derivatives as there are coefficients, so the zip drops none |
| Lms.ProductFactors | crate/models/src/diffusion/unet/schedulers/lms_discrete.rs:88-99 | the coefficient product has one factor for each k in 0..order except the current one, each reading the sigmas at t-k and t-current |
| Lms.CoefficientReadsInBounds | crate/models/src/diffusion/unet/schedulers/lms_discrete.rs:88-107 | every sigma index the coefficient and its integration read lies in the sigma table |
| Sketch.CropIsLargestMultiple | src/bin/sketch.rs:59-66 | the cropped side is the largest multiple of 32 that fits in the image's side |
| Sketch.TStart | src/bin/sketch.rs:126 | the first denoised timestep is at most the step count, equals it for strength 0, and is 0 for strength 1 |
| Sketch.Denoised | src/bin/sketch.rs:135-149 | the loop skips the timesteps before `t_start` and steps through all the others in order |
| Sketch.RSplitDot | src/bin/sketch.rs:161 | `rsplit_once('.')` splits exactly when there is a dot, and the parts rejoin with a dot to the input; the second part has no dot |
| Sketch.OutputNameShape | src/bin/sketch.rs:160-169 | with several samples, the sample's number goes between the name's stem and its extension, or before an added ".png" when the name has no dot |
| Sketch.OutputNamesDistinct | src/bin/sketch.rs:160-170 | with several samples, different samples are saved to different files |
| Sketch.Run | src/bin/sketch.rs:68-175 | a strength outside [0, 1] is refused; a `t_start` past the grid panics on the first sample; otherwise each sample is denoised from `t_start` to the grid's end and saved under its own name |
| Sketch.Samples | src/bin/sketch.rs:128-171 | the sample loop panics exactly when there is a sample and `t_start` is past the grid; otherwise it writes one file per sample under its own name, each denoised from `t_start` to the grid's end |
| Sketch.ZeroStrengthPanics | src/bin/sketch.rs:81-133 | a strength of 0 passes the check but indexes past the end of an n_steps-long grid, so the first sample panics |
| Translation.StrToLangCodes | crate/models/src/translation.rs:69-78 | each language is selected by its own code, a non-English result names its code, and every other text means English |
| Translation.LocalRessources | crate/models/src/translation.rs:13-36 | the config, vocab, weights and merges files all lie in the model's data directory, and the merges are always present |
| Translation.RessourcesDistinct | crate/models/src/translation.rs:19-35 | the four resources are four different files |
| Llama.Context | crate/models/src/llama/mod.rs:89-92 | the network sees the suffix of the tokens of at most CONTEXT_SIZE (512) tokens, saturating at the start of the text |
| Llama.ContextSlides | crate/models/src/llama/mod.rs:88-101 | after one more token, a short text is seen whole and a full window drops its oldest token and gains the new one |
| Llama.Sampled | crate/models/src/llama/mod.rs:88-101 | a run of n steps draws exactly n tokens |
| Llama.SampledPrefix | crate/models/src/llama/mod.rs:100-101 | a longer run begins with a shorter one: an earlier token is never revised |
| Llama.SampledStep | crate/models/src/llama/mod.rs:89-101 | token k is drawn from the context of the prompt followed by the k tokens drawn before it |
| Llama.Generate | crate/models/src/llama/mod.rs:81-124 | an unencodable prompt panics; otherwise the tokens are the prompt followed by the sampled run, and with a sender ticks 1 to sample_len go out in order; the first tick with no receiver panics after the ticks before it |
| Llama.Prediction | crate/models/src/llama/mod.rs:72-126 | `prediction` returns the decoding of exactly the new tokens, and panics exactly when the prompt cannot be encoded or a tick has no receiver |
| LlamaModel.Config7b | crate/models/src/llama/model.rs:19-27 | the 7B configuration: block size 4096, vocabulary 32000, 32 layers, 32 heads, embedding 4096 |
| LlamaModel.MlpHiddenRoundsUp | crate/models/src/llama/model.rs:61-62 | for a positive base, the feed-forward width is 8/3 of the embedding rounded up to the next multiple of 256 (the least such multiple) |
| LlamaModel.MlpHiddenOfEmpty | crate/models/src/llama/model.rs:61-62 | for an empty embedding, the division of -1 truncates toward zero, so the width is 256 and not 0 |
| LlamaModel.MlpHidden7b | crate/models/src/llama/model.rs:61-62 | the 7B feed-forward layer is 11008 wide (from a base of 10922) |
| LlamaModel.QkvSlices | crate/models/src/llama/model.rs:136-138 | the attention projection is read as three column slices |
| LlamaModel.QkvPartition | crate/models/src/llama/model.rs:100-138 | the query, key and value slices tile the 3n-wide projection: each is n wide, each starts where the previous ends, and every column lies in exactly one of them |
| LlamaModel.RotaryShapes | crate/models/src/llama/model.rs:111-130 | popping from an empty shape panics; otherwise the last dimension v becomes (v/2, 2) to read pairs, and flattening gives back 2*(v/2) |
| LlamaModel.RotaryRoundTrip | crate/models/src/llama/model.rs:111-130 | the flattened shape is the input shape exactly when the last dimension is even |
| LlamaModel.NElem | crate/models/src/llama/model.rs:238 | the per-head width is defined exactly when there is at least one head; the division by zero panics otherwise |
| LlamaModel.FrequencyIndices | crate/models/src/llama/model.rs:239-242 | the frequency exponents are 0, 2, 4, ... below n_elem, which is (n_elem+1)/2 of them |
| LlamaModel.FrequencyShapeAgrees | crate/models/src/llama/model.rs:239-248 | the table is built with (n_elem+1)/2 columns but reshaped to n_elem/2; the two agree exactly when n_elem is even |
| LlamaModel.Frequencies7b | crate/models/src/llama/model.rs:236-250 | the 7B model has 128-wide heads and 64 frequencies, so its table reshapes cleanly |
| LlamaModel.LastPosition | crate/models/src/llama/model.rs:225-231 | the network keeps only the last position of its input |
| Pipelines.FromOneshot | crate/models/src/lib.rs:37-54 | a single image's configuration takes the prompt, size and seed from the arguments and everything else from the defaults |
| Pipelines.FromSequence | crate/models/src/lib.rs:99-118 | a sequence's configuration takes the prompt, size, seed and image count from the arguments and everything else from the defaults |
| Pipelines.FromParallel | crate/models/src/lib.rs:168-187 | a parallel batch's configuration takes the prompt, size, seed and image count from the arguments and everything else from the defaults |
| Pipelines.SequenceRun | crate/models/src/lib.rs:121-156 | a sequence panics unless both sides are multiples of 64, and also when the 32-bit frame counter overflows; otherwise it writes one frame per image, frames 0, 1, 2, … in order |
| Pipelines.ParallelPlan | crate/models/src/lib.rs:189-248 | a batch runs only when its image count is a multiple of 8 and there is a GPU; each GPU renders count/gpus images (integer division) starting at its index times that interval, and every start frame fits in 32 bits |
| Pipelines.StartFramesBounded | crate/models/src/lib.rs:224 | the GPUs' start frames are non-negative and never exceed the last GPU's |
| Pipelines.ParallelPlanDefined | crate/models/src/lib.rs:191-232 | the plan exists exactly when none of the run's checks panics: the assertion on the count, the division by the number of GPUs, the unsigned interval and the 32-bit start frames |
| Pipelines.ParallelInRange | crate/models/src/lib.rs:224-244 | GPU g's frames lie within its own interval, below interval × gpus |
| Pipelines.ParallelDisjoint | crate/models/src/lib.rs:224-244 | no two GPUs render the same frame, and no GPU renders one twice |
| Pipelines.ParallelCovers | crate/models/src/lib.rs:208-244 | every frame below interval × gpus is rendered by some GPU, at its offset in that GPU's interval |
| Pipelines.DivCovers | crate/models/src/lib.rs:208-244 | a number below interval × n falls in one of the n intervals, at its remainder |
| Pipelines.LabelIsFrame | crate/models/src/lib.rs:245-248 | the label shown for an image is its frame number plus one |
| Pipe.Default | crate/models/src/diffusion/pipe/mod.rs:22-36 | the default configuration: no prompt or count, the host's device, scheduler "dlms", 30 steps, frame 0, 768×768 and seed 42 |
| Pipe.WithDevice | crate/models/src/diffusion/pipe/mod.rs:39-44 | the copy differs from the original in its device alone |
| Pipe.WithFrame | crate/models/src/diffusion/pipe/mod.rs:46-51 | the copy differs from the original in its frame counter alone |
| Pipe.IncNFrame | crate/models/src/diffusion/pipe/mod.rs:53-55 | the counter goes up by one and nothing else changes; the 32-bit add overflows, and panics, exactly at its maximum |
| Pipe.FrameNameInjective | crate/models/src/diffusion/pipe/mod.rs:111-112 | distinct frames are saved to distinct `images/frameNNNN.png` files |
| Pipe.Pipe.constructor | crate/models/src/diffusion/pipe/mod.rs:66-84 | a new pipe keeps the configuration it is given |
| Pipe.Pipe.Diffuse | crate/models/src/diffusion/pipe/mod.rs:86-116 | a failed save returns an error and changes nothing; otherwise the image is saved under the current frame's name, that name is returned and the counter advances by one, which panics when the counter is already at its maximum |
| Engine.NamesAgreeAndDiffer | crate/models/src/diffusion/configuration/mod.rs:9-29 | the debug and display names of each engine agree, and different engines have different names |
| Engine.Weights | crate/models/src/diffusion/configuration/mod.rs:46-50 | an engine's weights file is `<name>.safetensors` under the data directory's `stable_diffusion_2_1` |
| Engine.Vocab | crate/models/src/diffusion/configuration/mod.rs:52-56 | the vocabulary is `vocab.txt` under the data directory's `stable_diffusion_2_1` |
| Engine.Config | crate/models/src/diffusion/configuration/mod.rs:58-63 | an engine's configuration is `<name>.ron` under the workspace's `configuration/diffusion` |
| Engine.PathsDistinct | crate/models/src/diffusion/configuration/mod.rs:46-63 | different engines have different weights files and configuration files, and no weights file is the vocabulary |
| Resources.FindFirst | crate/shared/src/model/mod.rs:24-30 | the search finds a resource exactly when one has that name, and then it finds the first such resource |
| Resources.IsValidRessourceIffListed | crate/shared/src/model/mod.rs:24-30 | a resource name is valid exactly when the model lists a resource of that name |
| Resources.CountNamedPositive | crate/shared/src/model/mod.rs:34-40 | the count of models with a name is positive exactly when some model has that name |
| Resources.IsValidModelIffListed | crate/shared/src/model/mod.rs:34-40 | a model name is valid exactly when some model in the catalogue has it |
| Resources.OnlyNamesMatter | crate/shared/src/model/mod.rs:24-30 | whether a resource name is valid depends only on the listed names, not on the URLs or flags |
| Tools.LowerWords | crate/shared/src/tools.rs:37 | each word is lower-cased, and they stay in order |
| Tools.RenameBlank | crate/shared/src/tools.rs:34-43 | a prompt of whitespace alone gives the scheduler followed by a dash |
| Tools.LowerKeepsUnderscores | crate/shared/src/tools.rs:37-39 | lower-casing neither adds nor removes an underscore |
| Tools.RenameRecoversWords | crate/shared/src/tools.rs:34-43 | the name is the scheduler, a dash, then text that splits at the underscores into the prompt's lower-cased words in order (provided no word contains an underscore) |
| DiffusionUtils.RenameAgrees | crate/models/src/diffusion/utils/mod.rs:22-31 | the diffusion crate's rename gives the same name as the shared one for every prompt and scheduler |
| DiffusionUtils.LinspaceIndices | crate/models/src/diffusion/utils/mod.rs:69-76 | the schedule has one point per step, numbered upward from 0, and none for a negative count |
| Text.Lower | crate/shared/src/tools.rs:37 | lower-casing keeps the length and maps each character on its own |
| Text.WordLength | crate/shared/src/tools.rs:36 | a word runs up to the first whitespace character or to the end of the text |
| Text.WordsAreWords | crate/shared/src/tools.rs:36 | every word from `split_whitespace` is non-empty and contains no whitespace |
| Text.NoWordsIffBlank | crate/shared/src/tools.rs:36 | a text has no words exactly when it is entirely whitespace |
| Text.Split | crate/shared/src/tools.rs:39 | splitting always gives at least one piece |
| Text.SplitJoin | crate/shared/src/tools.rs:39 | splitting a join on its one-character separator gives the pieces back, provided none of them contains it |
| Text.Decimal | crate/models/src/diffusion/pipe/mod.rs:111 | a rendered number has at least one digit, and at least two from 10 on |
| Text.DecimalInjective | crate/models/src/diffusion/pipe/mod.rs:111 | different numbers render differently |
| Text.ZeroPad | crate/models/src/diffusion/pipe/mod.rs:111 | the rendering is padded on the left with zeros to at least the width, and ends with the unpadded rendering |
| Text.PaddedDecimalInjective | crate/models/src/diffusion/pipe/mod.rs:111 | different numbers still render differently after zero padding |
| Tokenizer.DefaultConfig | crate/models/src/diffusion/tokenizer/mod.rs:19-26 | by default, encodings are 77 ids long and padded with "!" |
| Tokenizer.IndexOfLast | crate/models/src/diffusion/tokenizer/mod.rs:82-88 | collecting (item, index) pairs into a map indexes an item exactly when it occurs, and at its last occurrence |
| Tokenizer.IndexOfInjective | crate/models/src/diffusion/tokenizer/mod.rs:82-83 | no two items share an index, so the reversed map is a true inverse |
| Tokenizer.VocabLayout | crate/models/src/diffusion/tokenizer/mod.rs:66-82 | the vocabulary has 2 × bytes + merges + 2 entries, and the start and end markers are encoded as its last two indices |
| Tokenizer.BuildVocab | crate/models/src/diffusion/tokenizer/mod.rs:66-80 | the vocabulary is pushed as the bytes, the bytes with the end-of-word marker, the joined merges and the two markers, and the marker ids are the lengths at which they are pushed |
| Tokenizer.GetPairs | crate/models/src/diffusion/tokenizer/mod.rs:101-109 | the set holds exactly the adjacent pairs of the word, and it is empty for a word of at most one symbol |
| Tokenizer.LowestUnique | crate/models/src/diffusion/tokenizer/mod.rs:119-138 | with distinct ranks, the lowest-ranked pair does not depend on the order in which the hash set is visited |
| Tokenizer.Lowest | crate/models/src/diffusion/tokenizer/mod.rs:119-134 | the pair found is an adjacent pair that has a rank |
| Tokenizer.LowestIsLowest | crate/models/src/diffusion/tokenizer/mod.rs:119-134 | scanning the word's pairs in order finds the ranked pair of least rank, or none when none is ranked |
| Tokenizer.Merge | crate/models/src/diffusion/tokenizer/mod.rs:139-151 | a merge pass never lengthens the word |
| Tokenizer.MergeShrinksAt | crate/models/src/diffusion/tokenizer/mod.rs:141-150 | a pass over a word in which the pair occurs at some position makes the word strictly shorter |
| Tokenizer.MergeShrinks | crate/models/src/diffusion/tokenizer/mod.rs:118-152 | merging a pair that occurs in the word makes it strictly shorter, so the merge loop terminates |
| Tokenizer.ConcatAppend | crate/models/src/diffusion/tokenizer/mod.rs:144 | spelling out two runs of symbols in turn spells out their concatenation |
| Tokenizer.MergeSpells | crate/models/src/diffusion/tokenizer/mod.rs:139-151 | merging never changes the text the word spells |
| Tokenizer.BpeWordFinal | crate/models/src/diffusion/tokenizer/mod.rs:118-152 | after the loop, the word spells the same text, is no longer, and either is one symbol or has no ranked pair left |
| Tokenizer.Chars | crate/models/src/diffusion/tokenizer/mod.rs:112 | each character of the token becomes a symbol of its own |
| Tokenizer.Initial | crate/models/src/diffusion/tokenizer/mod.rs:112-117 | the initial word has one symbol per character |
| Tokenizer.ConcatChars | crate/models/src/diffusion/tokenizer/mod.rs:112 | spelling out the characters gives the token back |
| Tokenizer.InitialSpells | crate/models/src/diffusion/tokenizer/mod.rs:112-117 | the initial word spells the token followed by `</w>` |
| Tokenizer.InitialParts | crate/models/src/diffusion/tokenizer/mod.rs:116-117 | the initial word differs from the characters only in its last symbol, which gains `</w>` |
| Tokenizer.Encoded | crate/models/src/diffusion/tokenizer/mod.rs:153-156 | unknown symbols are dropped, so there are never more ids than symbols |
| Tokenizer.LookupEncoded | crate/models/src/diffusion/tokenizer/mod.rs:153-198 | when every symbol is known, decoding the ids of a word gives its symbols back |
| Tokenizer.FitLayout | crate/models/src/diffusion/tokenizer/mod.rs:168-181 | an encoding has exactly `max` ids: the content cut to `max - 1`, then padding, so its last id is always padding |
| Tokenizer.Tokenizer.Create | crate/models/src/diffusion/tokenizer/mod.rs:45-99 | the encoder maps each vocabulary entry to its index and the decoder inverts it; merge ranks are their line numbers; the start and end markers sit at 2 × bytes + merges and one past it; the configuration is kept |
| Tokenizer.Tokenizer.SetPadding | crate/models/src/diffusion/tokenizer/mod.rs:41-43 | only the padding changes |
| Tokenizer.Tokenizer.SelectLowest | crate/models/src/diffusion/tokenizer/mod.rs:119-134 | one scan over the pair set keeps the ranked pair of least rank |
| Tokenizer.Tokenizer.MergePair | crate/models/src/diffusion/tokenizer/mod.rs:139-151 | the loop that advances by two past each joined pair computes exactly the merge pass |
| Tokenizer.Tokenizer.Bpe | crate/models/src/diffusion/tokenizer/mod.rs:111-157 | an empty token gives no ids; otherwise the ids are those of the fully merged initial word, with unknown symbols dropped |
| Tokenizer.Tokenizer.BpeTokens | crate/models/src/diffusion/tokenizer/mod.rs:163-166 | the ids of each pre-split token are appended in turn |
| Tokenizer.Tokenizer.FitTo | crate/models/src/diffusion/tokenizer/mod.rs:168-181 | the resize to at most `max - 1` ids followed by the padding loop gives the fitted encoding |
| Tokenizer.Tokenizer.Encode | crate/models/src/diffusion/tokenizer/mod.rs:159-183 | encoding panics exactly when the maximum is 0 (the `max - 1` underflows) or the padding text has no id; otherwise it lower-cases, splits, merges each token, frames the ids with the markers, cuts to `max - 1` and pads up to `max` |
| Tokenizer.Tokenizer.Decode | crate/models/src/diffusion/tokenizer/mod.rs:192-199 | decoding succeeds exactly when every id is known, and then turns each `</w>` into a space |
| Tokenizer.Tokenizer.DecodeBpe | crate/models/src/diffusion/tokenizer/mod.rs:111-199 | when every merged symbol of a token is in the vocabulary, decoding its ids gives the token with its `</w>` turned into a space |
| Tokenizer.Tokenizer.EncodingFrame | crate/models/src/diffusion/tokenizer/mod.rs:159-183 | when there is room for two ids, an encoding is exactly `max` long, starts with the start marker and ends with padding |

## Left out

- Asynchrony: the tokio runtime, task spawning, the point in time at which an abort takes effect, channel capacities and DashMap locking. A command is handled as one atomic step. An aborted handle makes later sends to its queue fail, and so does a worker that ended by itself (`Supervisor.WorkerEnded`). When a worker ends is an input of the registry: no lemma ties a worker's stopped run to that flag, because the two run concurrently.
- DashMap iteration order: it is a parameter (`iterOrder`) of the commands and snapshots that iterate. The lemmas that need every key visited say so in their requires.
- The supervisor's health-signal loop (crate/actors/src/supervisor/mod.rs:121-145): it is a timer that repeats the snapshot, which is modelled. The control module and its stdin handling are left out too. Both are timing and I/O.
- The HTTP server: the handlers, server-sent events, authentication, CORS and TLS. Only the translation of an HTTP command into an instruction is modelled.
- Clocks and identifiers: timestamps are a `now` parameter. Fresh task ids, and whether a task starts, come from an environment value.
- Emit failure: a broadcast send fails when there is no receiver. This is a per-publish `receivers` flag.
- The predictions of the wrapped libraries (sentiment, summarisation, translation, diffusion and LLaMA): each is an opaque function parameter. A translation may fail: that parameter is partial, and its failure is a panic step, because the result is unwrapped. JSON parsing of a payload is an opaque partial function.
- Tensor and floating-point mathematics. This covers the beta, sigma and alpha tables, interpolation and integration of the LMS coefficients, the DDIM and LMS update formulas, `linspace` values, slerp, the UNet, VAE and CLIP networks, and image conversion. Index and shape bookkeeping around them is modelled.
- The LMS scheduler's construction of its tensors: the timestep grid and the sigmas are parameters.
- The pipe's selection of a scheduler inside `Pipe::new` and the scaling by the initial noise sigma: the latents passed to the denoising loop are already scaled. A UNet step is an opaque function.
- The sketch program's image I/O, random seeds and console output. `t_start` is computed with exact reals, and its truncation to an unsigned integer is the real's floor.
- File, network and environment I/O. This covers the loader crate, model loading, `get_config`, `file_open`, reading the vocabulary and merges files (they are parameters of `Tokenizer.Tokenizer.Create`), `time`, `wait`, `wait_for_input` and the workspace directory (a parameter).
- The regular expression that splits the text into words before BPE: it is a parameter.
- Unicode case mapping: lowercasing is modelled for ASCII letters only. Whitespace is the Unicode White_Space set.
- The binaries' `main` functions, the progress bar and all printing.
- `try_prediction` in the LLaMA module: its loop is the same as `prediction`'s, which `Llama.Generate` models, and it differs only in printing the result.
- `try_prediction` in the translation module (crate/models/src/translation.rs:97-119): the workers never call it, and it unwraps the translation the same way `prediction` does.
- The pause instruction's source file and the server's resume payload file are not part of this model. The pause instruction has the fields that `command_from` gives it, the same as the resume instruction.
- Errors.DebugChar: Rust's Debug form also writes other non-printable code points as `\u{..}`, such as unassigned, private-use, format and grapheme-extending characters. Only the control characters (C0, DEL and C1) are escaped here, because the standard library's printable-character tables are not modelled.
- DiffusionWorker.Plan: loading the model between the two announcements can panic on missing weight or vocabulary files. It is not a step of the plan, because model loading is file I/O.
- DiffusionWorker.Prediction: the image paths are an opaque output of the prediction. The pipe's naming of its frames is modelled separately by `Pipe`.
- LlamaWorker.Plan: the conversion of each sampled token to an `i64` can panic inside the token loop. The sampled token is an index into the vocabulary, so it always fits, and this panic is not a step of the plan. Model loading is left out as for the diffusion worker.
- `ModelList::into_iter` hands out the stored list of models unchanged. The model catalogue (`Resources`) is used directly as that list.
- DDIM's `scale_model_input` returns its sample unchanged. Nothing in the model would use it.
- The tools' `root` function returns the root role's name, which is the constant `Types.ROOT`.
- Integer widths: 32-bit and `usize` arithmetic is unbounded, except where the code can overflow or underflow. In those places the overflow is a panic, as in a debug build.

## Findings

| source | as written | input that shows it | evidently intended | confidence | as-written member | corrected member |
|---|---|---|---|---|---|---|
| crate/models/src/diffusion/unet/schedulers/mod.rs:37-39 | the times `i / n` and `(i + 1) / n` at which the squared-cosine schedule reads the alpha curve are integer divisions, so they are 0 for every beta but the last | n = 2: beta 0 reads the curve at times 0 and 0 | the real fractions `i / n` and `(i + 1) / n`, which split [0, 1] into n equal intervals; only the SquaredcosCapV2 schedule reaches this code, and the default configurations do not use it | not executed | Schedulers.AlphaBarTimesCollapse | Schedulers.IntendedAlphaBarTimesTile |
