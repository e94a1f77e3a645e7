# Long tasks, callback routing and alias generations

A Dafny model of three stateful cores, with proofs about every run of them.

**The long-task domain.** A session log is replayed by a strict fold (`LongTaskFold`, and in place
`LongTaskReplay`). `LongTaskDecoding` says what the decoder takes, `LongTaskLog` holds the laws of accepted logs,
`LongTaskTransitions` what each change may and must do. `LongTaskRequests` says what one service request checks
and writes, and relates it to the fold; `LongTaskInputs` says which input is taken and what its fields become,
`LongTaskOutcomes` what a call leaves. `LongTaskService` is the service as a class with its
incremental cache and activation; `LongTaskServiceModel` is what it looks like from outside.
`LongTaskCompanion` is the staged stream check. `RoundDriverModel` is the round driver as a transition system
in which anyone may act between its awaits, `RoundDriverSafety` its invariants, `RoundDriver` its handlers,
`RoundDriverAdmission` exactly which rounds are queued and enter, `RoundDriverProgress` that the driver moves on,
`RoundDriverInbox` what a dropped round gives back.
`LongTaskWitnesses` holds concrete inputs on which a stronger statement would fail.

**The callback file router.** `FileRouterModel` is one consumer over an append-only inbox: intake, delivery
passes, cursor file, crashes between any two effects. `FileRouterPasses` says what a pass does to each target,
`FileRouterSafety` what holds of every process life, `FileRouterGuarantees` what follows over whole runs,
`FileRouterIntake` exactly when a line is opened and what becomes of its targets.
`FileRouter` is the object with its loops and counters. `DedupWindow` and `DedupKeys` are the sliding window
and its keys. `PumpRouting` and `PumpLoop` are the older bridge, in which every consumer routes for itself and
one undertaker buries bad lines; `PumpRetries` is how it retries.

**The alias-generation registry and host routing.** `HostRegistry` is the registry, `HostRegistryLaws` the laws
of its generations, `HostRegistrySlots` what each operation does to each slot, `HostRegistryStore` its file with
the normalisers, `HostAddressing` the routing decision, `HostRoutes` exactly where each address leads,
`ObjectNames` the names every object inherits.

How the model reads the code:

- A value the code gets from outside (clock, random id, JSON reader, sink, native cursors, registry contents,
  success of a flush) is a parameter; statements hold for all of them.
- The code decides. The fold compares hub entries as one joined text although its comment speaks of retained
  fields (`host/packages/dsh-long-task/lib/types/fold.js:231-240`). Nothing enforces the comment that a session
  id holds no `@` (`plugins/host-callback-bridge/core/addressing.js:23`), so round trips through addresses state
  that condition.
- The tables of the bridge are plain objects indexed directly, so a lookup under a name that every object
  inherits, such as `constructor`, finds a member without an entry
  (`plugins/host-callback-bridge/core/addressing.js:98,107`, `plugins/host-callback-bridge/core/registry.js:99,145,150`,
  `plugins/_narrow-waist/addressing.js:54,59,97,103`). The model's lookups do the same (`ObjectNames`). A name
  that is not inherited is called plain. Laws that fail under inherited names say exactly when they hold, and
  concrete inputs show the failure.
- Integers of the log are JavaScript safe integers; the bound is explicit in the decoders.
- Statements about reachable registries start from any registry whose ledger names its live slots; the empty one
  is such a registry, and `HostRegistryStore.MigratedGoodExactly` says which migrated files are.

## Model

| member | source | states |
|---|---|---|
| LongTaskReplay.CheckOrdinals | host/packages/dsh-long-task/lib/types/fold.js:108-119 | accepts exactly the lists of at most `max` entries numbered 1, 2, 3, ... |
| LongTaskReplay.CheckClosures | host/packages/dsh-long-task/lib/types/fold.js:143-148 | accepts exactly when every checkpoint a question closes exists |
| LongTaskReplay.CheckSnapshot | host/packages/dsh-long-task/lib/types/fold.js:121-162 | the decoding loops accept exactly the snapshots that satisfy every bound, ordinal and cross-reference rule |
| LongTaskReplay.Decode | host/packages/dsh-long-task/lib/types/fold.js:179-219 | a payload is refused, or taken with the block reason kept only in phase `blocked`, as the pure decoder says |
| LongTaskReplay.FoldAccumulator.Clone | host/packages/dsh-long-task/lib/types/invariant.js:9-18 | an independent copy of every field |
| LongTaskReplay.FoldAccumulator.ApplyChange | host/packages/dsh-long-task/lib/types/fold.js:346-385 | all or nothing: the accumulator becomes the specified next fold, or every field is as before and the error is the specified one |
| LongTaskReplay.FoldAccumulator.ApplyEvent | host/packages/dsh-long-task/lib/types/fold.js:391-422 | the same for every kind of session event, traces and round messages included |
| LongTaskReplay.FoldLongTask | host/packages/dsh-long-task/lib/types/fold.js:428-439 | one pass over a log yields the fold of the log, or the error of its first refused event |
| LongTaskFold.PrefixAccepted | host/packages/dsh-long-task/lib/types/fold.js:428-439 | every prefix of an accepted log is accepted |
| LongTaskFold.ErrorSticks | host/packages/dsh-long-task/lib/types/fold.js:428-439 | a refused prefix refuses every extension, with the same error |
| LongTaskDecoding.SnapshotTakenExactly | host/packages/dsh-long-task/lib/types/fold.js:108-162 | the decoder takes a snapshot if and only if its numbers are in range, its texts have no space at the ends, its lists are numbered from one within their bounds, closed questions name existing checkpoints and a blocked one has a proper reason |
| LongTaskDecoding.KebabExactly | host/packages/dsh-long-task/lib/types/fold.js:62-64 | a reason code is taken if and only if it starts with a letter and its dashes separate runs of letters and digits |
| LongTaskDecoding.ChangeTakenExactly | host/packages/dsh-long-task/lib/types/fold.js:179-219 | a change is taken if and only if its times are in order and in range and what it carries is taken |
| LongTaskLog.FoldWellFormed | host/packages/dsh-long-task/lib/types/fold.js:346-422 | after any accepted log: a task has its timestamps in order, a valid snapshot, a seen id and the last ref; no task means no rounds |
| LongTaskLog.RefsUnique | host/packages/dsh-long-task/lib/types/fold.js:242-246 | no two change events of an accepted log carry the same id and revision, across clears and replacements |
| LongTaskLog.CurrentComesFromNewestChange | host/packages/dsh-long-task/lib/types/fold.js:346-385 | the current snapshot is the decoded one of the newest change event |
| LongTaskLog.SameRefSameSnapshot | host/packages/dsh-long-task/lib/types/fold.js:346-385 | at any two moments of one accepted log the same ref denotes the same snapshot, hence the same round cap |
| LongTaskLog.RoundConservation | host/packages/dsh-long-task/lib/types/fold.js:410-421 | `roundsStarted` is the number of round messages since the create, and they are numbered 1..n without gaps; edits, pauses and resumes never reset it |
| LongTaskLog.RoundsWithinCap | host/packages/dsh-long-task/lib/types/fold.js:410-421 | each round message was the next one, on the active current revision, within the cap in force at that moment |
| LongTaskLog.HandoffsCountUpToDrift | host/packages/dsh-long-task/lib/types/fold.js:232-240 | on every accepted log `handoffs` is the number of handoff changes plus what other changes moved it by |
| LongTaskLog.HandoffConservation | host/packages/dsh-long-task/lib/types/fold.js:265-271 | in logs whose other changes keep the counter, `handoffs` counts the handoff changes since the create |
| LongTaskLog.BudgetKeptExactly | host/packages/dsh-long-task/lib/types/fold.js:259-264 | rounds started stay within the cap over every accepted event exactly except an edit that lowers the cap below them |
| LongTaskLog.CoreKept | host/packages/dsh-long-task/lib/types/fold.js:232-240 | such a change keeps the entries when neither list holds a line break |
| LongTaskLog.CoreKeptExactly | host/packages/dsh-long-task/lib/types/fold.js:232-240 | no accepted change but a create or an edit can alter the hub entries, if and only if the task is complete or at the last revision, or the entries are none or a single one without a line break between two non-spaces; two or more entries can always be merged |
| LongTaskLog.ProjectionAgrees | host/packages/dsh-long-task/lib/types/index.js:66-86 | on every accepted log the last-wins projection has the strict fold's task and timestamps, and its round count lags by exactly the rounds admitted since the newest change |
| LongTaskLog.ProjectionIsNewestDecodable | host/packages/dsh-long-task/lib/types/index.js:66-86 | on any log, accepted or not, the projection is what the newest change that decodes says, and nothing if there is none |
| LongTaskTransitions.MoveTakenExactly | host/packages/dsh-long-task/lib/types/fold.js:248-303 | a snapshot change that is no create is taken over a current task if and only if it is the next revision with the same counters and no earlier time, its phases are in the table of moves, an edit keeps phase, handoffs and reason, any other operation keeps the definition field by field (the entries as one text), a resume finds rounds left and a handoff counts one |
| LongTaskTransitions.MoveTaken | host/packages/dsh-long-task/lib/types/fold.js:374-385 | what a taken change leaves current: the task it carries, with its reason only while blocked, its counters and times |
| LongTaskTransitions.CreateTakenExactly | host/packages/dsh-long-task/lib/types/fold.js:365-373 | a create is taken if and only if it is a fresh active first revision without rounds or handoffs, over no task or a complete one |
| LongTaskTransitions.ClearTakenExactly | host/packages/dsh-long-task/lib/types/fold.js:348-364 | a clear is taken if and only if it names the next revision of a current task and is no earlier than its newest update; it leaves no task and every seen identifier |
| LongTaskTransitions.DefinitionKept | host/packages/dsh-long-task/lib/types/fold.js:232-240 | every accepted operation but a create and an edit keeps objective, cap, next step, checkpoints and open questions |
| LongTaskTransitions.EditKeepsStanding | host/packages/dsh-long-task/lib/types/fold.js:259-264 | every accepted edit keeps phase, handoffs and blocked reason |
| LongTaskTransitions.DefinitionStands | host/packages/dsh-long-task/lib/types/fold.js:232-303 | between two moments of one task in one log with no edit in between, every defined field is the same |
| LongTaskTransitions.RevisionsCount | host/packages/dsh-long-task/lib/types/fold.js:242-257 | between two moments of one task the revision grows by the number of change events, the creation time stays, and neither the update time nor the rounds fall |
| LongTaskTransitions.TracesTell | host/packages/dsh-long-task/lib/types/fold.js:399-408 | every trace of an accepted log names the revision and handoff count current at its moment, and changes nothing |
| LongTaskTransitions.TraceTakenExactly | host/packages/dsh-long-task/lib/types/fold.js:319-340 | a trace is taken if and only if it names exactly those and a representable time |
| LongTaskTransitions.RoundTakenExactly | host/packages/dsh-long-task/lib/types/fold.js:409-421 | a round message is taken if and only if it is the next round of the active current revision within its cap, and then it only counts |
| LongTaskWitnesses.EditStrandsQuestion | host/packages/dsh-long-task/lib/types/index.js:182-192 | a concrete edit of the checkpoints alone passes the service's checks and is then refused by the fold |
| LongTaskWitnesses.PauseMovesHandoffs | host/packages/dsh-long-task/lib/types/fold.js:272-276 | a concrete accepted log in which a pause moves the handoff counter, so that it no longer counts handoffs |
| LongTaskWitnesses.PauseReshapesCore | host/packages/dsh-long-task/lib/types/fold.js:232-240 | a concrete accepted log in which a pause splits one hub entry into two |
| LongTaskWitnesses.EditLowersCap | host/packages/dsh-long-task/lib/types/fold.js:259-264 | a concrete accepted log whose last edit leaves more rounds started than the cap allows |
| LongTaskRequests.ResolvedDefinition | host/packages/dsh-long-task/lib/types/index.js:165-175 | a create request that resolves yields a snapshot the strict decoder accepts |
| LongTaskRequests.ResolvedPatch | host/packages/dsh-long-task/lib/types/index.js:177-193 | an edit that resolves yields a valid snapshot if and only if kept questions still close existing checkpoints |
| LongTaskRequests.MoveAccepted | host/packages/dsh-long-task/lib/types/fold.js:248-303 | a ledger-keeping move that the transition table allows is accepted exactly when its counters and clock are representable, whatever the clock did |
| LongTaskRequests.ServiceRefinesFold | host/packages/dsh-long-task/lib/types/index.js:255-401 | from any accepted log and for any clock, a request that passes the service's checks appends an event the fold accepts if and only if `Safe` holds, and then the replayed state is the documented one |
| LongTaskRequests.PlannedChangeKeepsHandoffs | host/packages/dsh-long-task/lib/types/index.js:284-349 | no change the service writes moves the handoff counter except a handoff |
| LongTaskRequests.AtMostOneWins | host/packages/dsh-long-task/lib/types/index.js:410-418 | once a request naming a ref was accepted, every later request with that ref is refused as stale or not found, across clears and replacements |
| LongTaskRequests.RefusalsWarranted | host/packages/dsh-long-task/lib/types/index.js:255-363 | the service refuses no transition the fold would take: where it finds phase, budget or an existing task in the way, the fold refuses every change of that operation; only resuming an active armed task is refused by the service alone |
| LongTaskInputs.TrimMeaning | host/packages/dsh-long-task/lib/types/index.js:90-175 | trimming cuts exactly the surrounding space off, and leaves something if and only if there was something |
| LongTaskInputs.CreateInputExactly | host/packages/dsh-long-task/lib/types/index.js:90-175 | a create request resolves if and only if every field is usable, and is otherwise refused for the first one that is not |
| LongTaskInputs.EditInputExactly | host/packages/dsh-long-task/lib/types/index.js:177-193 | the same for the fields an edit names, and an edit that names none is refused as a whole |
| LongTaskInputs.EditedFields | host/packages/dsh-long-task/lib/types/index.js:177-193 | after an accepted edit every named field of the replayed task is the request's own value, trimmed and numbered, and every other field is the former one |
| LongTaskInputs.CreatedFields | host/packages/dsh-long-task/lib/types/index.js:255-276 | after an accepted create every field of the replayed task is the request's own, the cap the requested one or else the default |
| LongTaskInputs.BlockedFields | host/packages/dsh-long-task/lib/types/index.js:342-349 | after an accepted block the task is the former one, a revision further, blocked for the request's code and trimmed message |
| LongTaskInputs.PlannedExactly | host/packages/dsh-long-task/lib/types/index.js:255-418 | a request is committed if and only if no fault is found with it, and is refused by the first fault otherwise; a committed create or resume arms, an edit or handoff leaves the activation, any other disarms |
| LongTaskOutcomes.TurnedAwayExactly | host/packages/dsh-long-task/lib/types/index.js:255-418 | a call is turned away for bad input, a dead agent, a refused log or a fault, in this order, and then leaves everything alone; any other call writes |
| LongTaskOutcomes.ReadExactly | host/packages/dsh-long-task/lib/types/index.js:229-234 | what a read answers for a dead agent, a refused log, no task and a task |
| LongTaskOutcomes.WrittenExactly | host/packages/dsh-long-task/lib/types/index.js:255-401 | what a call that writes leaves: one change, and after a taken handoff its trace; announced if and only if the replay takes the change, successful if and only if it takes all; the answer is what is then current, and a failed writing leaves nothing armed |
| LongTaskOutcomes.ActivationExactly | host/packages/dsh-long-task/lib/types/index.js:196-253 | exactly which steps of anyone leave the service armed |
| LongTaskServiceModel.ArmedAlwaysActive | host/packages/dsh-long-task/lib/types/index.js:443-453 | in every state reachable by own calls, disarms, foreign appends and session starts, armed implies a current task in phase `active` |
| LongTaskServiceModel.OnlyCreateOrResumeArms | host/packages/dsh-long-task/lib/types/index.js:506-523 | only this process's own successful create or resume turns a disarmed service armed |
| LongTaskServiceModel.OwnLogsCountHandoffs | host/packages/dsh-long-task/lib/types/index.js:358-367 | in every log whose task changes only the service wrote, over any calls and any other events, `handoffs` counts the handoff changes since the create |
| LongTaskServiceModel.HandoffAccepted | host/packages/dsh-long-task/lib/types/index.js:358-381 | a handoff succeeds exactly when its change is safe and its trace's clock reading representable; then the answer is the current view and the activation is unchanged |
| LongTaskService.LongTaskService.Load | host/packages/dsh-long-task/lib/types/index.js:426-441 | seeding folds the whole log once, disarmed; a refused seed leaves the service unseeded and reports the fold's error |
| LongTaskService.LongTaskService.ObserveNext | host/packages/dsh-long-task/lib/types/index.js:443-453 | observing one event either advances the cache to the longer replayed prefix or moves nothing |
| LongTaskService.LongTaskService.Sync | host/packages/dsh-long-task/lib/types/index.js:443-453 | after a sync, also one that throws part-way, the cache is the fold of exactly the observed prefix; foreign changes leave it disarmed |
| LongTaskService.LongTaskService.Prepare | host/packages/dsh-long-task/lib/types/index.js:403-408 | live check, seed and sync: refuses with the fold's error on a poisoned log, else the cache holds the replay of the whole log |
| LongTaskService.LongTaskService.Commit | host/packages/dsh-long-task/lib/types/index.js:506-523 | appends one change and observes it with the announced activation; the log keeps the event even when replay refuses it |
| LongTaskService.LongTaskService.CommitCurrent | host/packages/dsh-long-task/lib/types/index.js:475-487 | commits a change that keeps the counters and the creation time and never dates it before the last update, whatever the clock did |
| LongTaskService.LongTaskService.ExpectCurrentRef | host/packages/dsh-long-task/lib/types/index.js:410-418 | the guard on refs: not found, stale, or the current snapshot |
| LongTaskService.LongTaskService.Transition | host/packages/dsh-long-task/lib/types/index.js:463-469 | a phase change from an allowed phase only, disarmed, equal to the model's pause or completion |
| LongTaskService.LongTaskService.Get | host/packages/dsh-long-task/lib/types/index.js:229-234 | a read reports the replay of the whole log and changes nothing visible |
| LongTaskService.LongTaskService.Disarm | host/packages/dsh-long-task/lib/types/index.js:241-247 | removes the activation without touching the log |
| LongTaskService.LongTaskService.OnSessionStart | host/packages/dsh-long-task/lib/types/index.js:207-209 | a session start leaves the service disarmed, even over unread events |
| LongTaskService.LongTaskService.AppendForeign | host/packages/dsh-long-task/lib/types/index.js:443-453 | another writer's append: a change revokes the activation, other accepted events keep it |
| LongTaskService.LongTaskService.Create | host/packages/dsh-long-task/lib/types/index.js:255-276 | equals the model's create: validation before liveness, replacement of a completed task only, armed |
| LongTaskService.LongTaskService.Edit | host/packages/dsh-long-task/lib/types/index.js:284-294 | equals the model's edit: ref check before validation, activation kept |
| LongTaskService.LongTaskService.Pause | host/packages/dsh-long-task/lib/types/index.js:301-303 | equals the model's pause: from `active` only, disarmed |
| LongTaskService.LongTaskService.CompleteCurrent | host/packages/dsh-long-task/lib/types/index.js:332-334 | equals the model's completion: from any phase but `complete`, disarmed |
| LongTaskService.LongTaskService.Resume | host/packages/dsh-long-task/lib/types/index.js:311-325 | equals the model's resume: phase, already-armed and budget checks in that order, armed |
| LongTaskService.LongTaskService.Block | host/packages/dsh-long-task/lib/types/index.js:342-349 | equals the model's block: from `active` only, with the normalized reason, disarmed |
| LongTaskService.LongTaskService.HandoffTo | host/packages/dsh-long-task/lib/types/index.js:358-381 | equals the model's handoff: change first, notification next, trace appended and observed last |
| LongTaskService.LongTaskService.Clear | host/packages/dsh-long-task/lib/types/index.js:388-401 | equals the model's clear: a tombstone one revision past the snapshot, disarmed |
| LongTaskCompanion.StreamCompanion.Seed | host/packages/dsh-long-task/lib/types/invariant.js:31-42 | a seed is adopted if and only if its replay is accepted, and otherwise nothing changes |
| LongTaskCompanion.StreamCompanion.Stage | host/packages/dsh-long-task/lib/types/invariant.js:46-53 | a candidate is validated on a copy of the published fold, exactly as replaying one event more would; the published fold does not move |
| LongTaskCompanion.StreamCompanion.Publish | host/packages/dsh-long-task/lib/types/invariant.js:54-62 | publication adopts the copy staged for that event; the published fold is then the replay of the published events exactly if nothing else was published since it was staged |
| LongTaskCompanion.OverlappingPublications | host/packages/dsh-long-task/lib/types/invariant.js:46-62 | a concrete overlap: of two events staged before either is published, the fold forgets the one published first |
| RoundDriverSafety.OneRunPerAgent | host/packages/dsh-long-task-round-driver/lib/index.js:170-202 | however triggers, flushes and retirements interleave, an agent never has two driver runs |
| RoundDriverSafety.ValidMeansAdmitted | host/packages/dsh-long-task-round-driver/lib/index.js:279-283 | a valid reservation names a round the strict fold admits now, the cap included |
| RoundDriverSafety.AdmissionSound | host/packages/dsh-long-task-round-driver/lib/index.js:284-342 | under any interleaving, a non-aborted round the fence lets enter is accepted by the strict fold at that moment, including `round <= maxRounds`, which the fence never tests |
| RoundDriverSafety.ReservationReplacesNone | host/packages/dsh-long-task-round-driver/lib/index.js:121-168 | no step exchanges one reservation for another: a new one always replaces none |
| RoundDriverSafety.QueuedAfterFlush | host/packages/dsh-long-task-round-driver/lib/index.js:107-168 | whenever a step queues a round, a session flush that began after the newest change event has succeeded, also across changes that landed during an awaited flush |
| RoundDriverSafety.QueuesTheNextRound | host/packages/dsh-long-task-round-driver/lib/index.js:127-168 | after its checkpoint the drive queues exactly if the task is active and armed, rounds are left and the inbox takes the message; the round is the one the strict fold admits next; an exhausted or unqueueable task is stopped |
| RoundDriverSafety.FailsClosed | host/packages/dsh-long-task-round-driver/lib/index.js:91-97 | agent error, unload, token exhaustion, an abort before the claim, a failed checkpoint and an unstartable run each leave a live agent disarmed |
| RoundDriverSafety.InterruptedStops | host/packages/dsh-long-task-round-driver/lib/index.js:219-236 | going idle with an interrupted attempt of an armed task drops the attempt and leaves the agent disarmed, whether or not the pause succeeds |
| RoundDriverAdmission.FenceExactly | host/packages/dsh-long-task-round-driver/lib/index.js:279-342 | both halves of the fence let a round through if and only if driver, agent and log admit it: mounted, not unloading, live, its own claimed message not made stale, and the log's task armed and active at that revision with this round next; then nothing changes |
| RoundDriverAdmission.TurnedAway | host/packages/dsh-long-task-round-driver/lib/index.js:289-341 | a round turned away by the first half gives up its own reservation only, by the second half any; an unreadable log disarms, and the driver is triggered |
| RoundDriverAdmission.ChainDecides | host/packages/dsh-long-task-round-driver/lib/index.js:306-318 | an abort leaves the reservation and passes the chain's decision on; a throw gives the reservation up and is thrown on |
| RoundDriverAdmission.RejectBlocks | host/packages/dsh-long-task-round-driver/lib/index.js:319-327 | a rejected round gives its reservation up and blocks the task if and only if that revision is still current, active and armed; a failing block is thrown on |
| RoundDriverAdmission.TailReserves | host/packages/dsh-long-task-round-driver/lib/index.js:121-168 | the drive reserves if and only if the task is active and armed, rounds are left and the message is taken: exactly the next round under that message, queued and untouched |
| RoundDriverAdmission.QueuesFresh | host/packages/dsh-long-task-round-driver/lib/index.js:107-168 | whatever step queues a round, it does so mounted, idle, with no competing prompt and no checkpoint due, and the round is the next one within the cap |
| RoundDriverAdmission.QueuedRoundEnters | host/packages/dsh-long-task-round-driver/lib/index.js:242-342 | over every run, a round that a step queued and that is claimed next passes the fence and enters; claimed after a competing prompt it is refused and given up |
| RoundDriverProgress.TriggerTakenUp | host/packages/dsh-long-task-round-driver/lib/index.js:170-202 | a trigger leaves a stored run with the request pending, or a disarmed agent if none could be started |
| RoundDriverProgress.NoTriggerLost | host/packages/dsh-long-task-round-driver/lib/index.js:170-202 | over every run, while a trigger is pending for an armed live agent a stored run will serve it |
| RoundDriverProgress.TurnExactly | host/packages/dsh-long-task-round-driver/lib/index.js:176-186 | a stored run ends without a pending trigger, and otherwise uses it up: to await a flush of the log as it is if a checkpoint is due, or to go on to the tail, if the driver is quiet |
| RoundDriverProgress.FlushExactly | host/packages/dsh-long-task-round-driver/lib/index.js:110-120 | a failed flush disarms; a successful one goes on to the tail if and only if the driver is still quiet and no checkpoint is due again |
| RoundDriverProgress.RoundAfterRound | host/packages/dsh-long-task-round-driver/lib/index.js:107-342 | an undisturbed queued round is claimed, enters, is appended and counted, and after its checkpoint the next round is queued, as long as rounds are left |
| RoundDriverProgress.DropsExactly | host/packages/dsh-long-task-round-driver/lib/index.js:121-342 | exactly which steps drop a reservation |
| RoundDriverProgress.MarksExactly | host/packages/dsh-long-task-round-driver/lib/index.js:242-277 | exactly which steps claim, admit, cancel or make stale a reservation |
| RoundDriverProgress.CompetesExactly | host/packages/dsh-long-task-round-driver/lib/index.js:219-249 | exactly which steps make a prompt compete, and that going idle and a session start end it |
| RoundDriverProgress.IdleExactly | host/packages/dsh-long-task-round-driver/lib/index.js:219-236 | going idle with a round that was not admitted, or was cancelled, on a running task pauses that task; the driver is triggered if the log can be read |
| RoundDriverProgress.ExhaustedIsBlocked | host/packages/dsh-long-task-round-driver/lib/index.js:129-135 | a task without rounds left is blocked in the log for reaching its limit, with that number, and nothing stays armed |
| RoundDriverProgress.UnqueueableIsBlocked | host/packages/dsh-long-task-round-driver/lib/index.js:157-167 | a round whose message cannot be queued blocks the task in the log with what was thrown, and nothing stays armed |
| RoundDriverProgress.SessionStartExactly | host/packages/dsh-long-task-round-driver/lib/index.js:213-218 | a session start forgets attempt, competition and due checkpoint, and no run in progress covers the new log |
| RoundDriverProgress.RejectedIsBlocked | host/packages/dsh-long-task-round-driver/lib/index.js:319-326 | a rejected round of an unmoved task blocks it in the log for that reason |
| RoundDriverProgress.BrokenIsPaused | host/packages/dsh-long-task-round-driver/lib/index.js:224-233 | a broken round of a running task pauses it in the log |
| RoundDriver.Driver.RequestDrive | host/packages/dsh-long-task-round-driver/lib/index.js:170-202 | equals the model's coalescing of triggers; a run that cannot start disarms |
| RoundDriver.Driver.CurrentTask | host/packages/dsh-long-task-round-driver/lib/index.js:78-81 | reads the task of a live agent and changes nothing visible |
| RoundDriver.Driver.Disarm | host/packages/dsh-long-task-round-driver/lib/index.js:91-97 | removes the activation if the task is armed; a failing read leaves it alone |
| RoundDriver.Driver.OnChanged | host/packages/dsh-long-task-round-driver/lib/index.js:237-241 | a task change makes a checkpoint due and triggers the driver |
| RoundDriver.Driver.BlockOrDisarm | host/packages/dsh-long-task-round-driver/lib/index.js:129-135 | blocks the task, and disarms if the block throws |
| RoundDriver.Driver.Iterate | host/packages/dsh-long-task-round-driver/lib/index.js:107-127 | equals the model's loop turn up to the awaited flush |
| RoundDriver.Driver.FlushSettled | host/packages/dsh-long-task-round-driver/lib/index.js:110-127 | equals the model's piece after the flush: failure disarms, success records coverage and rechecks readiness |
| RoundDriver.Driver.AfterFlush | host/packages/dsh-long-task-round-driver/lib/index.js:119-127 | equals the model's continuation after a flush that succeeded: coverage recorded, readiness checked again |
| RoundDriver.Driver.DriveTail | host/packages/dsh-long-task-round-driver/lib/index.js:121-168 | equals the model's tail: process an attempt, or reserve at most one next round, or block an exhausted task |
| RoundDriver.Driver.QueueNext | host/packages/dsh-long-task-round-driver/lib/index.js:129-167 | equals the model's reservation of the next round, taken back if queueing throws |
| RoundDriver.Driver.Retire | host/packages/dsh-long-task-round-driver/lib/index.js:193-201 | equals the model's retirement of a settled run, restarting on a pending trigger |
| RoundDriver.Driver.ValidReservation | host/packages/dsh-long-task-round-driver/lib/index.js:279-283 | the fence's test reads as the model's and changes nothing |
| RoundDriver.Driver.PreStepOpen | host/packages/dsh-long-task-round-driver/lib/index.js:284-305 | equals the first half of the fence; a refused round releases only its own reservation |
| RoundDriver.Driver.PreStepClose | host/packages/dsh-long-task-round-driver/lib/index.js:306-342 | equals the second half of the fence for every way the chain can end |
| RoundDriverInbox.Inbox.RestoreOtherClaimed | host/packages/dsh-long-task-round-driver/lib/index.js:98-105 | of a dropped round's step, every other claimed message that is queued nowhere goes back to the front of the next step in its order, the task's own context notes do not, nothing else moves and nothing is queued twice |
| RoundDriverInbox.Inbox.PutBackAll | host/packages/dsh-long-task-round-driver/lib/index.js:101-104 | the backward loop puts back exactly the messages not queued, in their order |
| RoundDriver.Driver.AfterReject | host/packages/dsh-long-task-round-driver/lib/index.js:319-327 | a round the chain rejected releases its reservation and blocks an unmoved armed task |
| RoundDriver.Driver.AfterEnter | host/packages/dsh-long-task-round-driver/lib/index.js:328-341 | the second validity check decides whether the round enters |
| RoundDriver.Driver.OnSessionStart | host/packages/dsh-long-task-round-driver/lib/index.js:213-218 | a session start forgets attempt, competition and checkpoint |
| RoundDriver.Driver.PauseInterrupted | host/packages/dsh-long-task-round-driver/lib/index.js:225-233 | drops the attempt, pauses the task, and disarms if the pause throws |
| RoundDriver.Driver.OnIdle | host/packages/dsh-long-task-round-driver/lib/index.js:219-236 | equals the idle handler: an interrupted attempt of an armed task pauses it or, failing that, disarms |
| RoundDriver.Driver.OnInserted | host/packages/dsh-long-task-round-driver/lib/index.js:242-249 | equals the inserted handler: any other queued prompt competes and makes a queued attempt stale |
| RoundDriver.Driver.OnClaimed | host/packages/dsh-long-task-round-driver/lib/index.js:250-253 | only the reserved message moves the attempt to claimed |
| RoundDriver.Driver.OnDiscarded | host/packages/dsh-long-task-round-driver/lib/index.js:254-257 | only the reserved message cancels the attempt |
| RoundDriver.Driver.OnAppended | host/packages/dsh-long-task-round-driver/lib/index.js:258-265 | only the reserved message id moves the attempt to admitted |
| RoundDriver.Driver.OnTurnEnd | host/packages/dsh-long-task-round-driver/lib/index.js:266-274 | equals the turn-end handler |
| RoundDriver.Driver.OnUnload | host/packages/dsh-long-task-round-driver/lib/index.js:343-362 | equals the unload piece: stopping, disarmed, attempt stale |
| HostRegistryLaws.LookupRefinesLedger | plugins/host-callback-bridge/core/registry.js:149-197 | from a good registry, at every moment of a run a live slot carrying an alias of a plain name is that alias's ledger holder with the ledger's epoch, if and only if no step registers a session of an inherited name without a slot under the alias `undefined`; then no such alias has two live slots |
| HostRegistryLaws.StepKeepsLedgerExactly | plugins/host-callback-bridge/core/registry.js:140-244 | one step keeps a good registry good if and only if it is not such a registration |
| HostRegistryLaws.GenerationsNeverFall | plugins/host-callback-bridge/core/registry.js:140-244 | over every run no ledger entry is dropped and no epoch falls |
| HostRegistryLaws.GenerationsNeverRepeat | plugins/host-callback-bridge/core/registry.js:149-188 | over every run a pair of alias and epoch is issued to at most one session, for any alias that has a ledger entry or a plain name where the run begins |
| HostRegistryLaws.GenerationsNeverRepeatExactly | plugins/host-callback-bridge/core/registry.js:149-170 | no run from a registry ever repeats a generation of an alias, if and only if the alias is not an inherited name without a ledger entry in that registry |
| HostRegistryLaws.ForeignAliasRepeats | plugins/host-callback-bridge/core/registry.js:149-170 | for every inherited name without a ledger entry, in any registry, a two-step run in which two sessions are issued the same generation |
| HostRegistryLaws.RegisterMovesHoldings | plugins/host-callback-bridge/core/registry.js:149-184 | for every session and alias: a registration makes the session the holder exactly unless the alias is an inherited name without an entry or the session loses it at once, and lets go of the alias found on its slot or on the member in its place; no other holding moves, and none without an alias |
| HostRegistryLaws.UnregisterMovesHoldings | plugins/host-callback-bridge/core/registry.js:201-217 | for every session: a retirement drops its slot and the holding of the alias found on it or on the member in its place, and nothing else |
| HostRegistryLaws.TakeoverLeavesTrace | plugins/host-callback-bridge/core/registry.js:151-165 | a takeover opens the next epoch and makes the session holder exactly unless it loses the alias; it marks the old slot with successor and old generation unless nobody was noted under the inherited name, and always drops the alias's older stale slots |
| HostRegistryLaws.TakeoverKills | plugins/host-callback-bridge/core/registry.js:151-165 | a takeover takes another session out of routing, if and only if the session was not taken for its own predecessor: one called `undefined`, first under an inherited name |
| HostRegistryLaws.StaysDownThroughout | plugins/host-callback-bridge/core/registry.js:140-244 | a session out of routing stays out through every run that never revives it: by an alias, or when it has no slot any more; its own bare registrations keep it out |
| HostRegistryLaws.StepRevivesExactly | plugins/host-callback-bridge/core/registry.js:140-198 | a session that is not live becomes so by a step if and only if it is its own registration, with an alias or without a slot |
| HostRegistryLaws.ForeignHasNoGeneration | plugins/host-callback-bridge/core/registry.js:149-170 | under an inherited name without a ledger entry every registration reports an epoch that is no number, and none is recorded |
| HostRegistryLaws.InheritedAliasRepeats | plugins/host-callback-bridge/core/registry.js:149-170 | a concrete run in which two sessions are issued the same generation of one alias, whose name is inherited |
| HostRegistryLaws.InheritedSessionLosesAlias | plugins/host-callback-bridge/core/registry.js:144-184 | a concrete registration of a session with an inherited name that ends carrying an alias it does not hold |
| HostRegistryLaws.UndefinedPushesItself | plugins/host-callback-bridge/core/registry.js:149-162 | a concrete registration that reports the session as superseded by itself and leaves it live |
| HostRegistrySlots.RegisterMakesLive | plugins/host-callback-bridge/core/registry.js:176-188 | after a registration the session is live if and only if it was not superseded, or was given an alias that is then its own; it carries exactly that alias |
| HostRegistrySlots.RegisterTouchesOthers | plugins/host-callback-bridge/core/registry.js:151-165 | a registration marks the slot it takes the alias over from, drops the alias's superseded slots on a takeover, and leaves every other slot as it is |
| HostRegistrySlots.RegisterOpensGeneration | plugins/host-callback-bridge/core/registry.js:146-197 | which generation a registration reports and stores: the ledger's if the session holds the alias, else the next, superseding whoever holds it; and its signature |
| HostRegistrySlots.RegisterNotesItself | plugins/host-callback-bridge/core/registry.js:149-175 | under an inherited name without an entry a registration takes over from whoever was noted there last, at first from `undefined`, and notes itself |
| HostRegistrySlots.RegisterKeepsGenerations | plugins/host-callback-bridge/core/registry.js:149-180 | the generations of all other aliases stay |
| HostRegistrySlots.PruneExactly | plugins/host-callback-bridge/core/registry.js:224-244 | a prune removes a slot if and only if it is superseded with a dated mark older than the retention, and changes nothing else |
| HostRegistrySlots.BareRegistrationStaysDown | plugins/host-callback-bridge/core/registry.js:182-188 | a concrete superseded session that registers without an alias and stays superseded |
| HostRegistryStore.WriteThenRead | plugins/host-callback-bridge/core/registry.js:107-132 | round trip: whatever normal tables are written, every reading yields exactly them |
| HostRegistryStore.ReadIsNormal | plugins/host-callback-bridge/core/registry.js:29-126 | whatever the file holds, the tables read from it survive a write and a read |
| HostRegistryStore.SlotsReadExactly | plugins/host-callback-bridge/core/registry.js:29-58 | what each entry of the file is read as: empty names and malformed marks dropped, a missing generation zero |
| HostRegistryStore.LedgerReadExactly | plugins/host-callback-bridge/core/registry.js:60-118 | what the file's ledger is read as: stored entries kept, and exactly which entries are derived, with which holder and generation |
| HostRegistryStore.NextIsNormal | plugins/host-callback-bridge/core/registry.js:140-244 | every operation with a non-empty session id keeps the tables normal |
| HostRegistryStore.MigratedGoodExactly | plugins/host-callback-bridge/core/registry.js:75-87 | a file from before the ledger reads as a good registry exactly when no alias of a plain name has two live slots and every bearer of one is of generation 0 |
| HostRegistryStore.DeriveAliases | plugins/host-callback-bridge/core/registry.js:75-87 | the loop gives every carried alias generation 0, held by its one bearer or by nobody |
| HostRegistryStore.AlignAliases | plugins/host-callback-bridge/core/registry.js:90-105 | the loop keeps every stored entry and adds one with the highest bearer epoch for each carried alias a lookup misses |
| HostRegistryStore.ByAlias | plugins/host-callback-bridge/core/registry.js:75-105 | the bucketing loop lists exactly the live bearers of every alias |
| HostRegistryStore.TopEpoch | plugins/host-callback-bridge/core/registry.js:90-105 | the loop finds the highest epoch among the bearers |
| HostRegistryStore.Enter | plugins/host-callback-bridge/core/registry.js:140-187 | the branches of a registration, in place on the tables read, give the specified tables and receipt |
| HostRegistryStore.DropOutdated | plugins/host-callback-bridge/core/registry.js:163-165 | the takeover's loop drops exactly the alias's older stale slots |
| HostRegistryStore.PushOut | plugins/host-callback-bridge/core/registry.js:155-165 | marking the pushed out slot and dropping older generations gives the specified consumers |
| HostRegistryStore.RegistryFile.Read | plugins/host-callback-bridge/core/registry.js:107-126 | reads the file through the normalisers; a file this class wrote reads back as written |
| HostRegistryStore.RegistryFile.Register | plugins/host-callback-bridge/core/registry.js:140-198 | the tables written and the receipt are those of the registration specified on the tables read, for any session id; the tables of a non-empty one read back as written |
| HostRegistryStore.RegistryFile.Unregister | plugins/host-callback-bridge/core/registry.js:201-217 | the same for a clean retirement; an unknown session leaves the file alone |
| HostRegistryStore.RegistryFile.Prune | plugins/host-callback-bridge/core/registry.js:224-244 | the loop removes exactly the stale slots past retention, never a ledger entry, and writes only if it removed any |
| HostAddressing.AliasIndex | plugins/host-callback-bridge/core/addressing.js:38-47 | the index loop lists exactly the live carriers of every alias |
| HostAddressing.Resolve | plugins/host-callback-bridge/core/addressing.js:88-120 | the decision over the filled index is the specified routing |
| HostAddressing.OnlyLiveSlotsWake | plugins/host-callback-bridge/core/addressing.js:88-120 | no routing wakes nobody, and it wakes only live slots if and only if the address's name does not find an inherited member |
| HostAddressing.InheritedNameWakes | plugins/host-callback-bridge/core/addressing.js:106-110 | a concrete line, to an inherited name over the empty registry, that wakes a session without a slot |
| HostAddressing.BroadcastReachesAllLive | plugins/host-callback-bridge/core/addressing.js:89-93 | a broadcast wakes exactly the live slots and is skipped exactly when there is none |
| HostAddressing.SupersededNamesSuccessor | plugins/host-callback-bridge/core/addressing.js:57-70 | right after a takeover the dead letter of the old session names its successor's signature, if and only if the takeover left its slot; it names the new generation exactly unless the ledger has another one for the alias the old slot carried last |
| HostAddressing.AddressRoundTrip | plugins/host-callback-bridge/core/addressing.js:25-31 | `alias@session` parses back to its parts exactly when the session id holds no `@` |
| HostAddressing.SignatureRoutesBack | plugins/host-callback-bridge/core/registry.js:188-197 | the signature returned for a given alias routes to exactly that session if and only if its id holds no `@` |
| HostAddressing.BareAliasFindsHolder | plugins/host-callback-bridge/core/addressing.js:106-119 | in every registry reachable from a good one without losing an alias, a bare name without a slot wakes the ledger's holder if that session's live slot carries it and is a ghost otherwise, never ambiguous, if and only if the name is not inherited |
| HostAddressing.WokenExactly | plugins/host-callback-bridge/core/addressing.js:88-120 | some address wakes a session if and only if it has a live slot, or no slot and an inherited name; then its bare id does |
| HostAddressing.DownStaysDeadExactly | plugins/host-callback-bridge/core/addressing.js:88-120 | over all runs that do not revive a session that is not live, no address wakes it, if and only if its name is not inherited |
| HostAddressing.SupersededStaysDeadExactly | plugins/host-callback-bridge/core/addressing.js:57-119 | after a takeover, in no run that does not revive the old session any address wakes it, if and only if its name is not inherited and it was not taken for its own predecessor |
| HostAddressing.SupersededStaysDead | plugins/host-callback-bridge/core/addressing.js:57-104 | at each moment of such a run, an address wakes the old session at most when its name is inherited and its slot is gone; its own `alias@session` addresses are dead if and only if what follows the last `@` of its id is not routable |
| HostAddressing.OwnAddress | plugins/host-callback-bridge/core/addressing.js:25-31 | an address written for a session names what follows the last `@` of its id, and is dead if and only if that is not routable |
| HostAddressing.SuccessorAnswersForTail | plugins/host-callback-bridge/core/addressing.js:25-31 | a concrete takeover in which the address of the old session, with an `@` in its id, wakes the successor |
| HostAddressing.SupersededMemberWakes | plugins/host-callback-bridge/core/addressing.js:97-104 | a concrete session of an inherited name that is superseded, retired, and then woken by its bare id |
| HostRoutes.ParsedExactly | plugins/host-callback-bridge/core/addressing.js:25-31 | every address text read back from what it was parsed to |
| HostRoutes.BareExactly | plugins/host-callback-bridge/core/addressing.js:106-119 | a bare name without a slot leads to the one live slot carrying it, is ambiguous if and only if two carry it, with their number, and a ghost if none does |
| HostRoutes.GhostExactly | plugins/host-callback-bridge/core/addressing.js:97-105 | an address of a session without a slot is a ghost hinting exactly at the live carriers of its alias |
| HostRoutes.FoundExactly | plugins/host-callback-bridge/core/addressing.js:97-111 | a found session is woken by both its addresses if it is routable, and stale by both if not |
| HostRoutes.StaleExactly | plugins/host-callback-bridge/core/addressing.js:57-70 | what the dead letter of a superseded slot says about its successor and generation |
| Text.LinesStableUnderAppend | plugins/host-callback-bridge/file-router.js:34-40 | the complete lines of a text are a prefix of those of any longer text, so a consumed index never changes meaning |
| Text.CompleteLinesRoundTrip | plugins/host-callback-bridge/file-router.js:34-40 | joining the complete lines gives back the text up to its last line break; there are none exactly when that break is at most the first character |
| Text.DecimalReadsBack | host/packages/dsh-long-task-round-driver/lib/index.js:131-166 | the rendering of a count inside a message reads back as that count |
| DedupWindow.MapHoldsUnforgotten | plugins/_narrow-waist/dedup.js:60-76 | the pruned map holds exactly the newest mark of every key that no prune saw expired |
| DedupWindow.AnswersAsHistoryExactly | plugins/_narrow-waist/dedup.js:60-84 | for any clock, a lookup answers as the unpruned history unless the clock ran back into a window an earlier prune saw closed |
| DedupWindow.MonotoneAnswersAsHistory | plugins/host-callback-bridge/core/dedup.js:51-75 | for a clock that never runs back, every interleaving of mark, prune and lookup answers as the full history |
| DedupWindow.BackwardClockForgets | plugins/_narrow-waist/dedup.js:60-84 | a concrete run with a backward clock in which the map forgets what the history remembers |
| DedupWindow.MarkIsSeen | plugins/host-callback-bridge/core/dedup.js:51-75 | a mark is answered for as long as its window lasts, whatever is marked or pruned after it |
| DedupWindow.HitWasMarked | plugins/host-callback-bridge/core/dedup.js:51-75 | whatever the clock did, a hit answers a mark of that key less than a window old |
| DedupWindow.Window.Seen | plugins/host-callback-bridge/core/dedup.js:60-65 | a lookup never marks, and on a monotone history answers as the newest mark would |
| DedupWindow.Window.MarkKey | plugins/host-callback-bridge/core/dedup.js:66-69 | a mark extends the history by one, with the map pruned at its own clock reading |
| DedupWindow.Window.Prune | plugins/host-callback-bridge/core/dedup.js:53-58 | a prune extends the history by one sweep |
| DedupWindow.Window.DropExpired | plugins/host-callback-bridge/core/dedup.js:53-58 | the pruning loop removes exactly the entries older than the horizon |
| DedupKeys.SharedKeyExactly | plugins/host-callback-bridge/core/dedup.js:28-44 | two lines share a host key exactly when they are one line without sender, or a part (body or message id) of the one with its sender is the same text pair as one of the other, or continues it across a NUL |
| DedupKeys.PairedMeets | plugins/host-callback-bridge/core/dedup.js:41-43 | sender and part spell the same material exactly when they are equal, or one sender is the other, a NUL, and the start of the other's part |
| DedupKeys.PlainSharedKey | plugins/host-callback-bridge/core/dedup.js:28-44 | for senders without NUL that is a resend of message id or body by one sender, or one's message id spelling the other's body |
| DedupKeys.SendersConfused | plugins/host-callback-bridge/core/dedup.js:41-43 | two concrete senders and bodies with one and the same key in both libraries |
| DedupKeys.ResendCaught | plugins/host-callback-bridge/core/dedup.js:28-75 | after a double mark any resend by the same sender, of the message id or the body, is caught while the window lasts |
| DedupKeys.WaistSharedKeyExactly | plugins/_narrow-waist/dedup.js:27-51 | in the shared library a digest is shared exactly by one line without sender or by confused senders and bodies, a message-id key exactly by confused senders and ids, and the two kinds never meet |
| DedupKeys.PlainWaistSharedKey | plugins/_narrow-waist/dedup.js:27-51 | for senders without NUL a digest is shared only by one sender's body and a message-id key only by one sender's id |
| DedupKeys.HashedInjective | plugins/_narrow-waist/dedup.js:27-36 | the text standing for a hash differs for different materials and holds no separator |
| DedupKeys.WaistResendCaught | plugins/_narrow-waist/dedup.js:89-105 | the same resend guarantee for the shared library's double lookup and double mark |
| DedupKeys.HostHitExactly | plugins/host-callback-bridge/core/dedup.js:51-75 | a line is found again only if one of its keys was marked within the window, by the reading taken for it; on a clock that does not run back, if and only if |
| DedupKeys.WaistHitExactly | plugins/_narrow-waist/dedup.js:89-105 | the same for the shared library's message-id key and digest |
| DedupKeys.EmptyIdIsNone | plugins/host-callback-bridge/core/dedup.js:38-44 | an empty message id is none, in both libraries |
| DedupKeys.SeenAny | plugins/_narrow-waist/dedup.js:89-95 | looks under the message id first, then the digest; a hit if and only if either hits |
| DedupKeys.MarkAll | plugins/_narrow-waist/dedup.js:102-105 | marks the message id when there is one, then the digest, with one meta |
| FileRouterPasses.PassTells | plugins/host-callback-bridge/file-router.js:298-465 | a delivery pass treats every target left by one rule (buried if unrouted and natively taken, left to the native lane, woken) and touches no other target and no other line |
| FileRouterPasses.PassLeaves | plugins/host-callback-bridge/file-router.js:407-465 | a pass leaves exactly the targets it did not end, all with the same number of refusals |
| FileRouterPasses.SettlesWithin | plugins/host-callback-bridge/file-router.js:417-452 | a line still pending after some passes was woken in fewer than `maxWakeFailures` of them, and all others but one only waited in the native lane's window |
| FileRouterSafety.Reachable | plugins/host-callback-bridge/file-router.js:467-576 | the laws of every life hold over any appends, work, outside marks and crashes between any two effects |
| FileRouterSafety.StoriesLegal | plugins/host-callback-bridge/file-router.js:431-453 | at every moment a target's story is refusals and then at most one end; a burial for failing comes after exactly the allowed number of refusals, an unrouted or yielded end only where the native cursor had passed |
| FileRouterSafety.CutFollows | plugins/host-callback-bridge/file-router.js:483-485 | wherever work is cut off, the next life begins right behind the last retired line, or on it |
| FileRouterGuarantees.Conservation | plugins/host-callback-bridge/file-router.js:494-576 | cursor progress equals echoed + blank + malformed + unroutable + skipped + duplicate + settled lines; in every life the lines left in inbox order and are still the inbox lines of those numbers |
| FileRouterGuarantees.SinkCallsBounded | plugins/host-callback-bridge/file-router.js:431-453 | between crashes each target of each line is woken successfully at most once and woken at most `maxWakeFailures` times |
| FileRouterGuarantees.RetirementAccounted | plugins/host-callback-bridge/file-router.js:407-576 | a line leaves only by the fate its content and the registry read for it give; a settled one was opened for exactly the targets of that routing, each with exactly one end borne out by the registry or native-cursor answer it was read from; a duplicate shares a key with an earlier settled line or with the other intake |
| FileRouterGuarantees.NoLineLost | plugins/host-callback-bridge/file-router.js:467-576 | every line from the first start up to the cursor left in some life and is accounted for there, whatever crashes came between |
| FileRouterGuarantees.RestartRepeatsOneLine | plugins/host-callback-bridge/file-router.js:151-155 | a restart repeats at most the one line at the persisted cursor: earlier lives did nothing beyond it, later lives do nothing before it |
| FileRouterGuarantees.ResendNotReopened | plugins/host-callback-bridge/file-router.js:552-559 | in every run, once a line settled and while that life's clock does not run back, a line of the same sender repeating its message id or body is stepped over without being opened while the window lasts, whatever was taken, passed or marked by either intake in between |
| FileRouterGuarantees.WindowFollowsCalls | plugins/host-callback-bridge/file-router.js:454-461 | in every run the router's window is exactly what the marks of its current life, its own and the other intake's, have made of it |
| FileRouterIntake.InboxIsAppended | plugins/host-callback-bridge/file-router.js:488-493 | the inbox is what was there at the start and all that was appended since, and each crash ends one life |
| FileRouterIntake.StartsAtCursor | plugins/host-callback-bridge/file-router.js:467-493 | a start takes its cursor from the file, or stands behind the last complete line if the file points beyond it |
| FileRouterIntake.DuplicateWasMarked | plugins/host-callback-bridge/file-router.js:552-559 | in every run, a line dropped as a duplicate has a mark of one of its keys in that life less than a window before the clock read for that key |
| FileRouterIntake.OpenedExactly | plugins/host-callback-bridge/file-router.js:552-569 | on a clock that does not run back, a line that resolves to sessions to wake is opened for them, untried, if and only if there is no such mark, and dropped otherwise |
| FileRouterIntake.ParallelExactly | plugins/host-callback-bridge/file-router.js:526-537 | a dead letter counts as noise if and only if it is a ghost or superseded address of a session whose native cursor passed the line |
| FileRouterIntake.PassExactly | plugins/host-callback-bridge/file-router.js:298-465 | what a pass does to each target by the answers it gets: bury, leave inside the native lane's window, yield to that lane, open the window, wake, refuse or give up at the last refusal allowed |
| FileRouterIntake.PassOutcome | plugins/host-callback-bridge/file-router.js:407-465 | who is left after a pass, when it opens the window and for how long, and that it settles if and only if it woke and nobody is left |
| FileRouterCounters.CountersConserve | plugins/host-callback-bridge/file-router.js:120-139 | each counter is the number of lines of its fate, the dead count also the single-target burials, and together they are the lines that left |
| FileRouter.FileRouter.DeadLetterUnroutedTargets | plugins/host-callback-bridge/file-router.js:298-319 | the loop buries exactly the targets without a live slot whose native cursor passed the line, and nobody if the registry is unreadable |
| FileRouter.FileRouter.AdaptiveYield | plugins/host-callback-bridge/file-router.js:329-340 | the loop drops exactly the targets the native lane already took and tells whether one left still has such a lane |
| FileRouter.FileRouter.WakeTargets | plugins/host-callback-bridge/file-router.js:431-453 | the loop wakes each target left, counts its refusals and buries it at the limit, as the pass specifies |
| FileRouter.FileRouter.DropTarget | plugins/host-callback-bridge/file-router.js:309-315 | one target leaves the table, with its end recorded |
| FileRouter.FileRouter.YieldAt | plugins/host-callback-bridge/file-router.js:331-337 | one target is left to its native lane, or kept with its lane noted |
| FileRouter.FileRouter.WakeAt | plugins/host-callback-bridge/file-router.js:431-452 | one target is delivered, or refused once more and buried at the limit |
| FileRouter.FileRouter.WakeAndSettle | plugins/host-callback-bridge/file-router.js:431-464 | after the wake-ups the line settles exactly if nobody is left |
| FileRouter.FileRouter.PrepareTargets | plugins/host-callback-bridge/file-router.js:413-430 | burial, window and yield in their order: whether the pass goes on to wake, and who is left |
| FileRouter.FileRouter.Settle | plugins/host-callback-bridge/file-router.js:454-461 | a settled line leaves both its keys marked, with the message id, and one delivery counted |
| FileRouter.FileRouter.DeliverPending | plugins/host-callback-bridge/file-router.js:407-465 | one pass has exactly the specified effects; it reports done, with keys marked and the delivery counted, exactly when no target is left after waking |
| FileRouter.FileRouter.PursuePending | plugins/host-callback-bridge/file-router.js:480-486 | a pass, and once it settled the step over the line with the cursor saved, is the specified step |
| FileRouter.FileRouter.Consider | plugins/host-callback-bridge/file-router.js:497-559 | the intake branches in their order give the specified verdict |
| FileRouter.FileRouter.StepOver | plugins/host-callback-bridge/file-router.js:499-501 | the cursor moves by one and is saved, after the line was counted |
| FileRouter.FileRouter.TakeLine | plugins/host-callback-bridge/file-router.js:494-569 | the intake branches in their order, each with its counter, are the specified step |
| FileRouter.FileRouter.DropLine | plugins/host-callback-bridge/file-router.js:497-559 | a line judged gone is counted by its fate and stepped over |
| FileRouter.FileRouter.OpenLine | plugins/host-callback-bridge/file-router.js:561-569 | a line judged deliverable becomes pending for exactly the routed targets, none tried yet |
| FileRouter.FileRouter.Flush | plugins/host-callback-bridge/file-router.js:467-605 | a flush, over any number of rounds, is a run of the model's steps on the object, its cursor file and its counters; it stops only at the end of the complete lines or after a pass that left the line pending |
| FileRouter.FileRouter.CountersTellProgress | plugins/host-callback-bridge/file-router.js:120-139 | after any run the counters account for the cursor's whole progress since the start |
| FileRouter.FileRouter.AppendLines | plugins/host-callback-bridge/file-router.js:488-493 | appended text leaves every complete line its number |
| FileRouter.FileRouter.MarkFromOutside | plugins/host-callback-bridge/core/dedup.js:66-69 | a mark by the other intake is the specified step on the shared window |
| PumpRouting.OwnViewIsCentral | plugins/_narrow-waist/addressing.js:47-114 | a registered consumer's own routing is the central routing cut down to itself; on deaths all views agree, reason included |
| PumpRouting.Undertaker | plugins/callback-bridge/sources/file-inbox.js:233-245 | the scan finds the consumer armed earliest, ties by id, whatever order the keys come in |
| PumpRouting.OneUndertaker | plugins/callback-bridge/sources/file-inbox.js:233-245 | a registry has only one undertaker |
| PumpRouting.UndertakerExactly | plugins/callback-bridge/sources/file-inbox.js:233-245 | the undertaker is the consumer armed first, a missing time counting as empty, and of those armed together the one of the smallest id |
| PumpRouting.LessExactly | plugins/callback-bridge/sources/file-inbox.js:233-245 | the order of texts decides at the first place where they differ |
| PumpRouting.FleetIsCentral | plugins/callback-bridge/sources/file-inbox.js:297-352 | line by line before deduplication, the consumers that offer a line are exactly the registered sessions the central view wakes, which are all of them if and only if the address does not find an inherited member; an unaddressable or malformed line is buried by exactly one consumer, no other line by any |
| PumpRouting.CentralWakesConsumers | plugins/_narrow-waist/addressing.js:84-114 | the central view wakes only registered consumers exactly unless the address finds an inherited member |
| PumpRouting.InheritedNameIsLost | plugins/_narrow-waist/addressing.js:57-59 | a line to an inherited name is centrally woken, but offered by no consumer and buried by none |
| HostRoutes.CentralBareExactly | plugins/_narrow-waist/addressing.js:106-113 | the older bridge's central view of a bare name that is not found: its one carrier, ambiguous, or unknown |
| HostRoutes.CentralExactly | plugins/_narrow-waist/addressing.js:84-105 | and of every other address |
| PumpLoopModel.FlushNotes | plugins/callback-bridge/sources/file-inbox.js:297-386 | a flush notes each line it passes exactly once, and of the line it stops at only the refusal |
| PumpLoopModel.HoldsUpBriefly | plugins/callback-bridge/sources/file-inbox.js:365-378 | a line holds a consumer up for fewer than `maxWakeFailures` flushes |
| PumpLoopModel.WokenThenRepeated | plugins/callback-bridge/sources/file-inbox.js:354-361 | a woken line is marked: another offer of the same content within the window is taken for a repeat |
| PumpRetries.CallExactly | plugins/callback-bridge/sources/file-inbox.js:297-352 | what one consumer decides about every kind of line, by the central view of its address |
| PumpRetries.OfferExactly | plugins/callback-bridge/sources/file-inbox.js:354-386 | on a clock that does not run back an offered line is a repeat if and only if its digest was marked less than a window ago, and is otherwise woken and marked if the sink takes it |
| PumpRetries.RefusalExactly | plugins/callback-bridge/sources/file-inbox.js:365-378 | a refused line is given up if and only if this is its `maxWakeFailures`-th refusal in a row, and otherwise stays with one failure more |
| PumpRetries.HoldsUpExactly | plugins/callback-bridge/sources/file-inbox.js:365-378 | a line whose tries are all refused stops each of its flushes if and only if they are fewer than `maxWakeFailures` |
| PumpLoopModel.FleetFlush | plugins/callback-bridge/sources/file-inbox.js:281-386 | over whole flushes of all consumers, a line all have passed was offered by exactly the centrally woken registered sessions, each once, and buried exactly once if unaddressable |
| PumpLoop.FileInbox.Decide | plugins/callback-bridge/sources/file-inbox.js:297-352 | the loop's branches and the undertaker scan give the specified call |
| PumpLoop.FileInbox.Handle | plugins/callback-bridge/sources/file-inbox.js:297-386 | one line of the loop: state and notes are those of the specified step |
| PumpLoop.FileInbox.Tender | plugins/callback-bridge/sources/file-inbox.js:354-385 | an offered line is dropped as a repeat, woken and marked, or refused, as the specified turn |
| PumpLoop.FileInbox.CountRefusal | plugins/callback-bridge/sources/file-inbox.js:365-378 | a refusal is counted on its digest and gives the line up at the limit |
| PumpLoop.FileInbox.Flush | plugins/callback-bridge/sources/file-inbox.js:281-398 | the loop over the complete lines is the specified run, after clamping the cursor |

## Left out

- JSON shape: payloads are typed, with one `Malformed` case; exact key sets, version fields and error wording are not modelled.
- LongTaskService.LongTaskService.Load: one service object serves one session, where the code keeps a weak map of caches by session.
- LongTaskService.LongTaskService.HandoffTo: listeners of the change notification are assumed not to mutate the log before the trace is appended.
- RoundDriver.Driver.Iterate: a started run is taken up only after the trigger has stored it, as the code relies on.
- RoundDriver.Driver.PreStepOpen: the messages given back to the inbox are modelled apart, by `RoundDriverInbox.Inbox.RestoreOtherClaimed`, and not as a step of the driver.
- RoundDriver.Driver.PreStepClose: the same; prompts are not rendered either.
- RoundDriverSafety.OneRunPerAgent: the claim is per driver state; the code drops its state when an agent is disposed and may make a new one while an old run still awaits its flush.
- RoundDriver.Driver.OnUnload: waiting for a running agent and for outstanding runs is not modelled; a disposed agent does not become live again.
- FileRouter.FileRouter.Flush: inbox rotation is not modelled, since lines appended between the read and the rename fall outside what the code guarantees; reads of the inbox and cursor writes succeed (the code takes an unreadable inbox for an empty one and writes cursor 0, so one failed read repeats every line, which the conservation and restart laws do not cover: `plugins/host-callback-bridge/file-router.js:488-493`); timers and prompt wake-up are not modelled, only what a flush does once it starts.
- FileRouter.FileRouter.constructor: the cursor of the first takeover, the largest of older consumers, is a parameter, and so is the inbox as the first flush reads it.
- FileRouter.FileRouter.DeliverPending: the counters for woken targets, senders, broadcasts, and noise against true ghosts among failed wake-ups are not modelled, nor the text of dead letters.
- FileRouterGuarantees.SinkCallsBounded: the bound holds per process life; a crash forgets attempts, as in the code.
- HostRegistryStore.RegistryFile.Register: each registry operation is one step; failing writes and races between processes are not modelled.
- HostRegistryLaws.ForeignHasNoGeneration: of what registrations leave on inherited members only the session noted there is modelled, not other marks on them, nor assignments under `__proto__`.
- PumpLoop.FileInbox.Flush: rotation among several consumers, the registration each flush begins with and the saved state sections are not modelled; the registry is the one just written.
- PumpRouting.Undertaker: texts are compared character by character; for characters outside the basic plane the code compares UTF-16 units instead.
- DedupKeys.Message: a body is always a text; a body that cannot be turned into one, such as an object whose `toString` is no function, makes the code throw at that line in every flush (`plugins/host-callback-bridge/core/dedup.js:35-37`).
- Hashing: host keys are the hashed material itself, and in the shared library a text stands for the hash; distinct materials are taken to have distinct hashes.
- The sending side's joint resolution over fleets, intake servers, sinks, process and service plumbing, browser code, projectors and scripts.
