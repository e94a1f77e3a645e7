/**
 * The round driver as a transition system. One step is one uninterrupted piece of a handler: the
 * driver awaits a session flush, and the pre-step fence awaits the remaining pre-step chain, so the
 * environment (task mutations by anyone, foreign appends, inbox and status events, session starts)
 * may move between the pieces.
 */
module RoundDriverModel {
  import opened Wrappers
  import opened LongTaskTypes
  import opened LongTaskFold
  import opened LongTaskRequests
  import Tasks = LongTaskServiceModel
  import Text

  datatype AttemptPhase = Queued | Claimed | Admitted

  /** The driver's reservation of one round. */
  datatype Attempt = Attempt(
    taskId: TaskId, revision: int, round: int, messageId: nat, content: Content,
    phase: AttemptPhase, cancelled: bool, stale: bool)

  /** Where one asynchronous driver run stands; `began` is how much of the log its flush covers. */
  datatype DriverRun = Looping | AwaitingFlush(began: nat) | Finished

  datatype World = World(
    service: Tasks.Service,
    defaultMaxRounds: int,
    durable: nat,
    live: bool,
    mounted: bool,
    idle: bool,
    attempt: Option<Attempt>,
    competingQueued: bool,
    needsCheckpoint: bool,
    requested: bool,
    runStored: bool,
    stopping: bool,
    runs: seq<DriverRun>)

  /** Oracle values a piece of a handler may read: clocks, and whether a driver run can be started. */
  datatype Env = Env(now: int, at: int, starts: bool)

  // ------------------------------------------------------------ comparators

  predicate IsRoundSource(source: Source) {
    source.RoundSource? && source.round > 0
  }

  predicate SameRound(source: Source, a: Attempt)
    requires source.RoundSource?
  {
    source.taskId == a.taskId && source.revision == a.revision && source.round == a.round
  }

  predicate SameQueued(content: Content, source: Source, a: Attempt) {
    IsRoundSource(source) && SameRound(source, a) && content == a.content
  }

  // ---------------------------------------------------------------- queries

  /** `undefined` for an agent that is not live; a rejected log makes the read throw. */
  function CurrentTask(w: World): Result<Option<Tasks.TaskView>, ServiceError> {
    if !w.live then Ok(None) else Tasks.Get(w.service, true)
  }

  predicate ReadyToDrive(w: World) {
    w.mounted && !w.stopping && w.live && w.idle && !w.competingQueued
  }

  predicate ReadyAfterCheckpoint(w: World) {
    ReadyToDrive(w) && !w.needsCheckpoint
  }

  predicate ActiveArmed(view: Option<Tasks.TaskView>) {
    view.Some? && view.value.task.phase.Active? && view.value.armed
  }

  /** Whether the submitted message still owns the exact live revision. */
  function ValidReservation(w: World, content: Content, source: Source): Result<bool, ServiceError>
    requires IsRoundSource(source)
  {
    match CurrentTask(w)
    case Err(error) => Err(error)
    case Ok(view) =>
      Ok(&& w.mounted && !w.stopping
         && w.attempt.Some? && w.attempt.value.phase.Claimed? && !w.attempt.value.stale
         && SameQueued(content, source, w.attempt.value)
         && ActiveArmed(view)
         && view.value.task.id == source.taskId && view.value.task.revision == source.revision
         && source.round == view.value.roundsStarted + 1)
  }

  // -------------------------------------------------------- building blocks

  /** The service with automatic authority removed; a read that throws leaves it alone. */
  function Disarmed(service: Tasks.Service, live: bool): Tasks.Service {
    if !live then service
    else
      var view := Tasks.Get(service, true);
      if view.Ok? && view.value.Some? && view.value.value.armed then Tasks.Disarm(service, live) else service
  }

  function Disarm(w: World): World {
    w.(service := Disarmed(w.service, w.live))
  }

  /** Coalesce triggers onto one run; a run that cannot be started disarms. */
  function RequestDrive(w: World, starts: bool): World {
    var startable := !w.stopping && !w.runStored;
    w.(requested := w.requested || !w.stopping,
       service := if startable && !starts then Disarmed(w.service, w.live) else w.service,
       runStored := w.runStored || (startable && starts),
       runs := if startable && starts then w.runs + [Looping] else w.runs)
  }

  /** The `long-task/changed` handler. */
  function OnChanged(w: World, starts: bool): World {
    RequestDrive(w.(needsCheckpoint := true), starts)
  }

  /** A mutation by any party, with the change notification delivered in the same piece. */
  function Submit(w: World, q: Request, env: Env): (World, bool) {
    var reply := Tasks.Submit(w.service, w.live, q, env.now, env.at, w.defaultMaxRounds);
    var w' := w.(service := reply.service);
    (if reply.announced then OnChanged(w', env.starts) else w', reply.result.Ok?)
  }

  function RoundLimit(maxRounds: int): BlockReason {
    BlockReason("round-limit",
                "Long task reached its configured limit of " + Text.Decimal(if maxRounds < 0 then 0 else maxRounds) + " rounds.")
  }

  function QueueFailed(round: int, thrown: string): BlockReason {
    BlockReason("queue-failed",
                "Could not queue long-task round " + Text.Decimal(if round < 0 then 0 else round) + ": " + thrown)
  }

  function PromptRejected(): BlockReason {
    BlockReason("prompt-rejected", "Long-task round was " + "rejected before entering its step" + ".")
  }

  // --------------------------------------------------------- the driver run

  /** How queueing the round message went: accepted, or thrown with a rendering. */
  datatype Followup = Queueing(messageId: nat, content: Content, thrown: Option<string>)

  function ReservationFor(view: Tasks.TaskView, f: Followup): Attempt {
    Attempt(view.task.id, view.task.revision, view.roundsStarted + 1, f.messageId, f.content, Queued, false, false)
  }

  /** Block an exhausted or unqueueable task; a block that throws disarms. */
  function BlockOrDisarm(w: World, ref: Ref, reason: BlockReason, env: Env): World {
    var (w', ok) := Submit(w, BlockTask(ref, reason), env);
    if ok then w' else Disarm(w')
  }

  /** Reserve and queue the next round of an active armed task, unless its budget is spent or queueing throws. */
  function QueueNext(w: World, view: Tasks.TaskView, f: Followup, env: Env): World {
    if view.roundsStarted >= view.task.maxRounds
    then BlockOrDisarm(w, TaskRef(view.task), RoundLimit(view.task.maxRounds), env)
    else if f.thrown.None? then w.(attempt := Some(ReservationFor(view, f)))
    else BlockOrDisarm(w, TaskRef(view.task), QueueFailed(view.roundsStarted + 1, f.thrown.value), env)
  }

  /** `drive` after its checkpoint: process admitted work, else reserve at most one next round. */
  function DriveTail(w: World, f: Followup, env: Env): World {
    if w.attempt.Some? then w.(attempt := None, needsCheckpoint := true, requested := true)
    else
      var task := CurrentTask(w);
      if task.Err? then Disarm(w)
      else if ActiveArmed(task.value) then QueueNext(w, task.value.value, f, env)
      else w
  }

  function SetRun(w: World, i: nat, r: DriverRun): World
    requires i < |w.runs|
  {
    w.(runs := w.runs[i := r])
  }

  /** One turn of the run's loop, up to the awaited flush if a checkpoint is due. */
  function Iterate(w: World, i: nat, f: Followup, env: Env): World
    requires i < |w.runs|
  {
    if !w.requested || w.stopping then SetRun(w, i, Finished)
    else
      var w' := w.(requested := false);
      if !ReadyToDrive(w') then w'
      else if w'.needsCheckpoint then SetRun(w'.(needsCheckpoint := false), i, AwaitingFlush(|w.service.log|))
      else DriveTail(w', f, env)
  }

  /** A flush that began at `began` succeeded: the drive goes on if it still may. */
  function AfterFlush(w: World, began: nat, f: Followup, env: Env): World {
    var w' := w.(durable := if began > w.durable then began else w.durable);
    if !ReadyAfterCheckpoint(w') then w' else DriveTail(w', f, env)
  }

  /** The awaited flush settles. */
  function FlushSettled(w: World, i: nat, ok: bool, f: Followup, env: Env): World
    requires i < |w.runs| && w.runs[i].AwaitingFlush?
  {
    var w' := SetRun(w, i, Looping);
    if !ok then Disarm(w') else AfterFlush(w', w.runs[i].began, f, env)
  }

  /** The run's promise settles: forget it, and start another if triggers arrived meanwhile. */
  function Retire(w: World, i: nat, env: Env): World
    requires i < |w.runs|
  {
    var w' := w.(runs := w.runs[..i] + w.runs[i + 1..], runStored := false);
    if w'.requested && !w'.stopping then RequestDrive(w', env.starts) else w'
  }

  // --------------------------------------------------------------- the fence

  datatype Verdict = Passed | Rejected | Entered | Rethrown

  /** How the remaining pre-step chain ended. */
  datatype Decision = Threw | Enter | Reject

  /** A refused round releases its own reservation; a failed read also disarms. */
  function Refused(w: World, source: Source, failed: bool): World
    requires source.RoundSource?
  {
    var owned := w.attempt.Some? && SameRound(source, w.attempt.value);
    w.(attempt := if owned then None else w.attempt,
       service := if failed then Disarmed(w.service, w.live) else w.service)
  }

  /** First half of the fence, before the remaining pre-step chain runs. */
  function FenceOpen(w: World, content: Content, source: Source, env: Env): (World, Verdict)
    requires IsRoundSource(source)
  {
    var valid := ValidReservation(w, content, source);
    if valid == Ok(true) then (w, Passed)
    else (RequestDrive(Refused(w, source, valid.Err?), env.starts), Rejected)
  }

  /** Block the task a rejected round was meant for, unless it has moved on. */
  function BlockUnmoved(w: World, view: Option<Tasks.TaskView>, source: Source, env: Env): (World, Verdict)
    requires IsRoundSource(source)
  {
    if ActiveArmed(view) && TaskRef(view.value.task) == Ref(source.taskId, source.revision)
    then
      var (w', ok) := Submit(w, BlockTask(TaskRef(view.value.task), PromptRejected()), env);
      (w', if ok then Rejected else Rethrown)
    else (w, Rejected)
  }

  /** The chain rejected the round: release the reservation and block an unmoved armed task. */
  function FenceRejected(w: World, source: Source, env: Env): (World, Verdict)
    requires IsRoundSource(source)
  {
    var w' := w.(attempt := None);
    var task := CurrentTask(w');
    if task.Err? then (w', Rethrown) else BlockUnmoved(w', task.value, source, env)
  }

  /** A round that lost its reservation while the chain ran. */
  function Released(w: World, failed: bool): World {
    w.(attempt := None, service := if failed then Disarmed(w.service, w.live) else w.service)
  }

  /** The chain lets the round enter: it does so only if the reservation is still valid now. */
  function FenceEntering(w: World, content: Content, source: Source, env: Env): (World, Verdict)
    requires IsRoundSource(source)
  {
    var valid := ValidReservation(w, content, source);
    if valid == Ok(true) then (w, Entered)
    else (RequestDrive(Released(w, valid.Err?), env.starts), Rejected)
  }

  /** Second half of the fence, after the chain decided or threw. */
  function FenceClose(w: World, content: Content, source: Source, decision: Decision, aborted: bool, env: Env):
    (World, Verdict)
    requires IsRoundSource(source)
  {
    if decision.Threw? then
      (if aborted then w else RequestDrive(w.(attempt := None), env.starts), Rethrown)
    else if aborted then (w, if decision.Enter? then Entered else Rejected)
    else if decision.Reject? then FenceRejected(w, source, env)
    else FenceEntering(w, content, source, env)
  }

  // ----------------------------------------------------------- event handlers

  /** `agent/session-start`: the service disarms, the driver forgets; an awaited flush says nothing about the new log. */
  function OnSessionStart(w: World, log: seq<Event>): World {
    w.(service := Tasks.Start(log), durable := 0, attempt := None, competingQueued := false, needsCheckpoint := false,
       runs := seq(|w.runs|, i requires 0 <= i < |w.runs| =>
                 if w.runs[i].AwaitingFlush? then AwaitingFlush(0) else w.runs[i]))
  }

  predicate Interrupted(a: Attempt) {
    a.phase.Queued? || a.phase.Claimed? || a.cancelled
  }

  /** A cancelled round pauses its task; a pause that fails disarms instead. */
  function PauseInterrupted(w: World, ref: Ref, env: Env): World {
    var (w', ok) := Submit(w.(attempt := None), PauseTask(ref), env);
    if ok then w' else Disarm(w')
  }

  /** `agent/status` idle: an unfinished attempt of an armed task pauses it, then the driver is triggered. */
  function OnIdle(w: World, env: Env): World {
    var w' := w.(idle := true, competingQueued := false);
    var task := CurrentTask(w');
    if task.Err? then w'
    else if w'.attempt.Some? && Interrupted(w'.attempt.value) && ActiveArmed(task.value)
    then RequestDrive(PauseInterrupted(w', TaskRef(task.value.value.task), env), env.starts)
    else RequestDrive(w', env.starts)
  }

  function OnInserted(w: World, inNextTurn: bool, content: Content, source: Source): World {
    var competing := inNextTurn && !(w.attempt.Some? && SameQueued(content, source, w.attempt.value));
    w.(competingQueued := w.competingQueued || competing,
       attempt := if competing && w.attempt.Some? && w.attempt.value.phase.Queued?
                  then Some(w.attempt.value.(stale := true)) else w.attempt)
  }

  function OnClaimed(w: World, content: Content, source: Source): World {
    w.(attempt := if w.attempt.Some? && SameQueued(content, source, w.attempt.value)
                  then Some(w.attempt.value.(phase := Claimed)) else w.attempt)
  }

  function OnDiscarded(w: World, content: Content, source: Source): World {
    w.(attempt := if w.attempt.Some? && SameQueued(content, source, w.attempt.value)
                  then Some(w.attempt.value.(cancelled := true)) else w.attempt)
  }

  /** Any event appended by another writer, with the driver's `session/event` handler. */
  function OnAppended(w: World, event: Event): World {
    var own := w.live && event.MessageEvent? && w.attempt.Some? && event.message.id == w.attempt.value.messageId;
    w.(service := Tasks.Foreign(w.service, event),
       attempt := if own then Some(w.attempt.value.(phase := Admitted)) else w.attempt)
  }

  datatype TurnEnd = MaxTokens | Aborted | OtherEnd

  function OnTurnEnd(w: World, reason: TurnEnd): World {
    var started := w.attempt.Some? && (w.attempt.value.phase.Claimed? || w.attempt.value.phase.Admitted?);
    w.(attempt := if reason.Aborted? && started then Some(w.attempt.value.(cancelled := true)) else w.attempt,
       service := if reason.MaxTokens? || (reason.Aborted? && !started) then Disarmed(w.service, w.live) else w.service)
  }

  /** Unloading the driver. */
  function OnUnload(w: World): World {
    w.(stopping := true,
       service := Disarmed(w.service, w.live),
       attempt := if w.attempt.Some? then Some(w.attempt.value.(stale := true)) else None)
  }

  // -------------------------------------------------------------- transitions

  datatype Step =
    | Turn(run: nat, f: Followup, env: Env)
    | Flushed(run: nat, ok: bool, f: Followup, env: Env)
    | Retired(run: nat, env: Env)
    | PreStepOpen(content: Content, source: Source, env: Env)
    | PreStepClose(content: Content, source: Source, decision: Decision, aborted: bool, env: Env)
    | Mutation(q: Request, env: Env)
    | Appended(event: Event)
    | SessionStart(log: seq<Event>)
    | Idle(env: Env)
    | Running
    | Inserted(inNextTurn: bool, content: Content, source: Source)
    | ClaimedMessage(content: Content, source: Source)
    | DiscardedMessage(content: Content, source: Source)
    | TurnEnded(reason: TurnEnd)
    | AgentError
    | Disposed
    | Mount(on: bool)
    | Unload

  /** A step that does not apply leaves the world alone. */
  function Next(w: World, step: Step): World {
    match step
    case Turn(i, f, env) => if i < |w.runs| && w.runs[i].Looping? then Iterate(w, i, f, env) else w
    case Flushed(i, ok, f, env) =>
      if i < |w.runs| && w.runs[i].AwaitingFlush? then FlushSettled(w, i, ok, f, env) else w
    case Retired(i, env) => if i < |w.runs| && w.runs[i].Finished? then Retire(w, i, env) else w
    case PreStepOpen(content, source, env) =>
      if IsRoundSource(source) then FenceOpen(w, content, source, env).0 else w
    case PreStepClose(content, source, decision, aborted, env) =>
      if IsRoundSource(source) then FenceClose(w, content, source, decision, aborted, env).0 else w
    case Mutation(q, env) => Submit(w, q, env).0
    case Appended(event) => OnAppended(w, event)
    case SessionStart(log) => OnSessionStart(w, log)
    case Idle(env) => OnIdle(w, env)
    case Running => w.(idle := false)
    case Inserted(inNextTurn, content, source) => OnInserted(w, inNextTurn, content, source)
    case ClaimedMessage(content, source) => OnClaimed(w, content, source)
    case DiscardedMessage(content, source) => OnDiscarded(w, content, source)
    case TurnEnded(reason) => OnTurnEnd(w, reason)
    case AgentError => Disarm(w)
    case Disposed => w.(live := false)
    case Mount(on) => w.(mounted := on)
    case Unload => OnUnload(w)
  }

  function Initial(log: seq<Event>, defaultMaxRounds: int): World {
    World(Tasks.Start(log), defaultMaxRounds, 0, true, false, false, None, false, false, false, false, false, [])
  }

  function Run(w: World, steps: seq<Step>): World {
    if steps == [] then w else Next(Run(w, steps[..|steps| - 1]), steps[|steps| - 1])
  }
}
