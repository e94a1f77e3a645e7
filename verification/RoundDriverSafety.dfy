/**
 * Safety of the round driver over every interleaving: one run per agent, every round the fence lets
 * enter is one the strict fold accepts, and a round is queued only after a flush that covers the
 * newest change.
 */
module RoundDriverSafety {
  import opened Wrappers
  import opened LongTaskTypes
  import opened LongTaskFold
  import opened LongTaskLog
  import opened LongTaskRequests
  import opened RoundDriverModel
  import Tasks = LongTaskServiceModel

  // -------------------------------------------------------------- invariants

  /** At most one driver run exists, and it is the stored one. */
  predicate SingleRun(w: World) {
    |w.runs| == (if w.runStored then 1 else 0)
  }

  /** The reservation was taken from the snapshot that was current after `log`, within its cap. */
  predicate TakenFrom(log: seq<Event>, a: Attempt) {
    && Accepted(log) && Fold(log).value.task.Some?
    && TaskRef(Fold(log).value.task.value) == Ref(a.taskId, a.revision)
    && 1 <= a.round <= Fold(log).value.task.value.maxRounds
  }

  /** Some earlier moment of the present log justifies the reservation. */
  ghost predicate Reserved(log: seq<Event>, attempt: Option<Attempt>) {
    attempt.Some? ==> exists k :: 0 <= k <= |log| && TakenFrom(log[..k], attempt.value)
  }

  /** Length of the shortest prefix holding every change event. */
  function NewestChange(log: seq<Event>): nat {
    if log == [] then 0
    else if log[|log| - 1].ChangeEvent? then |log|
    else NewestChange(log[..|log| - 1])
  }

  /** How much of the log the checkpoint in progress, or the last finished one, covers. */
  function Covered(w: World): nat {
    if |w.runs| == 1 && w.runs[0].AwaitingFlush? then w.runs[0].began else w.durable
  }

  /** With no checkpoint due, an armed live task has its newest change covered. */
  predicate Checkpointed(w: World) {
    w.service.armed && w.live && !w.needsCheckpoint ==> NewestChange(w.service.log) <= Covered(w)
  }

  /** A finished or running flush never covers more than the log. */
  predicate FlushWithinLog(w: World) {
    && w.durable <= |w.service.log|
    && (forall i :: 0 <= i < |w.runs| && w.runs[i].AwaitingFlush? ==> w.runs[i].began <= |w.service.log|)
  }

  /** Everything but the checkpoint clause. */
  ghost predicate Sound(w: World) {
    && SingleRun(w)
    && FlushWithinLog(w)
    && Tasks.ArmedImpliesActive(w.service)
    && Reserved(w.service.log, w.attempt)
  }

  ghost predicate Inv(w: World) {
    Sound(w) && Checkpointed(w)
  }

  // ---------------------------------------------------------- small log facts

  lemma NewestChangeSnoc(log: seq<Event>, event: Event)
    ensures NewestChange(log + [event]) == if event.ChangeEvent? then |log| + 1 else NewestChange(log)
  {
    assert (log + [event])[..|log|] == log;
  }

  lemma {:induction false} NewestChangeBound(log: seq<Event>)
    ensures NewestChange(log) <= |log|
    ensures forall i :: NewestChange(log) <= i < |log| ==> !log[i].ChangeEvent?
    ensures NewestChange(log) > 0 ==> log[NewestChange(log) - 1].ChangeEvent?
  {
    if log != [] { NewestChangeBound(log[..|log| - 1]); }
  }

  lemma ReservedGrows(log: seq<Event>, log': seq<Event>, attempt: Option<Attempt>)
    requires Reserved(log, attempt) && log <= log'
    ensures Reserved(log', attempt)
  {
    if attempt.Some? {
      var k :| 0 <= k <= |log| && TakenFrom(log[..k], attempt.value);
      assert log'[..k] == log[..k];
    }
  }

  lemma ReservedSame(log: seq<Event>, a: Attempt, b: Attempt)
    requires Reserved(log, Some(a)) && a.taskId == b.taskId && a.revision == b.revision && a.round == b.round
    ensures Reserved(log, Some(b))
  {
    var k :| 0 <= k <= |log| && TakenFrom(log[..k], a);
    assert TakenFrom(log[..k], b);
  }

  /** What one service call does to the log and the activation. */
  lemma SubmitExtends(sv: Tasks.Service, live: bool, q: Request, now: int, at: int, defaultMaxRounds: int)
    ensures var reply := Tasks.Submit(sv, live, q, now, at, defaultMaxRounds);
            && sv.log <= reply.service.log
            && (!reply.announced ==> reply.service == sv || !reply.service.armed)
  {
    hide Fold, ResolveCreate, ResolveEdit, ResolveBlockReason, ValidSnapshot, Tasks.ViewOf;
  }

  /** What a read that reports an active armed task says about the world. */
  lemma ReadMeans(w: World)
    requires CurrentTask(w).Ok? && ActiveArmed(CurrentTask(w).value)
    ensures w.live && w.service.armed && Accepted(w.service.log)
    ensures var view, s := CurrentTask(w).value.value, Tasks.FoldOf(w.service.log);
            Some(view.task) == s.task && view.roundsStarted == s.roundsStarted
  {
  }

  /** No building block touches the reservation. */
  lemma BlocksKeepAttempt(w: World, q: Request, starts: bool, env: Env)
    ensures Disarm(w).attempt == w.attempt
    ensures RequestDrive(w, starts).attempt == w.attempt
    ensures Submit(w, q, env).0.attempt == w.attempt
  {
  }

  // ------------------------------------------------------ building blocks keep

  /** After a disarm the checkpoint clause holds, whatever it was before. */
  lemma DisarmRestores(w: World)
    requires Sound(w)
    ensures Inv(Disarm(w))
  {
  }

  lemma DisarmKeeps(w: World)
    requires Inv(w)
    ensures Inv(Disarm(w))
  {
    DisarmRestores(w);
  }

  lemma RequestKeeps(w: World, starts: bool)
    requires Inv(w)
    ensures Inv(RequestDrive(w, starts))
  {
    if !w.stopping && !w.runStored && !starts {
      DisarmRestores(w.(requested := true));
    }
  }

  /** An announced change only has to leave the rest sound: the handler makes a checkpoint due. */
  lemma ChangedRestores(w: World, starts: bool)
    requires Sound(w)
    ensures Inv(OnChanged(w, starts))
  {
    RequestKeeps(w.(needsCheckpoint := true), starts);
  }

  lemma SubmitKeeps(w: World, q: Request, env: Env)
    requires Inv(w)
    ensures Inv(Submit(w, q, env).0)
  {
    hide Tasks.Submit, Tasks.ArmedImpliesActive, Reserved, OnChanged, NewestChange;
    var reply := Tasks.Submit(w.service, w.live, q, env.now, env.at, w.defaultMaxRounds);
    SubmitExtends(w.service, w.live, q, env.now, env.at, w.defaultMaxRounds);
    Tasks.SubmitKeepsArmedActive(w.service, w.live, q, env.now, env.at, w.defaultMaxRounds);
    ReservedGrows(w.service.log, reply.service.log, w.attempt);
    if reply.announced {
      ChangedRestores(w.(service := reply.service), env.starts);
    }
  }

  lemma AppendReserved(w: World, event: Event)
    requires Reserved(w.service.log, w.attempt)
    ensures Reserved(OnAppended(w, event).service.log, OnAppended(w, event).attempt)
  {
    var w' := OnAppended(w, event);
    ReservedGrows(w.service.log, w'.service.log, w.attempt);
    if w.attempt.Some? {
      ReservedSame(w'.service.log, w.attempt.value, w'.attempt.value);
    }
  }

  lemma AppendKeeps(w: World, event: Event)
    requires Inv(w)
    ensures Inv(OnAppended(w, event))
  {
    AppendReserved(w, event);
    Tasks.StepKeepsArmedActive(w.service, Tasks.Append(event), w.defaultMaxRounds);
    NewestChangeSnoc(w.service.log, event);
    var service := Tasks.Foreign(w.service, event);
    assert OnAppended(w, event).service == service;
    assert service.armed ==> w.service.armed && !event.ChangeEvent?;
  }

  // ---------------------------------------------------------- handlers keep

  lemma BlockKeeps(w: World, ref: Ref, reason: BlockReason, env: Env)
    requires Inv(w)
    ensures Inv(BlockOrDisarm(w, ref, reason, env))
  {
    hide Inv, Submit, Disarmed;
    SubmitKeeps(w, BlockTask(ref, reason), env);
    DisarmKeeps(Submit(w, BlockTask(ref, reason), env).0);
  }

  /** A reservation is justified by the snapshot it is taken from. */
  lemma ReservationJustified(w: World, f: Followup)
    requires CurrentTask(w).Ok? && ActiveArmed(CurrentTask(w).value)
    requires CurrentTask(w).value.value.roundsStarted < CurrentTask(w).value.value.task.maxRounds
    ensures Reserved(w.service.log, Some(ReservationFor(CurrentTask(w).value.value, f)))
  {
    ReadMeans(w);
    var log := w.service.log;
    assert log[..|log|] == log;
    assert TakenFrom(log[..|log|], ReservationFor(CurrentTask(w).value.value, f)) by { FoldWellFormed(log); }
  }

  lemma ReserveKeeps(w: World, a: Attempt)
    requires Inv(w) && Reserved(w.service.log, Some(a))
    ensures Inv(w.(attempt := Some(a)))
  {
  }

  /** Processing admitted work makes a checkpoint due. */
  lemma ProcessedKeeps(w: World)
    requires Inv(w)
    ensures Inv(w.(attempt := None, needsCheckpoint := true, requested := true))
  {
  }

  lemma TailKeeps(w: World, f: Followup, env: Env)
    requires Inv(w)
    ensures Inv(DriveTail(w, f, env))
  {
    hide Inv, CurrentTask, BlockOrDisarm, Disarmed, Reserved, RoundLimit, QueueFailed;
    DisarmKeeps(w);
    ProcessedKeeps(w);
    var task := CurrentTask(w);
    if task.Ok? && ActiveArmed(task.value) {
      var view := task.value.value;
      BlockKeeps(w, TaskRef(view.task), RoundLimit(view.task.maxRounds), env);
      if f.thrown.Some? {
        BlockKeeps(w, TaskRef(view.task), QueueFailed(view.roundsStarted + 1, f.thrown.value), env);
      } else if view.roundsStarted < view.task.maxRounds {
        ReservationJustified(w, f);
        ReserveKeeps(w, ReservationFor(view, f));
      }
    }
  }

  lemma IterateKeeps(w: World, i: nat, f: Followup, env: Env)
    requires Inv(w) && i < |w.runs| && w.runs[i].Looping?
    ensures Inv(Iterate(w, i, f, env))
  {
    hide Reserved, Tasks.ArmedImpliesActive, DriveTail;
    NewestChangeBound(w.service.log);
    var w' := w.(requested := false);
    if w.requested && !w.stopping && ReadyToDrive(w') && !w'.needsCheckpoint {
      TailKeeps(w', f, env);
    }
  }

  /** A flush that succeeded covers what the running one covered. */
  lemma FlushedKeeps(w: World, i: nat)
    requires Inv(w) && i < |w.runs| && w.runs[i].AwaitingFlush?
    ensures Sound(SetRun(w, i, Looping))
    ensures Inv(SetRun(w, i, Looping).(durable := if w.runs[i].began > w.durable then w.runs[i].began else w.durable))
  {
    hide Reserved, Tasks.ArmedImpliesActive;
  }

  lemma FlushKeeps(w: World, i: nat, ok: bool, f: Followup, env: Env)
    requires Inv(w) && i < |w.runs| && w.runs[i].AwaitingFlush?
    ensures Inv(FlushSettled(w, i, ok, f, env))
  {
    hide Inv, Sound, DriveTail, Disarmed;
    FlushedKeeps(w, i);
    DisarmRestores(SetRun(w, i, Looping));
    TailKeeps(SetRun(w, i, Looping).(durable := if w.runs[i].began > w.durable then w.runs[i].began else w.durable), f, env);
  }

  lemma RetireKeeps(w: World, i: nat, env: Env)
    requires Inv(w) && i < |w.runs| && w.runs[i].Finished?
    ensures Inv(Retire(w, i, env))
  {
    hide Reserved, Tasks.ArmedImpliesActive, RequestDrive;
    var w' := w.(runs := w.runs[..i] + w.runs[i + 1..], runStored := false);
    assert Inv(w');
    RequestKeeps(w', env.starts);
  }

  lemma ForgetKeeps(w: World)
    requires Inv(w)
    ensures Inv(w.(attempt := None))
  {
  }

  lemma RefusedKeeps(w: World, source: Source, failed: bool)
    requires Inv(w) && source.RoundSource?
    ensures Inv(Refused(w, source, failed))
  {
    DisarmKeeps(w);
    ForgetKeeps(w);
    ForgetKeeps(Disarm(w));
  }

  lemma FenceOpenKeeps(w: World, content: Content, source: Source, env: Env)
    requires Inv(w) && IsRoundSource(source)
    ensures Inv(FenceOpen(w, content, source, env).0)
  {
    hide Inv, Refused, ValidReservation, RequestDrive;
    var failed := ValidReservation(w, content, source).Err?;
    RefusedKeeps(w, source, failed);
    RequestKeeps(Refused(w, source, failed), env.starts);
  }

  lemma FenceRejectedKeeps(w: World, source: Source, env: Env)
    requires Inv(w) && IsRoundSource(source)
    ensures Inv(FenceRejected(w, source, env).0)
  {
    hide Inv, Submit, CurrentTask;
    ForgetKeeps(w);
    var cleared := w.(attempt := None);
    var view := CurrentTask(cleared);
    if view.Ok? && view.value.Some? {
      SubmitKeeps(cleared, BlockTask(TaskRef(view.value.value.task), PromptRejected()), env);
    }
  }

  lemma ReleasedKeeps(w: World, failed: bool)
    requires Inv(w)
    ensures Inv(Released(w, failed))
  {
    DisarmKeeps(w);
    ForgetKeeps(w);
    ForgetKeeps(Disarm(w));
  }

  lemma FenceEnteringKeeps(w: World, content: Content, source: Source, env: Env)
    requires Inv(w) && IsRoundSource(source)
    ensures Inv(FenceEntering(w, content, source, env).0)
  {
    hide Inv, Released, ValidReservation, RequestDrive;
    var failed := ValidReservation(w, content, source).Err?;
    ReleasedKeeps(w, failed);
    RequestKeeps(Released(w, failed), env.starts);
  }

  lemma FenceCloseKeeps(w: World, content: Content, source: Source, decision: Decision, aborted: bool, env: Env)
    requires Inv(w) && IsRoundSource(source)
    ensures Inv(FenceClose(w, content, source, decision, aborted, env).0)
  {
    hide Inv, FenceRejected, FenceEntering, RequestDrive;
    ForgetKeeps(w);
    RequestKeeps(w.(attempt := None), env.starts);
    FenceRejectedKeeps(w, source, env);
    FenceEnteringKeeps(w, content, source, env);
  }

  lemma PauseKeeps(w: World, ref: Ref, env: Env)
    requires Inv(w)
    ensures Inv(PauseInterrupted(w, ref, env))
  {
    hide Inv, Submit, Disarmed;
    ForgetKeeps(w);
    SubmitKeeps(w.(attempt := None), PauseTask(ref), env);
    DisarmKeeps(Submit(w.(attempt := None), PauseTask(ref), env).0);
  }

  lemma IdleKeeps(w: World, env: Env)
    requires Inv(w)
    ensures Inv(OnIdle(w, env))
  {
    hide CurrentTask, PauseInterrupted, RequestDrive, Tasks.ArmedImpliesActive;
    var w' := w.(idle := true, competingQueued := false);
    assert Inv(w');
    RequestKeeps(w', env.starts);
    var view := CurrentTask(w');
    if view.Ok? && view.value.Some? {
      var ref := TaskRef(view.value.value.task);
      PauseKeeps(w', ref, env);
      RequestKeeps(PauseInterrupted(w', ref, env), env.starts);
    }
  }

  /** Marking a reservation never changes which round it stands for. */
  lemma MarkKeeps(w: World, a: Attempt)
    requires Inv(w) && w.attempt.Some?
    requires a.taskId == w.attempt.value.taskId && a.revision == w.attempt.value.revision && a.round == w.attempt.value.round
    ensures Inv(w.(attempt := Some(a)))
  {
    ReservedSame(w.service.log, w.attempt.value, a);
  }

  lemma InsertedKeeps(w: World, inNextTurn: bool, content: Content, source: Source)
    requires Inv(w)
    ensures Inv(OnInserted(w, inNextTurn, content, source))
  {
    if w.attempt.Some? { MarkKeeps(w, w.attempt.value.(stale := true)); }
  }

  lemma ClaimKeeps(w: World, content: Content, source: Source)
    requires Inv(w)
    ensures Inv(OnClaimed(w, content, source)) && Inv(OnDiscarded(w, content, source))
  {
    hide Inv;
    if w.attempt.Some? {
      MarkKeeps(w, w.attempt.value.(phase := Claimed));
      MarkKeeps(w, w.attempt.value.(cancelled := true));
    }
    assert w.(attempt := w.attempt) == w;
  }

  lemma TurnEndKeeps(w: World, reason: TurnEnd)
    requires Inv(w)
    ensures Inv(OnTurnEnd(w, reason))
  {
    hide Inv, Disarmed;
    var started := w.attempt.Some? && (w.attempt.value.phase.Claimed? || w.attempt.value.phase.Admitted?);
    if reason.MaxTokens? || (reason.Aborted? && !started) {
      DisarmKeeps(w);
      assert OnTurnEnd(w, reason) == Disarm(w);
    } else if reason.Aborted? {
      MarkKeeps(w, w.attempt.value.(cancelled := true));
    } else {
      assert OnTurnEnd(w, reason) == w;
    }
  }

  lemma StopKeeps(w: World)
    requires Inv(w)
    ensures Inv(w.(stopping := true))
  {
  }

  lemma UnloadKeeps(w: World)
    requires Inv(w)
    ensures Inv(OnUnload(w))
  {
    hide Inv, Disarmed;
    StopKeeps(w);
    var w' := Disarm(w.(stopping := true));
    DisarmKeeps(w.(stopping := true));
    if w.attempt.Some? { MarkKeeps(w', w.attempt.value.(stale := true)); }
    assert OnUnload(w) == if w.attempt.Some? then w'.(attempt := Some(w.attempt.value.(stale := true))) else w';
  }

  lemma QuietKeeps(w: World, log: seq<Event>, on: bool)
    requires Inv(w)
    ensures Inv(OnSessionStart(w, log)) && Inv(w.(idle := false)) && Inv(w.(live := false)) && Inv(w.(mounted := on))
  {
  }

  lemma StepKeeps(w: World, step: Step)
    requires Inv(w)
    ensures Inv(Next(w, step))
  {
    hide Inv, Iterate, FlushSettled, Retire, FenceOpen, FenceClose, Submit, OnAppended, OnSessionStart, OnIdle, OnInserted;
    hide OnClaimed, OnDiscarded, OnTurnEnd, Disarm, OnUnload, IsRoundSource;
    match step
    case Turn(i, f, env) => if i < |w.runs| && w.runs[i].Looping? { IterateKeeps(w, i, f, env); }
    case Flushed(i, ok, f, env) => if i < |w.runs| && w.runs[i].AwaitingFlush? { FlushKeeps(w, i, ok, f, env); }
    case Retired(i, env) => if i < |w.runs| && w.runs[i].Finished? { RetireKeeps(w, i, env); }
    case PreStepOpen(content, source, env) => if IsRoundSource(source) { FenceOpenKeeps(w, content, source, env); }
    case PreStepClose(content, source, decision, aborted, env) =>
      if IsRoundSource(source) { FenceCloseKeeps(w, content, source, decision, aborted, env); }
    case Mutation(q, env) => SubmitKeeps(w, q, env);
    case Appended(event) => AppendKeeps(w, event);
    case Idle(env) => IdleKeeps(w, env);
    case AgentError => DisarmKeeps(w);
    case Inserted(inNextTurn, content, source) => InsertedKeeps(w, inNextTurn, content, source);
    case ClaimedMessage(content, source) => ClaimKeeps(w, content, source);
    case DiscardedMessage(content, source) => ClaimKeeps(w, content, source);
    case TurnEnded(reason) => TurnEndKeeps(w, reason);
    case Unload => UnloadKeeps(w);
    case SessionStart(log) => QuietKeeps(w, log, w.mounted);
    case Mount(on) => QuietKeeps(w, [], on);
    case Running => QuietKeeps(w, [], w.mounted);
    case Disposed => QuietKeeps(w, [], w.mounted);
  }

  // ------------------------------------------------------------ main theorems

  lemma {:induction false} Reachable(log: seq<Event>, defaultMaxRounds: int, steps: seq<Step>)
    ensures Inv(Run(Initial(log, defaultMaxRounds), steps))
  {
    if steps != [] {
      Reachable(log, defaultMaxRounds, steps[..|steps| - 1]);
      StepKeeps(Run(Initial(log, defaultMaxRounds), steps[..|steps| - 1]), steps[|steps| - 1]);
    }
  }

  /** However triggers, flushes and retirements interleave, an agent never has two driver runs. */
  lemma OneRunPerAgent(log: seq<Event>, defaultMaxRounds: int, steps: seq<Step>)
    ensures var w := Run(Initial(log, defaultMaxRounds), steps);
            |w.runs| <= 1 && (w.runStored <==> |w.runs| == 1)
  {
    Reachable(log, defaultMaxRounds, steps);
  }

  /** A valid reservation names the next round of the current task, and its cap is the one it was reserved under. */
  lemma ValidMeansAdmitted(w: World, content: Content, source: Source)
    requires Inv(w) && IsRoundSource(source) && ValidReservation(w, content, source) == Ok(true)
    ensures Accepted(w.service.log) && AdmitsRound(Fold(w.service.log).value, source)
    ensures ValidRoundSource(source)
  {
    var log := w.service.log;
    var a := w.attempt.value;
    var k :| 0 <= k <= |log| && TakenFrom(log[..k], a);
    assert log[..|log|] == log;
    SameRefSameSnapshot(log, k, |log|);
    FoldWellFormed(log);
  }

  /**
   * Admission soundness: under any interleaving, when the fence lets a round enter without an abort,
   * appending that round's message to the session log of that moment is accepted by the strict fold,
   * including the round cap, which the fence never tests.
   */
  lemma AdmissionSound(log: seq<Event>, defaultMaxRounds: int, steps: seq<Step>,
                       content: Content, source: Source, env: Env, messageId: nat)
    requires IsRoundSource(source)
    requires FenceClose(Run(Initial(log, defaultMaxRounds), steps), content, source, Enter, false, env).1 == Entered
    ensures var now := Run(Initial(log, defaultMaxRounds), steps).service.log;
            && Accepted(now)
            && source.round <= Fold(now).value.task.value.maxRounds
            && Accepted(now + [MessageEvent(Message(messageId, content, source))])
  {
    hide Run, Inv, ValidReservation, ValidSnapshot, Fold;
    var w := Run(Initial(log, defaultMaxRounds), steps);
    Reachable(log, defaultMaxRounds, steps);
    ValidMeansAdmitted(w, content, source);
    FoldSnoc(w.service.log, MessageEvent(Message(messageId, content, source)));
  }

  lemma BlockQueuesNothing(w: World, ref: Ref, reason: BlockReason, env: Env)
    ensures BlockOrDisarm(w, ref, reason, env).attempt == w.attempt
  {
    hide Submit, Disarmed;
    BlocksKeepAttempt(w, BlockTask(ref, reason), true, env);
  }

  /** A drive's tail that queues a reservation does so on an armed live task and touches nothing else. */
  lemma TailQueues(w: World, f: Followup, env: Env)
    requires w.attempt.None? && DriveTail(w, f, env).attempt.Some?
    ensures w.service.armed && w.live && DriveTail(w, f, env) == w.(attempt := DriveTail(w, f, env).attempt)
  {
    hide BlockOrDisarm, Disarmed, CurrentTask;
    var task := CurrentTask(w);
    if task.Ok? && ActiveArmed(task.value) {
      ReadMeans(w);
      var view := task.value.value;
      BlockQueuesNothing(w, TaskRef(view.task), RoundLimit(view.task.maxRounds), env);
      if f.thrown.Some? {
        BlockQueuesNothing(w, TaskRef(view.task), QueueFailed(view.roundsStarted + 1, f.thrown.value), env);
      }
    }
  }

  lemma FenceOpenQueuesNothing(w: World, content: Content, source: Source, env: Env)
    requires IsRoundSource(source) && w.attempt.None?
    ensures FenceOpen(w, content, source, env).0.attempt.None?
  {
    hide ValidReservation, Disarmed;
  }

  lemma FenceRejectedQueuesNothing(w: World, source: Source, env: Env)
    requires IsRoundSource(source)
    ensures FenceRejected(w, source, env).0.attempt.None?
  {
    hide Submit, CurrentTask;
    var cleared := w.(attempt := None);
    var view := CurrentTask(cleared);
    if view.Ok? && view.value.Some? {
      BlocksKeepAttempt(cleared, BlockTask(TaskRef(view.value.value.task), PromptRejected()), env.starts, env);
    }
  }

  lemma FenceCloseQueuesNothing(w: World, content: Content, source: Source, decision: Decision, aborted: bool, env: Env)
    requires IsRoundSource(source) && w.attempt.None?
    ensures FenceClose(w, content, source, decision, aborted, env).0.attempt.None?
  {
    hide FenceRejected, Disarmed, ValidReservation;
    FenceRejectedQueuesNothing(w, source, env);
  }

  lemma IdleQueuesNothing(w: World, env: Env)
    requires w.attempt.None?
    ensures OnIdle(w, env).attempt.None?
  {
    hide Disarmed, CurrentTask;
  }

  lemma TurnQueues(w: World, i: nat, f: Followup, env: Env)
    requires SingleRun(w) && i < |w.runs| && w.runs[i].Looping?
    requires w.attempt.None? && Iterate(w, i, f, env).attempt.Some?
    ensures var w' := Iterate(w, i, f, env);
            && w'.service == w.service && w.service.armed && w.live && !w.needsCheckpoint && Covered(w) <= w'.durable
  {
    hide DriveTail;
    TailQueues(w.(requested := false), f, env);
  }

  lemma FlushQueues(w: World, i: nat, ok: bool, f: Followup, env: Env)
    requires SingleRun(w) && i < |w.runs| && w.runs[i].AwaitingFlush?
    requires w.attempt.None? && FlushSettled(w, i, ok, f, env).attempt.Some?
    ensures var w' := FlushSettled(w, i, ok, f, env);
            && w'.service == w.service && w.service.armed && w.live && !w.needsCheckpoint && Covered(w) <= w'.durable
  {
    hide DriveTail, Disarmed;
    TailQueues(SetRun(w, i, Looping).(durable := if w.runs[i].began > w.durable then w.runs[i].began else w.durable), f, env);
  }

  /** Whatever step queues a round does so in the piece that follows the checkpoint. */
  lemma QueuedByTail(w: World, step: Step)
    requires SingleRun(w) && w.attempt.None? && Next(w, step).attempt.Some?
    ensures var w' := Next(w, step);
            && w'.service == w.service && w.service.armed && w.live && !w.needsCheckpoint && Covered(w) <= w'.durable
  {
    hide Submit, FenceOpen, FenceClose, OnIdle, Iterate, FlushSettled, Disarmed;
    match step
    case Turn(i, f, env) => TurnQueues(w, i, f, env);
    case Flushed(i, ok, f, env) => FlushQueues(w, i, ok, f, env);
    case PreStepOpen(content, source, env) => FenceOpenQueuesNothing(w, content, source, env);
    case PreStepClose(content, source, decision, aborted, env) =>
      FenceCloseQueuesNothing(w, content, source, decision, aborted, env);
    case Mutation(q, env) => BlocksKeepAttempt(w, q, true, env);
    case Idle(env) => IdleQueuesNothing(w, env);
    case _ =>
  }

  /** The same reserved message, in whatever phase. */
  predicate SameReservation(a: Attempt, b: Attempt) {
    a.taskId == b.taskId && a.revision == b.revision && a.round == b.round && a.messageId == b.messageId && a.content == b.content
  }

  predicate KeepsOrDrops(before: Option<Attempt>, after: Option<Attempt>) {
    before.Some? && after.Some? ==> SameReservation(before.value, after.value)
  }

  lemma DriveKeepsOrDrops(w: World, i: nat, ok: bool, f: Followup, env: Env)
    requires i < |w.runs|
    ensures KeepsOrDrops(w.attempt, Iterate(w, i, f, env).attempt)
    ensures w.runs[i].AwaitingFlush? ==> KeepsOrDrops(w.attempt, FlushSettled(w, i, ok, f, env).attempt)
  {
    hide QueueNext, CurrentTask, Disarmed;
  }

  lemma RequestKeepsAttempt(w: World, starts: bool)
    ensures RequestDrive(w, starts).attempt == w.attempt
  {
  }

  lemma FenceOpenKeepsOrDrops(w: World, content: Content, source: Source, env: Env)
    requires IsRoundSource(source)
    ensures KeepsOrDrops(w.attempt, FenceOpen(w, content, source, env).0.attempt)
  {
    hide Disarmed, ValidReservation, RequestDrive, SameRound;
    RequestKeepsAttempt(Refused(w, source, ValidReservation(w, content, source).Err?), env.starts);
  }

  lemma FenceCloseKeepsOrDrops(w: World, content: Content, source: Source, decision: Decision, aborted: bool, env: Env)
    requires IsRoundSource(source)
    ensures KeepsOrDrops(w.attempt, FenceClose(w, content, source, decision, aborted, env).0.attempt)
  {
    hide FenceRejected, Disarmed, ValidReservation, RequestDrive;
    FenceRejectedQueuesNothing(w, source, env);
    RequestKeepsAttempt(w.(attempt := None), env.starts);
    RequestKeepsAttempt(Released(w, ValidReservation(w, content, source).Err?), env.starts);
  }

  lemma PauseDropsAttempt(w: World, ref: Ref, env: Env)
    ensures PauseInterrupted(w, ref, env).attempt.None?
  {
    hide Submit, Disarm;
    var cleared := w.(attempt := None);
    BlocksKeepAttempt(cleared, PauseTask(ref), env.starts, env);
    BlocksKeepAttempt(Submit(cleared, PauseTask(ref), env).0, PauseTask(ref), env.starts, env);
  }

  lemma IdleKeepsOrDrops(w: World, env: Env)
    ensures KeepsOrDrops(w.attempt, OnIdle(w, env).attempt)
  {
    hide CurrentTask, PauseInterrupted, RequestDrive, Interrupted;
    var started := w.(idle := true, competingQueued := false);
    RequestKeepsAttempt(started, env.starts);
    var task := CurrentTask(started);
    if task.Ok? && ActiveArmed(task.value) {
      var ref := TaskRef(task.value.value.task);
      PauseDropsAttempt(started, ref, env);
      RequestKeepsAttempt(PauseInterrupted(started, ref, env), env.starts);
    }
  }

  lemma InboxKeepsOrDrops(w: World, inNextTurn: bool, content: Content, source: Source)
    ensures KeepsOrDrops(w.attempt, OnInserted(w, inNextTurn, content, source).attempt)
    ensures KeepsOrDrops(w.attempt, OnClaimed(w, content, source).attempt)
    ensures KeepsOrDrops(w.attempt, OnDiscarded(w, content, source).attempt)
  {
    hide SameQueued;
  }

  lemma EventKeepsOrDrops(w: World, event: Event, reason: TurnEnd)
    ensures KeepsOrDrops(w.attempt, OnAppended(w, event).attempt)
    ensures KeepsOrDrops(w.attempt, OnTurnEnd(w, reason).attempt)
    ensures KeepsOrDrops(w.attempt, OnUnload(w).attempt)
  {
    hide Disarmed, Tasks.Foreign;
  }

  lemma RetireKeepsAttempt(w: World, i: nat, env: Env)
    requires i < |w.runs|
    ensures Retire(w, i, env).attempt == w.attempt
  {
    hide Disarmed;
  }

  lemma QuietKeepsOrDrops(w: World, log: seq<Event>)
    ensures KeepsOrDrops(w.attempt, Disarm(w).attempt)
    ensures KeepsOrDrops(w.attempt, OnSessionStart(w, log).attempt)
    ensures KeepsOrDrops(w.attempt, w.attempt)
  {
    hide Disarmed, Tasks.Start;
  }

  /** The steps that run a piece of the driver itself; the others only record what happened outside. */
  predicate RunsDriver(step: Step) {
    step.Turn? || step.Flushed? || step.Retired? || step.PreStepOpen? || step.PreStepClose? || step.Mutation? || step.Idle?
  }

  lemma DriverKeepsOrDrops(w: World, step: Step)
    requires RunsDriver(step)
    ensures KeepsOrDrops(w.attempt, Next(w, step).attempt)
  {
    hide Submit, FenceOpen, FenceClose, OnIdle, Iterate, FlushSettled, Retire, KeepsOrDrops;
    QuietKeepsOrDrops(w, []);
    match step
    case Turn(i, f, env) => if i < |w.runs| { DriveKeepsOrDrops(w, i, true, f, env); }
    case Flushed(i, ok, f, env) => if i < |w.runs| { DriveKeepsOrDrops(w, i, ok, f, env); }
    case Retired(i, env) => if i < |w.runs| { RetireKeepsAttempt(w, i, env); }
    case PreStepOpen(content, source, env) =>
      if IsRoundSource(source) { FenceOpenKeepsOrDrops(w, content, source, env); }
    case PreStepClose(content, source, decision, aborted, env) =>
      if IsRoundSource(source) { FenceCloseKeepsOrDrops(w, content, source, decision, aborted, env); }
    case Mutation(q, env) => BlocksKeepAttempt(w, q, true, env);
    case Idle(env) => IdleKeepsOrDrops(w, env);
  }

  lemma OutsideKeepsOrDrops(w: World, step: Step)
    requires !RunsDriver(step)
    ensures KeepsOrDrops(w.attempt, Next(w, step).attempt)
  {
    hide OnInserted, OnClaimed, OnDiscarded, OnAppended, OnTurnEnd, OnUnload, OnSessionStart, Disarm, KeepsOrDrops;
    match step
    case Appended(event) => EventKeepsOrDrops(w, event, OtherEnd);
    case TurnEnded(reason) => EventKeepsOrDrops(w, OtherEvent, reason);
    case Unload => EventKeepsOrDrops(w, OtherEvent, OtherEnd);
    case Inserted(inNextTurn, content, source) => InboxKeepsOrDrops(w, inNextTurn, content, source);
    case ClaimedMessage(content, source) => InboxKeepsOrDrops(w, false, content, source);
    case DiscardedMessage(content, source) => InboxKeepsOrDrops(w, false, content, source);
    case SessionStart(log) => QuietKeepsOrDrops(w, log);
    case _ => QuietKeepsOrDrops(w, []);
  }

  /** A reservation is never exchanged for another within one step: a new one always replaces none. */
  lemma ReservationReplacesNone(w: World, step: Step)
    ensures KeepsOrDrops(w.attempt, Next(w, step).attempt)
  {
    hide *;
    if RunsDriver(step) { DriverKeepsOrDrops(w, step); } else { OutsideKeepsOrDrops(w, step); }
  }

  /** A step that leaves a reservation which was not there before. */
  predicate Queues(before: Option<Attempt>, after: Option<Attempt>) {
    after.Some? && (before.None? || !SameReservation(before.value, after.value))
  }

  /**
   * Durability before continuation: whenever a step queues a round, a session flush that began after
   * the newest change has succeeded, also across changes that landed during an awaited flush.
   */
  lemma QueuedAfterFlush(log: seq<Event>, defaultMaxRounds: int, steps: seq<Step>, step: Step)
    requires Queues(Run(Initial(log, defaultMaxRounds), steps).attempt, Run(Initial(log, defaultMaxRounds), steps + [step]).attempt)
    ensures var w := Run(Initial(log, defaultMaxRounds), steps + [step]);
            && w.durable <= |w.service.log|
            && forall i :: w.durable <= i < |w.service.log| ==> !w.service.log[i].ChangeEvent?
  {
    hide Next;
    assert (steps + [step])[..|steps|] == steps;
    var w := Run(Initial(log, defaultMaxRounds), steps);
    Reachable(log, defaultMaxRounds, steps);
    ReservationReplacesNone(w, step);
    QueuedByTail(w, step);
    NewestChangeBound(w.service.log);
    assert FlushWithinLog(Run(Initial(log, defaultMaxRounds), steps + [step])) by { Reachable(log, defaultMaxRounds, steps + [step]); }
  }

  // ----------------------------------------------------------------- fail closed

  /** No authority is left on a live agent. */
  predicate Stopped(w: World) {
    w.live ==> !w.service.armed
  }

  lemma DisarmStops(w: World)
    requires Tasks.ArmedImpliesActive(w.service)
    ensures Stopped(Disarm(w))
  {
  }

  lemma DisarmedIsUnarmed(service: Tasks.Service, live: bool)
    requires Tasks.ArmedImpliesActive(service) && live
    ensures !Disarmed(service, live).armed
  {
  }

  lemma EndsStop(w: World)
    requires Tasks.ArmedImpliesActive(w.service)
    ensures Stopped(Disarm(w)) && Stopped(OnUnload(w)) && Stopped(OnTurnEnd(w, MaxTokens))
    ensures w.attempt.None? || w.attempt.value.phase.Queued? ==> Stopped(OnTurnEnd(w, Aborted))
  {
    hide Disarmed, Tasks.ArmedImpliesActive;
    if w.live { DisarmedIsUnarmed(w.service, w.live); }
  }

  /**
   * The driver fails closed: an agent error, an unload, a turn that ran out of tokens or was aborted before
   * the round was claimed, a failed checkpoint and a run that cannot be started all leave a live agent disarmed.
   */
  lemma FailsClosed(w: World, i: nat, f: Followup, env: Env)
    requires Inv(w)
    ensures Stopped(Disarm(w)) && Stopped(OnUnload(w)) && Stopped(OnTurnEnd(w, MaxTokens))
    ensures w.attempt.None? || w.attempt.value.phase.Queued? ==> Stopped(OnTurnEnd(w, Aborted))
    ensures i < |w.runs| && w.runs[i].AwaitingFlush? ==> Stopped(FlushSettled(w, i, false, f, env))
    ensures !w.stopping && !w.runStored ==> Stopped(RequestDrive(w, false))
  {
    hide Disarmed, DriveTail, Reserved, Checkpointed, FlushWithinLog, SingleRun, Tasks.ArmedImpliesActive, OnUnload, OnTurnEnd;
    EndsStop(w);
    if w.live { DisarmedIsUnarmed(w.service, w.live); }
  }

  lemma TaskSubmitStops(sv: Tasks.Service, live: bool, q: Request, now: int, at: int, defaultMaxRounds: int)
    requires q.PauseTask? || q.BlockTask?
    ensures var reply := Tasks.Submit(sv, live, q, now, at, defaultMaxRounds);
            reply.result.Ok? ==> !reply.service.armed
  {
    hide Fold, ValidSnapshot, ResolveBlockReason, WellFormed, Tasks.ViewOf;
  }

  lemma RequestNeverArms(w: World, starts: bool)
    requires !w.service.armed
    ensures !RequestDrive(w, starts).service.armed
  {
    hide Tasks.ViewOf, Fold;
  }

  lemma SubmitStops(w: World, q: Request, env: Env)
    requires Inv(w) && (q.PauseTask? || q.BlockTask?)
    ensures Submit(w, q, env).1 ==> !Submit(w, q, env).0.service.armed
  {
    hide Inv, Tasks.Submit, RequestDrive;
    TaskSubmitStops(w.service, w.live, q, env.now, env.at, w.defaultMaxRounds);
    var reply := Tasks.Submit(w.service, w.live, q, env.now, env.at, w.defaultMaxRounds);
    if !reply.service.armed { RequestNeverArms(w.(service := reply.service, needsCheckpoint := true), env.starts); }
  }

  /** A block or pause that fails disarms, so the agent is stopped either way. */
  lemma BlockStops(w: World, ref: Ref, reason: BlockReason, env: Env)
    requires Inv(w)
    ensures Stopped(BlockOrDisarm(w, ref, reason, env))
  {
    hide Inv, Submit, Disarm;
    SubmitStops(w, BlockTask(ref, reason), env);
    SubmitKeeps(w, BlockTask(ref, reason), env);
    DisarmAfter(Submit(w, BlockTask(ref, reason), env).0);
  }

  lemma DisarmAfter(w: World)
    requires Inv(w)
    ensures Stopped(Disarm(w))
  {
    DisarmStops(w);
  }

  /**
   * When the drive may continue after its checkpoint, it queues exactly if the task is active and armed,
   * rounds are left and the inbox takes the message; the round queued is then the one the strict fold
   * would admit next. An exhausted task, or one whose message cannot be queued, is stopped.
   */
  lemma QueuesTheNextRound(w: World, f: Followup, env: Env)
    requires Inv(w) && w.attempt.None?
    ensures var w' := DriveTail(w, f, env);
            var task := CurrentTask(w);
            && (w'.attempt.Some? <==> task.Ok? && ActiveArmed(task.value) && f.thrown.None?
                                      && task.value.value.roundsStarted < task.value.value.task.maxRounds)
            && (w'.attempt.Some? ==>
                  var a := w'.attempt.value;
                  Accepted(w.service.log) && AdmitsRound(Fold(w.service.log).value, RoundSource(a.taskId, a.revision, a.round)))
            && (w'.attempt.None? && task.Ok? && ActiveArmed(task.value) ==> Stopped(w'))
  {
    hide Inv, CurrentTask, BlockOrDisarm, Disarmed, RoundLimit, QueueFailed;
    var task := CurrentTask(w);
    if task.Ok? && ActiveArmed(task.value) {
      ReadMeans(w);
      var view := task.value.value;
      var limit, failed := RoundLimit(view.task.maxRounds), QueueFailed(view.roundsStarted + 1, f.thrown.GetOr(""));
      BlockQueuesNothing(w, TaskRef(view.task), limit, env);
      BlockQueuesNothing(w, TaskRef(view.task), failed, env);
      BlockStops(w, TaskRef(view.task), limit, env);
      BlockStops(w, TaskRef(view.task), failed, env);
    }
  }

  /** Going idle with an interrupted attempt of an armed task drops the attempt and stops the agent. */
  lemma InterruptedStops(w: World, env: Env)
    requires Inv(w) && w.attempt.Some? && Interrupted(w.attempt.value)
    requires CurrentTask(w).Ok? && ActiveArmed(CurrentTask(w).value)
    ensures OnIdle(w, env).attempt.None? && Stopped(OnIdle(w, env))
  {
    hide Inv, Submit, Disarm, Disarmed;
    var started := w.(idle := true, competingQueued := false);
    IdleIsInert(w);
    var ref := TaskRef(CurrentTask(w).value.value.task);
    var cleared := started.(attempt := None);
    SubmitStops(cleared, PauseTask(ref), env);
    SubmitKeeps(cleared, PauseTask(ref), env);
    DisarmAfter(Submit(cleared, PauseTask(ref), env).0);
    PauseDropsAttempt(started, ref, env);
    var paused := PauseInterrupted(started, ref, env);
    PauseKeeps(started, ref, env);
    RequestStaysStopped(paused, env.starts);
  }

  lemma IdleIsInert(w: World)
    requires Inv(w)
    ensures var started := w.(idle := true, competingQueued := false);
            Inv(started) && Inv(started.(attempt := None)) && CurrentTask(started) == CurrentTask(w)
  {
  }

  lemma RequestStaysStopped(w: World, starts: bool)
    requires Stopped(w)
    ensures Stopped(RequestDrive(w, starts)) && RequestDrive(w, starts).attempt == w.attempt
  {
  }
}
