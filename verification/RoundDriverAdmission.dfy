/**
 * Exactly which rounds the fence lets through, which rounds a drive queues, and what becomes of a queued round:
 * it enters if nothing comes in between, and is refused after a competing prompt.
 */
module RoundDriverAdmission {
  import opened Wrappers
  import opened LongTaskTypes
  import opened LongTaskFold
  import opened LongTaskLog
  import opened LongTaskRequests
  import opened RoundDriverModel
  import opened RoundDriverSafety
  import Tasks = LongTaskServiceModel

  /** The task current after the log, if the log is accepted. */
  function CurrentOf(log: seq<Event>): Option<Snapshot> {
    if Fold(log).Ok? then Fold(log).value.task else None
  }

  /** The driver may act: mounted, not unloading, and its agent alive. */
  predicate Working(w: World) {
    w.mounted && !w.stopping && w.live
  }

  /** The log's task is active and armed, at this revision, with this round its next. */
  predicate NextRoundOf(w: World, ref: Ref, round: int) {
    && w.service.armed && CurrentOf(w.service.log).Some?
    && CurrentOf(w.service.log).value.phase == Active
    && Ref(CurrentOf(w.service.log).value.id, CurrentOf(w.service.log).value.revision) == ref
    && round == Fold(w.service.log).value.roundsStarted + 1
  }

  /** The driver's own claimed message of the round, not made stale. */
  predicate OwnClaim(attempt: Option<Attempt>, content: Content, source: Source)
    requires source.RoundSource?
  {
    && attempt.Some? && attempt.value.phase == AttemptPhase.Claimed && !attempt.value.stale && attempt.value.content == content
    && attempt.value.taskId == source.taskId && attempt.value.revision == source.revision && attempt.value.round == source.round
  }

  predicate Admissible(w: World, content: Content, source: Source)
    requires source.RoundSource?
  {
    Working(w) && OwnClaim(w.attempt, content, source) && NextRoundOf(w, Ref(source.taskId, source.revision), source.round)
  }

  /** Both halves of the fence let a round through exactly if it is admissible, and then change nothing. */
  lemma FenceExactly(w: World, content: Content, source: Source, env: Env)
    requires IsRoundSource(source)
    ensures FenceOpen(w, content, source, env).1 == (if Admissible(w, content, source) then Passed else Rejected)
    ensures FenceClose(w, content, source, Enter, false, env).1 == (if Admissible(w, content, source) then Entered else Rejected)
    ensures Admissible(w, content, source) ==>
              FenceOpen(w, content, source, env).0 == w && FenceClose(w, content, source, Enter, false, env).0 == w
  {
    hide RequestDrive, Refused, Released, WellFormed;
    ValidExactly(w, content, source);
    hide ValidReservation;
  }

  /** What a read reports, in terms of the log. */
  lemma ReadExactly(w: World)
    ensures CurrentTask(w).Err? <==> w.live && !Accepted(w.service.log)
    ensures var task := CurrentOf(w.service.log);
            && (CurrentTask(w).Ok? && ActiveArmed(CurrentTask(w).value) <==>
                  w.live && w.service.armed && task.Some? && task.value.phase == Active)
            && (CurrentTask(w).Ok? && CurrentTask(w).value.Some? ==>
                  && task == Some(CurrentTask(w).value.value.task)
                  && CurrentTask(w).value.value.roundsStarted == Fold(w.service.log).value.roundsStarted)
  {
    if Accepted(w.service.log) { FoldWellFormed(w.service.log); }
    hide Fold, WellFormed;
  }

  lemma ValidExactly(w: World, content: Content, source: Source)
    requires IsRoundSource(source)
    ensures ValidReservation(w, content, source) == Ok(true) <==> Admissible(w, content, source)
    ensures ValidReservation(w, content, source).Err? <==> w.live && !Accepted(w.service.log)
  {
    if Accepted(w.service.log) { FoldWellFormed(w.service.log); }
    hide Fold, WellFormed;
  }

  /** The reservation of that very round. */
  predicate Own(attempt: Option<Attempt>, source: Source)
    requires source.RoundSource?
  {
    && attempt.Some? && attempt.value.taskId == source.taskId && attempt.value.revision == source.revision
    && attempt.value.round == source.round
  }

  /** Disarmed if the log cannot be read. */
  function Calmed(w: World): World {
    if w.live && !Accepted(w.service.log) then Disarm(w) else w
  }

  /**
   * A round turned away by the first half gives up its own reservation and no other; the second half gives up
   * whichever there is. Either way the driver is triggered, disarmed first if the log could not be read.
   */
  lemma TurnedAway(w: World, content: Content, source: Source, env: Env)
    requires IsRoundSource(source) && !Admissible(w, content, source)
    ensures FenceOpen(w, content, source, env).0 ==
            RequestDrive(Calmed(w).(attempt := if Own(w.attempt, source) then None else w.attempt), env.starts)
    ensures FenceClose(w, content, source, Enter, false, env).0 == RequestDrive(Calmed(w).(attempt := None), env.starts)
  {
    ValidExactly(w, content, source);
    CalmedReleases(w, source);
    hide *;
    RefusesUnfold(w, content, source, env);
  }

  lemma CalmedReleases(w: World, source: Source)
    requires source.RoundSource?
    ensures var failed := w.live && !Accepted(w.service.log);
            && Refused(w, source, failed) == Calmed(w).(attempt := if Own(w.attempt, source) then None else w.attempt)
            && Released(w, failed) == Calmed(w).(attempt := None)
  {
    hide Disarmed, Fold;
  }

  lemma RefusesUnfold(w: World, content: Content, source: Source, env: Env)
    requires IsRoundSource(source) && ValidReservation(w, content, source) != Ok(true)
    ensures var failed := ValidReservation(w, content, source).Err?;
            && FenceOpen(w, content, source, env).0 == RequestDrive(Refused(w, source, failed), env.starts)
            && FenceClose(w, content, source, Enter, false, env).0 == RequestDrive(Released(w, failed), env.starts)
  {
    hide ValidReservation, RequestDrive, Refused, Released, Fold;
  }

  /** A chain that threw or was aborted decides by itself: an abort leaves all as it is, a throw gives the reservation up. */
  lemma ChainDecides(w: World, content: Content, source: Source, decision: Decision, env: Env)
    requires IsRoundSource(source)
    ensures FenceClose(w, content, source, decision, true, env) ==
            (w, match decision case Threw => Rethrown case Enter => Entered case Reject => Rejected)
    ensures FenceClose(w, content, source, Threw, false, env) == (RequestDrive(w.(attempt := None), env.starts), Rethrown)
  {
    hide RequestDrive;
  }

  /**
   * A chain that rejects the round: the reservation is given up, and the task is blocked for it exactly if the
   * round's revision is still current, active and armed; a block that fails is thrown on.
   */
  lemma RejectBlocks(w: World, content: Content, source: Source, env: Env)
    requires IsRoundSource(source)
    ensures var (w', verdict) := FenceClose(w, content, source, Reject, false, env);
            var cleared := w.(attempt := None);
            var unmoved := w.live && w.service.armed && CurrentOf(w.service.log).Some? && CurrentOf(w.service.log).value.phase == Active
                           && Ref(CurrentOf(w.service.log).value.id, CurrentOf(w.service.log).value.revision) == Ref(source.taskId, source.revision);
            if w.live && !Accepted(w.service.log) then (w', verdict) == (cleared, Rethrown)
            else if unmoved then
              var (blocked, ok) := Submit(cleared, BlockTask(Ref(source.taskId, source.revision), PromptRejected()), env);
              (w', verdict) == (blocked, if ok then Rejected else Rethrown)
            else (w', verdict) == (cleared, Rejected)
  {
    if Accepted(w.service.log) { FoldWellFormed(w.service.log); }
    hide Submit, Fold, WellFormed;
  }

  // ----------------------------------------------------------------- what is queued

  /** The driver may queue: working, idle, and no other prompt is waiting. */
  predicate Quiet(w: World) {
    Working(w) && w.idle && !w.competingQueued
  }

  /**
   * What a drive's tail leaves reserved if nothing was: exactly if the task is active and armed with rounds left
   * and its message is taken, the next round under that message, queued and untouched.
   */
  lemma TailReserves(w: World, f: Followup, env: Env)
    requires w.attempt.None?
    ensures var due := w.live && w.service.armed && CurrentOf(w.service.log).Some? && CurrentOf(w.service.log).value.phase == Active
                       && Fold(w.service.log).value.roundsStarted < CurrentOf(w.service.log).value.maxRounds && f.thrown.None?;
            && (DriveTail(w, f, env).attempt.Some? <==> due)
            && (due ==>
                  var task := CurrentOf(w.service.log).value;
                  DriveTail(w, f, env) ==
                  w.(attempt := Some(Attempt(task.id, task.revision, Fold(w.service.log).value.roundsStarted + 1,
                                             f.messageId, f.content, AttemptPhase.Queued, false, false))))
  {
    ReadExactly(w);
    hide BlockOrDisarm, Fold, RoundLimit, QueueFailed, Disarmed, CurrentTask;
    var task := CurrentTask(w);
    if task.Ok? && ActiveArmed(task.value) {
      var view := task.value.value;
      BlockQueuesNothing(w, TaskRef(view.task), RoundLimit(view.task.maxRounds), env);
      BlockQueuesNothing(w, TaskRef(view.task), QueueFailed(view.roundsStarted + 1, f.thrown.GetOr("")), env);
    }
  }

  /** A message just queued for the round that is next, in a quiet world with no checkpoint due. */
  predicate FreshlyQueued(w: World) {
    && Quiet(w) && !w.needsCheckpoint && w.attempt.Some?
    && var a := w.attempt.value;
       && a.phase == AttemptPhase.Queued && !a.stale && !a.cancelled && a.round > 0
       && NextRoundOf(w, Ref(a.taskId, a.revision), a.round)
       && a.round <= CurrentOf(w.service.log).value.maxRounds
  }

  lemma TailQueuesFresh(w: World, f: Followup, env: Env)
    requires w.attempt.None? && DriveTail(w, f, env).attempt.Some? && Quiet(w) && !w.needsCheckpoint
    ensures FreshlyQueued(DriveTail(w, f, env))
  {
    TailReserves(w, f, env);
    FoldWellFormed(w.service.log);
    hide DriveTail, Fold;
  }

  /** Whatever step queues a round leaves it freshly queued. */
  lemma QueuesFresh(w: World, step: Step)
    requires SingleRun(w) && w.attempt.None? && Next(w, step).attempt.Some?
    ensures FreshlyQueued(Next(w, step))
  {
    if RunsDriver(step) {
      hide Submit, FenceOpen, FenceClose, OnIdle, Iterate, FlushSettled, Retire, FreshlyQueued;
      match step
      case Turn(i, f, env) => if i < |w.runs| && w.runs[i].Looping? { TurnQueuesFresh(w, i, f, env); }
      case Flushed(i, ok, f, env) => if i < |w.runs| && w.runs[i].AwaitingFlush? { FlushQueuesFresh(w, i, ok, f, env); }
      case Retired(i, env) => if i < |w.runs| { RetireKeepsAttempt(w, i, env); }
      case PreStepOpen(content, source, env) => FenceOpenQueuesNothing(w, content, source, env);
      case PreStepClose(content, source, decision, aborted, env) =>
        FenceCloseQueuesNothing(w, content, source, decision, aborted, env);
      case Mutation(q, env) => BlocksKeepAttempt(w, q, true, env);
      case Idle(env) => IdleQueuesNothing(w, env);
    } else {
      hide Next, FreshlyQueued;
      OutsideQueuesNothing(w, step);
    }
  }

  lemma OutsideQueuesNothing(w: World, step: Step)
    requires !RunsDriver(step) && w.attempt.None?
    ensures Next(w, step).attempt.None?
  {
    hide OnInserted, OnClaimed, OnDiscarded, OnAppended, OnTurnEnd, OnUnload, OnSessionStart, Disarm;
    match step
    case Inserted(inNextTurn, content, source) => HandlersQueueNothing(w, inNextTurn, content, source, OtherEvent, OtherEnd, []);
    case ClaimedMessage(content, source) => HandlersQueueNothing(w, false, content, source, OtherEvent, OtherEnd, []);
    case DiscardedMessage(content, source) => HandlersQueueNothing(w, false, content, source, OtherEvent, OtherEnd, []);
    case Appended(event) => HandlersQueueNothing(w, false, "", OtherSource, event, OtherEnd, []);
    case TurnEnded(reason) => HandlersQueueNothing(w, false, "", OtherSource, OtherEvent, reason, []);
    case SessionStart(log) => HandlersQueueNothing(w, false, "", OtherSource, OtherEvent, OtherEnd, log);
    case _ => HandlersQueueNothing(w, false, "", OtherSource, OtherEvent, OtherEnd, []);
  }

  lemma HandlersQueueNothing(w: World, inNextTurn: bool, content: Content, source: Source, event: Event, reason: TurnEnd, log: seq<Event>)
    requires w.attempt.None?
    ensures OnInserted(w, inNextTurn, content, source).attempt.None?
    ensures OnClaimed(w, content, source).attempt.None? && OnDiscarded(w, content, source).attempt.None?
    ensures OnAppended(w, event).attempt.None? && OnTurnEnd(w, reason).attempt.None? && OnUnload(w).attempt.None?
    ensures Disarm(w).attempt.None? && OnSessionStart(w, log).attempt.None?
  {
    hide Disarmed, Tasks.Foreign, Tasks.Start, SameQueued;
  }

  lemma TurnQueuesFresh(w: World, i: nat, f: Followup, env: Env)
    requires i < |w.runs| && w.runs[i].Looping? && w.attempt.None? && Iterate(w, i, f, env).attempt.Some?
    ensures FreshlyQueued(Iterate(w, i, f, env))
  {
    hide DriveTail, FreshlyQueued;
    TailQueuesFresh(w.(requested := false), f, env);
  }

  lemma FlushQueuesFresh(w: World, i: nat, ok: bool, f: Followup, env: Env)
    requires i < |w.runs| && w.runs[i].AwaitingFlush? && w.attempt.None? && FlushSettled(w, i, ok, f, env).attempt.Some?
    ensures FreshlyQueued(FlushSettled(w, i, ok, f, env))
  {
    hide DriveTail, Disarmed, FreshlyQueued;
    TailQueuesFresh(SetRun(w, i, Looping).(durable := if w.runs[i].began > w.durable then w.runs[i].began else w.durable), f, env);
  }

  function SourceOf(a: Attempt): Source {
    RoundSource(a.taskId, a.revision, a.round)
  }

  function AfterClaim(w: World): World
    requires w.attempt.Some?
  {
    Next(w, ClaimedMessage(w.attempt.value.content, SourceOf(w.attempt.value)))
  }

  /** The reserved round, claimed now, passes the fence and enters, both times changing nothing. */
  predicate Enters(w: World, env: Env)
    requires w.attempt.Some? && w.attempt.value.round > 0
  {
    var a := w.attempt.value;
    && FenceOpen(AfterClaim(w), a.content, SourceOf(a), env) == (AfterClaim(w), Passed)
    && FenceClose(AfterClaim(w), a.content, SourceOf(a), Enter, false, env) == (AfterClaim(w), Entered)
  }

  /** The reserved round, claimed after that prompt was queued, is refused by both halves, and given up. */
  predicate RefusedAfter(w: World, content: Content, source: Source, env: Env)
    requires w.attempt.Some? && w.attempt.value.round > 0
  {
    var a := w.attempt.value;
    var late := Next(Next(w, Inserted(true, content, source)), ClaimedMessage(a.content, SourceOf(a)));
    && FenceOpen(late, a.content, SourceOf(a), env).1 == Rejected
    && FenceOpen(late, a.content, SourceOf(a), env).0.attempt.None?
    && FenceClose(late, a.content, SourceOf(a), Enter, false, env).1 == Rejected
  }

  lemma ClaimedEnters(w: World, env: Env)
    requires FreshlyQueued(w)
    ensures Enters(w, env)
  {
    hide Fold, FenceOpen, FenceClose;
    FenceExactly(AfterClaim(w), w.attempt.value.content, SourceOf(w.attempt.value), env);
  }

  lemma CompetitorRefuses(w: World, content: Content, source: Source, env: Env)
    requires FreshlyQueued(w) && !SameQueued(content, source, w.attempt.value)
    ensures RefusedAfter(w, content, source, env)
  {
    hide Fold, FenceOpen, FenceClose, RequestDrive, Disarmed, NextRoundOf;
    var a := w.attempt.value;
    var late := Next(Next(w, Inserted(true, content, source)), ClaimedMessage(a.content, SourceOf(a)));
    FenceExactly(late, a.content, SourceOf(a), env);
    TurnedAway(late, a.content, SourceOf(a), env);
    RequestKeepsAttempt(Calmed(late).(attempt := None), env.starts);
  }

  /**
   * Over every run: a round that a step queues, claimed with nothing in between, passes the fence and enters;
   * claimed after a competing prompt it is refused.
   */
  lemma QueuedRoundEnters(log: seq<Event>, defaultMaxRounds: int, steps: seq<Step>, step: Step, env: Env,
                          content: Content, source: Source)
    requires Queues(Run(Initial(log, defaultMaxRounds), steps).attempt, Run(Initial(log, defaultMaxRounds), steps + [step]).attempt)
    ensures var w := Run(Initial(log, defaultMaxRounds), steps + [step]);
            && w.attempt.Some? && w.attempt.value.round > 0 && Enters(w, env)
            && (!SameQueued(content, source, w.attempt.value) ==> RefusedAfter(w, content, source, env))
  {
    var before := Run(Initial(log, defaultMaxRounds), steps);
    Reachable(log, defaultMaxRounds, steps);
    hide *;
    RunSnoc(Initial(log, defaultMaxRounds), steps, step);
    QueuedEnters(before, step, env, content, source);
  }

  lemma QueuedEnters(w: World, step: Step, env: Env, content: Content, source: Source)
    requires Inv(w) && Queues(w.attempt, Next(w, step).attempt)
    ensures var w' := Next(w, step);
            && w'.attempt.Some? && w'.attempt.value.round > 0 && Enters(w', env)
            && (!SameQueued(content, source, w'.attempt.value) ==> RefusedAfter(w', content, source, env))
  {
    InvIsSingle(w);
    QueuesReplaceNone(w, step);
    QueuesFresh(w, step);
    var w' := Next(w, step);
    hide Next, Enters, RefusedAfter, NextRoundOf, CurrentOf, Fold, Inv;
    ClaimedEnters(w', env);
    if !SameQueued(content, source, w'.attempt.value) { CompetitorRefuses(w', content, source, env); }
  }

  lemma RunSnoc(w: World, steps: seq<Step>, step: Step)
    ensures Run(w, steps + [step]) == Next(Run(w, steps), step)
  {
    hide Next;
    assert (steps + [step])[..|steps|] == steps;
  }

  lemma QueuesReplaceNone(w: World, step: Step)
    requires Queues(w.attempt, Next(w, step).attempt)
    ensures w.attempt.None? && Next(w, step).attempt.Some?
  {
    hide Next;
    ReservationReplacesNone(w, step);
  }

  lemma InvIsSingle(w: World)
    requires Inv(w)
    ensures SingleRun(w)
  {
  }
}
