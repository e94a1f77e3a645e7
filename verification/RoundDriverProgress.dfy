/**
 * That the driver moves on: no trigger is lost, an admitted round leads to the next one, an exhausted or
 * interrupted task is blocked or paused; and exactly which steps mark or drop the reservation.
 */
module RoundDriverProgress {
  import opened Wrappers
  import opened LongTaskTypes
  import opened LongTaskFold
  import opened LongTaskLog
  import opened LongTaskRequests
  import opened RoundDriverModel
  import opened RoundDriverSafety
  import opened RoundDriverAdmission
  import Inputs = LongTaskInputs
  import Tasks = LongTaskServiceModel
  import Text

  // ------------------------------------------------------------------- triggers

  /** A trigger is taken up: a run is stored to serve it, or the agent was disarmed because none could be started. */
  lemma TriggerTakenUp(w: World, starts: bool)
    requires Inv(w)
    ensures var w' := RequestDrive(w, starts);
            if w.stopping then w' == w
            else
              && w'.requested
              && (if w.runStored then w' == w.(requested := true)
                  else if starts then w' == w.(requested := true, runStored := true, runs := [Looping])
                  else !w'.runStored && w'.runs == [] && Stopped(w'))
  {
    hide Disarmed, Reserved, Checkpointed, FlushWithinLog, Tasks.ArmedImpliesActive;
    if w.live { DisarmedIsUnarmed(w.service, w.live); }
  }

  /** A pending trigger of an armed live agent has a run to serve it. */
  predicate NoneLost(w: World) {
    w.requested && !w.stopping && w.live && w.service.armed ==> w.runStored
  }

  /** What may raise or use up a trigger: nothing but what is named makes a service armed or a run forgotten. */
  predicate Calmer(w: World, w': World) {
    && (w'.service.armed ==> w.service.armed) && (w'.live ==> w.live) && (w.stopping ==> w'.stopping)
    && (w.runStored ==> w'.runStored) && (w'.requested ==> w.requested)
  }

  lemma CalmerKeeps(w: World, w': World)
    requires NoneLost(w) && Calmer(w, w')
    ensures NoneLost(w')
  {
  }

  lemma DisarmCalms(w: World)
    ensures Calmer(w, Disarm(w))
  {
  }

  lemma RequestServes(w: World, starts: bool)
    requires Inv(w)
    ensures NoneLost(RequestDrive(w, starts))
  {
    hide Disarmed, Inv;
    TriggerTakenUp(w, starts);
  }

  lemma SubmitServes(w: World, q: Request, env: Env)
    requires Inv(w) && NoneLost(w)
    ensures NoneLost(Submit(w, q, env).0)
  {
    hide Tasks.Submit, Inv, RequestDrive;
    var reply := Tasks.Submit(w.service, w.live, q, env.now, env.at, w.defaultMaxRounds);
    SubmitExtends(w.service, w.live, q, env.now, env.at, w.defaultMaxRounds);
    if reply.announced { AnnouncedServes(w, q, env); }
  }

  lemma AnnouncedServes(w: World, q: Request, env: Env)
    requires Inv(w) && Tasks.Submit(w.service, w.live, q, env.now, env.at, w.defaultMaxRounds).announced
    ensures NoneLost(Submit(w, q, env).0)
  {
    hide Tasks.Submit, Tasks.ArmedImpliesActive, Reserved, RequestDrive, NewestChange;
    var reply := Tasks.Submit(w.service, w.live, q, env.now, env.at, w.defaultMaxRounds);
    SubmitExtends(w.service, w.live, q, env.now, env.at, w.defaultMaxRounds);
    Tasks.SubmitKeepsArmedActive(w.service, w.live, q, env.now, env.at, w.defaultMaxRounds);
    ReservedGrows(w.service.log, reply.service.log, w.attempt);
    RequestServes(w.(service := reply.service, needsCheckpoint := true), env.starts);
  }

  lemma BlockServes(w: World, ref: Ref, reason: BlockReason, env: Env)
    requires Inv(w) && NoneLost(w)
    ensures NoneLost(BlockOrDisarm(w, ref, reason, env))
  {
    hide Inv, Submit, Disarm, NoneLost, Calmer;
    SubmitServes(w, BlockTask(ref, reason), env);
    DisarmServes(Submit(w, BlockTask(ref, reason), env).0);
  }

  lemma DisarmServes(w: World)
    requires NoneLost(w)
    ensures NoneLost(Disarm(w))
  {
    hide Disarm;
    DisarmCalms(w);
  }

  lemma TailServes(w: World, f: Followup, env: Env)
    requires Inv(w) && NoneLost(w) && w.runStored
    ensures NoneLost(DriveTail(w, f, env))
  {
    hide Inv, CurrentTask, BlockOrDisarm, Disarm, RoundLimit, QueueFailed;
    DisarmServes(w);
    var task := CurrentTask(w);
    if task.Ok? && ActiveArmed(task.value) {
      var view := task.value.value;
      BlockServes(w, TaskRef(view.task), RoundLimit(view.task.maxRounds), env);
      BlockServes(w, TaskRef(view.task), QueueFailed(view.roundsStarted + 1, f.thrown.GetOr("")), env);
    }
  }

  lemma TurnServes(w: World, i: nat, f: Followup, env: Env)
    requires Inv(w) && NoneLost(w) && i < |w.runs|
    ensures w.runs[i].Looping? ==> NoneLost(Iterate(w, i, f, env))
  {
    hide Reserved, Tasks.ArmedImpliesActive, DriveTail;
    var w' := w.(requested := false);
    if w.runs[i].Looping? && w.requested && !w.stopping && ReadyToDrive(w') && !w'.needsCheckpoint { TailServes(w', f, env); }
  }

  lemma FlushServes(w: World, i: nat, ok: bool, f: Followup, env: Env)
    requires Inv(w) && NoneLost(w) && i < |w.runs| && w.runs[i].AwaitingFlush?
    ensures NoneLost(FlushSettled(w, i, ok, f, env))
  {
    var settled := SetRun(w, i, Looping);
    var flushed := settled.(durable := if w.runs[i].began > w.durable then w.runs[i].began else w.durable);
    FlushedKeeps(w, i);
    hide Inv, Sound, DriveTail, Disarm;
    DisarmServes(settled);
    StoredRun(w, i);
    TailServes(flushed, f, env);
  }

  lemma StoredRun(w: World, i: nat)
    requires Inv(w) && i < |w.runs|
    ensures w.runStored
  {
  }

  lemma RetireServes(w: World, i: nat, env: Env)
    requires Inv(w) && NoneLost(w) && i < |w.runs| && w.runs[i].Finished?
    ensures NoneLost(Retire(w, i, env))
  {
    hide Reserved, Tasks.ArmedImpliesActive, RequestDrive;
    RequestServes(w.(runs := w.runs[..i] + w.runs[i + 1..], runStored := false), env.starts);
  }

  lemma FenceServes(w: World, content: Content, source: Source, decision: Decision, aborted: bool, env: Env)
    requires Inv(w) && NoneLost(w) && IsRoundSource(source)
    ensures NoneLost(FenceOpen(w, content, source, env).0)
    ensures NoneLost(FenceClose(w, content, source, decision, aborted, env).0)
  {
    hide Inv, RequestDrive, Refused, Released, ValidReservation, FenceRejected;
    var failed := ValidReservation(w, content, source).Err?;
    RefusedKeeps(w, source, failed);
    ReleasedKeeps(w, failed);
    ForgetKeeps(w);
    RequestServes(Refused(w, source, failed), env.starts);
    RequestServes(Released(w, failed), env.starts);
    RequestServes(w.(attempt := None), env.starts);
    RejectServes(w, source, env);
  }

  lemma RejectServes(w: World, source: Source, env: Env)
    requires Inv(w) && NoneLost(w) && IsRoundSource(source)
    ensures NoneLost(FenceRejected(w, source, env).0)
  {
    hide Inv, Submit, CurrentTask;
    ForgetKeeps(w);
    var cleared := w.(attempt := None);
    var view := CurrentTask(cleared);
    if view.Ok? && view.value.Some? { SubmitServes(cleared, BlockTask(TaskRef(view.value.value.task), PromptRejected()), env); }
  }

  lemma IdleServes(w: World, env: Env)
    requires Inv(w) && NoneLost(w)
    ensures NoneLost(OnIdle(w, env))
  {
    IdleIsInert(w);
    hide Inv, CurrentTask, PauseInterrupted, RequestDrive;
    var started := w.(idle := true, competingQueued := false);
    RequestServes(started, env.starts);
    var view := CurrentTask(started);
    if view.Ok? && view.value.Some? {
      var ref := TaskRef(view.value.value.task);
      PauseKeeps(started, ref, env);
      RequestServes(PauseInterrupted(started, ref, env), env.starts);
    }
  }

  lemma RestServes(w: World, step: Step)
    requires NoneLost(w) && !RunsDriver(step)
    ensures NoneLost(Next(w, step))
  {
    hide Disarm, OnInserted, OnClaimed, OnDiscarded, OnAppended, OnTurnEnd, OnUnload, OnSessionStart, NoneLost, Calmer;
    DisarmServes(w);
    match step
    case Inserted(inNextTurn, content, source) => InboxServes(w, inNextTurn, content, source);
    case ClaimedMessage(content, source) => InboxServes(w, false, content, source);
    case DiscardedMessage(content, source) => InboxServes(w, false, content, source);
    case Appended(event) => AppendServes(w, event);
    case TurnEnded(reason) => EndServes(w, reason, []);
    case Unload => EndServes(w, OtherEnd, []);
    case SessionStart(log) => EndServes(w, OtherEnd, log);
    case _ => QuietServes(w);
  }

  lemma InboxServes(w: World, inNextTurn: bool, content: Content, source: Source)
    requires NoneLost(w)
    ensures NoneLost(OnInserted(w, inNextTurn, content, source))
    ensures NoneLost(OnClaimed(w, content, source)) && NoneLost(OnDiscarded(w, content, source))
  {
    hide SameQueued;
  }

  lemma AppendServes(w: World, event: Event)
    requires NoneLost(w)
    ensures NoneLost(OnAppended(w, event))
  {
    hide Fold;
  }

  lemma EndServes(w: World, reason: TurnEnd, log: seq<Event>)
    requires NoneLost(w)
    ensures NoneLost(OnTurnEnd(w, reason)) && NoneLost(OnUnload(w)) && NoneLost(OnSessionStart(w, log))
  {
    DisarmCalms(w);
    hide Disarmed;
  }

  lemma QuietServes(w: World)
    requires NoneLost(w)
    ensures NoneLost(w.(idle := false)) && NoneLost(w.(live := false)) && NoneLost(w.(mounted := true)) && NoneLost(w.(mounted := false))
  {
  }

  lemma StepServes(w: World, step: Step)
    requires Inv(w) && NoneLost(w)
    ensures NoneLost(Next(w, step))
  {
    hide Inv, NoneLost, Iterate, FlushSettled, Retire, FenceOpen, FenceClose, Submit, OnIdle, IsRoundSource;
    match step
    case Turn(i, f, env) => if i < |w.runs| { TurnServes(w, i, f, env); }
    case Flushed(i, ok, f, env) => if i < |w.runs| && w.runs[i].AwaitingFlush? { FlushServes(w, i, ok, f, env); }
    case Retired(i, env) => if i < |w.runs| && w.runs[i].Finished? { RetireServes(w, i, env); }
    case PreStepOpen(content, source, env) => if IsRoundSource(source) { FenceServes(w, content, source, Enter, false, env); }
    case PreStepClose(content, source, decision, aborted, env) =>
      if IsRoundSource(source) { FenceServes(w, content, source, decision, aborted, env); }
    case Mutation(q, env) => SubmitServes(w, q, env);
    case Idle(env) => IdleServes(w, env);
    case _ => RestServes(w, step);
  }

  /** Over every run no trigger is lost: while one is pending for an armed live agent, a stored run will serve it. */
  lemma {:induction false} NoTriggerLost(log: seq<Event>, defaultMaxRounds: int, steps: seq<Step>)
    ensures NoneLost(Run(Initial(log, defaultMaxRounds), steps))
  {
    if steps != [] {
      hide Next, Inv;
      NoTriggerLost(log, defaultMaxRounds, steps[..|steps| - 1]);
      Reachable(log, defaultMaxRounds, steps[..|steps| - 1]);
      StepServes(Run(Initial(log, defaultMaxRounds), steps[..|steps| - 1]), steps[|steps| - 1]);
    }
  }

  /**
   * How a stored run serves: with no trigger pending, or when unloading, it ends; otherwise it uses the trigger up,
   * and in a quiet world it awaits a flush of the log as it is if a checkpoint is due, and else goes on to the tail.
   */
  lemma TurnExactly(w: World, f: Followup, env: Env)
    requires w.runs == [Looping]
    ensures var used := w.(requested := false);
            Next(w, Turn(0, f, env)) ==
            if !w.requested || w.stopping then w.(runs := [Finished])
            else if !Quiet(w) then used
            else if w.needsCheckpoint then used.(needsCheckpoint := false, runs := [AwaitingFlush(|w.service.log|)])
            else DriveTail(used, f, env)
  {
    hide DriveTail;
  }

  /** A flush that fails disarms; one that succeeds goes on to the tail if the world is still quiet and no checkpoint is due again. */
  lemma FlushExactly(w: World, ok: bool, f: Followup, env: Env)
    requires |w.runs| == 1 && w.runs[0].AwaitingFlush?
    ensures var settled := w.(runs := [Looping]);
            var flushed := settled.(durable := if w.runs[0].began > w.durable then w.runs[0].began else w.durable);
            Next(w, Flushed(0, ok, f, env)) ==
            if !ok then Disarm(settled)
            else if Quiet(w) && !w.needsCheckpoint then DriveTail(flushed, f, env)
            else flushed
  {
    hide DriveTail, Disarmed;
    assert w.runs[0 := Looping] == [Looping];
  }

  // ------------------------------------------------------------ round after round

  /** A round just queued by the stored run, with nothing else pending. */
  predicate AtRest(w: World) {
    FreshlyQueued(w) && w.runs == [Looping] && w.runStored && !w.requested
  }

  function MessageOf(a: Attempt): Event {
    MessageEvent(Message(a.messageId, a.content, SourceOf(a)))
  }

  /** The life of a round that nothing disturbs, from its being queued to the turn its successor is queued in. */
  function Undisturbed(a: Attempt, f: Followup, env: Env): seq<Step> {
    [Turn(0, f, env), Retired(0, env), Running, ClaimedMessage(a.content, SourceOf(a)),
     PreStepOpen(a.content, SourceOf(a), env), PreStepClose(a.content, SourceOf(a), Enter, false, env),
     Appended(MessageOf(a)), Idle(env), Turn(0, f, env), Turn(0, f, env)]
  }

  /** The message of an entered round is taken by the replay: one round more, the activation as it was. */
  lemma MessageTaken(w: World)
    requires FreshlyQueued(w)
    ensures var a, sv := w.attempt.value, w.service;
            var s := Fold(sv.log).value;
            && Fold(sv.log + [MessageOf(a)]) == Ok(s.(roundsStarted := a.round))
            && Tasks.Foreign(sv, MessageOf(a)) == Tasks.Service(sv.log + [MessageOf(a)], true)
  {
    var a, log := w.attempt.value, w.service.log;
    FoldSnoc(log, MessageOf(a));
    FoldWellFormed(log);
    hide Fold;
  }

  /** From queued to admitted: the run ends, the round is claimed, enters, and its message is appended. */
  lemma RoundIsAdmitted(w: World, f: Followup, env: Env)
    requires AtRest(w)
    ensures var a := w.attempt.value;
            Run(w, Undisturbed(a, f, env)[..7]) ==
            w.(runs := [], runStored := false, idle := false,
               attempt := Some(a.(phase := AttemptPhase.Admitted)),
               service := Tasks.Service(w.service.log + [MessageOf(a)], true))
  {
    var a, steps := w.attempt.value, Undisturbed(w.attempt.value, f, env);
    var w1, w2 := w.(runs := [Finished]), w.(runs := [], runStored := false);
    var w3 := w2.(idle := false);
    var w4 := w3.(attempt := Some(a.(phase := AttemptPhase.Claimed)));
    ClaimAtRest(w, env);
    TurnExactly(w, f, env);
    RetireQuietly(w1, env);
    Claims(w, w2);
    AppendsOwn(w, w4);
    UndisturbedIs(a, f, env);
    RestsIdle(w);
    hide *;
    RunSeven(w, steps[..7], w1, w2, w3, w4);
  }

  lemma RestsIdle(w: World)
    requires AtRest(w)
    ensures w.runs == [Looping] && !w.requested
  {
  }

  lemma UndisturbedIs(a: Attempt, f: Followup, env: Env)
    ensures var steps := Undisturbed(a, f, env);
            && |steps| == 10 && steps[0] == Turn(0, f, env) && steps[1] == Retired(0, env) && steps[2] == Running
            && steps[3] == ClaimedMessage(a.content, SourceOf(a)) && steps[4] == PreStepOpen(a.content, SourceOf(a), env)
            && steps[5] == PreStepClose(a.content, SourceOf(a), Enter, false, env) && steps[6] == Appended(MessageOf(a))
  {
  }

  lemma Claims(w: World, resting: World)
    requires AtRest(w) && resting == w.(runs := [], runStored := false)
    ensures var a := w.attempt.value;
            var running := resting.(idle := false);
            && Next(resting, Running) == running
            && Next(running, ClaimedMessage(a.content, SourceOf(a))) == running.(attempt := Some(a.(phase := AttemptPhase.Claimed)))
  {
    hide Fold, NextRoundOf, CurrentOf;
  }

  lemma AppendsOwn(w: World, claimed: World)
    requires AtRest(w)
    requires claimed == w.(runs := [], runStored := false, idle := false, attempt := Some(w.attempt.value.(phase := AttemptPhase.Claimed)))
    ensures var a := w.attempt.value;
            Next(claimed, Appended(MessageOf(a))) ==
            claimed.(attempt := Some(a.(phase := AttemptPhase.Admitted)), service := Tasks.Service(w.service.log + [MessageOf(a)], true))
  {
    MessageTaken(w);
    hide Fold, Tasks.Foreign, NextRoundOf, CurrentOf;
  }

  lemma ClaimAtRest(w: World, env: Env)
    requires AtRest(w)
    ensures var a := w.attempt.value;
            var claimed := w.(runs := [], runStored := false, idle := false, attempt := Some(a.(phase := AttemptPhase.Claimed)));
            && w.live && IsRoundSource(SourceOf(a)) && SameQueued(a.content, SourceOf(a), a)
            && Next(claimed, PreStepOpen(a.content, SourceOf(a), env)) == claimed
            && Next(claimed, PreStepClose(a.content, SourceOf(a), Enter, false, env)) == claimed
  {
    var a := w.attempt.value;
    var claimed := w.(runs := [], runStored := false, idle := false, attempt := Some(a.(phase := AttemptPhase.Claimed)));
    FenceExactly(claimed, a.content, SourceOf(a), env);
    hide FenceOpen, FenceClose, Fold;
  }

  lemma RetireQuietly(w: World, env: Env)
    requires w.runs == [Finished] && !w.requested
    ensures Next(w, Retired(0, env)) == w.(runs := [], runStored := false)
  {
    assert w.runs[..0] + w.runs[1..] == [];
  }

  lemma RunSeven(w: World, steps: seq<Step>, w1: World, w2: World, w3: World, w4: World)
    requires |steps| == 7
    requires Next(w, steps[0]) == w1 && Next(w1, steps[1]) == w2 && Next(w2, steps[2]) == w3 && Next(w3, steps[3]) == w4
    requires Next(w4, steps[4]) == w4 && Next(w4, steps[5]) == w4
    ensures Run(w, steps) == Next(w4, steps[6])
  {
    hide Next;
    RunFirst(w, steps);
    RunFirst(w1, steps[1..]);
    RunFirst(w2, steps[2..]);
    RunFirst(w3, steps[3..]);
    RunFirst(w4, steps[4..]);
    RunFirst(w4, steps[5..]);
    RunFirst(w4, steps[6..]);
    RunNothing(Next(w4, steps[6]), steps[7..]);
    assert steps[1..][1..] == steps[2..] && steps[2..][1..] == steps[3..] && steps[3..][1..] == steps[4..];
    assert steps[4..][1..] == steps[5..] && steps[5..][1..] == steps[6..] && steps[6..][1..] == steps[7..];
  }

  lemma RunNothing(w: World, steps: seq<Step>)
    requires steps == []
    ensures Run(w, steps) == w
  {
  }

  /** A run taken from its first step on. */
  lemma {:induction false} RunFirst(w: World, steps: seq<Step>)
    requires steps != []
    ensures Run(w, steps) == Run(Next(w, steps[0]), steps[1..])
    decreases |steps|
  {
    hide Next;
    if |steps| == 1 {
      assert steps[..0] == [];
    } else {
      var before := steps[..|steps| - 1];
      RunFirst(w, before);
      assert before[1..] == steps[1..][..|steps| - 2];
    }
  }

  /** From admitted to the awaited flush: going idle starts a run, which processes the round and then makes a checkpoint. */
  lemma AdmittedIsProcessed(w: World, f: Followup, env: Env)
    requires Quiet(w.(idle := true)) && !w.needsCheckpoint && w.runs == [] && !w.runStored && env.starts
    requires w.attempt.Some? && w.attempt.value.phase == AttemptPhase.Admitted && !w.attempt.value.cancelled
    requires Accepted(w.service.log)
    ensures Next(Next(Next(w, Idle(env)), Turn(0, f, env)), Turn(0, f, env)) ==
            w.(idle := true, attempt := None, requested := false, runStored := true, needsCheckpoint := false,
               runs := [AwaitingFlush(|w.service.log|)])
  {
    var started := w.(idle := true, requested := true, runStored := true, runs := [Looping]);
    FoldWellFormed(w.service.log);
    hide Fold, Iterate;
    assert Next(w, Idle(env)) == started;
    TurnExactly(started, f, env);
    var processed := started.(attempt := None, needsCheckpoint := true, requested := true);
    assert Next(started, Turn(0, f, env)) == processed;
    TurnExactly(processed, f, env);
  }

  /**
   * Round after round: if nothing disturbs a queued round, its message is appended and counted, and once the
   * following checkpoint succeeds the next round is queued, again at rest, as long as rounds are left and its
   * message is taken; after the last one nothing more is queued.
   */
  lemma RoundAfterRound(w: World, f: Followup, env: Env, g: Followup, env': Env)
    requires AtRest(w) && env.starts && g.thrown.None?
    ensures var a := w.attempt.value;
            var w' := Next(Run(w, Undisturbed(a, f, env)), Flushed(0, true, g, env'));
            if a.round < CurrentOf(w.service.log).value.maxRounds then
              && w'.service == Tasks.Service(w.service.log + [MessageOf(a)], true)
              && AtRest(w')
              && w'.attempt == Some(a.(round := a.round + 1, messageId := g.messageId, content := g.content))
            else w'.attempt.None?
  {
    var a, steps := w.attempt.value, Undisturbed(w.attempt.value, f, env);
    var log := w.service.log + [MessageOf(a)];
    var admitted := w.(runs := [], runStored := false, idle := false, attempt := Some(a.(phase := AttemptPhase.Admitted)),
                       service := Tasks.Service(log, true));
    var flushing := w.(attempt := None, service := Tasks.Service(log, true), runs := [AwaitingFlush(|log|)]);
    MessageTaken(w);
    hide Fold, Next;
    RoundIsAdmitted(w, f, env);
    AdmittedIsProcessed(admitted, f, env);
    LastThree(w, steps, admitted);
    assert Run(w, steps) == flushing;
    FlushExactly(flushing, true, g, env');
    hide FreshlyQueued, AtRest;
    QueuesAgain(w, flushing, g, env', if |log| > w.durable then |log| else w.durable);
  }

  lemma LastThree(w: World, steps: seq<Step>, admitted: World)
    requires |steps| == 10 && Run(w, steps[..7]) == admitted
    ensures Run(w, steps) == Next(Next(Next(admitted, steps[7]), steps[8]), steps[9])
  {
    hide Next;
    assert steps[..10] == steps && steps[..10][..9] == steps[..9] && steps[..9][..8] == steps[..8] && steps[..8][..7] == steps[..7];
    assert Run(w, steps[..8]) == Next(Run(w, steps[..7]), steps[7]);
    assert Run(w, steps[..9]) == Next(Run(w, steps[..8]), steps[8]);
  }

  lemma QueuesAgain(w: World, flushing: World, g: Followup, env: Env, durable: nat)
    requires AtRest(w) && g.thrown.None? && |flushing.runs| == 1
    requires flushing == w.(attempt := None, service := Tasks.Service(w.service.log + [MessageOf(w.attempt.value)], true), runs := flushing.runs)
    ensures var a := w.attempt.value;
            var flushed := flushing.(runs := [Looping], durable := durable);
            var w' := DriveTail(flushed, g, env);
            if a.round < CurrentOf(w.service.log).value.maxRounds then
              && w'.service == flushing.service && AtRest(w')
              && w'.attempt == Some(a.(round := a.round + 1, messageId := g.messageId, content := g.content))
            else w'.attempt.None?
  {
    MessageTaken(w);
    var flushed := flushing.(runs := [Looping], durable := durable);
    TailReserves(flushed, g, env);
    hide Fold, DriveTail;
  }

  // --------------------------------------------------- the reservation, step by step

  /** The agent's task is readable, active and armed. */
  predicate Continuing(w: World) {
    w.live && w.service.armed && CurrentOf(w.service.log).Some? && CurrentOf(w.service.log).value.phase == Active
  }

  /** The reserved round never became admitted work, or was cancelled. */
  predicate Broken(a: Attempt) {
    a.phase != AttemptPhase.Admitted || a.cancelled
  }

  /**
   * Exactly which steps drop the reservation: a drive that processes it, the fence when it refuses that round or
   * the chain does not let it in, going idle with it broken on a running task, and a session start.
   */
  predicate Drops(w: World, step: Step)
    requires w.attempt.Some?
  {
    match step
    case Turn(i, _, _) => i < |w.runs| && w.runs[i].Looping? && w.requested && Quiet(w) && !w.needsCheckpoint
    case Flushed(i, ok, _, _) => i < |w.runs| && w.runs[i].AwaitingFlush? && ok && Quiet(w) && !w.needsCheckpoint
    case PreStepOpen(content, source, _) => IsRoundSource(source) && !Admissible(w, content, source) && Own(w.attempt, source)
    case PreStepClose(content, source, decision, aborted, _) =>
      IsRoundSource(source) && !aborted && (decision != Enter || !Admissible(w, content, source))
    case Idle(_) => Broken(w.attempt.value) && Continuing(w)
    case SessionStart(_) => true
    case _ => false
  }

  lemma DropsExactly(w: World, step: Step)
    requires w.attempt.Some?
    ensures Next(w, step).attempt.None? <==> Drops(w, step)
  {
    if RunsDriver(step) {
      hide Iterate, FlushSettled, Retire, FenceOpen, FenceClose, Submit, OnIdle, Admissible, Own, Quiet, Continuing;
      match step
      case Turn(i, f, env) => if i < |w.runs| && w.runs[i].Looping? { TurnDrops(w, i, f, env); }
      case Flushed(i, ok, f, env) => if i < |w.runs| && w.runs[i].AwaitingFlush? { FlushDrops(w, i, ok, f, env); }
      case PreStepOpen(content, source, env) => if IsRoundSource(source) { OpenDrops(w, content, source, env); }
      case PreStepClose(content, source, decision, aborted, env) =>
        if IsRoundSource(source) { CloseDrops(w, content, source, decision, aborted, env); }
      case Mutation(q, env) => BlocksKeepAttempt(w, q, true, env);
      case Idle(env) => IdleDrops(w, env);
      case Retired(i, env) => if i < |w.runs| { RetireKeepsAttempt(w, i, env); }
    } else {
      hide Next;
      OutsideDrops(w, step);
    }
  }

  lemma OutsideDrops(w: World, step: Step)
    requires !RunsDriver(step) && w.attempt.Some?
    ensures Next(w, step).attempt.None? <==> step.SessionStart?
  {
    hide OnInserted, OnClaimed, OnDiscarded, OnAppended, OnTurnEnd, OnUnload, OnSessionStart, Disarm;
    match step
    case Inserted(inNextTurn, content, source) => InboxDropsNothing(w, inNextTurn, content, source);
    case ClaimedMessage(content, source) => InboxDropsNothing(w, false, content, source);
    case DiscardedMessage(content, source) => InboxDropsNothing(w, false, content, source);
    case Appended(event) => EndDropsNothing(w, event, OtherEnd, []);
    case TurnEnded(reason) => EndDropsNothing(w, OtherEvent, reason, []);
    case SessionStart(log) => EndDropsNothing(w, OtherEvent, OtherEnd, log);
    case _ => EndDropsNothing(w, OtherEvent, OtherEnd, []);
  }

  lemma InboxDropsNothing(w: World, inNextTurn: bool, content: Content, source: Source)
    requires w.attempt.Some?
    ensures OnInserted(w, inNextTurn, content, source).attempt.Some?
    ensures OnClaimed(w, content, source).attempt.Some? && OnDiscarded(w, content, source).attempt.Some?
  {
    hide SameQueued;
  }

  lemma EndDropsNothing(w: World, event: Event, reason: TurnEnd, log: seq<Event>)
    requires w.attempt.Some?
    ensures OnAppended(w, event).attempt.Some? && OnTurnEnd(w, reason).attempt.Some? && OnUnload(w).attempt.Some?
    ensures Disarm(w).attempt.Some? && OnSessionStart(w, log).attempt.None?
  {
    hide Disarmed, Tasks.Foreign, Tasks.Start;
  }

  lemma TurnDrops(w: World, i: nat, f: Followup, env: Env)
    requires w.attempt.Some? && i < |w.runs|
    ensures Iterate(w, i, f, env).attempt.None? <==> w.requested && Quiet(w) && !w.needsCheckpoint
  {
    hide QueueNext, CurrentTask, Disarmed;
  }

  lemma FlushDrops(w: World, i: nat, ok: bool, f: Followup, env: Env)
    requires w.attempt.Some? && i < |w.runs| && w.runs[i].AwaitingFlush?
    ensures FlushSettled(w, i, ok, f, env).attempt.None? <==> ok && Quiet(w) && !w.needsCheckpoint
  {
    hide QueueNext, CurrentTask, Disarmed;
  }

  lemma OpenDrops(w: World, content: Content, source: Source, env: Env)
    requires w.attempt.Some? && IsRoundSource(source)
    ensures FenceOpen(w, content, source, env).0.attempt.None? <==> !Admissible(w, content, source) && Own(w.attempt, source)
  {
    FenceExactly(w, content, source, env);
    if !Admissible(w, content, source) {
      TurnedAway(w, content, source, env);
      CalmedKeepsAttempt(w);
      RequestKeepsAttempt(Calmed(w).(attempt := if Own(w.attempt, source) then None else w.attempt), env.starts);
    }
    hide FenceOpen, FenceClose, RequestDrive, Calmed, Admissible, Own;
  }

  lemma CalmedKeepsAttempt(w: World)
    ensures Calmed(w).attempt == w.attempt
  {
    hide Disarmed, Fold;
  }

  lemma CloseDrops(w: World, content: Content, source: Source, decision: Decision, aborted: bool, env: Env)
    requires w.attempt.Some? && IsRoundSource(source)
    ensures FenceClose(w, content, source, decision, aborted, env).0.attempt.None? <==>
            !aborted && (decision != Enter || !Admissible(w, content, source))
  {
    FenceExactly(w, content, source, env);
    ChainDecides(w, content, source, decision, env);
    RequestKeepsAttempt(w.(attempt := None), env.starts);
    FenceRejectedQueuesNothing(w, source, env);
    if !Admissible(w, content, source) {
      TurnedAway(w, content, source, env);
      RequestKeepsAttempt(Calmed(w).(attempt := None), env.starts);
    }
    hide FenceOpen, FenceRejected, FenceEntering, RequestDrive, Calmed, Admissible;
  }

  lemma IdleDrops(w: World, env: Env)
    requires w.attempt.Some?
    ensures OnIdle(w, env).attempt.None? <==> Broken(w.attempt.value) && Continuing(w)
  {
    IdleExactly(w, env);
    var started := w.(idle := true, competingQueued := false);
    RequestKeepsAttempt(started, env.starts);
    if Broken(w.attempt.value) && Continuing(w) {
      var ref := TaskRef(CurrentOf(w.service.log).value);
      PauseDropsAttempt(started, ref, env);
      RequestKeepsAttempt(PauseInterrupted(started, ref, env), env.starts);
    }
    hide OnIdle, PauseInterrupted, RequestDrive, Continuing, Fold;
  }

  /** Going idle: a broken round of a running task pauses that task; and the driver is triggered if the log can be read. */
  lemma IdleExactly(w: World, env: Env)
    ensures var started := w.(idle := true, competingQueued := false);
            OnIdle(w, env) ==
            if w.live && !Accepted(w.service.log) then started
            else if w.attempt.Some? && Broken(w.attempt.value) && Continuing(w)
            then RequestDrive(PauseInterrupted(started, TaskRef(CurrentOf(w.service.log).value), env), env.starts)
            else RequestDrive(started, env.starts)
  {
    ReadExactly(w);
    var started := w.(idle := true, competingQueued := false);
    assert CurrentTask(started) == CurrentTask(w);
    hide PauseInterrupted, RequestDrive, CurrentTask, Fold;
  }

  /**
   * Exactly which steps mark a reservation that they keep: its claim, the append of its own message, its discard
   * and an abort of the turn it was claimed in, a competing prompt while it is queued, and an unload.
   */
  lemma MarksExactly(w: World, step: Step)
    requires w.attempt.Some? && Next(w, step).attempt.Some?
    ensures var a, a' := w.attempt.value, Next(w, step).attempt.value;
            var inserted := step.Inserted? && step.inNextTurn && !(step.content == a.content && step.source == SourceOf(a));
            && a'.phase == (if step.ClaimedMessage? && step.content == a.content && step.source == SourceOf(a) && a.round > 0
                            then AttemptPhase.Claimed
                            else if step.Appended? && w.live && step.event.MessageEvent? && step.event.message.id == a.messageId
                            then AttemptPhase.Admitted else a.phase)
            && (a'.cancelled <==>
                  || a.cancelled
                  || (step.DiscardedMessage? && step.content == a.content && step.source == SourceOf(a) && a.round > 0)
                  || (step.TurnEnded? && step.reason.Aborted? && a.phase != AttemptPhase.Queued))
            && (a.round > 0 ==> (a'.stale <==> a.stale || (inserted && a.phase == AttemptPhase.Queued) || step.Unload?))
  {
    if RunsDriver(step) {
      DriverMarksNothing(w, step);
    } else {
      hide Disarmed, Tasks.Foreign, Tasks.Start;
    }
  }

  lemma DriverMarksNothing(w: World, step: Step)
    requires RunsDriver(step) && w.attempt.Some? && Next(w, step).attempt.Some?
    ensures Next(w, step).attempt == w.attempt
  {
    hide Submit, FenceOpen, FenceClose, OnIdle, Disarmed, QueueNext, CurrentTask, Retire;
    match step
    case PreStepOpen(content, source, env) => if IsRoundSource(source) { OpenMarksNothing(w, content, source, env); }
    case PreStepClose(content, source, decision, aborted, env) =>
      if IsRoundSource(source) { CloseMarksNothing(w, content, source, decision, aborted, env); }
    case Mutation(q, env) => BlocksKeepAttempt(w, q, true, env);
    case Idle(env) => IdleMarksNothing(w, env);
    case Retired(i, env) => if i < |w.runs| { RetireKeepsAttempt(w, i, env); }
    case _ =>
  }

  lemma OpenMarksNothing(w: World, content: Content, source: Source, env: Env)
    requires w.attempt.Some? && IsRoundSource(source) && FenceOpen(w, content, source, env).0.attempt.Some?
    ensures FenceOpen(w, content, source, env).0.attempt == w.attempt
  {
    FenceExactly(w, content, source, env);
    if !Admissible(w, content, source) {
      TurnedAway(w, content, source, env);
      CalmedKeepsAttempt(w);
      RequestKeepsAttempt(Calmed(w).(attempt := if Own(w.attempt, source) then None else w.attempt), env.starts);
    }
    hide FenceOpen, FenceClose, RequestDrive, Calmed, Admissible, Own;
  }

  lemma CloseMarksNothing(w: World, content: Content, source: Source, decision: Decision, aborted: bool, env: Env)
    requires w.attempt.Some? && IsRoundSource(source) && FenceClose(w, content, source, decision, aborted, env).0.attempt.Some?
    ensures FenceClose(w, content, source, decision, aborted, env).0.attempt == w.attempt
  {
    CloseDrops(w, content, source, decision, aborted, env);
    FenceExactly(w, content, source, env);
    ChainDecides(w, content, source, decision, env);
    hide FenceOpen, FenceClose, Admissible;
  }

  lemma IdleMarksNothing(w: World, env: Env)
    requires w.attempt.Some? && OnIdle(w, env).attempt.Some?
    ensures OnIdle(w, env).attempt == w.attempt
  {
    IdleDrops(w, env);
    IdleExactly(w, env);
    RequestKeepsAttempt(w.(idle := true, competingQueued := false), env.starts);
    hide OnIdle, PauseInterrupted, RequestDrive, Continuing, Fold;
  }

  /** Another queued prompt competes until the agent next goes idle or a session starts, and nothing else does. */
  lemma CompetesExactly(w: World, step: Step)
    ensures Next(w, step).competingQueued <==>
            match step
            case Inserted(inNextTurn, content, source) =>
              w.competingQueued || (inNextTurn && !(w.attempt.Some? && SameQueued(content, source, w.attempt.value)))
            case Idle(_) => false
            case SessionStart(_) => false
            case _ => w.competingQueued
  {
    if RunsDriver(step) { DriverCompetesNothing(w, step); } else { hide Disarmed, Tasks.Foreign, Tasks.Start, SameQueued; }
  }

  lemma DriverCompetesNothing(w: World, step: Step)
    requires RunsDriver(step)
    ensures Next(w, step).competingQueued == (w.competingQueued && !step.Idle?)
  {
    hide Iterate, FlushSettled, Retire, FenceOpen, FenceClose, Submit, OnIdle;
    match step
    case Turn(i, f, env) => if i < |w.runs| { TurnKeepsCompeting(w, i, f, env); }
    case Flushed(i, ok, f, env) => if i < |w.runs| && w.runs[i].AwaitingFlush? { FlushKeepsCompeting(w, i, ok, f, env); }
    case Retired(i, env) => if i < |w.runs| { RetireKeepsCompeting(w, i, env); }
    case PreStepOpen(content, source, env) => if IsRoundSource(source) { FenceKeepsCompeting(w, content, source, Enter, false, env); }
    case PreStepClose(content, source, decision, aborted, env) =>
      if IsRoundSource(source) { FenceKeepsCompeting(w, content, source, decision, aborted, env); }
    case Mutation(q, env) => BlocksKeepCompeting(w, q, env);
    case Idle(env) => IdleEndsCompeting(w, env);
  }

  lemma TurnKeepsCompeting(w: World, i: nat, f: Followup, env: Env)
    requires i < |w.runs|
    ensures Iterate(w, i, f, env).competingQueued == w.competingQueued
  {
    hide DriveTail;
    TailKeepsCompeting(w.(requested := false), f, env);
  }

  lemma FlushKeepsCompeting(w: World, i: nat, ok: bool, f: Followup, env: Env)
    requires i < |w.runs| && w.runs[i].AwaitingFlush?
    ensures FlushSettled(w, i, ok, f, env).competingQueued == w.competingQueued
  {
    hide DriveTail, Disarmed;
    var settled := SetRun(w, i, Looping);
    TailKeepsCompeting(settled.(durable := if w.runs[i].began > w.durable then w.runs[i].began else w.durable), f, env);
  }

  lemma RetireKeepsCompeting(w: World, i: nat, env: Env)
    requires i < |w.runs|
    ensures Retire(w, i, env).competingQueued == w.competingQueued
  {
    hide Disarmed;
  }

  lemma BlocksKeepCompeting(w: World, q: Request, env: Env)
    ensures Disarm(w).competingQueued == w.competingQueued
    ensures RequestDrive(w, env.starts).competingQueued == w.competingQueued
    ensures Submit(w, q, env).0.competingQueued == w.competingQueued
  {
    hide Tasks.Submit, Disarmed;
  }

  lemma StopsKeepCompeting(w: World, ref: Ref, reason: BlockReason, env: Env)
    ensures BlockOrDisarm(w, ref, reason, env).competingQueued == w.competingQueued
    ensures PauseInterrupted(w, ref, env).competingQueued == w.competingQueued
  {
    hide Submit, Disarmed;
    BlocksKeepCompeting(w, BlockTask(ref, reason), env);
    BlocksKeepCompeting(w.(attempt := None), PauseTask(ref), env);
  }

  lemma TailKeepsCompeting(w: World, f: Followup, env: Env)
    ensures DriveTail(w, f, env).competingQueued == w.competingQueued
  {
    hide QueueNext, CurrentTask, Disarm, Submit, RequestDrive;
    BlocksKeepCompeting(w, PauseTask(Ref("", 0)), env);
    var task := CurrentTask(w);
    if task.Ok? && task.value.Some? { QueueKeepsCompeting(w, task.value.value, f, env); }
  }

  lemma QueueKeepsCompeting(w: World, view: Tasks.TaskView, f: Followup, env: Env)
    ensures QueueNext(w, view, f, env).competingQueued == w.competingQueued
  {
    hide BlockOrDisarm, RoundLimit, QueueFailed, ReservationFor, TaskRef;
    StopsKeepCompeting(w, TaskRef(view.task), RoundLimit(view.task.maxRounds), env);
    StopsKeepCompeting(w, TaskRef(view.task), QueueFailed(view.roundsStarted + 1, f.thrown.GetOr("")), env);
  }

  lemma FenceKeepsCompeting(w: World, content: Content, source: Source, decision: Decision, aborted: bool, env: Env)
    requires IsRoundSource(source)
    ensures FenceOpen(w, content, source, env).0.competingQueued == w.competingQueued
    ensures FenceClose(w, content, source, decision, aborted, env).0.competingQueued == w.competingQueued
  {
    hide RequestDrive, Submit, Disarmed, CurrentTask, ValidReservation, SameRound, Refused, Released;
    var failed := ValidReservation(w, content, source).Err?;
    RefusedKeepsCompeting(w, source, failed);
    BlocksKeepCompeting(Refused(w, source, failed), PauseTask(Ref("", 0)), env);
    BlocksKeepCompeting(Released(w, failed), PauseTask(Ref("", 0)), env);
    var cleared := w.(attempt := None);
    var task := CurrentTask(cleared);
    BlocksKeepCompeting(cleared, if task.Ok? && task.value.Some? then BlockTask(TaskRef(task.value.value.task), PromptRejected()) else PauseTask(Ref("", 0)), env);
  }

  lemma RefusedKeepsCompeting(w: World, source: Source, failed: bool)
    requires source.RoundSource?
    ensures Refused(w, source, failed).competingQueued == w.competingQueued == Released(w, failed).competingQueued
  {
    hide Disarmed;
  }

  lemma IdleEndsCompeting(w: World, env: Env)
    ensures !OnIdle(w, env).competingQueued
  {
    hide PauseInterrupted, RequestDrive, CurrentTask;
    var started := w.(idle := true, competingQueued := false);
    BlocksKeepCompeting(started, PauseTask(Ref("", 0)), env);
    var task := CurrentTask(started);
    if task.Ok? && task.value.Some? {
      var ref := TaskRef(task.value.value.task);
      StopsKeepCompeting(started, ref, PromptRejected(), env);
      BlocksKeepCompeting(PauseInterrupted(started, ref, env), PauseTask(Ref("", 0)), env);
    }
  }

  // ------------------------------------------------------------- stopped for a reason

  lemma LimitIsTaken(maxRounds: int)
    ensures ResolveBlockReason(RoundLimit(maxRounds)) == Ok(RoundLimit(maxRounds))
  {
    var head, tail := "Long task reached its configured limit of ", " rounds.";
    var count := Text.Decimal(if maxRounds < 0 then 0 else maxRounds);
    FramedIsTaken("round-limit", head + count, tail);
    assert head + count + tail == RoundLimit(maxRounds).message;
  }

  lemma RejectedIsTaken()
    ensures ResolveBlockReason(PromptRejected()) == Ok(PromptRejected())
  {
    FramedIsTaken("prompt-rejected", "Long-task round was " + "rejected before entering its step", ".");
    hide ResolveBlockReason, LowerKebab;
  }

  /** A reason with a proper code and no space at either end of its message is taken as it is. */
  lemma FramedIsTaken(code: string, head: string, tail: string)
    requires LowerKebab(code) && head != "" && tail != "" && head[0] == 'L' && tail[|tail| - 1] == '.'
    ensures ResolveBlockReason(BlockReason(code, head + tail)) == Ok(BlockReason(code, head + tail))
  {
    Text.NormalizedMeaning(head + tail);
    hide Text.Trim;
  }

  /** What the log says after a block or pause the service commits and the replay takes: that phase, and that reason. */
  predicate StandsAt(log: seq<Event>, was: Snapshot, phase: Phase, reason: Option<BlockReason>) {
    CurrentOf(log) == Some(was.(revision := was.revision + 1, phase := phase, blockedReason := reason))
  }

  lemma SubmitStands(w: World, q: Request, env: Env, reason: BlockReason)
    requires Continuing(w) && (q == PauseTask(TaskRef(CurrentOf(w.service.log).value)) || q == BlockTask(TaskRef(CurrentOf(w.service.log).value), reason))
    requires q.BlockTask? ==> ResolveBlockReason(reason).Ok?
    requires CurrentOf(w.service.log).value.revision < MAX_SAFE && env.now <= MAX_SAFE
    ensures Submit(w, q, env).1 && !Submit(w, q, env).0.service.armed
    ensures StandsAt(Submit(w, q, env).0.service.log, CurrentOf(w.service.log).value, if q.PauseTask? then Paused else Blocked,
                     if q.PauseTask? then None else Some(ResolveBlockReason(reason).value))
  {
    hide Fold, WellFormed, PlanRequest, ResolveBlockReason, Submit, StandsAt, Safe;
    var s := Tasks.FoldOf(w.service.log);
    StopCommits(s, w.service.armed, q, reason, env.now, w.defaultMaxRounds);
    StopStands(w.service.log, w.service.armed, q, reason, env.now, w.defaultMaxRounds);
    SubmittedStands(w, q, env);
  }

  lemma StopStands(log: seq<Event>, armed: bool, q: Request, reason: BlockReason, now: int, defaultMaxRounds: int)
    requires Accepted(log) && WellFormed(Fold(log).value) && CurrentOf(log).Some? && CurrentOf(log).value.phase == Active
    requires q == PauseTask(TaskRef(CurrentOf(log).value)) || (q == BlockTask(TaskRef(CurrentOf(log).value), reason) && ResolveBlockReason(reason).Ok?)
    requires PlanRequest(Fold(log).value, armed, q, now, defaultMaxRounds).Commit? && Safe(Fold(log).value, q, now)
    ensures var after := log + [ChangeEvent(PlanRequest(Fold(log).value, armed, q, now, defaultMaxRounds).change)];
            Accepted(after) && StandsAt(after, CurrentOf(log).value, if q.PauseTask? then Paused else Blocked,
                                        if q.PauseTask? then None else Some(ResolveBlockReason(reason).value))
  {
    ServiceRefinesFold(log, armed, q, now, defaultMaxRounds);
    ReasonGone(Fold(log).value);
    StopLeads(Fold(log).value, q, now, defaultMaxRounds);
    hide Fold, WellFormed, PlanRequest, ResolveBlockReason, NextState, Safe;
  }

  lemma StopLeads(s: TaskFold, q: Request, now: int, defaultMaxRounds: int)
    requires WellFormed(s) && s.task.Some? && (q.PauseTask? || (q.BlockTask? && ResolveBlockReason(q.reason).Ok?))
    ensures var was := s.task.value;
            NextState(s, q, now, defaultMaxRounds).task ==
            Some(if q.PauseTask? then was.(revision := was.revision + 1, phase := Paused)
                 else was.(revision := was.revision + 1, phase := Blocked, blockedReason := Some(ResolveBlockReason(q.reason).value)))
  {
    hide ResolveBlockReason, ValidSnapshot;
  }

  lemma StopCommits(s: TaskFold, armed: bool, q: Request, reason: BlockReason, now: int, defaultMaxRounds: int)
    requires WellFormed(s) && s.task.Some? && s.task.value.phase == Active
    requires q == PauseTask(TaskRef(s.task.value)) || (q == BlockTask(TaskRef(s.task.value), reason) && ResolveBlockReason(reason).Ok?)
    ensures PlanRequest(s, armed, q, now, defaultMaxRounds).Commit? && !PlanRequest(s, armed, q, now, defaultMaxRounds).armed
    ensures Safe(s, q, now) <==> s.task.value.revision < MAX_SAFE && now <= MAX_SAFE
  {
    hide ResolveBlockReason, ValidSnapshot;
  }

  lemma ReasonGone(s: TaskFold)
    requires WellFormed(s) && s.task.Some? && s.task.value.phase == Active
    ensures s.task.value.blockedReason == None
  {
  }

  lemma SubmittedStands(w: World, q: Request, env: Env)
    requires w.live && Accepted(w.service.log) && (q.PauseTask? || q.BlockTask?)
    requires var plan := PlanRequest(Tasks.FoldOf(w.service.log), w.service.armed, q, env.now, w.defaultMaxRounds);
             plan.Commit? && !plan.armed && Accepted(w.service.log + [ChangeEvent(plan.change)])
    ensures var plan := PlanRequest(Tasks.FoldOf(w.service.log), w.service.armed, q, env.now, w.defaultMaxRounds);
            && Submit(w, q, env).1 && !Submit(w, q, env).0.service.armed
            && Submit(w, q, env).0.service.log == w.service.log + [ChangeEvent(plan.change)]
  {
    hide PlanRequest, Fold, Tasks.ViewOf;
  }

  /** An exhausted task is blocked with its limit as the reason, and nothing is left armed. */
  lemma ExhaustedIsBlocked(w: World, f: Followup, env: Env)
    requires w.attempt.None? && Continuing(w)
    requires Fold(w.service.log).value.roundsStarted >= CurrentOf(w.service.log).value.maxRounds
    requires CurrentOf(w.service.log).value.revision < MAX_SAFE && env.now <= MAX_SAFE
    ensures CurrentOf(w.service.log).value.maxRounds >= 0
    ensures var was, w' := CurrentOf(w.service.log).value, DriveTail(w, f, env);
            && !w'.service.armed && w'.attempt.None?
            && StandsAt(w'.service.log, was, Blocked,
                        Some(BlockReason("round-limit",
                                         "Long task reached its configured limit of " + Text.Decimal(was.maxRounds) + " rounds.")))
  {
    CapIsPositive(w.service.log);
    var was := CurrentOf(w.service.log).value;
    ReadExactly(w);
    LimitIsTaken(was.maxRounds);
    var view := CurrentTask(w).value.value;
    assert Tasks.FoldOf(w.service.log).task.Some?;
    hide CurrentTask, Fold, RoundLimit, Submit, StandsAt, Continuing;
    SubmitStands(w, BlockTask(TaskRef(was), RoundLimit(was.maxRounds)), env, RoundLimit(was.maxRounds));
    BlocksKeepAttempt(w, BlockTask(TaskRef(was), RoundLimit(was.maxRounds)), env.starts, env);
  }

  lemma CapIsPositive(log: seq<Event>)
    requires CurrentOf(log).Some?
    ensures CurrentOf(log).value.maxRounds > 0 && Fold(log).value.roundsStarted >= 0
  {
    FoldWellFormed(log);
    hide Fold;
  }

  /** A round that cannot be queued blocks the task with what was thrown, and nothing is left armed. */
  lemma UnqueueableIsBlocked(w: World, f: Followup, env: Env)
    requires w.attempt.None? && Continuing(w) && f.thrown.Some?
    requires Fold(w.service.log).value.roundsStarted < CurrentOf(w.service.log).value.maxRounds
    requires CurrentOf(w.service.log).value.revision < MAX_SAFE && env.now <= MAX_SAFE
    ensures Fold(w.service.log).value.roundsStarted >= 0
    ensures var was, w' := CurrentOf(w.service.log).value, DriveTail(w, f, env);
            var round := Fold(w.service.log).value.roundsStarted + 1;
            && !w'.service.armed && w'.attempt.None?
            && StandsAt(w'.service.log, was, Blocked,
                        Some(BlockReason("queue-failed",
                                         Text.Trim("Could not queue long-task round " + Text.Decimal(round) + ": " + f.thrown.value))))
  {
    var was, round := CurrentOf(w.service.log).value, Fold(w.service.log).value.roundsStarted + 1;
    CapIsPositive(w.service.log);
    ReadExactly(w);
    FailureIsTaken(round, f.thrown.value);
    var reason := QueueFailed(round, f.thrown.value);
    hide CurrentTask, Fold, QueueFailed, RoundLimit, Submit, StandsAt, Continuing, ResolveBlockReason;
    SubmitStands(w, BlockTask(TaskRef(was), reason), env, reason);
    BlocksKeepAttempt(w, BlockTask(TaskRef(was), reason), env.starts, env);
  }

  lemma FailureIsTaken(round: nat, thrown: string)
    ensures var message := "Could not queue long-task round " + Text.Decimal(round) + ": " + thrown;
            && QueueFailed(round, thrown) == BlockReason("queue-failed", message)
            && ResolveBlockReason(QueueFailed(round, thrown)) == Ok(BlockReason("queue-failed", Text.Trim(message)))
  {
    var head, count := "Could not queue long-task round ", Text.Decimal(round);
    StartedIsTaken("queue-failed", head, count + ": " + thrown);
    assert head + count + ": " + thrown == head + (count + ": " + thrown);
    hide ResolveBlockReason, Text.Decimal, LowerKebab;
  }

  /** A reason with a proper code and a message that begins with a letter is taken, its message trimmed. */
  lemma StartedIsTaken(code: string, head: string, tail: string)
    requires LowerKebab(code) && head != "" && head[0] == 'C'
    ensures ResolveBlockReason(BlockReason(code, head + tail)) == Ok(BlockReason(code, Text.Trim(head + tail)))
  {
    var message := head + tail;
    assert message[0] == 'C' && !Text.IsSpace(message[0]);
    Inputs.TrimMeaning(message);
    hide Text.Trim, LowerKebab;
  }

  /** A session start forgets everything the driver knew of the agent, and no run of it covers the new log. */
  lemma SessionStartExactly(w: World, log: seq<Event>)
    ensures var w' := Next(w, SessionStart(log));
            && w'.service == Tasks.Service(log, false) && w'.attempt.None? && !w'.competingQueued && !w'.needsCheckpoint
            && w'.durable == 0 && |w'.runs| == |w.runs| && w'.runStored == w.runStored && w'.requested == w.requested
            && (forall i :: 0 <= i < |w.runs| ==> w'.runs[i] == if w.runs[i].AwaitingFlush? then AwaitingFlush(0) else w.runs[i])
            && w' == w.(service := w'.service, attempt := None, competingQueued := false, needsCheckpoint := false,
                        durable := 0, runs := w'.runs)
  {
  }

  /** A round the chain rejected on an unmoved running task blocks it with that reason. */
  lemma RejectedIsBlocked(w: World, content: Content, source: Source, env: Env)
    requires IsRoundSource(source) && Continuing(w) && TaskRef(CurrentOf(w.service.log).value) == Ref(source.taskId, source.revision)
    requires CurrentOf(w.service.log).value.revision < MAX_SAFE && env.now <= MAX_SAFE
    ensures var (w', verdict) := FenceClose(w, content, source, Reject, false, env);
            && verdict == Rejected && !w'.service.armed
            && StandsAt(w'.service.log, CurrentOf(w.service.log).value, Blocked, Some(PromptRejected()))
  {
    RejectBlocks(w, content, source, env);
    RejectedIsTaken();
    var cleared := w.(attempt := None);
    SubmitStands(cleared, BlockTask(Ref(source.taskId, source.revision), PromptRejected()), env, PromptRejected());
    hide FenceClose, Submit, Fold, PromptRejected, StandsAt;
  }

  /** A broken round of a running task pauses it when the agent goes idle: the reservation is gone and nothing is left armed. */
  lemma BrokenIsPaused(w: World, env: Env)
    requires w.attempt.Some? && Broken(w.attempt.value) && Continuing(w)
    requires CurrentOf(w.service.log).value.revision < MAX_SAFE && env.now <= MAX_SAFE
    ensures var w' := OnIdle(w, env);
            w'.attempt.None? && !w'.service.armed && StandsAt(w'.service.log, CurrentOf(w.service.log).value, Paused, None)
  {
    var was := CurrentOf(w.service.log).value;
    IdleExactly(w, env);
    IdleDrops(w, env);
    var cleared := w.(idle := true, competingQueued := false, attempt := None);
    var reason := PromptRejected();
    SubmitStands(cleared, PauseTask(TaskRef(was)), env, reason);
    hide OnIdle, Submit, Fold, StandsAt, Continuing;
    RequestKeepsLog(Submit(cleared, PauseTask(TaskRef(was)), env).0, env.starts);
  }

  lemma RequestKeepsLog(w: World, starts: bool)
    ensures RequestDrive(w, starts).service.log == w.service.log
    ensures !w.service.armed ==> !RequestDrive(w, starts).service.armed
  {
    hide Fold, Tasks.ViewOf;
  }
}
