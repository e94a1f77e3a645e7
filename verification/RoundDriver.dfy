/**
 * The round driver's handlers as they run: fields updated in place around calls to the long-task
 * service. Each method is one uninterrupted piece and is specified by RoundDriverModel.
 */
module RoundDriver {
  import opened Wrappers
  import opened LongTaskTypes
  import opened LongTaskFold
  import opened LongTaskRequests
  import opened LongTaskService
  import Tasks = LongTaskServiceModel
  import M = RoundDriverModel

  /** Only a handoff reads the second clock. */
  lemma OneClock(sv: Tasks.Service, live: bool, q: Request, now: int, at: int, at': int, defaultMaxRounds: int)
    requires !q.HandOff?
    ensures Tasks.Submit(sv, live, q, now, at, defaultMaxRounds) == Tasks.Submit(sv, live, q, now, at', defaultMaxRounds)
  {
  }

  class Driver {
    const service: LongTaskService

    // What the surrounding runtime reports about the agent.
    var live: bool
    var mounted: bool
    var idle: bool

    // The driver's own state for that agent.
    var attempt: Option<M.Attempt>
    var competingQueued: bool
    var needsCheckpoint: bool
    var requested: bool
    var runStored: bool
    var stopping: bool

    // Asynchronous runs in progress, and how much of the log a successful flush has covered.
    var runs: seq<M.DriverRun>
    ghost var durable: nat

    ghost function Repr(): set<object> {
      {this} + service.Repr()
    }

    ghost predicate Valid()
      reads Repr()
    {
      this !in service.Repr() && service.Valid()
    }

    ghost function View(): M.World
      requires Valid()
      reads Repr()
    {
      M.World(service.View(), service.defaultMaxRounds, durable, live, mounted, idle, attempt, competingQueued,
              needsCheckpoint, requested, runStored, stopping, runs)
    }

    constructor (service: LongTaskService)
      requires service.Valid()
      ensures Valid() && this.service == service && fresh(Repr() - service.Repr())
      ensures View() == M.Initial([], service.defaultMaxRounds).(service := service.View())
    {
      this.service := service;
      live, mounted, idle := true, false, false;
      attempt, competingQueued, needsCheckpoint, requested, runStored, stopping := None, false, false, false, false, false;
      runs, durable := [], 0;
    }

    /** Read only while the agent is live. */
    method CurrentTask() returns (r: Result<Option<Tasks.TaskView>, ServiceError>)
      requires Valid()
      modifies Repr()
      ensures Valid() && View() == old(View())
      ensures r == M.CurrentTask(View())
    {
      hide Tasks.Get;
      if !live { return Ok(None); }
      r := service.Get(true);
    }

    method Disarm()
      requires Valid()
      modifies Repr()
      ensures Valid() && View() == M.Disarm(old(View()))
    {
      hide Tasks.Get, Tasks.Disarm;
      var view := CurrentTask();
      if view.Ok? && view.value.Some? && view.value.value.armed {
        var _ := service.Disarm(live);
      }
    }

    method RequestDrive(starts: bool)
      requires Valid()
      modifies Repr()
      ensures Valid() && View() == M.RequestDrive(old(View()), starts)
    {
      hide M.Disarmed;
      if stopping { return; }
      requested := true;
      if runStored { return; }
      if !starts {
        Disarm();
        return;
      }
      runs := runs + [M.Looping];
      runStored := true;
    }

    method OnChanged(starts: bool)
      requires Valid()
      modifies Repr()
      ensures Valid() && View() == M.OnChanged(old(View()), starts)
    {
      hide M.RequestDrive;
      needsCheckpoint := true;
      RequestDrive(starts);
    }

    method Block(ref: Ref, reason: BlockReason, env: M.Env) returns (ok: bool)
      requires Valid()
      modifies Repr()
      ensures Valid()
      ensures (View(), ok) == M.Submit(old(View()), BlockTask(ref, reason), env)
    {
      hide Tasks.Submit, M.OnChanged;
      OneClock(service.View(), live, BlockTask(ref, reason), env.now, env.now, env.at, service.defaultMaxRounds);
      var r, announced := service.Block(live, ref, reason, env.now);
      if announced { OnChanged(env.starts); }
      ok := r.Ok?;
    }

    method Pause(ref: Ref, env: M.Env) returns (ok: bool)
      requires Valid()
      modifies Repr()
      ensures Valid()
      ensures (View(), ok) == M.Submit(old(View()), PauseTask(ref), env)
    {
      hide Tasks.Submit, M.OnChanged;
      OneClock(service.View(), live, PauseTask(ref), env.now, env.now, env.at, service.defaultMaxRounds);
      var r, announced := service.Pause(live, ref, env.now);
      if announced { OnChanged(env.starts); }
      ok := r.Ok?;
    }

    // ---------------------------------------------------------- the driver run

    method BlockOrDisarm(ref: Ref, reason: BlockReason, env: M.Env)
      requires Valid()
      modifies Repr()
      ensures Valid() && View() == M.BlockOrDisarm(old(View()), ref, reason, env)
    {
      hide M.Submit, M.Disarmed;
      var ok := Block(ref, reason, env);
      if !ok { Disarm(); }
    }

    method QueueNext(view: Tasks.TaskView, f: M.Followup, env: M.Env)
      requires Valid() && attempt.None?
      modifies Repr()
      ensures Valid() && View() == M.QueueNext(old(View()), view, f, env)
    {
      hide M.BlockOrDisarm, LongTaskService.Valid, LongTaskService.View;
      if view.roundsStarted >= view.task.maxRounds {
        BlockOrDisarm(TaskRef(view.task), M.RoundLimit(view.task.maxRounds), env);
      } else {
        attempt := Some(M.ReservationFor(view, f));
        if f.thrown.Some? {
          attempt := None;
          BlockOrDisarm(TaskRef(view.task), M.QueueFailed(view.roundsStarted + 1, f.thrown.value), env);
        }
      }
    }

    method DriveTail(f: M.Followup, env: M.Env)
      requires Valid()
      modifies Repr()
      ensures Valid() && View() == M.DriveTail(old(View()), f, env)
    {
      hide M.QueueNext, M.CurrentTask, M.Disarmed;
      if attempt.Some? {
        attempt := None;
        needsCheckpoint := true;
        requested := true;
        return;
      }
      var task := CurrentTask();
      if task.Err? {
        Disarm();
      } else if M.ActiveArmed(task.value) {
        QueueNext(task.value.value, f, env);
      }
    }

    predicate ReadyToDrive()
      reads this
    {
      mounted && !stopping && live && idle && !competingQueued
    }

    method Iterate(i: nat, f: M.Followup, env: M.Env)
      requires Valid() && i < |runs|
      modifies Repr()
      ensures Valid() && View() == M.Iterate(old(View()), i, f, env)
    {
      hide M.DriveTail;
      if !requested || stopping {
        runs := runs[i := M.Finished];
        return;
      }
      requested := false;
      if !ReadyToDrive() { return; }
      if needsCheckpoint {
        needsCheckpoint := false;
        runs := runs[i := M.AwaitingFlush(|service.session.events|)];
        return;
      }
      DriveTail(f, env);
    }

    method FlushSettled(i: nat, ok: bool, f: M.Followup, env: M.Env)
      requires Valid() && i < |runs| && runs[i].AwaitingFlush?
      modifies Repr()
      ensures Valid() && View() == M.FlushSettled(old(View()), i, ok, f, env)
    {
      hide M.AfterFlush, M.Disarmed, LongTaskService.Valid, LongTaskService.View;
      ghost var began := runs[i].began;
      runs := runs[i := M.Looping];
      if ok { AfterFlush(began, f, env); } else { Disarm(); }
    }

    method AfterFlush(ghost began: nat, f: M.Followup, env: M.Env)
      requires Valid()
      modifies Repr()
      ensures Valid() && View() == M.AfterFlush(old(View()), began, f, env)
    {
      hide M.DriveTail, LongTaskService.Valid, LongTaskService.View;
      durable := if began > durable then began else durable;
      if ReadyToDrive() && !needsCheckpoint { DriveTail(f, env); }
    }

    method Retire(i: nat, env: M.Env)
      requires Valid() && i < |runs|
      modifies Repr()
      ensures Valid() && View() == M.Retire(old(View()), i, env)
    {
      hide M.RequestDrive;
      runs := runs[..i] + runs[i + 1..];
      runStored := false;
      if requested && !stopping { RequestDrive(env.starts); }
    }

    // ---------------------------------------------------------------- the fence

    method ValidReservation(content: Content, source: Source) returns (r: Result<bool, ServiceError>)
      requires Valid() && M.IsRoundSource(source)
      modifies Repr()
      ensures Valid() && View() == old(View())
      ensures r == M.ValidReservation(View(), content, source)
    {
      hide M.CurrentTask, M.SameQueued;
      var task := CurrentTask();
      if task.Err? { return Err(task.error); }
      r := Ok(&& mounted && !stopping
              && attempt.Some? && attempt.value.phase.Claimed? && !attempt.value.stale
              && M.SameQueued(content, source, attempt.value)
              && M.ActiveArmed(task.value)
              && task.value.value.task.id == source.taskId && task.value.value.task.revision == source.revision
              && source.round == task.value.value.roundsStarted + 1);
    }

    method Refuse(source: Source, failed: bool)
      requires Valid() && source.RoundSource?
      modifies Repr()
      ensures Valid() && View() == M.Refused(old(View()), source, failed)
    {
      hide M.Disarmed;
      if failed { Disarm(); }
      if attempt.Some? && M.SameRound(source, attempt.value) { attempt := None; }
    }

    method PreStepOpen(content: Content, source: Source, env: M.Env) returns (verdict: M.Verdict)
      requires Valid() && M.IsRoundSource(source)
      modifies Repr()
      ensures Valid()
      ensures (View(), verdict) == M.FenceOpen(old(View()), content, source, env)
    {
      hide M.ValidReservation, M.RequestDrive, M.Refused;
      var valid := ValidReservation(content, source);
      if valid == Ok(true) { return M.Passed; }
      Refuse(source, valid.Err?);
      RequestDrive(env.starts);
      verdict := M.Rejected;
    }

    method BlockUnmoved(task: Option<Tasks.TaskView>, source: Source, env: M.Env) returns (verdict: M.Verdict)
      requires Valid() && M.IsRoundSource(source)
      modifies Repr()
      ensures Valid()
      ensures (View(), verdict) == M.BlockUnmoved(old(View()), task, source, env)
    {
      hide M.Submit;
      if !M.ActiveArmed(task) || TaskRef(task.value.task) != Ref(source.taskId, source.revision) {
        return M.Rejected;
      }
      var ok := Block(TaskRef(task.value.task), M.PromptRejected(), env);
      verdict := if ok then M.Rejected else M.Rethrown;
    }

    method AfterReject(source: Source, env: M.Env) returns (verdict: M.Verdict)
      requires Valid() && M.IsRoundSource(source)
      modifies Repr()
      ensures Valid()
      ensures (View(), verdict) == M.FenceRejected(old(View()), source, env)
    {
      hide M.BlockUnmoved, M.CurrentTask, LongTaskService.Valid, LongTaskService.View;
      attempt := None;
      var task := CurrentTask();
      if task.Err? { return M.Rethrown; }
      verdict := BlockUnmoved(task.value, source, env);
    }

    method Release(failed: bool)
      requires Valid()
      modifies Repr()
      ensures Valid() && View() == M.Released(old(View()), failed)
    {
      hide M.Disarmed;
      if failed { Disarm(); }
      attempt := None;
    }

    method AfterEnter(content: Content, source: Source, env: M.Env) returns (verdict: M.Verdict)
      requires Valid() && M.IsRoundSource(source)
      modifies Repr()
      ensures Valid()
      ensures (View(), verdict) == M.FenceEntering(old(View()), content, source, env)
    {
      hide M.ValidReservation, M.RequestDrive, M.Released;
      var valid := ValidReservation(content, source);
      if valid == Ok(true) { return M.Entered; }
      Release(valid.Err?);
      RequestDrive(env.starts);
      verdict := M.Rejected;
    }

    method PreStepClose(content: Content, source: Source, decision: M.Decision, aborted: bool, env: M.Env)
      returns (verdict: M.Verdict)
      requires Valid() && M.IsRoundSource(source)
      modifies Repr()
      ensures Valid()
      ensures (View(), verdict) == M.FenceClose(old(View()), content, source, decision, aborted, env)
    {
      hide M.RequestDrive, M.FenceRejected, M.FenceEntering;
      if decision.Threw? {
        if !aborted {
          attempt := None;
          RequestDrive(env.starts);
        }
        return M.Rethrown;
      }
      if aborted { return if decision.Enter? then M.Entered else M.Rejected; }
      if decision.Reject? {
        verdict := AfterReject(source, env);
      } else {
        verdict := AfterEnter(content, source, env);
      }
    }

    // ----------------------------------------------------------- event handlers

    method OnSessionStart()
      requires Valid()
      modifies Repr()
      ensures Valid()
      ensures View() == M.OnSessionStart(old(View()), old(service.session.events))
    {
      service.OnSessionStart();
      attempt := None;
      competingQueued := false;
      needsCheckpoint := false;
      durable := 0;
      runs := seq(|runs|, i requires 0 <= i < |runs| reads this => if runs[i].AwaitingFlush? then M.AwaitingFlush(0) else runs[i]);
    }

    method PauseInterrupted(ref: Ref, env: M.Env)
      requires Valid()
      modifies Repr()
      ensures Valid() && View() == M.PauseInterrupted(old(View()), ref, env)
    {
      hide M.Disarmed, M.Submit, LongTaskService.Valid, LongTaskService.View;
      attempt := None;
      var ok := Pause(ref, env);
      if !ok { Disarm(); }
    }

    method OnIdle(env: M.Env)
      requires Valid()
      modifies Repr()
      ensures Valid() && View() == M.OnIdle(old(View()), env)
    {
      hide M.RequestDrive, M.PauseInterrupted, M.CurrentTask, M.Interrupted, LongTaskService.Valid, LongTaskService.View;
      idle := true;
      competingQueued := false;
      var task := CurrentTask();
      if task.Err? { return; }
      if attempt.Some? && M.Interrupted(attempt.value) && M.ActiveArmed(task.value) {
        PauseInterrupted(TaskRef(task.value.value.task), env);
      }
      RequestDrive(env.starts);
    }

    method OnInserted(inNextTurn: bool, content: Content, source: Source)
      requires Valid()
      modifies this
      ensures Valid() && View() == M.OnInserted(old(View()), inNextTurn, content, source)
    {
      if !inNextTurn { return; }
      if attempt.Some? && M.SameQueued(content, source, attempt.value) { return; }
      competingQueued := true;
      if attempt.Some? && attempt.value.phase.Queued? { attempt := Some(attempt.value.(stale := true)); }
    }

    method OnClaimed(content: Content, source: Source)
      requires Valid()
      modifies this
      ensures Valid() && View() == M.OnClaimed(old(View()), content, source)
    {
      if attempt.Some? && M.SameQueued(content, source, attempt.value) {
        attempt := Some(attempt.value.(phase := M.Claimed));
      }
    }

    method OnDiscarded(content: Content, source: Source)
      requires Valid()
      modifies this
      ensures Valid() && View() == M.OnDiscarded(old(View()), content, source)
    {
      if attempt.Some? && M.SameQueued(content, source, attempt.value) {
        attempt := Some(attempt.value.(cancelled := true));
      }
    }

    /** Another writer appends an event, and the session reports it. */
    method OnAppended(event: Event)
      requires Valid()
      modifies Repr()
      ensures Valid() && View() == M.OnAppended(old(View()), event)
    {
      hide Tasks.Foreign;
      service.AppendForeign(event);
      if live && event.MessageEvent? && attempt.Some? && event.message.id == attempt.value.messageId {
        attempt := Some(attempt.value.(phase := M.Admitted));
      }
    }

    method OnTurnEnd(reason: M.TurnEnd)
      requires Valid()
      modifies Repr()
      ensures Valid() && View() == M.OnTurnEnd(old(View()), reason)
    {
      hide M.Disarmed;
      if reason.MaxTokens? {
        Disarm();
        return;
      }
      if !reason.Aborted? { return; }
      if attempt.Some? && (attempt.value.phase.Claimed? || attempt.value.phase.Admitted?) {
        attempt := Some(attempt.value.(cancelled := true));
      } else {
        Disarm();
      }
    }

    method OnUnload()
      requires Valid()
      modifies Repr()
      ensures Valid() && View() == M.OnUnload(old(View()))
    {
      hide M.Disarmed;
      stopping := true;
      Disarm();
      if attempt.Some? { attempt := Some(attempt.value.(stale := true)); }
    }
  }
}
