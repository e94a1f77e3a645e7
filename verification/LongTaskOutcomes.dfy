/**
 * What one call of the service leaves behind and answers, in every case; and which steps move its activation.
 */
module LongTaskOutcomes {
  import opened Wrappers
  import opened LongTaskTypes
  import opened LongTaskFold
  import opened LongTaskLog
  import opened LongTaskRequests
  import opened LongTaskInputs
  import opened LongTaskServiceModel

  /** Why a call is turned away before anything is written, if it is: bad input, a dead agent, a bad log, a fault. */
  function TurnedAway(sv: Service, live: bool, q: Request, defaultMaxRounds: int): Option<ServiceError> {
    if q.CreateTask? && CreateFault(q.spec, defaultMaxRounds).Some? then CreateFault(q.spec, defaultMaxRounds)
    else if !live then Some(AgentNotLive)
    else if Fold(sv.log).Err? then Some(Replay(Fold(sv.log).error))
    else Fault(FoldOf(sv.log), sv.armed, q, defaultMaxRounds)
  }

  /** A call that is turned away leaves log and activation alone, is not announced, and says why. */
  lemma TurnedAwayExactly(sv: Service, live: bool, q: Request, now: int, at: int, defaultMaxRounds: int)
    ensures match TurnedAway(sv, live, q, defaultMaxRounds)
            case Some(error) => Submit(sv, live, q, now, at, defaultMaxRounds) == Reply(sv, Err(error), false)
            case None => |Submit(sv, live, q, now, at, defaultMaxRounds).service.log| > |sv.log|
  {
    hide CreateFault, Fault, PlanRequest, ResolveCreate, ViewOf, WellFormed;
    if q.CreateTask? { CreateInputExactly(q.spec, defaultMaxRounds); }
    if live && Accepted(sv.log) {
      FoldWellFormed(sv.log);
      PlannedExactly(FoldOf(sv.log), sv.armed, q, now, defaultMaxRounds);
      if q.CreateTask? && CreateFault(q.spec, defaultMaxRounds).Some? { FaultOfInput(FoldOf(sv.log), sv.armed, q, defaultMaxRounds); }
    }
  }

  lemma FaultOfInput(s: TaskFold, armed: bool, q: Request, defaultMaxRounds: int)
    requires WellFormed(s) && q.CreateTask? && CreateFault(q.spec, defaultMaxRounds).Some?
    ensures Fault(s, armed, q, defaultMaxRounds) == CreateFault(q.spec, defaultMaxRounds)
  {
    hide CreateFault;
  }

  /** The task an answer reports and the log it was read from. */
  predicate Reports(view: TaskView, s: TaskFold, armed: bool) {
    && s.task == Some(view.task) && s.roundsStarted == view.roundsStarted && s.createdAt == Some(view.createdAt)
    && s.updatedAt == Some(view.updatedAt) && view.armed == armed
  }

  /** What a read answers: of a dead agent nothing, of a refused log its error, and else what is current. */
  lemma ReadExactly(sv: Service, live: bool)
    ensures var r := Get(sv, live);
            if !live then r == Err(AgentNotLive)
            else if Fold(sv.log).Err? then r == Err(Replay(Fold(sv.log).error))
            else if Fold(sv.log).value.task.None? then r == Ok(None)
            else r.Ok? && r.value.Some? && Reports(r.value.value, Fold(sv.log).value, sv.armed)
  {
    if Accepted(sv.log) { FoldWellFormed(sv.log); }
    hide Fold, WellFormed;
  }

  /**
   * A call that is not turned away writes one change, and a handoff whose change is taken writes its trace after
   * it. The change is announced exactly if the replay takes it. The call succeeds exactly if the replay takes all
   * that was written; then the activation is the one the operation gives, and the answer is what is current,
   * or after a clear the identity of the tombstone, one past the task's. Otherwise nothing stays armed.
   */
  lemma WrittenExactly(sv: Service, live: bool, q: Request, now: int, at: int, defaultMaxRounds: int)
    requires TurnedAway(sv, live, q, defaultMaxRounds).None?
    ensures live && Accepted(sv.log)
    ensures var s := FoldOf(sv.log);
            var reply := Submit(sv, live, q, now, at, defaultMaxRounds);
            var log, n := reply.service.log, |sv.log|;
            && sv.log < log && log[n].ChangeEvent?
            && |log| == (if q.HandOff? && Safe(s, q, now) then n + 2 else n + 1)
            && (reply.announced <==> Safe(s, q, now)) && (Accepted(sv.log + [log[n]]) <==> Safe(s, q, now))
            && (reply.result.Ok? <==> Accepted(log)) && (Accepted(log) <==> Safe(s, q, now) && (q.HandOff? ==> 0 <= at <= MAX_SAFE))
            && (if Accepted(log) then reply.service.armed == ArmedBy(q, sv.armed) else !reply.service.armed)
            && (Accepted(log) ==>
                  if q.ClearTask? then
                    s.task.Some? && reply.result.value == Cleared(Ref(s.task.value.id, s.task.value.revision + 1)) && Fold(log).value.task.None?
                  else
                    && reply.result.value.Viewed? && reply.result.value.view.Some?
                    && Reports(reply.result.value.view.value, Fold(log).value, reply.service.armed))
            && (Accepted(log) && q.HandOff? ==>
                  && s.task.Some?
                  && log[n + 1] == TraceEvent(Trace(Ref(s.task.value.id, s.task.value.revision + 1), s.task.value.handoffs + 1, q.why, at)))
  {
    hide CreateFault, Fault, PlanRequest, ResolveCreate, ResolveEdit, ResolveBlockReason, WellFormed, ApplyEvent, Patched;
    TurnedAwayExactly(sv, live, q, now, at, defaultMaxRounds);
    PlannedExactlyHere(sv, live, q, now, defaultMaxRounds);
    var s := FoldOf(sv.log);
    var plan := PlanRequest(s, sv.armed, q, now, defaultMaxRounds);
    var log := sv.log + [ChangeEvent(plan.change)];
    ServiceRefinesFold(sv.log, sv.armed, q, now, defaultMaxRounds);
    PlanNames(s, sv.armed, q, now, defaultMaxRounds);
    if Safe(s, q, now) {
      NextIsCurrent(s, q, now, defaultMaxRounds);
      if q.HandOff? {
        FoldSnoc(log, HandoffTrace(plan.change.task, q.why, at));
        TraceAccepted(FoldOf(log), q.why, at);
      }
    }
  }

  lemma PlannedExactlyHere(sv: Service, live: bool, q: Request, now: int, defaultMaxRounds: int)
    requires TurnedAway(sv, live, q, defaultMaxRounds).None?
    ensures live && Accepted(sv.log)
    ensures !(q.CreateTask? && ResolveCreate(q.spec, defaultMaxRounds).Err?)
    ensures var plan := PlanRequest(FoldOf(sv.log), sv.armed, q, now, defaultMaxRounds);
            plan.Commit? && plan.armed == ArmedBy(q, sv.armed)
  {
    hide CreateFault, Fault, PlanRequest, ResolveCreate, WellFormed;
    PlannedExactly(FoldOf(sv.log), sv.armed, q, now, defaultMaxRounds);
    if q.CreateTask? { CreateInputExactly(q.spec, defaultMaxRounds); }
  }

  /** The identity a planned change carries, and that a handoff's counts one more. */
  lemma PlanNames(s: TaskFold, armed: bool, q: Request, now: int, defaultMaxRounds: int)
    requires WellFormed(s) && PlanRequest(s, armed, q, now, defaultMaxRounds).Commit?
    ensures !q.CreateTask? ==> s.task.Some?
    ensures var change := PlanRequest(s, armed, q, now, defaultMaxRounds).change;
            && (q.ClearTask? ==> change.ClearChange? && change.cleared == Ref(s.task.value.id, s.task.value.revision + 1))
            && (q.HandOff? ==>
                  && change.SnapshotChange? && TaskRef(change.task) == Ref(s.task.value.id, s.task.value.revision + 1)
                  && change.task.handoffs == s.task.value.handoffs + 1 && StripReason(change.task) == change.task)
  {
    hide ResolveCreate, ResolveEdit, ResolveBlockReason, ValidSnapshot;
  }

  /** The documented next state has a current task, but after a clear; a handoff's is the one its trace names. */
  lemma NextIsCurrent(s: TaskFold, q: Request, now: int, defaultMaxRounds: int)
    requires WellFormed(s)
    requires q.CreateTask? ==> ResolveCreate(q.spec, defaultMaxRounds).Ok?
    requires !q.CreateTask? ==> s.task.Some?
    requires q.EditTask? ==> ResolveEdit(q.patch).Ok?
    requires q.BlockTask? ==> ResolveBlockReason(q.reason).Ok?
    ensures var s' := NextState(s, q, now, defaultMaxRounds);
            && (s'.task.Some? <==> !q.ClearTask?) && (s'.createdAt.Some? <==> !q.ClearTask?) && (s'.updatedAt.Some? <==> !q.ClearTask?)
            && (q.HandOff? ==>
                  s'.task == Some(s.task.value.(revision := s.task.value.revision + 1, handoffs := s.task.value.handoffs + 1)))
  {
    hide ResolveCreate, ResolveEdit, ResolveBlockReason, ValidSnapshot, Patched;
  }

  /**
   * Exactly which steps leave the service armed: an own call that arms or leaves the activation and whose writing
   * the replay takes, or that is turned away; another writer's event that is no change and is taken; and a
   * revocation for an agent that is not live. A session start never does.
   */
  lemma ActivationExactly(sv: Service, step: Step, defaultMaxRounds: int)
    requires ArmedImpliesActive(sv)
    ensures var sv' := Next(sv, step, defaultMaxRounds);
            sv'.armed <==>
            match step
            case Own(live, q, _, _) =>
              if TurnedAway(sv, live, q, defaultMaxRounds).Some? then sv.armed else Accepted(sv'.log) && ArmedBy(q, sv.armed)
            case Revoke(live) => sv.armed && !live
            case Append(event) => sv.armed && !event.ChangeEvent? && Accepted(sv.log + [event])
            case Restart(_) => false
    ensures step.Revoke? ==> Next(sv, step, defaultMaxRounds).log == sv.log
    ensures step.Append? ==> Next(sv, step, defaultMaxRounds).log == sv.log + [step.event]
    ensures step.Restart? ==> Next(sv, step, defaultMaxRounds).log == step.log
  {
    hide Submit, TurnedAway, Fold;
    if step.Own? {
      TurnedAwayExactly(sv, step.live, step.q, step.now, step.at, defaultMaxRounds);
      if TurnedAway(sv, step.live, step.q, defaultMaxRounds).None? {
        WrittenExactly(sv, step.live, step.q, step.now, step.at, defaultMaxRounds);
      }
    }
  }
}
