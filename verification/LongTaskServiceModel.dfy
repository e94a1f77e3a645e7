/**
 * The long-task service seen from outside: a session log plus the activation that a read would
 * report. Laws over whole runs of own mutations, reads, foreign appends and session starts.
 */
module LongTaskServiceModel {
  import opened Wrappers
  import opened LongTaskTypes
  import opened LongTaskFold
  import opened LongTaskLog
  import opened LongTaskRequests

  /** `armed` is the process-local activation after reconciling with the log; a rejected log arms nothing. */
  datatype Service = Service(log: seq<Event>, armed: bool)

  datatype TaskView = TaskView(task: Snapshot, roundsStarted: int, createdAt: int, updatedAt: int, armed: bool)

  datatype Answer = Viewed(view: Option<TaskView>) | Cleared(ref: Ref)

  /** Result of one call: the new service, what the caller gets, and whether `long-task/changed` was emitted. */
  datatype Reply = Reply(service: Service, result: Result<Answer, ServiceError>, announced: bool)

  function ViewOf(s: TaskFold, armed: bool): Option<TaskView>
    requires WellFormed(s)
  {
    if s.task.None? then None
    else Some(TaskView(s.task.value, s.roundsStarted, s.createdAt.value, s.updatedAt.value, armed))
  }

  function FoldOf(log: seq<Event>): (s: TaskFold)
    requires Accepted(log)
    ensures Fold(log) == Ok(s) && WellFormed(s)
  {
    FoldWellFormed(log);
    Fold(log).value
  }

  /** What a read reports. */
  function Get(sv: Service, live: bool): Result<Option<TaskView>, ServiceError> {
    if !live then Err(AgentNotLive)
    else if !Accepted(sv.log) then Err(Replay(Fold(sv.log).error))
    else Ok(ViewOf(FoldOf(sv.log), sv.armed))
  }

  function Disarm(sv: Service, live: bool): Service {
    if live && Accepted(sv.log) then sv.(armed := false) else sv
  }

  /** Another writer appends an event: a change revokes the activation. */
  function Foreign(sv: Service, event: Event): Service {
    Service(sv.log + [event], sv.armed && !event.ChangeEvent? && Accepted(sv.log + [event]))
  }

  /** A session starts, possibly with another log. */
  function Start(log: seq<Event>): Service {
    Service(log, false)
  }

  /** Append a planned change and synchronize; the log keeps the event even when replay then rejects it. */
  function CommitChange(sv: Service, change: Change, armed: bool): Service {
    var log := sv.log + [ChangeEvent(change)];
    Service(log, armed && Accepted(log))
  }

  function HandoffTrace(task: Snapshot, why: HandoffReason, at: int): Event {
    TraceEvent(Trace(TaskRef(task), task.handoffs, why, at))
  }

  /** One mutation call. `at` is the second clock reading a handoff takes for its trace. */
  function Submit(sv: Service, live: bool, q: Request, now: int, at: int, defaultMaxRounds: int): Reply {
    if q.CreateTask? && ResolveCreate(q.spec, defaultMaxRounds).Err?
    then Reply(sv, Err(ResolveCreate(q.spec, defaultMaxRounds).error), false)
    else if !live then Reply(sv, Err(AgentNotLive), false)
    else if !Accepted(sv.log) then Reply(sv, Err(Replay(Fold(sv.log).error)), false)
    else
      match PlanRequest(FoldOf(sv.log), sv.armed, q, now, defaultMaxRounds)
      case Refuse(error) => Reply(sv, Err(error), false)
      case Commit(change, armed) =>
        AfterCommit(CommitChange(sv, change, armed), q, change, armed, at)
  }

  /** What follows a commit: a replay error, or the notification and the answer; a handoff appends its trace last. */
  function AfterCommit(committed: Service, q: Request, change: Change, armed: bool, at: int): Reply
    requires !change.Malformed? && (q.ClearTask? <==> change.ClearChange?)
  {
    if !Accepted(committed.log) then Reply(committed, Err(Replay(Fold(committed.log).error)), false)
    else if q.ClearTask? then Reply(committed, Ok(Cleared(change.cleared)), true)
    else
      var answer := Viewed(ViewOf(FoldOf(committed.log), armed));
      if !q.HandOff? then Reply(committed, Ok(answer), true)
      else
        var traced := Foreign(committed, HandoffTrace(change.task, q.why, at));
        Reply(traced, if Accepted(traced.log) then Ok(answer) else Err(Replay(Fold(traced.log).error)), true)
  }

  // ------------------------------------------------------------------ laws

  /** Continuation authority exists only for a current task in phase `active`. */
  predicate ArmedImpliesActive(sv: Service) {
    sv.armed ==> Accepted(sv.log) && Fold(sv.log).value.task.Some? && Fold(sv.log).value.task.value.phase.Active?
  }

  datatype Step =
    | Own(live: bool, q: Request, now: int, at: int)
    | Revoke(live: bool)
    | Append(event: Event)
    | Restart(log: seq<Event>)

  function Next(sv: Service, step: Step, defaultMaxRounds: int): Service {
    match step
    case Own(live, q, now, at) => Submit(sv, live, q, now, at, defaultMaxRounds).service
    case Revoke(live) => Disarm(sv, live)
    case Append(event) => Foreign(sv, event)
    case Restart(log) => Start(log)
  }

  function Run(sv: Service, steps: seq<Step>, defaultMaxRounds: int): Service {
    if steps == [] then sv
    else Next(Run(sv, steps[..|steps| - 1], defaultMaxRounds), steps[|steps| - 1], defaultMaxRounds)
  }

  /** A non-change event leaves the current snapshot alone. */
  lemma OthersKeepTask(s: TaskFold, event: Event)
    requires !event.ChangeEvent? && ApplyEvent(s, event).Ok?
    ensures ApplyEvent(s, event).value.task == s.task
  {
  }

  /** The change a request commits, replayed: it leaves an armed service only with an active task. */
  lemma CommitKeepsArmedActive(sv: Service, q: Request, now: int, defaultMaxRounds: int)
    requires Accepted(sv.log) && ArmedImpliesActive(sv)
    requires PlanRequest(FoldOf(sv.log), sv.armed, q, now, defaultMaxRounds).Commit?
    ensures var plan := PlanRequest(FoldOf(sv.log), sv.armed, q, now, defaultMaxRounds);
            ArmedImpliesActive(CommitChange(sv, plan.change, plan.armed))
  {
    hide Fold, ValidSnapshot, WellFormed, ResolveCreate, ResolveEdit, ResolveBlockReason, Safe, ApplyEvent;
    FoldWellFormed(sv.log);
    ServiceRefinesFold(sv.log, sv.armed, q, now, defaultMaxRounds);
  }

  lemma SubmitKeepsArmedActive(sv: Service, live: bool, q: Request, now: int, at: int, defaultMaxRounds: int)
    requires ArmedImpliesActive(sv)
    ensures ArmedImpliesActive(Submit(sv, live, q, now, at, defaultMaxRounds).service)
  {
    var reply := Submit(sv, live, q, now, at, defaultMaxRounds);
    if Accepted(sv.log) && live && PlanRequest(FoldOf(sv.log), sv.armed, q, now, defaultMaxRounds).Commit? {
      CommitKeepsArmedActive(sv, q, now, defaultMaxRounds);
      var plan := PlanRequest(FoldOf(sv.log), sv.armed, q, now, defaultMaxRounds);
      var committed := CommitChange(sv, plan.change, plan.armed);
      if q.HandOff? && Accepted(committed.log) {
        var trace := HandoffTrace(plan.change.task, q.why, at);
        FoldSnoc(committed.log, trace);
      }
    }
  }

  lemma StepKeepsArmedActive(sv: Service, step: Step, defaultMaxRounds: int)
    requires ArmedImpliesActive(sv)
    ensures ArmedImpliesActive(Next(sv, step, defaultMaxRounds))
  {
    match step
    case Own(live, q, now, at) => SubmitKeepsArmedActive(sv, live, q, now, at, defaultMaxRounds);
    case Append(event) =>
      FoldSnoc(sv.log, event);
      if Foreign(sv, event).armed { OthersKeepTask(Fold(sv.log).value, event); }
    case _ =>
  }

  /** In every state reachable from a disarmed start, armed implies an active current task. */
  lemma {:induction false} ArmedAlwaysActive(log: seq<Event>, steps: seq<Step>, defaultMaxRounds: int)
    ensures ArmedImpliesActive(Run(Start(log), steps, defaultMaxRounds))
  {
    if steps != [] {
      ArmedAlwaysActive(log, steps[..|steps| - 1], defaultMaxRounds);
      StepKeepsArmedActive(Run(Start(log), steps[..|steps| - 1], defaultMaxRounds), steps[|steps| - 1], defaultMaxRounds);
    }
  }

  /** Only this process's own create or resume, once committed, turns a disarmed service armed. */
  lemma OnlyCreateOrResumeArms(sv: Service, step: Step, defaultMaxRounds: int)
    requires !sv.armed && Next(sv, step, defaultMaxRounds).armed
    ensures step.Own? && (step.q.CreateTask? || step.q.ResumeTask?)
    ensures Submit(sv, step.live, step.q, step.now, step.at, defaultMaxRounds).result.Ok?
  {
    hide Fold, ResolveCreate, ResolveEdit, ResolveBlockReason, ValidSnapshot, ViewOf;
  }

  /** The trace of the current revision is accepted exactly when its clock reading is representable, and changes nothing. */
  lemma TraceAccepted(s: TaskFold, why: HandoffReason, at: int)
    requires WellFormed(s) && s.task.Some?
    ensures ApplyEvent(s, HandoffTrace(s.task.value, why, at)) == if NonNegativeInteger(at) then Ok(s) else Err(Undecodable)
  {
  }

  /** A handoff is announced and re-read unchanged exactly when its change is safe and its trace carries a representable clock. */
  lemma HandoffAccepted(sv: Service, ref: Ref, why: HandoffReason, now: int, at: int, defaultMaxRounds: int)
    requires Accepted(sv.log)
    requires PlanRequest(FoldOf(sv.log), sv.armed, HandOff(ref, why), now, defaultMaxRounds).Commit?
    ensures var reply := Submit(sv, true, HandOff(ref, why), now, at, defaultMaxRounds);
            && (reply.result.Ok? <==> Safe(FoldOf(sv.log), HandOff(ref, why), now) && NonNegativeInteger(at))
            && (reply.result.Ok? ==>
                  && reply.result == Ok(Viewed(Get(reply.service, true).value))
                  && reply.service.armed == sv.armed)
  {
    hide Fold, ValidSnapshot, ApplyEvent;
    var q := HandOff(ref, why);
    var s := FoldOf(sv.log);
    FoldWellFormed(sv.log);
    ServiceRefinesFold(sv.log, sv.armed, q, now, defaultMaxRounds);
    var plan := PlanRequest(s, sv.armed, q, now, defaultMaxRounds);
    var log := CommitChange(sv, plan.change, plan.armed).log;
    if Accepted(log) {
      var s' := FoldOf(log);
      assert s'.task == Some(plan.change.task);
      TraceAccepted(s', why, at);
      FoldSnoc(log, HandoffTrace(plan.change.task, why, at));
    }
  }

  // ------------------------------------------------------- logs written by services

  /** No change of the log moves the handoff counter outside a handoff. */
  predicate CountsHandoffs(log: seq<Event>) {
    forall n :: 0 <= n < |log| ==> KeepsHandoffs(log, n)
  }

  lemma CountsSnoc(log: seq<Event>, event: Event)
    requires CountsHandoffs(log) && KeepsHandoffs(log + [event], |log|)
    ensures CountsHandoffs(log + [event])
  {
    hide Accepted, Fold;
    forall n | 0 <= n < |log| ensures KeepsHandoffs(log + [event], n) {
      assert (log + [event])[..n] == log[..n];
      assert KeepsHandoffs(log, n);
    }
  }

  lemma SubmitCounts(sv: Service, live: bool, q: Request, now: int, at: int, defaultMaxRounds: int)
    requires CountsHandoffs(sv.log)
    ensures CountsHandoffs(Submit(sv, live, q, now, at, defaultMaxRounds).service.log)
  {
    hide CountsHandoffs, Fold, ResolveCreate, PlanRequest, ViewOf;
    if Accepted(sv.log) && live && PlanRequest(FoldOf(sv.log), sv.armed, q, now, defaultMaxRounds).Commit? {
      var plan := PlanRequest(FoldOf(sv.log), sv.armed, q, now, defaultMaxRounds);
      var committed := sv.log + [ChangeEvent(plan.change)];
      PlannedChangeKeepsHandoffs(sv.log, sv.armed, q, now, defaultMaxRounds);
      CountsSnoc(sv.log, ChangeEvent(plan.change));
      if q.HandOff? { CountsSnoc(committed, HandoffTrace(plan.change.task, q.why, at)); }
    }
  }

  /** A step by which no one but the service writes task changes. */
  predicate OwnChangesOnly(step: Step) {
    step.Own? || step.Revoke? || (step.Append? && !step.event.ChangeEvent?)
  }

  /** In every log whose task changes only services wrote, `handoffs` counts the handoffs since the create. */
  lemma {:induction false} OwnLogsCountHandoffs(steps: seq<Step>, defaultMaxRounds: int)
    requires forall i :: 0 <= i < |steps| ==> OwnChangesOnly(steps[i])
    ensures var log := Run(Start([]), steps, defaultMaxRounds).log;
            && CountsHandoffs(log)
            && (Accepted(log) && Fold(log).value.task.Some? ==> Fold(log).value.task.value.handoffs == HandoffCount(log))
  {
    var sv := Run(Start([]), steps, defaultMaxRounds);
    if steps != [] {
      hide Submit, CountsHandoffs, Fold;
      var before, step := steps[..|steps| - 1], steps[|steps| - 1];
      OwnLogsCountHandoffs(before, defaultMaxRounds);
      var prior := Run(Start([]), before, defaultMaxRounds);
      match step
      case Own(live, q, now, at) => SubmitCounts(prior, live, q, now, at, defaultMaxRounds);
      case Append(event) => CountsSnoc(prior.log, event);
      case _ =>
    }
    CountedHandoffs(sv.log);
  }

  lemma CountedHandoffs(log: seq<Event>)
    requires CountsHandoffs(log)
    ensures Accepted(log) && Fold(log).value.task.Some? ==> Fold(log).value.task.value.handoffs == HandoffCount(log)
  {
    if Accepted(log) && Fold(log).value.task.Some? { HandoffConservation(log); }
  }
}
