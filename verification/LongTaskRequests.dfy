/**
 * What the long-task service does with one request: it validates and normalizes the input, refuses
 * or builds a change, and stamps a clamped time. The laws say that the strict fold accepts what is
 * built, exactly when, and which state results.
 */
module LongTaskRequests {
  import opened Wrappers
  import opened LongTaskTypes
  import opened LongTaskFold
  import opened LongTaskLog
  import Text

  datatype ServiceError =
    | AgentNotLive
    | NotFound
    | AlreadyExists
    | StaleRevision
    | InvalidObjective
    | InvalidNext
    | InvalidMaxRounds
    | InvalidCore
    | InvalidCheckpoints
    | InvalidOpenQuestions
    | InvalidBlockReason
    | InvalidEdit
    | InvalidTransition
    | Replay(error: FoldError)

  datatype CreateRequest = CreateRequest(
    objective: string,
    next: string,
    maxRounds: Option<int>,
    core: Option<seq<string>>,
    checkpoints: Option<seq<Checkpoint>>,
    openQuestions: Option<seq<OpenQuestion>>)

  datatype EditRequest = EditRequest(
    objective: Option<string>,
    next: Option<string>,
    maxRounds: Option<int>,
    core: Option<seq<string>>,
    checkpoints: Option<seq<Checkpoint>>,
    openQuestions: Option<seq<OpenQuestion>>)

  datatype Request =
    | CreateTask(id: TaskId, spec: CreateRequest)
    | EditTask(ref: Ref, patch: EditRequest)
    | PauseTask(ref: Ref)
    | ResumeTask(ref: Ref)
    | CompleteTask(ref: Ref)
    | BlockTask(ref: Ref, reason: BlockReason)
    | HandOff(ref: Ref, why: HandoffReason)
    | ClearTask(ref: Ref)

  // -------------------------------------------------- input normalization

  function ResolveMaxRounds(value: int): Result<int, ServiceError> {
    if PositiveInteger(value) then Ok(value) else Err(InvalidMaxRounds)
  }

  function ResolveRequired(value: string, error: ServiceError): Result<string, ServiceError> {
    if |Text.Trim(value)| == 0 then Err(error) else Ok(Text.Trim(value))
  }

  function TrimAll(core: seq<string>): seq<string> {
    seq(|core|, i requires 0 <= i < |core| => Text.Trim(core[i]))
  }

  function ResolveCore(value: seq<string>): Result<seq<string>, ServiceError> {
    if |value| > MAX_CORE || exists entry :: entry in value && |Text.Trim(entry)| == 0 then Err(InvalidCore)
    else Ok(TrimAll(value))
  }

  predicate UsableCheckpoint(c: Checkpoint, index: nat) {
    c.ordinal == index + 1 && |Text.Trim(c.statement)| > 0 && |Text.Trim(c.verifiedBy)| > 0
  }

  function TrimCheckpoints(value: seq<Checkpoint>): seq<Checkpoint> {
    seq(|value|, i requires 0 <= i < |value| =>
      Checkpoint(value[i].ordinal, Text.Trim(value[i].statement), Text.Trim(value[i].verifiedBy)))
  }

  function ResolveCheckpoints(value: seq<Checkpoint>): Result<seq<Checkpoint>, ServiceError> {
    if (exists i :: 0 <= i < |value| && !UsableCheckpoint(value[i], i)) || |value| > MAX_CHECKPOINTS
    then Err(InvalidCheckpoints)
    else Ok(TrimCheckpoints(value))
  }

  predicate UsableQuestion(q: OpenQuestion, index: nat) {
    q.ordinal == index + 1 && |Text.Trim(q.question)| > 0 && |Text.Trim(q.settledBy)| > 0
  }

  function TrimQuestions(value: seq<OpenQuestion>): seq<OpenQuestion> {
    seq(|value|, i requires 0 <= i < |value| =>
      OpenQuestion(value[i].ordinal, Text.Trim(value[i].question), Text.Trim(value[i].settledBy),
                   value[i].closesCheckpoint))
  }

  /** Questions are checked against the checkpoints of the same request. */
  function ResolveOpenQuestions(value: seq<OpenQuestion>, checkpoints: seq<Checkpoint>):
    Result<seq<OpenQuestion>, ServiceError>
  {
    if (exists i :: 0 <= i < |value| && !UsableQuestion(value[i], i)) || |value| > MAX_OPEN_QUESTIONS
       || !ClosuresKnown(TrimQuestions(value), checkpoints)
    then Err(InvalidOpenQuestions)
    else Ok(TrimQuestions(value))
  }

  function ResolveBlockReason(reason: BlockReason): Result<BlockReason, ServiceError> {
    if LowerKebab(reason.code) && |Text.Trim(reason.message)| > 0
    then Ok(BlockReason(reason.code, Text.Trim(reason.message)))
    else Err(InvalidBlockReason)
  }

  /** A create request with defaults filled in and every field validated. */
  datatype Definition = Definition(
    objective: string, next: string, maxRounds: int, core: seq<string>,
    checkpoints: seq<Checkpoint>, openQuestions: seq<OpenQuestion>)

  function ResolveCreate(spec: CreateRequest, defaultMaxRounds: int): Result<Definition, ServiceError> {
    var checkpoints :- ResolveCheckpoints(spec.checkpoints.GetOr([]));
    var objective :- ResolveRequired(spec.objective, InvalidObjective);
    var next :- ResolveRequired(spec.next, InvalidNext);
    var maxRounds :- ResolveMaxRounds(spec.maxRounds.GetOr(defaultMaxRounds));
    var core :- ResolveCore(spec.core.GetOr([]));
    var questions :- ResolveOpenQuestions(spec.openQuestions.GetOr([]), checkpoints);
    Ok(Definition(objective, next, maxRounds, core, checkpoints, questions))
  }

  /** Resolve the present fields of an edit; absent fields stay absent. */
  function ResolveEdit(patch: EditRequest): Result<EditRequest, ServiceError> {
    if patch == EditRequest(None, None, None, None, None, None) then Err(InvalidEdit)
    else
      var checkpoints :- if patch.checkpoints.None? then Ok([]) else ResolveCheckpoints(patch.checkpoints.value);
      var objective :- if patch.objective.None? then Ok("") else ResolveRequired(patch.objective.value, InvalidObjective);
      var next :- if patch.next.None? then Ok("") else ResolveRequired(patch.next.value, InvalidNext);
      var maxRounds :- if patch.maxRounds.None? then Ok(0) else ResolveMaxRounds(patch.maxRounds.value);
      var core :- if patch.core.None? then Ok([]) else ResolveCore(patch.core.value);
      var questions :- if patch.openQuestions.None? then Ok([])
                       else ResolveOpenQuestions(patch.openQuestions.value, checkpoints);
      Ok(EditRequest(
           if patch.objective.None? then None else Some(objective),
           if patch.next.None? then None else Some(next),
           if patch.maxRounds.None? then None else Some(maxRounds),
           if patch.core.None? then None else Some(core),
           if patch.checkpoints.None? then None else Some(checkpoints),
           if patch.openQuestions.None? then None else Some(questions)))
  }

  // ------------------------------------------------------------- planning

  datatype Plan = Refuse(error: ServiceError) | Commit(change: Change, armed: bool)

  function Max(a: int, b: int): int {
    if a >= b then a else b
  }

  /** A mutation's time never precedes the task's newest update, even when the clock moves back. */
  function NextMutationTime(s: TaskFold, now: int): int
    requires s.updatedAt.Some?
  {
    Max(now, s.updatedAt.value)
  }

  function ExpectCurrent(s: TaskFold, ref: Ref): Result<Snapshot, ServiceError> {
    if s.task.None? then Err(NotFound)
    else if ref != TaskRef(s.task.value) then Err(StaleRevision)
    else Ok(s.task.value)
  }

  function Bump(task: Snapshot): Snapshot {
    task.(revision := task.revision + 1)
  }

  function WithPhase(task: Snapshot, phase: Phase): Snapshot {
    Bump(task).(phase := phase)
  }

  /** Spread of resolved fields over the current snapshot. */
  function Patched(task: Snapshot, patch: EditRequest): Snapshot {
    task.(objective := patch.objective.GetOr(task.objective),
          next := patch.next.GetOr(task.next),
          maxRounds := patch.maxRounds.GetOr(task.maxRounds),
          core := patch.core.GetOr(task.core),
          checkpoints := patch.checkpoints.GetOr(task.checkpoints),
          openQuestions := patch.openQuestions.GetOr(task.openQuestions))
  }

  function CurrentChange(s: TaskFold, operation: Operation, task: Snapshot, now: int): Change
    requires s.createdAt.Some? && s.updatedAt.Some?
  {
    SnapshotChange(operation, task, s.roundsStarted, s.createdAt.value, NextMutationTime(s, now))
  }

  /** The decision the service takes on a request against a synchronized fold, before anything is appended. */
  function PlanRequest(s: TaskFold, armed: bool, q: Request, now: int, defaultMaxRounds: int): (plan: Plan)
    requires WellFormed(s)
    ensures plan.Commit? ==> !plan.change.Malformed? && (q.ClearTask? <==> plan.change.ClearChange?)
  {
    if q.CreateTask? then
      match ResolveCreate(q.spec, defaultMaxRounds)
      case Err(error) => Refuse(error)
      case Ok(d) =>
        if s.task.Some? && !s.task.value.phase.Complete? then Refuse(AlreadyExists)
        else
          var task := Snapshot(q.id, 1, d.objective, Active, None, d.core, d.checkpoints, d.openQuestions,
                               d.next, d.maxRounds, 0);
          Commit(SnapshotChange(Create, task, 0, now, now), true)
    else
      match ExpectCurrent(s, q.ref)
      case Err(error) => Refuse(error)
      case Ok(current) =>
        match q
        case EditTask(_, patch) =>
          (match ResolveEdit(patch)
           case Err(error) => Refuse(error)
           case Ok(resolved) => Commit(CurrentChange(s, Edit, Patched(Bump(current), resolved), now), armed))
        case PauseTask(_) =>
          if !current.phase.Active? then Refuse(InvalidTransition)
          else Commit(CurrentChange(s, Pause, WithPhase(current, Paused), now), false)
        case ResumeTask(_) =>
          if current.phase.Complete? then Refuse(InvalidTransition)
          else if current.phase.Active? && armed then Refuse(InvalidTransition)
          else if s.roundsStarted >= current.maxRounds then Refuse(InvalidTransition)
          else Commit(CurrentChange(s, Resume, WithPhase(current, Active), now), true)
        case CompleteTask(_) =>
          if current.phase.Complete? then Refuse(InvalidTransition)
          else Commit(CurrentChange(s, Finish, WithPhase(current, Complete), now), false)
        case BlockTask(_, reason) =>
          if !current.phase.Active? then Refuse(InvalidTransition)
          else
            (match ResolveBlockReason(reason)
             case Err(error) => Refuse(error)
             case Ok(resolved) =>
               Commit(CurrentChange(s, Block, WithPhase(current, Blocked).(blockedReason := Some(resolved)), now), false))
        case HandOff(_, _) =>
          if !current.phase.Active? then Refuse(InvalidTransition)
          else Commit(CurrentChange(s, Handoff, Bump(current).(handoffs := current.handoffs + 1), now), armed)
        case ClearTask(_) =>
          Commit(ClearChange(Ref(current.id, current.revision + 1), NextMutationTime(s, now)), false)
  }

  // ------------------------------------------- resolved input decodes cleanly

  lemma ResolvedCore(value: seq<string>)
    requires ResolveCore(value).Ok?
    ensures ValidCore(ResolveCore(value).value)
  {
    var r := ResolveCore(value).value;
    forall entry | entry in r ensures Text.Normalized(entry) {
      var i :| 0 <= i < |r| && r[i] == entry;
      assert value[i] in value;
      Text.TrimNormalizes(value[i]);
    }
  }

  lemma ResolvedCheckpoints(value: seq<Checkpoint>)
    requires ResolveCheckpoints(value).Ok?
    ensures var r := ResolveCheckpoints(value).value;
            && (forall c :: c in r ==> ValidCheckpoint(c))
            && ValidOrdinals(CheckpointOrdinals(r), MAX_CHECKPOINTS)
  {
    var r := ResolveCheckpoints(value).value;
    forall i | 0 <= i < |r| ensures ValidCheckpoint(r[i]) && r[i].ordinal == i + 1 {
      assert UsableCheckpoint(value[i], i);
      Text.TrimNormalizes(value[i].statement);
      Text.TrimNormalizes(value[i].verifiedBy);
    }
  }

  /** With checkpoints numbered from one, a closure is known exactly when it is within their number. */
  lemma KnownByNumber(ordinal: int, checkpoints: seq<Checkpoint>)
    requires ValidOrdinals(CheckpointOrdinals(checkpoints), MAX_CHECKPOINTS)
    ensures KnownCheckpoint(ordinal, checkpoints) <==> 1 <= ordinal <= |checkpoints|
  {
    assert forall i :: 0 <= i < |checkpoints| ==> checkpoints[i].ordinal == CheckpointOrdinals(checkpoints)[i] == i + 1;
    if 1 <= ordinal <= |checkpoints| {
      assert checkpoints[ordinal - 1] in checkpoints;
    }
    if KnownCheckpoint(ordinal, checkpoints) {
      var c :| c in checkpoints && c.ordinal == ordinal;
      var i :| 0 <= i < |checkpoints| && checkpoints[i] == c;
    }
  }

  lemma ResolvedQuestions(value: seq<OpenQuestion>, checkpoints: seq<Checkpoint>)
    requires ResolveOpenQuestions(value, checkpoints).Ok?
    requires ValidOrdinals(CheckpointOrdinals(checkpoints), MAX_CHECKPOINTS)
    ensures var r := ResolveOpenQuestions(value, checkpoints).value;
            && (forall q :: q in r ==> ValidQuestion(q))
            && ValidOrdinals(QuestionOrdinals(r), MAX_OPEN_QUESTIONS)
            && ClosuresKnown(r, checkpoints)
  {
    var r := ResolveOpenQuestions(value, checkpoints).value;
    forall i | 0 <= i < |r| ensures ValidQuestion(r[i]) && r[i].ordinal == i + 1 {
      assert UsableQuestion(value[i], i);
      Text.TrimNormalizes(value[i].question);
      Text.TrimNormalizes(value[i].settledBy);
      if r[i].closesCheckpoint.Some? {
        assert r[i] in r;
        KnownByNumber(r[i].closesCheckpoint.value, checkpoints);
      }
    }
  }

  lemma ResolvedDefinition(spec: CreateRequest, defaultMaxRounds: int, id: TaskId)
    requires ResolveCreate(spec, defaultMaxRounds).Ok? && id != ""
    ensures var d := ResolveCreate(spec, defaultMaxRounds).value;
            ValidSnapshot(Snapshot(id, 1, d.objective, Active, None, d.core, d.checkpoints, d.openQuestions,
                                   d.next, d.maxRounds, 0))
  {
    ResolvedCheckpoints(spec.checkpoints.GetOr([]));
    ResolvedCore(spec.core.GetOr([]));
    Text.TrimNormalizes(spec.objective);
    Text.TrimNormalizes(spec.next);
    ResolvedQuestions(spec.openQuestions.GetOr([]), ResolveCheckpoints(spec.checkpoints.GetOr([])).value);
  }

  /** The side condition of an edit that replaces the checkpoints alone: the kept questions still close existing ones. */
  predicate KeptQuestionsClose(current: Snapshot, patch: EditRequest) {
    patch.checkpoints.Some? && patch.openQuestions.None? ==>
      forall q :: q in current.openQuestions && q.closesCheckpoint.Some? ==>
        q.closesCheckpoint.value <= |patch.checkpoints.value|
  }

  lemma ResolvedPatch(current: Snapshot, patch: EditRequest)
    requires ResolveEdit(patch).Ok? && ValidSnapshot(current) && current.revision < MAX_SAFE
    ensures ValidSnapshot(Patched(Bump(current), ResolveEdit(patch).value)) <==> KeptQuestionsClose(current, patch)
  {
    hide Text.Normalized, Text.Trim, ValidBlockReason, TrimAll;
    var resolved := ResolveEdit(patch).value;
    var next := Patched(Bump(current), resolved);
    if patch.objective.Some? { Text.TrimNormalizes(patch.objective.value); }
    if patch.next.Some? { Text.TrimNormalizes(patch.next.value); }
    if patch.core.Some? { ResolvedCore(patch.core.value); }
    if patch.checkpoints.Some? { ResolvedCheckpoints(patch.checkpoints.value); }
    if patch.openQuestions.Some? {
      var own := if patch.checkpoints.Some? then ResolveCheckpoints(patch.checkpoints.value).value else [];
      ResolvedQuestions(patch.openQuestions.value, own);
      if patch.checkpoints.None? {
        forall q | q in next.openQuestions ensures q.closesCheckpoint.None? {
          KnownByNumber(q.closesCheckpoint.GetOr(0), own);
        }
      }
    } else {
      forall q | q in current.openQuestions && q.closesCheckpoint.Some?
        ensures KnownCheckpoint(q.closesCheckpoint.value, next.checkpoints) <==>
                q.closesCheckpoint.value <= |next.checkpoints|
        ensures KnownCheckpoint(q.closesCheckpoint.value, current.checkpoints)
      {
        KnownByNumber(q.closesCheckpoint.value, next.checkpoints);
      }
    }
  }

  // ------------------------------------------------ the service refines the fold

  /**
   * Everything a caller can check before a request that passes the service's own checks:
   * a fresh identifier and a representable clock for a create, room in the counters, and,
   * for an edit, that kept questions still close existing checkpoints.
   */
  predicate Safe(s: TaskFold, q: Request, now: int) {
    match q
    case CreateTask(id, _) => id != "" && id !in s.seenTaskIds && NonNegativeInteger(now)
    case _ =>
      && s.task.Some? && s.task.value.revision < MAX_SAFE && now <= MAX_SAFE
      && (q.EditTask? ==> KeptQuestionsClose(s.task.value, q.patch))
      && (q.HandOff? ==> s.task.value.handoffs < MAX_SAFE)
  }

  /** The fold after a non-create snapshot: counters and creation time stay, the time is clamped. */
  function Advanced(s: TaskFold, task: Snapshot, now: int): TaskFold
    requires s.updatedAt.Some?
  {
    s.(task := Some(task), updatedAt := Some(Max(now, s.updatedAt.value)), lastRef := Some(TaskRef(task)))
  }

  /** The state each operation is documented to lead to. */
  function NextState(s: TaskFold, q: Request, now: int, defaultMaxRounds: int): TaskFold
    requires WellFormed(s)
    requires q.CreateTask? ==> ResolveCreate(q.spec, defaultMaxRounds).Ok?
    requires !q.CreateTask? ==> s.task.Some?
    requires q.EditTask? ==> ResolveEdit(q.patch).Ok?
    requires q.BlockTask? ==> ResolveBlockReason(q.reason).Ok?
  {
    match q
    case CreateTask(id, spec) =>
      var d := ResolveCreate(spec, defaultMaxRounds).value;
      var task := Snapshot(id, 1, d.objective, Active, None, d.core, d.checkpoints, d.openQuestions, d.next, d.maxRounds, 0);
      TaskFold(Some(task), 0, Some(now), Some(now), Some(Ref(id, 1)), s.seenTaskIds + {id})
    case EditTask(_, patch) => Advanced(s, Patched(Bump(s.task.value), ResolveEdit(patch).value), now)
    case PauseTask(_) => Advanced(s, Bump(s.task.value).(phase := Paused), now)
    case ResumeTask(_) => Advanced(s, Bump(s.task.value).(phase := Active, blockedReason := None), now)
    case CompleteTask(_) => Advanced(s, Bump(s.task.value).(phase := Complete, blockedReason := None), now)
    case BlockTask(_, reason) =>
      Advanced(s, Bump(s.task.value).(phase := Blocked, blockedReason := Some(ResolveBlockReason(reason).value)), now)
    case HandOff(_, _) => Advanced(s, Bump(s.task.value).(handoffs := s.task.value.handoffs + 1), now)
    case ClearTask(_) =>
      TaskFold(None, 0, None, None, Some(Ref(s.task.value.id, s.task.value.revision + 1)), s.seenTaskIds)
  }

  lemma PlannedCreate(s: TaskFold, armed: bool, q: Request, now: int, defaultMaxRounds: int)
    requires WellFormed(s) && q.CreateTask? && PlanRequest(s, armed, q, now, defaultMaxRounds).Commit?
    ensures ResolveCreate(q.spec, defaultMaxRounds).Ok?
    ensures var event := ChangeEvent(PlanRequest(s, armed, q, now, defaultMaxRounds).change);
            && (ApplyEvent(s, event).Ok? <==> Safe(s, q, now))
            && (Safe(s, q, now) ==> ApplyEvent(s, event) == Ok(NextState(s, q, now, defaultMaxRounds)))
  {
    if q.id != "" {
      ResolvedDefinition(q.spec, defaultMaxRounds, q.id);
    }
  }

  lemma PlannedEdit(s: TaskFold, armed: bool, q: Request, now: int, defaultMaxRounds: int)
    requires WellFormed(s) && q.EditTask? && PlanRequest(s, armed, q, now, defaultMaxRounds).Commit?
    ensures s.task.Some? && ResolveEdit(q.patch).Ok?
    ensures var event := ChangeEvent(PlanRequest(s, armed, q, now, defaultMaxRounds).change);
            && (ApplyEvent(s, event).Ok? <==> Safe(s, q, now))
            && (Safe(s, q, now) ==> ApplyEvent(s, event) == Ok(NextState(s, q, now, defaultMaxRounds)))
  {
    hide Text.Normalized, Text.Join, Text.Trim, ValidBlockReason;
    EditedPatch(s.task.value, q.patch);
  }

  /** An edited snapshot keeps id, phase, handoffs and reason, and is valid exactly under the side condition. */
  lemma EditedPatch(current: Snapshot, patch: EditRequest)
    requires ResolveEdit(patch).Ok? && ValidSnapshot(current)
    ensures var next := Patched(Bump(current), ResolveEdit(patch).value);
            ValidSnapshot(next) <==> current.revision < MAX_SAFE && KeptQuestionsClose(current, patch)
  {
    if current.revision < MAX_SAFE { ResolvedPatch(current, patch); }
  }

  /** A snapshot that keeps the ledger and only moves phase, reason and handoff count. */
  predicate SameLedger(current: Snapshot, raw: Snapshot) {
    && raw == current.(revision := current.revision + 1, phase := raw.phase, handoffs := raw.handoffs,
                       blockedReason := raw.blockedReason)
    && (raw.phase.Blocked? ==> raw.blockedReason.Some? && ValidBlockReason(raw.blockedReason.value))
    && current.handoffs <= raw.handoffs
  }

  lemma MoveAccepted(s: TaskFold, operation: Operation, raw: Snapshot, now: int)
    requires WellFormed(s) && s.task.Some? && !operation.Create?
    requires SameLedger(s.task.value, raw) && LegalMove(s, operation, s.task.value, StripReason(raw))
    ensures var event := ChangeEvent(CurrentChange(s, operation, raw, now));
            && (ApplyEvent(s, event).Ok? <==> raw.revision <= MAX_SAFE && now <= MAX_SAFE && raw.handoffs <= MAX_SAFE)
            && (ApplyEvent(s, event).Ok? ==> ApplyEvent(s, event) == Ok(Advanced(s, StripReason(raw), now)))
  {
    var change := CurrentChange(s, operation, raw, now);
    assert ValidSnapshot(raw) <==> raw.revision <= MAX_SAFE && raw.handoffs <= MAX_SAFE;
    assert ValidChange(change) <==> ValidSnapshot(raw) && now <= MAX_SAFE;
    if ValidChange(change) {
      assert TransitionError(s, change.(task := StripReason(raw)), s.task.value) == None;
    }
  }

  lemma PlannedMove(s: TaskFold, armed: bool, q: Request, now: int, defaultMaxRounds: int)
    requires WellFormed(s) && PlanRequest(s, armed, q, now, defaultMaxRounds).Commit?
    requires q.PauseTask? || q.ResumeTask? || q.CompleteTask? || q.BlockTask? || q.HandOff?
    ensures s.task.Some? && (q.BlockTask? ==> ResolveBlockReason(q.reason).Ok?)
    ensures var event := ChangeEvent(PlanRequest(s, armed, q, now, defaultMaxRounds).change);
            && (ApplyEvent(s, event).Ok? <==> Safe(s, q, now))
            && (Safe(s, q, now) ==> ApplyEvent(s, event) == Ok(NextState(s, q, now, defaultMaxRounds)))
  {
    hide Text.Normalized, LowerKebab, Text.Join;
    var change := PlanRequest(s, armed, q, now, defaultMaxRounds).change;
    if q.BlockTask? {
      Text.TrimNormalizes(q.reason.message);
    }
    MoveAccepted(s, change.operation, change.task, now);
  }

  lemma PlannedClear(s: TaskFold, armed: bool, q: Request, now: int, defaultMaxRounds: int)
    requires WellFormed(s) && q.ClearTask? && PlanRequest(s, armed, q, now, defaultMaxRounds).Commit?
    ensures s.task.Some?
    ensures var event := ChangeEvent(PlanRequest(s, armed, q, now, defaultMaxRounds).change);
            && (ApplyEvent(s, event).Ok? <==> Safe(s, q, now))
            && (Safe(s, q, now) ==> ApplyEvent(s, event) == Ok(NextState(s, q, now, defaultMaxRounds)))
  {
  }

  /**
   * From any accepted log and for any clock, forwards or backwards, a request that passes the service's
   * own checks appends an event that the strict fold accepts exactly when `Safe` holds, and then the
   * replayed state is the documented one.
   */
  lemma ServiceRefinesFold(log: seq<Event>, armed: bool, q: Request, now: int, defaultMaxRounds: int)
    requires Accepted(log) && WellFormed(Fold(log).value)
    requires PlanRequest(Fold(log).value, armed, q, now, defaultMaxRounds).Commit?
    ensures q.CreateTask? ==> ResolveCreate(q.spec, defaultMaxRounds).Ok?
    ensures !q.CreateTask? ==> Fold(log).value.task.Some?
    ensures q.EditTask? ==> ResolveEdit(q.patch).Ok?
    ensures q.BlockTask? ==> ResolveBlockReason(q.reason).Ok?
    ensures var s := Fold(log).value;
            var event := ChangeEvent(PlanRequest(s, armed, q, now, defaultMaxRounds).change);
            && (Accepted(log + [event]) <==> Safe(s, q, now))
            && (Safe(s, q, now) ==> Fold(log + [event]) == Ok(NextState(s, q, now, defaultMaxRounds)))
  {
    var s := Fold(log).value;
    FoldSnoc(log, ChangeEvent(PlanRequest(s, armed, q, now, defaultMaxRounds).change));
    if q.CreateTask? {
      PlannedCreate(s, armed, q, now, defaultMaxRounds);
    } else if q.EditTask? {
      PlannedEdit(s, armed, q, now, defaultMaxRounds);
    } else if q.ClearTask? {
      PlannedClear(s, armed, q, now, defaultMaxRounds);
    } else {
      PlannedMove(s, armed, q, now, defaultMaxRounds);
    }
  }

  /** What the service appends keeps the handoff counter outside a handoff, so its logs count handoffs. */
  lemma PlannedChangeKeepsHandoffs(log: seq<Event>, armed: bool, q: Request, now: int, defaultMaxRounds: int)
    requires Accepted(log) && WellFormed(Fold(log).value)
    requires PlanRequest(Fold(log).value, armed, q, now, defaultMaxRounds).Commit?
    ensures var event := ChangeEvent(PlanRequest(Fold(log).value, armed, q, now, defaultMaxRounds).change);
            KeepsHandoffs(log + [event], |log|)
  {
    hide Fold, ValidSnapshot, ResolveCreate, ResolveEdit, ResolveBlockReason;
    var event := ChangeEvent(PlanRequest(Fold(log).value, armed, q, now, defaultMaxRounds).change);
    assert (log + [event])[..|log|] == log;
  }

  /**
   * Compare-and-set: once a request naming a ref has been committed and accepted, every later request
   * naming that ref is refused, across later edits, clears and replacements.
   */
  lemma AtMostOneWins(before: seq<Event>, after: seq<Event>, armed: bool, armed': bool,
                      q: Request, q': Request, now: int, now': int, defaultMaxRounds: int)
    requires Accepted(before) && WellFormed(Fold(before).value) && Accepted(after) && WellFormed(Fold(after).value)
    requires !q.CreateTask? && !q'.CreateTask? && q.ref == q'.ref
    requires PlanRequest(Fold(before).value, armed, q, now, defaultMaxRounds).Commit?
    requires before + [ChangeEvent(PlanRequest(Fold(before).value, armed, q, now, defaultMaxRounds).change)] <= after
    ensures var plan := PlanRequest(Fold(after).value, armed', q', now', defaultMaxRounds);
            plan == Refuse(NotFound) || plan == Refuse(StaleRevision)
  {
    hide Fold, ValidSnapshot, ResolveEdit, ResolveBlockReason;
    FoldRefsBehind(after);
    var event := ChangeEvent(PlanRequest(Fold(before).value, armed, q, now, defaultMaxRounds).change);
    assert after[|before|] == event;
    assert ChangeRef(event.change) == Ref(q.ref.id, q.ref.revision + 1);
  }

  function OperationOf(q: Request): Operation
    requires !q.ClearTask?
  {
    match q
    case CreateTask(_, _) => Create
    case EditTask(_, _) => Edit
    case PauseTask(_) => Pause
    case ResumeTask(_) => Resume
    case CompleteTask(_) => Finish
    case BlockTask(_, _) => Block
    case HandOff(_, _) => Handoff
  }

  /**
   * The service refuses no transition the fold would take: where it finds the phase, the budget or an
   * existing task in the way, the fold refuses every change of that operation. The one refusal of its
   * own is resuming a task that is active and armed already.
   */
  lemma RefusalsWarranted(s: TaskFold, armed: bool, q: Request, now: int, defaultMaxRounds: int, change: Change)
    requires WellFormed(s)
    requires PlanRequest(s, armed, q, now, defaultMaxRounds) in [Refuse(InvalidTransition), Refuse(AlreadyExists)]
    requires !(q.ResumeTask? && armed && s.task.Some? && s.task.value.phase.Active?)
    requires !q.ClearTask? && change.SnapshotChange? && change.operation == OperationOf(q)
    ensures ApplyChange(s, change).Err?
  {
    hide ValidSnapshot, Text.Join;
    if q.CreateTask? {
      ResolveErrors(q.spec, defaultMaxRounds);
    } else if q.EditTask? {
      EditErrors(q.patch);
    }
  }

  lemma ResolveErrors(spec: CreateRequest, defaultMaxRounds: int)
    ensures ResolveCreate(spec, defaultMaxRounds).Err? ==>
              ResolveCreate(spec, defaultMaxRounds).error !in [InvalidTransition, AlreadyExists]
  {
  }

  lemma EditErrors(patch: EditRequest)
    ensures ResolveEdit(patch).Err? ==> ResolveEdit(patch).error !in [InvalidTransition, AlreadyExists]
  {
  }
}
