/**
 * What a request's own fields become: which input the service takes, by which error it refuses the rest, and
 * what each field of the replayed task is afterwards.
 */
module LongTaskInputs {
  import opened Wrappers
  import opened LongTaskTypes
  import opened LongTaskFold
  import opened LongTaskLog
  import opened LongTaskRequests
  import Text

  // ------------------------------------------------------------- usable input

  /** A text with something in it besides space. */
  predicate Present(text: string) {
    exists i :: 0 <= i < |text| && !Text.IsSpace(text[i])
  }

  predicate CoreUsable(core: seq<string>) {
    |core| <= 20 && forall i :: 0 <= i < |core| ==> Present(core[i])
  }

  predicate CheckpointsUsable(checkpoints: seq<Checkpoint>) {
    && |checkpoints| <= 100
    && forall i :: 0 <= i < |checkpoints| ==>
         checkpoints[i].ordinal == i + 1 && Present(checkpoints[i].statement) && Present(checkpoints[i].verifiedBy)
  }

  /** Questions may close one of the `count` checkpoints given with them. */
  predicate QuestionsUsable(questions: seq<OpenQuestion>, count: nat) {
    && |questions| <= 100
    && (forall i :: 0 <= i < |questions| ==>
          questions[i].ordinal == i + 1 && Present(questions[i].question) && Present(questions[i].settledBy))
    && (forall i :: 0 <= i < |questions| && questions[i].closesCheckpoint.Some? ==>
          1 <= questions[i].closesCheckpoint.value <= count)
  }

  /** Trimming cuts surrounding space off and nothing else, so it leaves something exactly if there was something. */
  lemma TrimMeaning(text: string)
    ensures |Text.Trim(text)| > 0 <==> Present(text)
    ensures exists i, j :: 0 <= i <= j <= |text| && Text.Trim(text) == text[i..j]
              && (forall k :: 0 <= k < i ==> Text.IsSpace(text[k])) && (forall k :: j <= k < |text| ==> Text.IsSpace(text[k]))
              && (i < j ==> !Text.IsSpace(text[i]) && !Text.IsSpace(text[j - 1]))
  {
    var start := Text.TrimStart(text);
    Text.TrimStartShape(text);
    Text.TrimEndShape(start);
    var i := |text| - |start|;
    var j := i + |Text.TrimEnd(start)|;
    assert Text.Trim(text) == text[i..j];
    forall k | j <= k < |text| ensures Text.IsSpace(text[k]) { assert text[k] == start[k - i]; }
  }

  lemma CoreTaken(core: seq<string>)
    ensures ResolveCore(core).Ok? <==> CoreUsable(core)
    ensures ResolveCore(core).Err? ==> ResolveCore(core).error == InvalidCore
  {
    forall i | 0 <= i < |core| ensures |Text.Trim(core[i])| > 0 <==> Present(core[i]) { TrimMeaning(core[i]); }
    hide Present, Text.Trim;
    if ResolveCore(core).Ok? {
      forall i | 0 <= i < |core| ensures Present(core[i]) { assert core[i] in core; }
    }
  }

  lemma CheckpointsTaken(checkpoints: seq<Checkpoint>)
    ensures ResolveCheckpoints(checkpoints).Ok? <==> CheckpointsUsable(checkpoints)
    ensures ResolveCheckpoints(checkpoints).Err? ==> ResolveCheckpoints(checkpoints).error == InvalidCheckpoints
  {
    forall i | 0 <= i < |checkpoints|
      ensures UsableCheckpoint(checkpoints[i], i) <==>
              checkpoints[i].ordinal == i + 1 && Present(checkpoints[i].statement) && Present(checkpoints[i].verifiedBy)
    {
      TrimMeaning(checkpoints[i].statement);
      TrimMeaning(checkpoints[i].verifiedBy);
    }
    hide UsableCheckpoint, Present, TrimCheckpoints;
  }

  lemma QuestionsTaken(questions: seq<OpenQuestion>, checkpoints: seq<Checkpoint>)
    requires ValidOrdinals(CheckpointOrdinals(checkpoints), MAX_CHECKPOINTS)
    ensures ResolveOpenQuestions(questions, checkpoints).Ok? <==> QuestionsUsable(questions, |checkpoints|)
    ensures ResolveOpenQuestions(questions, checkpoints).Err? ==> ResolveOpenQuestions(questions, checkpoints).error == InvalidOpenQuestions
  {
    var trimmed := TrimQuestions(questions);
    forall i | 0 <= i < |questions|
      ensures UsableQuestion(questions[i], i) <==>
              questions[i].ordinal == i + 1 && Present(questions[i].question) && Present(questions[i].settledBy)
      ensures questions[i].closesCheckpoint.Some? ==>
                (KnownCheckpoint(questions[i].closesCheckpoint.value, checkpoints) <==>
                 1 <= questions[i].closesCheckpoint.value <= |checkpoints|)
    {
      TrimMeaning(questions[i].question);
      TrimMeaning(questions[i].settledBy);
      if questions[i].closesCheckpoint.Some? { KnownByNumber(questions[i].closesCheckpoint.value, checkpoints); }
    }
    hide UsableQuestion, Present, KnownCheckpoint, Text.Trim;
    assert forall i :: 0 <= i < |questions| ==> trimmed[i] in trimmed && trimmed[i].closesCheckpoint == questions[i].closesCheckpoint;
  }

  lemma NumberedCheckpoints(checkpoints: seq<Checkpoint>)
    requires CheckpointsUsable(checkpoints)
    ensures ResolveCheckpoints(checkpoints).Ok?
    ensures var r := ResolveCheckpoints(checkpoints).value;
            |r| == |checkpoints| && ValidOrdinals(CheckpointOrdinals(r), MAX_CHECKPOINTS)
  {
    CheckpointsTaken(checkpoints);
    ResolvedCheckpoints(checkpoints);
  }

  lemma RequiredTaken(text: string, error: ServiceError)
    ensures ResolveRequired(text, error).Ok? <==> Present(text)
    ensures ResolveRequired(text, error).Err? ==> ResolveRequired(text, error).error == error
  {
    TrimMeaning(text);
  }

  /** By what a create request is refused: the first unusable field, checkpoints before the texts, questions last. */
  function CreateFault(spec: CreateRequest, defaultMaxRounds: int): Option<ServiceError> {
    if !CheckpointsUsable(spec.checkpoints.GetOr([])) then Some(InvalidCheckpoints)
    else if !Present(spec.objective) then Some(InvalidObjective)
    else if !Present(spec.next) then Some(InvalidNext)
    else if !(1 <= spec.maxRounds.GetOr(defaultMaxRounds) <= MAX_SAFE) then Some(InvalidMaxRounds)
    else if !CoreUsable(spec.core.GetOr([])) then Some(InvalidCore)
    else if !QuestionsUsable(spec.openQuestions.GetOr([]), |spec.checkpoints.GetOr([])|) then Some(InvalidOpenQuestions)
    else None
  }

  lemma CreateInputExactly(spec: CreateRequest, defaultMaxRounds: int)
    ensures match CreateFault(spec, defaultMaxRounds)
            case None => ResolveCreate(spec, defaultMaxRounds).Ok?
            case Some(error) => ResolveCreate(spec, defaultMaxRounds) == Err(error)
  {
    CheckpointsTaken(spec.checkpoints.GetOr([]));
    RequiredTaken(spec.objective, InvalidObjective);
    RequiredTaken(spec.next, InvalidNext);
    CoreTaken(spec.core.GetOr([]));
    if CheckpointsUsable(spec.checkpoints.GetOr([])) {
      NumberedCheckpoints(spec.checkpoints.GetOr([]));
      QuestionsTaken(spec.openQuestions.GetOr([]), ResolveCheckpoints(spec.checkpoints.GetOr([])).value);
    }
    hide CheckpointsUsable, QuestionsUsable, CoreUsable, Present, ResolveCore, ResolveCheckpoints, ResolveOpenQuestions, ResolveRequired;
  }

  /** The same for an edit, of the fields that are present; one without any is refused as a whole. */
  function EditFault(patch: EditRequest): Option<ServiceError> {
    if patch == EditRequest(None, None, None, None, None, None) then Some(InvalidEdit)
    else if patch.checkpoints.Some? && !CheckpointsUsable(patch.checkpoints.value) then Some(InvalidCheckpoints)
    else if patch.objective.Some? && !Present(patch.objective.value) then Some(InvalidObjective)
    else if patch.next.Some? && !Present(patch.next.value) then Some(InvalidNext)
    else if patch.maxRounds.Some? && !(1 <= patch.maxRounds.value <= MAX_SAFE) then Some(InvalidMaxRounds)
    else if patch.core.Some? && !CoreUsable(patch.core.value) then Some(InvalidCore)
    else if patch.openQuestions.Some? && !QuestionsUsable(patch.openQuestions.value, |patch.checkpoints.GetOr([])|)
    then Some(InvalidOpenQuestions)
    else None
  }

  lemma EditInputExactly(patch: EditRequest)
    ensures match EditFault(patch)
            case None => ResolveEdit(patch).Ok?
            case Some(error) => ResolveEdit(patch) == Err(error)
  {
    CheckpointsTaken(patch.checkpoints.GetOr([]));
    RequiredTaken(patch.objective.GetOr(""), InvalidObjective);
    RequiredTaken(patch.next.GetOr(""), InvalidNext);
    CoreTaken(patch.core.GetOr([]));
    if CheckpointsUsable(patch.checkpoints.GetOr([])) {
      NumberedCheckpoints(patch.checkpoints.GetOr([]));
      QuestionsTaken(patch.openQuestions.GetOr([]), ResolveCheckpoints(patch.checkpoints.GetOr([])).value);
    }
    ResolvesToNothing();
    hide CheckpointsUsable, QuestionsUsable, CoreUsable, Present, ResolveCore, ResolveCheckpoints, ResolveOpenQuestions, ResolveRequired;
  }

  lemma ResolvesToNothing()
    ensures ResolveCheckpoints([]) == Ok([])
  {
    assert TrimCheckpoints([]) == [];
  }

  // --------------------------------------------------------------- field by field

  /** The kept entries are the given ones, trimmed. */
  predicate CoreFrom(core: seq<string>, given: seq<string>) {
    |core| == |given| && forall i :: 0 <= i < |given| ==> core[i] == Text.Trim(given[i])
  }

  predicate CheckpointsFrom(kept: seq<Checkpoint>, given: seq<Checkpoint>) {
    && |kept| == |given|
    && forall i :: 0 <= i < |given| ==>
         kept[i] == Checkpoint(i + 1, Text.Trim(given[i].statement), Text.Trim(given[i].verifiedBy))
  }

  predicate QuestionsFrom(kept: seq<OpenQuestion>, given: seq<OpenQuestion>) {
    && |kept| == |given|
    && forall i :: 0 <= i < |given| ==>
         kept[i] == OpenQuestion(i + 1, Text.Trim(given[i].question), Text.Trim(given[i].settledBy), given[i].closesCheckpoint)
  }

  lemma ResolvedFrom(core: seq<string>, checkpoints: seq<Checkpoint>, questions: seq<OpenQuestion>, known: seq<Checkpoint>)
    ensures ResolveCore(core).Ok? ==> CoreFrom(ResolveCore(core).value, core)
    ensures ResolveCheckpoints(checkpoints).Ok? ==> CheckpointsFrom(ResolveCheckpoints(checkpoints).value, checkpoints)
    ensures ResolveOpenQuestions(questions, known).Ok? ==> QuestionsFrom(ResolveOpenQuestions(questions, known).value, questions)
  {
    hide Text.Trim;
  }

  /**
   * After an accepted edit each field the request names is the request's own value, trimmed where it is a text
   * and renumbered where it is a list; each field it does not name is the former one, and so is the standing.
   */
  lemma EditedFields(log: seq<Event>, armed: bool, ref: Ref, patch: EditRequest, now: int, defaultMaxRounds: int)
    requires Accepted(log) && WellFormed(Fold(log).value)
    requires PlanRequest(Fold(log).value, armed, EditTask(ref, patch), now, defaultMaxRounds).Commit?
    requires Accepted(log + [ChangeEvent(PlanRequest(Fold(log).value, armed, EditTask(ref, patch), now, defaultMaxRounds).change)])
    ensures var event := ChangeEvent(PlanRequest(Fold(log).value, armed, EditTask(ref, patch), now, defaultMaxRounds).change);
            && Fold(log).value.task.Some? && Fold(log + [event]).value.task.Some?
            && var was, task := Fold(log).value.task.value, Fold(log + [event]).value.task.value;
               && task.objective == (if patch.objective.Some? then Text.Trim(patch.objective.value) else was.objective)
               && task.next == (if patch.next.Some? then Text.Trim(patch.next.value) else was.next)
               && task.maxRounds == (if patch.maxRounds.Some? then patch.maxRounds.value else was.maxRounds)
               && (if patch.core.Some? then CoreFrom(task.core, patch.core.value) else task.core == was.core)
               && (if patch.checkpoints.Some? then CheckpointsFrom(task.checkpoints, patch.checkpoints.value)
                   else task.checkpoints == was.checkpoints)
               && (if patch.openQuestions.Some? then QuestionsFrom(task.openQuestions, patch.openQuestions.value)
                   else task.openQuestions == was.openQuestions)
               && task.id == was.id && task.revision == was.revision + 1
               && task.phase == was.phase && task.handoffs == was.handoffs && task.blockedReason == was.blockedReason
  {
    hide Fold, WellFormed, ResolveCore, ResolveCheckpoints, ResolveOpenQuestions, PlanRequest, CoreFrom, CheckpointsFrom, QuestionsFrom;
    ServiceRefinesFold(log, armed, EditTask(ref, patch), now, defaultMaxRounds);
    var known := if patch.checkpoints.Some? && ResolveCheckpoints(patch.checkpoints.value).Ok?
                 then ResolveCheckpoints(patch.checkpoints.value).value else [];
    ResolvedFrom(patch.core.GetOr([]), patch.checkpoints.GetOr([]), patch.openQuestions.GetOr([]), known);
  }

  /** After an accepted create every field is the request's own, the cap the requested one or the default. */
  lemma CreatedFields(log: seq<Event>, armed: bool, id: TaskId, spec: CreateRequest, now: int, defaultMaxRounds: int)
    requires Accepted(log) && WellFormed(Fold(log).value)
    requires PlanRequest(Fold(log).value, armed, CreateTask(id, spec), now, defaultMaxRounds).Commit?
    requires Accepted(log + [ChangeEvent(PlanRequest(Fold(log).value, armed, CreateTask(id, spec), now, defaultMaxRounds).change)])
    ensures var event := ChangeEvent(PlanRequest(Fold(log).value, armed, CreateTask(id, spec), now, defaultMaxRounds).change);
            var s := Fold(log + [event]).value;
            && s.task.Some? && s.roundsStarted == 0 && s.createdAt == Some(now) && s.updatedAt == Some(now)
            && var task := s.task.value;
               && task.id == id && task.revision == 1 && task.phase == Active && task.handoffs == 0 && task.blockedReason == None
               && task.objective == Text.Trim(spec.objective) && task.next == Text.Trim(spec.next)
               && task.maxRounds == (if spec.maxRounds.Some? then spec.maxRounds.value else defaultMaxRounds)
               && CoreFrom(task.core, if spec.core.Some? then spec.core.value else [])
               && CheckpointsFrom(task.checkpoints, if spec.checkpoints.Some? then spec.checkpoints.value else [])
               && QuestionsFrom(task.openQuestions, if spec.openQuestions.Some? then spec.openQuestions.value else [])
  {
    hide Fold, WellFormed, ResolveCore, ResolveCheckpoints, ResolveOpenQuestions, PlanRequest, CoreFrom, CheckpointsFrom, QuestionsFrom;
    ServiceRefinesFold(log, armed, CreateTask(id, spec), now, defaultMaxRounds);
    var known := if ResolveCheckpoints(spec.checkpoints.GetOr([])).Ok? then ResolveCheckpoints(spec.checkpoints.GetOr([])).value else [];
    ResolvedFrom(spec.core.GetOr([]), spec.checkpoints.GetOr([]), spec.openQuestions.GetOr([]), known);
  }

  /** After an accepted block the reason is the request's code and its trimmed message, and only the phase has moved besides. */
  lemma BlockedFields(log: seq<Event>, armed: bool, ref: Ref, reason: BlockReason, now: int, defaultMaxRounds: int)
    requires Accepted(log) && WellFormed(Fold(log).value)
    requires PlanRequest(Fold(log).value, armed, BlockTask(ref, reason), now, defaultMaxRounds).Commit?
    requires Accepted(log + [ChangeEvent(PlanRequest(Fold(log).value, armed, BlockTask(ref, reason), now, defaultMaxRounds).change)])
    ensures var event := ChangeEvent(PlanRequest(Fold(log).value, armed, BlockTask(ref, reason), now, defaultMaxRounds).change);
            && Fold(log).value.task.Some?
            && var was := Fold(log).value.task.value;
               Fold(log + [event]).value.task ==
               Some(was.(revision := was.revision + 1, phase := Blocked,
                         blockedReason := Some(BlockReason(reason.code, Text.Trim(reason.message)))))
  {
    hide Fold, WellFormed, PlanRequest, Text.Trim, LowerKebab;
    ServiceRefinesFold(log, armed, BlockTask(ref, reason), now, defaultMaxRounds);
  }

  // ------------------------------------------------------------------- decisions

  /** By what a request on the current task is refused, if it is. */
  function Fault(s: TaskFold, armed: bool, q: Request, defaultMaxRounds: int): Option<ServiceError>
    requires WellFormed(s)
  {
    if q.CreateTask? then
      if CreateFault(q.spec, defaultMaxRounds).Some? then CreateFault(q.spec, defaultMaxRounds)
      else if s.task.Some? && s.task.value.phase != Complete then Some(AlreadyExists)
      else None
    else if s.task.None? then Some(NotFound)
    else if q.ref != Ref(s.task.value.id, s.task.value.revision) then Some(StaleRevision)
    else
      var phase := s.task.value.phase;
      match q
      case EditTask(_, patch) => EditFault(patch)
      case PauseTask(_) => if phase == Active then None else Some(InvalidTransition)
      case HandOff(_, _) => if phase == Active then None else Some(InvalidTransition)
      case CompleteTask(_) => if phase != Complete then None else Some(InvalidTransition)
      case ResumeTask(_) =>
        if phase != Complete && !(phase == Active && armed) && s.roundsStarted < s.task.value.maxRounds
        then None else Some(InvalidTransition)
      case BlockTask(_, reason) =>
        if phase != Active then Some(InvalidTransition)
        else if LowerKebab(reason.code) && Present(reason.message) then None
        else Some(InvalidBlockReason)
      case ClearTask(_) => None
  }

  /** Whom a committed request leaves armed: a create or resume arms, an edit or handoff leaves it, the rest disarm. */
  function ArmedBy(q: Request, armed: bool): bool {
    q.CreateTask? || q.ResumeTask? || ((q.EditTask? || q.HandOff?) && armed)
  }

  /** The service commits a request exactly if it finds no fault with it, and names the first fault otherwise. */
  lemma PlannedExactly(s: TaskFold, armed: bool, q: Request, now: int, defaultMaxRounds: int)
    requires WellFormed(s)
    ensures match Fault(s, armed, q, defaultMaxRounds)
            case Some(error) => PlanRequest(s, armed, q, now, defaultMaxRounds) == Refuse(error)
            case None =>
              var plan := PlanRequest(s, armed, q, now, defaultMaxRounds);
              plan.Commit? && plan.armed == ArmedBy(q, armed)
  {
    hide ResolveCreate, ResolveEdit, CreateFault, EditFault, Text.Trim, LowerKebab, Present, ValidSnapshot;
    match q
    case CreateTask(_, spec) => CreateInputExactly(spec, defaultMaxRounds);
    case EditTask(_, patch) => EditInputExactly(patch);
    case BlockTask(_, reason) => TrimMeaning(reason.message);
    case _ =>
  }
}
