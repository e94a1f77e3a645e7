/**
 * The strict replay fold of a session log, as a function: what a payload must look like,
 * which transitions are legal, and what replaying a log yields.
 */
module LongTaskFold {
  import opened Wrappers
  import opened LongTaskTypes
  import Text

  const MAX_SAFE: int := 0x1F_FFFF_FFFF_FFFF
  const MAX_CORE := 20
  const MAX_CHECKPOINTS := 100
  const MAX_OPEN_QUESTIONS := 100

  /** Why a replay throws. */
  datatype FoldError =
    | Undecodable
    | NoCurrentTask
    | NotNextRevision
    | LacksUpdatedAt
    | CountersNotPreserved
    | IllegalTransition
    | NotFresh
    | TraceMismatch
    | RoundNotNext

  /** What replay has established so far. */
  datatype TaskFold = TaskFold(
    task: Option<Snapshot>,
    roundsStarted: int,
    createdAt: Option<int>,
    updatedAt: Option<int>,
    lastRef: Option<Ref>,
    seenTaskIds: set<TaskId>)

  const EMPTY_FOLD := TaskFold(None, 0, None, None, None, {})

  // ---------------------------------------------------------------- decoding

  predicate PositiveInteger(n: int) {
    1 <= n <= MAX_SAFE
  }

  predicate NonNegativeInteger(n: int) {
    0 <= n <= MAX_SAFE
  }

  predicate IsLower(c: char) {
    'a' <= c <= 'z'
  }

  predicate IsLowerOrDigit(c: char) {
    IsLower(c) || '0' <= c <= '9'
  }

  /** Lower-kebab-case: dash-separated non-empty runs of letters and digits, starting with a letter. */
  predicate LowerKebab(code: string) {
    && |code| > 0
    && IsLower(code[0])
    && code[|code| - 1] != '-'
    && (forall i :: 0 <= i < |code| ==> IsLowerOrDigit(code[i]) || code[i] == '-')
    && (forall i :: 0 < i < |code| && code[i] == '-' ==> code[i - 1] != '-')
  }

  predicate ValidBlockReason(reason: BlockReason) {
    LowerKebab(reason.code) && Text.Normalized(reason.message)
  }

  predicate ValidCore(core: seq<string>) {
    |core| <= MAX_CORE && forall entry :: entry in core ==> Text.Normalized(entry)
  }

  predicate ValidCheckpoint(c: Checkpoint) {
    PositiveInteger(c.ordinal) && Text.Normalized(c.statement) && Text.Normalized(c.verifiedBy)
  }

  predicate ValidQuestion(q: OpenQuestion) {
    && PositiveInteger(q.ordinal) && Text.Normalized(q.question) && Text.Normalized(q.settledBy)
    && (q.closesCheckpoint.Some? ==> PositiveInteger(q.closesCheckpoint.value))
  }

  /** Ordinals run 1, 2, 3, ... and there are at most `max` of them. */
  predicate ValidOrdinals(ordinals: seq<int>, max: nat) {
    |ordinals| <= max && forall i :: 0 <= i < |ordinals| ==> ordinals[i] == i + 1
  }

  function CheckpointOrdinals(cs: seq<Checkpoint>): seq<int> {
    seq(|cs|, i requires 0 <= i < |cs| => cs[i].ordinal)
  }

  function QuestionOrdinals(qs: seq<OpenQuestion>): seq<int> {
    seq(|qs|, i requires 0 <= i < |qs| => qs[i].ordinal)
  }

  predicate KnownCheckpoint(ordinal: int, checkpoints: seq<Checkpoint>) {
    exists c :: c in checkpoints && c.ordinal == ordinal
  }

  /** A closed question names a checkpoint that exists. */
  predicate ClosuresKnown(questions: seq<OpenQuestion>, checkpoints: seq<Checkpoint>) {
    forall q :: q in questions && q.closesCheckpoint.Some? ==> KnownCheckpoint(q.closesCheckpoint.value, checkpoints)
  }

  predicate ValidSnapshot(raw: Snapshot) {
    && raw.id != ""
    && Text.Normalized(raw.objective)
    && ValidCore(raw.core)
    && (forall c :: c in raw.checkpoints ==> ValidCheckpoint(c))
    && (forall q :: q in raw.openQuestions ==> ValidQuestion(q))
    && ValidOrdinals(CheckpointOrdinals(raw.checkpoints), MAX_CHECKPOINTS)
    && ValidOrdinals(QuestionOrdinals(raw.openQuestions), MAX_OPEN_QUESTIONS)
    && ClosuresKnown(raw.openQuestions, raw.checkpoints)
    && PositiveInteger(raw.revision)
    && Text.Normalized(raw.next)
    && PositiveInteger(raw.maxRounds)
    && NonNegativeInteger(raw.handoffs)
    && (raw.phase.Blocked? ==> raw.blockedReason.Some? && ValidBlockReason(raw.blockedReason.value))
  }

  /** The decoder keeps a block reason only while the phase is `blocked`. */
  function StripReason(raw: Snapshot): Snapshot {
    if raw.phase.Blocked? then raw else raw.(blockedReason := None)
  }

  predicate ValidRef(ref: Ref) {
    ref.id != "" && PositiveInteger(ref.revision)
  }

  predicate ValidChange(raw: Change) {
    match raw
    case Malformed => false
    case ClearChange(cleared, clearedAt) => ValidRef(cleared) && NonNegativeInteger(clearedAt)
    case SnapshotChange(_, task, rounds, createdAt, updatedAt) =>
      && NonNegativeInteger(createdAt) && NonNegativeInteger(updatedAt) && createdAt <= updatedAt
      && ValidSnapshot(task) && NonNegativeInteger(rounds)
  }

  function DecodeChange(raw: Change): Result<Change, FoldError> {
    if !ValidChange(raw) then Err(Undecodable)
    else if raw.ClearChange? then Ok(raw)
    else Ok(raw.(task := StripReason(raw.task)))
  }

  predicate ValidTrace(raw: Trace) {
    raw.Trace? && ValidRef(raw.ref) && NonNegativeInteger(raw.handoffs) && NonNegativeInteger(raw.at)
  }

  predicate ValidRoundSource(source: Source) {
    source.RoundSource? ==> source.taskId != "" && PositiveInteger(source.revision) && PositiveInteger(source.round)
  }

  // ------------------------------------------------------------- transitions

  /** The fields only `edit` may replace; `core` is compared as one newline-joined text. */
  predicate SameDefinition(current: Snapshot, next: Snapshot) {
    && next.objective == current.objective && next.maxRounds == current.maxRounds
    && Text.Join(next.core, '\n') == Text.Join(current.core, '\n')
    && next.next == current.next
    && next.checkpoints == current.checkpoints
    && next.openQuestions == current.openQuestions
  }

  predicate IsNextRevision(current: Snapshot, ref: Ref) {
    ref.id == current.id && ref.revision == current.revision + 1
  }

  /** Which phase and counter movements each operation allows. */
  predicate LegalMove(s: TaskFold, operation: Operation, current: Snapshot, next: Snapshot) {
    match operation
    case Edit =>
      next.phase == current.phase && next.handoffs == current.handoffs && next.blockedReason == current.blockedReason
    case Handoff =>
      && SameDefinition(current, next)
      && current.phase.Active? && next.phase.Active? && next.handoffs == current.handoffs + 1
    case Pause => SameDefinition(current, next) && current.phase.Active? && next.phase.Paused?
    case Resume =>
      && SameDefinition(current, next)
      && !current.phase.Complete? && next.phase.Active? && s.roundsStarted < next.maxRounds
    case Finish => SameDefinition(current, next) && !current.phase.Complete? && next.phase.Complete?
    case Block => SameDefinition(current, next) && current.phase.Active? && next.phase.Blocked?
    case Create => false
  }

  /** Validation of a non-create snapshot; `None` means it may be applied. */
  function TransitionError(s: TaskFold, change: Change, current: Snapshot): Option<FoldError>
    requires change.SnapshotChange?
  {
    if !IsNextRevision(current, TaskRef(change.task)) then Some(NotNextRevision)
    else if s.updatedAt.None? then Some(LacksUpdatedAt)
    else if Some(change.createdAt) != s.createdAt || change.updatedAt < s.updatedAt.value
            || change.roundsStarted != s.roundsStarted then Some(CountersNotPreserved)
    else if !LegalMove(s, change.operation, current, change.task) then Some(IllegalTransition)
    else None
  }

  predicate FreshCreate(s: TaskFold, change: Change)
    requires change.SnapshotChange?
  {
    && change.task.revision == 1 && change.task.phase.Active? && change.roundsStarted == 0
    && change.task.handoffs == 0
    && (s.task.Some? ==> s.task.value.phase.Complete?)
    && change.task.id !in s.seenTaskIds
  }

  function Install(s: TaskFold, change: Change): TaskFold
    requires change.SnapshotChange?
  {
    s.(task := Some(change.task), roundsStarted := change.roundsStarted,
       createdAt := Some(change.createdAt), updatedAt := Some(change.updatedAt),
       lastRef := Some(TaskRef(change.task)))
  }

  /** Apply one decoded change to a fold. */
  function ApplyChange(s: TaskFold, change: Change): Result<TaskFold, FoldError>
    requires !change.Malformed?
  {
    if change.ClearChange? then
      if s.task.None? then Err(NoCurrentTask)
      else if !IsNextRevision(s.task.value, change.cleared) then Err(NotNextRevision)
      else if s.updatedAt.None? then Err(LacksUpdatedAt)
      else if change.clearedAt < s.updatedAt.value then Err(CountersNotPreserved)
      else Ok(TaskFold(None, 0, None, None, Some(change.cleared), s.seenTaskIds))
    else if change.operation.Create? then
      if !FreshCreate(s, change) then Err(NotFresh)
      else Ok(Install(s, change).(seenTaskIds := s.seenTaskIds + {change.task.id}))
    else if s.task.None? then Err(NoCurrentTask)
    else
      match TransitionError(s, change, s.task.value)
      case Some(error) => Err(error)
      case None => Ok(Install(s, change))
  }

  /** A trace must name the current revision and its handoff count. */
  predicate TraceMatches(s: TaskFold, trace: Trace)
    requires trace.Trace?
  {
    s.task.Some? && TaskRef(s.task.value) == trace.ref && s.task.value.handoffs == trace.handoffs
  }

  /** A round message must be the next admitted round of the active current revision, within its cap. */
  predicate AdmitsRound(s: TaskFold, source: Source)
    requires source.RoundSource?
  {
    && s.task.Some? && s.task.value.phase.Active?
    && source.taskId == s.task.value.id && source.revision == s.task.value.revision
    && source.round == s.roundsStarted + 1
    && source.round <= s.task.value.maxRounds
  }

  /** Apply one session event to the strict fold. */
  function ApplyEvent(s: TaskFold, event: Event): Result<TaskFold, FoldError> {
    match event
    case ChangeEvent(raw) =>
      var decoded := DecodeChange(raw);
      if decoded.Err? then Err(decoded.error) else ApplyChange(s, decoded.value)
    case TraceEvent(trace) =>
      if !ValidTrace(trace) then Err(Undecodable)
      else if !TraceMatches(s, trace) then Err(TraceMismatch)
      else Ok(s)
    case MessageEvent(message) =>
      if message.source.OtherSource? then Ok(s)
      else if !ValidRoundSource(message.source) then Err(Undecodable)
      else if !AdmitsRound(s, message.source) then Err(RoundNotNext)
      else Ok(s.(roundsStarted := message.source.round))
    case OtherEvent => Ok(s)
  }

  /** Replay of a whole log: an event is only reached when everything before it was accepted. */
  function Fold(log: seq<Event>): Result<TaskFold, FoldError> {
    if log == [] then Ok(EMPTY_FOLD)
    else
      var before := Fold(log[..|log| - 1]);
      if before.Err? then before else ApplyEvent(before.value, log[|log| - 1])
  }

  predicate Accepted(log: seq<Event>) {
    Fold(log).Ok?
  }

  lemma FoldSnoc(log: seq<Event>, event: Event)
    ensures Fold(log + [event]) ==
            if Fold(log).Err? then Fold(log) else ApplyEvent(Fold(log).value, event)
  {
    assert (log + [event])[..|log|] == log;
  }

  /** Replay from the middle agrees with replay from the start. */
  lemma FoldStep(log: seq<Event>, n: nat)
    requires n < |log|
    ensures Fold(log[..n + 1]) == if Fold(log[..n]).Err? then Fold(log[..n]) else ApplyEvent(Fold(log[..n]).value, log[n])
  {
    assert log[..n + 1][..n] == log[..n];
  }

  /** Every prefix of an accepted log is accepted. */
  lemma {:induction false} PrefixAccepted(log: seq<Event>, n: nat)
    requires n <= |log| && Accepted(log)
    ensures Accepted(log[..n])
    decreases |log| - n
  {
    if n < |log| {
      PrefixAccepted(log, n + 1);
      FoldStep(log, n);
    } else {
      assert log[..n] == log;
    }
  }

  /** A rejected prefix rejects every extension with the same error. */
  lemma {:induction false} ErrorSticks(log: seq<Event>, n: nat)
    requires n <= |log| && Fold(log[..n]).Err?
    ensures Fold(log) == Fold(log[..n])
    decreases |log| - n
  {
    if n < |log| {
      FoldStep(log, n);
      ErrorSticks(log, n + 1);
    } else {
      assert log[..n] == log;
    }
  }
}
