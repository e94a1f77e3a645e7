/**
 * The in-place replay: the decoder's loops, the mutable accumulator, and the loop over a log.
 * Everything here is specified by the functions of LongTaskFold.
 */
module LongTaskReplay {
  import opened Wrappers
  import opened LongTaskTypes
  import opened LongTaskFold
  import Spec = LongTaskFold
  import Text

  /** The decoder's walk over ordinals. */
  method CheckOrdinals(ordinals: seq<int>, max: nat) returns (ok: bool)
    ensures ok == ValidOrdinals(ordinals, max)
  {
    if |ordinals| > max { return false; }
    var previous := 0;
    for i := 0 to |ordinals|
      invariant previous == i
      invariant forall j :: 0 <= j < i ==> ordinals[j] == j + 1
    {
      if ordinals[i] != previous + 1 { return false; }
      previous := ordinals[i];
    }
    ok := true;
  }

  /** The decoder's walk over the checkpoint ordinals that questions close. */
  method CheckClosures(questions: seq<OpenQuestion>, checkpoints: seq<Checkpoint>) returns (ok: bool)
    ensures ok == ClosuresKnown(questions, checkpoints)
  {
    for i := 0 to |questions|
      invariant ClosuresKnown(questions[..i], checkpoints)
    {
      var closes := questions[i].closesCheckpoint;
      if closes.Some? && !KnownCheckpoint(closes.value, checkpoints) {
        assert questions[i] in questions;
        return false;
      }
      assert questions[..i + 1] == questions[..i] + [questions[i]];
    }
    assert questions[..|questions|] == questions;
    ok := true;
  }

  method CheckSnapshot(raw: Snapshot) returns (ok: bool)
    ensures ok == ValidSnapshot(raw)
  {
    ok := CheckOrdinals(CheckpointOrdinals(raw.checkpoints), MAX_CHECKPOINTS);
    if !ok { return; }
    ok := CheckOrdinals(QuestionOrdinals(raw.openQuestions), MAX_OPEN_QUESTIONS);
    if !ok { return; }
    ok := CheckClosures(raw.openQuestions, raw.checkpoints);
    if !ok { return; }
    ok := && raw.id != ""
          && Text.Normalized(raw.objective)
          && ValidCore(raw.core)
          && (forall c :: c in raw.checkpoints ==> ValidCheckpoint(c))
          && (forall q :: q in raw.openQuestions ==> ValidQuestion(q))
          && PositiveInteger(raw.revision)
          && Text.Normalized(raw.next)
          && PositiveInteger(raw.maxRounds)
          && NonNegativeInteger(raw.handoffs)
          && (raw.phase.Blocked? ==> raw.blockedReason.Some? && ValidBlockReason(raw.blockedReason.value));
  }

  method Decode(raw: Change) returns (r: Result<Change, FoldError>)
    ensures r == DecodeChange(raw)
  {
    match raw
    case Malformed => r := Err(Undecodable);
    case ClearChange(cleared, clearedAt) =>
      r := if ValidRef(cleared) && NonNegativeInteger(clearedAt) then Ok(raw) else Err(Undecodable);
    case SnapshotChange(_, task, rounds, createdAt, updatedAt) =>
      if !NonNegativeInteger(createdAt) || !NonNegativeInteger(updatedAt) || updatedAt < createdAt {
        return Err(Undecodable);
      }
      var valid := CheckSnapshot(task);
      if !valid || !NonNegativeInteger(rounds) { return Err(Undecodable); }
      r := Ok(raw.(task := StripReason(task)));
  }

  /** The mutable replay accumulator. Applying an event either installs its result or leaves every field alone. */
  class FoldAccumulator {
    var task: Option<Snapshot>
    var roundsStarted: int
    var createdAt: Option<int>
    var updatedAt: Option<int>
    var lastRef: Option<Ref>
    var seenTaskIds: set<TaskId>

    function View(): TaskFold
      reads this
    {
      TaskFold(task, roundsStarted, createdAt, updatedAt, lastRef, seenTaskIds)
    }

    constructor ()
      ensures View() == EMPTY_FOLD
    {
      task, roundsStarted, createdAt, updatedAt, lastRef, seenTaskIds := None, 0, None, None, None, {};
    }

    /** `cloneState`: an independent copy. */
    constructor Clone(other: FoldAccumulator)
      ensures View() == other.View()
    {
      task := other.task;
      roundsStarted := other.roundsStarted;
      createdAt := other.createdAt;
      updatedAt := other.updatedAt;
      lastRef := other.lastRef;
      seenTaskIds := other.seenTaskIds;
    }

    method Adopt(other: FoldAccumulator)
      modifies this
      ensures View() == old(other.View())
    {
      task, roundsStarted, createdAt := other.task, other.roundsStarted, other.createdAt;
      updatedAt, lastRef, seenTaskIds := other.updatedAt, other.lastRef, other.seenTaskIds;
    }

    method ApplyChange(change: Change) returns (r: Option<FoldError>)
      requires !change.Malformed?
      modifies this
      ensures match Spec.ApplyChange(old(View()), change)
              case Ok(s) => r.None? && View() == s
              case Err(e) => r == Some(e) && View() == old(View())
    {
      if change.ClearChange? {
        if task.None? { return Some(NoCurrentTask); }
        if !IsNextRevision(task.value, change.cleared) { return Some(NotNextRevision); }
        if updatedAt.None? { return Some(LacksUpdatedAt); }
        if change.clearedAt < updatedAt.value { return Some(CountersNotPreserved); }
        task := None;
        roundsStarted := 0;
        createdAt := None;
        updatedAt := None;
        lastRef := Some(change.cleared);
        return None;
      }
      if change.operation.Create? {
        if change.task.revision != 1 || !change.task.phase.Active? || change.roundsStarted != 0
           || change.task.handoffs != 0
           || (task.Some? && !task.value.phase.Complete?)
           || change.task.id in seenTaskIds {
          return Some(NotFresh);
        }
        seenTaskIds := seenTaskIds + {change.task.id};
      } else {
        if task.None? { return Some(NoCurrentTask); }
        var error := TransitionError(View(), change, task.value);
        if error.Some? { return error; }
      }
      task := Some(change.task);
      roundsStarted := change.roundsStarted;
      createdAt := Some(change.createdAt);
      updatedAt := Some(change.updatedAt);
      lastRef := Some(ChangeRef(change));
      r := None;
    }

    method ApplyEvent(event: Event) returns (r: Option<FoldError>)
      modifies this
      ensures match Spec.ApplyEvent(old(View()), event)
              case Ok(s) => r.None? && View() == s
              case Err(e) => r == Some(e) && View() == old(View())
    {
      match event
      case ChangeEvent(raw) =>
        var change := Decode(raw);
        if change.Err? { return Some(change.error); }
        r := ApplyChange(change.value);
      case TraceEvent(trace) =>
        if !ValidTrace(trace) { return Some(Undecodable); }
        if task.None? || task.value.id != trace.ref.id || task.value.revision != trace.ref.revision
           || task.value.handoffs != trace.handoffs {
          return Some(TraceMismatch);
        }
        r := None;
      case MessageEvent(message) =>
        var source := message.source;
        if source.OtherSource? { return None; }
        if !ValidRoundSource(source) { return Some(Undecodable); }
        if task.None? || !task.value.phase.Active? || source.taskId != task.value.id
           || source.revision != task.value.revision || source.round != roundsStarted + 1
           || source.round > task.value.maxRounds {
          return Some(RoundNotNext);
        }
        roundsStarted := source.round;
        r := None;
      case OtherEvent => r := None;
    }
  }

  /** Replay of a whole log by one pass over an accumulator. */
  method FoldLongTask(log: seq<Event>) returns (r: Result<TaskFold, FoldError>)
    ensures r == Fold(log)
  {
    var state := new FoldAccumulator();
    for i := 0 to |log|
      invariant Fold(log[..i]) == Ok(state.View())
    {
      FoldStep(log, i);
      var error := state.ApplyEvent(log[i]);
      if error.Some? {
        ErrorSticks(log, i + 1);
        return Err(error.value);
      }
    }
    assert log[..|log|] == log;
    r := Ok(state.View());
  }
}
