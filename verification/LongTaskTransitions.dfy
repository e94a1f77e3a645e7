/**
 * What an accepted change may do to the current task, as a table of phases and field by field; and what
 * follows between two moments of one log.
 */
module LongTaskTransitions {
  import opened Wrappers
  import opened LongTaskTypes
  import opened LongTaskFold
  import opened LongTaskLog
  import Text

  /** The moves between phases, by operation. */
  predicate InPhaseTable(operation: Operation, from: Phase, to: Phase) {
    || (operation, from, to) in {(Pause, Active, Paused), (Block, Active, Blocked), (Handoff, Active, Active)}
    || (operation, from, to) in {(Resume, Active, Active), (Resume, Paused, Active), (Resume, Blocked, Active)}
    || (operation, from, to) in {(Finish, Active, Complete), (Finish, Paused, Complete), (Finish, Blocked, Complete)}
    || (operation == Edit && from == to)
  }

  /** What the task's owner defined, with the hub entries as one text. */
  datatype Defined = Defined(objective: string, maxRounds: int, next: string, core: string,
                             checkpoints: seq<Checkpoint>, openQuestions: seq<OpenQuestion>)

  function DefinedBy(task: Snapshot): Defined {
    Defined(task.objective, task.maxRounds, task.next, Text.Join(task.core, '\n'), task.checkpoints, task.openQuestions)
  }

  /**
   * Exactly when a snapshot change that is no create is taken over a current task: it is the task's next
   * revision with the same counters and no earlier time; its phases are in the table; an edit keeps where the
   * task stands, any other operation what was defined; and a resume finds rounds left, a handoff counts one.
   */
  lemma MoveTakenExactly(s: TaskFold, raw: Change)
    requires WellFormed(s) && s.task.Some? && raw.SnapshotChange? && !raw.operation.Create?
    ensures var was, op := s.task.value, raw.operation;
            var reason := if raw.task.phase.Blocked? then raw.task.blockedReason else None;
            ApplyEvent(s, ChangeEvent(raw)).Ok? <==>
            && ValidChange(raw)
            && raw.task.id == was.id && raw.task.revision == was.revision + 1
            && raw.roundsStarted == s.roundsStarted && raw.createdAt == s.createdAt.value && raw.updatedAt >= s.updatedAt.value
            && InPhaseTable(op, was.phase, raw.task.phase)
            && (op.Edit? ==> raw.task.handoffs == was.handoffs && reason == was.blockedReason)
            && (!op.Edit? ==> DefinedBy(raw.task) == DefinedBy(was))
            && (op.Resume? ==> s.roundsStarted < was.maxRounds)
            && (op.Handoff? ==> raw.task.handoffs == was.handoffs + 1)
  {
    hide ValidSnapshot, Text.Join;
  }

  /** What an accepted change leaves: the task it carries, with its reason only while blocked, and its counters. */
  lemma MoveTaken(s: TaskFold, raw: Change)
    requires WellFormed(s) && raw.SnapshotChange? && ApplyEvent(s, ChangeEvent(raw)).Ok?
    ensures var s' := ApplyEvent(s, ChangeEvent(raw)).value;
            && s'.task.Some? && s'.lastRef == Some(Ref(raw.task.id, raw.task.revision))
            && s'.task.value == raw.task.(blockedReason := if raw.task.phase.Blocked? then raw.task.blockedReason else None)
            && s'.roundsStarted == raw.roundsStarted && s'.createdAt == Some(raw.createdAt) && s'.updatedAt == Some(raw.updatedAt)
            && s'.seenTaskIds == s.seenTaskIds + {raw.task.id}
  {
    hide ValidSnapshot, Text.Join;
  }

  /** Exactly when a create is taken: a fresh active first revision, over no task or a complete one. */
  lemma CreateTakenExactly(s: TaskFold, raw: Change)
    requires WellFormed(s) && raw.SnapshotChange? && raw.operation.Create?
    ensures ApplyEvent(s, ChangeEvent(raw)).Ok? <==>
            && ValidChange(raw)
            && raw.task.revision == 1 && raw.task.phase == Active && raw.task.handoffs == 0 && raw.roundsStarted == 0
            && raw.task.id !in s.seenTaskIds
            && (s.task.None? || s.task.value.phase == Complete)
  {
    hide ValidSnapshot;
  }

  /** Exactly when a clear is taken, and that it leaves no task and remembers every identifier. */
  lemma ClearTakenExactly(s: TaskFold, cleared: Ref, clearedAt: int)
    requires WellFormed(s)
    ensures var after := ApplyEvent(s, ChangeEvent(ClearChange(cleared, clearedAt)));
            && (after.Ok? <==>
                  && s.task.Some? && cleared == Ref(s.task.value.id, s.task.value.revision + 1)
                  && PositiveInteger(cleared.revision) && s.updatedAt.value <= clearedAt <= MAX_SAFE)
            && (after.Ok? ==> after == Ok(TaskFold(None, 0, None, None, Some(cleared), s.seenTaskIds)))
  {
    hide ValidSnapshot;
    if s.task.Some? { CurrentIsNamed(s); }
  }

  lemma CurrentIsNamed(s: TaskFold)
    requires WellFormed(s) && s.task.Some?
    ensures s.task.value.id != ""
  {
  }

  /** Every operation but a create and an edit keeps what was defined, field by field. */
  lemma DefinitionKept(s: TaskFold, event: Event)
    requires WellFormed(s) && IsSnapshotEvent(event) && ApplyEvent(s, event).Ok?
    requires !event.change.operation.Create? && !event.change.operation.Edit?
    ensures s.task.Some? && ApplyEvent(s, event).value.task.Some?
    ensures var was, now := s.task.value, ApplyEvent(s, event).value.task.value;
            && now.id == was.id && now.objective == was.objective && now.maxRounds == was.maxRounds && now.next == was.next
            && now.checkpoints == was.checkpoints && now.openQuestions == was.openQuestions
  {
    hide ValidSnapshot, Text.Join;
    MoveTakenExactly(s, event.change);
    MoveTaken(s, event.change);
  }

  /** An edit keeps where the task stands. */
  lemma EditKeepsStanding(s: TaskFold, event: Event)
    requires WellFormed(s) && IsSnapshotEvent(event) && ApplyEvent(s, event).Ok? && event.change.operation.Edit?
    ensures s.task.Some? && ApplyEvent(s, event).value.task.Some?
    ensures var was, now := s.task.value, ApplyEvent(s, event).value.task.value;
            now.id == was.id && now.phase == was.phase && now.handoffs == was.handoffs && now.blockedReason == was.blockedReason
  {
    hide ValidSnapshot, Text.Join;
    MoveTakenExactly(s, event.change);
    MoveTaken(s, event.change);
  }

  // ---------------------------------------------------------------- over a log

  function ChangeCount(log: seq<Event>): nat {
    if log == [] then 0
    else ChangeCount(log[..|log| - 1]) + if log[|log| - 1].ChangeEvent? then 1 else 0
  }

  predicate IsEdit(event: Event) {
    IsSnapshotEvent(event) && event.change.operation.Edit?
  }

  /**
   * Two moments of one task: the creation time is the same, no time falls, the revision counts the changes in
   * between, and the definition is the same if none of them was an edit.
   */
  predicate OneTask(s: TaskFold, s': TaskFold, changes: int, edited: bool)
    requires WellFormed(s) && WellFormed(s') && s.task.Some? && s'.task.Some?
  {
    && s'.createdAt == s.createdAt && s.updatedAt.value <= s'.updatedAt.value
    && s'.task.value.revision == s.task.value.revision + changes
    && s.roundsStarted <= s'.roundsStarted
    && (!edited ==>
          var was, now := s.task.value, s'.task.value;
          && now.objective == was.objective && now.maxRounds == was.maxRounds && now.next == was.next
          && now.checkpoints == was.checkpoints && now.openQuestions == was.openQuestions
          && Text.Join(now.core, '\n') == Text.Join(was.core, '\n'))
  }

  /** One event: either the task goes on as itself, or what is current afterwards has an identifier not seen before. */
  lemma EventGoesOn(s: TaskFold, event: Event)
    requires WellFormed(s) && ApplyEvent(s, event).Ok?
    ensures var s' := ApplyEvent(s, event).value;
            && WellFormed(s') && s.seenTaskIds <= s'.seenTaskIds
            && (s'.task.Some? ==>
                  if s'.task.value.id in s.seenTaskIds
                  then s.task.Some? && s.task.value.id == s'.task.value.id
                       && OneTask(s, s', if event.ChangeEvent? then 1 else 0, IsEdit(event))
                  else IsSnapshotEvent(event) && event.change.operation.Create? && s'.task.value.revision == 1)
  {
    ApplyKeepsWellFormed(s, event);
    hide ValidSnapshot, Text.Join, ValidChange;
    if IsSnapshotEvent(event) {
      MoveTaken(s, event.change);
      if event.change.operation.Create? { CreateTakenExactly(s, event.change); }
      else { MoveTakenExactly(s, event.change); }
    }
  }

  /** The task current at two moments of one accepted log is one task throughout. */
  lemma {:induction false} SameTaskThroughout(log: seq<Event>, i: nat, j: nat)
    requires i <= j <= |log| && Accepted(log[..j]) && Accepted(log[..i])
    requires WellFormed(Fold(log[..i]).value) && WellFormed(Fold(log[..j]).value)
    requires Fold(log[..i]).value.task.Some?
    ensures Fold(log[..i]).value.seenTaskIds <= Fold(log[..j]).value.seenTaskIds
    ensures var s, s' := Fold(log[..i]).value, Fold(log[..j]).value;
            s'.task.Some? && s'.task.value.id == s.task.value.id ==>
              OneTask(s, s', ChangeCount(log[..j]) - ChangeCount(log[..i]), exists k :: i <= k < j && IsEdit(log[k]))
    decreases j
  {
    hide Fold, WellFormed, OneTask, IsEdit;
    if i < j {
      assert log[..j][..j - 1] == log[..j - 1];
      PrefixAccepted(log[..j], j - 1);
      FoldStep(log, j - 1);
      FoldWellFormed(log[..j - 1]);
      SameTaskThroughout(log, i, j - 1);
      EventGoesOn(Fold(log[..j - 1]).value, log[j - 1]);
      CurrentIsSeen(Fold(log[..i]).value);
      var s, s' := Fold(log[..i]).value, Fold(log[..j]).value;
      if s'.task.Some? && s'.task.value.id == s.task.value.id { OneTaskJoins(log, i, j); }
    } else {
      OneTaskAtOnce(Fold(log[..i]).value);
    }
  }

  lemma CurrentIsSeen(s: TaskFold)
    requires WellFormed(s) && s.task.Some?
    ensures s.task.value.id in s.seenTaskIds
  {
  }

  lemma OneTaskAtOnce(s: TaskFold)
    requires WellFormed(s) && s.task.Some?
    ensures OneTask(s, s, 0, false)
  {
  }

  lemma OneTaskJoins(log: seq<Event>, i: nat, j: nat)
    requires i < j <= |log|
    requires Accepted(log[..i]) && Accepted(log[..j - 1]) && Accepted(log[..j])
    requires WellFormed(Fold(log[..i]).value) && WellFormed(Fold(log[..j - 1]).value) && WellFormed(Fold(log[..j]).value)
    requires Fold(log[..i]).value.task.Some? && Fold(log[..j - 1]).value.task.Some? && Fold(log[..j]).value.task.Some?
    requires OneTask(Fold(log[..i]).value, Fold(log[..j - 1]).value, ChangeCount(log[..j - 1]) - ChangeCount(log[..i]),
                     exists k :: i <= k < j - 1 && IsEdit(log[k]))
    requires OneTask(Fold(log[..j - 1]).value, Fold(log[..j]).value, if log[j - 1].ChangeEvent? then 1 else 0, IsEdit(log[j - 1]))
    ensures OneTask(Fold(log[..i]).value, Fold(log[..j]).value, ChangeCount(log[..j]) - ChangeCount(log[..i]),
                    exists k :: i <= k < j && IsEdit(log[k]))
  {
    hide Fold, IsEdit, WellFormed, Text.Join;
    assert log[..j][..j - 1] == log[..j - 1];
    assert (exists k :: i <= k < j && IsEdit(log[k])) <==> (exists k :: i <= k < j - 1 && IsEdit(log[k])) || IsEdit(log[j - 1]);
  }

  /** Between two moments of one task with no edit in between, the definition is the same. */
  lemma DefinitionStands(log: seq<Event>, i: nat, j: nat)
    requires i <= j <= |log| && Accepted(log[..i]) && Accepted(log[..j])
    requires Fold(log[..i]).value.task.Some? && Fold(log[..j]).value.task.Some?
    requires Fold(log[..i]).value.task.value.id == Fold(log[..j]).value.task.value.id
    requires forall k :: i <= k < j ==> !IsEdit(log[k])
    ensures var was, now := Fold(log[..i]).value.task.value, Fold(log[..j]).value.task.value;
            && now.objective == was.objective && now.maxRounds == was.maxRounds && now.next == was.next
            && now.checkpoints == was.checkpoints && now.openQuestions == was.openQuestions
            && Text.Join(now.core, '\n') == Text.Join(was.core, '\n')
  {
    hide Fold, IsEdit, WellFormed, Text.Join;
    FoldWellFormed(log[..i]);
    FoldWellFormed(log[..j]);
    SameTaskThroughout(log, i, j);
  }

  /** Revisions and times of one task: the revision counts the changes since, the creation time stays, no time falls. */
  lemma RevisionsCount(log: seq<Event>, i: nat, j: nat)
    requires i <= j <= |log| && Accepted(log[..i]) && Accepted(log[..j])
    requires Fold(log[..i]).value.task.Some? && Fold(log[..j]).value.task.Some?
    requires Fold(log[..i]).value.task.value.id == Fold(log[..j]).value.task.value.id
    ensures var s, s' := Fold(log[..i]).value, Fold(log[..j]).value;
            && s'.task.value.revision - s.task.value.revision == ChangeCount(log[..j]) - ChangeCount(log[..i])
            && s'.createdAt == s.createdAt && s.updatedAt.Some? && s'.updatedAt.Some?
            && s.updatedAt.value <= s'.updatedAt.value && s.roundsStarted <= s'.roundsStarted
  {
    hide Fold, IsEdit, Text.Join, ValidSnapshot;
    FoldWellFormed(log[..i]);
    FoldWellFormed(log[..j]);
    SameTaskThroughout(log, i, j);
  }

  /** Every trace of an accepted log names the revision and the handoff count current at that moment, and changes nothing. */
  lemma TracesTell(log: seq<Event>, k: nat)
    requires Accepted(log) && k < |log| && log[k].TraceEvent?
    ensures log[k].trace.Trace? && Accepted(log[..k]) && Fold(log[..k + 1]) == Fold(log[..k])
    ensures var s := Fold(log[..k]).value;
            && s.task.Some? && log[k].trace.ref == Ref(s.task.value.id, s.task.value.revision)
            && log[k].trace.handoffs == s.task.value.handoffs
  {
    PrefixAccepted(log, k);
    PrefixAccepted(log, k + 1);
    FoldStep(log, k);
  }

  /** Exactly when a trace is taken. */
  lemma TraceTakenExactly(s: TaskFold, trace: Trace)
    requires WellFormed(s)
    ensures ApplyEvent(s, TraceEvent(trace)).Ok? <==>
            && trace.Trace? && s.task.Some? && NonNegativeInteger(trace.at)
            && trace.ref == Ref(s.task.value.id, s.task.value.revision) && trace.handoffs == s.task.value.handoffs
    ensures ApplyEvent(s, TraceEvent(trace)).Ok? ==> ApplyEvent(s, TraceEvent(trace)) == Ok(s)
  {
  }

  /** Exactly when a round message is taken, and that it counts one round and changes nothing else. */
  lemma RoundTakenExactly(s: TaskFold, message: Message)
    requires WellFormed(s) && message.source.RoundSource?
    ensures var after := ApplyEvent(s, MessageEvent(message));
            && (after.Ok? <==>
                  && s.task.Some? && s.task.value.phase == Active
                  && Ref(message.source.taskId, message.source.revision) == Ref(s.task.value.id, s.task.value.revision)
                  && message.source.round == s.roundsStarted + 1 <= s.task.value.maxRounds)
            && (after.Ok? ==> after == Ok(s.(roundsStarted := s.roundsStarted + 1)))
  {
  }
}
