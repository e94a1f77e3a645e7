/**
 * Concrete inputs on which the long-task domain does less than one might expect. The exact conditions are
 * stated beside the laws they limit; these logs and requests show that the conditions are needed.
 */
module LongTaskWitnesses {
  import opened Wrappers
  import opened LongTaskTypes
  import opened LongTaskFold
  import opened LongTaskLog
  import opened LongTaskRequests
  import Text

  const FIRST := Checkpoint(1, "a", "b")
  const SECOND := Checkpoint(2, "c", "d")
  const ASKED := OpenQuestion(1, "q", "s", Some(2))

  /** A task of two checkpoints, with a question that closes the second. */
  function Sample(revision: int): Snapshot {
    Snapshot("t", revision, "o", Active, None, ["x\ny"], [FIRST, SECOND], [ASKED], "n", 5, 0)
  }

  function Created(): Event {
    ChangeEvent(SnapshotChange(Create, Sample(1), 0, 10, 10))
  }

  function Changed(operation: Operation, task: Snapshot, rounds: int): Event {
    ChangeEvent(SnapshotChange(operation, task, rounds, 10, 10))
  }

  function RoundMessage(round: nat): Event {
    MessageEvent(Message(round, "go", RoundSource("t", 1, round)))
  }

  lemma SampleTexts()
    ensures Text.Normalized("o") && Text.Normalized("n") && Text.Normalized("a") && Text.Normalized("b")
    ensures Text.Normalized("c") && Text.Normalized("d") && Text.Normalized("q") && Text.Normalized("s")
    ensures Text.Normalized("x\ny") && Text.Normalized("x") && Text.Normalized("y")
  {
    Text.NormalizedMeaning("o"); Text.NormalizedMeaning("n"); Text.NormalizedMeaning("a"); Text.NormalizedMeaning("b");
    Text.NormalizedMeaning("c"); Text.NormalizedMeaning("d"); Text.NormalizedMeaning("q"); Text.NormalizedMeaning("s");
    Text.NormalizedMeaning("x\ny"); Text.NormalizedMeaning("x"); Text.NormalizedMeaning("y");
  }

  lemma SampleIsValid(revision: int)
    requires PositiveInteger(revision)
    ensures ValidSnapshot(Sample(revision))
  {
    hide Text.Normalized;
    SampleTexts();
    var s := Sample(revision);
    assert SECOND in s.checkpoints && SECOND.ordinal == 2;
    assert CheckpointOrdinals(s.checkpoints) == [1, 2];
    assert QuestionOrdinals(s.openQuestions) == [1];
  }

  lemma VariantsAreValid()
    ensures ValidSnapshot(Sample(2).(maxRounds := 1))
    ensures ValidSnapshot(Sample(2).(phase := Paused, handoffs := 7))
    ensures ValidSnapshot(Sample(2).(phase := Paused, core := ["x", "y"]))
  {
    hide Text.Normalized;
    SampleIsValid(2);
    SampleTexts();
  }

  lemma SameJoinedText()
    ensures Text.Join(["x", "y"], '\n') == "x\ny" == Text.Join(["x\ny"], '\n')
  {
    assert ["x", "y"][1..] == ["y"];
  }

  lemma CreatedAccepted()
    ensures Fold([Created()]) == Ok(TaskFold(Some(Sample(1)), 0, Some(10), Some(10), Some(Ref("t", 1)), {"t"}))
  {
    hide ValidSnapshot;
    SampleIsValid(1);
    assert [Created()] == [] + [Created()];
    FoldSnoc([], Created());
    assert {} + {"t"} == {"t"};
  }

  const FIRST_ONLY := EditRequest(None, None, None, None, Some([FIRST]), None)

  lemma FirstOnlyResolves()
    ensures ResolveEdit(FIRST_ONLY).Ok?
  {
    hide Text.Normalized, Text.TrimEnd, Text.TrimStart;
    SampleTexts();
    TrimmedIsThere("a");
    TrimmedIsThere("b");
    assert UsableCheckpoint(FIRST, 0);
  }

  lemma TrimmedIsThere(s: string)
    requires Text.Normalized(s)
    ensures |Text.Trim(s)| > 0
  {
  }

  /** Replacing the checkpoints alone passes the service's checks and is then refused by the fold. */
  lemma EditStrandsQuestion()
    ensures var log := [Created()];
            && Accepted(log)
            && var plan := PlanRequest(Fold(log).value, true, EditTask(Ref("t", 1), FIRST_ONLY), 11, 9);
               plan.Commit? && !Accepted(log + [ChangeEvent(plan.change)])
  {
    hide Fold, ValidSnapshot, ResolveEdit, WellFormed, ApplyEvent;
    CreatedAccepted();
    FoldWellFormed([Created()]);
    FirstOnlyResolves();
    var q := EditTask(Ref("t", 1), FIRST_ONLY);
    assert ASKED in Sample(1).openQuestions;
    ServiceRefinesFold([Created()], true, q, 11, 9);
  }

  /** The fold accepts a pause that moves the handoff counter: it then no longer counts the handoff changes. */
  lemma PauseMovesHandoffs()
    ensures var log := [Created(), Changed(Pause, Sample(2).(phase := Paused, handoffs := 7), 0)];
            Accepted(log) && Fold(log).value.task.Some? && Fold(log).value.task.value.handoffs == 7 && HandoffCount(log) == 0
  {
    hide ValidSnapshot, Fold;
    var pause := Changed(Pause, Sample(2).(phase := Paused, handoffs := 7), 0);
    var log := [Created(), pause];
    CreatedAccepted();
    VariantsAreValid();
    assert log == [Created()] + [pause] && log[..1] == [Created()];
    FoldSnoc([Created()], pause);
    assert HandoffCount([Created()]) == 0;
  }

  /** The fold accepts a pause that splits one hub entry into two, since it compares the entries as one joined text. */
  lemma PauseReshapesCore()
    ensures var log := [Created(), Changed(Pause, Sample(2).(phase := Paused, core := ["x", "y"]), 0)];
            Accepted(log) && Fold(log).value.task.Some? && Fold(log).value.task.value.core == ["x", "y"] != Sample(1).core
  {
    hide ValidSnapshot, Fold, Text.Join;
    var task := Sample(2).(phase := Paused, core := ["x", "y"]);
    var pause := Changed(Pause, task, 0);
    CreatedAccepted();
    VariantsAreValid();
    SameJoinedText();
    assert [Created(), pause] == [Created()] + [pause];
    FoldSnoc([Created()], pause);
    assert |["x", "y"]| == 2;
  }

  /** An edit may lower the cap below the rounds already started. */
  lemma EditLowersCap()
    ensures var log := [Created(), RoundMessage(1), RoundMessage(2), Changed(Edit, Sample(2).(maxRounds := 1), 2)];
            Accepted(log) && !WithinBudget(Fold(log).value) && WithinBudget(Fold(log[..3]).value)
  {
    hide ValidSnapshot;
    var edit := Changed(Edit, Sample(2).(maxRounds := 1), 2);
    var l1, l2, l3 := [Created()], [Created(), RoundMessage(1)], [Created(), RoundMessage(1), RoundMessage(2)];
    CreatedAccepted();
    assert ValidSnapshot(Sample(2).(maxRounds := 1)) by { VariantsAreValid(); }
    assert l2 == l1 + [RoundMessage(1)] && l3 == l2 + [RoundMessage(2)];
    FoldSnoc(l1, RoundMessage(1));
    FoldSnoc(l2, RoundMessage(2));
    FoldSnoc(l3, edit);
    assert l3 + [edit] == [Created(), RoundMessage(1), RoundMessage(2), edit];
    assert (l3 + [edit])[..3] == l3;
  }
}
