/** What the decoder takes, said without it: reason codes as runs between dashes, snapshots bound by bound. */
module LongTaskDecoding {
  import opened Wrappers
  import opened LongTaskTypes
  import opened LongTaskFold
  import opened LongTaskRequests
  import Text

  /** A run of lower-case letters and digits. */
  predicate Run(part: string) {
    part != "" && forall i :: 0 <= i < |part| ==> IsLowerOrDigit(part[i])
  }

  /** From the given one on, every part is a run. */
  predicate RunsBut(parts: seq<string>, first: nat) {
    forall k :: first <= k < |parts| ==> Run(parts[k])
  }

  /** Dashes stand alone, and not at the end. */
  predicate Dashed(code: string) {
    && (forall i :: 0 <= i < |code| ==> IsLowerOrDigit(code[i]) || code[i] == '-')
    && (code != "" ==> code[|code| - 1] != '-')
    && (forall i :: 0 < i < |code| && code[i] == '-' ==> code[i - 1] != '-')
  }

  /** Behind the first part all are runs exactly if dashes stand alone, and not at the end. */
  lemma {:induction false} PartsAreRuns(code: string)
    ensures var parts := Text.Split(code, '-');
            && (RunsBut(parts, 1) && (parts[0] == "" || Run(parts[0])) <==> Dashed(code))
            && (parts[0] == "" <==> code == "" || code[0] == '-')
  {
    if code != "" {
      var rest, parts := Text.Split(code[1..], '-'), Text.Split(code, '-');
      PartsAreRuns(code[1..]);
      DashedHead(code);
      if code[0] == '-' {
        assert parts == [""] + rest;
        if RunsBut(parts, 1) { assert Run(parts[1]); assert forall k :: 1 <= k < |rest| ==> parts[k + 1] == rest[k]; }
      } else {
        assert parts == [[code[0]] + rest[0]] + rest[1..];
        RunHead(code[0], rest[0]);
        assert forall k :: 1 <= k < |rest| ==> parts[k] == rest[k];
      }
    }
  }

  lemma RunHead(c: char, part: string)
    ensures Run([c] + part) <==> IsLowerOrDigit(c) && (part == "" || Run(part))
  {
    var all := [c] + part;
    assert forall i :: 0 <= i < |part| ==> all[i + 1] == part[i];
    assert all[0] == c;
  }

  lemma DashedHead(code: string)
    requires code != ""
    ensures Dashed(code) <==>
            && Dashed(code[1..]) && (IsLowerOrDigit(code[0]) || code[0] == '-')
            && (code[0] == '-' ==> |code| > 1 && code[1] != '-')
  {
    var tail := code[1..];
    assert forall i :: 0 <= i < |tail| ==> tail[i] == code[i + 1];
    if Dashed(tail) && (IsLowerOrDigit(code[0]) || code[0] == '-') && (code[0] == '-' ==> |code| > 1 && code[1] != '-') {
      forall i | 0 < i < |code| && code[i] == '-' ensures code[i - 1] != '-' {
        if i > 1 { assert tail[i - 1] == '-'; }
      }
      forall i | 0 <= i < |code| ensures IsLowerOrDigit(code[i]) || code[i] == '-' {
        if i > 0 { assert tail[i - 1] == code[i]; }
      }
    }
  }

  /** A reason code is taken exactly if it starts with a letter and its dashes separate runs of letters and digits. */
  lemma KebabExactly(code: string)
    ensures LowerKebab(code) <==> code != "" && 'a' <= code[0] <= 'z' && RunsBut(Text.Split(code, '-'), 0)
  {
    PartsAreRuns(code);
    hide Text.Split;
    assert LowerKebab(code) <==> code != "" && IsLower(code[0]) && Dashed(code);
  }

  /** A text the decoder takes: something, with no space at either end. */
  predicate Clean(text: string) {
    text != "" && !Text.IsSpace(text[0]) && !Text.IsSpace(text[|text| - 1])
  }

  lemma CleanMeans(text: string)
    ensures Text.Normalized(text) <==> Clean(text)
  {
    Text.NormalizedMeaning(text);
  }

  lemma QuestionsSplit(questions: seq<OpenQuestion>)
    ensures (forall q :: q in questions ==> ValidQuestion(q)) <==>
            && (forall q :: q in questions ==> PositiveInteger(q.ordinal) && Text.Normalized(q.question) && Text.Normalized(q.settledBy))
            && (forall q :: q in questions && q.closesCheckpoint.Some? ==> PositiveInteger(q.closesCheckpoint.value))
  {
    hide Text.Normalized;
  }

  predicate CleanReason(reason: BlockReason) {
    && Clean(reason.message) && reason.code != "" && 'a' <= reason.code[0] <= 'z'
    && RunsBut(Text.Split(reason.code, '-'), 0)
  }

  lemma ReasonTakenExactly(reason: BlockReason)
    ensures ValidBlockReason(reason) <==> CleanReason(reason)
  {
    KebabExactly(reason.code);
    CleanMeans(reason.message);
    hide Text.Normalized, LowerKebab, Clean, RunsBut;
  }

  /** The lists of a snapshot: so many entries at most, numbered from one, with clean texts. */
  predicate CleanLists(task: Snapshot) {
    && |task.core| <= 20 && |task.checkpoints| <= 100 && |task.openQuestions| <= 100
    && (forall i :: 0 <= i < |task.core| ==> Clean(task.core[i]))
    && (forall i :: 0 <= i < |task.checkpoints| ==>
          task.checkpoints[i].ordinal == i + 1 && Clean(task.checkpoints[i].statement) && Clean(task.checkpoints[i].verifiedBy))
    && (forall i :: 0 <= i < |task.openQuestions| ==>
          task.openQuestions[i].ordinal == i + 1 && Clean(task.openQuestions[i].question) && Clean(task.openQuestions[i].settledBy))
  }

  /** Closed questions name one of the snapshot's checkpoints by its number. */
  predicate ClosesWithin(task: Snapshot) {
    forall i :: 0 <= i < |task.openQuestions| && task.openQuestions[i].closesCheckpoint.Some? ==>
      1 <= task.openQuestions[i].closesCheckpoint.value <= |task.checkpoints|
  }

  lemma ListsDecode(task: Snapshot)
    ensures CleanLists(task) <==>
            && ValidCore(task.core)
            && (forall c :: c in task.checkpoints ==> ValidCheckpoint(c))
            && (forall q :: q in task.openQuestions ==> PositiveInteger(q.ordinal) && Text.Normalized(q.question) && Text.Normalized(q.settledBy))
            && ValidOrdinals(CheckpointOrdinals(task.checkpoints), MAX_CHECKPOINTS)
            && ValidOrdinals(QuestionOrdinals(task.openQuestions), MAX_OPEN_QUESTIONS)
  {
    forall text ensures Text.Normalized(text) <==> Clean(text) { CleanMeans(text); }
    hide Text.Normalized, Clean;
    assert forall i :: 0 <= i < |task.checkpoints| ==> CheckpointOrdinals(task.checkpoints)[i] == task.checkpoints[i].ordinal;
    assert forall i :: 0 <= i < |task.openQuestions| ==> QuestionOrdinals(task.openQuestions)[i] == task.openQuestions[i].ordinal;
    if CleanLists(task) {
      forall i | 0 <= i < |task.checkpoints| ensures ValidCheckpoint(task.checkpoints[i]) {}
    } else {
      assert forall i :: 0 <= i < |task.core| ==> task.core[i] in task.core;
      assert forall i :: 0 <= i < |task.checkpoints| ==> task.checkpoints[i] in task.checkpoints;
      assert forall i :: 0 <= i < |task.openQuestions| ==> task.openQuestions[i] in task.openQuestions;
    }
  }

  lemma ClosuresDecode(task: Snapshot)
    requires ValidOrdinals(CheckpointOrdinals(task.checkpoints), MAX_CHECKPOINTS)
    ensures ClosesWithin(task) <==>
            && ClosuresKnown(task.openQuestions, task.checkpoints)
            && forall q :: q in task.openQuestions && q.closesCheckpoint.Some? ==> PositiveInteger(q.closesCheckpoint.value)
  {
    forall ordinal ensures KnownCheckpoint(ordinal, task.checkpoints) <==> 1 <= ordinal <= |task.checkpoints| {
      KnownByNumber(ordinal, task.checkpoints);
    }
    hide KnownCheckpoint;
    assert forall i :: 0 <= i < |task.openQuestions| ==> task.openQuestions[i] in task.openQuestions;
  }

  /** A snapshot is taken exactly if its numbers are in range, its texts clean, its lists numbered and its reason proper. */
  lemma SnapshotTakenExactly(task: Snapshot)
    ensures ValidSnapshot(task) <==>
            && task.id != "" && Clean(task.objective) && Clean(task.next)
            && 1 <= task.revision <= MAX_SAFE && 1 <= task.maxRounds <= MAX_SAFE && 0 <= task.handoffs <= MAX_SAFE
            && CleanLists(task) && ClosesWithin(task)
            && (task.phase == Blocked ==> task.blockedReason.Some? && CleanReason(task.blockedReason.value))
  {
    CleanMeans(task.objective);
    CleanMeans(task.next);
    ListsDecode(task);
    if ValidOrdinals(CheckpointOrdinals(task.checkpoints), MAX_CHECKPOINTS) { ClosuresDecode(task); }
    if task.blockedReason.Some? { ReasonTakenExactly(task.blockedReason.value); }
    QuestionsSplit(task.openQuestions);
    hide Text.Normalized, Clean, CleanLists, ClosesWithin, ValidCore, ValidCheckpoint, ValidQuestion, ClosuresKnown, ValidOrdinals;
    hide ValidBlockReason, CleanReason;
  }

  /** A change is taken exactly if its times are in order and in range and what it carries is taken. */
  lemma ChangeTakenExactly(raw: Change)
    ensures ValidChange(raw) <==>
            match raw
            case Malformed => false
            case ClearChange(cleared, at) => cleared.id != "" && 1 <= cleared.revision <= MAX_SAFE && 0 <= at <= MAX_SAFE
            case SnapshotChange(_, task, rounds, createdAt, updatedAt) =>
              0 <= createdAt <= updatedAt <= MAX_SAFE && 0 <= rounds <= MAX_SAFE && ValidSnapshot(task)
  {
    hide ValidSnapshot;
  }
}
