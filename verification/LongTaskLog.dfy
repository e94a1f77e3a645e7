/**
 * Laws of accepted logs: revision identities are never issued twice, an identity determines its
 * snapshot, rounds and handoffs are conserved, and the light projection agrees with the strict fold.
 */
module LongTaskLog {
  import opened Wrappers
  import opened LongTaskTypes
  import opened LongTaskFold
  import Text

  predicate IsSnapshotEvent(event: Event) {
    event.ChangeEvent? && event.change.SnapshotChange?
  }

  /** A change event that carries a revision identity. */
  predicate HasRef(event: Event) {
    event.ChangeEvent? && !event.change.Malformed?
  }

  // ------------------------------------------------------- shape of the fold

  /** What replay guarantees about its own state after any accepted log. */
  predicate WellFormed(s: TaskFold) {
    && (s.task.Some? <==> s.createdAt.Some?)
    && (s.task.Some? <==> s.updatedAt.Some?)
    && NonNegativeInteger(s.roundsStarted)
    && (s.task.None? ==> s.roundsStarted == 0)
    && (s.task.Some? ==>
          var task := s.task.value;
          && ValidSnapshot(task) && StripReason(task) == task
          && task.id in s.seenTaskIds
          && s.lastRef == Some(TaskRef(task))
          && NonNegativeInteger(s.createdAt.value) && NonNegativeInteger(s.updatedAt.value)
          && s.createdAt.value <= s.updatedAt.value)
  }

  lemma ApplyKeepsWellFormed(s: TaskFold, event: Event)
    requires WellFormed(s) && ApplyEvent(s, event).Ok?
    ensures WellFormed(ApplyEvent(s, event).value)
  {
  }

  lemma {:induction false} FoldWellFormed(log: seq<Event>)
    requires Accepted(log)
    ensures WellFormed(Fold(log).value)
  {
    if log != [] {
      FoldWellFormed(log[..|log| - 1]);
      ApplyKeepsWellFormed(Fold(log[..|log| - 1]).value, log[|log| - 1]);
    }
  }

  // ------------------------------------------------------ identities in a log

  /** Every issued identity belongs to a seen task and is not ahead of the current revision of that task. */
  predicate RefsBehind(log: seq<Event>, s: TaskFold) {
    forall k :: 0 <= k < |log| && log[k].ChangeEvent? ==>
      && HasRef(log[k])
      && var ref := ChangeRef(log[k].change);
         && ref.id in s.seenTaskIds
         && (s.task.Some? && s.task.value.id == ref.id ==> ref.revision <= s.task.value.revision)
  }

  lemma {:induction false} FoldRefsBehind(log: seq<Event>)
    requires Accepted(log)
    ensures RefsBehind(log, Fold(log).value)
  {
    if log != [] {
      hide ValidSnapshot;
      var before := log[..|log| - 1];
      FoldRefsBehind(before);
      FoldWellFormed(before);
      RefsBehindStep(before, Fold(before).value, log[|log| - 1]);
      assert log == before + [log[|log| - 1]];
    }
  }

  lemma RefsBehindStep(log: seq<Event>, s: TaskFold, event: Event)
    requires RefsBehind(log, s) && WellFormed(s) && ApplyEvent(s, event).Ok?
    ensures RefsBehind(log + [event], ApplyEvent(s, event).value)
  {
    hide ValidSnapshot;
    var all, s' := log + [event], ApplyEvent(s, event).value;
    forall k | 0 <= k < |all| && all[k].ChangeEvent?
      ensures HasRef(all[k])
      ensures var ref := ChangeRef(all[k].change);
              && ref.id in s'.seenTaskIds
              && (s'.task.Some? && s'.task.value.id == ref.id ==> ref.revision <= s'.task.value.revision)
    {
      if k < |log| { assert log[k] == all[k]; }
    }
  }

  /** The identity a change event issues is new: no earlier change of the log carries it. */
  lemma RefsUnique(log: seq<Event>, i: nat, j: nat)
    requires Accepted(log) && i < j < |log|
    requires log[i].ChangeEvent? && log[j].ChangeEvent?
    ensures HasRef(log[i]) && HasRef(log[j])
    ensures ChangeRef(log[i].change) != ChangeRef(log[j].change)
  {
    FoldRefsBehind(log);
    PrefixAccepted(log, j);
    PrefixAccepted(log, j + 1);
    FoldStep(log, j);
    FoldRefsBehind(log[..j]);
    FoldWellFormed(log[..j]);
    assert log[..j][i] == log[i];
  }

  /** The current snapshot is the one the newest change event carried. */
  lemma {:induction false} CurrentComesFromNewestChange(log: seq<Event>) returns (k: nat)
    requires Accepted(log) && Fold(log).value.task.Some?
    ensures k < |log| && IsSnapshotEvent(log[k])
    ensures Fold(log).value.task.value == StripReason(log[k].change.task)
    ensures forall m :: k < m < |log| ==> !log[m].ChangeEvent?
  {
    var last := |log| - 1;
    if log[last].ChangeEvent? {
      k := last;
    } else {
      k := CurrentComesFromNewestChange(log[..last]);
      forall m | k < m < |log| ensures !log[m].ChangeEvent? {
        if m < last { assert log[..last][m] == log[m]; }
      }
    }
  }

  /**
   * The fact the round driver leans on: at any two moments of one accepted log, the same identity
   * denotes the same snapshot, whatever edits, clears and replacements lie between them.
   */
  lemma SameRefSameSnapshot(log: seq<Event>, i: nat, j: nat)
    requires i <= |log| && j <= |log|
    requires Accepted(log) && Accepted(log[..i]) && Accepted(log[..j])
    requires Fold(log[..i]).value.task.Some? && Fold(log[..j]).value.task.Some?
    requires TaskRef(Fold(log[..i]).value.task.value) == TaskRef(Fold(log[..j]).value.task.value)
    ensures Fold(log[..i]).value.task == Fold(log[..j]).value.task
  {
    var k := CurrentComesFromNewestChange(log[..i]);
    var m := CurrentComesFromNewestChange(log[..j]);
    assert log[..i][k] == log[k] && log[..j][m] == log[m];
    if k < m {
      RefsUnique(log, k, m);
    } else if m < k {
      RefsUnique(log, m, k);
    }
  }

  // ----------------------------------------------------- rounds and handoffs

  /** Round numbers of the messages since the current task was created, oldest first. */
  function Rounds(log: seq<Event>): seq<int> {
    if log == [] then []
    else
      var before, event := log[..|log| - 1], log[|log| - 1];
      match event
      case ChangeEvent(SnapshotChange(Create, _, _, _, _)) => []
      case ChangeEvent(ClearChange(_, _)) => []
      case MessageEvent(Message(_, _, RoundSource(_, _, round))) => Rounds(before) + [round]
      case _ => Rounds(before)
  }

  /** Edits, pauses and resumes never reset the count: rounds run 1, 2, ..., roundsStarted since the create. */
  lemma {:induction false} RoundConservation(log: seq<Event>)
    requires Accepted(log)
    ensures |Rounds(log)| == Fold(log).value.roundsStarted
    ensures forall i :: 0 <= i < |Rounds(log)| ==> Rounds(log)[i] == i + 1
  {
    if log != [] {
      RoundConservation(log[..|log| - 1]);
    }
  }

  /** Each round message was admitted under the cap in force at that moment, on the then current active revision. */
  lemma RoundsWithinCap(log: seq<Event>, k: nat)
    requires Accepted(log) && k < |log|
    requires log[k].MessageEvent? && log[k].message.source.RoundSource?
    ensures Accepted(log[..k]) && Fold(log[..k]).value.task.Some?
    ensures var current, source := Fold(log[..k]).value.task.value, log[k].message.source;
            && current.phase.Active? && TaskRef(current) == Ref(source.taskId, source.revision)
            && 1 <= source.round == |Rounds(log[..k])| + 1 <= current.maxRounds
  {
    PrefixAccepted(log, k);
    PrefixAccepted(log, k + 1);
    FoldStep(log, k);
    RoundConservation(log[..k]);
  }

  /** Handoff changes since the current task was created. */
  function HandoffCount(log: seq<Event>): nat {
    if log == [] then 0
    else
      var before, event := log[..|log| - 1], log[|log| - 1];
      match event
      case ChangeEvent(SnapshotChange(Create, _, _, _, _)) => 0
      case ChangeEvent(SnapshotChange(Handoff, _, _, _, _)) => HandoffCount(before) + 1
      case _ => HandoffCount(before)
  }

  /** Event n of the log does not move the handoff counter outside a handoff, as every change the service writes. */
  predicate KeepsHandoffs(log: seq<Event>, n: nat)
    requires n < |log|
  {
    IsSnapshotEvent(log[n]) && !log[n].change.operation.Create? && !log[n].change.operation.Handoff?
    && Accepted(log[..n]) && Fold(log[..n]).value.task.Some? ==>
      log[n].change.task.handoffs == Fold(log[..n]).value.task.value.handoffs
  }

  /** Total movement of the counter by changes that are no handoff, since the current task was created. */
  function HandoffDrift(log: seq<Event>): int {
    if log == [] then 0
    else
      var before, event := log[..|log| - 1], log[|log| - 1];
      match event
      case ChangeEvent(SnapshotChange(Create, _, _, _, _)) => 0
      case ChangeEvent(SnapshotChange(Handoff, _, _, _, _)) => HandoffDrift(before)
      case ChangeEvent(SnapshotChange(_, task, _, _, _)) =>
        if Accepted(before) && Fold(before).value.task.Some?
        then HandoffDrift(before) + task.handoffs - Fold(before).value.task.value.handoffs
        else 0
      case _ => HandoffDrift(before)
  }

  /** On every accepted log the counter is the number of handoff changes plus that drift, so it counts exactly when the drift is nil. */
  lemma {:induction false} HandoffsCountUpToDrift(log: seq<Event>)
    requires Accepted(log) && Fold(log).value.task.Some?
    ensures Fold(log).value.task.value.handoffs == HandoffCount(log) + HandoffDrift(log)
  {
    hide ValidSnapshot;
    var before := log[..|log| - 1];
    if Fold(before).value.task.Some? {
      HandoffsCountUpToDrift(before);
    }
  }

  /** In a log whose other changes keep the counter, as the service's do, `handoffs` counts the handoff changes. */
  lemma {:induction false} HandoffConservation(log: seq<Event>)
    requires Accepted(log) && Fold(log).value.task.Some?
    requires forall n :: 0 <= n < |log| ==> KeepsHandoffs(log, n)
    ensures Fold(log).value.task.value.handoffs == HandoffCount(log)
  {
    HandoffsCountUpToDrift(log);
    NoDrift(log);
  }

  lemma {:induction false} NoDrift(log: seq<Event>)
    requires forall n :: 0 <= n < |log| ==> KeepsHandoffs(log, n)
    ensures HandoffDrift(log) == 0
  {
    if log != [] {
      var last := |log| - 1;
      var before := log[..last];
      forall n | 0 <= n < last ensures KeepsHandoffs(before, n) {
        assert KeepsHandoffs(log, n);
        assert before[..n] == log[..n];
      }
      NoDrift(before);
      assert KeepsHandoffs(log, last);
    }
  }

  // ----------------------------------------------- what the fold does not keep

  predicate WithinBudget(s: TaskFold) {
    s.task.Some? ==> s.roundsStarted <= s.task.value.maxRounds
  }

  /** The round budget is kept by every accepted event except an edit that lowers the cap below the rounds started. */
  lemma BudgetKeptExactly(s: TaskFold, event: Event)
    requires WellFormed(s) && WithinBudget(s) && ApplyEvent(s, event).Ok?
    ensures WithinBudget(ApplyEvent(s, event).value) <==>
            !(IsSnapshotEvent(event) && event.change.operation.Edit? && event.change.task.maxRounds < s.roundsStarted)
  {
    if IsSnapshotEvent(event) { DecodedCap(event); }
    hide ValidSnapshot, Text.Join;
    if IsSnapshotEvent(event) && ApplyEvent(s, event).value.task.Some? {
      assert ApplyEvent(s, event).value.task == Some(StripReason(event.change.task));
    }
  }

  lemma DecodedCap(event: Event)
    requires IsSnapshotEvent(event) && ValidChange(event.change)
    ensures PositiveInteger(event.change.task.maxRounds)
  {
  }

  predicate NoLineBreaks(core: seq<string>) {
    forall entry :: entry in core ==> '\n' !in entry
  }

  /** Every operation but an edit keeps the hub entries, provided neither list holds an entry with a line break. */
  lemma CoreKept(s: TaskFold, event: Event)
    requires WellFormed(s) && s.task.Some? && ApplyEvent(s, event).Ok?
    requires IsSnapshotEvent(event) && !event.change.operation.Create? && !event.change.operation.Edit?
    requires NoLineBreaks(s.task.value.core) && NoLineBreaks(event.change.task.core)
    ensures ApplyEvent(s, event).value.task.Some?
    ensures ApplyEvent(s, event).value.task.value.core == s.task.value.core
  {
    Text.JoinInjective(s.task.value.core, event.change.task.core, '\n');
  }

  /** A line break an entry can be split at: one between two characters that are no space. */
  predicate Breakable(entry: string, i: nat) {
    0 < i < |entry| - 1 && entry[i] == '\n' && !Text.IsSpace(entry[i - 1]) && !Text.IsSpace(entry[i + 1])
  }

  /** Hub entries that no other list of entries joins to: none, or one that cannot be split. */
  predicate Rigid(core: seq<string>) {
    core == [] || (|core| == 1 && forall i :: 0 <= i < |core[0]| ==> !Breakable(core[0], i))
  }

  /** The event, if it is a snapshot change that is neither a create nor an edit and is accepted, keeps the hub entries. */
  predicate KeepsCore(s: TaskFold, event: Event)
    requires s.task.Some?
  {
    IsSnapshotEvent(event) && !event.change.operation.Create? && !event.change.operation.Edit? && ApplyEvent(s, event).Ok? ==>
      ApplyEvent(s, event).value.task.Some? && ApplyEvent(s, event).value.task.value.core == s.task.value.core
  }

  /** Joining two or more valid entries puts a splittable break after the first. */
  lemma JoinIsBreakable(core: seq<string>)
    requires ValidCore(core) && |core| > 1
    ensures Breakable(Text.Join(core, '\n'), |core[0]|)
  {
    var text, rest := Text.Join(core, '\n'), Text.Join(core[1..], '\n');
    assert core[0] in core && core[1] in core;
    Text.NormalizedMeaning(core[0]);
    Text.NormalizedMeaning(core[1]);
    assert core[1..][0] == core[1];
    assert |rest| > 0 && rest[0] == core[1][0];
    assert text == core[0] + ['\n'] + rest;
  }

  /** A valid list of entries that joins to the same text as a rigid one is that list. */
  lemma RigidIsAlone(core: seq<string>, other: seq<string>)
    requires ValidCore(core) && ValidCore(other) && Rigid(core)
    requires Text.Join(other, '\n') == Text.Join(core, '\n')
    ensures other == core
  {
    if |other| > 1 { JoinIsBreakable(other); }
    if |other| > 0 { assert other[0] in other; Text.NormalizedMeaning(other[0]); }
    if |core| > 0 { assert core[0] in core; Text.NormalizedMeaning(core[0]); }
  }

  /** The joined text of valid entries starts and ends as its first and last entry do. */
  lemma {:induction false} JoinIsNormalized(core: seq<string>)
    requires ValidCore(core) && core != []
    ensures Text.Normalized(Text.Join(core, '\n'))
    ensures |core| > 1 ==> [Text.Join(core, '\n')] != core
  {
    var text := Text.Join(core, '\n');
    assert core[0] in core;
    Text.NormalizedMeaning(core[0]);
    if |core| > 1 {
      JoinIsNormalized(core[1..]);
      Text.NormalizedMeaning(Text.Join(core[1..], '\n'));
    }
    Text.NormalizedMeaning(text);
  }

  /** What a list that is not rigid can turn into without changing its joined text. */
  ghost function Reshaped(core: seq<string>): seq<string>
    requires !Rigid(core)
  {
    if |core| > 1 then [Text.Join(core, '\n')]
    else
      var i :| 0 <= i < |core[0]| && Breakable(core[0], i);
      [core[0][..i], core[0][i + 1..]]
  }

  lemma ReshapedIsValid(core: seq<string>)
    requires ValidCore(core) && !Rigid(core)
    ensures ValidCore(Reshaped(core)) && Reshaped(core) != core
    ensures Text.Join(Reshaped(core), '\n') == Text.Join(core, '\n')
  {
    if |core| > 1 {
      JoinIsNormalized(core);
    } else {
      var i := |Reshaped(core)[0]|;
      var entry := core[0];
      var a, b := entry[..i], entry[i + 1..];
      assert Reshaped(core) == [a, b];
      assert [a, b][1..] == [b];
      Text.NormalizedMeaning(entry);
      Text.NormalizedMeaning(a);
      Text.NormalizedMeaning(b);
      assert entry == a + ['\n'] + b;
    }
  }

  /** Completing the task with its entries reshaped. */
  ghost function Reshaping(s: TaskFold): Event
    requires s.task.Some? && s.createdAt.Some? && s.updatedAt.Some? && !Rigid(s.task.value.core)
  {
    var task := s.task.value;
    ChangeEvent(SnapshotChange(Finish,
      task.(revision := task.revision + 1, phase := Complete, blockedReason := None, core := Reshaped(task.core)),
      s.roundsStarted, s.createdAt.value, s.updatedAt.value))
  }

  lemma ReshapingAccepted(s: TaskFold)
    requires WellFormed(s) && s.task.Some? && !s.task.value.phase.Complete? && s.task.value.revision < MAX_SAFE
    requires !Rigid(s.task.value.core)
    ensures !KeepsCore(s, Reshaping(s))
  {
    hide Text.Join, Text.Normalized, Reshaped;
    ReshapedIsValid(s.task.value.core);
  }

  /**
   * Exactly when no accepted change but a create or an edit can alter the hub entries: when no such change
   * can be accepted at all, because the task is complete or its revision is the last one, or when the
   * entries are rigid. Two or more entries can always be merged into one.
   */
  lemma CoreKeptExactly(s: TaskFold)
    requires WellFormed(s) && s.task.Some?
    ensures (forall event :: KeepsCore(s, event)) <==>
            s.task.value.phase.Complete? || s.task.value.revision == MAX_SAFE || Rigid(s.task.value.core)
  {
    var task := s.task.value;
    if task.phase.Complete? || task.revision == MAX_SAFE || Rigid(task.core) {
      forall event ensures KeepsCore(s, event) { RigidKept(s, event); }
    } else {
      ReshapingAccepted(s);
    }
  }

  lemma RigidKept(s: TaskFold, event: Event)
    requires WellFormed(s) && s.task.Some?
    requires s.task.value.phase.Complete? || s.task.value.revision == MAX_SAFE || Rigid(s.task.value.core)
    ensures KeepsCore(s, event)
  {
    hide Text.Join, Text.Normalized, Rigid;
    if IsSnapshotEvent(event) && !event.change.operation.Create? && !event.change.operation.Edit? && ApplyEvent(s, event).Ok? {
      if Rigid(s.task.value.core) { RigidIsAlone(s.task.value.core, event.change.task.core); }
    }
  }

  // ----------------------------------------------------- the light projection

  datatype Projection = Projection(task: Snapshot, roundsStarted: int, createdAt: int, updatedAt: int)

  /** Last-wins transition: malformed changes and every other event leave the projection alone. */
  function ApplyProjection(state: Option<Projection>, event: Event): Option<Projection> {
    if !event.ChangeEvent? then state
    else
      match DecodeChange(event.change)
      case Err(_) => state
      case Ok(ClearChange(_, _)) => None
      case Ok(SnapshotChange(_, task, rounds, createdAt, updatedAt)) =>
        Some(Projection(task, rounds, createdAt, updatedAt))
      case Ok(Malformed) => state
  }

  function Project(log: seq<Event>): Option<Projection> {
    if log == [] then None else ApplyProjection(Project(log[..|log| - 1]), log[|log| - 1])
  }

  /**
   * On any log, accepted or not, the projection is what the newest change that decodes says, whatever came after
   * it that does not: nothing after a clear, and before the first.
   */
  lemma {:induction false} ProjectionIsNewestDecodable(log: seq<Event>) returns (k: nat)
    ensures k <= |log|
    ensures forall m :: k <= m < |log| && log[m].ChangeEvent? && ValidChange(log[m].change) ==> m == k
    ensures k == |log| ==> Project(log).None?
    ensures k < |log| ==>
              && log[k].ChangeEvent? && ValidChange(log[k].change)
              && Project(log) ==
                 match log[k].change
                 case SnapshotChange(_, task, rounds, createdAt, updatedAt) =>
                   Some(Projection(StripReason(task), rounds, createdAt, updatedAt))
                 case _ => None
    ensures k == |log| ==> forall m :: 0 <= m < |log| && log[m].ChangeEvent? ==> !ValidChange(log[m].change)
  {
    hide ValidChange;
    if log == [] {
      k := 0;
    } else {
      var before, last := log[..|log| - 1], |log| - 1;
      if log[last].ChangeEvent? && ValidChange(log[last].change) {
        DecodableIsShaped(log[last].change);
        k := last;
      } else {
        k := ProjectionIsNewestDecodable(before);
        assert forall m :: 0 <= m < last ==> before[m] == log[m];
        if k == last { k := |log|; }
      }
    }
  }

  lemma DecodableIsShaped(change: Change)
    requires ValidChange(change)
    ensures !change.Malformed?
  {
  }

  /** Rounds admitted since the newest change event. */
  function RoundsSinceChange(log: seq<Event>): nat {
    if log == [] then 0
    else
      match log[|log| - 1]
      case ChangeEvent(_) => 0
      case MessageEvent(Message(_, _, RoundSource(_, _, _))) => RoundsSinceChange(log[..|log| - 1]) + 1
      case _ => RoundsSinceChange(log[..|log| - 1])
  }

  /** Same task and times; a count that lags by `since`. */
  predicate Agrees(s: TaskFold, p: Option<Projection>, since: nat) {
    && (p.Some? <==> s.task.Some?)
    && (p.Some? ==>
          && Some(p.value.task) == s.task
          && Some(p.value.createdAt) == s.createdAt
          && Some(p.value.updatedAt) == s.updatedAt
          && p.value.roundsStarted + since == s.roundsStarted)
  }

  lemma ProjectionStep(log: seq<Event>, event: Event, s: TaskFold, p: Option<Projection>)
    requires WellFormed(s) && ApplyEvent(s, event).Ok? && Agrees(s, p, RoundsSinceChange(log))
    ensures Agrees(ApplyEvent(s, event).value, ApplyProjection(p, event), RoundsSinceChange(log + [event]))
  {
    hide ValidSnapshot;
    assert (log + [event])[..|log|] == log;
  }

  /**
   * On an accepted log the projection has the strict fold's task and timestamps, and its round count
   * lags by exactly the rounds admitted since the newest change.
   */
  lemma {:induction false} ProjectionAgrees(log: seq<Event>)
    requires Accepted(log)
    ensures Agrees(Fold(log).value, Project(log), RoundsSinceChange(log))
  {
    if log != [] {
      hide Agrees, WellFormed;
      var before := log[..|log| - 1];
      ProjectionAgrees(before);
      FoldWellFormed(before);
      ProjectionStep(before, log[|log| - 1], Fold(before).value, Project(before));
      assert log == before + [log[|log| - 1]];
    }
  }
}
