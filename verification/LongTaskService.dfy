/**
 * The long-task service itself: a session log, an incremental cache of its strict fold, and
 * compare-and-set mutations. Every method is specified by LongTaskServiceModel.
 */
module LongTaskService {
  import opened Wrappers
  import opened LongTaskTypes
  import opened LongTaskFold
  import opened LongTaskReplay
  import opened LongTaskLog
  import opened LongTaskRequests
  import Model = LongTaskServiceModel

  class Session {
    var events: seq<Event>

    constructor (events: seq<Event>)
      ensures this.events == events
    {
      this.events := events;
    }

    method Append(event: Event)
      modifies this
      ensures events == old(events) + [event]
    {
      events := events + [event];
    }
  }

  /** Activation after observing events from..to of a log, given the announced outcome of an own append. */
  function Settle(activation: bool, events: seq<Event>, from: nat, to: nat, pending: Option<(nat, bool)>): bool
    requires from <= to <= |events|
  {
    if to == from then activation
    else if events[to - 1].ChangeEvent? then pending.Some? && pending.value.0 == to - 1 && pending.value.1
    else Settle(activation, events, from, to - 1, pending)
  }

  predicate NoChange(events: seq<Event>, from: nat)
    requires from <= |events|
  {
    forall i :: from <= i < |events| ==> !events[i].ChangeEvent?
  }

  lemma {:induction false} SettleQuiet(activation: bool, events: seq<Event>, from: nat, to: nat)
    requires from <= to <= |events|
    ensures Settle(activation, events, from, to, None) <==>
            activation && forall i :: from <= i < to ==> !events[i].ChangeEvent?
  {
    if from < to { SettleQuiet(activation, events, from, to - 1); }
  }

  class TaskCache {
    const state: FoldAccumulator
    var activation: bool
    var observedSeq: nat
    var pendingActivation: Option<(nat, bool)>

    constructor (state: FoldAccumulator, observedSeq: nat)
      ensures this.state == state && !activation && this.observedSeq == observedSeq && pendingActivation.None?
    {
      this.state := state;
      this.activation := false;
      this.observedSeq := observedSeq;
      this.pendingActivation := None;
    }
  }

  /** `loaded` says whether the per-session cache has been seeded; an unseeded cache means nothing. */
  class LongTaskService {
    const session: Session
    const cache: TaskCache
    const defaultMaxRounds: int
    var loaded: bool

    ghost function Repr(): set<object> {
      {this, session, cache, cache.state}
    }

    /** The cached fold is the replay of exactly the observed prefix of the log. */
    ghost predicate Synced()
      reads Repr()
    {
      loaded ==>
        && cache.observedSeq <= |session.events|
        && Fold(session.events[..cache.observedSeq]) == Ok(cache.state.View())
    }

    ghost predicate Valid()
      reads Repr()
    {
      Synced() && cache.pendingActivation.None? && PositiveInteger(defaultMaxRounds)
    }

    /** Everything observed: the cache holds the replay of the whole log. */
    ghost predicate UpToDate()
      reads Repr()
    {
      loaded && cache.observedSeq == |session.events| && Fold(session.events) == Ok(cache.state.View())
    }

    ghost predicate EffectivelyArmed()
      requires Synced()
      reads Repr()
    {
      loaded && cache.activation && Accepted(session.events) && NoChange(session.events, cache.observedSeq)
    }

    ghost function View(): Model.Service
      requires Synced()
      reads Repr()
    {
      Model.Service(session.events, EffectivelyArmed())
    }

    constructor (session: Session, defaultMaxRounds: int)
      requires PositiveInteger(defaultMaxRounds)
      ensures Valid() && this.session == session && this.defaultMaxRounds == defaultMaxRounds
      ensures View() == Model.Start(session.events) && fresh(Repr() - {session})
    {
      var state := new FoldAccumulator();
      this.session := session;
      this.defaultMaxRounds := defaultMaxRounds;
      this.cache := new TaskCache(state, 0);
      this.loaded := false;
    }

    /** Fold a seed once, disarmed; a rejected seed is discarded and the cache stays unseeded. */
    method Load() returns (error: Option<FoldError>)
      requires Valid()
      modifies Repr()
      ensures Valid() && View() == old(View()) && session.events == old(session.events)
      ensures error.None? <==> loaded
      ensures error.Some? ==> Fold(session.events) == Err(error.value)
    {
      if loaded { return None; }
      var seed := new FoldAccumulator();
      for i := 0 to |session.events|
        invariant !loaded && Valid() && session.events == old(session.events)
        invariant Fold(session.events[..i]) == Ok(seed.View()) && fresh(seed)
      {
        FoldStep(session.events, i);
        error := seed.ApplyEvent(session.events[i]);
        if error.Some? {
          ErrorSticks(session.events, i + 1);
          return;
        }
      }
      assert session.events[..|session.events|] == session.events;
      cache.state.Adopt(seed);
      cache.activation := false;
      cache.observedSeq := |session.events|;
      loaded := true;
      error := None;
    }

    /** Observe one event: the fold takes it or nothing moves. */
    method ObserveNext() returns (error: Option<FoldError>)
      requires Synced() && loaded && cache.observedSeq < |session.events|
      modifies cache, cache.state
      ensures Synced() && cache.pendingActivation == old(cache.pendingActivation)
      ensures error.None? ==>
                && cache.observedSeq == old(cache.observedSeq) + 1
                && cache.activation == Settle(old(cache.activation), session.events, old(cache.observedSeq),
                                              cache.observedSeq, cache.pendingActivation)
      ensures error.Some? ==>
                && cache.observedSeq == old(cache.observedSeq) && cache.activation == old(cache.activation)
                && Fold(session.events) == Err(error.value)
    {
      hide Fold, ApplyEvent;
      var i := cache.observedSeq;
      FoldStep(session.events, i);
      error := cache.state.ApplyEvent(session.events[i]);
      if error.Some? {
        ErrorSticks(session.events, i + 1);
        return;
      }
      if session.events[i].ChangeEvent? {
        var pending := cache.pendingActivation;
        cache.activation := pending.Some? && pending.value.0 == i && pending.value.1;
      }
      cache.observedSeq := i + 1;
    }

    /** Observe the events appended since the last call; a rejected event stops the walk before it. */
    method Sync() returns (error: Option<FoldError>)
      requires Synced() && loaded
      modifies cache, cache.state
      ensures Synced() && cache.pendingActivation == old(cache.pendingActivation)
      ensures old(cache.observedSeq) <= cache.observedSeq <= |session.events|
      ensures cache.activation ==
              Settle(old(cache.activation), session.events, old(cache.observedSeq), cache.observedSeq, cache.pendingActivation)
      ensures error.None? ==> UpToDate()
      ensures error.Some? ==> Fold(session.events) == Err(error.value)
    {
      var from := cache.observedSeq;
      while cache.observedSeq < |session.events|
        invariant Synced() && cache.pendingActivation == old(cache.pendingActivation)
        invariant from <= cache.observedSeq <= |session.events|
        invariant cache.activation ==
                  Settle(old(cache.activation), session.events, from, cache.observedSeq, cache.pendingActivation)
        decreases |session.events| - cache.observedSeq
      {
        error := ObserveNext();
        if error.Some? { return; }
      }
      assert session.events[..cache.observedSeq] == session.events;
      error := None;
    }

    /** `prepareMutation` and the read prologue: live check, seed, synchronize. */
    method Prepare(live: bool) returns (error: Option<ServiceError>)
      requires Valid()
      modifies Repr()
      ensures Valid() && View() == old(View())
      ensures session.events == old(session.events)
      ensures !live ==> error == Some(AgentNotLive)
      ensures live && !Accepted(session.events) ==> error == Some(Replay(Fold(session.events).error))
      ensures live && Accepted(session.events) ==>
                && error.None? && UpToDate() && WellFormed(cache.state.View())
                && cache.activation == old(View()).armed
    {
      if !live { return Some(AgentNotLive); }
      var failure := Load();
      if failure.Some? { return Some(Replay(failure.value)); }
      assert View() == old(View());
      ghost var activation, from := cache.activation, cache.observedSeq;
      failure := Sync();
      SettleQuiet(activation, session.events, from, cache.observedSeq);
      if failure.Some? { return Some(Replay(failure.value)); }
      FoldWellFormed(session.events);
      error := None;
    }

    /** Append one planned change and observe it with the announced activation. */
    method Commit(change: Change, armed: bool) returns (error: Option<FoldError>)
      requires Valid() && UpToDate()
      modifies Repr()
      ensures Valid() && loaded
      ensures View() == Model.CommitChange(old(View()), change, armed)
      ensures error == if Accepted(session.events) then None else Some(Fold(session.events).error)
      ensures error.None? ==> UpToDate() && WellFormed(cache.state.View())
    {
      var at := |session.events|;
      cache.pendingActivation := Some((at, armed));
      assert (session.events + [ChangeEvent(change)])[..at] == session.events[..at];
      session.Append(ChangeEvent(change));
      error := Sync();
      cache.pendingActivation := None;
      if error.None? {
        FoldWellFormed(session.events);
      }
    }

    /** Detached view of the synchronized cache. */
    method CurrentView() returns (view: Option<Model.TaskView>)
      requires Valid() && UpToDate() && WellFormed(cache.state.View())
      ensures view == Model.ViewOf(cache.state.View(), cache.activation)
    {
      var state := cache.state;
      view := if state.task.None? then None
              else Some(Model.TaskView(state.task.value, state.roundsStarted, state.createdAt.value,
                                       state.updatedAt.value, cache.activation));
    }

    method Get(live: bool) returns (r: Result<Option<Model.TaskView>, ServiceError>)
      requires Valid()
      modifies Repr()
      ensures Valid() && View() == old(View())
      ensures r == Model.Get(View(), live)
    {
      var error := Prepare(live);
      if error.Some? { return Err(error.value); }
      var view := CurrentView();
      assert session.events[..|session.events|] == session.events;
      r := Ok(view);
    }

    method Disarm(live: bool) returns (r: Result<Option<Model.TaskView>, ServiceError>)
      requires Valid()
      modifies Repr()
      ensures Valid() && View() == Model.Disarm(old(View()), live)
      ensures r == Model.Get(View(), live)
    {
      var error := Prepare(live);
      if error.Some? { return Err(error.value); }
      cache.activation := false;
      var view := CurrentView();
      assert session.events[..|session.events|] == session.events;
      r := Ok(view);
    }

    /** The `agent/session-start` handler: authority does not survive a start, even over unread events. */
    method OnSessionStart()
      requires Valid()
      modifies Repr()
      ensures Valid() && View() == Model.Start(session.events)
      ensures session.events == old(session.events)
    {
      var error := Load();
      if loaded { cache.activation := false; }
    }

    /** Any other writer of the same session. */
    method AppendForeign(event: Event)
      requires Valid()
      modifies session
      ensures Valid() && View() == Model.Foreign(old(View()), event)
      ensures loaded == old(loaded)
    {
      ghost var before := session.events;
      session.Append(event);
      FoldSnoc(before, event);
      if loaded {
        assert session.events[..cache.observedSeq] == before[..cache.observedSeq];
        assert forall i :: cache.observedSeq <= i < |before| ==> session.events[i] == before[i];
      }
    }

    // -------------------------------------------------------------- mutations

    /** Guard shared by every mutation that names a ref. */
    method ExpectCurrentRef(ref: Ref) returns (r: Result<Snapshot, ServiceError>)
      ensures r == ExpectCurrent(cache.state.View(), ref)
    {
      var current := cache.state.task;
      if current.None? { return Err(NotFound); }
      if ref.id != current.value.id || ref.revision != current.value.revision { return Err(StaleRevision); }
      r := Ok(current.value);
    }

    /** `commitCurrent`: keep the counters and the creation time, clamp the clock, commit, view. */
    method CommitCurrent(operation: Operation, task: Snapshot, now: int, armed: bool)
      returns (r: Result<Model.Answer, ServiceError>)
      requires Valid() && UpToDate()
      requires WellFormed(cache.state.View()) && cache.state.task.Some?
      modifies Repr()
      ensures Valid() && loaded
      ensures View() == Model.CommitChange(old(View()), CurrentChange(old(cache.state.View()), operation, task, now), armed)
      ensures Accepted(session.events) ==>
                && UpToDate()
                && r == Ok(Model.Viewed(Model.ViewOf(Model.FoldOf(session.events), armed)))
      ensures !Accepted(session.events) ==> r == Err(Replay(Fold(session.events).error))
    {
      var state := cache.state;
      var time := if now >= state.updatedAt.value then now else state.updatedAt.value;
      var change := SnapshotChange(operation, task, state.roundsStarted, state.createdAt.value, time);
      assert change == CurrentChange(state.View(), operation, task, now);
      var error := Commit(change, armed);
      if error.Some? { return Err(Replay(error.value)); }
      assert session.events[..|session.events|] == session.events;
      assert NoChange(session.events, cache.observedSeq);
      var view := CurrentView();
      r := Ok(Model.Viewed(view));
    }

    method Create(live: bool, id: TaskId, spec: CreateRequest, now: int)
      returns (r: Result<Model.Answer, ServiceError>, announced: bool)
      requires Valid()
      modifies Repr()
      ensures Valid()
      ensures Model.Reply(View(), r, announced) ==
              Model.Submit(old(View()), live, CreateTask(id, spec), now, now, defaultMaxRounds)
    {
      announced := false;
      var resolved := ResolveCreate(spec, defaultMaxRounds);
      if resolved.Err? { return Err(resolved.error), false; }
      var failure := Prepare(live);
      if failure.Some? { return Err(failure.value), false; }
      var current := cache.state.task;
      if current.Some? && !current.value.phase.Complete? { return Err(AlreadyExists), false; }
      var d := resolved.value;
      var task := Snapshot(id, 1, d.objective, Active, None, d.core, d.checkpoints, d.openQuestions, d.next, d.maxRounds, 0);
      var error := Commit(SnapshotChange(LongTaskTypes.Create, task, 0, now, now), true);
      if error.Some? { return Err(Replay(error.value)), false; }
      assert session.events[..|session.events|] == session.events;
      assert NoChange(session.events, cache.observedSeq);
      var view := CurrentView();
      r, announced := Ok(Model.Viewed(view)), true;
    }

    method Edit(live: bool, ref: Ref, patch: EditRequest, now: int)
      returns (r: Result<Model.Answer, ServiceError>, announced: bool)
      requires Valid()
      modifies Repr()
      ensures Valid()
      ensures Model.Reply(View(), r, announced) ==
              Model.Submit(old(View()), live, EditTask(ref, patch), now, now, defaultMaxRounds)
    {
      hide Fold, ValidSnapshot, Model.ViewOf, Model.CommitChange, ResolveEdit;
      var failure := Prepare(live);
      if failure.Some? { return Err(failure.value), false; }
      var current := ExpectCurrentRef(ref);
      if current.Err? { return Err(current.error), false; }
      var resolved := ResolveEdit(patch);
      if resolved.Err? { return Err(resolved.error), false; }
      r := CommitCurrent(LongTaskTypes.Edit, Patched(Bump(current.value), resolved.value), now, cache.activation);
      announced := r.Ok?;
    }

    /** The shared phase transition behind pause and complete. */
    method Transition(live: bool, ref: Ref, operation: Operation, allowed: set<Phase>, phase: Phase, now: int)
      returns (r: Result<Model.Answer, ServiceError>, announced: bool)
      requires Valid()
      requires (operation.Pause? && allowed == {Active} && phase.Paused?)
            || (operation.Finish? && allowed == {Active, Paused, Blocked} && phase.Complete?)
      modifies Repr()
      ensures Valid()
      ensures Model.Reply(View(), r, announced) ==
              Model.Submit(old(View()), live, if operation.Pause? then PauseTask(ref) else CompleteTask(ref),
                           now, now, defaultMaxRounds)
    {
      hide Fold, ValidSnapshot, Model.ViewOf, Model.CommitChange;
      var failure := Prepare(live);
      if failure.Some? { return Err(failure.value), false; }
      var current := ExpectCurrentRef(ref);
      if current.Err? { return Err(current.error), false; }
      if current.value.phase !in allowed { return Err(InvalidTransition), false; }
      r := CommitCurrent(operation, WithPhase(current.value, phase), now, false);
      announced := r.Ok?;
    }

    method Pause(live: bool, ref: Ref, now: int) returns (r: Result<Model.Answer, ServiceError>, announced: bool)
      requires Valid()
      modifies Repr()
      ensures Valid()
      ensures Model.Reply(View(), r, announced) ==
              Model.Submit(old(View()), live, PauseTask(ref), now, now, defaultMaxRounds)
    {
      r, announced := Transition(live, ref, LongTaskTypes.Pause, {Active}, Paused, now);
    }

    method CompleteCurrent(live: bool, ref: Ref, now: int)
      returns (r: Result<Model.Answer, ServiceError>, announced: bool)
      requires Valid()
      modifies Repr()
      ensures Valid()
      ensures Model.Reply(View(), r, announced) ==
              Model.Submit(old(View()), live, CompleteTask(ref), now, now, defaultMaxRounds)
    {
      r, announced := Transition(live, ref, Finish, {Active, Paused, Blocked}, Complete, now);
    }

    method Resume(live: bool, ref: Ref, now: int) returns (r: Result<Model.Answer, ServiceError>, announced: bool)
      requires Valid()
      modifies Repr()
      ensures Valid()
      ensures Model.Reply(View(), r, announced) ==
              Model.Submit(old(View()), live, ResumeTask(ref), now, now, defaultMaxRounds)
    {
      hide Fold, ValidSnapshot, Model.ViewOf, Model.CommitChange;
      var failure := Prepare(live);
      if failure.Some? { return Err(failure.value), false; }
      var current := ExpectCurrentRef(ref);
      if current.Err? { return Err(current.error), false; }
      if current.value.phase !in {Active, Paused, Blocked} { return Err(InvalidTransition), false; }
      if current.value.phase.Active? && cache.activation { return Err(InvalidTransition), false; }
      if cache.state.roundsStarted >= current.value.maxRounds { return Err(InvalidTransition), false; }
      r := CommitCurrent(LongTaskTypes.Resume, WithPhase(current.value, Active), now, true);
      announced := r.Ok?;
    }

    method Block(live: bool, ref: Ref, reason: BlockReason, now: int)
      returns (r: Result<Model.Answer, ServiceError>, announced: bool)
      requires Valid()
      modifies Repr()
      ensures Valid()
      ensures Model.Reply(View(), r, announced) ==
              Model.Submit(old(View()), live, BlockTask(ref, reason), now, now, defaultMaxRounds)
    {
      hide Fold, ValidSnapshot, Model.ViewOf, Model.CommitChange, ResolveBlockReason;
      var failure := Prepare(live);
      if failure.Some? { return Err(failure.value), false; }
      var current := ExpectCurrentRef(ref);
      if current.Err? { return Err(current.error), false; }
      if !current.value.phase.Active? { return Err(InvalidTransition), false; }
      var resolved := ResolveBlockReason(reason);
      if resolved.Err? { return Err(resolved.error), false; }
      r := CommitCurrent(LongTaskTypes.Block, WithPhase(current.value, Blocked).(blockedReason := Some(resolved.value)), now, false);
      announced := r.Ok?;
    }

    /** Append an event that is no change, and observe it. */
    method AppendTrace(event: Event) returns (error: Option<FoldError>)
      requires Valid() && UpToDate() && !event.ChangeEvent?
      modifies Repr()
      ensures Valid() && loaded && View() == Model.Foreign(old(View()), event)
      ensures error == if Accepted(session.events) then None else Some(Fold(session.events).error)
    {
      AppendForeign(event);
      ghost var activation, from := cache.activation, cache.observedSeq;
      error := Sync();
      SettleQuiet(activation, session.events, from, cache.observedSeq);
    }

    method HandoffTo(live: bool, ref: Ref, why: HandoffReason, now: int, at: int)
      returns (r: Result<Model.Answer, ServiceError>, announced: bool)
      requires Valid()
      modifies Repr()
      ensures Valid()
      ensures Model.Reply(View(), r, announced) ==
              Model.Submit(old(View()), live, HandOff(ref, why), now, at, defaultMaxRounds)
    {
      hide Fold, ValidSnapshot, Model.ViewOf, Model.CommitChange, Model.Foreign;
      ghost var before := View();
      var failure := Prepare(live);
      if failure.Some? { return Err(failure.value), false; }
      var current := ExpectCurrentRef(ref);
      if current.Err? { return Err(current.error), false; }
      if !current.value.phase.Active? { return Err(InvalidTransition), false; }
      var next := Bump(current.value).(handoffs := current.value.handoffs + 1);
      r := CommitCurrent(Handoff, next, now, cache.activation);
      announced := r.Ok?;
      if !announced { return; }
      var error := AppendTrace(Model.HandoffTrace(next, why, at));
      if error.Some? { r := Err(Replay(error.value)); }
    }

    method Clear(live: bool, ref: Ref, now: int) returns (r: Result<Model.Answer, ServiceError>, announced: bool)
      requires Valid()
      modifies Repr()
      ensures Valid()
      ensures Model.Reply(View(), r, announced) ==
              Model.Submit(old(View()), live, ClearTask(ref), now, now, defaultMaxRounds)
    {
      hide Fold, ValidSnapshot, Model.ViewOf, Model.CommitChange;
      ghost var before := View();
      var failure := Prepare(live);
      if failure.Some? { return Err(failure.value), false; }
      var current := ExpectCurrentRef(ref);
      if current.Err? { return Err(current.error), false; }
      var tombstone := Ref(current.value.id, current.value.revision + 1);
      var change := ClearChange(tombstone, NextMutationTime(cache.state.View(), now));
      var error := Commit(change, false);
      if error.Some? { return Err(Replay(error.value)), false; }
      r, announced := Ok(Model.Cleared(tombstone)), true;
    }
  }
}
