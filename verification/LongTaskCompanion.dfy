/**
 * The stream-invariant companion: an independent fold that validates every candidate event on a copy
 * before publication, and adopts that copy when the very event is published.
 */
module LongTaskCompanion {
  import opened Wrappers
  import opened LongTaskTypes
  import opened LongTaskFold
  import opened LongTaskReplay

  /** A validated event and the copy it was applied to. */
  datatype Candidate = Candidate(event: Event, state: FoldAccumulator)

  class StreamCompanion {
    var published: FoldAccumulator
    /** Candidates by the identity of the event that is being dispatched. */
    var staged: map<nat, Candidate>
    /** The events published so far. */
    ghost var log: seq<Event>
    /** The events the published fold is the replay of. */
    ghost var replayed: seq<Event>
    /** What each candidate was staged upon. */
    ghost var bases: map<nat, seq<Event>>

    ghost function States(): set<object>
      reads this
    {
      set id | id in staged :: staged[id].state
    }

    ghost predicate Valid()
      reads this, published, States()
    {
      && Fold(replayed) == Ok(published.View())
      && bases.Keys == staged.Keys
      && forall id :: id in staged ==> Fold(bases[id] + [staged[id].event]) == Ok(staged[id].state.View())
    }

    /** The published fold is the replay of the published events. */
    ghost predicate InStep()
      reads this
    {
      replayed == log
    }

    constructor ()
      ensures Valid() && InStep() && log == [] && staged == map[]
    {
      published := new FoldAccumulator();
      staged, bases := map[], map[];
      log, replayed := [], [];
    }

    /** Adopt an existing session; a seed that violates the stream is reported and not adopted. */
    method Seed(events: seq<Event>) returns (ok: bool)
      requires Valid()
      modifies this
      ensures Valid()
      ensures ok <==> Accepted(events)
      ensures if ok then InStep() && log == events else log == old(log) && replayed == old(replayed)
      ensures staged == old(staged) && bases == old(bases)
    {
      var state := new FoldAccumulator();
      assert Fold(events[..0]) == Ok(EMPTY_FOLD);
      hide Fold, ApplyEvent;
      for i := 0 to |events|
        invariant Fold(events[..i]) == Ok(state.View()) && fresh(state)
        invariant Valid() && log == old(log) && replayed == old(replayed)
        invariant staged == old(staged) && bases == old(bases) && published == old(published)
      {
        FoldStep(events, i);
        var error := state.ApplyEvent(events[i]);
        if error.Some? {
          ErrorSticks(events, i + 1);
          return false;
        }
      }
      assert events[..|events|] == events;
      published, log, replayed := state, events, events;
      ok := true;
    }

    /** Validate a candidate on a copy. The published fold does not move, accepted or not. */
    method Stage(id: nat, event: Event) returns (ok: bool)
      requires Valid()
      modifies `staged, `bases
      ensures Valid()
      ensures ok <==> Accepted(replayed + [event])
      ensures !ok ==> staged == old(staged) && bases == old(bases)
      ensures ok ==> id in staged && staged[id].event == event && bases == old(bases)[id := replayed]
      ensures ok ==> staged == old(staged)[id := staged[id]]
    {
      hide Fold, ApplyEvent;
      FoldSnoc(replayed, event);
      var candidate := new FoldAccumulator.Clone(published);
      var error := candidate.ApplyEvent(event);
      if error.Some? { return false; }
      staged := staged[id := Candidate(event, candidate)];
      bases := bases[id := replayed];
      ok := true;
    }

    /**
     * Publication adopts the staged copy; an event that was not staged is reported and changes nothing. The
     * published fold is then the replay of the published events exactly if nothing else was published since
     * the event was staged.
     */
    method Publish(id: nat) returns (ok: bool)
      requires Valid()
      modifies this
      ensures Valid()
      ensures ok <==> id in old(staged)
      ensures !ok ==> staged == old(staged) && bases == old(bases) && log == old(log) && replayed == old(replayed)
      ensures ok ==>
                && log == old(log) + [old(staged)[id].event]
                && replayed == old(bases)[id] + [old(staged)[id].event]
                && staged == old(staged) - {id} && bases == old(bases) - {id}
                && (InStep() <==> old(bases)[id] == old(log))
    {
      hide Fold, ApplyEvent;
      if id !in staged { return false; }
      var candidate := staged[id];
      published := candidate.state;
      log, replayed := log + [candidate.event], bases[id] + [candidate.event];
      staged, bases := staged - {id}, bases - {id};
      assert log[..|log| - 1] == old(log) && replayed[..|replayed| - 1] == old(bases)[id];
      ok := true;
    }
  }

  /** Two events staged before either is published: the fold forgets the one published first. */
  method OverlappingPublications() returns (companion: StreamCompanion)
    ensures companion.Valid() && !companion.InStep()
    ensures |companion.log| == 2 && |companion.replayed| == 1
  {
    hide Fold, ApplyEvent, StreamCompanion.Valid;
    companion := new StreamCompanion();
    OtherAccepted();
    var first := companion.Stage(1, OtherEvent);
    var second := companion.Stage(2, OtherEvent);
    first := companion.Publish(1);
    second := companion.Publish(2);
  }

  lemma OtherAccepted()
    ensures Accepted([] + [OtherEvent])
  {
    FoldSnoc([], OtherEvent);
  }
}
