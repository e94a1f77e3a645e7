/**
 * One consumer's loop over the shared inbox: offers, duplicates, refusals and the cursor, as functions
 * and as the object that runs it; and what a whole fleet of such loops does with a line.
 */
module PumpLoopModel {
  import opened Wrappers
  import opened DedupWindow
  import opened DedupKeys
  import opened PumpRouting

  type Marks = map<string, Entry<Option<string>>>

  /** `failing` is the digest whose wake-ups failed last, `count` how often in a row. */
  datatype Pump = Pump(cursor: nat, failing: Option<string>, count: nat, marks: Marks)

  /** What the outside answers about a line: whether the wake-up throws, and the clock. */
  datatype Answer = Answer(refused: bool, now: int, at: int, sweep: int)

  datatype Note =
    | Did(index: nat, call: Call)
    | Repeated(index: nat)
    | Woken(index: nat)
    | Refused(index: nat)
    | GaveUp(index: nat)

  /** Where the loop stands after a line: `halted` when it left the line for a later retry. */
  datatype Turn = Turn(pump: Pump, notes: seq<Note>, halted: bool)

  function Digest(c: Config, line: string): string {
    DigestOf(line, c.parse(line).GetOr(Message(None, "", None, None)))
  }

  /** A refused wake-up: counted on its digest, and the last of too many in a row gives the line up. */
  function RefusalTurn(c: Config, p: Pump, digest: string): Turn {
    var count := if p.failing == Some(digest) then p.count + 1 else 1;
    if count >= c.maxWakeFailures
    then Turn(p.(cursor := p.cursor + 1, failing := None, count := 0), [Refused(p.cursor), GaveUp(p.cursor)], false)
    else Turn(p.(failing := Some(digest), count := count), [Refused(p.cursor)], true)
  }

  function OfferTurn(c: Config, p: Pump, line: string, answer: Answer): Turn {
    var digest := Digest(c, line);
    if Hit(Lookup(p.marks, digest), c.windowMs, answer.now).Some? then Turn(p.(cursor := p.cursor + 1), [Repeated(p.cursor)], false)
    else if answer.refused then RefusalTurn(c, p, digest)
    else
      Turn(Pump(p.cursor + 1, None, 0, Apply(p.marks, c.windowMs, Mark(digest, None, answer.at, answer.sweep))), [Woken(p.cursor)], false)
  }

  function Step(c: Config, self: Sid, reg: Consumers, p: Pump, line: string, answer: Answer): Turn {
    var call := CallOn(c, self, reg, line);
    if call.Offer? then OfferTurn(c, p, line, answer)
    else Turn(p.(cursor := p.cursor + 1), [Did(p.cursor, call)], false)
  }

  function Run(c: Config, self: Sid, reg: Consumers, p: Pump, lines: seq<string>, answers: nat -> Answer): Turn
    decreases |lines| - p.cursor
  {
    if p.cursor >= |lines| then Turn(p, [], false)
    else
      var turn := Step(c, self, reg, p, lines[p.cursor], answers(p.cursor));
      if turn.halted then turn
      else
        var rest := Run(c, self, reg, turn.pump, lines, answers);
        rest.(notes := turn.notes + rest.notes)
  }

  lemma RunUnfolds(c: Config, self: Sid, reg: Consumers, p: Pump, lines: seq<string>, answers: nat -> Answer)
    ensures Run(c, self, reg, p, lines, answers) ==
            if p.cursor >= |lines| then Turn(p, [], false)
            else
              var turn := Step(c, self, reg, p, lines[p.cursor], answers(p.cursor));
              if turn.halted then turn
              else
                var rest := Run(c, self, reg, turn.pump, lines, answers);
                rest.(notes := turn.notes + rest.notes)
  {
  }

  /** A run that told `told` before reaching `p`, taken one line further. */
  lemma RunContinues(c: Config, self: Sid, reg: Consumers, whole: Turn, p: Pump, lines: seq<string>,
                     answers: nat -> Answer, told: seq<Note>)
    requires p.cursor < |lines|
    requires var rest := Run(c, self, reg, p, lines, answers);
             whole == rest.(notes := told + rest.notes)
    ensures var turn := Step(c, self, reg, p, lines[p.cursor], answers(p.cursor));
            if turn.halted then whole == turn.(notes := told + turn.notes)
            else
              var rest := Run(c, self, reg, turn.pump, lines, answers);
              whole == rest.(notes := (told + turn.notes) + rest.notes)
  {
    hide Step;
    RunUnfolds(c, self, reg, p, lines, answers);
    var turn := Step(c, self, reg, p, lines[p.cursor], answers(p.cursor));
    var rest := Run(c, self, reg, turn.pump, lines, answers);
    assert told + (turn.notes + rest.notes) == (told + turn.notes) + rest.notes;
  }

  // ------------------------------------------------------------ what a run notes

  function NotesOn(notes: seq<Note>, index: nat): seq<Note> {
    if notes == [] then []
    else
      var last := notes[|notes| - 1];
      NotesOn(notes[..|notes| - 1], index) + if last.index == index then [last] else []
  }

  lemma {:induction false} NotesOnConcat(a: seq<Note>, b: seq<Note>, index: nat)
    ensures NotesOn(a + b, index) == NotesOn(a, index) + NotesOn(b, index)
  {
    if b == [] {
      assert a + b == a;
    } else {
      NotesOnConcat(a, b[..|b| - 1], index);
      assert (a + b)[..|a + b| - 1] == a + b[..|b| - 1];
    }
  }

  /** The ways an offered line leaves the loop. */
  predicate OfferEnds(notes: seq<Note>, index: nat) {
    notes in [[Repeated(index)], [Woken(index)], [Refused(index), GaveUp(index)]]
  }

  /**
   * A flush notes each line it passes exactly once: what it decided, or how the offer ended; of the line it
   * stopped at only the refusal, and of no other line anything.
   */
  lemma {:induction false} FlushNotes(c: Config, self: Sid, reg: Consumers, p: Pump, lines: seq<string>, answers: nat -> Answer, index: nat)
    ensures var turn := Run(c, self, reg, p, lines, answers);
            var notes := NotesOn(turn.notes, index);
            && p.cursor <= turn.pump.cursor
            && (p.cursor <= |lines| ==> turn.pump.cursor <= |lines|)
            && (index < p.cursor || index > turn.pump.cursor || index >= |lines| ==> notes == [])
            && (p.cursor <= index < turn.pump.cursor && index < |lines| ==>
                  var call := CallOn(c, self, reg, lines[index]);
                  if call.Offer? then OfferEnds(notes, index) else notes == [Did(index, call)])
            && (index == turn.pump.cursor < |lines| ==>
                  turn.halted && notes == [Refused(index)] && CallOn(c, self, reg, lines[index]).Offer?)
    decreases |lines| - p.cursor
  {
    assert NotesOn([], index) == [];
    hide CallOn, Step, NotesOn, OfferEnds;
    if p.cursor < |lines| {
      var turn := Step(c, self, reg, p, lines[p.cursor], answers(p.cursor));
      StepNotes(c, self, reg, p, lines[p.cursor], answers(p.cursor), index);
      if !turn.halted {
        var rest := Run(c, self, reg, turn.pump, lines, answers);
        FlushNotes(c, self, reg, turn.pump, lines, answers, index);
        NotesOnConcat(turn.notes, rest.notes, index);
        assert [] + NotesOn(rest.notes, index) == NotesOn(rest.notes, index);
        assert NotesOn(turn.notes, index) + [] == NotesOn(turn.notes, index);
      }
    }
  }

  lemma StepNotes(c: Config, self: Sid, reg: Consumers, p: Pump, line: string, answer: Answer, index: nat)
    ensures var turn := Step(c, self, reg, p, line, answer);
            && NotesOn(turn.notes, index) == (if index == p.cursor then turn.notes else [])
            && turn.pump.cursor == (if turn.halted then p.cursor else p.cursor + 1)
            && (turn.halted ==> turn.notes == [Refused(p.cursor)] && CallOn(c, self, reg, line).Offer?)
            && (!turn.halted ==>
                  if CallOn(c, self, reg, line).Offer? then OfferEnds(turn.notes, p.cursor)
                  else turn.notes == [Did(p.cursor, CallOn(c, self, reg, line))])
  {
    hide CallOn, Apply, Hit, Digest;
    var turn := Step(c, self, reg, p, line, answer);
    if |turn.notes| == 2 {
      assert turn.notes[..1] == [turn.notes[0]];
      assert NotesOn(turn.notes[..1], index) == if index == p.cursor then [turn.notes[0]] else [];
    }
  }

  /** A woken line is marked: another offer of the same content within the window is taken for a repeat. */
  lemma WokenThenRepeated(c: Config, self: Sid, reg: Consumers, reg': Consumers, p: Pump, line: string, answer: Answer,
                          p': Pump, again: string, answer': Answer)
    requires Step(c, self, reg, p, line, answer).notes == [Woken(p.cursor)]
    requires p'.marks == Step(c, self, reg, p, line, answer).pump.marks && Digest(c, again) == Digest(c, line)
    requires CallOn(c, self, reg', again).Offer?
    requires answer.at <= answer.sweep <= answer'.now && answer'.now - answer.at < c.windowMs
    ensures Step(c, self, reg', p', again, answer').notes == [Repeated(p'.cursor)]
  {
    hide CallOn, Digest;
  }

  // ------------------------------------------------------------- bounded retries

  /** The same line tried again and again, by flushes that each stop at it. */
  predicate StopsEachTime(c: Config, self: Sid, reg: Consumers, p: Pump, line: string, answers: seq<Answer>)
    decreases |answers|
  {
    answers == []
    || (Step(c, self, reg, p, line, answers[0]).halted
        && StopsEachTime(c, self, reg, Step(c, self, reg, p, line, answers[0]).pump, line, answers[1..]))
  }

  lemma {:induction false} StopsAreCounted(c: Config, self: Sid, reg: Consumers, p: Pump, line: string, answers: seq<Answer>)
    requires StopsEachTime(c, self, reg, p, line, answers)
    ensures var before := if p.failing == Some(Digest(c, line)) then p.count else 0;
            answers != [] ==> before + |answers| < c.maxWakeFailures
    decreases |answers|
  {
    hide CallOn, Apply, Hit, Digest;
    if answers != [] {
      StopsAreCounted(c, self, reg, Step(c, self, reg, p, line, answers[0]).pump, line, answers[1..]);
    }
  }

  /** A line holds a consumer up for fewer than `maxWakeFailures` flushes. */
  lemma HoldsUpBriefly(c: Config, self: Sid, reg: Consumers, p: Pump, line: string, answers: seq<Answer>)
    requires StopsEachTime(c, self, reg, p, line, answers) && answers != []
    ensures |answers| < c.maxWakeFailures
  {
    StopsAreCounted(c, self, reg, p, line, answers);
  }

  // ------------------------------------------------------------------- the fleet

  /** A flush of every registered consumer over the same lines, each from its own state. */
  datatype Fleet = Fleet(pumps: map<Sid, Pump>, answers: Sid -> nat -> Answer)

  function TurnOf(c: Config, reg: Consumers, fleet: Fleet, lines: seq<string>, self: Sid): Turn
    requires self in fleet.pumps
  {
    Run(c, self, reg, fleet.pumps[self], lines, fleet.answers(self))
  }

  /** Every registered consumer's flush passes the line. */
  predicate AllPass(c: Config, reg: Consumers, fleet: Fleet, lines: seq<string>, index: nat) {
    && reg.Keys <= fleet.pumps.Keys && index < |lines|
    && forall self :: self in reg ==> fleet.pumps[self].cursor <= index < TurnOf(c, reg, fleet, lines, self).pump.cursor
  }

  function Buried(c: Config, reg: Consumers, fleet: Fleet, lines: seq<string>, index: nat): set<Sid>
    requires reg.Keys <= fleet.pumps.Keys
  {
    set self | self in reg
      && exists note :: note in NotesOn(TurnOf(c, reg, fleet, lines, self).notes, index) && note.Did? && note.call.Bury?
  }

  function Handled(c: Config, reg: Consumers, fleet: Fleet, lines: seq<string>, index: nat): set<Sid>
    requires reg.Keys <= fleet.pumps.Keys
  {
    set self | self in reg && OfferEnds(NotesOn(TurnOf(c, reg, fleet, lines, self).notes, index), index)
  }

  /**
   * Over whole flushes: a line every consumer has passed was offered by exactly the registered sessions the
   * central view wakes, which are all of them unless the line strays, each once; and it was buried exactly
   * once if nobody can be woken for it, and never otherwise.
   */
  lemma FleetFlush(c: Config, reg: Consumers, fleet: Fleet, lines: seq<string>, index: nat)
    requires reg != map[] && AllPass(c, reg, fleet, lines, index)
    ensures var central := CentralOn(c, reg, lines[index]);
            && Handled(c, reg, fleet, lines, index) ==
               (if central.Routed? && central.routing.Wake? then central.routing.sids * reg.Keys else {})
            && (central.Routed? && central.routing.Wake? ==>
                  (Handled(c, reg, fleet, lines, index) == central.routing.sids <==> !LineStrays(c, reg, lines[index])))
            && |Buried(c, reg, fleet, lines, index)| == (if Unaddressable(central) then 1 else 0)
  {
    hide CallOn, CentralOn, Run;
    forall self | self in reg
      ensures self in Handled(c, reg, fleet, lines, index) <==> CallOn(c, self, reg, lines[index]).Offer?
      ensures self in Buried(c, reg, fleet, lines, index) <==> CallOn(c, self, reg, lines[index]).Bury?
    {
      FlushNotes(c, self, reg, fleet.pumps[self], lines, fleet.answers(self), index);
      var notes := NotesOn(TurnOf(c, reg, fleet, lines, self).notes, index);
      var call := CallOn(c, self, reg, lines[index]);
      if !call.Offer? { assert notes[0] == Did(index, call); }
    }
    FleetIsCentral(c, reg, lines[index]);
    assert Handled(c, reg, fleet, lines, index) == Offered(c, reg, lines[index]);
    assert Buried(c, reg, fleet, lines, index) == Buriers(c, reg, lines[index]);
  }
}

/** The loop as an object. */
module PumpLoop {
  import opened Wrappers
  import opened DedupWindow
  import opened DedupKeys
  import opened PumpRouting
  import opened PumpLoopModel
  import HostAddressing
  import Model = PumpLoopModel
  import Text

  class FileInbox {
    const config: Config
    const self: Sid
    const dedup: Window<string, Option<string>>
    var cursor: nat
    var failing: Option<string>
    var count: nat
    var echoCount: nat
    var blankCount: nat
    var skippedCount: nat
    var dedupCount: nat
    var deliveredCount: nat
    var deadCount: nat
    ghost var notes: seq<Note>

    ghost predicate Valid()
      reads this, dedup
    {
      dedup.Valid() && dedup.windowMs == config.windowMs
    }

    ghost function View(): Pump
      reads this, dedup
    {
      Pump(cursor, failing, count, dedup.entries)
    }

    constructor (config: Config, self: Sid, cursor: nat)
      ensures Valid() && fresh(dedup) && this.config == config && this.self == self
      ensures View() == Pump(cursor, None, 0, map[]) && notes == []
    {
      this.config, this.self, this.cursor := config, self, cursor;
      var window := new Window<string, Option<string>>(config.windowMs);
      dedup := window;
      failing, count := None, 0;
      echoCount, blankCount, skippedCount, dedupCount, deliveredCount, deadCount := 0, 0, 0, 0, 0, 0;
      notes := [];
    }

    /** The routing part of the loop body; the undertaker is found by the scan over `keys`. */
    method Decide(reg: Consumers, keys: seq<Sid>, line: string) returns (call: Call)
      requires (set sid | sid in keys) == reg.Keys
      ensures call == CallOn(config, self, reg, line)
    {
      hide ResolveFor, Text.Trim;
      if config.echoPrefix <= line { return Echo; }
      if |Text.Trim(line)| == 0 { return Blank; }
      var parsed := config.parse(line);
      var reason := None;
      if parsed.Some? {
        var routing := ResolveFor(HostAddressing.ParseAddress(parsed.value.to), self, reg);
        if routing.Wake? { return Offer(routing.broadcast); }
        if routing.Skip? { return PassOver; }
        reason := Some(routing.reason);
      }
      var chief := Undertaker(reg, keys);
      call := if chief == Some(self) then Bury(reason) else LeaveToUndertaker;
      if IsUndertaker(reg, self) { OneUndertaker(reg, self, chief.value); }
    }

    /** One line of the loop; true when it is left for a later retry. */
    method Handle(reg: Consumers, keys: seq<Sid>, line: string, answer: Answer) returns (halted: bool)
      requires Valid() && (set sid | sid in keys) == reg.Keys
      modifies this, dedup
      ensures Valid()
      ensures Turn(View(), notes, halted) ==
              var turn := Model.Step(config, self, reg, old(View()), line, answer);
              turn.(notes := old(notes) + turn.notes)
    {
      hide CallOn, DigestOf, Apply, DedupWindow.Run, Monotone, Newest, Model.OfferTurn;
      var call := Decide(reg, keys, line);
      if call.Offer? {
        halted := Tender(line, answer);
      } else {
        halted := false;
        match call {
          case Echo => echoCount := echoCount + 1;
          case Blank => blankCount := blankCount + 1;
          case Bury(_) => deadCount := deadCount + 1;
          case PassOver => skippedCount := skippedCount + 1;
          case LeaveToUndertaker =>
        }
        notes := notes + [Did(cursor, call)];
        cursor := cursor + 1;
      }
    }

    /** An offered line: dropped as a repeat, or woken, or refused and retried until it is given up. */
    method Tender(line: string, answer: Answer) returns (halted: bool)
      requires Valid()
      modifies this, dedup
      ensures Valid()
      ensures Turn(View(), notes, halted) ==
              var turn := Model.OfferTurn(config, old(View()), line, answer);
              turn.(notes := old(notes) + turn.notes)
    {
      hide DigestOf, Apply, DedupWindow.Run, Monotone, Newest;
      halted := false;
      var digest := DigestOf(line, config.parse(line).GetOr(Message(None, "", None, None)));
      var hit := dedup.Seen(digest, answer.now);
      if hit.Some? {
        dedupCount := dedupCount + 1;
        notes := notes + [Repeated(cursor)];
        cursor := cursor + 1;
      } else if answer.refused {
        halted := CountRefusal(digest);
      } else {
        failing, count := None, 0;
        dedup.MarkKey(digest, None, answer.at, answer.sweep);
        deliveredCount := deliveredCount + 1;
        notes := notes + [Woken(cursor)];
        cursor := cursor + 1;
      }
    }

    method CountRefusal(digest: string) returns (halted: bool)
      modifies this`failing, this`count, this`deadCount, this`cursor, this`notes
      ensures var turn := Model.RefusalTurn(config, old(View()), digest);
              && halted == turn.halted && notes == old(notes) + turn.notes
              && cursor == turn.pump.cursor && failing == turn.pump.failing && count == turn.pump.count
    {
      halted := false;
      var failures := if failing == Some(digest) then count + 1 else 1;
      failing, count := Some(digest), failures;
      if failures >= config.maxWakeFailures {
        deadCount := deadCount + 1;
        failing, count := None, 0;
        notes := notes + [Refused(cursor), GaveUp(cursor)];
        cursor := cursor + 1;
      } else {
        notes := notes + [Refused(cursor)];
        halted := true;
      }
    }

    /** A flush over the complete lines, with the registry just written. */
    method Flush(reg: Consumers, keys: seq<Sid>, lines: seq<string>, answers: nat -> Answer) returns (halted: bool)
      requires Valid() && (set sid | sid in keys) == reg.Keys
      modifies this, dedup
      ensures Valid()
      ensures Turn(View(), notes, halted) ==
              var start := old(View()).(cursor := if old(cursor) > |lines| then |lines| else old(cursor));
              var turn := Model.Run(config, self, reg, start, lines, answers);
              turn.(notes := old(notes) + turn.notes)
    {
      hide Model.Step, Model.Run, DedupWindow.Run, NotesOn, OfferEnds, CallOn;
      if cursor > |lines| { cursor := |lines|; }
      ghost var noted := notes;
      ghost var whole := Model.Run(config, self, reg, View(), lines, answers);
      ghost var told: seq<Note> := [];
      halted := false;
      while cursor < |lines|
        invariant Valid() && cursor <= |lines| && notes == noted + told
        invariant var rest := Model.Run(config, self, reg, View(), lines, answers);
                  whole == rest.(notes := told + rest.notes)
      {
        ghost var before := View();
        ghost var turn := Model.Step(config, self, reg, before, lines[cursor], answers(cursor));
        StepNotes(config, self, reg, before, lines[cursor], answers(cursor), 0);
        RunContinues(config, self, reg, whole, before, lines, answers, told);
        halted := Handle(reg, keys, lines[cursor], answers(cursor));
        told := told + turn.notes;
        if halted { return; }
      }
      RunUnfolds(config, self, reg, View(), lines, answers);
    }
  }
}
