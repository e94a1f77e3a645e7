/**
 * Laws over every run of register, unregister and prune: generations never repeat, a live slot with
 * an alias is that alias's holder, and a superseded session stays out until it registers again. Each says
 * exactly for which names it holds; the last section shows what happens under the others.
 */
module HostRegistryLaws {
  import opened Wrappers
  import opened HostRegistry
  import opened ObjectNames

  /** The ledger names every live slot that carries an alias of its own name, and agrees on its generation. */
  ghost predicate LedgerNamesLive(reg: Registry) {
    forall sid, alias :: Carries(reg, sid, alias) && !Inherited(alias) ==>
      && alias in reg.aliases && reg.aliases[alias].holder == Some(sid)
      && reg.aliases[alias].epoch == reg.consumers[sid].epoch
  }

  /** No two live slots carry one alias. */
  ghost predicate Unambiguous(reg: Registry) {
    forall a, b, alias :: Carries(reg, a, alias) && Carries(reg, b, alias) && !Inherited(alias) ==> a == b
  }

  /**
   * A session of an inherited name without a slot registers under the very alias that the member found in its
   * place seems to carry: the holding it takes is let go of at once.
   */
  predicate LosesAlias(reg: Registry, step: Step) {
    step.Arm? && Inherited(step.sid) && step.sid !in reg.consumers && GivenAlias(step.alias) == Some("undefined")
  }

  /** No step of the run is such a registration at its moment. */
  ghost predicate NoneLost(reg: Registry, steps: seq<Step>) {
    forall i :: 0 <= i < |steps| ==> !LosesAlias(Run(reg, steps[..i]), steps[i])
  }

  /** Of the aliases that others hold, a registration books only the one it is under. */
  lemma BookedElsewhere(reg: Registry, sid: Sid, alias: Alias, other: Alias)
    requires other in reg.aliases && other != alias && reg.aliases[other].holder != Some(sid)
    ensures other in Booked(reg, sid, alias) && Booked(reg, sid, alias)[other] == reg.aliases[other]
  {
    hide Inherited;
  }

  lemma BookedHere(reg: Registry, sid: Sid, alias: Alias)
    requires !Foreign(reg, alias)
    ensures alias in Booked(reg, sid, alias) && Booked(reg, sid, alias)[alias].epoch == NextEpoch(reg, sid, alias)
    ensures Booked(reg, sid, alias)[alias].holder ==
            if Inherited(sid) && sid !in reg.consumers && alias == "undefined" then None else Some(sid)
  {
    assert !Inherited("undefined");
    hide Inherited;
  }

  lemma RegisterKeepsLedger(reg: Registry, sid: Sid, requested: Option<string>, pid: int, armedAt: int, now: int)
    requires LedgerNamesLive(reg)
    ensures var step := Arm(sid, requested, pid, armedAt, now);
            LedgerNamesLive(Next(reg, step)) <==> !LosesAlias(reg, step)
  {
    assert !Inherited("undefined");
    hide Inherited, KeptEpoch, EpochOf, ForeignHolder, Booked;
    var step := Arm(sid, requested, pid, armedAt, now);
    var reg' := Next(reg, step);
    var alias := GivenAlias(requested).GetOr("");
    if GivenAlias(requested).Some? && !Foreign(reg, alias) { BookedHere(reg, sid, alias); }
    if LosesAlias(reg, step) {
      assert Carries(reg', sid, "undefined");
    } else {
      forall s, a | Carries(reg', s, a) && !Inherited(a)
        ensures a in reg'.aliases && reg'.aliases[a].holder == Some(s) && reg'.aliases[a].epoch == reg'.consumers[s].epoch
      {
        if s != sid {
          assert Carries(reg, s, a);
          if GivenAlias(requested).Some? && a != alias { BookedElsewhere(reg, sid, alias, a); }
        }
      }
    }
  }

  lemma UnregisterKeepsLedger(reg: Registry, sid: Sid)
    requires LedgerNamesLive(reg)
    ensures LedgerNamesLive(Unregister(reg, sid))
  {
    hide Inherited;
    var reg' := Unregister(reg, sid);
    forall s, a | Carries(reg', s, a) && !Inherited(a)
      ensures a in reg'.aliases && reg'.aliases[a].holder == Some(s) && reg'.aliases[a].epoch == reg'.consumers[s].epoch
    {
      assert Carries(reg, s, a);
    }
  }

  lemma PruneKeepsLedger(reg: Registry, retention: int, now: int)
    requires LedgerNamesLive(reg)
    ensures LedgerNamesLive(Prune(reg, retention, now))
  {
    hide Inherited;
    var reg' := Prune(reg, retention, now);
    forall s, a | Carries(reg', s, a) && !Inherited(a)
      ensures a in reg'.aliases && reg'.aliases[a].holder == Some(s) && reg'.aliases[a].epoch == reg'.consumers[s].epoch
    {
      assert Carries(reg, s, a);
    }
  }

  lemma StepKeepsLedgerExactly(reg: Registry, step: Step)
    requires LedgerNamesLive(reg)
    ensures LedgerNamesLive(Next(reg, step)) <==> !LosesAlias(reg, step)
  {
    hide LedgerNamesLive;
    match step
    case Arm(sid, alias, pid, armedAt, now) => RegisterKeepsLedger(reg, sid, alias, pid, armedAt, now);
    case Retire(sid) => UnregisterKeepsLedger(reg, sid);
    case Sweep(retention, now) => PruneKeepsLedger(reg, retention, now);
  }

  lemma NoneLostStep(reg: Registry, steps: seq<Step>)
    requires steps != []
    ensures NoneLost(reg, steps) <==>
            NoneLost(reg, steps[..|steps| - 1]) && !LosesAlias(Run(reg, steps[..|steps| - 1]), steps[|steps| - 1])
  {
    hide LosesAlias, Run;
    var before := steps[..|steps| - 1];
    assert forall i :: 0 <= i <= |before| ==> before[..i] == steps[..i];
    assert forall i :: 0 <= i < |before| ==> before[i] == steps[i];
  }

  /** The ledger names the live slots at every moment of a run. */
  ghost predicate NamesLiveThroughout(reg: Registry, steps: seq<Step>) {
    forall n :: 0 <= n <= |steps| ==> LedgerNamesLive(Run(reg, steps[..n]))
  }

  lemma ThroughoutStep(reg: Registry, steps: seq<Step>)
    requires steps != []
    ensures NamesLiveThroughout(reg, steps) <==> NamesLiveThroughout(reg, steps[..|steps| - 1]) && LedgerNamesLive(Run(reg, steps))
  {
    hide LedgerNamesLive, Run;
    var before := steps[..|steps| - 1];
    assert steps[..|steps|] == steps;
    forall n | 0 <= n <= |before| ensures before[..n] == steps[..n] {}
    if NamesLiveThroughout(reg, steps) {
      forall n | 0 <= n <= |before| ensures LedgerNamesLive(Run(reg, before[..n])) {
        assert before[..n] == steps[..n];
      }
    } else {
      var n :| 0 <= n <= |steps| && !LedgerNamesLive(Run(reg, steps[..n]));
      assert n < |steps| ==> before[..n] == steps[..n];
    }
  }

  /**
   * From a good registry, alias lookup over live slots refines the ledger at every moment of a run exactly if
   * no step loses its alias; then no alias of a plain name is carried by two live slots.
   */
  lemma {:induction false} LookupRefinesLedger(reg: Registry, steps: seq<Step>)
    requires LedgerNamesLive(reg)
    ensures NamesLiveThroughout(reg, steps) <==> NoneLost(reg, steps)
    ensures NoneLost(reg, steps) ==> LedgerNamesLive(Run(reg, steps)) && Unambiguous(Run(reg, steps))
  {
    hide LosesAlias, LedgerNamesLive, Unambiguous, NoneLost, NamesLiveThroughout;
    if steps == [] {
      NothingHappened(reg, steps);
    } else {
      LookupRefinesLedger(reg, steps[..|steps| - 1]);
      NoneLostStep(reg, steps);
      ThroughoutStep(reg, steps);
      if NoneLost(reg, steps[..|steps| - 1]) {
        StepKeepsLedgerExactly(Run(reg, steps[..|steps| - 1]), steps[|steps| - 1]);
      }
    }
    if LedgerNamesLive(Run(reg, steps)) { NamedOnce(Run(reg, steps)); }
  }

  lemma NothingHappened(reg: Registry, steps: seq<Step>)
    requires steps == [] && LedgerNamesLive(reg)
    ensures NamesLiveThroughout(reg, steps) && NoneLost(reg, steps) && LedgerNamesLive(Run(reg, steps))
  {
  }

  lemma NamedOnce(reg: Registry)
    requires LedgerNamesLive(reg)
    ensures Unambiguous(reg)
  {
    forall a, b, alias | Carries(reg, a, alias) && Carries(reg, b, alias) && !Inherited(alias) ensures a == b {
      assert reg.aliases[alias].holder == Some(a) && reg.aliases[alias].holder == Some(b);
    }
  }

  // ------------------------------------------------------------- generations

  /** No ledger entry is dropped and no generation falls. */
  predicate LedgerGrows(reg: Registry, reg': Registry) {
    forall a :: a in reg.aliases ==> a in reg'.aliases && reg.aliases[a].epoch <= reg'.aliases[a].epoch
  }

  lemma StepGrows(reg: Registry, step: Step)
    ensures LedgerGrows(reg, Next(reg, step))
  {
    hide Inherited;
  }

  lemma {:induction false} GenerationsNeverFall(reg: Registry, steps: seq<Step>, n: nat)
    requires n <= |steps|
    ensures LedgerGrows(Run(reg, steps[..n]), Run(reg, steps))
    decreases |steps| - n
  {
    if n < |steps| {
      assert steps[..n + 1][..n] == steps[..n];
      StepGrows(Run(reg, steps[..n]), steps[n]);
      GenerationsNeverFall(reg, steps, n + 1);
    } else {
      assert steps[..n] == steps;
    }
  }

  /** An issued generation is not ahead of the ledger, and the current one belongs to the holder if there is one. */
  predicate OnTheBooks(reg: Registry, issue: Issue) {
    && issue.alias in reg.aliases && issue.epoch.Some?
    && issue.epoch.value <= reg.aliases[issue.alias].epoch
    && (issue.epoch.value == reg.aliases[issue.alias].epoch && reg.aliases[issue.alias].holder.Some? ==>
          reg.aliases[issue.alias].holder.value == issue.sid)
  }

  lemma StepKeepsBooked(reg: Registry, step: Step, issue: Issue)
    requires OnTheBooks(reg, issue)
    ensures OnTheBooks(Next(reg, step), issue)
  {
    hide Inherited;
  }

  /** An alias does not become foreign. */
  lemma StaysKnown(reg: Registry, step: Step, alias: Alias)
    requires !Foreign(reg, alias)
    ensures !Foreign(Next(reg, step), alias)
  {
    hide Inherited;
    StepGrows(reg, step);
  }

  lemma IssueIsBooked(reg: Registry, step: Step)
    ensures forall issue :: issue in Issued(reg, step) && !Foreign(reg, issue.alias) ==> OnTheBooks(Next(reg, step), issue)
  {
    hide Inherited;
  }

  /** A renewed generation can only be re-issued to the session that has it. */
  lemma IssueAgrees(reg: Registry, step: Step, earlier: Issue, now: Issue)
    requires OnTheBooks(reg, earlier) && now in Issued(reg, step)
    requires earlier.alias == now.alias && earlier.epoch == now.epoch
    ensures earlier.sid == now.sid
  {
    hide Inherited;
  }

  lemma {:induction false} HistoryBooked(reg: Registry, steps: seq<Step>, alias: Alias)
    requires !Foreign(reg, alias)
    ensures !Foreign(Run(reg, steps), alias)
    ensures forall issue :: issue in History(reg, steps) && issue.alias == alias ==> OnTheBooks(Run(reg, steps), issue)
  {
    hide Foreign, OnTheBooks, Issued, Next;
    if steps != [] {
      var before, step := steps[..|steps| - 1], steps[|steps| - 1];
      HistoryBooked(reg, before, alias);
      StaysKnown(Run(reg, before), step, alias);
      IssueIsBooked(Run(reg, before), step);
      forall issue | issue in History(reg, before) && issue.alias == alias ensures OnTheBooks(Run(reg, steps), issue) {
        StepKeepsBooked(Run(reg, before), step, issue);
      }
    }
  }

  /** Over a whole run, a generation of an alias that is not foreign at first is issued to at most one session. */
  lemma {:induction false} GenerationsNeverRepeat(reg: Registry, steps: seq<Step>, i: nat, j: nat)
    requires i < j < |History(reg, steps)| && !Foreign(reg, History(reg, steps)[i].alias)
    requires History(reg, steps)[i].alias == History(reg, steps)[j].alias
    requires History(reg, steps)[i].epoch == History(reg, steps)[j].epoch
    ensures History(reg, steps)[i].sid == History(reg, steps)[j].sid
  {
    var before, step := steps[..|steps| - 1], steps[|steps| - 1];
    var h := History(reg, before);
    if j < |h| {
      GenerationsNeverRepeat(reg, before, i, j);
    } else {
      assert |Issued(Run(reg, before), step)| <= 1;
      HistoryBooked(reg, before, h[i].alias);
      assert h[i] in h;
      IssueAgrees(Run(reg, before), step, h[i], History(reg, steps)[j]);
    }
  }

  /** One generation of the alias went to two sessions. */
  predicate Repeated(history: seq<Issue>, alias: Alias) {
    exists i, j :: 0 <= i < j < |history| && history[i].alias == alias == history[j].alias
                   && history[i].epoch == history[j].epoch && history[i].sid != history[j].sid
  }

  /** No run repeats a generation of an alias exactly if the alias is not foreign where the runs begin. */
  lemma GenerationsNeverRepeatExactly(reg: Registry, alias: Alias)
    ensures (forall steps :: !Repeated(History(reg, steps), alias)) <==> !Foreign(reg, alias)
  {
    hide Foreign, History;
    if Foreign(reg, alias) {
      var steps := ForeignAliasRepeats(reg, alias);
      var history := History(reg, steps);
      assert history[0].sid != history[1].sid && Repeated(history, alias);
    } else {
      forall steps ensures !Repeated(History(reg, steps), alias) {
        var history := History(reg, steps);
        if i, j :| 0 <= i < j < |history| && history[i].alias == alias == history[j].alias
                   && history[i].epoch == history[j].epoch && history[i].sid != history[j].sid {
          GenerationsNeverRepeat(reg, steps, i, j);
        }
      }
    }
  }

  /** Two sessions taking a foreign alias in turn are issued the same generation of it, which is not a number. */
  lemma ForeignAliasRepeats(reg: Registry, alias: Alias) returns (steps: seq<Step>)
    requires Foreign(reg, alias)
    ensures steps == [Arm("s", Some(alias), 1, 1, 1), Arm("t", Some(alias), 2, 2, 2)]
    ensures History(reg, steps) == [Issue(alias, None, "s"), Issue(alias, None, "t")]
  {
    assert alias != "";
    var first, second := Arm("s", Some(alias), 1, 1, 1), Arm("t", Some(alias), 2, 2, 2);
    ForeignHasNoGeneration(reg, "s", alias, 1, 1, 1);
    ForeignHasNoGeneration(Next(reg, first), "t", alias, 2, 2, 2);
    hide Register, Foreign;
    assert [first][..0] == [] && [first, second][..1] == [first];
    assert Run(reg, []) == reg && History(reg, []) == [];
    assert Run(reg, [first]) == Next(reg, first);
    assert History(reg, [first]) == [Issue(alias, None, "s")];
    steps := [first, second];
  }

  // ---------------------------------------------------------- superseded slots

  /** Nobody is noted under the foreign alias yet: its missing holder is taken for a session called "undefined". */
  predicate FirstForeign(reg: Registry, alias: Alias) {
    Foreign(reg, alias) && alias !in reg.noted
  }

  /** The registering session is itself the one so called: it is reported as superseded by itself. */
  predicate PushesItself(reg: Registry, sid: Sid, alias: Alias) {
    FirstForeign(reg, alias) && sid == "undefined"
  }

  /** A takeover takes another session out of routing, exactly unless the session is taken for its own predecessor. */
  lemma TakeoverKills(reg: Registry, sid: Sid, requested: Option<string>, pid: int, armedAt: int, now: int)
    requires Register(reg, sid, requested, pid, armedAt, now).1.superseded.Some?
    ensures var (reg', receipt) := Register(reg, sid, requested, pid, armedAt, now);
            && GivenAlias(requested) == Some(receipt.superseded.value.alias)
            && (receipt.superseded.value.sessionId != sid <==> !PushesItself(reg, sid, receipt.superseded.value.alias))
            && (!Live(reg', receipt.superseded.value.sessionId) <==> !PushesItself(reg, sid, receipt.superseded.value.alias))
  {
    hide Inherited;
  }

  /** The session's own registration brings it back: it gives an alias, or there is no slot of it any more. */
  predicate Revives(reg: Registry, step: Step, sid: Sid) {
    step.Arm? && step.sid == sid && (GivenAlias(step.alias).Some? || sid !in reg.consumers)
  }

  /** No step of the run is such a registration at its moment. */
  ghost predicate NeverRevived(reg: Registry, steps: seq<Step>, sid: Sid) {
    forall i :: 0 <= i < |steps| ==> !Revives(Run(reg, steps[..i]), steps[i], sid)
  }

  /** A session that is not live becomes so by its own reviving registration, and by nothing else. */
  lemma StepRevivesExactly(reg: Registry, step: Step, sid: Sid)
    requires !Live(reg, sid)
    ensures Live(Next(reg, step), sid) <==> Revives(reg, step, sid)
  {
    assert !Inherited("undefined");
    hide Inherited;
    if step.Arm? && GivenAlias(step.alias).Some? {
      if !Foreign(reg, step.alias.value) { BookedHere(reg, step.sid, step.alias.value); }
    }
    hide Booked;
  }

  lemma NeverRevivedStep(reg: Registry, steps: seq<Step>, sid: Sid)
    requires steps != [] && NeverRevived(reg, steps, sid)
    ensures NeverRevived(reg, steps[..|steps| - 1], sid)
    ensures !Revives(Run(reg, steps[..|steps| - 1]), steps[|steps| - 1], sid)
  {
    hide Revives, Run;
    var before := steps[..|steps| - 1];
    forall i | 0 <= i < |before| ensures !Revives(Run(reg, before[..i]), before[i], sid) {
      assert before[..i] == steps[..i] && before[i] == steps[i];
    }
  }

  /** A session out of routing stays out through every run that never revives it, its own bare registrations included. */
  lemma {:induction false} StaysDownThroughout(reg: Registry, steps: seq<Step>, sid: Sid)
    requires !Live(reg, sid) && NeverRevived(reg, steps, sid)
    ensures !Live(Run(reg, steps), sid)
  {
    hide Live, NeverRevived, Revives;
    if steps != [] {
      NeverRevivedStep(reg, steps, sid);
      StaysDownThroughout(reg, steps[..|steps| - 1], sid);
      StepRevivesExactly(Run(reg, steps[..|steps| - 1]), steps[|steps| - 1], sid);
    }
  }

  /** Whether a ledger entry names the session as the alias's holder. */
  predicate Holds(reg: Registry, sid: Sid, alias: Alias) {
    alias in reg.aliases && reg.aliases[alias].holder == Some(sid)
  }

  /**
   * A registration under an alias that is not foreign makes the session its holder, exactly unless it loses the
   * alias; and the session lets go of the alias that is found on its slot, or on the member in its place. No other
   * holding moves, and a registration without an alias moves none at all.
   */
  lemma RegisterMovesHoldings(reg: Registry, sid: Sid, requested: Option<string>, pid: int, armedAt: int, now: int,
                              other: Sid, alias: Alias)
    ensures var step := Arm(sid, requested, pid, armedAt, now);
            Holds(Next(reg, step), other, alias) <==>
            if GivenAlias(requested) == Some(alias) && !Foreign(reg, alias) then other == sid && !LosesAlias(reg, step)
            else if GivenAlias(requested).Some? && other == sid then Holds(reg, sid, alias) && SlotAlias(reg, sid) != Some(alias)
            else Holds(reg, other, alias)
  {
    hide Inherited, Superseded, Displaced, KeptEpoch, EpochOf, ForeignHolder, LetGo;
    if GivenAlias(requested).Some? {
      var taken := GivenAlias(requested).value;
      if alias == taken && !Foreign(reg, taken) {
        BookedHere(reg, sid, taken);
      } else {
        BookedHolds(reg, sid, taken, other, alias);
      }
    }
  }

  lemma BookedHolds(reg: Registry, sid: Sid, taken: Alias, other: Sid, alias: Alias)
    requires alias != taken || Foreign(reg, taken)
    ensures alias in Booked(reg, sid, taken) && Booked(reg, sid, taken)[alias].holder == Some(other) <==>
            Holds(reg, other, alias) && !(other == sid && SlotAlias(reg, sid) == Some(alias))
  {
    hide Inherited;
  }

  /** A retirement drops the slot and the holding of the alias found on it, or on the member in its place, and nothing else. */
  lemma UnregisterMovesHoldings(reg: Registry, sid: Sid, other: Sid, alias: Alias)
    ensures var reg' := Unregister(reg, sid);
            && sid !in reg'.consumers
            && (forall s :: s != sid ==> (s in reg'.consumers <==> s in reg.consumers) && SlotOf(reg', s) == SlotOf(reg, s))
            && (Holds(reg', other, alias) <==> Holds(reg, other, alias) && !(other == sid && SlotAlias(reg, sid) == Some(alias)))
            && (alias in reg.aliases ==> alias in reg'.aliases && reg'.aliases[alias].epoch == reg.aliases[alias].epoch)
  {
    hide Inherited;
  }

  /**
   * A takeover of an alias that is not foreign opens its next generation and makes the session the holder, unless
   * it loses the alias. Any takeover from a session that was noted or held the alias marks the old slot with its
   * successor and its own generation; all the alias's older stale slots are dropped.
   */
  lemma TakeoverLeavesTrace(reg: Registry, sid: Sid, requested: Option<string>, pid: int, armedAt: int, now: int)
    requires Register(reg, sid, requested, pid, armedAt, now).1.superseded.Some?
    ensures var (reg', receipt) := Register(reg, sid, requested, pid, armedAt, now);
            var gone := receipt.superseded.value;
            && requested == Some(gone.alias)
            && (!Foreign(reg, gone.alias) ==>
                  && Holds(reg, gone.sessionId, gone.alias)
                  && (Holds(reg', sid, gone.alias) <==> !LosesAlias(reg, Arm(sid, requested, pid, armedAt, now)))
                  && receipt.epoch == Some(reg.aliases[gone.alias].epoch + 1)
                  && reg'.aliases[gone.alias].epoch == reg'.consumers[sid].epoch == reg.aliases[gone.alias].epoch + 1)
            && (!FirstForeign(reg, gone.alias) && gone.sessionId in reg.consumers ==>
                  && gone.sessionId in reg'.consumers
                  && reg'.consumers[gone.sessionId].stale == Some(Stale(Some(now), sid, reg.consumers[gone.sessionId].epoch))
                  && gone.epoch == Some(reg.consumers[gone.sessionId].epoch))
            && (forall s :: s in reg'.consumers && reg'.consumers[s].stale.Some? && reg'.consumers[s].alias == Some(gone.alias) ==>
                  s == gone.sessionId && !FirstForeign(reg, gone.alias))
  {
    assert !Inherited("undefined");
    hide Inherited;
  }

  // ------------------------------------------------------------- inherited names

  /** Under an inherited alias without a ledger entry no generation is a number, and none is ever recorded. */
  lemma ForeignHasNoGeneration(reg: Registry, sid: Sid, alias: Alias, pid: int, armedAt: int, now: int)
    requires Foreign(reg, alias)
    ensures var (reg', receipt) := Register(reg, sid, Some(alias), pid, armedAt, now);
            receipt.epoch == None && Foreign(reg', alias) && reg'.consumers[sid].epoch == 0
  {
  }

  /** Two sessions are issued the same generation of one alias, if its name is inherited. */
  lemma InheritedAliasRepeats()
    ensures var steps := [Arm("s", Some("constructor"), 1, 1, 1), Arm("t", Some("constructor"), 2, 2, 2)];
            History(EMPTY_REGISTRY, steps) == [Issue("constructor", None, "s"), Issue("constructor", None, "t")]
  {
    var steps := ForeignAliasRepeats(EMPTY_REGISTRY, "constructor");
  }

  /** A session of an inherited name without a slot, registering as "undefined", ends up carrying an alias it does not hold. */
  lemma InheritedSessionLosesAlias()
    ensures var reg := Register(EMPTY_REGISTRY, "constructor", Some("undefined"), 1, 1, 1).0;
            Carries(reg, "constructor", "undefined") && !Holds(reg, "constructor", "undefined")
  {
  }

  /** A session called "undefined" that takes a foreign alias first is told that it superseded itself, and stays live. */
  lemma UndefinedPushesItself()
    ensures var (reg, receipt) := Register(EMPTY_REGISTRY, "undefined", Some("constructor"), 1, 1, 1);
            receipt.superseded == Some(Takeover("undefined", "constructor", None)) && Live(reg, "undefined")
  {
  }
}
