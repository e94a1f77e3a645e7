/**
 * What each operation of the registry does to every slot: whom a registration makes live, whom it marks or drops,
 * which generation it opens, and which slots a prune removes.
 */
module HostRegistrySlots {
  import opened Wrappers
  import opened HostRegistry
  import opened HostRegistryLaws
  import opened ObjectNames

  /** The session has a slot of a superseded generation. */
  predicate Superseded(reg: Registry, sid: Sid) {
    sid in reg.consumers && reg.consumers[sid].stale.Some?
  }

  /** The alias is the session's: by the ledger, or by the note on the inherited member found in its place. */
  predicate Named(reg: Registry, sid: Sid, alias: Alias) {
    Holds(reg, sid, alias) || (Foreign(reg, alias) && alias in reg.noted && reg.noted[alias] == sid)
  }

  /**
   * Whom a registration makes live: the session, exactly if it was not superseded or was given an alias that is
   * then its own. One without an alias leaves a superseded session superseded. Its slot carries exactly the given
   * alias, and the process that registered it.
   */
  lemma RegisterMakesLive(reg: Registry, sid: Sid, requested: Option<string>, pid: int, armedAt: int, now: int)
    ensures var reg' := Register(reg, sid, requested, pid, armedAt, now).0;
            && (Live(reg', sid) <==>
                  || !Superseded(reg, sid)
                  || (requested.Some? && requested.value != "" && Named(reg', sid, requested.value)))
            && (requested.None? || requested.value == "" ==> (Superseded(reg', sid) <==> Superseded(reg, sid)))
            && (forall alias :: Carries(reg', sid, alias) <==> Live(reg', sid) && requested == Some(alias) && alias != "")
            && sid in reg'.consumers && reg'.consumers[sid].pid == pid && reg'.consumers[sid].armedAt == armedAt
  {
    assert !Inherited("undefined");
    hide Inherited;
    var alias := GivenAlias(requested);
    if alias.Some? {
      if Foreign(reg, alias.value) {
        ForeignHasNoGeneration(reg, sid, alias.value, pid, armedAt, now);
      } else {
        BookedHere(reg, sid, alias.value);
      }
    }
    hide Booked, HostRegistry.Superseded, EpochOf, KeptEpoch, ForeignHolder;
  }

  /**
   * What a registration does to every other slot: the session it takes the alias over from is marked with its
   * successor, the moment and its own generation; on a takeover the superseded slots of that alias go, all but the
   * one just marked for a known holder; and every other slot stays as it is.
   */
  lemma RegisterTouchesOthers(reg: Registry, sid: Sid, requested: Option<string>, pid: int, armedAt: int, now: int, other: Sid)
    requires other != sid
    ensures var (reg', receipt) := Register(reg, sid, requested, pid, armedAt, now);
            var from := if receipt.superseded.Some? then Some(receipt.superseded.value.sessionId) else None;
            var dropped := from.Some? && other in reg.consumers && reg.consumers[other].alias == requested
                           && if from == Some(other) then FirstForeign(reg, requested.GetOr("")) else Superseded(reg, other);
            && (other in reg'.consumers <==> other in reg.consumers && !dropped)
            && (other in reg'.consumers ==>
                  reg'.consumers[other] ==
                  if from == Some(other)
                  then reg.consumers[other].(stale := Some(Stale(Some(now), sid, reg.consumers[other].epoch)))
                  else reg.consumers[other])
  {
    hide Inherited, Booked, EpochOf, KeptEpoch;
  }

  /**
   * Which generation a registration reports and stores: under an alias the ledger can name, the ledger's own if
   * the session holds it already, and otherwise the next one, superseding the holder if there is one; without an
   * alias nothing is superseded and the slot's generation stays.
   */
  lemma RegisterOpensGeneration(reg: Registry, sid: Sid, requested: Option<string>, pid: int, armedAt: int, now: int)
    ensures var (reg', receipt) := Register(reg, sid, requested, pid, armedAt, now);
            && (requested.Some? && requested.value != "" && !Foreign(reg, requested.value) ==>
                  var alias := requested.value;
                  var was := if alias in reg.aliases then reg.aliases[alias].epoch else 0;
                  var next := if Holds(reg, sid, alias) then was else was + 1;
                  && receipt.epoch == Some(next) && reg'.consumers[sid].epoch == next
                  && alias in reg'.aliases && reg'.aliases[alias].epoch == next
                  && (receipt.superseded.Some? <==> exists other :: other != sid && Holds(reg, other, alias))
                  && (receipt.superseded.Some? ==>
                        var gone := receipt.superseded.value;
                        && Holds(reg, gone.sessionId, alias) && gone.alias == alias
                        && gone.epoch == Some(if gone.sessionId in reg.consumers then reg.consumers[gone.sessionId].epoch else was)))
            && (requested.None? || requested.value == "" ==>
                  && receipt.superseded.None? && reg'.aliases == reg.aliases
                  && (sid in reg.consumers || !Inherited(sid) ==> receipt.epoch == Some(reg'.consumers[sid].epoch))
                  && reg'.consumers[sid].epoch == (if sid in reg.consumers then reg.consumers[sid].epoch else 0))
            && receipt.signature == (if requested.Some? && requested.value != "" then requested.value + "@" + sid else sid)
  {
    assert !Inherited("undefined");
    hide Inherited;
    var alias := GivenAlias(requested);
    if alias.Some? && !Foreign(reg, alias.value) {
      BookedHere(reg, sid, alias.value);
      var ledger := LedgerOf(reg, alias.value);
      if ledger.holder.Some? { assert Holds(reg, ledger.holder.value, alias.value); }
    }
    hide Booked, HostRegistry.Superseded, ForeignHolder;
  }

  /**
   * Under an inherited name without a ledger entry a registration takes over from whoever was noted there last,
   * at first from a session called "undefined", and notes itself; if it was noted already it takes over from nobody.
   */
  lemma RegisterNotesItself(reg: Registry, sid: Sid, alias: Alias, pid: int, armedAt: int, now: int)
    requires Foreign(reg, alias)
    ensures var (reg', receipt) := Register(reg, sid, Some(alias), pid, armedAt, now);
            var last := if alias in reg.noted then reg.noted[alias] else "undefined";
            && reg'.noted == reg.noted[alias := sid] && receipt.epoch == None
            && (receipt.superseded.None? <==> alias in reg.noted && last == sid)
            && (receipt.superseded.Some? ==>
                  receipt.superseded.value ==
                  Takeover(last, alias, if last in reg.consumers then Some(reg.consumers[last].epoch) else None))
  {
    assert alias != "";
    hide Inherited, Booked, HostRegistry.Superseded;
  }

  /** The ledger entries of every other alias: a registration leaves each generation as it is. */
  lemma RegisterKeepsGenerations(reg: Registry, sid: Sid, requested: Option<string>, pid: int, armedAt: int, now: int, alias: Alias)
    requires alias in reg.aliases && Some(alias) != requested
    ensures var reg' := Register(reg, sid, requested, pid, armedAt, now).0;
            alias in reg'.aliases && reg'.aliases[alias].epoch == reg.aliases[alias].epoch
  {
    hide Inherited, HostRegistry.Superseded, EpochOf, KeptEpoch, ForeignHolder;
  }

  /**
   * A prune removes exactly the superseded slots whose mark has a date older than the retention, leaves every
   * other slot as it is, and never touches the ledger.
   */
  lemma PruneExactly(reg: Registry, retention: int, now: int, sid: Sid)
    ensures var reg' := Prune(reg, retention, now);
            && (sid in reg'.consumers <==>
                  && sid in reg.consumers
                  && match reg.consumers[sid].stale
                     case None => true
                     case Some(mark) => mark.since.None? || now - mark.since.value <= retention)
            && (sid in reg'.consumers ==> reg'.consumers[sid] == reg.consumers[sid])
            && reg'.aliases == reg.aliases && reg'.noted == reg.noted
  {
  }

  /** A bare registration does not bring a superseded session back, whatever address is tried. */
  lemma BareRegistrationStaysDown()
    ensures var first := Register(EMPTY_REGISTRY, "A", Some("w"), 1, 1, 1).0;
            var second := Register(first, "B", Some("w"), 2, 2, 2).0;
            var third := Register(second, "A", None, 3, 3, 3).0;
            Superseded(second, "A") && Superseded(third, "A") && Carries(third, "B", "w")
  {
    var first := Register(EMPTY_REGISTRY, "A", Some("w"), 1, 1, 1).0;
    var second := Register(first, "B", Some("w"), 2, 2, 2).0;
    RegisterMakesLive(second, "A", None, 3, 3, 3);
    RegisterTouchesOthers(second, "A", None, 3, 3, 3, "B");
  }
}
