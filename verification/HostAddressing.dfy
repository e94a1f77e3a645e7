/**
 * Addresses of callback lines and the host's routing decision over the registry, with the laws that
 * tie them to the alias ledger.
 */
module HostAddressing {
  import opened Wrappers
  import opened HostRegistry
  import opened HostRegistryLaws
  import opened ObjectNames
  import Text

  datatype Address = Broadcast | Qualified(alias: string, sessionId: string) | Bare(name: string) | Invalid

  /** `to` is absent when the field is missing or not a string; the last `@` separates alias and session. */
  function ParseAddress(to: Option<string>): Address {
    if to.None? || to.value == "" then Invalid
    else if to.value == "*" then Broadcast
    else
      var after := Text.AfterLast(to.value, '@');
      if after == 0 then Bare(to.value) else Qualified(to.value[..after - 1], to.value[after..])
  }

  datatype Death =
    | MissingTo
    | StaleAddress(successor: string, epoch: Option<nat>)
    | GhostSession(hints: set<string>)
    | GhostName
    | AmbiguousAlias(holders: nat)

  datatype Routing = Wake(broadcast: bool, sids: set<Sid>) | Skip | Dead(death: Death)

  function CanonicalOf(sid: Sid, slot: Slot): string {
    if slot.alias.Some? && slot.alias.value != "" then slot.alias.value + "@" + sid else sid
  }

  /** Live slots carrying an alias: one bucket of the alias index. */
  function Holders(reg: Registry, alias: Alias): set<Sid> {
    set sid | sid in reg.consumers && alias != "" && Carries(reg, sid, alias)
  }

  /** A session registered under the foreign alias: the inherited member found for it carries an epoch that is not a number. */
  predicate NotedUnder(reg: Registry, alias: Alias) {
    Foreign(reg, alias) && alias in reg.noted
  }

  /** What a dead letter says about the generation that replaced a stale slot. */
  function StaleDeath(reg: Registry, sid: Sid): Death
    requires sid in reg.consumers && reg.consumers[sid].stale.Some?
  {
    var slot := reg.consumers[sid];
    var successor := slot.stale.value.supersededBy;
    var key := slot.alias.GetOr("null");
    StaleAddress(
      if successor in reg.consumers then CanonicalOf(successor, reg.consumers[successor])
      else if Inherited(successor) then successor
      else slot.alias.GetOr("?") + "@" + successor,
      if key in reg.aliases then Some(reg.aliases[key].epoch)
      else if NotedUnder(reg, key) then None
      else if successor in reg.consumers then Some(reg.consumers[successor].epoch) else None)
  }

  function LiveSlots(reg: Registry): set<Sid> {
    set sid | sid in reg.consumers && Live(reg, sid)
  }

  /** The session is found and not a superseded generation; an inherited member counts as one that is not. */
  predicate Routable(reg: Registry, sid: Sid) {
    Live(reg, sid) || (sid !in reg.consumers && Inherited(sid))
  }

  /** A found session is woken, or dead if its slot is a superseded generation. */
  function ResolveSession(reg: Registry, sid: Sid): Routing
    requires Found(reg, sid)
  {
    if sid in reg.consumers && reg.consumers[sid].stale.Some? then Dead(StaleDeath(reg, sid)) else Wake(false, {sid})
  }

  function ResolveHostRouting(address: Address, reg: Registry): Routing {
    match address
    case Broadcast => if LiveSlots(reg) == {} then Skip else Wake(true, LiveSlots(reg))
    case Invalid => Dead(MissingTo)
    case Qualified(alias, sid) =>
      if Found(reg, sid) then ResolveSession(reg, sid)
      else Dead(GhostSession(set s | s in Holders(reg, alias) :: CanonicalOf(s, reg.consumers[s])))
    case Bare(name) =>
      if Found(reg, name) then ResolveSession(reg, name)
      else
        var holders := Holders(reg, name);
        if |holders| == 0 then Dead(GhostName)
        else if |holders| > 1 then Dead(AmbiguousAlias(|holders|))
        else Wake(false, holders)
  }

  /** The index loop: every alias carried by a live slot, with the sessions carrying it. */
  method AliasIndex(reg: Registry) returns (index: map<Alias, set<Sid>>)
    ensures forall alias :: alias in index ==> index[alias] == Holders(reg, alias) && index[alias] != {}
    ensures forall alias :: alias !in index ==> Holders(reg, alias) == {}
  {
    index := map[];
    var rest := reg.consumers.Keys;
    ghost var done: set<Sid> := {};
    while rest != {}
      invariant done !! rest && done + rest == reg.consumers.Keys
      invariant forall alias :: alias in index ==> index[alias] == Holders(reg, alias) * done && index[alias] != {}
      invariant forall alias :: alias !in index ==> Holders(reg, alias) * done == {}
      decreases rest
    {
      var sid :| sid in rest;
      rest := rest - {sid};
      var slot := reg.consumers[sid];
      ghost var before := done;
      done := done + {sid};
      if slot.alias.None? || slot.alias.value == "" || slot.stale.Some? {
        assert forall alias :: Holders(reg, alias) * done == Holders(reg, alias) * before;
        continue;
      }
      var alias := slot.alias.value;
      assert sid in Holders(reg, alias);
      assert forall a :: a != alias ==> Holders(reg, a) * done == Holders(reg, a) * before;
      assert Holders(reg, alias) * done == Holders(reg, alias) * before + {sid};
      index := index[alias := (if alias in index then index[alias] else {}) + {sid}];
    }
    assert done == reg.consumers.Keys;
    assert forall alias :: Holders(reg, alias) * done == Holders(reg, alias);
  }

  /** The decision as it runs, over the freshly filled index. */
  method Resolve(address: Address, reg: Registry) returns (routing: Routing)
    ensures routing == ResolveHostRouting(address, reg)
  {
    match address
    case Broadcast =>
      var sids := set sid | sid in reg.consumers && reg.consumers[sid].stale.None?;
      assert sids == LiveSlots(reg);
      routing := if sids == {} then Skip else Wake(true, sids);
    case Invalid => routing := Dead(MissingTo);
    case Qualified(alias, sid) =>
      if Found(reg, sid) { return ResolveSession(reg, sid); }
      var index := AliasIndex(reg);
      var holders := if alias in index then index[alias] else {};
      routing := Dead(GhostSession(set s | s in holders :: CanonicalOf(s, reg.consumers[s])));
    case Bare(name) =>
      if Found(reg, name) { return ResolveSession(reg, name); }
      var index := AliasIndex(reg);
      var holders := if name in index then index[name] else {};
      if |holders| == 0 { return Dead(GhostName); }
      if |holders| > 1 { return Dead(AmbiguousAlias(|holders|)); }
      routing := Wake(false, holders);
  }

  // --------------------------------------------------------------------- laws

  /** The name an address looks up as a session's. */
  function LooksUp(address: Address): Option<string> {
    match address
    case Qualified(_, sid) => Some(sid)
    case Bare(name) => Some(name)
    case _ => None
  }

  /** The address's name finds an inherited member instead of a slot. */
  predicate Strays(address: Address, reg: Registry) {
    LooksUp(address).Some? && Inherited(LooksUp(address).value) && LooksUp(address).value !in reg.consumers
  }

  /** Only live slots are woken, and never none, exactly unless the address's name finds an inherited member. */
  lemma OnlyLiveSlotsWake(address: Address, reg: Registry)
    requires ResolveHostRouting(address, reg).Wake?
    ensures var sids := ResolveHostRouting(address, reg).sids;
            && sids != {}
            && ((forall sid :: sid in sids ==> Live(reg, sid)) <==> !Strays(address, reg))
            && (forall sid :: sid in sids ==> Routable(reg, sid))
  {
    var sids := ResolveHostRouting(address, reg).sids;
    if Strays(address, reg) { assert LooksUp(address).value in sids; }
  }

  /** A line to an inherited name wakes a session that was never registered. */
  lemma InheritedNameWakes()
    ensures ParseAddress(Some("constructor")) == Bare("constructor")
    ensures ResolveHostRouting(Bare("constructor"), EMPTY_REGISTRY) == Wake(false, {"constructor"})
  {
    assert Text.AfterLast("constructor", '@') == 0;
  }

  /** A broadcast wakes every live slot, and is skipped exactly when there is none. */
  lemma BroadcastReachesAllLive(reg: Registry, sid: Sid)
    ensures var routing := ResolveHostRouting(Broadcast, reg);
            && (Live(reg, sid) <==> routing.Wake? && routing.broadcast && sid in routing.sids)
            && (routing.Skip? <==> forall s :: s in reg.consumers ==> !Live(reg, s))
  {
    if s :| s in LiveSlots(reg) { assert Live(reg, s); }
    forall s | s in reg.consumers && Live(reg, s) ensures s in LiveSlots(reg) {}
  }

  /**
   * The takeover leaves no stale slot of the old session: nobody was noted under the foreign alias, and the slot
   * of the session called "undefined" is the registering one's, or falls to the sweep of older generations.
   */
  predicate LeavesNoTrace(reg: Registry, sid: Sid, alias: Alias) {
    FirstForeign(reg, alias) && (sid == "undefined" || SlotOf(reg, "undefined").alias == Some(alias))
  }

  /**
   * Right after a takeover an address of the old session, if that had a slot, meets a dead letter that names its
   * successor, exactly unless the takeover left no trace of it. The generation it names is the ledger's for the
   * alias the old slot carried last, so it is the new one unless the session held an alias other than the one it
   * carried.
   */
  lemma SupersededNamesSuccessor(reg: Registry, sid: Sid, requested: Option<string>, pid: int, armedAt: int, now: int, anyAlias: string)
    requires var receipt := Register(reg, sid, requested, pid, armedAt, now).1;
             receipt.superseded.Some? && receipt.superseded.value.sessionId in reg.consumers
    ensures var (reg', receipt) := Register(reg, sid, requested, pid, armedAt, now);
            var gone, alias := receipt.superseded.value.sessionId, receipt.superseded.value.alias;
            var routing := ResolveHostRouting(Qualified(anyAlias, gone), reg');
            var key := reg.consumers[gone].alias.GetOr("null");
            && (routing.Dead? && routing.death.StaleAddress? <==> !LeavesNoTrace(reg, sid, alias))
            && (routing.Dead? && routing.death.StaleAddress? ==>
                  && routing.death.successor == receipt.signature
                  && (routing.death.epoch == receipt.epoch <==>
                        if key in reg'.aliases then Some(reg'.aliases[key].epoch) == receipt.epoch
                        else (NotedUnder(reg', key) <==> Foreign(reg, alias)))
                  && (key == alias ==> routing.death.epoch == receipt.epoch))
  {
    hide Inherited;
    TakeoverLeavesTrace(reg, sid, requested, pid, armedAt, now);
  }

  lemma {:induction false} LastAt(alias: string, sid: string)
    ensures Text.AfterLast(alias + "@" + sid, '@') >= |alias| + 1
    ensures Text.AfterLast(alias + "@" + sid, '@') == |alias| + 1 <==> '@' !in sid
  {
    var s := alias + "@" + sid;
    var n := Text.AfterLast(s, '@');
    assert s[|alias|] == '@';
    if n > |alias| + 1 {
      assert s[n - 1] == sid[n - 1 - |alias| - 1];
    } else {
      forall i | 0 <= i < |sid| ensures sid[i] != '@' { assert s[|alias| + 1 + i] == sid[i]; }
    }
  }

  /** A written-out address parses to its session exactly when the session id holds no `@`. */
  lemma AddressRoundTrip(alias: string, sid: string)
    ensures '@' !in sid ==> ParseAddress(Some(alias + "@" + sid)) == Qualified(alias, sid)
    ensures '@' in sid ==> var a := ParseAddress(Some(alias + "@" + sid));
                           a.Qualified? && |a.sessionId| < |sid|
  {
    LastAt(alias, sid);
    var s := alias + "@" + sid;
    assert s[|alias| + 1..] == sid && s[..|alias|] == alias;
    assert s[|alias|] == '@';
  }

  /** The signature returned for a given alias routes back to exactly that session if and only if the session id holds no `@`. */
  lemma SignatureRoutesBack(reg: Registry, sid: Sid, alias: Alias, pid: int, armedAt: int, now: int)
    requires alias != ""
    ensures var (reg', receipt) := Register(reg, sid, Some(alias), pid, armedAt, now);
            ResolveHostRouting(ParseAddress(Some(receipt.signature)), reg') == Wake(false, {sid}) <==> '@' !in sid
  {
    hide Inherited, Superseded, ForeignHolder, Displaced, EpochOf, KeptEpoch, Text.AfterLast;
    AddressRoundTrip(alias, sid);
    var (reg', receipt) := Register(reg, sid, Some(alias), pid, armedAt, now);
    assert receipt.signature == alias + "@" + sid;
    if '@' in sid {
      var a := ParseAddress(Some(receipt.signature));
      assert a.sessionId != sid;
      assert {a.sessionId} != {sid} by { assert a.sessionId in {a.sessionId}; }
    }
  }

  /** The session the ledger names for a bare alias, if its live slot carries that alias. */
  function ByLedger(reg: Registry, name: string): Routing {
    if name in reg.aliases && reg.aliases[name].holder.Some? && Carries(reg, reg.aliases[name].holder.value, name)
    then Wake(false, {reg.aliases[name].holder.value})
    else Dead(GhostName)
  }

  lemma BareAliasOf(reg: Registry, name: string)
    requires LedgerNamesLive(reg) && name != "" && name !in reg.consumers
    ensures ResolveHostRouting(Bare(name), reg) == ByLedger(reg, name) <==> !Inherited(name)
  {
    var holders := Holders(reg, name);
    if Inherited(name) {
      assert ResolveHostRouting(Bare(name), reg).sids == {name};
      var routing := ByLedger(reg, name);
      assert routing.Wake? ==> name !in routing.sids;
    } else if holders == {} {
      if name in reg.aliases && reg.aliases[name].holder.Some? {
        var holder := reg.aliases[name].holder.value;
        assert Carries(reg, holder, name) ==> holder in holders;
      }
    } else {
      var sid :| sid in holders;
      assert Carries(reg, sid, name);
      forall other | other in holders ensures other == sid { assert Carries(reg, other, name); }
      assert holders == {sid};
    }
  }

  /**
   * In every registry reachable from a good one without losing an alias, a bare alias is never ambiguous: it wakes
   * the ledger's holder if that session's live slot carries the alias, and is a ghost otherwise. For a name without
   * a slot this is so exactly unless the name is inherited.
   */
  lemma BareAliasFindsHolder(start: Registry, steps: seq<Step>, name: string)
    requires LedgerNamesLive(start) && NoneLost(start, steps)
    requires name != "" && name !in Run(start, steps).consumers
    ensures ResolveHostRouting(Bare(name), Run(start, steps)) == ByLedger(Run(start, steps), name) <==> !Inherited(name)
  {
    LookupRefinesLedger(start, steps);
    BareAliasOf(Run(start, steps), name);
  }

  // ------------------------------------------------------- superseded sessions

  predicate Reaches(address: Address, reg: Registry, sid: Sid) {
    var routing := ResolveHostRouting(address, reg);
    routing.Wake? && sid in routing.sids
  }

  /** Some address wakes a session exactly if it is routable, and then its bare id does. */
  lemma WokenExactly(reg: Registry, sid: Sid)
    ensures (exists address :: Reaches(address, reg, sid)) <==> Routable(reg, sid)
    ensures Routable(reg, sid) ==> Reaches(Bare(sid), reg, sid)
  {
    hide Inherited;
    if Routable(reg, sid) {
      assert Reaches(Bare(sid), reg, sid);
    } else {
      forall address ensures !Reaches(address, reg, sid) {
        if Reaches(address, reg, sid) { OnlyLiveSlotsWake(address, reg); }
      }
    }
  }

  /** Until its own registration revives the session, no address wakes it, whatever it and others do besides. */
  ghost predicate StaysDead(reg: Registry, sid: Sid) {
    forall steps, address | NeverRevived(reg, steps, sid) :: !Reaches(address, Run(reg, steps), sid)
  }

  lemma RetiredWakes(reg: Registry, sid: Sid)
    requires Inherited(sid)
    ensures Reaches(Bare(sid), Run(reg, [Retire(sid)]), sid)
  {
    hide Inherited;
    assert [Retire(sid)][..0] == [];
    assert Run(reg, []) == reg;
    assert Run(reg, [Retire(sid)]) == Unregister(reg, sid);
  }

  /** A session that is not live stays dead exactly unless its name is inherited: then its retirement lets it be woken. */
  lemma DownStaysDeadExactly(reg: Registry, sid: Sid)
    requires !Live(reg, sid)
    ensures StaysDead(reg, sid) <==> !Inherited(sid)
  {
    hide Inherited, Reaches, Run, Live;
    if Inherited(sid) {
      RetiredWakes(reg, sid);
      assert NeverRevived(reg, [Retire(sid)], sid);
    } else {
      forall steps, address | NeverRevived(reg, steps, sid) ensures !Reaches(address, Run(reg, steps), sid) {
        StaysDownThroughout(reg, steps, sid);
        NotRoutable(Run(reg, steps), sid);
        WokenExactly(Run(reg, steps), sid);
      }
    }
  }

  lemma NotRoutable(reg: Registry, sid: Sid)
    requires !Live(reg, sid)
    ensures Routable(reg, sid) <==> sid !in reg.consumers && Inherited(sid)
  {
  }

  /**
   * From a takeover on, through any registrations, retirements and sweeps that do not revive it, no address wakes
   * the old session: exactly unless its name is inherited, or the session was taken for
   * its own predecessor.
   */
  lemma SupersededStaysDeadExactly(reg: Registry, sid: Sid, requested: Option<string>, pid: int, armedAt: int, now: int)
    requires Register(reg, sid, requested, pid, armedAt, now).1.superseded.Some?
    ensures var (reg', receipt) := Register(reg, sid, requested, pid, armedAt, now);
            var gone := receipt.superseded.value;
            StaysDead(reg', gone.sessionId) <==> !Inherited(gone.sessionId) && !PushesItself(reg, sid, gone.alias)
  {
    hide Register, Inherited, Live, StaysDead;
    var (reg', receipt) := Register(reg, sid, requested, pid, armedAt, now);
    var gone := receipt.superseded.value.sessionId;
    TakeoverKills(reg, sid, requested, pid, armedAt, now);
    if Live(reg', gone) {
      LiveIsNotDead(reg', gone);
    } else {
      DownStaysDeadExactly(reg', gone);
    }
  }

  lemma LiveIsNotDead(reg: Registry, sid: Sid)
    requires Live(reg, sid)
    ensures !StaysDead(reg, sid)
  {
    hide Inherited;
    assert Run(reg, []) == reg && NeverRevived(reg, [], sid);
    assert Reaches(Bare(sid), Run(reg, []), sid);
  }

  /** What follows the last `@` of a session id; the whole id without one. */
  function Tail(sid: Sid): string {
    sid[Text.AfterLast(sid, '@')..]
  }

  /** An address written for a session names what follows the last `@` of its id, and is dead exactly if that is not routable. */
  lemma OwnAddress(reg: Registry, anyAlias: string, sid: Sid)
    ensures var own := ParseAddress(Some(anyAlias + "@" + sid));
            && own.Qualified? && own.sessionId == Tail(sid)
            && (ResolveHostRouting(own, reg).Dead? <==> !Routable(reg, Tail(sid)))
    ensures '@' in sid <==> Tail(sid) != sid
  {
    hide Inherited, StaleDeath, Holders, CanonicalOf, Text.AfterLast;
    AddressRoundTrip(anyAlias, sid);
    if '@' in sid { AddressTail(anyAlias, sid); } else { assert Tail(sid) == sid; }
  }

  /**
   * At any moment between a takeover and the old session's reviving registration: an address wakes the old session at
   * most when its name is inherited and its slot is gone; and every `alias@session` address written for it is
   * dead, never its successor's, exactly unless what follows the last `@` of its id is routable. Without an `@`
   * that is the old session itself.
   */
  lemma SupersededStaysDead(reg: Registry, sid: Sid, requested: Option<string>, pid: int, armedAt: int, now: int,
                            steps: seq<Step>, anyAlias: string, address: Address)
    requires Register(reg, sid, requested, pid, armedAt, now).1.superseded.Some?
    requires var (reg', receipt) := Register(reg, sid, requested, pid, armedAt, now);
             var gone := receipt.superseded.value;
             !PushesItself(reg, sid, gone.alias) && NeverRevived(reg', steps, gone.sessionId)
    ensures var (reg', receipt) := Register(reg, sid, requested, pid, armedAt, now);
            var gone, later := receipt.superseded.value.sessionId, Run(reg', steps);
            var own := ParseAddress(Some(anyAlias + "@" + gone));
            && (Reaches(address, later, gone) ==> Inherited(gone) && gone !in later.consumers)
            && own.Qualified? && own.sessionId == Tail(gone)
            && (ResolveHostRouting(own, later).Dead? <==> !Routable(later, Tail(gone)))
            && ('@' !in gone ==> (ResolveHostRouting(own, later).Dead? <==> !(Inherited(gone) && gone !in later.consumers)))
  {
    hide Register, Inherited, Live, Run, Reaches, ParseAddress, Tail;
    var (reg', receipt) := Register(reg, sid, requested, pid, armedAt, now);
    var gone := receipt.superseded.value.sessionId;
    TakeoverKills(reg, sid, requested, pid, armedAt, now);
    StaysDownThroughout(reg', steps, gone);
    WokenExactly(Run(reg', steps), gone);
    NotRoutable(Run(reg', steps), gone);
    OwnAddress(Run(reg', steps), anyAlias, gone);
  }

  lemma AddressTail(alias: string, sid: string)
    requires '@' in sid
    ensures var own := ParseAddress(Some(alias + "@" + sid));
            own.Qualified? && own.sessionId == sid[Text.AfterLast(sid, '@')..] != sid
  {
    LastOfTail(alias, sid);
    var s, n := alias + "@" + sid, Text.AfterLast(sid, '@');
    var m := Text.AfterLast(s, '@');
    hide Text.AfterLast;
    assert s[m..] == sid[n..];
  }

  lemma LastIs(s: string, c: char, n: nat)
    requires 0 < n <= |s| && s[n - 1] == c && forall i :: n <= i < |s| ==> s[i] != c
    ensures Text.AfterLast(s, c) == n
  {
  }

  lemma LastOfConcat(a: string, b: string, c: char)
    requires Text.AfterLast(b, c) > 0
    ensures Text.AfterLast(a + b, c) == |a| + Text.AfterLast(b, c)
  {
    hide Text.AfterLast;
    LastIs(a + b, c, |a| + Text.AfterLast(b, c));
  }

  lemma LastOfTail(alias: string, sid: string)
    requires '@' in sid
    ensures 0 < Text.AfterLast(sid, '@') && Text.AfterLast(alias + "@" + sid, '@') == |alias| + 1 + Text.AfterLast(sid, '@')
  {
    hide Text.AfterLast;
    var k :| 0 <= k < |sid| && sid[k] == '@';
    assert Text.AfterLast(sid, '@') > k;
    LastOfConcat(alias + "@", sid, '@');
  }

  /** A session of an inherited name, superseded and then retired, is woken by its bare id. */
  lemma SupersededMemberWakes()
    ensures var first := Register(EMPTY_REGISTRY, "constructor", Some("a"), 1, 1, 1).0;
            var (reg, receipt) := Register(first, "t", Some("a"), 2, 2, 2);
            && receipt.superseded == Some(Takeover("constructor", "a", Some(1)))
            && ResolveHostRouting(ParseAddress(Some("constructor")), reg).Dead?
            && ResolveHostRouting(ParseAddress(Some("constructor")), Unregister(reg, "constructor")) == Wake(false, {"constructor"})
  {
    InheritedNameWakes();
  }

  /** With an `@` in its id, a superseded session's address can wake its successor. */
  lemma SuccessorAnswersForTail()
    ensures var first := Register(EMPTY_REGISTRY, "x@t", Some("al"), 1, 1, 1).0;
            var (reg, receipt) := Register(first, "t", Some("al"), 2, 2, 2);
            && receipt.superseded == Some(Takeover("x@t", "al", Some(1)))
            && ResolveHostRouting(ParseAddress(Some("al" + "@" + "x@t")), reg) == Wake(false, {"t"})
  {
    assert "x@t"[1] == '@';
    AddressTail("al", "x@t");
    assert Text.AfterLast("x@t", '@') == 2;
    assert "x@t"[2..] == "t";
  }
}
