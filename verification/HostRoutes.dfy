/**
 * Exactly what an address text means and where it leads, in terms of the slots that carry an alias; and the same
 * for the older bridge's central view.
 */
module HostRoutes {
  import opened Wrappers
  import opened HostRegistry
  import opened HostAddressing
  import opened ObjectNames
  import PumpRouting
  import Text

  /** Every address text, read back from what it was parsed to. */
  lemma ParsedExactly(to: Option<string>)
    ensures ParseAddress(to).Invalid? <==> to.None? || to.value == ""
    ensures ParseAddress(to).Broadcast? <==> to == Some("*")
    ensures forall name :: ParseAddress(to) == Bare(name) <==> to == Some(name) && name != "" && name != "*" && '@' !in name
    ensures forall alias, sid :: ParseAddress(to) == Qualified(alias, sid) <==> to == Some(alias + "@" + sid) && '@' !in sid
  {
    if to.Some? {
      var text := to.value;
      var n := Text.AfterLast(text, '@');
      if n > 0 { assert text == text[..n - 1] + "@" + text[n..]; }
      forall alias: string, sid: string | text == alias + "@" + sid && '@' !in sid
        ensures ParseAddress(to) == Qualified(alias, sid)
      {
        AddressRoundTrip(alias, sid);
      }
    }
  }

  ghost predicate AllCarriers(reg: Registry, name: string, crowd: set<Sid>) {
    forall s :: s in crowd <==> Carries(reg, s, name)
  }

  /** Where a bare name without a slot leads: to the one live slot carrying it, and to nobody if there are none or several. */
  lemma BareExactly(reg: Registry, name: string, sid: Sid)
    requires name != "" && !Found(reg, name)
    ensures var routing := ResolveHostRouting(Bare(name), reg);
            && (routing == Wake(false, {sid}) <==>
                  Carries(reg, sid, name) && forall other :: Carries(reg, other, name) ==> other == sid)
            && (routing == Dead(GhostName) <==> forall other :: !Carries(reg, other, name))
            && (routing.Dead? && routing.death.AmbiguousAlias? <==>
                  exists one, other :: one != other && Carries(reg, one, name) && Carries(reg, other, name))
            && (routing.Dead? && routing.death.AmbiguousAlias? ==>
                  forall crowd :: AllCarriers(reg, name, crowd) ==> routing.death.holders == |crowd|)
            && (routing.Wake? ==> !routing.broadcast && |routing.sids| == 1)
  {
    hide Inherited;
    var holders := Holders(reg, name);
    forall s ensures s in holders <==> Carries(reg, s, name) {}
    CrowdCases(holders, sid);
    forall crowd | AllCarriers(reg, name, crowd) ensures crowd == holders {}
    hide Holders, Carries;
  }

  /** A set is empty, one session, or holds two. */
  lemma CrowdCases(crowd: set<Sid>, sid: Sid)
    ensures |crowd| == 0 <==> forall s :: s !in crowd
    ensures |crowd| == 1 && crowd == {sid} <==> sid in crowd && forall s :: s in crowd ==> s == sid
    ensures |crowd| > 1 <==> exists one, other :: one != other && one in crowd && other in crowd
  {
    if one :| one in crowd {
      var rest := crowd - {one};
      assert crowd == rest + {one};
      if other :| other in rest {
        assert |rest| > 0;
        assert one != other && one in crowd && other in crowd;
      } else {
        assert rest == {};
      }
    } else {
      assert crowd == {};
    }
    if sid in crowd && forall s :: s in crowd ==> s == sid { assert crowd == {sid}; }
  }

  /** An address of a session without a slot is a ghost, and the hints are the written-out live carriers of its alias. */
  lemma GhostExactly(reg: Registry, alias: string, sid: Sid)
    requires !Found(reg, sid)
    ensures var routing := ResolveHostRouting(Qualified(alias, sid), reg);
            && routing.Dead? && routing.death.GhostSession?
            && forall hint :: hint in routing.death.hints <==>
                 alias != "" && exists s :: Carries(reg, s, alias) && hint == alias + "@" + s
  {
    hide Inherited;
    var hints := ResolveHostRouting(Qualified(alias, sid), reg).death.hints;
    forall hint ensures hint in hints <==> alias != "" && exists s :: Carries(reg, s, alias) && hint == alias + "@" + s {
      if alias != "" && exists s :: Carries(reg, s, alias) && hint == alias + "@" + s {
        var s :| Carries(reg, s, alias) && hint == alias + "@" + s;
        assert s in Holders(reg, alias) && CanonicalOf(s, reg.consumers[s]) == hint;
      }
    }
  }

  /** A session that is found is woken by both its addresses if it is routable, and dead with a stale address if not. */
  lemma FoundExactly(reg: Registry, alias: string, sid: Sid)
    requires Found(reg, sid)
    ensures forall address :: address in {Qualified(alias, sid), Bare(sid)} ==>
              var routing := ResolveHostRouting(address, reg);
              if Routable(reg, sid) then routing == Wake(false, {sid}) else routing.Dead? && routing.death.StaleAddress?
  {
    hide Inherited;
  }

  /**
   * What the dead letter of a superseded slot says: its successor's written-out address as the successor's slot has
   * it now, or under the old slot's own alias if that slot is gone; and the generation the ledger has for the alias
   * the slot carries, or else the successor's.
   */
  lemma StaleExactly(reg: Registry, alias: string, sid: Sid)
    requires sid in reg.consumers && reg.consumers[sid].stale.Some?
    ensures var slot, heir := reg.consumers[sid], reg.consumers[sid].stale.value.supersededBy;
            var death := ResolveHostRouting(Qualified(alias, sid), reg).death;
            && ResolveHostRouting(Qualified(alias, sid), reg).Dead? && death.StaleAddress?
            && ResolveHostRouting(Bare(sid), reg) == Dead(death)
            && (heir in reg.consumers ==>
                  death.successor == match reg.consumers[heir].alias
                                     case None => heir
                                     case Some(now) => if now == "" then heir else now + "@" + heir)
            && (heir !in reg.consumers && !Inherited(heir) && slot.alias.Some? ==> death.successor == slot.alias.value + "@" + heir)
            && (heir !in reg.consumers && !Inherited(heir) && slot.alias.None? ==> death.successor == "?@" + heir)
            && (slot.alias.Some? && slot.alias.value in reg.aliases ==> death.epoch == Some(reg.aliases[slot.alias.value].epoch))
            && (slot.alias.Some? && slot.alias.value !in reg.aliases && !Inherited(slot.alias.value) ==>
                  death.epoch == if heir in reg.consumers then Some(reg.consumers[heir].epoch) else None)
  {
    hide Inherited;
  }

  // ---------------------------------------------------------------- the older bridge

  predicate CarriesThere(reg: PumpRouting.Consumers, sid: Sid, alias: string) {
    sid in reg && reg[sid].alias == Some(alias)
  }

  /** Where the central view leads a bare name that is not found: to its one carrier, and to nobody if there are none or several. */
  lemma CentralBareExactly(reg: PumpRouting.Consumers, name: string, sid: string)
    requires name != "" && !PumpRouting.Found(reg, name)
    ensures var routing := PumpRouting.ResolveCentral(Bare(name), reg);
            && (routing == PumpRouting.Wake(false, {sid}) <==>
                  CarriesThere(reg, sid, name) && forall other :: CarriesThere(reg, other, name) ==> other == sid)
            && (routing == PumpRouting.Dead(PumpRouting.UnknownName(name)) <==> forall other :: !CarriesThere(reg, other, name))
            && (routing.Dead? && routing.reason.Ambiguous? <==>
                  exists one, other :: one != other && CarriesThere(reg, one, name) && CarriesThere(reg, other, name))
            && (routing.Wake? ==> !routing.broadcast && |routing.sids| == 1)
  {
    hide Inherited;
    var holders := PumpRouting.Holders(reg, name);
    forall s ensures s in holders <==> CarriesThere(reg, s, name) {}
    CrowdCases(holders, sid);
    hide PumpRouting.Holders, CarriesThere;
  }

  /** Where it leads any other address: a found name to itself, a broadcast to everyone, anything else to nobody. */
  lemma CentralExactly(address: Address, reg: PumpRouting.Consumers)
    requires address.Bare? ==> PumpRouting.Found(reg, address.name)
    ensures var routing := PumpRouting.ResolveCentral(address, reg);
            match address
            case Broadcast => routing == if reg == map[] then PumpRouting.Skip else PumpRouting.Wake(true, reg.Keys)
            case Invalid => routing == PumpRouting.Dead(PumpRouting.MissingTo)
            case Qualified(_, sid) =>
              routing == if sid in reg || Inherited(sid) then PumpRouting.Wake(false, {sid})
                         else PumpRouting.Dead(PumpRouting.UnknownSession(sid))
            case Bare(name) => routing == PumpRouting.Wake(false, {name})
  {
    hide Inherited, PumpRouting.Holders;
    assert reg == map[] <==> reg.Keys == {};
  }
}
