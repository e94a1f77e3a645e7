/**
 * The registry as it is kept in its file: every operation reads the file through the normalisers,
 * changes the tables in place, and writes them back.
 */
module HostRegistryStore {
  import opened Wrappers
  import opened HostRegistry
  import opened HostRegistryLaws
  import opened ObjectNames
  import Spec = HostRegistry

  // ----------------------------------------------------------- file contents

  /** `since` is what its text reads as, which is nothing when it is no date. */
  datatype RawStale = RawStale(since: Option<int>, supersededBy: string, epoch: int)

  datatype RawSlot = RawSlot(alias: Option<string>, pid: int, armedAt: int, epoch: Option<int>, stale: Option<RawStale>)

  datatype RawLedger = RawLedger(epoch: Option<int>, holder: Option<string>)

  /** `aliases` is absent in files written before the ledger existed. */
  datatype Stored = Stored(consumers: map<string, RawSlot>, aliases: Option<map<string, RawLedger>>)

  function NonEmpty(s: Option<string>): Option<string> {
    if s.Some? && s.value != "" then s else None
  }

  function EpochOr0(epoch: Option<int>): nat {
    if epoch.Some? && epoch.value >= 0 then epoch.value else 0
  }

  function SanitizeStale(raw: Option<RawStale>): Option<Stale> {
    if raw.Some? && raw.value.supersededBy != "" && raw.value.epoch >= 0
    then Some(Stale(raw.value.since, raw.value.supersededBy, raw.value.epoch))
    else None
  }

  function SanitizeSlot(raw: RawSlot): Slot {
    Slot(NonEmpty(raw.alias), raw.pid, raw.armedAt, EpochOr0(raw.epoch), SanitizeStale(raw.stale))
  }

  function SanitizeConsumers(raw: map<string, RawSlot>): map<Sid, Slot> {
    map sid | sid in raw && sid != "" :: SanitizeSlot(raw[sid])
  }

  function SanitizeAliases(raw: map<string, RawLedger>): map<Alias, Ledger> {
    map alias | alias in raw && alias != "" :: Ledger(EpochOr0(raw[alias].epoch), NonEmpty(raw[alias].holder))
  }

  // -------------------------------------------------------------- normalisers

  function Bearers(consumers: map<Sid, Slot>, alias: Alias): set<Sid> {
    set sid | sid in consumers && consumers[sid].stale.None? && consumers[sid].alias == Some(alias)
  }

  function CarriedAliases(consumers: map<Sid, Slot>): set<Alias> {
    set sid | sid in consumers && consumers[sid].stale.None? && consumers[sid].alias.Some? :: consumers[sid].alias.value
  }

  /** The highest generation among the bearers of an alias. */
  predicate IsTopEpoch(consumers: map<Sid, Slot>, sids: set<Sid>, top: nat)
    requires sids <= consumers.Keys
  {
    (forall sid :: sid in sids ==> consumers[sid].epoch <= top)
    && (top == 0 || exists sid :: sid in sids && consumers[sid].epoch == top)
  }

  /** An alias with one bearer is held by it; with several it is nobody's. */
  predicate SoleHolder(sids: set<Sid>, holder: Option<Sid>) {
    if |sids| == 1 then holder.Some? && holder.value in sids else holder.None?
  }

  /** The carried aliases that are missed in the ledger: a lookup under an inherited name misses nothing. */
  function Missed(aliases: map<Alias, Ledger>, consumers: map<Sid, Slot>): set<Alias> {
    set a | a in CarriedAliases(consumers) && a !in aliases && !Inherited(a)
  }

  /** A ledger with the given entries, plus a derived entry for every carried alias that is missed. */
  ghost predicate Aligned(aliases: map<Alias, Ledger>, consumers: map<Sid, Slot>, out: map<Alias, Ledger>) {
    && out.Keys == aliases.Keys + Missed(aliases, consumers)
    && (forall a :: a in aliases ==> out[a] == aliases[a])
    && (forall a :: a in Missed(aliases, consumers) ==>
          && SoleHolder(Bearers(consumers, a), out[a].holder)
          && IsTopEpoch(consumers, Bearers(consumers, a), out[a].epoch))
  }

  /** A ledger derived from scratch starts every carried alias at generation zero. */
  ghost predicate Derived(consumers: map<Sid, Slot>, out: map<Alias, Ledger>) {
    && out.Keys == CarriedAliases(consumers)
    && (forall a :: a in out ==> out[a].epoch == 0 && SoleHolder(Bearers(consumers, a), out[a].holder))
  }

  /** The tables a file may be read as. */
  ghost predicate ReadsAs(file: Option<Stored>, reg: Registry) {
    match file
    case None => reg.consumers == map[] && reg.aliases == map[]
    case Some(stored) =>
      && reg.consumers == SanitizeConsumers(stored.consumers)
      && match stored.aliases
         case None => Derived(reg.consumers, reg.aliases)
         case Some(aliases) => Aligned(SanitizeAliases(aliases), reg.consumers, reg.aliases)
  }

  /** Serialization of the tables. */
  function Write(reg: Registry): Stored {
    Stored(map sid | sid in reg.consumers ::
             var slot := reg.consumers[sid];
             RawSlot(slot.alias, slot.pid, slot.armedAt, Some(slot.epoch),
                     if slot.stale.None? then None
                     else Some(RawStale(slot.stale.value.since, slot.stale.value.supersededBy, slot.stale.value.epoch))),
           Some(map alias | alias in reg.aliases :: RawLedger(Some(reg.aliases[alias].epoch), reg.aliases[alias].holder)))
  }

  /** Two states of one process with the same tables. */
  predicate SameTables(reg: Registry, other: Registry) {
    reg.consumers == other.consumers && reg.aliases == other.aliases
  }

  /** No empty names, which the normalisers would drop. */
  predicate Named(reg: Registry) {
    && "" !in reg.consumers && "" !in reg.aliases
    && (forall sid :: sid in reg.consumers ==>
          && reg.consumers[sid].alias != Some("")
          && (reg.consumers[sid].stale.Some? ==> reg.consumers[sid].stale.value.supersededBy != ""))
    && (forall a :: a in reg.aliases ==> reg.aliases[a].holder != Some(""))
  }

  /** Tables that survive a write and a read: no empty names, and a ledger entry for every carried alias that would be missed. */
  predicate Normal(reg: Registry) {
    Named(reg) && Missed(reg.aliases, reg.consumers) == {}
  }

  /** Round trip: what was written is what every reading yields. */
  lemma WriteThenRead(reg: Registry, again: Registry)
    requires Normal(reg) && ReadsAs(Some(Write(reg)), again)
    ensures SameTables(again, reg)
  {
    WrittenIsSane(reg);
    hide Write, SanitizeConsumers, SanitizeAliases, Bearers, SoleHolder, IsTopEpoch;
    assert again.consumers == reg.consumers;
    assert again.aliases.Keys == reg.aliases.Keys + {};
    assert again.aliases == reg.aliases;
  }

  lemma WrittenIsSane(reg: Registry)
    requires Normal(reg)
    ensures Write(reg).aliases.Some?
    ensures SanitizeConsumers(Write(reg).consumers) == reg.consumers
    ensures SanitizeAliases(Write(reg).aliases.value) == reg.aliases
  {
  }

  lemma NormalReadsBack(reg: Registry)
    requires Normal(reg)
    ensures ReadsAs(Some(Write(reg)), reg)
  {
    WrittenIsSane(reg);
    hide Write, SanitizeConsumers, SanitizeAliases;
  }

  /** Whatever the file holds, the tables read from it are normal. */
  lemma ReadIsNormal(file: Option<Stored>, reg: Registry)
    requires ReadsAs(file, reg)
    ensures Normal(reg)
  {
  }

  /** Slot by slot: what a file's entry is read as. Empty names and malformed marks are dropped, and an entry without a generation gets zero. */
  lemma SlotsReadExactly(stored: Stored, reg: Registry, sid: Sid)
    requires ReadsAs(Some(stored), reg)
    ensures sid in reg.consumers <==> sid in stored.consumers && sid != ""
    ensures sid in reg.consumers ==>
              var raw, slot := stored.consumers[sid], reg.consumers[sid];
              && (forall alias :: slot.alias == Some(alias) <==> raw.alias == Some(alias) && alias != "")
              && slot.pid == raw.pid && slot.armedAt == raw.armedAt
              && slot.epoch == (match raw.epoch case None => 0 case Some(n) => if n >= 0 then n else 0)
              && (slot.stale.Some? <==> raw.stale.Some? && raw.stale.value.supersededBy != "" && raw.stale.value.epoch >= 0)
              && (slot.stale.Some? ==>
                    slot.stale.value == Stale(raw.stale.value.since, raw.stale.value.supersededBy, raw.stale.value.epoch))
  {
    hide Aligned, Derived;
  }

  lemma SoleHolderMeans(consumers: map<Sid, Slot>, alias: Alias, holder: Option<Sid>)
    requires SoleHolder(Bearers(consumers, alias), holder)
    ensures forall sid :: holder == Some(sid) <==>
              sid in Bearers(consumers, alias) && forall other :: other in Bearers(consumers, alias) ==> other == sid
  {
    var bearers := Bearers(consumers, alias);
    hide Bearers;
    if |bearers| == 1 {
      var rest := bearers - {holder.value};
      assert bearers == rest + {holder.value} && |rest| == 0;
    } else {
      forall sid | sid in bearers ensures exists other :: other in bearers && other != sid {
        var rest := bearers - {sid};
        assert bearers == rest + {sid} && |rest| > 0;
        var other :| other in rest;
      }
    }
  }

  lemma CarriedMeans(reg: Registry, alias: Alias)
    ensures alias in CarriedAliases(reg.consumers) <==> exists sid :: Carries(reg, sid, alias)
  {
    if alias in CarriedAliases(reg.consumers) {
      var sid :| sid in reg.consumers && reg.consumers[sid].stale.None? && reg.consumers[sid].alias == Some(alias);
      assert Carries(reg, sid, alias);
    }
    if sid :| Carries(reg, sid, alias) {
      assert sid in reg.consumers && reg.consumers[sid].alias.value == alias;
    }
  }

  /**
   * Entry by entry: what a file's ledger is read as. Stored entries are kept; a file from before the ledger gets
   * generation zero for every alias a live slot carries; a later one only the entries that a lookup would miss,
   * at the highest generation carried. A derived entry is held by its one live carrier, if there is one.
   */
  lemma LedgerReadExactly(stored: Stored, reg: Registry, alias: Alias)
    requires ReadsAs(Some(stored), reg)
    ensures var kept := stored.aliases.Some? && alias in stored.aliases.value && alias != "";
            var carried := exists sid :: Carries(reg, sid, alias);
            && (alias in reg.aliases <==> kept || (carried && (stored.aliases.Some? ==> !Inherited(alias))))
            && (kept ==>
                  var raw := stored.aliases.value[alias];
                  && reg.aliases[alias].epoch == (match raw.epoch case None => 0 case Some(n) => if n >= 0 then n else 0)
                  && (forall sid :: reg.aliases[alias].holder == Some(sid) <==> raw.holder == Some(sid) && sid != ""))
            && (alias in reg.aliases && !kept ==>
                  && (forall sid :: reg.aliases[alias].holder == Some(sid) <==>
                        Carries(reg, sid, alias) && forall other :: Carries(reg, other, alias) ==> other == sid)
                  && (stored.aliases.None? ==> reg.aliases[alias].epoch == 0)
                  && (stored.aliases.Some? ==>
                        && (forall sid :: Carries(reg, sid, alias) ==> reg.consumers[sid].epoch <= reg.aliases[alias].epoch)
                        && (reg.aliases[alias].epoch > 0 ==>
                              exists sid :: Carries(reg, sid, alias) && reg.consumers[sid].epoch == reg.aliases[alias].epoch)))
  {
    hide Inherited;
    var bearers := Bearers(reg.consumers, alias);
    forall sid ensures sid in bearers <==> Carries(reg, sid, alias) {}
    CarriedMeans(reg, alias);
    if alias in reg.aliases && SoleHolder(bearers, reg.aliases[alias].holder) {
      SoleHolderMeans(reg.consumers, alias, reg.aliases[alias].holder);
    }
    hide Bearers, CarriedAliases, SoleHolder, Carries;
  }

  /** No carried alias is missed in the ledger. */
  ghost predicate NothingMissed(reg: Registry) {
    forall sid, alias :: Carries(reg, sid, alias) && !Inherited(alias) ==> alias in reg.aliases
  }

  lemma NothingMissedMeans(reg: Registry)
    ensures NothingMissed(reg) <==> Missed(reg.aliases, reg.consumers) == {}
  {
    if Missed(reg.aliases, reg.consumers) == {} {
      forall sid, alias | Carries(reg, sid, alias) && !Inherited(alias) ensures alias in reg.aliases {
        assert alias in CarriedAliases(reg.consumers);
        assert alias !in Missed(reg.aliases, reg.consumers);
      }
    } else {
      var alias :| alias in Missed(reg.aliases, reg.consumers);
      var sid :| sid in reg.consumers && reg.consumers[sid].stale.None? && reg.consumers[sid].alias == Some(alias);
      assert Carries(reg, sid, alias);
    }
  }

  lemma NextMissesNothing(reg: Registry, step: Step)
    requires NothingMissed(reg)
    ensures NothingMissed(Next(reg, step))
  {
    var reg' := Next(reg, step);
    forall sid, alias | Carries(reg', sid, alias) && !Inherited(alias) ensures alias in reg'.aliases {
      if !(step.Arm? && step.sid == sid) { assert Carries(reg, sid, alias); }
    }
  }

  lemma NextIsNamed(reg: Registry, step: Step)
    requires Named(reg) && (step.Arm? ==> step.sid != "")
    ensures Named(Next(reg, step))
  {
    hide Inherited, Foreign, Outdated;
    match step
    case Arm(sid, alias, pid, armedAt, now) => RegisterIsNamed(reg, sid, alias, pid, armedAt, now);
    case Retire(sid) =>
    case Sweep(retention, now) =>
  }

  predicate NamedSlots(consumers: map<Sid, Slot>) {
    "" !in consumers
    && forall sid :: sid in consumers ==>
         && consumers[sid].alias != Some("")
         && (consumers[sid].stale.Some? ==> consumers[sid].stale.value.supersededBy != "")
  }

  lemma SupersededIsNamed(reg: Registry, oldSid: Sid, spared: Option<Sid>, sid: Sid, alias: Alias, now: int)
    requires NamedSlots(reg.consumers) && sid != ""
    ensures NamedSlots(Superseded(reg, oldSid, spared, sid, alias, now))
  {
    hide Outdated;
  }

  lemma RegisterIsNamed(reg: Registry, sid: Sid, requested: Option<string>, pid: int, armedAt: int, now: int)
    requires Named(reg) && sid != ""
    ensures Named(Spec.Register(reg, sid, requested, pid, armedAt, now).0)
  {
    hide Inherited, Superseded, LetGo, Released, SlotAlias, ForeignHolder, EpochOf, KeptEpoch, NextEpoch, Displaced;
    if GivenAlias(requested).Some? {
      var alias := GivenAlias(requested).value;
      var taken := if Foreign(reg, alias) then reg.aliases else reg.aliases[alias := Ledger(NextEpoch(reg, sid, alias), Some(sid))];
      LetGoIsNamed(reg, taken, sid, Released(reg, sid, alias).GetOr(alias));
      if Foreign(reg, alias) {
        var oldSid := ForeignHolder(reg, alias);
        SupersededIsNamed(reg, oldSid, if alias in reg.noted then Some(oldSid) else None, sid, alias, now);
      } else if Displaced(reg, sid, alias).Some? {
        SupersededIsNamed(reg, Displaced(reg, sid, alias).value, Displaced(reg, sid, alias), sid, alias, now);
      }
    }
  }

  predicate NamedLedger(aliases: map<Alias, Ledger>) {
    "" !in aliases && forall a :: a in aliases ==> aliases[a].holder != Some("")
  }

  lemma LetGoIsNamed(reg: Registry, aliases: map<Alias, Ledger>, sid: Sid, alias: Alias)
    requires NamedLedger(aliases)
    ensures NamedLedger(LetGo(reg, aliases, sid, alias))
  {
  }

  /** Every operation with a non-empty session id keeps the tables normal. */
  lemma NextIsNormal(reg: Registry, step: Step)
    requires Normal(reg) && (step.Arm? ==> step.sid != "")
    ensures Normal(Next(reg, step))
  {
    hide Missed, CarriedAliases, NothingMissed, Named, Next;
    NextIsNamed(reg, step);
    NothingMissedMeans(reg);
    NextMissesNothing(reg, step);
    NothingMissedMeans(Next(reg, step));
  }

  /**
   * A file from before the ledger reads as a good registry exactly when no alias of a name that is not
   * inherited is borne by two live slots, and every bearer of one is of generation zero.
   */
  lemma MigratedGoodExactly(stored: Stored, reg: Registry)
    requires ReadsAs(Some(stored), reg) && stored.aliases.None?
    ensures LedgerNamesLive(reg) <==>
            && Unambiguous(reg)
            && forall sid, alias :: Carries(reg, sid, alias) && !Inherited(alias) ==> reg.consumers[sid].epoch == 0
  {
    forall sid, alias | Carries(reg, sid, alias)
      ensures alias in reg.aliases && reg.aliases[alias].epoch == 0 && sid in Bearers(reg.consumers, alias)
    {
      assert alias in CarriedAliases(reg.consumers);
    }
    if Unambiguous(reg) && forall sid, alias :: Carries(reg, sid, alias) && !Inherited(alias) ==> reg.consumers[sid].epoch == 0 {
      forall sid, alias | Carries(reg, sid, alias) && !Inherited(alias) ensures reg.aliases[alias].holder == Some(sid) {
        var bearers := Bearers(reg.consumers, alias);
        forall s | s in bearers ensures s == sid { assert Carries(reg, s, alias); }
        assert bearers == {sid};
      }
    }
  }

  // -------------------------------------------------------------- the loops

  /** Bucket the live slots by alias. */
  method ByAlias(consumers: map<Sid, Slot>) returns (index: map<Alias, set<Sid>>)
    ensures index.Keys == CarriedAliases(consumers)
    ensures forall a :: a in index ==> index[a] == Bearers(consumers, a)
  {
    index := map[];
    var rest := consumers.Keys;
    ghost var done: set<Sid> := {};
    while rest != {}
      invariant done !! rest && done + rest == consumers.Keys
      invariant forall a :: a in index ==> index[a] == Bearers(consumers, a) * done && index[a] != {}
      invariant forall a :: a !in index ==> Bearers(consumers, a) * done == {}
      decreases rest
    {
      var sid :| sid in rest;
      rest := rest - {sid};
      var slot := consumers[sid];
      ghost var before := done;
      done := done + {sid};
      if slot.stale.Some? || slot.alias.None? {
        assert forall a :: Bearers(consumers, a) * done == Bearers(consumers, a) * before;
        continue;
      }
      var alias := slot.alias.value;
      assert forall a :: a != alias ==> Bearers(consumers, a) * done == Bearers(consumers, a) * before;
      assert Bearers(consumers, alias) * done == Bearers(consumers, alias) * before + {sid};
      index := index[alias := (if alias in index then index[alias] else {}) + {sid}];
    }
    assert done == consumers.Keys;
    assert forall a :: Bearers(consumers, a) * done == Bearers(consumers, a);
    forall a ensures a in index <==> a in CarriedAliases(consumers) {
      if a in CarriedAliases(consumers) {
        var sid :| sid in consumers && consumers[sid].stale.None? && consumers[sid].alias == Some(a);
        assert sid in Bearers(consumers, a);
      }
      if a in index {
        var sid :| sid in index[a];
      }
    }
  }

  method TopEpoch(consumers: map<Sid, Slot>, sids: set<Sid>) returns (top: nat)
    requires sids <= consumers.Keys
    ensures IsTopEpoch(consumers, sids, top)
  {
    top := 0;
    var rest := sids;
    while rest != {}
      invariant rest <= sids && IsTopEpoch(consumers, sids - rest, top)
      decreases rest
    {
      var sid :| sid in rest;
      rest := rest - {sid};
      if consumers[sid].epoch > top {
        top := consumers[sid].epoch;
        assert sid in sids - rest;
      }
    }
    assert sids - rest == sids;
  }

  method HolderOf(sids: set<Sid>) returns (holder: Option<Sid>)
    ensures SoleHolder(sids, holder)
  {
    if |sids| == 1 {
      var sid :| sid in sids;
      holder := Some(sid);
    } else {
      holder := None;
    }
  }

  method DeriveAliases(consumers: map<Sid, Slot>) returns (aliases: map<Alias, Ledger>)
    ensures Derived(consumers, aliases)
  {
    var index := ByAlias(consumers);
    aliases := map[];
    var rest := index.Keys;
    while rest != {}
      invariant rest <= index.Keys && aliases.Keys == index.Keys - rest
      invariant forall a :: a in aliases ==> aliases[a].epoch == 0 && SoleHolder(index[a], aliases[a].holder)
      decreases rest
    {
      var alias :| alias in rest;
      rest := rest - {alias};
      var holder := HolderOf(index[alias]);
      aliases := aliases[alias := Ledger(0, holder)];
    }
  }

  method AlignAliases(aliases: map<Alias, Ledger>, consumers: map<Sid, Slot>) returns (out: map<Alias, Ledger>)
    ensures Aligned(aliases, consumers, out)
  {
    hide Inherited, IsTopEpoch, SoleHolder, CarriedAliases;
    var index := ByAlias(consumers);
    out := aliases;
    var rest := index.Keys;
    while rest != {}
      invariant rest <= index.Keys && out.Keys == aliases.Keys + (Missed(aliases, consumers) - rest)
      invariant forall a :: a in aliases ==> out[a] == aliases[a]
      invariant forall a :: a in Missed(aliases, consumers) && a !in rest ==>
                  SoleHolder(index[a], out[a].holder) && IsTopEpoch(consumers, index[a], out[a].epoch)
      decreases rest
    {
      var alias :| alias in rest;
      rest := rest - {alias};
      if alias !in out && !Inherited(alias) {
        var top := TopEpoch(consumers, index[alias]);
        var holder := HolderOf(index[alias]);
        out := out[alias := Ledger(top, holder)];
      }
    }
  }

  /** The file, with the operations that rewrite it, and what the process has noted. One operation is one uninterrupted step. */
  class RegistryFile {
    var file: Option<Stored>
    var noted: map<Alias, Sid>

    /** The tables the file stands for, when it is one this class wrote. */
    ghost predicate Holds(reg: Registry)
      reads this
    {
      Normal(reg) && ReadsAs(file, reg) && reg.noted == noted
    }

    /** A process starts over whatever file there is, with nothing noted. */
    constructor (file: Option<Stored>)
      ensures this.file == file && noted == map[]
    {
      this.file := file;
      noted := map[];
    }

    method Read() returns (reg: Registry)
      ensures Holds(reg)
      ensures forall other :: Holds(other) && (file.None? || file == Some(Write(other))) ==> reg == other
    {
      if file.None? {
        reg := Registry(map[], map[], noted);
      } else {
        var consumers := SanitizeConsumers(file.value.consumers);
        var aliases: map<Alias, Ledger>;
        if file.value.aliases.None? {
          aliases := DeriveAliases(consumers);
        } else {
          aliases := AlignAliases(SanitizeAliases(file.value.aliases.value), consumers);
        }
        reg := Registry(consumers, aliases, noted);
      }
      ReadIsNormal(file, reg);
      forall other | Holds(other) && file == Some(Write(other)) ensures reg == other {
        WriteThenRead(other, reg);
      }
    }

    /**
     * Register or renew: the tables read are the ones the change is computed from, and the ones written. An
     * empty session id is written too, but no reading yields it.
     */
    method Register(sid: Sid, requested: Option<string>, pid: int, armedAt: int, now: int)
      returns (reg: Registry, receipt: Receipt, ghost before: Registry)
      modifies this
      ensures old(Holds(before))
      ensures (reg, receipt) == Spec.Register(before, sid, requested, pid, armedAt, now)
      ensures file == Some(Write(reg)) && noted == reg.noted
      ensures sid != "" ==> Holds(reg)
    {
      hide Normal, ReadsAs, Write, Spec.Register, Spec.Next;
      var read := Read();
      before := read;
      reg, receipt := Enter(read, sid, requested, pid, armedAt, now);
      if sid != "" {
        ArmIsNormal(read, sid, requested, pid, armedAt, now);
        NormalReadsBack(reg);
      }
      file := Some(Write(reg));
      noted := reg.noted;
    }

    method Unregister(sid: Sid) returns (reg: Registry, ghost before: Registry)
      modifies this
      ensures old(Holds(before))
      ensures reg == Spec.Unregister(before, sid) && noted == old(noted)
      ensures Found(before, sid) ==> Holds(reg) && file == Some(Write(reg))
      ensures !Found(before, sid) ==> file == old(file)
    {
      hide Normal, ReadsAs, Write;
      var read := Read();
      before := read;
      reg := read;
      if Found(reg, sid) {
        var alias := SlotAlias(reg, sid);
        reg := reg.(consumers := reg.consumers - {sid});
        if alias.Some? { reg := reg.(aliases := LetGo(read, reg.aliases, sid, alias.value)); }
        NextIsNormal(read, Retire(sid));
        NormalReadsBack(reg);
        file := Some(Write(reg));
      }
    }

    method Prune(retention: int, now: int) returns (pruned: set<Sid>, ghost before: Registry)
      modifies this
      ensures old(Holds(before)) && noted == old(noted)
      ensures pruned == ExpiredSlots(before, retention, now)
      ensures pruned != {} ==>
                var reg := Spec.Prune(before, retention, now);
                Holds(reg) && file == Some(Write(reg))
      ensures pruned == {} ==> file == old(file) && Spec.Prune(before, retention, now) == before
    {
      hide Normal, ReadsAs, Write;
      var read := Read();
      before := read;
      var consumers := read.consumers;
      pruned := {};
      var rest := consumers.Keys;
      while rest != {}
        invariant rest <= read.consumers.Keys
        invariant pruned == ExpiredSlots(read, retention, now) - rest
        invariant consumers == read.consumers - pruned
        decreases rest
      {
        var sid :| sid in rest;
        rest := rest - {sid};
        if Expired(read.consumers[sid], retention, now) {
          consumers := consumers - {sid};
          pruned := pruned + {sid};
        }
      }
      if pruned != {} {
        var reg := Registry(consumers, read.aliases, noted);
        assert reg == Spec.Prune(read, retention, now);
        NextIsNormal(read, Sweep(retention, now));
        NormalReadsBack(reg);
        file := Some(Write(reg));
      } else {
        assert read.consumers - ExpiredSlots(read, retention, now) == read.consumers;
      }
    }
  }

  lemma ArmIsNormal(reg: Registry, sid: Sid, requested: Option<string>, pid: int, armedAt: int, now: int)
    requires Normal(reg) && sid != ""
    ensures Normal(Spec.Register(reg, sid, requested, pid, armedAt, now).0)
  {
    NextIsNormal(reg, Arm(sid, requested, pid, armedAt, now));
  }

  /** The takeover's deletion loop; a session that is merely missing spares nobody. */
  method DropOutdated(all: map<Sid, Slot>, spared: Option<Sid>, alias: Alias) returns (consumers: map<Sid, Slot>)
    ensures consumers == all - Outdated(all, spared, alias)
  {
    consumers := all;
    var rest := all.Keys;
    while rest != {}
      invariant rest <= all.Keys
      invariant consumers == all - (Outdated(all, spared, alias) - rest)
      decreases rest
    {
      var sid :| sid in rest;
      rest := rest - {sid};
      if Some(sid) != spared && all[sid].stale.Some? && all[sid].alias == Some(alias) {
        consumers := consumers - {sid};
      }
    }
    assert Outdated(all, spared, alias) - rest == Outdated(all, spared, alias);
  }

  /** The ledger a registration finds under its alias: an entry, an inherited member, or a new entry. */
  datatype FoundLedger = Entry(ledger: Ledger) | Member(noted: Option<Sid>)

  function LookUp(reg: Registry, alias: Alias): FoundLedger {
    if alias in reg.aliases then Entry(reg.aliases[alias])
    else if Inherited(alias) then Member(if alias in reg.noted then Some(reg.noted[alias]) else None)
    else Entry(Ledger(0, None))
  }

  /** The in-place change of a registration, on the tables just read. */
  method Enter(read: Registry, sid: Sid, requested: Option<string>, pid: int, armedAt: int, now: int)
    returns (reg: Registry, receipt: Receipt)
    ensures (reg, receipt) == Spec.Register(read, sid, requested, pid, armedAt, now)
  {
    var consumers, aliases, noted := read.consumers, read.aliases, read.noted;
    var alias := GivenAlias(requested);
    var slot := SlotOf(read, sid);
    var superseded: Option<Takeover> := None;
    var epoch: Epoch := KeptEpoch(read, sid);
    var held := false;
    if alias.Some? {
      var name := alias.value;
      var found := LookUp(read, name);
      match found {
        case Entry(entry) =>
          var ledger := entry;
          if ledger.holder.Some? && ledger.holder.value != sid {
            var oldSid := ledger.holder.value;
            superseded := Some(Takeover(oldSid, name, EpochOf(read, oldSid, Some(ledger.epoch))));
            ledger := Ledger(ledger.epoch + 1, Some(sid));
            consumers := PushOut(read, oldSid, Some(oldSid), sid, name, now);
          } else if ledger.holder.None? {
            ledger := Ledger(ledger.epoch + 1, Some(sid));
          }
          epoch := Some(ledger.epoch);
          aliases := aliases[name := ledger];
        case Member(last) =>
          if last != Some(sid) {
            var oldSid := ForeignHolder(read, name);
            superseded := Some(Takeover(oldSid, name, EpochOf(read, oldSid, None)));
            consumers := PushOut(read, oldSid, last, sid, name, now);
          }
          assert last == Some(sid) ==> noted == noted[name := sid];
          noted := noted[name := sid];
          epoch := None;
      }
      var before := Released(read, sid, name);
      if before.Some? { aliases := LetGo(read, aliases, sid, before.value); }
      held := found.Member? || aliases[name].holder == Some(sid);
    }
    consumers := consumers[sid := Slot(alias, pid, armedAt, epoch.GetOr(0), if held then None else slot.stale)];
    reg := Registry(consumers, aliases, noted);
    receipt := Receipt(if alias.Some? then alias.value + "@" + sid else sid, epoch, superseded);
  }

  /** Mark the pushed out session's slot, if it has one, and drop the alias's older generations. */
  method PushOut(read: Registry, oldSid: Sid, spared: Option<Sid>, sid: Sid, alias: Alias, now: int)
    returns (consumers: map<Sid, Slot>)
    ensures consumers == Superseded(read, oldSid, spared, sid, alias, now)
  {
    consumers := read.consumers;
    if oldSid in consumers {
      consumers := consumers[oldSid := consumers[oldSid].(stale := Some(Stale(Some(now), sid, consumers[oldSid].epoch)))];
    }
    consumers := DropOutdated(consumers, spared, alias);
  }
}
