/**
 * The alias-generation registry: which sessions are registered, and a ledger that gives every alias
 * its current generation and holder. What a register, an unregister and a prune do, as functions.
 * Lookups follow the code: a name that every object inherits is found without an entry.
 */
module HostRegistry {
  import opened Wrappers
  import opened ObjectNames

  type Sid = string
  type Alias = string

  /** Mark of a superseded generation; `since` is absent when its text is no date. */
  datatype Stale = Stale(since: Option<int>, supersededBy: Sid, epoch: nat)

  datatype Slot = Slot(alias: Option<Alias>, pid: int, armedAt: int, epoch: nat, stale: Option<Stale>)

  datatype Ledger = Ledger(epoch: nat, holder: Option<Sid>)

  /**
   * The two tables, and what is left on inherited members by registrations under their names: the session
   * that was noted there last. That note belongs to the process and is in no file.
   */
  datatype Registry = Registry(consumers: map<Sid, Slot>, aliases: map<Alias, Ledger>, noted: map<Alias, Sid>)

  const EMPTY_REGISTRY := Registry(map[], map[], map[])

  /** An epoch as it is computed; `None` is not a number. A file keeps it as zero. */
  type Epoch = Option<nat>

  datatype Takeover = Takeover(sessionId: Sid, alias: Alias, epoch: Epoch)

  datatype Receipt = Receipt(signature: string, epoch: Epoch, superseded: Option<Takeover>)

  /** A slot that takes part in routing. */
  predicate Live(reg: Registry, sid: Sid) {
    sid in reg.consumers && reg.consumers[sid].stale.None?
  }

  predicate Carries(reg: Registry, sid: Sid, alias: Alias) {
    Live(reg, sid) && reg.consumers[sid].alias == Some(alias)
  }

  function GivenAlias(alias: Option<string>): Option<Alias> {
    if alias.Some? && alias.value != "" then alias else None
  }

  function SlotOf(reg: Registry, sid: Sid): Slot {
    if sid in reg.consumers then reg.consumers[sid] else Slot(None, 0, 0, 0, None)
  }

  function LedgerOf(reg: Registry, alias: Alias): Ledger {
    if alias in reg.aliases then reg.aliases[alias] else Ledger(0, None)
  }

  /** The session a registration under `alias` pushes out, if another one holds it. */
  function Displaced(reg: Registry, sid: Sid, alias: Alias): Option<Sid> {
    var holder := LedgerOf(reg, alias).holder;
    if holder.Some? && holder.value != sid then holder else None
  }

  /** A new holder, or the first one after a vacancy, opens the next generation. */
  function NextEpoch(reg: Registry, sid: Sid, alias: Alias): nat {
    var ledger := LedgerOf(reg, alias);
    if ledger.holder == Some(sid) then ledger.epoch else ledger.epoch + 1
  }

  /** The alias has no ledger entry, but its name finds an inherited member that is taken for one. */
  predicate Foreign(reg: Registry, alias: Alias) {
    Inherited(alias) && alias !in reg.aliases
  }

  /** The session whose slot a registration under a foreign alias pushes out; at first the missing holder names one. */
  function ForeignHolder(reg: Registry, alias: Alias): Sid {
    if alias in reg.noted then reg.noted[alias] else "undefined"
  }

  function EpochOf(reg: Registry, sid: Sid, otherwise: Epoch): Epoch {
    if sid in reg.consumers then Some(reg.consumers[sid].epoch) else otherwise
  }

  /** The epoch a registration without an alias reports: of its slot, or of the inherited member found in its place. */
  function KeptEpoch(reg: Registry, sid: Sid): Epoch {
    if sid !in reg.consumers && Inherited(sid) && sid in reg.noted then None else Some(SlotOf(reg, sid).epoch)
  }

  /** The alias a slot carries as the code sees it: an inherited member found in its place has it undefined. */
  function SlotAlias(reg: Registry, sid: Sid): Option<Alias> {
    if sid in reg.consumers then reg.consumers[sid].alias
    else if Inherited(sid) then Some("undefined") else None
  }

  /** Slots of older generations of the alias, dropped on a takeover. */
  function Outdated(consumers: map<Sid, Slot>, spared: Option<Sid>, alias: Alias): set<Sid> {
    set s | s in consumers && Some(s) != spared && consumers[s].stale.Some? && consumers[s].alias == Some(alias)
  }

  function Marked(reg: Registry, oldSid: Sid, sid: Sid, now: int): map<Sid, Slot> {
    if oldSid in reg.consumers
    then reg.consumers[oldSid := reg.consumers[oldSid].(stale := Some(Stale(Some(now), sid, reg.consumers[oldSid].epoch)))]
    else reg.consumers
  }

  /** The consumers after `oldSid` was pushed out of `alias` by `sid`. */
  function Superseded(reg: Registry, oldSid: Sid, spared: Option<Sid>, sid: Sid, alias: Alias, now: int): map<Sid, Slot> {
    var marked := Marked(reg, oldSid, sid, now);
    marked - Outdated(marked, spared, alias)
  }

  /** The ledger after `sid` let go of an alias it may hold. A holder noted on an inherited member is copied down and cleared. */
  function LetGo(reg: Registry, aliases: map<Alias, Ledger>, sid: Sid, alias: Alias): map<Alias, Ledger> {
    if alias in aliases then
      if aliases[alias].holder == Some(sid) then aliases[alias := aliases[alias].(holder := None)] else aliases
    else if Inherited(alias) && alias in reg.noted && reg.noted[alias] == sid then aliases[alias := Ledger(0, None)]
    else aliases
  }

  /** The alias a registration under `alias` makes the session let go of. */
  function Released(reg: Registry, sid: Sid, alias: Alias): Option<Alias> {
    if sid in reg.consumers && SlotAlias(reg, sid) == Some(alias) then None else SlotAlias(reg, sid)
  }

  /** The ledger after `sid` took or renewed `alias`, having let go of the alias its slot carried before. */
  function Booked(reg: Registry, sid: Sid, alias: Alias): map<Alias, Ledger> {
    var taken := if Foreign(reg, alias) then reg.aliases else reg.aliases[alias := Ledger(NextEpoch(reg, sid, alias), Some(sid))];
    var before := Released(reg, sid, alias);
    if before.Some? then LetGo(reg, taken, sid, before.value) else taken
  }

  /** A registration under a foreign alias: no generation is a number, and no ledger entry is stored. */
  function RegisterForeign(reg: Registry, sid: Sid, alias: Alias, pid: int, armedAt: int, now: int): (Registry, Receipt)
    requires Foreign(reg, alias)
  {
    var oldSid := ForeignHolder(reg, alias);
    var renewed := alias in reg.noted && oldSid == sid;
    var spared := if alias in reg.noted then Some(oldSid) else None;
    var kept := if renewed then reg.consumers else Superseded(reg, oldSid, spared, sid, alias, now);
    (Registry(kept[sid := Slot(Some(alias), pid, armedAt, 0, None)], Booked(reg, sid, alias), reg.noted[alias := sid]),
     Receipt(alias + "@" + sid, None, if renewed then None else Some(Takeover(oldSid, alias, EpochOf(reg, oldSid, None)))))
  }

  function Register(reg: Registry, sid: Sid, requested: Option<string>, pid: int, armedAt: int, now: int):
    (Registry, Receipt)
  {
    var slot := SlotOf(reg, sid);
    match GivenAlias(requested)
    case None =>
      (reg.(consumers := reg.consumers[sid := Slot(None, pid, armedAt, slot.epoch, slot.stale)]),
       Receipt(sid, KeptEpoch(reg, sid), None))
    case Some(alias) =>
      if Foreign(reg, alias) then RegisterForeign(reg, sid, alias, pid, armedAt, now)
      else
        var epoch := NextEpoch(reg, sid, alias);
        var oldSid := Displaced(reg, sid, alias);
        var kept := if oldSid.Some? then Superseded(reg, oldSid.value, oldSid, sid, alias, now) else reg.consumers;
        var superseded :=
          if oldSid.Some? then Some(Takeover(oldSid.value, alias, EpochOf(reg, oldSid.value, Some(LedgerOf(reg, alias).epoch)))) else None;
        var aliases := Booked(reg, sid, alias);
        var stale := if aliases[alias].holder == Some(sid) then None else slot.stale;
        (Registry(kept[sid := Slot(Some(alias), pid, armedAt, epoch, stale)], aliases, reg.noted),
         Receipt(alias + "@" + sid, Some(epoch), superseded))
  }

  /** A lookup under the session's id finds something: its slot, or an inherited member. */
  predicate Found(reg: Registry, sid: Sid) {
    sid in reg.consumers || Inherited(sid)
  }

  /** Clean retirement: the slot goes, the alias it carried becomes vacant, the generation stays. */
  function Unregister(reg: Registry, sid: Sid): Registry {
    if !Found(reg, sid) then reg
    else
      var alias := SlotAlias(reg, sid);
      reg.(consumers := reg.consumers - {sid},
           aliases := if alias.Some? then LetGo(reg, reg.aliases, sid, alias.value) else reg.aliases)
  }

  /** A mark without a date never expires. */
  predicate Expired(slot: Slot, retention: int, now: int) {
    slot.stale.Some? && slot.stale.value.since.Some? && now - slot.stale.value.since.value > retention
  }

  function ExpiredSlots(reg: Registry, retention: int, now: int): set<Sid> {
    set s | s in reg.consumers && Expired(reg.consumers[s], retention, now)
  }

  /** The undertaker drops expired stale slots and never touches the ledger. */
  function Prune(reg: Registry, retention: int, now: int): Registry {
    reg.(consumers := reg.consumers - ExpiredSlots(reg, retention, now))
  }

  // -------------------------------------------------------------------- runs

  datatype Step =
    | Arm(sid: Sid, alias: Option<string>, pid: int, armedAt: int, now: int)
    | Retire(sid: Sid)
    | Sweep(retention: int, now: int)

  /** What a registration with an alias issued. */
  datatype Issue = Issue(alias: Alias, epoch: Epoch, sid: Sid)

  function Next(reg: Registry, step: Step): Registry {
    match step
    case Arm(sid, alias, pid, armedAt, now) => Register(reg, sid, alias, pid, armedAt, now).0
    case Retire(sid) => Unregister(reg, sid)
    case Sweep(retention, now) => Prune(reg, retention, now)
  }

  function Issued(reg: Registry, step: Step): seq<Issue> {
    if step.Arm? && GivenAlias(step.alias).Some?
    then [Issue(step.alias.value, Register(reg, step.sid, step.alias, step.pid, step.armedAt, step.now).1.epoch, step.sid)]
    else []
  }

  function Run(reg: Registry, steps: seq<Step>): Registry {
    if steps == [] then reg else Next(Run(reg, steps[..|steps| - 1]), steps[|steps| - 1])
  }

  /** Every generation issued along a run, oldest first. */
  function History(reg: Registry, steps: seq<Step>): seq<Issue> {
    if steps == [] then []
    else
      var before := steps[..|steps| - 1];
      History(reg, before) + Issued(Run(reg, before), steps[|steps| - 1])
  }
}
