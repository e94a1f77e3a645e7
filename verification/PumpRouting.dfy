/**
 * The older bridge: every consumer runs its own loop over one inbox and routes for itself; one of them,
 * the undertaker, buries the lines nobody can be woken for.
 */
module PumpRouting {
  import opened Wrappers
  import opened DedupKeys
  import HostAddressing
  import opened ObjectNames
  import Text

  type Sid = string

  /** A registered consumer; `armedAt` is a timestamp text, absent in old files. */
  datatype Slot = Slot(alias: Option<string>, armedAt: Option<string>)

  type Consumers = map<Sid, Slot>

  datatype Reason = MissingTo | UnknownSession(sid: Sid) | UnknownName(name: string) | Ambiguous(alias: string, holders: nat)

  datatype Routing = Wake(broadcast: bool, sids: set<Sid>) | Skip | Dead(reason: Reason)

  /** One bucket of the alias index. */
  function Holders(reg: Consumers, alias: string): set<Sid> {
    set sid | sid in reg && alias != "" && reg[sid].alias == Some(alias)
  }

  /** A lookup under the name finds something: a registered consumer, or an inherited member. */
  predicate Found(reg: Consumers, sid: Sid) {
    sid in reg || Inherited(sid)
  }

  /** The address's name finds an inherited member and no consumer. */
  predicate Strays(address: HostAddressing.Address, reg: Consumers) {
    var name := HostAddressing.LooksUp(address);
    name.Some? && Inherited(name.value) && name.value !in reg
  }

  /** A consumer's own view of an address. */
  function ResolveFor(address: HostAddressing.Address, self: Sid, reg: Consumers): Routing {
    match address
    case Broadcast => Wake(true, {self})
    case Invalid => Dead(MissingTo)
    case Qualified(_, sid) =>
      if sid == self then Wake(false, {self})
      else if Found(reg, sid) then Skip
      else Dead(UnknownSession(sid))
    case Bare(name) =>
      if name == self then Wake(false, {self})
      else if Found(reg, name) then Skip
      else
        var holders := Holders(reg, name);
        if |holders| == 0 then Dead(UnknownName(name))
        else if |holders| > 1 then Dead(Ambiguous(name, |holders|))
        else if holders == {self} then Wake(false, {self})
        else Skip
  }

  /** The central view of an address. */
  function ResolveCentral(address: HostAddressing.Address, reg: Consumers): Routing {
    match address
    case Broadcast => if reg.Keys == {} then Skip else Wake(true, reg.Keys)
    case Invalid => Dead(MissingTo)
    case Qualified(_, sid) => if Found(reg, sid) then Wake(false, {sid}) else Dead(UnknownSession(sid))
    case Bare(name) =>
      if Found(reg, name) then Wake(false, {name})
      else
        var holders := Holders(reg, name);
        if |holders| == 0 then Dead(UnknownName(name))
        else if |holders| > 1 then Dead(Ambiguous(name, |holders|))
        else Wake(false, holders)
  }

  lemma OneHolder(holders: set<Sid>, self: Sid)
    requires |holders| == 1
    ensures holders == {self} <==> self in holders
  {
    if self in holders {
      assert |holders - {self}| == 0;
      assert holders == {self};
    }
  }

  /** A central decision as it concerns one consumer. */
  function CutDown(central: Routing, self: Sid): Routing {
    match central
    case Wake(broadcast, sids) => if self in sids then Wake(broadcast, {self}) else Skip
    case Skip => Skip
    case Dead(reason) => Dead(reason)
  }

  /** A registered consumer's view is the central one, cut down to itself; on deaths all views agree, reason included. */
  lemma OwnViewIsCentral(address: HostAddressing.Address, self: Sid, reg: Consumers)
    requires self in reg
    ensures ResolveFor(address, self, reg) == CutDown(ResolveCentral(address, reg), self)
  {
    if address.Bare? && |Holders(reg, address.name)| == 1 {
      OneHolder(Holders(reg, address.name), self);
    }
  }

  // ------------------------------------------------------------------ undertaker

  /** The order of texts the comparison operators use. */
  predicate Less(a: string, b: string) {
    b != "" && (a == "" || a[0] < b[0] || (a[0] == b[0] && Less(a[1..], b[1..])))
  }

  lemma {:induction false} LessIsTotal(a: string, b: string)
    ensures a == b || Less(a, b) || Less(b, a)
  {
    if a != "" && b != "" && a[0] == b[0] {
      LessIsTotal(a[1..], b[1..]);
      assert a == [a[0]] + a[1..] && b == [b[0]] + b[1..];
    }
  }

  lemma {:induction false} LessIsTransitive(a: string, b: string, c: string)
    requires Less(a, b) && Less(b, c)
    ensures Less(a, c)
  {
    if a != "" && a[0] == b[0] == c[0] { LessIsTransitive(a[1..], b[1..], c[1..]); }
  }

  lemma {:induction false} LessIsStrict(a: string, b: string)
    ensures !(Less(a, b) && Less(b, a)) && !Less(a, a)
  {
    if a != "" {
      LessIsStrict(a[1..], if b == "" then "" else b[1..]);
    }
  }

  /** The same order, by the first place where the texts differ. */
  lemma {:induction false} LessExactly(a: string, b: string)
    ensures Less(a, b) <==> exists k :: 0 <= k <= |a| && k < |b| && a[..k] == b[..k] && (k == |a| || a[k] < b[k])
  {
    if a != "" && b != "" && a[0] == b[0] {
      var x, y := a[1..], b[1..];
      LessExactly(x, y);
      if Less(x, y) {
        var k :| 0 <= k <= |x| && k < |y| && x[..k] == y[..k] && (k == |x| || x[k] < y[k]);
        assert a[..k + 1] == [a[0]] + x[..k] && b[..k + 1] == [b[0]] + y[..k];
      }
      if k :| 0 <= k <= |a| && k < |b| && a[..k] == b[..k] && (k == |a| || a[k] < b[k]) {
        assert k > 0;
        assert x[..k - 1] == a[..k][1..] && y[..k - 1] == b[..k][1..];
      }
    } else if a != "" && b != "" {
      forall k | 0 < k <= |a| && k < |b| ensures a[..k] != b[..k] { assert a[..k][0] == a[0] && b[..k][0] == b[0]; }
      assert a[..0] == b[..0];
    } else if b != "" {
      assert a[..0] == b[..0];
    }
  }

  function ArmedAt(reg: Consumers, sid: Sid): string
    requires sid in reg
  {
    reg[sid].armedAt.GetOr("")
  }

  /** Armed earlier, or at the same time under a smaller id. */
  predicate Precedes(reg: Consumers, a: Sid, b: Sid)
    requires a in reg && b in reg
  {
    Less(ArmedAt(reg, a), ArmedAt(reg, b)) || (ArmedAt(reg, a) == ArmedAt(reg, b) && Less(a, b))
  }

  predicate IsUndertaker(reg: Consumers, sid: Sid) {
    sid in reg && forall other :: other in reg && other != sid ==> Precedes(reg, sid, other)
  }

  lemma PrecedesIsTransitive(reg: Consumers, a: Sid, b: Sid, c: Sid)
    requires a in reg && b in reg && c in reg && Precedes(reg, a, b) && Precedes(reg, b, c)
    ensures Precedes(reg, a, c)
  {
    var x, y, z := ArmedAt(reg, a), ArmedAt(reg, b), ArmedAt(reg, c);
    LessIsStrict(x, x);
    if Less(x, y) && Less(y, z) { LessIsTransitive(x, y, z); }
    if x == y == z { LessIsTransitive(a, b, c); }
  }

  /** Who the undertaker is: of all consumers the one armed first, a missing time counting as an empty one, and of those armed together the one of the smallest id. */
  lemma UndertakerExactly(reg: Consumers, sid: Sid)
    ensures IsUndertaker(reg, sid) <==>
            && sid in reg
            && forall other :: other in reg && other != sid ==>
                 var mine, its := if reg[sid].armedAt.Some? then reg[sid].armedAt.value else "",
                                  if reg[other].armedAt.Some? then reg[other].armedAt.value else "";
                 Less(mine, its) || (mine == its && Less(sid, other))
  {
  }

  lemma OneUndertaker(reg: Consumers, a: Sid, b: Sid)
    requires IsUndertaker(reg, a) && IsUndertaker(reg, b)
    ensures a == b
  {
    LessIsStrict(ArmedAt(reg, a), ArmedAt(reg, b));
    LessIsStrict(a, b);
  }

  /** The scan, in whatever order the keys come: the result does not depend on that order. */
  method Undertaker(reg: Consumers, keys: seq<Sid>) returns (best: Option<Sid>)
    requires (set sid | sid in keys) == reg.Keys
    ensures best.None? <==> reg == map[]
    ensures best.Some? ==> IsUndertaker(reg, best.value)
  {
    best := None;
    var k := 0;
    while k < |keys|
      invariant k <= |keys| && (best.None? <==> k == 0)
      invariant best.Some? ==> best.value in reg
      invariant best.Some? ==> forall j :: 0 <= j < k && keys[j] != best.value ==> Precedes(reg, best.value, keys[j])
    {
      var sid := keys[k];
      assert sid in reg.Keys;
      if best.None? {
        best := Some(sid);
      } else if Less(ArmedAt(reg, sid), ArmedAt(reg, best.value))
             || (ArmedAt(reg, sid) == ArmedAt(reg, best.value) && Less(sid, best.value)) {
        forall j | 0 <= j < k && keys[j] != sid ensures Precedes(reg, sid, keys[j]) {
          assert keys[j] in reg.Keys;
          if keys[j] != best.value { PrecedesIsTransitive(reg, sid, best.value, keys[j]); }
        }
        best := Some(sid);
      } else if sid != best.value {
        LessIsTotal(ArmedAt(reg, sid), ArmedAt(reg, best.value));
        LessIsTotal(sid, best.value);
      }
      k := k + 1;
    }
    if best.Some? {
      forall other | other in reg && other != best.value ensures Precedes(reg, best.value, other) {
        assert other in set sid | sid in keys;
        var j :| 0 <= j < |keys| && keys[j] == other;
      }
    } else {
      assert reg.Keys == {};
    }
  }

  // ----------------------------------------------------------- calls on a line

  datatype Config = Config(parse: string -> Option<Message>, echoPrefix: string, windowMs: int, maxWakeFailures: int)

  /** What one consumer decides about a line, before it looks for duplicates. */
  datatype Call = Echo | Blank | Bury(reason: Option<Reason>) | LeaveToUndertaker | PassOver | Offer(broadcast: bool)

  /** The branches of the consumer's loop; a malformed line is buried without a routing reason. */
  function CallOn(c: Config, self: Sid, reg: Consumers, line: string): Call {
    if c.echoPrefix <= line then Echo
    else if |Text.Trim(line)| == 0 then Blank
    else
      match c.parse(line)
      case None => if IsUndertaker(reg, self) then Bury(None) else LeaveToUndertaker
      case Some(message) =>
        match ResolveFor(HostAddressing.ParseAddress(message.to), self, reg)
        case Wake(broadcast, _) => Offer(broadcast)
        case Skip => PassOver
        case Dead(reason) => if IsUndertaker(reg, self) then Bury(Some(reason)) else LeaveToUndertaker
  }

  /** What the central view makes of a line. */
  datatype Central = Ignored | Unparsed | Routed(routing: Routing)

  function CentralOn(c: Config, reg: Consumers, line: string): Central {
    if c.echoPrefix <= line || |Text.Trim(line)| == 0 then Ignored
    else
      match c.parse(line)
      case None => Unparsed
      case Some(message) => Routed(ResolveCentral(HostAddressing.ParseAddress(message.to), reg))
  }

  predicate Unaddressable(central: Central) {
    central.Unparsed? || (central.Routed? && central.routing.Dead?)
  }

  function Offered(c: Config, reg: Consumers, line: string): set<Sid> {
    set self | self in reg && CallOn(c, self, reg, line).Offer?
  }

  function Buriers(c: Config, reg: Consumers, line: string): set<Sid> {
    set self | self in reg && CallOn(c, self, reg, line).Bury?
  }

  lemma {:induction false} UndertakerExists(reg: Consumers, among: set<Sid>) returns (sid: Sid)
    requires among != {} && among <= reg.Keys
    ensures sid in among && forall other :: other in among && other != sid ==> Precedes(reg, sid, other)
    decreases among
  {
    hide Precedes;
    var one :| one in among;
    sid := one;
    var rest := among - {one};
    assert among == rest + {one};
    if rest != {} {
      var best := UndertakerExists(reg, rest);
      PrecedesIsTotal(reg, one, best);
      if Precedes(reg, best, one) {
        sid := best;
      } else {
        forall other | other in among && other != one ensures Precedes(reg, one, other) {
          if other != best { PrecedesIsTransitive(reg, one, best, other); }
        }
      }
    }
  }

  lemma PrecedesIsTotal(reg: Consumers, a: Sid, b: Sid)
    requires a in reg && b in reg
    ensures a == b || Precedes(reg, a, b) || Precedes(reg, b, a)
  {
    LessIsTotal(ArmedAt(reg, a), ArmedAt(reg, b));
    LessIsTotal(a, b);
  }

  /** A line's address finds an inherited member instead of a consumer. */
  predicate LineStrays(c: Config, reg: Consumers, line: string) {
    var message := c.parse(line);
    message.Some? && Strays(HostAddressing.ParseAddress(message.value.to), reg)
  }

  lemma OffersAreWakes(c: Config, reg: Consumers, line: string, self: Sid)
    requires self in reg
    ensures var central := CentralOn(c, reg, line);
            && (self in Offered(c, reg, line) <==> central.Routed? && central.routing.Wake? && self in central.routing.sids)
            && (self in Offered(c, reg, line) ==> CallOn(c, self, reg, line) == Offer(central.routing.broadcast))
            && (self in Buriers(c, reg, line) <==> Unaddressable(central) && IsUndertaker(reg, self))
            && (self in Buriers(c, reg, line) ==>
                  CallOn(c, self, reg, line) == Bury(if central.Unparsed? then None else Some(central.routing.reason)))
  {
    hide ResolveFor, ResolveCentral, IsUndertaker, Text.Trim;
    var message := c.parse(line);
    if message.Some? { OwnViewIsCentral(HostAddressing.ParseAddress(message.value.to), self, reg); }
  }

  /** The central view wakes only registered consumers, exactly unless the line strays. */
  lemma CentralWakesConsumers(c: Config, reg: Consumers, line: string)
    requires CentralOn(c, reg, line).Routed? && CentralOn(c, reg, line).routing.Wake?
    ensures CentralOn(c, reg, line).routing.sids <= reg.Keys <==> !LineStrays(c, reg, line)
  {
    hide Text.Trim, HostAddressing.ParseAddress, Inherited;
    var address := HostAddressing.ParseAddress(c.parse(line).value.to);
    var sids := ResolveCentral(address, reg).sids;
    if Strays(address, reg) { assert HostAddressing.LooksUp(address).value in sids; }
  }

  /**
   * Distributed routing is central routing: the consumers that offer a line to their windows and sinks are
   * exactly the registered ones among the sessions the central view wakes, which are all of them unless the
   * line's address finds an inherited member. A line nobody can be woken for is buried by exactly one
   * consumer, with the central reason; no other line is.
   */
  lemma FleetIsCentral(c: Config, reg: Consumers, line: string)
    requires reg != map[]
    ensures var central := CentralOn(c, reg, line);
            && Offered(c, reg, line) == (if central.Routed? && central.routing.Wake? then central.routing.sids * reg.Keys else {})
            && (central.Routed? && central.routing.Wake? ==>
                  (Offered(c, reg, line) == central.routing.sids <==> !LineStrays(c, reg, line)))
            && (forall self :: self in Offered(c, reg, line) ==> CallOn(c, self, reg, line) == Offer(central.routing.broadcast))
            && |Buriers(c, reg, line)| == (if Unaddressable(central) then 1 else 0)
            && (forall self :: self in Buriers(c, reg, line) ==>
                  IsUndertaker(reg, self)
                  && CallOn(c, self, reg, line) == Bury(if central.Unparsed? then None else Some(central.routing.reason)))
  {
    hide CallOn, CentralOn, IsUndertaker, Precedes, LineStrays;
    var central := CentralOn(c, reg, line);
    forall self | self in reg
      ensures self in Offered(c, reg, line) <==> central.Routed? && central.routing.Wake? && self in central.routing.sids
      ensures self in Offered(c, reg, line) ==> CallOn(c, self, reg, line) == Offer(central.routing.broadcast)
      ensures self in Buriers(c, reg, line) <==> Unaddressable(central) && IsUndertaker(reg, self)
      ensures self in Buriers(c, reg, line) ==>
                CallOn(c, self, reg, line) == Bury(if central.Unparsed? then None else Some(central.routing.reason))
    {
      OffersAreWakes(c, reg, line, self);
    }
    if central.Routed? && central.routing.Wake? {
      CentralWakesConsumers(c, reg, line);
      assert Offered(c, reg, line) == central.routing.sids * reg.Keys;
    }
    forall self ensures self in Buriers(c, reg, line) <==> Unaddressable(central) && IsUndertaker(reg, self) {
      UndertakerIsRegistered(reg, self);
    }
    OneBurier(reg, Buriers(c, reg, line), Unaddressable(central));
  }

  lemma UndertakerIsRegistered(reg: Consumers, sid: Sid)
    ensures IsUndertaker(reg, sid) ==> sid in reg
  {
  }

  lemma OneBurier(reg: Consumers, buriers: set<Sid>, due: bool)
    requires reg != map[] && forall self :: self in buriers <==> due && IsUndertaker(reg, self)
    ensures |buriers| == if due then 1 else 0
  {
    hide Precedes;
    assert reg.Keys != {};
    var chief := UndertakerExists(reg, reg.Keys);
    assert IsUndertaker(reg, chief);
    hide IsUndertaker;
    forall self | self in buriers ensures self == chief { OneUndertaker(reg, self, chief); }
    if due { assert buriers == {chief}; } else { assert buriers == {}; }
  }

  /** A line to an inherited name: centrally woken, offered by no consumer, and buried by none. */
  lemma InheritedNameIsLost(c: Config, reg: Consumers, line: string, message: Message)
    requires c.parse(line) == Some(message) && message.to == Some("constructor") && "constructor" !in reg
    requires !(c.echoPrefix <= line) && |Text.Trim(line)| > 0
    ensures CentralOn(c, reg, line) == Routed(Wake(false, {"constructor"}))
    ensures Offered(c, reg, line) == {} && Buriers(c, reg, line) == {}
  {
    HostAddressing.InheritedNameWakes();
  }
}
