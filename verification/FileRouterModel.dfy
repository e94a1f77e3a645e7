/**
 * The callback file router: one consumer that walks an append-only inbox line by line, delivers each
 * line to its targets with retries, and may crash between any two of its effects.
 */
module FileRouterModel {
  import opened Wrappers
  import opened HostRegistry
  import opened HostAddressing
  import opened DedupWindow
  import opened DedupKeys
  import Text

  /** `parse` is the JSON reader; it yields nothing for a malformed line. */
  datatype Config = Config(parse: string -> Option<Message>, echoPrefix: string, windowMs: int,
                           maxWakeFailures: int, deferMs: int)
  {
    /** How many refused wake-ups end a target. */
    function Bound(): nat {
      if maxWakeFailures > 1 then maxWakeFailures else 1
    }
  }

  // ---------------------------------------------------------------- effects

  /** How a line left the inbox, with the registry and the native cursors the decision was read from. */
  datatype Fate =
    | Echoed
    | Blank
    | Malformed
    | Unroutable(death: Death, parallel: bool, registry: Registry, passed: set<Sid>)
    | Skipped(registry: Registry)
    | Duplicate(registry: Registry)
    | Settled(sids: seq<Sid>)

  /** How a target left a pending line, with the answers that ended it. */
  datatype End = Delivered | Unrouted(registry: Registry, passed: set<Sid>) | WakeFailed | NativeTook(passed: set<Sid>)

  /** What the outside sees, in order; a line is opened under the routing read from the given registry. */
  datatype Effect =
    | Opened(index: nat, line: string, registry: Registry, broadcast: bool, sids: seq<Sid>)
    | Refused(index: nat, sid: Sid)
    | Ended(index: nat, sid: Sid, how: End)
    | Retired(index: nat, line: string, fate: Fate)
    | Saved(cursor: nat)

  datatype Target = Target(sid: Sid, tries: nat)

  datatype Pending = Pending(line: string, message: Message, keys: Keys, broadcast: bool, sids: seq<Sid>,
                             left: seq<Target>, deferUntil: Option<int>)

  type Marks = map<string, Entry<Option<string>>>

  datatype Router = Router(cursor: nat, pending: Option<Pending>, marks: Marks)

  // ---------------------------------------------------------- delivery passes

  /**
   * What one delivery pass finds outside: the registry if it can be read; the sessions whose own cursor
   * is past the line, asked for at three moments; those with a lane of their own; those whose wake-up
   * throws; and the clock.
   */
  datatype Pass = Pass(registry: Option<Registry>, passedFirst: set<Sid>, passedThen: set<Sid>, lanes: set<Sid>,
                       refusing: set<Sid>, at: int, at1: int, sweep1: int, at2: int, sweep2: int)

  function Kept(targets: seq<Target>, out: set<Sid>): seq<Target> {
    if targets == [] then []
    else
      var last := targets[|targets| - 1];
      Kept(targets[..|targets| - 1], out) + if last.sid in out then [] else [last]
  }

  function Drops(index: nat, targets: seq<Target>, out: set<Sid>, how: End): seq<Effect> {
    if targets == [] then []
    else
      var last := targets[|targets| - 1];
      Drops(index, targets[..|targets| - 1], out, how) + if last.sid in out then [Ended(index, last.sid, how)] else []
  }

  function UnroutedBy(pass: Pass): End {
    Unrouted(pass.registry.GetOr(EMPTY_REGISTRY), pass.passedFirst)
  }

  function TookBy(pass: Pass): End {
    NativeTook(pass.passedThen)
  }

  /** Targets that fell out of routing while the native lane already took the line. */
  function GoneTargets(pass: Pass, targets: seq<Target>): set<Sid> {
    set t | t in targets && pass.registry.Some? && !Routable(pass.registry.value, t.sid) && t.sid in pass.passedFirst :: t.sid
  }

  /** Some target left after the native check still has a lane of its own. */
  predicate Armed(pass: Pass, targets: seq<Target>) {
    exists t :: t in targets && t.sid in pass.lanes
  }

  function Wakes(index: nat, targets: seq<Target>, refusing: set<Sid>, bound: nat): seq<Effect> {
    if targets == [] then []
    else
      var last := targets[|targets| - 1];
      Wakes(index, targets[..|targets| - 1], refusing, bound)
      + if last.sid !in refusing then [Ended(index, last.sid, Delivered)]
        else if last.tries + 1 >= bound then [Refused(index, last.sid), Ended(index, last.sid, WakeFailed)]
        else [Refused(index, last.sid)]
  }

  function StillLeft(targets: seq<Target>, refusing: set<Sid>, bound: nat): seq<Target> {
    if targets == [] then []
    else
      var last := targets[|targets| - 1];
      StillLeft(targets[..|targets| - 1], refusing, bound)
      + if last.sid in refusing && last.tries + 1 < bound then [Target(last.sid, last.tries + 1)] else []
  }

  /** The pass ends inside the window that lets the native lane go first. */
  predicate Waits(p: Pending, pass: Pass) {
    p.deferUntil.Some? && pass.at < p.deferUntil.value
  }

  /** The pass opens that window. */
  predicate Defers(p: Pending, pass: Pass) {
    p.deferUntil.None? && Armed(pass, Kept(Kept(p.left, GoneTargets(pass, p.left)), pass.passedThen))
  }

  datatype Outcome = Outcome(done: bool, pending: Pending, effects: seq<Effect>)

  /** One delivery pass over a pending line: bury, yield, wake; done when it woke and nobody is left. */
  function Deliver(c: Config, index: nat, p: Pending, pass: Pass): Outcome {
    var gone := GoneTargets(pass, p.left);
    var routed := Kept(p.left, gone);
    var buried := Drops(index, p.left, gone, UnroutedBy(pass));
    if Waits(p, pass) then Outcome(false, p.(left := routed), buried)
    else
      var facing := Kept(routed, pass.passedThen);
      var yielded := Drops(index, routed, pass.passedThen, TookBy(pass));
      if Defers(p, pass) then Outcome(false, p.(left := facing, deferUntil := Some(pass.at + c.deferMs)), buried + yielded)
      else
        var left := StillLeft(facing, pass.refusing, c.Bound());
        Outcome(left == [], p.(left := left), buried + yielded + Wakes(index, facing, pass.refusing, c.Bound()))
  }

  /** The double mark of a settled line. */
  function MarkKeys(marks: Marks, c: Config, p: Pending, pass: Pass): Marks {
    var once := Apply(marks, c.windowMs, Mark(p.keys.primary, p.message.msgid, pass.at1, pass.sweep1));
    if p.keys.secondary.Some?
    then Apply(once, c.windowMs, Mark(p.keys.secondary.value, p.message.msgid, pass.at2, pass.sweep2))
    else once
  }

  // ------------------------------------------------------------------ intake

  /** What taking up a line finds outside: the registry, the native cursors, an order of the targets, the clock. */
  datatype Look = Look(registry: Registry, passed: set<Sid>, order: seq<Sid>, now1: int, now2: int)

  predicate Lists(order: seq<Sid>, sids: set<Sid>) {
    && (set sid | sid in order) == sids
    && (forall a, b :: 0 <= a < b < |order| ==> order[a] != order[b])
  }

  function Fresh(order: seq<Sid>): (targets: seq<Target>)
    ensures |targets| == |order|
    ensures forall k :: 0 <= k < |order| ==> targets[k] == Target(order[k], 0)
  {
    seq(|order|, k requires 0 <= k < |order| => Target(order[k], 0))
  }

  /** A dead letter of a ghost or stale address is noise when the addressed session's native lane already took the line. */
  function Parallel(address: Address, death: Death, passed: set<Sid>): bool {
    !death.MissingTo? && !death.AmbiguousAlias? && address.Qualified? && address.sessionId != "" && address.sessionId in passed
  }

  datatype Verdict = Gone(fate: Fate) | Route(message: Message, broadcast: bool, sids: set<Sid>)

  /** The branches of the intake loop, in their order. */
  function Judge(c: Config, marks: Marks, line: string, look: Look): Verdict {
    if c.echoPrefix <= line then Gone(Echoed)
    else if |Text.Trim(line)| == 0 then Gone(Blank)
    else
      match c.parse(line)
      case None => Gone(Malformed)
      case Some(message) =>
        var address := ParseAddress(message.to);
        match ResolveHostRouting(address, look.registry)
        case Dead(death) => Gone(Unroutable(death, Parallel(address, death, look.passed), look.registry, look.passed))
        case Skip => Gone(Skipped(look.registry))
        case Wake(broadcast, sids) =>
          if HostHit(marks, c.windowMs, DigestKeys(line, message), look.now1, look.now2) then Gone(Duplicate(look.registry))
          else Route(message, broadcast, sids)
  }

  // ------------------------------------------------------------------- steps

  datatype Work = Take(look: Look) | Pursue(pass: Pass)

  function Advance(r: Router): Router {
    r.(cursor := r.cursor + 1, pending := None)
  }

  predicate Enabled(c: Config, r: Router, lines: seq<string>, work: Work) {
    match work
    case Take(look) =>
      && r.pending.None? && r.cursor < |lines|
      && var verdict := Judge(c, r.marks, lines[r.cursor], look);
         (verdict.Route? ==> Lists(look.order, verdict.sids))
    case Pursue(pass) => r.pending.Some?
  }

  /** One uninterrupted piece of work, with its effects. */
  function Perform(c: Config, r: Router, lines: seq<string>, work: Work): (Router, seq<Effect>)
    requires Enabled(c, r, lines, work)
  {
    match work
    case Take(look) => TakeUp(c, r, lines[r.cursor], look)
    case Pursue(pass) => PursueOn(c, r, pass)
  }

  function TakeUp(c: Config, r: Router, line: string, look: Look): (Router, seq<Effect>) {
    match Judge(c, r.marks, line, look)
    case Gone(fate) => (Advance(r), [Retired(r.cursor, line, fate), Saved(r.cursor + 1)])
    case Route(message, broadcast, sids) =>
      (r.(pending := Some(Pending(line, message, DigestKeys(line, message), broadcast, look.order, Fresh(look.order), None))),
       [Opened(r.cursor, line, look.registry, broadcast, look.order)])
  }

  function PursueOn(c: Config, r: Router, pass: Pass): (Router, seq<Effect>)
    requires r.pending.Some?
  {
    var p := r.pending.value;
    var out := Deliver(c, r.cursor, p, pass);
    if out.done
    then (Advance(r).(marks := MarkKeys(r.marks, c, p, pass)),
          out.effects + [Retired(r.cursor, p.line, Settled(p.sids)), Saved(r.cursor + 1)])
    else (r.(pending := Some(out.pending)), out.effects)
  }

  // ------------------------------------------------------ lives and the world

  /**
   * One process life: where its cursor began, what it did, and which keys the other intake, which shares
   * the window, marked meanwhile.
   */
  datatype Life = Life(from: nat, effects: seq<Effect>, outside: set<string>)

  datatype World = World(text: string, disk: nat, past: seq<Life>, life: Life, router: Router)

  datatype Step =
    | Append(more: string)
    | Do(work: Work)
    | MarkElsewhere(key: string, meta: Option<string>, at: int, sweep: int)
    | Crash(during: Work, kept: nat)

  function Lines(w: World): seq<string> {
    Text.SplitCompleteLines(w.text)
  }

  function LastSaved(effects: seq<Effect>, disk: nat): nat {
    if effects == [] then disk
    else if effects[|effects| - 1].Saved? then effects[|effects| - 1].cursor
    else LastSaved(effects[..|effects| - 1], disk)
  }

  /**
   * A start, at the moment its first flush has read the inbox: the cursor file, clamped to the complete lines
   * found there; nothing pending, nothing marked.
   */
  function Boot(text: string, disk: nat, past: seq<Life>): World {
    var count := |Text.SplitCompleteLines(text)|;
    var from := if disk > count then count else disk;
    World(text, from, past, Life(from, [], {}), Router(from, None, map[]))
  }

  /** Work cut off after its first `kept` effects: only those and the cursor file survive. */
  function CrashAfter(w: World, effects: seq<Effect>, kept: nat): World
    requires kept <= |effects|
  {
    Boot(w.text, LastSaved(effects[..kept], w.disk), w.past + [w.life.(effects := w.life.effects + effects[..kept])])
  }

  function Next(c: Config, w: World, step: Step): World {
    match step
    case Append(more) => w.(text := w.text + more)
    case MarkElsewhere(key, meta, at, sweep) =>
      w.(router := w.router.(marks := Apply(w.router.marks, c.windowMs, Mark(key, meta, at, sweep))),
         life := w.life.(outside := w.life.outside + {key}))
    case Do(work) =>
      if !Enabled(c, w.router, Lines(w), work) then w
      else
        var (r, effects) := Perform(c, w.router, Lines(w), work);
        w.(router := r, disk := LastSaved(effects, w.disk), life := w.life.(effects := w.life.effects + effects))
    case Crash(work, kept) =>
      var effects := if Enabled(c, w.router, Lines(w), work) then Perform(c, w.router, Lines(w), work).1 else [];
      CrashAfter(w, effects, if kept <= |effects| then kept else |effects|)
  }

  function Run(c: Config, w: World, steps: seq<Step>): World {
    if steps == [] then w else Next(c, Run(c, w, steps[..|steps| - 1]), steps[|steps| - 1])
  }
}
