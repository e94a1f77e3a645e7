/**
 * Exactly what a step of the file router does to a line: when it is dropped as a duplicate and when it is
 * opened, by the marks of the running life; and what a delivery pass does to each target, by its answers.
 */
module FileRouterIntake {
  import opened Wrappers
  import HostRegistry
  import opened HostAddressing
  import opened DedupWindow
  import opened DedupKeys
  import opened FileRouterModel
  import opened FileRouterPasses
  import opened FileRouterGuarantees
  import Host = FileRouterModel
  import Text

  type Sid = HostRegistry.Sid
  type Calls = seq<Op<string, Option<string>>>

  // ----------------------------------------------------------- the inbox and a start

  /** All that was appended along the steps, in order. */
  function AppendedText(steps: seq<Host.Step>): string {
    if steps == [] then ""
    else
      var last := steps[|steps| - 1];
      AppendedText(steps[..|steps| - 1]) + if last.Append? then last.more else ""
  }

  function Crashes(steps: seq<Host.Step>): nat {
    if steps == [] then 0
    else Crashes(steps[..|steps| - 1]) + if steps[|steps| - 1].Crash? then 1 else 0
  }

  /** The inbox is what was there at the start and all that was appended since, whatever crashed; each crash ends one life. */
  lemma {:induction false} InboxIsAppended(c: Config, text: string, disk: nat, steps: seq<Host.Step>)
    ensures var w := Host.Run(c, Boot(text, disk, []), steps);
            w.text == text + AppendedText(steps) && |w.past| == Crashes(steps)
  {
    if steps == [] {
      assert text + "" == text;
    } else {
      var before, last := steps[..|steps| - 1], steps[|steps| - 1];
      InboxIsAppended(c, text, disk, before);
      StepAppends(c, Host.Run(c, Boot(text, disk, []), before), last);
      JoinsOn(text, before, last, steps);
      hide Host.Next, AppendedText, Boot;
    }
  }

  lemma JoinsOn(text: string, before: seq<Host.Step>, last: Host.Step, steps: seq<Host.Step>)
    requires steps != [] && before == steps[..|steps| - 1] && last == steps[|steps| - 1]
    ensures text + AppendedText(steps) == (text + AppendedText(before)) + (if last.Append? then last.more else "")
    ensures Crashes(steps) == Crashes(before) + if last.Crash? then 1 else 0
  {
    var more := if last.Append? then last.more else "";
    assert text + (AppendedText(before) + more) == (text + AppendedText(before)) + more;
  }

  lemma StepAppends(c: Config, w: World, step: Host.Step)
    ensures var w' := Host.Next(c, w, step);
            && w'.text == w.text + (if step.Append? then step.more else "")
            && |w'.past| == |w.past| + if step.Crash? then 1 else 0
  {
    hide Perform, LastSaved, Enabled, Apply, Text.SplitCompleteLines;
    assert w.text + "" == w.text;
  }

  /** A start takes the cursor from its file, or stands behind the last complete line if the file points beyond it, with nothing pending or marked. */
  lemma StartsAtCursor(text: string, disk: nat, past: seq<Life>)
    ensures var w, count := Boot(text, disk, past), |Text.SplitCompleteLines(text)|;
            && w.router.cursor == w.life.from == w.disk && w.router.pending.None? && w.router.marks == map[]
            && (disk <= count ==> w.router.cursor == disk) && (disk >= count ==> w.router.cursor == count)
            && w.text == text && w.past == past && w.life.effects == []
  {
  }

  // ------------------------------------------------------------------ duplicates

  /** One of the keys was, each by the reading taken for it. */
  predicate SeenLately(calls: Calls, keys: Keys, now1: int, now2: int, windowMs: int) {
    || MarkedWithin(calls, keys.primary, now1, windowMs)
    || (keys.secondary.Some? && MarkedWithin(calls, keys.secondary.value, now2, windowMs))
  }

  /** What the next step at the cursor works on: nothing pending, and a line there that is a message. */
  predicate AtMessage(c: Config, w: World) {
    w.router.pending.None? && w.router.cursor < |Lines(w)| && c.parse(Lines(w)[w.router.cursor]).Some?
  }

  function KeysAt(c: Config, w: World): Keys
    requires AtMessage(c, w)
  {
    DigestKeys(Lines(w)[w.router.cursor], c.parse(Lines(w)[w.router.cursor]).value)
  }

  /** The step retires the line at the cursor as a duplicate. */
  predicate RetiresDuplicate(c: Config, w: World, look: Look) {
    var n, effects := |w.life.effects|, Host.Next(c, w, Do(Take(look))).life.effects;
    |effects| > n && effects[n].Retired? && effects[n].fate.Duplicate?
  }

  /** The line's address resolves to sessions to wake, which the look lists. */
  predicate RoutableAt(c: Config, w: World, look: Look)
    requires AtMessage(c, w)
  {
    var line := Lines(w)[w.router.cursor];
    var routing := ResolveHostRouting(ParseAddress(c.parse(line).value.to), look.registry);
    !(c.echoPrefix <= line) && |Text.Trim(line)| > 0 && routing.Wake? && Lists(look.order, routing.sids)
  }

  /** The step opened the line at the cursor for the listed sessions, and did nothing else. */
  predicate OpensAt(w: World, next: World, look: Look)
    requires w.router.cursor < |Lines(w)|
  {
    var n := |w.life.effects|;
    && next.router.cursor == w.router.cursor
    && |next.life.effects| == n + 1 && next.life.effects[..n] == w.life.effects && next.life.effects[n].Opened?
    && next.life.effects[n].index == w.router.cursor && next.life.effects[n].line == Lines(w)[w.router.cursor]
    && next.life.effects[n].registry == look.registry && next.life.effects[n].sids == look.order
    && next.router.pending.Some?
    && var p := next.router.pending.value;
       && p.line == Lines(w)[w.router.cursor] && p.sids == look.order && p.deferUntil.None? && |p.left| == |look.order|
       && p.broadcast == next.life.effects[n].broadcast
       && forall k :: 0 <= k < |p.left| ==> p.left[k] == Target(look.order[k], 0)
  }

  lemma TakeMeans(c: Config, w: World, look: Look)
    ensures RetiresDuplicate(c, w, look) ==>
              AtMessage(c, w) && HostHit(w.router.marks, c.windowMs, KeysAt(c, w), look.now1, look.now2)
    ensures AtMessage(c, w) && RoutableAt(c, w, look) ==>
              var next := Host.Next(c, w, Do(Take(look)));
              var hit := HostHit(w.router.marks, c.windowMs, KeysAt(c, w), look.now1, look.now2);
              && (next.router.pending.Some? <==> !hit) && (RetiresDuplicate(c, w, look) <==> hit)
              && (!hit ==> OpensAt(w, next, look))
  {
    hide HostHit, DigestKeys, ResolveHostRouting, Text.Trim, ParseAddress, Lines, LastSaved, Lists;
  }

  /**
   * In every run, a step that drops a line as a duplicate finds among the calls of the running life, its own and
   * the other intake's, a mark of one of that line's keys less than a window before the clock read for that key.
   */
  lemma DuplicateWasMarked(c: Config, text: string, disk: nat, steps: seq<Host.Step>, look: Look)
    requires RetiresDuplicate(c, Host.Run(c, Boot(text, disk, []), steps), look)
    ensures var w := Host.Run(c, Boot(text, disk, []), steps);
            AtMessage(c, w) && SeenLately(WindowCalls(c, text, disk, steps), KeysAt(c, w), look.now1, look.now2, c.windowMs)
  {
    hide Host.Run, HostHit, RetiresDuplicate, AtMessage, KeysAt, DedupWindow.Run, WindowCalls, SeenLately;
    var w := Host.Run(c, Boot(text, disk, []), steps);
    TakeMeans(c, w, look);
    WindowFollowsCalls(c, text, disk, steps);
    HostHitExactly(c.windowMs, WindowCalls(c, text, disk, steps), KeysAt(c, w), look.now1, look.now2);
    SeenMeans(WindowCalls(c, text, disk, steps), KeysAt(c, w), look.now1, look.now2, c.windowMs);
  }

  lemma SeenMeans(calls: Calls, keys: Keys, now1: int, now2: int, windowMs: int)
    ensures SeenLately(calls, keys, now1, now2, windowMs) <==>
            || MarkedWithin(calls, keys.primary, now1, windowMs)
            || (keys.secondary.Some? && MarkedWithin(calls, keys.secondary.value, now2, windowMs))
  {
  }

  /**
   * With a clock that does not run back, a line that resolves to sessions to wake is opened for them exactly if no
   * such mark exists, and dropped as a duplicate otherwise.
   */
  lemma OpenedExactly(c: Config, text: string, disk: nat, steps: seq<Host.Step>, look: Look)
    requires var w := Host.Run(c, Boot(text, disk, []), steps); AtMessage(c, w) && RoutableAt(c, w, look)
    requires Monotone(WindowCalls(c, text, disk, steps), look.now1) && look.now1 <= look.now2
    ensures var w := Host.Run(c, Boot(text, disk, []), steps);
            var next := Host.Next(c, w, Do(Take(look)));
            var lately := SeenLately(WindowCalls(c, text, disk, steps), KeysAt(c, w), look.now1, look.now2, c.windowMs);
            && (next.router.pending.Some? <==> !lately) && (RetiresDuplicate(c, w, look) <==> lately)
            && (!lately ==> OpensAt(w, next, look))
  {
    hide Host.Run, HostHit, RetiresDuplicate, AtMessage, RoutableAt, KeysAt, DedupWindow.Run, WindowCalls, SeenLately, Monotone, Host.Next, OpensAt;
    var w := Host.Run(c, Boot(text, disk, []), steps);
    var calls := WindowCalls(c, text, disk, steps);
    TakeMeans(c, w, look);
    WindowFollowsCalls(c, text, disk, steps);
    HostHitExactly(c.windowMs, calls, KeysAt(c, w), look.now1, look.now2);
    SeenMeans(calls, KeysAt(c, w), look.now1, look.now2, c.windowMs);
  }

  /** When a dead letter counts as noise: a ghost or superseded address of a session whose own cursor has passed the line. */
  lemma ParallelExactly(address: Address, death: Death, passed: set<Sid>)
    ensures Parallel(address, death, passed) <==>
            && (death.StaleAddress? || death.GhostSession? || death.GhostName?)
            && exists alias, sid :: address == Qualified(alias, sid) && sid != "" && sid in passed
  {
    if address.Qualified? { assert address == Qualified(address.alias, address.sessionId); }
  }

  // --------------------------------------------------------------------- targets

  /** The pass finds a target without a routable slot, and its native cursor past the line. */
  predicate Lost(pass: Pass, sid: Sid) {
    pass.registry.Some? && !Routable(pass.registry.value, sid) && sid in pass.passedFirst
  }

  /** The window for the native lane is open and not over. */
  predicate InWindow(p: Pending, pass: Pass) {
    match p.deferUntil
    case None => false
    case Some(until) => pass.at < until
  }

  /** A target that is neither lost nor taken by its native lane still has such a lane. */
  predicate LaneAhead(p: Pending, pass: Pass) {
    exists k :: 0 <= k < |p.left| && LaneOf(pass, p.left[k].sid)
  }

  predicate LaneOf(pass: Pass, sid: Sid) {
    !Lost(pass, sid) && sid !in pass.passedThen && sid in pass.lanes
  }

  /** What one pass does to one of its targets. */
  datatype Treatment = Bury | Leave | Yield | Wake

  function Treated(p: Pending, pass: Pass, sid: Sid): Treatment {
    if Lost(pass, sid) then Bury
    else if InWindow(p, pass) then Leave
    else if sid in pass.passedThen then Yield
    else if p.deferUntil.None? && LaneAhead(p, pass) then Leave
    else Treatment.Wake
  }

  lemma GoneIsLost(pass: Pass, targets: seq<Target>, sid: Sid)
    ensures sid in GoneTargets(pass, targets) <==> Has(targets, sid) && Lost(pass, sid)
  {
    hide Routable;
    if Has(targets, sid) && Lost(pass, sid) {
      var k :| 0 <= k < |targets| && targets[k].sid == sid;
      assert targets[k] in targets;
    }
  }

  /** A target faces the wake-up loop if it is neither lost nor taken by its native lane. */
  lemma FacingMeans(p: Pending, pass: Pass, t: Target)
    requires Distinct(p.left)
    ensures t in Kept(Kept(p.left, GoneTargets(pass, p.left)), pass.passedThen) <==>
            t in p.left && !Lost(pass, t.sid) && t.sid !in pass.passedThen
  {
    var gone := GoneTargets(pass, p.left);
    KeptMeaning(p.left, gone);
    KeptMeaning(Kept(p.left, gone), pass.passedThen);
    GoneIsLost(pass, p.left, t.sid);
    hide Kept, GoneTargets, Distinct, Lost;
    if t in p.left {
      var k :| 0 <= k < |p.left| && p.left[k] == t;
      assert Has(p.left, t.sid);
    }
  }

  lemma ArmedIsAhead(p: Pending, pass: Pass)
    requires Distinct(p.left)
    ensures Armed(pass, Kept(Kept(p.left, GoneTargets(pass, p.left)), pass.passedThen)) <==> LaneAhead(p, pass)
  {
    var facing := Kept(Kept(p.left, GoneTargets(pass, p.left)), pass.passedThen);
    hide Kept, GoneTargets, Distinct, Lost;
    if t :| t in facing && t.sid in pass.lanes {
      FacingMeans(p, pass, t);
      var k :| 0 <= k < |p.left| && p.left[k] == t;
      assert LaneOf(pass, p.left[k].sid);
    }
    if k :| 0 <= k < |p.left| && LaneOf(pass, p.left[k].sid) {
      FacingMeans(p, pass, p.left[k]);
      assert p.left[k] in facing;
    }
  }

  /**
   * What a pass does, target by target: one that is lost is buried with the answers that say so; inside the window
   * nothing else happens; outside it a target its native lane took is left to that lane; if some other target
   * still has such a lane and no window was opened yet, the pass only opens one; and otherwise every target left
   * is woken, delivered if the sink takes it, and given up at its last allowed refusal.
   */
  lemma PassExactly(c: Config, index: nat, p: Pending, pass: Pass, tries: nat, sid: Sid)
    requires Distinct(p.left) && Level(p.left, tries)
    ensures var story := Story(Deliver(c, index, p, pass).effects, index, sid);
            if !Has(p.left, sid) then story == []
            else
              match Treated(p, pass, sid)
              case Bury => story == [Ended(index, sid, Unrouted(pass.registry.value, pass.passedFirst))]
              case Leave => story == []
              case Yield => story == [Ended(index, sid, NativeTook(pass.passedThen))]
              case Wake =>
                story == if sid !in pass.refusing then [Ended(index, sid, Delivered)]
                         else if tries + 1 < c.maxWakeFailures then [Refused(index, sid)]
                         else [Refused(index, sid), Ended(index, sid, WakeFailed)]
  {
    PassTells(c, index, p, pass, tries, index, sid);
    hide Deliver, Story, Has, Distinct, Level, Treated, PassStory;
    if Has(p.left, sid) { PassStoryExactly(c, index, p, pass, tries, sid); }
  }

  lemma PassStoryExactly(c: Config, index: nat, p: Pending, pass: Pass, tries: nat, sid: Sid)
    requires Distinct(p.left) && Has(p.left, sid)
    ensures var story := PassStory(c, index, p, pass, tries, sid);
            match Treated(p, pass, sid)
            case Bury => pass.registry.Some? && story == [Ended(index, sid, Unrouted(pass.registry.value, pass.passedFirst))]
            case Leave => story == []
            case Yield => story == [Ended(index, sid, NativeTook(pass.passedThen))]
            case Wake =>
              story == if sid !in pass.refusing then [Ended(index, sid, Delivered)]
                       else if tries + 1 < c.maxWakeFailures then [Refused(index, sid)]
                       else [Refused(index, sid), Ended(index, sid, WakeFailed)]
  {
    GoneIsLost(pass, p.left, sid);
    PhasesOfPass(p, pass);
    LostMeans(pass, sid);
    hide Has, Distinct, GoneTargets, LaneAhead, Waits, Defers, Lost, InWindow;
  }

  lemma LostMeans(pass: Pass, sid: Sid)
    ensures Lost(pass, sid) ==> pass.registry.Some? && UnroutedBy(pass) == Unrouted(pass.registry.value, pass.passedFirst)
  {
    hide Routable;
  }

  lemma PhasesOfPass(p: Pending, pass: Pass)
    requires Distinct(p.left)
    ensures Waits(p, pass) <==> InWindow(p, pass)
    ensures Defers(p, pass) <==> p.deferUntil.None? && LaneAhead(p, pass)
  {
    ArmedIsAhead(p, pass);
    hide Distinct, GoneTargets, Kept, LaneAhead, Armed;
  }

  /** A pass opens the window, for its full length, exactly if it finds a lane ahead and none was opened; it settles exactly if it woke and nobody is left. */
  lemma PassOutcome(c: Config, index: nat, p: Pending, pass: Pass, tries: nat)
    requires Distinct(p.left) && Level(p.left, tries)
    ensures var out := Deliver(c, index, p, pass);
            var opens := p.deferUntil.None? && LaneAhead(p, pass);
            && out.pending == p.(left := out.pending.left, deferUntil := if opens then Some(pass.at + c.deferMs) else p.deferUntil)
            && (out.done <==> !InWindow(p, pass) && !opens && out.pending.left == [])
            && (forall sid :: Has(out.pending.left, sid) <==>
                  && Has(p.left, sid)
                  && (Treated(p, pass, sid).Leave? || (Treated(p, pass, sid).Wake? && sid in pass.refusing && tries + 1 < c.maxWakeFailures)))
  {
    PhasesOfPass(p, pass);
    PassLeaves(c, index, p, pass, tries);
    forall sid ensures Has(Deliver(c, index, p, pass).pending.left, sid) <==>
        && Has(p.left, sid)
        && (Treated(p, pass, sid).Leave? || (Treated(p, pass, sid).Wake? && sid in pass.refusing && tries + 1 < c.maxWakeFailures))
    {
      if Has(p.left, sid) { PassStoryIsTreatment(c, index, p, pass, tries, sid); }
    }
    hide Has, Distinct, Level, GoneTargets, Kept, Drops, Wakes, StillLeft, LaneAhead, Treated, Waits, Defers, InWindow;
  }

  lemma PassStoryIsTreatment(c: Config, index: nat, p: Pending, pass: Pass, tries: nat, sid: Sid)
    requires Distinct(p.left) && Has(p.left, sid)
    ensures PassStory(c, index, p, pass, tries, sid) in [[], [Refused(index, sid)]] <==>
            Treated(p, pass, sid).Leave? || (Treated(p, pass, sid).Wake? && sid in pass.refusing && tries + 1 < c.maxWakeFailures)
  {
    PassStoryExactly(c, index, p, pass, tries, sid);
    hide Has, Distinct, PassStory, Treated;
  }
}
