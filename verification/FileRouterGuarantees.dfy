/**
 * What the file router promises over whole runs, with crashes between any two effects: order and
 * conservation of lines, the fate of every target, and how little a restart can repeat.
 */
module FileRouterGuarantees {
  import opened Wrappers
  import HostRegistry
  import opened HostAddressing
  import opened DedupWindow
  import opened DedupKeys
  import opened FileRouterModel
  import opened FileRouterPasses
  import opened FileRouterSafety
  import Host = FileRouterModel
  import Text

  type Sid = HostRegistry.Sid

  function Lives(w: World): seq<Life> {
    w.past + [w.life]
  }

  /** Where a life leaves the cursor: in memory for the running one, as the next life found it for the others. */
  function FoundBy(w: World, k: nat): nat
    requires k < |Lives(w)|
  {
    if k < |w.past| then Successor(w.past, w.life.from, k) else w.router.cursor
  }

  lemma LifeIsLawful(c: Config, text: string, disk: nat, steps: seq<Host.Step>, k: nat)
    requires k < |Lives(Host.Run(c, Boot(text, disk, []), steps))|
    ensures var w := Host.Run(c, Boot(text, disk, []), steps);
            LawfulLife(c, Lives(w)[k], Lines(w)) && Follows(Lives(w)[k], FoundBy(w, k))
  {
    hide LawfulLife, Host.Run;
    Reachable(c, text, disk, steps);
  }

  // ------------------------------------------------------------------- one life

  /** The `j`-th line a life retired. */
  predicate InTurn(life: Life, lines: seq<string>, gone: seq<Effect>, j: nat)
    requires j < |gone|
  {
    gone[j].Retired? && gone[j].index == life.from + j && IsLine(lines, gone[j].index, gone[j].line)
  }

  lemma {:induction false} RetiredInOrder(c: Config, life: Life, lines: seq<string>, k: nat, j: nat)
    requires LawfulLife(c, life, lines) && k <= |life.effects| && j < |Retirements(life.effects[..k])|
    ensures InTurn(life, lines, Retirements(life.effects[..k]), j)
  {
    hide LawfulLife;
    assert k > 0;
    var before, e := Retirements(life.effects[..k - 1]), life.effects[k - 1];
    LawOf(c, life, lines, k - 1);
    assert life.effects[..k][..k - 1] == life.effects[..k - 1];
    assert Retirements(life.effects[..k]) == before + if e.Retired? then [e] else [];
    if j < |before| {
      RetiredInOrder(c, life, lines, k - 1, j);
    }
  }

  lemma {:induction false} RetirementsGrow(effects: seq<Effect>, j: nat, k: nat)
    requires j <= k <= |effects|
    ensures |Retirements(effects[..j])| <= |Retirements(effects[..k])|
    ensures j < k && effects[j].Retired? ==> |Retirements(effects[..j])| < |Retirements(effects[..k])|
  {
    if j < k {
      RetirementsGrow(effects, j, k - 1);
      assert effects[..k][..k - 1] == effects[..k - 1];
    }
  }

  /** Everything a life does concerns lines from where it began up to where it is. */
  lemma InRange(c: Config, life: Life, lines: seq<string>, k: nat)
    requires LawfulLife(c, life, lines) && k < |life.effects| && !life.effects[k].Saved?
    ensures life.effects[k].index == At(life, life.effects[..k]) <= At(life, life.effects)
  {
    LawOf(c, life, lines, k);
    RetirementsGrow(life.effects, k, |life.effects|);
    assert life.effects[..|life.effects|] == life.effects;
  }

  /** Once a line is retired its targets' stories do not change any more. */
  lemma {:induction false} StoryFrozen(c: Config, life: Life, lines: seq<string>, k: nat, n: nat, sid: Sid)
    requires LawfulLife(c, life, lines) && k < n <= |life.effects| && life.effects[k].Retired?
    ensures Story(life.effects[..n], life.effects[k].index, sid) == Story(life.effects[..k], life.effects[k].index, sid)
  {
    hide LawfulLife, Story;
    var e := life.effects[n - 1];
    LawOf(c, life, lines, n - 1);
    LawOf(c, life, lines, k);
    assert life.effects[..n] == life.effects[..n - 1] + [e];
    StorySnoc(life.effects[..n - 1], e, life.effects[k].index, sid);
    if n - 1 > k {
      RetirementsGrow(life.effects, k, n - 1);
      StoryFrozen(c, life, lines, k, n - 1, sid);
    }
  }

  // ----------------------------------------------------------------- conservation

  datatype Tally = Tally(echoed: nat, blank: nat, malformed: nat, unroutable: nat, skipped: nat, duplicate: nat, settled: nat)
  {
    function Total(): nat {
      echoed + blank + malformed + unroutable + skipped + duplicate + settled
    }

    function Count(fate: Fate): Tally {
      match fate
      case Echoed => this.(echoed := echoed + 1)
      case Blank => this.(blank := blank + 1)
      case Malformed => this.(malformed := malformed + 1)
      case Unroutable(_, _, _, _) => this.(unroutable := unroutable + 1)
      case Skipped(_) => this.(skipped := skipped + 1)
      case Duplicate(_) => this.(duplicate := duplicate + 1)
      case Settled(_) => this.(settled := settled + 1)
    }
  }

  function Tallied(effects: seq<Effect>): Tally {
    if effects == [] then Tally(0, 0, 0, 0, 0, 0, 0)
    else
      var last := effects[|effects| - 1];
      var before := Tallied(effects[..|effects| - 1]);
      if last.Retired? then before.Count(last.fate) else before
  }

  lemma {:induction false} TalliedCounts(effects: seq<Effect>)
    ensures Tallied(effects).Total() == |Retirements(effects)|
  {
    if effects != [] { TalliedCounts(effects[..|effects| - 1]); }
  }

  /**
   * Conservation and order: in every reachable world the running life's cursor has moved by exactly the
   * lines it echoed, found blank, malformed or unroutable, skipped, dropped as duplicates or settled; the
   * lines of every life left in inbox order, one after the other, and are still the inbox lines of those
   * numbers.
   */
  lemma Conservation(c: Config, text: string, disk: nat, steps: seq<Host.Step>, k: nat)
    requires k < |Lives(Host.Run(c, Boot(text, disk, []), steps))|
    ensures var w := Host.Run(c, Boot(text, disk, []), steps);
            var life := Lives(w)[k];
            var gone := Retirements(life.effects);
            && w.router.cursor == w.life.from + Tallied(w.life.effects).Total() <= |Lines(w)|
            && |gone| == Tallied(life.effects).Total()
            && forall j :: 0 <= j < |gone| ==> InTurn(life, Lines(w), gone, j)
  {
    hide LawfulLife, Host.Run, Retirements, Tallied;
    var w := Host.Run(c, Boot(text, disk, []), steps);
    var life := Lives(w)[k];
    Reachable(c, text, disk, steps);
    LifeIsLawful(c, text, disk, steps, k);
    TalliedCounts(life.effects);
    TalliedCounts(w.life.effects);
    assert life.effects[..|life.effects|] == life.effects;
    forall j | 0 <= j < |Retirements(life.effects)| ensures InTurn(life, Lines(w), Retirements(life.effects), j) {
      RetiredInOrder(c, life, Lines(w), |life.effects|, j);
    }
  }

  // --------------------------------------------------------------------- targets

  /** In every life each target of each line is woken successfully at most once, and woken at most `maxWakeFailures` times. */
  lemma SinkCallsBounded(c: Config, text: string, disk: nat, steps: seq<Host.Step>, k: nat, index: nat, sid: Sid)
    requires k < |Lives(Host.Run(c, Boot(text, disk, []), steps))|
    ensures var story := Story(Lives(Host.Run(c, Boot(text, disk, []), steps))[k].effects, index, sid);
            Deliveries(story) <= 1 && SinkCalls(story) <= c.Bound()
  {
    hide LawfulLife, Host.Run, Story, Legal, Deliveries, SinkCalls;
    var w := Host.Run(c, Boot(text, disk, []), steps);
    var life := Lives(w)[k];
    LifeIsLawful(c, text, disk, steps, k);
    StoriesLegal(c, life, Lines(w), |life.effects|, index, sid);
    assert life.effects[..|life.effects|] == life.effects;
    LegalMeans(Story(life.effects, index, sid), c.Bound());
  }

  /**
   * What became of a line that left. A settled one was opened for exactly the targets its address had under
   * the registry read for it; each of them has exactly one end, delivered, buried or left to its native lane,
   * borne out by the answers it was read from; and nobody else was woken for it. A line of any other fate
   * has that fate by its content and the registry read for it, and none of its targets was touched. A
   * duplicate shares a key with an earlier settled line of the same life, or with the other intake.
   */
  ghost predicate Accounted(c: Config, life: Life, e: Effect)
    requires e.Retired?
  {
    && (forall sid :: if e.fate.Settled? && sid in e.fate.sids then Finished(Story(life.effects, e.index, sid), c.Bound())
                      else Story(life.effects, e.index, sid) == [])
    && FateFits(c, e.line, e.fate)
    && (e.fate.Settled? ==> OpenedFor(c, life.effects, e.index, e.line, e.fate.sids))
    && (e.fate.Duplicate? ==> exists key ::
          && key in KeySet(DigestKeys(e.line, c.parse(e.line).GetOr(Message(None, "", None, None))))
          && (key in life.outside || SettledUnder(c, life, e.index, key)))
  }

  /** Some line before `index` settled in this life under the key. */
  ghost predicate SettledUnder(c: Config, life: Life, index: nat, key: string) {
    exists j :: 0 <= j < |life.effects| && SettlesUnder(c, life.effects[j], index, key)
  }

  predicate SettlesUnder(c: Config, e: Effect, index: nat, key: string) {
    && e.Retired? && e.fate.Settled? && e.index < index && c.parse(e.line).Some?
    && key in KeySet(DigestKeys(e.line, c.parse(e.line).value))
  }

  lemma SettledKeysStep(c: Config, life: Life, lines: seq<string>, before: seq<Effect>, e: Effect, key: string)
    requires LawAt(c, life, lines, before, e) && key in SettledKeys(c, before + [e])
    ensures key in SettledKeys(c, before) || SettlesUnder(c, e, At(life, before + [e]), key)
    ensures At(life, before) <= At(life, before + [e])
  {
    hide Legal, Deserved, IsLine, OpensFor, Story, KeySet, DigestKeys;
    assert (before + [e])[..|before|] == before;
  }

  lemma NoKeyYet(c: Config, effects: seq<Effect>, key: string)
    requires key in SettledKeys(c, effects)
    ensures effects != []
  {
  }

  lemma SettlesLater(c: Config, e: Effect, index: nat, later: nat, key: string)
    requires SettlesUnder(c, e, index, key) && index <= later
    ensures SettlesUnder(c, e, later, key)
  {
  }

  lemma {:induction false} KeyWasSettled(c: Config, life: Life, lines: seq<string>, k: nat, key: string) returns (j: nat)
    requires LawfulLife(c, life, lines) && k <= |life.effects| && key in SettledKeys(c, life.effects[..k])
    ensures j < k && SettlesUnder(c, life.effects[j], At(life, life.effects[..k]), key)
  {
    hide *;
    NoKeyYet(c, life.effects[..k], key);
    var before, e := life.effects[..k - 1], life.effects[k - 1];
    assert life.effects[..k] == before + [e];
    LawOf(c, life, lines, k - 1);
    SettledKeysStep(c, life, lines, before, e, key);
    if key in SettledKeys(c, before) {
      j := KeyWasSettled(c, life, lines, k - 1, key);
      SettlesLater(c, life.effects[j], At(life, before), At(life, before + [e]), key);
    } else {
      j := k - 1;
    }
  }

  lemma RetirementAccounted(c: Config, life: Life, lines: seq<string>, k: nat)
    requires LawfulLife(c, life, lines) && k < |life.effects| && life.effects[k].Retired?
    ensures Accounted(c, life, life.effects[k])
  {
    hide LawfulLife, Story, Finished, SettledKeys, KeySet, DigestKeys;
    var e := life.effects[k];
    LawOf(c, life, lines, k);
    assert life.effects[..|life.effects|] == life.effects;
    forall sid ensures Story(life.effects, e.index, sid) == Story(life.effects[..k], e.index, sid) {
      StoryFrozen(c, life, lines, k, |life.effects|, sid);
    }
    if e.fate.Settled? {
      var o :| o in life.effects[..k] && OpensFor(c, o, e.index, e.line, e.fate.sids);
      assert o in life.effects;
    }
    if e.fate.Duplicate? {
      var keys := KeySet(DigestKeys(e.line, c.parse(e.line).value));
      var key :| key in keys * (life.outside + SettledKeys(c, life.effects[..k]));
      if key !in life.outside {
        var j := KeyWasSettled(c, life, lines, k, key);
        assert SettledUnder(c, life, e.index, key);
      }
    }
  }

  // ------------------------------------------------------------------- coverage

  ghost predicate RetiredIn(c: Config, life: Life, index: nat) {
    exists j :: 0 <= j < |life.effects| && life.effects[j].Retired? && life.effects[j].index == index && Accounted(c, life, life.effects[j])
  }

  lemma {:induction false} RetiredWithin(c: Config, life: Life, lines: seq<string>, n: nat, index: nat) returns (k: nat)
    requires LawfulLife(c, life, lines) && n <= |life.effects| && life.from <= index < At(life, life.effects[..n])
    ensures k < n && life.effects[k].Retired? && life.effects[k].index == index
  {
    assert n > 0;
    hide LawfulLife, Deserved, Legal, IsLine, Story;
    assert life.effects[..n][..n - 1] == life.effects[..n - 1];
    LawOf(c, life, lines, n - 1);
    if index < At(life, life.effects[..n - 1]) {
      k := RetiredWithin(c, life, lines, n - 1, index);
    } else {
      k := n - 1;
    }
  }

  lemma LifeCovers(c: Config, life: Life, lines: seq<string>, index: nat)
    requires LawfulLife(c, life, lines) && life.from <= index < At(life, life.effects)
    ensures RetiredIn(c, life, index)
  {
    hide LawfulLife, Accounted, Retirements;
    assert life.effects[..|life.effects|] == life.effects;
    var k := RetiredWithin(c, life, lines, |life.effects|, index);
    RetirementAccounted(c, life, lines, k);
  }

  lemma {:induction false} PastCovers(c: Config, past: seq<Life>, from: nat, lines: seq<string>, index: nat) returns (k: nat)
    requires Chain(c, past, from, lines) && |past| > 0 && past[0].from <= index < from
    ensures k < |past| && RetiredIn(c, past[k], index)
  {
    hide LawfulLife, RetiredIn, Retirements;
    var n := |past| - 1;
    assert LawfulLife(c, past[n], lines) && Follows(past[n], Successor(past, from, n));
    if past[n].from <= index {
      LifeCovers(c, past[n], lines, index);
      k := n;
    } else {
      var before := past[..n];
      forall j | 0 <= j < |before| ensures LawfulLife(c, before[j], lines) && Follows(before[j], Successor(before, past[n].from, j)) {
        assert Successor(before, past[n].from, j) == Successor(past, from, j);
      }
      k := PastCovers(c, before, past[n].from, lines, index);
    }
  }

  /**
   * At least once: every line from where the first life began up to the cursor left the inbox in some
   * life, and is accounted for there, whatever crashes came between.
   */
  lemma NoLineLost(c: Config, text: string, disk: nat, steps: seq<Host.Step>, index: nat)
    requires var w := Host.Run(c, Boot(text, disk, []), steps);
             Lives(w)[0].from <= index < w.router.cursor
    ensures var w := Host.Run(c, Boot(text, disk, []), steps);
            exists k :: 0 <= k < |Lives(w)| && RetiredIn(c, Lives(w)[k], index)
  {
    hide LawfulLife, RetiredIn, Retirements, Host.Run, PendingOk;
    var w := Host.Run(c, Boot(text, disk, []), steps);
    Reachable(c, text, disk, steps);
    if w.life.from <= index {
      LifeCovers(c, w.life, Lines(w), index);
      assert RetiredIn(c, Lives(w)[|w.past|], index);
    } else {
      var k := PastCovers(c, w.past, w.life.from, Lines(w), index);
      assert RetiredIn(c, Lives(w)[k], index);
    }
  }

  // -------------------------------------------------------------------- restarts

  lemma {:induction false} FromsRise(c: Config, w: World, a: nat, b: nat)
    requires Inv(c, w) && a <= b < |Lives(w)|
    ensures Lives(w)[a].from <= Lives(w)[b].from
    decreases b
  {
    hide Inv;
    if a < b {
      FromsRise(c, w, a, b - 1);
      NextLifeFollows(c, w, b - 1);
      FollowsIsLater(w.past[b - 1], Lives(w)[b].from);
    }
  }

  lemma NextLifeFollows(c: Config, w: World, k: nat)
    requires Inv(c, w) && k < |w.past|
    ensures Follows(w.past[k], Lives(w)[k + 1].from)
  {
    hide LawfulLife, PendingOk, Follows;
    assert LawfulLife(c, w.past[k], Lines(w)) && Follows(w.past[k], Successor(w.past, w.life.from, k));
  }

  lemma FollowsIsLater(life: Life, from: nat)
    requires Follows(life, from)
    ensures life.from <= from
  {
  }

  /** A life's effects concern no line beyond the one the next life begins on. */
  lemma NothingBeyond(c: Config, life: Life, lines: seq<string>, from: nat, k: nat)
    requires LawfulLife(c, life, lines) && Follows(life, from) && k < |life.effects| && !life.effects[k].Saved?
    ensures life.from <= life.effects[k].index <= from
  {
    hide LawfulLife, Retirements;
    InRange(c, life, lines, k);
    if from != At(life, life.effects) {
      var n := |life.effects| - 1;
      InRange(c, life, lines, n);
      RetirementsGrow(life.effects, k, n);
      RetirementsGrow(life.effects, n, n + 1);
      assert life.effects[..n + 1] == life.effects;
      LawOf(c, life, lines, n);
      LastRetires(life.effects);
    }
  }

  lemma LastRetires(effects: seq<Effect>)
    requires effects != [] && effects[|effects| - 1].Retired?
    ensures |Retirements(effects)| == |Retirements(effects[..|effects| - 1])| + 1
  {
  }

  /**
   * A restart repeats at most one line: whatever an earlier life did concerns lines up to the one the
   * later life found in the cursor file, and whatever the later life does concerns lines from that one on.
   */
  lemma RestartRepeatsOneLine(c: Config, text: string, disk: nat, steps: seq<Host.Step>, a: nat, b: nat, i: nat, j: nat)
    requires var lives := Lives(Host.Run(c, Boot(text, disk, []), steps));
             && a < b < |lives| && i < |lives[a].effects| && j < |lives[b].effects|
             && !lives[a].effects[i].Saved? && !lives[b].effects[j].Saved?
    ensures var lives := Lives(Host.Run(c, Boot(text, disk, []), steps));
            lives[a].effects[i].index <= lives[b].from <= lives[b].effects[j].index
  {
    hide LawfulLife, Host.Run, Host.Next, Inv, Retirements, Follows;
    var w := Host.Run(c, Boot(text, disk, []), steps);
    var lives := Lives(w);
    Reachable(c, text, disk, steps);
    LifeIsLawful(c, text, disk, steps, a);
    LifeIsLawful(c, text, disk, steps, b);
    NothingBeyond(c, lives[a], Lines(w), FoundBy(w, a), i);
    assert FoundBy(w, a) == lives[a + 1].from;
    FromsRise(c, w, a + 1, b);
    InRange(c, lives[b], Lines(w), j);
  }

  // ------------------------------------------------------------------ duplicates

  /** The marks a settled line leaves, as calls on the window. */
  function MarkOps(p: Pending, pass: Pass): seq<Op<string, Option<string>>> {
    [Mark(p.keys.primary, p.message.msgid, pass.at1, pass.sweep1)]
    + if p.keys.secondary.Some? then [Mark(p.keys.secondary.value, p.message.msgid, pass.at2, pass.sweep2)] else []
  }

  lemma RunMore(windowMs: int, ops: seq<Op<string, Option<string>>>, op: Op<string, Option<string>>)
    ensures DedupWindow.Run(windowMs, ops + [op]) == Apply(DedupWindow.Run(windowMs, ops), windowMs, op)
  {
    assert (ops + [op])[..|ops|] == ops;
  }

  lemma SettlingMarksBoth(c: Config, ops: seq<Op<string, Option<string>>>, p: Pending, pass: Pass)
    ensures MarkKeys(DedupWindow.Run(c.windowMs, ops), c, p, pass) == DedupWindow.Run(c.windowMs, ops + MarkOps(p, pass))
    ensures MarkedBoth(ops + MarkOps(p, pass), |ops|, p.keys)
  {
    hide Apply;
    var one: Op<string, Option<string>> := Mark(p.keys.primary, p.message.msgid, pass.at1, pass.sweep1);
    RunMore(c.windowMs, ops, one);
    if p.keys.secondary.Some? {
      var two: Op<string, Option<string>> := Mark(p.keys.secondary.value, p.message.msgid, pass.at2, pass.sweep2);
      RunMore(c.windowMs, ops + [one], two);
      assert ops + MarkOps(p, pass) == (ops + [one]) + [two];
    } else {
      assert MarkOps(p, pass) == [one];
    }
  }

  /** What one piece of work calls on the window: the marks of the line it settles, if it settles one. */
  function SettlingCalls(c: Config, w: World, work: Work): seq<Op<string, Option<string>>> {
    if work.Pursue? && w.router.pending.Some? && Deliver(c, w.router.cursor, w.router.pending.value, work.pass).done
    then MarkOps(w.router.pending.value, work.pass) else []
  }

  /** All calls on the window during the life that is running after the steps, its own and the other intake's. */
  function WindowCalls(c: Config, text: string, disk: nat, steps: seq<Host.Step>): seq<Op<string, Option<string>>> {
    if steps == [] then []
    else
      var before := steps[..|steps| - 1];
      var calls := WindowCalls(c, text, disk, before);
      match steps[|steps| - 1]
      case Append(_) => calls
      case MarkElsewhere(key, meta, at, sweep) => calls + [Mark(key, meta, at, sweep)]
      case Do(work) => calls + SettlingCalls(c, Host.Run(c, Boot(text, disk, []), before), work)
      case Crash(_, _) => []
  }

  lemma WorkMarks(c: Config, w: World, work: Work, calls: seq<Op<string, Option<string>>>)
    requires w.router.marks == DedupWindow.Run(c.windowMs, calls)
    ensures Host.Next(c, w, Do(work)).router.marks == DedupWindow.Run(c.windowMs, calls + SettlingCalls(c, w, work))
  {
    hide DedupWindow.Run, Deliver, MarkKeys, MarkOps, Judge;
    assert calls + [] == calls;
    if SettlingCalls(c, w, work) != [] {
      SettlingMarksBoth(c, calls, w.router.pending.value, work.pass);
    } else {
      NoCallsNoMarks(c, w, work);
    }
  }

  lemma NoCallsNoMarks(c: Config, w: World, work: Work)
    requires SettlingCalls(c, w, work) == []
    ensures Host.Next(c, w, Do(work)).router.marks == w.router.marks
  {
    hide Deliver, MarkKeys, Judge;
  }

  /** The router's window is what the calls of its life have made of it. */
  lemma {:induction false} WindowFollowsCalls(c: Config, text: string, disk: nat, steps: seq<Host.Step>)
    ensures Host.Run(c, Boot(text, disk, []), steps).router.marks == DedupWindow.Run(c.windowMs, WindowCalls(c, text, disk, steps))
  {
    if steps != [] {
      hide DedupWindow.Run, SettlingCalls, Perform, Apply;
      var before := steps[..|steps| - 1];
      var w, calls := Host.Run(c, Boot(text, disk, []), before), WindowCalls(c, text, disk, before);
      WindowFollowsCalls(c, text, disk, before);
      match steps[|steps| - 1]
      case Append(_) =>
      case MarkElsewhere(key, meta, at, sweep) => RunMore(c.windowMs, calls, Mark(key, meta, at, sweep));
      case Do(work) => WorkMarks(c, w, work, calls);
      case Crash(_, _) => NothingMarked(c.windowMs);
    }
  }

  lemma NothingMarked(windowMs: int)
    ensures DedupWindow.Run<string, Option<string>>(windowMs, []) == map[]
  {
  }

  /** Work at step `m` settled the pending line, and the same life is running since. */
  predicate SettledSince(c: Config, text: string, disk: nat, steps: seq<Host.Step>, m: nat, pass: Pass) {
    && m < |steps| && steps[m] == Do(Pursue(pass))
    && (forall k :: m <= k < |steps| ==> !steps[k].Crash?)
    && Host.Run(c, Boot(text, disk, []), steps[..m]).router.pending.Some?
    && SettlingCalls(c, Host.Run(c, Boot(text, disk, []), steps[..m]), Pursue(pass)) != []
  }

  lemma {:induction false} CallsLater(c: Config, text: string, disk: nat, steps: seq<Host.Step>, m: nat)
    requires m <= |steps| && forall k :: m <= k < |steps| ==> !steps[k].Crash?
    ensures WindowCalls(c, text, disk, steps[..m]) <= WindowCalls(c, text, disk, steps)
  {
    hide SettlingCalls, Host.Run;
    if m == |steps| {
      assert steps[..m] == steps;
    } else {
      var before := steps[..|steps| - 1];
      assert before[..m] == steps[..m];
      CallsLater(c, text, disk, before, m);
    }
  }

  lemma PendingKeys(c: Config, text: string, disk: nat, steps: seq<Host.Step>)
    requires Host.Run(c, Boot(text, disk, []), steps).router.pending.Some?
    ensures var p := Host.Run(c, Boot(text, disk, []), steps).router.pending.value;
            p.keys == DigestKeys(p.line, p.message)
  {
    hide Host.Run, LawfulLife, Chain, DigestKeys, OpenedFor, TargetState, Balanced;
    Reachable(c, text, disk, steps);
  }

  lemma MarkedInLife(c: Config, text: string, disk: nat, steps: seq<Host.Step>, m: nat, pass: Pass)
    requires SettledSince(c, text, disk, steps, m, pass)
    ensures var p := Host.Run(c, Boot(text, disk, []), steps[..m]).router.pending.value;
            var calls, i := WindowCalls(c, text, disk, steps), |WindowCalls(c, text, disk, steps[..m])|;
            MarkedBoth(calls, i, DigestKeys(p.line, p.message)) && calls[i].at == pass.at1
  {
    hide Host.Run, DigestKeys;
    var p := Host.Run(c, Boot(text, disk, []), steps[..m]).router.pending.value;
    var calls := WindowCalls(c, text, disk, steps[..m]);
    PendingKeys(c, text, disk, steps[..m]);
    assert steps[..m + 1][..m] == steps[..m];
    assert WindowCalls(c, text, disk, steps[..m + 1]) == calls + MarkOps(p, pass);
    CallsLater(c, text, disk, steps, m + 1);
  }

  /**
   * What settles is remembered: once a line settled, and as long as its life runs on a clock that does not run
   * back, a line of the same sender that repeats its message id or body is stepped over without being opened
   * while the window lasts, whatever came in between: other lines, passes, and marks of the other intake.
   */
  lemma ResendNotReopened(c: Config, text: string, disk: nat, steps: seq<Host.Step>, m: nat, pass: Pass, look: Look)
    requires SettledSince(c, text, disk, steps, m, pass)
    requires var p := Host.Run(c, Boot(text, disk, []), steps[..m]).router.pending.value;
             var w := Host.Run(c, Boot(text, disk, []), steps);
             && w.router.pending.None? && w.router.cursor < |Lines(w)|
             && var parsed := c.parse(Lines(w)[w.router.cursor]);
                parsed.Some? && Resend(p.line, p.message, Lines(w)[w.router.cursor], parsed.value)
    requires Monotone(WindowCalls(c, text, disk, steps), look.now1) && look.now1 <= look.now2
    requires look.now2 - pass.at1 < c.windowMs
    ensures var w := Host.Run(c, Boot(text, disk, []), steps);
            var next, n := Host.Next(c, w, Do(Take(look))), |w.life.effects|;
            && next.router.pending.None? && next.router.cursor == w.router.cursor + 1
            && |next.life.effects| == n + 2 && next.life.effects[..n] == w.life.effects
            && next.life.effects[n].Retired? && next.life.effects[n].line == Lines(w)[w.router.cursor]
            && !next.life.effects[n].fate.Settled?
  {
    hide DedupWindow.Run, Host.Run, HostHit, DigestKeys, Monotone, MarkedBoth, Resend, SettlingCalls, WindowCalls, Lines;
    var p := Host.Run(c, Boot(text, disk, []), steps[..m]).router.pending.value;
    var w := Host.Run(c, Boot(text, disk, []), steps);
    var line := Lines(w)[w.router.cursor];
    WindowFollowsCalls(c, text, disk, steps);
    MarkedInLife(c, text, disk, steps, m, pass);
    ResendCaught(c.windowMs, WindowCalls(c, text, disk, steps), |WindowCalls(c, text, disk, steps[..m])|,
                 p.line, p.message, line, c.parse(line).value, look.now1, look.now2);
    RepeatIsDropped(c, w, line, look);
  }

  lemma RepeatIsDropped(c: Config, w: World, line: string, look: Look)
    requires w.router.pending.None? && w.router.cursor < |Lines(w)| && line == Lines(w)[w.router.cursor] && c.parse(line).Some?
    requires HostHit(w.router.marks, c.windowMs, DigestKeys(line, c.parse(line).value), look.now1, look.now2)
    ensures var next, n := Host.Next(c, w, Do(Take(look))), |w.life.effects|;
            && next.router.pending.None? && next.router.cursor == w.router.cursor + 1
            && |next.life.effects| == n + 2 && next.life.effects[..n] == w.life.effects
            && next.life.effects[n].Retired? && next.life.effects[n].line == line && !next.life.effects[n].fate.Settled?
  {
    hide HostHit, DigestKeys, ResolveHostRouting, Text.Trim, ParseAddress, LastSaved, Lines;
  }
}
