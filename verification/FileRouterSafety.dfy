/**
 * What holds of every process life of the file router, finished or cut off by a crash anywhere, and how
 * one life follows another.
 */
module FileRouterSafety {
  import opened Wrappers
  import HostRegistry
  import opened HostAddressing
  import opened DedupWindow
  import opened DedupKeys
  import opened FileRouterModel
  import Host = FileRouterModel
  import opened FileRouterPasses
  import Text

  type Sid = HostRegistry.Sid
  type Registry = HostRegistry.Registry

  // ------------------------------------------------------------ legal stories

  predicate AllRefused(story: seq<Effect>) {
    forall k :: 0 <= k < |story| ==> story[k].Refused?
  }

  /** The answers an end was read from bear it out: the native cursor had passed, and an unrouted target is not routable. */
  predicate Evidenced(e: Effect)
    requires e.Ended?
  {
    match e.how
    case Unrouted(registry, passed) => !Routable(registry, e.sid) && e.sid in passed
    case NativeTook(passed) => e.sid in passed
    case _ => true
  }

  /**
   * A target's finished story: refusals, then one evidenced end. A delivery comes within `bound` wake-ups, a burial
   * for failing comes after exactly `bound` refusals.
   */
  predicate Finished(story: seq<Effect>, bound: nat) {
    && |story| > 0 && AllRefused(story[..|story| - 1]) && story[|story| - 1].Ended? && Evidenced(story[|story| - 1])
    && (if story[|story| - 1].how.WakeFailed? then |story| == bound + 1 else |story| <= bound)
  }

  predicate Legal(story: seq<Effect>, bound: nat) {
    Finished(story, bound) || (AllRefused(story) && |story| <= bound)
  }

  lemma LegalPrefix(prefix: seq<Effect>, story: seq<Effect>, bound: nat)
    requires prefix <= story && Legal(story, bound)
    ensures Legal(prefix, bound)
  {
    if |prefix| < |story| && Finished(story, bound) {
      assert prefix == story[..|story| - 1][..|prefix|];
    }
  }

  function Deliveries(story: seq<Effect>): nat {
    if story == [] then 0
    else
      var last := story[|story| - 1];
      Deliveries(story[..|story| - 1]) + if last.Ended? && last.how.Delivered? then 1 else 0
  }

  /** Wake-ups, refused or not. */
  function SinkCalls(story: seq<Effect>): nat {
    if story == [] then 0
    else
      var last := story[|story| - 1];
      SinkCalls(story[..|story| - 1]) + if last.Refused? || (last.Ended? && last.how.Delivered?) then 1 else 0
  }

  lemma {:induction false} RefusalsDeliverNothing(story: seq<Effect>)
    requires AllRefused(story)
    ensures Deliveries(story) == 0 && SinkCalls(story) == |story|
  {
    if story != [] { RefusalsDeliverNothing(story[..|story| - 1]); }
  }

  lemma LegalMeans(story: seq<Effect>, bound: nat)
    requires Legal(story, bound)
    ensures Deliveries(story) <= 1 && SinkCalls(story) <= bound
  {
    if AllRefused(story) { RefusalsDeliverNothing(story); }
    else { RefusalsDeliverNothing(story[..|story| - 1]); }
  }

  // ---------------------------------------------------------------- retirements

  function Retirements(effects: seq<Effect>): seq<Effect> {
    if effects == [] then []
    else
      var last := effects[|effects| - 1];
      Retirements(effects[..|effects| - 1]) + if last.Retired? then [last] else []
  }

  lemma {:induction false} RetirementsConcat(a: seq<Effect>, b: seq<Effect>)
    ensures Retirements(a + b) == Retirements(a) + Retirements(b)
  {
    if b == [] {
      assert a + b == a;
    } else {
      RetirementsConcat(a, b[..|b| - 1]);
      assert (a + b)[..|a + b| - 1] == a + b[..|b| - 1];
    }
  }

  /** Keys of the lines settled so far. */
  function SettledKeys(c: Config, effects: seq<Effect>): set<string> {
    if effects == [] then {}
    else
      var last := effects[|effects| - 1];
      SettledKeys(c, effects[..|effects| - 1])
      + if last.Retired? && last.fate.Settled? && c.parse(last.line).Some?
        then KeySet(DigestKeys(last.line, c.parse(last.line).value)) else {}
  }

  lemma {:induction false} SettledKeysConcat(c: Config, a: seq<Effect>, b: seq<Effect>)
    ensures SettledKeys(c, a + b) == SettledKeys(c, a) + SettledKeys(c, b)
  {
    if b == [] {
      assert a + b == a;
    } else {
      SettledKeysConcat(c, a, b[..|b| - 1]);
      assert (a + b)[..|a + b| - 1] == a + b[..|b| - 1];
    }
  }

  // ------------------------------------------------------------- laws of a life

  /** The index the router works on after the given effects. */
  function At(life: Life, effects: seq<Effect>): nat {
    life.from + |Retirements(effects)|
  }

  predicate IsLine(lines: seq<string>, index: nat, line: string) {
    index < |lines| && lines[index] == line
  }

  /** A line dropped as a duplicate shares a key with a line settled before it, or with the other intake. */
  predicate Repeats(c: Config, outside: set<string>, before: seq<Effect>, line: string) {
    c.parse(line).Some? && KeySet(DigestKeys(line, c.parse(line).value)) * (outside + SettledKeys(c, before)) != {}
  }

  /** What the line's address resolves to under a registry, if the line is a message. */
  predicate RoutedAs(c: Config, line: string, registry: Registry, routing: Routing) {
    c.parse(line).Some? && ResolveHostRouting(ParseAddress(c.parse(line).value.to), registry) == routing
  }

  /** What kind of line may leave by which fate, under the registry and the native cursors read for it. */
  predicate FateFits(c: Config, line: string, fate: Fate) {
    && (fate.Echoed? <==> c.echoPrefix <= line)
    && (fate.Blank? <==> !(c.echoPrefix <= line) && |Text.Trim(line)| == 0)
    && (fate.Malformed? <==> !(c.echoPrefix <= line) && |Text.Trim(line)| > 0 && c.parse(line).None?)
    && (fate.Unroutable? ==>
          && RoutedAs(c, line, fate.registry, Dead(fate.death))
          && fate.parallel == Parallel(ParseAddress(c.parse(line).value.to), fate.death, fate.passed))
    && (fate.Skipped? ==> RoutedAs(c, line, fate.registry, Skip))
    && (fate.Duplicate? ==>
          c.parse(line).Some? && ResolveHostRouting(ParseAddress(c.parse(line).value.to), fate.registry).Wake?)
  }

  /** The line was opened for exactly the given targets, as the registry read for it routes it. */
  predicate OpensFor(c: Config, e: Effect, index: nat, line: string, sids: seq<Sid>) {
    && e.Opened? && e.index == index && e.line == line && e.sids == sids
    && RoutedAs(c, line, e.registry, Wake(e.broadcast, set sid | sid in sids))
  }

  predicate OpenedFor(c: Config, before: seq<Effect>, index: nat, line: string, sids: seq<Sid>) {
    exists e :: e in before && OpensFor(c, e, index, line, sids)
  }

  /** Why a line may leave: by what it is, and for a settled one by every target's finished story. */
  ghost predicate Deserved(c: Config, life: Life, before: seq<Effect>, e: Effect)
    requires e.Retired?
  {
    && FateFits(c, e.line, e.fate)
    && (e.fate.Settled? ==> OpenedFor(c, before, e.index, e.line, e.fate.sids))
    && (e.fate.Duplicate? ==> Repeats(c, life.outside, before, e.line))
    && (forall sid :: if e.fate.Settled? && sid in e.fate.sids then Finished(Story(before, e.index, sid), c.Bound())
                      else Story(before, e.index, sid) == [])
  }

  /** The law of one effect of a life, given those before it. */
  ghost predicate LawAt(c: Config, life: Life, lines: seq<string>, before: seq<Effect>, e: Effect) {
    match e
    case Opened(index, line, _, _, sids) =>
      index == At(life, before) && IsLine(lines, index, line) && OpensFor(c, e, index, line, sids)
      && forall sid :: Story(before, index, sid) == []
    case Refused(index, sid) => index == At(life, before) && Legal(Story(before + [e], index, sid), c.Bound())
    case Ended(index, sid, how) => index == At(life, before) && Legal(Story(before + [e], index, sid), c.Bound())
    case Retired(index, line, fate) =>
      index == At(life, before) && IsLine(lines, index, line) && Deserved(c, life, before, e)
    case Saved(cursor) => cursor == At(life, before) && before != [] && before[|before| - 1].Retired?
  }

  ghost predicate LawfulLife(c: Config, life: Life, lines: seq<string>) {
    forall k :: 0 <= k < |life.effects| ==> LawAt(c, life, lines, life.effects[..k], life.effects[k])
  }

  lemma LawOf(c: Config, life: Life, lines: seq<string>, k: nat)
    requires LawfulLife(c, life, lines) && k < |life.effects|
    ensures LawAt(c, life, lines, life.effects[..k], life.effects[k])
  {
  }

  lemma LawfulPrefix(c: Config, life: Life, lines: seq<string>, k: nat)
    requires LawfulLife(c, life, lines) && k <= |life.effects|
    ensures LawfulLife(c, life.(effects := life.effects[..k]), lines)
  {
    hide LawAt;
    var cut := life.(effects := life.effects[..k]);
    forall j | 0 <= j < k ensures LawAt(c, cut, lines, cut.effects[..j], cut.effects[j]) {
      assert cut.effects[..j] == life.effects[..j];
      assert LawAt(c, life, lines, life.effects[..j], life.effects[j]);
      SameLaw(c, life, cut, lines, lines, life.effects[..j], life.effects[j]);
    }
  }

  /** The law does not depend on later effects, and survives appended lines and further outside marks. */
  lemma SameLaw(c: Config, life: Life, life': Life, lines: seq<string>, lines': seq<string>, before: seq<Effect>, e: Effect)
    requires LawAt(c, life, lines, before, e)
    requires life.from == life'.from && life.outside <= life'.outside && lines <= lines'
    ensures LawAt(c, life', lines', before, e)
  {
    if e.Retired? && e.fate.Duplicate? {
      var keys := KeySet(DigestKeys(e.line, c.parse(e.line).value));
      var key :| key in keys * (life.outside + SettledKeys(c, before));
      assert key in keys * (life'.outside + SettledKeys(c, before));
    }
  }

  lemma LawfulLater(c: Config, life: Life, life': Life, lines: seq<string>, lines': seq<string>)
    requires LawfulLife(c, life, lines) && life'.effects == life.effects
    requires life.from == life'.from && life.outside <= life'.outside && lines <= lines'
    ensures LawfulLife(c, life', lines')
  {
    hide LawAt;
    forall k | 0 <= k < |life'.effects| ensures LawAt(c, life', lines', life'.effects[..k], life'.effects[k]) {
      SameLaw(c, life, life', lines, lines', life.effects[..k], life.effects[k]);
    }
  }

  lemma LawfulSnoc(c: Config, life: Life, lines: seq<string>, e: Effect)
    requires LawfulLife(c, life, lines) && LawAt(c, life, lines, life.effects, e)
    ensures LawfulLife(c, life.(effects := life.effects + [e]), lines)
  {
    hide LawAt;
    var more := life.(effects := life.effects + [e]);
    forall k | 0 <= k < |more.effects| ensures LawAt(c, more, lines, more.effects[..k], more.effects[k]) {
      assert more.effects[..k] == life.effects[..k];
      assert k == |life.effects| ==> life.effects[..k] == life.effects;
      SameLaw(c, life, more, lines, lines, life.effects[..k], more.effects[k]);
    }
  }

  lemma NothingYet(effects: seq<Effect>, index: nat, sid: Sid, bound: nat)
    requires effects == []
    ensures Story(effects, index, sid) == [] && Legal(Story(effects, index, sid), bound)
  {
  }

  lemma UntouchedStep(c: Config, life: Life, lines: seq<string>, before: seq<Effect>, e: Effect, index: nat, sid: Sid)
    requires LawAt(c, life, lines, before, e) && At(life, before + [e]) < index
    ensures At(life, before) < index
    ensures Story(before + [e], index, sid) == Story(before, index, sid)
  {
    hide Legal, Deserved, IsLine, Story, OpensFor, Retirements;
    RetirementsConcat(before, [e]);
    StorySnoc(before, e, index, sid);
  }

  /** Nothing has been done about a line beyond the one being worked on. */
  lemma {:induction false} Untouched(c: Config, life: Life, lines: seq<string>, k: nat, index: nat, sid: Sid)
    requires LawfulLife(c, life, lines) && k <= |life.effects| && At(life, life.effects[..k]) < index
    ensures Story(life.effects[..k], index, sid) == []
  {
    hide *;
    if k == 0 {
      NothingYet(life.effects[..k], index, sid, c.Bound());
    } else {
      LawOf(c, life, lines, k - 1);
      assert life.effects[..k] == life.effects[..k - 1] + [life.effects[k - 1]];
      UntouchedStep(c, life, lines, life.effects[..k - 1], life.effects[k - 1], index, sid);
      Untouched(c, life, lines, k - 1, index, sid);
    }
  }

  lemma LegalStep(c: Config, life: Life, lines: seq<string>, before: seq<Effect>, e: Effect, index: nat, sid: Sid)
    requires LawAt(c, life, lines, before, e) && Legal(Story(before, index, sid), c.Bound())
    ensures Legal(Story(before + [e], index, sid), c.Bound())
  {
    hide Story, Legal, Deserved, IsLine, Retirements;
    StorySnoc(before, e, index, sid);
  }

  /** In a lawful life every target's story is legal at every moment. */
  lemma {:induction false} StoriesLegal(c: Config, life: Life, lines: seq<string>, k: nat, index: nat, sid: Sid)
    requires LawfulLife(c, life, lines) && k <= |life.effects|
    ensures Legal(Story(life.effects[..k], index, sid), c.Bound())
  {
    hide *;
    if k == 0 {
      NothingYet(life.effects[..k], index, sid, c.Bound());
    } else {
      LawOf(c, life, lines, k - 1);
      StoriesLegal(c, life, lines, k - 1, index, sid);
      LegalStep(c, life, lines, life.effects[..k - 1], life.effects[k - 1], index, sid);
      assert life.effects[..k] == life.effects[..k - 1] + [life.effects[k - 1]];
    }
  }

  // ------------------------------------------------------------------ invariant

  function Tries(p: Pending): nat {
    if p.left == [] then 0 else p.left[0].tries
  }

  /** A target still left has been refused `tries` times; one no longer left has a finished story. */
  predicate TargetState(c: Config, story: seq<Effect>, p: Pending, sid: Sid, tries: nat) {
    if Has(p.left, sid) then sid in p.sids && AllRefused(story) && |story| == tries
    else if sid in p.sids then Finished(story, c.Bound())
    else story == []
  }

  predicate Balanced(c: Config, p: Pending, tries: nat) {
    Distinct(p.left) && Level(p.left, tries) && (p.left != [] ==> tries < c.Bound())
  }

  ghost predicate PendingOk(c: Config, life: Life, lines: seq<string>, index: nat, p: Pending) {
    && IsLine(lines, index, p.line) && !(c.echoPrefix <= p.line) && |Text.Trim(p.line)| > 0
    && OpenedFor(c, life.effects, index, p.line, p.sids) && c.parse(p.line) == Some(p.message) && p.keys == DigestKeys(p.line, p.message)
    && Balanced(c, p, Tries(p))
    && forall sid :: TargetState(c, Story(life.effects, index, sid), p, sid, Tries(p))
  }

  /** Where the life after a crash begins: behind the last retired line, or on it if its cursor was not saved. */
  predicate Follows(life: Life, from: nat) {
    || from == At(life, life.effects)
    || (life.effects != [] && life.effects[|life.effects| - 1].Retired? && from == At(life, life.effects) - 1)
  }

  function Successor(past: seq<Life>, from: nat, k: nat): nat
    requires k < |past|
  {
    if k + 1 < |past| then past[k + 1].from else from
  }

  ghost predicate Chain(c: Config, past: seq<Life>, from: nat, lines: seq<string>) {
    forall k :: 0 <= k < |past| ==> LawfulLife(c, past[k], lines) && Follows(past[k], Successor(past, from, k))
  }

  ghost predicate Inv(c: Config, w: World) {
    var lines, r := Lines(w), w.router;
    && r.cursor <= |lines| && w.disk == r.cursor
    && LawfulLife(c, w.life, lines) && At(w.life, w.life.effects) == r.cursor
    && (r.pending.None? ==> forall sid :: Story(w.life.effects, r.cursor, sid) == [])
    && (r.pending.Some? ==> PendingOk(c, w.life, lines, r.cursor, r.pending.value))
    && r.marks.Keys <= w.life.outside + SettledKeys(c, w.life.effects)
    && Chain(c, w.past, w.life.from, lines)
  }

  // --------------------------------------------------------------- a pass keeps it

  lemma {:induction false} DropsShape(index: nat, targets: seq<Target>, out: set<Sid>, how: End)
    ensures forall e :: e in Drops(index, targets, out, how) ==> e.Ended? && e.index == index
  {
    if targets != [] { DropsShape(index, targets[..|targets| - 1], out, how); }
  }

  lemma {:induction false} WakesShape(index: nat, targets: seq<Target>, refusing: set<Sid>, bound: nat)
    ensures forall e :: e in Wakes(index, targets, refusing, bound) ==> (e.Refused? || e.Ended?) && e.index == index
  {
    if targets != [] { WakesShape(index, targets[..|targets| - 1], refusing, bound); }
  }

  predicate TargetEffects(body: seq<Effect>, index: nat) {
    forall e :: e in body ==> (e.Refused? || e.Ended?) && e.index == index
  }

  lemma PassShape(c: Config, index: nat, p: Pending, pass: Pass)
    ensures TargetEffects(Deliver(c, index, p, pass).effects, index)
  {
    hide Drops, Wakes, Kept, StillLeft, GoneTargets;
    var gone := GoneTargets(pass, p.left);
    var routed := Kept(p.left, gone);
    DropsShape(index, p.left, gone, UnroutedBy(pass));
    DropsShape(index, routed, pass.passedThen, TookBy(pass));
    WakesShape(index, Kept(routed, pass.passedThen), pass.refusing, c.Bound());
  }

  lemma {:induction false} TargetEffectsRetireNothing(body: seq<Effect>, index: nat)
    requires TargetEffects(body, index)
    ensures Retirements(body) == []
  {
    if body != [] { TargetEffectsRetireNothing(body[..|body| - 1], index); }
  }

  /** Effects on the current line's targets keep a life lawful if every story they end in is legal. */
  lemma {:induction false} LawfulBody(c: Config, life: Life, lines: seq<string>, body: seq<Effect>)
    requires LawfulLife(c, life, lines)
    requires TargetEffects(body, At(life, life.effects))
    requires forall sid :: Legal(Story(life.effects + body, At(life, life.effects), sid), c.Bound())
    ensures LawfulLife(c, life.(effects := life.effects + body), lines)
    ensures At(life, life.effects + body) == At(life, life.effects)
  {
    hide Story, Legal, LawfulLife, Retirements, IsLine, Deserved;
    var index := At(life, life.effects);
    RetirementsConcat(life.effects, body);
    TargetEffectsRetireNothing(body, index);
    if body == [] {
      assert life.effects + body == life.effects;
    } else {
      var prev, e := body[..|body| - 1], body[|body| - 1];
      assert e in body;
      assert life.effects + body == (life.effects + prev) + [e];
      forall sid ensures Legal(Story(life.effects + prev, index, sid), c.Bound()) {
        StorySnoc(life.effects + prev, e, index, sid);
        LegalPrefix(Story(life.effects + prev, index, sid), Story(life.effects + body, index, sid), c.Bound());
      }
      LawfulBody(c, life, lines, prev);
      LawfulSnoc(c, life.(effects := life.effects + prev), lines, e);
    }
  }

  lemma GoneIsEvidence(pass: Pass, targets: seq<Target>, index: nat, sid: Sid)
    ensures sid in GoneTargets(pass, targets) ==> Evidenced(Ended(index, sid, UnroutedBy(pass)))
  {
  }

  lemma TargetAfterPass(c: Config, index: nat, p: Pending, pass: Pass, tries: nat, story: seq<Effect>, sid: Sid)
    requires Balanced(c, p, tries) && TargetState(c, story, p, sid, tries)
    ensures var told := if Has(p.left, sid) then PassStory(c, index, p, pass, tries, sid) else [];
            var tries' := if Waits(p, pass) || Defers(p, pass) then tries else tries + 1;
            && TargetState(c, story + told, Deliver(c, index, p, pass).pending, sid, tries')
            && Legal(story + told, c.Bound())
  {
    hide Distinct, Level, Waits, Defers, GoneTargets, Kept, Drops, Wakes, StillLeft, Deliver;
    var out := Deliver(c, index, p, pass);
    PassLeaves(c, index, p, pass, tries);
    PassKeepsLine(c, index, p, pass);
    if Has(p.left, sid) {
      assert p.left != [];
      var told := PassStory(c, index, p, pass, tries, sid);
      GoneIsEvidence(pass, p.left, index, sid);
      if |told| == 1 {
        assert (story + told)[..|story|] == story;
      } else if |told| == 2 {
        assert (story + told)[..|story| + 1] == story + [told[0]];
      } else {
        assert story + told == story;
      }
    } else {
      assert story + [] == story;
    }
  }

  /** After a pass: the life is still lawful, and every target is in the state the new pending line says. */
  lemma PassKeeps(c: Config, life: Life, lines: seq<string>, index: nat, p: Pending, pass: Pass)
    requires LawfulLife(c, life, lines) && At(life, life.effects) == index && PendingOk(c, life, lines, index, p)
    ensures var out := Deliver(c, index, p, pass);
            var after := life.(effects := life.effects + out.effects);
            && LawfulLife(c, after, lines) && At(after, after.effects) == index
            && PendingOk(c, after, lines, index, out.pending)
  {
    hide Story, Legal, LawfulLife, TargetState, Finished, Waits, Defers, PassStory, Retirements, Kept, Drops, Wakes, StillLeft;
    var out := Deliver(c, index, p, pass);
    var tries := Tries(p);
    var tries' := if Waits(p, pass) || Defers(p, pass) then tries else tries + 1;
    PassLeaves(c, index, p, pass, tries);
    LeftBelowBound(c, index, p, pass, tries);
    PassShape(c, index, p, pass);
    forall sid ensures TargetState(c, Story(life.effects + out.effects, index, sid), out.pending, sid, tries')
                       && Legal(Story(life.effects + out.effects, index, sid), c.Bound())
    {
      StoryConcat(life.effects, out.effects, index, sid);
      PassTells(c, index, p, pass, tries, index, sid);
      TargetAfterPass(c, index, p, pass, tries, Story(life.effects, index, sid), sid);
    }
    LawfulBody(c, life, lines, out.effects);
    forall sid ensures TargetState(c, Story(life.effects + out.effects, index, sid), out.pending, sid, Tries(out.pending)) {
      SameTries(c, Story(life.effects + out.effects, index, sid), out.pending, sid, tries');
    }
  }

  lemma SameTries(c: Config, story: seq<Effect>, p: Pending, sid: Sid, tries: nat)
    requires TargetState(c, story, p, sid, tries) && Level(p.left, tries)
    ensures TargetState(c, story, p, sid, Tries(p))
  {
    if p.left != [] { assert p.left[0] in p.left; }
  }

  // -------------------------------------------------------------- steps keep it

  lemma StoryKeepsOther(life: Life, e: Effect, index: nat)
    requires (forall sid :: Story(life.effects, index, sid) == []) && !e.Refused? && !e.Ended?
    ensures forall sid :: Story(life.effects + [e], index, sid) == []
  {
    forall sid ensures Story(life.effects + [e], index, sid) == [] { StorySnoc(life.effects, e, index, sid); }
  }

  /** Retiring the current line and saving the cursor moves a lawful life on to the next line. */
  lemma RetireKeeps(c: Config, life: Life, lines: seq<string>, e: Effect)
    requires LawfulLife(c, life, lines) && e.Retired? && LawAt(c, life, lines, life.effects, e)
    ensures var index := At(life, life.effects);
            var after := life.(effects := life.effects + [e, Saved(index + 1)]);
            && LawfulLife(c, after, lines) && At(after, after.effects) == index + 1
            && SettledKeys(c, after.effects) == SettledKeys(c, life.effects) + SettledKeys(c, [e])
            && var next := index + 1;
               forall sid :: Story(after.effects, next, sid) == []
  {
    hide LawAt, LawfulLife, Story;
    var index := At(life, life.effects);
    var mid := life.(effects := life.effects + [e]);
    var saved: Effect := Saved(index + 1);
    LawfulSnoc(c, life, lines, e);
    RetirementsConcat(life.effects, [e]);
    RetirementsConcat(life.effects + [e], [saved]);
    SettledKeysConcat(c, life.effects, [e]);
    SettledKeysConcat(c, life.effects + [e], [saved]);
    SavedLawful(c, mid, lines, index + 1);
    LawfulSnoc(c, mid, lines, saved);
    assert mid.effects + [saved] == life.effects + [e, saved];
    var next := index + 1;
    assert life.effects[..|life.effects|] == life.effects;
    forall sid ensures Story(life.effects, next, sid) == [] {
      Untouched(c, life, lines, |life.effects|, next, sid);
    }
    StoryKeepsOther(life, e, next);
    StoryKeepsOther(mid, saved, next);
  }

  lemma SavedLawful(c: Config, life: Life, lines: seq<string>, cursor: nat)
    requires life.effects != [] && life.effects[|life.effects| - 1].Retired? && cursor == At(life, life.effects)
    ensures LawAt(c, life, lines, life.effects, Saved(cursor))
  {
  }

  lemma ChainLater(c: Config, past: seq<Life>, from: nat, lines: seq<string>, lines': seq<string>)
    requires Chain(c, past, from, lines) && lines <= lines'
    ensures Chain(c, past, from, lines')
  {
    hide LawfulLife, Follows;
    forall k | 0 <= k < |past| ensures LawfulLife(c, past[k], lines') && Follows(past[k], Successor(past, from, k)) {
      LawfulLater(c, past[k], past[k], lines, lines');
    }
  }

  lemma {:induction false} NothingSaved(effects: seq<Effect>, disk: nat)
    requires forall e :: e in effects ==> !e.Saved?
    ensures LastSaved(effects, disk) == disk
  {
    if effects != [] { NothingSaved(effects[..|effects| - 1], disk); }
  }

  lemma TakeKeeps(c: Config, w: World, look: Look)
    requires Inv(c, w) && Enabled(c, w.router, Lines(w), Take(look))
    ensures Inv(c, Host.Next(c, w, Do(Take(look))))
  {
    hide Chain, LawfulLife, Retirements, Story, ResolveHostRouting, KeySet, DigestKeys, Text.SplitCompleteLines, Text.Trim;
    var r, lines, life := w.router, Lines(w), w.life;
    var line := lines[r.cursor];
    var verdict := Judge(c, r.marks, line, look);
    var w' := Host.Next(c, w, Do(Take(look)));
    if verdict.Gone? {
      var e: Effect := Retired(r.cursor, line, verdict.fate);
      assert LawAt(c, life, lines, life.effects, e) by {
        if verdict.fate.Duplicate? { DuplicateRepeats(c, life, r.marks, line, look); }
      }
      RetireKeeps(c, life, lines, e);
      assert LastSaved([e, Saved(r.cursor + 1)], w.disk) == r.cursor + 1;
    } else {
      var e: Effect := Opened(r.cursor, line, look.registry, verdict.broadcast, look.order);
      LawfulSnoc(c, life, lines, e);
      StoryKeepsOther(life, e, r.cursor);
      RetirementsConcat(life.effects, [e]);
      SettledKeysConcat(c, life.effects, [e]);
      OneEffect(c, e, w.disk);
      FreshBalanced(c, look.order);
      forall sid ensures TargetState(c, [], w'.router.pending.value, sid, 0) {
        if sid in look.order {
          var k :| 0 <= k < |look.order| && look.order[k] == sid;
          assert Fresh(look.order)[k].sid == sid;
        }
      }
    }
  }

  lemma OneEffect(c: Config, e: Effect, disk: nat)
    requires e.Opened?
    ensures Retirements([e]) == [] && SettledKeys(c, [e]) == {} && LastSaved([e], disk) == disk
  {
  }

  lemma FreshBalanced(c: Config, order: seq<Sid>)
    requires forall a, b :: 0 <= a < b < |order| ==> order[a] != order[b]
    ensures Distinct(Fresh(order)) && Level(Fresh(order), 0)
  {
  }

  lemma DuplicateRepeats(c: Config, life: Life, marks: Marks, line: string, look: Look)
    requires Judge(c, marks, line, look) == Gone(Duplicate(look.registry))
    requires marks.Keys <= life.outside + SettledKeys(c, life.effects)
    ensures Repeats(c, life.outside, life.effects, line)
  {
    var keys := DigestKeys(line, c.parse(line).value);
    var key := if keys.primary in marks then keys.primary else keys.secondary.value;
    assert key in KeySet(keys) * (life.outside + SettledKeys(c, life.effects));
  }

  lemma PursueKeeps(c: Config, w: World, pass: Pass)
    requires Inv(c, w) && w.router.pending.Some?
    ensures Inv(c, Host.Next(c, w, Do(Pursue(pass))))
  {
    hide Chain, LawfulLife, LawAt, Retirements, Story, Deliver, KeySet, Text.SplitCompleteLines, PendingOk, MarkKeys, SettledKeys;
    var r, lines, life := w.router, Lines(w), w.life;
    var p := r.pending.value;
    var out := Deliver(c, r.cursor, p, pass);
    var w' := Host.Next(c, w, Do(Pursue(pass)));
    var mid := life.(effects := life.effects + out.effects);
    PassKeeps(c, life, lines, r.cursor, p, pass);
    PassShape(c, r.cursor, p, pass);
    PassKeepsLine(c, r.cursor, p, pass);
    SettledKeysConcat(c, life.effects, out.effects);
    TargetEffectsSettleNothing(c, out.effects, r.cursor);
    NothingSaved(out.effects, w.disk);
    if out.done {
      var e: Effect := Retired(r.cursor, p.line, Settled(p.sids));
      DoneDeserved(c, mid, lines, r.cursor, out.pending, e);
      RetireKeeps(c, mid, lines, e);
      assert life.effects + (out.effects + [e, Saved(r.cursor + 1)]) == mid.effects + [e, Saved(r.cursor + 1)];
      assert LastSaved(out.effects + [e, Saved(r.cursor + 1)], w.disk) == r.cursor + 1;
      PendingKeys(c, life, lines, r.cursor, p, e);
      MarkedKeys(c, r.marks, p, pass);
    }
  }

  lemma PendingKeys(c: Config, life: Life, lines: seq<string>, index: nat, p: Pending, e: Effect)
    requires PendingOk(c, life, lines, index, p) && e == Retired(index, p.line, Settled(p.sids))
    ensures index < |lines| && SettledKeys(c, [e]) == KeySet(p.keys)
  {
    hide KeySet;
  }

  lemma PassKeepsLine(c: Config, index: nat, p: Pending, pass: Pass)
    ensures var out := Deliver(c, index, p, pass);
            && out.pending.line == p.line && out.pending.sids == p.sids && out.pending.message == p.message && out.pending.keys == p.keys
            && (out.done ==> out.pending.left == [])
  {
  }

  lemma {:induction false} TargetEffectsSettleNothing(c: Config, body: seq<Effect>, index: nat)
    requires TargetEffects(body, index)
    ensures SettledKeys(c, body) == {}
  {
    if body != [] { TargetEffectsSettleNothing(c, body[..|body| - 1], index); }
  }

  lemma DoneDeserved(c: Config, life: Life, lines: seq<string>, index: nat, p: Pending, e: Effect)
    requires PendingOk(c, life, lines, index, p) && p.left == [] && At(life, life.effects) == index
    requires e == Retired(index, p.line, Settled(p.sids))
    ensures LawAt(c, life, lines, life.effects, e)
  {
    forall sid
      ensures if sid in p.sids then Finished(Story(life.effects, index, sid), c.Bound()) else Story(life.effects, index, sid) == []
    {
      assert TargetState(c, Story(life.effects, index, sid), p, sid, Tries(p));
    }
  }

  lemma MarkedKeys(c: Config, marks: Marks, p: Pending, pass: Pass)
    ensures MarkKeys(marks, c, p, pass).Keys <= marks.Keys + KeySet(p.keys)
  {
  }

  // ------------------------------------------------------------------- crashes

  /** Work is some effects on the current line, and then either nothing or its retirement and the saved cursor. */
  lemma WorkShape(c: Config, w: World, work: Work) returns (body: seq<Effect>, tail: seq<Effect>)
    requires Enabled(c, w.router, Lines(w), work)
    ensures Perform(c, w.router, Lines(w), work).1 == body + tail
    ensures forall e :: e in body ==> !e.Retired? && !e.Saved?
    ensures tail == [] || (|tail| == 2 && tail[0].Retired? && tail[1] == Saved(w.router.cursor + 1))
  {
    hide Judge, Deliver;
    match work
    case Take(look) =>
      var effects := Perform(c, w.router, Lines(w), work).1;
      if Judge(c, w.router.marks, Lines(w)[w.router.cursor], look).Gone? { body, tail := [], effects; }
      else { body, tail := effects, []; assert body + tail == effects; }
    case Pursue(pass) =>
      var p := w.router.pending.value;
      var out := Deliver(c, w.router.cursor, p, pass);
      PassShape(c, w.router.cursor, p, pass);
      body := out.effects;
      tail := if out.done then [Retired(w.router.cursor, p.line, Settled(p.sids)), Saved(w.router.cursor + 1)] else [];
      assert !out.done ==> body + tail == body;
  }

  lemma {:induction false} NothingRetired(effects: seq<Effect>)
    requires forall e :: e in effects ==> !e.Retired?
    ensures Retirements(effects) == []
  {
    if effects != [] { NothingRetired(effects[..|effects| - 1]); }
  }

  /** Wherever work is cut off, the next life begins right behind the last retired line, or on it. */
  lemma CutFollows(life: Life, cursor: nat, body: seq<Effect>, tail: seq<Effect>, kept: nat)
    requires At(life, life.effects) == cursor && kept <= |body + tail|
    requires forall e :: e in body ==> !e.Retired? && !e.Saved?
    requires tail == [] || (|tail| == 2 && tail[0].Retired? && tail[1] == Saved(cursor + 1))
    ensures var cut := (body + tail)[..kept];
            Follows(life.(effects := life.effects + cut), LastSaved(cut, cursor))
    ensures LastSaved((body + tail)[..kept], cursor) <= cursor + 1
    ensures LastSaved((body + tail)[..kept], cursor) == cursor + 1 ==> LastSaved(body + tail, cursor) == cursor + 1
  {
    var cut := (body + tail)[..kept];
    assert tail != [] ==> (body + tail)[|body| + 1] == tail[1];
    RetirementsConcat(life.effects, cut);
    if kept <= |body| {
      assert cut == body[..kept];
      NothingRetired(cut);
      NothingSaved(cut, cursor);
    } else {
      assert cut[..|body|] == body;
      NothingRetired(body);
      NothingSaved(body, cursor);
      if kept == |body| + 1 {
        assert cut == body + [tail[0]] && cut[|cut| - 1] == tail[0];
      } else {
        assert cut == body + [tail[0]] + [tail[1]];
        assert cut[..|cut| - 1] == body + [tail[0]] && cut[..|cut| - 1][..|body|] == body;
      }
    }
  }

  lemma CrashKeeps(c: Config, w: World, work: Work, kept: nat)
    requires Inv(c, w)
    ensures Inv(c, Host.Next(c, w, Crash(work, kept)))
  {
    hide LawfulLife, LawAt, Follows, PendingOk, LastSaved, Retirements, Story, Perform, Enabled, Text.SplitCompleteLines;
    var lines := Lines(w);
    var effects := if Enabled(c, w.router, lines, work) then Perform(c, w.router, lines, work).1 else [];
    var n := if kept <= |effects| then kept else |effects|;
    var cut := w.life.(effects := w.life.effects + effects[..n]);
    var disk := LastSaved(effects[..n], w.disk);
    if Enabled(c, w.router, lines, work) {
      WorkKeeps(c, w, work);
      var full := Host.Next(c, w, Do(work));
      var body, tail := WorkShape(c, w, work);
      CutFollows(w.life, w.router.cursor, body, tail, n);
      LawfulPrefix(c, full.life, lines, |w.life.effects| + n);
      assert full.life.effects[..|w.life.effects| + n] == cut.effects;
      assert disk <= |lines|;
    } else {
      CutFollows(w.life, w.router.cursor, [], [], 0);
      assert effects[..n] == ([] + [])[..0];
      assert cut == w.life by { assert w.life.effects + [] == w.life.effects; }
    }
    BootKeeps(c, w, cut, disk);
  }

  lemma WorkKeeps(c: Config, w: World, work: Work)
    requires Inv(c, w) && Enabled(c, w.router, Lines(w), work)
    ensures Inv(c, Host.Next(c, w, Do(work)))
  {
    match work
    case Take(look) => TakeKeeps(c, w, look);
    case Pursue(pass) => PursueKeeps(c, w, pass);
  }

  lemma BootKeeps(c: Config, w: World, cut: Life, disk: nat)
    requires Chain(c, w.past, w.life.from, Lines(w)) && cut.from == w.life.from
    requires LawfulLife(c, cut, Lines(w)) && Follows(cut, disk) && disk <= |Lines(w)|
    ensures Inv(c, Boot(w.text, disk, w.past + [cut]))
  {
    hide LawAt, Follows, Text.SplitCompleteLines;
    var past := w.past + [cut];
    assert LawfulLife(c, Life(disk, [], {}), Lines(w));
    hide LawfulLife;
    forall k | 0 <= k < |past| ensures LawfulLife(c, past[k], Lines(w)) && Follows(past[k], Successor(past, disk, k)) {
      if k < |w.past| { assert Successor(past, disk, k) == Successor(w.past, w.life.from, k); }
    }
  }

  lemma AppendKeeps(c: Config, w: World, more: string)
    requires Inv(c, w)
    ensures Inv(c, Host.Next(c, w, Append(more)))
  {
    hide LawfulLife, Chain, Text.SplitCompleteLines, Story, TargetState, Retirements;
    var w' := Host.Next(c, w, Append(more));
    Text.LinesStableUnderAppend(w.text, more);
    LawfulLater(c, w.life, w.life, Lines(w), Lines(w'));
    ChainLater(c, w.past, w.life.from, Lines(w), Lines(w'));
  }

  lemma OutsideKeeps(c: Config, w: World, key: string, meta: Option<string>, at: int, sweep: int)
    requires Inv(c, w)
    ensures Inv(c, Host.Next(c, w, MarkElsewhere(key, meta, at, sweep)))
  {
    hide LawfulLife, Chain, Text.SplitCompleteLines, Story, TargetState, Retirements;
    var w' := Host.Next(c, w, MarkElsewhere(key, meta, at, sweep));
    LawfulLater(c, w.life, w'.life, Lines(w), Lines(w));
  }

  /** Every reachable world satisfies the laws: over any appends, work, outside marks and crashes at any point. */
  lemma {:induction false} Reachable(c: Config, text: string, disk: nat, steps: seq<Host.Step>)
    ensures Inv(c, Host.Run(c, Boot(text, disk, []), steps))
  {
    var boot := Boot(text, disk, []);
    if steps == [] {
      assert LawfulLife(c, boot.life, Lines(boot));
    } else {
      hide *;
      var before := Host.Run(c, boot, steps[..|steps| - 1]);
      Reachable(c, text, disk, steps[..|steps| - 1]);
      StepKeeps(c, before, steps[|steps| - 1]);
      RunLast(c, boot, steps);
    }
  }

  lemma RunLast(c: Config, w: World, steps: seq<Host.Step>)
    requires steps != []
    ensures Host.Run(c, w, steps) == Host.Next(c, Host.Run(c, w, steps[..|steps| - 1]), steps[|steps| - 1])
  {
  }

  lemma StepKeeps(c: Config, w: World, step: Host.Step)
    requires Inv(c, w)
    ensures Inv(c, Host.Next(c, w, step))
  {
    hide Inv;
    match step
    case Append(more) => AppendKeeps(c, w, more);
    case MarkElsewhere(key, meta, at, sweep) => OutsideKeeps(c, w, key, meta, at, sweep);
    case Crash(work, kept) => CrashKeeps(c, w, work, kept);
    case Do(work) => if Enabled(c, w.router, Lines(w), work) { WorkKeeps(c, w, work); }
  }
}
