/**
 * What a single delivery pass does to each target of the line, and what a sequence of passes amounts to.
 */
module FileRouterPasses {
  import opened Wrappers
  import opened HostRegistry
  import opened FileRouterModel

  predicate About(e: Effect, index: nat, sid: Sid) {
    (e.Refused? || e.Ended?) && e.index == index && e.sid == sid
  }

  /** The story of one target of one line: every refused wake-up and every end, in order. */
  function Story(effects: seq<Effect>, index: nat, sid: Sid): seq<Effect> {
    if effects == [] then []
    else
      var last := effects[|effects| - 1];
      Story(effects[..|effects| - 1], index, sid) + if About(last, index, sid) then [last] else []
  }

  lemma {:induction false} StoryConcat(a: seq<Effect>, b: seq<Effect>, index: nat, sid: Sid)
    ensures Story(a + b, index, sid) == Story(a, index, sid) + Story(b, index, sid)
  {
    if b == [] {
      assert a + b == a;
    } else {
      StoryConcat(a, b[..|b| - 1], index, sid);
      assert (a + b)[..|a + b| - 1] == a + b[..|b| - 1];
    }
  }

  predicate Distinct(targets: seq<Target>) {
    forall a, b :: 0 <= a < b < |targets| ==> targets[a].sid != targets[b].sid
  }

  predicate Has(targets: seq<Target>, sid: Sid) {
    exists k :: 0 <= k < |targets| && targets[k].sid == sid
  }

  /** Every target left was refused `tries` times. */
  predicate Level(targets: seq<Target>, tries: nat) {
    forall t :: t in targets ==> t.tries == tries
  }

  lemma {:induction false} KeptMeaning(targets: seq<Target>, out: set<Sid>)
    requires Distinct(targets)
    ensures Distinct(Kept(targets, out))
    ensures forall t :: t in Kept(targets, out) <==> t in targets && t.sid !in out
    ensures forall sid :: Has(Kept(targets, out), sid) <==> Has(targets, sid) && sid !in out
  {
    if targets != [] {
      var prev, last := targets[..|targets| - 1], targets[|targets| - 1];
      KeptMeaning(prev, out);
      assert forall t :: t in targets <==> t in prev || t == last;
      var kept := Kept(targets, out);
      forall t ensures t in kept <==> t in targets && t.sid !in out {}
      forall a, b | 0 <= a < b < |kept| ensures kept[a].sid != kept[b].sid {
        if b == |Kept(prev, out)| { assert kept[a] in prev; }
      }
      SameMembersHas(kept, targets, out);
    }
  }

  lemma SameMembersHas(kept: seq<Target>, targets: seq<Target>, out: set<Sid>)
    requires forall t :: t in kept <==> t in targets && t.sid !in out
    ensures forall sid :: Has(kept, sid) <==> Has(targets, sid) && sid !in out
  {
    forall sid ensures Has(kept, sid) <==> Has(targets, sid) && sid !in out {
      if Has(targets, sid) && sid !in out {
        var k :| 0 <= k < |targets| && targets[k].sid == sid;
        assert targets[k] in kept;
      }
    }
  }

  lemma HasLast(targets: seq<Target>, sid: Sid)
    requires targets != [] && Distinct(targets)
    ensures var prev, last := targets[..|targets| - 1], targets[|targets| - 1];
            && Distinct(prev)
            && (Has(targets, sid) <==> Has(prev, sid) || last.sid == sid)
            && (Has(prev, sid) ==> last.sid != sid)
  {
  }

  lemma StorySnoc(before: seq<Effect>, e: Effect, index: nat, sid: Sid)
    ensures Story(before + [e], index, sid) == if About(e, index, sid) then Story(before, index, sid) + [e] else Story(before, index, sid)
  {
    assert (before + [e])[..|before|] == before;
  }

  lemma {:induction false} DropsStory(index: nat, targets: seq<Target>, out: set<Sid>, how: End, j: nat, sid: Sid)
    requires Distinct(targets)
    ensures Story(Drops(index, targets, out, how), j, sid) ==
            if j == index && Has(targets, sid) && sid in out then [Ended(index, sid, how)] else []
  {
    if targets != [] {
      hide Story, Has, Distinct;
      var prev, last := targets[..|targets| - 1], targets[|targets| - 1];
      HasLast(targets, sid);
      DropsStory(index, prev, out, how, j, sid);
      if last.sid in out { StorySnoc(Drops(index, prev, out, how), Ended(index, last.sid, how), j, sid); }
      else { assert Drops(index, prev, out, how) + [] == Drops(index, prev, out, how); }
    }
  }

  /** What one wake-up loop does to a target with `tries` refusals behind it. */
  function WakeStory(index: nat, sid: Sid, tries: nat, refusing: set<Sid>, bound: nat): seq<Effect> {
    if sid !in refusing then [Ended(index, sid, Delivered)]
    else if tries + 1 >= bound then [Refused(index, sid), Ended(index, sid, WakeFailed)]
    else [Refused(index, sid)]
  }

  lemma WakeStoryIsItsOwn(index: nat, target: Sid, tries: nat, refusing: set<Sid>, bound: nat, j: nat, sid: Sid)
    ensures var told := WakeStory(index, target, tries, refusing, bound);
            Story(told, j, sid) == if j == index && target == sid then told else []
  {
    var told := WakeStory(index, target, tries, refusing, bound);
    if |told| == 2 {
      assert told[..1] == [told[0]];
      assert Story(told[..1], j, sid) == if j == index && target == sid then [told[0]] else [];
    }
  }

  lemma {:induction false} WakesStory(index: nat, targets: seq<Target>, refusing: set<Sid>, bound: nat, tries: nat, j: nat, sid: Sid)
    requires Distinct(targets) && Level(targets, tries)
    ensures Story(Wakes(index, targets, refusing, bound), j, sid) ==
            if j == index && Has(targets, sid) then WakeStory(index, sid, tries, refusing, bound) else []
  {
    if targets == [] {
    } else {
      hide Story, Has, Distinct;
      var prev, last := targets[..|targets| - 1], targets[|targets| - 1];
      assert last in targets;
      HasLast(targets, sid);
      WakesStory(index, prev, refusing, bound, tries, j, sid);
      WakeStoryIsItsOwn(index, last.sid, tries, refusing, bound, j, sid);
      StoryConcat(Wakes(index, prev, refusing, bound), WakeStory(index, last.sid, tries, refusing, bound), j, sid);
    }
  }

  lemma {:induction false} StillLeftMeaning(targets: seq<Target>, refusing: set<Sid>, bound: nat, tries: nat)
    requires Distinct(targets) && Level(targets, tries)
    ensures Distinct(StillLeft(targets, refusing, bound)) && Level(StillLeft(targets, refusing, bound), tries + 1)
    ensures forall sid :: Has(StillLeft(targets, refusing, bound), sid) <==> Has(targets, sid) && sid in refusing && tries + 1 < bound
  {
    if targets != [] {
      var prev, last := targets[..|targets| - 1], targets[|targets| - 1];
      assert last in targets;
      StillLeftMeaning(prev, refusing, bound, tries);
      var left, before := StillLeft(targets, refusing, bound), StillLeft(prev, refusing, bound);
      forall sid ensures Has(left, sid) <==> Has(targets, sid) && sid in refusing && tries + 1 < bound {
        assert Has(targets, sid) <==> Has(prev, sid) || last.sid == sid;
        assert Has(left, sid) <==> Has(before, sid) || (|left| > |before| && last.sid == sid) by {
          if Has(before, sid) {
            var k :| 0 <= k < |before| && before[k].sid == sid;
            assert left[k].sid == sid;
          }
          if |left| > |before| { assert left[|before|].sid == last.sid; }
        }
      }
      forall a, b | 0 <= a < b < |left| ensures left[a].sid != left[b].sid {
        if b == |before| {
          assert Has(before, left[a].sid);
          assert Has(prev, left[a].sid);
        }
      }
    }
  }

  /** What a pass does to one target that is still left. */
  function PassStory(c: Config, index: nat, p: Pending, pass: Pass, tries: nat, sid: Sid): seq<Effect> {
    if sid in GoneTargets(pass, p.left) then [Ended(index, sid, UnroutedBy(pass))]
    else if Waits(p, pass) then []
    else if sid in pass.passedThen then [Ended(index, sid, TookBy(pass))]
    else if Defers(p, pass) then []
    else WakeStory(index, sid, tries, pass.refusing, c.Bound())
  }

  lemma PassTells(c: Config, index: nat, p: Pending, pass: Pass, tries: nat, j: nat, sid: Sid)
    requires Distinct(p.left) && Level(p.left, tries)
    ensures Story(Deliver(c, index, p, pass).effects, j, sid) ==
            if j == index && Has(p.left, sid) then PassStory(c, index, p, pass, tries, sid) else []
  {
    hide Story, Has, Distinct, Kept, Drops, Wakes, StillLeft, GoneTargets, WakeStory, Waits, Defers;
    var gone := GoneTargets(pass, p.left);
    var routed := Kept(p.left, gone);
    var buried := Drops(index, p.left, gone, UnroutedBy(pass));
    KeptMeaning(p.left, gone);
    DropsStory(index, p.left, gone, UnroutedBy(pass), j, sid);
    if !Waits(p, pass) {
      var facing := Kept(routed, pass.passedThen);
      var yielded := Drops(index, routed, pass.passedThen, TookBy(pass));
      KeptMeaning(routed, pass.passedThen);
      DropsStory(index, routed, pass.passedThen, TookBy(pass), j, sid);
      StoryConcat(buried, yielded, j, sid);
      if !Defers(p, pass) {
        StoryConcat(buried + yielded, Wakes(index, facing, pass.refusing, c.Bound()), j, sid);
        WakesStory(index, facing, pass.refusing, c.Bound(), tries, j, sid);
      }
    }
  }

  lemma LeavesTarget(c: Config, index: nat, p: Pending, pass: Pass, tries: nat, sid: Sid)
    requires Distinct(p.left) && Level(p.left, tries)
    ensures Has(Deliver(c, index, p, pass).pending.left, sid) <==>
            Has(p.left, sid) && PassStory(c, index, p, pass, tries, sid) in [[], [Refused(index, sid)]]
  {
    hide Has, Distinct, Level, Kept, Drops, Wakes, StillLeft, GoneTargets, Waits, Defers;
    var gone := GoneTargets(pass, p.left);
    var routed := Kept(p.left, gone);
    KeptMeaning(p.left, gone);
    if !Waits(p, pass) {
      var facing := Kept(routed, pass.passedThen);
      KeptMeaning(routed, pass.passedThen);
      if !Defers(p, pass) {
        KeptLevel(p.left, gone, tries);
        KeptLevel(routed, pass.passedThen, tries);
        StillLeftMeaning(facing, pass.refusing, c.Bound(), tries);
      }
    }
  }

  lemma KeptLevel(targets: seq<Target>, out: set<Sid>, tries: nat)
    requires Distinct(targets) && Level(targets, tries)
    ensures Level(Kept(targets, out), tries)
  {
    KeptMeaning(targets, out);
  }

  lemma LeavesLevel(c: Config, index: nat, p: Pending, pass: Pass, tries: nat)
    requires Distinct(p.left) && Level(p.left, tries)
    ensures var out := Deliver(c, index, p, pass);
            && Distinct(out.pending.left)
            && Level(out.pending.left, if Waits(p, pass) || Defers(p, pass) then tries else tries + 1)
  {
    hide Has, Distinct, Level, Kept, Drops, Wakes, StillLeft, GoneTargets, Armed;
    var gone := GoneTargets(pass, p.left);
    var routed := Kept(p.left, gone);
    var facing := Kept(routed, pass.passedThen);
    KeptMeaning(p.left, gone);
    KeptLevel(p.left, gone, tries);
    KeptMeaning(routed, pass.passedThen);
    KeptLevel(routed, pass.passedThen, tries);
    StillLeftMeaning(facing, pass.refusing, c.Bound(), tries);
  }

  lemma OpensWindow(c: Config, index: nat, p: Pending, pass: Pass)
    ensures Deliver(c, index, p, pass).pending.deferUntil == if Defers(p, pass) then Some(pass.at + c.deferMs) else p.deferUntil
  {
  }

  lemma PassLeaves(c: Config, index: nat, p: Pending, pass: Pass, tries: nat)
    requires Distinct(p.left) && Level(p.left, tries)
    ensures var out := Deliver(c, index, p, pass);
            && Distinct(out.pending.left)
            && Level(out.pending.left, if Waits(p, pass) || Defers(p, pass) then tries else tries + 1)
            && out.pending.deferUntil == (if Defers(p, pass) then Some(pass.at + c.deferMs) else p.deferUntil)
            && (forall sid :: Has(out.pending.left, sid) <==>
                  Has(p.left, sid) && PassStory(c, index, p, pass, tries, sid) in [[], [Refused(index, sid)]])
  {
    hide Has, Distinct, Level, Deliver, Waits, Defers, PassStory;
    LeavesLevel(c, index, p, pass, tries);
    OpensWindow(c, index, p, pass);
    forall sid ensures Has(Deliver(c, index, p, pass).pending.left, sid) <==>
        Has(p.left, sid) && PassStory(c, index, p, pass, tries, sid) in [[], [Refused(index, sid)]]
    {
      LeavesTarget(c, index, p, pass, tries, sid);
    }
  }

  // --------------------------------------------------------- bounded settling

  /** What is left of a pending line after some passes; nothing once it settled. */
  function After(c: Config, index: nat, p: Pending, passes: seq<Pass>): Option<Pending>
    decreases |passes|
  {
    if passes == [] then Some(p)
    else
      var out := Deliver(c, index, p, passes[0]);
      if out.done then None else After(c, index, out.pending, passes[1..])
  }

  /** How many of the passes ended waiting for the native lane. */
  function Waited(c: Config, index: nat, p: Pending, passes: seq<Pass>): nat
    decreases |passes|
  {
    if passes == [] then 0
    else
      var out := Deliver(c, index, p, passes[0]);
      (if Waits(p, passes[0]) then 1 else 0) + if out.done then 0 else Waited(c, index, out.pending, passes[1..])
  }

  /** How many of the passes reached the wake-up loop. */
  function Woke(c: Config, index: nat, p: Pending, passes: seq<Pass>): nat
    decreases |passes|
  {
    if passes == [] then 0
    else
      var out := Deliver(c, index, p, passes[0]);
      (if Waits(p, passes[0]) || Defers(p, passes[0]) then 0 else 1)
      + if out.done then 0 else Woke(c, index, out.pending, passes[1..])
  }

  lemma {:induction false} PassesSettle(c: Config, index: nat, p: Pending, passes: seq<Pass>, tries: nat)
    requires Distinct(p.left) && Level(p.left, tries) && (p.left != [] ==> tries < c.Bound())
    ensures After(c, index, p, passes).Some? ==>
              && |passes| <= Waited(c, index, p, passes) + Woke(c, index, p, passes) + (if p.deferUntil.None? then 1 else 0)
              && (if p.left == [] then Woke(c, index, p, passes) == 0
                  else tries + Woke(c, index, p, passes) < c.Bound())
    decreases |passes|
  {
    if passes != [] {
      var pass := passes[0];
      var out := Deliver(c, index, p, pass);
      PassLeaves(c, index, p, pass, tries);
      if !out.done {
        var tries' := if Waits(p, pass) || Defers(p, pass) then tries else tries + 1;
        LeftBelowBound(c, index, p, pass, tries);
        PassesSettle(c, index, out.pending, passes[1..], tries');
      }
    }
  }

  lemma LeftBelowBound(c: Config, index: nat, p: Pending, pass: Pass, tries: nat)
    requires Distinct(p.left) && Level(p.left, tries) && (p.left != [] ==> tries < c.Bound())
    ensures var out := Deliver(c, index, p, pass);
            out.pending.left != [] ==>
              p.left != [] && (if Waits(p, pass) || Defers(p, pass) then tries else tries + 1) < c.Bound()
  {
    PassLeaves(c, index, p, pass, tries);
    var left := Deliver(c, index, p, pass).pending.left;
    if left != [] {
      assert Has(left, left[0].sid);
      assert Has(p.left, left[0].sid);
    }
  }

  /**
   * Bounded settling: a line that is still pending after some passes was woken in fewer than
   * `maxWakeFailures` of them, and all others but one only waited inside the native lane's window.
   */
  lemma SettlesWithin(c: Config, index: nat, p: Pending, passes: seq<Pass>)
    requires p.deferUntil.None? && p.left == Fresh(p.sids)
    requires forall a, b :: 0 <= a < b < |p.sids| ==> p.sids[a] != p.sids[b]
    ensures After(c, index, p, passes).Some? ==>
              && Woke(c, index, p, passes) < c.Bound()
              && |passes| <= Waited(c, index, p, passes) + Woke(c, index, p, passes) + 1
  {
    PassesSettle(c, index, p, passes, 0);
  }
}
