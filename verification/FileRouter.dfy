/** The router's bookkeeping as functions of its effects, and facts about its table of attempts. */
module FileRouterCounters {
  import opened Wrappers
  import HostRegistry
  import opened FileRouterModel
  import opened FileRouterPasses
  import opened FileRouterSafety
  import opened FileRouterGuarantees

  type Sid = HostRegistry.Sid

  datatype Counters = Counters(echo: nat, blank: nat, dedup: nat, skipped: nat, dead: nat, delivered: nat, unrouted: nat, adaptiveSkip: nat)

  const ZERO := Counters(0, 0, 0, 0, 0, 0, 0, 0)

  function Tick(n: Counters, e: Effect): Counters {
    match e
    case Retired(_, _, fate) => (
      match fate
      case Echoed => n.(echo := n.echo + 1)
      case Blank => n.(blank := n.blank + 1)
      case Malformed => n.(dead := n.dead + 1)
      case Unroutable(_, _, _, _) => n.(dead := n.dead + 1)
      case Skipped(_) => n.(skipped := n.skipped + 1)
      case Duplicate(_) => n.(dedup := n.dedup + 1)
      case Settled(_) => n.(delivered := n.delivered + 1)
    )
    case Ended(_, _, how) => (
      match how
      case Delivered => n
      case Unrouted(_, _) => n.(dead := n.dead + 1, unrouted := n.unrouted + 1)
      case WakeFailed => n.(dead := n.dead + 1)
      case NativeTook(_) => n.(adaptiveSkip := n.adaptiveSkip + 1)
    )
    case _ => n
  }

  function Counted(effects: seq<Effect>): Counters {
    if effects == [] then ZERO else Tick(Counted(effects[..|effects| - 1]), effects[|effects| - 1])
  }

  lemma CountSnoc(effects: seq<Effect>, e: Effect)
    ensures Counted(effects + [e]) == Tick(Counted(effects), e)
  {
    assert (effects + [e])[..|effects|] == effects;
  }

  /** Targets buried: dead letters that are not about a whole line. */
  function Burials(effects: seq<Effect>): nat {
    if effects == [] then 0
    else
      var last := effects[|effects| - 1];
      Burials(effects[..|effects| - 1]) + if last.Ended? && (last.how.Unrouted? || last.how.WakeFailed?) then 1 else 0
  }

  /**
   * The counters tell how far the cursor moved: lines echoed, blank, dropped, skipped and delivered, and
   * the dead letters that were not written for a single target.
   */
  lemma {:induction false} CountersConserve(effects: seq<Effect>)
    ensures var n, t := Counted(effects), Tallied(effects);
            && n.echo == t.echoed && n.blank == t.blank && n.dedup == t.duplicate && n.skipped == t.skipped && n.delivered == t.settled
            && n.dead == t.malformed + t.unroutable + Burials(effects)
            && |Retirements(effects)| == n.echo + n.blank + n.dedup + n.skipped + n.delivered + (n.dead - Burials(effects))
  {
    if effects != [] { CountersConserve(effects[..|effects| - 1]); }
  }

  // ------------------------------------------------------- the attempts table

  /** Deleting a key from the table. */
  function Delete(targets: seq<Target>, sid: Sid): seq<Target> {
    Kept(targets, {sid})
  }

  /** Setting the count of a key that is in the table; its place does not change. */
  function SetTries(targets: seq<Target>, sid: Sid, tries: nat): seq<Target> {
    seq(|targets|, k requires 0 <= k < |targets| => if targets[k].sid == sid then Target(sid, tries) else targets[k])
  }

  lemma {:induction false} KeptConcat(a: seq<Target>, b: seq<Target>, out: set<Sid>)
    ensures Kept(a + b, out) == Kept(a, out) + Kept(b, out)
  {
    if b == [] {
      assert a + b == a;
    } else {
      KeptConcat(a, b[..|b| - 1], out);
      assert (a + b)[..|a + b| - 1] == a + b[..|b| - 1];
    }
  }

  lemma KeptOne(t: Target, out: set<Sid>)
    ensures Kept([t], out) == if t.sid in out then [] else [t]
  {
  }

  lemma {:induction false} KeptAll(targets: seq<Target>, out: set<Sid>)
    requires forall t :: t in targets ==> t.sid !in out
    ensures Kept(targets, out) == targets
  {
    if targets != [] {
      var prev, last := targets[..|targets| - 1], targets[|targets| - 1];
      assert last in targets && targets == prev + [last];
      KeptAll(prev, out);
    }
  }

  /** A table whose first `k` keys were handled, the rest as it was. */
  predicate Handled(table: seq<Target>, done: seq<Target>, all: seq<Target>, k: nat)
    requires k <= |all|
  {
    table == done + all[k..]
  }

  /** Deleting the key at hand takes out that one entry. */
  lemma DeleteNext(table: seq<Target>, done: seq<Target>, all: seq<Target>, k: nat)
    requires Distinct(all) && k < |all| && Handled(table, done, all, k)
    requires forall t :: t in done ==> Has(all[..k], t.sid)
    ensures Handled(Delete(table, all[k].sid), done, all, k + 1)
  {
    hide Kept;
    var sid := all[k].sid;
    assert all[k..] == [all[k]] + all[k + 1..];
    assert table == done + [all[k]] + all[k + 1..];
    KeptOne(all[k], {sid});
    KeptConcat(done + [all[k]], all[k + 1..], {sid});
    KeptConcat(done, [all[k]], {sid});
    KeptAll(done, {sid});
    KeptAll(all[k + 1..], {sid});
  }

  /** Leaving the key at hand in place. */
  lemma SkipNext(table: seq<Target>, done: seq<Target>, all: seq<Target>, k: nat)
    requires k < |all| && Handled(table, done, all, k)
    ensures Handled(table, done + [all[k]], all, k + 1)
  {
    assert all[k..] == [all[k]] + all[k + 1..];
  }

  lemma NoneYet(index: nat, all: seq<Target>, out: set<Sid>, how: End, bound: nat)
    ensures Kept(all[..0], out) == [] && Drops(index, all[..0], out, how) == []
    ensures StillLeft(all[..0], out, bound) == [] && Wakes(index, all[..0], out, bound) == []
    ensures Handled(all, [], all, 0)
  {
  }

  lemma AllDone(table: seq<Target>, done: seq<Target>, all: seq<Target>)
    requires Handled(table, done, all, |all|)
    ensures table == done && all[..|all|] == all
  {
  }

  lemma KeptNext(all: seq<Target>, k: nat, out: set<Sid>)
    requires k < |all|
    ensures Kept(all[..k + 1], out) == if all[k].sid in out then Kept(all[..k], out) else Kept(all[..k], out) + [all[k]]
    ensures forall t :: t in Kept(all[..k], out) ==> Has(all[..k], t.sid)
  {
    assert all[..k + 1][..k] == all[..k];
    KeptFrom(all[..k], out);
  }

  lemma DropsNext(index: nat, all: seq<Target>, k: nat, out: set<Sid>, how: End)
    requires k < |all|
    ensures Drops(index, all[..k + 1], out, how) ==
            var before := Drops(index, all[..k], out, how);
            if all[k].sid in out then before + [Ended(index, all[k].sid, how)] else before
  {
    assert all[..k + 1][..k] == all[..k];
  }

  lemma WakesNext(index: nat, all: seq<Target>, k: nat, refusing: set<Sid>, bound: nat)
    requires k < |all|
    ensures Wakes(index, all[..k + 1], refusing, bound)
            == Wakes(index, all[..k], refusing, bound) + WakeStory(index, all[k].sid, all[k].tries, refusing, bound)
  {
    assert all[..k + 1][..k] == all[..k];
  }

  lemma StillLeftNext(all: seq<Target>, k: nat, refusing: set<Sid>, bound: nat)
    requires k < |all|
    ensures StillLeft(all[..k + 1], refusing, bound) ==
            var before := StillLeft(all[..k], refusing, bound);
            if all[k].sid in refusing && all[k].tries + 1 < bound then before + [Target(all[k].sid, all[k].tries + 1)] else before
    ensures forall t :: t in StillLeft(all[..k], refusing, bound) ==> Has(all[..k], t.sid)
  {
    assert all[..k + 1][..k] == all[..k];
    StillLeftFrom(all[..k], refusing, bound);
  }

  lemma SetNext(table: seq<Target>, done: seq<Target>, all: seq<Target>, k: nat, tries: nat)
    requires Distinct(all) && k < |all| && Handled(table, done, all, k)
    requires forall t :: t in done ==> Has(all[..k], t.sid)
    ensures Handled(SetTries(table, all[k].sid, tries), done + [Target(all[k].sid, tries)], all, k + 1)
  {
    var sid := all[k].sid;
    assert all[k..] == [all[k]] + all[k + 1..];
    var set' := SetTries(table, sid, tries);
    var want := done + [Target(sid, tries)] + all[k + 1..];
    forall j | 0 <= j < |want| ensures set'[j] == want[j] {
      if j < |done| { assert done[j] in done; }
    }
  }

  lemma {:induction false} KeptFrom(targets: seq<Target>, out: set<Sid>)
    ensures forall t :: t in Kept(targets, out) ==> Has(targets, t.sid)
  {
    if targets != [] {
      var prev := targets[..|targets| - 1];
      KeptFrom(prev, out);
      forall t | t in Kept(targets, out) ensures Has(targets, t.sid) {
        if t in Kept(prev, out) {
          var j :| 0 <= j < |prev| && prev[j].sid == t.sid;
          assert targets[j].sid == t.sid;
        }
      }
    }
  }

  lemma {:induction false} StillLeftFrom(targets: seq<Target>, refusing: set<Sid>, bound: nat)
    ensures forall t :: t in StillLeft(targets, refusing, bound) ==> Has(targets, t.sid)
  {
    if targets != [] {
      var prev := targets[..|targets| - 1];
      StillLeftFrom(prev, refusing, bound);
      forall t | t in StillLeft(targets, refusing, bound) ensures Has(targets, t.sid) {
        if t in StillLeft(prev, refusing, bound) {
          var j :| 0 <= j < |prev| && prev[j].sid == t.sid;
          assert targets[j].sid == t.sid;
        }
      }
    }
  }
}

/** The router as an object: its cursor, its pending line and its counters, changed in place by every call. */
module FileRouter {
  import opened Wrappers
  import opened HostRegistry
  import opened HostAddressing
  import opened DedupWindow
  import opened DedupKeys
  import opened FileRouterModel
  import opened FileRouterPasses
  import opened FileRouterCounters
  import Host = FileRouterModel
  import Safety = FileRouterSafety
  import Guarantees = FileRouterGuarantees
  import Text

  /** The pending line without its table of attempts. */
  datatype Header = Header(line: string, message: Message, keys: Keys, broadcast: bool, sids: seq<HostRegistry.Sid>)

  /** What the outside answers about one line during one flush. */
  datatype Answer = Answer(passed: set<HostRegistry.Sid>, now1: int, now2: int, pass: Pass)

  /** One pass of the outer loop: what was appended before the inbox was read, and the registry read. */
  datatype Round = Round(more: string, registry: Registry)

  class FileRouter {
    const config: Config
    const dedup: Window<string, Option<string>>
    var cursor: nat
    var pending: Option<Header>
    var attempts: seq<Target>
    var deferUntil: Option<int>
    var echoCount: nat
    var blankCount: nat
    var dedupCount: nat
    var skippedCount: nat
    var deadCount: nat
    var deliveredLines: nat
    var unrouted: nat
    var adaptiveSkip: nat
    /** The inbox file and the cursor file. */
    var inbox: string
    var cursorFile: nat
    ghost var life: Life
    ghost var past: seq<Life>

    ghost function View(): Router
      reads this, dedup
    {
      Router(cursor,
             if pending.None? then None
             else
               var h := pending.value;
               Some(Pending(h.line, h.message, h.keys, h.broadcast, h.sids, attempts, deferUntil)),
             dedup.entries)
    }

    /** The object and its files as a state of the world. */
    ghost function World(): Host.World
      reads this, dedup
    {
      Host.World(inbox, cursorFile, past, life, View())
    }

    function Counts(): Counters
      reads this
    {
      Counters(echoCount, blankCount, dedupCount, skippedCount, deadCount, deliveredLines, unrouted, adaptiveSkip)
    }

    ghost predicate Valid()
      reads this, dedup
    {
      && dedup.Valid() && dedup.windowMs == config.windowMs
      && Counts() == Counted(life.effects)
      && (pending.Some? ==> Distinct(attempts) && cursor < |Text.SplitCompleteLines(inbox)|)
      && cursor <= |Text.SplitCompleteLines(inbox)|
    }

    /** A start, over whatever inbox and cursor file there are. */
    constructor (config: Config, inbox: string, cursorFile: nat, ghost past: seq<Life>)
      ensures Valid() && this.config == config && fresh(dedup)
      ensures World() == Boot(inbox, cursorFile, past)
    {
      var count := |Text.SplitCompleteLines(inbox)|;
      var from := if cursorFile > count then count else cursorFile;
      this.config := config;
      var window := new Window<string, Option<string>>(config.windowMs);
      dedup := window;
      cursor := from;
      pending := None;
      attempts := [];
      deferUntil := None;
      echoCount, blankCount, dedupCount, skippedCount := 0, 0, 0, 0;
      deadCount, deliveredLines, unrouted, adaptiveSkip := 0, 0, 0, 0;
      this.inbox := inbox;
      this.cursorFile := from;
      life := Life(from, [], {});
      this.past := past;
    }

    /** Record what the outside sees. */
    ghost method Emit(e: Effect)
      modifies this`life
      ensures life == old(life).(effects := old(life.effects) + [e])
      ensures Counted(life.effects) == Tick(Counted(old(life.effects)), e)
    {
      CountSnoc(life.effects, e);
      life := life.(effects := life.effects + [e]);
    }

    /** Step over the current line and write the cursor file; the caller has counted the line. */
    method StepOver(ghost line: string, ghost fate: Fate)
      requires Counts() == Tick(Counted(life.effects), Retired(cursor, line, fate))
      modifies this`cursor, this`cursorFile, this`life
      ensures cursor == old(cursor) + 1 && cursorFile == cursor
      ensures life == old(life).(effects := old(life.effects) + [Retired(old(cursor), line, fate), Saved(old(cursor) + 1)])
      ensures Counts() == Counted(life.effects)
    {
      hide Counted;
      Emit(Retired(cursor, line, fate));
      cursor := cursor + 1;
      cursorFile := cursor;
      Emit(Saved(cursor));
      assert life.effects == old(life.effects) + [Retired(old(cursor), line, fate), Saved(old(cursor) + 1)];
    }

    /** The key at hand leaves the table, for the given reason. */
    method DropTarget(ghost all: seq<Target>, ghost k: nat, ghost out: set<HostRegistry.Sid>, sid: HostRegistry.Sid, ghost how: End)
      requires Distinct(all) && k < |all| && all[k].sid == sid && sid in out
      requires Handled(attempts, Kept(all[..k], out), all, k)
      modifies this`attempts, this`life
      ensures Handled(attempts, Kept(all[..k + 1], out), all, k + 1)
      ensures life == old(life).(effects := old(life.effects) + [Ended(cursor, sid, how)])
      ensures Counted(life.effects) == Tick(Counted(old(life.effects)), Ended(cursor, sid, how))
    {
      hide Kept, Has, Distinct, Handled, Counted;
      KeptNext(all, k, out);
      DeleteNext(attempts, Kept(all[..k], out), all, k);
      Emit(Ended(cursor, sid, how));
      attempts := Delete(attempts, sid);
    }

    /** Bury the targets that lost their live slot after the native lane took the line. */
    method DeadLetterUnroutedTargets(pass: Pass)
      requires Distinct(attempts) && Counts() == Counted(life.effects)
      modifies this`attempts, this`life, this`unrouted, this`deadCount
      ensures attempts == Kept(old(attempts), GoneTargets(pass, old(attempts)))
      ensures life == old(life).(effects := old(life.effects) + Drops(cursor, old(attempts), GoneTargets(pass, old(attempts)), UnroutedBy(pass)))
      ensures Counts() == Counted(life.effects)
    {
      hide Kept, Drops, Wakes, StillLeft, Has, Distinct, Handled, Counted, GoneTargets, Routable;
      ghost var gone := GoneTargets(pass, attempts);
      var all := attempts;
      NoneYet(cursor, all, gone, UnroutedBy(pass), 0);
      assert life.effects + [] == life.effects;
      if pass.registry.None? {
        NobodyGone(pass, cursor, all);
        return;
      }
      var k := 0;
      while k < |all|
        invariant k <= |all| && Handled(attempts, Kept(all[..k], gone), all, k)
        invariant life == old(life).(effects := old(life.effects) + Drops(cursor, all[..k], gone, UnroutedBy(pass)))
        invariant Counts() == Counted(life.effects)
      {
        var sid := all[k].sid;
        GoneMeans(pass, all, k);
        DropsNext(cursor, all, k, gone, UnroutedBy(pass));
        if !Routable(pass.registry.value, sid) && sid in pass.passedFirst {
          unrouted := unrouted + 1;
          deadCount := deadCount + 1;
          DropTarget(all, k, gone, sid, UnroutedBy(pass));
        } else {
          KeptNext(all, k, gone);
          SkipNext(attempts, Kept(all[..k], gone), all, k);
        }
        k := k + 1;
      }
      AllDone(attempts, Kept(all[..k], gone), all);
    }

    /** Leave targets to their native lane where it already took the line; tell whether one may still do so. */
    method AdaptiveYield(pass: Pass) returns (armed: bool)
      requires Distinct(attempts) && Counts() == Counted(life.effects)
      modifies this`attempts, this`life, this`adaptiveSkip
      ensures attempts == Kept(old(attempts), pass.passedThen)
      ensures life == old(life).(effects := old(life.effects) + Drops(cursor, old(attempts), pass.passedThen, TookBy(pass)))
      ensures Counts() == Counted(life.effects)
      ensures armed == Armed(pass, attempts)
    {
      NeverArmed(pass);
      hide Kept, Drops, Wakes, StillLeft, Has, Distinct, Handled, Counted, Host.Armed;
      armed := false;
      var all := attempts;
      NoneYet(cursor, all, pass.passedThen, TookBy(pass), 0);
      assert life.effects + [] == life.effects;
      var k := 0;
      while k < |all|
        invariant k <= |all| && Handled(attempts, Kept(all[..k], pass.passedThen), all, k)
        invariant life == old(life).(effects := old(life.effects) + Drops(cursor, all[..k], pass.passedThen, TookBy(pass)))
        invariant Counts() == Counted(life.effects)
        invariant armed == Armed(pass, Kept(all[..k], pass.passedThen))
      {
        DropsNext(cursor, all, k, pass.passedThen, TookBy(pass));
        armed := YieldAt(all, k, pass, armed);
        k := k + 1;
      }
      AllDone(attempts, Kept(all[..k], pass.passedThen), all);
    }

    /** The target at hand is left to its native lane, or kept, with a lane of its own or not. */
    method YieldAt(all: seq<Target>, k: nat, pass: Pass, before: bool) returns (armed: bool)
      requires Distinct(all) && k < |all| && Handled(attempts, Kept(all[..k], pass.passedThen), all, k)
      requires Counts() == Counted(life.effects) && before == Armed(pass, Kept(all[..k], pass.passedThen))
      modifies this`attempts, this`life, this`adaptiveSkip
      ensures Handled(attempts, Kept(all[..k + 1], pass.passedThen), all, k + 1)
      ensures Counts() == Counted(life.effects) && armed == Armed(pass, Kept(all[..k + 1], pass.passedThen))
      ensures life == if all[k].sid !in pass.passedThen then old(life)
                      else old(life).(effects := old(life.effects) + [Ended(cursor, all[k].sid, TookBy(pass))])
    {
      hide Kept, Has, Distinct, Handled, Counted, Host.Armed;
      armed := before;
      var sid := all[k].sid;
      KeptNext(all, k, pass.passedThen);
      if sid in pass.passedThen {
        DropTarget(all, k, pass.passedThen, sid, TookBy(pass));
        adaptiveSkip := adaptiveSkip + 1;
      } else {
        SkipNext(attempts, Kept(all[..k], pass.passedThen), all, k);
        ArmedSnoc(pass, Kept(all[..k], pass.passedThen), all[k]);
        if sid in pass.lanes { armed := true; }
      }
    }

    /** The wake-up loop. */
    method WakeTargets(pass: Pass)
      requires Distinct(attempts) && Counts() == Counted(life.effects)
      modifies this`attempts, this`life, this`deadCount
      ensures attempts == StillLeft(old(attempts), pass.refusing, config.Bound())
      ensures life == old(life).(effects := old(life.effects) + Wakes(cursor, old(attempts), pass.refusing, config.Bound()))
      ensures Counts() == Counted(life.effects)
    {
      hide Kept, Drops, Wakes, StillLeft, Has, Distinct, Handled, Counted, WakeStory;
      var all := attempts;
      NoneYet(cursor, all, pass.refusing, Delivered, config.Bound());
      assert life.effects + [] == life.effects;
      var k := 0;
      while k < |all|
        invariant k <= |all| && Handled(attempts, StillLeft(all[..k], pass.refusing, config.Bound()), all, k)
        invariant life == old(life).(effects := old(life.effects) + Wakes(cursor, all[..k], pass.refusing, config.Bound()))
        invariant Counts() == Counted(life.effects)
      {
        WakesNext(cursor, all, k, pass.refusing, config.Bound());
        WakeAt(all, k, pass.refusing);
        k := k + 1;
      }
      AllDone(attempts, StillLeft(all[..k], pass.refusing, config.Bound()), all);
    }

    /** Wake the target at hand: delivered, or refused once more, and buried after the last refusal allowed. */
    method WakeAt(all: seq<Target>, k: nat, refusing: set<HostRegistry.Sid>)
      requires Distinct(all) && k < |all| && Handled(attempts, StillLeft(all[..k], refusing, config.Bound()), all, k)
      requires Counts() == Counted(life.effects)
      modifies this`attempts, this`life, this`deadCount
      ensures Handled(attempts, StillLeft(all[..k + 1], refusing, config.Bound()), all, k + 1)
      ensures Counts() == Counted(life.effects)
      ensures life == old(life).(effects := old(life.effects)
                           + WakeStory(cursor, all[k].sid, all[k].tries, refusing, config.Bound()))
    {
      hide StillLeft, Has, Distinct, Handled, Counted;
      var sid := all[k].sid;
      ghost var done := StillLeft(all[..k], refusing, config.Bound());
      ghost var before := life.effects;
      StillLeftNext(all, k, refusing, config.Bound());
      DeleteNext(attempts, done, all, k);
      if sid !in refusing {
        Emit(Ended(cursor, sid, Delivered));
        attempts := Delete(attempts, sid);
      } else {
        var count := all[k].tries + 1;
        SetNext(attempts, done, all, k, count);
        Emit(Refused(cursor, sid));
        if count >= config.maxWakeFailures {
          deadCount := deadCount + 1;
          Emit(Ended(cursor, sid, WakeFailed));
          assert life.effects == before + [Refused(cursor, sid), Ended(cursor, sid, WakeFailed)];
          attempts := Delete(attempts, sid);
        } else {
          attempts := SetTries(attempts, sid, count);
        }
      }
    }

    /** The end of a pending line: both keys marked, with the message id for replays, and the delivery counted. */
    method Settle(ghost p: Pending, pass: Pass)
      requires dedup.Valid() && dedup.windowMs == config.windowMs && pending.Some?
      requires p.keys == pending.value.keys && p.message == pending.value.message
      modifies this`pending, this`deliveredLines, dedup
      ensures dedup.Valid()
      ensures View() == Router(cursor, None, MarkKeys(old(dedup.entries), config, p, pass))
      ensures deliveredLines == old(deliveredLines) + 1
    {
      var keys, msgid := pending.value.keys, pending.value.message.msgid;
      dedup.MarkKey(keys.primary, msgid, pass.at1, pass.sweep1);
      if keys.secondary.Some? { dedup.MarkKey(keys.secondary.value, msgid, pass.at2, pass.sweep2); }
      deliveredLines := deliveredLines + 1;
      pending := None;
    }

    /** Bury, then yield to native lanes; false when the pass ends there, waiting for such a lane. */
    method PrepareTargets(ghost p: Pending, pass: Pass) returns (wake: bool)
      requires Distinct(attempts) && Counts() == Counted(life.effects) && p.left == attempts && p.deferUntil == deferUntil
      modifies this`attempts, this`deferUntil, this`life, this`unrouted, this`adaptiveSkip, this`deadCount
      ensures Distinct(attempts) && Counts() == Counted(life.effects)
      ensures var gone := GoneTargets(pass, p.left);
              var routed := Kept(p.left, gone);
              var buried := Drops(cursor, p.left, gone, UnroutedBy(pass));
              && wake == (!Waits(p, pass) && !Defers(p, pass))
              && attempts == (if Waits(p, pass) then routed else Kept(routed, pass.passedThen))
              && deferUntil == (if !wake && !Waits(p, pass) then Some(pass.at + config.deferMs) else p.deferUntil)
              && life == old(life).(effects := old(life.effects)
                           + if Waits(p, pass) then buried else buried + Drops(cursor, routed, pass.passedThen, TookBy(pass)))
    {
      hide Kept, Drops, Has, Counted, GoneTargets, Routable, Distinct, Host.Armed;
      ghost var effects := life.effects;
      DeadLetterUnroutedTargets(pass);
      KeepsDistinct(p.left, GoneTargets(pass, p.left));
      if deferUntil.Some? && pass.at < deferUntil.value {
        return false;
      }
      ghost var routed := attempts;
      var armed := AdaptiveYield(pass);
      KeepsDistinct(routed, pass.passedThen);
      assert life.effects == effects + (Drops(cursor, p.left, GoneTargets(pass, p.left), UnroutedBy(pass))
                                        + Drops(cursor, routed, pass.passedThen, TookBy(pass)));
      wake := true;
      if deferUntil.None? && armed {
        deferUntil := Some(pass.at + config.deferMs);
        wake := false;
      }
    }

    /** One delivery pass; true once every target came to an end, with the line counted and its keys marked. */
    method DeliverPending(pass: Pass) returns (done: bool)
      requires Valid() && pending.Some?
      modifies this`pending, this`attempts, this`deferUntil, this`life, dedup
      modifies this`unrouted, this`adaptiveSkip, this`deadCount, this`deliveredLines
      ensures dedup.Valid()
      ensures var p := old(View()).pending.value;
              var out := Deliver(config, cursor, p, pass);
              && done == out.done
              && life == old(life).(effects := old(life.effects) + out.effects)
              && (done ==> View() == Router(cursor, None, MarkKeys(old(dedup.entries), config, p, pass)))
              && (done ==> Counts() == Tick(Counted(life.effects), Retired(cursor, p.line, Settled(p.sids))))
              && (!done ==> View() == old(View()).(pending := Some(out.pending)) && Counts() == Counted(life.effects))
              && (!done ==> Distinct(attempts))
    {
      hide Deliver, Kept, Drops, Wakes, StillLeft, Has, Counted, Tick, GoneTargets, MarkKeys, Routable, Distinct, Waits, Defers;
      hide DedupWindow.Run, UnroutedBy, TookBy, Text.SplitCompleteLines;
      ghost var p := View().pending.value;
      ghost var effects := life.effects;
      DeliverEnds(config, cursor, p, pass);
      var wake := PrepareTargets(p, pass);
      if !wake { return false; }
      ghost var facing, prepared := attempts, life.effects[|effects|..];
      done := WakeAndSettle(p, pass);
      assert life.effects == effects + (prepared + Wakes(cursor, facing, pass.refusing, config.Bound()));
    }

    /** Wake whoever is left, and settle the line if nobody is left then. */
    method WakeAndSettle(ghost p: Pending, pass: Pass) returns (done: bool)
      requires dedup.Valid() && dedup.windowMs == config.windowMs && pending.Some?
      requires p.keys == pending.value.keys && p.message == pending.value.message
      requires Distinct(attempts) && Counts() == Counted(life.effects)
      modifies this`pending, this`attempts, this`life, this`deadCount, this`deliveredLines, dedup
      ensures dedup.Valid()
      ensures attempts == StillLeft(old(attempts), pass.refusing, config.Bound()) && Distinct(attempts)
      ensures done == (attempts == [])
      ensures life == old(life).(effects := old(life.effects) + Wakes(cursor, old(attempts), pass.refusing, config.Bound()))
      ensures done ==> View() == Router(cursor, None, MarkKeys(old(dedup.entries), config, p, pass))
      ensures done ==> Counts() == Tick(Counted(life.effects), Retired(cursor, p.line, Settled(p.sids)))
      ensures !done ==> pending == old(pending) && dedup.entries == old(dedup.entries) && Counts() == Counted(life.effects)
    {
      hide Wakes, StillLeft, Counted, MarkKeys, Distinct, DedupWindow.Run;
      ghost var facing := attempts;
      WakeTargets(pass);
      KeepsDistinctLeft(facing, pass.refusing, config.Bound());
      done := |attempts| == 0;
      if done { Settle(p, pass); }
    }

    /** A delivery pass over the pending line, and the step to the next line once it settled. */
    method PursuePending(pass: Pass) returns (done: bool)
      requires Valid() && pending.Some?
      modifies this, dedup
      ensures Valid() && done == pending.None?
      ensures World() == Host.Next(config, old(World()), Do(Pursue(pass)))
      ensures inbox == old(inbox) && (done ==> cursor == old(cursor) + 1) && (!done ==> cursor == old(cursor))
    {
      hide Deliver, MarkKeys, Counted, DedupWindow.Run, Text.SplitCompleteLines, Distinct;
      ghost var w, p := World(), View().pending.value;
      done := DeliverPending(pass);
      PursueSaves(config, w, pass);
      if done {
        StepOver(p.line, Settled(p.sids));
      }
    }

    /** The branches of the intake loop, over a fresh look at the registry and the window. */
    method Consider(line: string, registry: Registry, answer: Answer, ghost look: Look) returns (verdict: Verdict)
      requires dedup.Valid() && dedup.windowMs == config.windowMs
      requires look.registry == registry && look.passed == answer.passed && look.now1 == answer.now1 && look.now2 == answer.now2
      ensures verdict == Judge(config, dedup.entries, line, look)
    {
      hide ResolveHostRouting, DigestKeys, DedupWindow.Run, Text.Trim, Monotone, Newest;
      if config.echoPrefix <= line { return Gone(Echoed); }
      if |Text.Trim(line)| == 0 { return Gone(Blank); }
      var parsed := config.parse(line);
      if parsed.None? { return Gone(Malformed); }
      var message := parsed.value;
      var address := ParseAddress(message.to);
      var routing := Resolve(address, registry);
      if routing.Dead? {
        return Gone(Unroutable(routing.death, Parallel(address, routing.death, answer.passed), registry, answer.passed));
      }
      if routing.Skip? { return Gone(Skipped(registry)); }
      var keys := DigestKeys(line, message);
      var hit := dedup.Seen(keys.primary, answer.now1);
      if hit.None? && keys.secondary.Some? { hit := dedup.Seen(keys.secondary.value, answer.now2); }
      if hit.Some? { return Gone(Duplicate(registry)); }
      verdict := Route(message, routing.broadcast, routing.sids);
    }

    /** One more line gone by the given fate. */
    method Count(fate: Fate)
      modifies this`echoCount, this`blankCount, this`deadCount, this`skippedCount, this`dedupCount, this`deliveredLines
      ensures Counts() == Tick(old(Counts()), Retired(cursor, "", fate))
    {
      match fate
      case Echoed => echoCount := echoCount + 1;
      case Blank => blankCount := blankCount + 1;
      case Malformed => deadCount := deadCount + 1;
      case Unroutable(_, _, _, _) => deadCount := deadCount + 1;
      case Skipped(_) => skippedCount := skippedCount + 1;
      case Duplicate(_) => dedupCount := dedupCount + 1;
      case Settled(_) => deliveredLines := deliveredLines + 1;
    }

    /** The line at the cursor: dropped, buried, or opened for delivery. */
    method TakeLine(registry: Registry, answer: Answer) returns (ghost look: Look)
      requires Valid() && pending.None? && cursor < |Text.SplitCompleteLines(inbox)|
      modifies this
      ensures Valid() && inbox == old(inbox)
      ensures Enabled(config, old(View()), Text.SplitCompleteLines(inbox), Take(look))
      ensures World() == Host.Next(config, old(World()), Do(Take(look)))
      ensures cursor == old(cursor) + (if pending.None? then 1 else 0)
    {
      hide Counted, DedupWindow.Run, Text.SplitCompleteLines, Judge, Host.Next;
      var line := Text.SplitCompleteLines(inbox)[cursor];
      look := Look(registry, answer.passed, [], answer.now1, answer.now2);
      var verdict := Consider(line, registry, answer, look);
      match verdict
      case Gone(fate) => DropLine(look, line, fate);
      case Route(message, broadcast, sids) =>
        var order := InOrder(sids);
        look := look.(order := order);
        JudgeIgnoresOrder(config, dedup.entries, line, look, []);
        OpenLine(look, line, verdict, order);
    }

    method DropLine(ghost look: Look, ghost line: string, fate: Fate)
      requires Valid() && pending.None? && cursor < |Text.SplitCompleteLines(inbox)| && line == Text.SplitCompleteLines(inbox)[cursor]
      requires Judge(config, dedup.entries, line, look) == Gone(fate)
      modifies this
      ensures Valid() && inbox == old(inbox) && pending.None? && cursor == old(cursor) + 1
      ensures World() == Host.Next(config, old(World()), Do(Take(look)))
    {
      hide Counted, DedupWindow.Run, Text.SplitCompleteLines, Judge, Distinct, LastSaved;
      ghost var w := World();
      Count(fate);
      StepOver(line, fate);
      SavesNext(Retired(w.router.cursor, line, fate), w.router.cursor + 1, w.disk);
    }

    method OpenLine(ghost look: Look, line: string, verdict: Verdict, order: seq<HostRegistry.Sid>)
      requires Valid() && pending.None? && cursor < |Text.SplitCompleteLines(inbox)| && line == Text.SplitCompleteLines(inbox)[cursor]
      requires verdict.Route? && Judge(config, dedup.entries, line, look) == verdict
      requires look.order == order && Lists(order, verdict.sids)
      modifies this
      ensures Valid() && inbox == old(inbox) && pending.Some? && cursor == old(cursor)
      ensures World() == Host.Next(config, old(World()), Do(Take(look)))
    {
      hide Counted, DedupWindow.Run, Text.SplitCompleteLines, Judge, DigestKeys, Distinct, LastSaved, Fresh, Apply;
      ghost var e: Effect := Opened(cursor, line, look.registry, verdict.broadcast, order);
      pending := Some(Header(line, verdict.message, DigestKeys(line, verdict.message), verdict.broadcast, order));
      attempts := Fresh(order);
      deferUntil := None;
      SavesNothing([e], cursorFile);
      FreshDistinct(order);
      Emit(e);
    }

    /** What the outer loop does with a registry and the inbox: every line in turn, until one stays pending. */
    method TakeLines(registry: Registry, answers: nat -> Answer) returns (ghost steps: seq<Host.Step>)
      requires Valid() && pending.None?
      modifies this, dedup
      ensures Valid() && inbox == old(inbox)
      ensures World() == Host.Run(config, old(World()), steps)
      ensures pending.None? ==> cursor == |Text.SplitCompleteLines(inbox)|
      ensures pending.Some? ==> EndsPursuing(steps)
    {
      hide Host.Run, Host.Next, Text.SplitCompleteLines, Counted, Distinct, DedupWindow.Run;
      ghost var w := World();
      steps := [];
      RunNothing(config, w);
      var lines := Text.SplitCompleteLines(inbox);
      while cursor < |lines|
        invariant Valid() && pending.None? && inbox == old(inbox)
        invariant World() == Host.Run(config, w, steps)
      {
        ghost var look := TakeLine(registry, answers(cursor));
        RunSnoc(config, w, steps, Do(Take(look)));
        steps := steps + [Do(Take(look))];
        if pending.Some? {
          var pass := answers(cursor).pass;
          var done := PursuePending(pass);
          RunSnoc(config, w, steps, Do(Pursue(pass)));
          steps := steps + [Do(Pursue(pass))];
          if !done { return; }
        }
      }
    }

    /**
     * A flush: the pending line first, then every complete line, once more for every round that found an
     * event missed meanwhile. What it does to the object and its files is a run of the model. It stops only
     * at the end of the complete lines, or after a pass that left the line at the cursor pending.
     */
    method Flush(rounds: seq<Round>, answers: nat -> Answer) returns (ghost steps: seq<Host.Step>)
      requires Valid()
      modifies this, dedup
      ensures Valid()
      ensures World() == Host.Run(config, old(World()), steps)
      ensures |rounds| > 0 && pending.None? ==> cursor == |Text.SplitCompleteLines(inbox)|
      ensures |rounds| > 0 && pending.Some? ==> EndsPursuing(steps)
    {
      hide Host.Run, Text.SplitCompleteLines, Counted, Distinct, DedupWindow.Run, Valid;
      ghost var w := World();
      steps := [];
      RunNothing(config, w);
      for k := 0 to |rounds|
        invariant Valid() && World() == Host.Run(config, w, steps)
        invariant k > 0 ==> pending.None? && cursor == |Text.SplitCompleteLines(inbox)|
      {
        if pending.Some? {
          var pass := answers(cursor).pass;
          var done := PursuePending(pass);
          RunSnoc(config, w, steps, Do(Pursue(pass)));
          steps := steps + [Do(Pursue(pass))];
          if !done { return; }
        }
        AppendLines(rounds[k].more);
        RunSnoc(config, w, steps, Append(rounds[k].more));
        steps := steps + [Append(rounds[k].more)];
        ghost var taken := TakeLines(rounds[k].registry, answers);
        RunJoin(config, w, steps, taken);
        steps := steps + taken;
        if pending.Some? { return; }
      }
    }

    /** Whole or half lines appended by others; complete lines keep their numbers. */
    method AppendLines(more: string)
      requires Valid()
      modifies this`inbox
      ensures Valid() && World() == Host.Next(config, old(World()), Append(more))
    {
      Text.LinesStableUnderAppend(inbox, more);
      inbox := inbox + more;
    }

    /** The other intake marks a key in the shared window. */
    method MarkFromOutside(key: string, meta: Option<string>, at: int, sweep: int)
      requires Valid()
      modifies this`life, dedup
      ensures Valid() && World() == Host.Next(config, old(World()), MarkElsewhere(key, meta, at, sweep))
    {
      dedup.MarkKey(key, meta, at, sweep);
      life := life.(outside := life.outside + {key});
    }

    /** After any run from a start, the counters tell how far the cursor came, less the burials of single targets. */
    lemma CountersTellProgress(text: string, disk: nat, steps: seq<Host.Step>)
      requires Valid() && World() == Host.Run(config, Boot(text, disk, []), steps)
      ensures cursor == life.from + echoCount + blankCount + dedupCount + skippedCount + deliveredLines
                        + (deadCount - Burials(life.effects))
    {
      hide Safety.LawfulLife, Safety.Chain, Safety.PendingOk, Host.Run;
      Safety.Reachable(config, text, disk, steps);
      CountersConserve(life.effects);
    }
  }

  /** The last step was a pass over a pending line. */
  predicate EndsPursuing(steps: seq<Host.Step>) {
    steps != [] && steps[|steps| - 1].Do? && steps[|steps| - 1].work.Pursue?
  }

  /** Some order of a set of sessions. */
  method InOrder(sids: set<HostRegistry.Sid>) returns (order: seq<HostRegistry.Sid>)
    ensures Lists(order, sids)
  {
    order := [];
    var rest := sids;
    while rest != {}
      invariant rest <= sids && Lists(order, sids - rest)
      decreases rest
    {
      var sid :| sid in rest;
      assert sid !in order by { assert sid !in (set s | s in order); }
      assert (set s | s in order + [sid]) == (set s | s in order) + {sid};
      rest := rest - {sid};
      order := order + [sid];
    }
    assert sids - rest == sids;
  }

  lemma FreshDistinct(order: seq<HostRegistry.Sid>)
    requires forall a, b :: 0 <= a < b < |order| ==> order[a] != order[b]
    ensures Distinct(Fresh(order))
  {
  }

  lemma JudgeIgnoresOrder(c: Config, marks: Marks, line: string, look: Look, order: seq<HostRegistry.Sid>)
    ensures Judge(c, marks, line, look) == Judge(c, marks, line, look.(order := order))
  {
  }

  lemma SavesNext(e: Effect, cursor: nat, disk: nat)
    ensures LastSaved([e, Saved(cursor)], disk) == cursor
  {
  }

  lemma SavesNothing(effects: seq<Effect>, disk: nat)
    requires forall e :: e in effects ==> !e.Saved?
    ensures LastSaved(effects, disk) == disk
  {
    Safety.NothingSaved(effects, disk);
  }

  /** The cursor file after a pass. */
  lemma PursueSaves(c: Config, w: Host.World, pass: Pass)
    requires w.router.pending.Some?
    ensures var out := Deliver(c, w.router.cursor, w.router.pending.value, pass);
            && LastSaved(out.effects, w.disk) == w.disk
            && LastSaved(out.effects + [Retired(w.router.cursor, w.router.pending.value.line, Settled(w.router.pending.value.sids)),
                                        Saved(w.router.cursor + 1)], w.disk) == w.router.cursor + 1
            && out.pending.line == w.router.pending.value.line
  {
    Safety.PassShape(c, w.router.cursor, w.router.pending.value, pass);
    SavesNothing(Deliver(c, w.router.cursor, w.router.pending.value, pass).effects, w.disk);
  }

  lemma RunNothing(c: Config, w: Host.World)
    ensures Host.Run(c, w, []) == w
  {
  }

  lemma RunSnoc(c: Config, w: Host.World, steps: seq<Host.Step>, step: Host.Step)
    ensures Host.Run(c, w, steps + [step]) == Host.Next(c, Host.Run(c, w, steps), step)
  {
    assert (steps + [step])[..|steps|] == steps;
  }

  lemma {:induction false} RunJoin(c: Config, w: Host.World, a: seq<Host.Step>, b: seq<Host.Step>)
    ensures Host.Run(c, w, a + b) == Host.Run(c, Host.Run(c, w, a), b)
  {
    hide Host.Next;
    if b == [] {
      assert a + b == a;
    } else {
      RunJoin(c, w, a, b[..|b| - 1]);
      assert (a + b)[..|a + b| - 1] == a + b[..|b| - 1];
    }
  }

  /** How a pass ends, by whether it waits, opens the window or wakes. */
  lemma DeliverEnds(c: Config, index: nat, p: Pending, pass: Pass)
    ensures var out := Deliver(c, index, p, pass);
            var gone := GoneTargets(pass, p.left);
            var routed := Kept(p.left, gone);
            var buried := Drops(index, p.left, gone, UnroutedBy(pass));
            var facing := Kept(routed, pass.passedThen);
            var yielded := Drops(index, routed, pass.passedThen, TookBy(pass));
            var left := StillLeft(facing, pass.refusing, c.Bound());
            && (Waits(p, pass) ==> out == Outcome(false, p.(left := routed), buried))
            && (Defers(p, pass) ==>
                  out == Outcome(false, p.(left := facing, deferUntil := Some(pass.at + c.deferMs)), buried + yielded))
            && (!Waits(p, pass) && !Defers(p, pass) ==>
                  out == Outcome(left == [], p.(left := left), buried + yielded + Wakes(index, facing, pass.refusing, c.Bound())))
  {
    hide Kept, Drops, Wakes, StillLeft, GoneTargets, Host.Armed;
  }

  lemma KeepsDistinct(targets: seq<Target>, out: set<HostRegistry.Sid>)
    requires Distinct(targets)
    ensures Distinct(Kept(targets, out))
  {
    KeptMeaning(targets, out);
  }

  lemma {:induction false} KeepsDistinctLeft(targets: seq<Target>, refusing: set<HostRegistry.Sid>, bound: nat)
    requires Distinct(targets)
    ensures Distinct(StillLeft(targets, refusing, bound))
  {
    if targets != [] {
      var prev, last := targets[..|targets| - 1], targets[|targets| - 1];
      var left, before := StillLeft(targets, refusing, bound), StillLeft(prev, refusing, bound);
      KeepsDistinctLeft(prev, refusing, bound);
      StillLeftFrom(prev, refusing, bound);
      forall a, b | 0 <= a < b < |left| ensures left[a].sid != left[b].sid {
        if b == |before| {
          assert left[a] in before;
          var k :| 0 <= k < |prev| && prev[k].sid == left[a].sid;
          assert targets[k].sid == left[a].sid;
        }
      }
    }
  }

  lemma NeverArmed(pass: Pass)
    ensures !Armed(pass, [])
  {
  }

  lemma ArmedSnoc(pass: Pass, targets: seq<Target>, t: Target)
    ensures Armed(pass, targets + [t]) <==> Armed(pass, targets) || t.sid in pass.lanes
  {
    assert forall other :: other in targets + [t] <==> other in targets || other == t;
  }

  lemma GoneMeans(pass: Pass, targets: seq<Target>, k: nat)
    requires k < |targets| && pass.registry.Some?
    ensures targets[k].sid in GoneTargets(pass, targets) <==>
            !Routable(pass.registry.value, targets[k].sid) && targets[k].sid in pass.passedFirst
  {
    assert targets[k] in targets;
  }

  /** An unreadable registry buries nobody. */
  lemma NobodyGone(pass: Pass, index: nat, targets: seq<Target>)
    requires pass.registry.None?
    ensures Kept(targets, GoneTargets(pass, targets)) == targets && Drops(index, targets, GoneTargets(pass, targets), UnroutedBy(pass)) == []
  {
    KeptAll(targets, GoneTargets(pass, targets));
    DropsNone(index, targets, GoneTargets(pass, targets), UnroutedBy(pass));
  }

  lemma {:induction false} DropsNone(index: nat, targets: seq<Target>, out: set<HostRegistry.Sid>, how: End)
    requires forall t :: t in targets ==> t.sid !in out
    ensures Drops(index, targets, out, how) == []
  {
    if targets != [] { DropsNone(index, targets[..|targets| - 1], out, how); }
  }
}
