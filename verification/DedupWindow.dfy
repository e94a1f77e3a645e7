/**
 * The sliding deduplication window: a map that is pruned on every mark, measured against the full
 * history of marks; and the keys under which a line is marked and looked up.
 */
module DedupWindow {
  import opened Wrappers

  datatype Entry<M> = Entry(at: int, meta: M)

  /** One call that changes the window; `sweep` is the clock reading its prune uses. */
  datatype Op<K, M> = Mark(key: K, meta: M, at: int, sweep: int) | Sweep(sweep: int)

  /** What pruning at `now` leaves. */
  function Pruned<K, M>(entries: map<K, Entry<M>>, windowMs: int, now: int): map<K, Entry<M>> {
    map k | k in entries && entries[k].at >= now - windowMs :: entries[k]
  }

  function Apply<K, M>(entries: map<K, Entry<M>>, windowMs: int, op: Op<K, M>): map<K, Entry<M>> {
    var marked := if op.Mark? then entries[op.key := Entry(op.at, op.meta)] else entries;
    Pruned(marked, windowMs, op.sweep)
  }

  function Run<K, M>(windowMs: int, ops: seq<Op<K, M>>): map<K, Entry<M>> {
    if ops == [] then map[] else Apply(Run(windowMs, ops[..|ops| - 1]), windowMs, ops[|ops| - 1])
  }

  function Hit<M>(entry: Option<Entry<M>>, windowMs: int, now: int): Option<Entry<M>> {
    if entry.Some? && now - entry.value.at < windowMs then entry else None
  }

  function Lookup<K, M>(entries: map<K, Entry<M>>, key: K): Option<Entry<M>> {
    if key in entries then Some(entries[key]) else None
  }

  // ------------------------------------------------------ the unpruned history

  /** Position just after the newest mark of a key; 0 when there is none. */
  function AfterNewest<K(==), M>(ops: seq<Op<K, M>>, key: K): (n: nat)
    ensures n <= |ops|
    ensures n > 0 ==> ops[n - 1].Mark? && ops[n - 1].key == key
    ensures forall i :: n <= i < |ops| ==> !(ops[i].Mark? && ops[i].key == key)
  {
    if ops == [] then 0
    else if ops[|ops| - 1].Mark? && ops[|ops| - 1].key == key then |ops|
    else AfterNewest(ops[..|ops| - 1], key)
  }

  /** The newest mark of a key, however old. */
  function Newest<K(==), M>(ops: seq<Op<K, M>>, key: K): Option<Entry<M>> {
    var n := AfterNewest(ops, key);
    if n == 0 then None else Some(Entry(ops[n - 1].at, ops[n - 1].meta))
  }

  /** Some prune since the newest mark of a key read a clock past that mark's window. */
  ghost predicate Forgotten<K(!new), M(!new)>(windowMs: int, ops: seq<Op<K, M>>, key: K) {
    var n := AfterNewest(ops, key);
    n > 0 && exists j :: n - 1 <= j < |ops| && ops[j].sweep - ops[n - 1].at > windowMs
  }

  /** No clock reading is behind an earlier one, and none is ahead of `now`. */
  predicate Monotone<K, M>(ops: seq<Op<K, M>>, now: int) {
    && (forall i :: 0 <= i < |ops| ==> ops[i].sweep <= now && (ops[i].Mark? ==> ops[i].at <= ops[i].sweep))
    && (forall i, j :: 0 <= i < j < |ops| && ops[j].Mark? ==> ops[i].sweep <= ops[j].at)
    && (forall i, j :: 0 <= i < j < |ops| ==> ops[i].sweep <= ops[j].sweep)
  }

  lemma ForgottenSnoc<K(!new), M(!new)>(windowMs: int, ops: seq<Op<K, M>>, op: Op<K, M>, key: K)
    requires !(op.Mark? && op.key == key)
    ensures Newest(ops + [op], key) == Newest(ops, key)
    ensures Forgotten(windowMs, ops + [op], key) <==>
            Forgotten(windowMs, ops, key) || (Newest(ops, key).Some? && op.sweep - Newest(ops, key).value.at > windowMs)
  {
    var all := ops + [op];
    assert all[..|ops|] == ops;
    var n := AfterNewest(ops, key);
    assert AfterNewest(all, key) == n;
    if n > 0 {
      assert all[n - 1] == ops[n - 1];
      if Forgotten(windowMs, ops, key) {
        var j :| n - 1 <= j < |ops| && ops[j].sweep - ops[n - 1].at > windowMs;
        assert all[j] == ops[j];
      } else if op.sweep - ops[n - 1].at > windowMs {
        assert all[|ops|] == op;
      } else {
        forall j | n - 1 <= j < |all| ensures all[j].sweep - all[n - 1].at <= windowMs {
          if j < |ops| { assert all[j] == ops[j]; }
        }
      }
    }
  }

  lemma MarkSnoc<K(!new), M(!new)>(windowMs: int, ops: seq<Op<K, M>>, op: Op<K, M>, key: K)
    requires op.Mark? && op.key == key
    ensures Newest(ops + [op], key) == Some(Entry(op.at, op.meta))
    ensures Forgotten(windowMs, ops + [op], key) <==> op.sweep - op.at > windowMs
  {
    var all := ops + [op];
    assert all[|ops|] == op;
  }

  /** The map holds exactly the newest mark of every key that no prune has forgotten. */
  lemma {:induction false} MapHoldsUnforgotten<K(!new), M(!new)>(windowMs: int, ops: seq<Op<K, M>>, key: K)
    ensures Lookup(Run(windowMs, ops), key) == if Forgotten(windowMs, ops, key) then None else Newest(ops, key)
  {
    if ops != [] {
      hide Forgotten, Newest, AfterNewest;
      var prev, op := ops[..|ops| - 1], ops[|ops| - 1];
      assert ops == prev + [op];
      MapHoldsUnforgotten(windowMs, prev, key);
      if op.Mark? && op.key == key {
        MarkSnoc(windowMs, prev, op, key);
      } else {
        ForgottenSnoc(windowMs, prev, op, key);
      }
    }
  }

  /**
   * The pruned map answers as the full history exactly when the newest mark was not forgotten while it
   * still counts: the only failing lookups are those whose clock has run back into a window that an
   * earlier prune saw closed.
   */
  lemma AnswersAsHistoryExactly<K(!new), M(!new)>(windowMs: int, ops: seq<Op<K, M>>, key: K, now: int)
    ensures Hit(Lookup(Run(windowMs, ops), key), windowMs, now) == Hit(Newest(ops, key), windowMs, now)
            <==> !(Forgotten(windowMs, ops, key) && now - Newest(ops, key).value.at < windowMs)
  {
    MapHoldsUnforgotten(windowMs, ops, key);
  }

  /** A clock that runs back into a window already pruned away: the history remembers the mark, the map does not. */
  lemma BackwardClockForgets(key: string)
    ensures var ops: seq<Op<string, int>> := [Mark(key, 0, 0, 0), Op.Sweep(60001)];
            Hit(Newest(ops, key), 60000, 30000).Some? && Hit(Lookup(Run(60000, ops), key), 60000, 30000).None?
  {
    var ops: seq<Op<string, int>> := [Mark(key, 0, 0, 0), Op.Sweep(60001)];
    assert ops[..1] == [ops[0]];
    assert AfterNewest(ops[..1], key) == 1;
    assert Forgotten(60000, ops, key) by { assert ops[1].sweep - ops[0].at > 60000; }
    MapHoldsUnforgotten(60000, ops, key);
  }

  /** With a clock that never runs back, every interleaving of marks, prunes and lookups agrees with the history. */
  lemma MonotoneAnswersAsHistory<K(!new), M(!new)>(windowMs: int, ops: seq<Op<K, M>>, key: K, now: int)
    requires Monotone(ops, now)
    ensures Hit(Lookup(Run(windowMs, ops), key), windowMs, now) == Hit(Newest(ops, key), windowMs, now)
  {
    AnswersAsHistoryExactly(windowMs, ops, key, now);
  }

  /** A mark is answered for as long as its window lasts, whatever is marked and pruned after it. */
  lemma MarkIsSeen<K(!new), M(!new)>(windowMs: int, ops: seq<Op<K, M>>, i: nat, now: int)
    requires i < |ops| && ops[i].Mark? && Monotone(ops, now) && now - ops[i].at < windowMs
    ensures Hit(Lookup(Run(windowMs, ops), ops[i].key), windowMs, now).Some?
  {
    MonotoneAnswersAsHistory(windowMs, ops, ops[i].key, now);
    assert AfterNewest(ops, ops[i].key) > i;
  }

  /** Whatever the clock did, a hit answers a mark of that key in the history, less than a window old. */
  lemma HitWasMarked<K(!new), M(!new)>(windowMs: int, ops: seq<Op<K, M>>, key: K, now: int)
    requires Hit(Lookup(Run(windowMs, ops), key), windowMs, now).Some?
    ensures exists i :: 0 <= i < |ops| && ops[i].Mark? && ops[i].key == key && now - ops[i].at < windowMs
  {
    MapHoldsUnforgotten(windowMs, ops, key);
    var n := AfterNewest(ops, key);
    assert ops[n - 1].key == key;
  }

  /** The window as an object, with the calls it has seen. */
  class Window<K(==,!new), M(!new)> {
    const windowMs: int
    var entries: map<K, Entry<M>>
    ghost var ops: seq<Op<K, M>>

    ghost predicate Valid()
      reads this
    {
      entries == Run(windowMs, ops)
    }

    constructor (windowMs: int)
      ensures Valid() && ops == [] && this.windowMs == windowMs
    {
      this.windowMs := windowMs;
      entries := map[];
      ops := [];
    }

    /** Never marks, and never refreshes what it finds. */
    method Seen(key: K, now: int) returns (hit: Option<Entry<M>>)
      requires Valid()
      ensures hit == Hit(Lookup(entries, key), windowMs, now)
      ensures Monotone(ops, now) ==> hit == Hit(Newest(ops, key), windowMs, now)
    {
      if key in entries && now - entries[key].at < windowMs {
        hit := Some(entries[key]);
      } else {
        hit := None;
      }
      if Monotone(ops, now) { MonotoneAnswersAsHistory(windowMs, ops, key, now); }
    }

    method MarkKey(key: K, meta: M, at: int, sweep: int)
      requires Valid()
      modifies this
      ensures Valid() && ops == old(ops) + [Mark(key, meta, at, sweep)]
      ensures entries == Apply(old(entries), windowMs, Mark(key, meta, at, sweep))
    {
      hide Forgotten, Newest, AfterNewest;
      ghost var next: Op<K, M> := Mark(key, meta, at, sweep);
      entries := entries[key := Entry(at, meta)];
      DropExpired(sweep);
      ops := ops + [next];
      assert ops[..|ops| - 1] == old(ops);
    }

    method Prune(sweep: int)
      requires Valid()
      modifies this
      ensures Valid() && ops == old(ops) + [Op.Sweep(sweep)]
      ensures entries == Pruned(old(entries), windowMs, sweep)
    {
      ghost var next: Op<K, M> := Op.Sweep(sweep);
      DropExpired(sweep);
      ops := ops + [next];
      assert ops[..|ops| - 1] == old(ops);
    }

    method DropExpired(now: int)
      modifies this`entries
      ensures entries == Pruned(old(entries), windowMs, now)
    {
      var horizon := now - windowMs;
      ghost var all := entries;
      var rest := entries.Keys;
      while rest != {}
        invariant rest <= all.Keys
        invariant entries == map k | k in all && (k in rest || all[k].at >= horizon) :: all[k]
        decreases rest
      {
        var key :| key in rest;
        rest := rest - {key};
        if entries[key].at < horizon {
          entries := entries - {key};
        }
      }
    }
  }
}

/** Keys of a line: sender with message id, sender with body, or the whole line. */
module DedupKeys {
  import opened Wrappers
  import opened DedupWindow

  /**
   * A parsed line. `from`, `msgid` and `to` are absent unless they are strings; `body` is the body as
   * text, empty when it is missing.
   */
  datatype Message = Message(from: Option<string>, body: string, msgid: Option<string>, to: Option<string>)
  {
    /** The message id that counts: an empty one does not. */
    function Id(): Option<string> {
      if msgid == Some("") then None else msgid
    }
  }

  /** Hashed material; distinct materials have distinct hashes. */
  datatype Keys = Keys(primary: string, secondary: Option<string>)

  const NUL := '\0'

  /** Material of a sender and a part. Nothing keeps the separator out of either. */
  function Paired(from: string, part: string): string {
    from + [NUL] + part
  }

  /** The longer sender is the shorter one, the separator, and the start of the shorter sender's part. */
  predicate Continues(from1: string, part1: string, from2: string, part2: string) {
    |from1| < |from2| && from1 == from2[..|from1|] && from2[|from1|] == NUL && part1 == Paired(from2[|from1| + 1..], part2)
  }

  /** Two pairs have one material: they are the same, or one sender continues the other. */
  predicate Confused(from1: string, part1: string, from2: string, part2: string) {
    (from1 == from2 && part1 == part2) || Continues(from1, part1, from2, part2) || Continues(from2, part2, from1, part1)
  }

  lemma PairedAt(from: string, part: string)
    ensures Paired(from, part)[|from|] == NUL && Paired(from, part)[..|from|] == from && Paired(from, part)[|from| + 1..] == part
  {
  }

  lemma PairedMeetsLonger(from1: string, part1: string, from2: string, part2: string)
    requires |from1| < |from2|
    ensures Paired(from1, part1) == Paired(from2, part2) <==> Continues(from1, part1, from2, part2)
  {
    var a, b := Paired(from1, part1), Paired(from2, part2);
    PairedAt(from1, part1);
    PairedAt(from2, part2);
    assert b[..|from1|] == from2[..|from1|] && b[|from1|] == from2[|from1|];
    assert b[|from1| + 1..] == Paired(from2[|from1| + 1..], part2);
    assert b == b[..|from1|] + [b[|from1|]] + b[|from1| + 1..];
    assert a == from1 + [NUL] + part1;
  }

  lemma PairedMeets(from1: string, part1: string, from2: string, part2: string)
    ensures Paired(from1, part1) == Paired(from2, part2) <==> Confused(from1, part1, from2, part2)
  {
    if |from1| < |from2| { PairedMeetsLonger(from1, part1, from2, part2); }
    else if |from2| < |from1| { PairedMeetsLonger(from2, part2, from1, part1); }
    else { PairedAt(from1, part1); PairedAt(from2, part2); }
  }

  /** Senders free of the separator are never confused. */
  lemma PlainNeverContinue(from1: string, part1: string, from2: string, part2: string)
    requires NUL !in from1 && NUL !in from2
    ensures Confused(from1, part1, from2, part2) <==> from1 == from2 && part1 == part2
  {
  }

  /** The host router's keys. */
  function DigestKeys(line: string, m: Message): Keys {
    if m.from.None? then Keys(line, None)
    else
      var bodyKey := Paired(m.from.value, m.body);
      if m.Id().None? then Keys(bodyKey, None)
      else Keys(Paired(m.from.value, m.Id().value), Some(bodyKey))
  }

  function KeySet(keys: Keys): set<string> {
    {keys.primary} + if keys.secondary.Some? then {keys.secondary.value} else {}
  }

  /** The shared library's digest material. */
  function DigestOf(line: string, m: Message): string {
    if m.from.None? then line else Paired(m.from.value, m.body)
  }

  /**
   * A hash as text: some text without separators that no other material has. Escaping stands for it; of a
   * real hash only these two facts are used.
   */
  function Hashed(material: string): (hash: string)
    ensures NUL !in hash
  {
    if material == "" then ""
    else (if material[0] == NUL then "%0" else if material[0] == '%' then "%%" else [material[0]]) + Hashed(material[1..])
  }

  lemma {:induction false} HashedInjective(a: string, b: string)
    ensures Hashed(a) == Hashed(b) <==> a == b
  {
    if a != "" && b != "" && Hashed(a) == Hashed(b) {
      var head := Hashed(a)[0];
      if head == '%' {
        assert Hashed(a)[1] == Hashed(b)[1];
        assert Hashed(a)[2..] == Hashed(a[1..]) && Hashed(b)[2..] == Hashed(b[1..]);
      } else {
        assert Hashed(a)[1..] == Hashed(a[1..]) && Hashed(b)[1..] == Hashed(b[1..]);
      }
      HashedInjective(a[1..], b[1..]);
      assert a == [a[0]] + a[1..] && b == [b[0]] + b[1..];
    }
  }

  /** The shared library's keys: the message id with its sender, kept as it is, and the hashed digest. */
  datatype WaistKeys = WaistKeys(msgidKey: Option<string>, digest: string)

  function WaistKeysOf(line: string, m: Message): WaistKeys {
    WaistKeys(if m.Id().None? then None else Some("m\0" + Paired(m.from.GetOr(""), m.Id().value)), Hashed(DigestOf(line, m)))
  }

  /** The two messages come from one sender, and repeat a message id or a body. */
  predicate Resend(line1: string, m1: Message, line2: string, m2: Message) {
    && m1.from.Some? && m1.from == m2.from
    && (m1.body == m2.body || (m1.Id().Some? && m1.Id() == m2.Id()))
  }

  /** What a line of a known sender is keyed by: its body and, if it counts, its message id. */
  function Parts(m: Message): set<string> {
    {m.body} + if m.Id().Some? then {m.Id().value} else {}
  }

  lemma KeysArePaired(line: string, m: Message)
    ensures KeySet(DigestKeys(line, m)) ==
            if m.from.None? then {line} else set part | part in Parts(m) :: Paired(m.from.value, part)
  {
  }

  /**
   * Two lines share a host key exactly when they are the same line without a sender, or some message id or
   * body of the one, with its sender, is confused with one of the other. A line itself holds no separator,
   * since JSON text must escape it.
   */
  lemma SharedKeyExactly(line1: string, m1: Message, line2: string, m2: Message)
    requires NUL !in line1 && NUL !in line2
    ensures KeySet(DigestKeys(line1, m1)) * KeySet(DigestKeys(line2, m2)) != {}
            <==> || (m1.from.None? && m2.from.None? && line1 == line2)
                 || (m1.from.Some? && m2.from.Some? && exists part1, part2 ::
                       part1 in Parts(m1) && part2 in Parts(m2) && Confused(m1.from.value, part1, m2.from.value, part2))
  {
    hide DigestKeys, KeySet, Parts, Confused;
    var k1, k2 := KeySet(DigestKeys(line1, m1)), KeySet(DigestKeys(line2, m2));
    KeysArePaired(line1, m1);
    KeysArePaired(line2, m2);
    forall f: string, p: string ensures NUL in Paired(f, p) { assert Paired(f, p)[|f|] == NUL; }
    if key :| key in k1 * k2 {
      assert key in k1 && key in k2;
      if m1.from.Some? && m2.from.Some? {
        var part1 :| part1 in Parts(m1) && Paired(m1.from.value, part1) == key;
        var part2 :| part2 in Parts(m2) && Paired(m2.from.value, part2) == key;
        PairedMeets(m1.from.value, part1, m2.from.value, part2);
      }
    }
    if m1.from.None? && m2.from.None? && line1 == line2 { assert line1 in k1 * k2; }
    if m1.from.Some? && m2.from.Some? {
      forall part1, part2 | part1 in Parts(m1) && part2 in Parts(m2) && Confused(m1.from.value, part1, m2.from.value, part2)
        ensures k1 * k2 != {}
      {
        PairedMeets(m1.from.value, part1, m2.from.value, part2);
        assert Paired(m1.from.value, part1) in k1 * k2;
      }
    }
  }

  /** For senders free of the separator: a resend by one sender, or one's message id spells the other's body. */
  lemma PlainSharedKey(line1: string, m1: Message, line2: string, m2: Message)
    requires NUL !in line1 && NUL !in line2
    requires NUL !in m1.from.GetOr("") && NUL !in m2.from.GetOr("")
    ensures KeySet(DigestKeys(line1, m1)) * KeySet(DigestKeys(line2, m2)) != {}
            <==> || (m1.from.None? && m2.from.None? && line1 == line2)
                 || Resend(line1, m1, line2, m2)
                 || (m1.from.Some? && m1.from == m2.from && (m1.Id() == Some(m2.body) || m2.Id() == Some(m1.body)))
  {
    hide DigestKeys, KeySet, Continues, Confused;
    SharedKeyExactly(line1, m1, line2, m2);
    if m1.from.Some? && m2.from.Some? {
      var f1, f2 := m1.from.value, m2.from.value;
      PlainNeverContinue(f1, m1.body, f2, m2.body);
      PlainNeverContinue(f1, m1.Id().GetOr(""), f2, m2.body);
      PlainNeverContinue(f1, m1.body, f2, m2.Id().GetOr(""));
      PlainNeverContinue(f1, m1.Id().GetOr(""), f2, m2.Id().GetOr(""));
      assert m1.body in Parts(m1) && m2.body in Parts(m2);
      assert m1.Id().Some? ==> m1.Id().value in Parts(m1);
      assert m2.Id().Some? ==> m2.Id().value in Parts(m2);
    }
  }

  /** Two senders that are told apart nowhere: one line is dropped as the other's duplicate. */
  lemma SendersConfused(line1: string, line2: string)
    ensures var m1, m2 := Message(Some("a"), "b\0c", None, None), Message(Some("a\0b"), "c", None, None);
            && DigestKeys(line1, m1) == DigestKeys(line2, m2)
            && WaistKeysOf(line1, m1).digest == WaistKeysOf(line2, m2).digest
  {
    assert Paired("a", "b\0c") == Paired("a\0b", "c");
  }

  /** The calls of one double mark: the same meta under both keys, each mark with its own clock readings. */
  predicate MarkedBoth(ops: seq<Op<string, Option<string>>>, i: nat, keys: Keys) {
    && i < |ops| && ops[i].Mark? && ops[i].key == keys.primary
    && (keys.secondary.Some? ==> i + 1 < |ops| && ops[i + 1].Mark? && ops[i + 1].key == keys.secondary.value)
  }

  function HostHit(entries: map<string, Entry<Option<string>>>, windowMs: int, keys: Keys, now1: int, now2: int): bool {
    || Hit(Lookup(entries, keys.primary), windowMs, now1).Some?
    || (keys.secondary.Some? && Hit(Lookup(entries, keys.secondary.value), windowMs, now2).Some?)
  }

  /**
   * After a double mark every resend by the same sender, under a new message id with the old body or
   * under the old message id with a new body, is caught while the window of the marks lasts.
   */
  lemma ResendCaught(windowMs: int, ops: seq<Op<string, Option<string>>>, i: nat,
                     line1: string, m1: Message, line2: string, m2: Message, now1: int, now2: int)
    requires Resend(line1, m1, line2, m2)
    requires MarkedBoth(ops, i, DigestKeys(line1, m1))
    requires Monotone(ops, now1) && now1 <= now2 && now2 - ops[i].at < windowMs
    ensures HostHit(Run(windowMs, ops), windowMs, DigestKeys(line2, m2), now1, now2)
  {
    var k1, k2 := DigestKeys(line1, m1), DigestKeys(line2, m2);
    MarkIsSeen(windowMs, ops, i, now1);
    MarkIsSeen(windowMs, ops, i, now2);
    if k1.secondary.Some? {
      assert ops[i].at <= ops[i].sweep <= ops[i + 1].at;
      MarkIsSeen(windowMs, ops, i + 1, now1);
      MarkIsSeen(windowMs, ops, i + 1, now2);
    }
  }

  /** The key was marked less than a window before the clock reading. */
  predicate MarkedWithin(calls: seq<Op<string, Option<string>>>, key: string, now: int, windowMs: int) {
    exists i :: 0 <= i < |calls| && calls[i].Mark? && calls[i].key == key && now - calls[i].at < windowMs
  }

  /** On any clock a hit on a key was marked within the window; on one that does not run back every such mark is hit. */
  lemma KeyHitExactly(windowMs: int, calls: seq<Op<string, Option<string>>>, key: string, now: int)
    ensures Hit(Lookup(Run(windowMs, calls), key), windowMs, now).Some? ==> MarkedWithin(calls, key, now, windowMs)
    ensures Monotone(calls, now) && MarkedWithin(calls, key, now, windowMs) ==>
              Hit(Lookup(Run(windowMs, calls), key), windowMs, now).Some?
  {
    hide Run, Hit, Monotone;
    if Hit(Lookup(Run(windowMs, calls), key), windowMs, now).Some? { HitWasMarked(windowMs, calls, key, now); }
    if Monotone(calls, now) && MarkedWithin(calls, key, now, windowMs) {
      var i :| 0 <= i < |calls| && calls[i].Mark? && calls[i].key == key && now - calls[i].at < windowMs;
      MarkIsSeen(windowMs, calls, i, now);
    }
  }

  lemma LaterMonotone(calls: seq<Op<string, Option<string>>>, now: int, later: int)
    requires Monotone(calls, now) && now <= later
    ensures Monotone(calls, later)
  {
  }

  /** The host router finds a line again exactly if one of its keys was marked within the window, by the reading taken for it. */
  lemma HostHitExactly(windowMs: int, calls: seq<Op<string, Option<string>>>, keys: Keys, now1: int, now2: int)
    ensures var hit := HostHit(Run(windowMs, calls), windowMs, keys, now1, now2);
            var marked := MarkedWithin(calls, keys.primary, now1, windowMs)
                          || (keys.secondary.Some? && MarkedWithin(calls, keys.secondary.value, now2, windowMs));
            && (hit ==> marked)
            && (Monotone(calls, now1) && now1 <= now2 ==> (hit <==> marked))
  {
    KeyHitExactly(windowMs, calls, keys.primary, now1);
    KeyHitExactly(windowMs, calls, keys.secondary.GetOr(""), now2);
    if Monotone(calls, now1) && now1 <= now2 { LaterMonotone(calls, now1, now2); }
    hide Run, Hit, Lookup, Monotone, MarkedWithin;
  }

  /** And so does the shared library, by its message-id key or its digest. */
  lemma WaistHitExactly(windowMs: int, calls: seq<Op<string, Option<string>>>, keys: WaistKeys, now1: int, now2: int)
    ensures var hit := WaistHit(Run(windowMs, calls), windowMs, keys, now1, now2);
            var marked := (keys.msgidKey.Some? && MarkedWithin(calls, keys.msgidKey.value, now1, windowMs))
                          || MarkedWithin(calls, keys.digest, now2, windowMs);
            && (hit ==> marked)
            && (Monotone(calls, now1) && now1 <= now2 ==> (hit <==> marked))
  {
    KeyHitExactly(windowMs, calls, keys.msgidKey.GetOr(""), now1);
    KeyHitExactly(windowMs, calls, keys.digest, now2);
    if Monotone(calls, now1) && now1 <= now2 { LaterMonotone(calls, now1, now2); }
    hide Run, Hit, Lookup, Monotone, MarkedWithin;
  }

  /** An empty message id is none: the keys are those of the same message without one, in both libraries. */
  lemma EmptyIdIsNone(line: string, from: Option<string>, body: string, to: Option<string>)
    ensures var bare, empty := Message(from, body, None, to), Message(from, body, Some(""), to);
            && DigestKeys(line, empty) == DigestKeys(line, bare) && WaistKeysOf(line, empty) == WaistKeysOf(line, bare)
            && (from.Some? ==> DigestKeys(line, bare) == Keys(from.value + "\0" + body, None))
            && WaistKeysOf(line, bare).msgidKey.None?
  {
  }

  /** The shared library's calls: the message-id key first when there is one, then the digest. */
  predicate WaistMarked(ops: seq<Op<string, Option<string>>>, i: nat, keys: WaistKeys) {
    if keys.msgidKey.Some?
    then i + 1 < |ops| && ops[i].Mark? && ops[i].key == keys.msgidKey.value && ops[i + 1].Mark? && ops[i + 1].key == keys.digest
    else i < |ops| && ops[i].Mark? && ops[i].key == keys.digest
  }

  function WaistHit(entries: map<string, Entry<Option<string>>>, windowMs: int, keys: WaistKeys, now1: int, now2: int): bool {
    || (keys.msgidKey.Some? && Hit(Lookup(entries, keys.msgidKey.value), windowMs, now1).Some?)
    || Hit(Lookup(entries, keys.digest), windowMs, now2).Some?
  }

  lemma WaistResendCaught(windowMs: int, ops: seq<Op<string, Option<string>>>, i: nat,
                          line1: string, m1: Message, line2: string, m2: Message, now1: int, now2: int)
    requires Resend(line1, m1, line2, m2)
    requires WaistMarked(ops, i, WaistKeysOf(line1, m1))
    requires Monotone(ops, now1) && now1 <= now2 && now2 - ops[i].at < windowMs
    ensures WaistHit(Run(windowMs, ops), windowMs, WaistKeysOf(line2, m2), now1, now2)
  {
    MarkIsSeen(windowMs, ops, i, now1);
    MarkIsSeen(windowMs, ops, i, now2);
    if WaistKeysOf(line1, m1).msgidKey.Some? {
      assert ops[i].at <= ops[i].sweep <= ops[i + 1].at;
      MarkIsSeen(windowMs, ops, i + 1, now1);
      MarkIsSeen(windowMs, ops, i + 1, now2);
    }
  }

  /** The shared library's lookup: message id first, then digest. */
  method SeenAny(window: Window<string, Option<string>>, keys: WaistKeys, now1: int, now2: int)
    returns (hit: Option<Entry<Option<string>>>)
    requires window.Valid()
    ensures hit.Some? <==> WaistHit(window.entries, window.windowMs, keys, now1, now2)
  {
    if keys.msgidKey.Some? {
      hit := window.Seen(keys.msgidKey.value, now1);
      if hit.Some? { return; }
    }
    hit := window.Seen(keys.digest, now2);
  }

  /** The shared library's double mark, each mark with its own clock readings. */
  method MarkAll(window: Window<string, Option<string>>, keys: WaistKeys, meta: Option<string>,
                 at1: int, sweep1: int, at2: int, sweep2: int)
    requires window.Valid()
    modifies window
    ensures window.Valid()
    ensures window.ops == old(window.ops)
                          + (if keys.msgidKey.Some? then [Mark(keys.msgidKey.value, meta, at1, sweep1)] else [])
                          + [Mark(keys.digest, meta, at2, sweep2)]
    ensures WaistMarked(window.ops, |old(window.ops)|, keys)
  {
    if keys.msgidKey.Some? { window.MarkKey(keys.msgidKey.value, meta, at1, sweep1); }
    window.MarkKey(keys.digest, meta, at2, sweep2);
  }

  /**
   * In the shared library a message id is never mistaken for a body: a digest is shared exactly by the same
   * line without a sender or by confused senders and bodies, a message-id key exactly by confused senders
   * and ids, and the two kinds of key never meet.
   */
  lemma WaistSharedKeyExactly(line1: string, m1: Message, line2: string, m2: Message)
    requires NUL !in line1 && NUL !in line2
    ensures var k1, k2 := WaistKeysOf(line1, m1), WaistKeysOf(line2, m2);
            && (k1.digest == k2.digest <==>
                  || (m1.from.None? && m2.from.None? && line1 == line2)
                  || (m1.from.Some? && m2.from.Some? && Confused(m1.from.value, m1.body, m2.from.value, m2.body)))
            && (k1.msgidKey.Some? && k1.msgidKey == k2.msgidKey <==>
                  && m1.Id().Some? && m2.Id().Some?
                  && Confused(m1.from.GetOr(""), m1.Id().value, m2.from.GetOr(""), m2.Id().value))
            && k1.msgidKey != Some(k2.digest) && k2.msgidKey != Some(k1.digest)
  {
    hide Confused, Hashed;
    HashedInjective(DigestOf(line1, m1), DigestOf(line2, m2));
    PairedMeets(m1.from.GetOr(""), m1.body, m2.from.GetOr(""), m2.body);
    PairedMeets(m1.from.GetOr(""), m1.Id().GetOr(""), m2.from.GetOr(""), m2.Id().GetOr(""));
    var p1, p2 := Paired(m1.from.GetOr(""), m1.Id().GetOr("")), Paired(m2.from.GetOr(""), m2.Id().GetOr(""));
    assert ("m\0" + p1)[2..] == p1 && ("m\0" + p2)[2..] == p2;
    assert ("m\0" + p1)[1] == NUL && ("m\0" + p2)[1] == NUL;
    forall f: string, p: string ensures NUL in Paired(f, p) { assert Paired(f, p)[|f|] == NUL; }
  }

  /** For senders free of the separator, a digest is shared only by one sender's body, a message-id key only by one sender's id. */
  lemma PlainWaistSharedKey(line1: string, m1: Message, line2: string, m2: Message)
    requires NUL !in line1 && NUL !in line2
    requires NUL !in m1.from.GetOr("") && NUL !in m2.from.GetOr("")
    ensures var k1, k2 := WaistKeysOf(line1, m1), WaistKeysOf(line2, m2);
            && (k1.digest == k2.digest <==>
                  if m1.from.None? && m2.from.None? then line1 == line2 else m1.from == m2.from && m1.body == m2.body)
            && (k1.msgidKey.Some? && k1.msgidKey == k2.msgidKey <==>
                  m1.Id().Some? && m1.Id() == m2.Id() && m1.from.GetOr("") == m2.from.GetOr(""))
  {
    hide Confused, Hashed, Paired;
    WaistSharedKeyExactly(line1, m1, line2, m2);
    PlainNeverContinue(m1.from.GetOr(""), m1.body, m2.from.GetOr(""), m2.body);
    PlainNeverContinue(m1.from.GetOr(""), m1.Id().GetOr(""), m2.from.GetOr(""), m2.Id().GetOr(""));
  }
}
