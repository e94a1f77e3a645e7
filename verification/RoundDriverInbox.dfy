/** What the driver gives back to the inbox when it drops its own round out of a claimed step. */
module RoundDriverInbox {
  import opened LongTaskTypes

  datatype Queued = Queued(id: nat, source: Source)

  /** Claimed step context that is not the dropped round's: any other message but the task's own context notes. */
  predicate Kept(message: Queued, messageId: nat) {
    message.id != messageId && !(message.source.RoundSource? && message.source.round == 0)
  }

  function Retained(messages: seq<Queued>, messageId: nat): seq<Queued> {
    if messages == [] then []
    else
      var last := messages[|messages| - 1];
      Retained(messages[..|messages| - 1], messageId) + if Kept(last, messageId) then [last] else []
  }

  function Ids(messages: seq<Queued>): set<nat> {
    set message | message in messages :: message.id
  }

  predicate DistinctIds(messages: seq<Queued>) {
    forall a, b :: 0 <= a < b < |messages| ==> messages[a].id != messages[b].id
  }

  /** The messages whose id is not among those given, in their order. */
  function Missing(messages: seq<Queued>, ids: set<nat>): seq<Queued> {
    if messages == [] then []
    else
      var last := messages[|messages| - 1];
      Missing(messages[..|messages| - 1], ids) + if last.id in ids then [] else [last]
  }

  lemma {:induction false} RetainedMeans(messages: seq<Queued>, messageId: nat)
    ensures forall m :: m in Retained(messages, messageId) <==> m in messages && Kept(m, messageId)
    ensures DistinctIds(messages) ==> DistinctIds(Retained(messages, messageId))
  {
    if messages != [] {
      var init, last := messages[..|messages| - 1], messages[|messages| - 1];
      RetainedMeans(init, messageId);
      var before, all := Retained(init, messageId), Retained(messages, messageId);
      assert forall m :: m in messages <==> m in init || m == last;
      if DistinctIds(messages) {
        assert DistinctIds(init);
        forall a, b | 0 <= a < b < |all| ensures all[a].id != all[b].id {
          if b == |before| {
            assert before[a] in init;
            var k :| 0 <= k < |init| && init[k] == before[a];
            assert messages[k] == init[k];
          }
        }
      }
    }
  }

  class Inbox {
    var nextStep: seq<Queued>
    var nextTurn: seq<Queued>

    predicate Has(id: nat)
      reads this
    {
      id in Ids(nextStep) || id in Ids(nextTurn)
    }

    /**
     * Every retained message that is queued nowhere goes back to the front of the next step, in the order in
     * which it was claimed; nothing else in the inbox moves, and nothing is queued twice.
     */
    method RestoreOtherClaimed(messages: seq<Queued>, messageId: nat)
      requires DistinctIds(messages)
      modifies this`nextStep
      ensures nextStep == Missing(Retained(messages, messageId), old(Ids(nextStep) + Ids(nextTurn))) + old(nextStep)
      ensures forall m :: m in messages && m.id != messageId && !(m.source.RoundSource? && m.source.round == 0) ==> Has(m.id)
      ensures forall m :: m in nextStep && m !in old(nextStep) ==>
                m in messages && m.id != messageId && !(m.source.RoundSource? && m.source.round == 0) && !old(Has(m.id))
    {
      ghost var queued := Ids(nextStep) + Ids(nextTurn);
      MissingFrom(Retained(messages, messageId), queued);
      RetainedMeans(messages, messageId);
      var retained := FilterKept(messages, messageId);
      assert forall m :: m in retained <==> m in messages && m.id != messageId && !(m.source.RoundSource? && m.source.round == 0);
      hide Missing, Retained, Ids, DistinctIds, Kept;
      PutBackAll(retained);
    }

    method PutBackAll(retained: seq<Queued>)
      requires DistinctIds(retained)
      modifies this`nextStep
      ensures nextStep == Missing(retained, old(Ids(nextStep) + Ids(nextTurn))) + old(nextStep)
      ensures forall m :: m in retained ==> Has(m.id)
    {
      ghost var queued, rest := Ids(nextStep) + Ids(nextTurn), nextStep;
      var k := |retained|;
      assert nextStep == Missing(retained[k..], queued) + rest;
      hide Missing, Ids, DistinctIds, Has;
      while k > 0
        invariant 0 <= k <= |retained|
        invariant nextStep == Missing(retained[k..], queued) + rest
        invariant forall m :: m in retained[k..] ==> Has(m.id)
      {
        k := k - 1;
        assert retained[k..] == [retained[k]] + retained[k + 1..];
        DistinctTail(retained, k);
        PutBackNext(retained[k], retained[k + 1..], queued, rest);
      }
      assert retained[0..] == retained;
    }

    method PutBackNext(message: Queued, ghost tail: seq<Queued>, ghost queued: set<nat>, ghost rest: seq<Queued>)
      requires DistinctIds([message] + tail)
      requires nextStep == Missing(tail, queued) + rest && queued == Ids(rest) + Ids(nextTurn)
      modifies this`nextStep
      ensures nextStep == Missing([message] + tail, queued) + rest
      ensures forall id :: Has(id) <==> old(Has(id)) || id == message.id
    {
      hide Missing, DistinctIds;
      MissingHead(message, tail, queued);
      HasExactly(message, tail, queued, rest);
      PutBack(message);
      assert [message] + (Missing(tail, queued) + rest) == ([message] + Missing(tail, queued)) + rest;
      assert [] + Missing(tail, queued) == Missing(tail, queued);
    }

    /** Queue a message at the front of the next step, unless it is queued already. */
    method PutBack(message: Queued)
      modifies this`nextStep
      ensures nextStep == if old(Has(message.id)) then old(nextStep) else [message] + old(nextStep)
      ensures forall id :: Has(id) <==> old(Has(id)) || id == message.id
    {
      ghost var before := nextStep;
      if !Has(message.id) {
        nextStep := [message] + nextStep;
        IdsPrepend(message, before);
      }
    }

    method FilterKept(messages: seq<Queued>, messageId: nat) returns (retained: seq<Queued>)
      ensures retained == Retained(messages, messageId)
    {
      retained := [];
      for k := 0 to |messages|
        invariant retained == Retained(messages[..k], messageId)
      {
        assert messages[..k + 1][..k] == messages[..k];
        if Kept(messages[k], messageId) { retained := retained + [messages[k]]; }
      }
      assert messages[..|messages|] == messages;
    }

    /** What was put back so far hides no message still to come. */
    lemma HasExactly(message: Queued, tail: seq<Queued>, queued: set<nat>, rest: seq<Queued>)
      requires DistinctIds([message] + tail)
      requires nextStep == Missing(tail, queued) + rest && queued == Ids(rest) + Ids(nextTurn)
      ensures Has(message.id) <==> message.id in queued
    {
      MissingFrom(tail, queued);
      forall m | m in tail ensures m.id != message.id {
        var j :| 0 <= j < |tail| && tail[j] == m;
        assert ([message] + tail)[j + 1] == m && ([message] + tail)[0] == message;
      }
      assert forall m :: m in nextStep <==> m in Missing(tail, queued) || m in rest;
    }
  }

  lemma DistinctTail(messages: seq<Queued>, k: nat)
    requires DistinctIds(messages) && k < |messages|
    ensures DistinctIds([messages[k]] + messages[k + 1..])
  {
  }

  lemma {:induction false} MissingFrom(messages: seq<Queued>, ids: set<nat>)
    ensures forall m :: m in Missing(messages, ids) <==> m in messages && m.id !in ids
  {
    if messages != [] {
      var init, last := messages[..|messages| - 1], messages[|messages| - 1];
      MissingFrom(init, ids);
      assert forall m :: m in messages <==> m in init || m == last;
    }
  }

  lemma {:induction false} MissingHead(head: Queued, tail: seq<Queued>, ids: set<nat>)
    ensures Missing([head] + tail, ids) == (if head.id in ids then [] else [head]) + Missing(tail, ids)
  {
    var all := [head] + tail;
    if tail == [] {
      assert all == [head] && [head][..0] == [];
    } else {
      MissingHead(head, tail[..|tail| - 1], ids);
      assert all[..|all| - 1] == [head] + tail[..|tail| - 1];
    }
  }

  lemma IdsPrepend(head: Queued, tail: seq<Queued>)
    ensures Ids([head] + tail) == {head.id} + Ids(tail)
  {
    assert forall m :: m in [head] + tail <==> m == head || m in tail;
  }
}
