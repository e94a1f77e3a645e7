/** Exactly how the older bridge's loop treats an offered line: repeats, wake-ups, and when it gives a line up. */
module PumpRetries {
  import opened Wrappers
  import opened DedupWindow
  import opened DedupKeys
  import opened PumpRouting
  import opened PumpLoopModel
  import HostAddressing
  import Text

  /**
   * What one consumer decides about a line: an echo and a blank line are passed; of what cannot be read or leads to
   * nobody the undertaker alone disposes, with the central reason; a line for this consumer is offered, and any
   * other one passed over.
   */
  lemma CallExactly(c: Config, self: Sid, reg: Consumers, line: string)
    requires self in reg
    ensures var call := CallOn(c, self, reg, line);
            if c.echoPrefix <= line then call == Echo
            else if forall i :: 0 <= i < |line| ==> Text.IsSpace(line[i]) then call == Blank
            else if c.parse(line).None? then call == if IsUndertaker(reg, self) then Bury(None) else LeaveToUndertaker
            else
              match ResolveCentral(HostAddressing.ParseAddress(c.parse(line).value.to), reg)
              case Wake(broadcast, sids) => call == if self in sids then Offer(broadcast) else PassOver
              case Skip => call == PassOver
              case Dead(reason) => call == if IsUndertaker(reg, self) then Bury(Some(reason)) else LeaveToUndertaker
  {
    BlankMeans(line);
    if c.parse(line).Some? { OwnViewIsCentral(HostAddressing.ParseAddress(c.parse(line).value.to), self, reg); }
    hide Text.Trim, ResolveFor, ResolveCentral, IsUndertaker, HostAddressing.ParseAddress;
  }

  lemma BlankMeans(line: string)
    ensures |Text.Trim(line)| == 0 <==> forall i :: 0 <= i < |line| ==> Text.IsSpace(line[i])
  {
    var start := Text.TrimStart(line);
    Text.TrimStartShape(line);
    Text.TrimEndShape(start);
    if |Text.Trim(line)| > 0 { assert line[|line| - |start|] == start[0]; }
  }

  /** How many refused wake-ups in a row end an offer. */
  function Limit(c: Config): nat {
    if c.maxWakeFailures > 1 then c.maxWakeFailures else 1
  }

  /** The line is offered and is no repeat by the window's answer. */
  predicate Offers(c: Config, self: Sid, reg: Consumers, p: Pump, line: string, answer: Answer) {
    CallOn(c, self, reg, line).Offer? && Hit(Lookup(p.marks, Digest(c, line)), c.windowMs, answer.now).None?
  }

  /**
   * What becomes of an offered line, if the window is what some calls made of it: on a clock that does not run back
   * it is taken for a repeat exactly if its digest was marked less than a window ago; otherwise it is woken, with
   * its digest marked and no failure pending, if the sink takes it, and stays where it is or is given up if not.
   */
  lemma OfferExactly(c: Config, self: Sid, reg: Consumers, p: Pump, line: string, answer: Answer, calls: seq<Op<string, Option<string>>>)
    requires CallOn(c, self, reg, line).Offer?
    requires p.marks == DedupWindow.Run(c.windowMs, calls) && Monotone(calls, answer.now)
    ensures var turn := Step(c, self, reg, p, line, answer);
            var repeated := exists i :: 0 <= i < |calls| && calls[i].Mark? && calls[i].key == Digest(c, line)
                                        && answer.now - calls[i].at < c.windowMs;
            && (turn.notes == [Repeated(p.cursor)] <==> repeated)
            && (repeated ==> turn == Turn(p.(cursor := p.cursor + 1), [Repeated(p.cursor)], false))
            && (turn.notes == [Woken(p.cursor)] <==> !repeated && !answer.refused)
            && (!repeated && !answer.refused ==>
                  && !turn.halted && turn.pump.cursor == p.cursor + 1 && turn.pump.failing.None? && turn.pump.count == 0
                  && turn.pump.marks == DedupWindow.Run(c.windowMs, calls + [Mark(Digest(c, line), None, answer.at, answer.sweep)]))
  {
    hide CallOn, Digest, Apply;
    var digest := Digest(c, line);
    if Hit(Lookup(p.marks, digest), c.windowMs, answer.now).Some? { HitWasMarked(c.windowMs, calls, digest, answer.now); }
    forall i | 0 <= i < |calls| && calls[i].Mark? && calls[i].key == digest && answer.now - calls[i].at < c.windowMs
      ensures Hit(Lookup(p.marks, digest), c.windowMs, answer.now).Some?
    {
      MarkIsSeen(c.windowMs, calls, i, answer.now);
    }
    MarkedNext(c.windowMs, calls, Mark(digest, None, answer.at, answer.sweep));
    hide DedupWindow.Run, Hit, Monotone;
  }

  lemma MarkedNext(windowMs: int, calls: seq<Op<string, Option<string>>>, op: Op<string, Option<string>>)
    ensures DedupWindow.Run(windowMs, calls + [op]) == Apply(DedupWindow.Run(windowMs, calls), windowMs, op)
  {
    assert (calls + [op])[..|calls|] == calls;
  }

  /** Where the pump is after so many refusals in a row of one line that is still at its cursor. */
  predicate Failing(c: Config, p: Pump, line: string, times: nat) {
    if times == 0 then p.failing != Some(Digest(c, line)) || p.count == 0
    else p.failing == Some(Digest(c, line)) && p.count == times
  }

  /** One more refusal: the last one allowed gives the line up and forgets the count, any other one only adds to it. */
  lemma RefusalExactly(c: Config, self: Sid, reg: Consumers, p: Pump, line: string, answer: Answer, times: nat)
    requires Failing(c, p, line, times) && Offers(c, self, reg, p, line, answer) && answer.refused
    ensures var turn := Step(c, self, reg, p, line, answer);
            if times + 1 >= Limit(c) then
              turn == Turn(p.(cursor := p.cursor + 1, failing := None, count := 0), [Refused(p.cursor), GaveUp(p.cursor)], false)
            else
              && turn == Turn(p.(failing := Some(Digest(c, line)), count := times + 1), [Refused(p.cursor)], true)
              && Failing(c, turn.pump, line, times + 1)
  {
    hide CallOn, Digest, Hit;
  }

  /** Every try of the line is offered and refused. */
  predicate AllRefused(c: Config, self: Sid, reg: Consumers, p: Pump, line: string, answers: seq<Answer>) {
    forall i :: 0 <= i < |answers| ==> answers[i].refused && Offers(c, self, reg, p, line, answers[i])
  }

  /**
   * A line whose tries are all refused is held up by the first `Limit - 1` of them and given up by the next:
   * it stops each of the given flushes exactly if they are fewer than the limit.
   */
  lemma {:induction false} HoldsUpExactly(c: Config, self: Sid, reg: Consumers, p: Pump, line: string, answers: seq<Answer>, times: nat)
    requires AllRefused(c, self, reg, p, line, answers) && Failing(c, p, line, times) && times < Limit(c)
    ensures StopsEachTime(c, self, reg, p, line, answers) <==> times + |answers| < Limit(c)
    decreases |answers|
  {
    hide Step, Failing, Offers, Digest;
    if answers != [] {
      RefusalExactly(c, self, reg, p, line, answers[0], times);
      if times + 1 < Limit(c) {
        var next := Step(c, self, reg, p, line, answers[0]).pump;
        forall i | 0 <= i < |answers[1..]| ensures answers[1..][i].refused && Offers(c, self, reg, next, line, answers[1..][i]) {
          assert answers[1..][i] == answers[i + 1];
          SameOffer(c, self, reg, p, next, line, answers[i + 1]);
        }
        HoldsUpExactly(c, self, reg, next, line, answers[1..], times + 1);
      }
    }
  }

  lemma SameOffer(c: Config, self: Sid, reg: Consumers, p: Pump, next: Pump, line: string, answer: Answer)
    requires Offers(c, self, reg, p, line, answer) && next.marks == p.marks
    ensures Offers(c, self, reg, next, line, answer)
  {
  }
}
