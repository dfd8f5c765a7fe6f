// What becomes of a delivery, judged from what its worker saw and was told alone: which batches the store is to get
// and when, and which settlement each delivery deserves.

module Fates {
  import opened Models
  import opened Payload
  import opened Pipeline
  import opened Process

  // ---- when batches are due ----

  /** The valid events not yet handed over, and the batches handed over so far. */
  datatype Batching = Batching(pending: seq<ClickEvent>, calls: seq<seq<ClickEvent>>)

  function Flushed(b: Batching): Batching {
    if b.pending == [] then b else Batching([], b.calls + [b.pending])
  }

  function Joining(b: Batching, e: ClickEvent, size: int): Batching {
    var more := b.(pending := b.pending + [e]);
    if |more.pending| >= size then Flushed(more) else more
  }

  /** One more input: a full batch goes at once, what is pending goes on a tick and at the end. */
  function Reacts(b: Batching, input: Input, size: int): Batching {
    match input
    case Arrive(d) =>
      var r := DecodeEvent(d.body);
      if r.Decoded? then Joining(b, r.event, size) else b
    case Cancelled => b
    case _ => Flushed(b)
  }

  /** The batches that these inputs call for. */
  function Due(inputs: seq<Input>, size: int): Batching {
    if inputs == [] then Batching([], [])
    else Reacts(Due(inputs[..|inputs| - 1], size), inputs[|inputs| - 1], size)
  }

  lemma DueNext(inputs: seq<Input>, input: Input, size: int)
    ensures Due(inputs + [input], size) == Reacts(Due(inputs, size), input, size)
  {
    assert (inputs + [input])[..|inputs|] == inputs;
  }

  /** A worker ends when its channel closes, or when nothing is left to take after it was cancelled. */
  predicate Ended(inputs: seq<Input>) {
    inputs != [] && (inputs[|inputs| - 1].Closed? || (inputs[|inputs| - 1].Idle? && Cancelled in inputs))
  }

  // ---- which settlement a delivery deserves ----

  datatype Fate = Acknowledged | DeadLettered | PutBack

  predicate Got(log: Log, tag: nat, fate: Fate) {
    (tag in log.rejected <==> fate == DeadLettered) && (tag in log.requeued <==> fate == PutBack)
  }

  /** The offers made of one delivery. */
  function OffersOf(offers: seq<Offering>, tag: nat): seq<Offering> {
    if offers == [] then []
    else
      var last := offers[|offers| - 1];
      OffersOf(offers[..|offers| - 1], tag) + if last.tag == tag then [last] else []
  }

  /** The store gave this answer to a batch with the event. */
  ghost predicate Answered(log: Log, e: ClickEvent, ok: bool) {
    exists k :: 0 <= k < |log.calls| && k < |log.answers| && e in log.calls[k] && log.answers[k] == ok
  }

  /** An invalid delivery is dead-lettered. A valid one is acknowledged if the store took its batch. If not, it is
      dead-lettered at its last attempt, put back if there is no retryer, and else offered once for its next attempt:
      acknowledged if it was taken, dead-lettered if not. */
  ghost predicate FateOK(log: Log, d: Received, hasRetryer: bool, maxRetries: int) {
    var r, offers := DecodeEvent(d.body), OffersOf(log.offers, d.tag);
    if r.Invalid? then Got(log, d.tag, DeadLettered) && offers == []
    else
      || (Answered(log, r.event, true) && Got(log, d.tag, Acknowledged) && offers == [])
      || (Answered(log, r.event, false) && RefusedFate(log, d, hasRetryer, maxRetries))
  }

  ghost predicate RefusedFate(log: Log, d: Received, hasRetryer: bool, maxRetries: int) {
    var attempt, offers := RetryCount(d.header) + 1, OffersOf(log.offers, d.tag);
    if attempt >= maxRetries then Got(log, d.tag, DeadLettered) && offers == []
    else if !hasRetryer then Got(log, d.tag, PutBack) && offers == []
    else
      exists ok ::
        offers == [Offering(d.tag, attempt, ok)] && Got(log, d.tag, if ok then Acknowledged else DeadLettered)
  }

  /** Nothing was done to a delivery yet. */
  predicate Untouched(log: Log, tag: nat) {
    Got(log, tag, Acknowledged) && OffersOf(log.offers, tag) == []
  }

  predicate AllUntouched(log: Log, mine: map<nat, Msg>) {
    forall tag :: tag in mine ==> Untouched(log, tag)
  }

  /** Every settled delivery got what it deserves. */
  ghost predicate AllFates(log: Log, hasRetryer: bool, maxRetries: int) {
    && |log.answers| == |log.calls|
    && (forall i :: 0 <= i < |log.received| && log.received[i].tag in log.settled ==>
          FateOK(log, log.received[i], hasRetryer, maxRetries))
    && (forall tag :: tag in log.rejected || tag in log.requeued ==> tag in log.settled)
    && (forall tag :: OffersOf(log.offers, tag) != [] ==> WasReceived(log, tag))
  }

  lemma OffersNext(offers: seq<Offering>, o: Offering, tag: nat)
    ensures OffersOf(offers + [o], tag) == OffersOf(offers, tag) + if o.tag == tag then [o] else []
  {
    assert (offers + [o])[..|offers|] == offers;
  }

  /** Whatever was done between, it was not done to this delivery. */
  predicate SameFor(log: Log, after: Log, tag: nat) {
    && (tag in after.rejected <==> tag in log.rejected) && (tag in after.requeued <==> tag in log.requeued)
    && OffersOf(after.offers, tag) == OffersOf(log.offers, tag)
  }

  /** The log of calls only grew. */
  predicate CallsGrew(log: Log, after: Log) {
    log.calls <= after.calls && log.answers <= after.answers && |after.answers| == |after.calls|
  }

  lemma FateStays(log: Log, after: Log, d: Received, hasRetryer: bool, maxRetries: int)
    requires FateOK(log, d, hasRetryer, maxRetries) && |log.answers| == |log.calls|
    requires SameFor(log, after, d.tag) && CallsGrew(log, after)
    ensures FateOK(after, d, hasRetryer, maxRetries)
  {
    hide OffersOf, DecodeEvent, RetryCount;
    var r := DecodeEvent(d.body);
    if r.Decoded? {
      forall ok | Answered(log, r.event, ok) ensures Answered(after, r.event, ok) {
        AnswerStays(log, after, r.event, ok);
      }
    }
  }

  lemma AnswerStays(log: Log, after: Log, e: ClickEvent, ok: bool)
    requires Answered(log, e, ok) && CallsGrew(log, after)
    ensures Answered(after, e, ok)
  {
    var k :| 0 <= k < |log.calls| && k < |log.answers| && e in log.calls[k] && log.answers[k] == ok;
    assert after.calls[k] == log.calls[k] && after.answers[k] == log.answers[k];
  }

  /** A new delivery is untouched, and nothing changes for the others. */
  lemma FatesReceive(
      log: Log, after: Log, d: Received, mine: map<nat, Msg>, nextTag: nat, hasRetryer: bool, maxRetries: int)
    requires AllFates(log, hasRetryer, maxRetries) && LogOK(after, mine, nextTag) && d.tag in mine
    requires after == log.(inputs := after.inputs, received := log.received + [d])
    requires AllUntouched(log, mine - {d.tag})
    ensures AllFates(after, hasRetryer, maxRetries) && AllUntouched(after, mine)
  {
    hide FateOK, OffersOf;
    assert after.received[|log.received|] == d;
    forall i | 0 <= i < |log.received| ensures log.received[i].tag < d.tag {
      assert after.received[i] == log.received[i];
    }
    assert d.tag !in log.settled && !WasReceived(log, d.tag);
    forall i | 0 <= i < |after.received| && after.received[i].tag in after.settled
      ensures FateOK(after, after.received[i], hasRetryer, maxRetries)
    {
      assert after.received[i] == log.received[i];
      FateStays(log, after, log.received[i], hasRetryer, maxRetries);
    }
    forall tag | OffersOf(after.offers, tag) != [] ensures WasReceived(after, tag) {
      var i :| 0 <= i < |log.received| && log.received[i].tag == tag;
      assert after.received[i].tag == tag;
    }
    forall tag | tag in mine ensures Untouched(after, tag) {
      assert tag != d.tag ==> tag in mine - {d.tag} && Untouched(log, tag);
    }
  }

  /** Inputs that are no deliveries, answers of the store and broken settlements settle nothing. */
  lemma FatesStay(log: Log, after: Log, hasRetryer: bool, maxRetries: int)
    requires AllFates(log, hasRetryer, maxRetries) && CallsGrew(log, after)
    requires after == log.(inputs := after.inputs, calls := after.calls, answers := after.answers,
                           inserted := after.inserted, broken := after.broken)
    ensures AllFates(after, hasRetryer, maxRetries)
    ensures forall mine :: AllUntouched(log, mine) ==> AllUntouched(after, mine)
  {
    hide FateOK, OffersOf;
    forall i | 0 <= i < |after.received| && after.received[i].tag in after.settled
      ensures FateOK(after, after.received[i], hasRetryer, maxRetries)
    {
      FateStays(log, after, log.received[i], hasRetryer, maxRetries);
    }
    forall tag | OffersOf(after.offers, tag) != [] ensures WasReceived(after, tag) {
      assert WasReceived(log, tag);
    }
    forall tag | Untouched(log, tag) ensures Untouched(after, tag) {}
  }

  /** Every settled delivery got what it deserves, nothing was done yet to those that are owed, and these were
      received. */
  ghost predicate FairLog(log: Log, mine: map<nat, Msg>, ds: seq<Received>, hasRetryer: bool, maxRetries: int) {
    && AllFates(log, hasRetryer, maxRetries) && AllUntouched(log, mine)
    && forall i :: 0 <= i < |ds| ==> ds[i] in log.received
  }

  /** A delivery was settled as it deserves, and nothing was done to the others. */
  lemma FatesSettle(
      log: Log, after: Log, d: Received, mine: map<nat, Msg>, nextTag: nat, hasRetryer: bool, maxRetries: int)
    requires AllFates(log, hasRetryer, maxRetries) && LogOK(log, mine, nextTag) && AllUntouched(log, mine)
    requires d in log.received && after.settled == log.settled + [d.tag]
    requires after.received == log.received && CallsGrew(log, after)
    requires forall tag :: tag != d.tag ==> SameFor(log, after, tag)
    requires FateOK(after, d, hasRetryer, maxRetries)
    ensures AllFates(after, hasRetryer, maxRetries) && AllUntouched(after, mine - {d.tag})
  {
    hide FateOK, OffersOf;
    var k :| 0 <= k < |log.received| && log.received[k] == d;
    forall i | 0 <= i < |after.received| && after.received[i].tag in after.settled
      ensures FateOK(after, after.received[i], hasRetryer, maxRetries)
    {
      if i != k {
        assert log.received[i].tag != d.tag && SameFor(log, after, log.received[i].tag);
        FateStays(log, after, log.received[i], hasRetryer, maxRetries);
      }
    }
    forall tag | tag in after.rejected || tag in after.requeued ensures tag in after.settled {
      assert tag != d.tag ==> SameFor(log, after, tag);
    }
    forall tag | OffersOf(after.offers, tag) != [] ensures WasReceived(after, tag) {
      if tag == d.tag {
        assert after.received[k].tag == tag;
      } else {
        assert SameFor(log, after, tag) && WasReceived(log, tag);
      }
    }
    forall tag | tag in mine - {d.tag} ensures Untouched(after, tag) {
      assert SameFor(log, after, tag) && Untouched(log, tag);
    }
  }

  /** A settlement that went wrong leaves the others as they are, even if the delivery had been offered. */
  lemma FatesBreak(
      log: Log, after: Log, d: Received, mine: map<nat, Msg>, nextTag: nat, hasRetryer: bool, maxRetries: int)
    requires AllFates(log, hasRetryer, maxRetries) && LogOK(log, mine, nextTag) && d.tag in mine
    requires d in log.received && after.settled == log.settled && after.received == log.received
    requires after.rejected == log.rejected && after.requeued == log.requeued && CallsGrew(log, after)
    requires forall tag :: tag != d.tag ==> SameFor(log, after, tag)
    ensures AllFates(after, hasRetryer, maxRetries)
  {
    hide FateOK, OffersOf;
    var k :| 0 <= k < |log.received| && log.received[k] == d;
    forall i | 0 <= i < |after.received| && after.received[i].tag in after.settled
      ensures FateOK(after, after.received[i], hasRetryer, maxRetries)
    {
      assert SameFor(log, after, log.received[i].tag);
      FateStays(log, after, log.received[i], hasRetryer, maxRetries);
    }
    forall tag | OffersOf(after.offers, tag) != [] ensures WasReceived(after, tag) {
      if tag == d.tag {
        assert after.received[k].tag == tag;
      } else {
        assert SameFor(log, after, tag) && WasReceived(log, tag);
      }
    }
  }

  // ---- one delivery of a refused batch ----

  /** What the worker does with a delivery of a refused batch, as its log shows it; `ok` is the retryer's answer if
      it is asked. */
  predicate RetryStep(log: Log, after: Log, d: Received, hasRetryer: bool, maxRetries: int, ok: bool) {
    var attempt := RetryCount(d.header) + 1;
    var settled := log.(settled := log.settled + [d.tag]);
    if attempt >= maxRetries then after == settled.(rejected := log.rejected + [d.tag])
    else if !hasRetryer then after == settled.(requeued := log.requeued + [d.tag])
    else after == settled.(offers := log.offers + [Offering(d.tag, attempt, ok)],
                           rejected := if ok then log.rejected else log.rejected + [d.tag])
  }

  /** The same, but the settlement went wrong. */
  ghost predicate RetryBroke(log: Log, after: Log, d: Received) {
    && after == log.(offers := after.offers, broken := log.broken + 1)
    && (after.offers == log.offers ||
        exists attempt, ok :: after.offers == log.offers + [Offering(d.tag, attempt, ok)])
  }

  lemma OthersSame(log: Log, after: Log, d: Received, hasRetryer: bool, maxRetries: int, ok: bool)
    requires RetryStep(log, after, d, hasRetryer, maxRetries, ok) || RetryBroke(log, after, d)
    ensures forall tag :: tag != d.tag ==> SameFor(log, after, tag)
  {
    hide RetryCount, OffersOf;
    forall tag | tag != d.tag ensures SameFor(log, after, tag) {
      if after.offers != log.offers {
        var o := after.offers[|log.offers|];
        assert after.offers == log.offers + [o] && o.tag == d.tag;
        OffersNext(log.offers, o, tag);
      }
    }
  }

  /** It is what the delivery deserves. */
  lemma RetryFate(
      log: Log, after: Log, d: Received, e: ClickEvent, hasRetryer: bool, maxRetries: int, ok: bool)
    requires RetryStep(log, after, d, hasRetryer, maxRetries, ok) && Untouched(log, d.tag)
    requires DecodeEvent(d.body) == Decoded(e) && Answered(log, e, false)
    ensures FateOK(after, d, hasRetryer, maxRetries)
  {
    hide RetryCount, OffersOf, DecodeEvent;
    var attempt := RetryCount(d.header) + 1;
    OffersNext(log.offers, Offering(d.tag, attempt, ok), d.tag);
    var k :| 0 <= k < |log.calls| && k < |log.answers| && e in log.calls[k] && log.answers[k] == false;
    assert e in after.calls[k];
  }

  lemma AckFate(log: Log, after: Log, d: Received, e: ClickEvent, hasRetryer: bool, maxRetries: int)
    requires after == log.(settled := log.settled + [d.tag]) && Untouched(log, d.tag)
    requires DecodeEvent(d.body) == Decoded(e) && Answered(log, e, true)
    ensures FateOK(after, d, hasRetryer, maxRetries)
  {
    hide RetryCount, OffersOf, DecodeEvent, RefusedFate;
    var k :| 0 <= k < |log.calls| && k < |log.answers| && e in log.calls[k] && log.answers[k] == true;
    assert e in after.calls[k];
  }

  lemma DeadLetterFate(log: Log, after: Log, d: Received, hasRetryer: bool, maxRetries: int)
    requires after == log.(settled := log.settled + [d.tag], rejected := log.rejected + [d.tag])
    requires Untouched(log, d.tag) && DecodeEvent(d.body).Invalid?
    ensures FateOK(after, d, hasRetryer, maxRetries)
  {
    hide OffersOf, DecodeEvent;
  }
}
