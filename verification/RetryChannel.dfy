// The confirmation channel behind the worker's retries. It is kept after a timeout, so from then on every call reads
// the confirmation of an earlier message.

module RetryChannel {
  import opened Wrappers
  import opened Models
  import opened Ledger
  import opened Payload
  import opened Pipeline

  /** A retry message: whether the broker stored it, and what its confirmation says. */
  datatype Sent = Sent(stored: bool, acked: bool)

  /** A positive confirmation is only sent for a stored message. */
  predicate Honest(m: Sent) {
    m.acked ==> m.stored
  }

  /** The messages whose confirmation nobody has read yet, oldest first. */
  datatype Channel = Channel(unread: seq<Sent>, open: bool)

  const FRESH := Channel([], true)

  /** How one call goes: the send fails; or no confirmation arrives in time, the channel is closed, or one arrives. */
  datatype Call = SendFails | TimesOut(m: Sent) | Closes(m: Sent) | Answered(m: Sent)

  predicate Possible(ch: Channel, call: Call) {
    call.SendFails? || (ch.open && Honest(call.m))
  }

  function Next(ch: Channel, call: Call): Channel {
    match call
    case SendFails => ch
    case TimesOut(m) => ch.(unread := ch.unread + [m])
    case Closes(m) => Channel(ch.unread + [m], false)
    case Answered(m) => ch.(unread := (ch.unread + [m])[1..])
  }

  /** Retry returned no error: the confirmation that arrived, that of the oldest unread message, is positive. */
  predicate Succeeds(ch: Channel, call: Call) {
    call.Answered? && (ch.unread + [call.m])[0].acked
  }

  /** The broker's side: publishing may fail, and confirmations may be late or never come. */
  class Line {
    var unread: seq<Sent>
    var open: bool
    /** Messages that were to be published, those that could not be, and confirmations waited for. */
    ghost var tries: nat
    ghost var refusals: nat
    ghost var waits: nat

    constructor ()
      ensures Now() == FRESH && tries == refusals == waits == 0
    {
      unread, open, tries, refusals, waits := [], true, 0, 0, 0;
    }

    function Now(): Channel
      reads this
    {
      Channel(unread, open)
    }

    method Publish() returns (sent: bool, ghost m: Sent)
      modifies this
      ensures tries == old(tries) + 1 && waits == old(waits)
      ensures refusals == old(refusals) + if sent then 0 else 1
      ensures open == old(open) && unread == old(unread) + if sent then [m] else []
      ensures sent ==> open && Honest(m)
    {
      var next: Sent := *;
      sent, m, tries := *, next, tries + 1;
      sent := sent && open && Honest(next);
      if sent {
        unread := unread + [next];
      } else {
        refusals := refusals + 1;
      }
    }

    /** The oldest unread confirmation, unless none arrives in time or the channel closes. */
    method Await() returns (confirmation: Option<bool>, closed: bool)
      requires unread != []
      modifies this
      ensures tries == old(tries) && refusals == old(refusals) && waits == old(waits) + 1
      ensures confirmation.Some? ==> !closed && confirmation.value == old(unread)[0].acked && unread == old(unread)[1..]
      ensures confirmation == None ==> unread == old(unread)
      ensures open == (old(open) && !closed)
    {
      var timely: bool := *;
      confirmation, closed, waits := None, *, waits + 1;
      closed := closed && !timely;
      if timely {
        confirmation := Some(unread[0].acked);
        unread := unread[1..];
      }
      open := open && !closed;
    }
  }

  class RabbitRetryPublisher {
    const line: Line

    constructor (line: Line)
      ensures this.line == line
    {
      this.line := line;
    }

    /** Publishes the retry message once and, if it went out, waits for one confirmation. */
    method Retry() returns (failed: bool, ghost call: Call)
      modifies line
      ensures Possible(old(line.Now()), call) && line.Now() == Next(old(line.Now()), call)
      ensures failed <==> !Succeeds(old(line.Now()), call)
      ensures line.tries == old(line.tries) + 1
      ensures line.refusals == old(line.refusals) + if call.SendFails? then 1 else 0
      ensures line.waits == old(line.waits) + if call.SendFails? then 0 else 1
    {
      var sent;
      ghost var m;
      sent, m := line.Publish();
      if !sent {
        return true, SendFails;
      }
      var confirmation, closed := line.Await();
      if closed {
        return true, Closes(m);
      }
      if confirmation == None {
        return true, TimesOut(m);
      }
      failed, call := !confirmation.value, Answered(m);
    }
  }

  // ---- what a nil error says ----

  /** Whatever the broker does in the call, no error means that this message is stored, exactly when no positive
      confirmation of an earlier message is the next to be read. */
  lemma NilMeansStored(ch: Channel)
    requires ch.open
    ensures (forall call :: Possible(ch, call) && Succeeds(ch, call) ==> call.m.stored)
       <==> ch.unread == [] || !ch.unread[0].acked
  {
    if ch.unread != [] && ch.unread[0].acked {
      var lost := Answered(Sent(false, false));
      assert Possible(ch, lost) && Succeeds(ch, lost) && !lost.m.stored;
    }
  }

  predicate IsHistory(calls: seq<Call>)
    decreases |calls|, 0
  {
    calls == [] || (IsHistory(calls[..|calls| - 1]) && Possible(Reached(calls[..|calls| - 1]), calls[|calls| - 1]))
  }

  /** The channel after these calls. */
  function Reached(calls: seq<Call>): Channel
    decreases |calls|, 1
  {
    if calls == [] then FRESH else Next(Reached(calls[..|calls| - 1]), calls[|calls| - 1])
  }

  /** The messages sent, in order. */
  function Messages(calls: seq<Call>): seq<Sent> {
    if calls == [] then []
    else
      var last := calls[|calls| - 1];
      Messages(calls[..|calls| - 1]) + if last.SendFails? then [] else [last.m]
  }

  /** The calls that gave up on their confirmation. */
  function GivenUp(calls: seq<Call>): nat {
    if calls == [] then 0
    else
      var last := calls[|calls| - 1];
      GivenUp(calls[..|calls| - 1]) + if last.TimesOut? || last.Closes? then 1 else 0
  }

  /** As many confirmations are unread as calls gave up on theirs: those of the newest messages. */
  lemma {:induction false} UnreadAreNewest(calls: seq<Call>)
    ensures GivenUp(calls) <= |Messages(calls)|
    ensures Reached(calls).unread == Messages(calls)[|Messages(calls)| - GivenUp(calls)..]
  {
    if calls != [] {
      var front, last := calls[..|calls| - 1], calls[|calls| - 1];
      UnreadAreNewest(front);
      NewestAfter(Reached(front), last, Messages(front), GivenUp(front));
      hide Next;
    }
  }

  lemma NewestAfter(ch: Channel, call: Call, sent: seq<Sent>, t: nat)
    requires t <= |sent| && ch.unread == sent[|sent| - t..]
    ensures call.SendFails? ==> Next(ch, call).unread == sent[|sent| - t..]
    ensures call.TimesOut? || call.Closes? ==> Next(ch, call).unread == (sent + [call.m])[|sent| - t..]
    ensures call.Answered? ==> Next(ch, call).unread == (sent + [call.m])[|sent| - t + 1..]
  {
    if !call.SendFails? {
      assert (sent + [call.m])[|sent| - t..] == sent[|sent| - t..] + [call.m];
      assert (sent + [call.m])[|sent| - t + 1..] == (sent + [call.m])[|sent| - t..][1..];
    }
  }

  /** After t calls gave up, no error is what the broker said of the message sent t calls before. */
  lemma AnswersAreShifted(calls: seq<Call>, m: Sent)
    ensures GivenUp(calls) <= |Messages(calls)|
    ensures Succeeds(Reached(calls), Answered(m))
       <==> (Messages(calls) + [m])[|Messages(calls)| - GivenUp(calls)].acked
  {
    UnreadAreNewest(calls);
    var sent, t := Messages(calls), GivenUp(calls);
    assert (sent + [m])[|sent| - t..] == sent[|sent| - t..] + [m];
  }

  /** So until a call gives up, no error means that the message is stored. */
  lemma TruthfulAtFirst(calls: seq<Call>, call: Call)
    requires GivenUp(calls) == 0 && Possible(Reached(calls), call) && Succeeds(Reached(calls), call)
    ensures call.m.stored
  {
    AnswersAreShifted(calls, call.m);
  }

  // ---- what it costs ----

  /** Acknowledging a delivery that was not replaced keeps its event held exactly if something else holds it. */
  lemma FalseReplacement(s: State, i: nat, id: string)
    requires i < |s.unacked|
    ensures Held(s.(unacked := Drop(s.unacked, i)), id)
       <==> Recorded(s.db, id) || Carries(s.main, id) || Carries(s.retry, id) || Carries(s.dlq, id)
            || Outstanding(Drop(s.unacked, i), id)
  {
  }

  function Copy(e: ClickEvent, scrub: string -> string): Msg {
    Msg(Some(MarshalEvent(e, scrub)), NoHeader)
  }

  /** One event on its way to the worker. */
  function Arrival(e: ClickEvent, scrub: string -> string): seq<Step> {
    [Issue(e), Enqueue(Copy(e, scrub)), Deliver(0)]
  }

  function Delivered(t: Tables, e: ClickEvent, scrub: string -> string): State {
    State(t, [], [], [], [Delivery(0, Copy(e, scrub), false)], 1, map[e.eventID := Canon(e)], {})
  }

  lemma ArrivalRuns(t: Tables, e: ClickEvent, scrub: string -> string, R: nat)
    requires Publishable(e)
    ensures var start := State(t, [], [], [], [], 0, map[], {});
            && IsRun(start, Arrival(e, scrub), R)
            && After(start, Arrival(e, scrub), R) == Delivered(t, e, scrub)
  {
    MarshalDecode(e, scrub);
    var start := State(t, [], [], [], [], 0, map[], {});
    var m := Copy(e, scrub);
    hide Publishable, DecodeEvent, MarshalEvent;
    var s1 := start.(issued := map[e.eventID := Canon(e)]);
    var s2 := s1.(main := [m]);
    assert Enabled(start, Issue(e), R) && Apply(start, Issue(e), R) == s1;
    assert Enabled(s1, Enqueue(m), R) && Apply(s1, Enqueue(m), R) == s2;
    assert Enabled(s2, Deliver(0), R) && Apply(s2, Deliver(0), R) == Delivered(t, e, scrub);
    assert IsRun(start, [], R) && After(start, [], R) == start;
    hide Enabled, Apply, IsRun, After;
    RunSnoc(start, [], Issue(e), R);
    RunSnoc(start, [] + [Issue(e)], Enqueue(m), R);
    RunSnoc(start, [] + [Issue(e)] + [Enqueue(m)], Deliver(0), R);
    assert [] + [Issue(e)] + [Enqueue(m)] + [Deliver(0)] == Arrival(e, scrub);
  }

  lemma RunSnoc(s: State, front: seq<Step>, step: Step, R: nat)
    requires IsRun(s, front, R) && Enabled(After(s, front, R), step, R)
    ensures IsRun(s, front + [step], R) && After(s, front + [step], R) == Apply(After(s, front, R), step, R)
  {
    assert (front + [step])[..|front + [step]| - 1] == front;
  }

  lemma OneTimeout(m: Sent)
    requires Honest(m)
    ensures IsHistory([TimesOut(m)]) && Reached([TimesOut(m)]) == Channel([m], true)
  {
    var calls := [TimesOut(m)];
    assert calls[..0] == [] && IsHistory([]) && IsHistory(calls);
  }

  /** It happens: one retry times out, and its message turns out to be stored. The next retry, of an event that only
      its delivery holds, is not stored, reads the late confirmation and returns no error; once the delivery is
      acknowledged, nothing holds the event. */
  lemma LateConfirmationLoses(t: Tables, e: ClickEvent, scrub: string -> string, R: nat)
    requires Publishable(e) && History(t) == []
    ensures var calls, call := [TimesOut(Sent(true, true))], Answered(Sent(false, false));
            && IsHistory(calls) && Possible(Reached(calls), call)
            && Succeeds(Reached(calls), call) && !call.m.stored
    ensures var start := State(t, [], [], [], [], 0, map[], {});
            && IsRun(start, Arrival(e, scrub), R)
            && var s := After(start, Arrival(e, scrub), R);
            && |s.unacked| == 1 && Held(s, e.eventID)
            && !Held(s.(unacked := Drop(s.unacked, 0)), e.eventID)
  {
    OneTimeout(Sent(true, true));
    hide IsHistory, Reached;
    ArrivalRuns(t, e, scrub, R);
    MarshalDecode(e, scrub);
    var s := Delivered(t, e, scrub);
    hide IsRun, After, Publishable, DecodeEvent, MarshalEvent;
    assert s.unacked[0] in s.unacked && MsgID(s.unacked[0].msg) == e.eventID;
    assert Drop(s.unacked, 0) == [];
  }
}
