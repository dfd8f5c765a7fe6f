// The surroundings of one process of the pipeline: whatever the process does is a step of the
// pipeline, and before each of its steps everyone else may take any number of steps.

module World {
  import opened Wrappers
  import opened Models
  import opened Ledger
  import opened Payload
  import opened Pipeline
  import opened PipelineLaws
  import opened Process
  import LedgerLaws

  /** One call of the store's RecordClick and its answer. */
  datatype Asked = Asked(event: ClickEvent, increment: bool, maxClicks: Option<int>, ok: bool, failed: bool)

  /** The statement meets the foreign key: a new event of a link that does not exist. */
  predicate Unknown(t: Tables, e: ClickEvent) {
    !Stored(t, e.eventID) && e.linkID !in t.links
  }

  /** A new click that is to count, on a link that is deleted or has reached the limit given. */
  predicate Refuses(t: Tables, e: ClickEvent, increment: bool, maxClicks: Option<int>) {
    && increment && !Stored(t, e.eventID) && e.linkID in t.links
    && (t.links[e.linkID].deleted || (maxClicks.Some? && t.links[e.linkID].clicks >= maxClicks.value))
  }

  /** How a click came to be answered: published, or by the store, which met these tables; `healthy` means that its
      statement ran and its answer came back. */
  datatype Told = Told(published: bool, before: Tables, healthy: bool)

  /** A healthy store refuses exactly what it must, and fails exactly on an unknown link. */
  predicate AnswerOK(told: Told, e: ClickEvent, increment: bool, maxClicks: Option<int>, ok: bool, failed: bool) {
    told.healthy ==>
      && (failed <==> Unknown(told.before, e))
      && (!failed ==> (ok <==> !Refuses(told.before, e, increment, maxClicks)))
  }

  class World {
    const R: nat
    ghost const start: State
    ghost var steps: seq<Step>
    var s: State
    var v: View
    /** Bounds the number of further inputs, so that every run is finite. */
    var budget: nat
    ghost var log: Log
    /** The calls of RecordClick, in order. */
    ghost var asked: seq<Asked>
    /** Nobody so far offered a delivery to a retryer twice or put one back after offering it. */
    ghost var orderly: bool

    /** The state is the end of a run of the pipeline from a good state. */
    ghost predicate Valid()
      reads this
    {
      && Inv(start, R) && IsRun(start, steps, R) && s == After(start, steps, R) && Inv(s, R)
      && ViewOK(s, v, R)
      && LogOK(log, v.mine, s.nextTag)
      && (orderly ==> Orderly(start, steps, R, v))
    }

    constructor (R: nat, s: State, budget: nat)
      requires Inv(s, R)
      ensures Valid() && this.R == R && this.s == s && this.start == s && this.budget == budget && orderly
      ensures steps == [] && v == View(true, map[], {}, {}, {}) && log == EMPTY_LOG && asked == []
    {
      this.R, start, steps, this.s, this.budget, orderly := R, s, [], s, budget, true;
      v, log, asked := View(true, map[], {}, {}, {}), EMPTY_LOG, [];
    }

    /** One step of this process, and its view afterwards. */
    method Do(step: Step, w: View)
      requires IsRun(start, steps, R) && s == After(start, steps, R) && Inv(s, R) && Enabled(s, step, R)
      requires orderly ==> Orderly(start, steps, R, v) && KeepsOrder(s, step, Tried(start, steps, R), w)
      modifies this`s, this`steps, this`v
      ensures s == Apply(old(s), step, R) && steps == old(steps) + [step] && v == w && orderly == old(orderly)
      ensures IsRun(start, steps, R) && s == After(start, steps, R) && Inv(s, R)
      ensures orderly ==> Orderly(start, steps, R, v)
    {
      hide Orderly, KeepsOrder, Inv;
      assert (steps + [step])[..|steps + [step]| - 1] == steps;
      StepKeepsInv(s, step, R);
      if orderly {
        OrderlyStep(start, steps, step, R, v, w);
      }
      s := Apply(s, step, R);
      steps, v := steps + [step], w;
    }

    lemma Here()
      requires Valid()
      ensures IsRun(start, steps, R) && s == After(start, steps, R)
    {
      hide Inv, ViewOK, LogOK, Orderly, IsRun, After;
    }

    /** What this process knows of the deliveries tried so far. */
    lemma KnowsNow()
      requires Valid() && orderly
      ensures Knows(v, Tried(start, steps, R)) && TagsKnown(s, Tried(start, steps, R))
    {
      hide Inv, ViewOK, LogOK, Knows, OfferedOnce, Tried, TagsKnown;
      TriedKnown(start, steps, R);
    }

    /** As long as the others keep the order, retries run out: this process's own steps leave `orderly` alone, and
        only `Others` can end it. */
    lemma HandlingsBounded()
      requires Valid() && orderly
      ensures Handlings(start, steps, R) <= Potential(start, {}, Handling(R)) + Published(steps) * R
      ensures start.main == [] && start.retry == [] && start.unacked == [] ==>
        Handlings(start, steps, R) <= Published(steps) * R
      ensures R <= 37 ==>
        Waited(start, steps, R) <= Potential(start, {}, Waiting(R)) + Published(steps) * (250 * (Pow2(R - 1) - 1))
    {
      hide ViewOK, LogOK, Handlings, Waited, Potential, Published, OfferedOnce, Tried, Knows, QueuesOK, TablesOK;
      RetriesRunOut(start, steps, R);
      if R <= 37 {
        WaitingRunsOut(start, steps, R);
      }
    }

    /** Any number of steps of the other processes; this process's connection may be lost. */
    method Others()
      requires Valid()
      modifies this`s, this`steps, this`v, this`orderly
      ensures Valid() && old(steps) <= steps && (orderly ==> old(orderly))
      ensures v == old(v).(up := v.up)
    {
      hide Inv, LogOK, ViewOK, Apply, Enabled, OfferedOnce, Tried;
      var more: seq<Step>, alive: bool := *, *;
      var w := v.(up := alive && v.up);
      if IsRun(s, more, R) && Respects(After(s, more, R), w) {
        OthersView(s, more, v, alive, R);
        RunConcat(start, steps, more, R);
        RunKeepsInv(s, more, R);
        IssuedGrows(s, more, R);
        LogGrows(log, v.mine, s.nextTag, After(s, more, R).nextTag);
        orderly := orderly && Orderly(start, steps + more, R, w);
        s := After(s, more, R);
        steps := steps + more;
        v := w;
      }
    }

    // ---- a worker's view ----

    /** The next thing the worker's select sees. Ticks come only from an armed timer, Idle only while draining. */
    method Receive(armed: bool, draining: bool) returns (input: Input)
      requires Valid()
      modifies this`s, this`steps, this`v, this`log, this`budget, this`orderly
      ensures Valid() && old(steps) <= steps && (orderly ==> old(orderly))
      ensures v == old(v).(up := v.up, mine := v.mine)
      ensures input.Arrive? || input.Tick? ==> budget < old(budget)
      ensures input.Tick? ==> armed && !draining
      ensures input.Cancelled? ==> !draining
      ensures input.Idle? ==> draining
      ensures !input.Arrive? ==> v.mine == old(v.mine) && log == old(log).(inputs := old(log.inputs) + [input])
      ensures input.Arrive? ==>
        && log == old(log).(inputs := old(log.inputs) + [input], received := old(log.received) + [input.d])
        && v.mine == old(v.mine)[input.d.tag := MsgOf(input.d)] && input.d.tag !in v.offered
        && forall tag :: tag in old(v.mine) ==> tag < input.d.tag
    {
      hide Inv, IsRun, After, LogOK;
      Others();
      var choice: Input := *;
      if choice.Arrive? && budget > 0 && |s.main| > 0 {
        var i: nat :| i < |s.main|;
        input := Take(i);
        return;
      }
      if choice.Tick? && armed && !draining && budget > 0 {
        budget := budget - 1;
        input := Tick;
      } else if choice.Cancelled? && !draining {
        input := Cancelled;
      } else if choice.Idle? && draining {
        input := Idle;
      } else {
        input := Closed;
      }
      Note(log.(inputs := log.inputs + [input]));
    }

    method Take(i: nat) returns (input: Input)
      requires Valid() && i < |s.main| && budget > 0
      modifies this`s, this`steps, this`v, this`log, this`budget
      ensures Valid() && steps == old(steps) + [Deliver(i)] && budget < old(budget) && orderly == old(orderly)
      ensures input.Arrive?
      ensures log == old(log).(inputs := old(log.inputs) + [input], received := old(log.received) + [input.d])
      ensures v == old(v).(mine := old(v.mine)[input.d.tag := MsgOf(input.d)]) && input.d.tag !in v.offered
      ensures forall tag :: tag in old(v.mine) ==> tag < input.d.tag
    {
      hide Inv, IsRun, After, ViewOK, LogOK, Orderly, Knows, KeepsOrder;
      var d := Received(s.nextTag, s.main[i].body, s.main[i].header);
      ghost var after := log.(inputs := log.inputs + [Arrive(d)], received := log.received + [d]);
      DeliverView(s, i, v, R);
      LogReceive(log, v.mine, s.nextTag, d, after);
      if orderly {
        KnowsNow();
        DeliverOrder(s, i, Tried(start, steps, R), v, s.main[i]);
      }
      Do(Deliver(i), v.(mine := v.mine[s.nextTag := s.main[i]]));
      log := after;
      budget := budget - 1;
      input := Arrive(d);
    }

    /** The store's batch contract: the whole batch, or nothing unless the commit got through. */
    method RecordClicks(events: seq<ClickEvent>) returns (inserted: nat, failed: bool)
      requires Valid()
      requires forall e :: e in events ==> Ours(s, v, e)
      modifies this`s, this`steps, this`v, this`log, this`orderly
      ensures Valid() && old(steps) <= steps
      ensures v == old(v).(up := v.up)
      ensures log == old(log).(calls := old(log.calls) + [events], answers := old(log.answers) + [!failed],
                               inserted := old(log.inserted) + if failed then 0 else inserted)
      ensures !failed ==> inserted <= |events| && forall e :: e in events ==> Recorded(s.db, e.eventID)
    {
      hide Inv, IsRun, After, ViewOK, LogOK, Ours, Orderly;
      Others();
      inserted, failed := 0, true;
      var insertNow: Time, rollupNow: Time, reached: bool := *, *, *;
      if reached {
        StillOurs(events);
        inserted, failed := CommitEvents(events, insertNow, rollupNow);
      }
      Note(log.(calls := log.calls + [events], answers := log.answers + [!failed],
                inserted := log.inserted + if failed then 0 else inserted));
    }

    ghost method Note(after: Log)
      requires Valid() && after.received == log.received && after.settled == log.settled
      modifies this`log
      ensures Valid() && log == after
    {
      hide Inv, IsRun, After, ViewOK, LogOK, Orderly;
      LogRecorded(log, v.mine, s.nextTag, after);
      log := after;
    }

    method CommitEvents(events: seq<ClickEvent>, insertNow: Time, rollupNow: Time) returns (inserted: nat, failed: bool)
      requires Valid() && forall e :: e in events ==> IsCopy(s.issued, e) && e.eventID !in s.closed
      modifies this`s, this`steps, this`v
      ensures Valid() && old(steps) <= steps && v == old(v)
      ensures !failed ==> inserted <= |events| && forall e :: e in events ==> Recorded(s.db, e.eventID)
    {
      hide Inv, IsRun, After, LogOK;
      var cs := seq(|events|, i requires 0 <= i < |events| => Submission(events[i], insertNow, rollupNow));
      if !Batch(s.db, cs).Committed? {
        return 0, true;
      }
      assert forall c :: c in cs ==> c.event in events;
      inserted := CommitBatch(cs);
      failed := *;
      forall e | e in events ensures Recorded(s.db, e.eventID) {
        var i :| 0 <= i < |events| && events[i] == e;
        assert cs[i] in cs;
      }
    }

    method CommitBatch(cs: seq<Submission>) returns (inserted: nat)
      requires Valid() && Enabled(s, Commit(cs), R)
      modifies this`s, this`steps, this`v
      ensures Valid() && steps == old(steps) + [Commit(cs)] && v == old(v)
      ensures inserted <= |cs| && forall c :: c in cs ==> Recorded(s.db, c.event.eventID)
    {
      hide Inv, IsRun, After, ViewOK, LogOK;
      inserted := Batch(s.db, cs).inserted;
      LedgerLaws.InsertedCount(s.db, cs);
      BatchRecords(s, cs, R);
      Leak(Commit(cs));
    }

    twostate lemma StillOurs(events: seq<ClickEvent>)
      requires old(Valid()) && Valid() && old(steps) <= steps && v.mine == old(v.mine)
      requires forall e :: e in events ==> Ours(old(s), old(v), e)
      ensures forall e :: e in events ==> IsCopy(s.issued, e) && e.eventID !in s.closed
    {
      forall e | e in events ensures IsCopy(s.issued, e) && e.eventID !in s.closed {
        IssuedLater(start, old(steps), steps, R, e);
        IssuedIDsNonEmpty(s, R, e);
        var tag :| tag in v.mine && MsgID(v.mine[tag]) == e.eventID;
        assert Open(s, MsgID(v.mine[tag]));
      }
    }

    method Find(tag: nat) returns (i: nat)
      requires v.up && OwnsAll(s.unacked, v) && tag in v.mine
      ensures i < |s.unacked| && s.unacked[i] == Delivery(tag, v.mine[tag], tag in v.copied)
    {
      assert Owned(s.unacked, Delivery(tag, v.mine[tag], tag in v.copied));
      i :| i < |s.unacked| && s.unacked[i] == Delivery(tag, v.mine[tag], tag in v.copied);
    }

    /** Acknowledging needs a commit that contains the id, or a durable replacement. */
    method Ack(tag: nat) returns (failed: bool)
      requires Valid() && tag in v.mine && MsgID(v.mine[tag]) != ""
      requires tag in v.copied || Recorded(s.db, MsgID(v.mine[tag]))
      modifies this`s, this`steps, this`v, this`log, this`orderly
      ensures Valid() && old(steps) <= steps
      ensures failed ==> v == old(v).(up := v.up) && log == old(log).(broken := old(log.broken) + 1)
      ensures !failed ==> v == Without(old(v), tag).(up := v.up)
      ensures !failed ==> log == old(log).(settled := old(log.settled) + [tag])
    {
      hide Inv, IsRun, After, LogOK;
      Others();
      failed := *;
      if failed || !v.up {
        Note(log.(broken := log.broken + 1));
        return true;
      }
      Later(start, old(steps), steps, R, MsgID(v.mine[tag]));
      var i := Find(tag);
      Settle(Step.Ack(i), tag);
    }

    method Reject(tag: nat) returns (failed: bool)
      requires Valid() && tag in v.mine
      modifies this`s, this`steps, this`v, this`log, this`orderly
      ensures Valid() && old(steps) <= steps
      ensures failed ==> v == old(v).(up := v.up) && log == old(log).(broken := old(log.broken) + 1)
      ensures !failed ==> v == Without(old(v), tag).(up := v.up)
      ensures !failed ==> log == old(log).(settled := old(log.settled) + [tag], rejected := old(log.rejected) + [tag])
    {
      hide Inv, IsRun, After, LogOK;
      Others();
      failed := *;
      if failed || !v.up {
        Note(log.(broken := log.broken + 1));
        return true;
      }
      var i := Find(tag);
      Settle(Step.Reject(i), tag);
    }

    /** Nack(requeue = true), for a delivery that was not offered to a retryer */
    method Nack(tag: nat) returns (failed: bool)
      requires Valid() && tag in v.mine && tag !in v.offered
      modifies this`s, this`steps, this`v, this`log, this`orderly
      ensures Valid() && old(steps) <= steps
      ensures failed ==> v == old(v).(up := v.up) && log == old(log).(broken := old(log.broken) + 1)
      ensures !failed ==> v == Without(old(v), tag).(up := v.up)
      ensures !failed ==> log == old(log).(settled := old(log.settled) + [tag], requeued := old(log.requeued) + [tag])
    {
      hide Inv, IsRun, After, LogOK;
      Others();
      failed := *;
      if failed || !v.up {
        Note(log.(broken := log.broken + 1));
        return true;
      }
      var i := Find(tag);
      Settle(Requeue(i), tag);
    }

    method Settle(step: Step, tag: nat)
      requires Valid() && tag in v.mine && Enabled(s, step, R)
      requires step.Ack? || step.Reject? || step.Requeue?
      requires step.i < |s.unacked| && s.unacked[step.i].tag == tag
      requires step.Requeue? ==> tag !in v.offered && !s.unacked[step.i].replaced
      modifies this`s, this`steps, this`v, this`log
      ensures Valid() && steps == old(steps) + [step] && v == Without(old(v), tag)
      ensures log == old(log).(settled := old(log.settled) + [tag],
                               rejected := old(log.rejected) + if step.Reject? then [tag] else [],
                               requeued := old(log.requeued) + if step.Requeue? then [tag] else [])
    {
      hide Inv, IsRun, After, ViewOK, LogOK, Orderly, Knows, KeepsOrder;
      var next := log.(settled := log.settled + [tag],
                       rejected := log.rejected + if step.Reject? then [tag] else [],
                       requeued := log.requeued + if step.Requeue? then [tag] else []);
      SettleView(s, step, v, tag, R);
      LogSettle(log, v.mine, s.nextTag, tag, next);
      if orderly {
        KnowsNow();
        SettleOrder(s, step, Tried(start, steps, R), v, tag);
      }
      Do(step, Without(v, tag));
      log := next;
    }

    /** RetryPublisher.Retry, as its interface promises it: a nil error means the replacement is durable in the retry
        queue. RetryChannel says how long that is so. Each delivery is offered once. */
    method Retry(tag: nat, attempt: nat) returns (failed: bool)
      requires Valid() && tag in v.mine && tag !in v.offered && DecodeEvent(v.mine[tag].body).Decoded?
      requires attempt == RetryCount(v.mine[tag].header) + 1 < R
      modifies this`s, this`steps, this`v, this`log, this`orderly
      ensures Valid() && old(steps) <= steps
      ensures v == (if failed then Offered(old(v), tag) else Copied(old(v), tag)).(up := v.up)
      ensures log == old(log).(offers := old(log.offers) + [Offering(tag, attempt, !failed)])
    {
      hide Inv, IsRun, After, LogOK, Orderly, Knows, KeepsOrder;
      Others();
      var confirmed: bool, stray: bool := *, *;
      failed := !confirmed || !v.up;
      if v.up && (confirmed || stray) {
        var i := Find(tag);
        Offer(if confirmed then Replace(i, attempt) else Stray(i, attempt), tag, confirmed);
      } else {
        Skip(tag);
      }
      Note(log.(offers := log.offers + [Offering(tag, attempt, !failed)]));
    }

    /** The retry publish got through, confirmed or not. */
    method Offer(step: Step, tag: nat, confirmed: bool)
      requires Valid() && Enabled(s, step, R) && (if confirmed then step.Replace? else step.Stray?)
      requires step.i < |s.unacked| && s.unacked[step.i].tag == tag && tag !in v.offered
      requires tag in v.mine && v.mine[tag] == s.unacked[step.i].msg
      modifies this`s, this`steps, this`v
      ensures Valid() && steps == old(steps) + [step]
      ensures v == if confirmed then Copied(old(v), tag) else Offered(old(v), tag)
    {
      hide Inv, IsRun, After, ViewOK, LogOK, Orderly, Knows, KeepsOrder;
      var w := if confirmed then Copied(v, tag) else Offered(v, tag);
      if confirmed {
        ReplaceView(s, step.i, step.attempt, v, R);
      } else {
        QuietView(s, step, v, R);
        OfferView(Apply(s, step, R), v, tag, R);
      }
      if orderly {
        KnowsNow();
        OfferOrder(s, step, Tried(start, steps, R), v, w);
      }
      Do(step, w);
    }

    /** The retry publish did not get through. */
    method Skip(tag: nat)
      requires Valid() && tag in v.mine
      modifies this`v
      ensures Valid() && v == Offered(old(v), tag)
    {
      hide Inv, IsRun, After, LogOK, OfferedOnce, Tried;
      OfferView(s, v, tag, R);
      v := Offered(v, tag);
    }

    /** A step that leaves this process's view alone. */
    method Leak(step: Step)
      requires Valid() && Enabled(s, step, R)
      requires step.Commit? || step.Write? || step.Enqueue?
      modifies this`s, this`steps, this`v
      ensures Valid() && s == Apply(old(s), step, R) && steps == old(steps) + [step] && v == old(v)
    {
      hide Inv, IsRun, After, ViewOK, LogOK, Orderly, Knows, KeepsOrder;
      QuietView(s, step, v, R);
      if orderly {
        KnowsNow();
        QuietOrder(s, step, Tried(start, steps, R), v, v);
      }
      Do(step, v);
    }

    // ---- a publisher's and a handler's view ----

    /** The broker may accept a copy of an issued event that was sent to it. */
    method Accept(m: Msg) returns (accepted: bool)
      requires Valid() && m.header == NoHeader
      requires var r := DecodeEvent(m.body); r.Decoded? && IsCopy(s.issued, r.event) && MsgID(m) in v.holding
      modifies this`s, this`steps, this`v, this`orderly
      ensures Valid() && old(steps) <= steps
      ensures v == old(v).(up := v.up)
      ensures accepted ==> Held(s, MsgID(m))
    {
      hide Inv, IsRun, After, LogOK;
      Others();
      accepted := *;
      if accepted {
        IssuedLater(start, old(steps), steps, R, DecodeEvent(m.body).event);
        Leak(Enqueue(m));
        assert m in s.main;
      }
    }

    /** These tables were the committed ones at some point since. */
    ghost predicate Passed(since: seq<Step>, db: Tables)
      reads this
    {
      exists n :: |since| <= n <= |steps| && IsRun(start, steps[..n], R) && After(start, steps[..n], R).db == db
    }

    /** The store's RecordClick contract on the shared tables. */
    method RecordClick(e: ClickEvent, increment: bool, maxClicks: Option<int>)
      returns (ok: bool, failed: bool, ghost told: Told)
      requires Valid() && IsCopy(s.issued, e.(increment := increment)) && e.eventID in v.holding
      modifies this`s, this`steps, this`v, this`orderly, this`asked
      ensures Valid() && old(steps) <= steps && Passed(old(steps), told.before) && !told.published
      ensures v == old(v).(up := v.up)
      ensures asked == old(asked) + [Asked(e, increment, maxClicks, ok, failed)]
      ensures ok && !failed ==> Recorded(s.db, e.eventID)
      ensures !ok && !failed ==> Refuses(s.db, e, increment, maxClicks)
      ensures AnswerOK(told, e, increment, maxClicks, ok, failed)
    {
      hide Inv, IsRun, After, LogOK, Orderly, Stored, Recorded;
      Others();
      told := Told(false, s.db, false);
      ghost var reachedBy := steps;
      var insertNow: Time, rollupNow: Time, reached: bool := *, *, *;
      var c := Submission(e, insertNow, rollupNow);
      ok, failed := *, true;
      if reached && Single(s.db, c, increment, maxClicks).Done? {
        IssuedLater(start, old(steps), steps, R, Marked(c, increment).event);
        ok := WriteOne(c, increment, maxClicks);
        failed := *;
        told := told.(healthy := !failed);
      } else {
        told := told.(healthy := reached);
      }
      asked := asked + [Asked(e, increment, maxClicks, ok, failed)];
      assert steps[..|reachedBy|] == reachedBy;
    }

    method WriteOne(c: Submission, increment: bool, maxClicks: Option<int>) returns (ok: bool)
      requires Valid() && Enabled(s, Write(c, increment, maxClicks), R)
      modifies this`s, this`steps, this`v
      ensures Valid() && steps == old(steps) + [Write(c, increment, maxClicks)] && v == old(v)
      ensures ok <==> !Refuses(old(s.db), c.event, increment, maxClicks)
      ensures ok ==> Recorded(s.db, c.event.eventID)
      ensures !ok ==> s.db == old(s.db)
    {
      hide Inv, IsRun, After, ViewOK, LogOK, Orderly, Stored, Recorded;
      SingleRecords(s, c, increment, maxClicks, R);
      ok := Single(s.db, c, increment, maxClicks).accepted;
      Leak(Write(c, increment, maxClicks));
    }

    /** A handler mints an event with a fresh id and holds it in memory. */
    method Mint(e: ClickEvent)
      requires Valid() && Publishable(e) && e.eventID !in s.issued && e.eventID !in s.closed
      modifies this`s, this`steps, this`v, this`orderly
      ensures Valid() && steps == old(steps) + [Issue(e)]
      ensures IsCopy(s.issued, e) && v == old(v).(holding := old(v.holding) + {e.eventID})
    {
      hide Inv, IsRun, After, ViewOK, LogOK, Orderly, Knows, KeepsOrder;
      var w := v.(holding := v.holding + {e.eventID});
      IssueView(s, e, v, R);
      if orderly {
        KnowsNow();
        QuietOrder(s, Issue(e), Tried(start, steps, R), v, w);
      }
      Do(Issue(e), w);
    }

    /** The handler is done with an event. */
    method Release(id: string)
      requires Valid()
      modifies this`v
      ensures Valid() && v == old(v).(holding := old(v.holding) - {id})
    {
      hide Inv, IsRun, After, LogOK, OfferedOnce, Tried;
      v := v.(holding := v.holding - {id});
    }
  }
}
