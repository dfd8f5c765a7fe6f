// The analytics worker: it batches deliveries, commits them, and settles each one exactly once.

module Worker {
  import opened Models
  import opened Payload
  import opened Pipeline
  import opened Process
  import opened Fates
  import World

  const DEFAULT_BATCH_SIZE: int := 200
  /** In milliseconds. */
  const DEFAULT_FLUSH_INTERVAL: int := 250
  const DEFAULT_MAX_RETRIES: int := 5

  /** WorkerConfig; zero and negative values stand for the defaults. */
  datatype Config = Config(batchSize: int, flushInterval: int, maxRetries: int)

  datatype Pending = Pending(d: Received, event: ClickEvent)

  datatype Counters = Counters(
    received: nat, committed: nat, duplicate: nat, invalid: nat, requeue: nat, dlq: nat, failures: nat, batches: nat)

  /** Every received message is accounted for; `open` of them are still in the batch. */
  predicate Balanced(m: Counters, open: nat) {
    m.received == m.committed + m.duplicate + m.requeue + m.dlq + open
  }

  function InvalidIn(ds: seq<Received>): nat {
    if ds == [] then 0
    else InvalidIn(ds[..|ds| - 1]) + if DecodeEvent(ds[|ds| - 1].body).Invalid? then 1 else 0
  }

  function Refusals(answers: seq<bool>): nat {
    if answers == [] then 0 else Refusals(answers[..|answers| - 1]) + if answers[|answers| - 1] then 0 else 1
  }

  /** How many deliveries the retryer took. */
  function Taken(offers: seq<Offering>): nat {
    if offers == [] then 0 else Taken(offers[..|offers| - 1]) + if offers[|offers| - 1].ok then 1 else 0
  }

  /** The counters agree with what was received, with what the store was asked, answered and reported, and with what
      was dead-lettered, put back and rescheduled. */
  predicate Reported(m: Counters, log: Log) {
    && m.received == |log.received| && m.invalid == InvalidIn(log.received)
    && m.batches == |log.calls| && m.failures == Refusals(log.answers) && m.committed == log.inserted
    && m.dlq == |log.rejected| && m.requeue == |log.requeued| + Taken(log.offers)
  }

  // ---- what a batch stands for ----

  /** The unsettled deliveries of the process are exactly these, in arrival order, none offered to the retryer yet. */
  ghost predicate Owes(mine: map<nat, Msg>, offered: set<nat>, ps: seq<Pending>) {
    && (forall i, j :: 0 <= i < j < |ps| ==> ps[i].d.tag < ps[j].d.tag)
    && (forall i :: 0 <= i < |ps| ==> OwesOne(mine, offered, ps[i]))
    && (forall tag :: tag in mine ==> exists i :: 0 <= i < |ps| && ps[i].d.tag == tag)
  }

  ghost predicate OwesOne(mine: map<nat, Msg>, offered: set<nat>, p: Pending) {
    && p.d.tag in mine && mine[p.d.tag] == MsgOf(p.d) && p.d.tag !in offered
    && DecodeEvent(p.d.body) == Decoded(p.event)
  }

  function DeliveriesOf(ps: seq<Pending>): (ds: seq<Received>)
    ensures |ds| == |ps| && forall i :: 0 <= i < |ps| ==> ds[i] == ps[i].d
  {
    seq(|ps|, i requires 0 <= i < |ps| => ps[i].d)
  }

  function EventsOf(ps: seq<Pending>): seq<ClickEvent> {
    seq(|ps|, i requires 0 <= i < |ps| => ps[i].event)
  }

  /** The events of the valid messages, in arrival order. */
  function ValidEvents(ds: seq<Received>): seq<ClickEvent> {
    if ds == [] then []
    else
      var r := DecodeEvent(ds[|ds| - 1].body);
      ValidEvents(ds[..|ds| - 1]) + if r.Decoded? then [r.event] else []
  }

  function Joined(calls: seq<seq<ClickEvent>>): seq<ClickEvent> {
    if calls == [] then [] else Joined(calls[..|calls| - 1]) + calls[|calls| - 1]
  }

  predicate SizesOK(calls: seq<seq<ClickEvent>>, batchSize: int) {
    forall i :: 0 <= i < |calls| ==> 1 <= |calls[i]| <= batchSize
  }

  /** The calls so far and the open batch hold exactly the valid events, in arrival order. */
  predicate Chunked(calls: seq<seq<ClickEvent>>, received: seq<Received>, ps: seq<Pending>) {
    Joined(calls) + EventsOf(ps) == ValidEvents(received)
  }

  lemma ReceiveValid(calls: seq<seq<ClickEvent>>, received: seq<Received>, ps: seq<Pending>)
    requires received != [] && Chunked(calls, received[..|received| - 1], ps)
    ensures var d := received[|received| - 1];
            var r := DecodeEvent(d.body);
            Chunked(calls, received, if r.Decoded? then ps + [Pending(d, r.event)] else ps)
  {
    var d := received[|received| - 1];
    var r := DecodeEvent(d.body);
    if r.Decoded? {
      assert EventsOf(ps + [Pending(d, r.event)]) == EventsOf(ps) + [r.event];
    }
  }

  lemma CallTakesBatch(calls: seq<seq<ClickEvent>>, received: seq<Received>, ps: seq<Pending>)
    requires Chunked(calls, received, ps)
    ensures Chunked(calls + [EventsOf(ps)], received, [])
  {
    var after := calls + [EventsOf(ps)];
    assert after[..|after| - 1] == calls;
    assert EventsOf([]) == [];
  }

  lemma OwesRest(mine: map<nat, Msg>, offered: set<nat>, ps: seq<Pending>)
    requires ps != [] && Owes(mine, offered, ps)
    ensures Owes(mine - {ps[0].d.tag}, offered - {ps[0].d.tag}, ps[1..])
  {
    hide DecodeEvent;
    var m, c, rest := mine - {ps[0].d.tag}, offered - {ps[0].d.tag}, ps[1..];
    forall i | 0 <= i < |rest| ensures OwesOne(m, c, rest[i]) {
      assert OwesOne(mine, offered, ps[i + 1]) && ps[0].d.tag < ps[i + 1].d.tag;
    }
    forall tag | tag in m ensures exists i :: 0 <= i < |rest| && rest[i].d.tag == tag {
      var i :| 0 <= i < |ps| && ps[i].d.tag == tag;
      assert rest[i - 1].d.tag == tag;
    }
  }

  lemma OwesStep(mine: map<nat, Msg>, offered: set<nat>, ps: seq<Pending>, i: nat)
    requires i < |ps| && Owes(mine, offered, ps[i..])
    ensures OwesOne(mine, offered, ps[i])
    ensures Owes(mine - {ps[i].d.tag}, offered - {ps[i].d.tag}, ps[i + 1..])
  {
    hide OwesOne;
    assert ps[i..][0] == ps[i] && ps[i..][1..] == ps[i + 1..];
    OwesRest(mine, offered, ps[i..]);
  }

  lemma OwesMore(mine: map<nat, Msg>, offered: set<nat>, ps: seq<Pending>, p: Pending)
    requires Owes(mine, offered, ps) && p.d.tag !in offered && DecodeEvent(p.d.body) == Decoded(p.event)
    requires forall tag :: tag in mine ==> tag < p.d.tag
    ensures Owes(mine[p.d.tag := MsgOf(p.d)], offered, ps + [p])
  {
    hide DecodeEvent;
    var m, more := mine[p.d.tag := MsgOf(p.d)], ps + [p];
    forall i | 0 <= i < |ps| ensures OwesOne(m, offered, ps[i]) && ps[i].d.tag < p.d.tag {
      assert OwesOne(mine, offered, ps[i]);
    }
    assert OwesOne(m, offered, p);
    forall tag | tag in m ensures exists i :: 0 <= i < |more| && more[i].d.tag == tag {
      if tag == p.d.tag {
        assert more[|ps|].d.tag == tag;
      } else {
        var i :| 0 <= i < |ps| && ps[i].d.tag == tag;
        assert more[i].d.tag == tag;
      }
    }
  }

  lemma OwesNothing(mine: map<nat, Msg>, offered: set<nat>)
    requires Owes(mine, offered, [])
    ensures mine == map[]
  {
    assert forall tag :: tag !in mine;
  }

  /** An owed delivery is a faithful copy of an issued event, and its retry header is in range. */
  lemma OwedIsFaithful(s: State, v: View, R: nat, p: Pending)
    requires Inv(s, R) && ViewOK(s, v, R) && OwesOne(v.mine, v.offered, p)
    ensures IsCopy(s.issued, p.event) && MsgID(v.mine[p.d.tag]) == p.event.eventID != ""
    ensures 0 <= RetryCount(p.d.header) < R
  {
    hide Inv, Enabled, Apply;
    assert MsgOK(s.issued, v.mine[p.d.tag], R);
    assert IsCopy(s.issued, p.event);
    IssuedIDsNonEmpty(s, R, p.event);
  }

  class Worker {
    const world: World.World
    const config: Config
    const hasRetryer: bool
    var batch: seq<Pending>
    var timerArmed: bool
    var metrics: Counters

    constructor (world: World.World, hasRetryer: bool, given: Config)
      ensures this.world == world && this.hasRetryer == hasRetryer
      ensures 1 <= config.batchSize <= 200 && config.flushInterval >= 1 && config.maxRetries >= 1
      ensures 1 <= given.batchSize <= 200 ==> config.batchSize == given.batchSize
      ensures !(1 <= given.batchSize <= 200) ==> config.batchSize == 200
      ensures config.flushInterval == if given.flushInterval >= 1 then given.flushInterval else 250
      ensures config.maxRetries == if given.maxRetries >= 1 then given.maxRetries else 5
      ensures batch == [] && !timerArmed && metrics == Counters(0, 0, 0, 0, 0, 0, 0, 0)
    {
      this.world := world;
      this.hasRetryer := hasRetryer;
      var c := given;
      if c.batchSize <= 0 || c.batchSize > DEFAULT_BATCH_SIZE {
        c := c.(batchSize := DEFAULT_BATCH_SIZE);
      }
      if c.flushInterval <= 0 {
        c := c.(flushInterval := DEFAULT_FLUSH_INTERVAL);
      }
      if c.maxRetries <= 0 {
        c := c.(maxRetries := DEFAULT_MAX_RETRIES);
      }
      config := c;
      batch, timerArmed := [], false;
      metrics := Counters(0, 0, 0, 0, 0, 0, 0, 0);
    }

    /** The pipeline is set up for this worker's number of retries. */
    ghost predicate Configured()
      reads world
    {
      config.maxRetries == world.R && config.batchSize >= 1 && world.Valid()
    }

    /** What holds between two inputs. */
    ghost predicate Ready()
      reads this, world
    {
      && Configured() && Owes(world.v.mine, world.v.offered, batch)
      && Chunked(world.log.calls, world.log.received, batch)
      && SizesOK(world.log.calls, config.batchSize) && Balanced(metrics, |batch|) && Reported(metrics, world.log)
      && (timerArmed <==> batch != []) && |batch| < config.batchSize
    }

    /** A new worker of a process that has received nothing can run. */
    lemma FreshIsReady()
      requires Configured() && config.batchSize >= 1 && world.v.mine == map[] && world.log == EMPTY_LOG
      requires batch == [] && !timerArmed && metrics == Counters(0, 0, 0, 0, 0, 0, 0, 0)
      ensures Ready() && Fair(batch) && OnTime(world.log.inputs)
    {
      hide *;
      NothingOwed();
      NothingChunked();
      NothingCounted();
      NothingJudged();
      AllReady();
    }

    lemma NothingCounted()
      requires world.log == EMPTY_LOG && batch == [] && metrics == Counters(0, 0, 0, 0, 0, 0, 0, 0)
      ensures Balanced(metrics, |batch|) && Reported(metrics, world.log)
    {
    }

    lemma NothingJudged()
      requires world.log == EMPTY_LOG && world.v.mine == map[] && batch == []
      ensures Fair(batch) && OnTime(world.log.inputs)
    {
      hide FateOK;
    }

    lemma AllReady()
      requires Configured() && Owes(world.v.mine, world.v.offered, batch)
      requires Chunked(world.log.calls, world.log.received, batch) && SizesOK(world.log.calls, config.batchSize)
      requires Balanced(metrics, |batch|) && Reported(metrics, world.log)
      requires (timerArmed <==> batch != []) && |batch| < config.batchSize
      ensures Ready()
    {
      hide Configured, Owes, Chunked, SizesOK;
    }

    lemma NothingOwed()
      requires world.v.mine == map[] && batch == []
      ensures Owes(world.v.mine, world.v.offered, batch)
    {
      hide DecodeEvent;
    }

    lemma NothingChunked()
      requires world.log == EMPTY_LOG && batch == []
      ensures Chunked(world.log.calls, world.log.received, batch) && SizesOK(world.log.calls, config.batchSize)
    {
      hide DecodeEvent;
    }

    /** Every settled delivery got what it deserves, and nothing was done yet to those that are owed. */
    ghost predicate Fair(ps: seq<Pending>)
      reads this, world
    {
      FairLog(world.log, world.v.mine, DeliveriesOf(ps), hasRetryer, config.maxRetries)
    }

    ghost predicate Judged()
      reads this, world
    {
      AllFates(world.log, hasRetryer, config.maxRetries)
    }

    /** The batches handed over are those that these inputs call for, and so is the open one. */
    ghost predicate OnTime(inputs: seq<Input>)
      reads this, world
    {
      Due(inputs, config.batchSize) == Batching(EventsOf(batch), world.log.calls)
    }

    /** Nothing is owed: every received delivery was settled exactly once, and all valid events were handed
        to the store in arrival order, in chunks of 1 to batchSize. */
    ghost predicate AllSettled()
      reads this, world
    {
      && world.v.mine == map[]
      && (forall tag :: tag in world.log.settled <==> WasReceived(world.log, tag))
      && (forall i, j :: 0 <= i < j < |world.log.settled| ==> world.log.settled[i] != world.log.settled[j])
      && Joined(world.log.calls) == ValidEvents(world.log.received)
      && SizesOK(world.log.calls, config.batchSize)
      && Balanced(metrics, 0) && Reported(metrics, world.log)
    }

    lemma ReadyAndEmptyIsSettled()
      requires Configured() && Owes(world.v.mine, world.v.offered, [])
      requires Chunked(world.log.calls, world.log.received, [])
      requires SizesOK(world.log.calls, config.batchSize) && Balanced(metrics, 0) && Reported(metrics, world.log)
      ensures AllSettled()
    {
      OwesNothing(world.v.mine, world.v.offered);
      assert EventsOf([]) == [];
    }

    /** The select loop. It ends when its channel closes or after it was cancelled, with the batches its inputs call
        for handed over and every delivery settled as it deserves, or at the first settlement that goes wrong. */
    method Run() returns (failed: bool)
      requires Ready() && batch == [] && Fair(batch) && OnTime(world.log.inputs)
      modifies this, world
      ensures Configured() && old(world.steps) <= world.steps && Judged()
      ensures hasRetryer ==> world.log.requeued == old(world.log.requeued)
      ensures world.log.broken == old(world.log.broken) + if failed then 1 else 0
      ensures !failed ==> AllSettled() && OnTime(world.log.inputs) && batch == [] && Ended(world.log.inputs)
      ensures old(world.log.inputs) < world.log.inputs
    {
      hide Inv, IsRun, After, ViewOK, LogOK, Orderly, Owes, Chunked, SizesOK, Balanced, Reported, Due, FairLog;
      hide AllFates, Arrived;
      while true
        invariant Ready() && Fair(batch) && OnTime(world.log.inputs) && old(world.steps) <= world.steps
        invariant hasRetryer ==> world.log.requeued == old(world.log.requeued)
        invariant world.log.broken == old(world.log.broken) && old(world.log.inputs) <= world.log.inputs
        decreases world.budget
      {
        var input;
        ghost var owed, before;
        input, owed, before := Next(false);
        DueNext(before, input, config.batchSize);
        match input {
          case Closed =>
            failed := Flush();
            return;
          case Arrive(d) =>
            failed := Accept(d, owed, before);
            if failed {
              return;
            }
          case Tick =>
            timerArmed := false;
            failed := Flush();
            if failed {
              return;
            }
          case Cancelled =>
            failed := Drain();
            return;
          case Idle =>
        }
      }
    }

    /** After cancellation: take what was already handed over, then flush. */
    method Drain() returns (failed: bool)
      requires Ready() && Fair(batch) && OnTime(world.log.inputs) && Cancelled in world.log.inputs
      modifies this, world
      ensures Configured() && old(world.steps) <= world.steps && Judged()
      ensures hasRetryer ==> world.log.requeued == old(world.log.requeued)
      ensures world.log.broken == old(world.log.broken) + if failed then 1 else 0
      ensures !failed ==> AllSettled() && OnTime(world.log.inputs) && batch == [] && Ended(world.log.inputs)
      ensures old(world.log.inputs) < world.log.inputs
    {
      hide Inv, IsRun, After, ViewOK, LogOK, Orderly, Owes, Chunked, SizesOK, Balanced, Reported, Due, FairLog;
      hide AllFates, Arrived;
      while true
        invariant Ready() && Fair(batch) && OnTime(world.log.inputs) && old(world.steps) <= world.steps
        invariant hasRetryer ==> world.log.requeued == old(world.log.requeued)
        invariant world.log.broken == old(world.log.broken) && old(world.log.inputs) <= world.log.inputs
        invariant Cancelled in world.log.inputs
        decreases world.budget
      {
        var input;
        ghost var owed, before;
        input, owed, before := Next(true);
        DueNext(before, input, config.batchSize);
        if !input.Arrive? {
          failed := Flush();
          return;
        }
        failed := Accept(input.d, owed, before);
        if failed {
          return;
        }
      }
    }

    /** An input that is no delivery changes nothing about the deliveries. */
    lemma StillFair(before: Log, owed: map<nat, Msg>)
      requires FairLog(before, owed, DeliveriesOf(batch), hasRetryer, config.maxRetries)
      requires world.log == before.(inputs := world.log.inputs) && world.v.mine == owed
      requires Reported(metrics, before)
      ensures Fair(batch) && Reported(metrics, world.log)
    {
      hide FateOK, OffersOf, Untouched, InvalidIn, Refusals, Taken;
      FatesStay(before, world.log, hasRetryer, config.maxRetries);
    }

    lemma NowFair(d: Received, before: Log, owed: map<nat, Msg>)
      requires world.Valid() && owed == world.v.mine - {d.tag} && d.tag in world.v.mine
      requires FairLog(before, owed, DeliveriesOf(batch), hasRetryer, config.maxRetries)
      requires world.log == before.(inputs := world.log.inputs, received := before.received + [d])
      ensures Fair(batch) && d in world.log.received
    {
      hide Inv, IsRun, After, ViewOK, Orderly, FateOK, OffersOf;
      FatesReceive(before, world.log, d, world.v.mine, world.s.nextTag, hasRetryer, config.maxRetries);
    }

    /** A delivery just arrived on top of what was owed. */
    lemma NowArrived(d: Received, before: Log, owed: map<nat, Msg>)
      requires d.tag !in owed && d.tag !in world.v.offered
      requires world.v.mine == owed[d.tag := MsgOf(d)] && (forall tag :: tag in owed ==> tag < d.tag)
      requires world.log == before.(inputs := world.log.inputs, received := before.received + [d])
      requires Owes(owed, world.v.offered, batch) && Chunked(before.calls, before.received, batch)
      requires SizesOK(before.calls, config.batchSize) && Balanced(metrics, |batch|) && Reported(metrics, before)
      requires (timerArmed <==> batch != []) && |batch| < config.batchSize
      ensures Arrived(d, owed)
    {
      hide InvalidIn, Refusals, Taken, Owes, Chunked, SizesOK, Balanced;
      assert Earlier() == before.received;
    }

    /** The next thing the select sees, and what it means for the deliveries. */
    method Next(draining: bool) returns (input: Input, ghost owed: map<nat, Msg>, ghost before: seq<Input>)
      requires Ready() && Fair(batch) && OnTime(world.log.inputs)
      modifies world
      ensures Configured() && old(world.steps) <= world.steps && Fair(batch)
      ensures before == old(world.log.inputs) && world.log.inputs == before + [input] && OnTime(before)
      ensures world.log.requeued == old(world.log.requeued) && world.log.broken == old(world.log.broken)
      ensures input.Arrive? || input.Tick? ==> world.budget < old(world.budget)
      ensures input.Tick? || input.Cancelled? ==> !draining
      ensures input.Idle? ==> draining
      ensures input.Arrive? ==> Arrived(input.d, owed) && input.d in world.log.received
      ensures !input.Arrive? ==> Ready()
    {
      hide Inv, IsRun, After, ViewOK, LogOK, Orderly, Owes, Chunked, SizesOK, Balanced, Reported, Due, FairLog;
      hide AllFates, Arrived;
      owed, before := world.v.mine, world.log.inputs;
      ghost var log := world.log;
      input := world.Receive(timerArmed, draining);
      if input.Arrive? {
        assert owed == world.v.mine - {input.d.tag};
        NowFair(input.d, log, owed);
        NowArrived(input.d, log, owed);
      } else {
        StillFair(log, owed);
      }
    }

    /** The deliveries before the newest one. */
    ghost function Earlier(): seq<Received>
      requires world.log.received != []
      reads world
    {
      world.log.received[..|world.log.received| - 1]
    }

    /** `d` has just been received on top of what was owed; all else is as between two inputs. */
    ghost predicate Arrived(d: Received, owed: map<nat, Msg>)
      reads this, world
    {
      && world.log.received != [] && world.log.received[|world.log.received| - 1] == d
      && d.tag !in owed && world.v.mine == owed[d.tag := MsgOf(d)] && d.tag !in world.v.offered
      && Owes(owed, world.v.offered, batch)
      && (forall tag :: tag in owed ==> tag < d.tag)
      && Chunked(world.log.calls, Earlier(), batch) && SizesOK(world.log.calls, config.batchSize)
      && Balanced(metrics, |batch|) && Reported(metrics, world.log.(received := Earlier()))
      && (timerArmed <==> batch != []) && |batch| < config.batchSize
    }

    /** One delivery that just arrived: an invalid one is dead-lettered, a valid one joins the batch, which is handed
        over if it is full. */
    method Accept(d: Received, ghost owed: map<nat, Msg>, ghost before: seq<Input>) returns (failed: bool)
      requires Configured() && Arrived(d, owed) && Fair(batch) && OnTime(before)
      requires world.log.inputs == before + [Arrive(d)] && d in world.log.received
      modifies this, world
      ensures Configured() && old(world.steps) <= world.steps && world.budget == old(world.budget) && Judged()
      ensures hasRetryer ==> world.log.requeued == old(world.log.requeued)
      ensures world.log.broken == old(world.log.broken) + if failed then 1 else 0
      ensures world.log.inputs == old(world.log.inputs)
      ensures !failed ==> Ready() && Fair(batch) && OnTime(world.log.inputs)
    {
      hide Inv, IsRun, After, ViewOK, LogOK, Orderly, DecodeEvent, Owes, Chunked, SizesOK, FairLog, AllFates, Due;
      ReceiveValid(world.log.calls, world.log.received, batch);
      DueNext(before, Arrive(d), config.batchSize);
      metrics := metrics.(received := metrics.received + 1);
      var r := DecodeEvent(d.body);
      if r.Invalid? {
        metrics := metrics.(invalid := metrics.invalid + 1, dlq := metrics.dlq + 1);
        failed := DeadLetter(d, owed);
        return;
      }
      OwesMore(owed, world.v.offered, batch, Pending(d, r.event));
      OneMoreEvent(batch, Pending(d, r.event));
      FairMore(Pending(d, r.event));
      batch := batch + [Pending(d, r.event)];
      FairToNone(batch);
      timerArmed := true;
      failed := false;
      if |batch| >= config.batchSize {
        failed := Flush();
      }
    }

    lemma LogIsOK()
      requires world.Valid()
      ensures LogOK(world.log, world.v.mine, world.s.nextTag)
    {
      hide Inv, IsRun, After, ViewOK, LogOK, Orderly;
    }

    lemma FairMore(p: Pending)
      requires Fair(batch) && p.d in world.log.received
      ensures Fair(batch + [p])
    {
      hide AllFates, AllUntouched;
    }

    method DeadLetter(d: Received, ghost owed: map<nat, Msg>) returns (failed: bool)
      requires Configured() && d.tag !in owed && world.v.mine == owed[d.tag := MsgOf(d)] && d.tag !in world.v.offered
      requires Fair(batch) && d in world.log.received && DecodeEvent(d.body).Invalid?
      modifies world
      ensures Configured() && old(world.steps) <= world.steps && world.budget == old(world.budget) && Judged()
      ensures failed ==> world.log == old(world.log).(broken := old(world.log.broken) + 1)
      ensures !failed ==> world.v.mine == owed && world.v.offered == old(world.v.offered) && Fair(batch)
      ensures !failed ==> world.log == old(world.log).(
        settled := old(world.log.settled) + [d.tag], rejected := old(world.log.rejected) + [d.tag])
    {
      hide Inv, IsRun, After, ViewOK, LogOK, Orderly, FairLog, FateOK, OffersOf, DecodeEvent;
      FairToNone(batch);
      LogIsOK();
      ghost var log, mine, nextTag := world.log, world.v.mine, world.s.nextTag;
      failed := world.Reject(d.tag);
      if failed {
        FatesStay(log, world.log, hasRetryer, config.maxRetries);
      } else {
        assert mine - {d.tag} == owed;
        DeadLetterIsFair(d, log, mine, nextTag);
      }
    }

    lemma DeadLetterIsFair(d: Received, log: Log, mine: map<nat, Msg>, nextTag: nat)
      requires FairLog(log, mine, DeliveriesOf(batch), hasRetryer, config.maxRetries) && LogOK(log, mine, nextTag)
      requires d in log.received && d.tag in mine && DecodeEvent(d.body).Invalid?
      requires world.log == log.(settled := log.settled + [d.tag], rejected := log.rejected + [d.tag])
      requires world.v.mine == mine - {d.tag}
      ensures Fair(batch) && Judged()
    {
      hide OffersOf, FateOK, DecodeEvent, LogOK;
      assert Untouched(log, d.tag);
      DeadLetterFate(log, world.log, d, hasRetryer, config.maxRetries);
      FatesSettle(log, world.log, d, mine, nextTag, hasRetryer, config.maxRetries);
    }

    /** Commits and settles the whole batch, if there is one. */
    method Flush() returns (failed: bool)
      requires Configured() && Owes(world.v.mine, world.v.offered, batch) && Fair(batch)
      requires Chunked(world.log.calls, world.log.received, batch)
      requires SizesOK(world.log.calls, config.batchSize) && |batch| <= config.batchSize
      requires Balanced(metrics, |batch|) && Reported(metrics, world.log)
      modifies this, world
      ensures Configured() && old(world.steps) <= world.steps && world.budget == old(world.budget) && Judged()
      ensures hasRetryer ==> world.log.requeued == old(world.log.requeued)
      ensures world.log.broken == old(world.log.broken) + if failed then 1 else 0
      ensures world.log.inputs == old(world.log.inputs) && world.log.received == old(world.log.received)
      ensures world.log.calls == Flushed(Batching(EventsOf(old(batch)), old(world.log.calls))).calls
      ensures batch == [] && !timerArmed
      ensures !failed ==> AllSettled() && Ready() && Fair([])
    {
      hide Inv, IsRun, After, ViewOK, DecodeEvent, Orderly, FairLog, AllFates, Reported, Balanced;
      FairToNone(batch);
      timerArmed := false;
      failed := false;
      if |batch| > 0 {
        var current := batch;
        batch := [];
        failed := FlushBatch(current);
      }
      if !failed {
        ReadyAndEmptyIsSettled();
      }
    }

    method FlushBatch(ps: seq<Pending>) returns (failed: bool)
      requires Configured() && Owes(world.v.mine, world.v.offered, ps) && Fair(ps)
      requires Chunked(world.log.calls, world.log.received, ps)
      requires SizesOK(world.log.calls, config.batchSize) && 1 <= |ps| <= config.batchSize
      requires Balanced(metrics, |ps|) && Reported(metrics, world.log)
      modifies this`metrics, world
      ensures Configured() && old(world.steps) <= world.steps && world.budget == old(world.budget) && Judged()
      ensures hasRetryer ==> world.log.requeued == old(world.log.requeued)
      ensures world.log.broken == old(world.log.broken) + if failed then 1 else 0
      ensures world.log.inputs == old(world.log.inputs) && world.log.received == old(world.log.received)
      ensures world.log.calls == old(world.log.calls) + [EventsOf(ps)]
      ensures !failed ==>
        && Owes(world.v.mine, world.v.offered, []) && Chunked(world.log.calls, world.log.received, [])
        && SizesOK(world.log.calls, config.batchSize) && Balanced(metrics, 0) && Reported(metrics, world.log)
        && Fair([])
    {
      hide Inv, IsRun, After, ViewOK, LogOK, Orderly, DecodeEvent, FairLog, AllFates, Owes, Chunked, SizesOK;
      hide AllAnswered, Reported, Balanced;
      var storeFailed := AskStore(ps);
      label Asked:
      if storeFailed {
        failed := RetryBatch(ps);
        if !failed {
          StillReported(old@Asked(metrics), old@Asked(world.log));
        }
      } else {
        failed := AckAll(ps);
        if !failed {
          SameReport(old@Asked(world.log));
        }
      }
    }

    lemma StillReported(m: Counters, log: Log)
      requires Reported(m, log) && SameCounts(m, log, metrics, world.log)
      requires metrics == m.(dlq := metrics.dlq, requeue := metrics.requeue)
      requires world.log == log.(
        settled := world.log.settled, rejected := world.log.rejected, requeued := world.log.requeued,
        offers := world.log.offers, broken := world.log.broken)
      ensures Reported(metrics, world.log)
    {
      hide InvalidIn, Refusals, Taken;
    }

    lemma SameReport(log: Log)
      requires Reported(metrics, log)
      requires world.log == log.(settled := world.log.settled, broken := world.log.broken)
      ensures Reported(metrics, world.log)
    {
      hide InvalidIn, Refusals, Taken;
    }

    /** One store call with the whole batch. */
    method AskStore(ps: seq<Pending>) returns (storeFailed: bool)
      requires Configured() && Owes(world.v.mine, world.v.offered, ps) && Fair(ps)
      requires Chunked(world.log.calls, world.log.received, ps)
      requires SizesOK(world.log.calls, config.batchSize) && 1 <= |ps| <= config.batchSize
      requires Balanced(metrics, |ps|) && Reported(metrics, world.log)
      modifies this`metrics, world
      ensures Configured() && old(world.steps) <= world.steps && world.budget == old(world.budget)
      ensures world.log == old(world.log).(
        calls := old(world.log.calls) + [EventsOf(ps)], answers := old(world.log.answers) + [!storeFailed],
        inserted := world.log.inserted)
      ensures Owes(world.v.mine, world.v.offered, ps) && Fair(ps) && AllAnswered(ps, !storeFailed)
      ensures Chunked(world.log.calls, world.log.received, []) && SizesOK(world.log.calls, config.batchSize)
      ensures Balanced(metrics, if storeFailed then |ps| else 0) && Reported(metrics, world.log)
      ensures !storeFailed ==> forall e :: e in EventsOf(ps) ==> Recorded(world.s.db, e.eventID)
    {
      hide Inv, IsRun, After, ViewOK, LogOK, Orderly, DecodeEvent, FairLog, AllFates, Owes, AllAnswered, Recorded;
      hide InvalidIn, Refusals, Taken;
      CallTakesBatch(world.log.calls, world.log.received, ps);
      OwesFaithful(ps);
      ghost var log := world.log;
      var inserted;
      inserted, storeFailed := world.RecordClicks(EventsOf(ps));
      AnswerCounts(log, ps, storeFailed, inserted);
      metrics := metrics.(batches := metrics.batches + 1);
      if storeFailed {
        metrics := metrics.(failures := metrics.failures + 1);
      } else {
        metrics := metrics.(
          committed := metrics.committed + inserted, duplicate := metrics.duplicate + (|ps| - inserted));
      }
    }

    /** What the store's answer to a batch means for the log. */
    lemma AnswerCounts(log: Log, ps: seq<Pending>, storeFailed: bool, inserted: nat)
      requires FairLog(log, world.v.mine, DeliveriesOf(ps), hasRetryer, config.maxRetries)
      requires world.log == log.(calls := log.calls + [EventsOf(ps)], answers := log.answers + [!storeFailed],
                                 inserted := log.inserted + if storeFailed then 0 else inserted)
      ensures Fair(ps) && AllAnswered(ps, !storeFailed)
      ensures Refusals(world.log.answers) == Refusals(log.answers) + if storeFailed then 1 else 0
    {
      hide FateOK, OffersOf;
      FatesStay(log, world.log, hasRetryer, config.maxRetries);
      forall i | 0 <= i < |ps| ensures Answered(world.log, ps[i].event, !storeFailed) {
        assert EventsOf(ps)[i] == ps[i].event && world.log.calls[|log.calls|] == EventsOf(ps);
        assert world.log.answers[|log.calls|] == !storeFailed;
      }
      assert (log.answers + [!storeFailed])[..|log.answers|] == log.answers;
    }

    /** The store gave this answer to each of them. */
    ghost predicate AllAnswered(ps: seq<Pending>, ok: bool)
      reads world
    {
      forall i :: 0 <= i < |ps| ==> Answered(world.log, ps[i].event, ok)
    }

    /** The batch holds faithful copies of deliveries this process owes. */
    lemma OwesFaithful(ps: seq<Pending>)
      requires Configured() && Owes(world.v.mine, world.v.offered, ps)
      ensures forall e :: e in EventsOf(ps) ==> Ours(world.s, world.v, e)
    {
      hide Inv, IsRun, After, ViewOK, LogOK, DecodeEvent, MsgID, Orderly;
      forall e | e in EventsOf(ps) ensures Ours(world.s, world.v, e) {
        var i :| 0 <= i < |ps| && EventsOf(ps)[i] == e;
        assert OwesOne(world.v.mine, world.v.offered, ps[i]);
        OwedIsFaithful(world.s, world.v, world.R, ps[i]);
        assert MsgID(world.v.mine[ps[i].d.tag]) == e.eventID;
      }
    }

    /** Acknowledges a committed batch in order; stops at the first failing ack. */
    method AckAll(ps: seq<Pending>) returns (failed: bool)
      requires Configured() && Owes(world.v.mine, world.v.offered, ps) && Fair(ps) && AllAnswered(ps, true)
      requires forall e :: e in EventsOf(ps) ==> Recorded(world.s.db, e.eventID)
      modifies world
      ensures Configured() && old(world.steps) <= world.steps && world.budget == old(world.budget) && Judged()
      ensures world.log == old(world.log).(settled := world.log.settled, broken := world.log.broken)
      ensures world.log.broken == old(world.log.broken) + if failed then 1 else 0
      ensures !failed ==> Owes(world.v.mine, world.v.offered, []) && Fair([])
    {
      hide Inv, IsRun, After, ViewOK, LogOK, Orderly, DecodeEvent, MsgID, Recorded, Held, FairLog, Answered;
      hide AllFates;
      FairToNone(ps);
      ghost var committedAt, dbThen := world.steps, world.s.db;
      for i := 0 to |ps|
        invariant Configured() && committedAt <= world.steps && world.budget == old(world.budget)
        invariant world.log == old(world.log).(settled := world.log.settled)
        invariant Owes(world.v.mine, world.v.offered, ps[i..]) && Fair(ps) && AllAnswered(ps, true)
      {
        var p := ps[i];
        assert EventsOf(ps)[i] == p.event;
        OwesStep(world.v.mine, world.v.offered, ps, i);
        OwedIsFaithful(world.s, world.v, world.R, p);
        Later(world.start, committedAt, world.steps, world.R, p.event.eventID);
        failed := AckOne(p, ps);
        if failed {
          return;
        }
      }
      assert ps[|ps|..] == [];
      FairToNone(ps);
      failed := false;
    }

    /** One delivery whose batch was committed. */
    method AckOne(p: Pending, ghost ps: seq<Pending>) returns (failed: bool)
      requires Configured() && OwesOne(world.v.mine, world.v.offered, p) && p in ps
      requires Fair(ps) && AllAnswered(ps, true)
      requires Recorded(world.s.db, MsgID(world.v.mine[p.d.tag])) && MsgID(world.v.mine[p.d.tag]) != ""
      modifies world
      ensures Configured() && old(world.steps) <= world.steps && world.budget == old(world.budget) && Judged()
      ensures failed ==> world.log == old(world.log).(broken := old(world.log.broken) + 1)
      ensures !failed ==>
        && world.log == old(world.log).(settled := old(world.log.settled) + [p.d.tag])
        && world.v.mine == old(world.v.mine) - {p.d.tag} && world.v.offered == old(world.v.offered) - {p.d.tag}
        && Fair(ps) && AllAnswered(ps, true)
    {
      hide Inv, IsRun, After, ViewOK, Orderly, DecodeEvent, MsgID, Recorded, OffersOf, FateOK, Answered;
      ghost var log, mine, nextTag := world.log, world.v.mine, world.s.nextTag;
      failed := world.Ack(p.d.tag);
      if failed {
        FatesStay(log, world.log, hasRetryer, config.maxRetries);
      } else {
        assert Untouched(log, p.d.tag) && Answered(log, p.event, true);
        AckFate(log, world.log, p.d, p.event, hasRetryer, config.maxRetries);
        FatesSettle(log, world.log, p.d, mine, nextTag, hasRetryer, config.maxRetries);
        AnswersStay(log, ps, true);
      }
    }

    lemma AnswersStay(log: Log, ps: seq<Pending>, ok: bool)
      requires forall i :: 0 <= i < |ps| ==> Answered(log, ps[i].event, ok)
      requires world.log.calls == log.calls && world.log.answers == log.answers && |log.calls| == |log.answers|
      ensures AllAnswered(ps, ok)
    {
      hide Answered;
      forall i | 0 <= i < |ps| ensures Answered(world.log, ps[i].event, ok) {
        AnswerStays(log, world.log, ps[i].event, ok);
      }
    }

    /** Settles a batch the store refused, each delivery as it deserves. */
    method RetryBatch(ps: seq<Pending>) returns (failed: bool)
      requires Configured() && Owes(world.v.mine, world.v.offered, ps) && Balanced(metrics, |ps|)
      requires Fair(ps) && AllAnswered(ps, false)
      modifies this`metrics, world
      ensures Configured() && old(world.steps) <= world.steps && world.budget == old(world.budget) && Judged()
      ensures hasRetryer ==> world.log.requeued == old(world.log.requeued)
      ensures world.log == old(world.log).(
        settled := world.log.settled, rejected := world.log.rejected, requeued := world.log.requeued,
        offers := world.log.offers, broken := world.log.broken)
      ensures world.log.broken == old(world.log.broken) + if failed then 1 else 0
      ensures metrics == old(metrics).(dlq := metrics.dlq, requeue := metrics.requeue)
      ensures !failed ==> Owes(world.v.mine, world.v.offered, []) && Balanced(metrics, 0) && Fair([])
      ensures !failed ==> SameCounts(old(metrics), old(world.log), metrics, world.log)
    {
      hide Inv, IsRun, After, ViewOK, LogOK, Orderly, DecodeEvent, Owes, OwesOne, Fair, Judged, AllAnswered;
      assert ps[0..] == ps;
      for i := 0 to |ps|
        invariant Configured() && old(world.steps) <= world.steps && world.budget == old(world.budget)
        invariant world.log == old(world.log).(
          settled := world.log.settled, rejected := world.log.rejected, requeued := world.log.requeued,
          offers := world.log.offers)
        invariant Owes(world.v.mine, world.v.offered, ps[i..]) && Balanced(metrics, |ps| - i)
        invariant Fair(ps) && AllAnswered(ps, false)
        invariant hasRetryer ==> world.log.requeued == old(world.log.requeued)
        invariant metrics == old(metrics).(dlq := metrics.dlq, requeue := metrics.requeue)
        invariant SameCounts(old(metrics), old(world.log), metrics, world.log)
      {
        OwesStep(world.v.mine, world.v.offered, ps, i);
        failed := RetryOne(ps[i], ps);
        if failed {
          return;
        }
      }
      assert ps[|ps|..] == [];
      FairToNone(ps);
      failed := false;
    }

    lemma FairToNone(ps: seq<Pending>)
      requires Fair(ps)
      ensures Fair([]) && Judged()
    {
      hide AllFates, AllUntouched;
    }

    /** One delivery of a refused batch: dead-lettered at the last attempt, put back without a retryer, and else
        offered for its next attempt, and acknowledged or dead-lettered as the retryer answers. */
    method RetryOne(p: Pending, ghost ps: seq<Pending>) returns (failed: bool)
      requires Configured() && OwesOne(world.v.mine, world.v.offered, p) && p in ps
      requires Fair(ps) && AllAnswered(ps, false)
      modifies this`metrics, world
      ensures Configured() && old(world.steps) <= world.steps && world.budget == old(world.budget) && Judged()
      ensures failed ==> RetryBroke(old(world.log), world.log, p.d)
      ensures metrics == old(metrics).(dlq := metrics.dlq, requeue := metrics.requeue)
      ensures !failed ==>
        && world.v.mine == old(world.v.mine) - {p.d.tag} && world.v.offered == old(world.v.offered) - {p.d.tag}
        && Fair(ps) && AllAnswered(ps, false)
      ensures !failed ==> exists ok ::
        && RetryStep(old(world.log), world.log, p.d, hasRetryer, config.maxRetries, ok)
        && metrics == Recounted(old(metrics), p.d, ok)
    {
      hide Inv, IsRun, After, ViewOK, Orderly, DecodeEvent, OffersOf, FairLog, Answered, AllFates;
      ghost var log, mine, nextTag := world.log, world.v.mine, world.s.nextTag;
      ghost var ok;
      failed, ok := SettleRefused(p);
      RetryIsFair(p, ps, log, mine, nextTag, ok, failed);
    }

    /** The counters after one delivery of a refused batch. */
    function Recounted(m: Counters, d: Received, ok: bool): Counters {
      if RetryCount(d.header) + 1 >= config.maxRetries || (hasRetryer && !ok) then m.(dlq := m.dlq + 1)
      else m.(requeue := m.requeue + 1)
    }

    method SettleRefused(p: Pending) returns (failed: bool, ghost ok: bool)
      requires Configured() && OwesOne(world.v.mine, world.v.offered, p)
      modifies this`metrics, world
      ensures Configured() && old(world.steps) <= world.steps && world.budget == old(world.budget)
      ensures metrics == old(metrics).(dlq := metrics.dlq, requeue := metrics.requeue)
      ensures failed ==> RetryBroke(old(world.log), world.log, p.d)
      ensures !failed ==>
        && world.v.mine == old(world.v.mine) - {p.d.tag} && world.v.offered == old(world.v.offered) - {p.d.tag}
        && RetryStep(old(world.log), world.log, p.d, hasRetryer, config.maxRetries, ok)
        && metrics == Recounted(old(metrics), p.d, ok)
    {
      hide Inv, IsRun, After, ViewOK, LogOK, Orderly;
      OwedIsFaithful(world.s, world.v, world.R, p);
      ok := false;
      var attempt := RetryCount(p.d.header) + 1;
      if attempt >= config.maxRetries {
        metrics := metrics.(dlq := metrics.dlq + 1);
        failed := world.Reject(p.d.tag);
        return;
      }
      if !hasRetryer {
        failed := world.Nack(p.d.tag);
        if !failed {
          metrics := metrics.(requeue := metrics.requeue + 1);
        }
        return;
      }
      var retryFailed := world.Retry(p.d.tag, attempt);
      ok := !retryFailed;
      if retryFailed {
        metrics := metrics.(dlq := metrics.dlq + 1);
        failed := world.Reject(p.d.tag);
        return;
      }
      failed := world.Ack(p.d.tag);
      if !failed {
        metrics := metrics.(requeue := metrics.requeue + 1);
      }
    }

    lemma RetryIsFair(
        p: Pending, ps: seq<Pending>, log: Log, mine: map<nat, Msg>, nextTag: nat, ok: bool, failed: bool)
      requires p in ps && DecodeEvent(p.d.body) == Decoded(p.event) && p.d.tag in mine && LogOK(log, mine, nextTag)
      requires FairLog(log, mine, DeliveriesOf(ps), hasRetryer, config.maxRetries)
      requires forall i :: 0 <= i < |ps| ==> Answered(log, ps[i].event, false)
      requires failed ==> RetryBroke(log, world.log, p.d)
      requires !failed ==>
        && RetryStep(log, world.log, p.d, hasRetryer, config.maxRetries, ok) && world.v.mine == mine - {p.d.tag}
      ensures Judged() && (!failed ==> Fair(ps) && AllAnswered(ps, false))
    {
      hide OffersOf, FateOK, Answered, DecodeEvent;
      OthersSame(log, world.log, p.d, hasRetryer, config.maxRetries, ok);
      if failed {
        FatesBreak(log, world.log, p.d, mine, nextTag, hasRetryer, config.maxRetries);
      } else {
        RetryFate(log, world.log, p.d, p.event, hasRetryer, config.maxRetries, ok);
        FatesSettle(log, world.log, p.d, mine, nextTag, hasRetryer, config.maxRetries);
        AnswersStay(log, ps, false);
      }
    }
  }

  /** The counters moved with what was dead-lettered, put back and rescheduled. */
  predicate SameCounts(m: Counters, log: Log, n: Counters, after: Log) {
    && n.dlq - m.dlq == |after.rejected| - |log.rejected|
    && n.requeue - m.requeue == |after.requeued| + Taken(after.offers) - |log.requeued| - Taken(log.offers)
  }

  lemma OneMoreEvent(ps: seq<Pending>, p: Pending)
    ensures EventsOf(ps + [p]) == EventsOf(ps) + [p.event]
  {
  }
}
