// Publishing with confirmations over a connection that may fail at any point, and the synchronous fallback.

module Publisher {
  import opened Wrappers
  import opened Models
  import opened Payload
  import opened Pipeline
  import opened Process
  import World

  const MAX_CONNECT_ATTEMPTS: int := 2

  /** A message sent on a confirming channel. `queued` says whether the broker stored it. */
  datatype Sent = Sent(id: string, queued: bool)

  datatype Confirmation = Confirmed | Refused | TimedOut | ChannelClosed

  /** The broker side of a publisher: every call may fail, and confirmations come in the order of sending. */
  class Broker {
    const world: World.World
    var next: nat
    var conns: set<nat>
    /** The messages sent on each open channel whose confirmation nobody has read yet. */
    var channels: map<nat, seq<Sent>>
    ghost var dials: nat
    ghost var closes: nat
    /** Calls of Send, and those that reported success. */
    ghost var tries: nat
    ghost var sends: nat
    /** Calls that went wrong, or brought no positive confirmation. */
    ghost var faults: nat
    /** Contexts that expired after an attempt went wrong. */
    ghost var expiries: nat

    constructor (world: World.World)
      ensures this.world == world && conns == {} && channels == map[]
      ensures dials == closes == 0 && tries == sends == faults == expiries == 0
      ensures world.Valid() ==> Valid()
    {
      this.world := world;
      next, conns, channels := 0, {}, map[];
      dials, closes, tries, sends, faults, expiries := 0, 0, 0, 0, 0, 0;
    }

    /** A stored message is held by the pipeline; connections in use are those dialled and not closed. */
    ghost predicate Valid()
      reads this, world
    {
      && world.Valid()
      && (forall h :: h in conns || h in channels ==> h < next)
      && dials == closes + |conns|
      && (forall ch, i :: ch in channels && 0 <= i < |channels[ch]| && channels[ch][i].queued ==>
            channels[ch][i].id != "" && Held(world.s, channels[ch][i].id))
    }

    /** The pipeline moved on: what was held still is. */
    twostate lemma StillHeld(id: string)
      requires old(world.Valid()) && world.Valid() && old(world.steps) <= world.steps
      requires id != "" && Held(old(world.s), id)
      ensures Held(world.s, id)
    {
      hide Inv, ViewOK, LogOK, Held;
      Later(world.start, old(world.steps), world.steps, world.R, id);
    }

    twostate lemma StillValid()
      requires old(Valid()) && unchanged(this) && world.Valid() && old(world.steps) <= world.steps
      ensures Valid()
    {
      hide Held, World.World.Valid;
      forall ch, i | ch in channels && 0 <= i < |channels[ch]| && channels[ch][i].queued
        ensures channels[ch][i].id != "" && Held(world.s, channels[ch][i].id)
      {
        StillHeld(channels[ch][i].id);
      }
    }

    /** Whether the event can be encoded and the publisher is free before the context expires. */
    method Admit() returns (ready: bool)
      requires Valid()
      modifies this`faults
      ensures Valid() && faults == old(faults) + if ready then 0 else 1
    {
      hide World.World.Valid, Held;
      ready := *;
      faults := faults + if ready then 0 else 1;
    }

    /** Whether the context has expired meanwhile. */
    method Expired() returns (over: bool)
      requires Valid()
      modifies this`expiries
      ensures Valid() && expiries == old(expiries) + if over then 1 else 0
    {
      hide World.World.Valid, Held;
      over := *;
      expiries := expiries + if over then 1 else 0;
    }

    method Dial() returns (conn: Option<nat>)
      requires Valid()
      modifies this`next, this`conns, this`dials, this`faults
      ensures Valid() && faults == old(faults) + if conn == None then 1 else 0
      ensures conn == None ==> conns == old(conns) && dials == old(dials)
      ensures conn.Some? ==> conn.value !in old(conns) && conns == old(conns) + {conn.value} && dials == old(dials) + 1
    {
      hide World.World.Valid, Held;
      conn := None;
      var ok: bool := *;
      if ok {
        conn := Some(next);
        conns, dials, next := conns + {next}, dials + 1, next + 1;
      } else {
        faults := faults + 1;
      }
    }

    method NewChannel(conn: nat) returns (channel: Option<nat>)
      requires Valid() && conn in conns
      modifies this`next, this`channels, this`faults
      ensures Valid() && faults == old(faults) + if channel == None then 1 else 0
      ensures channel == None ==> channels == old(channels)
      ensures channel.Some? ==> channel.value !in old(channels) && channels == old(channels)[channel.value := []]
    {
      hide World.World.Valid, Held;
      channel := None;
      var ok: bool := *;
      if ok {
        channel := Some(next);
        channels, next := channels[next := []], next + 1;
      } else {
        faults := faults + 1;
      }
    }

    /** Exchange, queue and binding declarations, and switching the channel to confirm mode. */
    method Prepare(channel: nat) returns (failed: bool)
      requires Valid() && channel in channels
      modifies this`faults
      ensures Valid() && faults == old(faults) + if failed then 1 else 0
    {
      hide World.World.Valid, Held;
      failed := *;
      faults := faults + if failed then 1 else 0;
    }

    method CloseChannel(channel: nat)
      requires Valid() && channel in channels
      modifies this`channels
      ensures Valid() && channels == old(channels) - {channel}
    {
      hide World.World.Valid, Held;
      channels := channels - {channel};
    }

    method CloseConn(conn: nat)
      requires Valid() && conn in conns
      modifies this`conns, this`closes
      ensures Valid() && conns == old(conns) - {conn} && closes == old(closes) + 1
    {
      hide World.World.Valid, Held;
      conns, closes := conns - {conn}, closes + 1;
    }

    /** A failed send may still have reached the broker. */
    method Send(channel: nat, m: Msg) returns (failed: bool)
      requires Valid() && channel in channels && m.header == NoHeader
      requires var r := DecodeEvent(m.body);
               r.Decoded? && IsCopy(world.s.issued, r.event) && MsgID(m) in world.v.holding && MsgID(m) != ""
      modifies this`channels, this`tries, this`sends, this`faults, world`s, world`steps, world`v, world`orderly
      ensures Valid() && old(world.steps) <= world.steps && faults == old(faults) + if failed then 1 else 0
      ensures world.v.holding == old(world.v.holding) && world.v.mine == old(world.v.mine)
      ensures tries == old(tries) + 1 && sends == old(sends) + if failed then 0 else 1
      ensures failed ==> channels == old(channels)
      ensures !failed ==> exists queued ::
        channels == old(channels)[channel := old(channels)[channel] + [Sent(MsgID(m), queued)]]
    {
      hide World.World.Valid, Held, IsCopy, DecodeEvent, MsgID;
      var queued := world.Accept(m);
      StillValid();
      failed, tries := *, tries + 1;
      if !failed {
        channels := channels[channel := channels[channel] + [Sent(MsgID(m), queued)]];
        sends := sends + 1;
      } else {
        faults := faults + 1;
      }
    }

    /** The next confirmation of the channel belongs to its oldest unread message; a positive one means that
        the broker stored that message. */
    method Await(channel: nat) returns (c: Confirmation)
      requires Valid() && channel in channels && channels[channel] != []
      modifies this`channels, this`faults
      ensures Valid() && faults == old(faults) + if c.Confirmed? then 0 else 1
      ensures c.Confirmed? ==> old(channels)[channel][0].queued
      ensures c.Confirmed? || c.Refused? ==>
        channels == old(channels)[channel := old(channels)[channel][1..]]
      ensures c.TimedOut? || c.ChannelClosed? ==> channels == old(channels)
    {
      hide World.World.Valid, Held;
      c := *;
      if c.Confirmed? && !channels[channel][0].queued {
        c := TimedOut;
      }
      if c.Confirmed? || c.Refused? {
        channels := channels[channel := channels[channel][1..]];
      }
      faults := faults + if c.Confirmed? then 0 else 1;
    }
  }

  datatype Counters = Counters(attempts: nat, failures: nat, confirmed: nat, refused: nat, fallbacks: nat)

  /** Every attempt failed or was confirmed, and only failures count a missing confirmation. */
  predicate Balanced(m: Counters) {
    m.attempts == m.failures + m.confirmed && m.refused <= m.failures
  }

  class RabbitMQPublisher {
    const broker: Broker
    /** scrubURL, applied to the two URLs of an event */
    const scrub: string -> string
    var conn: Option<nat>
    var channel: Option<nat>
    var metrics: Counters

    constructor (broker: Broker, scrub: string -> string)
      requires broker.Valid() && broker.conns == {} && broker.channels == map[]
      ensures this.broker == broker && this.scrub == scrub && Valid() && conn == None
      ensures metrics == Counters(0, 0, 0, 0, 0)
    {
      this.broker, this.scrub := broker, scrub;
      conn, channel := None, None;
      metrics := Counters(0, 0, 0, 0, 0);
    }

    /** An open channel has no unread confirmation, and the one connection in use is the only one open. */
    ghost predicate Valid()
      reads this, broker, broker.world
    {
      broker.Valid() && Tidy(conn, channel, broker.conns, broker.channels) && Balanced(metrics)
    }

    ghost predicate Idle()
      reads this, broker, broker.world
    {
      Valid() && conn == None && broker.conns == {}
    }

    method EnsureChannel() returns (failed: bool)
      requires Valid()
      modifies this`conn, this`channel, broker
      ensures Valid() && broker.tries == old(broker.tries) && broker.sends == old(broker.sends)
      ensures broker.expiries == old(broker.expiries)
      ensures broker.dials <= old(broker.dials) + 1
      ensures !failed ==> channel.Some? && broker.faults == old(broker.faults)
      ensures failed ==> conn == None && broker.faults == old(broker.faults) + 1
    {
      hide Broker.Valid;
      failed := false;
      if channel.Some? {
        return;
      }
      var dialled := broker.Dial();
      if dialled == None {
        return true;
      }
      var handle := broker.NewChannel(dialled.value);
      if handle == None {
        broker.CloseConn(dialled.value);
        return true;
      }
      failed := broker.Prepare(handle.value);
      if failed {
        broker.CloseChannel(handle.value);
        broker.CloseConn(dialled.value);
        return;
      }
      conn, channel := dialled, handle;
    }

    method Reset()
      requires broker.Valid() && Balanced(metrics) && InUse(conn, channel, broker.conns, broker.channels)
      modifies this`conn, this`channel, broker`channels, broker`conns, broker`closes
      ensures Idle()
    {
      hide Broker.Valid;
      if channel.Some? {
        broker.CloseChannel(channel.value);
      }
      if conn.Some? {
        broker.CloseConn(conn.value);
      }
      conn, channel := None, None;
    }

    /** The message is a faithful copy of an issued event this process holds. */
    ghost predicate Sendable(m: Msg)
      reads broker.world
    {
      var r := DecodeEvent(m.body);
      && m.header == NoHeader && r.Decoded? && IsCopy(broker.world.s.issued, r.event)
      && MsgID(m) in broker.world.v.holding && MsgID(m) != ""
    }

    twostate lemma StaysSendable(m: Msg)
      requires old(broker.world.Valid()) && broker.world.Valid() && old(broker.world.steps) <= broker.world.steps
      requires old(Sendable(m)) && broker.world.v.holding == old(broker.world.v.holding)
      ensures Sendable(m)
    {
      hide Inv, ViewOK, LogOK, DecodeEvent, MsgID, IsCopy;
      var w := broker.world;
      IssuedLater(w.start, old(w.steps), w.steps, w.R, DecodeEvent(m.body).event);
    }

    /** Tries to get the message out at most twice, and never again once a send went through: a lost
        confirmation is reported, not repeated. It gives up only when a confirmation is missing, when the context
        has expired after an attempt went wrong, or when both attempts have. */
    method Transmit(m: Msg) returns (failed: bool)
      requires Valid() && Sendable(m)
      modifies this`conn, this`channel, this`metrics, broker
      modifies broker.world`s, broker.world`steps, broker.world`v, broker.world`orderly
      ensures broker.Valid() && Tidy(conn, channel, broker.conns, broker.channels)
      ensures metrics == old(metrics).(confirmed := metrics.confirmed, refused := metrics.refused)
      ensures metrics.confirmed == old(metrics.confirmed) + if failed then 0 else 1
      ensures old(metrics.refused) <= metrics.refused <= old(metrics.refused) + if failed then 1 else 0
      ensures old(broker.world.steps) <= broker.world.steps
      ensures broker.world.v.holding == old(broker.world.v.holding)
      ensures broker.dials <= old(broker.dials) + MAX_CONNECT_ATTEMPTS
      ensures broker.tries <= old(broker.tries) + MAX_CONNECT_ATTEMPTS && broker.sends <= old(broker.sends) + 1
      ensures !failed ==> Held(broker.world.s, MsgID(m)) && conn.Some?
      ensures failed ==> broker.faults > old(broker.faults)
      ensures failed && broker.expiries == old(broker.expiries) && broker.sends == old(broker.sends) ==>
        broker.faults == old(broker.faults) + MAX_CONNECT_ATTEMPTS
    {
      hide Broker.Valid, Held, Sendable;
      failed := true;
      for attempt := 1 to MAX_CONNECT_ATTEMPTS + 1
        invariant Valid() && Sendable(m) && failed && metrics == old(metrics)
        invariant old(broker.world.steps) <= broker.world.steps && broker.world.v.holding == old(broker.world.v.holding)
        invariant broker.dials < old(broker.dials) + attempt && broker.tries < old(broker.tries) + attempt
        invariant broker.sends == old(broker.sends) && broker.faults == old(broker.faults) + attempt - 1
        invariant broker.expiries == old(broker.expiries)
      {
        var noChannel := EnsureChannel();
        var notSent := true;
        if !noChannel {
          notSent := SendOne(m);
        }
        if notSent {
          Reset();
          var over := broker.Expired();
          if over || attempt == MAX_CONNECT_ATTEMPTS {
            return;
          }
        } else {
          failed := AwaitOne(MsgID(m));
          return;
        }
      }
    }

    method SendOne(m: Msg) returns (failed: bool)
      requires Valid() && channel.Some? && Sendable(m)
      modifies broker`channels, broker`tries, broker`sends, broker`faults
      modifies broker.world`s, broker.world`steps, broker.world`v, broker.world`orderly
      ensures broker.Valid() && Sendable(m) && InUse(conn, channel, broker.conns, broker.channels)
      ensures old(broker.world.steps) <= broker.world.steps
      ensures broker.world.v.holding == old(broker.world.v.holding)
      ensures broker.tries == old(broker.tries) + 1 && broker.expiries == old(broker.expiries)
      ensures broker.sends == old(broker.sends) + if failed then 0 else 1
      ensures broker.faults == old(broker.faults) + if failed then 1 else 0
      ensures !failed ==> |broker.channels[channel.value]| == 1 && broker.channels[channel.value][0].id == MsgID(m)
    {
      hide Held, DecodeEvent, MsgID, IsCopy, World.World.Valid;
      failed := broker.Send(channel.value, m);
      StaysSendable(m);
    }

    /** Reads the one outstanding confirmation. Anything but a positive one drops the connection. */
    method AwaitOne(id: string) returns (failed: bool)
      requires broker.Valid() && Balanced(metrics) && InUse(conn, channel, broker.conns, broker.channels)
      requires channel.Some? && |broker.channels[channel.value]| == 1 && broker.channels[channel.value][0].id == id
      modifies this`conn, this`channel, this`metrics
      modifies broker`channels, broker`conns, broker`closes, broker`faults
      ensures broker.faults == old(broker.faults) + if failed then 1 else 0
      ensures broker.Valid() && Tidy(conn, channel, broker.conns, broker.channels)
      ensures failed ==> metrics == old(metrics).(refused := old(metrics.refused) + 1)
      ensures !failed ==> metrics == old(metrics).(confirmed := old(metrics.confirmed) + 1)
      ensures !failed ==> Held(broker.world.s, id) && conn.Some?
    {
      hide Held, World.World.Valid;
      var c := broker.Await(channel.value);
      failed := !c.Confirmed?;
      if failed {
        Reset();
        metrics := metrics.(refused := metrics.refused + 1);
      } else {
        metrics := metrics.(confirmed := metrics.confirmed + 1);
      }
    }

    /** A nil error means that the pipeline holds the event. It fails only if a broker call went wrong, the event
        could not be encoded, or the context expired before the publisher was free. */
    method Publish(e: ClickEvent) returns (failed: bool)
      requires Valid() && IsCopy(broker.world.s.issued, e) && e.eventID in broker.world.v.holding
      modifies this`conn, this`channel, this`metrics, broker
      modifies broker.world`s, broker.world`steps, broker.world`v, broker.world`orderly
      ensures Valid() && old(broker.world.steps) <= broker.world.steps
      ensures broker.world.v.holding == old(broker.world.v.holding)
      ensures broker.dials <= old(broker.dials) + MAX_CONNECT_ATTEMPTS
      ensures broker.tries <= old(broker.tries) + MAX_CONNECT_ATTEMPTS && broker.sends <= old(broker.sends) + 1
      ensures metrics.attempts == old(metrics.attempts) + 1 && metrics.fallbacks == old(metrics.fallbacks)
      ensures metrics.failures == old(metrics.failures) + if failed then 1 else 0
      ensures !failed ==> Held(broker.world.s, e.eventID)
      ensures failed ==> broker.faults > old(broker.faults)
    {
      hide World.World.Valid, Held, IsCopy, DecodeEvent, MarshalEvent;
      var ready := broker.Admit();
      failed := true;
      if ready {
        var m := Msg(Some(MarshalEvent(e, scrub)), NoHeader);
        PublishedCopy(e);
        failed := Transmit(m);
      }
      metrics := metrics.(attempts := metrics.attempts + 1, failures := metrics.failures + if failed then 1 else 0);
    }

    lemma PublishedCopy(e: ClickEvent)
      requires broker.world.Valid() && IsCopy(broker.world.s.issued, e) && e.eventID in broker.world.v.holding
      ensures var m := Msg(Some(MarshalEvent(e, scrub)), NoHeader); Sendable(m) && MsgID(m) == e.eventID
    {
      hide ViewOK, LogOK, DecodeEvent, MarshalEvent;
      IssuedIDsNonEmpty(broker.world.s, broker.world.R, e);
      MarshalDecode(e, scrub);
    }

    method Close()
      requires Valid()
      modifies this`conn, this`channel, broker`channels, broker`conns, broker`closes
      ensures Idle()
    {
      Reset();
    }
  }

  class Recorder {
    const world: World.World
    const publisher: RabbitMQPublisher?

    constructor (world: World.World, publisher: RabbitMQPublisher?)
      requires publisher != null ==> publisher.broker.world == world
      ensures this.world == world && this.publisher == publisher
    {
      this.world, this.publisher := world, publisher;
    }

    ghost function Footprint(): set<object> {
      {world} + if publisher == null then {} else {publisher, publisher.broker}
    }

    /** The publisher belongs to this recorder alone, so each of its failures led to one fallback. */
    ghost predicate Valid()
      reads Footprint()
    {
      world.Valid() &&
      (publisher != null ==>
         && publisher.broker.world == world && publisher.Valid()
         && publisher.metrics.fallbacks == publisher.metrics.failures)
    }

    /** The pipeline moved on and nothing else changed. */
    twostate lemma StillValid()
      requires old(Valid()) && world.Valid() && old(world.steps) <= world.steps
      requires publisher != null ==> unchanged(publisher) && unchanged(publisher.broker)
      ensures Valid()
    {
      hide World.World.Valid, Held;
      if publisher != null {
        publisher.broker.StillValid();
      }
    }

    twostate lemma StillCopy(e: ClickEvent)
      requires old(world.Valid()) && world.Valid() && old(world.steps) <= world.steps && IsCopy(old(world.s.issued), e)
      ensures IsCopy(world.s.issued, e)
    {
      hide Inv, ViewOK, LogOK, IsCopy;
      IssuedLater(world.start, old(world.steps), world.steps, world.R, e);
    }

    method Write(e: ClickEvent, increment: bool, maxClicks: Option<int>)
      returns (ok: bool, failed: bool, ghost told: World.Told)
      requires Valid() && IsCopy(world.s.issued, e.(increment := increment)) && e.eventID in world.v.holding
      modifies world`s, world`steps, world`v, world`orderly, world`asked
      ensures Valid() && old(world.steps) <= world.steps && world.v.holding == old(world.v.holding)
      ensures world.asked == old(world.asked) + [World.Asked(e, increment, maxClicks, ok, failed)]
      ensures ok && !failed ==> Held(world.s, e.eventID)
      ensures !ok && !failed ==> World.Refuses(world.s.db, e, increment, maxClicks)
      ensures !told.published && World.AnswerOK(told, e, increment, maxClicks, ok, failed)
      ensures world.Passed(old(world.steps), told.before)
    {
      hide World.World.Valid, IsCopy, World.Refuses, World.Unknown, World.World.Passed;
      ok, failed, told := world.RecordClick(e, increment, maxClicks);
      StillValid();
    }

    /** (true, nil) means that the pipeline holds the event, whichever way it took, and (false, nil) that the store
        refused it. Events of links with a click limit are never published: the store is asked, and its answer is the
        answer. Without a limit the event is published, and the store is asked, for the event under the same id, only
        if that fails. */
    method Record(event: ClickEvent, increment: bool, maxClicks: Option<int>)
      returns (ok: bool, failed: bool, ghost told: World.Told)
      requires Valid() && IsCopy(world.s.issued, event.(increment := increment)) && event.eventID in world.v.holding
      modifies Footprint()
      ensures Valid() && old(world.steps) <= world.steps && world.v.holding == old(world.v.holding)
      ensures ok && !failed ==> Held(world.s, event.eventID)
      ensures Answers(old(world.asked), world.asked, event, increment, maxClicks, ok, failed, told)
      ensures !ok && !failed ==> World.Refuses(world.s.db, event, increment, maxClicks)
      ensures !told.published ==> world.Passed(old(world.steps), told.before)
      ensures publisher == null || maxClicks.Some? ==> !told.published
      ensures publisher != null && maxClicks.Some? ==> unchanged(publisher) && unchanged(publisher.broker)
      ensures publisher != null && maxClicks == None ==>
        && publisher.metrics.attempts == old(publisher.metrics.attempts) + 1
        && publisher.metrics.failures == old(publisher.metrics.failures) + (if told.published then 0 else 1)
        && publisher.broker.sends <= old(publisher.broker.sends) + 1
        && (!told.published ==> publisher.broker.faults > old(publisher.broker.faults))
    {
      hide World.World.Valid, IsCopy, Held, World.Refuses, World.Unknown;
      var e := event.(increment := increment);
      assert e.(increment := increment) == e;
      SameRefusal(event, increment);
      if publisher == null || maxClicks.Some? {
        ok, failed, told := Write(e, increment, maxClicks);
        return;
      }
      var publishFailed := publisher.Publish(e);
      if !publishFailed {
        return true, false, World.Told(true, world.s.db, false);
      }
      publisher.metrics := publisher.metrics.(fallbacks := publisher.metrics.fallbacks + 1);
      StillCopy(e);
      ok, failed, told := Write(e, increment, None);
    }
  }

  /** A published click was accepted without asking the store; else the store was asked exactly once, for this click
      under its id, and its answer is the answer. */
  predicate Answers(
      before: seq<World.Asked>, after: seq<World.Asked>, event: ClickEvent, increment: bool, maxClicks: Option<int>,
      ok: bool, failed: bool, told: World.Told)
  {
    if told.published then ok && !failed && after == before
    else
      && after == before + [World.Asked(event.(increment := increment), increment, maxClicks, ok, failed)]
      && World.AnswerOK(told, event, increment, maxClicks, ok, failed)
  }

  lemma SameRefusal(event: ClickEvent, increment: bool)
    ensures forall t, limit ::
      World.Refuses(t, event.(increment := increment), increment, limit) <==>
      World.Refuses(t, event, increment, limit)
    ensures forall t :: World.Unknown(t, event.(increment := increment)) == World.Unknown(t, event)
  {
  }

  ghost predicate InUse(conn: Option<nat>, channel: Option<nat>, conns: set<nat>, channels: map<nat, seq<Sent>>) {
    && conns == (if conn.Some? then {conn.value} else {})
    && channels.Keys == (if channel.Some? then {channel.value} else {})
    && (channel.Some? <==> conn.Some?)
  }

  ghost predicate Tidy(conn: Option<nat>, channel: Option<nat>, conns: set<nat>, channels: map<nat, seq<Sent>>) {
    InUse(conn, channel, conns, channels) && (channel.Some? ==> channels[channel.value] == [])
  }
}
