// The two processes of a deployment, put together: the web server, whose redirects are tracked, and the analytics
// worker on the same queues and tables.

module Server {
  import opened Models
  import opened Links
  import opened Payload
  import opened Ledger
  import opened Pipeline
  import opened PipelineLaws
  import opened Process
  import Fates
  import Redirect
  import Publisher
  import Tracking
  import Worker
  import World

  /** A visit that found its link. */
  datatype Hit = Hit(link: Link, request: Redirect.Request, now: Time)

  /** What became of a visit: its answer, its event id and the outcome of its tracking. */
  datatype Served = Served(answer: Redirect.Answer, id: string, outcome: Redirect.Tracked)

  predicate AllVisitable(hits: seq<Hit>) {
    forall i :: 0 <= i < |hits| ==> Tracking.Visitable(hits[i].link, hits[i].request)
  }

  /** Every visit was answered as its outcome demands, and each click that counted is held. */
  ghost predicate AllHeld(s: State, hits: seq<Hit>, served: seq<Served>, libs: Redirect.Libs) {
    |served| <= |hits| && forall i :: 0 <= i < |served| ==> HeldHit(s, hits[i], served[i], libs)
  }

  ghost predicate HeldHit(s: State, h: Hit, v: Served, libs: Redirect.Libs) {
    && v.answer == Redirect.Visit(h.link, h.request, h.now, libs, Tracking.Always(v.outcome)).0
    && (CountedHit(h, v) ==> v.id != "" && Held(s, v.id))
  }

  ghost predicate CountedHit(h: Hit, v: Served) {
    Tracking.Forwards(h.link, h.request, h.now) && v.outcome == Redirect.Counted
  }

  lemma NothingServed(s: State, hits: seq<Hit>, libs: Redirect.Libs)
    ensures AllHeld(s, hits, [], libs)
  {
  }

  /** What is held at some point of a run is held later. */
  lemma HeldLater(
      start: State, a: seq<Step>, b: seq<Step>, R: nat, hits: seq<Hit>, served: seq<Served>, libs: Redirect.Libs)
    requires a <= b && IsRun(start, b, R) && IsRun(start, a, R)
    requires AllHeld(After(start, a, R), hits, served, libs)
    ensures AllHeld(After(start, b, R), hits, served, libs)
  {
    hide IsRun, After, Held, CountedHit;
    forall i | 0 <= i < |served| ensures HeldHit(After(start, b, R), hits[i], served[i], libs) {
      assert HeldHit(After(start, a, R), hits[i], served[i], libs);
      if CountedHit(hits[i], served[i]) {
        Later(start, a, b, R, served[i].id);
      }
    }
  }

  /** The visits served so far and one more. */
  lemma ServedOneMore(
      start: State, a: seq<Step>, b: seq<Step>, R: nat, hits: seq<Hit>, served: seq<Served>, one: Served,
      libs: Redirect.Libs)
    requires a <= b && IsRun(start, b, R) && IsRun(start, a, R)
    requires AllHeld(After(start, a, R), hits, served, libs)
    requires |served| < |hits| && HeldHit(After(start, b, R), hits[|served|], one, libs)
    ensures AllHeld(After(start, b, R), hits, served + [one], libs)
  {
    hide IsRun, After, HeldHit;
    HeldLater(start, a, b, R, hits, served, libs);
  }

  lemma IDsAreNamed(random: seq<Byte>)
    requires |random| == 16
    ensures NewEventID(random) != ""
  {
    hide NewEventID, ValidUUID, Canonical;
    MintedIDsAreValid(random);
    ValidUUIDShape(NewEventID(random));
  }

  /** The publisher and its recorder, if the queue is enabled. */
  method Connect(world: World.World, useQueue: bool, scrub: string -> string) returns (recorder: Publisher.Recorder)
    requires world.Valid()
    ensures fresh(recorder) && recorder.world == world && recorder.Valid()
    ensures recorder.publisher != null <==> useQueue
    ensures fresh(recorder.Footprint() - {world})
  {
    hide World.World.Valid, Publisher.Broker.Valid, Publisher.RabbitMQPublisher.Valid;
    var publisher: Publisher.RabbitMQPublisher? := null;
    if useQueue {
      var broker := new Publisher.Broker(world);
      publisher := new Publisher.RabbitMQPublisher(broker, scrub);
    }
    recorder := new Publisher.Recorder(world, publisher);
  }

  /** The id these bytes make is already in use. */
  predicate Collides(s: State, random: seq<Byte>) {
    |random| == 16 && (NewEventID(random) in s.issued || NewEventID(random) in s.closed)
  }

  /** One more visit, unless the id generated for it is not new. */
  method ServeOne(tracker: Tracking.Tracker, hits: seq<Hit>, served: seq<Served>, libs: Redirect.Libs)
    returns (more: seq<Served>, ghost drawn: seq<Byte>)
    requires tracker.recorder.Valid() && tracker.world == tracker.recorder.world
    requires AllVisitable(hits) && |served| < |hits| && AllHeld(tracker.world.s, hits, served, libs)
    modifies tracker.recorder.Footprint()
    ensures tracker.recorder.Valid() && old(tracker.world.steps) <= tracker.world.steps
    ensures AllHeld(tracker.world.s, hits, more, libs)
    ensures |more| == |served| + 1 || (more == served && Collides(tracker.world.s, drawn))
  {
    hide World.World.Valid, AllHeld, Held, Tracking.Visitable, NewEventID;
    var world, hit := tracker.world, hits[|served|];
    assert |seq(16, i => 0 as Byte)| == 16;
    var random: seq<Byte> :| |random| == 16;
    drawn := random;
    var id := NewEventID(random);
    if id in world.s.issued || id in world.s.closed {
      return served, drawn;
    }
    world.Here();
    ghost var before := world.steps;
    var answer, outcome;
    ghost var told;
    answer, outcome, told := tracker.Serve(hit.link, hit.request, random, hit.now, libs);
    var one := Served(answer, id, outcome);
    IDsAreNamed(random);
    world.Here();
    ServedOneMore(world.start, before, world.steps, world.R, hits, served, one, libs);
    more := served + [one];
  }

  /** One visit after the other, as long as the generated ids are new. */
  method ServeAll(tracker: Tracking.Tracker, hits: seq<Hit>, libs: Redirect.Libs)
    returns (served: seq<Served>, ghost drawn: seq<Byte>)
    requires tracker.recorder.Valid() && tracker.world == tracker.recorder.world && AllVisitable(hits)
    modifies tracker.recorder.Footprint()
    ensures tracker.recorder.Valid() && old(tracker.world.steps) <= tracker.world.steps
    ensures AllHeld(tracker.world.s, hits, served, libs)
    ensures |served| == |hits| || Collides(tracker.world.s, drawn)
  {
    hide World.World.Valid, AllHeld, AllVisitable, Publisher.Recorder.Valid, Collides;
    served, drawn := [], [];
    NothingServed(tracker.world.s, hits, libs);
    for i := 0 to |hits|
      invariant |served| == i && tracker.recorder.Valid()
      invariant old(tracker.world.steps) <= tracker.world.steps
      invariant AllHeld(tracker.world.s, hits, served, libs)
    {
      served, drawn := ServeOne(tracker, hits, served, libs);
      if |served| == i {
        break;
      }
    }
  }

  /** The web server, while all others do as they like. */
  method RunServer(world: World.World, useQueue: bool, hits: seq<Hit>, libs: Redirect.Libs, scrub: string -> string)
    returns (served: seq<Served>, ghost drawn: seq<Byte>)
    requires world.Valid() && AllVisitable(hits)
    modifies world
    ensures world.Valid() && old(world.steps) <= world.steps
    ensures AllHeld(world.s, hits, served, libs)
    ensures |served| == |hits| || Collides(world.s, drawn)
  {
    hide World.World.Valid, Publisher.RabbitMQPublisher.Valid, AllHeld, AllVisitable;
    var recorder := Connect(world, useQueue, scrub);
    var tracker := new Tracking.Tracker(recorder);
    served, drawn := ServeAll(tracker, hits, libs);
    Disconnect(recorder);
  }

  /** No connection to the broker stays open. */
  method Disconnect(recorder: Publisher.Recorder)
    requires recorder.Valid()
    modifies recorder.Footprint() - {recorder.world}
    ensures recorder.Valid() && unchanged(recorder.world)
    ensures recorder.publisher != null ==> recorder.publisher.Idle()
  {
    hide World.World.Valid, Publisher.Broker.Valid;
    if recorder.publisher != null {
      recorder.publisher.Close();
    }
  }

  /** A worker with the defaults and a retryer. */
  method NewWorker(world: World.World) returns (worker: Worker.Worker)
    requires world.Valid() && world.R == Worker.DEFAULT_MAX_RETRIES
    requires world.v == View(true, map[], {}, {}, {}) && world.log == EMPTY_LOG
    ensures fresh(worker) && worker.world == world && worker.hasRetryer && worker.batch == [] && worker.Ready()
    ensures worker.Fair(worker.batch) && worker.OnTime(world.log.inputs)
    ensures worker.config == Worker.Config(200, 250, 5)
  {
    hide World.World.Valid, Worker.Worker.Ready;
    worker := new Worker.Worker(world, true, Worker.Config(0, 0, 0));
    worker.FreshIsReady();
  }

  /** The analytics worker, with the defaults and a retryer, on a process that has received nothing yet. */
  method RunAnalyticsWorker(world: World.World) returns (worker: Worker.Worker, failed: bool)
    requires world.Valid() && world.R == Worker.DEFAULT_MAX_RETRIES
    requires world.v == View(true, map[], {}, {}, {}) && world.log == EMPTY_LOG
    modifies world
    ensures fresh(worker) && worker.world == world && world.Valid() && old(world.steps) <= world.steps
    ensures worker.config == Worker.Config(200, 250, 5) && worker.hasRetryer
    ensures world.log.requeued == [] && worker.Judged()
    ensures world.log.broken == if failed then 1 else 0
    ensures !failed ==> worker.AllSettled() && worker.OnTime(world.log.inputs) && Fates.Ended(world.log.inputs)
  {
    hide World.World.Valid, Worker.Worker.Ready, Worker.Worker.AllSettled;
    worker := NewWorker(world);
    failed := worker.Run();
  }

  /** What a deployment on these tables comes to, once the worker is done as well. */
  ghost predicate Sound(s: State, hits: seq<Hit>, served: seq<Served>, libs: Redirect.Libs) {
    && AllHeld(s, hits, served, libs)
    && (forall l :: l in s.db.links ==> s.db.links[l].clicks == |CommittedIDs(s, ByLink(l))|)
    && (forall k: CellKey :: Cell(s.db, k) == |CommittedIDs(s, ByCell(k))|)
    && (s.main == [] && s.retry == [] && s.unacked == [] && s.dlq == [] ==>
          forall i :: 0 <= i < |served| && CountedHit(hits[i], served[i]) ==> Recorded(s.db, served[i].id))
  }

  lemma SoundAfter(
      start: State, a: seq<Step>, mid: State, b: seq<Step>, R: nat, hits: seq<Hit>, served: seq<Served>,
      libs: Redirect.Libs)
    requires Inv(start, R) && IsRun(start, a, R) && mid == After(start, a, R) && IsRun(mid, b, R)
    requires AllHeld(mid, hits, served, libs)
    ensures Sound(After(mid, b, R), hits, served, libs)
  {
    hide IsRun, After, Inv;
    StartOfRun(mid, R);
    HeldLater(mid, [], b, R, hits, served, libs);
    RunKeepsInv(start, a, R);
    ExactlyOnce(mid, b, R);
    var s := After(mid, b, R);
    hide Held, Recorded, CountedHit, CommittedIDs;
    forall i | 0 <= i < |served| ensures HeldHit(s, hits[i], served[i], libs) {}
    if s.main == [] && s.retry == [] && s.unacked == [] && s.dlq == [] {
      forall i | 0 <= i < |served| && CountedHit(hits[i], served[i]) ensures Recorded(s.db, served[i].id) {
        assert HeldHit(s, hits[i], served[i], libs);
        NothingElseHolds(s, served[i].id);
      }
    }
  }

  lemma StartOfRun(s: State, R: nat)
    ensures IsRun(s, [], R) && After(s, [], R) == s
  {
  }

  lemma NothingElseHolds(s: State, id: string)
    requires Held(s, id) && s.main == [] && s.retry == [] && s.unacked == [] && s.dlq == []
    ensures Recorded(s.db, id)
  {
  }

  /** With the default number of retries, every published message is good for five handlings, and for delays of 3.75
      seconds, on top of what was queued at the start. */
  ghost predicate RunsOut(world: World.World)
    requires world.R == Worker.DEFAULT_MAX_RETRIES && IsRun(world.start, world.steps, world.R)
    reads world
  {
    var n := Published(world.steps);
    && Handlings(world.start, world.steps, world.R) <= Potential(world.start, {}, Handling(world.R)) + n * 5
    && Waited(world.start, world.steps, world.R) <= Potential(world.start, {}, Waiting(world.R)) + n * 3750
  }

  lemma DefaultsRunOut(world: World.World)
    requires world.Valid() && world.orderly && world.R == Worker.DEFAULT_MAX_RETRIES
    requires IsRun(world.start, world.steps, world.R)
    ensures RunsOut(world)
  {
    hide World.World.Valid, IsRun, Handlings, Waited, Potential, Published;
    world.HandlingsBounded();
    assert Pow2(4) == 16;
  }

  /** A deployment from empty queues and tables without clicks: the server serves its visits, and the worker takes
      over what they left. Whatever the store, the broker and all other processes do, every click a visitor was
      answered for as counted is held in the end, and recorded if nothing is left over; every counter and cell is
      the number of distinct committed events; if the worker ends without an error it has settled everything it
      received; and as long as the others offer each delivery once, retries run out. */
  method Deploy(t: Tables, useQueue: bool, hits: seq<Hit>, inputs: nat, libs: Redirect.Libs, scrub: string -> string)
    returns (served: seq<Served>, web: World.World, work: World.World, worker: Worker.Worker, failed: bool)
    requires Consistent(t) && History(t) == [] && AllVisitable(hits)
    ensures work.R == Worker.DEFAULT_MAX_RETRIES && IsRun(work.start, work.steps, work.R)
    ensures web.Valid() && work.Valid() && web.start == State(t, [], [], [], [], 0, map[], {}) && work.start == web.s
    ensures Sound(work.s, hits, served, libs)
    ensures |served| == |hits| || exists random :: Collides(web.s, random)
    ensures worker.world == work && worker.Judged() && (!failed ==> worker.AllSettled())
    ensures work.orderly ==> RunsOut(work)
  {
    hide World.World.Valid, Inv, AllHeld, AllVisitable, Sound, RunsOut, Collides;
    hide Worker.Worker.AllSettled, Worker.Worker.Judged;
    FreshStart(t, Worker.DEFAULT_MAX_RETRIES);
    web := new World.World(Worker.DEFAULT_MAX_RETRIES, State(t, [], [], [], [], 0, map[], {}), 0);
    ghost var drawn;
    served, drawn := RunServer(web, useQueue, hits, libs, scrub);
    web.Here();
    RunKeepsInv(web.start, web.steps, web.R);
    work := new World.World(web.R, web.s, inputs);
    worker, failed := RunAnalyticsWorker(work);
    work.Here();
    SoundAfter(web.start, web.steps, web.s, work.steps, web.R, hits, served, libs);
    if work.orderly {
      DefaultsRunOut(work);
    }
  }
}
