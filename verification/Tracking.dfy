// A redirect's analytics event from its minting to its recording.

module Tracking {
  import opened Wrappers
  import opened Models
  import opened Links
  import opened Payload
  import opened Pipeline
  import Publisher
  import Redirect
  import World

  /** The event of a redirect with its generated id and its timestamp. */
  function MintedEvent(
      random: seq<Byte>, now: Time, r: Redirect.Request, l: Link, target: string, route: string, status: int,
      libs: Redirect.Libs): ClickEvent
    requires |random| == 16
  {
    Redirect.EventFor(r, l, target, route, status, libs).(eventID := NewEventID(random), occurredAt := Some(now))
  }

  /** What the analytics worker asks of an event besides its id and timestamp. */
  predicate Trackable(r: Redirect.Request, l: Link, route: string, status: int) {
    l.id > 0 && !Blank(l.slug) && !Blank(r.verb) && !Blank(route) && 100 <= status <= 599
  }

  /** Every event a redirect mints is one that the worker accepts. */
  lemma MintedIsPublishable(
      random: seq<Byte>, now: Time, r: Redirect.Request, l: Link, target: string, route: string, status: int,
      libs: Redirect.Libs, increment: bool)
    requires |random| == 16 && Trackable(r, l, route, status)
    ensures Publishable(MintedEvent(random, now, r, l, target, route, status, libs).(increment := increment))
  {
    hide NewEventID, ValidUUID, Canonical, Blank;
    MintedIDsAreValid(random);
    ValidUUIDShape(NewEventID(random));
  }

  /** The routes a redirect takes, and the expired one, are all named, and its statuses are in range. */
  lemma RedirectsAreTrackable(r: Redirect.Request, l: Link, libs: Redirect.Libs)
    requires l.id > 0 && !Blank(l.slug) && !Blank(r.verb)
    ensures l.redirectCode in {301, 302, 307, 308} ==>
      Trackable(r, l, Redirect.ResolveTarget(l, r.country, r.userAgent, libs).1, l.redirectCode)
    ensures Trackable(r, l, "expired", 410)
  {
    assert "country"[0] == 'c' && "ios"[0] == 'i' && "android"[0] == 'a' && "default"[0] == 'd' && "expired"[0] == 'e';
  }

  /** A stored link and a request as the handler sees them. */
  predicate Visitable(l: Link, r: Redirect.Request) {
    l.id > 0 && !Blank(l.slug) && !Blank(r.verb) && l.redirectCode in {301, 302, 307, 308}
  }

  /** The password gate lets the visit through. */
  predicate Opened(l: Link, r: Redirect.Request) {
    l.passwordProtected ==> l.id in r.access
  }

  /** Neither the password gate nor expiry stops the visit. */
  predicate Forwards(l: Link, r: Redirect.Request, now: Time) {
    Opened(l, r) && !Redirect.LinkExpired(l, now)
  }

  /** The event of a visit that is led to its target. */
  function Forwarded(random: seq<Byte>, now: Time, r: Redirect.Request, l: Link, libs: Redirect.Libs): ClickEvent
    requires |random| == 16
  {
    var (raw, route) := Redirect.ResolveTarget(l, r.country, r.userAgent, libs);
    MintedEvent(random, now, r, l, Redirect.Merged(raw, l, r.query, libs), route, l.redirectCode, libs)
  }

  /** The outcome that an answer of the recorder means. */
  function Meaning(ok: bool, failed: bool): Redirect.Tracked {
    if failed then Redirect.Failed else if ok then Redirect.Counted else Redirect.Refused
  }

  /** The click was recorded once, with this outcome. */
  predicate TrackedOnce(
      before: seq<World.Asked>, after: seq<World.Asked>, event: ClickEvent, increment: bool, maxClicks: Option<int>,
      outcome: Redirect.Tracked, told: World.Told)
  {
    exists ok, failed ::
      outcome == Meaning(ok, failed) && Publisher.Answers(before, after, event, increment, maxClicks, ok, failed, told)
  }

  /** Tracking with a known outcome. */
  function Always(outcome: Redirect.Tracked): Redirect.Tracker {
    (event, increment, maxClicks) => outcome
  }

  class Tracker {
    const world: World.World
    const recorder: Publisher.Recorder

    constructor (recorder: Publisher.Recorder)
      ensures this.recorder == recorder && this.world == recorder.world
    {
      this.recorder, this.world := recorder, recorder.world;
    }

    /** Mints the event, records it under its fresh id, and forgets it. (true, nil) means that the pipeline holds it,
        (false, nil) that the store refused it. */
    method Track(
        random: seq<Byte>, now: Time, r: Redirect.Request, l: Link, target: string, route: string, status: int,
        libs: Redirect.Libs, increment: bool) returns (ok: bool, failed: bool, ghost told: World.Told)
      requires recorder.Valid() && world == recorder.world
      requires |random| == 16 && Trackable(r, l, route, status)
      requires NewEventID(random) !in world.s.issued && NewEventID(random) !in world.s.closed
      modifies recorder.Footprint()
      ensures recorder.Valid() && old(world.steps) <= world.steps
      ensures ok && !failed ==> Held(world.s, NewEventID(random))
      ensures world.v.holding == old(world.v.holding) - {NewEventID(random)}
      ensures Publisher.Answers(
        old(world.asked), world.asked, MintedEvent(random, now, r, l, target, route, status, libs), increment,
        l.maxClicks, ok, failed, told)
      ensures !ok && !failed ==> World.Refuses(
        world.s.db, MintedEvent(random, now, r, l, target, route, status, libs), increment, l.maxClicks)
      ensures !told.published ==> world.Passed(old(world.steps), told.before)
      ensures recorder.publisher == null || l.maxClicks.Some? ==> !told.published
    {
      hide World.World.Valid, Publishable, NewEventID, Held, IsCopy, Redirect.EventFor, World.Refuses, World.AnswerOK;
      var event := MintedEvent(random, now, r, l, target, route, status, libs);
      MintedIsPublishable(random, now, r, l, target, route, status, libs, increment);
      label Before:
      world.Mint(event.(increment := increment));
      recorder.StillValid@Before();
      ok, failed, told := recorder.Record(event, increment, l.maxClicks);
      label Recorded:
      world.Release(event.eventID);
      recorder.StillValid@Recorded();
    }

    /** A visit to a link that was found. The answer is the one Visit gives for the outcome of its tracking. A visit
        that the password gate stops is not tracked; every other one is tracked once, as its route says. A counted
        click is held by the pipeline, and a refused one is refused by the store. */
    method Serve(l: Link, r: Redirect.Request, random: seq<Byte>, now: Time, libs: Redirect.Libs)
      returns (answer: Redirect.Answer, outcome: Redirect.Tracked, ghost told: World.Told)
      requires recorder.Valid() && world == recorder.world && Visitable(l, r)
      requires |random| == 16 && NewEventID(random) !in world.s.issued && NewEventID(random) !in world.s.closed
      modifies recorder.Footprint()
      ensures recorder.Valid() && old(world.steps) <= world.steps
      ensures answer == Redirect.Visit(l, r, now, libs, Always(outcome)).0
      ensures Forwards(l, r, now) && outcome == Redirect.Counted ==> Held(world.s, NewEventID(random))
      ensures Forwards(l, r, now) && outcome == Redirect.Refused ==>
        World.Refuses(world.s.db, Forwarded(random, now, r, l, libs), true, l.maxClicks)
      ensures Forwards(l, r, now) ==> TrackedOnce(
        old(world.asked), world.asked, Forwarded(random, now, r, l, libs), true, l.maxClicks, outcome, told)
      ensures Opened(l, r) && Redirect.LinkExpired(l, now) ==> exists ignored :: TrackedOnce(
        old(world.asked), world.asked, MintedEvent(random, now, r, l, l.expiredURL, "expired", 410, libs), false,
        l.maxClicks, ignored, told)
      ensures !Opened(l, r) ==> unchanged(recorder.Footprint())
      ensures Opened(l, r) && !told.published ==> world.Passed(old(world.steps), told.before)
      ensures recorder.publisher == null || l.maxClicks.Some? ==> !told.published
    {
      hide World.World.Valid, NewEventID, Held, Blank, Redirect.EventFor, Redirect.Merged, Redirect.LinkExpired;
      hide World.Refuses, World.AnswerOK, World.World.Passed, Redirect.ResolveTarget, TrackedOnce;
      outcome, told := Redirect.Failed, World.Told(false, world.s.db, false);
      if l.passwordProtected && l.id !in r.access {
        return Redirect.PasswordForm(l.id, l.title, l.passwordHash), outcome, told;
      }
      RedirectsAreTrackable(r, l, libs);
      if Redirect.LinkExpired(l, now) {
        var counted, lost;
        counted, lost, told := Track(random, now, r, l, l.expiredURL, "expired", 410, libs, false);
        Once(old(world.asked), world.asked, MintedEvent(random, now, r, l, l.expiredURL, "expired", 410, libs), false,
             l.maxClicks, counted, lost, told);
        return Redirect.ExpiredAnswer(l), outcome, told;
      }
      answer, outcome, told := Forward(l, r, random, now, libs);
    }

    /** A visit that is led to its target once its click is counted. */
    method Forward(l: Link, r: Redirect.Request, random: seq<Byte>, now: Time, libs: Redirect.Libs)
      returns (answer: Redirect.Answer, outcome: Redirect.Tracked, ghost told: World.Told)
      requires recorder.Valid() && world == recorder.world && Forwards(l, r, now)
      requires Trackable(r, l, Redirect.ResolveTarget(l, r.country, r.userAgent, libs).1, l.redirectCode)
      requires |random| == 16 && NewEventID(random) !in world.s.issued && NewEventID(random) !in world.s.closed
      modifies recorder.Footprint()
      ensures recorder.Valid() && old(world.steps) <= world.steps
      ensures answer == Redirect.Visit(l, r, now, libs, Always(outcome)).0
      ensures outcome == Redirect.Counted ==> Held(world.s, NewEventID(random))
      ensures outcome == Redirect.Refused ==>
        World.Refuses(world.s.db, Forwarded(random, now, r, l, libs), true, l.maxClicks)
      ensures TrackedOnce(
        old(world.asked), world.asked, Forwarded(random, now, r, l, libs), true, l.maxClicks, outcome, told)
      ensures !told.published ==> world.Passed(old(world.steps), told.before)
      ensures recorder.publisher == null || l.maxClicks.Some? ==> !told.published
    {
      hide World.World.Valid, NewEventID, Held, Blank, Redirect.EventFor, Redirect.Merged, Redirect.LinkExpired;
      hide World.Refuses, World.AnswerOK, World.World.Passed, Redirect.ResolveTarget, TrackedOnce, Trackable;
      var (raw, route) := Redirect.ResolveTarget(l, r.country, r.userAgent, libs);
      var target := Redirect.MergeTargetQuery(raw, l, r.query, libs);
      var ok, failed;
      ok, failed, told := Track(random, now, r, l, target, route, l.redirectCode, libs, true);
      Once(old(world.asked), world.asked, Forwarded(random, now, r, l, libs), true, l.maxClicks, ok, failed, told);
      if failed {
        return Redirect.TrackingFailed, Redirect.Failed, told;
      }
      if !ok {
        return Redirect.ExpiredAnswer(l), Redirect.Refused, told;
      }
      return Redirect.To(target, l.redirectCode), Redirect.Counted, told;
    }
  }

  lemma Once(
      before: seq<World.Asked>, after: seq<World.Asked>, event: ClickEvent, increment: bool, maxClicks: Option<int>,
      ok: bool, failed: bool, told: World.Told)
    requires Publisher.Answers(before, after, event, increment, maxClicks, ok, failed, told)
    ensures TrackedOnce(before, after, event, increment, maxClicks, Meaning(ok, failed), told)
  {
    hide World.AnswerOK;
  }
}
