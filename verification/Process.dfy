// One process's view of the pipeline, as values: the deliveries it owes a settlement, the ids it
// holds, and the log of what it received, stored and settled.

module Process {
  import opened Wrappers
  import opened Models
  import opened Ledger
  import opened Payload
  import opened Pipeline
  import LedgerLaws
  import opened PipelineLaws

  /** A delivery as handed to a worker. */
  datatype Received = Received(tag: nat, body: Option<EventPayload>, header: Header)

  function MsgOf(d: Received): Msg {
    Msg(d.body, d.header)
  }

  /** `up` while the process's channel works: once it is lost, its deliveries may reappear elsewhere.
      `mine` are its unsettled deliveries, `offered` those it gave to the retryer and `copied` those with a
      confirmed replacement, `holding` the ids it keeps in memory. Retention, at 90 days, does not overtake an
      id a process still works on. */
  datatype View = View(up: bool, mine: map<nat, Msg>, offered: set<nat>, copied: set<nat>, holding: set<string>)

  /** The view after one delivery is settled. */
  function Without(v: View, tag: nat): View {
    v.(mine := v.mine - {tag}, offered := v.offered - {tag}, copied := v.copied - {tag})
  }

  predicate Open(s: State, id: string) {
    id != "" ==> id !in s.closed
  }

  predicate Owned(us: seq<Delivery>, d: Delivery) {
    exists i :: 0 <= i < |us| && us[i] == d
  }

  predicate OwnsAll(us: seq<Delivery>, v: View) {
    forall tag :: tag in v.mine ==> Owned(us, Delivery(tag, v.mine[tag], tag in v.copied))
  }

  predicate AllOpen(s: State, v: View) {
    && (forall tag :: tag in v.mine ==> Open(s, MsgID(v.mine[tag])))
    && (forall id :: id in v.holding ==> id !in s.closed)
  }

  predicate ViewOK(s: State, v: View, R: nat) {
    && (v.up ==> OwnsAll(s.unacked, v))
    && AllOpen(s, v)
    && (forall tag :: tag in v.mine ==> MsgOK(s.issued, v.mine[tag], R) && tag < s.nextTag)
    && v.copied <= v.offered <= v.mine.Keys
  }

  /** A faithful copy of an event behind one of the process's unsettled deliveries. */
  predicate Ours(s: State, v: View, e: ClickEvent) {
    IsCopy(s.issued, e) && exists tag :: tag in v.mine && MsgID(v.mine[tag]) == e.eventID
  }

  /** What a worker's select sees. */
  datatype Input = Arrive(d: Received) | Tick | Cancelled | Idle | Closed

  /** A delivery given to the retryer, and whether the retryer took it. */
  datatype Offering = Offering(tag: nat, attempt: int, ok: bool)

  /** What a process saw and did: its inputs and the deliveries among them; the batches it gave to the store, the
      store's answers and what the store reported as inserted; the deliveries it settled, in order, those among them
      that it dead-lettered or put back, and those it offered for retry; and how many settlements went wrong. */
  datatype Log = Log(
    inputs: seq<Input>, received: seq<Received>, calls: seq<seq<ClickEvent>>, answers: seq<bool>, inserted: nat,
    settled: seq<nat>, rejected: seq<nat>, requeued: seq<nat>, offers: seq<Offering>, broken: nat)

  const EMPTY_LOG := Log([], [], [], [], 0, [], [], [], [], 0)

  ghost predicate WasReceived(log: Log, tag: nat) {
    exists i :: 0 <= i < |log.received| && log.received[i].tag == tag
  }

  /** Every received delivery is settled exactly once or still owed, never both. */
  ghost predicate LogOK(log: Log, mine: map<nat, Msg>, nextTag: nat) {
    && (forall i :: 0 <= i < |log.received| ==> log.received[i].tag < nextTag)
    && (forall i, j :: 0 <= i < j < |log.received| ==> log.received[i].tag < log.received[j].tag)
    && (forall i, j :: 0 <= i < j < |log.settled| ==> log.settled[i] != log.settled[j])
    && (forall tag :: tag in log.settled ==> tag !in mine)
    && (forall tag :: tag in log.settled || tag in mine <==> WasReceived(log, tag))
  }

  // ---- later states of one run ----

  lemma {:induction false} PrefixRun(start: State, a: seq<Step>, b: seq<Step>, R: nat)
    requires a <= b && IsRun(start, b, R)
    ensures IsRun(start, a, R)
    decreases |b|
  {
    if a != b {
      assert a <= b[..|b| - 1];
      PrefixRun(start, a, b[..|b| - 1], R);
    } else {
      assert a == b;
    }
  }

  /** What holds of an event at some point of a run holds at every later point. */
  lemma {:induction false} Later(start: State, a: seq<Step>, b: seq<Step>, R: nat, id: string)
    requires a <= b && IsRun(start, b, R) && id != ""
    ensures IsRun(start, a, R)
    ensures Held(After(start, a, R), id) ==> Held(After(start, b, R), id)
    ensures Recorded(After(start, a, R).db, id) ==> Recorded(After(start, b, R).db, id)
    decreases |b|
  {
    PrefixRun(start, a, b, R);
    if a == b {
      assert a == b;
    } else {
      var front := b[..|b| - 1];
      assert a <= front;
      Later(start, a, front, R, id);
      var m := After(start, front, R);
      if Held(m, id) {
        StepKeepsHeld(m, b[|b| - 1], R, id);
      }
      if Recorded(m.db, id) {
        StepKeepsRecorded(m, b[|b| - 1], R, id);
      }
    }
  }

  /** Ids, once issued, keep their event, and delivery tags only grow. */
  lemma StepIssues(s: State, step: Step, R: nat, e: ClickEvent)
    requires Enabled(s, step, R)
    ensures IsCopy(s.issued, e) ==> IsCopy(Apply(s, step, R).issued, e)
    ensures s.nextTag <= Apply(s, step, R).nextTag
  {
  }

  lemma {:induction false} IssuedLater(start: State, a: seq<Step>, b: seq<Step>, R: nat, e: ClickEvent)
    requires a <= b && IsRun(start, b, R)
    ensures IsRun(start, a, R)
    ensures IsCopy(After(start, a, R).issued, e) ==> IsCopy(After(start, b, R).issued, e)
    ensures After(start, a, R).nextTag <= After(start, b, R).nextTag
    decreases |b|
  {
    hide Apply, Enabled, IsCopy;
    PrefixRun(start, a, b, R);
    if a == b {
      assert a == b;
    } else {
      var front := b[..|b| - 1];
      assert a <= front;
      IssuedLater(start, a, front, R, e);
      StepIssues(After(start, front, R), b[|b| - 1], R, e);
    }
  }

  // ---- the view after one step ----

  /** Steps of the other processes respect this process's live deliveries and the ids it works on. */
  predicate Respects(u: State, v: View) {
    (v.up ==> OwnsAll(u.unacked, v)) && AllOpen(u, v)
  }

  lemma {:induction false} IssuedGrows(s: State, more: seq<Step>, R: nat)
    requires IsRun(s, more, R)
    ensures s.nextTag <= After(s, more, R).nextTag
    ensures forall e: ClickEvent :: IsCopy(s.issued, e) ==> IsCopy(After(s, more, R).issued, e)
  {
    if more != [] {
      IssuedGrows(s, more[..|more| - 1], R);
    }
  }

  lemma OthersView(s: State, more: seq<Step>, v: View, alive: bool, R: nat)
    requires ViewOK(s, v, R) && IsRun(s, more, R)
    requires Respects(After(s, more, R), v.(up := alive && v.up))
    ensures ViewOK(After(s, more, R), v.(up := alive && v.up), R)
  {
    IssuedGrows(s, more, R);
  }

  lemma OwnedSurvivesDrop(us: seq<Delivery>, i: nat, d: Delivery)
    requires i < |us| && d.tag != us[i].tag && Owned(us, d)
    ensures Owned(Drop(us, i), d)
  {
    var k :| 0 <= k < |us| && us[k] == d;
    assert Drop(us, i)[if k < i then k else k - 1] == d;
  }

  lemma SettleView(s: State, step: Step, v: View, tag: nat, R: nat)
    requires Enabled(s, step, R) && (step.Ack? || step.Reject? || step.Requeue?)
    requires ViewOK(s, v, R) && step.i < |s.unacked| && s.unacked[step.i].tag == tag
    ensures ViewOK(Apply(s, step, R), Without(v, tag), R)
    ensures Apply(s, step, R).nextTag == s.nextTag
  {
    var w := Without(v, tag);
    if v.up {
      forall t | t in w.mine ensures Owned(Drop(s.unacked, step.i), Delivery(t, w.mine[t], t in w.copied)) {
        OwnedSurvivesDrop(s.unacked, step.i, Delivery(t, v.mine[t], t in v.copied));
      }
    }
  }

  lemma DeliverView(s: State, i: nat, v: View, R: nat)
    requires Inv(s, R) && i < |s.main| && ViewOK(s, v, R)
    ensures s.nextTag !in v.mine && s.nextTag !in v.offered && s.nextTag !in v.copied
    ensures ViewOK(Apply(s, Deliver(i), R), v.(mine := v.mine[s.nextTag := s.main[i]]), R)
    ensures Apply(s, Deliver(i), R).nextTag == s.nextTag + 1
  {
    hide TablesOK, Publishable;
    var u, w := Apply(s, Deliver(i), R), v.(mine := v.mine[s.nextTag := s.main[i]]);
    var d := Delivery(s.nextTag, s.main[i], false);
    assert s.main[i] in s.main;
    assert MsgOK(s.issued, s.main[i], R) && Carries(s.main, MsgID(s.main[i]));
    assert u.unacked[|s.unacked|] == d;
    if v.up {
      forall t | t in w.mine ensures Owned(u.unacked, Delivery(t, w.mine[t], t in w.copied)) {
        if t != s.nextTag {
          var k :| 0 <= k < |s.unacked| && s.unacked[k] == Delivery(t, v.mine[t], t in v.copied);
          assert u.unacked[k] == s.unacked[k];
        }
      }
    }
  }

  function Offered(v: View, tag: nat): View {
    v.(offered := v.offered + {tag})
  }

  function Copied(v: View, tag: nat): View {
    v.(offered := v.offered + {tag}, copied := v.copied + {tag})
  }

  lemma OfferView(s: State, v: View, tag: nat, R: nat)
    requires ViewOK(s, v, R) && tag in v.mine
    ensures ViewOK(s, Offered(v, tag), R)
  {
  }

  lemma ReplaceView(s: State, i: nat, attempt: nat, v: View, R: nat)
    requires Enabled(s, Replace(i, attempt), R) && ViewOK(s, v, R)
    requires s.unacked[i].tag in v.mine && v.mine[s.unacked[i].tag] == s.unacked[i].msg
    ensures ViewOK(Apply(s, Replace(i, attempt), R), Copied(v, s.unacked[i].tag), R)
    ensures Apply(s, Replace(i, attempt), R).nextTag == s.nextTag
  {
    var tag := s.unacked[i].tag;
    var us, w := MarkReplaced(s.unacked, i), Copied(v, tag);
    if v.up {
      forall t | t in w.mine ensures Owned(us, Delivery(t, w.mine[t], t in w.copied)) {
        if t == tag {
          assert us[i] == Delivery(t, w.mine[t], true);
        } else {
          var k :| 0 <= k < |s.unacked| && s.unacked[k] == Delivery(t, v.mine[t], t in v.copied);
          assert us[k] == s.unacked[k];
        }
      }
    }
  }

  /** Steps that leave deliveries, retention and ids in place leave every view valid. */
  lemma QuietView(s: State, step: Step, v: View, R: nat)
    requires Enabled(s, step, R) && ViewOK(s, v, R)
    requires step.Commit? || step.Write? || step.Enqueue? || step.Stray?
    ensures ViewOK(Apply(s, step, R), v, R) && Apply(s, step, R).nextTag == s.nextTag
  {
  }

  lemma IssueView(s: State, e: ClickEvent, v: View, R: nat)
    requires Enabled(s, Issue(e), R) && ViewOK(s, v, R) && e.eventID !in s.closed
    ensures ViewOK(Apply(s, Issue(e), R), v.(holding := v.holding + {e.eventID}), R)
    ensures Apply(s, Issue(e), R).nextTag == s.nextTag
  {
    assert forall x: ClickEvent :: IsCopy(s.issued, x) ==> IsCopy(Apply(s, Issue(e), R).issued, x);
  }

  lemma LogReceive(log: Log, mine: map<nat, Msg>, nextTag: nat, d: Received, after: Log)
    requires LogOK(log, mine, nextTag) && d.tag == nextTag
    requires after.received == log.received + [d] && after.settled == log.settled
    ensures LogOK(after, mine[d.tag := MsgOf(d)], nextTag + 1)
    ensures forall t :: t in mine ==> t < d.tag
  {
    forall t: nat ensures WasReceived(after, t) <==> WasReceived(log, t) || t == d.tag {
      if WasReceived(log, t) {
        var i :| 0 <= i < |log.received| && log.received[i].tag == t;
        assert after.received[i].tag == t;
      }
      assert after.received[|log.received|] == d;
    }
    forall t: nat | t in mine || t in log.settled ensures t < d.tag {
      assert WasReceived(log, t);
    }
  }

  lemma LogGrows(log: Log, mine: map<nat, Msg>, nextTag: nat, later: nat)
    requires LogOK(log, mine, nextTag) && nextTag <= later
    ensures LogOK(log, mine, later)
  {
  }

  lemma LogRecorded(log: Log, mine: map<nat, Msg>, nextTag: nat, after: Log)
    requires LogOK(log, mine, nextTag) && after.received == log.received && after.settled == log.settled
    ensures LogOK(after, mine, nextTag)
  {
    forall t: nat ensures WasReceived(after, t) <==> WasReceived(log, t) {
      assert after.received == log.received;
    }
  }

  lemma LogSettle(log: Log, mine: map<nat, Msg>, nextTag: nat, tag: nat, after: Log)
    requires LogOK(log, mine, nextTag) && tag in mine
    requires after.received == log.received && after.settled == log.settled + [tag]
    ensures LogOK(after, mine - {tag}, nextTag)
  {
    forall t: nat ensures WasReceived(after, t) <==> WasReceived(log, t) {
      assert after.received == log.received;
    }
  }

  // ---- what a successful write records ----

  lemma BatchRecords(s: State, cs: seq<Submission>, R: nat)
    requires Inv(s, R) && Batch(s.db, cs).Committed? && forall c :: c in cs ==> IsCopy(s.issued, c.event)
    ensures forall c :: c in cs ==> Recorded(Batch(s.db, cs).tables, c.event.eventID)
  {
    LedgerLaws.BatchFrame(s.db, cs);
    var u := Batch(s.db, cs).tables;
    forall c | c in cs ensures Recorded(u, c.event.eventID) {
      IssuedIDsNonEmpty(s, R, c.event);
      assert Stored(u, c.event.eventID);
      var r :| r in u.rows && r.event.eventID == c.event.eventID;
      assert r in History(u);
    }
  }

  lemma SingleRecords(s: State, c: Submission, increment: bool, limit: Option<int>, R: nat)
    requires Inv(s, R) && IsCopy(s.issued, Marked(c, increment).event)
    ensures var r := Single(s.db, c, increment, limit);
            r.Done? && r.accepted ==> Recorded(r.tables, c.event.eventID)
  {
    var r := Single(s.db, c, increment, limit);
    IssuedIDsNonEmpty(s, R, Marked(c, increment).event);
    if r.Done? && r.accepted {
      if Stored(s.db, c.event.eventID) {
        var q :| q in s.db.rows && q.event.eventID == c.event.eventID;
        assert q in History(s.db);
      } else {
        AddHistory(s.db, Marked(c, increment));
        assert RowOf(Marked(c, increment)) in History(r.tables);
      }
    }
  }

  // ---- offering each delivery once ----

  /** Along the run no delivery was offered to a retryer twice or put back after it was offered, and this process
      knows which of its own were. */
  ghost predicate Orderly(start: State, steps: seq<Step>, R: nat, v: View)
    requires IsRun(start, steps, R)
  {
    OfferedOnce(start, steps, R) && Knows(v, Tried(start, steps, R))
  }

  predicate Knows(v: View, tried: set<nat>) {
    forall tag :: tag in v.mine && tag in tried ==> tag in v.offered
  }

  /** One more step, and the view after it, keep the order. */
  predicate KeepsOrder(s: State, step: Step, tried: set<nat>, w: View)
    requires Touches(s, step)
  {
    OffersOnce(s, step, tried) && Knows(w, TriedAfter(s, step, tried))
  }

  lemma OrderlyStep(start: State, steps: seq<Step>, step: Step, R: nat, v: View, w: View)
    requires IsRun(start, steps, R) && Enabled(After(start, steps, R), step, R) && Orderly(start, steps, R, v)
    requires KeepsOrder(After(start, steps, R), step, Tried(start, steps, R), w)
    ensures IsRun(start, steps + [step], R) && Orderly(start, steps + [step], R, w)
  {
    assert (steps + [step])[..|steps + [step]| - 1] == steps;
  }

  lemma QuietOrder(s: State, step: Step, tried: set<nat>, v: View, w: View)
    requires Knows(v, tried) && w.mine == v.mine && w.offered == v.offered
    requires step.Commit? || step.Write? || step.Enqueue? || step.Issue?
    ensures KeepsOrder(s, step, tried, w)
  {
  }

  lemma DeliverOrder(s: State, i: nat, tried: set<nat>, v: View, m: Msg)
    requires Knows(v, tried) && TagsKnown(s, tried)
    ensures KeepsOrder(s, Deliver(i), tried, v.(mine := v.mine[s.nextTag := m]))
  {
  }

  lemma SettleOrder(s: State, step: Step, tried: set<nat>, v: View, tag: nat)
    requires step.Ack? || step.Reject? || step.Requeue?
    requires Knows(v, tried) && tag in v.mine && step.i < |s.unacked| && s.unacked[step.i].tag == tag
    requires step.Requeue? ==> tag !in v.offered && !s.unacked[step.i].replaced
    ensures KeepsOrder(s, step, tried, Without(v, tag))
  {
  }

  lemma OfferOrder(s: State, step: Step, tried: set<nat>, v: View, w: View)
    requires (step.Stray? || step.Replace?) && step.i < |s.unacked|
    requires Knows(v, tried) && s.unacked[step.i].tag in v.mine && s.unacked[step.i].tag !in v.offered
    requires w.mine == v.mine && w.offered == v.offered + {s.unacked[step.i].tag}
    ensures KeepsOrder(s, step, tried, w)
  {
  }
}
