// The click pipeline as a step system over the tables, the three queues and the unacknowledged
// deliveries. Every interleaving of publishers, workers, fallbacks, redeliveries and retention is a run.

module Pipeline {
  import opened Wrappers
  import opened Models
  import opened Ledger
  import opened Payload
  import LedgerLaws

  /** A broker message: its body as the strict JSON decoder sees it, and its retry header. */
  datatype Msg = Msg(body: Option<EventPayload>, header: Header)

  /** A delivery to some worker. `replaced` is history: a durable copy was confirmed in the retry queue. */
  datatype Delivery = Delivery(tag: nat, msg: Msg, replaced: bool)

  /** `issued` remembers the event behind every id; `closed` holds ids removed by retention. */
  datatype State = State(
    db: Tables, main: seq<Msg>, retry: seq<Msg>, dlq: seq<Msg>, unacked: seq<Delivery>, nextTag: nat,
    issued: map<string, ClickEvent>, closed: set<string>)

  datatype Step =
    | Issue(e: ClickEvent)
    | Enqueue(m: Msg)
    | EnqueueJunk(m: Msg)
    | Deliver(i: nat)
    | Commit(cs: seq<Submission>)
    | Write(c: Submission, increment: bool, limit: Option<int>)
    | Ack(i: nat)
    | Reject(i: nat)
    | Requeue(i: nat)
    | Replace(i: nat, attempt: nat)
    | Stray(i: nat, attempt: nat)
    | Expire(i: nat)
    | Purge(gone: set<nat>)
    | SetLink(linkID: int, maxClicks: Option<int>, deleted: bool)

  /** What a queue copy and a direct write of one event share: all but the two scrubbed URLs. */
  function Canon(e: ClickEvent): ClickEvent {
    e.(resolvedURL := "", referrer := "")
  }

  function MsgID(m: Msg): string {
    var r := DecodeEvent(m.body);
    if r.Decoded? then r.event.eventID else ""
  }

  predicate IsCopy(issued: map<string, ClickEvent>, e: ClickEvent) {
    e.eventID in issued && issued[e.eventID] == Canon(e)
  }

  function Drop<T>(q: seq<T>, i: nat): seq<T>
    requires i < |q|
  {
    q[..i] + q[i + 1..]
  }

  predicate Recorded(t: Tables, id: string) {
    exists r :: r in History(t) && r.event.eventID == id
  }

  predicate Carries(q: seq<Msg>, id: string) {
    exists m :: m in q && MsgID(m) == id
  }

  predicate Outstanding(us: seq<Delivery>, id: string) {
    exists d :: d in us && !d.replaced && MsgID(d.msg) == id
  }

  predicate InFlight(us: seq<Delivery>, id: string) {
    exists d :: d in us && MsgID(d.msg) == id
  }

  /** The event is safe: committed, queued, dead-lettered, or delivered and still owed a settlement. */
  predicate Held(s: State, id: string) {
    Recorded(s.db, id) || Carries(s.main, id) || Carries(s.retry, id) || Carries(s.dlq, id) ||
    Outstanding(s.unacked, id)
  }

  /** Some copy may still reach the store through the queues. */
  predicate Circulates(s: State, id: string) {
    Carries(s.main, id) || Carries(s.retry, id) || InFlight(s.unacked, id)
  }

  /** The message a confirmed retry publish puts in the retry queue. */
  function Replacement(m: Msg, attempt: nat): Msg {
    Msg(m.body, RetryHeader(attempt))
  }

  function PurgedIDs(t: Tables, gone: set<nat>): set<string> {
    set r | r in Pick(t.rows, gone) :: r.event.eventID
  }

  predicate Retryable(s: State, i: nat, attempt: nat, R: nat) {
    && i < |s.unacked| && !s.unacked[i].replaced && DecodeEvent(s.unacked[i].msg.body).Decoded?
    && attempt == RetryCount(s.unacked[i].msg.header) + 1 < R
  }

  predicate Enabled(s: State, step: Step, R: nat) {
    match step
    case Issue(e) => Publishable(e) && e.eventID !in s.issued
    case Enqueue(m) =>
      var r := DecodeEvent(m.body);
      r.Decoded? && IsCopy(s.issued, r.event) && r.event.eventID !in s.closed && m.header == NoHeader
    case EnqueueJunk(m) => DecodeEvent(m.body).Invalid?
    case Deliver(i) => i < |s.main|
    case Commit(cs) =>
      Batch(s.db, cs).Committed? &&
      forall c :: c in cs ==> IsCopy(s.issued, c.event) && c.event.eventID !in s.closed
    case Write(c, increment, limit) =>
      var e := Marked(c, increment).event;
      Single(s.db, c, increment, limit).Done? && IsCopy(s.issued, e) && e.eventID !in s.closed
    case Ack(i) => i < |s.unacked| && (s.unacked[i].replaced || Recorded(s.db, MsgID(s.unacked[i].msg)))
    case Reject(i) => i < |s.unacked|
    case Requeue(i) => i < |s.unacked|
    case Replace(i, attempt) => Retryable(s, i, attempt, R)
    case Stray(i, attempt) => Retryable(s, i, attempt, R)
    case Expire(i) => i < |s.retry|
    case Purge(gone) => forall id :: id in PurgedIDs(s.db, gone) ==> !Circulates(s, id)
    case SetLink(l, _, deleted) => l in s.db.links && s.db.links[l].deleted ==> deleted
  }

  /** A link is created, gets another limit, or is deleted for good; its counter stays. */
  function Relinked(t: Tables, l: int, maxClicks: Option<int>, deleted: bool): Tables {
    t.(links := t.links[l := LinkRow(if l in t.links then t.links[l].clicks else 0, maxClicks, deleted)])
  }

  function Apply(s: State, step: Step, R: nat): State
    requires Enabled(s, step, R)
  {
    match step
    case Issue(e) => s.(issued := s.issued[e.eventID := Canon(e)])
    case Enqueue(m) => s.(main := s.main + [m])
    case EnqueueJunk(m) => s.(main := s.main + [m])
    case Deliver(i) =>
      s.(main := Drop(s.main, i), unacked := s.unacked + [Delivery(s.nextTag, s.main[i], false)],
         nextTag := s.nextTag + 1)
    case Commit(cs) => s.(db := Batch(s.db, cs).tables)
    case Write(c, increment, limit) => s.(db := Single(s.db, c, increment, limit).tables)
    case Ack(i) => s.(unacked := Drop(s.unacked, i))
    case Reject(i) => s.(unacked := Drop(s.unacked, i), dlq := s.dlq + [s.unacked[i].msg])
    case Requeue(i) => s.(unacked := Drop(s.unacked, i), main := s.main + [s.unacked[i].msg])
    case Replace(i, attempt) =>
      s.(retry := s.retry + [Replacement(s.unacked[i].msg, attempt)],
         unacked := MarkReplaced(s.unacked, i))
    case Stray(i, attempt) => s.(retry := s.retry + [Replacement(s.unacked[i].msg, attempt)])
    case Expire(i) => s.(retry := Drop(s.retry, i), main := s.main + [s.retry[i]])
    case Purge(gone) => s.(db := Remove(s.db, gone), closed := s.closed + PurgedIDs(s.db, gone))
    case SetLink(l, maxClicks, deleted) => s.(db := Relinked(s.db, l, maxClicks, deleted))
  }

  // ---- the invariant ----

  /** A queued copy is a faithful copy of its event, and its retry header is below the maximum. */
  predicate MsgOK(issued: map<string, ClickEvent>, m: Msg, R: nat) {
    var r := DecodeEvent(m.body);
    r.Decoded? ==> IsCopy(issued, r.event) && 0 <= RetryCount(m.header) < R
  }

  predicate RowOK(issued: map<string, ClickEvent>, r: Row) {
    IsCopy(issued, r.event) && r.event.occurredAt == Some(r.createdAt)
  }

  ghost predicate QueuesOK(s: State, R: nat) {
    && (forall m :: m in s.main || m in s.retry || m in s.dlq ==> MsgOK(s.issued, m, R))
    && (forall d :: d in s.unacked ==> MsgOK(s.issued, d.msg, R) && d.tag < s.nextTag)
    && (forall i, j :: 0 <= i < j < |s.unacked| ==> s.unacked[i].tag != s.unacked[j].tag)
    && (forall id :: id in s.closed && id != "" ==> !Circulates(s, id))
  }

  ghost predicate TablesOK(t: Tables, issued: map<string, ClickEvent>, closed: set<string>) {
    && Consistent(t)
    && (forall r :: r in History(t) ==> RowOK(issued, r))
    && (forall id: string :: Count(History(t), ByID(id)) <= 1)
    && (forall r :: r in t.purged ==> r.event.eventID in closed)
  }

  ghost predicate Inv(s: State, R: nat) {
    && 0 < R < TWO_31
    && QueuesOK(s, R) && TablesOK(s.db, s.issued, s.closed)
    && (forall id :: id in s.issued ==> Publishable(s.issued[id]) && s.issued[id].eventID == id)
  }

  /** Consistent tables without clicks and empty queues are a good place to start. */
  lemma FreshStart(t: Tables, R: nat)
    requires Consistent(t) && History(t) == [] && 0 < R < TWO_31
    ensures Inv(State(t, [], [], [], [], 0, map[], {}), R)
  {
  }

  lemma DropMembers<T>(q: seq<T>, i: nat)
    requires i < |q|
    ensures forall x :: x in q <==> x in Drop(q, i) || x == q[i]
  {
    assert q == q[..i] + [q[i]] + q[i + 1..];
  }

  lemma SnocMembers<T>(q: seq<T>, x: T)
    ensures forall y :: y in q + [x] <==> y in q || y == x
  {
  }

  // ---- steps on the queues ----

  /** A faithful copy of an event that retention has not closed. */
  ghost predicate Fits(s: State, m: Msg, R: nat) {
    MsgOK(s.issued, m, R) && (MsgID(m) != "" ==> MsgID(m) !in s.closed)
  }

  lemma MainGrows(s: State, m: Msg, R: nat)
    requires Inv(s, R) && Fits(s, m, R)
    ensures Inv(s.(main := s.main + [m]), R)
  {
    hide TablesOK, Publishable, MsgOK;
    SnocMembers(s.main, m);
  }

  lemma DlqGrows(s: State, m: Msg, R: nat)
    requires Inv(s, R) && MsgOK(s.issued, m, R)
    ensures Inv(s.(dlq := s.dlq + [m]), R)
  {
    hide TablesOK, Publishable, MsgOK;
    SnocMembers(s.dlq, m);
  }

  lemma UnackedShrinks(s: State, i: nat, R: nat)
    requires Inv(s, R) && i < |s.unacked|
    ensures Inv(s.(unacked := Drop(s.unacked, i)), R) && Fits(s, s.unacked[i].msg, R)
  {
    hide TablesOK, Publishable, MsgOK;
    assert s.unacked[i] in s.unacked;
    DropMembers(s.unacked, i);
  }

  lemma EnqueueOK(s: State, step: Step, R: nat)
    requires Inv(s, R) && Enabled(s, step, R) && (step.Enqueue? || step.EnqueueJunk?)
    ensures Inv(Apply(s, step, R), R)
  {
    MainGrows(s, step.m, R);
  }

  lemma DeliverOK(s: State, i: nat, R: nat)
    requires Inv(s, R) && i < |s.main|
    ensures Inv(Apply(s, Deliver(i), R), R)
  {
    hide TablesOK, Publishable, MsgOK;
    DropMembers(s.main, i);
    SnocMembers(s.unacked, Delivery(s.nextTag, s.main[i], false));
  }

  lemma ExpireOK(s: State, i: nat, R: nat)
    requires Inv(s, R) && i < |s.retry|
    ensures Inv(Apply(s, Expire(i), R), R)
  {
    var u := s.(retry := Drop(s.retry, i));
    assert Inv(u, R) && Fits(s, s.retry[i], R) by {
      hide TablesOK, Publishable, MsgOK;
      DropMembers(s.retry, i);
    }
    hide Inv, Fits;
    MainGrows(u, s.retry[i], R);
  }

  lemma SettleOK(s: State, step: Step, R: nat)
    requires Inv(s, R) && Enabled(s, step, R) && (step.Ack? || step.Reject? || step.Requeue?)
    ensures Inv(Apply(s, step, R), R)
  {
    hide Inv;
    var u, m := s.(unacked := Drop(s.unacked, step.i)), s.unacked[step.i].msg;
    UnackedShrinks(s, step.i, R);
    DlqGrows(u, m, R);
    MainGrows(u, m, R);
  }

  lemma StrayOK(s: State, i: nat, attempt: nat, R: nat)
    requires Inv(s, R) && Enabled(s, Stray(i, attempt), R)
    ensures Inv(Apply(s, Stray(i, attempt), R), R)
  {
    hide TablesOK, Publishable;
    var d := s.unacked[i];
    assert d in s.unacked;
    RetryHeaderReadsBack(attempt);
    SnocMembers(s.retry, Replacement(d.msg, attempt));
  }

  function MarkReplaced(us: seq<Delivery>, i: nat): seq<Delivery>
    requires i < |us|
  {
    us[i := us[i].(replaced := true)]
  }

  lemma MarkOK(s: State, i: nat, R: nat)
    requires Inv(s, R) && i < |s.unacked|
    ensures Inv(s.(unacked := MarkReplaced(s.unacked, i)), R)
  {
    hide TablesOK, Publishable;
    var marked := MarkReplaced(s.unacked, i);
    forall x | x in marked ensures exists y :: y in s.unacked && y.msg == x.msg && y.tag == x.tag {
      var k :| 0 <= k < |marked| && marked[k] == x;
      assert s.unacked[k] in s.unacked;
    }
    assert forall id: string :: InFlight(marked, id) ==> InFlight(s.unacked, id);
  }

  // ---- steps on the tables ----

  lemma IssuedIDsNonEmpty(s: State, R: nat, e: ClickEvent)
    requires Inv(s, R) && IsCopy(s.issued, e)
    ensures Publishable(e) && e.eventID != ""
  {
    assert Publishable(s.issued[e.eventID]);
  }

  /** The store is handed a faithful copy of a published, unpurged event. */
  ghost predicate Welcome(issued: map<string, ClickEvent>, closed: set<string>, e: ClickEvent) {
    IsCopy(issued, e) && Publishable(e) && e.eventID != "" && e.eventID !in closed
  }

  lemma UnseenID(t: Tables, issued: map<string, ClickEvent>, closed: set<string>, id: string)
    requires TablesOK(t, issued, closed) && id != "" && id !in closed && !Stored(t, id)
    ensures Count(History(t), ByID(id)) == 0
  {
    hide Consistent, RowOK;
    forall q | q in History(t) ensures q.event.eventID != id {
      assert q in t.purged || q in t.rows;
    }
    CountPositive(History(t), ByID(id));
  }

  /** Adding the row of an unstored event keeps the tables in order. */
  lemma AddOK(t: Tables, issued: map<string, ClickEvent>, closed: set<string>, c: Submission)
    requires TablesOK(t, issued, closed) && Welcome(issued, closed, c.event)
    requires !Stored(t, c.event.eventID) && c.event.linkID in t.links
    ensures TablesOK(Add(t, c), issued, closed)
  {
    hide RowOK, Add, Count, Consistent;
    AddConsistentHere(t, c);
    AddHistory(t, c);
    AddPurged(t, c);
    UnseenID(t, issued, closed, c.event.eventID);
    SnocMembers(History(t), RowOf(c));
    RowIsOK(issued, closed, c);
    forall id: string ensures Count(History(Add(t, c)), ByID(id)) <= 1 {
      CountSnoc(History(t), RowOf(c), ByID(id));
      assert Count(History(t), ByID(id)) <= 1;
    }
  }

  lemma AddConsistentHere(t: Tables, c: Submission)
    requires Consistent(t) && c.event.linkID in t.links && !Stored(t, c.event.eventID) && c.event.occurredAt.Some?
    ensures Consistent(Add(t, c))
  {
    hide Consistent, Add;
    AddConsistent(t, c);
  }

  lemma AddPurged(t: Tables, c: Submission)
    requires c.event.linkID in t.links
    ensures Add(t, c).purged == t.purged
  {
  }

  lemma RowIsOK(issued: map<string, ClickEvent>, closed: set<string>, c: Submission)
    requires Welcome(issued, closed, c.event)
    ensures RowOK(issued, RowOf(c)) && RowOf(c).event.eventID == c.event.eventID
  {
  }

  lemma {:induction false} BatchOK(t: Tables, issued: map<string, ClickEvent>, closed: set<string>, cs: seq<Submission>)
    requires TablesOK(t, issued, closed) && forall c :: c in cs ==> Welcome(issued, closed, c.event)
    ensures Batch(t, cs).Committed? ==> TablesOK(Batch(t, cs).tables, issued, closed)
  {
    hide TablesOK, Welcome, Add;
    if cs != [] {
      var front, c := cs[..|cs| - 1], cs[|cs| - 1];
      BatchOK(t, issued, closed, front);
      if Batch(t, cs).Committed? && !Stored(Batch(t, front).tables, c.event.eventID) {
        AddOK(Batch(t, front).tables, issued, closed, c);
      }
    }
  }

  lemma PurgeOK(s: State, gone: set<nat>, R: nat)
    requires Inv(s, R) && Enabled(s, Purge(gone), R)
    ensures Inv(Apply(s, Purge(gone), R), R)
  {
    var t, u := s.db, Apply(s, Purge(gone), R);
    PurgeConsistent(t, gone);
    forall r | r in History(u.db) ensures r in History(t) {
      var kept := set i: nat | 0 <= i < |t.rows| && i !in gone;
      if r in Pick(t.rows, gone) {
        PickSubset(t.rows, gone, r);
      } else if r in u.db.rows {
        PickSubset(t.rows, kept, r);
      }
    }
    forall r | r in u.db.purged ensures r.event.eventID in u.closed {
      assert r in t.purged || r in Pick(t.rows, gone);
    }
  }

  lemma IssueOK(s: State, e: ClickEvent, R: nat)
    requires Inv(s, R) && Enabled(s, Issue(e), R)
    ensures Inv(Apply(s, Issue(e), R), R)
  {
    var u := Apply(s, Issue(e), R);
    assert forall x: ClickEvent :: IsCopy(s.issued, x) ==> IsCopy(u.issued, x);
    assert QueuesOK(u, R) by {
      hide TablesOK, DecodeEvent;
      assert forall m: Msg :: MsgOK(s.issued, m, R) ==> MsgOK(u.issued, m, R);
    }
    assert TablesOK(u.db, u.issued, u.closed) by {
      hide Consistent, QueuesOK, Publishable;
      assert forall r: Row :: RowOK(s.issued, r) ==> RowOK(u.issued, r);
    }
  }

  /** A change of the tables alone. */
  lemma TablesMove(s: State, t: Tables, R: nat)
    requires Inv(s, R) && TablesOK(t, s.issued, s.closed)
    ensures Inv(s.(db := t), R)
  {
    hide TablesOK, MsgOK;
  }

  lemma CopyIsWelcome(s: State, R: nat, e: ClickEvent)
    requires Inv(s, R) && IsCopy(s.issued, e) && e.eventID !in s.closed
    ensures Welcome(s.issued, s.closed, e)
  {
    hide QueuesOK, TablesOK;
    IssuedIDsNonEmpty(s, R, e);
  }

  lemma WriteOK(s: State, c: Submission, increment: bool, limit: Option<int>, R: nat)
    requires Inv(s, R) && Enabled(s, Write(c, increment, limit), R)
    ensures Inv(Apply(s, Write(c, increment, limit), R), R)
  {
    hide QueuesOK, TablesOK, Add;
    var u := Apply(s, Write(c, increment, limit), R);
    CopyIsWelcome(s, R, Marked(c, increment).event);
    if u.db != s.db {
      AddOK(s.db, s.issued, s.closed, Marked(c, increment));
    }
    TablesMove(s, u.db, R);
  }

  lemma CommitOK(s: State, cs: seq<Submission>, R: nat)
    requires Inv(s, R) && Enabled(s, Commit(cs), R)
    ensures Inv(Apply(s, Commit(cs), R), R)
  {
    hide QueuesOK, TablesOK, Batch;
    forall c | c in cs ensures Welcome(s.issued, s.closed, c.event) {
      CopyIsWelcome(s, R, c.event);
    }
    BatchOK(s.db, s.issued, s.closed, cs);
    TablesMove(s, Batch(s.db, cs).tables, R);
  }

  /** A new link has no clicks yet. */
  lemma SetLinkOK(s: State, l: int, maxClicks: Option<int>, deleted: bool, R: nat)
    requires Inv(s, R)
    ensures Inv(s.(db := Relinked(s.db, l, maxClicks, deleted)), R)
  {
    hide QueuesOK;
    var t, u := s.db, Relinked(s.db, l, maxClicks, deleted);
    CountPositive(History(t), ByLink(l));
    hide Count;
    forall k | k in u.links ensures u.links[k].clicks == Count(History(u), ByLink(k)) {
      if k in t.links {
        assert t.links[k].clicks == Count(History(t), ByLink(k));
      }
    }
    forall k: CellKey ensures Cell(u, k) == Count(History(u), ByCell(k)) {
      assert Cell(t, k) == Count(History(t), ByCell(k));
    }
    TablesMove(s, u, R);
  }

  lemma StepKeepsInv(s: State, step: Step, R: nat)
    requires Inv(s, R) && Enabled(s, step, R)
    ensures Inv(Apply(s, step, R), R)
  {
    match step {
      case Issue(e) => IssueOK(s, e, R);
      case Commit(cs) => CommitOK(s, cs, R);
      case Write(c, increment, limit) => WriteOK(s, c, increment, limit, R);
      case Purge(gone) => PurgeOK(s, gone, R);
      case SetLink(l, maxClicks, deleted) => SetLinkOK(s, l, maxClicks, deleted, R);
      case Deliver(i) => DeliverOK(s, i, R);
      case Expire(i) => ExpireOK(s, i, R);
      case Enqueue(_) => EnqueueOK(s, step, R);
      case EnqueueJunk(_) => EnqueueOK(s, step, R);
      case Replace(i, attempt) =>
        StrayOK(s, i, attempt, R);
        MarkOK(Apply(s, Stray(i, attempt), R), i, R);
      case Stray(i, attempt) => StrayOK(s, i, attempt, R);
      case _ => SettleOK(s, step, R);
    }
  }

  // ---- runs ----

  predicate IsRun(s: State, steps: seq<Step>, R: nat)
    decreases |steps|, 0
  {
    steps == [] ||
    (IsRun(s, steps[..|steps| - 1], R) && Enabled(After(s, steps[..|steps| - 1], R), steps[|steps| - 1], R))
  }

  function After(s: State, steps: seq<Step>, R: nat): State
    requires IsRun(s, steps, R)
    decreases |steps|, 1
  {
    if steps == [] then s
    else Apply(After(s, steps[..|steps| - 1], R), steps[|steps| - 1], R)
  }

  lemma {:induction false} RunKeepsInv(s: State, steps: seq<Step>, R: nat)
    requires Inv(s, R) && IsRun(s, steps, R)
    ensures Inv(After(s, steps, R), R)
  {
    if steps != [] {
      RunKeepsInv(s, steps[..|steps| - 1], R);
      StepKeepsInv(After(s, steps[..|steps| - 1], R), steps[|steps| - 1], R);
    }
  }

  lemma {:induction false} RunConcat(s: State, a: seq<Step>, b: seq<Step>, R: nat)
    requires IsRun(s, a, R) && IsRun(After(s, a, R), b, R)
    ensures IsRun(s, a + b, R) && After(s, a + b, R) == After(After(s, a, R), b, R)
  {
    if b == [] {
      assert a + b == a;
    } else {
      var front := b[..|b| - 1];
      RunConcat(s, a, front, R);
      assert (a + b)[..|a + b| - 1] == a + front;
    }
  }

  // ---- no loss ----

  lemma StepKeepsHeld(s: State, step: Step, R: nat, id: string)
    requires Enabled(s, step, R) && Held(s, id) && id != ""
    ensures Held(Apply(s, step, R), id)
  {
    var u := Apply(s, step, R);
    if Recorded(s.db, id) {
      StepKeepsRecorded(s, step, R, id);
    } else {
      match step {
        case Enqueue(m) => SnocMembers(s.main, m);
        case EnqueueJunk(m) => SnocMembers(s.main, m);
        case Deliver(i) =>
          DropMembers(s.main, i);
          SnocMembers(s.unacked, Delivery(s.nextTag, s.main[i], false));
        case Ack(i) => DropMembers(s.unacked, i);
        case Reject(i) =>
          DropMembers(s.unacked, i);
          SnocMembers(s.dlq, s.unacked[i].msg);
        case Requeue(i) =>
          DropMembers(s.unacked, i);
          SnocMembers(s.main, s.unacked[i].msg);
        case Replace(i, attempt) =>
          var copy := Replacement(s.unacked[i].msg, attempt);
          SnocMembers(s.retry, copy);
          assert copy in u.retry && MsgID(copy) == MsgID(s.unacked[i].msg);
          if d :| d in s.unacked && !d.replaced && MsgID(d.msg) == id {
            var k :| 0 <= k < |s.unacked| && s.unacked[k] == d;
            if k != i {
              assert u.unacked[k] == d;
              assert Outstanding(u.unacked, id);
            } else {
              assert Carries(u.retry, id);
            }
          }
        case Stray(i, attempt) => SnocMembers(s.retry, Replacement(s.unacked[i].msg, attempt));
        case Expire(i) =>
          DropMembers(s.retry, i);
          SnocMembers(s.main, s.retry[i]);
        case _ =>
      }
    }
  }

  lemma BatchKeepsRecorded(t: Tables, cs: seq<Submission>, id: string)
    requires Recorded(t, id) && id != "" && Batch(t, cs).Committed?
    ensures Recorded(Batch(t, cs).tables, id)
  {
    LedgerLaws.BatchFrame(t, cs);
    var u := Batch(t, cs).tables;
    var r :| r in History(t) && r.event.eventID == id;
    if r in t.rows {
      assert Stored(t, id);
      var q :| q in u.rows && q.event.eventID == id;
      assert q in History(u);
    } else {
      assert r in History(u);
    }
  }

  lemma {:induction false} PickCovers(rows: seq<Row>, gone: set<nat>, kept: set<nat>, r: Row)
    requires forall i: nat :: i < |rows| ==> (i in kept <==> i !in gone)
    requires r in rows
    ensures r in Pick(rows, gone) || r in Pick(rows, kept)
  {
    var front, last := rows[..|rows| - 1], rows[|rows| - 1];
    if r in front {
      PickCovers(front, gone, kept, r);
    }
  }

  lemma PurgeKeepsRecorded(t: Tables, gone: set<nat>, id: string)
    requires Recorded(t, id)
    ensures Recorded(Remove(t, gone), id)
  {
    var r :| r in History(t) && r.event.eventID == id;
    var kept := set i: nat | 0 <= i < |t.rows| && i !in gone;
    if r in t.rows {
      PickCovers(t.rows, gone, kept, r);
    }
    assert r in History(Remove(t, gone));
  }

  /** A recorded event stays recorded, in the rows or in the retention history. */
  lemma StepKeepsRecorded(s: State, step: Step, R: nat, id: string)
    requires Enabled(s, step, R) && Recorded(s.db, id) && id != ""
    ensures Recorded(Apply(s, step, R).db, id)
  {
    match step {
      case Commit(cs) => BatchKeepsRecorded(s.db, cs, id);
      case Write(c, increment, limit) =>
        if Single(s.db, c, increment, limit).tables != s.db {
          AddHistory(s.db, Marked(c, increment));
          SnocMembers(History(s.db), RowOf(Marked(c, increment)));
        }
      case Purge(gone) => PurgeKeepsRecorded(s.db, gone, id);
      case _ =>
    }
  }

  /** Once held, an event is held in every later state of every run. */
  lemma {:induction false} NoLoss(s: State, steps: seq<Step>, R: nat, id: string)
    requires IsRun(s, steps, R) && Held(s, id) && id != ""
    ensures Held(After(s, steps, R), id)
    ensures Recorded(s.db, id) ==> Recorded(After(s, steps, R).db, id)
  {
    if steps != [] {
      var front := steps[..|steps| - 1];
      NoLoss(s, front, R, id);
      var m := After(s, front, R);
      StepKeepsHeld(m, steps[|steps| - 1], R, id);
      if Recorded(m.db, id) {
        StepKeepsRecorded(m, steps[|steps| - 1], R, id);
      }
    }
  }

  /** When nothing circulates and nothing was dead-lettered, every held event is committed. */
  lemma DrainedMeansRecorded(s: State, steps: seq<Step>, R: nat, id: string)
    requires IsRun(s, steps, R) && Held(s, id) && id != ""
    requires var u := After(s, steps, R); u.main == [] && u.retry == [] && u.dlq == [] && u.unacked == []
    ensures Recorded(After(s, steps, R).db, id)
  {
    NoLoss(s, steps, R, id);
  }
}
