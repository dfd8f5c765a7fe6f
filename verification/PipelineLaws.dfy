// What the pipeline's invariant means: every counter is the number of distinct counted events, and
// retries and their delays run out whatever the store does.

module PipelineLaws {
  import opened Models
  import opened Ledger
  import opened Payload
  import opened Pipeline

  // ---- exactly once ----

  /** An event counted by a query, judged from the event alone. */
  predicate Counts(q: Query, e: ClickEvent)
    requires e.occurredAt.Some?
  {
    Matches(q, Row(e, e.occurredAt.value))
  }

  /** The ids of the distinct committed events a query counts. */
  ghost function CommittedIDs(s: State, q: Query): set<string> {
    set id | id in s.issued && s.issued[id].occurredAt.Some? && Counts(q, s.issued[id]) && Recorded(s.db, id)
  }

  ghost function MatchingIDs(rows: seq<Row>, q: Query): set<string> {
    set r | r in rows && Matches(q, r) :: r.event.eventID
  }

  lemma {:induction false} DistinctCount(rows: seq<Row>, q: Query)
    requires forall id: string :: Count(rows, ByID(id)) <= 1
    ensures Count(rows, q) == |MatchingIDs(rows, q)|
  {
    if rows != [] {
      var front, r := rows[..|rows| - 1], rows[|rows| - 1];
      assert rows == front + [r];
      forall id: string ensures Count(front, ByID(id)) + (if r.event.eventID == id then 1 else 0) <= 1 {
        CountSnoc(front, r, ByID(id));
        assert Count(rows, ByID(id)) <= 1;
      }
      DistinctCount(front, q);
      LastIsNew(front, r, q);
    }
  }

  lemma LastIsNew(front: seq<Row>, r: Row, q: Query)
    requires Count(front, ByID(r.event.eventID)) == 0
    requires Count(front, q) == |MatchingIDs(front, q)|
    ensures Count(front + [r], q) == |MatchingIDs(front + [r], q)|
  {
    hide Count;
    IDIsNew(front, r, q);
    OneMoreID(front, r, q);
    CountSnoc(front, r, q);
  }

  lemma IDIsNew(front: seq<Row>, r: Row, q: Query)
    requires Count(front, ByID(r.event.eventID)) == 0
    ensures r.event.eventID !in MatchingIDs(front, q)
  {
    CountPositive(front, ByID(r.event.eventID));
    hide Count;
    forall x | x in front ensures x.event.eventID != r.event.eventID {
      assert !Matches(ByID(r.event.eventID), x);
    }
  }

  lemma OneMoreID(front: seq<Row>, r: Row, q: Query)
    ensures MatchingIDs(front + [r], q) == MatchingIDs(front, q) + if Matches(q, r) then {r.event.eventID} else {}
  {
    hide Matches;
  }

  lemma RowsAreIssued(s: State, q: Query, R: nat)
    requires Inv(s, R)
    ensures MatchingIDs(History(s.db), q) == CommittedIDs(s, q)
  {
    forall r | r in History(s.db)
      ensures r.event.eventID in s.issued && (Matches(q, r) <==> Counts(q, s.issued[r.event.eventID]))
    {
      assert RowOK(s.issued, r);
    }
    forall id | id in CommittedIDs(s, q) ensures id in MatchingIDs(History(s.db), q) {
      var r :| r in History(s.db) && r.event.eventID == id;
    }
  }

  /** Links and cells count distinct committed events, however many copies of them circulated. */
  lemma ExactlyOnce(s: State, steps: seq<Step>, R: nat)
    requires Inv(s, R) && IsRun(s, steps, R)
    ensures var u := After(s, steps, R);
            && (forall l :: l in u.db.links ==> u.db.links[l].clicks == |CommittedIDs(u, ByLink(l))|)
            && (forall k: CellKey :: Cell(u.db, k) == |CommittedIDs(u, ByCell(k))|)
            && (forall id: string :: Count(u.db.rows, ByID(id)) <= 1)
  {
    RunKeepsInv(s, steps, R);
    var u := After(s, steps, R);
    forall q: Query ensures Count(History(u.db), q) == |CommittedIDs(u, q)| {
      DistinctCount(History(u.db), q);
      RowsAreIssued(u, q, R);
    }
    forall l | l in u.db.links ensures u.db.links[l].clicks == |CommittedIDs(u, ByLink(l))| {
      assert u.db.links[l].clicks == Count(History(u.db), ByLink(l));
    }
    forall k: CellKey ensures Cell(u.db, k) == |CommittedIDs(u, ByCell(k))| {
      assert Cell(u.db, k) == Count(History(u.db), ByCell(k));
    }
    forall id: string ensures Count(u.db.rows, ByID(id)) <= 1 {
      CountConcat(u.db.purged, u.db.rows, ByID(id));
      assert Count(History(u.db), ByID(id)) <= 1;
    }
  }

  // ---- retries run out ----

  /** What a run is charged for, at a maximum number of retries: the handlings of deliveries, or the milliseconds
      for which retry publishes delay their messages. */
  datatype Charge = Handling(R: nat) | Waiting(R: nat)

  /** How long a message with this retry count can still be delayed. */
  function WaitLeft(count: int, R: nat): int {
    if 0 <= count < R then TotalBackoff(R - 1) - TotalBackoff(count) else 0
  }

  /** What can still be charged for a valid message with this retry count. */
  function Left(count: int, c: Charge): int {
    match c
    case Handling(R) => R - count
    case Waiting(R) => WaitLeft(count, R)
  }

  /** What is charged for settling one delivery. */
  function Unit(c: Charge): int {
    if c.Handling? then 1 else 0
  }

  /** What can still be charged for a message. */
  function Weight(m: Msg, c: Charge): int {
    if DecodeEvent(m.body).Decoded? then Left(RetryCount(m.header), c) else Unit(c)
  }

  function QueueWeight(q: seq<Msg>, c: Charge): int {
    if q == [] then 0 else QueueWeight(q[..|q| - 1], c) + Weight(q[|q| - 1], c)
  }

  /** A replaced delivery is accounted for by its copy. One in `tried`, whose retry publish was not confirmed but
      still reached the retry queue, is only worth its own settlement: its copy carries the rest. */
  function DeliveryWeight(d: Delivery, tried: set<nat>, c: Charge): int {
    if d.replaced then 0 else if d.tag in tried then Unit(c) else Weight(d.msg, c)
  }

  function UnackedWeight(us: seq<Delivery>, tried: set<nat>, c: Charge): int {
    if us == [] then 0 else UnackedWeight(us[..|us| - 1], tried, c) + DeliveryWeight(us[|us| - 1], tried, c)
  }

  function Potential(s: State, tried: set<nat>, c: Charge): int {
    QueueWeight(s.main, c) + QueueWeight(s.retry, c) + UnackedWeight(s.unacked, tried, c)
  }

  /** A worker finished with a delivery: acknowledged after a commit, dead-lettered, or rescheduled. A requeued
      delivery is just delivered again. */
  predicate Handles(s: State, step: Step)
    requires (step.Ack? || step.Reject?) ==> step.i < |s.unacked|
  {
    match step
    case Ack(i) => !s.unacked[i].replaced
    case Reject(i) => !s.unacked[i].replaced
    case Replace(_, _) => true
    case _ => false
  }

  /** The delay that a retry publish, confirmed or not, gives its message. */
  function Delay(step: Step): int {
    match step
    case Replace(_, attempt) => if attempt >= 1 then BackoffMillis(attempt) else 0
    case Stray(_, attempt) => if attempt >= 1 then BackoffMillis(attempt) else 0
    case _ => 0
  }

  function Cost(s: State, step: Step, c: Charge): int
    requires (step.Ack? || step.Reject?) ==> step.i < |s.unacked|
  {
    if c.Waiting? then Delay(step) else if Handles(s, step) then 1 else 0
  }

  /** Delays do not overflow. */
  predicate InRange(c: Charge) {
    0 < c.R && (c.Waiting? ==> c.R <= 37)
  }

  lemma LeftNonNegative(count: int, c: Charge)
    requires InRange(c) && 0 <= count < c.R
    ensures Left(count, c) >= Unit(c)
  {
    if c.Waiting? {
      TotalBackoffBound(count);
      TotalBackoffBound(c.R - 1);
      Pow2Grows(count, c.R - 1);
    }
  }

  /** One more attempt costs its delay. */
  lemma LeftAfter(attempt: nat, R: nat)
    requires 1 <= attempt < R
    ensures Left(attempt - 1, Waiting(R)) == Left(attempt, Waiting(R)) + BackoffMillis(attempt)
    ensures Left(attempt - 1, Handling(R)) == Left(attempt, Handling(R)) + 1
  {
    hide BackoffMillis;
  }

  predicate Touches(s: State, step: Step) {
    (step.Requeue? || step.Stray? || step.Replace?) ==> step.i < |s.unacked|
  }

  /** The deliveries with an unconfirmed copy, after one more step. */
  function TriedAfter(s: State, step: Step, tried: set<nat>): set<nat>
    requires Touches(s, step)
  {
    if step.Stray? then tried + {s.unacked[step.i].tag} else tried
  }

  /** What a step brings in: new messages, and whatever is still owed on a delivery that was offered to the
      retryer and is offered again or put back. */
  function Brought(s: State, step: Step, tried: set<nat>, c: Charge): int
    requires Touches(s, step)
  {
    match step
    case Enqueue(_) => Left(0, c)
    case EnqueueJunk(_) => Unit(c)
    case Stray(i, _) => Extra(s.unacked[i], tried, c)
    case Replace(i, _) => Extra(s.unacked[i], tried, c)
    case Requeue(i) => if s.unacked[i].replaced then Weight(s.unacked[i].msg, c) else Extra(s.unacked[i], tried, c)
    case _ => 0
  }

  function Extra(d: Delivery, tried: set<nat>, c: Charge): int {
    if d.tag in tried then Weight(d.msg, c) - Unit(c) else 0
  }

  lemma {:induction false} QueueConcat(a: seq<Msg>, b: seq<Msg>, c: Charge)
    ensures QueueWeight(a + b, c) == QueueWeight(a, c) + QueueWeight(b, c)
  {
    if b == [] {
      assert a + b == a;
    } else {
      QueueConcat(a, b[..|b| - 1], c);
      assert (a + b)[..|a + b| - 1] == a + b[..|b| - 1];
    }
  }

  lemma {:induction false} UnackedConcat(a: seq<Delivery>, b: seq<Delivery>, tried: set<nat>, c: Charge)
    ensures UnackedWeight(a + b, tried, c) == UnackedWeight(a, tried, c) + UnackedWeight(b, tried, c)
  {
    if b == [] {
      assert a + b == a;
    } else {
      UnackedConcat(a, b[..|b| - 1], tried, c);
      assert (a + b)[..|a + b| - 1] == a + b[..|b| - 1];
    }
  }

  lemma QueueSnoc(q: seq<Msg>, m: Msg, c: Charge)
    ensures QueueWeight(q + [m], c) == QueueWeight(q, c) + Weight(m, c)
  {
    assert (q + [m])[..|q|] == q;
  }

  lemma UnackedOne(d: Delivery, tried: set<nat>, c: Charge)
    ensures UnackedWeight([d], tried, c) == DeliveryWeight(d, tried, c)
  {
    assert [d][..0] == [];
  }

  lemma QueueDrop(q: seq<Msg>, i: nat, c: Charge)
    requires i < |q|
    ensures QueueWeight(q, c) == QueueWeight(Drop(q, i), c) + Weight(q[i], c)
  {
    assert q == (q[..i] + [q[i]]) + q[i + 1..];
    QueueConcat(q[..i] + [q[i]], q[i + 1..], c);
    QueueSnoc(q[..i], q[i], c);
    QueueConcat(q[..i], q[i + 1..], c);
  }

  lemma UnackedSplit(us: seq<Delivery>, i: nat, tried: set<nat>, c: Charge)
    requires i < |us|
    ensures UnackedWeight(us, tried, c)
         == UnackedWeight(us[..i], tried, c) + DeliveryWeight(us[i], tried, c) + UnackedWeight(us[i + 1..], tried, c)
  {
    assert us == (us[..i] + [us[i]]) + us[i + 1..];
    UnackedConcat(us[..i] + [us[i]], us[i + 1..], tried, c);
    UnackedConcat(us[..i], [us[i]], tried, c);
    UnackedOne(us[i], tried, c);
  }

  lemma UnackedSet(us: seq<Delivery>, i: nat, d: Delivery, tried: set<nat>, c: Charge)
    requires i < |us|
    ensures UnackedWeight(us[i := d], tried, c)
         == UnackedWeight(us, tried, c) - DeliveryWeight(us[i], tried, c) + DeliveryWeight(d, tried, c)
    ensures UnackedWeight(us, tried, c) == UnackedWeight(Drop(us, i), tried, c) + DeliveryWeight(us[i], tried, c)
  {
    hide UnackedWeight, DeliveryWeight;
    UnackedSplit(us, i, tried, c);
    UnackedSplit(us[i := d], i, tried, c);
    assert us[i := d][..i] == us[..i] && us[i := d][i + 1..] == us[i + 1..];
    UnackedConcat(us[..i], us[i + 1..], tried, c);
  }

  lemma {:induction false} OtherTags(us: seq<Delivery>, tag: nat, tried: set<nat>, c: Charge)
    requires forall d :: d in us ==> d.tag != tag
    ensures UnackedWeight(us, tried + {tag}, c) == UnackedWeight(us, tried, c)
  {
    if us != [] {
      assert us[|us| - 1] in us;
      OtherTags(us[..|us| - 1], tag, tried, c);
    }
  }

  /** An unconfirmed copy takes over all of its delivery's weight but its settlement. */
  lemma UnackedTried(us: seq<Delivery>, i: nat, tried: set<nat>, c: Charge)
    requires i < |us| && !us[i].replaced && us[i].tag !in tried
    requires forall j, k :: 0 <= j < k < |us| ==> us[j].tag != us[k].tag
    ensures UnackedWeight(us, tried + {us[i].tag}, c) == UnackedWeight(us, tried, c) - Weight(us[i].msg, c) + Unit(c)
  {
    UnackedSplit(us, i, tried, c);
    UnackedSplit(us, i, tried + {us[i].tag}, c);
    OtherTags(us[..i], us[i].tag, tried, c);
    OtherTags(us[i + 1..], us[i].tag, tried, c);
  }

  /** Tags in `tried` belong to deliveries that were made. */
  predicate TagsKnown(s: State, tried: set<nat>) {
    forall tag :: tag in tried ==> tag < s.nextTag
  }

  /** Each handling uses up at least one unit of potential, each delay its milliseconds. */
  lemma StepPays(s: State, step: Step, tried: set<nat>, c: Charge)
    requires Inv(s, c.R) && Enabled(s, step, c.R) && TagsKnown(s, tried) && InRange(c)
    ensures TagsKnown(Apply(s, step, c.R), TriedAfter(s, step, tried))
    ensures Potential(Apply(s, step, c.R), TriedAfter(s, step, tried), c) + Cost(s, step, c)
         <= Potential(s, tried, c) + Brought(s, step, tried, c)
  {
    hide QueueWeight, UnackedWeight, TablesOK, DecodeEvent, DeliveryWeight, QueuesOK, BackoffMillis, Left;
    match step {
      case Enqueue(m) => QueueSnoc(s.main, m, c);
      case EnqueueJunk(m) => QueueSnoc(s.main, m, c);
      case Deliver(i) => DeliverPays(s, i, tried, c);
      case Expire(i) =>
        QueueDrop(s.retry, i, c);
        QueueSnoc(s.main, s.retry[i], c);
      case Ack(i) => SettlePays(s, i, tried, c);
      case Reject(i) => SettlePays(s, i, tried, c);
      case Requeue(i) => RequeuePays(s, i, tried, c);
      case Replace(i, attempt) => ReplacePays(s, i, attempt, tried, c);
      case Stray(i, attempt) => StrayPays(s, i, attempt, tried, c);
      case _ =>
    }
  }

  lemma SettlePays(s: State, i: nat, tried: set<nat>, c: Charge)
    requires Inv(s, c.R) && i < |s.unacked| && InRange(c)
    ensures UnackedWeight(Drop(s.unacked, i), tried, c) + (if s.unacked[i].replaced then 0 else Unit(c))
         <= UnackedWeight(s.unacked, tried, c)
  {
    hide UnackedWeight, TablesOK;
    assert s.unacked[i] in s.unacked;
    WeightNonNegative(s, s.unacked[i].msg, c);
    hide Weight;
    UnackedSet(s.unacked, i, s.unacked[i], tried, c);
  }

  /** A new delivery has a new tag, so it weighs what its message does. */
  lemma DeliverPays(s: State, i: nat, tried: set<nat>, c: Charge)
    requires i < |s.main| && TagsKnown(s, tried)
    ensures Potential(Apply(s, Deliver(i), c.R), tried, c) == Potential(s, tried, c)
  {
    hide QueueWeight, UnackedWeight, Weight;
    var d := Delivery(s.nextTag, s.main[i], false);
    QueueDrop(s.main, i, c);
    UnackedConcat(s.unacked, [d], tried, c);
    UnackedOne(d, tried, c);
  }

  lemma RequeuePays(s: State, i: nat, tried: set<nat>, c: Charge)
    requires i < |s.unacked|
    ensures Potential(Apply(s, Requeue(i), c.R), tried, c) == Potential(s, tried, c) + Brought(s, Requeue(i), tried, c)
  {
    hide QueueWeight, UnackedWeight;
    UnackedSet(s.unacked, i, s.unacked[i], tried, c);
    QueueSnoc(s.main, s.unacked[i].msg, c);
  }

  /** A copy can be charged for all that its message can but this attempt. */
  lemma CopyWeight(s: State, i: nat, attempt: nat, c: Charge)
    requires Inv(s, c.R) && Enabled(s, Stray(i, attempt), c.R)
    ensures Weight(Replacement(s.unacked[i].msg, attempt), c) + (if c.Waiting? then BackoffMillis(attempt) else 1)
         == Weight(s.unacked[i].msg, c)
  {
    hide TablesOK;
    RetryHeaderReadsBack(attempt);
    LeftAfter(attempt, c.R);
    hide Left, BackoffMillis;
  }

  lemma ReplacePays(s: State, i: nat, attempt: nat, tried: set<nat>, c: Charge)
    requires Inv(s, c.R) && Enabled(s, Replace(i, attempt), c.R)
    ensures Potential(Apply(s, Replace(i, attempt), c.R), tried, c) + Cost(s, Replace(i, attempt), c)
         == Potential(s, tried, c) + Extra(s.unacked[i], tried, c)
  {
    CopyWeight(s, i, attempt, c);
    var u, d := Apply(s, Replace(i, attempt), c.R), s.unacked[i];
    var done := d.(replaced := true);
    assert u.unacked == s.unacked[i := done] && u.main == s.main && u.retry == s.retry + [Replacement(d.msg, attempt)];
    assert !d.replaced && attempt >= 1;
    hide QueueWeight, UnackedWeight, Weight, BackoffMillis, Inv, Apply, Enabled, Replacement, MarkReplaced;
    UnackedSet(s.unacked, i, done, tried, c);
    QueueSnoc(s.retry, Replacement(d.msg, attempt), c);
  }

  lemma StrayPays(s: State, i: nat, attempt: nat, tried: set<nat>, c: Charge)
    requires Inv(s, c.R) && Enabled(s, Stray(i, attempt), c.R)
    ensures s.unacked[i].tag < s.nextTag
    ensures Potential(Apply(s, Stray(i, attempt), c.R), tried + {s.unacked[i].tag}, c) + Cost(s, Stray(i, attempt), c)
         == Potential(s, tried, c) + Extra(s.unacked[i], tried, c)
  {
    CopyWeight(s, i, attempt, c);
    hide QueueWeight, UnackedWeight, Weight, BackoffMillis, TablesOK, MsgOK, Circulates;
    var d := s.unacked[i];
    assert d in s.unacked;
    QueueSnoc(s.retry, Replacement(d.msg, attempt), c);
    if d.tag in tried {
      assert tried + {d.tag} == tried;
    } else {
      UnackedTried(s.unacked, i, tried, c);
    }
  }

  lemma PotentialNonNegative(s: State, tried: set<nat>, c: Charge)
    requires Inv(s, c.R) && InRange(c)
    ensures Potential(s, tried, c) >= 0
  {
    QueueNonNegative(s, s.main, c);
    QueueNonNegative(s, s.retry, c);
    UnackedNonNegative(s, s.unacked, tried, c);
  }

  lemma WeightNonNegative(s: State, m: Msg, c: Charge)
    requires InRange(c) && MsgOK(s.issued, m, c.R)
    ensures Weight(m, c) >= Unit(c) >= 0
  {
    if DecodeEvent(m.body).Decoded? {
      LeftNonNegative(RetryCount(m.header), c);
    }
  }

  lemma {:induction false} QueueNonNegative(s: State, q: seq<Msg>, c: Charge)
    requires InRange(c) && forall m :: m in q ==> MsgOK(s.issued, m, c.R)
    ensures QueueWeight(q, c) >= 0
  {
    if q != [] {
      QueueNonNegative(s, q[..|q| - 1], c);
      WeightNonNegative(s, q[|q| - 1], c);
    }
  }

  lemma {:induction false} UnackedNonNegative(s: State, us: seq<Delivery>, tried: set<nat>, c: Charge)
    requires InRange(c) && forall d :: d in us ==> MsgOK(s.issued, d.msg, c.R)
    ensures UnackedWeight(us, tried, c) >= 0
  {
    if us != [] {
      UnackedNonNegative(s, us[..|us| - 1], tried, c);
      WeightNonNegative(s, us[|us| - 1].msg, c);
    }
  }

  /** What a run is charged. */
  ghost function Charged(s: State, steps: seq<Step>, c: Charge): int
    requires IsRun(s, steps, c.R)
  {
    if steps == [] then 0
    else
      var front := steps[..|steps| - 1];
      Charged(s, front, c) + Cost(After(s, front, c.R), steps[|steps| - 1], c)
  }

  /** How many times a delivery was handled. */
  ghost function Handlings(s: State, steps: seq<Step>, R: nat): int
    requires IsRun(s, steps, R)
  {
    Charged(s, steps, Handling(R))
  }

  /** The delays of all retry publishes, in milliseconds. */
  ghost function Waited(s: State, steps: seq<Step>, R: nat): int
    requires IsRun(s, steps, R)
  {
    Charged(s, steps, Waiting(R))
  }

  /** The deliveries whose unconfirmed copies reached the retry queue along a run. */
  ghost function Tried(s: State, steps: seq<Step>, R: nat): set<nat>
    requires IsRun(s, steps, R)
  {
    if steps == [] then {}
    else
      var front := steps[..|steps| - 1];
      TriedAfter(After(s, front, R), steps[|steps| - 1], Tried(s, front, R))
  }

  ghost function BroughtIn(s: State, steps: seq<Step>, c: Charge): int
    requires IsRun(s, steps, c.R)
  {
    if steps == [] then 0
    else
      var front := steps[..|steps| - 1];
      BroughtIn(s, front, c) + Brought(After(s, front, c.R), steps[|steps| - 1], Tried(s, front, c.R), c)
  }

  lemma TriedKnown(s: State, steps: seq<Step>, R: nat)
    requires Inv(s, R) && IsRun(s, steps, R)
    ensures TagsKnown(After(s, steps, R), Tried(s, steps, R))
  {
    PotentialAlongRun(s, steps, Handling(R));
  }

  lemma {:induction false} PotentialAlongRun(s: State, steps: seq<Step>, c: Charge)
    requires Inv(s, c.R) && IsRun(s, steps, c.R) && InRange(c)
    ensures TagsKnown(After(s, steps, c.R), Tried(s, steps, c.R))
    ensures Charged(s, steps, c) + Potential(After(s, steps, c.R), Tried(s, steps, c.R), c)
         <= Potential(s, {}, c) + BroughtIn(s, steps, c)
  {
    if steps != [] {
      var front := steps[..|steps| - 1];
      hide Inv, Potential, Cost, Brought, TriedAfter, TagsKnown, Apply, Enabled;
      PotentialAlongRun(s, front, c);
      RunKeepsInv(s, front, c.R);
      StepPays(After(s, front, c.R), steps[|steps| - 1], Tried(s, front, c.R), c);
    }
  }

  /** A delivery that was offered to the retryer is not offered again and not put back: a worker offers each
      delivery once and settles it next, and its connection is not lost in between. Whether the retry publish
      was confirmed, failed, or failed and still got through does not matter. */
  predicate OffersOnce(s: State, step: Step, tried: set<nat>)
    requires Touches(s, step)
  {
    match step
    case Stray(i, _) => s.unacked[i].tag !in tried
    case Replace(i, _) => s.unacked[i].tag !in tried
    case Requeue(i) => !s.unacked[i].replaced && s.unacked[i].tag !in tried
    case _ => true
  }

  ghost predicate OfferedOnce(s: State, steps: seq<Step>, R: nat)
    requires IsRun(s, steps, R)
  {
    steps == [] ||
    (OfferedOnce(s, steps[..|steps| - 1], R) &&
     OffersOnce(After(s, steps[..|steps| - 1], R), steps[|steps| - 1], Tried(s, steps[..|steps| - 1], R)))
  }

  predicate Publishes(step: Step) {
    step.Enqueue? || step.EnqueueJunk?
  }

  function Published(steps: seq<Step>): nat {
    if steps == [] then 0
    else Published(steps[..|steps| - 1]) + if Publishes(steps[|steps| - 1]) then 1 else 0
  }

  lemma BroughtOnce(s: State, step: Step, tried: set<nat>, c: Charge)
    requires Touches(s, step) && OffersOnce(s, step, tried) && InRange(c)
    ensures Brought(s, step, tried, c) <= if Publishes(step) then Left(0, c) else 0
  {
    LeftNonNegative(0, c);
    hide Left;
  }

  lemma {:induction false} BroughtByPublishing(s: State, steps: seq<Step>, c: Charge)
    requires IsRun(s, steps, c.R) && OfferedOnce(s, steps, c.R) && InRange(c)
    ensures BroughtIn(s, steps, c) <= Published(steps) * Left(0, c)
  {
    if steps != [] {
      var front, step := steps[..|steps| - 1], steps[|steps| - 1];
      hide Brought, OffersOnce, TriedAfter, Apply, Enabled, Publishes, Left, InRange;
      BroughtByPublishing(s, front, c);
      BroughtOnce(After(s, front, c.R), step, Tried(s, front, c.R), c);
      OneMore(Published(front), Left(0, c));
    }
  }

  lemma OneMore(n: int, w: int)
    ensures (n + 1) * w == n * w + w
  {
  }

  /** A run is charged at most for what was there at the start and what was published. */
  lemma ChargeRunsOut(s: State, steps: seq<Step>, c: Charge)
    requires Inv(s, c.R) && IsRun(s, steps, c.R) && OfferedOnce(s, steps, c.R) && InRange(c)
    ensures Charged(s, steps, c) <= Potential(s, {}, c) + Published(steps) * Left(0, c)
    ensures s.main == [] && s.retry == [] && s.unacked == [] ==> Potential(s, {}, c) == 0
  {
    PotentialAlongRun(s, steps, c);
    BroughtByPublishing(s, steps, c);
    RunKeepsInv(s, steps, c.R);
    PotentialNonNegative(After(s, steps, c.R), Tried(s, steps, c.R), c);
  }

  /** Whatever the store does and whether or not retry publishes are confirmed, n published messages cause at
      most n times MaxRetries handlings, on top of those that what was queued at the start is good for. */
  lemma RetriesRunOut(s: State, steps: seq<Step>, R: nat)
    requires Inv(s, R) && IsRun(s, steps, R) && OfferedOnce(s, steps, R)
    ensures Handlings(s, steps, R) <= Potential(s, {}, Handling(R)) + Published(steps) * R
    ensures s.main == [] && s.retry == [] && s.unacked == [] ==> Handlings(s, steps, R) <= Published(steps) * R
  {
    hide Inv, OfferedOnce, Potential, Charged;
    RangeOf(s, R);
    ChargeRunsOut(s, steps, Handling(R));
  }

  lemma RangeOf(s: State, R: nat)
    requires Inv(s, R)
    ensures 0 < R
  {
  }

  /** And unless the delay overflows, all their retries together are delayed by at most
      250 * (2^(MaxRetries - 1) - 1) milliseconds a published message: 3.75 seconds with the default of five. */
  lemma WaitingRunsOut(s: State, steps: seq<Step>, R: nat)
    requires Inv(s, R) && IsRun(s, steps, R) && OfferedOnce(s, steps, R) && R <= 37
    ensures Waited(s, steps, R) <= Potential(s, {}, Waiting(R)) + Published(steps) * (250 * (Pow2(R - 1) - 1))
    ensures s.main == [] && s.retry == [] && s.unacked == [] ==>
      Waited(s, steps, R) <= Published(steps) * (250 * (Pow2(R - 1) - 1))
  {
    hide Inv, OfferedOnce, Potential, Charged;
    RangeOf(s, R);
    ChargeRunsOut(s, steps, Waiting(R));
    TotalBackoffBound(R - 1);
    assert Left(0, Waiting(R)) == 250 * (Pow2(R - 1) - 1);
  }
}
