// max_clicks under any mix of single and batched writes: the counter never passes the limit and
// exactly the first calls up to the limit are accepted.

module ClickLimit {
  import opened Wrappers
  import opened Ledger
  import opened LedgerLaws

  datatype Op = One(c: Submission, increment: bool, limit: Option<int>) | Many(cs: seq<Submission>)

  /** A failed or refused call leaves the tables alone. */
  ghost function Perform(t: Tables, op: Op): Tables {
    match op
    case One(c, increment, limit) =>
      var r := Single(t, c, increment, limit);
      if r.Done? then r.tables else t
    case Many(cs) =>
      var r := Batch(t, cs);
      if r.Committed? then r.tables else t
  }

  ghost function PerformAll(t: Tables, ops: seq<Op>): Tables {
    if ops == [] then t else Perform(PerformAll(t, ops[..|ops| - 1]), ops[|ops| - 1])
  }

  /** A counting call on link l. */
  predicate Aimed(op: Op, l: int) {
    op.One? && op.increment && op.c.event.linkID == l
  }

  ghost predicate Accepts(t: Tables, op: Op) {
    op.One? && var r := Single(t, op.c, op.increment, op.limit); r.Done? && r.accepted
  }

  /** Callers pass the link's own limit with every counting call. */
  predicate PassLimit(ops: seq<Op>, l: int, m: int) {
    forall op :: op in ops && Aimed(op, l) ==> op.limit == Some(m)
  }

  ghost predicate Limited(t: Tables, l: int, m: int) {
    l in t.links && !t.links[l].deleted && t.links[l].maxClicks == Some(m)
  }

  predicate Uses(op: Op, id: string) {
    match op
    case One(c, _, _) => c.event.eventID == id
    case Many(cs) => exists c :: c in cs && c.event.eventID == id
  }

  lemma {:induction false} BatchKeepsLimited(t: Tables, cs: seq<Submission>, l: int, m: int)
    requires Limited(t, l, m) && Batch(t, cs).Committed?
    ensures Limited(Batch(t, cs).tables, l, m)
    ensures Batch(t, cs).tables.links[l].clicks == t.links[l].clicks
  {
    if cs != [] {
      BatchKeepsLimited(t, cs[..|cs| - 1], l, m);
    }
  }

  /** One call moves the counter of a limited link by one exactly when it is a new counting call below the limit. */
  lemma StepOnLimited(t: Tables, op: Op, l: int, m: int)
    requires Limited(t, l, m) && PassLimit([op], l, m)
    ensures var u, k := Perform(t, op), t.links[l].clicks;
            && Limited(u, l, m)
            && (forall id: string :: Stored(t, id) ==> Stored(u, id))
            && (forall id: string :: Stored(u, id) ==> Stored(t, id) || Uses(op, id))
            && u.links[l].clicks ==
                 (if Aimed(op, l) && !Stored(t, op.c.event.eventID) && k < m then k + 1 else k)
            && (Aimed(op, l) ==> (Accepts(t, op) <==> Stored(t, op.c.event.eventID) || k < m))
            && (Aimed(op, l) && !Accepts(t, op) ==> u == t)
            && (Aimed(op, l) && Accepts(t, op) && op.c.event.eventID != "" ==> Stored(u, op.c.event.eventID))
  {
    assert Aimed(op, l) ==> op in [op];
    match op
    case Many(cs) =>
      if Batch(t, cs).Committed? {
        BatchKeepsLimited(t, cs, l, m);
        BatchFrame(t, cs);
      }
    case One(c, increment, limit) =>
      var r := Single(t, c, increment, limit);
      if r.Done? && r.tables != t {
        AddHistory(t, Marked(c, increment));
        assert RowOf(Marked(c, increment)) in r.tables.rows;
        assert forall row :: row in r.tables.rows <==> row in t.rows || row == RowOf(Marked(c, increment));
      }
  }

  lemma {:induction false} CounterNeverPassesLimit(t: Tables, ops: seq<Op>, l: int, m: int)
    requires Limited(t, l, m) && t.links[l].clicks <= m && PassLimit(ops, l, m)
    ensures Limited(PerformAll(t, ops), l, m)
    ensures t.links[l].clicks <= PerformAll(t, ops).links[l].clicks <= m
    ensures forall id: string :: Stored(t, id) ==> Stored(PerformAll(t, ops), id)
    ensures forall id: string :: Stored(PerformAll(t, ops), id) ==>
      Stored(t, id) || exists op :: op in ops && Uses(op, id)
  {
    if ops != [] {
      CounterNeverPassesLimit(t, ops[..|ops| - 1], l, m);
      StepOnLimited(PerformAll(t, ops[..|ops| - 1]), ops[|ops| - 1], l, m);
    }
  }

  function Aims(ops: seq<Op>, l: int): nat {
    if ops == [] then 0 else Aims(ops[..|ops| - 1], l) + if Aimed(ops[|ops| - 1], l) then 1 else 0
  }

  ghost function AcceptedAims(t: Tables, ops: seq<Op>, l: int): nat {
    if ops == [] then 0
    else
      var front, op := ops[..|ops| - 1], ops[|ops| - 1];
      AcceptedAims(t, front, l) + if Aimed(op, l) && Accepts(PerformAll(t, front), op) then 1 else 0
  }

  /** Every counting call on l carries an id that no earlier call used and the tables did not hold. */
  ghost predicate NewIDs(t: Tables, ops: seq<Op>, l: int) {
    forall i :: 0 <= i < |ops| && Aimed(ops[i], l) && ops[i].c.event.eventID != "" ==>
      !Stored(t, ops[i].c.event.eventID) && forall j :: 0 <= j < i ==> !Uses(ops[j], ops[i].c.event.eventID)
  }

  /** Of n counting calls with new ids, exactly min(n, room left) are accepted and counted. */
  lemma {:induction false} ExactlyLimitAccepted(t: Tables, ops: seq<Op>, l: int, m: int)
    requires Limited(t, l, m) && 0 <= t.links[l].clicks <= m && PassLimit(ops, l, m) && NewIDs(t, ops, l)
    ensures var room, n := m - t.links[l].clicks, Aims(ops, l);
            && AcceptedAims(t, ops, l) == (if n <= room then n else room)
            && Limited(PerformAll(t, ops), l, m)
            && PerformAll(t, ops).links[l].clicks == t.links[l].clicks + AcceptedAims(t, ops, l)
  {
    if ops != [] {
      var front, op := ops[..|ops| - 1], ops[|ops| - 1];
      assert NewIDs(t, front, l) by {
        assert forall i :: 0 <= i < |front| ==> front[i] == ops[i];
      }
      ExactlyLimitAccepted(t, front, l, m);
      CounterNeverPassesLimit(t, front, l, m);
      StepOnLimited(PerformAll(t, front), op, l, m);
      if Aimed(op, l) {
        var id := op.c.event.eventID;
        forall o | o in front && id != "" ensures !Uses(o, id) {
          var j :| 0 <= j < |front| && front[j] == o;
          assert ops[j] == o;
        }
      }
    }
  }

  /** A counting call that was accepted once is answered true again at any later point, without effect. */
  lemma ReplayIsNoOp(t: Tables, op: Op, later: seq<Op>, l: int, m: int)
    requires Limited(t, l, m) && t.links[l].clicks <= m && PassLimit([op] + later, l, m)
    requires Aimed(op, l) && op.c.event.eventID != "" && Accepts(t, op)
    ensures var u := PerformAll(Perform(t, op), later);
            Single(u, op.c, op.increment, op.limit) == Done(true, u)
  {
    assert PassLimit([op], l, m) && PassLimit(later, l, m) by {
      assert forall o :: o in [op] || o in later ==> o in [op] + later;
    }
    StepOnLimited(t, op, l, m);
    CounterNeverPassesLimit(Perform(t, op), later, l, m);
  }
}
