// The click tables as values: what one committed transaction of the store does to them.
// Raw rows, link counters and daily rollup cells must count every event exactly once.

module Ledger {
  import opened Wrappers
  import opened Models

  /** One event handed to the store, with the two clock readings the store takes while writing it. */
  datatype Submission = Submission(event: ClickEvent, insertNow: Time, rollupNow: Time)

  /** A raw click row. `event.increment` is not a column: it is history that no operation reads. */
  datatype Row = Row(event: ClickEvent, createdAt: Time)

  datatype CellKey = CellKey(
    day: int, linkID: int, countryCode: string, device: string, browser: string,
    referrerHost: string, utmCampaign: string, routeType: string, statusCode: int)

  datatype LinkRow = LinkRow(clicks: int, maxClicks: Option<int>, deleted: bool)

  /** The committed tables. `purged` is history: rows removed by retention, oldest first. */
  datatype Tables = Tables(
    links: map<int, LinkRow>, rows: seq<Row>, purged: seq<Row>, rollup: map<CellKey, int>)

  function History(t: Tables): seq<Row> {
    t.purged + t.rows
  }

  // ---- counting rows ----

  /** The three ways a row is counted. */
  datatype Query = ByLink(linkID: int) | ByCell(key: CellKey) | ByID(eventID: string)

  function KeyOf(day: int, e: ClickEvent): CellKey {
    CellKey(day, e.linkID, e.countryCode, e.device, e.browser, e.referrerHost, e.utmCampaign, e.routeType, e.statusCode)
  }

  predicate Matches(q: Query, r: Row) {
    match q
    case ByLink(l) => r.event.increment && r.event.linkID == l
    case ByCell(k) => KeyOf(UTCDay(r.createdAt), r.event) == k
    case ByID(id) => r.event.eventID == id
  }

  function Count(rows: seq<Row>, q: Query): nat {
    if rows == [] then 0
    else Count(rows[..|rows| - 1], q) + if Matches(q, rows[|rows| - 1]) then 1 else 0
  }

  lemma CountSnoc(rows: seq<Row>, r: Row, q: Query)
    ensures Count(rows + [r], q) == Count(rows, q) + if Matches(q, r) then 1 else 0
  {
    assert (rows + [r])[..|rows|] == rows;
  }

  lemma {:induction false} CountConcat(a: seq<Row>, b: seq<Row>, q: Query)
    ensures Count(a + b, q) == Count(a, q) + Count(b, q)
  {
    if b == [] {
      assert a + b == a;
    } else {
      var front, last := b[..|b| - 1], b[|b| - 1];
      CountConcat(a, front, q);
      CountSnoc(a + front, last, q);
      assert a + b == (a + front) + [last];
    }
  }

  lemma WithoutOne<T>(a: seq<T>, b: seq<T>, x: T)
    ensures multiset(a + [x] + b) == multiset(a + b) + multiset{x}
  {
    assert multiset(a + [x] + b) == multiset(a) + multiset{x} + multiset(b);
  }

  lemma Cancel<T>(m: multiset<T>, n: multiset<T>, x: T)
    requires m + multiset{x} == n + multiset{x}
    ensures m == n
  {
    assert m == (m + multiset{x}) - multiset{x} && n == (n + multiset{x}) - multiset{x};
  }

  /** The last element of one permutation sits somewhere in the other. */
  lemma PullLast<T>(a: seq<T>, b: seq<T>) returns (i: nat)
    requires a != [] && multiset(a) == multiset(b)
    ensures i < |b| && b[i] == a[|a| - 1]
    ensures multiset(a[..|a| - 1]) == multiset(b[..i] + b[i + 1..])
  {
    var front, last := a[..|a| - 1], a[|a| - 1];
    assert a == front + [last];
    assert last in multiset(b);
    i :| 0 <= i < |b| && b[i] == last;
    var rest := b[..i] + b[i + 1..];
    assert b == b[..i] + [last] + b[i + 1..];
    assert multiset(a) == multiset(front) + multiset{last};
    WithoutOne(b[..i], b[i + 1..], last);
    Cancel(multiset(front), multiset(rest), last);
  }

  lemma CountDrop(rows: seq<Row>, i: nat, q: Query)
    requires i < |rows|
    ensures Count(rows, q) == Count(rows[..i] + rows[i + 1..], q) + if Matches(q, rows[i]) then 1 else 0
  {
    assert rows == (rows[..i] + [rows[i]]) + rows[i + 1..];
    CountConcat(rows[..i] + [rows[i]], rows[i + 1..], q);
    CountSnoc(rows[..i], rows[i], q);
    CountConcat(rows[..i], rows[i + 1..], q);
  }

  lemma {:induction false} CountPermutation(a: seq<Row>, b: seq<Row>, q: Query)
    requires multiset(a) == multiset(b)
    ensures Count(a, q) == Count(b, q)
  {
    if a == [] {
      assert |multiset(b)| == 0;
    } else {
      var i := PullLast(a, b);
      CountPermutation(a[..|a| - 1], b[..i] + b[i + 1..], q);
      CountDrop(b, i, q);
    }
  }

  lemma {:induction false} CountPositive(rows: seq<Row>, q: Query)
    ensures Count(rows, q) > 0 <==> exists r :: r in rows && Matches(q, r)
  {
    if rows != [] {
      CountPositive(rows[..|rows| - 1], q);
      assert rows == rows[..|rows| - 1] + [rows[|rows| - 1]];
    }
  }

  // ---- one transaction ----

  /** The partial unique index on clicks.event_id: only non-empty ids conflict. */
  predicate Stored(t: Tables, id: string) {
    id != "" && exists r :: r in t.rows && r.event.eventID == id
  }

  function RowOf(c: Submission): Row {
    Row(c.event, c.event.occurredAt.GetOr(c.insertNow))
  }

  function CellOf(c: Submission): CellKey {
    KeyOf(UTCDay(c.event.occurredAt.GetOr(c.rollupNow)), c.event)
  }

  function Cell(t: Tables, k: CellKey): int {
    if k in t.rollup then t.rollup[k] else 0
  }

  function InsertRow(t: Tables, c: Submission): Tables {
    t.(rows := t.rows + [RowOf(c)])
  }

  function BumpCounter(t: Tables, linkID: int): Tables
    requires linkID in t.links
  {
    var l := t.links[linkID];
    t.(links := t.links[linkID := l.(clicks := l.clicks + 1)])
  }

  function BumpRollup(t: Tables, c: Submission): Tables {
    t.(rollup := t.rollup[CellOf(c) := Cell(t, CellOf(c)) + 1])
  }

  /** The three writes of a newly inserted event. */
  function Add(t: Tables, c: Submission): Tables
    requires c.event.linkID in t.links
  {
    var inserted := InsertRow(t, c);
    BumpRollup(if c.event.increment then BumpCounter(inserted, c.event.linkID) else inserted, c)
  }

  /** Exactly one cell is raised, by one: that of the event's own link, country, device, browser, referrer, campaign,
      route and status, on the UTC day of the time. */
  ghost predicate RaisesOneCell(before: Tables, after: Tables, e: ClickEvent, t: Time) {
    exists k: CellKey ::
      && k.linkID == e.linkID && k.countryCode == e.countryCode && k.device == e.device && k.browser == e.browser
      && k.referrerHost == e.referrerHost && k.utmCampaign == e.utmCampaign && k.routeType == e.routeType
      && k.statusCode == e.statusCode
      && k.day * 86_400_000_000_000 <= t < (k.day + 1) * 86_400_000_000_000
      && forall j: CellKey :: Cell(after, j) == Cell(before, j) + if j == k then 1 else 0
  }

  lemma RollupRaises(t: Tables, c: Submission)
    ensures RaisesOneCell(t, BumpRollup(t, c), c.event, c.event.occurredAt.GetOr(c.rollupNow))
  {
    var k, u := CellOf(c), BumpRollup(t, c);
    forall j: CellKey ensures Cell(u, j) == Cell(t, j) + if j == k then 1 else 0 {}
  }

  /** What one new event changes: one row with its fields, one cell, and the counter of its link if it counts. */
  lemma AddChanges(t: Tables, c: Submission)
    requires c.event.linkID in t.links
    ensures Add(t, c).rows == t.rows + [Row(c.event, c.event.occurredAt.GetOr(c.insertNow))]
    ensures RaisesOneCell(t, Add(t, c), c.event, c.event.occurredAt.GetOr(c.rollupNow))
    ensures Add(t, c).links.Keys == t.links.Keys && forall l :: l in t.links ==>
      Add(t, c).links[l] == t.links[l].(
        clicks := t.links[l].clicks + if l == c.event.linkID && c.event.increment then 1 else 0)
  {
    var inserted := InsertRow(t, c);
    RollupRaises(if c.event.increment then BumpCounter(inserted, c.event.linkID) else inserted, c);
    forall j: CellKey ensures Cell(inserted, j) == Cell(t, j) {}
  }

  /** A cell counts exactly the rows of its own fields on its UTC day. */
  lemma CellCounts(k: CellKey, r: Row)
    ensures Matches(ByCell(k), r) <==>
      && r.event.linkID == k.linkID && r.event.countryCode == k.countryCode && r.event.device == k.device
      && r.event.browser == k.browser && r.event.referrerHost == k.referrerHost
      && r.event.utmCampaign == k.utmCampaign && r.event.routeType == k.routeType
      && r.event.statusCode == k.statusCode
      && k.day * 86_400_000_000_000 <= r.createdAt < (k.day + 1) * 86_400_000_000_000
  {
  }

  datatype ClickResult = Done(accepted: bool, tables: Tables) | Broken

  predicate Bumps(l: LinkRow, limit: Option<int>) {
    !l.deleted && (limit.Some? ==> l.clicks < limit.value)
  }

  function Marked(c: Submission, increment: bool): Submission {
    c.(event := c.event.(increment := increment))
  }

  /** What a fault-free RecordClick does; Broken is the foreign-key error for an unknown link. */
  function Single(t: Tables, c: Submission, increment: bool, limit: Option<int>): ClickResult {
    if Stored(t, c.event.eventID) then Done(true, t)
    else if c.event.linkID !in t.links then Broken
    else if increment && !Bumps(t.links[c.event.linkID], limit) then Done(false, t)
    else Done(true, Add(t, Marked(c, increment)))
  }

  datatype BatchResult = Committed(tables: Tables, inserted: nat) | Aborted

  /** A batch counts increments only on live links without a limit. */
  predicate Eligible(t: Tables, e: ClickEvent) {
    e.linkID in t.links &&
    (e.increment ==> !t.links[e.linkID].deleted && t.links[e.linkID].maxClicks == None)
  }

  function BatchStep(before: BatchResult, c: Submission): BatchResult {
    match before
    case Aborted => Aborted
    case Committed(t, n) =>
      if Stored(t, c.event.eventID) then before
      else if Eligible(t, c.event) then Committed(Add(t, c), n + 1)
      else Aborted
  }

  /** What a fault-free RecordClicks does: all events in order, or nothing. */
  function Batch(t: Tables, cs: seq<Submission>): BatchResult {
    if cs == [] then Committed(t, 0)
    else BatchStep(Batch(t, cs[..|cs| - 1]), cs[|cs| - 1])
  }

  // ---- exactly once ----

  /** Every counter and every rollup cell equals the number of rows ever committed for it, and no
      stored id has two rows. */
  ghost predicate Consistent(t: Tables) {
    && (forall l :: l in t.links ==> t.links[l].clicks == Count(History(t), ByLink(l)))
    && (forall k: CellKey :: Cell(t, k) == Count(History(t), ByCell(k)))
    && (forall r :: r in History(t) ==> r.event.linkID in t.links)
    && (forall id: string :: id != "" ==> Count(t.rows, ByID(id)) <= 1)
  }

  /** The row and the rollup cell fall on the same UTC day. Events with a timestamp always do. */
  predicate Aligned(c: Submission) {
    c.event.occurredAt == None ==> UTCDay(c.insertNow) == UTCDay(c.rollupNow)
  }

  lemma AddHistory(t: Tables, c: Submission)
    requires c.event.linkID in t.links
    ensures History(Add(t, c)) == History(t) + [RowOf(c)]
    ensures Add(t, c).rows == t.rows + [RowOf(c)]
    ensures Add(t, c).links.Keys == t.links.Keys
  {
  }

  lemma NotStoredCount(t: Tables, id: string)
    requires id != ""
    ensures Stored(t, id) <==> Count(t.rows, ByID(id)) > 0
  {
    CountPositive(t.rows, ByID(id));
  }

  /** Writing a new event keeps the tables consistent exactly when both clock readings agree on the day. */
  lemma AddConsistent(t: Tables, c: Submission)
    requires Consistent(t) && c.event.linkID in t.links && !Stored(t, c.event.eventID)
    ensures Consistent(Add(t, c)) <==> Aligned(c)
  {
    var u, r := Add(t, c), RowOf(c);
    AddHistory(t, c);
    forall q: Query ensures Count(History(u), q) == Count(History(t), q) + if Matches(q, r) then 1 else 0 {
      CountSnoc(History(t), r, q);
    }
    forall id: string | id != "" ensures Count(u.rows, ByID(id)) <= 1 {
      CountSnoc(t.rows, r, ByID(id));
      NotStoredCount(t, id);
    }
    forall l | l in u.links ensures u.links[l].clicks == Count(History(u), ByLink(l)) {
      assert t.links[l].clicks == Count(History(t), ByLink(l));
    }
    var rowCell := KeyOf(UTCDay(r.createdAt), r.event);
    if Aligned(c) {
      assert rowCell == CellOf(c);
      forall k: CellKey ensures Cell(u, k) == Count(History(u), ByCell(k)) {
        assert Cell(t, k) == Count(History(t), ByCell(k));
      }
    } else {
      assert rowCell.day != CellOf(c).day;
      assert Cell(u, rowCell) == Cell(t, rowCell) == Count(History(t), ByCell(rowCell));
      assert Count(History(u), ByCell(rowCell)) == Count(History(t), ByCell(rowCell)) + 1;
    }
  }

  /** A synchronous write keeps the tables consistent exactly when its clock readings agree on the day, or it
      writes nothing: a replay, or a click the limit refuses. */
  lemma SingleConsistent(t: Tables, c: Submission, increment: bool, limit: Option<int>)
    requires Consistent(t) && Single(t, c, increment, limit).Done?
    ensures Consistent(Single(t, c, increment, limit).tables)
       <==> Aligned(c) || Stored(t, c.event.eventID) || (increment && !Bumps(t.links[c.event.linkID], limit))
  {
    hide Consistent, Add;
    if !Stored(t, c.event.eventID) && c.event.linkID in t.links {
      AddConsistent(t, Marked(c, increment));
    }
  }

  /** One live, unlimited link and no clicks. */
  const FRESH_TABLES: Tables := Tables(map[1 := LinkRow(0, None, false)], [], [], map[])

  lemma FreshTablesConsistent()
    ensures Consistent(FRESH_TABLES)
  {
    assert History(FRESH_TABLES) == [];
  }

  /** An event without a timestamp written across midnight lands in yesterday's row and today's cell. */
  lemma MidnightDrift(e: ClickEvent) returns (c: Submission)
    requires e.linkID == 1 && e.occurredAt == None && e.eventID == ""
    ensures c.event == e && Single(FRESH_TABLES, c, true, None).Done? && Single(FRESH_TABLES, c, true, None).accepted
    ensures !Consistent(Single(FRESH_TABLES, c, true, None).tables)
  {
    c := Submission(e, NANOS_PER_DAY - 1, NANOS_PER_DAY);
    FreshTablesConsistent();
    hide Consistent, Add;
    AddConsistent(FRESH_TABLES, Marked(c, true));
  }

  // ---- retention ----

  /** PurgeOldClicks ranks the rows older than the cutoff by (created_at, id); ids grow with position. */
  predicate Older(rows: seq<Row>, j: nat, i: nat)
    requires i < |rows| && j < |rows|
  {
    rows[j].createdAt < rows[i].createdAt || (rows[j].createdAt == rows[i].createdAt && j < i)
  }

  const PURGE_LIMIT: nat := 10000

  function Rank(rows: seq<Row>, i: nat): nat
    requires i < |rows|
  {
    |set j | 0 <= j < |rows| && Older(rows, j, i)|
  }

  function OldestBefore(rows: seq<Row>, cutoff: Time): set<nat> {
    set i: nat | 0 <= i < |rows| && rows[i].createdAt < cutoff && Rank(rows, i) < PURGE_LIMIT
  }

  function Pick(rows: seq<Row>, which: set<nat>): seq<Row> {
    if rows == [] then []
    else
      var front := Pick(rows[..|rows| - 1], which);
      if |rows| - 1 in which then front + [rows[|rows| - 1]] else front
  }

  function Remove(t: Tables, gone: set<nat>): Tables {
    var kept := set i: nat | 0 <= i < |t.rows| && i !in gone;
    t.(rows := Pick(t.rows, kept), purged := t.purged + Pick(t.rows, gone))
  }

  function PurgeOldClicks(t: Tables, cutoff: Time): Tables {
    Remove(t, OldestBefore(t.rows, cutoff))
  }

  // ---- which rows retention removes ----

  function OlderThan(rows: seq<Row>, i: nat): set<nat>
    requires i < |rows|
  {
    set j: nat | 0 <= j < |rows| && Older(rows, j, i)
  }

  lemma RankIsSize(rows: seq<Row>, i: nat)
    requires i < |rows|
    ensures Rank(rows, i) == |OlderThan(rows, i)|
  {
    assert OlderThan(rows, i) == set j | 0 <= j < |rows| && Older(rows, j, i);
  }

  lemma Smaller<T>(a: set<T>, b: set<T>)
    requires a <= b
    ensures |a| <= |b| && (a != b ==> |a| < |b|)
  {
    assert b == a + (b - a);
  }

  /** Whoever is older has the smaller rank. */
  lemma RankOrders(rows: seq<Row>, j: nat, i: nat)
    requires i < |rows| && j < |rows| && Older(rows, j, i)
    ensures Rank(rows, j) < Rank(rows, i)
  {
    RankIsSize(rows, i);
    RankIsSize(rows, j);
    assert j in OlderThan(rows, i) && j !in OlderThan(rows, j);
    Smaller(OlderThan(rows, j), OlderThan(rows, i));
  }

  lemma OlderTotal(rows: seq<Row>, i: nat, j: nat)
    requires i < |rows| && j < |rows| && i != j
    ensures Older(rows, i, j) <==> !Older(rows, j, i)
  {
  }

  lemma OlderTransitive(rows: seq<Row>, i: nat, j: nat, k: nat)
    requires i < |rows| && j < |rows| && k < |rows| && Older(rows, i, j) && Older(rows, j, k)
    ensures Older(rows, i, k)
  {
  }

  /** The first or the last of some rows, by age. */
  lemma {:induction false} Extreme(rows: seq<Row>, some: set<nat>, oldest: bool) returns (x: nat)
    requires some != {} && forall i :: i in some ==> i < |rows|
    ensures x in some
    ensures forall i :: i in some && i != x ==> if oldest then Older(rows, x, i) else Older(rows, i, x)
    decreases |some|
  {
    hide Older;
    var a := Member(some);
    var rest := some - {a};
    assert forall i :: i in some ==> i == a || i in rest;
    x := a;
    if rest != {} {
      var y := Extreme(rows, rest, oldest);
      if Older(rows, y, a) <==> oldest {
        x := y;
      }
      OlderTotal(rows, a, y);
      forall i | i in some && i != x ensures if oldest then Older(rows, x, i) else Older(rows, i, x) {
        if i in rest && i != y && x == a {
          if oldest {
            OlderTransitive(rows, a, y, i);
          } else {
            OlderTransitive(rows, i, y, a);
          }
        }
      }
    }
  }

  /** Retention removes only rows from before the cutoff, at most 10000 of them; and if any such row stays, then it
      removes exactly 10000, all of them older. */
  lemma PurgeTakesOldest(rows: seq<Row>, cutoff: Time)
    ensures var gone := OldestBefore(rows, cutoff);
      && (forall i :: i in gone ==> i < |rows| && rows[i].createdAt < cutoff)
      && |gone| <= 10000
      && forall j: nat :: j < |rows| && rows[j].createdAt < cutoff && j !in gone ==>
           |gone| == 10000 && forall i :: i in gone ==> rows[i].createdAt <= rows[j].createdAt
  {
    var gone := OldestBefore(rows, cutoff);
    hide Rank;
    forall i, j: nat | i in gone && j < |rows| && rows[j].createdAt < cutoff && j !in gone
      ensures Older(rows, i, j)
    {
      if Older(rows, j, i) {
        RankOrders(rows, j, i);
      }
    }
    if gone != {} {
      var last := Extreme(rows, gone, false);
      RankIsSize(rows, last);
      Smaller(gone - {last}, OlderThan(rows, last));
    }
    var stay := set j: nat | 0 <= j < |rows| && rows[j].createdAt < cutoff && j !in gone;
    if stay != {} {
      var first := Extreme(rows, stay, true);
      RankIsSize(rows, first);
      forall j | j in OlderThan(rows, first) ensures j in gone {
        assert j !in stay;
      }
      Smaller(OlderThan(rows, first), gone);
      assert |gone| == 10000;
    }
    forall j: nat | j < |rows| && rows[j].createdAt < cutoff && j !in gone
      ensures |gone| == 10000 && forall i :: i in gone ==> rows[i].createdAt <= rows[j].createdAt
    {
      assert j in stay;
      forall i | i in gone ensures rows[i].createdAt <= rows[j].createdAt {
        assert Older(rows, i, j);
      }
    }
  }

  lemma {:induction false} PickSplit(rows: seq<Row>, gone: set<nat>, kept: set<nat>, q: Query)
    requires forall i: nat :: i < |rows| ==> (i in kept <==> i !in gone)
    ensures Count(Pick(rows, gone), q) + Count(Pick(rows, kept), q) == Count(rows, q)
  {
    if rows != [] {
      var front, last := rows[..|rows| - 1], rows[|rows| - 1];
      PickSplit(front, gone, kept, q);
      if |front| in gone {
        CountSnoc(Pick(front, gone), last, q);
      } else {
        CountSnoc(Pick(front, kept), last, q);
      }
    }
  }

  lemma {:induction false} PickSubset(rows: seq<Row>, which: set<nat>, r: Row)
    requires r in Pick(rows, which)
    ensures r in rows
  {
    var front, last := rows[..|rows| - 1], rows[|rows| - 1];
    if r != last || |rows| - 1 !in which {
      PickSubset(front, which, r);
    }
  }

  /** Retention removes rows but no counter or rollup: both keep counting every row ever committed. */
  lemma PurgeConsistent(t: Tables, gone: set<nat>)
    requires Consistent(t)
    ensures Consistent(Remove(t, gone))
    ensures forall q :: Count(History(Remove(t, gone)), q) == Count(History(t), q)
  {
    var u := Remove(t, gone);
    var kept := set i: nat | 0 <= i < |t.rows| && i !in gone;
    forall q: Query
      ensures Count(History(u), q) == Count(History(t), q)
      ensures Count(u.rows, q) <= Count(t.rows, q)
    {
      PickSplit(t.rows, gone, kept, q);
      CountConcat(t.purged, t.rows, q);
      CountConcat(t.purged, Pick(t.rows, gone), q);
      CountConcat(u.purged, u.rows, q);
    }
    forall r | r in History(u) ensures r.event.linkID in u.links {
      if r in Pick(t.rows, gone) {
        PickSubset(t.rows, gone, r);
      } else if r in u.rows {
        PickSubset(t.rows, kept, r);
      }
    }
    forall l | l in u.links ensures u.links[l].clicks == Count(History(u), ByLink(l)) {
      assert t.links[l].clicks == Count(History(t), ByLink(l));
    }
    forall k: CellKey ensures Cell(u, k) == Count(History(u), ByCell(k)) {
      assert Cell(t, k) == Count(History(t), ByCell(k));
    }
  }

  lemma OldestOfOne(r: Row, cutoff: Time)
    requires r.createdAt < cutoff
    ensures OldestBefore([r], cutoff) == {0}
  {
    assert (set j | 0 <= j < |[r]| && Older([r], j, 0)) == {};
    assert Rank([r], 0) == 0;
  }

  lemma PurgeOne(t: Tables, r: Row, gone: set<nat>)
    requires t.rows == [r] && t.purged == [] && gone == {0}
    ensures Remove(t, gone) == t.(rows := [], purged := [r])
  {
    var kept := set i: nat | 0 <= i < |t.rows| && i !in gone;
    assert kept == {};
    assert [r][..0] == [] && |[r]| - 1 == 0;
    assert Pick([r], gone) == Pick([], gone) + [r] == [r];
    assert Pick([r], kept) == Pick([], kept) == [];
    assert t.purged + [r] == [r];
  }

  lemma BatchOfOne(t: Tables, c: Submission)
    requires !Stored(t, c.event.eventID) && Eligible(t, c.event)
    ensures Batch(t, [c]) == Committed(Add(t, c), 1)
  {
    assert [c][..0] == [];
    assert Batch(t, [c]) == BatchStep(Batch(t, []), c);
  }

  /** Retention forgets the id: a copy redelivered after its row was purged is counted a second time. */
  lemma PurgeReopensID(t: Tables, c: Submission)
    requires Consistent(t) && t.rows == [RowOf(c)] && t.purged == [] && Eligible(t, c.event)
    requires c.event.eventID != "" && RowOf(c).createdAt < c.insertNow
    ensures var u := PurgeOldClicks(t, c.insertNow);
            && Consistent(u) && !Stored(u, c.event.eventID)
            && Batch(u, [c]) == Committed(Add(u, c), 1)
            && History(Add(u, c)) == [RowOf(c), RowOf(c)]
  {
    var r := RowOf(c);
    OldestOfOne(r, c.insertNow);
    PurgeConsistent(t, {0});
    PurgeOne(t, r, {0});
    var u := t.(rows := [], purged := [r]);
    BatchOfOne(u, c);
    AddHistory(u, c);
    assert History(u) == [r];
  }

  /** Such tables exist: the first click of the fresh link. */
  lemma FirstClick(c: Submission)
    requires c.event.linkID == 1 && c.event.occurredAt.Some?
    ensures var t := Add(FRESH_TABLES, c);
            Consistent(t) && t.rows == [RowOf(c)] && t.purged == [] && Eligible(t, c.event)
  {
    hide Consistent, Add, UTCDay, RowOf;
    FreshTablesConsistent();
    AddConsistent(FRESH_TABLES, c);
    AddHistory(FRESH_TABLES, c);
    AddKeepsOpen(FRESH_TABLES, c);
  }

  lemma AddKeepsOpen(t: Tables, c: Submission)
    requires Eligible(t, c.event)
    ensures Eligible(Add(t, c), c.event) && Add(t, c).purged == t.purged
  {
    hide UTCDay, RowOf;
  }
}
