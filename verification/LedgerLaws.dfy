// Laws of the click tables across calls: a batch refines single writes, its effect does not depend
// on order or grouping, and a click limit is exact under any mix of calls.

module LedgerLaws {
  import opened Wrappers
  import opened Models
  import opened Ledger

  // ---- a batch refines single writes ----

  /** RecordClick(e, e.Increment, nil) for every event in turn; stops when one is broken or refused. */
  ghost function Singles(t: Tables, cs: seq<Submission>): ClickResult {
    if cs == [] then Done(true, t)
    else
      var before, c := Singles(t, cs[..|cs| - 1]), cs[|cs| - 1];
      if before.Done? && before.accepted then Single(before.tables, c, c.event.increment, None) else before
  }

  lemma {:induction false} BatchRefinesSingle(t: Tables, cs: seq<Submission>)
    ensures Batch(t, cs).Committed? ==> Singles(t, cs) == Done(true, Batch(t, cs).tables)
  {
    if cs != [] {
      var c := cs[|cs| - 1];
      BatchRefinesSingle(t, cs[..|cs| - 1]);
      assert Marked(c, c.event.increment) == c;
    }
  }

  lemma {:induction false} BatchConcat(t: Tables, a: seq<Submission>, b: seq<Submission>)
    ensures Batch(t, a + b) ==
      match Batch(t, a)
      case Aborted => Aborted
      case Committed(u, n) =>
        match Batch(u, b)
        case Aborted => Aborted
        case Committed(v, m) => Committed(v, n + m)
  {
    hide BatchStep;
    if b == [] {
      assert a + b == a;
    } else {
      var front, c := b[..|b| - 1], b[|b| - 1];
      BatchConcat(t, a, front);
      assert (a + b)[..|a + b| - 1] == a + front;
      AbortedStays(c);
      if Batch(t, a).Committed? && Batch(Batch(t, a).tables, front).Committed? {
        var u, n := Batch(t, a).tables, Batch(t, a).inserted;
        StepShift(Batch(u, front).tables, n, Batch(u, front).inserted, c);
      }
    }
  }

  lemma AbortedStays(c: Submission)
    ensures BatchStep(Aborted, c) == Aborted
  {
  }

  lemma StepShift(t: Tables, n: nat, m: nat, c: Submission)
    ensures BatchStep(Committed(t, n + m), c) ==
      match BatchStep(Committed(t, m), c)
      case Aborted => Aborted
      case Committed(u, k) => Committed(u, n + k)
  {
  }

  function Flatten(groups: seq<seq<Submission>>): seq<Submission> {
    if groups == [] then [] else Flatten(groups[..|groups| - 1]) + groups[|groups| - 1]
  }

  /** One RecordClicks call per group. */
  ghost function Batches(t: Tables, groups: seq<seq<Submission>>): BatchResult {
    if groups == [] then Committed(t, 0)
    else
      match Batches(t, groups[..|groups| - 1])
      case Aborted => Aborted
      case Committed(u, n) =>
        match Batch(u, groups[|groups| - 1])
        case Aborted => Aborted
        case Committed(v, m) => Committed(v, n + m)
  }

  lemma {:induction false} GroupingIrrelevant(t: Tables, groups: seq<seq<Submission>>)
    ensures Batches(t, groups) == Batch(t, Flatten(groups))
  {
    if groups != [] {
      GroupingIrrelevant(t, groups[..|groups| - 1]);
      BatchConcat(t, Flatten(groups[..|groups| - 1]), groups[|groups| - 1]);
    }
  }

  // ---- what a committed batch leaves behind ----

  /** Two submissions with one non-empty id are copies of one event. */
  ghost predicate CopiesAgree(cs: seq<Submission>) {
    forall c, d :: c in cs && d in cs && c.event.eventID == d.event.eventID && c.event.eventID != "" ==>
      RowOf(c) == RowOf(d)
  }

  function RowsOf(cs: seq<Submission>): seq<Row> {
    seq(|cs|, i requires 0 <= i < |cs| => RowOf(cs[i]))
  }

  ghost function FreshIDs(t: Tables, cs: seq<Submission>): set<string> {
    set c | c in cs && c.event.eventID != "" && !Stored(t, c.event.eventID) :: c.event.eventID
  }

  function Anonymous(cs: seq<Submission>): nat {
    if cs == [] then 0
    else Anonymous(cs[..|cs| - 1]) + if cs[|cs| - 1].event.eventID == "" then 1 else 0
  }

  lemma BatchSnoc(cs: seq<Submission>)
    requires cs != []
    ensures cs == cs[..|cs| - 1] + [cs[|cs| - 1]]
    ensures forall c :: c in cs <==> c in cs[..|cs| - 1] || c == cs[|cs| - 1]
  {
    assert cs == cs[..|cs| - 1] + [cs[|cs| - 1]];
  }

  lemma {:induction false} BatchFrame(t: Tables, cs: seq<Submission>)
    requires Batch(t, cs).Committed?
    ensures var u := Batch(t, cs).tables;
            && u.purged == t.purged && u.links.Keys == t.links.Keys
            && (forall l :: l in t.links ==>
                  u.links[l].deleted == t.links[l].deleted && u.links[l].maxClicks == t.links[l].maxClicks)
            && (forall id: string :: Stored(u, id) <==>
                  Stored(t, id) || (id != "" && exists c :: c in cs && c.event.eventID == id))
  {
    if cs != [] {
      var front, c := cs[..|cs| - 1], cs[|cs| - 1];
      BatchSnoc(cs);
      BatchFrame(t, front);
      var m, u := Batch(t, front).tables, Batch(t, cs).tables;
      forall id: string
        ensures Stored(u, id) <==> Stored(m, id) || (id != "" && c.event.eventID == id)
      {
        if !Stored(m, c.event.eventID) {
          AddHistory(m, c);
          assert RowOf(c) in u.rows;
          assert forall r :: r in u.rows <==> r in m.rows || r == RowOf(c);
        }
      }
    }
  }

  /** The returned count is the number of distinct ids that were not stored, plus the events without an id. */
  lemma {:induction false} InsertedCount(t: Tables, cs: seq<Submission>)
    requires Batch(t, cs).Committed?
    ensures Batch(t, cs).inserted == |FreshIDs(t, cs)| + Anonymous(cs)
    ensures Batch(t, cs).inserted <= |cs|
  {
    hide Add, Eligible;
    if cs != [] {
      var front, c := cs[..|cs| - 1], cs[|cs| - 1];
      var id := c.event.eventID;
      BatchSnoc(cs);
      InsertedCount(t, front);
      BatchFrame(t, front);
      if id == "" || Stored(t, id) || id in FreshIDs(t, front) {
        assert FreshIDs(t, cs) == FreshIDs(t, front);
      } else {
        assert FreshIDs(t, cs) == FreshIDs(t, front) + {id};
      }
    }
  }

  // ---- counting once across retention ----

  /** No id was ever counted by two rows, purged ones included. */
  ghost predicate CountedOnce(t: Tables) {
    forall id: string :: id != "" ==> Count(History(t), ByID(id)) <= 1
  }

  /** The id's row was purged, so that the unique index no longer knows it. */
  predicate Reopened(t: Tables, id: string) {
    id != "" && !Stored(t, id) && exists r :: r in t.purged && r.event.eventID == id
  }

  lemma NeverCounted(t: Tables, id: string)
    requires id != "" && !Stored(t, id)
    ensures Count(History(t), ByID(id)) == 0 <==> !Reopened(t, id)
  {
    CountConcat(t.purged, t.rows, ByID(id));
    CountPositive(t.rows, ByID(id));
    CountPositive(t.purged, ByID(id));
    hide Count;
    assert forall r: Row :: Matches(ByID(id), r) <==> r.event.eventID == id;
  }

  /** An id gains a row exactly if the batch names it and it was not stored. */
  lemma {:induction false} BatchIDCount(t: Tables, cs: seq<Submission>, id: string)
    requires Batch(t, cs).Committed? && id != ""
    ensures Count(History(Batch(t, cs).tables), ByID(id))
         == Count(History(t), ByID(id)) + if id in FreshIDs(t, cs) then 1 else 0
  {
    if cs != [] {
      var front, c := cs[..|cs| - 1], cs[|cs| - 1];
      BatchSnoc(cs);
      BatchIDCount(t, front, id);
      BatchFrame(t, front);
      var m := Batch(t, front).tables;
      if !Stored(m, c.event.eventID) {
        AddHistory(m, c);
        CountSnoc(History(m), RowOf(c), ByID(id));
      }
      hide Add, Count, Stored;
      FreshStep(t, front, c, id);
    }
  }

  lemma FreshStep(t: Tables, front: seq<Submission>, c: Submission, id: string)
    ensures id in FreshIDs(t, front + [c]) <==>
      id in FreshIDs(t, front) || (id == c.event.eventID && id != "" && !Stored(t, id))
  {
    hide Stored;
    assert forall d :: d in front + [c] <==> d in front || d == c;
  }

  /** A committed batch keeps every id counted once exactly when none of its events carries an id that retention
      has reopened. */
  lemma BatchCountsOnce(t: Tables, cs: seq<Submission>)
    requires CountedOnce(t) && Batch(t, cs).Committed?
    ensures CountedOnce(Batch(t, cs).tables) <==> forall c :: c in cs ==> !Reopened(t, c.event.eventID)
  {
    var u := Batch(t, cs).tables;
    hide Batch, Count, Stored;
    forall id: string | id != ""
      ensures Count(History(u), ByID(id)) <= 1 <==> !(id in FreshIDs(t, cs) && Reopened(t, id))
    {
      BatchIDCount(t, cs, id);
      if id in FreshIDs(t, cs) {
        NeverCounted(t, id);
      }
    }
    assert forall c :: c in cs && Reopened(t, c.event.eventID) ==> c.event.eventID in FreshIDs(t, cs);
  }

  /** The same for a synchronous write; one that the limit refuses writes nothing. */
  lemma SingleCountsOnce(t: Tables, c: Submission, increment: bool, limit: Option<int>)
    requires CountedOnce(t) && Single(t, c, increment, limit).Done?
    ensures CountedOnce(Single(t, c, increment, limit).tables)
       <==> !(Reopened(t, c.event.eventID) && (!increment || Bumps(t.links[c.event.linkID], limit)))
  {
    var r, id := Single(t, c, increment, limit), c.event.eventID;
    if r.accepted && !Stored(t, id) {
      var row := RowOf(Marked(c, increment));
      AddHistory(t, Marked(c, increment));
      assert row.event.eventID == id;
      hide Add, Stored, Single, Count;
      forall other: string
        ensures Count(History(r.tables), ByID(other)) == Count(History(t), ByID(other)) + if other == id then 1 else 0
      {
        CountSnoc(History(t), row, ByID(other));
      }
      if id != "" {
        NeverCounted(t, id);
        assert Count(History(r.tables), ByID(id)) == Count(History(t), ByID(id)) + 1;
      }
    }
  }

  /** Which rows are new: stored ids add nothing, a new id adds its row once, an empty id always adds. */
  ghost function NewRows(t: Tables, cs: seq<Submission>, r: Row): nat {
    if r.event.eventID == "" then multiset(RowsOf(cs))[r]
    else if Stored(t, r.event.eventID) || r !in RowsOf(cs) then 0
    else 1
  }

  lemma {:induction false} BatchRows(t: Tables, cs: seq<Submission>, r: Row)
    requires CopiesAgree(cs) && Batch(t, cs).Committed?
    ensures multiset(Batch(t, cs).tables.rows)[r] == multiset(t.rows)[r] + NewRows(t, cs, r)
  {
    hide Add, Count;
    if cs != [] {
      var front, c := cs[..|cs| - 1], cs[|cs| - 1];
      BatchSnoc(cs);
      BatchRows(t, front, r);
      BatchFrame(t, front);
      assert RowsOf(cs) == RowsOf(front) + [RowOf(c)];
      var m, u := Batch(t, front).tables, Batch(t, cs).tables;
      if !Stored(m, c.event.eventID) {
        AddHistory(m, c);
      }
      assert u.rows == if Stored(m, c.event.eventID) then m.rows else m.rows + [RowOf(c)];
      RowsContain(front, r);
    }
  }

  lemma RowsContain(cs: seq<Submission>, r: Row)
    ensures r in RowsOf(cs) <==> exists c :: c in cs && RowOf(c) == r
  {
    if c :| c in cs && RowOf(c) == r {
      var i :| 0 <= i < |cs| && cs[i] == c;
      assert RowsOf(cs)[i] == r;
    }
    if r in RowsOf(cs) {
      var i :| 0 <= i < |cs| && RowsOf(cs)[i] == r;
      assert cs[i] in cs;
    }
  }

  /** Links and cells moved by exactly the rows added. */
  ghost predicate Moved(t: Tables, u: Tables) {
    && u.purged == t.purged && u.links.Keys == t.links.Keys
    && (forall l :: l in t.links ==>
          && u.links[l].deleted == t.links[l].deleted && u.links[l].maxClicks == t.links[l].maxClicks
          && u.links[l].clicks - t.links[l].clicks == Count(u.rows, ByLink(l)) - Count(t.rows, ByLink(l)))
    && (forall k: CellKey :: Cell(u, k) - Cell(t, k) == Count(u.rows, ByCell(k)) - Count(t.rows, ByCell(k)))
    && (forall q: Query :: Count(u.rows, q) >= Count(t.rows, q))
    && (forall k :: k in u.rollup <==> k in t.rollup || Count(u.rows, ByCell(k)) > Count(t.rows, ByCell(k)))
  }

  /** Tables that moved from the same start to the same rows are the same. */
  lemma MovedDetermined(t: Tables, u: Tables, v: Tables)
    requires Moved(t, u) && Moved(t, v) && multiset(u.rows) == multiset(v.rows)
    ensures SameTables(u, v)
  {
    forall q: Query ensures Count(u.rows, q) == Count(v.rows, q) {
      CountPermutation(u.rows, v.rows, q);
    }
    forall k | k in u.rollup ensures k in v.rollup && u.rollup[k] == v.rollup[k] {
      assert Cell(u, k) == Cell(v, k);
    }
    assert u.rollup == v.rollup;
    forall l | l in u.links ensures u.links[l] == v.links[l] {
      assert Count(u.rows, ByLink(l)) == Count(v.rows, ByLink(l));
    }
    assert u.links == v.links;
  }

  lemma AddMoves(t: Tables, c: Submission)
    requires c.event.linkID in t.links && Aligned(c)
    ensures Moved(t, Add(t, c))
  {
    hide Count;
    var u := Add(t, c);
    forall q: Query ensures Count(u.rows, q) == Count(t.rows, q) + if Matches(q, RowOf(c)) then 1 else 0 {
      CountSnoc(t.rows, RowOf(c), q);
    }
    assert CellOf(c) == KeyOf(UTCDay(RowOf(c).createdAt), c.event);
  }

  lemma {:induction false} BatchDeltas(t: Tables, cs: seq<Submission>)
    requires Batch(t, cs).Committed? && forall c :: c in cs ==> Aligned(c)
    ensures Moved(t, Batch(t, cs).tables)
  {
    if cs != [] {
      var front, c := cs[..|cs| - 1], cs[|cs| - 1];
      BatchSnoc(cs);
      BatchDeltas(t, front);
      var m := Batch(t, front).tables;
      if !Stored(m, c.event.eventID) {
        AddMoves(m, c);
      }
    }
  }

  /** The link exists, and if the event counts, it is live and has no click limit. */
  predicate MayBatch(t: Tables, e: ClickEvent) {
    && e.linkID in t.links
    && (e.increment ==> !t.links[e.linkID].deleted)
    && (e.increment ==> t.links[e.linkID].maxClicks == None)
  }

  /** A batch commits exactly when each of its events is already stored or allowed on its link. */
  lemma {:induction false} BatchCommitsIff(t: Tables, cs: seq<Submission>)
    requires CopiesAgree(cs)
    ensures Batch(t, cs).Committed? <==>
      forall c :: c in cs ==> Stored(t, c.event.eventID) || MayBatch(t, c.event)
  {
    if cs != [] {
      var front, c := cs[..|cs| - 1], cs[|cs| - 1];
      BatchSnoc(cs);
      BatchCommitsIff(t, front);
      if Batch(t, front).Committed? {
        BatchFrame(t, front);
        if d :| d in front && d.event.eventID == c.event.eventID && c.event.eventID != "" {
          assert RowOf(d) == RowOf(c);
        }
      }
    }
  }

  /** Same tables up to the physical order of the rows. */
  ghost predicate SameTables(u: Tables, v: Tables) {
    u.links == v.links && multiset(u.rows) == multiset(v.rows) && u.purged == v.purged && u.rollup == v.rollup
  }

  lemma SameMembers(cs: seq<Submission>, ds: seq<Submission>)
    requires multiset(cs) == multiset(ds)
    ensures forall c :: c in cs <==> c in ds
    ensures CopiesAgree(cs) ==> CopiesAgree(ds)
  {
    forall c ensures c in cs <==> c in ds {
      assert c in cs <==> c in multiset(cs);
    }
  }

  lemma CommitAlike(t: Tables, cs: seq<Submission>, ds: seq<Submission>)
    requires multiset(cs) == multiset(ds) && CopiesAgree(cs)
    ensures Batch(t, cs).Committed? <==> Batch(t, ds).Committed?
    ensures FreshIDs(t, cs) == FreshIDs(t, ds)
  {
    SameMembers(cs, ds);
    BatchCommitsIff(t, cs);
    BatchCommitsIff(t, ds);
  }

  /** Redelivery order does not matter: any permutation commits or aborts alike, with the same tables and count. */
  lemma OrderIrrelevant(t: Tables, cs: seq<Submission>, ds: seq<Submission>)
    requires multiset(cs) == multiset(ds)
    requires CopiesAgree(cs) && forall c :: c in cs ==> Aligned(c)
    ensures Batch(t, cs).Committed? <==> Batch(t, ds).Committed?
    ensures Batch(t, cs).Committed? ==>
      SameTables(Batch(t, cs).tables, Batch(t, ds).tables) && Batch(t, cs).inserted == Batch(t, ds).inserted
  {
    CommitAlike(t, cs, ds);
    if Batch(t, cs).Committed? {
      assert SameTables(Batch(t, cs).tables, Batch(t, ds).tables) by {
        SameMembers(cs, ds);
        BatchDeltas(t, cs);
        BatchDeltas(t, ds);
        SameNewRows(t, cs, ds);
        MovedDetermined(t, Batch(t, cs).tables, Batch(t, ds).tables);
      }
      InsertedCount(t, cs);
      InsertedCount(t, ds);
      AnonymousPermute(cs, ds);
    }
  }

  lemma SameNewRows(t: Tables, cs: seq<Submission>, ds: seq<Submission>)
    requires multiset(cs) == multiset(ds) && CopiesAgree(cs) && CopiesAgree(ds)
    requires Batch(t, cs).Committed? && Batch(t, ds).Committed?
    ensures multiset(Batch(t, cs).tables.rows) == multiset(Batch(t, ds).tables.rows)
  {
    var u, v := Batch(t, cs).tables, Batch(t, ds).tables;
    RowsPermute(cs, ds);
    forall r: Row ensures multiset(u.rows)[r] == multiset(v.rows)[r] {
      BatchRows(t, cs, r);
      BatchRows(t, ds, r);
      assert r in RowsOf(cs) <==> r in multiset(RowsOf(cs));
      assert r in RowsOf(ds) <==> r in multiset(RowsOf(ds));
    }
  }

  lemma {:induction false} RowsPermute(cs: seq<Submission>, ds: seq<Submission>)
    requires multiset(cs) == multiset(ds)
    ensures multiset(RowsOf(cs)) == multiset(RowsOf(ds))
  {
    if cs == [] {
      assert |multiset(ds)| == 0;
    } else {
      var i := PullLast(cs, ds);
      var front, c, rest := cs[..|cs| - 1], cs[|cs| - 1], ds[..i] + ds[i + 1..];
      RowsPermute(front, rest);
      assert RowsOf(cs) == RowsOf(front) + [RowOf(c)];
      assert RowsOf(ds) == RowsOf(ds[..i]) + [RowOf(c)] + RowsOf(ds[i + 1..]);
      assert RowsOf(rest) == RowsOf(ds[..i]) + RowsOf(ds[i + 1..]);
    }
  }

  lemma {:induction false} AnonymousPermute(cs: seq<Submission>, ds: seq<Submission>)
    requires multiset(cs) == multiset(ds)
    ensures Anonymous(cs) == Anonymous(ds)
  {
    if cs == [] {
      assert |multiset(ds)| == 0;
    } else {
      var i := PullLast(cs, ds);
      AnonymousPermute(cs[..|cs| - 1], ds[..i] + ds[i + 1..]);
      assert ds == (ds[..i] + [ds[i]]) + ds[i + 1..];
      AnonymousConcat(ds[..i], ds[i + 1..]);
      AnonymousConcat(ds[..i], [ds[i]]);
      AnonymousConcat(ds[..i] + [ds[i]], ds[i + 1..]);
    }
  }

  lemma {:induction false} AnonymousConcat(a: seq<Submission>, b: seq<Submission>)
    ensures Anonymous(a + b) == Anonymous(a) + Anonymous(b)
  {
    if b == [] {
      assert a + b == a;
    } else {
      AnonymousConcat(a, b[..|b| - 1]);
      assert (a + b)[..|a + b| - 1] == a + b[..|b| - 1];
    }
  }
}
