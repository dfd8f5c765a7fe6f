// When the two clock readings of a write make rows and rollup cells disagree: exactly which batches keep the
// tables consistent.

module Drift {
  import opened Models
  import opened Ledger

  /** The submissions of a batch that are written, in order; the others were stored already. */
  function Writes(t: Tables, cs: seq<Submission>): seq<Submission> {
    if cs == [] then []
    else
      var front, c := cs[..|cs| - 1], cs[|cs| - 1];
      match Batch(t, front)
      case Aborted => []
      case Committed(u, _) => if Stored(u, c.event.eventID) then Writes(t, front) else Writes(t, front) + [c]
  }

  function RowCell(c: Submission): CellKey {
    KeyOf(UTCDay(RowOf(c).createdAt), c.event)
  }

  /** How many of the writes put a row into a cell. */
  function RowsIn(ws: seq<Submission>, k: CellKey): nat {
    if ws == [] then 0 else RowsIn(ws[..|ws| - 1], k) + if RowCell(ws[|ws| - 1]) == k then 1 else 0
  }

  /** How many of the writes raise the rollup cell. */
  function RollupsIn(ws: seq<Submission>, k: CellKey): nat {
    if ws == [] then 0 else RollupsIn(ws[..|ws| - 1], k) + if CellOf(ws[|ws| - 1]) == k then 1 else 0
  }

  /** The writes put as many rows into every cell as they raise it. */
  ghost predicate CellsAgree(ws: seq<Submission>) {
    forall k: CellKey :: RowsIn(ws, k) == RollupsIn(ws, k)
  }

  /** All of Consistent but the rollup. */
  ghost predicate CountersOK(t: Tables) {
    && (forall l :: l in t.links ==> t.links[l].clicks == Count(History(t), ByLink(l)))
    && (forall r :: r in History(t) ==> r.event.linkID in t.links)
    && (forall id: string :: id != "" ==> Count(t.rows, ByID(id)) <= 1)
  }

  lemma AddKeepsCounters(t: Tables, c: Submission)
    requires CountersOK(t) && c.event.linkID in t.links && !Stored(t, c.event.eventID)
    ensures CountersOK(Add(t, c))
  {
    var u, r := Add(t, c), RowOf(c);
    AddHistory(t, c);
    forall l | l in u.links ensures u.links[l].clicks == Count(History(u), ByLink(l)) {
      assert t.links[l].clicks == Count(History(t), ByLink(l));
      CountSnoc(History(t), r, ByLink(l));
    }
    forall id: string | id != "" ensures Count(u.rows, ByID(id)) <= 1 {
      CountSnoc(t.rows, r, ByID(id));
      NotStoredCount(t, id);
    }
  }

  lemma AddMovesCell(t: Tables, c: Submission, k: CellKey)
    requires c.event.linkID in t.links
    ensures Cell(Add(t, c), k) == Cell(t, k) + if CellOf(c) == k then 1 else 0
    ensures Count(History(Add(t, c)), ByCell(k)) == Count(History(t), ByCell(k)) + if RowCell(c) == k then 1 else 0
  {
    AddHistory(t, c);
    CountSnoc(History(t), RowOf(c), ByCell(k));
  }

  lemma {:induction false} BatchKeepsCounters(t: Tables, cs: seq<Submission>)
    requires CountersOK(t) && Batch(t, cs).Committed?
    ensures CountersOK(Batch(t, cs).tables)
  {
    hide CountersOK, Count, Add;
    if cs != [] {
      var front, c := cs[..|cs| - 1], cs[|cs| - 1];
      BatchKeepsCounters(t, front);
      if !Stored(Batch(t, front).tables, c.event.eventID) {
        AddKeepsCounters(Batch(t, front).tables, c);
      }
    }
  }

  /** Whatever its clocks say, a committed batch moves rows and cells by its writes. */
  lemma {:induction false} BatchMoves(t: Tables, cs: seq<Submission>, k: CellKey)
    requires Batch(t, cs).Committed?
    ensures Cell(Batch(t, cs).tables, k) == Cell(t, k) + RollupsIn(Writes(t, cs), k)
    ensures Count(History(Batch(t, cs).tables), ByCell(k)) == Count(History(t), ByCell(k)) + RowsIn(Writes(t, cs), k)
  {
    hide Count, Cell, Add, RowCell;
    if cs != [] {
      var front, c := cs[..|cs| - 1], cs[|cs| - 1];
      BatchMoves(t, front, k);
      var u := Batch(t, front).tables;
      if !Stored(u, c.event.eventID) {
        var ws := Writes(t, front);
        assert Writes(t, cs) == ws + [c] && (ws + [c])[..|ws + [c]| - 1] == ws;
        AddMovesCell(u, c, k);
      }
    }
  }

  lemma RollupOnly(t: Tables, cs: seq<Submission>)
    requires Consistent(t) && Batch(t, cs).Committed?
    ensures Consistent(Batch(t, cs).tables) <==> CellsAgree(Writes(t, cs))
  {
    hide Count, Cell, Batch, Writes, RowsIn, RollupsIn;
    var u, ws := Batch(t, cs).tables, Writes(t, cs);
    BatchKeepsCounters(t, cs);
    if Consistent(u) {
      forall k: CellKey ensures RowsIn(ws, k) == RollupsIn(ws, k) {
        BatchMoves(t, cs, k);
        assert Cell(t, k) == Count(History(t), ByCell(k)) && Cell(u, k) == Count(History(u), ByCell(k));
      }
    }
    if CellsAgree(ws) {
      forall k: CellKey ensures Cell(u, k) == Count(History(u), ByCell(k)) {
        BatchMoves(t, cs, k);
        assert Cell(t, k) == Count(History(t), ByCell(k)) && RowsIn(ws, k) == RollupsIn(ws, k);
      }
      assert Consistent(u);
    }
  }

  // ---- clocks that run forward ----

  predicate Forward(ws: seq<Submission>) {
    forall c :: c in ws ==> c.insertNow <= c.rollupNow
  }

  lemma DaysOrdered(a: Time, b: Time)
    requires a <= b
    ensures UTCDay(a) <= UTCDay(b)
  {
  }

  lemma SameCell(c: Submission)
    requires Aligned(c)
    ensures RowCell(c) == CellOf(c)
  {
  }

  /** A drifting write puts its row into an earlier cell than it raises. */
  lemma DriftsForward(c: Submission)
    requires c.insertNow <= c.rollupNow
    ensures RowCell(c).day <= CellOf(c).day
    ensures Aligned(c) <==> RowCell(c) == CellOf(c)
    ensures Aligned(c) <==> RowCell(c).day == CellOf(c).day
  {
    DaysOrdered(c.insertNow, c.rollupNow);
  }

  /** Of the drifting writes, one whose row has the earliest day. */
  lemma {:induction false} Earliest(ws: seq<Submission>) returns (c: Submission)
    requires exists d :: d in ws && !Aligned(d)
    ensures c in ws && !Aligned(c)
    ensures forall d :: d in ws && !Aligned(d) ==> RowCell(c).day <= RowCell(d).day
  {
    var front, last := ws[..|ws| - 1], ws[|ws| - 1];
    assert ws == front + [last];
    if exists d :: d in front && !Aligned(d) {
      c := Earliest(front);
      if !Aligned(last) && RowCell(last).day < RowCell(c).day {
        c := last;
      }
    } else {
      c := last;
    }
  }

  /** If no write drifts into the cell, it is raised at most as often as it gets rows, and less often if a write
      drifts out of it. */
  lemma {:induction false} NoneDriftsIn(ws: seq<Submission>, k: CellKey, out: Submission)
    requires forall d :: d in ws && CellOf(d) == k ==> RowCell(d) == k
    requires RowCell(out) == k && CellOf(out) != k
    ensures RollupsIn(ws, k) <= RowsIn(ws, k)
    ensures out in ws ==> RollupsIn(ws, k) < RowsIn(ws, k)
  {
    hide RowCell, CellOf;
    if ws != [] {
      assert ws == ws[..|ws| - 1] + [ws[|ws| - 1]];
      NoneDriftsIn(ws[..|ws| - 1], k, out);
    }
  }

  lemma {:induction false} AlignedAgree(ws: seq<Submission>, k: CellKey)
    requires forall c :: c in ws ==> Aligned(c)
    ensures RowsIn(ws, k) == RollupsIn(ws, k)
  {
    hide RowCell, CellOf, Aligned;
    if ws != [] {
      var last := ws[|ws| - 1];
      assert last in ws;
      AlignedAgree(ws[..|ws| - 1], k);
      SameCell(last);
    }
  }

  /** A committed batch keeps the tables consistent exactly when its writes put as many rows into every cell as
      they raise it. If no clock ran backwards, that is exactly when each written event got both readings on one
      UTC day: drifts never cancel out. */
  lemma BatchConsistent(t: Tables, cs: seq<Submission>)
    requires Consistent(t) && Batch(t, cs).Committed?
    ensures Consistent(Batch(t, cs).tables) <==> CellsAgree(Writes(t, cs))
    ensures (forall c :: c in Writes(t, cs) ==> Aligned(c)) ==> Consistent(Batch(t, cs).tables)
    ensures Forward(Writes(t, cs)) ==>
      (Consistent(Batch(t, cs).tables) <==> forall c :: c in Writes(t, cs) ==> Aligned(c))
  {
    var ws := Writes(t, cs);
    RollupOnly(t, cs);
    hide Consistent, Batch, Writes, RowCell, CellOf, Aligned, RowsIn, RollupsIn;
    if forall c :: c in ws ==> Aligned(c) {
      forall k: CellKey ensures RowsIn(ws, k) == RollupsIn(ws, k) {
        AlignedAgree(ws, k);
      }
    } else if Forward(ws) {
      DriftShows(ws);
    }
  }

  lemma DriftShows(ws: seq<Submission>)
    requires Forward(ws) && exists c :: c in ws && !Aligned(c)
    ensures !CellsAgree(ws)
  {
    hide RowCell, CellOf, Aligned, RowsIn, RollupsIn;
    var c := Earliest(ws);
    DriftsForward(c);
    var k := RowCell(c);
    forall d | d in ws && CellOf(d) == k ensures RowCell(d) == k {
      DriftsForward(d);
    }
    NoneDriftsIn(ws, k, c);
  }
}
