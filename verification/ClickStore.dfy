// The store's click writers over transactions. Any statement, begin, commit or rollback may fail; a
// failed commit may nevertheless have reached the database.

module ClickStore {
  import opened Wrappers
  import opened Ledger

  datatype CommitOutcome = Succeeded | FailedBefore | FailedAfter

  /** The database with its transaction metrics. `tables` is the committed state. */
  class Database {
    var tables: Tables
    var started: nat
    var committed: nat
    var rolledBack: nat
    var commitFailures: nat
    /** Statements, begins, commits and rollbacks that failed on the way to or in the database. */
    ghost var faults: nat

    constructor (t: Tables)
      ensures tables == t && Unfinished() == 0 && faults == 0
    {
      tables := t;
      started, committed, rolledBack, commitFailures, faults := 0, 0, 0, 0, 0;
    }

    /** Transactions begun and not yet accounted for. */
    function Unfinished(): int
      reads this
    {
      started - committed - rolledBack - commitFailures
    }

    method Begin() returns (tx: Transaction?)
      modifies this
      ensures tables == old(tables) && faults == old(faults) + if tx == null then 1 else 0
      ensures tx == null ==> Unfinished() == old(Unfinished())
      ensures tx != null ==>
        fresh(tx) && tx.db == this && tx.work == tables && !tx.finished && Unfinished() == old(Unfinished()) + 1
    {
      var fails: bool := *;
      if fails {
        faults := faults + 1;
        return null;
      }
      started := started + 1;
      tx := new Transaction(this);
    }
  }

  /** One transaction: writes go to `work` and reach the database only through Commit. */
  class Transaction {
    const db: Database
    var work: Tables
    var finished: bool

    constructor (db: Database)
      ensures this.db == db && work == db.tables && !finished
    {
      this.db := db;
      work := db.tables;
      finished := false;
    }

    method Commit() returns (failed: bool)
      requires !finished
      modifies this, db
      ensures finished && work == old(work)
      ensures db.Unfinished() == old(db.Unfinished()) - 1
      ensures !failed ==> db.tables == work
      ensures failed ==> db.tables == old(db.tables) || db.tables == work
      ensures db.faults == old(db.faults) + if failed then 1 else 0
    {
      var outcome: CommitOutcome := *;
      if outcome != FailedBefore {
        db.tables := work;
      }
      failed := outcome != Succeeded;
      if failed {
        db.commitFailures, db.faults := db.commitFailures + 1, db.faults + 1;
      } else {
        db.committed := db.committed + 1;
      }
      finished := true;
    }

    /** Counted once per transaction, and not at all after a commit. */
    method Rollback() returns (failed: bool)
      modifies this, db
      ensures finished && db.tables == old(db.tables)
      ensures db.Unfinished() == old(db.Unfinished()) - if old(finished) then 0 else 1
      ensures db.faults == old(db.faults) + if failed then 1 else 0
    {
      failed := *;
      db.faults := db.faults + if failed then 1 else 0;
      if !finished {
        db.rolledBack := db.rolledBack + 1;
        finished := true;
      }
    }

    method InsertClick(c: Submission) returns (inserted: bool, failed: bool)
      modifies this`work, db`faults
      ensures failed ==> work == old(work)
      ensures db.faults == old(db.faults) + if failed && !Violates(old(work), c) then 1 else 0
      ensures !failed ==>
        && inserted == !Stored(old(work), c.event.eventID)
        && (inserted ==> c.event.linkID in work.links)
        && work == (if inserted then InsertRow(old(work), c) else old(work))
    {
      inserted, failed := false, *;
      if failed && !Violates(work, c) {
        db.faults := db.faults + 1;
        return;
      }
      failed := false;
      if Stored(work, c.event.eventID) {
        return;
      }
      if c.event.linkID !in work.links {
        failed := true;
        return;
      }
      work := InsertRow(work, c);
      inserted := true;
    }

    /** UPDATE links SET clicks=clicks+1 under the caller's guard; `affected` is RowsAffected. */
    method BumpLink(linkID: int, guarded: bool) returns (affected: nat, failed: bool)
      requires guarded ==> linkID in work.links
      modifies this`work, db`faults
      ensures failed ==> work == old(work)
      ensures db.faults == old(db.faults) + if failed then 1 else 0
      ensures !failed ==> affected == (if guarded then 1 else 0)
      ensures !failed ==> work == (if guarded then BumpCounter(old(work), linkID) else old(work))
    {
      affected, failed := 0, *;
      db.faults := db.faults + if failed then 1 else 0;
      if !failed && guarded {
        work := BumpCounter(work, linkID);
        affected := 1;
      }
    }

    method IncrementClickRollup(c: Submission) returns (failed: bool)
      modifies this`work, db`faults
      ensures work == (if failed then old(work) else BumpRollup(old(work), c))
      ensures !failed ==> RaisesOneCell(old(work), work, c.event, c.event.occurredAt.GetOr(c.rollupNow))
      ensures db.faults == old(db.faults) + if failed then 1 else 0
    {
      RollupRaises(work, c);
      failed := *;
      db.faults := db.faults + if failed then 1 else 0;
      if !failed {
        work := BumpRollup(work, c);
      }
    }
  }

  /** The foreign key does not let a new event of an unknown link in. */
  predicate Violates(t: Tables, c: Submission) {
    !Stored(t, c.event.eventID) && c.event.linkID !in t.links
  }

  class Store {
    const db: Database

    constructor (db: Database)
      ensures this.db == db
    {
      this.db := db;
    }

    /** A success does exactly what Single says; a failure changes nothing unless its commit got through, and happens
        only if the database failed or the link is unknown. */
    method RecordClick(c: Submission, increment: bool, maxClicks: Option<int>) returns (ok: bool, failed: bool)
      modifies db
      ensures !failed ==> Single(old(db.tables), c, increment, maxClicks) == Done(ok, db.tables)
      ensures failed ==>
        || db.tables == old(db.tables)
        || Single(old(db.tables), c, increment, maxClicks) == Done(true, db.tables)
      ensures failed ==> db.faults > old(db.faults) || Single(old(db.tables), c, increment, maxClicks) == Broken
      ensures db.Unfinished() == old(db.Unfinished())
    {
      var tx := db.Begin();
      if tx == null {
        return false, true;
      }
      ok, failed := RecordClickIn(tx, c, increment, maxClicks);
      var _ := tx.Rollback();
    }

    method RecordClickIn(tx: Transaction, c: Submission, increment: bool, maxClicks: Option<int>)
      returns (ok: bool, failed: bool)
      requires tx.db == db && !tx.finished && tx.work == db.tables
      modifies tx, db
      ensures !failed ==> Single(old(db.tables), c, increment, maxClicks) == Done(ok, db.tables)
      ensures failed ==>
        || db.tables == old(db.tables)
        || Single(old(db.tables), c, increment, maxClicks) == Done(true, db.tables)
      ensures failed ==> db.faults > old(db.faults) || Single(old(db.tables), c, increment, maxClicks) == Broken
      ensures db.Unfinished() == old(db.Unfinished()) - if tx.finished then 1 else 0
    {
      var marked := Marked(c, increment);
      var inserted: bool;
      inserted, failed := tx.InsertClick(marked);
      if failed {
        return false, true;
      }
      if !inserted {
        failed := tx.Commit();
        return true, failed;
      }
      if increment {
        var l := tx.work.links[c.event.linkID];
        var affected;
        affected, failed := tx.BumpLink(c.event.linkID, Bumps(l, maxClicks));
        if failed {
          return false, true;
        }
        if affected == 0 {
          failed := tx.Rollback();
          return false, failed;
        }
      }
      failed := tx.IncrementClickRollup(marked);
      if failed {
        return false, true;
      }
      failed := tx.Commit();
      return true, failed;
    }

    /** A success does exactly what Batch says and returns its count; a failure returns zero, and happens only if the
        database failed or the batch must abort. */
    method RecordClicks(cs: seq<Submission>) returns (inserted: nat, failed: bool)
      modifies db
      ensures !failed ==> Batch(old(db.tables), cs) == Committed(db.tables, inserted) && inserted <= |cs|
      ensures failed ==> inserted == 0
      ensures failed ==>
        db.tables == old(db.tables) || exists n :: Batch(old(db.tables), cs) == Committed(db.tables, n)
      ensures failed ==> db.faults > old(db.faults) || Batch(old(db.tables), cs) == Aborted
      ensures db.Unfinished() == old(db.Unfinished())
    {
      if |cs| == 0 {
        return 0, false;
      }
      var tx := db.Begin();
      if tx == null {
        return 0, true;
      }
      inserted, failed := RecordClicksIn(tx, cs);
      var _ := tx.Rollback();
    }

    method RecordClicksIn(tx: Transaction, cs: seq<Submission>) returns (inserted: nat, failed: bool)
      requires tx.db == db && !tx.finished && tx.work == db.tables
      modifies tx, db
      ensures !failed ==> Batch(old(db.tables), cs) == Committed(db.tables, inserted) && inserted <= |cs|
      ensures failed ==> inserted == 0
      ensures failed ==>
        db.tables == old(db.tables) || exists n :: Batch(old(db.tables), cs) == Committed(db.tables, n)
      ensures failed ==> db.faults > old(db.faults) || Batch(old(db.tables), cs) == Aborted
      ensures db.Unfinished() == old(db.Unfinished()) - if tx.finished then 1 else 0
    {
      ghost var before := db.tables;
      inserted := 0;
      for i := 0 to |cs|
        invariant !tx.finished && db.tables == before && db.Unfinished() == old(db.Unfinished())
        invariant Batch(before, cs[..i]) == Committed(tx.work, inserted) && db.faults == old(db.faults)
        invariant inserted <= i
      {
        var c := cs[i];
        assert cs[..i + 1][..i] == cs[..i];
        var isNew;
        isNew, failed := tx.InsertClick(c);
        if failed {
          StopsAt(before, cs, i);
          return 0, true;
        }
        if !isNew {
          continue;
        }
        if c.event.increment {
          var l := tx.work.links[c.event.linkID];
          var affected;
          affected, failed := tx.BumpLink(c.event.linkID, !l.deleted && l.maxClicks == None);
          if failed || affected != 1 {
            StopsAt(before, cs, i);
            return 0, true;
          }
        }
        failed := tx.IncrementClickRollup(c);
        if failed {
          return 0, true;
        }
        inserted := inserted + 1;
      }
      assert cs[..|cs|] == cs;
      failed := tx.Commit();
      if failed {
        return 0, true;
      }
    }
  }

  /** A batch that aborts at an event aborts as a whole. */
  lemma {:induction false} AbortStays(t: Tables, cs: seq<Submission>, n: nat)
    requires n <= |cs| && Batch(t, cs[..n]) == Aborted
    ensures Batch(t, cs) == Aborted
    decreases |cs|
  {
    if n < |cs| {
      var front := cs[..|cs| - 1];
      assert front[..n] == cs[..n];
      AbortStays(t, front, n);
    } else {
      assert cs[..n] == cs;
    }
  }

  lemma StopsAt(t: Tables, cs: seq<Submission>, i: nat)
    requires i < |cs| && Batch(t, cs[..i]).Committed?
    ensures BatchStep(Batch(t, cs[..i]), cs[i]) == Aborted ==> Batch(t, cs) == Aborted
  {
    assert cs[..i + 1][..i] == cs[..i];
    if BatchStep(Batch(t, cs[..i]), cs[i]) == Aborted {
      AbortStays(t, cs, i + 1);
    }
  }
}
