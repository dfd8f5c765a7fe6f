// Keyset pagination: following next_cursor over tables that change between the pages.

module Pagination {
  import opened Models

  predicate Descending(ids: seq<int>) {
    forall i, j :: 0 <= i < j < |ids| ==> ids[i] > ids[j]
  }

  /** The visible rows a cursor leaves; 0 is no cursor. */
  function Below(rows: set<int>, cursor: int): set<int> {
    if cursor > 0 then set id | id in rows && id < cursor else rows
  }

  /** ORDER BY id DESC LIMIT n: in order, and a row is missing only if n larger ones are there. */
  ghost predicate Newest(page: seq<int>, rows: set<int>, n: nat) {
    && Descending(page) && |page| <= n && (forall i :: 0 <= i < |page| ==> page[i] in rows)
    && (forall id :: id in rows && id !in page ==> |page| == n && forall i :: 0 <= i < |page| ==> id < page[i])
  }

  lemma {:induction false} Largest(rows: set<int>) returns (m: int)
    requires rows != {}
    ensures m in rows && forall id :: id in rows ==> id <= m
    decreases |rows|
  {
    var x := Member(rows);
    m := x;
    var rest := rows - {x};
    if rest != {} {
      var n := Largest(rest);
      m := if n > x then n else x;
    }
    assert forall id :: id in rows ==> id in rest || id == x;
  }

  /** The statement as the database answers it. */
  method Query(rows: set<int>, n: nat) returns (page: seq<int>)
    ensures Newest(page, rows, n)
  {
    page := [];
    var rest := rows;
    while |page| < n && rest != {}
      invariant |page| <= n && Descending(page) && rest <= rows
      invariant forall i :: 0 <= i < |page| ==> page[i] in rows
      invariant forall id :: id in rows ==> id in rest || id in page
      invariant forall id, i :: id in rest && 0 <= i < |page| ==> id < page[i]
      decreases |rest|
    {
      ghost var m := Largest(rest);
      assert exists id :: id in rest && forall other :: other in rest ==> other <= id;
      var id :| id in rest && forall other :: other in rest ==> other <= id;
      page, rest := page + [id], rest - {id};
    }
  }

  /** One more row than the page shows is read, to see whether there is a next page. */
  method ListLinksPage(rows: set<int>, limit: int, cursor: int) returns (items: seq<int>, next: int, ghost size: nat)
    requires forall id :: id in rows ==> id >= 1
    ensures size == (if 1 <= limit <= 500 then limit else 100) && Newest(items, Below(rows, cursor), size)
    ensures next == 0 ==> forall id :: id in Below(rows, cursor) ==> id in items
    ensures next != 0 ==> items != [] && next == items[|items| - 1]
  {
    var n := if limit < 1 || limit > 500 then 100 else limit;
    size := n;
    var links := Query(Below(rows, cursor), n + 1);
    items, next := links, 0;
    if |links| > n {
      items := links[..n];
      next := items[|items| - 1];
      forall id | id in Below(rows, cursor) && id !in items ensures id < next {
        if id in links {
          assert id == links[n];
        }
      }
    }
  }

  /** A full page points on, even when nothing is left behind it. */
  method ListClicksPage(rows: set<int>, limit: nat, cursor: int) returns (items: seq<int>, next: int)
    requires limit >= 1 && forall id :: id in rows ==> id >= 1
    ensures Newest(items, Below(rows, cursor), limit)
    ensures next == 0 ==> forall id :: id in Below(rows, cursor) ==> id in items
    ensures next != 0 ==> items != [] && next == items[|items| - 1]
  {
    items := Query(Below(rows, cursor), limit);
    next := 0;
    if |items| == limit {
      next := items[|items| - 1];
    }
  }

  /** Later tables only gained rows newer than all of the first one. */
  ghost predicate OnlyNewer(first: set<int>, later: set<int>) {
    first <= later && forall id, was :: id in later - first && was in first ==> id > was
  }

  /** What the pages read so far amount to. */
  ghost predicate Progress(out: seq<int>, cursor: int, tables: seq<set<int>>) {
    && Descending(out) && cursor >= 0
    && (cursor == 0 ==> out == [] && tables == [])
    && (cursor > 0 ==> tables != [] && out != [] && out[|out| - 1] == cursor)
    && (forall id :: id in out ==> exists k :: 0 <= k < |tables| && id in tables[k])
    && (cursor > 0 ==> forall id :: id >= cursor && InAll(id, tables) ==> id in out)
    && ((forall k :: 0 <= k < |tables| ==> OnlyNewer(tables[0], tables[k])) ==>
          forall id :: id in out ==> id in tables[0])
  }

  ghost predicate InAll(id: int, tables: seq<set<int>>) {
    forall k :: 0 <= k < |tables| ==> id in tables[k]
  }

  /** What one more page adds. */
  lemma PageAdds(out: seq<int>, cursor: int, tables: seq<set<int>>, rows: set<int>, n: nat, items: seq<int>)
    requires Progress(out, cursor, tables) && Newest(items, Below(rows, cursor), n)
    requires forall id :: id in rows ==> id >= 1
    ensures Descending(out + items)
    ensures forall id :: id in out + items ==> exists k :: 0 <= k <= |tables| && id in (tables + [rows])[k]
    ensures (forall k :: 0 <= k <= |tables| ==> OnlyNewer((tables + [rows])[0], (tables + [rows])[k]))
        ==> forall id :: id in out + items ==> id in (tables + [rows])[0]
  {
    var all := tables + [rows];
    forall id | id in items ensures id in rows && id >= 1 && (cursor > 0 ==> id < cursor) {
      var i :| 0 <= i < |items| && items[i] == id;
    }
    forall id | id in out + items ensures exists k :: 0 <= k <= |tables| && id in all[k] {
      if id in items {
        assert id in all[|tables|];
      } else {
        var k :| 0 <= k < |tables| && id in tables[k];
        assert id in all[k];
      }
    }
    if forall k :: 0 <= k <= |tables| ==> OnlyNewer(all[0], all[k]) {
      forall k | 0 <= k < |tables| ensures OnlyNewer(tables[0], tables[k]) {
        assert all[k] == tables[k];
      }
      assert OnlyNewer(all[0], all[|tables|]) && all[|tables|] == rows;
      if cursor > 0 {
        assert cursor in out && cursor in tables[0] && all[0] == tables[0];
        forall id | id in items ensures id in all[0] {
          assert id in rows - all[0] ==> id > cursor;
        }
      }
    }
  }

  lemma PageCovers(
      out: seq<int>, cursor: int, tables: seq<set<int>>, rows: set<int>, n: nat, items: seq<int>, next: int)
    requires Progress(out, cursor, tables) && Newest(items, Below(rows, cursor), n)
    requires next == 0 ==> forall id :: id in Below(rows, cursor) ==> id in items
    requires next != 0 ==> items != [] && next == items[|items| - 1]
    ensures forall id :: id >= next && InAll(id, tables + [rows]) ==> id in out + items
  {
    var all := tables + [rows];
    forall id | id >= next && InAll(id, all) ensures id in out + items {
      assert id in all[|tables|];
      forall k | 0 <= k < |tables| ensures id in tables[k] {
        assert id in all[k];
      }
      assert cursor > 0 && id >= cursor ==> id in out;
      assert cursor == 0 || id < cursor ==> id in Below(rows, cursor);
    }
  }

  /** Follows next_cursor to the end, under either rule, while rows come and go between the pages. The ids are
      strictly descending, so none is read twice; a row visible throughout is read; nothing else than rows
      that were visible is read; and rows that only arrived above everything else do not show at all. */
  method Follow(oneMore: bool, limit: nat) returns (out: seq<int>, ghost tables: seq<set<int>>)
    requires limit >= 1
    ensures Descending(out) && tables != []
    ensures forall id :: id >= 1 && InAll(id, tables) ==> id in out
    ensures forall id :: id in out ==> exists k :: 0 <= k < |tables| && id in tables[k]
    ensures (forall k :: 0 <= k < |tables| ==> OnlyNewer(tables[0], tables[k]))
        ==> forall id :: id >= 1 ==> (id in out <==> id in tables[0])
  {
    out, tables := [], [];
    var cursor := 0;
    while true
      invariant Progress(out, cursor, tables)
      decreases cursor == 0, cursor
    {
      hide Progress, Newest;
      var rows := Table();
      var items, next;
      ghost var n := limit;
      if oneMore {
        items, next, n := ListLinksPage(rows, limit, cursor);
      } else {
        items, next := ListClicksPage(rows, limit, cursor);
      }
      PageAdds(out, cursor, tables, rows, n, items);
      PageCovers(out, cursor, tables, rows, n, items, next);
      NextIsSmaller(out, cursor, tables, rows, n, items, next);
      out, tables := out + items, tables + [rows];
      if next == 0 {
        Finished(out, tables);
        return;
      }
      Advanced(out, next, tables);
      cursor := next;
    }
  }

  /** The visible rows at some moment; ids are generated from 1. */
  method Table() returns (rows: set<int>)
    ensures forall id :: id in rows ==> id >= 1
  {
    var any: set<int> := *;
    rows := set id | id in any && id >= 1;
  }

  lemma NextIsSmaller(
      out: seq<int>, cursor: int, tables: seq<set<int>>, rows: set<int>, n: nat, items: seq<int>, next: int)
    requires Progress(out, cursor, tables) && Newest(items, Below(rows, cursor), n)
    requires forall id :: id in rows ==> id >= 1
    requires next != 0 ==> items != [] && next == items[|items| - 1]
    ensures next != 0 ==> next >= 1 && (cursor > 0 ==> next < cursor) && out + items != []
    ensures next != 0 ==> (out + items)[|out + items| - 1] == next
  {
  }

  lemma Advanced(out: seq<int>, cursor: int, tables: seq<set<int>>)
    requires Descending(out) && cursor > 0 && tables != [] && out != [] && out[|out| - 1] == cursor
    requires forall id :: id in out ==> exists k :: 0 <= k < |tables| && id in tables[k]
    requires forall id :: id >= cursor && InAll(id, tables) ==> id in out
    requires (forall k :: 0 <= k < |tables| ==> OnlyNewer(tables[0], tables[k])) ==>
      forall id :: id in out ==> id in tables[0]
    ensures Progress(out, cursor, tables)
  {
  }

  lemma Finished(out: seq<int>, tables: seq<set<int>>)
    requires tables != [] && forall id :: id >= 0 && InAll(id, tables) ==> id in out
    requires (forall k :: 0 <= k < |tables| ==> OnlyNewer(tables[0], tables[k])) ==>
      forall id :: id in out ==> id in tables[0]
    ensures (forall k :: 0 <= k < |tables| ==> OnlyNewer(tables[0], tables[k]))
        ==> forall id :: id >= 1 ==> (id in out <==> id in tables[0])
  {
    if forall k :: 0 <= k < |tables| ==> OnlyNewer(tables[0], tables[k]) {
      forall id | id >= 1 && id in tables[0] ensures id in out {
        assert InAll(id, tables);
      }
    }
  }
}
