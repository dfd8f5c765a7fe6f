// Rewriting `?` placeholders as `$1`, `$2`, ... outside quoted text, and the query builders that rely on it.

module Rebind {
  import opened Text
  import opened Wrappers
  import opened Users

  // ---- what rebinding means, prefix by prefix ----

  predicate IsQuote(c: char) {
    c == '\'' || c == '"'
  }

  /** The quote a text leaves open: a plain toggle, blind to doubled quotes. */
  function OpenQuote(q: string): Option<char> {
    if q == [] then None
    else
      var before, c := OpenQuote(q[..|q| - 1]), q[|q| - 1];
      match before
      case Some(quote) => if c == quote then None else before
      case None => if IsQuote(c) then Some(c) else None
  }

  predicate IsMark(q: string, i: nat)
    requires i < |q|
  {
    q[i] == '?' && OpenQuote(q[..i]) == None
  }

  /** The number of placeholders, that is of `?` outside quotes. */
  function Marks(q: string): nat {
    if q == [] then 0 else Marks(q[..|q| - 1]) + if IsMark(q, |q| - 1) then 1 else 0
  }

  /** What position i of the query becomes: the k-th placeholder becomes $k, everything else stays. */
  function Piece(q: string, i: nat): string
    requires i < |q|
  {
    if IsMark(q, i) then "$" + Decimal(Marks(q[..i]) + 1) else [q[i]]
  }

  function Rebound(q: string): string {
    if q == [] then [] else Rebound(q[..|q| - 1]) + Piece(q, |q| - 1)
  }

  lemma StepBack(q: string, i: nat)
    requires i < |q|
    ensures q[..i + 1][..i] == q[..i] && q[..i + 1][i] == q[i]
    ensures Rebound(q[..i + 1]) == Rebound(q[..i]) + Piece(q, i)
    ensures Marks(q[..i + 1]) == Marks(q[..i]) + if IsMark(q, i) then 1 else 0
  {
    var p := q[..i + 1];
    assert p[..|p| - 1] == q[..i];
  }

  /** The loop with its lookahead for doubled quotes. */
  method Rebind(query: string) returns (b: string)
    ensures b == Rebound(query)
  {
    b := [];
    var arg := 1;
    var quote: Option<char> := None;
    var i := 0;
    assert query[..0] == [];
    while i < |query|
      invariant 0 <= i <= |query|
      invariant b == Rebound(query[..i]) && quote == OpenQuote(query[..i]) && arg == Marks(query[..i]) + 1
    {
      StepBack(query, i);
      var c := query[i];
      if quote.Some? {
        b := b + [c];
        if c == quote.value {
          if i + 1 < |query| && query[i + 1] == quote.value {
            StepBack(query, i + 1);
            QuotesAreLiteral(query, i);
            b := b + [query[i + 1]];
            i := i + 1;
          } else {
            quote := None;
          }
        }
      } else if IsQuote(c) {
        quote := Some(c);
        b := b + [c];
      } else if c == '?' {
        b := b + "$" + Decimal(arg);
        arg := arg + 1;
      } else {
        b := b + [c];
      }
      i := i + 1;
    }
    assert query[..|query|] == query;
  }

  /** An open quote is a quote character, so closing and reopening it at a doubled quote changes nothing. */
  lemma {:induction false} QuotesAreLiteral(q: string, i: nat)
    requires i <= |q|
    ensures OpenQuote(q[..i]).Some? ==> IsQuote(OpenQuote(q[..i]).value)
  {
    if i > 0 {
      QuotesAreLiteral(q, i - 1);
      assert q[..i][..i - 1] == q[..i - 1];
    }
  }

  // ---- what rebinding keeps ----

  lemma {:induction false} DecimalIsPlain(n: nat)
    ensures Plain(Decimal(n)) && Decimal(n) != []
  {
    if n >= 10 {
      DecimalIsPlain(n / 10);
    }
  }

  /** Text without quotes and placeholders. */
  predicate Plain(s: string) {
    forall i :: 0 <= i < |s| ==> !IsQuote(s[i]) && s[i] != '?'
  }

  lemma OneMore(a: string, c: char)
    ensures (a + [c])[..|a|] == a
    ensures Marks(a + [c]) == Marks(a) + if c == '?' && OpenQuote(a) == None then 1 else 0
    ensures OpenQuote(a + [c]) ==
      match OpenQuote(a)
      case Some(quote) => if c == quote then None else Some(quote)
      case None => if IsQuote(c) then Some(c) else None
  {
  }

  /** Reading a then b: b starts inside whatever quote a left open. */
  lemma {:induction false} PlainAdds(a: string, b: string)
    requires Plain(b)
    ensures OpenQuote(a + b) == OpenQuote(a) && Marks(a + b) == Marks(a)
  {
    if b == [] {
      assert a + b == a;
    } else {
      PlainAdds(a, b[..|b| - 1]);
      assert a + b == a + b[..|b| - 1] + [b[|b| - 1]];
      OneMore(a + b[..|b| - 1], b[|b| - 1]);
      QuotesAreLiteral(a, |a|);
      assert a[..|a|] == a;
    }
  }

  /** Rebinding keeps every quotation, leaves no placeholder, and so changes nothing the second time. */
  lemma {:induction false} ReboundIsFinal(q: string)
    ensures OpenQuote(Rebound(q)) == OpenQuote(q) && Marks(Rebound(q)) == 0
  {
    if q != [] {
      var front, c := q[..|q| - 1], q[|q| - 1];
      ReboundIsFinal(front);
      var piece := Piece(q, |q| - 1);
      if IsMark(q, |q| - 1) {
        DecimalIsPlain(Marks(front) + 1);
        PlainAdds(Rebound(front), piece);
      } else {
        OneMore(Rebound(front), c);
      }
    }
  }

  lemma {:induction false} NoMarksNoChange(q: string)
    requires Marks(q) == 0
    ensures Rebound(q) == q
  {
    if q != [] {
      NoMarksNoChange(q[..|q| - 1]);
      assert q == q[..|q| - 1] + [q[|q| - 1]];
    }
  }

  lemma RebindTwice(q: string)
    ensures Rebound(Rebound(q)) == Rebound(q)
  {
    ReboundIsFinal(q);
    NoMarksNoChange(Rebound(q));
  }

  // ---- query builders ----

  /** A query whose quotes are closed and whose placeholders match its arguments one to one. */
  predicate Matched(q: string, args: seq<int>) {
    OpenQuote(q) == None && Marks(q) == |args|
  }

  /** A plain clause with one placeholder at its end. */
  lemma ClauseAdds(q: string, args: seq<int>, clause: string, arg: int)
    requires Matched(q, args) && Plain(clause)
    ensures Matched(q + clause + "?", args + [arg])
  {
    PlainAdds(q, clause);
    OneMore(q + clause, '?');
  }

  lemma TextAdds(q: string, args: seq<int>, text: string)
    requires Matched(q, args) && Plain(text)
    ensures Matched(q + text, args)
  {
    PlainAdds(q, text);
  }

  lemma {:induction false} QuotedAdds(q: string, args: seq<int>, text: string)
    requires Matched(q, args) && Plain(text)
    ensures Matched(q + "'" + text + "'", args)
  {
    OneMore(q, '\'');
    PlainAdds(q + "'", text);
    OneMore(q + "'" + text, '\'');
  }

  method AddLinkViewScope(q: string, args: seq<int>, u: User, alias: string, includeDeleted: bool)
    returns (scoped: string, all: seq<int>)
    requires Matched(q, args) && Plain(alias) && (u.role == Tenant ==> u.tenantID.Some?)
    ensures Matched(scoped, all) && q <= scoped && args <= all
  {
    hide Matched;
    scoped, all := q, args;
    if u.role == Tenant {
      ClauseAdds(q, args, " AND " + alias + ".tenant_id=", u.tenantID.value);
      scoped := q + (" AND " + alias + ".tenant_id=") + "?";
      all := args + [u.tenantID.value];
    } else if u.role == Customer {
      if u.tenantID.Some? {
        scoped, all := AddOwnOrShared(q, args, u.id, u.tenantID.value, alias, includeDeleted);
      } else {
        ClauseAdds(q, args, " AND " + alias + ".user_id=", u.id);
        scoped := q + (" AND " + alias + ".user_id=") + "?";
        all := args + [u.id];
      }
    }
  }

  /** The customer's own links, and the department links of the tenant. */
  method AddOwnOrShared(q: string, args: seq<int>, id: int, tenantID: int, alias: string, includeDeleted: bool)
    returns (scoped: string, all: seq<int>)
    requires Matched(q, args) && Plain(alias)
    ensures Matched(scoped, all) && q <= scoped && args <= all
  {
    var mine, theirs := " AND (" + alias + ".user_id=", " OR (" + alias + ".tenant_id=";
    var visible := " AND " + alias + ".visibility=";
    var deletedClause := if includeDeleted then "" else " AND " + alias + ".deleted_at IS NULL";
    assert Plain(mine) && Plain(theirs) && Plain(visible) && Plain(deletedClause + "))") && Plain("department");
    hide Matched, Plain;
    ClauseAdds(q, args, mine, id);
    scoped, all := q + mine + "?", args + [id];
    ClauseAdds(scoped, all, theirs, tenantID);
    scoped, all := scoped + theirs + "?", all + [tenantID];
    TextAdds(scoped, all, visible);
    scoped := scoped + visible;
    QuotedAdds(scoped, all, "department");
    scoped := scoped + "'" + "department" + "'";
    TextAdds(scoped, all, deletedClause + "))");
    scoped := scoped + (deletedClause + "))");
  }

  method AddLinkManageScope(q: string, args: seq<int>, u: User, alias: string) returns (scoped: string, all: seq<int>)
    requires Matched(q, args) && Plain(alias) && (u.role == Tenant ==> u.tenantID.Some?)
    ensures Matched(scoped, all) && q <= scoped && args <= all
  {
    hide Matched;
    scoped, all := q, args;
    if u.role == Tenant {
      ClauseAdds(q, args, " AND " + alias + ".tenant_id=", u.tenantID.value);
      scoped := q + (" AND " + alias + ".tenant_id=") + "?";
      all := args + [u.tenantID.value];
    } else if u.role == Customer {
      ClauseAdds(q, args, " AND " + alias + ".user_id=", u.id);
      scoped := q + (" AND " + alias + ".user_id=") + "?";
      all := args + [u.id];
    }
  }

  /** strings.Repeat */
  function Repeat(s: string, count: nat): string {
    if count == 0 then [] else Repeat(s, count - 1) + s
  }

  /** A list of `count` placeholders; an empty list is written NULL. */
  function Placeholders(count: int): string {
    if count < 1 then "NULL"
    else
      var list := Repeat("?,", count);
      if |list| > 0 && list[|list| - 1] == ',' then list[..|list| - 1] else list
  }

  lemma {:induction false} RepeatMarks(q: string, args: seq<int>, more: seq<int>)
    requires Matched(q, args)
    ensures Matched(q + Repeat("?,", |more|), args + more)
  {
    if more == [] {
      assert q + Repeat("?,", 0) == q && args + more == args;
    } else {
      var front := more[..|more| - 1];
      RepeatMarks(q, args, front);
      var before := q + Repeat("?,", |front|);
      OneMore(before, '?');
      OneMore(before + "?", ',');
      assert q + Repeat("?,", |more|) == before + "?" + ",";
    }
  }

  /** Placing a list of placeholders matches exactly the arguments it is for. */
  lemma PlaceholdersMatch(q: string, args: seq<int>, more: seq<int>)
    requires Matched(q, args)
    ensures Matched(q + Placeholders(|more|), args + more)
  {
    if more == [] {
      PlainAdds(q, "NULL");
      assert args + more == args;
    } else {
      RepeatMarks(q, args, more);
      var list := Repeat("?,", |more|);
      assert list == Repeat("?,", |more| - 1) + "?,";
      var kept := q + list[..|list| - 1];
      assert q + list == kept + [','];
      OneMore(kept, ',');
    }
  }

  /** The statement that reads one chunk of links by id: after rebinding, $k stands for the k-th argument. */
  method LinksByIDsQuery(columns: string, ids: seq<int>, u: User) returns (q: string, args: seq<int>)
    requires OpenQuote(columns) == None && Marks(columns) == 0 && (u.role == Tenant ==> u.tenantID.Some?)
    ensures Matched(q, args) && ids <= args
  {
    assert Matched(columns, []);
    hide Matched;
    var head := columns + " FROM links WHERE " + "deleted_at IS NULL AND" + " id IN (";
    assert Matched(head, []) by {
      TextAdds(columns, [], " FROM links WHERE ");
      TextAdds(columns + " FROM links WHERE ", [], "deleted_at IS NULL AND");
      TextAdds(columns + " FROM links WHERE " + "deleted_at IS NULL AND", [], " id IN (");
    }
    PlaceholdersMatch(head, [], ids);
    assert [] + ids == ids;
    TextAdds(head + Placeholders(|ids|), ids, ")");
    q, args := AddLinkViewScope(head + Placeholders(|ids|) + ")", ids, u, "links", false);
  }
}
