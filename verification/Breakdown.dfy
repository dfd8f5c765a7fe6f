// Ranking the counts of one dimension: most clicks first, the long tail folded into one point.

module Breakdown {
  // ---- counting by key ----

  type Counts = map<string, nat>

  function CountOf(m: Counts, key: string): nat {
    if key in m then m[key] else 0
  }

  /** `m[key]++` on a Go map, where a missing key counts as zero. */
  function Bump(m: Counts, key: string): Counts {
    m[key := CountOf(m, key) + 1]
  }

  datatype Point = Point(key: string, clicks: nat)

  function Total(ps: seq<Point>): nat {
    if ps == [] then 0 else Total(ps[..|ps| - 1]) + ps[|ps| - 1].clicks
  }

  /** A listing of a map, as ranging over it in some order yields. */
  ghost predicate Lists(m: Counts, ps: seq<Point>) {
    && (forall i :: 0 <= i < |ps| ==> ps[i].key in m && ps[i].clicks == m[ps[i].key])
    && (forall i, j :: 0 <= i < j < |ps| ==> ps[i].key != ps[j].key)
    && (forall key :: key in m ==> exists i :: 0 <= i < |ps| && ps[i].key == key)
  }

  lemma {:induction false} TotalConcat(a: seq<Point>, b: seq<Point>)
    ensures Total(a + b) == Total(a) + Total(b)
  {
    if b == [] {
      assert a + b == a;
    } else {
      TotalConcat(a, b[..|b| - 1]);
      assert (a + b)[..|a + b| - 1] == a + b[..|b| - 1];
    }
  }

  lemma TotalWithout(ps: seq<Point>, i: nat)
    requires i < |ps|
    ensures Total(ps) == Total(ps[..i] + ps[i + 1..]) + ps[i].clicks
  {
    assert ps == ps[..i + 1] + ps[i + 1..];
    TotalConcat(ps[..i + 1], ps[i + 1..]);
    TotalConcat(ps[..i], ps[i + 1..]);
    assert ps[..i + 1][..i] == ps[..i];
  }

  // ---- ranking ----

  /** Byte order of strings. */
  predicate Before(a: string, b: string)
    decreases a
  {
    b != [] && (a == [] || a[0] < b[0] || (a[0] == b[0] && Before(a[1..], b[1..])))
  }

  /** More clicks first, then smaller keys: the order of the comparison function. */
  predicate Ranks(p: Point, q: Point) {
    p.clicks > q.clicks || (p.clicks == q.clicks && Before(p.key, q.key))
  }

  predicate Ranked(ps: seq<Point>) {
    forall i, j :: 0 <= i < j < |ps| ==> Ranks(ps[i], ps[j])
  }

  /** Ranked points fall in clicks, and among equal clicks their keys rise: at the first byte in which they differ, or
      by being longer. */
  lemma RankedReads(ps: seq<Point>, i: nat, j: nat)
    requires Ranked(ps) && i < j < |ps|
    ensures ps[i].clicks >= ps[j].clicks
    ensures ps[i].clicks == ps[j].clicks ==> KeysRise(ps[i].key, ps[j].key)
  {
    if ps[i].clicks == ps[j].clicks {
      BeforeReads(ps[i].key, ps[j].key);
    }
  }

  predicate KeysRise(a: string, b: string) {
    exists n :: 0 <= n <= |a| && n < |b| && a[..n] == b[..n] && (n == |a| || a[n] < b[n])
  }

  lemma {:induction false} BeforeReads(a: string, b: string)
    requires Before(a, b)
    ensures KeysRise(a, b)
    decreases |a|
  {
    if a == [] || a[0] < b[0] {
      assert a[..0] == b[..0];
    } else {
      BeforeReads(a[1..], b[1..]);
      var x, y := a[1..], b[1..];
      var n :| 0 <= n <= |x| && n < |y| && x[..n] == y[..n] && (n == |x| || x[n] < y[n]);
      assert a[..n + 1] == [a[0]] + x[..n] && b[..n + 1] == [b[0]] + y[..n];
      assert n + 1 <= |a| && n + 1 < |b| && a[..n + 1] == b[..n + 1];
    }
  }

  lemma {:induction false} BeforeTotal(a: string, b: string)
    ensures Before(a, b) || Before(b, a) || a == b
    ensures !(Before(a, b) && Before(b, a)) && !Before(a, a)
    decreases |a|
  {
    if a != [] && b != [] {
      assert a == [a[0]] + a[1..] && b == [b[0]] + b[1..];
      BeforeTotal(a[1..], b[1..]);
    }
    if a != [] {
      BeforeTotal(a[1..], a[1..]);
    }
  }

  lemma {:induction false} BeforeTransitive(a: string, b: string, c: string)
    requires Before(a, b) && Before(b, c)
    ensures Before(a, c)
    decreases |a|
  {
    if a != [] && a[0] == b[0] == c[0] {
      BeforeTransitive(a[1..], b[1..], c[1..]);
    }
  }

  lemma RanksTransitive(p: Point, q: Point, r: Point)
    requires Ranks(p, q) && Ranks(q, r)
    ensures Ranks(p, r)
  {
    if p.clicks == q.clicks == r.clicks {
      BeforeTransitive(p.key, q.key, r.key);
    }
  }

  lemma RanksTotal(p: Point, q: Point)
    requires p.key != q.key
    ensures Ranks(p, q) != Ranks(q, p)
  {
    BeforeTotal(p.key, q.key);
  }

  lemma Find(m: Counts, ps: seq<Point>, key: string) returns (i: nat)
    requires Lists(m, ps) && key in m
    ensures i < |ps| && ps[i] == Point(key, m[key])
  {
    assert exists k: int :: 0 <= k < |ps| && ps[k].key == key;
    i :| i < |ps| && ps[i].key == key;
  }

  lemma Entry(m: Counts, ps: seq<Point>, i: nat)
    requires Lists(m, ps) && i < |ps|
    ensures ps[i].key in m && ps[i].clicks == m[ps[i].key]
  {
  }

  lemma EmptyListing(m: Counts, ps: seq<Point>)
    requires Lists(m, ps)
    ensures m == map[] <==> ps == []
  {
    hide Lists;
    if ps != [] {
      Entry(m, ps, 0);
    }
    if m != map[] {
      var key :| key in m;
      var i := Find(m, ps, key);
    }
  }

  /** Dropping one entry lists the map without its key. */
  lemma WithoutLists(m: Counts, ps: seq<Point>, i: nat)
    requires Lists(m, ps) && i < |ps|
    ensures Lists(m - {ps[i].key}, ps[..i] + ps[i + 1..])
  {
    var rest, less := ps[..i] + ps[i + 1..], m - {ps[i].key};
    forall k | 0 <= k < |rest| ensures rest[k] == ps[if k < i then k else k + 1] {}
    forall k | 0 <= k < |rest| ensures rest[k].key in less && rest[k].clicks == less[rest[k].key] {
      var j := if k < i then k else k + 1;
      assert rest[k] == ps[j] && ps[j].key != ps[i].key;
    }
    forall key | key in less ensures exists k :: 0 <= k < |rest| && rest[k].key == key {
      var k := Find(m, ps, key);
      assert k != i && rest[if k < i then k else k - 1].key == key;
    }
  }

  lemma TailLists(m: Counts, ps: seq<Point>)
    requires Lists(m, ps) && ps != []
    ensures Lists(m - {ps[0].key}, ps[1..])
  {
    hide Lists;
    WithoutLists(m, ps, 0);
    assert ps[..0] + ps[1..] == ps[1..];
  }

  /** A map has only one ranked listing, so the order in which it was ranged over does not matter. */
  lemma {:induction false} RankedUnique(m: Counts, s: seq<Point>, t: seq<Point>)
    requires Ranked(s) && Lists(m, s) && Ranked(t) && Lists(m, t)
    ensures s == t
    decreases |s|
  {
    hide Lists;
    EmptyListing(m, s);
    EmptyListing(m, t);
    if s != [] {
      FirstIsFirst(m, s, t);
      TailLists(m, s);
      TailLists(m, t);
      assert Ranked(s[1..]) && Ranked(t[1..]);
      hide Ranked;
      RankedUnique(m - {s[0].key}, s[1..], t[1..]);
      assert s == [s[0]] + s[1..] && t == [t[0]] + t[1..];
    }
  }

  lemma FirstIsFirst(m: Counts, s: seq<Point>, t: seq<Point>)
    requires s != [] && t != [] && Ranked(s) && Lists(m, s) && Ranked(t) && Lists(m, t)
    ensures t[0] == s[0]
  {
    Entry(m, s, 0);
    Entry(m, t, 0);
    hide Lists;
    var j := Find(m, t, s[0].key);
    var i := Find(m, s, t[0].key);
    if j > 0 {
      assert Ranks(t[0], t[j]);
      assert i > 0 ==> Ranks(s[0], s[i]);
      RanksTotal(s[0], t[0]);
    }
  }

  /** Every listing of a map has the same length and the same total. */
  lemma {:induction false} ListingsAgree(m: Counts, ps: seq<Point>, qs: seq<Point>)
    requires Lists(m, ps) && Lists(m, qs)
    ensures Total(ps) == Total(qs) && |ps| == |qs|
    decreases |ps|
  {
    hide Lists;
    EmptyListing(m, ps);
    EmptyListing(m, qs);
    if ps != [] {
      var i := |ps| - 1;
      Entry(m, ps, i);
      var j := Find(m, qs, ps[i].key);
      WithoutLists(m, ps, i);
      WithoutLists(m, qs, j);
      assert ps[..i] + ps[i + 1..] == ps[..i];
      ListingsAgree(m - {ps[i].key}, ps[..i], qs[..j] + qs[j + 1..]);
      TotalWithout(qs, j);
    }
  }

  /** Keeps the first limit - 1 points and folds the rest into one. */
  function Fold(ps: seq<Point>, limit: nat): seq<Point>
    requires limit >= 1
  {
    if |ps| <= limit then ps else ps[..limit - 1] + [Point("Other", Total(ps[limit - 1..]))]
  }

  ghost predicate IsBreakdown(m: Counts, limit: nat, r: seq<Point>)
    requires limit >= 1
  {
    exists s :: Ranked(s) && Lists(m, s) && r == Fold(s, limit)
  }

  /** A breakdown is determined by its counts, has at most `limit` points, keeps the total, and shows the keys
      that rank highest. */
  lemma BreakdownMeaning(m: Counts, limit: nat, r: seq<Point>, ps: seq<Point>)
    requires limit >= 1 && IsBreakdown(m, limit, r) && Lists(m, ps)
    ensures |r| <= limit && Total(r) == Total(ps)
    ensures |ps| <= limit ==> Ranked(r) && Lists(m, r)
    ensures |ps| > limit ==>
      && |r| == limit && r[limit - 1].key == "Other" && Ranked(r[..limit - 1])
      && forall p, q :: p in r[..limit - 1] && q in ps && q !in r[..limit - 1] ==> Ranks(p, q) && p.clicks >= q.clicks
  {
    var s :| Ranked(s) && Lists(m, s) && r == Fold(s, limit);
    hide Lists, Ranks;
    ListingsAgree(m, ps, s);
    if |s| > limit {
      RestRanksLowest(m, s, ps, limit - 1);
      FoldKeeps(s, limit);
      assert Ranked(s[..limit - 1]);
      hide Fold, Ranked, Total;
    }
  }

  lemma FoldKeeps(s: seq<Point>, limit: nat)
    requires 1 <= limit < |s|
    ensures var r := Fold(s, limit);
            && |r| == limit && Total(r) == Total(s)
            && r[..limit - 1] == s[..limit - 1] && r[limit - 1].key == "Other"
  {
    var r := Fold(s, limit);
    assert s == s[..limit - 1] + s[limit - 1..] && r[..|r| - 1] == s[..limit - 1];
    TotalConcat(s[..limit - 1], s[limit - 1..]);
  }

  lemma RestRanksLowest(m: Counts, s: seq<Point>, ps: seq<Point>, n: nat)
    requires Ranked(s) && Lists(m, s) && Lists(m, ps) && n <= |s|
    ensures forall p, q :: p in s[..n] && q in ps && q !in s[..n] ==> Ranks(p, q) && p.clicks >= q.clicks
  {
    hide Ranked, Lists, Ranks;
    forall p, q | p in s[..n] && q in ps && q !in s[..n] ensures Ranks(p, q) && p.clicks >= q.clicks {
      RestRanksLower(m, s, ps, n, p, q);
    }
  }

  lemma RestRanksLower(m: Counts, s: seq<Point>, ps: seq<Point>, n: nat, p: Point, q: Point)
    requires Ranked(s) && Lists(m, s) && Lists(m, ps) && n <= |s|
    requires p in s[..n] && q in ps && q !in s[..n]
    ensures Ranks(p, q) && p.clicks >= q.clicks
  {
    var i :| 0 <= i < n && s[i] == p;
    var k := Find(m, s, q.key);
    assert forall x: nat :: x < n ==> s[..n][x] == s[x];
  }

  /** Ranging over the map, in whatever order. */
  method Collect(m: Counts) returns (ps: seq<Point>)
    ensures Lists(m, ps)
  {
    ps := [];
    var todo := m.Keys;
    while todo != {}
      invariant todo <= m.Keys && Lists(m - todo, ps)
      decreases |todo|
    {
      var key :| key in todo;
      ghost var was, done := ps, m - todo;
      todo := todo - {key};
      ps := ps + [Point(key, m[key])];
      forall k | k in m - todo ensures exists i :: 0 <= i < |ps| && ps[i].key == k {
        if k == key {
          assert ps[|was|].key == k;
        } else {
          var i := Find(done, was, k);
          assert ps[i].key == k;
        }
      }
    }
    assert m - todo == m;
  }

  /** The sort: inserting the points one by one at their rank. */
  method Sort(m: Counts, points: seq<Point>) returns (s: seq<Point>)
    requires Lists(m, points)
    ensures Ranked(s) && Lists(m, s)
  {
    s := [];
    for n := 0 to |points|
      invariant Ranked(s) && forall p :: p in s <==> p in points[..n]
    {
      assert forall p :: p in points[..n + 1] <==> p in points[..n] || p == points[n];
      assert forall i :: 0 <= i < n ==> points[..n][i] == points[i];
      s := Insert(s, points[n]);
    }
    assert points[..|points|] == points;
    MembersList(m, points, s);
  }

  method Insert(s: seq<Point>, p: Point) returns (r: seq<Point>)
    requires Ranked(s) && forall q :: q in s ==> q.key != p.key
    ensures Ranked(r) && forall q :: q in r <==> q in s || q == p
  {
    var i := 0;
    while i < |s| && Ranks(s[i], p)
      invariant 0 <= i <= |s| && forall k :: 0 <= k < i ==> Ranks(s[k], p)
    {
      i := i + 1;
    }
    forall k | i <= k < |s| ensures Ranks(p, s[k]) {
      assert s[i] in s;
      RanksTotal(s[i], p);
      if k > i {
        RanksTransitive(p, s[i], s[k]);
      }
    }
    r := s[..i] + [p] + s[i..];
    Inserted(s, p, i);
  }

  lemma Inserted(s: seq<Point>, p: Point, i: nat)
    requires Ranked(s) && i <= |s|
    requires (forall k :: 0 <= k < i ==> Ranks(s[k], p)) && (forall k :: i <= k < |s| ==> Ranks(p, s[k]))
    ensures var r := s[..i] + [p] + s[i..];
            Ranked(r) && forall q :: q in r <==> q in s || q == p
  {
    hide Ranks;
    var r := s[..i] + [p] + s[i..];
    assert s == s[..i] + s[i..];
    forall k | 0 <= k < |r| ensures r[k] == if k < i then s[k] else if k == i then p else s[k - 1] {}
  }

  lemma MembersList(m: Counts, points: seq<Point>, s: seq<Point>)
    requires Lists(m, points) && Ranked(s) && forall p :: p in s <==> p in points
    ensures Lists(m, s)
  {
    forall i, j | 0 <= i < j < |s| ensures s[i].key != s[j].key {
      assert Ranks(s[i], s[j]) && s[i] in s && s[j] in s;
      BeforeTotal(s[i].key, s[j].key);
    }
    forall i | 0 <= i < |s| ensures s[i].key in m && s[i].clicks == m[s[i].key] {
      assert s[i] in s;
    }
    forall key | key in m ensures exists i :: 0 <= i < |s| && s[i].key == key {
      var k :| 0 <= k < |points| && points[k].key == key;
      assert points[k] in s;
    }
  }

  method SortedPoints(m: Counts, limit: nat) returns (r: seq<Point>)
    requires limit >= 1
    ensures IsBreakdown(m, limit, r)
  {
    hide Lists, Ranked, Fold;
    var points := Collect(m);
    var s := Sort(m, points);
    r := FoldTail(s, limit);
  }

  method FoldTail(s: seq<Point>, limit: nat) returns (r: seq<Point>)
    requires limit >= 1
    ensures r == Fold(s, limit)
  {
    r := s;
    if |s| > limit {
      var other := 0;
      ghost var rest := s[limit - 1..];
      for i := limit - 1 to |s|
        invariant other == Total(rest[..i - (limit - 1)])
      {
        assert rest[..i - (limit - 1) + 1][..i - (limit - 1)] == rest[..i - (limit - 1)];
        other := other + s[i].clicks;
      }
      assert rest[..|rest|] == rest;
      r := s[..limit - 1] + [Point("Other", other)];
    }
  }

  // ---- totals while counting ----

  ghost predicate SumsTo(m: Counts, n: nat) {
    exists ps :: Lists(m, ps) && Total(ps) == n
  }

  lemma EmptySums()
    ensures SumsTo(map[], 0)
  {
    assert Lists(map[], []);
  }

  lemma BumpSums(m: Counts, key: string, n: nat)
    requires SumsTo(m, n)
    ensures SumsTo(Bump(m, key), n + 1)
  {
    var ps: seq<Point> :| Lists(m, ps) && Total(ps) == n;
    hide Lists, Bump, Total;
    var qs: seq<Point>;
    if key in m {
      var i := Find(m, ps, key);
      qs := ps[i := Point(ps[i].key, ps[i].clicks + 1)];
      BumpOldLists(m, ps, i);
      OneMoreClick(ps, i);
    } else {
      qs := ps + [Point(key, 1)];
      BumpNewLists(m, ps, key);
      NewPoint(ps, key);
    }
    assert Lists(Bump(m, key), qs) && Total(qs) == n + 1;
  }

  lemma NewPoint(ps: seq<Point>, key: string)
    ensures Total(ps + [Point(key, 1)]) == Total(ps) + 1
  {
    assert (ps + [Point(key, 1)])[..|ps|] == ps;
  }

  lemma OneMoreClick(ps: seq<Point>, i: nat)
    requires i < |ps|
    ensures Total(ps[i := Point(ps[i].key, ps[i].clicks + 1)]) == Total(ps) + 1
  {
    var qs := ps[i := Point(ps[i].key, ps[i].clicks + 1)];
    assert qs[..i] == ps[..i] && qs[i + 1..] == ps[i + 1..];
    TotalWithout(ps, i);
    TotalWithout(qs, i);
  }

  lemma BumpOldLists(m: Counts, ps: seq<Point>, i: nat)
    requires Lists(m, ps) && i < |ps|
    ensures Lists(Bump(m, ps[i].key), ps[i := Point(ps[i].key, ps[i].clicks + 1)])
  {
    var key := ps[i].key;
    var qs := ps[i := Point(key, ps[i].clicks + 1)];
    forall k | k in Bump(m, key) ensures exists j :: 0 <= j < |qs| && qs[j].key == k {
      var j := Find(m, ps, k);
      assert qs[j].key == k;
    }
  }

  lemma BumpNewLists(m: Counts, ps: seq<Point>, key: string)
    requires Lists(m, ps) && key !in m
    ensures Lists(Bump(m, key), ps + [Point(key, 1)])
  {
    var qs := ps + [Point(key, 1)];
    assert qs[|ps|].key == key;
    forall k | k in Bump(m, key) ensures exists j :: 0 <= j < |qs| && qs[j].key == k {
      if k != key {
        var j := Find(m, ps, k);
        assert qs[j].key == k;
      }
    }
  }

  lemma BreakdownTotal(m: Counts, limit: nat, r: seq<Point>, n: nat)
    requires limit >= 1 && IsBreakdown(m, limit, r) && SumsTo(m, n)
    ensures |r| <= limit && Total(r) == n
  {
    var ps :| Lists(m, ps) && Total(ps) == n;
    BreakdownMeaning(m, limit, r, ps);
  }
}
