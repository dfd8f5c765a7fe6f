// The store's links: creation, import, single and bulk updates and deletes, and reading by ids. Every write is
// one transaction, and every statement may fail.

module LinkStore {
  import opened Wrappers
  import opened Models
  import opened Text
  import opened Users
  import opened Links

  /** A stored link as reading it back yields it; `live` until it is deleted. */
  datatype Row = Row(link: Link, live: bool)

  datatype Update = Update(id: int, link: Link, hash: string, changed: bool)

  const CHUNK: nat := 500

  // ---- what is stored ----

  function StoredGeo(gs: seq<GeoTarget>): seq<GeoTarget> {
    seq(|gs|, i requires 0 <= i < |gs| => GeoTarget(CountryOf(gs[i]), TrimSpace(gs[i].url)))
  }

  /** An UPDATE sets these columns and leaves the others; the password only when it changed. */
  function Overwritten(was: Link, given: Link, hash: string, changed: bool): Link {
    was.(targetURL := given.targetURL, title := given.title, visibility := given.visibility,
          redirectCode := given.redirectCode, expiresAt := given.expiresAt, maxClicks := given.maxClicks,
          expiredURL := given.expiredURL, iosURL := given.iosURL, androidURL := given.androidURL,
          forwardQuery := given.forwardQuery, utm := given.utm, tags := given.tags,
          geoTargets := StoredGeo(given.geoTargets),
          passwordHash := if changed then hash else was.passwordHash,
          passwordProtected := if changed then hash != "" else was.passwordProtected)
  }

  /** An INSERT takes the owner from the user and starts at zero clicks. */
  function Inserted(id: int, u: User, l: Link, hash: string): Link {
    l.(id := id, userID := u.id, tenantID := u.tenantID, clicks := 0, geoTargets := StoredGeo(l.geoTargets),
       passwordHash := hash, passwordProtected := hash != "")
  }

  /** Creation fills in a default code and visibility, and a slug if there is none. */
  function Filled(given: Link, slug: string): Link {
    given.(slug := slug,
           redirectCode := if given.redirectCode == 0 then 302 else given.redirectCode,
           visibility := if given.visibility == "" then "private" else given.visibility)
  }

  predicate WithDefaults(l: Link, given: Link) {
    l == Filled(given, l.slug) && (given.slug != "" ==> l.slug == given.slug)
  }

  /** What an update writes: the default code filled in, protection as the new password says. */
  function ToWrite(given: Link, hash: string, changed: bool): Link {
    given.(redirectCode := if given.redirectCode == 0 then 302 else given.redirectCode,
           passwordProtected := if changed then hash != "" else given.passwordProtected)
  }

  /** Stored rows: protection is a stored hash, and no permanent redirect has a dynamic feature. */
  predicate RowOK(l: Link) {
    (l.passwordProtected <==> l.passwordHash != "") && !(Dynamic(l) && IsPermanent(l.redirectCode))
  }

  predicate RowsOK(rows: map<int, Row>) {
    forall id :: id in rows ==> rows[id].link.id == id && RowOK(rows[id].link)
  }

  predicate SlugsUnique(rows: map<int, Row>) {
    forall a, b :: a in rows && b in rows && rows[a].link.slug == rows[b].link.slug ==> a == b
  }

  /** The update was made from the row as it is: without a new password it keeps the row's protection. */
  predicate FromCurrent(rows: map<int, Row>, up: Update) {
    up.id in rows &&
    up.link.passwordProtected == if up.changed then up.hash != "" else rows[up.id].link.passwordProtected
  }

  predicate KeepsProtection(current: Link, given: Link, changed: bool) {
    changed || given.passwordProtected == current.passwordProtected
  }

  lemma OverwriteOK(rows: map<int, Row>, up: Update, rules: Rules)
    requires RowsOK(rows) && FromCurrent(rows, up) && WellFormed(up.link, rules)
    ensures RowOK(Overwritten(rows[up.id].link, up.link, up.hash, up.changed))
  {
    var r := Overwritten(rows[up.id].link, up.link, up.hash, up.changed);
    assert RowOK(rows[up.id].link);
    assert Dynamic(r) ==> Dynamic(up.link);
  }

  lemma InsertOK(id: int, u: User, l: Link, hash: string, rules: Rules)
    requires WellFormed(l, rules) && (hash != "" ==> l.passwordProtected)
    ensures RowOK(Inserted(id, u, l, hash))
  {
    assert Dynamic(Inserted(id, u, l, hash)) ==> Dynamic(l);
  }

  // ---- selecting by ids ----

  function IDs(ups: seq<Update>): (ids: seq<int>)
    ensures |ids| == |ups| && forall i :: 0 <= i < |ups| ==> ids[i] == ups[i].id
  {
    seq(|ups|, i requires 0 <= i < |ups| => ups[i].id)
  }

  predicate Distinct(ids: seq<int>) {
    forall i, j :: 0 <= i < j < |ids| ==> ids[i] != ids[j]
  }

  predicate CanManage(rows: map<int, Row>, u: User, id: int) {
    id in rows && rows[id].live && Manageable(u, rows[id].link)
  }

  /** The rows a bulk statement's WHERE clause selects. */
  function Selected(rows: map<int, Row>, u: User, ids: seq<int>): set<int> {
    set id | id in rows && id in ids && CanManage(rows, u, id)
  }

  predicate AllManageable(rows: map<int, Row>, u: User, ids: seq<int>) {
    forall i :: 0 <= i < |ids| ==> CanManage(rows, u, ids[i])
  }

  function ToSet(ids: seq<int>): set<int> {
    set i | 0 <= i < |ids| :: ids[i]
  }

  lemma {:induction false} SetSize(ids: seq<int>)
    ensures |ToSet(ids)| <= |ids|
    ensures |ToSet(ids)| == |ids| <==> Distinct(ids)
  {
    if ids == [] {
      assert ToSet(ids) == {};
    } else {
      var front, last := ids[..|ids| - 1], ids[|ids| - 1];
      SetSize(front);
      assert forall i :: 0 <= i < |front| ==> front[i] == ids[i];
      assert ToSet(ids) == ToSet(front) + {last};
      assert last in ToSet(front) ==> exists i :: 0 <= i < |front| && ids[i] == ids[|front|];
    }
  }

  lemma SubsetSize<T>(a: set<T>, b: set<T>)
    requires a <= b
    ensures |a| <= |b| && (|a| == |b| ==> a == b)
  {
    assert b == a + (b - a);
  }

  /** The statement selects as many rows as ids were given exactly when the ids are distinct and each names a
      live row the user manages. */
  lemma SelectsAll(rows: map<int, Row>, u: User, ids: seq<int>)
    ensures |Selected(rows, u, ids)| == |ids| <==> Distinct(ids) && AllManageable(rows, u, ids)
  {
    var hit := Selected(rows, u, ids);
    SetSize(ids);
    SubsetSize(hit, ToSet(ids));
    if AllManageable(rows, u, ids) {
      assert hit == ToSet(ids);
    } else {
      var i :| 0 <= i < |ids| && !CanManage(rows, u, ids[i]);
      assert ids[i] in ToSet(ids) && ids[i] !in hit;
    }
  }

  // ---- the effect of the bulk writes ----

  function Written(row: Row, up: Update): Row {
    row.(link := Overwritten(row.link, up.link, up.hash, up.changed))
  }

  /** Each named row is overwritten by its update, all others are as before. */
  predicate Updated(before: map<int, Row>, after: map<int, Row>, ups: seq<Update>) {
    && after.Keys == before.Keys
    && (forall i :: 0 <= i < |ups| ==> ups[i].id in before && after[ups[i].id] == Written(before[ups[i].id], ups[i]))
    && (forall id :: id in before && id !in IDs(ups) ==> after[id] == before[id])
  }

  function Deleted(rows: map<int, Row>, gone: set<int>): map<int, Row> {
    map id | id in rows :: if id in gone then rows[id].(live := false) else rows[id]
  }

  lemma UpdatedKeepsOK(before: map<int, Row>, after: map<int, Row>, ups: seq<Update>, rules: Rules)
    requires RowsOK(before) && Updated(before, after, ups)
    requires forall i :: 0 <= i < |ups| ==> FromCurrent(before, ups[i]) && WellFormed(ups[i].link, rules)
    ensures RowsOK(after) && (SlugsUnique(before) ==> SlugsUnique(after))
  {
    hide Overwritten, RowOK, WellFormed;
    forall id | id in after
      ensures after[id].link.id == id && RowOK(after[id].link) && after[id].link.slug == before[id].link.slug
    {
      if id in IDs(ups) {
        var i :| 0 <= i < |ups| && IDs(ups)[i] == id;
        OverwriteOK(before, ups[i], rules);
        OverwriteKeepsIdentity(before[id].link, ups[i]);
      }
    }
  }

  lemma OverwriteKeepsIdentity(l: Link, up: Update)
    ensures var r := Overwritten(l, up.link, up.hash, up.changed);
      r.id == l.id && r.slug == l.slug && r.userID == l.userID && r.tenantID == l.tenantID && r.clicks == l.clicks
  {
  }

  // ---- reading by ids ----

  predicate CanView(rows: map<int, Row>, u: User, id: int) {
    id in rows && rows[id].live && Visible(u, rows[id].link)
  }

  predicate AllVisible(rows: map<int, Row>, u: User, ids: seq<int>) {
    forall i :: 0 <= i < |ids| ==> CanView(rows, u, ids[i])
  }

  function VisibleAmong(rows: map<int, Row>, u: User, ids: seq<int>): set<int> {
    set id | id in rows && id in ids && CanView(rows, u, id)
  }

  predicate LastOf(ids: seq<int>, i: nat)
    requires i < |ids|
  {
    forall j :: i < j < |ids| ==> ids[j] != ids[i]
  }

  function Least(a: nat, b: nat): nat {
    if a < b then a else b
  }

  /** The ids of the k-th chunk. */
  function Chunk(ids: seq<int>, k: nat): seq<int> {
    ids[Least(k * CHUNK, |ids|)..Least((k + 1) * CHUNK, |ids|)]
  }

  function ChunkCount(ids: seq<int>): nat {
    (|ids| + CHUNK - 1) / CHUNK
  }

  /** How many of the first k chunks name an id. */
  function Naming(ids: seq<int>, id: int, k: nat): nat {
    if k == 0 then 0 else Naming(ids, id, k - 1) + if id in Chunk(ids, k - 1) then 1 else 0
  }

  function Times(gs: seq<GeoTarget>, n: nat): seq<GeoTarget> {
    if n == 0 then [] else Times(gs, n - 1) + gs
  }

  function WithGeo(l: Link, gs: seq<GeoTarget>): Link {
    l.(geoTargets := gs)
  }

  function HydratedAt(rows: map<int, Row>, ids: seq<int>, i: nat, k: nat): Link
    requires i < |ids| && ids[i] in rows
  {
    var l := rows[ids[i]].link;
    WithGeo(l, if LastOf(ids, i) then Times(l.geoTargets, Naming(ids, ids[i], k)) else [])
  }

  /** The links after k chunks of country targets were read: each chunk that names an id appends its targets at
      the last position of the id. */
  function Hydrated(rows: map<int, Row>, ids: seq<int>, k: nat): seq<Link>
    requires forall i :: 0 <= i < |ids| ==> ids[i] in rows
  {
    seq(|ids|, i requires 0 <= i < |ids| => HydratedAt(rows, ids, i, k))
  }

  /** One link per id, in the order asked for. */
  function ReadBack(rows: map<int, Row>, ids: seq<int>): seq<Link>
    requires forall i :: 0 <= i < |ids| ==> ids[i] in rows
  {
    Hydrated(rows, ids, ChunkCount(ids))
  }

  lemma NothingRead(rows: map<int, Row>, ids: seq<int>)
    requires ids == []
    ensures ReadBack(rows, ids) == []
  {
  }

  predicate OnlyAt(ids: seq<int>, i: nat)
    requires i < |ids|
  {
    forall j :: 0 <= j < |ids| && ids[j] == ids[i] ==> j == i
  }

  /** An id that occurs once is named by one chunk. */
  lemma {:induction false} OneChunk(ids: seq<int>, i: nat, k: nat)
    requires i < |ids| && OnlyAt(ids, i)
    ensures Naming(ids, ids[i], k) == if i < k * CHUNK then 1 else 0
  {
    if k > 0 {
      OneChunk(ids, i, k - 1);
      var lo, hi := Least((k - 1) * CHUNK, |ids|), Least(k * CHUNK, |ids|);
      InSlice(ids, i, lo, hi);
    }
  }

  lemma InSlice(ids: seq<int>, i: nat, lo: nat, hi: nat)
    requires i < |ids| && OnlyAt(ids, i) && lo <= hi <= |ids|
    ensures ids[i] in ids[lo..hi] <==> lo <= i < hi
  {
    if lo <= i < hi {
      assert ids[lo..hi][i - lo] == ids[i];
    }
  }

  lemma {:induction false} NoTargetsStay(n: nat)
    ensures Times([], n) == []
  {
    if n > 0 {
      NoTargetsStay(n - 1);
    }
  }

  /** An id that occurs once is read back as it is stored. */
  lemma ReadsOne(rows: map<int, Row>, ids: seq<int>, i: nat)
    requires (forall j :: 0 <= j < |ids| ==> ids[j] in rows) && i < |ids| && OnlyAt(ids, i)
    ensures ReadBack(rows, ids)[i] == rows[ids[i]].link
  {
    OneChunk(ids, i, ChunkCount(ids));
    assert i < ChunkCount(ids) * CHUNK;
    assert LastOf(ids, i);
    var gs := rows[ids[i]].link.geoTargets;
    hide Naming, ChunkCount, Chunk;
    assert Times(gs, 1) == Times(gs, 0) + gs == gs;
  }

  /** A link without country targets is read back as it is stored, however often it is asked for. */
  lemma ReadsPlain(rows: map<int, Row>, ids: seq<int>, i: nat)
    requires (forall j :: 0 <= j < |ids| ==> ids[j] in rows) && i < |ids| && rows[ids[i]].link.geoTargets == []
    ensures ReadBack(rows, ids)[i] == rows[ids[i]].link
  {
    NoTargetsStay(Naming(ids, ids[i], ChunkCount(ids)));
    hide Naming, ChunkCount, LastOf, Times;
  }

  /** What is read is what is stored, exactly when no repeated id has country targets: always for the distinct
      ids that requests pass. */
  lemma ReadsStored(rows: map<int, Row>, ids: seq<int>)
    requires forall i :: 0 <= i < |ids| ==> ids[i] in rows
    ensures (forall i :: 0 <= i < |ids| ==> ReadBack(rows, ids)[i] == rows[ids[i]].link)
       <==> (forall i :: 0 <= i < |ids| && !LastOf(ids, i) ==> rows[ids[i]].link.geoTargets == [])
    ensures Distinct(ids) ==> forall i :: 0 <= i < |ids| ==> ReadBack(rows, ids)[i] == rows[ids[i]].link
  {
    var links := ReadBack(rows, ids);
    forall i | 0 <= i < |ids|
      ensures OnlyAt(ids, i) || rows[ids[i]].link.geoTargets == [] ==> links[i] == rows[ids[i]].link
      ensures !LastOf(ids, i) && links[i] == rows[ids[i]].link ==> rows[ids[i]].link.geoTargets == []
    {
      if OnlyAt(ids, i) {
        ReadsOne(rows, ids, i);
      } else if rows[ids[i]].link.geoTargets == [] {
        ReadsPlain(rows, ids, i);
      }
    }
    hide ReadBack, Hydrated;
    forall i | 0 <= i < |ids| && !OnlyAt(ids, i)
      ensures exists j :: 0 <= j < |ids| && ids[j] == ids[i] && !LastOf(ids, j)
    {
      var j :| 0 <= j < |ids| && ids[j] == ids[i] && j != i;
      assert !LastOf(ids, if i < j then i else j);
    }
    if Distinct(ids) {
      forall i | 0 <= i < |ids| ensures OnlyAt(ids, i) {}
    }
  }

  /** The last position of every id. */
  predicate LastPositions(ids: seq<int>, positions: map<int, nat>) {
    && (forall k :: 0 <= k < |ids| ==> ids[k] in positions)
    && (forall id :: id in positions ==>
          positions[id] < |ids| && ids[positions[id]] == id && LastOf(ids, positions[id]))
  }

  method Positions(ids: seq<int>) returns (positions: map<int, nat>)
    ensures LastPositions(ids, positions)
  {
    positions := map[];
    for i := 0 to |ids|
      invariant forall k :: 0 <= k < i ==> ids[k] in positions && k <= positions[ids[k]]
      invariant forall id :: id in positions ==> positions[id] < i && ids[positions[id]] == id
    {
      positions := positions[ids[i] := i];
    }
  }

  lemma LastPosition(ids: seq<int>, k: nat, last: nat)
    requires k < |ids| && last < |ids| && ids[last] == ids[k] && LastOf(ids, last)
    ensures LastOf(ids, k) <==> last == k
  {
  }

  /** Fills in the country targets, one statement a chunk. */
  method Hydrate(rows: map<int, Row>, ids: seq<int>, scanned: seq<Link>) returns (links: seq<Link>)
    requires |scanned| == |ids|
    requires forall i :: 0 <= i < |ids| ==> ids[i] in rows && scanned[i] == WithGeo(rows[ids[i]].link, [])
    ensures links == ReadBack(rows, ids)
  {
    var positions := Positions(ids);
    links := scanned;
    HydratedIs(rows, ids, 0, links);
    var start := 0;
    ghost var k := 0;
    hide Hydrated, LastPositions, Chunk, WithGeo;
    while start < |ids|
      invariant start == k * CHUNK && k <= ChunkCount(ids) && links == Hydrated(rows, ids, k)
    {
      links := HydrateChunk(rows, ids, positions, links, start, k);
      start, k := start + CHUNK, k + 1;
    }
  }

  method HydrateChunk(
      rows: map<int, Row>, ids: seq<int>, positions: map<int, nat>, before: seq<Link>, start: nat, ghost k: nat)
    returns (links: seq<Link>)
    requires forall i :: 0 <= i < |ids| ==> ids[i] in rows
    requires LastPositions(ids, positions) && before == Hydrated(rows, ids, k) && start == k * CHUNK < |ids|
    ensures links == Hydrated(rows, ids, k + 1)
  {
    hide HydratedAt, LastOf, Grown, Chunk;
    var end := if start + CHUNK > |ids| then |ids| else start + CHUNK;
    NextChunk(ids, k);
    links := AppendTargets(rows, ids, positions, before, ids[start..end]);
    ChunkDone(rows, ids, positions, links, k);
  }

  lemma NextChunk(ids: seq<int>, k: nat)
    requires k * CHUNK < |ids|
    ensures Chunk(ids, k) == ids[k * CHUNK..if k * CHUNK + CHUNK > |ids| then |ids| else k * CHUNK + CHUNK]
    ensures forall id :: id in Chunk(ids, k) ==> exists i :: 0 <= i < |ids| && ids[i] == id
  {
    forall id | id in Chunk(ids, k) ensures exists i :: 0 <= i < |ids| && ids[i] == id {
      ChunkNames(ids, k, id);
    }
  }

  /** What one more link looks like when its targets are appended. */
  function Grown(before: Link, stored: Link): Link {
    WithGeo(before, before.geoTargets + stored.geoTargets)
  }

  /** One statement: each id it names yields its targets once, however often the chunk names it. */
  method AppendTargets(
      rows: map<int, Row>, ids: seq<int>, positions: map<int, nat>, before: seq<Link>, chunk: seq<int>)
    returns (links: seq<Link>)
    requires |before| == |ids| && forall i :: 0 <= i < |ids| ==> ids[i] in rows
    requires LastPositions(ids, positions) && forall id :: id in chunk ==> id in positions
    ensures |links| == |ids|
    ensures forall i :: 0 <= i < |ids| ==>
      links[i] == if positions[ids[i]] == i && ids[i] in chunk then Grown(before[i], rows[ids[i]].link) else before[i]
  {
    hide WithGeo, Grown, LastOf;
    links := before;
    var named := set i | 0 <= i < |chunk| :: chunk[i];
    var todo := named;
    while todo != {}
      invariant todo <= named && |links| == |ids|
      invariant forall i :: 0 <= i < |ids| ==>
        links[i] == if positions[ids[i]] == i && ids[i] in named - todo
                    then Grown(before[i], rows[ids[i]].link) else before[i]
      decreases |todo|
    {
      ghost var some := Member(todo);
      var id :| id in todo;
      assert id in chunk;
      todo := todo - {id};
      var i := positions[id];
      GrownIs(links[i], rows[id].link);
      links := links[i := WithGeo(links[i], links[i].geoTargets + rows[id].link.geoTargets)];
    }
  }

  lemma ChunkDone(
      rows: map<int, Row>, ids: seq<int>, positions: map<int, nat>, links: seq<Link>, k: nat)
    requires |links| == |ids| && (forall i :: 0 <= i < |ids| ==> ids[i] in rows) && LastPositions(ids, positions)
    requires forall i :: 0 <= i < |ids| ==>
      var before := Hydrated(rows, ids, k)[i];
      links[i] == if positions[ids[i]] == i && ids[i] in Chunk(ids, k) then Grown(before, rows[ids[i]].link) else before
    ensures links == Hydrated(rows, ids, k + 1)
  {
    hide LastOf, Chunk, Grown, WithGeo, HydratedAt;
    forall i | 0 <= i < |ids| ensures links[i] == HydratedAt(rows, ids, i, k + 1) {
      var id := ids[i];
      assert id in positions;
      LastPosition(ids, i, positions[id]);
      ChunkGrows(rows, ids, i, k);
    }
    HydratedIs(rows, ids, k + 1, links);
  }

  lemma GrownIs(before: Link, stored: Link)
    ensures Grown(before, stored) == WithGeo(before, before.geoTargets + stored.geoTargets)
  {
  }

  lemma ChunkGrows(rows: map<int, Row>, ids: seq<int>, i: nat, k: nat)
    requires (forall j :: 0 <= j < |ids| ==> ids[j] in rows) && i < |ids|
    ensures Hydrated(rows, ids, k)[i] == HydratedAt(rows, ids, i, k)
    ensures HydratedAt(rows, ids, i, k + 1) ==
      if LastOf(ids, i) && ids[i] in Chunk(ids, k) then Grown(HydratedAt(rows, ids, i, k), rows[ids[i]].link)
      else HydratedAt(rows, ids, i, k)
  {
    hide LastOf, Chunk;
  }

  lemma HydratedIs(rows: map<int, Row>, ids: seq<int>, k: nat, links: seq<Link>)
    requires (forall j :: 0 <= j < |ids| ==> ids[j] in rows) && |links| == |ids|
    requires forall i :: 0 <= i < |ids| ==> links[i] == HydratedAt(rows, ids, i, k)
    ensures links == Hydrated(rows, ids, k)
  {
    hide HydratedAt;
  }

  lemma ChunkNames(ids: seq<int>, k: nat, id: int)
    requires id in Chunk(ids, k)
    ensures exists i :: 0 <= i < |ids| && ids[i] == id
  {
    var lo := Least(k * CHUNK, |ids|);
    var j :| 0 <= j < |Chunk(ids, k)| && Chunk(ids, k)[j] == id;
    assert ids[lo + j] == id;
  }

  // ---- the store ----

  /** A valid free slug and a well-formed link. */
  predicate Creatable(rows: map<int, Row>, l: Link, rules: Rules) {
    rules.slugOK(l.slug) && !SlugTaken(rows, l.slug) && WellFormed(l, rules)
  }

  predicate SlugTaken(rows: map<int, Row>, slug: string) {
    exists id :: id in rows && rows[id].link.slug == slug
  }

  lemma NewRow(rows: map<int, Row>, id: int, row: Row)
    requires SlugsUnique(rows) && id !in rows && row.link.id == id && !SlugTaken(rows, row.link.slug)
    ensures SlugsUnique(rows[id := row])
    ensures RowsOK(rows) && RowOK(row.link) ==> RowsOK(rows[id := row])
  {
    hide RowOK;
    forall a | a in rows ensures rows[a].link.slug != row.link.slug {
      assert rows[a].link.slug == row.link.slug ==> SlugTaken(rows, row.link.slug);
    }
  }

  class LinkStore {
    const rules: Rules
    const conn: Connection
    var rows: map<int, Row>
    var nextID: int

    constructor (rules: Rules, conn: Connection)
      ensures this.rules == rules && this.conn == conn && rows == map[] && Valid()
    {
      this.rules, this.conn, rows, nextID := rules, conn, map[], 1;
    }

    /** Ids are generated above all stored ones, and slugs are unique, deleted links included. */
    predicate Valid()
      reads this
    {
      SlugsUnique(rows) && nextID >= 1 && forall id :: id in rows ==> 1 <= id < nextID && rows[id].link.id == id
    }

    /** LinkBySlug */
    method LinkBySlug(slug: string) returns (link: Option<Link>)
      modifies conn
      ensures old(conn.faults) <= conn.faults
      ensures link.Some? ==> link.value.slug == slug
      ensures link.Some? ==> exists id :: id in rows && rows[id].live && rows[id].link == link.value
      ensures conn.faults == old(conn.faults) && link == None ==>
        forall id :: id in rows && rows[id].live ==> rows[id].link.slug != slug
    {
      var answered := conn.Statement();
      link := None;
      if answered && exists id :: id in rows && rows[id].live && rows[id].link.slug == slug {
        var id :| id in rows && rows[id].live && rows[id].link.slug == slug;
        link := Some(rows[id].link);
      }
    }

    /** LinkByID */
    method LinkByID(u: User, id: int) returns (link: Option<Link>)
      modifies conn
      ensures old(conn.faults) <= conn.faults
      ensures link.Some? ==> CanView(rows, u, id) && link.value == rows[id].link
      ensures conn.faults == old(conn.faults) ==> (link.Some? <==> CanView(rows, u, id))
    {
      var answered := conn.Statement();
      link := None;
      if answered && CanView(rows, u, id) {
        link := Some(rows[id].link);
      }
    }

    /** The insert commits exactly for a valid free slug and a well-formed link, unless a statement fails. Reading
        the link back afterwards, and a lost commit reply, may report an error with the link stored. */
    method CreateLink(u: User, given: Link, hash: string)
      returns (link: Option<Link>, ghost id: int, ghost slug: string, ghost committed: bool)
      requires Valid()
      modifies this, conn
      ensures old(conn.faults) <= conn.faults
      ensures Valid() && (old(RowsOK(rows)) ==> RowsOK(rows)) && (given.slug != "" ==> slug == given.slug)
      ensures !committed ==> rows == old(rows) && link == None
      ensures committed ==>
        && id !in old(rows)
        && Creatable(old(rows), Filled(given.(passwordProtected := hash != ""), slug), rules)
        && rows ==
             old(rows)[id := Row(Inserted(id, u, Filled(given.(passwordProtected := hash != ""), slug), hash), true)]
      ensures link.Some? ==> committed && link.value == rows[id].link
      ensures conn.faults == old(conn.faults) ==> (link.Some? <==> committed)
      ensures conn.faults == old(conn.faults) ==>
        (committed <==> Creatable(old(rows), Filled(given.(passwordProtected := hash != ""), slug), rules))
    {
      hide Inserted, WellFormed, RowOK;
      link, id, committed := None, nextID, false;
      var l := FillOne(given.(passwordProtected := hash != ""));
      slug := l.slug;
      if !rules.slugOK(l.slug) {
        return;
      }
      var ok := ValidateLink(l, rules);
      if !ok {
        return;
      }
      var inserts := conn.Statement();
      if !inserts || SlugTaken(rows, l.slug) {
        return;
      }
      var applied, failed := conn.Commit();
      if applied {
        committed := true;
        Insert(u, l, hash);
      }
      if !failed {
        link := LinkBySlug(l.slug);
        OnlySlug(id, l.slug);
      }
    }

    method Insert(u: User, l: Link, hash: string)
      requires Valid() && Creatable(rows, l, rules) && l.passwordProtected == (hash != "")
      modifies this
      ensures Valid() && (old(RowsOK(rows)) ==> RowsOK(rows)) && old(nextID) !in old(rows)
      ensures rows == old(rows)[old(nextID) := Row(Inserted(old(nextID), u, l, hash), true)]
      ensures rows[old(nextID)].link.slug == l.slug
    {
      InsertOK(nextID, u, l, hash, rules);
      InsertedIdentity(nextID, u, l, hash);
      hide Inserted, WellFormed, RowOK;
      NewRow(rows, nextID, Row(Inserted(nextID, u, l, hash), true));
      hide SlugsUnique, SlugTaken;
      rows, nextID := rows[nextID := Row(Inserted(nextID, u, l, hash), true)], nextID + 1;
    }

    /** A slug names one row. */
    lemma OnlySlug(id: int, slug: string)
      requires SlugsUnique(rows) && id in rows && rows[id].link.slug == slug
      ensures forall other :: other in rows && rows[other].link.slug == slug ==> other == id
    {
    }

    static lemma InsertedIdentity(id: int, u: User, l: Link, hash: string)
      ensures Inserted(id, u, l, hash).id == id && Inserted(id, u, l, hash).slug == l.slug
    {
    }

    /** The update commits exactly for a manageable live link and a well-formed result, unless a statement fails.
        Reading the link back afterwards, and a lost commit reply, may report an error with the change kept. */
    method UpdateLink(u: User, id: int, given: Link, hash: string, changed: bool)
      returns (link: Option<Link>, ghost committed: bool)
      requires Valid()
      modifies this`rows, conn
      ensures old(conn.faults) <= conn.faults
      ensures Valid() && (!committed ==> rows == old(rows) && link == None)
      ensures committed ==>
        && CanManage(old(rows), u, id) && WellFormed(ToWrite(given, hash, changed), rules)
        && Updated(old(rows), rows, [Update(id, ToWrite(given, hash, changed), hash, changed)])
      ensures link.Some? ==> committed && link.value == rows[id].link
      ensures conn.faults == old(conn.faults) ==>
        && (link.Some? <==> committed)
        && (committed <==> CanManage(old(rows), u, id) && WellFormed(ToWrite(given, hash, changed), rules))
      ensures old(RowsOK(rows)) && (id in old(rows) ==> KeepsProtection(old(rows)[id].link, given, changed)) ==>
        RowsOK(rows)
    {
      hide WellFormed, Overwritten, RowOK;
      link, committed := None, false;
      var l := given;
      if l.redirectCode == 0 {
        l := l.(redirectCode := 302);
      }
      if changed {
        l := l.(passwordProtected := hash != "");
      }
      var ok := ValidateLink(l, rules);
      if !ok {
        return;
      }
      var checks := conn.Statement();
      if !checks || !CanManage(rows, u, id) {
        return;
      }
      var applied, failed := conn.Commit();
      if applied {
        committed := true;
        Write(u, Update(id, l, hash, changed));
      }
      if !failed {
        link := LinkByID(u, id);
      }
    }

    /** One update takes effect; whoever could manage the link can view it. */
    method Write(u: User, up: Update)
      requires Valid() && CanManage(rows, u, up.id) && WellFormed(up.link, rules)
      modifies this`rows
      ensures Valid() && Updated(old(rows), rows, [up]) && CanView(rows, u, up.id)
      ensures old(RowsOK(rows)) && FromCurrent(old(rows), up) ==> RowsOK(rows)
    {
      hide WellFormed, Overwritten, RowOK, SlugsUnique;
      var next := rows[up.id := Written(rows[up.id], up)];
      assert IDs([up]) == [up.id];
      assert Updated(rows, next, [up]);
      Kept(u, next, [up]);
      assert CanView(next, u, IDs([up])[0]);
      rows := next;
    }

    /** The one statement deletes exactly a live link the user manages, unless it fails; a lost reply may report
        an error with the link deleted. */
    method DeleteLink(u: User, id: int) returns (failed: bool, ghost committed: bool)
      requires Valid()
      modifies this`rows, conn
      ensures old(conn.faults) <= conn.faults
      ensures Valid() && (old(RowsOK(rows)) ==> RowsOK(rows)) && (!failed ==> committed)
      ensures rows == if committed then Deleted(old(rows), {id}) else old(rows)
      ensures committed ==> CanManage(old(rows), u, id)
      ensures conn.faults == old(conn.faults) ==>
        (failed <==> !committed) && (committed <==> CanManage(old(rows), u, id))
    {
      hide RowOK;
      committed := false;
      var applied, lost := conn.Commit();
      failed := true;
      if applied && CanManage(rows, u, id) {
        committed, failed := true, lost;
        rows := Deleted(rows, {id});
      }
    }

    /** The transaction commits exactly when the ids are distinct, all live and all manageable, unless a
        statement fails; otherwise nothing changes. A lost commit reply may report an error. */
    method DeleteLinksBulk(u: User, ids: seq<int>) returns (failed: bool, ghost committed: bool)
      requires Valid()
      modifies this`rows, conn
      ensures old(conn.faults) <= conn.faults
      ensures Valid() && (old(RowsOK(rows)) ==> RowsOK(rows)) && (!failed ==> committed)
      ensures rows == if committed then Deleted(old(rows), ToSet(ids)) else old(rows)
      ensures committed ==> Distinct(ids) && AllManageable(old(rows), u, ids)
      ensures conn.faults == old(conn.faults) ==>
        (failed <==> !committed) && (committed <==> Distinct(ids) && AllManageable(old(rows), u, ids))
    {
      hide RowOK;
      if ids == [] {
        assert Deleted(rows, ToSet(ids)) == rows;
        return false, true;
      }
      SelectsAll(rows, u, ids);
      var updated := conn.Statement();
      var gone := Selected(rows, u, ids);
      failed, committed := true, false;
      if updated && |gone| == |ids| {
        var applied, lost := conn.Commit();
        failed := lost;
        if applied {
          assert gone == ToSet(ids);
          rows, committed := Deleted(rows, gone), true;
        }
      }
    }

    /** All updates or none. The transaction commits exactly when all links are well formed and the ids are
        distinct, all live and all manageable, unless a statement fails. Reading the links back afterwards, and a
        lost commit reply, may report an error with the changes kept. */
    method UpdateLinksBulk(u: User, ups: seq<Update>)
      returns (links: Option<seq<Link>>, ghost committed: bool)
      requires Valid()
      modifies this`rows, conn
      ensures old(conn.faults) <= conn.faults
      ensures Valid() && (!committed ==> rows == old(rows) && links == None)
      ensures committed ==> Updated(old(rows), rows, ups)
      ensures conn.faults == old(conn.faults) ==> (committed <==> BulkOK(old(rows), u, ups, rules))
      ensures committed ==> BulkOK(old(rows), u, ups, rules)
      ensures conn.faults == old(conn.faults) && committed ==> links.Some?
      ensures links.Some? ==> links.value == ReadBack(rows, IDs(ups))
      ensures old(RowsOK(rows)) && (forall i :: 0 <= i < |ups| ==> FromCurrent(old(rows), ups[i])) ==> RowsOK(rows)
    {
      hide WellFormed, Written, RowOK, SlugsUnique;
      committed, links := false, None;
      if ups == [] {
        return Some([]), true;
      }
      var wellFormed := ValidateAll(ups, rules);
      if !wellFormed {
        return;
      }
      var ids := IDs(ups);
      SelectsAll(rows, u, ids);
      var began := conn.Statement();
      if !began || |Selected(rows, u, ids)| != |ids| {
        return;
      }
      var next, failed := WriteAll(conn, rows, ups);
      if failed {
        return;
      }
      Kept(u, next, ups);
      var applied, lost := conn.Commit();
      if applied {
        rows, committed := next, true;
      }
      if !lost {
        links := LinksByIDs(u, ids);
      }
    }

    /** A committed update leaves the store valid and the rows visible to whoever could manage them. */
    lemma Kept(u: User, next: map<int, Row>, ups: seq<Update>)
      requires Valid() && BulkOK(rows, u, ups, rules) && Updated(rows, next, ups)
      ensures SlugsUnique(next) && (forall id :: id in next ==> next[id].link.id == id) && AllVisible(next, u, IDs(ups))
      ensures RowsOK(rows) && (forall i :: 0 <= i < |ups| ==> FromCurrent(rows, ups[i])) ==> RowsOK(next)
    {
      hide WellFormed, Overwritten, RowOK;
      forall id | id in next
        ensures next[id].live == rows[id].live && SameIdentity(rows[id].link, next[id].link)
      {
        if id in IDs(ups) {
          var i :| 0 <= i < |ups| && IDs(ups)[i] == id;
          OverwriteKeepsIdentity(rows[id].link, ups[i]);
        }
      }
      forall i | 0 <= i < |ups| ensures CanView(next, u, IDs(ups)[i]) {
        assert Manageable(u, rows[IDs(ups)[i]].link);
      }
      if RowsOK(rows) && forall i :: 0 <= i < |ups| ==> FromCurrent(rows, ups[i]) {
        UpdatedKeepsOK(rows, next, ups, rules);
      }
    }

    /** Imports all links or none. Unless a statement fails, it commits exactly if every row, with its defaults and
        its given or generated slug, is valid, and the slugs are unique among themselves and all stored links. */
    method CreateLinksBulk(u: User, given: seq<Link>)
      returns (links: Option<seq<Link>>, ghost ids: seq<int>, ghost slugs: seq<string>, ghost committed: bool)
      requires Valid()
      modifies this, conn
      ensures old(conn.faults) <= conn.faults
      ensures Valid() && (old(RowsOK(rows)) ==> RowsOK(rows)) && SlugsFor(given, slugs)
      ensures !committed ==> rows == old(rows) && links == None
      ensures committed ==>
        && Importable(old(rows), FilledAll(given, slugs), rules)
        && |ids| == |given| && Imported(old(rows), rows, u, ids, FilledAll(given, slugs))
      ensures links.Some? ==> committed && links.value == ReadBack(rows, ids)
      ensures conn.faults == old(conn.faults) && (u.role.Tenant? ==> u.tenantID.Some?) ==> (links.Some? <==> committed)
      ensures conn.faults == old(conn.faults) ==> (committed <==> Importable(old(rows), FilledAll(given, slugs), rules))
    {
      hide WellFormed, RowOK, SlugsUnique, Imported, Importing;
      links, ids, committed := None, [], false;
      if given == [] {
        NothingImported(u, rows);
        return Some([]), [], [], true;
      }
      var filled, ok;
      filled, ok, slugs := FillIn(given, rules);
      if !ok {
        return;
      }
      var next, failed;
      next, failed := InsertAll(conn, rows, nextID, u, filled, rules);
      if failed {
        return;
      }
      SerialMembers(nextID, |given|);
      var inserted := Serial(nextID, |given|);
      var applied, lost := conn.Commit();
      if applied {
        rows, nextID, ids, committed := next, nextID + |given|, inserted, true;
        if u.role.Tenant? ==> u.tenantID.Some? {
          ImportVisible(u, next, old(rows), inserted, filled);
        }
      }
      if !lost {
        links := LinksByIDs(u, inserted);
      }
    }

    /** Reads the links in chunks and returns them in the order asked for, or nothing if one is missing. */
    method LinksByIDs(u: User, ids: seq<int>) returns (links: Option<seq<Link>>)
      modifies conn
      ensures old(conn.faults) <= conn.faults
      ensures links.Some? ==> AllVisible(rows, u, ids) && links.value == ReadBack(rows, ids)
      ensures conn.faults == old(conn.faults) ==> (links.Some? <==> AllVisible(rows, u, ids))
    {
      hide Visible, WithGeo, ReadBack;
      links := None;
      if ids == [] {
        NothingRead(rows, ids);
        return Some([]);
      }
      var byID: map<int, Link> := map[];
      var start := 0;
      while start < |ids|
        invariant 0 <= start <= |ids| && conn.faults == old(conn.faults)
        invariant byID.Keys == VisibleAmong(rows, u, ids[..start])
        invariant forall id :: id in byID ==> byID[id] == WithGeo(rows[id].link, [])
      {
        var end := if start + CHUNK > |ids| then |ids| else start + CHUNK;
        var answered := conn.Statement();
        if !answered {
          return;
        }
        assert ids[..end] == ids[..start] + ids[start..end];
        byID := byID + map id | id in VisibleAmong(rows, u, ids[start..end]) :: WithGeo(rows[id].link, []);
        start := end;
      }
      assert ids[..start] == ids;
      var ordered: seq<Link> := [];
      for i := 0 to |ids|
        invariant |ordered| == i
        invariant forall k :: 0 <= k < i ==>
          ids[k] in VisibleAmong(rows, u, ids) && ordered[k] == WithGeo(rows[ids[k]].link, [])
      {
        var id := ids[i];
        if id !in byID {
          return;
        }
        assert byID[id] == WithGeo(rows[id].link, []);
        ordered := ordered + [byID[id]];
      }
      var hydrates := conn.Statement();
      if hydrates {
        var all := Hydrate(rows, ids, ordered);
        links := Some(all);
      }
    }
  }

  /** n ids in a row, as the identity column generates them. */
  function Serial(first: int, n: nat): (ids: seq<int>)
    ensures |ids| == n && forall i :: 0 <= i < n ==> ids[i] == first + i
  {
    seq(n, i => first + i)
  }

  lemma SerialMembers(first: int, n: nat)
    ensures forall id :: id in Serial(first, n) <==> first <= id < first + n
  {
    forall id | first <= id < first + n ensures id in Serial(first, n) {
      assert Serial(first, n)[id - first] == id;
    }
  }

  /** These slugs go with these rows: the given one, or a generated one. */
  predicate SlugsFor(given: seq<Link>, slugs: seq<string>) {
    |slugs| == |given| && forall i :: 0 <= i < |given| && given[i].slug != "" ==> slugs[i] == given[i].slug
  }

  /** The rows of an import with their defaults and slugs. */
  function FilledAll(given: seq<Link>, slugs: seq<string>): (links: seq<Link>)
    requires |slugs| == |given|
    ensures |links| == |given| && forall i :: 0 <= i < |given| ==> links[i] == Filled(given[i], slugs[i])
  {
    seq(|given|, i requires 0 <= i < |given| => Filled(given[i], slugs[i]))
  }

  predicate DistinctSlugs(links: seq<Link>) {
    forall i, j :: 0 <= i < j < |links| ==> links[i].slug != links[j].slug
  }

  /** Valid rows that do not share a slug. */
  predicate WellFilled(links: seq<Link>, rules: Rules) {
    DistinctSlugs(links) && forall i :: 0 <= i < |links| ==> rules.slugOK(links[i].slug) && WellFormed(links[i], rules)
  }

  predicate NoSlugTaken(rows: map<int, Row>, links: seq<Link>) {
    forall i :: 0 <= i < |links| ==> !SlugTaken(rows, links[i].slug)
  }

  predicate Importable(rows: map<int, Row>, links: seq<Link>, rules: Rules) {
    WellFilled(links, rules) && NoSlugTaken(rows, links)
  }

  /** Fresh rows with these ids, each one of the links, owned by the user and without a password, and nothing
      else. */
  ghost predicate Imported(before: map<int, Row>, after: map<int, Row>, u: User, ids: seq<int>, links: seq<Link>)
    requires |ids| == |links|
  {
    && Distinct(ids) && (forall id :: id in after <==> id in before || id in ids)
    && (forall id :: id in before ==> id !in ids && after[id] == before[id])
    && forall i :: 0 <= i < |ids| ==> ids[i] in after && after[ids[i]] == Row(Inserted(ids[i], u, links[i], ""), true)
  }

  /** The default code and visibility, and a random slug if there is none. */
  method FillOne(given: Link) returns (l: Link)
    ensures WithDefaults(l, given)
  {
    l := given;
    if l.slug == "" {
      var random: string := *;
      l := l.(slug := random);
    }
    if l.redirectCode == 0 {
      l := l.(redirectCode := 302);
    }
    if l.visibility == "" {
      l := l.(visibility := "private");
    }
  }

  /** Defaults and validation of every row; no two rows may share a slug. */
  method FillIn(given: seq<Link>, rules: Rules) returns (filled: seq<Link>, ok: bool, ghost slugs: seq<string>)
    ensures ok ==> WellFilled(filled, rules) && |filled| == |given|
    ensures ok ==> forall i :: 0 <= i < |given| ==> WithDefaults(filled[i], given[i])
    ensures SlugsFor(given, slugs)
    ensures ok ==> filled == FilledAll(given, slugs)
    ensures ok <==> WellFilled(FilledAll(given, slugs), rules)
  {
    hide WellFormed, Filled, FilledAll;
    filled, ok := [], false;
    slugs := seq(|given|, i requires 0 <= i < |given| => given[i].slug);
    var seen: set<string> := {};
    for n := 0 to |given|
      invariant SlugsFor(given, slugs) && |filled| == n
      invariant forall i :: n <= i < |given| ==> slugs[i] == given[i].slug
      invariant forall i :: 0 <= i < n ==> filled[i] == Filled(given[i], slugs[i]) && filled[i].slug == slugs[i]
      invariant WellFilled(filled, rules)
      invariant forall slug :: slug in seen <==> exists i :: 0 <= i < n && slugs[i] == slug
    {
      var link := FillOne(given[n]);
      slugs := slugs[n := link.slug];
      FilledSlug(given[n], link.slug);
      ghost var all := FilledAll(given, slugs);
      assert all[n] == link && forall i :: 0 <= i < n ==> all[i] == filled[i];
      if !rules.slugOK(link.slug) || link.slug in seen {
        return;
      }
      seen := seen + {link.slug};
      var wellFormed := ValidateLink(link, rules);
      if !wellFormed {
        return;
      }
      filled := filled + [link];
    }
    assert filled == FilledAll(given, slugs);
    ok := true;
  }

  lemma FilledSlug(given: Link, slug: string)
    ensures Filled(given, slug).slug == slug
  {
  }

  /** The first n of the links are inserted, with ids from `first` on. */
  ghost predicate Importing(rows: map<int, Row>, next: map<int, Row>, u: User, first: int, n: nat, links: seq<Link>)
    requires n <= |links|
  {
    && (forall id :: id in next <==> id in rows || first <= id < first + n)
    && (forall id :: id in rows ==> id < first && next[id] == rows[id])
    && (forall id :: first <= id < first + n ==> next[id] == Row(Inserted(id, u, links[id - first], ""), true))
  }

  lemma ImportOne(rows: map<int, Row>, next: map<int, Row>, u: User, first: int, n: nat, links: seq<Link>)
    requires n < |links| && Importing(rows, next, u, first, n, links)
    ensures Importing(rows, next[first + n := Row(Inserted(first + n, u, links[n], ""), true)], u, first, n + 1, links)
  {
    hide Inserted;
  }

  lemma ImportDone(rows: map<int, Row>, next: map<int, Row>, u: User, first: int, links: seq<Link>)
    requires Importing(rows, next, u, first, |links|, links)
    ensures Imported(rows, next, u, Serial(first, |links|), links)
  {
    hide Inserted;
    var ids := Serial(first, |links|);
    SerialMembers(first, |links|);
    hide Serial;
    forall i | 0 <= i < |ids|
      ensures ids[i] in next && next[ids[i]] == Row(Inserted(ids[i], u, links[i], ""), true)
    {
      var id := ids[i];
      assert first <= id < first + |links| && links[id - first] == links[i];
    }
    forall id | id in rows ensures id !in ids && next[id] == rows[id] {}
  }

  lemma ImportIDs(rows: map<int, Row>, next: map<int, Row>, u: User, first: int, n: nat, links: seq<Link>)
    requires n <= |links| && Importing(rows, next, u, first, n, links)
    requires forall id :: id in rows ==> rows[id].link.id == id
    ensures first + n !in next
    ensures forall id :: id in next ==> next[id].link.id == id && (id in rows || first <= id < first + n)
  {
  }

  /** As the links do not share slugs, only a slug that was taken before the import gets in the way. */
  lemma ImportSlugs(rows: map<int, Row>, next: map<int, Row>, u: User, first: int, n: nat, links: seq<Link>)
    requires n < |links| && Importing(rows, next, u, first, n, links) && DistinctSlugs(links)
    ensures SlugTaken(next, links[n].slug) <==> SlugTaken(rows, links[n].slug)
  {
    var slug := links[n].slug;
    if SlugTaken(rows, slug) {
      var id :| id in rows && rows[id].link.slug == slug;
      assert id in next;
    }
    forall id | id in next && id !in rows ensures next[id].link.slug != slug {
      assert first <= id < first + n && links[id - first].slug != slug;
    }
  }

  lemma NothingImported(u: User, rows: map<int, Row>)
    ensures Imported(rows, rows, u, [], [])
  {
  }

  /** The user sees what they imported. */
  lemma ImportVisible(u: User, after: map<int, Row>, before: map<int, Row>, ids: seq<int>, links: seq<Link>)
    requires |ids| == |links| && Imported(before, after, u, ids, links) && (u.role.Tenant? ==> u.tenantID.Some?)
    ensures AllVisible(after, u, ids)
  {
    forall i | 0 <= i < |ids| ensures CanView(after, u, ids[i]) {
      var l := Inserted(ids[i], u, links[i], "");
      assert after[ids[i]] == Row(l, true) && l.userID == u.id && l.tenantID == u.tenantID;
    }
  }

  /** The insert statements of one transaction, on its own copy of the rows. Unless a statement fails, they all
      succeed exactly if no slug is taken. */
  method InsertAll(conn: Connection, rows: map<int, Row>, nextID: int, u: User, links: seq<Link>, rules: Rules)
    returns (next: map<int, Row>, failed: bool)
    requires SlugsUnique(rows) && forall id :: id in rows ==> id < nextID && rows[id].link.id == id
    requires WellFilled(links, rules)
    modifies conn
    ensures old(conn.faults) <= conn.faults
    ensures !failed ==> SlugsUnique(next) && (RowsOK(rows) ==> RowsOK(next)) && NoSlugTaken(rows, links)
    ensures !failed ==> Imported(rows, next, u, Serial(nextID, |links|), links)
    ensures !failed ==> forall id :: id in next ==>
      next[id].link.id == id && (id in rows || nextID <= id < nextID + |links|)
    ensures conn.faults == old(conn.faults) ==> (failed <==> !NoSlugTaken(rows, links))
  {
    hide WellFormed, RowOK, SlugsUnique, SlugTaken, Inserted, Importing, Imported;
    next, failed := rows, false;
    assert Importing(rows, rows, u, nextID, 0, links) by { ImportNone(rows, u, nextID, links); }
    for n := 0 to |links|
      invariant SlugsUnique(next) && (RowsOK(rows) ==> RowsOK(next))
      invariant Importing(rows, next, u, nextID, n, links) && conn.faults == old(conn.faults)
      invariant forall i :: 0 <= i < n ==> !SlugTaken(rows, links[i].slug)
    {
      var inserts := conn.Statement();
      ImportSlugs(rows, next, u, nextID, n, links);
      if !inserts || SlugTaken(next, links[n].slug) {
        return next, true;
      }
      var row := Row(Inserted(nextID + n, u, links[n], ""), true);
      ImportIDs(rows, next, u, nextID, n, links);
      InsertOK(nextID + n, u, links[n], "", rules);
      LinkStore.InsertedIdentity(nextID + n, u, links[n], "");
      NewRow(next, nextID + n, row);
      ImportOne(rows, next, u, nextID, n, links);
      next := next[nextID + n := row];
    }
    ImportIDs(rows, next, u, nextID, |links|, links);
    ImportDone(rows, next, u, nextID, links);
  }

  lemma ImportNone(rows: map<int, Row>, u: User, first: int, links: seq<Link>)
    requires forall id :: id in rows ==> id < first
    ensures Importing(rows, rows, u, first, 0, links)
  {
  }

  predicate BulkOK(rows: map<int, Row>, u: User, ups: seq<Update>, rules: Rules) {
    && (forall i :: 0 <= i < |ups| ==> WellFormed(ups[i].link, rules))
    && Distinct(IDs(ups)) && AllManageable(rows, u, IDs(ups))
  }

  predicate SameIdentity(a: Link, b: Link) {
    a.id == b.id && a.slug == b.slug && a.userID == b.userID && a.tenantID == b.tenantID && a.clicks == b.clicks
  }

  method ValidateAll(ups: seq<Update>, rules: Rules) returns (ok: bool)
    ensures ok <==> forall i :: 0 <= i < |ups| ==> WellFormed(ups[i].link, rules)
  {
    hide WellFormed;
    for i := 0 to |ups|
      invariant forall k :: 0 <= k < i ==> WellFormed(ups[k].link, rules)
    {
      ok := ValidateLink(ups[i].link, rules);
      if !ok {
        return;
      }
    }
    return true;
  }

  /** The update statements of one transaction, on its own copy of the rows. */
  method WriteAll(conn: Connection, rows: map<int, Row>, ups: seq<Update>) returns (next: map<int, Row>, failed: bool)
    requires Distinct(IDs(ups)) && forall i :: 0 <= i < |ups| ==> ups[i].id in rows
    modifies conn
    ensures conn.faults == old(conn.faults) + if failed then 1 else 0
    ensures !failed ==> Updated(rows, next, ups)
  {
    hide Written;
    next, failed := rows, false;
    for i := 0 to |ups|
      invariant next.Keys == rows.Keys && conn.faults == old(conn.faults)
      invariant forall k :: 0 <= k < i ==> next[ups[k].id] == Written(rows[ups[k].id], ups[k])
      invariant forall id :: id in rows && (forall k :: 0 <= k < i ==> ups[k].id != id) ==> next[id] == rows[id]
    {
      var writes := conn.Statement();
      if !writes {
        return next, true;
      }
      assert forall k :: 0 <= k < i ==> IDs(ups)[k] != IDs(ups)[i];
      next := next[ups[i].id := Written(next[ups[i].id], ups[i])];
    }
    forall id | id in rows && id !in IDs(ups) ensures next[id] == rows[id] {
      assert forall k :: 0 <= k < |ups| ==> IDs(ups)[k] != id;
    }
  }

  /** The database behind the store. */
  class Connection {
    /** Statements and commits that failed. */
    ghost var faults: nat

    constructor ()
      ensures faults == 0
    {
      faults := 0;
    }

    /** Whether a statement goes through. */
    method Statement() returns (answered: bool)
      modifies this
      ensures faults == old(faults) + if answered then 0 else 1
    {
      answered := *;
      faults := faults + if answered then 0 else 1;
    }

    /** A commit, or a statement that is its own transaction, may take effect although its reply is lost. */
    method Commit() returns (applied: bool, failed: bool)
      modifies this
      ensures !failed ==> applied
      ensures faults == old(faults) + if failed then 1 else 0
    {
      applied, failed := *, *;
      applied := applied || !failed;
      faults := faults + if failed then 1 else 0;
    }
  }
}
