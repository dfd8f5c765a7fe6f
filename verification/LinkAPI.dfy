// The requests that create, import, edit and delete links. Whatever their order, no stored link ever combines a
// permanent redirect code with a dynamic feature.

module LinkAPI {
  import opened Wrappers
  import opened Models
  import opened Users
  import opened Links
  import opened LinkStore

  const NEW_LINK := Link(
    0, 0, None, "", "", "", "private", 0, 302, None, None, "", "", "", true, NO_UTM, [], [], false, "")

  /** The update that a request makes of the row as it is. */
  predicate Prepared(rows: map<int, Row>, up: Update, id: int, p: Payload, parseTime: string -> Option<Time>) {
    && up.id == id && FromCurrent(rows, up) && Acceptable(rows[id].link, p, false, parseTime)
    && up.link == Edited(rows[id].link, p, false, parseTime)
    && (up.hash != "" <==> p.password.Some?) && (up.changed <==> p.password.Some? || p.clearPassword)
  }

  /** Every one of these links was edited by the same request, and nothing else changed. */
  predicate EditedAll(
      before: map<int, Row>, after: map<int, Row>, ids: seq<int>, ups: seq<Update>, p: Payload,
      parseTime: string -> Option<Time>)
  {
    && IDs(ups) == ids && Updated(before, after, ups)
    && forall i :: 0 <= i < |ups| ==> ids[i] in before && Prepared(before, ups[i], ids[i], p, parseTime)
  }

  /** A request makes a link that may be stored: it is acceptable, and valid with its slug, which is free. */
  predicate MakesLink(rows: map<int, Row>, p: Payload, slug: string, rules: Rules, parseTime: string -> Option<Time>) {
    Acceptable(NEW_LINK, p, true, parseTime) && Creatable(rows, Made(p, slug, parseTime), rules)
  }

  /** The new link of a request, with the defaults filled in. */
  function Made(p: Payload, slug: string, parseTime: string -> Option<Time>): Link {
    Filled(Edited(NEW_LINK, p, true, parseTime), slug)
  }

  /** A request may change a link: the user manages it, the request is acceptable and the result valid. */
  predicate Editable(
      rows: map<int, Row>, u: User, id: int, p: Payload, rules: Rules, parseTime: string -> Option<Time>)
  {
    && CanManage(rows, u, id) && Acceptable(rows[id].link, p, false, parseTime)
    && WellFormed(Edited(rows[id].link, p, false, parseTime), rules)
  }

  /** 1 to 500 distinct positive ids, and no slug. */
  predicate BulkRequest(ids: seq<int>, p: Payload) {
    1 <= |ids| <= 500 && p.slug == None && Distinct(ids) && forall i :: 0 <= i < |ids| ==> ids[i] >= 1
  }

  /** The handlers over one store, taking requests one at a time. */
  class LinkAPI {
    const store: LinkStore
    const hasher: Hasher
    const parseTime: string -> Option<Time>

    constructor (rules: Rules, conn: Connection, hasher: Hasher, parseTime: string -> Option<Time>)
      ensures fresh(store) && store.conn == conn && store.rows == map[] && Sound()
      ensures this.hasher == hasher && this.parseTime == parseTime
    {
      store := new LinkStore(rules, conn);
      this.hasher, this.parseTime := hasher, parseTime;
    }

    /** Statements, commits and hashings that failed. */
    ghost function Faults(): nat
      reads store.conn, hasher
    {
      store.conn.faults + hasher.faults
    }

    ghost predicate Sound()
      reads this, store
    {
      store.Valid() && RowsOK(store.rows)
    }

    /** Without a link the row may still be stored: the commit reply or reading it back was lost. */
    method Create(u: User, p: Payload)
      returns (link: Option<Link>, ghost id: int, ghost slug: string, ghost committed: bool)
      requires Sound()
      modifies store, store.conn, hasher
      ensures old(Faults()) <= Faults()
      ensures Sound() && (!committed ==> store.rows == old(store.rows) && link == None)
      ensures committed ==>
        && id !in old(store.rows) && MakesLink(old(store.rows), p, slug, store.rules, parseTime)
        && exists hash :: (hash != "" <==> p.password.Some?) &&
             store.rows == old(store.rows)[id := Row(Inserted(id, u, Made(p, slug, parseTime), hash), true)]
      ensures link.Some? ==> committed && link.value == store.rows[id].link
      ensures Faults() == old(Faults()) ==> (link.Some? <==> committed)
      ensures Faults() == old(Faults()) ==> (committed <==> MakesLink(old(store.rows), p, slug, store.rules, parseTime))
      ensures Edited(NEW_LINK, p, true, parseTime).slug != "" ==> slug == Edited(NEW_LINK, p, true, parseTime).slug
    {
      hide WellFormed, RowOK, Replaced, Inserted, Acceptable, Filled;
      link, id, slug, committed := None, 0, Edited(NEW_LINK, p, true, parseTime).slug, false;
      var edited, hash, changed := ApplyLinkPayload(NEW_LINK, p, true, parseTime, hasher);
      if edited == None {
        return;
      }
      EditedIs(NEW_LINK, edited.value, p, true, hash, changed, parseTime);
      Protected(edited.value, hash);
      link, id, slug, committed := store.CreateLink(u, edited.value, hash);
    }

    /** A new link is protected exactly by a password. */
    lemma Protected(l: Link, hash: string)
      requires l.passwordProtected == (hash != "")
      ensures l.(passwordProtected := hash != "") == l
    {
    }

    /** Without a link the change may still have been made. */
    method Edit(u: User, id: int, p: Payload)
      returns (link: Option<Link>, ghost committed: bool)
      requires Sound()
      modifies store, store.conn, hasher
      ensures old(Faults()) <= Faults()
      ensures Sound() && (!committed ==> store.rows == old(store.rows) && link == None)
      ensures committed ==> p.slug == None && EditableAs(old(store.rows), u, id, p)
      ensures committed ==> exists hash, changed ::
        (hash != "" <==> p.password.Some?) && (changed <==> p.password.Some? || p.clearPassword) &&
        Updated(old(store.rows), store.rows, [Update(id, Next(old(store.rows), id, p), hash, changed)])
      ensures link.Some? ==> committed && link.value == store.rows[id].link
      ensures Faults() == old(Faults()) ==> (link.Some? <==> committed)
      ensures Faults() == old(Faults()) ==> (committed <==> p.slug == None && EditableAs(old(store.rows), u, id, p))
    {
      hide WellFormed, RowOK, Replaced, Updated, Acceptable;
      link, committed := None, false;
      if p.slug.Some? {
        return;
      }
      var current;
      current := store.LinkByID(u, id);
      if current == None {
        return;
      }
      var edited, hash, changed := ApplyLinkPayload(current.value, p, false, parseTime, hasher);
      if edited == None {
        return;
      }
      EditedIs(current.value, edited.value, p, false, hash, changed, parseTime);
      Written(store.rows, id, p, hash, changed);
      link, committed := store.UpdateLink(u, id, edited.value, hash, changed);
    }

    /** The link as one request changes it, with the default code filled in. */
    function Next(rows: map<int, Row>, id: int, p: Payload): Link
      requires id in rows
    {
      var l := Edited(rows[id].link, p, false, parseTime);
      l.(redirectCode := if l.redirectCode == 0 then 302 else l.redirectCode)
    }

    predicate EditableAs(rows: map<int, Row>, u: User, id: int, p: Payload) {
      && CanManage(rows, u, id) && Acceptable(rows[id].link, p, false, parseTime)
      && WellFormed(Next(rows, id, p), store.rules)
    }

    lemma Written(rows: map<int, Row>, id: int, p: Payload, hash: string, changed: bool)
      requires id in rows && (hash != "" <==> p.password.Some?) && (changed <==> p.password.Some? || p.clearPassword)
      ensures ToWrite(Edited(rows[id].link, p, false, parseTime), hash, changed) == Next(rows, id, p)
    {
      hide WithTexts, WithRouting;
    }

    /** One payload for many links: all are edited or none. */
    method EditAll(u: User, ids: seq<int>, p: Payload)
      returns (failed: bool, ghost committed: bool)
      requires Sound()
      modifies store, store.conn, hasher
      ensures old(Faults()) <= Faults()
      ensures Sound() && (!committed ==> failed && store.rows == old(store.rows))
      ensures committed ==> BulkRequest(ids, p) && AllEditable(old(store.rows), u, ids, p)
      ensures committed ==> exists ups :: EditedAll(old(store.rows), store.rows, ids, ups, p, parseTime)
      ensures Faults() == old(Faults()) ==> (failed <==> !committed)
      ensures Faults() == old(Faults()) ==>
        (committed <==> BulkRequest(ids, p) && AllEditable(old(store.rows), u, ids, p))
    {
      hide WellFormed, RowOK, Replaced, Updated, SlugsUnique, Acceptable;
      failed, committed := true, false;
      var unique := AreUniqueIDs(ids);
      if |ids| < 1 || |ids| > 500 || p.slug.Some? || !unique {
        return;
      }
      var current;
      current := store.LinksByIDs(u, ids);
      if current == None {
        ManagedAreVisible(store.rows, u, ids);
        return;
      }
      ReadsStored(store.rows, ids);
      var ups, rejected;
      ups, rejected := Prepare(current.value, ids, p);
      if rejected {
        return;
      }
      ghost var before := store.rows;
      var links;
      links, committed := store.UpdateLinksBulk(u, ups);
      PreparedAll(before, u, ids, ups, p);
      assert committed ==> EditedAll(before, store.rows, ids, ups, p, parseTime);
      failed := links == None;
    }

    predicate AllEditable(rows: map<int, Row>, u: User, ids: seq<int>, p: Payload) {
      forall i :: 0 <= i < |ids| ==> Editable(rows, u, ids[i], p, store.rules, parseTime)
    }

    lemma ManagedAreVisible(rows: map<int, Row>, u: User, ids: seq<int>)
      ensures AllManageable(rows, u, ids) ==> AllVisible(rows, u, ids)
    {
    }

    /** The bulk update accepts what was prepared exactly if every link is editable. */
    lemma PreparedAll(rows: map<int, Row>, u: User, ids: seq<int>, ups: seq<Update>, p: Payload)
      requires |ups| == |ids| && Distinct(ids)
      requires forall i :: 0 <= i < |ids| ==> ids[i] in rows && Prepared(rows, ups[i], ids[i], p, parseTime)
      ensures IDs(ups) == ids
      ensures BulkOK(rows, u, ups, store.rules) <==> AllEditable(rows, u, ids, p)
    {
      hide WellFormed, Acceptable, Replaced, Edited, CanManage;
      assert IDs(ups) == ids;
      if BulkOK(rows, u, ups, store.rules) {
        forall i | 0 <= i < |ids| ensures Editable(rows, u, ids[i], p, store.rules, parseTime) {
          assert WellFormed(ups[i].link, store.rules) && CanManage(rows, u, IDs(ups)[i]);
        }
      }
      if AllEditable(rows, u, ids, p) {
        forall i | 0 <= i < |ids| ensures WellFormed(ups[i].link, store.rules) && CanManage(rows, u, IDs(ups)[i]) {
          assert Editable(rows, u, ids[i], p, store.rules, parseTime);
        }
      }
    }

    /** The updates of one payload, made from the links as they are stored. */
    method Prepare(links: seq<Link>, ids: seq<int>, p: Payload)
      returns (ups: seq<Update>, rejected: bool)
      requires |links| == |ids| && RowsOK(store.rows)
      requires forall i :: 0 <= i < |ids| ==> ids[i] in store.rows && links[i] == store.rows[ids[i]].link
      modifies hasher
      ensures old(hasher.faults) <= hasher.faults
      ensures !rejected ==> |ups| == |ids|
      ensures !rejected ==> forall i :: 0 <= i < |ids| ==> Prepared(store.rows, ups[i], ids[i], p, parseTime)
      ensures hasher.faults == old(hasher.faults) && rejected ==>
        exists i :: 0 <= i < |ids| && !Acceptable(store.rows[ids[i]].link, p, false, parseTime)
    {
      hide Replaced, RowOK, Acceptable;
      ups, rejected := [], false;
      for i := 0 to |ids|
        invariant old(hasher.faults) <= hasher.faults
        invariant |ups| == i && forall k :: 0 <= k < i ==> Prepared(store.rows, ups[k], ids[k], p, parseTime)
      {
        var edited, hash, changed := ApplyLinkPayload(links[i], p, false, parseTime, hasher);
        if edited == None {
          return ups, true;
        }
        EditedIs(links[i], edited.value, p, false, hash, changed, parseTime);
        ups := ups + [Update(ids[i], edited.value, hash, changed)];
      }
    }

    method Import(u: User, links: seq<Link>)
      returns (failed: bool, ghost slugs: seq<string>, ghost committed: bool)
      requires Sound()
      modifies store, store.conn, hasher
      ensures old(Faults()) <= Faults()
      ensures Sound() && (!committed ==> failed && store.rows == old(store.rows)) && SlugsFor(links, slugs)
      ensures committed ==>
        && Importable(old(store.rows), FilledAll(links, slugs), store.rules)
        && exists ids ::
             |ids| == |links| && Imported(old(store.rows), store.rows, u, ids, FilledAll(links, slugs))
      ensures Faults() == old(Faults()) ==>
        (committed <==> Importable(old(store.rows), FilledAll(links, slugs), store.rules))
    {
      hide WellFormed, RowOK, Imported;
      var created;
      ghost var ids;
      created, ids, slugs, committed := store.CreateLinksBulk(u, links);
      failed := created == None;
    }

    /** The link is read first: its hosts are needed afterwards to invalidate what is cached of it. */
    method Remove(u: User, id: int) returns (failed: bool, ghost committed: bool)
      requires Sound()
      modifies store, store.conn, hasher
      ensures old(Faults()) <= Faults()
      ensures Sound() && (!failed ==> committed) && (committed ==> CanManage(old(store.rows), u, id))
      ensures store.rows == if committed then Deleted(old(store.rows), {id}) else old(store.rows)
      ensures Faults() == old(Faults()) ==>
        (failed <==> !committed) && (committed <==> CanManage(old(store.rows), u, id))
    {
      failed, committed := true, false;
      var before;
      before := store.LinkByID(u, id);
      if before.Some? {
        failed, committed := store.DeleteLink(u, id);
      }
    }

    /** All links are deleted or none. */
    method RemoveAll(u: User, ids: seq<int>, p: Payload)
      returns (failed: bool, ghost committed: bool)
      requires Sound()
      modifies store, store.conn, hasher
      ensures old(Faults()) <= Faults()
      ensures Sound() && (!failed ==> committed)
      ensures store.rows == if committed then Deleted(old(store.rows), ToSet(ids)) else old(store.rows)
      ensures committed ==> BulkRequest(ids, p) && AllManageable(old(store.rows), u, ids)
      ensures Faults() == old(Faults()) ==> (failed <==> !committed)
      ensures Faults() == old(Faults()) ==>
        (committed <==> BulkRequest(ids, p) && AllManageable(old(store.rows), u, ids))
    {
      failed, committed := true, false;
      var unique := AreUniqueIDs(ids);
      if |ids| < 1 || |ids| > 500 || p.slug.Some? || !unique {
        return;
      }
      ManagedAreVisible(store.rows, u, ids);
      var before;
      before := store.LinksByIDs(u, ids);
      if before.Some? {
        failed, committed := store.DeleteLinksBulk(u, ids);
      }
    }
  }

  /** The handlers' own check: positive and pairwise distinct. */
  method AreUniqueIDs(ids: seq<int>) returns (ok: bool)
    ensures ok <==> Distinct(ids) && forall i :: 0 <= i < |ids| ==> ids[i] >= 1
  {
    var seen: set<int> := {};
    for i := 0 to |ids|
      invariant forall id :: id in seen <==> id in ids[..i]
      invariant Distinct(ids[..i]) && forall k :: 0 <= k < i ==> ids[k] >= 1
    {
      var id := ids[i];
      assert ids[..i + 1] == ids[..i] + [id];
      if id < 1 || id in seen {
        assert id in seen ==> exists k :: 0 <= k < i && ids[..i][k] == id;
        return false;
      }
      seen := seen + {id};
    }
    assert ids[..|ids|] == ids;
    return true;
  }
}
