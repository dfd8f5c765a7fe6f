// Which field of a request, and which column of a row, every field of a link comes from.

module Fields {
  import opened Wrappers
  import opened Models
  import Text
  import opened Users
  import opened Links
  import opened LinkStore

  /** A text field of a request, trimmed, or the field as it was. */
  predicate Takes(after: string, field: Option<string>, before: string) {
    (field.Some? ==> after == Text.TrimSpace(field.value)) && (field == None ==> after == before)
  }

  predicate TakesValue<T(==)>(after: T, field: Option<T>, before: T) {
    (field.Some? ==> after == field.value) && (field == None ==> after == before)
  }

  /** Every field of the result is that of the request, if the request names it, and else that of the link. */
  lemma EditReads(l: Link, p: Payload, creating: bool, parseTime: string -> Option<Time>)
    ensures var r := Edited(l, p, creating, parseTime);
      && r.id == l.id && r.userID == l.userID && r.tenantID == l.tenantID && r.clicks == l.clicks
      && (p.targetURL.Some? ==> r.targetURL == Text.TrimSpace(p.targetURL.value))
      && (p.targetURL == None ==> Takes(r.targetURL, p.url, l.targetURL))
      && (creating ==> Takes(r.slug, p.slug, l.slug)) && (!creating ==> r.slug == l.slug)
      && Takes(r.title, p.title, l.title)
      && (p.visibility.Some? && Text.TrimSpace(p.visibility.value) != "" ==>
            r.visibility == Text.TrimSpace(p.visibility.value))
      && (p.visibility == None && l.visibility != "" ==> r.visibility == l.visibility)
    ensures var r := Edited(l, p, creating, parseTime);
      && TakesValue(r.redirectCode, p.redirectCode, l.redirectCode)
      && (p.clearMaxClicks ==> r.maxClicks == None)
      && (!p.clearMaxClicks ==> r.maxClicks == if p.maxClicks.Some? then p.maxClicks else l.maxClicks)
      && Takes(r.expiredURL, p.expiredURL, l.expiredURL) && Takes(r.iosURL, p.iosURL, l.iosURL)
      && Takes(r.androidURL, p.androidURL, l.androidURL)
      && TakesValue(r.forwardQuery, p.forwardQuery, l.forwardQuery)
      && TakesValue(r.tags, p.tags, l.tags) && TakesValue(r.geoTargets, p.geoTargets, l.geoTargets)
    ensures var r := Edited(l, p, creating, parseTime);
      && Takes(r.utm.source, p.source, l.utm.source) && Takes(r.utm.medium, p.medium, l.utm.medium)
      && Takes(r.utm.campaign, p.campaign, l.utm.campaign) && Takes(r.utm.term, p.term, l.utm.term)
      && Takes(r.utm.content, p.content, l.utm.content)
    ensures var r := Edited(l, p, creating, parseTime);
      && (p.expiresAt == None ==> r.expiresAt == l.expiresAt)
      && (p.expiresAt.Some? && Text.TrimSpace(p.expiresAt.value) == "" ==> r.expiresAt == None)
      && (p.expiresAt.Some? && Text.TrimSpace(p.expiresAt.value) != "" ==> r.expiresAt == parseTime(p.expiresAt.value))
      && r.passwordProtected == (p.password.Some? || (l.passwordProtected && !p.clearPassword))
  {
    hide Text.TrimSpace;
  }

  /** Country targets are stored with upper-case country codes. */
  predicate GeoStored(after: seq<GeoTarget>, given: seq<GeoTarget>) {
    |after| == |given| && forall i :: 0 <= i < |given| ==>
      after[i].country == Text.Upper(Text.TrimSpace(given[i].country)) && after[i].url == Text.TrimSpace(given[i].url)
  }

  /** Everything an update and an insert store alike. */
  predicate StoresContent(after: Link, given: Link) {
    && after.targetURL == given.targetURL && after.title == given.title && after.visibility == given.visibility
    && after.redirectCode == given.redirectCode && after.expiresAt == given.expiresAt
    && after.maxClicks == given.maxClicks && after.expiredURL == given.expiredURL && after.iosURL == given.iosURL
    && after.androidURL == given.androidURL && after.forwardQuery == given.forwardQuery && after.utm == given.utm
    && after.tags == given.tags && GeoStored(after.geoTargets, given.geoTargets)
  }

  /** An update stores what it was given, keeps identity, owner and clicks, and the password unless it changed. */
  lemma OverwriteReads(was: Link, given: Link, hash: string, changed: bool)
    ensures var r := Overwritten(was, given, hash, changed);
      && StoresContent(r, given)
      && r.id == was.id && r.slug == was.slug && r.userID == was.userID && r.tenantID == was.tenantID
      && r.clicks == was.clicks && r.passwordHash == (if changed then hash else was.passwordHash)
      && r.passwordProtected == (if changed then hash != "" else was.passwordProtected)
  {
    hide Text.TrimSpace;
  }

  /** An insert stores what it was given for the user, without clicks. */
  lemma InsertReads(id: int, u: User, given: Link, hash: string)
    ensures var r := Inserted(id, u, given, hash);
      && StoresContent(r, given)
      && r.id == id && r.slug == given.slug && r.userID == u.id && r.tenantID == u.tenantID && r.clicks == 0
      && r.passwordHash == hash && r.passwordProtected == (hash != "")
  {
    hide Text.TrimSpace;
  }

  /** A new link gets code 302 and private visibility unless it has its own. */
  lemma FilledReads(given: Link, slug: string)
    ensures var r := Filled(given, slug);
      && r.slug == slug && r.redirectCode == (if given.redirectCode == 0 then 302 else given.redirectCode)
      && r.visibility == (if given.visibility == "" then "private" else given.visibility)
      && r.(slug := given.slug, redirectCode := given.redirectCode, visibility := given.visibility) == given
  {
  }

  /** When a link may be stored: an absolute HTTP target, other URLs absolute or empty, one of four codes, a permanent
      one only without any dynamic feature, a positive limit, distinct known countries with HTTP targets, and at most
      20 tags. */
  lemma ValidReads(l: Link, rules: Rules)
    ensures WellFormed(l, rules) <==>
      && l.visibility in {"", "private", "department"} && rules.isHTTP(l.targetURL)
      && (l.expiredURL != "" ==> rules.isHTTP(l.expiredURL)) && (l.iosURL != "" ==> rules.isHTTP(l.iosURL))
      && (l.androidURL != "" ==> rules.isHTTP(l.androidURL))
      && l.redirectCode in {301, 302, 307, 308}
      && (l.redirectCode in {301, 308} ==>
            && l.expiresAt == None && l.maxClicks == None && l.iosURL == "" && l.androidURL == ""
            && !l.passwordProtected && l.geoTargets == [] && !l.forwardQuery)
      && (l.maxClicks.Some? ==> l.maxClicks.value >= 1)
      && (forall i :: 0 <= i < |l.geoTargets| ==>
            && Code(l.geoTargets[i]) in rules.isoCodes && rules.isHTTP(l.geoTargets[i].url)
            && forall j :: 0 <= j < i ==> Code(l.geoTargets[j]) != Code(l.geoTargets[i]))
      && rules.tagCount(l.tags) <= 20
  {
    hide Text.TrimSpace;
    assert forall i :: 0 <= i < |l.geoTargets| ==> CountryOf(l.geoTargets[i]) == Code(l.geoTargets[i]);
  }

  /** A country code as it is compared: trimmed and in upper case. */
  function Code(g: GeoTarget): string {
    Text.Upper(Text.TrimSpace(g.country))
  }

  /** Deleting marks exactly these rows, and keeps what they held; a deleted link is neither seen nor managed. */
  lemma DeletedReads(rows: map<int, Row>, gone: set<int>, u: User, id: int)
    ensures var next := Deleted(rows, gone);
      && next.Keys == rows.Keys
      && (id in rows ==> next[id].link == rows[id].link && (next[id].live <==> rows[id].live && id !in gone))
      && (id in gone ==> !CanView(next, u, id) && !CanManage(next, u, id))
  {
  }

  /** Who sees and manages what: a superadmin everything, a tenant exactly its own links, a customer what is theirs
      and, to look at only, what their department shares. */
  lemma ScopesRead(u: User, l: Link)
    ensures Manageable(u, l) ==> Visible(u, l)
    ensures u.role.Superadmin? ==> Manageable(u, l)
    ensures u.role.Tenant? ==>
      (Manageable(u, l) <==> l.tenantID.Some? && l.tenantID == u.tenantID) && (Visible(u, l) <==> Manageable(u, l))
    ensures u.role.Customer? ==> (Manageable(u, l) <==> l.userID == u.id)
    ensures u.role.Customer? && l.userID != u.id ==>
      (Visible(u, l) <==> l.tenantID.Some? && l.tenantID == u.tenantID && l.visibility == "department")
  {
  }
}
