// The redirect cache as a step system over links, domains and cache entries, and its invisibility to redirects.

module Coherence {
  import opened Wrappers
  import opened Models
  import opened Links
  import opened LinkStore
  import opened Hosts
  import opened Redirect

  const SCHEMA_VERSION: int := 1

  datatype Cached = Cached(
    version: int, id: int, tenantID: Option<int>, slug: string, targetURL: string, redirectCode: int,
    expiresAt: Option<Time>, expiredURL: string, iosURL: string, androidURL: string, forwardQuery: bool, utm: UTM,
    geoTargets: seq<GeoTarget>)

  /** Links with a password or a click limit are not cached. */
  function FromLink(l: Link): Option<Cached> {
    if l.passwordProtected || l.passwordHash != "" || l.maxClicks.Some? then None
    else
      Some(Cached(SCHEMA_VERSION, l.id, l.tenantID, l.slug, l.targetURL, l.redirectCode, l.expiresAt, l.expiredURL,
                  l.iosURL, l.androidURL, l.forwardQuery, l.utm, l.geoTargets))
  }

  /** A link may be cached exactly if neither a password nor a click limit guards it. */
  lemma Cacheable(l: Link)
    ensures FromLink(l).Some? <==> !l.passwordProtected && l.passwordHash == "" && l.maxClicks == None
  {
  }

  /** CachedRedirect.Link; the fields that are not cached are zero. */
  function LinkOf(c: Cached): Option<Link> {
    if c.version != SCHEMA_VERSION then None
    else
      Some(Link(c.id, 0, c.tenantID, c.slug, c.targetURL, "", "", 0, c.redirectCode, c.expiresAt, None, c.expiredURL,
                c.iosURL, c.androidURL, c.forwardQuery, c.utm, [], c.geoTargets, false, ""))
  }

  /** A cached copy gives every visit the same answer and the same event, whatever the click count was. */
  lemma CacheKeepsVisits(l: Link, clicks: int, r: Request, now: Time, libs: Libs, track: Tracker)
    requires FromLink(l).Some?
    ensures LinkOf(FromLink(l).value).Some?
    ensures Visit(LinkOf(FromLink(l).value).value, r, now, libs, track)
         == Visit(l.(clicks := clicks), r, now, libs, track)
  {
    var copy, counted := LinkOf(FromLink(l).value).value, l.(clicks := clicks);
    var inbound, raw := r.query, ResolveTarget(l, r.country, r.userAgent, libs).0;
    SameMerge(copy, counted, raw, inbound, libs);
    hide Merged, EventFor, GeoTargetFor;
    SameEvents(copy, counted, r, libs);
  }

  lemma SameMerge(a: Link, b: Link, raw: string, inbound: Query, libs: Libs)
    requires a.utm == b.utm && a.forwardQuery == b.forwardQuery
    ensures Merged(raw, a, inbound, libs) == Merged(raw, b, inbound, libs)
  {
    hide UTMFields;
    var d := libs.parse(raw);
    if d.Some? {
      assert MergedQuery(a, d.value.query, inbound) == MergedQuery(b, d.value.query, inbound);
    }
  }

  lemma SameEvents(a: Link, b: Link, r: Request, libs: Libs)
    requires a.id == b.id && a.slug == b.slug
    ensures forall target, route, status ::
      EventFor(r, a, target, route, status, libs) == EventFor(r, b, target, route, status, libs)
  {
  }

  // ---- the site ----

  datatype Domain = Domain(tenantID: int, active: bool, notFoundURL: string)

  /** Links by slug, deleted ones included; domains by name; cache entries by key. */
  datatype Site = Site(links: map<string, Row>, domains: map<string, Domain>, cache: map<string, Cached>)

  /** The base host, and the tenant a domain name belongs to for good. */
  datatype Config = Config(base: string, owner: string -> int)

  datatype Step =
    | Resolve(h: string, slug: string, readable: bool, stored: bool)
    | Evict(key: string)
    | Corrupt(key: string, c: Cached)
    | Create(l: Link)
    | Change(l: Link)
    | Delete(slug: string)
    | Count(slug: string)
    | AddDomain(d: string)
    | Activate(d: string)
    | Deactivate(d: string)
    | SetNotFound(d: string, url: string)
    | RemoveDomain(d: string)

  predicate ServedAt(cfg: Config, site: Site, h: string) {
    h == cfg.base || (h in site.domains && site.domains[h].active)
  }

  predicate Live(site: Site, slug: string) {
    slug in site.links && site.links[slug].live
  }

  /** LinkBySlug */
  function Load(site: Site, slug: string): Option<Link> {
    if Live(site, slug) then Some(site.links[slug].link) else None
  }

  predicate Readable(cache: map<string, Cached>, key: string) {
    key in cache && cache[key].version == SCHEMA_VERSION
  }

  /** What resolving yields: a readable entry, else the stored link. */
  function Resolved(site: Site, h: string, slug: string, readable: bool): Option<Link> {
    if readable && Readable(site.cache, Key(h, slug)) then LinkOf(site.cache[Key(h, slug)]) else Load(site, slug)
  }

  /** The base host and the active domains of the link's tenant. */
  function FanOut(cfg: Config, site: Site, tenantID: Option<int>): set<string> {
    {cfg.base} + set d | d in site.domains && site.domains[d].active && Some(site.domains[d].tenantID) == tenantID
  }

  function TenantSlugs(site: Site, tenantID: int): set<string> {
    set s | s in site.links && site.links[s].live && site.links[s].link.tenantID == Some(tenantID)
  }

  function KeysOf(hosts: set<string>, slugs: set<string>): set<string> {
    set h, s | h in hosts && s in slugs :: Key(h, s)
  }

  /** A link write followed by invalidation on every host of the link. */
  function WriteLink(cfg: Config, site: Site, row: Row): Site {
    var s := site.(links := site.links[row.link.slug := row]);
    s.(cache := s.cache - KeysOf(FanOut(cfg, s, row.link.tenantID), {row.link.slug}))
  }

  /** A domain write followed by invalidation of all live links of its tenant on it. */
  function WriteDomain(site: Site, d: string, domains: map<string, Domain>, tenantID: int): Site {
    Site(site.links, domains, site.cache - KeysOf({d}, TenantSlugs(site, tenantID)))
  }

  predicate Enabled(cfg: Config, site: Site, step: Step) {
    match step
    case Resolve(h, slug, readable, stored) => ServedAt(cfg, site, h)
    case Evict(_) => true
    case Corrupt(_, c) => c.version != SCHEMA_VERSION
    case Create(l) => l.slug !in site.links
    case Change(l) =>
      Live(site, l.slug) && l.id == site.links[l.slug].link.id && l.tenantID == site.links[l.slug].link.tenantID
    case Delete(slug) => Live(site, slug)
    case Count(slug) => Live(site, slug)
    case AddDomain(d) => d !in site.domains && PlainHost(d)
    case Activate(d) => d in site.domains
    case Deactivate(d) => d in site.domains
    case SetNotFound(d, _) => d in site.domains
    case RemoveDomain(d) => d in site.domains
  }

  function Apply(cfg: Config, site: Site, step: Step): Site
    requires Enabled(cfg, site, step)
  {
    match step
    case Resolve(h, slug, readable, stored) =>
      var l := Load(site, slug);
      if (readable && Readable(site.cache, Key(h, slug))) || l == None || !stored then site
      else
        var c := FromLink(l.value);
        if c == None then site else site.(cache := site.cache[Key(h, slug) := c.value])
    case Evict(key) => site.(cache := site.cache - {key})
    case Corrupt(key, c) => site.(cache := site.cache[key := c])
    case Create(l) => WriteLink(cfg, site, Row(l, true))
    case Change(l) => WriteLink(cfg, site, Row(l, true))
    case Delete(slug) => WriteLink(cfg, site, site.links[slug].(live := false))
    case Count(slug) =>
      var row := site.links[slug];
      site.(links := site.links[slug := row.(link := row.link.(clicks := row.link.clicks + 1))])
    case AddDomain(d) => site.(domains := site.domains[d := Domain(cfg.owner(d), false, "")])
    case Activate(d) =>
      WriteDomain(site, d, site.domains[d := site.domains[d].(active := true)], site.domains[d].tenantID)
    case Deactivate(d) =>
      WriteDomain(site, d, site.domains[d := site.domains[d].(active := false)], site.domains[d].tenantID)
    case SetNotFound(d, url) =>
      WriteDomain(site, d, site.domains[d := site.domains[d].(notFoundURL := url)], site.domains[d].tenantID)
    case RemoveDomain(d) =>
      WriteDomain(site, d, site.domains - {d}, site.domains[d].tenantID)
  }

  // ---- the invariant ----

  /** An entry at a host that answers for its link is the stored link's, and the host is in use. */
  predicate EntryOK(cfg: Config, site: Site, h: string, s: string, c: Cached) {
    && s in site.links && c.tenantID == site.links[s].link.tenantID
    && (h == cfg.base || c.tenantID == Some(cfg.owner(h)) ==>
          site.links[s].live && FromLink(site.links[s].link) == Some(c) && ServedAt(cfg, site, h))
  }

  predicate SiteOK(cfg: Config, site: Site) {
    && PlainHost(cfg.base)
    && (forall d :: d in site.domains ==> PlainHost(d) && site.domains[d].tenantID == cfg.owner(d))
    && (forall s :: s in site.links ==> site.links[s].link.slug == s)
  }

  ghost predicate Inv(cfg: Config, site: Site) {
    SiteOK(cfg, site) && forall h: string, s: string :: HostEntryOK(cfg, site, h, s)
  }

  predicate HostEntryOK(cfg: Config, site: Site, h: string, s: string) {
    PlainHost(h) && Readable(site.cache, Key(h, s)) ==> EntryOK(cfg, site, h, s, site.cache[Key(h, s)])
  }

  lemma ResolveKeeps(cfg: Config, site: Site, step: Step)
    requires Inv(cfg, site) && step.Resolve? && Enabled(cfg, site, step)
    ensures Inv(cfg, Apply(cfg, site, step))
  {
    hide PlainHost, Key;
    var next := Apply(cfg, site, step);
    if next != site {
      forall h: string, s: string ensures HostEntryOK(cfg, next, h, s) {
        assert HostEntryOK(cfg, site, h, s);
        if PlainHost(h) && Key(h, s) == Key(step.h, step.slug) {
          KeyInjective(h, s, step.h, step.slug);
        }
      }
    }
  }

  lemma CacheOnlyKeeps(cfg: Config, site: Site, step: Step)
    requires Inv(cfg, site) && (step.Evict? || step.Corrupt?) && Enabled(cfg, site, step)
    ensures Inv(cfg, Apply(cfg, site, step))
  {
    hide PlainHost, Key;
    var next := Apply(cfg, site, step);
    forall h: string, s: string ensures HostEntryOK(cfg, next, h, s) {
      assert HostEntryOK(cfg, site, h, s);
    }
  }

  /** An invalidated key is gone, whatever else happened. */
  lemma KeyGone(h: string, s: string, hosts: set<string>, slugs: set<string>)
    requires h in hosts && s in slugs
    ensures Key(h, s) in KeysOf(hosts, slugs)
  {
  }

  /** Writing a link and invalidating it: entries of other slugs are as good as before, and entries of this
      one are left only on hosts that do not answer for it. */
  lemma WriteLinkKeeps(cfg: Config, site: Site, row: Row)
    requires Inv(cfg, site)
    requires row.link.slug in site.links ==> row.link.tenantID == site.links[row.link.slug].link.tenantID
    ensures Inv(cfg, WriteLink(cfg, site, row))
  {
    hide PlainHost, Key, KeysOf, FromLink;
    var next, slug := WriteLink(cfg, site, row), row.link.slug;
    forall h: string, s: string ensures HostEntryOK(cfg, next, h, s) {
      assert HostEntryOK(cfg, site, h, s);
      if s == slug && h in FanOut(cfg, next, row.link.tenantID) {
        KeyGone(h, s, FanOut(cfg, next, row.link.tenantID), {slug});
      }
    }
  }

  lemma CountKeeps(cfg: Config, site: Site, slug: string)
    requires Inv(cfg, site) && Enabled(cfg, site, Count(slug))
    ensures Inv(cfg, Apply(cfg, site, Count(slug)))
  {
    hide PlainHost, Key;
    var next := Apply(cfg, site, Count(slug));
    forall h: string, s: string ensures HostEntryOK(cfg, next, h, s) {
      assert HostEntryOK(cfg, site, h, s);
    }
  }

  /** Writing a domain and invalidating it: its own tenant's entries on it are gone, those on other hosts are
      untouched. */
  lemma WriteDomainKeeps(cfg: Config, site: Site, d: string, domains: map<string, Domain>)
    requires Inv(cfg, site) && d in site.domains
    requires forall other :: other in domains ==> PlainHost(other) && domains[other].tenantID == cfg.owner(other)
    requires forall other :: other != d ==>
      (other in domains <==> other in site.domains) && (other in domains ==> domains[other] == site.domains[other])
    ensures Inv(cfg, WriteDomain(site, d, domains, site.domains[d].tenantID))
  {
    hide PlainHost, Key, KeysOf, FromLink;
    var tenantID := site.domains[d].tenantID;
    var next := WriteDomain(site, d, domains, tenantID);
    forall h: string, s: string ensures HostEntryOK(cfg, next, h, s) {
      assert HostEntryOK(cfg, site, h, s);
      if h == d && s in TenantSlugs(site, tenantID) {
        KeyGone(h, s, {d}, TenantSlugs(site, tenantID));
      }
    }
  }

  lemma AddDomainKeeps(cfg: Config, site: Site, d: string)
    requires Inv(cfg, site) && Enabled(cfg, site, AddDomain(d))
    ensures Inv(cfg, Apply(cfg, site, AddDomain(d)))
  {
    hide PlainHost, Key;
    var next := Apply(cfg, site, AddDomain(d));
    forall h: string, s: string ensures HostEntryOK(cfg, next, h, s) {
      assert HostEntryOK(cfg, site, h, s);
    }
  }

  lemma StepKeepsInv(cfg: Config, site: Site, step: Step)
    requires Inv(cfg, site) && Enabled(cfg, site, step)
    ensures Inv(cfg, Apply(cfg, site, step))
  {
    hide Inv, PlainHost;
    match step {
      case Resolve(_, _, _, _) => ResolveKeeps(cfg, site, step);
      case Evict(_) => CacheOnlyKeeps(cfg, site, step);
      case Corrupt(_, _) => CacheOnlyKeeps(cfg, site, step);
      case Create(l) => WriteLinkKeeps(cfg, site, Row(l, true));
      case Change(l) => WriteLinkKeeps(cfg, site, Row(l, true));
      case Delete(slug) =>
        SlugsMatch(cfg, site, slug);
        WriteLinkKeeps(cfg, site, site.links[slug].(live := false));
      case Count(slug) => CountKeeps(cfg, site, slug);
      case AddDomain(d) => AddDomainKeeps(cfg, site, d);
      case _ =>
        DomainsMatch(cfg, site);
        WriteDomainKeeps(cfg, site, step.d, Apply(cfg, site, step).domains);
    }
  }

  lemma SlugsMatch(cfg: Config, site: Site, slug: string)
    requires Inv(cfg, site) && slug in site.links
    ensures site.links[slug].link.slug == slug
  {
  }

  lemma DomainsMatch(cfg: Config, site: Site)
    requires Inv(cfg, site)
    ensures forall d :: d in site.domains ==> PlainHost(d) && site.domains[d].tenantID == cfg.owner(d)
  {
  }

  predicate IsRun(cfg: Config, site: Site, steps: seq<Step>)
    decreases |steps|, 0
  {
    steps == [] ||
    (IsRun(cfg, site, steps[..|steps| - 1]) && Enabled(cfg, After(cfg, site, steps[..|steps| - 1]), steps[|steps| - 1]))
  }

  function After(cfg: Config, site: Site, steps: seq<Step>): Site
    requires IsRun(cfg, site, steps)
    decreases |steps|, 1
  {
    if steps == [] then site else Apply(cfg, After(cfg, site, steps[..|steps| - 1]), steps[|steps| - 1])
  }

  lemma {:induction false} RunKeepsInv(cfg: Config, site: Site, steps: seq<Step>)
    requires Inv(cfg, site) && IsRun(cfg, site, steps)
    ensures Inv(cfg, After(cfg, site, steps))
  {
    hide Inv;
    if steps != [] {
      RunKeepsInv(cfg, site, steps[..|steps| - 1]);
      StepKeepsInv(cfg, After(cfg, site, steps[..|steps| - 1]), steps[|steps| - 1]);
    }
  }

  // ---- what a redirect sees ----

  /** The answer on a host: `domain` is the active domain, or None on the base host. */
  function Respond(domain: Option<Domain>, found: Option<Link>, r: Request, now: Time, libs: Libs, track: Tracker)
    : (Answer, Option<ClickEvent>)
  {
    match found
    case None =>
      if domain.Some? && domain.value.notFoundURL != "" then (To(domain.value.notFoundURL, 302), None)
      else (NotFound, None)
    case Some(l) =>
      if domain.Some? && l.tenantID != Some(domain.value.tenantID) then (NotFound, None)
      else Visit(l, r, now, libs, track)
  }

  /** Without a link a domain answers with its not-found URL, if it has one, and else 404. A domain of another tenant
      than the link's gives 404. Everywhere else the link answers. */
  lemma RespondReads(
      domain: Option<Domain>, found: Option<Link>, r: Request, now: Time, libs: Libs, track: Tracker)
    ensures found == None && (domain == None || domain.value.notFoundURL == "") ==>
      Respond(domain, found, r, now, libs, track) == (NotFound, None)
    ensures found == None && domain.Some? && domain.value.notFoundURL != "" ==>
      Respond(domain, found, r, now, libs, track) == (To(domain.value.notFoundURL, 302), None)
    ensures found.Some? && domain.Some? && found.value.tenantID != Some(domain.value.tenantID) ==>
      Respond(domain, found, r, now, libs, track) == (NotFound, None)
    ensures found.Some? && (domain.Some? ==> found.value.tenantID == Some(domain.value.tenantID)) ==>
      Respond(domain, found, r, now, libs, track) == Visit(found.value, r, now, libs, track)
  {
    hide Visit;
  }

  function DomainAt(cfg: Config, site: Site, h: string): Option<Domain> {
    if h != cfg.base && h in site.domains then Some(site.domains[h]) else None
  }

  /** A hit for a link that has since been deleted. */
  predicate Outlived(site: Site, h: string, slug: string, readable: bool) {
    readable && Readable(site.cache, Key(h, slug)) && !Live(site, slug)
  }

  /** In every run from a coherent site, whatever is hit, missed, evicted or unreadable, a redirect answers and
      records exactly as a direct load would. The only exception is a foreign domain, one of another tenant
      than the link's: there a deleted link that is still cached gives 404 instead of the domain's not-found
      redirect, if it has one. */
  lemma CacheIsInvisible(
      cfg: Config, start: Site, steps: seq<Step>, h: string, slug: string, readable: bool,
      r: Request, now: Time, libs: Libs, track: Tracker)
    requires Inv(cfg, start) && IsRun(cfg, start, steps) && ServedAt(cfg, After(cfg, start, steps), h)
    ensures var site := After(cfg, start, steps);
            var domain := DomainAt(cfg, site, h);
            Respond(domain, Resolved(site, h, slug, readable), r, now, libs, track)
              != Respond(domain, Load(site, slug), r, now, libs, track)
            <==> Outlived(site, h, slug, readable) && domain.Some? && domain.value.notFoundURL != ""
    ensures var site := After(cfg, start, steps);
            Outlived(site, h, slug, readable) ==>
              slug in site.links && h != cfg.base && site.links[slug].link.tenantID != Some(site.domains[h].tenantID)
  {
    RunKeepsInv(cfg, start, steps);
    var site := After(cfg, start, steps);
    hide After, IsRun, Visit, PlainHost, Key;
    assert HostEntryOK(cfg, site, h, slug);
    if readable && Readable(site.cache, Key(h, slug)) {
      HitAnswers(cfg, site, h, DomainAt(cfg, site, h), slug, r, now, libs, track);
    }
  }

  lemma HitAnswers(
      cfg: Config, site: Site, h: string, domain: Option<Domain>, slug: string, r: Request, now: Time, libs: Libs,
      track: Tracker)
    requires Inv(cfg, site) && ServedAt(cfg, site, h) && Readable(site.cache, Key(h, slug))
    requires domain.Some? ==> h in site.domains && domain.value == site.domains[h]
    requires h != cfg.base ==> domain.Some?
    ensures var hit := LinkOf(site.cache[Key(h, slug)]);
            && slug in site.links
            && (Respond(domain, hit, r, now, libs, track) != Respond(domain, Load(site, slug), r, now, libs, track)
                <==> !Live(site, slug) && domain.Some? && domain.value.notFoundURL != "")
            && (!Live(site, slug) ==> h != cfg.base && site.links[slug].link.tenantID != Some(site.domains[h].tenantID))
  {
    assert HostEntryOK(cfg, site, h, slug);
    var c, l := site.cache[Key(h, slug)], site.links[slug].link;
    hide PlainHost, Key, Visit, FromLink;
    if h == cfg.base || c.tenantID == Some(cfg.owner(h)) {
      CacheKeepsVisits(l, l.clicks, r, now, libs, track);
      assert l.(clicks := l.clicks) == l;
    }
  }

  /** The empty site is coherent. */
  lemma EmptySite(cfg: Config)
    requires PlainHost(cfg.base)
    ensures Inv(cfg, Site(map[], map[], map[]))
  {
  }

  // ---- where coherence ends ----

  /** A link is never removed and never changes its tenant. */
  lemma {:induction false} LinkStays(cfg: Config, site: Site, steps: seq<Step>, slug: string)
    requires Inv(cfg, site) && IsRun(cfg, site, steps) && slug in site.links
    ensures slug in After(cfg, site, steps).links
    ensures After(cfg, site, steps).links[slug].link.tenantID == site.links[slug].link.tenantID
  {
    if steps != [] {
      var front := steps[..|steps| - 1];
      LinkStays(cfg, site, front, slug);
      RunKeepsInv(cfg, site, front);
      StepKeepsLink(cfg, After(cfg, site, front), steps[|steps| - 1], slug);
    }
  }

  lemma StepKeepsLink(cfg: Config, site: Site, step: Step, slug: string)
    requires Inv(cfg, site) && Enabled(cfg, site, step) && slug in site.links
    ensures slug in Apply(cfg, site, step).links
    ensures Apply(cfg, site, step).links[slug].link.tenantID == site.links[slug].link.tenantID
  {
    hide PlainHost, Key, HostEntryOK, KeysOf, FanOut, TenantSlugs;
  }

  /** The host answers for the link: the base host, or a domain of the link's tenant. */
  predicate AnswersFor(cfg: Config, h: string, l: Link) {
    h == cfg.base || l.tenantID == Some(cfg.owner(h))
  }

  /** Loading and storing are one step above. If any run of other steps comes between the load and the store of
      what was loaded, on any host that was served at the load, the site stays coherent exactly when the host does
      not answer for the link, or the link is still live, nothing that is cached of it changed, and the host is
      still served. */
  lemma LateStore(cfg: Config, start: Site, between: seq<Step>, h: string, slug: string, was: Link)
    requires Inv(cfg, start) && IsRun(cfg, start, between) && ServedAt(cfg, start, h)
    requires Load(start, slug) == Some(was) && FromLink(was).Some?
    ensures var next := After(cfg, start, between);
            Inv(cfg, next.(cache := next.cache[Key(h, slug) := FromLink(was).value]))
            <==> (AnswersFor(cfg, h, was) ==>
                    Load(next, slug).Some? && FromLink(Load(next, slug).value) == FromLink(was) &&
                    ServedAt(cfg, next, h))
  {
    var next, c := After(cfg, start, between), FromLink(was).value;
    RunKeepsInv(cfg, start, between);
    LinkStays(cfg, start, between, slug);
    hide After, IsRun, PlainHost, Key;
    StoreKeeps(cfg, next, h, slug, c);
  }

  /** What the late store of a link that was deleted meanwhile shows on a host that answers for it: every visit
      that hits the entry gets an answer of the deleted link, never that of a direct load. */
  lemma LateStoreShows(
      cfg: Config, start: Site, between: seq<Step>, h: string, slug: string, was: Link,
      r: Request, now: Time, libs: Libs, track: Tracker)
    requires Inv(cfg, start) && IsRun(cfg, start, between) && ServedAt(cfg, start, h)
    requires Load(start, slug) == Some(was) && FromLink(was).Some? && AnswersFor(cfg, h, was)
    requires ServedAt(cfg, After(cfg, start, between), h) && Load(After(cfg, start, between), slug) == None
    ensures var next := After(cfg, start, between);
            var late := next.(cache := next.cache[Key(h, slug) := FromLink(was).value]);
            var domain := DomainAt(cfg, late, h);
            && Respond(domain, Resolved(late, h, slug, true), r, now, libs, track) == Visit(was, r, now, libs, track)
            && Respond(domain, Resolved(late, h, slug, true), r, now, libs, track)
                 != Respond(domain, Load(late, slug), r, now, libs, track)
  {
    RunKeepsInv(cfg, start, between);
    CacheKeepsVisits(was, was.clicks, r, now, libs, track);
    assert was.(clicks := was.clicks) == was;
    hide After, IsRun, PlainHost, Key, FromLink, LinkOf, Visit;
    VisitIsNoLoad(was, r, now, libs, track);
  }

  /** A visit to a link is neither a plain 404 nor a redirect without an event. */
  lemma VisitIsNoLoad(l: Link, r: Request, now: Time, libs: Libs, track: Tracker)
    ensures var v := Visit(l, r, now, libs, track); v != (NotFound, None) && forall u, c :: v != (To(u, c), None)
  {
  }

  /** It happens: one link, deleted between the load and the store of a visit to the base host. */
  lemma LateStoreHappens(cfg: Config, l: Link, r: Request, now: Time, libs: Libs, track: Tracker)
    requires PlainHost(cfg.base) && FromLink(l).Some?
    ensures var empty := Site(map[], map[], map[]);
            && IsRun(cfg, empty, [Create(l)])
            && var start := After(cfg, empty, [Create(l)]);
            && Load(start, l.slug) == Some(l) && IsRun(cfg, start, [Delete(l.slug)])
            && var next := After(cfg, start, [Delete(l.slug)]);
            && var late := next.(cache := next.cache[Key(cfg.base, l.slug) := FromLink(l).value]);
            && !Inv(cfg, late)
            && Respond(None, Load(late, l.slug), r, now, libs, track) == (NotFound, None)
            && Respond(None, Resolved(late, cfg.base, l.slug, true), r, now, libs, track)
                 == Visit(l, r, now, libs, track)
  {
    var empty := Site(map[], map[], map[]);
    EmptySite(cfg);
    assert IsRun(cfg, empty, []) && After(cfg, empty, []) == empty;
    StepOn(cfg, empty, [], Create(l));
    assert [] + [Create(l)] == [Create(l)];
    var start := After(cfg, empty, [Create(l)]);
    RunKeepsInv(cfg, empty, [Create(l)]);
    assert IsRun(cfg, start, []) && After(cfg, start, []) == start;
    StepOn(cfg, start, [], Delete(l.slug));
    assert [] + [Delete(l.slug)] == [Delete(l.slug)];
    hide IsRun, After, PlainHost, Key, FromLink, LinkOf, Visit, Inv;
    LateStoreShows(cfg, start, [Delete(l.slug)], cfg.base, l.slug, l, r, now, libs, track);
    LateStore(cfg, start, [Delete(l.slug)], cfg.base, l.slug, l);
  }

  lemma StoreKeeps(cfg: Config, site: Site, h: string, slug: string, c: Cached)
    requires Inv(cfg, site) && PlainHost(h) && c.version == SCHEMA_VERSION
    ensures Inv(cfg, site.(cache := site.cache[Key(h, slug) := c])) <==> EntryOK(cfg, site, h, slug, c)
  {
    hide PlainHost, Key;
    var late := site.(cache := site.cache[Key(h, slug) := c]);
    if EntryOK(cfg, site, h, slug, c) {
      forall g: string, s: string ensures HostEntryOK(cfg, late, g, s) {
        assert HostEntryOK(cfg, site, g, s);
        if PlainHost(g) && Key(g, s) == Key(h, slug) {
          KeyInjective(g, s, h, slug);
        }
      }
    } else {
      assert !HostEntryOK(cfg, late, h, slug);
    }
  }

  lemma SameMiddle(a: string, x: string, y: string, b: string)
    requires a + x + b == a + y + b
    ensures x == y
  {
    assert |x| == |y|;
    assert x == (a + x + b)[|a|..|a| + |x|] && y == (a + y + b)[|a|..|a| + |y|];
  }

  /** Invalidation reaches what was cached under a host name exactly when that name normalizes to one of the
      hosts invalidated. A name that only cleaning turns into the domain is cached where nothing reaches it. */
  lemma InvalidationReaches(raw: string, slug: string, hosts: set<string>)
    requires forall h :: h in hosts ==> PlainHost(h)
    ensures Key(raw, slug) in KeysOf(hosts, {slug}) <==> NormalizeHostname(raw) in hosts
  {
    hide PREFIX, NormalizeHostname, PlainHost;
    forall h | h in hosts ensures NormalizeHostname(h) == h {
      PlainStays(h);
    }
    if Key(raw, slug) in KeysOf(hosts, {slug}) {
      var h :| h in hosts && Key(raw, slug) == Key(h, slug);
      assert PREFIX + NormalizeHostname(raw) + ":" + slug == PREFIX + NormalizeHostname(raw) + (":" + slug);
      assert PREFIX + NormalizeHostname(h) + ":" + slug == PREFIX + NormalizeHostname(h) + (":" + slug);
      SameMiddle(PREFIX, NormalizeHostname(raw), NormalizeHostname(h), ":" + slug);
    } else if NormalizeHostname(raw) in hosts {
      KeyGone(NormalizeHostname(raw), slug, hosts, {slug});
    }
  }

  // ---- the exception happens ----

  function Witness(cfg: Config, d: string, url: string, l: Link): seq<Step> {
    [AddDomain(d), Activate(d), SetNotFound(d, url), Create(l), Resolve(d, l.slug, true, true), Delete(l.slug)]
  }

  lemma StepOn(cfg: Config, site: Site, front: seq<Step>, step: Step)
    requires IsRun(cfg, site, front) && Enabled(cfg, After(cfg, site, front), step)
    ensures IsRun(cfg, site, front + [step])
    ensures After(cfg, site, front + [step]) == Apply(cfg, After(cfg, site, front), step)
  {
    assert (front + [step])[..|front + [step]| - 1] == front;
  }

  /** From the empty site on: a cacheable link of another tenant, visited on an active foreign domain with a
      not-found URL and then deleted, answers 404 there instead of that URL. */
  lemma ExceptionHappens(
      cfg: Config, d: string, url: string, l: Link, r: Request, now: Time, libs: Libs, track: Tracker)
    requires PlainHost(cfg.base) && PlainHost(d) && d != cfg.base && url != ""
    requires FromLink(l).Some? && l.tenantID != Some(cfg.owner(d))
    ensures var empty, steps := Site(map[], map[], map[]), Witness(cfg, d, url, l);
            && IsRun(cfg, empty, steps)
            && var site := After(cfg, empty, steps);
            && ServedAt(cfg, site, d) && Outlived(site, d, l.slug, true)
            && Respond(DomainAt(cfg, site, d), Resolved(site, d, l.slug, true), r, now, libs, track) == (NotFound, None)
            && Respond(DomainAt(cfg, site, d), Load(site, l.slug), r, now, libs, track) == (To(url, 302), None)
  {
    WitnessRuns(cfg, d, url, l);
    hide PlainHost, Key, Visit, FromLink;
  }

  /** Where the run ends: the entry outlives its link. */
  function WitnessEnd(cfg: Config, d: string, url: string, l: Link): Site
    requires FromLink(l).Some?
  {
    Site(map[l.slug := Row(l, false)], map[d := Domain(cfg.owner(d), true, url)],
         map[Key(d, l.slug) := FromLink(l).value])
  }

  lemma WitnessRuns(cfg: Config, d: string, url: string, l: Link)
    requires PlainHost(cfg.base) && PlainHost(d) && d != cfg.base
    requires FromLink(l).Some? && l.tenantID != Some(cfg.owner(d))
    ensures IsRun(cfg, Site(map[], map[], map[]), Witness(cfg, d, url, l))
    ensures After(cfg, Site(map[], map[], map[]), Witness(cfg, d, url, l)) == WitnessEnd(cfg, d, url, l)
  {
    var empty := Site(map[], map[], map[]);
    var s3 := Site(map[], map[d := Domain(cfg.owner(d), true, url)], map[]);
    DomainSteps(cfg, d, url);
    var front := [AddDomain(d), Activate(d), SetNotFound(d, url)];
    var s4 := s3.(links := map[l.slug := Row(l, true)]);
    var s5 := s4.(cache := map[Key(d, l.slug) := FromLink(l).value]);
    hide PlainHost, Key, IsRun, After;
    assert Apply(cfg, s3, Create(l)) == s4;
    assert Apply(cfg, s4, Resolve(d, l.slug, true, true)) == s5;
    DeleteLeaves(cfg, d, url, l, s5);
    hide Apply, WitnessEnd;
    StepOn(cfg, empty, front, Create(l));
    StepOn(cfg, empty, front + [Create(l)], Resolve(d, l.slug, true, true));
    StepOn(cfg, empty, front + [Create(l)] + [Resolve(d, l.slug, true, true)], Delete(l.slug));
    assert front + [Create(l)] + [Resolve(d, l.slug, true, true)] + [Delete(l.slug)] == Witness(cfg, d, url, l);
  }

  lemma DomainSteps(cfg: Config, d: string, url: string)
    requires PlainHost(d)
    ensures IsRun(cfg, Site(map[], map[], map[]), [AddDomain(d), Activate(d), SetNotFound(d, url)])
    ensures After(cfg, Site(map[], map[], map[]), [AddDomain(d), Activate(d), SetNotFound(d, url)])
         == Site(map[], map[d := Domain(cfg.owner(d), true, url)], map[])
  {
    var empty := Site(map[], map[], map[]);
    var s1 := Site(map[], map[d := Domain(cfg.owner(d), false, "")], map[]);
    var s2 := Site(map[], map[d := Domain(cfg.owner(d), true, "")], map[]);
    assert IsRun(cfg, empty, []) && After(cfg, empty, []) == empty;
    hide PlainHost, Key, IsRun, After;
    assert Apply(cfg, empty, AddDomain(d)) == s1;
    assert Apply(cfg, s1, Activate(d)) == s2;
    StepOn(cfg, empty, [], AddDomain(d));
    StepOn(cfg, empty, [] + [AddDomain(d)], Activate(d));
    StepOn(cfg, empty, [] + [AddDomain(d)] + [Activate(d)], SetNotFound(d, url));
    assert [] + [AddDomain(d)] + [Activate(d)] + [SetNotFound(d, url)]
        == [AddDomain(d), Activate(d), SetNotFound(d, url)];
  }

  /** Deleting the link does not reach the foreign domain. */
  lemma DeleteLeaves(cfg: Config, d: string, url: string, l: Link, site: Site)
    requires PlainHost(cfg.base) && PlainHost(d) && d != cfg.base
    requires FromLink(l).Some? && l.tenantID != Some(cfg.owner(d))
    requires site == WitnessEnd(cfg, d, url, l).(links := map[l.slug := Row(l, true)])
    ensures Apply(cfg, site, Delete(l.slug)) == WitnessEnd(cfg, d, url, l)
  {
    hide PlainHost, Key, FromLink;
    if Key(d, l.slug) == Key(cfg.base, l.slug) {
      KeyInjective(d, l.slug, cfg.base, l.slug);
    }
    var gone := site.(links := map[l.slug := Row(l, false)]);
    assert site.links[l.slug := Row(l, false)] == gone.links;
    assert FanOut(cfg, gone, l.tenantID) == {cfg.base};
    assert KeysOf({cfg.base}, {l.slug}) == {Key(cfg.base, l.slug)};
  }
}
