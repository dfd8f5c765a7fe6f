// The resolver, and the handlers that write links and domains and then invalidate what is cached of them.

module RedirectCache {
  import opened Wrappers
  import opened Models
  import opened Links
  import opened LinkStore
  import opened Hosts
  import opened Redirect
  import opened Coherence

  /** The cache server. Reads and stores may fail; a failed delete may or may not have happened. */
  class Cache {
    var entries: map<string, Cached>
    /** Calls that failed. */
    ghost var faults: nat

    constructor ()
      ensures entries == map[] && faults == 0
    {
      entries, faults := map[], 0;
    }

    method Get(hostname: string, slug: string) returns (found: Option<Cached>, failed: bool)
      modifies this`faults
      ensures faults == old(faults) + if failed then 1 else 0
      ensures found.Some? ==> !failed && Key(hostname, slug) in entries && found.value == entries[Key(hostname, slug)]
      ensures found == None && !failed ==> !Readable(entries, Key(hostname, slug))
    {
      failed, found := *, None;
      faults := faults + if failed then 1 else 0;
      if !failed && Key(hostname, slug) in entries {
        found := Some(entries[Key(hostname, slug)]);
      }
    }

    method Set(hostname: string, slug: string, c: Cached) returns (failed: bool)
      modifies this
      ensures entries == old(entries)[Key(hostname, slug) := c] || (failed && entries == old(entries))
      ensures faults == old(faults) + if failed then 1 else 0
    {
      var stored: bool := *;
      failed := *;
      faults := faults + if failed then 1 else 0;
      if stored || !failed {
        entries := entries[Key(hostname, slug) := c];
      }
    }

    method Delete(hostname: string, slug: string) returns (failed: bool)
      modifies this
      ensures entries == old(entries) - {Key(hostname, slug)} || (failed && entries == old(entries))
      ensures faults == old(faults) + if failed then 1 else 0
    {
      var deleted: bool := *;
      failed := *;
      faults := faults + if failed then 1 else 0;
      if deleted || !failed {
        entries := entries - {Key(hostname, slug)};
      }
    }
  }

  datatype Counters = Counters(hits: nat, misses: nat, errors: nat, invalidations: nat)

  /** The keys an invalidation deletes: one per host whose normal form is not empty. */
  function Targets(hosts: seq<string>, slug: string): set<string> {
    if hosts == [] then {}
    else
      var h := NormalizeHostname(hosts[|hosts| - 1]);
      Targets(hosts[..|hosts| - 1], slug) + if h == "" then {} else {Key(h, slug)}
  }

  lemma NoTargets(slug: string)
    ensures Targets([], slug) == {}
  {
  }

  /** Each of n keys is counted once: as an error or as an invalidation. */
  function Tallied(m: Counters, errors: nat, n: nat): Counters
    requires errors <= n
  {
    m.(errors := m.errors + errors, invalidations := m.invalidations + (n - errors))
  }

  lemma TargetsStep(hosts: seq<string>, i: nat, slug: string)
    requires i < |hosts|
    ensures Targets(hosts[..i + 1], slug) == Targets(hosts[..i], slug) +
      if NormalizeHostname(hosts[i]) == "" then {} else {Key(NormalizeHostname(hosts[i]), slug)}
  {
    assert hosts[..i + 1][..i] == hosts[..i];
  }

  function HostSet(hosts: seq<string>): set<string> {
    if hosts == [] then {} else HostSet(hosts[..|hosts| - 1]) + {hosts[|hosts| - 1]}
  }

  lemma {:induction false} HostSetMembers(hosts: seq<string>, h: string)
    ensures h in HostSet(hosts) <==> h in hosts
  {
    if hosts != [] {
      HostSetMembers(hosts[..|hosts| - 1], h);
      assert hosts == hosts[..|hosts| - 1] + [hosts[|hosts| - 1]];
    }
  }

  /** For plain host names these are just the hosts' keys. */
  lemma {:induction false} PlainKeys(hosts: seq<string>, slug: string)
    requires forall i :: 0 <= i < |hosts| ==> PlainHost(hosts[i])
    ensures Targets(hosts, slug) == KeysOf(HostSet(hosts), {slug})
  {
    hide PlainHost, Key, NormalizeHostname, KeysOf;
    if hosts == [] {
      NoHosts(slug);
    } else {
      var last := hosts[|hosts| - 1];
      PlainStays(last);
      PlainNotEmpty(last);
      PlainKeys(hosts[..|hosts| - 1], slug);
      MoreHosts(HostSet(hosts[..|hosts| - 1]), last, slug);
    }
  }

  lemma PlainTargets(hosts: seq<string>, slug: string, all: set<string>)
    requires (forall i :: 0 <= i < |hosts| ==> PlainHost(hosts[i])) && forall h :: h in all <==> h in hosts
    ensures Targets(hosts, slug) == KeysOf(all, {slug})
  {
    hide PlainHost, KeysOf, Targets, HostSet;
    PlainKeys(hosts, slug);
    forall h: string ensures h in HostSet(hosts) <==> h in all {
      HostSetMembers(hosts, h);
    }
    assert HostSet(hosts) == all;
  }

  lemma NoHosts(slug: string)
    ensures KeysOf({}, {slug}) == {}
  {
  }

  lemma MoreHosts(hosts: set<string>, h: string, slug: string)
    ensures KeysOf(hosts + {h}, {slug}) == KeysOf(hosts, {slug}) + {Key(h, slug)}
  {
    hide Key;
  }

  lemma PlainNotEmpty(h: string)
    requires PlainHost(h)
    ensures h != ""
  {
  }

  class Resolver {
    const cache: Cache
    var metrics: Counters

    constructor (cache: Cache)
      ensures this.cache == cache && metrics == Counters(0, 0, 0, 0)
    {
      this.cache, metrics := cache, Counters(0, 0, 0, 0);
    }

    /** A readable entry if the cache gives one, else what `load` gives, which is then cached if it may be.
        Every call counts exactly one hit, miss or read error. */
    method Resolve(hostname: string, slug: string, load: Option<Link>)
      returns (link: Option<Link>, ghost readable: bool, ghost stored: bool)
      modifies this`metrics, cache
      ensures readable ==> Readable(old(cache.entries), Key(hostname, slug))
      ensures readable ==> cache.entries == old(cache.entries)
      ensures readable ==> link == LinkOf(old(cache.entries)[Key(hostname, slug)])
      ensures !readable ==> link == load
      ensures !readable && stored && load.Some? && FromLink(load.value).Some? ==>
        cache.entries == old(cache.entries)[Key(hostname, slug) := FromLink(load.value).value]
      ensures !readable && !(stored && load.Some? && FromLink(load.value).Some?) ==> cache.entries == old(cache.entries)
      ensures cache.faults == old(cache.faults) ==> (readable <==> Readable(old(cache.entries), Key(hostname, slug)))
      ensures cache.faults == old(cache.faults) && !readable && load.Some? && FromLink(load.value).Some? ==> stored
      ensures metrics.hits == old(metrics.hits) + if readable then 1 else 0
      ensures metrics.invalidations == old(metrics.invalidations)
      ensures metrics.misses == old(metrics.misses) || (!Readable(old(cache.entries), Key(hostname, slug)) && !readable)
      ensures !readable && Readable(old(cache.entries), Key(hostname, slug)) ==> metrics.errors > old(metrics.errors)
      ensures old(metrics.hits + metrics.misses + metrics.errors) < metrics.hits + metrics.misses + metrics.errors
           <= old(metrics.hits + metrics.misses + metrics.errors) + 2
    {
      hide Key;
      readable, stored := false, false;
      var found, failed := cache.Get(hostname, slug);
      if failed {
        metrics := metrics.(errors := metrics.errors + 1);
      } else if found.Some? {
        link := LinkOf(found.value);
        if link.Some? {
          metrics := metrics.(hits := metrics.hits + 1);
          readable := true;
          return;
        }
        metrics := metrics.(errors := metrics.errors + 1);
      } else {
        metrics := metrics.(misses := metrics.misses + 1);
      }
      link := load;
      if load.Some? && FromLink(load.value).Some? {
        ghost var before := cache.entries;
        var setFailed := cache.Set(hostname, slug, FromLink(load.value).value);
        stored := cache.entries == before[Key(hostname, slug) := FromLink(load.value).value];
        if setFailed {
          metrics := metrics.(errors := metrics.errors + 1);
        }
      }
    }

    /** Deletes each key once; without an error exactly the targets are gone. */
    method Invalidate(hosts: seq<string>, slug: string) returns (errors: nat)
      modifies this`metrics, cache
      ensures errors == 0 ==> cache.entries == old(cache.entries) - Targets(hosts, slug)
      ensures exists gone :: gone <= Targets(hosts, slug) && cache.entries == old(cache.entries) - gone
      ensures cache.faults == old(cache.faults) + errors
      ensures errors <= |Targets(hosts, slug)| && metrics == Tallied(old(metrics), errors, |Targets(hosts, slug)|)
    {
      hide NormalizeHostname, Key, Targets;
      var seen: set<string> := {};
      ghost var gone: set<string> := {};
      errors := 0;
      NoTargets(slug);
      assert hosts[..0] == [];
      for i := 0 to |hosts|
        invariant seen == Targets(hosts[..i], slug) && gone <= seen && (errors == 0 ==> gone == seen)
        invariant cache.entries == old(cache.entries) - gone
        invariant cache.faults == old(cache.faults) + errors
        invariant errors <= |seen| && metrics == Tallied(old(metrics), errors, |seen|)
      {
        TargetsStep(hosts, i, slug);
        var hostname := NormalizeHostname(hosts[i]);
        if hostname != "" && Key(hostname, slug) !in seen {
          var failed;
          ghost var deleted;
          failed, deleted := InvalidateOne(hostname, slug);
          MinusTwice(old(cache.entries), gone, deleted);
          seen, gone := seen + {Key(hostname, slug)}, gone + deleted;
          errors := errors + if failed then 1 else 0;
        }
      }
      assert hosts[..|hosts|] == hosts;
    }

    static lemma MinusTwice(m: map<string, Cached>, a: set<string>, b: set<string>)
      ensures (m - a) - b == m - (a + b)
    {
    }

    method InvalidateOne(hostname: string, slug: string) returns (failed: bool, ghost deleted: set<string>)
      modifies this`metrics, cache
      ensures deleted <= {Key(hostname, slug)} && cache.entries == old(cache.entries) - deleted
      ensures !failed ==> deleted == {Key(hostname, slug)}
      ensures cache.faults == old(cache.faults) + if failed then 1 else 0
      ensures metrics == if failed then old(metrics).(errors := old(metrics.errors) + 1)
                         else old(metrics).(invalidations := old(metrics.invalidations) + 1)
    {
      hide Key;
      failed := cache.Delete(hostname, slug);
      deleted := if cache.entries == old(cache.entries) - {Key(hostname, slug)} then {Key(hostname, slug)} else {};
      if failed {
        metrics := metrics.(errors := metrics.errors + 1);
      } else {
        metrics := metrics.(invalidations := metrics.invalidations + 1);
      }
    }
  }

  /** The request handlers over one store and one cache, one request at a time. */
  class Handler {
    const cfg: Config
    const resolver: Resolver
    var links: map<string, Row>
    const conn: Connection
    const checks: DomainChecks
    var domains: map<string, Domain>

    constructor (cfg: Config, resolver: Resolver, conn: Connection, checks: DomainChecks)
      requires PlainHost(cfg.base) && resolver.cache.entries == map[]
      ensures this.cfg == cfg && this.resolver == resolver && this.conn == conn && this.checks == checks
      ensures Coherent()
    {
      this.cfg, this.resolver, this.conn, this.checks := cfg, resolver, conn, checks;
      links, domains := map[], map[];
      new;
      EmptySite(cfg);
    }

    ghost function Now(): Site
      reads this, resolver.cache
    {
      Site(links, domains, resolver.cache.entries)
    }

    /** Calls of the store and of the cache that failed. */
    ghost function Faults(): nat
      reads conn, resolver.cache
    {
      conn.faults + resolver.cache.faults
    }

    ghost predicate Coherent()
      reads this, resolver.cache
    {
      Inv(cfg, Now())
    }

    /** The base host and the tenant's active domains; just the base host if they cannot be listed. */
    method RedirectHosts(tenantID: Option<int>) returns (hosts: seq<string>, complete: bool)
      modifies conn
      ensures conn.faults == old(conn.faults) + if complete then 0 else 1
      ensures complete ==> forall h :: h in hosts <==> h in FanOut(cfg, Now(), tenantID)
      ensures forall h :: h in hosts ==> h in FanOut(cfg, Now(), tenantID)
    {
      hosts := [cfg.base];
      complete := conn.Statement();
      if !complete {
        return;
      }
      var todo := domains.Keys;
      while todo != {}
        invariant todo <= domains.Keys
        invariant forall h :: h in hosts <==>
          h == cfg.base || (h in domains && h !in todo && domains[h].active && Some(domains[h].tenantID) == tenantID)
        decreases |todo|
      {
        var d :| d in todo;
        todo := todo - {d};
        if domains[d].active && Some(domains[d].tenantID) == tenantID {
          hosts := hosts + [d];
        }
      }
    }

    method InvalidateRedirect(tenantID: Option<int>, slug: string) returns (failed: bool)
      requires SiteOK(cfg, Now())
      modifies conn, resolver`metrics, resolver.cache
      ensures old(Faults()) <= Faults() && (failed <==> Faults() > old(Faults()))
      ensures !failed ==>
        resolver.cache.entries == old(resolver.cache.entries) - KeysOf(FanOut(cfg, old(Now()), tenantID), {slug})
    {
      var hosts, complete := RedirectHosts(tenantID);
      forall i | 0 <= i < |hosts| ensures PlainHost(hosts[i]) {
        assert hosts[i] in hosts;
      }
      hide PlainHost, Targets;
      if complete {
        PlainTargets(hosts, slug, FanOut(cfg, Now(), tenantID));
      }
      var errors := resolver.Invalidate(hosts, slug);
      failed := errors > 0 || !complete;
    }

    /** All live links of the tenant on one domain. */
    method InvalidateDomain(d: string, tenantID: int) returns (failed: bool)
      requires PlainHost(d)
      modifies conn, resolver`metrics, resolver.cache
      ensures old(Faults()) <= Faults() && (failed <==> Faults() > old(Faults()))
      ensures !failed ==>
        resolver.cache.entries == old(resolver.cache.entries) - KeysOf({d}, TenantSlugs(old(Now()), tenantID))
    {
      hide Targets, PlainHost, Key, KeysOf;
      var listed := conn.Statement();
      failed := !listed;
      if failed {
        return;
      }
      var slugs := TenantSlugs(Site(links, domains, resolver.cache.entries), tenantID);
      var todo := slugs;
      ghost var done: set<string> := {};
      NoSlugs(d);
      while todo != {}
        invariant todo + done == slugs && todo !! done
        invariant old(Faults()) <= Faults() && (failed <==> Faults() > old(Faults()))
        invariant !failed ==> resolver.cache.entries == old(resolver.cache.entries) - KeysOf({d}, done)
        decreases |todo|
      {
        var slug :| slug in todo;
        todo := todo - {slug};
        MoreSlugs(d, done, slug);
        Resolver.MinusTwice(old(resolver.cache.entries), KeysOf({d}, done), KeysOf({d}, {slug}));
        var slugFailed := InvalidateSlug(d, slug);
        failed := failed || slugFailed;
        done := done + {slug};
      }
    }

    method InvalidateSlug(d: string, slug: string) returns (failed: bool)
      requires PlainHost(d)
      modifies resolver`metrics, resolver.cache
      ensures !failed ==> resolver.cache.entries == old(resolver.cache.entries) - KeysOf({d}, {slug})
      ensures resolver.cache.faults >= old(resolver.cache.faults)
      ensures failed <==> resolver.cache.faults > old(resolver.cache.faults)
    {
      hide Targets, PlainHost, Key, KeysOf;
      PlainTargets([d], slug, {d});
      var errors := resolver.Invalidate([d], slug);
      failed := errors > 0;
    }

    static lemma NoSlugs(d: string)
      ensures KeysOf({d}, {}) == {}
    {
    }

    static lemma MoreSlugs(d: string, slugs: set<string>, slug: string)
      ensures KeysOf({d}, slugs + {slug}) == KeysOf({d}, slugs) + KeysOf({d}, {slug})
    {
      hide Key;
    }

    /** Writes one link and, once the store has answered, invalidates it: one step of the site, unless the answer
        or an invalidation was lost. */
    method Put(row: Row, answered: bool) returns (lost: bool)
      requires Coherent()
      requires row.link.slug in links ==> row.link.tenantID == links[row.link.slug].link.tenantID
      modifies this`links, conn, resolver`metrics, resolver.cache
      ensures links == old(links)[row.link.slug := row]
      ensures old(Faults()) <= Faults() && (lost <==> !answered || Faults() > old(Faults()))
      ensures !lost ==> Now() == WriteLink(cfg, old(Now()), row) && Coherent()
    {
      WriteLinkKeeps(cfg, Now(), row);
      SitesMatch(row);
      hide Inv, SiteOK, KeysOf;
      links := links[row.link.slug := row];
      lost := true;
      if answered {
        lost := InvalidateRedirect(row.link.tenantID, row.link.slug);
      }
    }

    lemma SitesMatch(row: Row)
      requires Coherent()
      ensures SiteOK(cfg, Site(links[row.link.slug := row], domains, resolver.cache.entries))
    {
    }

    /** `done` means that the store has the link, even if the handler was told otherwise and invalidated nothing. */
    method CreateLink(l: Link) returns (done: bool, lost: bool)
      requires Coherent()
      modifies this`links, conn, resolver`metrics, resolver.cache
      ensures done ==> l.slug !in old(links) && links == old(links)[l.slug := Row(l, true)]
      ensures !done ==> Now() == old(Now())
      ensures done && !lost ==> Now() == Apply(cfg, old(Now()), Create(l)) && Coherent()
      ensures Faults() == old(Faults()) ==> (done <==> l.slug !in old(links))
      ensures old(Faults()) <= Faults() && (lost <==> done && Faults() > old(Faults()))
    {
      hide Inv, WriteLink;
      var applied, failed := conn.Commit();
      done, lost := applied && l.slug !in links, false;
      if done {
        lost := Put(Row(l, true), !failed);
      }
    }

    /** Slug, id and tenant of a link never change. */
    method ChangeLink(l: Link) returns (done: bool, lost: bool)
      requires Coherent()
      requires l.slug in links ==> l.id == links[l.slug].link.id && l.tenantID == links[l.slug].link.tenantID
      modifies this`links, conn, resolver`metrics, resolver.cache
      ensures done ==> Live(old(Now()), l.slug) && links == old(links)[l.slug := Row(l, true)]
      ensures !done ==> Now() == old(Now())
      ensures done && !lost ==> Now() == Apply(cfg, old(Now()), Change(l)) && Coherent()
      ensures Faults() == old(Faults()) ==> (done <==> Live(old(Now()), l.slug))
      ensures old(Faults()) <= Faults() && (lost <==> done && Faults() > old(Faults()))
    {
      hide Inv, WriteLink;
      var applied, failed := conn.Commit();
      done, lost := applied && l.slug in links && links[l.slug].live, false;
      if done {
        lost := Put(Row(l, true), !failed);
      }
    }

    method DeleteLink(slug: string) returns (done: bool, lost: bool)
      requires Coherent()
      modifies this`links, conn, resolver`metrics, resolver.cache
      ensures done ==> Live(old(Now()), slug) && links == old(links)[slug := old(links)[slug].(live := false)]
      ensures !done ==> Now() == old(Now())
      ensures done && !lost ==> Now() == Apply(cfg, old(Now()), Delete(slug)) && Coherent()
      ensures Faults() == old(Faults()) ==> (done <==> Live(old(Now()), slug))
      ensures old(Faults()) <= Faults() && (lost <==> done && Faults() > old(Faults()))
    {
      var applied, failed := conn.Commit();
      done, lost := applied && slug in links && links[slug].live, false;
      if done {
        SlugsMatch(cfg, Now(), slug);
        hide Inv, WriteLink;
        lost := Put(links[slug].(live := false), !failed);
      }
    }

    /** Writes one domain and, once the store has answered, invalidates its tenant's links on it. */
    method PutDomain(d: string, after: map<string, Domain>, answered: bool) returns (lost: bool)
      requires Coherent() && d in domains
      requires forall other :: other in after ==> PlainHost(other) && after[other].tenantID == cfg.owner(other)
      requires forall other :: other != d ==>
        (other in after <==> other in domains) && (other in after ==> after[other] == domains[other])
      modifies this`domains, conn, resolver`metrics, resolver.cache
      ensures domains == after
      ensures old(Faults()) <= Faults() && (lost <==> !answered || Faults() > old(Faults()))
      ensures !lost ==> Now() == WriteDomain(old(Now()), d, after, old(domains)[d].tenantID) && Coherent()
    {
      WriteDomainKeeps(cfg, Now(), d, after);
      DomainsMatch(cfg, Now());
      hide Inv, KeysOf, PlainHost;
      var tenantID := domains[d].tenantID;
      domains := after;
      lost := true;
      if answered {
        lost := InvalidateDomain(d, tenantID);
      }
    }

    /** Adds a pending domain. A domain name stays with one tenant for good. */
    method CreateDomain(domain: string, tenantID: int) returns (done: bool)
      requires Coherent() && cfg.owner(CleanDomain(domain)) == tenantID
      modifies this`domains, conn
      ensures done ==> DomainRe(CleanDomain(domain)) && CleanDomain(domain) !in old(domains)
      ensures !done ==> Now() == old(Now())
      ensures done ==> Enabled(cfg, old(Now()), AddDomain(CleanDomain(domain)))
      ensures done ==> Now() == Apply(cfg, old(Now()), AddDomain(CleanDomain(domain))) && Coherent()
      ensures Faults() == old(Faults()) ==>
        (done <==> DomainRe(CleanDomain(domain)) && CleanDomain(domain) !in old(domains))
    {
      hide Inv, PlainHost, DomainRe, CleanDomain;
      var d := CleanDomain(domain);
      var applied, failed := conn.Commit();
      done := applied && DomainRe(d) && d !in domains;
      if done {
        CleanedIsPlain(domain);
        StepKeepsInv(cfg, Now(), AddDomain(d));
        domains := domains[d := Domain(tenantID, false, "")];
      }
    }

    method UpdateDomain(d: string, url: string) returns (done: bool, lost: bool)
      requires Coherent()
      modifies this`domains, conn, resolver`metrics, resolver.cache
      ensures done ==> d in old(domains)
      ensures !done ==> Now() == old(Now())
      ensures done && !lost ==> Now() == Apply(cfg, old(Now()), SetNotFound(d, url)) && Coherent()
      ensures Faults() == old(Faults()) ==> (done <==> d in old(domains))
      ensures old(Faults()) <= Faults() && (lost <==> done && Faults() > old(Faults()))
    {
      var applied, failed := conn.Commit();
      done, lost := applied && d in domains, false;
      if done {
        DomainsMatch(cfg, Now());
        hide Inv, WriteDomain, PlainHost;
        lost := PutDomain(d, domains[d := domains[d].(notFoundURL := url)], !failed);
      }
    }

    method SetVerified(d: string, verified: bool) returns (done: bool, lost: bool)
      requires Coherent()
      modifies this`domains, conn, resolver`metrics, resolver.cache
      ensures !done ==> Now() == old(Now())
      ensures done ==> d in old(domains)
      ensures done && !lost ==>
        Now() == Apply(cfg, old(Now()), if verified then Activate(d) else Deactivate(d)) && Coherent()
      ensures Faults() == old(Faults()) ==> (done <==> d in old(domains))
      ensures old(Faults()) <= Faults() && (lost <==> done && Faults() > old(Faults()))
    {
      var applied, failed := conn.Commit();
      done, lost := applied && d in domains, false;
      if done {
        DomainsMatch(cfg, Now());
        hide Inv, WriteDomain, PlainHost;
        lost := PutDomain(d, domains[d := domains[d].(active := verified)], !failed);
      }
    }

    method DeleteDomain(d: string) returns (done: bool, lost: bool)
      requires Coherent()
      modifies this`domains, conn, resolver`metrics, resolver.cache
      ensures done ==> d in old(domains)
      ensures !done ==> Now() == old(Now())
      ensures done && !lost ==> Now() == Apply(cfg, old(Now()), RemoveDomain(d)) && Coherent()
      ensures Faults() == old(Faults()) ==> (done <==> d in old(domains))
      ensures old(Faults()) <= Faults() && (lost <==> done && Faults() > old(Faults()))
    {
      var applied, failed := conn.Commit();
      done, lost := applied && d in domains, false;
      if done {
        DomainsMatch(cfg, Now());
        hide Inv, WriteDomain, PlainHost;
        lost := PutDomain(d, domains - {d}, !failed);
      }
    }

    /** One redirect. On a custom domain the domain must be active, and its DNS record is checked again once a
        day. Every host is answered from the entry under its own name, if it is hit, or from a
        direct load. On the hosts that invalidation covers, what is answered is what a direct load would have answered,
        with the one exception of a foreign domain's deleted link. */
    method RedirectSlug(host: string, slug: string, r: Request, now: Time, libs: Libs, track: Tracker)
      returns (answer: Answer, event: Option<ClickEvent>, ghost hit: bool, ghost stale: bool, ghost lost: bool)
      requires Coherent()
      modifies this`domains, conn, checks, resolver`metrics, resolver.cache
      ensures checks.outcomes ==
        old(checks.outcomes) + if Checked(old(domains), host) then [checks.Latest()] else []
      ensures !Serves(old(domains), host, checks.outcomes) ==> answer == NotFound && event == None
      ensures Checked(old(domains), host) && checks.Latest() == Refuted ==>
        && (Faults() == old(Faults()) ==> Steps(cfg, old(Now()), Deactivate(CleanDomain(host)), Now()))
        && (lost ==> Faults() > old(Faults()))
      ensures !(Checked(old(domains), host) && checks.Latest() == Refuted) ==>
        links == old(links) && domains == old(domains) && !lost
      ensures (host == "" || Covered(cfg, host)) && !lost ==> Coherent()
      ensures Serves(old(domains), host, checks.outcomes) ==>
        var found := Resolved(old(Now()), host, slug, hit);
        (answer, event) == Respond(DomainOf(old(domains), host), found, r, now, libs, track)
      ensures Faults() == old(Faults()) && Serves(old(domains), host, checks.outcomes) ==>
        (hit <==> Readable(old(resolver.cache.entries), Key(host, slug)))
      ensures Serves(old(domains), host, checks.outcomes) && Covered(cfg, host) ==>
        && ((answer, event) != Respond(DomainOf(old(domains), host), Load(old(Now()), slug), r, now, libs, track)
            <==> stale && HasNotFound(DomainOf(old(domains), host)))
        && (stale ==> host != cfg.base && Outlived(old(Now()), CleanDomain(host), slug, true))
    {
      hide Inv, Visit, PlainHost, Key, CleanDomain, NormalizeHostname, Apply, Respond, LinkOf, FromLink;
      answer, event, hit, stale, lost := NotFound, None, false, false, false;
      var domain: Option<Domain> := None;
      if host != "" && host != cfg.base {
        var d := CleanDomain(host);
        if d !in domains || !domains[d].active {
          return;
        }
        var check := checks.Daily(d);
        if check == Refuted {
          var done;
          done, lost := SetVerified(d, false);
          return;
        }
        if check == NotRenewed {
          return;
        }
        domain := Some(domains[d]);
      }
      answer, event, hit, stale := Serve(host, domain, slug, r, now, libs, track);
    }

    /** Without a host header, or on the base host. */
    predicate OnOwnHost(host: string) {
      host == "" || host == cfg.base
    }

    /** The base host is always served, a custom domain exactly if it is registered and active and its check was not
        due, or passed and was stored. */
    predicate Serves(domains: map<string, Domain>, host: string, outcomes: seq<Check>) {
      OnOwnHost(host) ||
      (Checked(domains, host) && outcomes != [] && outcomes[|outcomes| - 1] in {NotDue, Passed})
    }

    /** A registered and active custom domain has its check. */
    predicate Checked(domains: map<string, Domain>, host: string) {
      !OnOwnHost(host) && CleanDomain(host) in domains && domains[CleanDomain(host)].active
    }

    function DomainOf(domains: map<string, Domain>, host: string): Option<Domain> {
      if OnOwnHost(host) || CleanDomain(host) !in domains then None else Some(domains[CleanDomain(host)])
    }

    /** Resolves and answers on a host that is served. */
    method Serve(host: string, domain: Option<Domain>, slug: string, r: Request, now: Time, libs: Libs, track: Tracker)
      returns (answer: Answer, event: Option<ClickEvent>, ghost hit: bool, ghost stale: bool)
      requires Coherent()
      requires host == "" || host == cfg.base ==> domain == None
      requires host != "" && host != cfg.base ==>
        CleanDomain(host) in domains && domains[CleanDomain(host)].active && domain == Some(domains[CleanDomain(host)])
      modifies resolver`metrics, resolver.cache
      ensures Faults() == old(Faults()) ==> (hit <==> Readable(old(resolver.cache.entries), Key(host, slug)))
      ensures host == "" || Covered(cfg, host) ==> Coherent()
      ensures (answer, event) == Respond(domain, Resolved(old(Now()), host, slug, hit), r, now, libs, track)
      ensures Covered(cfg, host) ==>
        && ((answer, event) != Respond(domain, Load(old(Now()), slug), r, now, libs, track)
            <==> stale && HasNotFound(domain))
        && (stale ==> host != cfg.base && Outlived(old(Now()), CleanDomain(host), slug, true))
    {
      hide Inv, Visit, PlainHost, Key, CleanDomain, NormalizeHostname, FromLink, LinkOf;
      NoEmptyBase(cfg, Now());
      ghost var before := Now();
      var load := if slug in links && links[slug].live then Some(links[slug].link) else None;
      var found;
      ghost var stored;
      found, hit, stored := resolver.Resolve(host, slug, load);
      var outcome := Respond(domain, found, r, now, libs, track);
      answer, event := outcome.0, outcome.1;
      stale := hit && !Live(before, slug);
      if host == "" {
        if before != Now() {
          StoreNowhere(cfg, before, slug, FromLink(load.value).value);
        }
      } else if Covered(cfg, host) {
        ghost var h := if host == cfg.base then host else CleanDomain(host);
        HostKey(cfg, before, host, slug);
        StepKeepsInv(cfg, before, Resolve(h, slug, hit, stored));
        if hit {
          HitAnswers(cfg, before, h, domain, slug, r, now, libs, track);
        }
      }
    }
  }

  /** The daily check of a custom domain: not due; due, passed and stored; due and failed; or passed, but not stored. */
  datatype Check = NotDue | Passed | Refuted | NotRenewed

  /** DNS, the clock, and the statement that renews a verification. */
  class DomainChecks {
    ghost var outcomes: seq<Check>

    constructor ()
      ensures outcomes == []
    {
      outcomes := [];
    }

    method Daily(d: string) returns (check: Check)
      modifies this
      ensures outcomes == old(outcomes) + [check]
    {
      check := *;
      outcomes := outcomes + [check];
    }

    ghost function Latest(): Check
      reads this
    {
      if outcomes == [] then NotDue else outcomes[|outcomes| - 1]
    }
  }

  predicate HasNotFound(domain: Option<Domain>) {
    domain.Some? && domain.value.notFoundURL != ""
  }

  ghost predicate Steps(cfg: Config, before: Site, step: Step, after: Site) {
    Enabled(cfg, before, step) && after == Apply(cfg, before, step)
  }

  /** Host names the transparency of the cache covers. Without a host header the redirect is served like on the
      base host, but cached under a key of its own that no invalidation reaches. */
  predicate Covered(cfg: Config, host: string) {
    host == cfg.base || (host != "" && Regular(host))
  }

  lemma NoEmptyBase(cfg: Config, site: Site)
    requires Inv(cfg, site)
    ensures cfg.base != ""
  {
  }

  /** The key of the empty host is no plain host's key. */
  lemma StoreNowhere(cfg: Config, site: Site, slug: string, c: Cached)
    requires Inv(cfg, site)
    ensures Inv(cfg, site.(cache := site.cache[Key("", slug) := c]))
  {
    hide PlainHost, Key, EntryOK;
    var next := site.(cache := site.cache[Key("", slug) := c]);
    forall h: string, s: string ensures HostEntryOK(cfg, next, h, s) {
      assert HostEntryOK(cfg, site, h, s);
      if PlainHost(h) {
        EmptyHostKey(slug, h, s);
        SameEntry(cfg, site, next, h, s);
      }
    }
  }

  lemma SameEntry(cfg: Config, site: Site, next: Site, h: string, s: string)
    requires next.links == site.links && next.domains == site.domains
    ensures forall c :: EntryOK(cfg, site, h, s, c) <==> EntryOK(cfg, next, h, s, c)
  {
  }

  /** A regular host that is served has the cache key of the domain it stands for. */
  lemma HostKey(cfg: Config, site: Site, host: string, slug: string)
    requires Inv(cfg, site) && Covered(cfg, host)
    requires host != cfg.base ==> CleanDomain(host) in site.domains
    ensures host != cfg.base ==> Key(host, slug) == Key(CleanDomain(host), slug)
  {
    hide Key;
    if host != cfg.base {
      RegularKey(host, slug);
    }
  }
}
