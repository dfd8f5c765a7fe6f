// What a visit does, said over the link's fields and the request: where it leads, what stops it, and what its
// event and its merged query hold.

module Visits {
  import opened Wrappers
  import opened Models
  import opened Text
  import opened Links
  import opened Redirect

  /** The i-th country target is the first whose country is the visitor's. */
  predicate FirstCountry(l: Link, country: string, libs: Libs, i: nat) {
    && i < |l.geoTargets| && libs.equalFold(l.geoTargets[i].country, country)
    && forall j :: 0 <= j < i ==> !libs.equalFold(l.geoTargets[j].country, country)
  }

  predicate NoCountry(l: Link, country: string, libs: Libs) {
    forall j :: 0 <= j < |l.geoTargets| ==> !libs.equalFold(l.geoTargets[j].country, country)
  }

  predicate IsApple(userAgent: string, libs: Libs) {
    exists word :: word in {"iphone", "ipad", "ipod"} && libs.contains(Lower(userAgent), word)
  }

  predicate IsAndroid(userAgent: string, libs: Libs) {
    libs.contains(Lower(userAgent), "android")
  }

  predicate ToIOS(l: Link, r: Request, libs: Libs) {
    IsApple(r.userAgent, libs) && l.iosURL != ""
  }

  predicate ToAndroid(l: Link, r: Request, libs: Libs) {
    IsAndroid(r.userAgent, libs) && l.androidURL != ""
  }

  lemma {:induction false} GeoFinds(gs: seq<GeoTarget>, country: string, libs: Libs, i: nat)
    requires i < |gs| && libs.equalFold(gs[i].country, country)
    requires forall j :: 0 <= j < i ==> !libs.equalFold(gs[j].country, country)
    ensures GeoTargetFor(gs, country, libs) == Some(gs[i].url)
  {
    if i > 0 {
      GeoFinds(gs[1..], country, libs, i - 1);
    }
  }

  lemma {:induction false} GeoMisses(gs: seq<GeoTarget>, country: string, libs: Libs)
    requires forall j :: 0 <= j < |gs| ==> !libs.equalFold(gs[j].country, country)
    ensures GeoTargetFor(gs, country, libs) == None
  {
    if gs != [] {
      GeoMisses(gs[1..], country, libs);
    }
  }

  /** Nothing stops the visit: no password is owed, and neither the time nor the click limit is reached. */
  predicate Unstopped(l: Link, r: Request, now: Time) {
    && (l.passwordProtected ==> l.id in r.access)
    && (l.expiresAt.Some? ==> now < l.expiresAt.value)
    && (l.maxClicks.Some? ==> l.clicks < l.maxClicks.value)
  }

  /** The visit leads to `url`, with the merged query, and is recorded under this route. */
  ghost predicate Leads(l: Link, r: Request, now: Time, libs: Libs, track: Tracker, url: string, route: string) {
    var (answer, event) := Visit(l, r, now, libs, track);
    var target := Merged(url, l, r.query, libs);
    && event.Some? && event.value.routeType == route && event.value.statusCode == l.redirectCode
    && event.value.linkID == l.id && event.value.slug == l.slug
    && event.value.resolvedURL == libs.analyticsURL(target)
    && (track(event.value, true, l.maxClicks) == Counted ==> answer == To(target, l.redirectCode))
    && (track(event.value, true, l.maxClicks) == Failed ==> answer == TrackingFailed)
    && (track(event.value, true, l.maxClicks) == Refused ==>
          answer == if l.expiredURL != "" then To(l.expiredURL, 302) else Gone)
  }

  /** The first matching country wins; otherwise the iOS target for an Apple phone or tablet, otherwise the Android
      target for Android, if the link has it; otherwise the default target. */
  lemma VisitLeads(l: Link, r: Request, now: Time, libs: Libs, track: Tracker)
    requires Unstopped(l, r, now)
    ensures forall i: nat :: FirstCountry(l, r.country, libs, i) ==>
      Leads(l, r, now, libs, track, l.geoTargets[i].url, "country")
    ensures NoCountry(l, r.country, libs) && ToIOS(l, r, libs) ==> Leads(l, r, now, libs, track, l.iosURL, "ios")
    ensures NoCountry(l, r.country, libs) && !ToIOS(l, r, libs) && ToAndroid(l, r, libs) ==>
      Leads(l, r, now, libs, track, l.androidURL, "android")
    ensures NoCountry(l, r.country, libs) && !ToIOS(l, r, libs) && !ToAndroid(l, r, libs) ==>
      Leads(l, r, now, libs, track, l.targetURL, "default")
  {
    hide Merged, GeoTargetFor, Lower;
    forall i: nat | FirstCountry(l, r.country, libs, i)
      ensures Leads(l, r, now, libs, track, l.geoTargets[i].url, "country")
    {
      GeoFinds(l.geoTargets, r.country, libs, i);
    }
    if NoCountry(l, r.country, libs) {
      GeoMisses(l.geoTargets, r.country, libs);
    }
  }

  /** A link with a password that was not given shows its form and is not recorded; an expired one, at or after its
      time or at its click limit, gives the expired answer and is recorded as such. Neither leads to a target. */
  lemma VisitStops(l: Link, r: Request, now: Time, libs: Libs, track: Tracker)
    ensures l.passwordProtected && l.id !in r.access ==>
      Visit(l, r, now, libs, track) == (PasswordForm(l.id, l.title, l.passwordHash), None)
    ensures (l.passwordProtected ==> l.id in r.access) && !Unstopped(l, r, now) ==>
      var (answer, event) := Visit(l, r, now, libs, track);
      && answer == (if l.expiredURL != "" then To(l.expiredURL, 302) else Gone)
      && event.Some? && event.value.routeType == "expired" && event.value.statusCode == 410
      && event.value.linkID == l.id && event.value.slug == l.slug
      && event.value.resolvedURL == libs.analyticsURL(l.expiredURL)
  {
    hide Merged, ResolveTarget;
  }

  /** Where each field of an event comes from. */
  lemma EventReads(r: Request, l: Link, target: string, route: string, status: int, libs: Libs)
    ensures var e := EventFor(r, l, target, route, status, libs);
      && e.linkID == l.id && e.slug == l.slug && e.ip == r.ip && e.countryCode == r.country
      && e.httpMethod == r.verb && e.statusCode == status && e.resolvedURL == libs.analyticsURL(target)
      && e.routeType == route && e.userAgent == r.userAgent && e.referrer == r.referrer
      && e.referrerHost == libs.hostOf(r.referrer)
      && e.browser == libs.traits(r.userAgent).browser && e.os == libs.traits(r.userAgent).os
      && e.device == libs.traits(r.userAgent).device && e.isBot == libs.traits(r.userAgent).bot
    ensures var e := EventFor(r, l, target, route, status, libs);
      && (libs.parse(target) == None ==> e.utmSource == e.utmMedium == e.utmCampaign == "")
      && (libs.parse(target).Some? ==>
            var q := libs.parse(target).value.query;
            && e.utmSource == FirstOf(q, "utm_source") && e.utmMedium == FirstOf(q, "utm_medium")
            && e.utmCampaign == FirstOf(q, "utm_campaign"))
  {
  }

  /** The first value of a key, or nothing. */
  function FirstOf(q: Query, key: string): string {
    if key !in q || |q[key]| == 0 then "" else q[key][0]
  }

  /** What the merged query of a target holds for a key: the visitor's values if queries are forwarded and the visitor
      has the key, else the UTM field of the link with that name, else what the target had. */
  lemma MergeReads(l: Link, own: Query, inbound: Query, key: string)
    ensures var q := MergedQuery(l, own, inbound);
      && (l.forwardQuery && key in inbound && inbound[key] != [] ==> key in q && q[key] == inbound[key])
      && (l.forwardQuery && key in inbound && inbound[key] == [] ==> key !in q)
      && (!(l.forwardQuery && key in inbound) ==>
            && (key == "utm_source" && l.utm.source != "" ==> key in q && q[key] == [l.utm.source])
            && (key == "utm_medium" && l.utm.medium != "" ==> key in q && q[key] == [l.utm.medium])
            && (key == "utm_campaign" && l.utm.campaign != "" ==> key in q && q[key] == [l.utm.campaign])
            && (key == "utm_term" && l.utm.term != "" ==> key in q && q[key] == [l.utm.term])
            && (key == "utm_content" && l.utm.content != "" ==> key in q && q[key] == [l.utm.content])
            && (NoField(l.utm, key) ==> (key in q <==> key in own) && (key in own ==> q[key] == own[key])))
  {
  }

  /** The link sets no UTM field under this key. */
  predicate NoField(u: UTM, key: string) {
    && (key == "utm_source" ==> u.source == "") && (key == "utm_medium" ==> u.medium == "")
    && (key == "utm_campaign" ==> u.campaign == "") && (key == "utm_term" ==> u.term == "")
    && (key == "utm_content" ==> u.content == "")
  }
}
