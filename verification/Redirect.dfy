// What a redirect answers: the password gate, expiry, country and device routing, the query merge, and the
// analytics event, all as functions of the link, the request and the time.

module Redirect {
  import opened Wrappers
  import opened Models
  import opened Text
  import opened Links
  import opened LinkStore

  /** url.Values */
  type Query = map<string, seq<string>>

  /** A parsed destination: all but its query, and its query. */
  datatype Dest = Dest(rest: string, query: Query)

  /** Libraries, as functions: URL parsing and printing, case folding, and the client traits of a user agent. */
  datatype Libs = Libs(
    parse: string -> Option<Dest>, render: Dest -> string, equalFold: (string, string) -> bool,
    contains: (string, string) -> bool, traits: string -> Traits, hostOf: string -> string,
    analyticsURL: string -> string)

  datatype Traits = Traits(browser: string, os: string, device: string, bot: bool)

  /** A visit. `access` holds the links whose password the visitor has already given. */
  datatype Request = Request(
    verb: string, country: string, userAgent: string, query: Query, referrer: string, ip: string, access: set<int>)

  datatype Answer =
    | NotFound
    | To(url: string, code: int)
    | Gone
    | PasswordForm(id: int, title: string, hash: string)
    | TrackingFailed

  datatype Tracked = Counted | Refused | Failed

  // ---- routing ----

  predicate LinkExpired(l: Link, now: Time) {
    (l.expiresAt.Some? && now >= l.expiresAt.value) || (l.maxClicks.Some? && l.clicks >= l.maxClicks.value)
  }

  function GeoTargetFor(gs: seq<GeoTarget>, country: string, libs: Libs): Option<string> {
    if gs == [] then None
    else if libs.equalFold(gs[0].country, country) then Some(gs[0].url)
    else GeoTargetFor(gs[1..], country, libs)
  }

  /** The target and the route that chose it. */
  function ResolveTarget(l: Link, country: string, userAgent: string, libs: Libs): (string, string) {
    var geo := GeoTargetFor(l.geoTargets, country, libs);
    var ua := Lower(userAgent);
    if geo.Some? then (geo.value, "country")
    else if
      (libs.contains(ua, "iphone") || libs.contains(ua, "ipad") || libs.contains(ua, "ipod")) && l.iosURL != ""
    then
      (l.iosURL, "ios")
    else if libs.contains(ua, "android") && l.androidURL != "" then (l.androidURL, "android")
    else (l.targetURL, "default")
  }

  // ---- the query merge ----

  function UTMFields(u: UTM): map<string, string> {
    map["utm_source" := u.source, "utm_medium" := u.medium, "utm_campaign" := u.campaign,
        "utm_term" := u.term, "utm_content" := u.content]
  }

  predicate SetsUTM(u: UTM, key: string) {
    key in UTMFields(u) && UTMFields(u)[key] != ""
  }

  predicate Forwards(l: Link, inbound: Query, key: string) {
    l.forwardQuery && key in inbound
  }

  /** Whose value a key takes: the visitor's if queries are forwarded, else the link's UTM field, else the
      destination's own. A key without values does not occur. */
  function MergedValue(l: Link, own: Query, inbound: Query, key: string): seq<string> {
    if Forwards(l, inbound, key) then inbound[key]
    else if SetsUTM(l.utm, key) then [UTMFields(l.utm)[key]]
    else if key in own then own[key]
    else []
  }

  predicate MergedKey(l: Link, own: Query, inbound: Query, key: string) {
    if Forwards(l, inbound, key) then inbound[key] != [] else SetsUTM(l.utm, key) || key in own
  }

  function MergedQuery(l: Link, own: Query, inbound: Query): Query {
    map key | key in own.Keys + UTMFields(l.utm).Keys + inbound.Keys && MergedKey(l, own, inbound, key) ::
      MergedValue(l, own, inbound, key)
  }

  function Merged(raw: string, l: Link, inbound: Query, libs: Libs): string {
    match libs.parse(raw)
    case None => raw
    case Some(d) => libs.render(d.(query := MergedQuery(l, d.query, inbound)))
  }

  /** The loops over two maps, each in an arbitrary order. */
  method MergeTargetQuery(raw: string, l: Link, inbound: Query, libs: Libs) returns (merged: string)
    ensures merged == Merged(raw, l, inbound, libs)
  {
    var destination := libs.parse(raw);
    if destination == None {
      return raw;
    }
    var own := destination.value.query;
    var query := SetUTM(own, l.utm);
    if l.forwardQuery {
      query := Forward(query, inbound);
    }
    MergeIsMerged(l, own, inbound, query);
    merged := libs.render(destination.value.(query := query));
  }

  /** Sets the link's non-empty UTM fields. */
  method SetUTM(own: Query, u: UTM) returns (query: Query)
    ensures forall key :: key in query <==> key in own || SetsUTM(u, key)
    ensures forall key :: key in query ==> query[key] == if SetsUTM(u, key) then [UTMFields(u)[key]] else own[key]
  {
    query := own;
    var fields := UTMFields(u);
    var todo := fields.Keys;
    while todo != {}
      invariant todo <= fields.Keys
      invariant forall key :: key in query <==> key in own || (SetsUTM(u, key) && key !in todo)
      invariant forall key :: key in query ==>
        query[key] == if SetsUTM(u, key) && key !in todo then [fields[key]] else own[key]
      decreases |todo|
    {
      hide UTMFields;
      var key :| key in todo;
      todo := todo - {key};
      if fields[key] != "" {
        query := query[key := [fields[key]]];
      }
    }
  }

  /** Deletes every inbound key and adds its values again. */
  method Forward(before: Query, inbound: Query) returns (query: Query)
    ensures forall key :: key in query <==> if key in inbound then inbound[key] != [] else key in before
    ensures forall key :: key in query ==> query[key] == if key in inbound then inbound[key] else before[key]
  {
    query := before;
    var todo := inbound.Keys;
    while todo != {}
      invariant todo <= inbound.Keys
      invariant forall key :: key in query <==>
        if key in inbound && key !in todo then inbound[key] != [] else key in before
      invariant forall key :: key in query ==>
        query[key] == if key in inbound && key !in todo then inbound[key] else before[key]
      decreases |todo|
    {
      var key :| key in todo;
      todo := todo - {key};
      query := query - {key};
      var values := inbound[key];
      for i := 0 to |values|
        invariant forall k :: k in query <==>
          if k == key then i > 0 else if k in inbound && k !in todo then inbound[k] != [] else k in before
        invariant forall k :: k in query ==>
          query[k] == if k == key then values[..i] else if k in inbound && k !in todo then inbound[k] else before[k]
      {
        var current := if key in query then query[key] else [];
        assert values[..i + 1] == values[..i] + [values[i]];
        query := query[key := current + [values[i]]];
      }
      assert values[..|values|] == values;
    }
  }

  lemma MergeIsMerged(l: Link, own: Query, inbound: Query, query: Query)
    requires forall key :: key in query <==> MergedKey(l, own, inbound, key)
    requires forall key :: key in query ==> query[key] == MergedValue(l, own, inbound, key)
    ensures query == MergedQuery(l, own, inbound)
  {
    hide UTMFields;
  }

  // ---- the answer ----

  /** The analytics event, without its generated id and its timestamp. */
  function EventFor(r: Request, l: Link, target: string, route: string, status: int, libs: Libs): ClickEvent {
    var t := libs.traits(r.userAgent);
    var values := match libs.parse(target) case Some(d) => d.query case None => map[];
    ClickEvent("", l.id, l.slug, r.ip, r.country, r.verb, status, libs.analyticsURL(target), route, r.userAgent,
               t.browser, t.os, t.device, t.bot, r.referrer, libs.hostOf(r.referrer),
               First(values, "utm_source"), First(values, "utm_medium"), First(values, "utm_campaign"), None, false)
  }

  /** url.Values.Get */
  function First(q: Query, key: string): string {
    if key in q && q[key] != [] then q[key][0] else ""
  }

  function ExpiredAnswer(l: Link): Answer {
    if l.expiredURL != "" then To(l.expiredURL, 302) else Gone
  }

  /** Recording a click: the event, whether it counts, and the limit it must respect. */
  type Tracker = (ClickEvent, bool, Option<int>) -> Tracked

  /** What the visitor gets and the event that was recorded, if any. */
  function Visit(l: Link, r: Request, now: Time, libs: Libs, track: Tracker): (Answer, Option<ClickEvent>) {
    if l.passwordProtected && l.id !in r.access then (PasswordForm(l.id, l.title, l.passwordHash), None)
    else if LinkExpired(l, now) then (ExpiredAnswer(l), Some(EventFor(r, l, l.expiredURL, "expired", 410, libs)))
    else
      var (raw, route) := ResolveTarget(l, r.country, r.userAgent, libs);
      var target := Merged(raw, l, r.query, libs);
      var event := EventFor(r, l, target, route, l.redirectCode, libs);
      var answer :=
        match track(event, true, l.maxClicks)
        case Failed => TrackingFailed
        case Refused => ExpiredAnswer(l)
        case Counted => To(target, l.redirectCode);
      (answer, Some(event))
  }

  // ---- permanent redirects ----

  /** Where a link without dynamic features always leads. */
  function FixedTarget(l: Link, libs: Libs): string {
    Merged(l.targetURL, l, map[], libs)
  }

  lemma NotForwarded(l: Link, own: Query, inbound: Query)
    requires !l.forwardQuery
    ensures MergedQuery(l, own, inbound) == MergedQuery(l, own, map[])
  {
    hide UTMFields;
    var a, b := MergedQuery(l, own, inbound), MergedQuery(l, own, map[]);
    forall key | key in a ensures key in b && a[key] == b[key] {
      assert MergedKey(l, own, map[], key);
    }
    forall key | key in b ensures key in a {
      assert MergedKey(l, own, inbound, key);
    }
  }

  /** A stored link with code 301 or 308 answers every visit the same, whatever the country, the user agent,
      the inbound query and the time, as sections 15.4.2 and 15.4.9 of RFC 9110 ask of a permanent redirect:
      once the click is counted it leads to its fixed target. Only a click that is refused, because the link was
      deleted meanwhile, gets the expired answer, and one whose tracking failed an error. */
  lemma PermanentIsConstant(l: Link, r: Request, now: Time, libs: Libs, track: Tracker)
    requires RowOK(l) && IsPermanent(l.redirectCode)
    ensures var (answer, event) := Visit(l, r, now, libs, track);
            && event == Some(EventFor(r, l, FixedTarget(l, libs), "default", l.redirectCode, libs))
            && answer == match track(event.value, true, None)
                         case Counted => To(FixedTarget(l, libs), l.redirectCode)
                         case Refused => ExpiredAnswer(l)
                         case Failed => TrackingFailed
  {
    hide Merged, EventFor;
    FixedMerge(l, r.query, libs);
  }

  lemma FixedMerge(l: Link, inbound: Query, libs: Libs)
    requires !l.forwardQuery
    ensures Merged(l.targetURL, l, inbound, libs) == FixedTarget(l, libs)
  {
    var d := libs.parse(l.targetURL);
    if d.Some? {
      NotForwarded(l, d.value.query, inbound);
    }
  }
}
