// Links: what is stored of them, when they are well formed, who may see and manage them, and how a request
// edits one.

module Links {
  import opened Wrappers
  import opened Models
  import opened Text
  import opened Users

  datatype GeoTarget = GeoTarget(country: string, url: string)

  datatype UTM = UTM(source: string, medium: string, campaign: string, term: string, content: string)

  const NO_UTM := UTM("", "", "", "", "")

  datatype Link = Link(
    id: int, userID: int, tenantID: Option<int>, slug: string, targetURL: string, title: string,
    visibility: string, clicks: int, redirectCode: int, expiresAt: Option<Time>, maxClicks: Option<int>,
    expiredURL: string, iosURL: string, androidURL: string, forwardQuery: bool, utm: UTM,
    tags: seq<string>, geoTargets: seq<GeoTarget>, passwordProtected: bool, passwordHash: string)

  /** The libraries validation relies on; `tagCount` is the number of tags left after normalizing. */
  datatype Rules = Rules(
    isHTTP: string -> bool, isoCodes: set<string>, tagCount: seq<string> -> nat, slugOK: string -> bool)

  predicate IsPermanent(code: int) {
    code == 301 || code == 308
  }

  predicate Dynamic(l: Link) {
    || l.expiresAt.Some? || l.maxClicks.Some? || l.iosURL != "" || l.androidURL != "" || l.passwordProtected
    || |l.geoTargets| > 0 || l.forwardQuery
  }

  function CountryOf(g: GeoTarget): string {
    Upper(TrimSpace(g.country))
  }

  predicate OptionalURL(url: string, rules: Rules) {
    url == "" || rules.isHTTP(url)
  }

  predicate GeoOK(gs: seq<GeoTarget>, rules: Rules) {
    && (forall i :: 0 <= i < |gs| ==> CountryOf(gs[i]) in rules.isoCodes && rules.isHTTP(gs[i].url))
    && (forall i, j :: 0 <= i < j < |gs| ==> CountryOf(gs[i]) != CountryOf(gs[j]))
  }

  predicate WellFormed(l: Link, rules: Rules) {
    && l.visibility in {"", "private", "department"}
    && rules.isHTTP(l.targetURL)
    && OptionalURL(l.expiredURL, rules) && OptionalURL(l.iosURL, rules) && OptionalURL(l.androidURL, rules)
    && l.redirectCode in {301, 302, 307, 308}
    && !(Dynamic(l) && IsPermanent(l.redirectCode))
    && (l.maxClicks.Some? ==> l.maxClicks.value >= 1)
    && GeoOK(l.geoTargets, rules)
    && rules.tagCount(l.tags) <= 20
  }

  method ValidateLink(l: Link, rules: Rules) returns (ok: bool)
    ensures ok <==> WellFormed(l, rules)
  {
    var visibility := if l.visibility == "" then "private" else l.visibility;
    if visibility != "private" && visibility != "department" {
      return false;
    }
    if !rules.isHTTP(l.targetURL) || !OptionalURL(l.expiredURL, rules) || !OptionalURL(l.iosURL, rules)
       || !OptionalURL(l.androidURL, rules) {
      return false;
    }
    if l.redirectCode != 301 && l.redirectCode != 302 && l.redirectCode != 307 && l.redirectCode != 308 {
      return false;
    }
    if Dynamic(l) && IsPermanent(l.redirectCode) {
      return false;
    }
    if l.maxClicks.Some? && l.maxClicks.value < 1 {
      return false;
    }
    var geoOK := ValidateGeo(l.geoTargets, rules);
    ok := geoOK && rules.tagCount(l.tags) <= 20;
  }

  method ValidateGeo(gs: seq<GeoTarget>, rules: Rules) returns (ok: bool)
    ensures ok <==> GeoOK(gs, rules)
  {
    var seen: set<string> := {};
    for n := 0 to |gs|
      invariant GeoOK(gs[..n], rules)
      invariant forall c :: c in seen <==> exists i :: 0 <= i < n && CountryOf(gs[i]) == c
    {
      hide CountryOf;
      var country := CountryOf(gs[n]);
      if country !in rules.isoCodes || country in seen {
        return false;
      }
      seen := seen + {country};
      if !rules.isHTTP(gs[n].url) {
        return false;
      }
    }
    assert gs[..|gs|] == gs;
    return true;
  }

  // ---- who may see and manage ----

  predicate Manageable(u: User, l: Link) {
    match u.role
    case Superadmin => true
    case Tenant => u.tenantID.Some? && l.tenantID == u.tenantID
    case Customer => l.userID == u.id
  }

  predicate Visible(u: User, l: Link) {
    match u.role
    case Superadmin => true
    case Tenant => u.tenantID.Some? && l.tenantID == u.tenantID
    case Customer =>
      l.userID == u.id || (u.tenantID.Some? && l.tenantID == u.tenantID && l.visibility == "department")
  }

  // ---- editing ----

  /** The fields of a request; None is a field left out. */
  datatype Payload = Payload(
    url: Option<string>, targetURL: Option<string>, slug: Option<string>, title: Option<string>,
    visibility: Option<string>, redirectCode: Option<int>, expiresAt: Option<string>, maxClicks: Option<int>,
    clearMaxClicks: bool, expiredURL: Option<string>, iosURL: Option<string>, androidURL: Option<string>,
    forwardQuery: Option<bool>, source: Option<string>, medium: Option<string>, campaign: Option<string>,
    term: Option<string>, content: Option<string>, tags: Option<seq<string>>, geoTargets: Option<seq<GeoTarget>>,
    password: Option<string>, clearPassword: bool)

  function Trimmed(field: Option<string>, current: string): string {
    match field
    case Some(s) => TrimSpace(s)
    case None => current
  }

  /** A request replaces exactly the fields it names; the slug only of a new link. */
  function Replaced(l: Link, p: Payload, creating: bool, expiresAt: Option<Time>, protect: bool): Link {
    WithRouting(WithTexts(l, p, creating).(expiresAt := expiresAt), p).(passwordProtected := protect)
  }

  function WithTexts(l: Link, p: Payload, creating: bool): Link {
    l.(targetURL := Trimmed(p.targetURL, Trimmed(p.url, l.targetURL)),
       slug := if creating then Trimmed(p.slug, l.slug) else l.slug,
       title := Trimmed(p.title, l.title),
       visibility := var v := Trimmed(p.visibility, l.visibility); if v == "" then "private" else v)
  }

  function WithRouting(l: Link, p: Payload): Link {
    l.(redirectCode := p.redirectCode.GetOr(l.redirectCode),
       maxClicks := if p.clearMaxClicks then None else if p.maxClicks.Some? then p.maxClicks else l.maxClicks,
       expiredURL := Trimmed(p.expiredURL, l.expiredURL),
       iosURL := Trimmed(p.iosURL, l.iosURL),
       androidURL := Trimmed(p.androidURL, l.androidURL),
       forwardQuery := p.forwardQuery.GetOr(l.forwardQuery),
       utm := WithUTM(l.utm, p),
       tags := p.tags.GetOr(l.tags),
       geoTargets := p.geoTargets.GetOr(l.geoTargets))
  }

  function WithUTM(u: UTM, p: Payload): UTM {
    UTM(Trimmed(p.source, u.source), Trimmed(p.medium, u.medium), Trimmed(p.campaign, u.campaign),
        Trimmed(p.term, u.term), Trimmed(p.content, u.content))
  }

  lemma RoutingKeepsTexts(l: Link, p: Payload)
    ensures var r := WithRouting(l, p);
      && r.targetURL == l.targetURL && r.visibility == l.visibility
      && r.expiresAt == l.expiresAt && r.passwordProtected == l.passwordProtected
  {
  }

  lemma TextsKeepRouting(l: Link, p: Payload, creating: bool)
    ensures var r := WithTexts(l, p, creating);
      r.expiresAt == l.expiresAt && r.passwordProtected == l.passwordProtected
  {
  }

  /** Protection follows the password fields, and a new hash goes with protection. */
  predicate PasswordEdited(before: Link, after: Link, p: Payload, hash: string, changed: bool) {
    && (changed <==> p.password.Some? || p.clearPassword)
    && (p.password.Some? ==> |p.password.value| >= 8 && after.passwordProtected && hash != "")
    && (p.password == None ==> hash == "" && after.passwordProtected == (before.passwordProtected && !p.clearPassword))
  }

  predicate ExpiryEdited(before: Link, after: Link, p: Payload, parseTime: string -> Option<Time>) {
    match p.expiresAt
    case None => after.expiresAt == before.expiresAt
    case Some(s) =>
      if TrimSpace(s) == "" then after.expiresAt == None
      else after.expiresAt.Some? && after.expiresAt == parseTime(s)
  }

  /** What an acceptable request makes of a link, whatever its password hashes to. */
  function Edited(l: Link, p: Payload, creating: bool, parseTime: string -> Option<Time>): Link {
    var expiresAt :=
      match p.expiresAt
      case None => l.expiresAt
      case Some(s) => if TrimSpace(s) == "" then None else parseTime(s);
    Replaced(l, p, creating, expiresAt, p.password.Some? || (l.passwordProtected && !p.clearPassword))
  }

  lemma EditedIs(
      before: Link, after: Link, p: Payload, creating: bool, hash: string, changed: bool,
      parseTime: string -> Option<Time>)
    requires after == Replaced(before, p, creating, after.expiresAt, after.passwordProtected)
    requires ExpiryEdited(before, after, p, parseTime) && PasswordEdited(before, after, p, hash, changed)
    ensures after == Edited(before, p, creating, parseTime)
    ensures after.passwordProtected == if changed then hash != "" else before.passwordProtected
    ensures hash != "" <==> p.password.Some?
  {
    hide Replaced;
  }

  /** No contradicting URLs, a known visibility and a readable time. */
  predicate FieldsOK(current: Link, p: Payload, creating: bool, parseTime: string -> Option<Time>) {
    && (p.url.Some? && p.targetURL.Some? ==> TrimSpace(p.url.value) == TrimSpace(p.targetURL.value))
    && WithTexts(current, p, creating).visibility in {"private", "department"}
    && (p.expiresAt.Some? && TrimSpace(p.expiresAt.value) != "" ==> parseTime(p.expiresAt.value).Some?)
  }

  /** What a request must satisfy besides: a password of eight bytes, and a URL for a new link. */
  predicate Acceptable(current: Link, p: Payload, creating: bool, parseTime: string -> Option<Time>) {
    && FieldsOK(current, p, creating, parseTime)
    && (p.password.Some? ==> |p.password.value| >= 8)
    && (creating ==> WithTexts(current, p, creating).targetURL != "")
  }

  /** What a request leaves of a link; `parseTime` stands for the RFC 3339 parser. A request is accepted exactly
      if it is acceptable and its password can be hashed. */
  method ApplyLinkPayload(
      current: Link, p: Payload, creating: bool, parseTime: string -> Option<Time>, hasher: Hasher)
    returns (edited: Option<Link>, hash: string, changed: bool)
    modifies hasher
    ensures old(hasher.faults) <= hasher.faults
    ensures edited.Some? ==>
      && edited.value == Replaced(current, p, creating, edited.value.expiresAt, edited.value.passwordProtected)
      && ExpiryEdited(current, edited.value, p, parseTime)
      && PasswordEdited(current, edited.value, p, hash, changed)
    ensures edited.Some? ==> Acceptable(current, p, creating, parseTime)
    ensures hasher.faults == old(hasher.faults) ==> (edited.Some? <==> Acceptable(current, p, creating, parseTime))
  {
    hide FieldsOK, TrimSpace, WithTexts, WithRouting;
    edited, hash, changed := None, "", p.password.Some? || p.clearPassword;
    var link := ApplyFields(current, p, creating, parseTime);
    if link == None {
      return;
    }
    var refused, protect;
    refused, protect, hash := ApplyPassword(current.passwordProtected, p, hasher);
    if refused || (creating && link.value.targetURL == "") {
      return;
    }
    edited := Some(link.value.(passwordProtected := protect));
  }

  /** Everything but the password. */
  method ApplyFields(current: Link, p: Payload, creating: bool, parseTime: string -> Option<Time>)
    returns (edited: Option<Link>)
    ensures edited.Some? <==> FieldsOK(current, p, creating, parseTime)
    ensures edited.Some? ==>
      && edited.value == WithRouting(WithTexts(current, p, creating).(expiresAt := edited.value.expiresAt), p)
      && ExpiryEdited(current, edited.value, p, parseTime)
      && edited.value.targetURL == WithTexts(current, p, creating).targetURL
  {
    hide TrimSpace, WithTexts, WithRouting;
    edited := None;
    if p.url.Some? && p.targetURL.Some? && TrimSpace(p.url.value) != TrimSpace(p.targetURL.value) {
      return;
    }
    var link := ApplyTexts(current, p, creating);
    TextsKeepRouting(current, p, creating);
    if link.visibility != "private" && link.visibility != "department" {
      return;
    }
    var expired, expiresAt := ApplyExpiry(link.expiresAt, p, parseTime);
    if expired {
      return;
    }
    RoutingKeepsTexts(link.(expiresAt := expiresAt), p);
    link := ApplyRouting(link.(expiresAt := expiresAt), p);
    edited := Some(link);
  }

  method ApplyPassword(current: bool, p: Payload, hasher: Hasher)
    returns (refused: bool, protect: bool, hash: string)
    modifies hasher
    ensures old(hasher.faults) <= hasher.faults
    ensures refused <==> p.password.Some? && (|p.password.value| < 8 || hasher.faults > old(hasher.faults))
    ensures p.password.Some? && !refused ==> hash != ""
    ensures p.password == None ==> hash == ""
    ensures protect == (p.password.Some? || (current && !p.clearPassword))
  {
    refused, protect, hash := false, current, "";
    if p.password.Some? {
      protect, refused := true, |p.password.value| < 8;
      if !refused {
        hash := hasher.HashSecret(p.password.value);
        refused := hash == "";
      }
    } else if p.clearPassword {
      protect := false;
    }
  }

  method ApplyTexts(current: Link, p: Payload, creating: bool) returns (link: Link)
    ensures link == WithTexts(current, p, creating)
  {
    hide TrimSpace;
    var targetURL, slug, title, visibility := current.targetURL, current.slug, current.title, current.visibility;
    if p.url.Some? {
      targetURL := TrimSpace(p.url.value);
    }
    if p.targetURL.Some? {
      targetURL := TrimSpace(p.targetURL.value);
    }
    if p.slug.Some? && creating {
      slug := TrimSpace(p.slug.value);
    }
    if p.title.Some? {
      title := TrimSpace(p.title.value);
    }
    if p.visibility.Some? {
      visibility := TrimSpace(p.visibility.value);
    }
    if visibility == "" {
      visibility := "private";
    }
    link := current.(targetURL := targetURL, slug := slug, title := title, visibility := visibility);
  }

  method ApplyExpiry(current: Option<Time>, p: Payload, parseTime: string -> Option<Time>)
    returns (failed: bool, expiresAt: Option<Time>)
    ensures failed <==> p.expiresAt.Some? && TrimSpace(p.expiresAt.value) != "" && parseTime(p.expiresAt.value) == None
    ensures !failed && p.expiresAt == None ==> expiresAt == current
    ensures !failed && p.expiresAt.Some? ==>
      expiresAt == if TrimSpace(p.expiresAt.value) == "" then None else parseTime(p.expiresAt.value)
  {
    failed, expiresAt := false, current;
    if p.expiresAt.Some? {
      if TrimSpace(p.expiresAt.value) == "" {
        expiresAt := None;
      } else {
        expiresAt := parseTime(p.expiresAt.value);
        failed := expiresAt == None;
      }
    }
  }

  method ApplyRouting(current: Link, p: Payload) returns (link: Link)
    ensures link == WithRouting(current, p)
  {
    hide Trimmed, WithUTM;
    var code, maxClicks := current.redirectCode, current.maxClicks;
    if p.redirectCode.Some? {
      code := p.redirectCode.value;
    }
    if p.clearMaxClicks {
      maxClicks := None;
    } else if p.maxClicks.Some? {
      maxClicks := p.maxClicks;
    }
    link := current.(
      redirectCode := code, maxClicks := maxClicks, expiredURL := Trimmed(p.expiredURL, current.expiredURL),
      iosURL := Trimmed(p.iosURL, current.iosURL), androidURL := Trimmed(p.androidURL, current.androidURL),
      forwardQuery := p.forwardQuery.GetOr(current.forwardQuery), utm := WithUTM(current.utm, p),
      tags := p.tags.GetOr(current.tags), geoTargets := p.geoTargets.GetOr(current.geoTargets));
  }

  /** bcrypt: some non-empty hash, or "" for a failure. */
  class Hasher {
    ghost var faults: nat

    constructor ()
      ensures faults == 0
    {
      faults := 0;
    }

    method HashSecret(secret: string) returns (hash: string)
      modifies this
      ensures faults == old(faults) + if hash == "" then 1 else 0
    {
      hash := *;
      faults := faults + if hash == "" then 1 else 0;
    }
  }
}
