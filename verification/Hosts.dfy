// Host names: how requests and domains are cleaned, and the cache key of a host and a slug. Bracketed IPv6
// literals are not covered.

module Hosts {
  import opened Payload
  import opened Text

  const HTTP: string := "http://"
  const HTTPS: string := "https://"
  const PREFIX: string := "shortq:redirect:v1:"

  /** Text before the first separator. */
  function Until(s: string, c: char): (r: string)
    ensures c !in r && r <= s
    ensures c !in s ==> r == s
    ensures c in s ==> r < s && s[|r|] == c
  {
    if s == [] || s[0] == c then [] else [s[0]] + Until(s[1..], c)
  }

  function Colons(s: string): nat {
    if s == [] then 0 else Colons(s[..|s| - 1]) + if s[|s| - 1] == ':' then 1 else 0
  }

  /** Without brackets a port is split off exactly when there is one colon. */
  function NormalizeHostname(hostname: string): string {
    var h := TrimSpace(Lower(hostname));
    TrimDots(if Colons(h) == 1 then Until(h, ':') else h)
  }

  function Key(hostname: string, slug: string): string {
    PREFIX + NormalizeHostname(hostname) + ":" + slug
  }

  function TrimPrefix(s: string, prefix: string): string {
    if prefix <= s then s[|prefix|..] else s
  }

  /** cleanDomain, which domains are stored and looked up by. */
  function CleanDomain(domain: string): string {
    var d := Lower(TrimSpace(domain));
    TrimDots(Until(TrimPrefix(TrimPrefix(d, HTTP), HTTPS), '/'))
  }

  // ---- plain host names ----

  predicate HostChar(c: char) {
    'a' <= c <= 'z' || '0' <= c <= '9' || c == '.' || c == '-'
  }

  /** A DNS name in the form it is stored: lower case, no port, no outer dots. */
  predicate PlainHost(h: string) {
    h != "" && (forall i :: 0 <= i < |h| ==> HostChar(h[i])) && h[0] != '.' && h[|h| - 1] != '.'
  }

  /** The class of characters that domainRe admits. */
  predicate DomainChar(c: char) {
    HostChar(c) || 'A' <= c <= 'Z'
  }

  predicate Letter(c: char) {
    'a' <= c <= 'z' || 'A' <= c <= 'Z'
  }

  /** domainRe: letters, digits, dots and hyphens, then a dot and at least two letters. */
  predicate DomainRe(d: string) {
    && (forall i :: 0 <= i < |d| ==> DomainChar(d[i]))
    && exists i :: 1 <= i < |d| - 2 && d[i] == '.' && forall j :: i < j < |d| ==> Letter(d[j])
  }

  lemma {:induction false} TrimDotsEnds(s: string)
    ensures var r := TrimDots(s); r == "" || (r[0] != '.' && r[|r| - 1] != '.')
    decreases |s|
  {
    if s != [] {
      if s[0] == '.' {
        TrimDotsEnds(s[1..]);
      } else if s[|s| - 1] == '.' {
        TrimDotsEnds(s[..|s| - 1]);
      }
    }
  }

  predicate NoUpper(s: string) {
    forall i :: 0 <= i < |s| ==> !('A' <= s[i] <= 'Z')
  }

  lemma {:induction false} TrimDotsNoUpper(s: string)
    requires NoUpper(s)
    ensures NoUpper(TrimDots(s))
    decreases |s|
  {
    if s != [] {
      if s[0] == '.' {
        TrimDotsNoUpper(s[1..]);
      } else if s[|s| - 1] == '.' {
        TrimDotsNoUpper(s[..|s| - 1]);
      }
    }
  }

  lemma PrefixNoUpper(s: string, prefix: string)
    requires NoUpper(s)
    ensures NoUpper(TrimPrefix(s, prefix)) && NoUpper(Until(s, '/'))
  {
    var r := Until(s, '/');
    assert forall i :: 0 <= i < |r| ==> r[i] == s[i];
  }

  lemma LowerNoUpper(s: string)
    ensures NoUpper(Lower(s))
  {
  }

  lemma CleanedShape(domain: string)
    ensures var d := CleanDomain(domain); NoUpper(d) && (d == "" || (d[0] != '.' && d[|d| - 1] != '.'))
  {
    hide TrimSpace, Lower, TrimDots, Until, TrimPrefix, NoUpper, HTTP, HTTPS;
    var lower := Lower(TrimSpace(domain));
    var bare := TrimPrefix(TrimPrefix(lower, HTTP), HTTPS);
    LowerNoUpper(TrimSpace(domain));
    PrefixNoUpper(lower, HTTP);
    PrefixNoUpper(TrimPrefix(lower, HTTP), HTTPS);
    PrefixNoUpper(bare, HTTP);
    TrimDotsNoUpper(Until(bare, '/'));
    TrimDotsEnds(Until(bare, '/'));
  }

  /** A cleaned domain that passes the pattern check is a plain host name. */
  lemma CleanedIsPlain(domain: string)
    requires DomainRe(CleanDomain(domain))
    ensures PlainHost(CleanDomain(domain))
  {
    CleanedShape(domain);
    hide CleanDomain;
    NoUpperAt(CleanDomain(domain));
  }

  lemma NoUpperAt(s: string)
    requires NoUpper(s)
    ensures forall i :: 0 <= i < |s| ==> !('A' <= s[i] <= 'Z')
  {
  }

  lemma PlainIsLower(h: string)
    requires PlainHost(h)
    ensures Lower(h) == h && TrimSpace(h) == h && TrimDots(h) == h
    ensures Colons(h) == 0 && ':' !in h && '/' !in h
  {
    assert forall i :: 0 <= i < |h| ==> LowerChar(h[i]) == h[i] && !IsSpace(h[i]) && h[i] != ':' && h[i] != '/';
    NoColons(h);
  }

  lemma {:induction false} NoColons(s: string)
    requires ':' !in s
    ensures Colons(s) == 0
  {
    if s != [] {
      assert forall c :: c in s[..|s| - 1] ==> c in s;
      NoColons(s[..|s| - 1]);
    }
  }

  /** Plain host names are left alone by both. */
  lemma PlainStays(h: string)
    requires PlainHost(h)
    ensures NormalizeHostname(h) == h && CleanDomain(h) == h
  {
    PlainIsLower(h);
    NoScheme(h, HTTP, 4);
    NoScheme(h, HTTPS, 5);
  }

  lemma NoScheme(h: string, prefix: string, at: nat)
    requires ':' !in h && at < |prefix| && prefix[at] == ':'
    ensures TrimPrefix(h, prefix) == h
  {
    assert forall i :: 0 <= i < |h| ==> h[i] != ':';
  }

  predicate Digits(port: string) {
    port != "" && forall i :: 0 <= i < |port| ==> '0' <= port[i] <= '9'
  }

  /** Neither end is a space. */
  lemma TrimNothing(s: string)
    requires s != "" && !IsSpace(s[0]) && !IsSpace(s[|s| - 1])
    ensures TrimSpace(s) == s
  {
  }

  lemma LowerConcat(a: string, b: string)
    ensures Lower(a + b) == Lower(a) + Lower(b)
  {
  }

  lemma {:induction false} ColonsConcat(a: string, b: string)
    ensures Colons(a + b) == Colons(a) + Colons(b)
  {
    if b == [] {
      assert a + b == a;
    } else {
      ColonsConcat(a, b[..|b| - 1]);
      assert (a + b)[..|a + b| - 1] == a + b[..|b| - 1];
    }
  }

  lemma {:induction false} UntilFirst(a: string, c: char, b: string)
    requires c !in a
    ensures Until(a + [c] + b, c) == a
  {
    if a != [] {
      assert (a + [c] + b)[1..] == a[1..] + [c] + b && a[0] in a;
      assert forall x :: x in a[1..] ==> x in a;
      UntilFirst(a[1..], c, b);
      assert a == [a[0]] + a[1..];
    }
  }

  /** In any letter case, with a port, and with a final dot, a plain host name has the same normal form. */
  lemma NormalForms(h: string, s: string, port: string)
    requires PlainHost(h) && Lower(s) == h && Digits(port)
    ensures NormalizeHostname(s) == h
    ensures NormalizeHostname(s + ":" + port) == h
    ensures NormalizeHostname(s + ".") == h
  {
    PlainIsLower(h);
    assert Lower(":") == ":" && Lower(".") == "." && Lower(port) == port;
    LowerConcat(s, ":");
    LowerConcat(s + ":", port);
    LowerConcat(s, ".");
    assert ':' !in port && Lower(s + ":" + port) == h + ":" + port;
    hide Lower;
    TrimNothing(h + ":" + port);
    TrimNothing(h + ".");
    NoColons(port);
    ColonsConcat(h, ":");
    ColonsConcat(h + ":", port);
    ColonsConcat(h, ".");
    assert Colons(":") == 1 && Colons(".") == 0 by {
      assert ":"[..0] == "" && "."[..0] == "";
    }
    UntilFirst(h, ':', port);
    DotEnd(h);
  }

  lemma DotEnd(h: string)
    requires PlainHost(h) && TrimDots(h) == h
    ensures TrimDots(h + ".") == h
  {
    assert (h + ".")[0] == h[0] && (h + ".")[..|h + "."| - 1] == h;
  }

  /** In any letter case, with a scheme and a path, a plain host name is cleaned to itself. */
  lemma CleanForms(h: string, s: string, path: string)
    requires PlainHost(h) && Lower(s) == h && (path == "" || (!IsSpace(path[|path| - 1]) && Lower(path) == path))
    ensures CleanDomain(s) == h
    ensures CleanDomain(HTTPS + s + "/" + path) == h
    ensures CleanDomain(HTTP + s + "/" + path) == h
  {
    PlainIsLower(h);
    LowerSpaces(s);
    assert Lower(HTTPS) == HTTPS && Lower(HTTP) == HTTP && Lower("/") == "/";
    assert HTTPS != "" && HTTP != "" && HTTPS[0] == 'h' && HTTP[0] == 'h';
    NoScheme(h, HTTP, 4);
    NoScheme(h, HTTPS, 5);
    CleanOne(h, s, path, HTTPS);
    CleanOne(h, s, path, HTTP);
    TrimNothing(s);
    SchemeGone(h, path);
  }

  lemma LowerSpaces(s: string)
    requires s != "" ==> PlainHost(Lower(s))
    ensures s != "" ==> !IsSpace(s[0]) && !IsSpace(s[|s| - 1])
  {
    assert s != "" ==> Lower(s)[0] == LowerChar(s[0]) && Lower(s)[|s| - 1] == LowerChar(s[|s| - 1]);
  }

  lemma CleanOne(h: string, s: string, path: string, scheme: string)
    requires PlainHost(h) && Lower(s) == h && Lower(path) == path && Lower(scheme) == scheme && Lower("/") == "/"
    requires scheme != "" && !IsSpace(scheme[0]) && (path == "" || !IsSpace(path[|path| - 1]))
    ensures Lower(TrimSpace(scheme + s + "/" + path)) == scheme + (h + "/" + path)
  {
    var all := scheme + s + "/" + path;
    hide Lower, TrimSpace, PlainHost;
    Ends(scheme, s, path);
    TrimNothing(all);
    LowerConcat(scheme + s + "/", path);
    LowerConcat(scheme + s, "/");
    LowerConcat(scheme, s);
    Regroup(scheme, h, "/", path);
  }

  lemma Ends(scheme: string, s: string, path: string)
    requires scheme != ""
    ensures var all := scheme + s + "/" + path;
      all != "" && all[0] == scheme[0] && all[|all| - 1] == if path == "" then '/' else path[|path| - 1]
  {
  }

  lemma SchemeGone(h: string, path: string)
    requires PlainHost(h) && ':' !in h && '/' !in h && TrimDots(h) == h
    ensures TrimDots(Until(TrimPrefix(TrimPrefix(HTTPS + (h + "/" + path), HTTP), HTTPS), '/')) == h
    ensures TrimDots(Until(TrimPrefix(TrimPrefix(HTTP + (h + "/" + path), HTTP), HTTPS), '/')) == h
  {
    var rest := h + "/" + path;
    UntilFirst(h, '/', path);
    assert (HTTPS + rest)[4] == 's' && HTTP[4] == ':';
    assert TrimPrefix(HTTPS + rest, HTTP) == HTTPS + rest;
    assert TrimPrefix(HTTPS + rest, HTTPS) == rest && TrimPrefix(HTTP + rest, HTTP) == rest;
    NotScheme(h, path);
  }

  /** What follows the scheme does not start with one. */
  lemma NotScheme(h: string, path: string)
    requires PlainHost(h) && ':' !in h && '/' !in h
    ensures TrimPrefix(h + "/" + path, HTTPS) == h + "/" + path
  {
    var rest, at := h + "/" + path, if |h| > 5 then 5 else |h|;
    assert rest[at] == if |h| > 5 then h[5] else '/';
    assert |h| > 5 ==> h[5] in h;
    assert HTTPS[5] == ':' && forall i :: 0 <= i <= 5 ==> HTTPS[i] != '/';
    assert rest[at] != HTTPS[at];
  }

  /** A host name whose cache key is the one of the domain it stands for. */
  predicate Regular(host: string) {
    NormalizeHostname(host) == CleanDomain(host)
  }

  lemma RegularKey(host: string, slug: string)
    requires Regular(host) && PlainHost(CleanDomain(host))
    ensures Key(host, slug) == Key(CleanDomain(host), slug)
  {
    PlainStays(CleanDomain(host));
  }

  lemma PlainKey(h: string, slug: string)
    requires PlainHost(h)
    ensures Key(h, slug) == PREFIX + (h + ":" + slug)
  {
    PlainStays(h);
    hide NormalizeHostname, PlainHost, PREFIX;
    Regroup(PREFIX, h, ":", slug);
  }

  lemma Regroup(a: string, b: string, c: string, d: string)
    ensures a + b + c + d == a + (b + c + d)
  {
  }

  lemma SameAfterPrefix(p: string, a: string, b: string)
    requires p + a == p + b
    ensures a == b
  {
    assert a == (p + a)[|p|..] && b == (p + b)[|p|..];
  }

  /** Keys of plain host names tell both the host and the slug apart, whatever the slug contains. */
  lemma KeyInjective(h: string, s: string, g: string, t: string)
    requires PlainHost(h) && PlainHost(g) && Key(h, s) == Key(g, t)
    ensures h == g && s == t
  {
    PlainIsLower(h);
    PlainIsLower(g);
    PlainKey(h, s);
    PlainKey(g, t);
    hide *;
    SameAfterPrefix(PREFIX, h + ":" + s, g + ":" + t);
    SplitAtColon(h, s, g, t);
  }

  lemma EmptyHostKey(slug: string, h: string, s: string)
    requires PlainHost(h)
    ensures Key("", slug) != Key(h, s)
  {
    PlainKey(h, s);
    assert NormalizeHostname("") == "";
    hide NormalizeHostname, PREFIX;
    Regroup(PREFIX, "", ":", slug);
    assert PREFIX + (h + ":" + s) != PREFIX + ("" + ":" + slug) by {
      assert (PREFIX + (h + ":" + s))[|PREFIX|] == h[0];
      assert (PREFIX + ("" + ":" + slug))[|PREFIX|] == ':';
    }
  }

  lemma SplitAtColon(h: string, s: string, g: string, t: string)
    requires ':' !in h && ':' !in g && h + ":" + s == g + ":" + t
    ensures h == g && s == t
  {
    var a, b := h + ":" + s, g + ":" + t;
    assert a[|h|] == ':' && b[|g|] == ':';
    assert forall i :: 0 <= i < |h| ==> a[i] == h[i] && h[i] != ':';
    assert forall i :: 0 <= i < |g| ==> b[i] == g[i] && g[i] != ':';
    assert |h| == |g|;
    assert h == a[..|h|] && g == b[..|g|] && s == a[|h| + 1..] && t == b[|g| + 1..];
  }
}
