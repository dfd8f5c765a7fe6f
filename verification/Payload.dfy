// What travels through the queue: the event payload, its validation, event ids and the retry header.

module Payload {
  import opened Wrappers
  import opened Models

  const PAYLOAD_VERSION: int := 1

  datatype EventPayload = EventPayload(
    version: int, eventID: string, occurredAt: Option<Time>, linkID: int, slug: string, ip: string,
    countryCode: string, httpMethod: string, statusCode: int, resolvedURL: string, routeType: string,
    userAgent: string, browser: string, os: string, device: string, isBot: bool, referrer: string,
    referrerHost: string, utmSource: string, utmMedium: string, utmCampaign: string, increment: bool)

  /** `scrub` stands for scrubURL, which drops user info, query and fragment of a URL. */
  function MarshalEvent(e: ClickEvent, scrub: string -> string): EventPayload {
    EventPayload(PAYLOAD_VERSION, e.eventID, e.occurredAt, e.linkID, e.slug, e.ip, e.countryCode, e.httpMethod,
                 e.statusCode, scrub(e.resolvedURL), e.routeType, e.userAgent, e.browser, e.os, e.device,
                 e.isBot, scrub(e.referrer), e.referrerHost, e.utmSource, e.utmMedium, e.utmCampaign, e.increment)
  }

  datatype DecodeError = BadJSON | BadVersion | BadEventID | NoTimestamp | BadLinkID | BlankField | BadStatus
  datatype DecodeResult = Decoded(event: ClickEvent) | Invalid(error: DecodeError)

  /** unicode.IsSpace */
  predicate IsSpace(c: char) {
    var n := c as int;
    9 <= n <= 13 || n in {32, 0x85, 0xA0, 0x1680, 0x2028, 0x2029, 0x202F, 0x205F, 0x3000} || 0x2000 <= n <= 0x200A
  }

  /** strings.TrimSpace(s) == "" */
  predicate Blank(s: string) {
    forall i :: 0 <= i < |s| ==> IsSpace(s[i])
  }

  /** `body == None` is a body that is not exactly one JSON object with the known fields. */
  function DecodeEvent(body: Option<EventPayload>): DecodeResult {
    match body
    case None => Invalid(BadJSON)
    case Some(p) =>
      if p.version != PAYLOAD_VERSION then Invalid(BadVersion)
      else if !ValidUUID(p.eventID) then Invalid(BadEventID)
      else if p.occurredAt == None then Invalid(NoTimestamp)
      else if p.linkID <= 0 then Invalid(BadLinkID)
      else if Blank(p.slug) || Blank(p.httpMethod) || Blank(p.routeType) then Invalid(BlankField)
      else if p.statusCode < 100 || p.statusCode > 599 then Invalid(BadStatus)
      else
        Decoded(ClickEvent(
          p.eventID, p.linkID, p.slug, p.ip, p.countryCode, p.httpMethod, p.statusCode, p.resolvedURL,
          p.routeType, p.userAgent, p.browser, p.os, p.device, p.isBot, p.referrer, p.referrerHost,
          p.utmSource, p.utmMedium, p.utmCampaign, p.occurredAt, p.increment))
  }

  /** The events a worker accepts after they were published. */
  predicate Publishable(e: ClickEvent) {
    && Canonical(e.eventID) && e.occurredAt.Some? && e.linkID > 0
    && !Blank(e.slug) && !Blank(e.httpMethod) && !Blank(e.routeType)
    && 100 <= e.statusCode <= 599
  }

  function Scrubbed(e: ClickEvent, scrub: string -> string): ClickEvent {
    e.(resolvedURL := scrub(e.resolvedURL), referrer := scrub(e.referrer))
  }

  /** Publishing and decoding keep every field but the two scrubbed URLs, for exactly the publishable events. */
  lemma MarshalDecode(e: ClickEvent, scrub: string -> string)
    ensures var r := DecodeEvent(Some(MarshalEvent(e, scrub)));
            r.Decoded? <==> Publishable(e)
    ensures Publishable(e) ==> DecodeEvent(Some(MarshalEvent(e, scrub))) == Decoded(Scrubbed(e, scrub))
  {
    ValidUUIDShape(e.eventID);
  }

  // ---- event ids ----

  predicate HexDigit(c: char) {
    '0' <= c <= '9' || 'a' <= c <= 'f' || 'A' <= c <= 'F'
  }

  /** strings.ReplaceAll(s, "-", "") */
  function Compact(s: string): string {
    if s == [] then []
    else
      var rest := Compact(s[1..]);
      if s[0] == '-' then rest else [s[0]] + rest
  }

  predicate AllHex(s: string) {
    forall i :: 0 <= i < |s| ==> HexDigit(s[i])
  }

  /** The check as the worker makes it: 36 characters, 32 without hyphens, hyphens in place, hex otherwise. */
  predicate ValidUUID(s: string) {
    var compact := Compact(s);
    && |s| == 36 && |compact| == 32
    && s[8] == '-' && s[13] == '-' && s[18] == '-' && s[23] == '-'
    && AllHex(compact)
  }

  predicate HyphenAt(i: int) {
    i == 8 || i == 13 || i == 18 || i == 23
  }

  /** The textual form of section 4 of RFC 9562, in either case. */
  predicate Canonical(s: string) {
    |s| == 36 && forall i :: 0 <= i < 36 ==> if HyphenAt(i) then s[i] == '-' else HexDigit(s[i])
  }

  lemma {:induction false} CompactConcat(a: string, b: string)
    ensures Compact(a + b) == Compact(a) + Compact(b)
  {
    if a == [] {
      assert a + b == b;
    } else {
      CompactConcat(a[1..], b);
      assert (a + b)[1..] == a[1..] + b;
    }
  }

  lemma {:induction false} CompactFull(s: string)
    ensures |Compact(s)| <= |s|
    ensures |Compact(s)| == |s| ==> Compact(s) == s
    ensures '-' !in s ==> Compact(s) == s
  {
    if s != [] {
      CompactFull(s[1..]);
      assert s == [s[0]] + s[1..];
    }
  }

  function Hyphen(a: string, b: string): string {
    a + "-" + b
  }

  /** Five groups joined by hyphens. */
  function Join5(a: string, b: string, c: string, d: string, e: string): string {
    Hyphen(a, Hyphen(b, Hyphen(c, Hyphen(d, e))))
  }

  lemma CompactHyphen(a: string, b: string)
    ensures Compact(Hyphen(a, b)) == Compact(a) + Compact(b)
  {
    CompactConcat(a, "-");
    CompactConcat(a + "-", b);
    assert Compact("-") == [];
  }

  /** The hex characters of the five groups, in order. */
  function Groups(s: string): string
    requires |s| == 36
  {
    s[..8] + (s[9..13] + (s[14..18] + (s[19..23] + s[24..])))
  }

  lemma Split5(s: string)
    requires |s| == 36 && forall i :: 0 <= i < 36 && HyphenAt(i) ==> s[i] == '-'
    ensures s == Join5(s[..8], s[9..13], s[14..18], s[19..23], s[24..])
  {
    var t := Join5(s[..8], s[9..13], s[14..18], s[19..23], s[24..]);
    assert |t| == 36;
    assert forall i :: 0 <= i < 36 ==> s[i] == t[i];
  }

  lemma Compact5(s: string)
    requires |s| == 36 && forall i :: 0 <= i < 36 && HyphenAt(i) ==> s[i] == '-'
    ensures Compact(s) ==
      Compact(s[..8]) + (Compact(s[9..13]) + (Compact(s[14..18]) + (Compact(s[19..23]) + Compact(s[24..]))))
  {
    Split5(s);
    var d := Hyphen(s[19..23], s[24..]);
    var c := Hyphen(s[14..18], d);
    var b := Hyphen(s[9..13], c);
    CompactHyphen(s[..8], b);
    CompactHyphen(s[9..13], c);
    CompactHyphen(s[14..18], d);
    CompactHyphen(s[19..23], s[24..]);
  }

  lemma CompactGroups(s: string)
    requires |s| == 36 && forall i :: 0 <= i < 36 && HyphenAt(i) ==> s[i] == '-'
    ensures |Compact(s)| == 32 ==> Compact(s) == Groups(s)
    ensures (forall i :: 0 <= i < 36 && !HyphenAt(i) ==> s[i] != '-') ==> Compact(s) == Groups(s)
  {
    Compact5(s);
    CompactFull(s[..8]);
    CompactFull(s[9..13]);
    CompactFull(s[14..18]);
    CompactFull(s[19..23]);
    CompactFull(s[24..]);
  }

  /** The worker's check accepts exactly the canonical shape. */
  lemma ValidUUIDShape(s: string)
    ensures ValidUUID(s) <==> Canonical(s)
  {
    if |s| == 36 && forall i :: 0 <= i < 36 && HyphenAt(i) ==> s[i] == '-' {
      CompactGroups(s);
      var all := Groups(s);
      forall i | 0 <= i < 36 && !HyphenAt(i) ensures s[i] in all {
        var k := if i < 8 then i else if i < 13 then i - 1 else if i < 18 then i - 2
                 else if i < 23 then i - 3 else i - 4;
        assert all[k] == s[i];
      }
      assert AllHex(all) <==> forall c :: c in all ==> HexDigit(c);
    }
  }

  newtype Byte = n: int | 0 <= n < 256

  const HEX: string := "0123456789abcdef"

  function HexByte(b: Byte): (s: string)
    ensures |s| == 2 && AllHex(s) && '-' !in s
  {
    [HEX[b as int / 16], HEX[b as int % 16]]
  }

  function Hex(bytes: seq<Byte>): (s: string)
    ensures |s| == 2 * |bytes| && AllHex(s) && '-' !in s
  {
    if bytes == [] then [] else Hex(bytes[..|bytes| - 1]) + HexByte(bytes[|bytes| - 1])
  }

  lemma {:induction false} HexAt(bytes: seq<Byte>, i: nat)
    requires i < |bytes|
    ensures Hex(bytes)[2 * i..2 * i + 2] == HexByte(bytes[i])
  {
    var front := bytes[..|bytes| - 1];
    hide HexByte, AllHex;
    if i < |front| {
      HexAt(front, i);
      assert Hex(bytes)[2 * i..2 * i + 2] == Hex(front)[2 * i..2 * i + 2];
    } else {
      assert Hex(bytes)[2 * i..2 * i + 2] == HexByte(bytes[i]);
    }
  }

  /** The version and variant bits of a version 4 UUID. */
  function Stamp(v: seq<Byte>): seq<Byte>
    requires |v| == 16
  {
    v[6 := v[6] % 16 + 64][8 := v[8] % 64 + 128]
  }

  /** newEventID on the random bytes it drew. */
  function NewEventID(random: seq<Byte>): string
    requires |random| == 16
  {
    var v := Stamp(random);
    Join5(Hex(v[..4]), Hex(v[4..6]), Hex(v[6..8]), Hex(v[8..10]), Hex(v[10..]))
  }

  lemma Join5Canonical(a: string, b: string, c: string, d: string, e: string)
    requires |a| == 8 && |b| == |c| == |d| == 4 && |e| == 12
    requires AllHex(a) && AllHex(b) && AllHex(c) && AllHex(d) && AllHex(e)
    ensures Canonical(Join5(a, b, c, d, e))
    ensures Join5(a, b, c, d, e)[14] == c[0] && Join5(a, b, c, d, e)[19] == d[0]
  {
  }

  /** Minted ids pass the worker's check, carry version 4 (section 5.4 of RFC 9562) and the RFC variant. */
  lemma MintedIDsAreValid(random: seq<Byte>)
    requires |random| == 16
    ensures var id := NewEventID(random);
            ValidUUID(id) && id[14] == '4' && id[19] in "89ab"
  {
    var v, id := Stamp(random), NewEventID(random);
    Join5Canonical(Hex(v[..4]), Hex(v[4..6]), Hex(v[6..8]), Hex(v[8..10]), Hex(v[10..]));
    ValidUUIDShape(id);
    HexAt(v[6..8], 0);
    HexAt(v[8..10], 0);
  }

  lemma HexByteInjective(a: Byte, b: Byte)
    requires HexByte(a) == HexByte(b)
    ensures a == b
  {
    assert forall i, j :: 0 <= i < 16 && 0 <= j < 16 && HEX[i] == HEX[j] ==> i == j;
  }

  lemma HexInjective(a: seq<Byte>, b: seq<Byte>)
    requires Hex(a) == Hex(b)
    ensures a == b
  {
    forall i | 0 <= i < |a| ensures a[i] == b[i] {
      HexAt(a, i);
      HexAt(b, i);
      HexByteInjective(a[i], b[i]);
    }
  }

  lemma Join5Parts(a: string, b: string, c: string, d: string, e: string)
    requires |a| == 8 && |b| == |c| == |d| == 4
    ensures var s := Join5(a, b, c, d, e);
            |s| == 24 + |e| && s[..8] == a && s[9..13] == b && s[14..18] == c && s[19..23] == d && s[24..] == e
  {
  }

  lemma FiveSlices(v: seq<Byte>, w: seq<Byte>)
    requires |v| == |w| == 16
    requires v[..4] == w[..4] && v[4..6] == w[4..6] && v[6..8] == w[6..8] && v[8..10] == w[8..10] && v[10..] == w[10..]
    ensures v == w
  {
    assert v == v[..4] + v[4..6] + v[6..8] + v[8..10] + v[10..];
    assert w == w[..4] + w[4..6] + w[6..8] + w[8..10] + w[10..];
  }

  /** Two ids coincide only when all 122 random bits do. */
  lemma MintedIDsKeepRandomness(a: seq<Byte>, b: seq<Byte>)
    requires |a| == |b| == 16 && NewEventID(a) == NewEventID(b)
    ensures Stamp(a) == Stamp(b)
  {
    var v, w := Stamp(a), Stamp(b);
    Join5Parts(Hex(v[..4]), Hex(v[4..6]), Hex(v[6..8]), Hex(v[8..10]), Hex(v[10..]));
    Join5Parts(Hex(w[..4]), Hex(w[4..6]), Hex(w[6..8]), Hex(w[8..10]), Hex(w[10..]));
    HexInjective(v[..4], w[..4]);
    HexInjective(v[4..6], w[4..6]);
    HexInjective(v[6..8], w[6..8]);
    HexInjective(v[8..10], w[8..10]);
    HexInjective(v[10..], w[10..]);
    FiveSlices(v, w);
  }

  // ---- the retry header ----

  const TWO_31: int := 0x8000_0000
  const TWO_63: int := 0x8000_0000_0000_0000

  /** The header as the client library decodes it. `Small` is any integer kind that fits Go's int. */
  datatype Header = NoHeader | Small(n: int) | Unsigned64(u: int) | OtherKind

  function Wrap(n: int, half: int): int
    requires half > 0
  {
    (n + half) % (2 * half) - half
  }

  function RetryCount(h: Header): int {
    match h
    case Small(n) => n
    case Unsigned64(u) => Wrap(u, TWO_63)
    case _ => 0
  }

  /** The header rabbitRetryPublisher writes: int32(attempt). */
  function RetryHeader(attempt: int): Header {
    Small(Wrap(attempt, TWO_31))
  }

  /** No header, and one of another kind, is no retry; a number is itself, unless it is one that int64 takes for
      negative. */
  lemma HeaderReads(n: int)
    ensures RetryCount(NoHeader) == 0 && RetryCount(OtherKind) == 0 && RetryCount(Small(n)) == n
    ensures 0 <= n < 0x8000_0000_0000_0000 ==> RetryCount(Unsigned64(n)) == n
    ensures 0x8000_0000_0000_0000 <= n < 0x1_0000_0000_0000_0000 ==>
      RetryCount(Unsigned64(n)) == n - 0x1_0000_0000_0000_0000
  {
  }

  lemma RetryHeaderReadsBack(attempt: int)
    ensures RetryCount(RetryHeader(attempt)) == attempt <==> -TWO_31 <= attempt < TWO_31
  {
  }

  function Pow2(n: nat): nat {
    if n == 0 then 1 else 2 * Pow2(n - 1)
  }

  const BASE_RETRY_NANOS: int := 250_000_000
  const NANOS_PER_MILLI: int := 1_000_000

  /** The message's expiration in milliseconds: an int64 shift, then an integer division. */
  function BackoffMillis(attempt: nat): int
    requires attempt >= 1
  {
    var nanos := Wrap(BASE_RETRY_NANOS * Pow2(attempt - 1), TWO_63);
    if nanos >= 0 then nanos / NANOS_PER_MILLI else -((-nanos) / NANOS_PER_MILLI)
  }

  lemma {:induction false} Pow2Grows(a: nat, b: nat)
    requires a <= b
    ensures 1 <= Pow2(a) <= Pow2(b)
  {
    if b == 0 {
    } else if a < b {
      Pow2Grows(a, b - 1);
    } else {
      Pow2Grows(a - 1, b - 1);
    }
  }

  lemma Pow2At35()
    ensures Pow2(35) == 0x8_0000_0000
  {
    assert Pow2(7) == 128;
    assert Pow2(14) == 0x4000;
    assert Pow2(21) == 0x20_0000;
    assert Pow2(28) == 0x1000_0000;
  }

  /** The delay is 250 ms doubled per attempt exactly up to the 36th; later shifts overflow. */
  lemma BackoffDoubles(attempt: nat)
    requires attempt >= 1
    ensures BackoffMillis(attempt) == 250 * Pow2(attempt - 1) <==> attempt <= 36
  {
    Pow2At35();
    if attempt <= 36 {
      Pow2Grows(attempt - 1, 35);
    } else {
      Pow2Grows(36, attempt - 1);
    }
  }

  /** Total delay of the attempts 1..n. */
  function TotalBackoff(n: nat): int {
    if n == 0 then 0 else TotalBackoff(n - 1) + BackoffMillis(n)
  }

  lemma {:induction false} TotalBackoffBound(n: nat)
    requires n <= 36
    ensures TotalBackoff(n) == 250 * (Pow2(n) - 1)
  {
    if n > 0 {
      TotalBackoffBound(n - 1);
      BackoffDoubles(n);
    }
  }
}
