// Values shared by every component: optional values, instants and click events.

module Wrappers {
  datatype Option<+T> = None | Some(value: T) {
    function GetOr(default: T): T {
      match this
      case Some(v) => v
      case None => default
    }
  }
}

module Models {
  import opened Wrappers

  /** An instant, in nanoseconds since the Unix epoch (UTC). */
  type Time = int

  const NANOS_PER_DAY: int := 86_400_000_000_000

  /** The UTC calendar day of an instant; Dafny's division floors for a positive divisor. */
  function UTCDay(t: Time): int {
    t / NANOS_PER_DAY
  }

  /** models.ClickEvent. `occurredAt == None` is Go's zero time; an empty `eventID` is stored as NULL. */
  datatype ClickEvent = ClickEvent(
    eventID: string, linkID: int, slug: string, ip: string, countryCode: string, httpMethod: string,
    statusCode: int, resolvedURL: string, routeType: string, userAgent: string, browser: string,
    os: string, device: string, isBot: bool, referrer: string, referrerHost: string,
    utmSource: string, utmMedium: string, utmCampaign: string,
    occurredAt: Option<Time>, increment: bool)

  lemma Member<T>(s: set<T>) returns (x: T)
    requires s != {}
    ensures x in s
  {
    x :| x in s;
  }
}
