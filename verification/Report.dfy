// The analytics report of a period: a summary, a point per day and a breakdown per dimension.

module Report {
  import opened Breakdown
  import opened Models
  import opened Text
  import opened Wrappers

  datatype Dimension =
    | Country | Device | Browser | OS | Referrer | UTMSource | UTMMedium | Campaign
    | Route | Status | Traffic

  const CLIENT_DIMENSIONS := {Country, Device, Browser, OS, Referrer, UTMSource, UTMMedium, Campaign}
  const DIMENSIONS: set<Dimension> := set d: Dimension | true

  datatype Click = Click(
    created: Time, status: int, route: string, browser: string, os: string, device: string, bot: bool,
    country: string, referrer: string, source: string, medium: string, campaign: string)

  datatype DayPoint = DayPoint(day: int, clicks: nat, human: nat, bots: nat)

  datatype Summary = Summary(
    periodClicks: nat, humanClicks: nat, botClicks: nat, expiredAttempts: nat, peakClicks: nat, peakDay: Option<int>)

  predicate IsSuccessfulRedirect(status: int, route: string) {
    route != "expired" && (status == 301 || status == 302 || status == 307 || status == 308)
  }

  function ReportKey(value: string): string {
    var v := TrimSpace(value);
    if v == "" then "unknown" else v
  }

  function KeyIn(c: Click, d: Dimension): string {
    match d
    case Country => ReportKey(c.country)
    case Device => ReportKey(c.device)
    case Browser => ReportKey(c.browser)
    case OS => ReportKey(c.os)
    case Referrer => ReportKey(c.referrer)
    case UTMSource => ReportKey(c.source)
    case UTMMedium => ReportKey(c.medium)
    case Campaign => ReportKey(c.campaign)
    case Route => ReportKey(c.route)
    case Status => Itoa(c.status)
    case Traffic => if c.bot then "bot" else "human"
  }

  // ---- what is counted ----

  /** A period click is a successful redirect; routes and statuses are counted for every row. Days are the
      local calendar days of the report's time zone. */
  datatype Filter =
    | Counted(d: Dimension)
    | Keyed(d: Dimension, key: string)
    | Expired
    | Clicks(bot: bool)
    | OnDay(day: int)
    | ByOnDay(bot: bool, day: int)
    | Between(first: int, days: nat)

  predicate IsCounted(c: Click, d: Dimension) {
    d == Route || d == Status || IsSuccessfulRedirect(c.status, c.route)
  }

  predicate Hits(f: Filter, c: Click, zone: Time -> int) {
    match f
    case Counted(d) => IsCounted(c, d)
    case Keyed(d, key) => IsCounted(c, d) && KeyIn(c, d) == key
    case Expired => c.route == "expired" || c.status == 410
    case Clicks(bot) => IsCounted(c, Traffic) && c.bot == bot
    case OnDay(day) => IsCounted(c, Traffic) && zone(c.created) == day
    case ByOnDay(bot, day) => IsCounted(c, Traffic) && c.bot == bot && zone(c.created) == day
    case Between(first, days) => IsCounted(c, Traffic) && first <= zone(c.created) < first + days
  }

  function Unit(f: Filter, c: Click, zone: Time -> int): nat {
    if Hits(f, c, zone) then 1 else 0
  }

  function Count(rows: seq<Click>, f: Filter, zone: Time -> int): nat {
    if rows == [] then 0
    else Count(rows[..|rows| - 1], f, zone) + Unit(f, rows[|rows| - 1], zone)
  }

  lemma CountSnoc(rows: seq<Click>, c: Click, f: Filter, zone: Time -> int)
    ensures Count(rows + [c], f, zone) == Count(rows, f, zone) + Unit(f, c, zone)
  {
    assert (rows + [c])[..|rows|] == rows;
  }

  /** The rows that a filter counts. */
  function Hitting(rows: seq<Click>, f: Filter, zone: Time -> int): set<int> {
    set i | 0 <= i < |rows| && Hits(f, rows[i], zone)
  }

  lemma {:induction false} CountIsSize(rows: seq<Click>, f: Filter, zone: Time -> int)
    ensures Count(rows, f, zone) == |Hitting(rows, f, zone)|
  {
    hide Hits;
    if rows != [] {
      var front, n := rows[..|rows| - 1], |rows| - 1;
      CountIsSize(front, f, zone);
      OneMoreHit(front, rows[n], f, zone);
      assert front + [rows[n]] == rows;
      hide Hitting;
    }
  }

  lemma OneMoreHit(rows: seq<Click>, c: Click, f: Filter, zone: Time -> int)
    ensures |Hitting(rows + [c], f, zone)| == |Hitting(rows, f, zone)| + Unit(f, c, zone)
  {
    hide Hits;
    var before, after := Hitting(rows, f, zone), Hitting(rows + [c], f, zone);
    assert |rows| !in before && after == before + if Hits(f, c, zone) then {|rows|} else {};
  }

  /** The key under which a breakdown counts a click: a successful redirect under its own country, device, browser,
      system, referrer and campaign fields, trimmed, and under what it came from; every row under its route and
      status. */
  lemma KeysRead(c: Click, key: string, zone: Time -> int)
    ensures var redirected := c.route != "expired" && c.status in {301, 302, 307, 308};
      && (Hits(Keyed(Country, key), c, zone) <==> redirected && ShownAs(c.country, key))
      && (Hits(Keyed(Device, key), c, zone) <==> redirected && ShownAs(c.device, key))
      && (Hits(Keyed(Browser, key), c, zone) <==> redirected && ShownAs(c.browser, key))
      && (Hits(Keyed(OS, key), c, zone) <==> redirected && ShownAs(c.os, key))
      && (Hits(Keyed(Referrer, key), c, zone) <==> redirected && ShownAs(c.referrer, key))
      && (Hits(Keyed(UTMSource, key), c, zone) <==> redirected && ShownAs(c.source, key))
      && (Hits(Keyed(UTMMedium, key), c, zone) <==> redirected && ShownAs(c.medium, key))
      && (Hits(Keyed(Campaign, key), c, zone) <==> redirected && ShownAs(c.campaign, key))
      && (Hits(Keyed(Traffic, key), c, zone) <==> redirected && key == if c.bot then "bot" else "human")
    ensures Hits(Keyed(Route, key), c, zone) <==> ShownAs(c.route, key)
    ensures Hits(Keyed(Status, key), c, zone) <==> key == Itoa(c.status)
  {
    hide TrimSpace, Itoa;
  }

  /** A value is shown trimmed, and an empty one as unknown. */
  predicate ShownAs(value: string, key: string) {
    (TrimSpace(value) != "" ==> key == TrimSpace(value)) && (TrimSpace(value) == "" ==> key == "unknown")
  }

  // ---- breakdowns ----

  type Tables = map<Dimension, Counts>

  /** A table holds exactly the keys that occur, each with its number of rows. */
  ghost predicate Tallied(m: Counts, rows: seq<Click>, d: Dimension, zone: Time -> int) {
    forall key: string :: CountOf(m, key) == Count(rows, Keyed(d, key), zone) && (key in m ==> m[key] > 0)
  }

  ghost predicate TablesOK(tables: Tables, rows: seq<Click>, zone: Time -> int) {
    && Full(tables)
    && forall d :: d in tables ==>
         Tallied(tables[d], rows, d, zone) && SumsTo(tables[d], Count(rows, Counted(d), zone))
  }

  /** There is a table for every dimension. */
  ghost predicate Full(tables: Tables) {
    forall d: Dimension :: d in tables
  }

  predicate IsClient(d: Dimension) {
    d != Route && d != Status && d != Traffic
  }

  lemma ClientDimensions()
    ensures forall d: Dimension :: d in CLIENT_DIMENSIONS <==> IsClient(d)
  {
  }

  const EMPTY_TABLES: Tables := map d | d in DIMENSIONS :: map[]

  function Bumped(tables: Tables, c: Click): Tables {
    map d | d in tables :: if IsCounted(c, d) then Bump(tables[d], KeyIn(c, d)) else tables[d]
  }

  lemma TallyStep(m: Counts, rows: seq<Click>, c: Click, d: Dimension, zone: Time -> int)
    requires Tallied(m, rows, d, zone) && SumsTo(m, Count(rows, Counted(d), zone))
    ensures var next := if IsCounted(c, d) then Bump(m, KeyIn(c, d)) else m;
            Tallied(next, rows + [c], d, zone) && SumsTo(next, Count(rows + [c], Counted(d), zone))
  {
    hide SumsTo, KeyIn;
    var next := if IsCounted(c, d) then Bump(m, KeyIn(c, d)) else m;
    CountSnoc(rows, c, Counted(d), zone);
    if IsCounted(c, d) {
      BumpSums(m, KeyIn(c, d), Count(rows, Counted(d), zone));
    }
    forall key: string
      ensures CountOf(next, key) == Count(rows + [c], Keyed(d, key), zone) && (key in next ==> next[key] > 0)
    {
      CountSnoc(rows, c, Keyed(d, key), zone);
    }
  }

  lemma TablesStep(tables: Tables, rows: seq<Click>, c: Click, zone: Time -> int)
    requires TablesOK(tables, rows, zone)
    ensures TablesOK(Bumped(tables, c), rows + [c], zone)
  {
    hide Tallied, SumsTo, Count, IsCounted, KeyIn, Bump;
    forall d | d in tables
      ensures Tallied(Bumped(tables, c)[d], rows + [c], d, zone)
           && SumsTo(Bumped(tables, c)[d], Count(rows + [c], Counted(d), zone))
    {
      TallyStep(tables[d], rows, c, d, zone);
    }
  }

  /** Bumps the client dimensions, in any order. */
  method BumpClients(tables: Tables, c: Click) returns (r: Tables)
    requires Full(tables)
    ensures r.Keys == tables.Keys
    ensures forall d :: d in r ==> r[d] == if IsClient(d) then Bump(tables[d], KeyIn(c, d)) else tables[d]
  {
    ClientDimensions();
    hide KeyIn, Bump, CLIENT_DIMENSIONS, IsClient;
    r := tables;
    var todo := CLIENT_DIMENSIONS;
    while todo != {}
      invariant (forall d :: d in todo ==> IsClient(d)) && r.Keys == tables.Keys
      invariant forall d :: d in r ==>
        r[d] == if IsClient(d) && d !in todo then Bump(tables[d], KeyIn(c, d)) else tables[d]
      decreases |todo|
    {
      var d :| d in todo;
      todo := todo - {d};
      r := r[d := Bump(r[d], KeyIn(c, d))];
    }
  }

  /** Counts one row: route and status always, traffic and the client dimensions for a click. */
  method BumpRow(tables: Tables, c: Click) returns (r: Tables)
    requires Full(tables)
    ensures r == Bumped(tables, c)
  {
    hide KeyIn, Bump, IsSuccessfulRedirect;
    r := tables[Route := Bump(tables[Route], KeyIn(c, Route))];
    r := r[Status := Bump(r[Status], KeyIn(c, Status))];
    if IsSuccessfulRedirect(c.status, c.route) {
      r := r[Traffic := Bump(r[Traffic], KeyIn(c, Traffic))];
      r := BumpClients(r, c);
    }
    assert r.Keys == tables.Keys;
  }

  // ---- days ----

  ghost predicate DaysOK(days: map<int, DayPoint>, rows: seq<Click>, zone: Time -> int) {
    forall day :: day in days ==>
      && days[day].day == day && days[day].clicks == Count(rows, OnDay(day), zone)
      && days[day].human == Count(rows, ByOnDay(false, day), zone)
      && days[day].bots == Count(rows, ByOnDay(true, day), zone)
  }

  function DayBumped(days: map<int, DayPoint>, c: Click, day: int): map<int, DayPoint> {
    if day !in days then days
    else
      var p := days[day];
      days[day := if c.bot then DayPoint(day, p.clicks + 1, p.human, p.bots + 1)
                           else DayPoint(day, p.clicks + 1, p.human + 1, p.bots)]
  }

  function DaysNext(days: map<int, DayPoint>, c: Click, zone: Time -> int): map<int, DayPoint> {
    if IsCounted(c, Traffic) then DayBumped(days, c, zone(c.created)) else days
  }

  lemma DaysStep(days: map<int, DayPoint>, rows: seq<Click>, c: Click, zone: Time -> int)
    requires DaysOK(days, rows, zone)
    ensures DaysOK(DaysNext(days, c, zone), rows + [c], zone) && DaysNext(days, c, zone).Keys == days.Keys
  {
    forall day | day in days
      ensures Count(rows + [c], OnDay(day), zone) == Count(rows, OnDay(day), zone) + Unit(OnDay(day), c, zone)
      ensures Count(rows + [c], ByOnDay(true, day), zone)
           == Count(rows, ByOnDay(true, day), zone) + Unit(ByOnDay(true, day), c, zone)
      ensures Count(rows + [c], ByOnDay(false, day), zone)
           == Count(rows, ByOnDay(false, day), zone) + Unit(ByOnDay(false, day), c, zone)
    {
      CountSnoc(rows, c, OnDay(day), zone);
      CountSnoc(rows, c, ByOnDay(true, day), zone);
      CountSnoc(rows, c, ByOnDay(false, day), zone);
    }
    hide Count;
  }

  ghost predicate SummaryOK(s: Summary, rows: seq<Click>, zone: Time -> int) {
    && s.periodClicks == Count(rows, Counted(Traffic), zone)
    && s.humanClicks == Count(rows, Clicks(false), zone) && s.botClicks == Count(rows, Clicks(true), zone)
    && s.periodClicks == s.humanClicks + s.botClicks
    && s.expiredAttempts == Count(rows, Expired, zone)
  }

  function SummaryNext(s: Summary, c: Click): Summary {
    var e := if c.route == "expired" || c.status == 410 then s.(expiredAttempts := s.expiredAttempts + 1) else s;
    var n := e.(periodClicks := e.periodClicks + 1);
    if !IsCounted(c, Traffic) then e
    else if c.bot then n.(botClicks := n.botClicks + 1)
    else n.(humanClicks := n.humanClicks + 1)
  }

  lemma SummaryStep(s: Summary, rows: seq<Click>, c: Click, zone: Time -> int)
    requires SummaryOK(s, rows, zone)
    ensures SummaryOK(SummaryNext(s, c), rows + [c], zone)
  {
    CountSnoc(rows, c, Counted(Traffic), zone);
    CountSnoc(rows, c, Clicks(false), zone);
    CountSnoc(rows, c, Clicks(true), zone);
    CountSnoc(rows, c, Expired, zone);
    hide Count;
  }

  /** The days of the window, each with its clicks, split into humans and bots. */
  ghost predicate DailyOK(daily: seq<DayPoint>, first: int, rows: seq<Click>, zone: Time -> int) {
    forall i :: 0 <= i < |daily| ==>
      && daily[i].day == first + i && daily[i].clicks == Count(rows, OnDay(first + i), zone)
      && daily[i].human == Count(rows, ByOnDay(false, first + i), zone)
      && daily[i].bots == Count(rows, ByOnDay(true, first + i), zone)
  }

  /** The earliest of the days with the most clicks, if there was any click. */
  ghost predicate IsPeak(daily: seq<DayPoint>, clicks: nat, day: Option<int>) {
    && (forall i :: 0 <= i < |daily| ==> daily[i].clicks <= clicks)
    && (day == None <==> clicks == 0)
    && (day.Some? ==> exists i :: FirstAt(daily, i, clicks) && daily[i].day == day.value)
  }

  predicate FirstAt(daily: seq<DayPoint>, i: int, clicks: nat) {
    0 <= i < |daily| && daily[i].clicks == clicks && forall j :: 0 <= j < i ==> daily[j].clicks < clicks
  }

  lemma PeakStep(daily: seq<DayPoint>, clicks: nat, day: Option<int>, p: DayPoint)
    requires IsPeak(daily, clicks, day)
    ensures IsPeak(daily + [p], if p.clicks > clicks then p.clicks else clicks,
                   if p.clicks > clicks then Some(p.day) else day)
  {
    var more := daily + [p];
    if p.clicks > clicks {
      assert FirstAt(more, |daily|, p.clicks);
    } else if day.Some? {
      var i :| FirstAt(daily, i, clicks) && daily[i].day == day.value;
      assert FirstAt(more, i, clicks);
    }
  }

  /** One point for each day of the window. */
  method EmptyDays(first: int, days: nat) returns (points: map<int, DayPoint>)
    ensures forall day :: day in points <==> first <= day < first + days
    ensures forall day :: day in points ==> points[day] == DayPoint(day, 0, 0, 0)
  {
    points := map[];
    for i := 0 to days
      invariant forall day :: day in points <==> first <= day < first + i
      invariant forall day :: day in points ==> points[day] == DayPoint(day, 0, 0, 0)
    {
      points := points[first + i := DayPoint(first + i, 0, 0, 0)];
    }
  }

  /** Summary, days and tables agree with the rows read so far. */
  ghost predicate ScanOK(s: Summary, days: map<int, DayPoint>, tables: Tables, rows: seq<Click>, zone: Time -> int) {
    SummaryOK(s, rows, zone) && DaysOK(days, rows, zone) && TablesOK(tables, rows, zone)
  }

  method Scan(rows: seq<Click>, zone: Time -> int, empty: map<int, DayPoint>)
    returns (summary: Summary, points: map<int, DayPoint>, tables: Tables)
    requires forall day :: day in empty ==> empty[day] == DayPoint(day, 0, 0, 0)
    ensures ScanOK(summary, points, tables, rows, zone) && points.Keys == empty.Keys
  {
    hide ScanOK, Bumped, SummaryNext, DaysNext, EMPTY_TABLES, Full;
    points, tables, summary := empty, EMPTY_TABLES, Summary(0, 0, 0, 0, 0, None);
    NothingYet(empty, zone);
    assert rows[..0] == [];
    for i := 0 to |rows|
      invariant ScanOK(summary, points, tables, rows[..i], zone) && points.Keys == empty.Keys
    {
      RowStep(summary, points, tables, rows[..i], rows[i], zone);
      assert rows[..i + 1] == rows[..i] + [rows[i]];
      summary, points, tables := ScanRow(summary, points, tables, rows[i], zone);
    }
    assert rows[..|rows|] == rows;
  }

  lemma RowStep(s: Summary, days: map<int, DayPoint>, tables: Tables, rows: seq<Click>, c: Click, zone: Time -> int)
    requires ScanOK(s, days, tables, rows, zone)
    ensures ScanOK(SummaryNext(s, c), DaysNext(days, c, zone), Bumped(tables, c), rows + [c], zone)
    ensures Full(tables) && DaysNext(days, c, zone).Keys == days.Keys
  {
    TablesFull(tables, rows, zone);
    hide SummaryOK, DaysOK, TablesOK, Bumped, SummaryNext, DaysNext;
    SummaryStep(s, rows, c, zone);
    DaysStep(days, rows, c, zone);
    TablesStep(tables, rows, c, zone);
  }

  lemma TablesFull(tables: Tables, rows: seq<Click>, zone: Time -> int)
    requires TablesOK(tables, rows, zone)
    ensures Full(tables)
  {
  }

  lemma NothingYet(empty: map<int, DayPoint>, zone: Time -> int)
    requires forall day :: day in empty ==> empty[day] == DayPoint(day, 0, 0, 0)
    ensures ScanOK(Summary(0, 0, 0, 0, 0, None), empty, EMPTY_TABLES, [], zone)
  {
    hide SummaryOK, DaysOK, TablesOK, EMPTY_TABLES;
    EmptySummaryOK(zone);
    EmptyDaysOK(empty, zone);
    EmptyTablesOK(zone);
  }

  lemma EmptySummaryOK(zone: Time -> int)
    ensures SummaryOK(Summary(0, 0, 0, 0, 0, None), [], zone)
  {
  }

  lemma EmptyDaysOK(empty: map<int, DayPoint>, zone: Time -> int)
    requires forall day :: day in empty ==> empty[day] == DayPoint(day, 0, 0, 0)
    ensures DaysOK(empty, [], zone)
  {
  }

  lemma EmptyTablesOK(zone: Time -> int)
    ensures TablesOK(EMPTY_TABLES, [], zone)
  {
    hide SumsTo, KeyIn;
    EmptySums();
    forall d: Dimension ensures d in EMPTY_TABLES && EMPTY_TABLES[d] == map[] {
      assert d in DIMENSIONS;
    }
  }

  /** One row of the period. */
  method ScanRow(s: Summary, days: map<int, DayPoint>, counts: Tables, c: Click, zone: Time -> int)
    returns (summary: Summary, points: map<int, DayPoint>, tables: Tables)
    requires Full(counts)
    ensures summary == SummaryNext(s, c) && points == DaysNext(days, c, zone) && tables == Bumped(counts, c)
  {
    hide Bumped, DayBumped, Full;
    summary, points := s, days;
    if c.route == "expired" || c.status == 410 {
      summary := summary.(expiredAttempts := summary.expiredAttempts + 1);
    }
    tables := BumpRow(counts, c);
    if IsSuccessfulRedirect(c.status, c.route) {
      summary := summary.(periodClicks := summary.periodClicks + 1);
      points := DayBumped(points, c, zone(c.created));
      if c.bot {
        summary := summary.(botClicks := summary.botClicks + 1);
      } else {
        summary := summary.(humanClicks := summary.humanClicks + 1);
      }
    }
  }

  /** Lists the window's days and finds the peak. */
  method ListDays(points: map<int, DayPoint>, first: int, days: nat)
      returns (daily: seq<DayPoint>, clicks: nat, day: Option<int>)
    requires forall d :: first <= d < first + days ==> d in points
    ensures |daily| == days && forall i :: 0 <= i < days ==> daily[i] == points[first + i]
    ensures IsPeak(daily, clicks, day)
  {
    hide FirstAt;
    daily, clicks, day := [], 0, None;
    for i := 0 to days
      invariant |daily| == i && forall k :: 0 <= k < i ==> daily[k] == points[first + k]
      invariant IsPeak(daily, clicks, day)
    {
      hide IsPeak;
      var point := points[first + i];
      PeakStep(daily, clicks, day, point);
      daily := daily + [point];
      if point.clicks > clicks {
        clicks, day := point.clicks, Some(point.day);
      }
    }
  }

  /** The breakdown of one dimension shows its ten highest keys and keeps its total. */
  ghost predicate BreakdownOK(r: seq<Point>, d: Dimension, rows: seq<Click>, zone: Time -> int) {
    exists m :: Tallied(m, rows, d, zone) && SumsTo(m, Count(rows, Counted(d), zone)) && IsBreakdown(m, 10, r)
  }

  method Rank(tables: Tables, ghost rows: seq<Click>, ghost zone: Time -> int)
    returns (breakdowns: map<Dimension, seq<Point>>)
    requires TablesOK(tables, rows, zone)
    ensures forall d: Dimension :: d in breakdowns && BreakdownOK(breakdowns[d], d, rows, zone)
  {
    hide Tallied, SumsTo, IsBreakdown;
    breakdowns := map[];
    var todo := tables.Keys;
    while todo != {}
      invariant todo <= tables.Keys && breakdowns.Keys == tables.Keys - todo
      invariant forall d :: d in breakdowns ==> BreakdownOK(breakdowns[d], d, rows, zone)
      decreases |todo|
    {
      var d :| d in todo;
      todo := todo - {d};
      var r := SortedPoints(tables[d], 10);
      breakdowns := breakdowns[d := r];
    }
  }

  method BuildReport(rows: seq<Click>, zone: Time -> int, first: int, days: nat)
    returns (summary: Summary, daily: seq<DayPoint>, breakdowns: map<Dimension, seq<Point>>)
    ensures SummaryOK(summary, rows, zone)
    ensures |daily| == days && DailyOK(daily, first, rows, zone)
    ensures IsPeak(daily, summary.peakClicks, summary.peakDay)
    ensures forall d: Dimension :: d in breakdowns && BreakdownOK(breakdowns[d], d, rows, zone)
  {
    hide TablesOK, Count, IsPeak, BreakdownOK;
    var empty := EmptyDays(first, days);
    var points, tables;
    summary, points, tables := Scan(rows, zone, empty);
    var clicks, day;
    daily, clicks, day := ListDays(points, first, days);
    summary := summary.(peakClicks := clicks, peakDay := day);
    breakdowns := Rank(tables, rows, zone);
  }

  // ---- conservation ----

  function DailyClicks(daily: seq<DayPoint>): nat {
    if daily == [] then 0 else DailyClicks(daily[..|daily| - 1]) + daily[|daily| - 1].clicks
  }

  lemma {:induction false} NextDay(rows: seq<Click>, first: int, days: nat, zone: Time -> int)
    ensures Count(rows, Between(first, days + 1), zone)
         == Count(rows, Between(first, days), zone) + Count(rows, OnDay(first + days), zone)
  {
    if rows != [] {
      NextDay(rows[..|rows| - 1], first, days, zone);
    }
  }

  lemma {:induction false} NoDays(rows: seq<Click>, first: int, zone: Time -> int)
    ensures Count(rows, Between(first, 0), zone) == 0
  {
    if rows != [] {
      NoDays(rows[..|rows| - 1], first, zone);
    }
  }

  lemma {:induction false} DailySum(daily: seq<DayPoint>, first: int, rows: seq<Click>, zone: Time -> int)
    requires DailyOK(daily, first, rows, zone)
    ensures DailyClicks(daily) == Count(rows, Between(first, |daily|), zone)
  {
    hide Count;
    if daily == [] {
      NoDays(rows, first, zone);
    } else {
      DailySum(daily[..|daily| - 1], first, rows, zone);
      NextDay(rows, first, |daily| - 1, zone);
    }
  }

  predicate AllWithin(rows: seq<Click>, first: int, days: nat, zone: Time -> int) {
    forall i :: 0 <= i < |rows| && IsCounted(rows[i], Traffic) ==> first <= zone(rows[i].created) < first + days
  }

  lemma {:induction false} WithinCount(rows: seq<Click>, first: int, days: nat, zone: Time -> int)
    ensures Count(rows, Between(first, days), zone) <= Count(rows, Counted(Traffic), zone)
    ensures Count(rows, Between(first, days), zone) == Count(rows, Counted(Traffic), zone)
       <==> AllWithin(rows, first, days, zone)
  {
    if rows != [] {
      var front := rows[..|rows| - 1];
      WithinCount(front, first, days, zone);
      assert rows == front + [rows[|rows| - 1]];
      assert forall i :: 0 <= i < |front| ==> rows[i] == front[i];
    }
  }

  /** The days add up to the period's clicks exactly when every counted click falls on a listed day. */
  lemma DaysConserve(s: Summary, daily: seq<DayPoint>, first: int, rows: seq<Click>, zone: Time -> int)
    requires SummaryOK(s, rows, zone) && DailyOK(daily, first, rows, zone)
    ensures DailyClicks(daily) == s.periodClicks <==> AllWithin(rows, first, |daily|, zone)
  {
    DailySum(daily, first, rows, zone);
    WithinCount(rows, first, |daily|, zone);
  }

  lemma {:induction false} CountedEqually(rows: seq<Click>, d: Dimension, zone: Time -> int)
    ensures Count(rows, Counted(d), zone) ==
      if d == Route || d == Status then |rows| else Count(rows, Counted(Traffic), zone)
  {
    if rows != [] {
      CountedEqually(rows[..|rows| - 1], d, zone);
    }
  }

  /** Every client breakdown and the traffic breakdown add up to the period's clicks; routes and statuses add
      up to all rows. */
  lemma BreakdownsConserve(s: Summary, r: seq<Point>, d: Dimension, rows: seq<Click>, zone: Time -> int)
    requires SummaryOK(s, rows, zone) && BreakdownOK(r, d, rows, zone)
    ensures |r| <= 10 && Total(r) == if d == Route || d == Status then |rows| else s.periodClicks
  {
    hide Tallied;
    var m :| Tallied(m, rows, d, zone) && SumsTo(m, Count(rows, Counted(d), zone)) && IsBreakdown(m, 10, r);
    BreakdownTotal(m, 10, r, Count(rows, Counted(d), zone));
    CountedEqually(rows, d, zone);
  }
}
