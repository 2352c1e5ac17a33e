/**
  The market table of the scraper (`get_query_params` and the per-market constants
  of `scrape_daterange`): which OASIS report and market run each market is queried
  with, how many days one query may span, which CSV column holds the price, and the
  advisories printed for real-time windows longer than the provider allows.
*/
module Markets {
  import opened Wrappers
  import opened Times

  datatype Market = DA | RT5 | RT15

  function MarketName(m: Market): string {
    match m
    case DA => "DA"
    case RT5 => "RT5"
    case RT15 => "RT15"
  }

  /** The `assert market in ('RT5', 'RT15', 'DA')` guard: any other name is rejected. */
  function ParseMarket(name: string): (r: Option<Market>)
    ensures r.Some? <==> name == "DA" || name == "RT5" || name == "RT15"
    ensures r.Some? ==> MarketName(r.value) == name
  {
    if name == "DA" then Some(DA)
    else if name == "RT5" then Some(RT5)
    else if name == "RT15" then Some(RT15)
    else None
  }

  lemma ParseMarketName(m: Market)
    ensures ParseMarket(MarketName(m)) == Some(m)
  {
  }

  /** Days covered by one query (`chunk_period`). */
  function ChunkPeriod(m: Market): (k: nat)
    ensures k >= 1
    ensures m == RT5 ==> k == 1
    ensures m == RT15 ==> k == 15
    ensures m == DA ==> k == 30
  {
    match m
    case RT5 => 1
    case RT15 => 15
    case DA => 30
  }

  /** The CSV column holding the price (`pricecol`). */
  datatype PriceColumn = MW | PRC

  function PriceColumnOf(m: Market): (c: PriceColumn)
    ensures c == PRC <==> m == RT15
  {
    match m
    case DA => MW
    case RT5 => MW
    case RT15 => PRC
  }

  /** The query-string parameters sent to OASIS. */
  datatype QueryParams = QueryParams(
    node: string,
    version: int,
    startDateTime: string,
    endDateTime: string,
    resultFormat: int,
    queryName: string,
    marketRunId: string)

  /** Non-fatal warnings printed while building a query. */
  datatype Advisory =
    | SingleDayExceeded    // an RT5 window longer than one day
    | LengthExceeded       // an RT15 window longer than fifteen days

  datatype Query = Query(params: QueryParams, advisories: seq<Advisory>)

  datatype ScrapeError = InvalidMarket(name: string)

  /** The longest span, in days, a market's query may cover without an advisory. */
  function SpanLimit(m: Market): Option<nat> {
    match m
    case DA => None
    case RT5 => Some(1)
    case RT15 => Some(15)
  }

  /**
    The body of `get_query_params` once the market is known. `stampOf` gives the
    localised and converted instant of a day number, as `format_time` would compute it.
  */
  function QueryFor(node: string, m: Market, start: int, end: int, stampOf: int -> Stamp): (q: Query)
    ensures q.params.node == node && q.params.version == 1 && q.params.resultFormat == 6
    ensures q.params.startDateTime == FormatTime(stampOf(start))
    ensures q.params.endDateTime == FormatTime(stampOf(end))
    ensures m == DA ==> q.params.queryName == "PRC_LMP" && q.params.marketRunId == "DAM"
    ensures m == RT5 ==> q.params.queryName == "PRC_INTVL_LMP" && q.params.marketRunId == "RTM"
    ensures m == RT15 ==> q.params.queryName == "PRC_RTPD_LMP" && q.params.marketRunId == "RTPD"
    ensures q.advisories == [] <==> SpanLimit(m).None? || end - start <= SpanLimit(m).value
    ensures SingleDayExceeded in q.advisories <==> m == RT5 && end - start > 1
    ensures LengthExceeded in q.advisories <==> m == RT15 && end - start > 15
  {
    var base := QueryParams(node, 1, FormatTime(stampOf(start)), FormatTime(stampOf(end)), 6, "", "");
    match m
    case DA => Query(base.(queryName := "PRC_LMP", marketRunId := "DAM"), [])
    case RT5 =>
      Query(base.(queryName := "PRC_INTVL_LMP", marketRunId := "RTM"),
            if end - start > 1 then [SingleDayExceeded] else [])
    case RT15 =>
      Query(base.(queryName := "PRC_RTPD_LMP", marketRunId := "RTPD"),
            if end - start > 15 then [LengthExceeded] else [])
  }

  /** `get_query_params`: fails for a market name outside the table. */
  function GetQueryParams(node: string, market: string, start: int, end: int, stampOf: int -> Stamp)
    : (r: Result<Query, ScrapeError>)
    ensures r.Failure? <==> ParseMarket(market).None?
    ensures r.Failure? ==> r.error == InvalidMarket(market)
    ensures r.Success? ==> r.value == QueryFor(node, ParseMarket(market).value, start, end, stampOf)
  {
    match ParseMarket(market)
    case None => Failure(InvalidMarket(market))
    case Some(m) => Success(QueryFor(node, m, start, end, stampOf))
  }

  /** Different markets are sent to different (report, market run) pairs. */
  lemma ReportTableInjective(node: string, m1: Market, m2: Market, start: int, end: int, stampOf: int -> Stamp)
    requires m1 != m2
    ensures var p1, p2 := QueryFor(node, m1, start, end, stampOf).params, QueryFor(node, m2, start, end, stampOf).params;
      (p1.queryName, p1.marketRunId) != (p2.queryName, p2.marketRunId)
  {
  }

  /** A query's timestamps carry the whole window: both ends can be read back from the parameters. */
  lemma QueryTimesRoundTrip(node: string, m: Market, start: int, end: int, stampOf: int -> Stamp)
    requires ValidStamp(stampOf(start)) && ValidStamp(stampOf(end))
    ensures var p := QueryFor(node, m, start, end, stampOf).params;
      ParseTime(p.startDateTime) == Some(stampOf(start)) && ParseTime(p.endDateTime) == Some(stampOf(end))
  {
    FormatTimeRoundTrip(stampOf(start));
    FormatTimeRoundTrip(stampOf(end));
  }
}
