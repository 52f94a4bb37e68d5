/**
 * The records the dashboard exchanges between its route handlers, its API
 * client and its components. Instants (`timestamp`) are milliseconds since
 * the epoch rather than ISO-8601 text; prices, scores and percentages are
 * reals.
 */
module Types {
  import opened Wrappers

  /** The three sentiment labels; no other label exists. */
  datatype SentimentType = Positive | Negative | Neutral

  datatype Theme = Light | Dark

  /** The chart ranges '1H', '4H', '1D' and '1W'. */
  datatype TimeRange = OneHour | FourHours | OneDay | OneWeek

  /** One quote for a ticker. */
  datatype StockData = StockData(
    symbol: string,
    price: real,
    change: real,
    changePercent: real,
    volume: int,
    timestamp: int)

  /** The result of a sentiment analysis; `score` is documented in [-1, 1] and `confidence` in [0, 1]. */
  datatype SentimentData = SentimentData(
    symbol: string,
    sentiment: SentimentType,
    score: real,
    confidence: real,
    summary: string,
    timestamp: int)

  /** The documented ranges of a sentiment result; the type itself does not enforce them. */
  predicate InDocumentedRange(d: SentimentData)
  {
    -1.0 <= d.score <= 1.0 && 0.0 <= d.confidence <= 1.0
  }

  /** One point of the sentiment history chart. */
  datatype SentimentHistoryPoint = SentimentHistoryPoint(timestamp: int, score: real, sentiment: SentimentType)

  /** A news headline; the sentiment tag and the summary are optional. */
  datatype NewsItem = NewsItem(
    id: string,
    headline: string,
    source: string,
    url: string,
    timestamp: int,
    sentiment: Option<SentimentType>,
    summary: Option<string>)

  /** The user's preferences. */
  datatype DashboardState = DashboardState(
    selectedStocks: seq<string>,
    refreshInterval: int,
    theme: Theme,
    timeRange: TimeRange)

  /** The envelope every route handler answers with. */
  datatype ApiResponse<T> = ApiResponse(success: bool, data: Option<T>, error: Option<string>)

  /** The label as the TypeScript string literal spells it. */
  function SentimentName(s: SentimentType): (r: string)
    ensures r in {"positive", "negative", "neutral"}
    ensures s == Positive <==> r == "positive"
    ensures s == Negative <==> r == "negative"
  {
    match s
    case Positive => "positive"
    case Negative => "negative"
    case Neutral => "neutral"
  }
}
