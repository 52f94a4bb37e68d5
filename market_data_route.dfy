/**
 * GET /api/market-data?symbol=...: a quote from Finnhub when its key is
 * set, else from Alpha Vantage when its key is set, else a generated one;
 * any provider failure also falls back to the generated quote.
 */
module MarketDataRoute {
  import opened Wrappers
  import opened Types
  import opened Strings
  import opened Runtime
  import opened RouteCommon
  import ApiClient

  /** The fields of a Finnhub quote: current price, change, change percent and an optional volume. */
  datatype FinnhubQuote = FinnhubQuote(c: real, d: real, dp: real, v: Option<int>)

  /** The fields of an Alpha Vantage "Global Quote", already parsed to numbers. */
  datatype GlobalQuote = GlobalQuote(price: real, change: real, changePercent: real, volume: int)

  /** An Alpha Vantage reply, which may lack its "Global Quote" entry. */
  datatype AlphaVantageBody = AlphaVantageBody(globalQuote: Option<GlobalQuote>)

  /** The base price of the mock quote: a fixed table for five tickers, 100 for any other. */
  function BasePrice(symbol: string): (p: real)
    ensures p > 0.0
    ensures symbol !in {"AAPL", "GOOGL", "MSFT", "TSLA", "AMZN"} ==> p == 100.0
  {
    if symbol == "AAPL" then 178.50
    else if symbol == "GOOGL" then 142.30
    else if symbol == "MSFT" then 380.20
    else if symbol == "TSLA" then 242.80
    else if symbol == "AMZN" then 155.70
    else 100.0
  }

  /**
   * `generateMockStockData`: a change in [-5, 5) around the base price, the
   * matching percentage, and a volume in [1 000 000, 11 000 000).
   */
  function GenerateMockStockData(symbol: string, changeDraw: Draw, volumeDraw: Draw, now: int): (q: StockData)
    ensures q.symbol == symbol && q.timestamp == now
    ensures -5.0 <= q.change < 5.0
    ensures q.price == BasePrice(symbol) + q.change
    ensures q.changePercent == q.change / BasePrice(symbol) * 100.0
    ensures 1000000 <= q.volume < 11000000
  {
    var basePrice := BasePrice(symbol);
    var change := (changeDraw as real - 0.5) * 10.0;
    StockData(symbol, basePrice + change, change, change / basePrice * 100.0,
              (volumeDraw as real * 10000000.0).Floor + 1000000, now)
  }

  /** `fetchFromFinnhub`: fails without a key, on a rejected or non-ok call, or on an undecodable body. */
  function FetchFromFinnhub(key: Option<string>, upstream: Upstream<FinnhubQuote>, symbol: string, now: int)
    : (r: Result<StockData, string>)
    ensures !Configured(key) ==> r == Failure("Finnhub API key not configured")
    ensures Configured(key) && upstream.Reply? && !upstream.ok ==> r == Failure("Failed to fetch data from Finnhub")
    ensures r.Success? <==> Configured(key) && upstream.Reply? && upstream.ok && upstream.body.Success?
    ensures r.Success? ==>
      var q := upstream.body.value;
      r.value == StockData(symbol, q.c, q.d, q.dp, if q.v.Some? then q.v.value else 0, now)
  {
    if !Configured(key) then Failure("Finnhub API key not configured")
    else match upstream
      case NetworkFailure(m) => Failure(m)
      case Reply(ok, body) =>
        if !ok then Failure("Failed to fetch data from Finnhub")
        else match body
          case Failure(m) => Failure(m)
          case Success(q) => Success(StockData(symbol, q.c, q.d, q.dp, if q.v.Some? then q.v.value else 0, now))
  }

  /** `fetchFromAlphaVantage`: as Finnhub, and a reply without "Global Quote" is an error. */
  function FetchFromAlphaVantage(key: Option<string>, upstream: Upstream<AlphaVantageBody>, symbol: string, now: int)
    : (r: Result<StockData, string>)
    ensures !Configured(key) ==> r == Failure("Alpha Vantage API key not configured")
    ensures Configured(key) && upstream.Reply? && !upstream.ok ==> r == Failure("Failed to fetch data from Alpha Vantage")
    ensures Configured(key) && upstream == Reply(true, Success(AlphaVantageBody(None))) ==>
      r == Failure("Invalid response from Alpha Vantage")
    ensures r.Success? <==>
      Configured(key) && upstream.Reply? && upstream.ok && upstream.body.Success? && upstream.body.value.globalQuote.Some?
    ensures r.Success? ==>
      var g := upstream.body.value.globalQuote.value;
      r.value == StockData(symbol, g.price, g.change, g.changePercent, g.volume, now)
  {
    if !Configured(key) then Failure("Alpha Vantage API key not configured")
    else match upstream
      case NetworkFailure(m) => Failure(m)
      case Reply(ok, body) =>
        if !ok then Failure("Failed to fetch data from Alpha Vantage")
        else match body
          case Failure(m) => Failure(m)
          case Success(b) =>
            match b.globalQuote
            case None => Failure("Invalid response from Alpha Vantage")
            case Some(g) => Success(StockData(symbol, g.price, g.change, g.changePercent, g.volume, now))
  }

  /** The quote chosen by the inner `try`: provider precedence, and the mock on any failure. */
  function ProviderQuote(symbol: string, env: Env, finnhub: Upstream<FinnhubQuote>, alpha: Upstream<AlphaVantageBody>,
                         changeDraw: Draw, volumeDraw: Draw, now: int): (q: StockData)
    ensures q.symbol == symbol
  {
    var mock := GenerateMockStockData(symbol, changeDraw, volumeDraw, now);
    if Configured(env.finnhubKey) then
      match FetchFromFinnhub(env.finnhubKey, finnhub, symbol, now)
      case Success(q) => q
      case Failure(_) => mock
    else if Configured(env.alphaVantageKey) then
      match FetchFromAlphaVantage(env.alphaVantageKey, alpha, symbol, now)
      case Success(q) => q
      case Failure(_) => mock
    else mock
  }

  /**
   * The handler: 400 for a missing or empty symbol; otherwise 200 with a
   * quote for the upper-cased symbol, whatever the providers do.
   */
  function Get(symbolParam: Option<string>, env: Env, finnhub: Upstream<FinnhubQuote>, alpha: Upstream<AlphaVantageBody>,
               changeDraw: Draw, volumeDraw: Draw, now: int): (r: HttpResponse<StockData>)
    ensures r.status == 400 <==> MissingParam(symbolParam)
    ensures r.status == 400 ==> r.body == ApiResponse(false, None, Some("Symbol parameter is required"))
    ensures r.status != 400 ==>
      r.status == 200 && r.body.success && r.body.error.None? && r.body.data.Some? &&
      r.body.data.value.symbol == ToUpper(symbolParam.value)
    ensures !MissingParam(symbolParam) ==>
      r.body.data == Some(ProviderQuote(ToUpper(symbolParam.value), env, finnhub, alpha, changeDraw, volumeDraw, now))
  {
    if MissingParam(symbolParam) then BadRequest("Symbol parameter is required")
    else Ok(ProviderQuote(ToUpper(symbolParam.value), env, finnhub, alpha, changeDraw, volumeDraw, now))
  }

  /**
   * Which source answers: Finnhub when its key is set and it succeeds,
   * Alpha Vantage when only its key is set and it succeeds, the mock in
   * every other case.
   */
  lemma ProviderPrecedence(symbol: string, env: Env, finnhub: Upstream<FinnhubQuote>, alpha: Upstream<AlphaVantageBody>,
                           changeDraw: Draw, volumeDraw: Draw, now: int)
    ensures var q := ProviderQuote(symbol, env, finnhub, alpha, changeDraw, volumeDraw, now);
      var fh := FetchFromFinnhub(env.finnhubKey, finnhub, symbol, now);
      var av := FetchFromAlphaVantage(env.alphaVantageKey, alpha, symbol, now);
      var mock := GenerateMockStockData(symbol, changeDraw, volumeDraw, now);
      (Configured(env.finnhubKey) && fh.Success? ==> q == fh.value) &&
      (Configured(env.finnhubKey) && fh.Failure? ==> q == mock) &&
      (!Configured(env.finnhubKey) && av.Success? ==> q == av.value) &&
      (!Configured(env.finnhubKey) && av.Failure? ==> q == mock)
  {
  }

  /**
   * Seen through the API client, for a symbol the URL layers leave alone
   * apart from `&`, `#` and `+`: the handler reads the query value, and the
   * client gets a quote for that value upper-cased; when the value is empty,
   * the handler's 400 reaches the caller as axios's status error, not as the
   * handler's own message.
   */
  lemma ClientAlwaysGetsQuote(symbol: string, env: Env, finnhub: Upstream<FinnhubQuote>,
                              alpha: Upstream<AlphaVantageBody>, changeDraw: Draw, volumeDraw: Draw, now: int)
    requires ApiClient.PlainQueryText(symbol)
    ensures var seen := ApiClient.QueryValue(symbol);
      var outcome := ApiClient.FetchMarketData(symbol, Get(Some(seen), env, finnhub, alpha, changeDraw, volumeDraw, now)).outcome;
      (seen != "" ==> outcome.Success? && outcome.value.symbol == ToUpper(seen)) &&
      (seen == "" ==> outcome == Failure("Request failed with status code 400"))
  {
    ApiClient.StatusMessages();
  }
}
