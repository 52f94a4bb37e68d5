/**
 * The browser-side API client: each call sends one request to a route
 * handler through axios and either returns the data of the handler's
 * `{success, data, error}` envelope or raises an error. The handler's
 * response (status and envelope) is a parameter. axios is created without a
 * `validateStatus`, so a reply outside 2xx rejects before the envelope is
 * looked at.
 */
module ApiClient {
  import opened Wrappers
  import opened Types
  import opened Strings
  import opened RouteCommon

  const MARKET_DATA_ERROR := "Failed to fetch market data"
  const SENTIMENT_ERROR := "Failed to analyze sentiment"
  const NEWS_ERROR := "Failed to fetch news"

  /** The start of the message axios rejects with when a reply's status is outside 2xx. */
  const STATUS_ERROR_PREFIX := "Request failed with status code "

  /** The request sent to the handlers mounted under `/api`. */
  datatype Request = Get(path: string) | Post(path: string, symbol: string, text: string)

  /** One call: the request it sends and what it returns or raises. */
  datatype Call<T> = Call(request: Request, outcome: Result<T, string>)

  /**
   * The shared check on a 2xx envelope: a successful envelope with data
   * yields that data; otherwise the error is the envelope's error when it is
   * non-empty, and the endpoint's default message when it is missing or empty.
   */
  function Unwrap<T>(reply: ApiResponse<T>, fallback: string): (r: Result<T, string>)
    ensures r.Success? <==> reply.success && reply.data.Some?
    ensures r.Success? ==> r.value == reply.data.value
    ensures r.Failure? && reply.error.Some? && reply.error.value != "" ==> r.error == reply.error.value
    ensures r.Failure? && (reply.error.None? || reply.error.value == "") ==> r.error == fallback
  {
    if reply.success && reply.data.Some? then Success(reply.data.value)
    else if reply.error.Some? && reply.error.value != "" then Failure(reply.error.value)
    else Failure(fallback)
  }

  /** axios's default `validateStatus`: only a 2xx reply resolves. */
  predicate Resolves(status: nat)
  {
    200 <= status < 300
  }

  /**
   * What an `await apiClient.get/post(...)` followed by the envelope check
   * gives: a reply outside 2xx rejects with axios's status message, whatever
   * its envelope says; a 2xx reply is unwrapped.
   */
  function Receive<T>(response: HttpResponse<T>, fallback: string): (r: Result<T, string>)
    ensures r.Success? <==> Resolves(response.status) && response.body.success && response.body.data.Some?
    ensures r.Success? ==> r.value == response.body.data.value
    ensures !Resolves(response.status) ==> r == Failure(STATUS_ERROR_PREFIX + NatToString(response.status))
    ensures Resolves(response.status) ==> r == Unwrap(response.body, fallback)
  {
    if Resolves(response.status) then Unwrap(response.body, fallback)
    else Failure(STATUS_ERROR_PREFIX + NatToString(response.status))
  }

  /** `fetchMarketData`: GET `/market-data?symbol=<symbol>` with the symbol as given, unencoded. */
  function FetchMarketData(symbol: string, response: HttpResponse<StockData>): (c: Call<StockData>)
    ensures c.request == Get("/market-data?symbol=" + symbol)
    ensures c.outcome == Receive(response, MARKET_DATA_ERROR)
  {
    Call(Get("/market-data?symbol=" + symbol), Receive(response, MARKET_DATA_ERROR))
  }

  /** `analyzeSentiment`: POST `/sentiment` with both fields, whatever they hold. */
  function AnalyzeSentiment(symbol: string, text: string, response: HttpResponse<SentimentData>): (c: Call<SentimentData>)
    ensures c.request == Post("/sentiment", symbol, text)
    ensures c.outcome == Receive(response, SENTIMENT_ERROR)
  {
    Call(Post("/sentiment", symbol, text), Receive(response, SENTIMENT_ERROR))
  }

  /** `fetchNews`: GET `/news?symbol=<symbol>` with the symbol as given, unencoded. */
  function FetchNews(symbol: string, response: HttpResponse<seq<NewsItem>>): (c: Call<seq<NewsItem>>)
    ensures c.request == Get("/news?symbol=" + symbol)
    ensures c.outcome == Receive(response, NEWS_ERROR)
  {
    Call(Get("/news?symbol=" + symbol), Receive(response, NEWS_ERROR))
  }

  /**
   * What the handler's `searchParams.get('symbol')` returns for the query
   * `symbol=<symbol>` that the client writes without encoding: the value
   * stops at the first `&` (it starts the next parameter) or `#` (it starts
   * the fragment, which is never sent), and each `+` reads as a space.
   */
  function QueryValue(symbol: string): (v: string)
    ensures |v| <= |symbol|
    ensures '&' !in v && '#' !in v && '+' !in v
    ensures '&' !in symbol && '#' !in symbol && '+' !in symbol ==> v == symbol
  {
    if symbol == [] then []
    else if symbol[0] == '&' || symbol[0] == '#' then []
    else [if symbol[0] == '+' then ' ' else symbol[0]] + QueryValue(symbol[1..])
  }

  /**
   * A symbol without the characters the URL layers rewrite besides `&`, `#`
   * and `+`: no `%` (percent-decoded by the handler) and no space or control
   * character (stripped or re-encoded by the browser's URL parser).
   */
  predicate PlainQueryText(symbol: string)
  {
    forall i :: 0 <= i < |symbol| ==> symbol[i] > ' ' && symbol[i] != '%'
  }

  /** Symbols with `&`, `#` or `+` reach the handler altered. */
  lemma QueryAltersSymbols()
    ensures QueryValue("AT&T") == "AT"
    ensures QueryValue("X#1") == "X"
    ensures QueryValue("A+B") == "A B"
  {
    assert QueryValue("T") == "T";
    assert QueryValue("&T") == "";
    assert QueryValue("T&T") == "T";
    assert QueryValue("#1") == "";
    assert QueryValue("B") == "B";
    assert QueryValue("+B") == " B";
  }

  /** axios's messages for the handlers' two error statuses. */
  lemma {:induction false} StatusMessages()
    ensures STATUS_ERROR_PREFIX + NatToString(400) == "Request failed with status code 400"
    ensures STATUS_ERROR_PREFIX + NatToString(500) == "Request failed with status code 500"
  {
    assert NatToString(4) == "4" && NatToString(5) == "5";
    assert NatToString(40) == NatToString(4) + [DigitChar(0)];
    assert NatToString(50) == NatToString(5) + [DigitChar(0)];
    assert NatToString(400) == "400" && NatToString(500) == "500";
  }

  /**
   * A handler's 400 or 500 never reaches the caller with its own message:
   * axios rejects it with the status text instead.
   */
  lemma HandlerErrorsBecomeStatusErrors<T>(message: string, thrown: Thrown, fallback: string)
    ensures Receive(BadRequest<T>(message), fallback) == Failure("Request failed with status code 400")
    ensures Receive(ServerError<T>(thrown), fallback) == Failure("Request failed with status code 500")
  {
    StatusMessages();
  }

  /** The three default messages are pairwise distinct, so a caller can tell the endpoints apart. */
  lemma DefaultMessagesDistinct()
    ensures MARKET_DATA_ERROR != SENTIMENT_ERROR && MARKET_DATA_ERROR != NEWS_ERROR && SENTIMENT_ERROR != NEWS_ERROR
  {
  }

  /** A 2xx success envelope carrying no news is an empty list, not an error. */
  lemma EmptyNewsIsNotAnError(symbol: string, error: Option<string>)
    ensures FetchNews(symbol, HttpResponse(200, ApiResponse(true, Some([]), error))).outcome == Success([])
  {
  }

  /**
   * The client does not normalise the symbol: two different symbols, such
   * as "aapl" and "AAPL", give two different requests.
   */
  lemma {:induction false} RequestsKeepSymbol(a: string, b: string, ra: HttpResponse<StockData>, rb: HttpResponse<StockData>,
                                              na: HttpResponse<seq<NewsItem>>, nb: HttpResponse<seq<NewsItem>>)
    requires a != b
    ensures FetchMarketData(a, ra).request != FetchMarketData(b, rb).request
    ensures FetchNews(a, na).request != FetchNews(b, nb).request
  {
    var m := "/market-data?symbol=";
    assert (m + a)[|m|..] == a && (m + b)[|m|..] == b;
    var n := "/news?symbol=";
    assert (n + a)[|n|..] == a && (n + b)[|n|..] == b;
  }
}
