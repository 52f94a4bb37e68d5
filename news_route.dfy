/**
 * GET /api/news?symbol=...: company news from Finnhub when its key is set,
 * else from NewsAPI when its key is set, else six generated items; any
 * provider failure also falls back to the generated items.
 */
module NewsRoute {
  import opened Wrappers
  import opened Types
  import opened Strings
  import opened Runtime
  import opened RouteCommon
  import ApiClient

  const MOCK_SOURCES: seq<string> := ["Bloomberg", "Reuters", "CNBC", "Financial Times", "Wall Street Journal", "MarketWatch"]

  /** The ten mock headline templates, filled in with the symbol. */
  function Headlines(symbol: string): (r: seq<string>)
    ensures |r| == 10
  {
    [ symbol + " Reports Strong Quarterly Earnings, Beats Expectations",
      "Analysts Upgrade " + symbol + " Stock to \"Buy\" Rating",
      symbol + " Announces New Product Launch Next Quarter",
      "Market Volatility Impacts " + symbol + " Stock Performance",
      symbol + " CEO Discusses Future Growth Strategy",
      "Investors Show Confidence in " + symbol + "'s Long-term Vision",
      symbol + " Faces Regulatory Challenges in Key Markets",
      "Technical Analysis: " + symbol + " Shows Bullish Momentum",
      symbol + " Reports Record Revenue for Fiscal Year",
      "Institutional Investors Increase " + symbol + " Holdings" ]
  }

  function MockUrl(symbol: string, index: nat): string
  {
    "https://example.com/news/" + ToLower(symbol) + "/" + NatToString(index)
  }

  function MockId(symbol: string, now: nat, index: nat): string
  {
    "news-" + symbol + "-" + NatToString(now) + "-" + NatToString(index)
  }

  /** The mock item at position `index`, `index` hours old, with a randomly drawn label. */
  function MockNewsItem(symbol: string, now: nat, index: nat, draw: Draw): (item: NewsItem)
    requires index < 6
    ensures item.id == MockId(symbol, now, index) && item.headline == Headlines(symbol)[index]
    ensures item.source == MOCK_SOURCES[index] && item.url == MockUrl(symbol, index)
    ensures item.timestamp == now - index * HOUR_MS && item.sentiment.Some? && item.summary.None?
  {
    NewsItem(MockId(symbol, now, index), Headlines(symbol)[index], MOCK_SOURCES[index % |MOCK_SOURCES|],
             MockUrl(symbol, index), now - index * HOUR_MS, Some(PickSentiment(draw)), None)
  }

  /**
   * `generateMockNews`: the first six headlines, one per source in order,
   * most recent first and one hour apart, each with a label and no summary.
   */
  function GenerateMockNews(symbol: string, now: nat, draws: seq<Draw>): (r: seq<NewsItem>)
    requires |draws| == 6
    ensures |r| == 6
    ensures r[0].timestamp == now
    ensures forall i :: 0 < i < |r| ==> r[i].timestamp == r[i - 1].timestamp - HOUR_MS
    ensures forall i :: 0 <= i < |r| ==>
      r[i].headline == Headlines(symbol)[i] && r[i].source == MOCK_SOURCES[i] &&
      r[i].url == MockUrl(symbol, i) && r[i].sentiment.Some? && r[i].summary.None?
  {
    seq(6, i requires 0 <= i < 6 => MockNewsItem(symbol, now, i, draws[i]))
  }

  /** The mock ids are pairwise distinct: each ends in its own index digit. */
  lemma MockNewsIdsDistinct(symbol: string, now: nat, draws: seq<Draw>)
    requires |draws| == 6
    ensures var r := GenerateMockNews(symbol, now, draws);
      forall i, j :: 0 <= i < j < |r| ==> r[i].id != r[j].id
  {
    var r := GenerateMockNews(symbol, now, draws);
    forall i, j | 0 <= i < j < |r| ensures r[i].id != r[j].id {
      var a, b := r[i].id, r[j].id;
      assert a[|a| - 1] == DigitChar(i);
      assert b[|b| - 1] == DigitChar(j);
    }
  }

  /** One Finnhub company-news entry; its numeric id may be missing or 0. */
  datatype FinnhubArticle = FinnhubArticle(
    id: Option<nat>,
    headline: string,
    source: string,
    url: string,
    datetime: int,
    summary: Option<string>)

  /** `${symbol}-${item.id || index}`: the upstream id when it is non-zero, else the position. */
  function FinnhubItem(symbol: string, item: FinnhubArticle, index: nat): (n: NewsItem)
    ensures item.id.Some? && item.id.value != 0 ==> n.id == symbol + "-" + NatToString(item.id.value)
    ensures item.id.None? || item.id.value == 0 ==> n.id == symbol + "-" + NatToString(index)
    ensures n.headline == item.headline && n.source == item.source && n.url == item.url
    ensures n.timestamp == item.datetime * 1000 && n.summary == item.summary && n.sentiment.None?
  {
    var suffix := if item.id.Some? && item.id.value != 0 then item.id.value else index;
    NewsItem(symbol + "-" + NatToString(suffix), item.headline, item.source, item.url,
             item.datetime * 1000, None, item.summary)
  }

  /** `fetchNewsFromFinnhub`: at most the first ten entries, in upstream order. */
  function FetchNewsFromFinnhub(key: Option<string>, upstream: Upstream<seq<FinnhubArticle>>, symbol: string)
    : (r: Result<seq<NewsItem>, string>)
    ensures !Configured(key) ==> r == Failure("Finnhub API key not configured")
    ensures Configured(key) && upstream.Reply? && !upstream.ok ==> r == Failure("Failed to fetch news from Finnhub")
    ensures r.Success? <==> Configured(key) && upstream.Reply? && upstream.ok && upstream.body.Success?
    ensures r.Success? ==>
      var items := upstream.body.value;
      |r.value| <= 10 && |r.value| == (if |items| < 10 then |items| else 10) &&
      forall i :: 0 <= i < |r.value| ==> r.value[i] == FinnhubItem(symbol, items[i], i)
  {
    if !Configured(key) then Failure("Finnhub API key not configured")
    else match upstream
      case NetworkFailure(m) => Failure(m)
      case Reply(ok, body) =>
        if !ok then Failure("Failed to fetch news from Finnhub")
        else match body
          case Failure(m) => Failure(m)
          case Success(items) =>
            var kept := if |items| < 10 then items else items[..10];
            Success(seq(|kept|, i requires 0 <= i < |kept| => FinnhubItem(symbol, kept[i], i)))
  }

  /**
   * The Finnhub ids can collide: an entry whose upstream id is 3 and the
   * entry at position 3 without an id both get "<symbol>-3".
   */
  lemma FinnhubIdsCanCollide()
    ensures var withId := FinnhubArticle(Some(3), "h", "s", "u", 0, None);
      var withoutId := FinnhubArticle(None, "h", "s", "u", 0, None);
      var r := FetchNewsFromFinnhub(Some("key"), Reply(true, Success([withId, withoutId, withoutId, withoutId])), "AAPL");
      r.Success? && |r.value| == 4 && r.value[0].id == r.value[3].id
  {
  }

  /** One NewsAPI article. */
  datatype NewsApiArticle = NewsApiArticle(
    title: string,
    sourceName: string,
    url: string,
    publishedAt: int,
    description: Option<string>)

  /** `fetchNewsFromNewsAPI`: every article, in order, with an id made of the symbol, the clock and the position. */
  function FetchNewsFromNewsApi(key: Option<string>, upstream: Upstream<seq<NewsApiArticle>>, symbol: string, now: nat)
    : (r: Result<seq<NewsItem>, string>)
    ensures !Configured(key) ==> r == Failure("News API key not configured")
    ensures Configured(key) && upstream.Reply? && !upstream.ok ==> r == Failure("Failed to fetch news from NewsAPI")
    ensures r.Success? <==> Configured(key) && upstream.Reply? && upstream.ok && upstream.body.Success?
    ensures r.Success? ==>
      var articles := upstream.body.value;
      |r.value| == |articles| &&
      forall i :: 0 <= i < |r.value| ==>
        r.value[i].id == symbol + "-" + NatToString(now) + "-" + NatToString(i) &&
        r.value[i].headline == articles[i].title && r.value[i].source == articles[i].sourceName &&
        r.value[i].url == articles[i].url && r.value[i].timestamp == articles[i].publishedAt &&
        r.value[i].summary == articles[i].description && r.value[i].sentiment.None?
  {
    if !Configured(key) then Failure("News API key not configured")
    else match upstream
      case NetworkFailure(m) => Failure(m)
      case Reply(ok, body) =>
        if !ok then Failure("Failed to fetch news from NewsAPI")
        else match body
          case Failure(m) => Failure(m)
          case Success(articles) =>
            Success(seq(|articles|, i requires 0 <= i < |articles| =>
              NewsItem(symbol + "-" + NatToString(now) + "-" + NatToString(i), articles[i].title,
                       articles[i].sourceName, articles[i].url, articles[i].publishedAt, None, articles[i].description)))
  }

  /**
   * The items chosen by the inner `try`: Finnhub with the upper-cased
   * symbol, else NewsAPI with the symbol as given, else the mock with the
   * upper-cased symbol, which also replaces any failure.
   */
  function ProviderNews(symbol: string, env: Env, finnhub: Upstream<seq<FinnhubArticle>>,
                        newsApi: Upstream<seq<NewsApiArticle>>, draws: seq<Draw>, now: nat): (r: seq<NewsItem>)
    requires |draws| == 6
    ensures |r| <= 10 || (!Configured(env.finnhubKey) && Configured(env.newsApiKey))
    ensures !Configured(env.finnhubKey) && !Configured(env.newsApiKey) ==> r == GenerateMockNews(ToUpper(symbol), now, draws)
  {
    var mock := GenerateMockNews(ToUpper(symbol), now, draws);
    if Configured(env.finnhubKey) then
      match FetchNewsFromFinnhub(env.finnhubKey, finnhub, ToUpper(symbol))
      case Success(items) => items
      case Failure(_) => mock
    else if Configured(env.newsApiKey) then
      match FetchNewsFromNewsApi(env.newsApiKey, newsApi, symbol, now)
      case Success(items) => items
      case Failure(_) => mock
    else mock
  }

  /** The handler: 400 for a missing or empty symbol, otherwise 200 with a list of items. */
  function Get(symbolParam: Option<string>, env: Env, finnhub: Upstream<seq<FinnhubArticle>>,
               newsApi: Upstream<seq<NewsApiArticle>>, draws: seq<Draw>, now: nat): (r: HttpResponse<seq<NewsItem>>)
    requires |draws| == 6
    ensures r.status == 400 <==> MissingParam(symbolParam)
    ensures r.status == 400 ==> r.body == ApiResponse(false, None, Some("Symbol parameter is required"))
    ensures r.status != 400 ==> r.status == 200 && r.body.success && r.body.error.None? && r.body.data.Some?
    ensures !MissingParam(symbolParam) ==>
      r.body.data == Some(ProviderNews(symbolParam.value, env, finnhub, newsApi, draws, now))
  {
    if MissingParam(symbolParam) then BadRequest("Symbol parameter is required")
    else Ok(ProviderNews(symbolParam.value, env, finnhub, newsApi, draws, now))
  }

  /** Which source answers, and with which spelling of the symbol. */
  lemma NewsPrecedence(symbol: string, env: Env, finnhub: Upstream<seq<FinnhubArticle>>,
                       newsApi: Upstream<seq<NewsApiArticle>>, draws: seq<Draw>, now: nat)
    requires |draws| == 6
    ensures var items := ProviderNews(symbol, env, finnhub, newsApi, draws, now);
      var fh := FetchNewsFromFinnhub(env.finnhubKey, finnhub, ToUpper(symbol));
      var na := FetchNewsFromNewsApi(env.newsApiKey, newsApi, symbol, now);
      var mock := GenerateMockNews(ToUpper(symbol), now, draws);
      (Configured(env.finnhubKey) && fh.Success? ==> items == fh.value) &&
      (Configured(env.finnhubKey) && fh.Failure? ==> items == mock) &&
      (!Configured(env.finnhubKey) && na.Success? ==> items == na.value) &&
      (!Configured(env.finnhubKey) && na.Failure? ==> items == mock)
  {
  }

  /** With no provider key the handler answers with the six mock items for the upper-cased symbol. */
  lemma NoKeysGivesMock(symbol: string, env: Env, finnhub: Upstream<seq<FinnhubArticle>>,
                        newsApi: Upstream<seq<NewsApiArticle>>, draws: seq<Draw>, now: nat)
    requires |draws| == 6 && symbol != ""
    requires !Configured(env.finnhubKey) && !Configured(env.newsApiKey)
    ensures var r := Get(Some(symbol), env, finnhub, newsApi, draws, now);
      r.status == 200 && r.body.data == Some(GenerateMockNews(ToUpper(symbol), now, draws)) &&
      |r.body.data.value| == 6
  {
  }

  /**
   * Seen through the API client, for a symbol the URL layers leave alone
   * apart from `&`, `#` and `+`: the client gets the provider's list for the
   * query value the handler reads; when that value is empty, the handler's
   * 400 reaches the caller as axios's status error.
   */
  lemma ClientAlwaysGetsNews(symbol: string, env: Env, finnhub: Upstream<seq<FinnhubArticle>>,
                             newsApi: Upstream<seq<NewsApiArticle>>, draws: seq<Draw>, now: nat)
    requires |draws| == 6 && ApiClient.PlainQueryText(symbol)
    ensures var seen := ApiClient.QueryValue(symbol);
      var outcome := ApiClient.FetchNews(symbol, Get(Some(seen), env, finnhub, newsApi, draws, now)).outcome;
      (seen != "" ==> outcome == Success(ProviderNews(seen, env, finnhub, newsApi, draws, now))) &&
      (seen == "" ==> outcome == Failure("Request failed with status code 400"))
  {
    ApiClient.StatusMessages();
  }
}
