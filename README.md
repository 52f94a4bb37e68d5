# Trading sentiment dashboard: a Dafny model of its logic

The dashboard shows quotes, news and sentiment scores for the stock tickers
a user selects. Its logic sits in four places, and each is a module here.

1. **The preference store** (`DashboardContext`). It keeps the selected
   tickers, the refresh interval, the theme and the chart range. Each action
   rebuilds the record from the previous one. After every change the record
   is written to local storage under `dashboardState`, and it is read back
   once when the store mounts. The rebuilds are pure functions
   (`AddStockUpdate`, `RemoveStockUpdate`, ...). The store is the class
   `DashboardProvider`: its fields are `state`, `persisted` and `darkClass`,
   and its methods apply the pure functions.
2. **The components that feed the store.**
   - `StockSelector`: the search box upper-cases what is typed and offers
     popular tickers as suggestions. Adding goes through a guard and then
     calls the store.
   - `DashboardPage`: picks the primary ticker and chooses the polling
     intervals for live and paused mode. It also flips live/paused, records
     the last update and builds the "Tracking n stocks" notice.
   - `SentimentChart`: maps each time range to an hour count and builds a
     mock hourly history with a count-down loop. It also produces the chart
     points and their average.
3. **The API client** (`ApiClient`). It sends each request through axios
   and unwraps the `{success, data, error}` envelope of a 2xx reply. A reply
   outside 2xx rejects with axios's own status message. The handler's
   response is a parameter. `QueryValue` gives the value a handler reads
   from the unencoded query string the client builds.
4. **The three route handlers** (`MarketDataRoute`, `NewsRoute`,
   `SentimentRoute`, with shared pieces in `RouteCommon`). Each handler
   validates its parameters and tries providers in a fixed order. Any
   provider failure falls back to generated mock data. The environment keys,
   the upstream replies, the clock (`now`) and every `Math.random()` draw are
   parameters. A draw is the subset type `Runtime.Draw`, the reals in [0, 1).

Helper modules: `Wrappers` (Option, Result), `Strings` (the JavaScript string
built-ins used: `toUpperCase`, `toLowerCase`, `includes`, decimal rendering)
and `Seqs` (`filter`, with order and uniqueness facts).

## Behaviour of the code worth knowing

- **Pausing does not stop polling.** When paused, the page passes
  `undefined` as the refetch interval. The hooks' default parameters then
  apply: 30000 ms for market data and 60000 ms for news
  (`lib/hooks/useMarketData.ts:13`, `lib/hooks/useNews.ts:13`). Polling goes
  on. At the default refresh interval of 30 s, the paused intervals equal the
  live ones (`DashboardPage.PausedStillPolls`).
- **No symbol normalisation in the store.** `addStock` does not trim,
  upper-case or reject the empty string. Only the selector upper-cases its
  input and refuses empty input.
- **Saved state is not checked on load.** A parseable saved record is taken
  as it is, duplicates included (`DashboardContext.LoadKeepsDuplicates`). It
  is neither normalised nor rejected.
- **The client does nothing to its inputs.** It neither upper-cases the
  symbol (`ApiClient.RequestsKeepSymbol`) nor refuses empty text. An empty
  text is refused by the sentiment handler with a 400
  (`SentimentRoute.EmptyTextRefusedByHandler`).
- **Handler error messages never reach the caller.** axios is created
  without a `validateStatus`, so every 400 and 500 reply rejects with
  "Request failed with status code 400" (or 500). The envelope's message is
  never read (`ApiClient.HandlerErrorsBecomeStatusErrors`). The envelope
  check in the client only ever sees 2xx replies.
- **The symbol is put into the query string unencoded.** A symbol with `&`
  or `#` reaches the handler cut short, and `+` arrives as a space. For
  example, "AT&T" is quoted as "AT" (`ApiClient.QueryAltersSymbols`).
- **OpenAI results are not range-checked.** Their score and confidence pass
  through unchecked, so the documented ranges can be broken
  (`SentimentRoute.OpenAiScoreUnchecked`).
- **No hand-written cache layer.** Request de-duplication, retries,
  staleness and reference-counted timers all belong to the query library
  the hooks wrap. That library is not part of this model.

## Model

| member | source | states |
|---|---|---|
| `Types.SentimentName` | lib/types.ts:12 | The three labels are spelt "positive", "negative" and "neutral", and distinct labels have distinct spellings. |
| `Strings.ToUpper` | components/dashboard/StockSelector.tsx:21 | Upper-casing keeps the length and replaces each lower-case letter by its own capital. Every other character is kept. |
| `Strings.ToUpperIdempotent` | components/dashboard/StockSelector.tsx:21 | Upper-casing an upper-cased text changes nothing. |
| `Seqs.Filter` | components/dashboard/StockSelector.tsx:26-28 | `filter` keeps every occurrence of each element that passes the test and drops every other, as a subsequence of the input. |
| `Seqs.FilterAppend` | context/DashboardContext.tsx:77 | Filtering distributes over concatenation, so the kept elements stay in their relative order. |
| `Seqs.FilterNoDuplicates` | context/DashboardContext.tsx:77 | Filtering a list without duplicates gives a list without duplicates. |
| `DashboardContext.LoadedState` | context/DashboardContext.tsx:18-40 | On load, a parseable saved record replaces the defaults (AAPL, 30000, light, 1D). A missing, empty or unparsable one leaves the defaults. |
| `DashboardContext.SaveThenLoad` | context/DashboardContext.tsx:29-47 | Loading the record that was saved gives back the same state. |
| `DashboardContext.LoadKeepsDuplicates` | context/DashboardContext.tsx:29-40 | A saved list `["AAPL", "AAPL"]` is loaded with its duplicate. |
| `DashboardContext.Without` | context/DashboardContext.tsx:77 | The filtered list lacks the stock, keeps every other stock, and is a subsequence of the original. |
| `DashboardContext.WithoutCounts` | context/DashboardContext.tsx:77 | Removing a stock keeps the multiplicity of every other entry. |
| `DashboardContext.WithoutAbsent` | context/DashboardContext.tsx:77 | Filtering out a stock that is not there returns the same list. |
| `DashboardContext.SelectedStocksUpdate` | context/DashboardContext.tsx:61-63 | Replaces the list as given. The other three fields are untouched. |
| `DashboardContext.AddStockUpdate` | context/DashboardContext.tsx:65-72 | Afterwards the stock is selected. If it was already there, the state is unchanged. Otherwise the old list is a prefix, followed by the stock alone. The other fields are untouched. |
| `DashboardContext.AddStockIdempotent` | context/DashboardContext.tsx:65-72 | Adding the same stock twice is the same as adding it once. |
| `DashboardContext.AddStockKeepsNoDuplicates` | context/DashboardContext.tsx:65-72 | A list without duplicates stays without duplicates after an add. |
| `DashboardContext.RemoveStockUpdate` | context/DashboardContext.tsx:74-79 | Every occurrence of the stock goes. The rest keep their multiplicities and order. Removing an absent stock changes nothing, and the other fields are untouched. |
| `DashboardContext.RemoveStockKeepsNoDuplicates` | context/DashboardContext.tsx:74-79 | A list without duplicates stays without duplicates after a remove. |
| `DashboardContext.AddThenRemoveRestores` | context/DashboardContext.tsx:65-79 | For a stock not selected, adding it and then removing it restores the state. |
| `DashboardContext.RefreshIntervalUpdate` | context/DashboardContext.tsx:81-83 | Sets the interval without validating it. The other fields are untouched. |
| `DashboardContext.ThemeUpdate` | context/DashboardContext.tsx:85-87 | Sets the theme. The other fields are untouched. |
| `DashboardContext.TimeRangeUpdate` | context/DashboardContext.tsx:89-91 | Sets the range. The other fields are untouched. |
| `DashboardContext.ToggleThemeUpdate` | context/DashboardContext.tsx:93-98 | The theme changes to the other value. The other fields are untouched. |
| `DashboardContext.ToggleThemeTwice` | context/DashboardContext.tsx:93-98 | Toggling twice is the identity. |
| `DashboardContext.UseDashboard` | context/DashboardContext.tsx:118-124 | Inside a provider it returns the context. Outside, it raises "useDashboard must be used within a DashboardProvider". |
| `DashboardContext.DashboardProvider.constructor` | context/DashboardContext.tsx:26-59 | Mounting gives the loaded state. Storage then holds that state, and the dark class matches its theme. |
| `DashboardContext.DashboardProvider.Commit` | context/DashboardContext.tsx:43-59 | After a change, the saved copy equals the state and the dark class follows the theme. |
| `DashboardContext.DashboardProvider.SetSelectedStocks` | context/DashboardContext.tsx:61-63 | The new state is `SelectedStocksUpdate` of the old one, and the saved copy equals it. |
| `DashboardContext.DashboardProvider.AddStock` | context/DashboardContext.tsx:65-72 | The new state is `AddStockUpdate` of the old one, and the saved copy equals it. |
| `DashboardContext.DashboardProvider.RemoveStock` | context/DashboardContext.tsx:74-79 | The new state is `RemoveStockUpdate` of the old one, and the saved copy equals it. |
| `DashboardContext.DashboardProvider.SetRefreshInterval` | context/DashboardContext.tsx:81-83 | The new state is `RefreshIntervalUpdate` of the old one, and the saved copy equals it. |
| `DashboardContext.DashboardProvider.SetTheme` | context/DashboardContext.tsx:85-87 | The new state is `ThemeUpdate` of the old one, and the saved copy and the dark class follow it. |
| `DashboardContext.DashboardProvider.SetTimeRange` | context/DashboardContext.tsx:89-91 | The new state is `TimeRangeUpdate` of the old one, and the saved copy equals it. |
| `DashboardContext.DashboardProvider.ToggleTheme` | context/DashboardContext.tsx:93-98 | The new state is `ToggleThemeUpdate` of the old one. The dark class is on exactly when the theme was light before. |
| `DashboardContext.Reload` | context/DashboardContext.tsx:29-47 | A store mounted again from the saved copy starts with the state that was saved. |
| `StockSelector.SuggestionsFor` | components/dashboard/StockSelector.tsx:25-32 | Empty input gives no suggestions. Otherwise the suggestions are exactly the popular tickers that contain the input and are not selected, in the popular list's order. |
| `StockSelector.PopularNotSelected` | components/dashboard/StockSelector.tsx:133 | The popular buttons are exactly the popular tickers not yet selected, in order. |
| `StockSelector.AddButtonDisabled` | components/dashboard/StockSelector.tsx:92 | The add button is disabled exactly when the `handleAddStock` guard would refuse the input. |
| `StockSelector.PopularButtonsAdd` | components/dashboard/StockSelector.tsx:133-138 | A popular button always offers a ticker that passes the add guard. |
| `StockSelector.AddRemovesFromPopular` | components/dashboard/StockSelector.tsx:133 | Adding a stock removes exactly that stock from the popular buttons. The remaining buttons keep their order. |
| `StockSelector.Selector.constructor` | components/dashboard/StockSelector.tsx:16-17 | The input and the suggestions start empty. |
| `StockSelector.Selector.HandleSearchChange` | components/dashboard/StockSelector.tsx:20-33 | The input is stored upper-cased, and the suggestions are recomputed from it against the current selection. |
| `StockSelector.Selector.HandleAddStock` | components/dashboard/StockSelector.tsx:36-42 | An empty or already selected symbol changes nothing. Any other symbol is added to the store and clears the input and the suggestions. The store changes exactly when the guard passes. |
| `StockSelector.Selector.HandleKeyPress` | components/dashboard/StockSelector.tsx:45-49 | Enter with an input that passes the guard adds it. Any other key, an empty input or a refused input changes nothing. |
| `DashboardPage.PrimaryStock` | app/dashboard/page.tsx:48 | The first selected ticker. "AAPL" when none is selected or the first is empty. Never empty. |
| `DashboardPage.MarketIntervalArgument` | app/dashboard/page.tsx:55 | Live passes the refresh interval. Paused passes nothing. |
| `DashboardPage.NewsIntervalArgument` | app/dashboard/page.tsx:62 | Live passes twice the refresh interval. Paused passes nothing. |
| `DashboardPage.WithDefault` | lib/hooks/useMarketData.ts:11-14 | A missing argument takes the parameter's default. |
| `DashboardPage.MarketPollInterval` | app/dashboard/page.tsx:51-55 | Market data polls at the refresh interval when live, and at the hook's 30000 ms when paused. |
| `DashboardPage.NewsPollInterval` | app/dashboard/page.tsx:58-62 | News polls at twice the refresh interval when live, and at the hook's 60000 ms when paused. |
| `DashboardPage.PausedStillPolls` | app/dashboard/page.tsx:51-62 | Paused, both hooks still get a positive interval. At a 30 s refresh interval the paused intervals equal the live ones. |
| `DashboardPage.TrackingNotice` | app/dashboard/page.tsx:85-89 | A notice appears exactly when a stock is selected. It reads "Tracking 1 stock" for one and "Tracking n stocks" for n > 1. |
| `DashboardPage.Page.constructor` | app/dashboard/page.tsx:22-23 | The page starts live, with the mount time as its last update. |
| `DashboardPage.Page.HandleToggleLive` | app/dashboard/page.tsx:91-97 | The live flag flips, and the notice names the new mode. |
| `DashboardPage.Page.OnMarketDataChange` | app/dashboard/page.tsx:65-69 | The last-update time moves to now only when market data is present. |
| `DashboardPage.ToggleTwice` | app/dashboard/page.tsx:91-97 | Two toggles restore the live flag. |
| `ApiClient.Unwrap` | lib/api/client.ts:18-22 | On a 2xx reply, data is returned exactly when the envelope has success and data, and it is returned unchanged. Otherwise the error is the envelope's non-empty error, or else the default message. |
| `ApiClient.Receive` | lib/api/client.ts:4-22 | A reply outside 2xx rejects with "Request failed with status code <status>", whatever its envelope holds. A 2xx reply is unwrapped. Data comes back exactly when the reply is 2xx with success and data. |
| `ApiClient.FetchMarketData` | lib/api/client.ts:13-23 | GETs `/market-data?symbol=` with the symbol as given. The outcome is the reply received with the default "Failed to fetch market data". |
| `ApiClient.AnalyzeSentiment` | lib/api/client.ts:26-40 | POSTs both fields to `/sentiment` unchecked. The outcome is the reply received with the default "Failed to analyze sentiment". |
| `ApiClient.FetchNews` | lib/api/client.ts:43-53 | GETs `/news?symbol=` with the symbol as given. The outcome is the reply received with the default "Failed to fetch news". |
| `ApiClient.QueryValue` | lib/api/client.ts:15-45 | The value a handler reads for the unencoded query `symbol=<s>` never holds `&`, `#` or `+`. It is no longer than s, and equals s when s has none of them. |
| `ApiClient.QueryAltersSymbols` | lib/api/client.ts:15-45 | "AT&T" arrives as "AT", "X#1" as "X" and "A+B" as "A B". |
| `ApiClient.HandlerErrorsBecomeStatusErrors` | lib/api/client.ts:4-22 | A handler's 400 or 500 reaches the caller as "Request failed with status code 400" (or 500), whatever message it carried. |
| `ApiClient.DefaultMessagesDistinct` | lib/api/client.ts:19-49 | The three default messages differ from each other. |
| `ApiClient.EmptyNewsIsNotAnError` | lib/api/client.ts:48-52 | A 2xx success envelope with an empty list yields the empty list, not an error. |
| `ApiClient.RequestsKeepSymbol` | lib/api/client.ts:15-45 | Different symbols, including ones that differ only in case, give different requests. |
| `SentimentChart.TimeRangeHours` | components/dashboard/SentimentChart.tsx:62-70 | 1H, 4H, 1D and 1W map to 1, 4, 24 and 168 hours, in both directions. |
| `SentimentChart.LabelFor` | components/dashboard/SentimentChart.tsx:37 | Positive exactly above 0.2, negative exactly below -0.2, neutral exactly in between. |
| `SentimentChart.MockHistoryShape` | components/dashboard/SentimentChart.tsx:34-44 | There are hours + 1 points, ascending one hour apart, with the last at now. Every score is in [-1, 1) and carries its label. |
| `SentimentChart.GenerateMockHistoryData` | components/dashboard/SentimentChart.tsx:30-47 | The count-down loop builds exactly the mock history: hours + 1 points, the last at now. |
| `SentimentChart.ToChartPoints` | components/dashboard/SentimentChart.tsx:81-85 | Each chart point keeps its source point's time, score and label. |
| `SentimentChart.ChartData` | components/dashboard/SentimentChart.tsx:73-86 | Before mount with no data, the chart is empty. Supplied data, even an empty list, is mapped point by point. Otherwise there is a mock history of the range's hours + 1 labelled points. |
| `SentimentChart.ScoreSum` | components/dashboard/SentimentChart.tsx:91 | When every score is in [-1, 1], the sum lies within plus or minus the number of points. |
| `SentimentChart.AverageSentiment` | components/dashboard/SentimentChart.tsx:89-93 | An empty chart averages 0. When every score is in [-1, 1], so is the average. |
| `RouteCommon.BadRequest` | app/api/market-data/route.ts:99-104 | Status 400 with success false, no data and the given message. |
| `RouteCommon.Ok` | app/api/market-data/route.ts:124-132 | Status 200 with success true, the data and no error. |
| `RouteCommon.ServerError` | app/api/market-data/route.ts:133-141 | Status 500 with success false. The message is the error's own, or "Internal server error" for a non-Error value. |
| `RouteCommon.PickSentiment` | app/api/news/route.ts:40 | Each label covers one third of the draw range, in the order positive, negative, neutral. |
| `MarketDataRoute.BasePrice` | app/api/market-data/route.ts:12-18 | Always positive. 100 for any ticker outside the five-entry table. |
| `MarketDataRoute.GenerateMockStockData` | app/api/market-data/route.ts:11-31 | Echoes the symbol. Change is in [-5, 5) and price is base + change. The percentage is change / base * 100 and volume is in [1 000 000, 11 000 000). |
| `MarketDataRoute.FetchFromFinnhub` | app/api/market-data/route.ts:34-59 | A missing key, a non-ok reply, a rejected call and an undecodable body are errors. A success carries the quote fields, with volume 0 when absent. |
| `MarketDataRoute.FetchFromAlphaVantage` | app/api/market-data/route.ts:62-92 | Same errors as Finnhub, and a reply without "Global Quote" is "Invalid response from Alpha Vantage". A success carries the quote fields. |
| `MarketDataRoute.ProviderQuote` | app/api/market-data/route.ts:106-122 | The chosen quote is always for the symbol it was asked for. |
| `MarketDataRoute.Get` | app/api/market-data/route.ts:94-143 | 400 "Symbol parameter is required" exactly when the symbol is missing or empty. Otherwise 200 with the quote `ProviderQuote` chooses for the upper-cased symbol. |
| `MarketDataRoute.ProviderPrecedence` | app/api/market-data/route.ts:109-122 | With a Finnhub key, Finnhub's quote answers, and any Finnhub failure gives the mock. Without one, Alpha Vantage's quote answers when its key is set and it succeeds, and otherwise the mock does. |
| `MarketDataRoute.ClientAlwaysGetsQuote` | lib/api/client.ts:13-23 | For a symbol without `%`, spaces or control characters, the client gets a quote for the upper-cased query value the handler reads. When that value is empty it gets "Request failed with status code 400". |
| `NewsRoute.Headlines` | app/api/news/route.ts:12-23 | There are ten headline templates. |
| `NewsRoute.MockNewsItem` | app/api/news/route.ts:34-41 | Item i has the id `news-<symbol>-<now>-<i>`, the i-th headline and source, and the URL with the lower-cased symbol and i. It is i hours old, labelled, with no summary. |
| `NewsRoute.GenerateMockNews` | app/api/news/route.ts:11-42 | Exactly six items. Each has the i-th source, headline and URL, most recent first, one hour apart, starting at now. |
| `NewsRoute.MockNewsIdsDistinct` | app/api/news/route.ts:35 | The six mock ids are pairwise distinct. |
| `NewsRoute.FinnhubItem` | app/api/news/route.ts:68-75 | The id is `<symbol>-<upstream id>` when that id is non-zero, else `<symbol>-<position>`. Headline, source, URL and summary are copied, with the time in ms and no label. |
| `NewsRoute.FetchNewsFromFinnhub` | app/api/news/route.ts:45-76 | Key, status and body failures are errors. A success keeps at most the first ten entries, in upstream order, each mapped with its position. |
| `NewsRoute.FinnhubIdsCanCollide` | app/api/news/route.ts:69 | An entry with upstream id 3 and the entry at position 3 without an id get the same id. |
| `NewsRoute.FetchNewsFromNewsApi` | app/api/news/route.ts:79-104 | Key, status and body failures are errors. A success keeps every article in order, with ids `<symbol>-<now>-<i>`. |
| `NewsRoute.ProviderNews` | app/api/news/route.ts:118-132 | Only NewsAPI can give more than ten items. Without provider keys the answer is the mock for the upper-cased symbol. `NewsPrecedence` fixes the other cases. |
| `NewsRoute.Get` | app/api/news/route.ts:106-153 | 400 exactly when the symbol is missing or empty. Otherwise 200 with the list `ProviderNews` chooses for the symbol. |
| `NewsRoute.NewsPrecedence` | app/api/news/route.ts:120-132 | Finnhub with the upper-cased symbol, else NewsAPI with the symbol as given. Any failure, or no key, gives the mock. |
| `NewsRoute.NoKeysGivesMock` | app/api/news/route.ts:125-128 | Without provider keys the answer is 200 with the six mock items for the upper-cased symbol. |
| `NewsRoute.ClientAlwaysGetsNews` | lib/api/client.ts:43-53 | For a symbol without `%`, spaces or control characters, the client gets the chosen list for the query value the handler reads. When that value is empty it gets "Request failed with status code 400". |
| `SentimentRoute.GenerateMockSentiment` | app/api/sentiment/route.ts:13-31 | The score lies on its label's side: [0.5, 1), (-1, -0.5] or [-0.2, 0.2). Confidence is in [0.7, 1) and the documented ranges hold. The symbol is echoed, and the summary names the label and the symbol. |
| `SentimentRoute.AnalyzeSentimentWithOpenAI` | app/api/sentiment/route.ts:34-95 | A missing key, an SDK error, an empty answer and an unparsable answer are errors. A success carries the parsed fields for the symbol. |
| `SentimentRoute.OpenAiScoreUnchecked` | app/api/sentiment/route.ts:87-94 | An OpenAI score of 5 is returned as is, outside the documented range. |
| `SentimentRoute.ProviderSentiment` | app/api/sentiment/route.ts:109-121 | The chosen analysis is always for the symbol sent. |
| `SentimentRoute.Post` | app/api/sentiment/route.ts:97-142 | An unreadable body gives 500. A missing or empty symbol or text gives 400 "Symbol and text are required". Otherwise 200 with the analysis `ProviderSentiment` chooses for the symbol as sent. |
| `SentimentRoute.SentimentPrecedence` | app/api/sentiment/route.ts:111-121 | Without a key the mock answers. With a key, OpenAI's result answers, and any OpenAI failure gives the mock. |
| `SentimentRoute.ClientAlwaysGetsAnalysis` | lib/api/client.ts:26-40 | Through the client, a complete request always yields the chosen analysis of that symbol. |
| `SentimentRoute.EmptyTextRefusedByHandler` | app/api/sentiment/route.ts:102-107 | An empty text is sent as is, and the handler refuses it with "Symbol and text are required". The caller sees only "Request failed with status code 400". |

## Left out

- `Strings.ToUpper`: case mapping covers ASCII letters only, not the full Unicode mapping of `toUpperCase`/`toLowerCase`.
- `SentimentChart.GenerateMockHistoryData`: the score is not rounded to two decimals. The source labels the unrounded score and stores the rounded one, so a score such as 0.2004 is stored as 0.2 with the label positive. The model stores the unrounded score.
- `SentimentChart.ChartData`: the `HH:mm` formatting of each point's time is left out. The point keeps the instant.
- `SentimentChart.AverageSentiment`: the average is not rounded to two decimals.
- `MarketDataRoute.GenerateMockStockData`: price, change and percentage are not rounded to two decimals.
- `SentimentRoute.GenerateMockSentiment`: score and confidence are not rounded to two decimals. After rounding, the upper bounds 1 and the lower bound -1 can be reached, which the documented closed ranges allow.
- `SentimentRoute.AnalyzeSentimentWithOpenAI`: score and confidence are not rounded to two decimals. A non-numeric score or confidence belongs to the unparsable-answer case.
- `MarketDataRoute.FetchFromAlphaVantage`: `parseFloat`/`parseInt` of the quote's text fields and the stripping of '%' are left out. The fields arrive as numbers. A reply whose "Global Quote" lacks a field belongs to the undecodable-body case.
- `NewsRoute.GenerateMockNews`: `Date.now()` is read once per item in the source. The model uses a single `now` for all six items.
- `NewsRoute.FetchNewsFromFinnhub`: the from/to dates in the request URL are left out.
- Timestamps are epoch milliseconds. Their ISO-8601 rendering (`toISOString`) is left out.
- Numbers are unbounded integers and exact reals. NaN, `undefined` fields in upstream JSON and floating-point rounding are left out.
- The OpenAI answer's `sentiment` is cast without a check. A string other than the three labels cannot be represented, so the model takes the answer as already one of the three.
- `localStorage`, `JSON.stringify`/`JSON.parse` and the document's class list are fields and inputs. The saved blob is absent, unparsable or parseable to a state. A parseable blob of the wrong shape cannot be represented.
- Network calls (`fetch` to Finnhub, Alpha Vantage and NewsAPI; the OpenAI SDK) are inputs that succeed or fail. In the client, axios's rejection of non-2xx replies is modelled. Its 10 s timeout and network errors are not.
- `ApiClient.QueryValue`: percent-decoding (`%`) and the browser's handling of spaces and control characters in the URL are not modelled. The client-to-handler lemmas are stated for symbols without those characters.
- `NewsRoute.FetchNewsFromNewsApi`: `Date.now()` is read once per article in the source. The model uses a single `now` for every id.
- The outer `catch` of the market-data and news handlers is modelled once, as `RouteCommon.ServerError`. No modelled step outside their inner `try` can throw, so only the sentiment handler reaches it, through an unreadable body.
- Response headers (`Cache-Control`) and console logging are left out.
- The query library behind `lib/hooks/*` (caching, stale time, retries, de-duplication, timers) is not part of this model. Only the hooks' default intervals are used.
- Error toasts for failed fetches, the mouse-tracking background and all rendering are presentation and are left out.
