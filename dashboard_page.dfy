/**
 * The dashboard page's own logic: which ticker it shows, how often it asks
 * the market-data and news hooks to poll, the live/paused switch, the time
 * of the last market update, and the "Tracking n stocks" notice.
 */
module DashboardPage {
  import opened Wrappers
  import opened Types
  import opened Strings

  /** The default `refetchInterval` parameter of `useMarketData`. */
  const MARKET_HOOK_DEFAULT_INTERVAL := 30000
  /** The default `refetchInterval` parameter of `useNews`. */
  const NEWS_HOOK_DEFAULT_INTERVAL := 60000

  /** `selectedStocks[0] || 'AAPL'`: the first selected ticker, unless there is none or it is empty. */
  function PrimaryStock(selected: seq<string>): (r: string)
    ensures r != ""
    ensures |selected| > 0 && selected[0] != "" ==> r == selected[0]
    ensures |selected| == 0 || selected[0] == "" ==> r == "AAPL"
  {
    if |selected| > 0 && selected[0] != "" then selected[0] else "AAPL"
  }

  /** The interval the page passes to `useMarketData`: `None` (undefined) while paused. */
  function MarketIntervalArgument(isLive: bool, refreshInterval: int): (r: Option<int>)
    ensures r.Some? <==> isLive
    ensures isLive ==> r.value == refreshInterval
  {
    if isLive then Some(refreshInterval) else None
  }

  /** The interval the page passes to `useNews`: twice the refresh interval, `None` while paused. */
  function NewsIntervalArgument(isLive: bool, refreshInterval: int): (r: Option<int>)
    ensures r.Some? <==> isLive
    ensures isLive ==> r.value == 2 * refreshInterval
  {
    if isLive then Some(refreshInterval * 2) else None
  }

  /** A JavaScript default parameter: an `undefined` argument takes the default. */
  function WithDefault(argument: Option<int>, default: int): (r: int)
    ensures argument.Some? ==> r == argument.value
    ensures argument.None? ==> r == default
  {
    match argument
    case Some(v) => v
    case None => default
  }

  /** The polling interval `useMarketData` ends up with. */
  function MarketPollInterval(isLive: bool, refreshInterval: int): (r: int)
    ensures isLive ==> r == refreshInterval
    ensures !isLive ==> r == MARKET_HOOK_DEFAULT_INTERVAL
  {
    WithDefault(MarketIntervalArgument(isLive, refreshInterval), MARKET_HOOK_DEFAULT_INTERVAL)
  }

  /** The polling interval `useNews` ends up with. */
  function NewsPollInterval(isLive: bool, refreshInterval: int): (r: int)
    ensures isLive ==> r == 2 * refreshInterval
    ensures !isLive ==> r == NEWS_HOOK_DEFAULT_INTERVAL
  {
    WithDefault(NewsIntervalArgument(isLive, refreshInterval), NEWS_HOOK_DEFAULT_INTERVAL)
  }

  /**
   * Pausing does not stop polling: whatever the refresh interval, both hooks
   * still receive a positive interval, and at the default refresh interval
   * of 30 s the paused intervals equal the live ones.
   */
  lemma PausedStillPolls(refreshInterval: int)
    ensures MarketPollInterval(false, refreshInterval) > 0
    ensures NewsPollInterval(false, refreshInterval) > 0
    ensures refreshInterval == 30000 ==>
      MarketPollInterval(false, refreshInterval) == MarketPollInterval(true, refreshInterval) &&
      NewsPollInterval(false, refreshInterval) == NewsPollInterval(true, refreshInterval)
  {
  }

  /** The success notice shown when the number of selected stocks changes. */
  function TrackingNotice(count: nat): (r: Option<string>)
    ensures r.Some? <==> count > 0
    ensures count == 1 ==> r == Some("Tracking 1 stock")
    ensures count > 1 ==> r == Some("Tracking " + NatToString(count) + " stocks")
  {
    assert count == 1 ==> NatToString(count) == "1" by {
      if count == 1 { assert NatToString(1) == [DigitChar(1)]; }
    }
    assert "Tracking " + "1" + " stock" + "" == "Tracking 1 stock";
    assert forall n: string :: "Tracking " + n + " stock" + "s" == "Tracking " + n + " stocks";
    if count > 0 then Some("Tracking " + NatToString(count) + " stock" + (if count > 1 then "s" else "")) else None
  }

  /** The page's own state cells: live/paused and the time of the last market update. */
  class Page {
    var isLiveUpdates: bool
    var lastUpdate: int

    /** The page starts live, with the mount time as its last update. */
    constructor (now: int)
      ensures isLiveUpdates && lastUpdate == now
    {
      isLiveUpdates := true;
      lastUpdate := now;
    }

    /** `handleToggleLive`: flips live/paused and returns the notice text it shows. */
    method HandleToggleLive() returns (notice: string)
      modifies this
      ensures isLiveUpdates == !old(isLiveUpdates)
      ensures lastUpdate == old(lastUpdate)
      ensures notice == (if isLiveUpdates then "Live updates enabled" else "Live updates paused")
    {
      isLiveUpdates := !isLiveUpdates;
      notice := if isLiveUpdates then "Live updates enabled" else "Live updates paused";
    }

    /** The effect run when the market data changes: the last update moves only when data is present. */
    method OnMarketDataChange(marketData: Option<StockData>, now: int)
      modifies this
      ensures isLiveUpdates == old(isLiveUpdates)
      ensures marketData.Some? ==> lastUpdate == now
      ensures marketData.None? ==> lastUpdate == old(lastUpdate)
    {
      if marketData.Some? {
        lastUpdate := now;
      }
    }
  }

  /** Two toggles restore the live flag. */
  method ToggleTwice(page: Page)
    modifies page
    ensures page.isLiveUpdates == old(page.isLiveUpdates)
  {
    var _ := page.HandleToggleLive();
    var _ := page.HandleToggleLive();
  }
}
