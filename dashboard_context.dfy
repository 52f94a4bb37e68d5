/**
 * The preference store: one `DashboardState` cell, replaced by each action,
 * written to local storage under "dashboardState" after every change and
 * read back once when the provider mounts.
 */
module DashboardContext {
  import opened Wrappers
  import opened Types
  import opened Seqs

  /** The state before anything is loaded: AAPL selected, 30 s refresh, light theme, one day. */
  const DEFAULT_STATE := DashboardState(["AAPL"], 30000, Light, OneDay)

  /**
   * The local-storage entry "dashboardState" as the load effect sees it:
   * missing or empty (both falsy), text that `JSON.parse` rejects, or text
   * that parses to a state.
   */
  datatype StoredBlob = Absent | Unparsable | Parsable(value: DashboardState)

  /** The state after the load effect: a parseable blob is taken as is, anything else keeps the defaults. */
  function LoadedState(saved: StoredBlob): (r: DashboardState)
    ensures saved.Parsable? ==> r == saved.value
    ensures !saved.Parsable? ==> r == DEFAULT_STATE
  {
    match saved
    case Parsable(s) => s
    case _ => DEFAULT_STATE
  }

  /** The list without any occurrence of `stock`: `filter(s => s !== stock)`. */
  function Without(stocks: seq<string>, stock: string): (r: seq<string>)
    ensures stock !in r
    ensures forall s :: s != stock ==> (s in r <==> s in stocks)
    ensures Subsequence(r, stocks)
  {
    Filter(stocks, s => s != stock)
  }

  lemma {:induction false} WithoutCounts(stocks: seq<string>, stock: string)
    ensures multiset(Without(stocks, stock)) == multiset(stocks)[stock := 0]
  {
    if stocks == [] {
    } else {
      assert stocks == [stocks[0]] + stocks[1..];
      FilterAppend([stocks[0]], stocks[1..], s => s != stock);
      WithoutCounts(stocks[1..], stock);
    }
  }

  lemma WithoutAbsent(stocks: seq<string>, stock: string)
    ensures stock !in stocks ==> Without(stocks, stock) == stocks
  {
    if stock !in stocks {
      FilterAll(stocks, s => s != stock);
    }
  }

  /** `setSelectedStocks`: replaces the list as given, nothing else changes. */
  function SelectedStocksUpdate(prev: DashboardState, stocks: seq<string>): (r: DashboardState)
    ensures r.selectedStocks == stocks
    ensures r.refreshInterval == prev.refreshInterval && r.theme == prev.theme && r.timeRange == prev.timeRange
  {
    prev.(selectedStocks := stocks)
  }

  /**
   * `addStock`: an absent stock is appended at the end, a present one leaves
   * the state as it was. The stock is not trimmed, upper-cased or checked
   * for emptiness here.
   */
  function AddStockUpdate(prev: DashboardState, stock: string): (r: DashboardState)
    ensures stock in r.selectedStocks
    ensures stock in prev.selectedStocks ==> r == prev
    ensures stock !in prev.selectedStocks ==>
      |r.selectedStocks| == |prev.selectedStocks| + 1 &&
      prev.selectedStocks <= r.selectedStocks &&
      r.selectedStocks[|prev.selectedStocks|] == stock
    ensures r.refreshInterval == prev.refreshInterval && r.theme == prev.theme && r.timeRange == prev.timeRange
  {
    if stock !in prev.selectedStocks then prev.(selectedStocks := prev.selectedStocks + [stock]) else prev
  }

  /**
   * `removeStock`: every occurrence of the stock goes, every other entry
   * keeps its multiplicity and relative order; nothing else changes.
   */
  function RemoveStockUpdate(prev: DashboardState, stock: string): (r: DashboardState)
    ensures stock !in r.selectedStocks
    ensures multiset(r.selectedStocks) == multiset(prev.selectedStocks)[stock := 0]
    ensures Subsequence(r.selectedStocks, prev.selectedStocks)
    ensures stock !in prev.selectedStocks ==> r == prev
    ensures r.refreshInterval == prev.refreshInterval && r.theme == prev.theme && r.timeRange == prev.timeRange
  {
    WithoutCounts(prev.selectedStocks, stock);
    WithoutAbsent(prev.selectedStocks, stock);
    prev.(selectedStocks := Without(prev.selectedStocks, stock))
  }

  /** `setRefreshInterval`: no validation of the interval. */
  function RefreshIntervalUpdate(prev: DashboardState, interval: int): (r: DashboardState)
    ensures r.refreshInterval == interval
    ensures r.selectedStocks == prev.selectedStocks && r.theme == prev.theme && r.timeRange == prev.timeRange
  {
    prev.(refreshInterval := interval)
  }

  function ThemeUpdate(prev: DashboardState, theme: Theme): (r: DashboardState)
    ensures r.theme == theme
    ensures r.selectedStocks == prev.selectedStocks && r.refreshInterval == prev.refreshInterval && r.timeRange == prev.timeRange
  {
    prev.(theme := theme)
  }

  function TimeRangeUpdate(prev: DashboardState, range: TimeRange): (r: DashboardState)
    ensures r.timeRange == range
    ensures r.selectedStocks == prev.selectedStocks && r.refreshInterval == prev.refreshInterval && r.theme == prev.theme
  {
    prev.(timeRange := range)
  }

  /** `toggleTheme`: the theme flips, nothing else changes. */
  function ToggleThemeUpdate(prev: DashboardState): (r: DashboardState)
    ensures r.theme != prev.theme
    ensures r.selectedStocks == prev.selectedStocks && r.refreshInterval == prev.refreshInterval && r.timeRange == prev.timeRange
  {
    prev.(theme := if prev.theme == Light then Dark else Light)
  }

  /** Adding a stock twice is adding it once. */
  lemma AddStockIdempotent(prev: DashboardState, stock: string)
    ensures AddStockUpdate(AddStockUpdate(prev, stock), stock) == AddStockUpdate(prev, stock)
  {
  }

  /** Adding keeps the list free of duplicates. */
  lemma AddStockKeepsNoDuplicates(prev: DashboardState, stock: string)
    requires NoDuplicates(prev.selectedStocks)
    ensures NoDuplicates(AddStockUpdate(prev, stock).selectedStocks)
  {
  }

  /** Removing keeps the list free of duplicates. */
  lemma RemoveStockKeepsNoDuplicates(prev: DashboardState, stock: string)
    requires NoDuplicates(prev.selectedStocks)
    ensures NoDuplicates(RemoveStockUpdate(prev, stock).selectedStocks)
  {
    FilterNoDuplicates(prev.selectedStocks, s => s != stock);
  }

  /** For a stock not yet selected, adding and then removing it restores the state. */
  lemma AddThenRemoveRestores(prev: DashboardState, stock: string)
    requires stock !in prev.selectedStocks
    ensures RemoveStockUpdate(AddStockUpdate(prev, stock), stock) == prev
  {
    var stocks := prev.selectedStocks;
    FilterAppend(stocks, [stock], s => s != stock);
    WithoutAbsent(stocks, stock);
    assert Without([stock], stock) == [];
  }

  /** Toggling the theme twice is the identity. */
  lemma ToggleThemeTwice(prev: DashboardState)
    ensures ToggleThemeUpdate(ToggleThemeUpdate(prev)) == prev
  {
  }

  /** Writing a state and loading it back gives the same state. */
  lemma SaveThenLoad(s: DashboardState)
    ensures LoadedState(Parsable(s)) == s
  {
  }

  /** A saved list with a duplicate is loaded as it is: neither normalised nor rejected. */
  lemma LoadKeepsDuplicates()
    ensures !NoDuplicates(LoadedState(Parsable(DashboardState(["AAPL", "AAPL"], 30000, Light, OneDay))).selectedStocks)
  {
    var loaded := LoadedState(Parsable(DashboardState(["AAPL", "AAPL"], 30000, Light, OneDay)));
    assert loaded.selectedStocks[0] == loaded.selectedStocks[1];
  }

  /** `useDashboard`: the context, or an error outside a provider. */
  function UseDashboard(context: Option<DashboardState>): (r: Result<DashboardState, string>)
    ensures r.Success? <==> context.Some?
    ensures r.Success? ==> r.value == context.value
    ensures r.Failure? ==> r.error == "useDashboard must be used within a DashboardProvider"
  {
    match context
    case Some(s) => Success(s)
    case None => Failure("useDashboard must be used within a DashboardProvider")
  }

  /**
   * The provider: its state cell, the copy in local storage, and whether the
   * document root carries the "dark" class. The effects that persist the
   * state and apply the theme run after every change, so after each action
   * both mirror the state.
   */
  class DashboardProvider {
    var state: DashboardState
    var persisted: StoredBlob
    var darkClass: bool

    ghost predicate Valid()
      reads this
    {
      persisted == Parsable(state) && darkClass == (state.theme == Dark)
    }

    /** Mounting: the load effect reads what was saved, then the save and theme effects run. */
    constructor (saved: StoredBlob)
      ensures Valid()
      ensures state == LoadedState(saved)
    {
      state := LoadedState(saved);
      persisted := Parsable(LoadedState(saved));
      darkClass := LoadedState(saved).theme == Dark;
    }

    /** Replaces the state cell and runs the save and theme effects. */
    method Commit(next: DashboardState)
      modifies this
      ensures Valid()
      ensures state == next
    {
      state := next;
      persisted := Parsable(next);
      darkClass := next.theme == Dark;
    }

    method SetSelectedStocks(stocks: seq<string>)
      requires Valid()
      modifies this
      ensures Valid()
      ensures state == SelectedStocksUpdate(old(state), stocks)
    {
      Commit(SelectedStocksUpdate(state, stocks));
    }

    method AddStock(stock: string)
      requires Valid()
      modifies this
      ensures Valid()
      ensures state == AddStockUpdate(old(state), stock)
    {
      Commit(AddStockUpdate(state, stock));
    }

    method RemoveStock(stock: string)
      requires Valid()
      modifies this
      ensures Valid()
      ensures state == RemoveStockUpdate(old(state), stock)
    {
      Commit(RemoveStockUpdate(state, stock));
    }

    method SetRefreshInterval(interval: int)
      requires Valid()
      modifies this
      ensures Valid()
      ensures state == RefreshIntervalUpdate(old(state), interval)
    {
      Commit(RefreshIntervalUpdate(state, interval));
    }

    method SetTheme(theme: Theme)
      requires Valid()
      modifies this
      ensures Valid()
      ensures state == ThemeUpdate(old(state), theme)
    {
      Commit(ThemeUpdate(state, theme));
    }

    method SetTimeRange(range: TimeRange)
      requires Valid()
      modifies this
      ensures Valid()
      ensures state == TimeRangeUpdate(old(state), range)
    {
      Commit(TimeRangeUpdate(state, range));
    }

    method ToggleTheme()
      requires Valid()
      modifies this
      ensures Valid()
      ensures state == ToggleThemeUpdate(old(state))
      ensures darkClass == (old(state).theme == Light)
    {
      Commit(ToggleThemeUpdate(state));
    }
  }

  /** A store that persisted its state and is mounted again starts from that same state. */
  method Reload(p: DashboardProvider) returns (q: DashboardProvider)
    requires p.Valid()
    ensures q.Valid()
    ensures q.state == p.state
  {
    q := new DashboardProvider(p.persisted);
  }
}
