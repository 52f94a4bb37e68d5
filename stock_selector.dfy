/**
 * The stock selector: a search box whose text is kept upper-cased, a list
 * of suggestions drawn from the popular tickers, an add button, and the
 * popular tickers not yet selected. Adding goes through the preference
 * store's `addStock`.
 */
module StockSelector {
  import opened Types
  import opened Strings
  import opened Seqs
  import opened DashboardContext

  const POPULAR_STOCKS: seq<string> := ["AAPL", "GOOGL", "MSFT", "TSLA", "AMZN", "META", "NVDA", "AMD"]

  /**
   * The suggestions for a search text: the popular tickers that contain the
   * text and are not selected, in the popular list's order; none for an
   * empty text.
   */
  function SuggestionsFor(value: string, selected: seq<string>): (r: seq<string>)
    ensures value == "" ==> r == []
    ensures value != "" ==> forall s :: s in r <==> s in POPULAR_STOCKS && Includes(s, value) && s !in selected
    ensures Subsequence(r, POPULAR_STOCKS)
  {
    if |value| > 0 then Filter(POPULAR_STOCKS, s => Includes(s, value) && s !in selected) else []
  }

  /** The popular tickers offered as buttons: those not yet selected, in order. */
  function PopularNotSelected(selected: seq<string>): (r: seq<string>)
    ensures forall s :: s in r <==> s in POPULAR_STOCKS && s !in selected
    ensures Subsequence(r, POPULAR_STOCKS)
  {
    Filter(POPULAR_STOCKS, s => s !in selected)
  }

  /** The guard of `handleAddStock`: a non-empty symbol that is not yet selected. */
  predicate CanAdd(symbol: string, selected: seq<string>)
  {
    |symbol| > 0 && symbol !in selected
  }

  /** The add button is disabled for an empty or already selected input: exactly when `handleAddStock` would do nothing. */
  function AddButtonDisabled(input: string, selected: seq<string>): (r: bool)
    ensures r <==> !CanAdd(input, selected)
  {
    input == "" || input in selected
  }

  /** Whatever a popular button offers is a popular ticker that passes the add guard. */
  lemma PopularButtonsAdd(selected: seq<string>, stock: string)
    ensures stock in PopularNotSelected(selected) ==> stock in POPULAR_STOCKS && CanAdd(stock, selected)
  {
    PopularTickersNonEmpty();
  }

  /** No popular ticker is the empty string. */
  lemma PopularTickersNonEmpty()
    ensures forall s :: s in POPULAR_STOCKS ==> s != ""
  {
  }

  /** Adding a stock takes it off the popular list; no other ticker moves. */
  lemma AddRemovesFromPopular(prev: DashboardState, stock: string)
    ensures PopularNotSelected(AddStockUpdate(prev, stock).selectedStocks) ==
            Filter(PopularNotSelected(prev.selectedStocks), s => s != stock)
  {
    if stock in prev.selectedStocks {
      FilterAll(PopularNotSelected(prev.selectedStocks), s => s != stock);
    } else {
      FilterTwice(POPULAR_STOCKS, prev.selectedStocks, stock);
    }
  }

  lemma {:induction false} FilterTwice(pool: seq<string>, selected: seq<string>, stock: string)
    ensures Filter(pool, s => s !in selected + [stock]) ==
            Filter(Filter(pool, s => s !in selected), s => s != stock)
  {
    if pool != [] {
      FilterTwice(pool[1..], selected, stock);
    }
  }

  /** The component: its search text and suggestion cells, and the store it adds to. */
  class Selector {
    var searchInput: string
    var suggestions: seq<string>
    const dashboard: DashboardProvider

    constructor (dashboard: DashboardProvider)
      ensures this.dashboard == dashboard
      ensures searchInput == "" && suggestions == []
    {
      this.dashboard := dashboard;
      searchInput := "";
      suggestions := [];
    }

    /** `handleSearchChange`: stores the text upper-cased and recomputes the suggestions. */
    method HandleSearchChange(typed: string)
      modifies this
      ensures searchInput == ToUpper(typed)
      ensures suggestions == SuggestionsFor(searchInput, dashboard.state.selectedStocks)
    {
      var value := ToUpper(typed);
      searchInput := value;
      if |value| > 0 {
        suggestions := SuggestionsFor(value, dashboard.state.selectedStocks);
      } else {
        suggestions := [];
      }
    }

    /**
     * `handleAddStock`: a non-empty, unselected symbol is added to the store
     * and clears the input and the suggestions; otherwise nothing changes.
     */
    method HandleAddStock(symbol: string)
      requires dashboard.Valid()
      modifies this, dashboard
      ensures dashboard.Valid()
      ensures CanAdd(symbol, old(dashboard.state.selectedStocks)) ==>
        dashboard.state == AddStockUpdate(old(dashboard.state), symbol) &&
        searchInput == "" && suggestions == []
      ensures !CanAdd(symbol, old(dashboard.state.selectedStocks)) ==>
        dashboard.state == old(dashboard.state) &&
        searchInput == old(searchInput) && suggestions == old(suggestions)
      ensures dashboard.state != old(dashboard.state) <==> CanAdd(symbol, old(dashboard.state.selectedStocks))
    {
      if |symbol| > 0 && symbol !in dashboard.state.selectedStocks {
        dashboard.AddStock(symbol);
        searchInput := "";
        suggestions := [];
      }
    }

    /** `handleKeyPress`: Enter with a non-empty input adds that input; anything else does nothing. */
    method HandleKeyPress(key: string)
      requires dashboard.Valid()
      modifies this, dashboard
      ensures dashboard.Valid()
      ensures key == "Enter" && CanAdd(old(searchInput), old(dashboard.state.selectedStocks)) ==>
        dashboard.state == AddStockUpdate(old(dashboard.state), old(searchInput)) &&
        searchInput == "" && suggestions == []
      ensures !(key == "Enter" && CanAdd(old(searchInput), old(dashboard.state.selectedStocks))) ==>
        dashboard.state == old(dashboard.state) &&
        searchInput == old(searchInput) && suggestions == old(suggestions)
    {
      if key == "Enter" && searchInput != "" {
        HandleAddStock(searchInput);
      }
    }
  }
}
