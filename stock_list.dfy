/**
 * The stock list page: the status chip of a stock, the search filter over product name and
 * location, the page slice, and the page's own state (page, rows per page, search term),
 * which the handlers update.
 */
module StockListPage {
  import opened Text
  import opened Entities
  import opened Lists
  import opened Ledger

  /** A status chip: its label and its colour. */
  datatype Chip = Chip(text: string, color: string)

  /** `getStockStatus`: the chip agrees with the ledger's LOW / HIGH / NORMAL classification. */
  function StockStatus(s: Stock): (c: Chip)
    ensures c.text == "Low Stock" <==> LevelOf(s) == Low
    ensures c.text == "Overstocked" <==> LevelOf(s) == High
    ensures c.text == "Normal" <==> LevelOf(s) == Normal
    ensures c.text == "Low Stock" ==> c.color == "error"
  {
    if s.quantity <= s.minimumThreshold then Chip("Low Stock", "error")
    else if s.quantity >= s.maximumThreshold then Chip("Overstocked", "warning")
    else Chip("Normal", "success")
  }

  /** The warning icon beside the quantity. */
  predicate ShowsWarning(s: Stock) {
    s.quantity <= s.minimumThreshold
  }

  /** The icon appears exactly on the rows whose chip says Low Stock, even when the stock is also over its maximum. */
  lemma WarningIffLowChip(s: Stock)
    ensures ShowsWarning(s) <==> StockStatus(s).text == "Low Stock"
    ensures s.maximumThreshold <= s.quantity <= s.minimumThreshold ==> StockStatus(s).text == "Low Stock"
  {
  }

  /** The search predicate: the term occurs in the product name or the location, ignoring case. */
  function SearchMatch(term: string): Stock -> bool {
    (s: Stock) => MatchesIgnoreCase(s.productName, term) || MatchesIgnoreCase(s.location, term)
  }

  /** `filteredStocks`. */
  function FilteredStocks(stocks: seq<Stock>, term: string): (r: seq<Stock>)
    ensures forall x :: x in r <==> x in stocks && SearchMatch(term)(x)
    ensures IsSubsequence(r, stocks)
    ensures forall x {:trigger multiset(r)[x]} :: multiset(r)[x] == if SearchMatch(term)(x) then multiset(stocks)[x] else 0
  {
    FilterIsSubsequence(stocks, SearchMatch(term));
    assert forall x ::
      multiset(Filter(stocks, SearchMatch(term)))[x] ==
      (if SearchMatch(term)(x) then multiset(stocks)[x] else 0) by {
      forall x { FilterMultiplicity(stocks, SearchMatch(term), x); }
    }
    Filter(stocks, SearchMatch(term))
  }

  /** An empty search term keeps every stock. */
  lemma EmptySearchKeepsAll(stocks: seq<Stock>)
    ensures FilteredStocks(stocks, "") == stocks
  {
    forall i | 0 <= i < |stocks| ensures SearchMatch("")(stocks[i]) {
      EmptyTermMatches(stocks[i].productName);
    }
    FilterKeepsAll(stocks, SearchMatch(""));
  }

  /** `paginatedStocks`: at most a page of the filtered stocks, from row `page * rowsPerPage` on. */
  function PaginatedStocks(stocks: seq<Stock>, term: string, page: nat, rowsPerPage: nat): (r: seq<Stock>)
    ensures |r| <= rowsPerPage
    ensures |r| == PageLength(|FilteredStocks(stocks, term)|, page, rowsPerPage)
    ensures forall k :: 0 <= k < |r| ==>
      page * rowsPerPage + k < |FilteredStocks(stocks, term)| && r[k] == FilteredStocks(stocks, term)[page * rowsPerPage + k]
  {
    var f := FilteredStocks(stocks, term);
    PageContents(f, page, rowsPerPage);
    PageOf(f, page, rowsPerPage)
  }

  /** The first page is the first `rowsPerPage` matches. */
  lemma FirstPageIsTake(stocks: seq<Stock>, term: string, rowsPerPage: nat)
    ensures PaginatedStocks(stocks, term, 0, rowsPerPage) == Take(FilteredStocks(stocks, term), rowsPerPage)
  {
  }

  /** The page's `useState` fields. */
  class StockListView {
    var page: nat
    var rowsPerPage: nat
    var searchTerm: string

    constructor ()
      ensures page == 0 && rowsPerPage == 10 && searchTerm == ""
    {
      page, rowsPerPage, searchTerm := 0, 10, "";
    }

    /** The rows on screen for the stocks in the store. */
    function Visible(stocks: seq<Stock>): seq<Stock>
      reads this
    {
      PaginatedStocks(stocks, searchTerm, page, rowsPerPage)
    }

    /** `handleChangePage`. */
    method ChangePage(newPage: nat)
      modifies this`page
      ensures page == newPage
    {
      page := newPage;
    }

    /** `handleChangeRowsPerPage`: the new size, back to the first page. */
    method ChangeRowsPerPage(n: nat)
      modifies this`rowsPerPage, this`page
      ensures rowsPerPage == n && page == 0
    {
      rowsPerPage := n;
      page := 0;
    }

    /** `handleSearch`: the new term, back to the first page. */
    method Search(term: string)
      modifies this`searchTerm, this`page
      ensures searchTerm == term && page == 0
      ensures rowsPerPage == old(rowsPerPage)
    {
      searchTerm := term;
      page := 0;
    }
  }

  /** After a search the page shows the first matches of the new term. */
  method SearchShowsFirstMatches(view: StockListView, stocks: seq<Stock>, term: string)
    modifies view`searchTerm, view`page
    ensures view.Visible(stocks) == Take(FilteredStocks(stocks, term), view.rowsPerPage)
  {
    view.Search(term);
    FirstPageIsTake(stocks, term, view.rowsPerPage);
  }
}
