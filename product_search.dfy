/**
 * The product finder page: a query box, a search that replaces the result
 * list with the backend's answer (or with nothing when the call fails), and
 * three panels below the form, each shown under its own condition on the
 * state: the result grid, the "no results" notice and the initial notice.
 *
 * As on the schema generator page, the awaited backend call splits the search
 * handler into `BeginSearch` (up to the `await`) and `Deliver` (the
 * continuation, given the call's outcome); `Search` runs both.
 */
module ProductSearch {
  import opened Wrappers
  import opened Text

  datatype Product = Product(
    id: string, name: string, price: string, image: string,
    description: string, url: string, retailer: string)

  /** What the backend call produced: a list of products, or an error. */
  datatype SearchOutcome = Found(products: seq<Product>) | SearchFailed

  /** The panels below the search form. */
  datatype Panel = ResultGrid | NoResults | Initial

  /**
   * The panel the page shows, if any. Each panel is rendered under its own
   * condition; the contract states those conditions one by one, so the chosen
   * panel is the only one whose condition holds. While a search is pending
   * with an empty list no panel shows; otherwise exactly one does.
   */
  function ActivePanel(isSearching: bool, results: seq<Product>, query: string): (p: Option<Panel>)
    ensures p == Some(ResultGrid) <==> |results| > 0
    ensures p == Some(NoResults) <==> !isSearching && |results| == 0 && query != ""
    ensures p == Some(Initial) <==> !isSearching && |results| == 0 && query == ""
    ensures p.None? <==> isSearching && |results| == 0
  {
    if |results| > 0 then Some(ResultGrid)
    else if isSearching then None
    else if query != "" then Some(NoResults)
    else Some(Initial)
  }

  class SearchPage {
    var searchQuery: string
    var searchResults: seq<Product>
    var isSearching: bool

    constructor ()
      ensures searchQuery == "" && searchResults == [] && !isSearching
    {
      searchQuery := "";
      searchResults := [];
      isSearching := false;
    }

    /** The panel this state shows. */
    function ShownPanel(): Option<Panel>
      reads this
    {
      ActivePanel(isSearching, searchResults, searchQuery)
    }

    /** The search button is enabled: no search is pending and the query is not blank. */
    function CanSearch(): (enabled: bool)
      reads this
      ensures enabled <==> !isSearching && !IsBlank(searchQuery)
    {
      TrimEmptyIffBlank(searchQuery);
      !isSearching && Trim(searchQuery) != ""
    }

    /** The user edits the query; the box is disabled while a search is pending. */
    method SetQuery(text: string)
      requires !isSearching
      modifies this`searchQuery
      ensures searchQuery == text
    {
      searchQuery := text;
    }

    /**
     * The search handler up to its `await`: a blank query changes nothing and
     * sends nothing; otherwise the query, as typed, is sent and the search is
     * marked pending. The old results stay until the answer arrives.
     */
    method BeginSearch() returns (request: Option<string>)
      modifies this`isSearching
      ensures request.Some? <==> !IsBlank(searchQuery)
      ensures request.None? ==> isSearching == old(isSearching)
      ensures request.Some? ==> request.value == searchQuery && isSearching
    {
      TrimEmptyIffBlank(searchQuery);
      if Trim(searchQuery) == "" {
        return None;
      }
      isSearching := true;
      request := Some(searchQuery);
    }

    /**
     * The continuation once the call settles: the list becomes the returned
     * products, in their order, or empty on failure; the search is no longer
     * pending. The query is kept.
     */
    method Deliver(outcome: SearchOutcome)
      modifies this`searchResults, this`isSearching
      ensures searchResults == (if outcome.Found? then outcome.products else [])
      ensures !isSearching
    {
      match outcome {
        case Found(products) => searchResults := products;
        case SearchFailed => searchResults := [];
      }
      isSearching := false;
    }

    /** A whole search: nothing for a blank query; otherwise the answer replaces the list. */
    method Search(outcome: SearchOutcome) returns (request: Option<string>)
      modifies this`searchResults, this`isSearching
      ensures request.Some? <==> !IsBlank(searchQuery)
      ensures request.None? ==> unchanged(this)
      ensures request.Some? ==>
        && request.value == searchQuery
        && searchResults == (if outcome.Found? then outcome.products else [])
        && !isSearching
      ensures request.Some? ==>
        ShownPanel() == (if outcome.Found? && |outcome.products| > 0 then Some(ResultGrid) else Some(NoResults))
    {
      request := BeginSearch();
      if request.Some? {
        Deliver(outcome);
      }
    }

    /** Enter starts a search unless one is pending; other keys do nothing. */
    method KeyPress(key: string) returns (request: Option<string>)
      modifies this`isSearching
      ensures request.Some? <==> key == "Enter" && old(CanSearch())
      ensures request.None? ==> isSearching == old(isSearching)
      ensures request.Some? ==> request.value == searchQuery && isSearching
    {
      if key == "Enter" && !isSearching {
        request := BeginSearch();
        TrimEmptyIffBlank(searchQuery);
      } else {
        request := None;
      }
    }
  }
}
