/** The search provider (src/contexts/SearchContext.tsx): a query string and
    an `isSearching` flag, two independent pieces of state with a setter
    each, and `clearSearch`, which resets both. */
module Search {

  class SearchProvider {
    var searchQuery: string
    var isSearching: bool

    constructor ()
      ensures searchQuery == "" && !isSearching
    {
      searchQuery := "";
      isSearching := false;
    }

    /** Sets the query only; the flag is not derived from it. */
    method SetSearchQuery(query: string)
      modifies this
      ensures searchQuery == query && isSearching == old(isSearching)
    {
      searchQuery := query;
    }

    /** Sets the flag only; the query is left as it is. */
    method SetIsSearching(searching: bool)
      modifies this
      ensures isSearching == searching && searchQuery == old(searchQuery)
    {
      isSearching := searching;
    }

    /** From any state, back to the initial one. */
    method ClearSearch()
      modifies this
      ensures searchQuery == "" && !isSearching
    {
      searchQuery := "";
      isSearching := false;
    }
  }

  /** Clearing twice leaves the provider where clearing once did. */
  method ClearSearchTwice(p: SearchProvider) returns (once: (string, bool), twice: (string, bool))
    modifies p
    ensures once == twice == ("", false)
  {
    p.ClearSearch();
    once := (p.searchQuery, p.isSearching);
    p.ClearSearch();
    twice := (p.searchQuery, p.isSearching);
  }

  /** A non-empty query does not by itself mean searching, and the flag can
      be set with an empty query. */
  method FlagIndependentOfQuery() returns (query: string, searching: bool, laterQuery: string, laterSearching: bool)
    ensures query == "rust" && !searching
    ensures laterQuery == "" && laterSearching
  {
    var p := new SearchProvider();
    p.SetSearchQuery("rust");
    query, searching := p.searchQuery, p.isSearching;
    p.ClearSearch();
    p.SetIsSearching(true);
    laterQuery, laterSearching := p.searchQuery, p.isSearching;
  }
}
