/**
 * The search slice of the client store: the query typed on the search screen,
 * the results of the last search, and the status of the last search.
 */
module SearchSlice {
  import opened Wrappers
  import opened Types
  import MockApi
  import SearchApi
  import Async

  const SearchFailed := "Failed to search items"

  /** The results held before any search has run, and after `clearResults`. */
  const NoResults := SearchApi.SearchResults([], [], [])

  class SearchState {
    var query: string
    var results: SearchApi.SearchResults
    var loading: bool
    var error: Option<string>

    /** `initialState`. */
    constructor ()
      ensures query == "" && results == NoResults && !loading && error == None
    {
      query, results, loading, error := "", NoResults, false, None;
    }

    /** `setQuery`: records the query text; the results are those of the last search. */
    method SetQuery(text: string)
      modifies this
      ensures query == text
      ensures results == old(results) && loading == old(loading) && error == old(error)
    {
      query := text;
    }

    /** `clearResults`: empties the three result lists and keeps the query. */
    method ClearResults()
      modifies this
      ensures results == NoResults
      ensures query == old(query) && loading == old(loading) && error == old(error)
    {
      results := NoResults;
    }

    method SetError(message: string)
      modifies this
      ensures error == Some(message)
      ensures query == old(query) && results == old(results) && loading == old(loading)
    {
      error := Some(message);
    }

    method ClearError()
      modifies this
      ensures error == None
      ensures query == old(query) && results == old(results) && loading == old(loading)
    {
      error := None;
    }

    /** `searchItems.pending`: the previous results stay visible while the search runs. */
    method Pending()
      modifies this
      ensures loading && error == None
      ensures query == old(query) && results == old(results)
    {
      loading := true;
      error := None;
    }

    /** `searchItems.fulfilled`: the results are replaced as a whole. */
    method Fulfilled(payload: SearchApi.SearchResults)
      modifies this
      ensures !loading && results == payload
      ensures query == old(query) && error == old(error)
    {
      loading := false;
      results := payload;
    }

    /** `searchItems.rejected`. */
    method Rejected(message: Option<string>)
      modifies this
      ensures !loading && error == Some(Async.ErrorText(message, SearchFailed))
      ensures query == old(query) && results == old(results)
    {
      loading := false;
      error := Some(Async.ErrorText(message, SearchFailed));
    }
  }

  /**
   * `searchItems(query)`: the back end's search never fails, so the thunk
   * always ends in its fulfilled case. The query field is not touched: the
   * screen sets it separately with `setQuery`.
   */
  method SearchItems(api: MockApi.Backend, s: SearchState, query: string)
    modifies s
    ensures !s.loading && s.error == None && s.query == old(s.query)
    ensures s.results == SearchApi.Search(api.rooms, api.bins, api.items, query)
  {
    s.Pending();
    s.Fulfilled(SearchApi.Search(api.rooms, api.bins, api.items, query));
  }
}
