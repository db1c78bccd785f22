/**
 * The search hook (frontend/src/hooks/useSearch.ts): a query and a
 * "search bar open" flag, and the filtered view of a list of items.
 */
module Search {
  import opened Text
  import opened Seqs

  /**
   * `filteredItems`: an empty query keeps every item; otherwise the item
   * predicate decides, and it is given the lower-cased query.
   */
  function FilteredItems<T>(items: seq<T>, searchQuery: string, filterFn: (T, string) -> bool): seq<T> {
    FilterBy(items, item => searchQuery == "" || filterFn(item, ToLower(searchQuery)))
  }

  /** With no query the filtered view is the whole list. */
  lemma EmptyQueryKeepsAll<T>(items: seq<T>, filterFn: (T, string) -> bool)
    ensures FilteredItems(items, "", filterFn) == items
  {
    FilterKeepsAccepted(items, item => "" == "" || filterFn(item, ToLower("")));
  }

  /** With a query, an item is shown exactly when the predicate accepts it for the lower-cased query. */
  lemma FilteredMembers<T>(items: seq<T>, searchQuery: string, filterFn: (T, string) -> bool, x: T)
    requires searchQuery != ""
    ensures x in FilteredItems(items, searchQuery, filterFn) <==> x in items && filterFn(x, ToLower(searchQuery))
  {
    FilterMembers(items, item => searchQuery == "" || filterFn(item, ToLower(searchQuery)), x);
  }

  /** The filtered view keeps the items' order. */
  lemma FilteredInOrder<T>(items: seq<T>, searchQuery: string, filterFn: (T, string) -> bool)
    ensures IsSubsequence(FilteredItems(items, searchQuery, filterFn), items)
  {
    FilterIsSubsequence(items, item => searchQuery == "" || filterFn(item, ToLower(searchQuery)));
  }

  /**
   * Filtering a list that grew by a page is filtering the old list followed by
   * filtering the page: appended pages never hide an earlier match.
   */
  lemma FilteredAppend<T>(a: seq<T>, b: seq<T>, searchQuery: string, filterFn: (T, string) -> bool)
    ensures FilteredItems(a + b, searchQuery, filterFn)
         == FilteredItems(a, searchQuery, filterFn) + FilteredItems(b, searchQuery, filterFn)
  {
    FilterConcat(a, b, item => searchQuery == "" || filterFn(item, ToLower(searchQuery)));
  }

  /** The hook's state: the query text and whether the search bar is open. */
  class SearchState {
    var searchQuery: string
    var isSearching: bool

    constructor ()
      ensures searchQuery == "" && !isSearching
    {
      searchQuery := "";
      isSearching := false;
    }

    /** The search bar's input changed. */
    method SetSearchQuery(q: string)
      modifies this
      ensures searchQuery == q && isSearching == old(isSearching)
    {
      searchQuery := q;
    }

    /** `closeSearch`. */
    method CloseSearch()
      modifies this
      ensures !isSearching && searchQuery == ""
    {
      isSearching := false;
      searchQuery := "";
    }

    /**
     * The window keydown listener. Cmd+F or Ctrl+F opens the search bar;
     * Escape closes it and clears the query, but only while it is open.
     */
    method KeyDown(key: string, metaKey: bool, ctrlKey: bool)
      modifies this
      ensures (metaKey || ctrlKey) && key == "f" ==> isSearching && searchQuery == old(searchQuery)
      ensures key == "Escape" && old(isSearching) ==> !isSearching && searchQuery == ""
      ensures key == "Escape" && !old(isSearching) ==> isSearching == old(isSearching) && searchQuery == old(searchQuery)
      ensures key != "Escape" && !((metaKey || ctrlKey) && key == "f") ==>
                isSearching == old(isSearching) && searchQuery == old(searchQuery)
    {
      var wasSearching := isSearching;
      if (metaKey || ctrlKey) && key == "f" {
        isSearching := true;
      }
      if key == "Escape" && wasSearching {
        isSearching := false;
        searchQuery := "";
      }
    }
  }
}
