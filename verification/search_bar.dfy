/**
 * The search bar: the query box, the autocomplete list filtered from the
 * page's suggestions, and the keyboard cursor that walks that list.
 */
module SearchBar {
  import opened Wrappers
  import opened Text
  import opened Sequences

  /** The suggestion test: the lower-cased suggestion contains the lower-cased query. */
  function SuggestionTest(query: string): string -> bool
  {
    suggestion => Includes(ToLower(suggestion), ToLower(query))
  }

  /** `filteredSuggestions`: the suggestions that pass the suggestion test, in their order. */
  function FilteredSuggestions(suggestions: seq<string>, query: string): (r: seq<string>)
    ensures |r| <= |suggestions|
  {
    Filter(suggestions, SuggestionTest(query))
  }

  /**
   * The filtered list holds exactly the suggestions whose lower-cased form
   * contains the lower-cased query, in their original order.
   */
  lemma FilteredSuggestionsSpec(suggestions: seq<string>, query: string)
    ensures IsSubsequence(FilteredSuggestions(suggestions, query), suggestions)
    ensures forall i :: 0 <= i < |suggestions| ==>
      (suggestions[i] in FilteredSuggestions(suggestions, query) <==>
        Includes(ToLower(suggestions[i]), ToLower(query)))
    ensures forall i :: 0 <= i < |FilteredSuggestions(suggestions, query)| ==>
      Includes(ToLower(FilteredSuggestions(suggestions, query)[i]), ToLower(query))
  {
    FilterIsSubsequence(suggestions, SuggestionTest(query));
    FilterMembers(suggestions, SuggestionTest(query));
  }

  /**
   * A suggestion that passes the test is offered as many times as the
   * suggestion list holds it; one that fails is not offered.
   */
  lemma FilteredSuggestionsCounts(suggestions: seq<string>, query: string)
    ensures forall x ::
      multiset(FilteredSuggestions(suggestions, query))[x] ==
        if Includes(ToLower(x), ToLower(query)) then multiset(suggestions)[x] else 0
  {
    FilterCounts(suggestions, SuggestionTest(query));
  }

  /** Some suggestion is offered exactly when some suggestion passes the test. */
  lemma FilteredSuggestionsNonEmpty(suggestions: seq<string>, query: string)
    ensures |FilteredSuggestions(suggestions, query)| > 0 <==>
      exists i :: 0 <= i < |suggestions| && Includes(ToLower(suggestions[i]), ToLower(query))
  {
    var filtered := FilteredSuggestions(suggestions, query);
    FilterMembers(suggestions, SuggestionTest(query));
    if |filtered| > 0 {
      var j :| 0 <= j < |suggestions| && suggestions[j] == filtered[0];
      assert Includes(ToLower(suggestions[j]), ToLower(query));
    }
  }

  /** With an empty query every suggestion is offered. */
  lemma FilteredSuggestionsEmptyQuery(suggestions: seq<string>)
    ensures FilteredSuggestions(suggestions, "") == suggestions
  {
    forall i | 0 <= i < |suggestions| ensures SuggestionTest("")(suggestions[i]) {
      IncludesTrivial(ToLower(suggestions[i]));
    }
    FilterKeepsAll(suggestions, SuggestionTest(""));
  }

  /**
   * ArrowDown: the cursor moves one step down while it is above the last
   * entry of a list of `count` entries, and otherwise stays: it never
   * moves onto or past index `count`.
   */
  function CursorDown(active: int, count: nat): (next: int)
    ensures active <= next <= active + 1
    ensures next == active + 1 <==> active < count - 1
    ensures next >= count ==> next == active
  {
    if active < count - 1 then active + 1 else active
  }

  /**
   * ArrowUp: the cursor moves one step up while it is on an entry below
   * the first, and otherwise stays, so it never leaves the range from -1 up.
   */
  function CursorUp(active: int): (next: int)
    ensures active - 1 <= next <= active
    ensures next == active - 1 <==> active > 0
    ensures active >= 0 ==> next >= 0
    ensures active >= -1 ==> next >= -1
  {
    if active > 0 then active - 1 else active
  }

  /** The keys `handleKeyDown` tells apart; every other key is `OtherKey`. */
  datatype Key = ArrowDown | ArrowUp | Enter | Escape | OtherKey

  /**
   * The search bar's state.  `activeSuggestion` is -1 when no suggestion
   * is highlighted.  Each handler returns the string it passes to
   * `onSearch`, or `None` when it does not call it.
   */
  class SearchBox {
    const suggestions: seq<string>
    var query: string
    var showSuggestions: bool
    var activeSuggestion: int

    /** The cursor is -1 or an index; nothing ties it to the current list. */
    ghost predicate Valid()
      reads this
    {
      activeSuggestion >= -1
    }

    /** The suggestions offered for the current query. */
    function Filtered(): seq<string>
      reads this
    {
      FilteredSuggestions(suggestions, query)
    }

    constructor (suggestions: seq<string>)
      ensures Valid() && this.suggestions == suggestions
      ensures query == "" && !showSuggestions && activeSuggestion == -1
    {
      this.suggestions := suggestions;
      query, showSuggestions, activeSuggestion := "", false, -1;
    }

    /** The input's `onChange`: the query becomes the typed text; the cursor is left where it was. */
    method ChangeQuery(text: string)
      requires Valid()
      modifies this
      ensures Valid()
      ensures query == text
      ensures showSuggestions == old(showSuggestions) && activeSuggestion == old(activeSuggestion)
    {
      query := text;
    }

    /**
     * The effect run after a render in which the query changed: the list
     * is shown exactly when the query is non-empty and some suggestion
     * contains it.
     */
    method SyncSuggestions()
      requires Valid()
      modifies this
      ensures Valid()
      ensures showSuggestions <==>
        query != "" && exists i :: 0 <= i < |suggestions| && Includes(ToLower(suggestions[i]), ToLower(query))
      ensures showSuggestions <==> query != "" && |Filtered()| > 0
      ensures query == old(query) && activeSuggestion == old(activeSuggestion)
    {
      FilteredSuggestionsNonEmpty(suggestions, query);
      showSuggestions := |query| > 0 && |FilteredSuggestions(suggestions, query)| > 0;
    }

    /**
     * `handleKeyDown`.  The arrows move the cursor within the current list;
     * Enter submits the highlighted suggestion (and makes it the query) or,
     * with nothing highlighted, the query, and hides the list; Escape hides
     * the list.  Enter with a highlighted index is only defined when that
     * index is still inside the current list, which the component does not
     * ensure (see `SearchPage.StaleCursor`).
     */
    method KeyDown(key: Key) returns (submitted: Option<string>)
      requires Valid()
      requires key.Enter? && activeSuggestion >= 0 ==> activeSuggestion < |Filtered()|
      modifies this
      ensures Valid()
      ensures key.ArrowDown? ==>
        && activeSuggestion == CursorDown(old(activeSuggestion), |old(Filtered())|)
        && query == old(query) && showSuggestions == old(showSuggestions) && submitted == None
      ensures key.ArrowUp? ==>
        && activeSuggestion == CursorUp(old(activeSuggestion))
        && query == old(query) && showSuggestions == old(showSuggestions) && submitted == None
      ensures key.Enter? && old(activeSuggestion) >= 0 ==>
        && query == old(Filtered())[old(activeSuggestion)] && submitted == Some(query)
        && query in suggestions
      ensures key.Enter? && old(activeSuggestion) < 0 ==>
        query == old(query) && submitted == Some(query)
      ensures key.Enter? ==> !showSuggestions && activeSuggestion == old(activeSuggestion)
      ensures key.Escape? ==>
        && !showSuggestions && submitted == None
        && query == old(query) && activeSuggestion == old(activeSuggestion)
      ensures key.OtherKey? ==>
        && submitted == None && query == old(query)
        && showSuggestions == old(showSuggestions) && activeSuggestion == old(activeSuggestion)
    {
      var filtered := FilteredSuggestions(suggestions, query);
      match key
      case ArrowDown =>
        activeSuggestion := if activeSuggestion < |filtered| - 1 then activeSuggestion + 1 else activeSuggestion;
        submitted := None;
      case ArrowUp =>
        activeSuggestion := if activeSuggestion > 0 then activeSuggestion - 1 else activeSuggestion;
        submitted := None;
      case Enter =>
        if activeSuggestion >= 0 {
          FilterMembers(suggestions, SuggestionTest(query));
          query := filtered[activeSuggestion];
          submitted := Some(filtered[activeSuggestion]);
        } else {
          submitted := Some(query);
        }
        showSuggestions := false;
      case Escape =>
        showSuggestions := false;
        submitted := None;
      case OtherKey =>
        submitted := None;
    }

    /**
     * Clicking the suggestion at `index` of the shown list: it becomes the
     * query, is submitted, and the list is hidden.
     */
    method ClickSuggestion(index: nat) returns (submitted: string)
      requires Valid() && index < |Filtered()|
      modifies this
      ensures Valid()
      ensures query == old(Filtered())[index] && submitted == query && query in suggestions
      ensures !showSuggestions && activeSuggestion == old(activeSuggestion)
    {
      FilterMembers(suggestions, SuggestionTest(query));
      var suggestion := Filtered()[index];
      query := suggestion;
      submitted := suggestion;
      showSuggestions := false;
    }

    /** `handleSearch`, the search button: submits the query as typed and hides the list. */
    method SearchButton() returns (submitted: string)
      requires Valid()
      modifies this
      ensures Valid()
      ensures submitted == query && query == old(query)
      ensures !showSuggestions && activeSuggestion == old(activeSuggestion)
    {
      submitted := query;
      showSuggestions := false;
    }
  }
}
