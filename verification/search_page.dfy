/**
 * The search page (`Index`): the five-record catalog, the query and filter
 * tests `performSearch` applies to it, and the page state those handlers
 * update.
 */
module SearchPage {
  import opened Wrappers
  import opened Text
  import opened Sequences
  import opened SearchResults
  import opened SearchFilters
  import opened SearchBar

  // The catalog.  The long descriptions are written as concatenations of
  // short pieces, cut after a space; the strings are the same.

  const Baqarah := Record(
    "1", "سورة البقرة", "المصحف المرتل",
    Some("أطول سورة " + "في القرآن " + "الكريم، وتتناول " + "موضوعات متعددة " + "تتعلق بالإيمان " + "والعبادات " + "والمعاملات."),
    Surah)

  const Fatiha := Record(
    "2", "سورة الفاتحة", "المصحف المرتل",
    Some("أم الكتاب وأم القرآن " + "والسبع المثاني، وهي أول " + "سورة في المصحف الشريف."),
    Surah)

  const Alafasy := Record(
    "3", "مشاري العفاسي", "قارئ من الكويت",
    Some("من أشهر " + "قراء القرآن " + "الكريم في " + "العصر الحديث، " + "يمتاز بصوت " + "شجي وأداء " + "متقن."),
    Reader)

  const BaqarahMurattal := Record("4", "سورة البقرة - مرتل", "مشاري العفاسي", None, Recitation)

  const BaqarahMujawwad := Record("5", "سورة البقرة - مجود", "عبد الباسط عبد الصمد", None, Recitation)

  /** `mockResults`, the catalog every search runs over. */
  const MockResults: seq<Record> := [Baqarah, Fatiha, Alafasy, BaqarahMurattal, BaqarahMujawwad]

  /** `searchSuggestions`, the autocomplete list the page hands to the search bar. */
  const SearchSuggestions: seq<string> := [
    "سورة البقرة", "سورة آل عمران", "سورة النساء", "سورة المائدة", "سورة الأنعام",
    "مشاري العفاسي", "عبد الباسط عبد الصمد", "محمود خليل الحصري", "محمد صديق المنشاوي",
    "تلاوة مرتلة", "تلاوة مجودة"]

  /** The query test: the query occurs in the title, the subtitle or the description when there is one. */
  predicate MatchesQuery(r: Record, query: string)
  {
    || Includes(r.title, query)
    || Includes(r.subtitle, query)
    || (r.description.Some? && Includes(r.description.value, query))
  }

  /**
   * The per-category filter rule: a surah filter matches surahs by title, a
   * reader filter matches readers and recitations by title or subtitle, a
   * recitation-type filter matches recitations by title; nothing else
   * matches.
   */
  predicate MatchesFilter(r: Record, f: FilterType)
  {
    if f.category.SurahCategory? && r.kind.Surah? then
      Includes(r.title, f.value)
    else if f.category.ReaderCategory? && (r.kind.Reader? || r.kind.Recitation?) then
      Includes(r.title, f.value) || Includes(r.subtitle, f.value)
    else if f.category.RecitationTypeCategory? && r.kind.Recitation? then
      Includes(r.title, f.value)
    else
      false
  }

  /** `filters.some(...)`: whether at least one of the filters matches the record. */
  function AnyFilterMatches(r: Record, filters: seq<FilterType>): (b: bool)
    ensures b <==> exists i :: 0 <= i < |filters| && MatchesFilter(r, filters[i])
  {
    if filters == [] then false
    else
      assert forall i :: 1 <= i < |filters| ==> filters[i] == filters[1..][i - 1];
      MatchesFilter(r, filters[0]) || AnyFilterMatches(r, filters[1..])
  }

  /** The element test of the query pass. */
  function QueryTest(query: string): Record -> bool
  {
    r => MatchesQuery(r, query)
  }

  /** The element test of the filter pass. */
  function FiltersTest(filters: seq<FilterType>): Record -> bool
  {
    r => AnyFilterMatches(r, filters)
  }

  /**
   * What a search keeps: a record passes the query test when there is a
   * query and the filter test when there are filters.
   */
  predicate Selected(r: Record, query: string, filters: seq<FilterType>)
  {
    (query == "" || MatchesQuery(r, query)) && (filters == [] || AnyFilterMatches(r, filters))
  }

  /** The element test of a whole search. */
  function SelectedTest(query: string, filters: seq<FilterType>): Record -> bool
  {
    r => Selected(r, query, filters)
  }

  /**
   * The body of the deferred callback in `performSearch`: start from the
   * whole catalog, keep the records the query test accepts when there is a
   * query, then those some filter accepts when there are filters.
   */
  function Evaluate(catalog: seq<Record>, query: string, filters: seq<FilterType>): (found: seq<Record>)
    ensures |found| <= |catalog|
  {
    var byQuery := if query != "" then Filter(catalog, QueryTest(query)) else catalog;
    if |filters| > 0 then Filter(byQuery, FiltersTest(filters)) else byQuery
  }

  /**
   * The two passes compose by intersection: a search keeps exactly the
   * catalog records that pass both tests, in catalog order.
   */
  lemma EvaluateSelects(catalog: seq<Record>, query: string, filters: seq<FilterType>)
    ensures Evaluate(catalog, query, filters) == Filter(catalog, SelectedTest(query, filters))
    ensures IsSubsequence(Evaluate(catalog, query, filters), catalog)
    ensures forall i :: 0 <= i < |catalog| ==>
      (catalog[i] in Evaluate(catalog, query, filters) <==> Selected(catalog[i], query, filters))
  {
    var keep := SelectedTest(query, filters);
    FilterIsSubsequence(catalog, keep);
    FilterMembers(catalog, keep);
    if query != "" && filters != [] {
      FilterTwice(catalog, QueryTest(query), FiltersTest(filters), keep);
    } else if query != "" {
      FilterAgree(catalog, QueryTest(query), keep);
    } else if filters != [] {
      FilterAgree(catalog, FiltersTest(filters), keep);
    } else {
      forall i | 0 <= i < |catalog| ensures keep(catalog[i]) {
        assert Selected(catalog[i], query, filters);
      }
      FilterKeepsAll(catalog, keep);
    }
  }

  /**
   * With a query and no filters, a record is kept exactly when the query
   * occurs in its title, subtitle or description.
   */
  lemma QueryOnlySearch(catalog: seq<Record>, query: string, i: nat)
    requires query != "" && i < |catalog|
    ensures catalog[i] in Evaluate(catalog, query, []) <==>
      exists k :: OccursAt(catalog[i].title, query, k) || OccursAt(catalog[i].subtitle, query, k)
        || (catalog[i].description.Some? && OccursAt(catalog[i].description.value, query, k))
  {
    EvaluateSelects(catalog, query, []);
  }

  /** With filters and no query, a record is kept exactly when some filter matches it. */
  lemma FiltersOnlySearch(catalog: seq<Record>, filters: seq<FilterType>, i: nat)
    requires filters != [] && i < |catalog|
    ensures catalog[i] in Evaluate(catalog, "", filters) <==>
      exists j :: 0 <= j < |filters| && MatchesFilter(catalog[i], filters[j])
  {
    EvaluateSelects(catalog, "", filters);
  }

  /** The ids of a list of records, in order. */
  function Ids(rs: seq<Record>): (ids: seq<string>)
    ensures |ids| == |rs| && forall i :: 0 <= i < |rs| ==> ids[i] == rs[i].id
  {
    if rs == [] then [] else [rs[0].id] + Ids(rs[1..])
  }

  /** No character of `s` is `c`. */
  predicate Absent(s: string, c: char)
  {
    forall i :: 0 <= i < |s| ==> s[i] != c
  }

  /** `c` occurs in no field of `r`. */
  predicate Lacks(r: Record, c: char)
  {
    Absent(r.title, c) && Absent(r.subtitle, c) && (r.description.Some? ==> Absent(r.description.value, c))
  }

  /** A query with a character that no field of the record has does not match it. */
  lemma MissingCharNoMatch(r: Record, query: string, c: char)
    requires c in query && Lacks(r, c)
    ensures !MatchesQuery(r, query)
  {
    IncludesAbsentChar(r.title, query, c);
    IncludesAbsentChar(r.subtitle, query, c);
    if r.description.Some? {
      IncludesAbsentChar(r.description.value, query, c);
    }
  }

  /**
   * A text cut into three pieces, each after a character the query lacks,
   * does not include the query when each piece lacks some character of it.
   */
  lemma PiecesLackQuery(a: string, b: string, c: string, query: string, ca: char, cb: char, cc: char)
    requires |a| > 0 && a[|a| - 1] !in query && |b| > 0 && b[|b| - 1] !in query
    requires ca in query && ca !in a && cb in query && cb !in b && cc in query && cc !in c
    ensures !Includes(a + b + c, query)
  {
    IncludesAcrossSeparator(a + b, c, query);
    IncludesAcrossSeparator(a, b, query);
    IncludesAbsentChar(a, query, ca);
    IncludesAbsentChar(b, query, cb);
    IncludesAbsentChar(c, query, cc);
  }

  /** The description of record 2 does not include "البقرة". */
  lemma FatihaDescriptionLacksBaqarah()
    ensures !Includes(Fatiha.description.value, "البقرة")
  {
    PiecesLackQuery("أم الكتاب وأم القرآن ", "والسبع المثاني، وهي أول ", "سورة في المصحف الشريف.", "البقرة", 'ة', 'ق', 'ب');
  }

  /** The query "البقرة" occurs in no field of record 2. */
  lemma FatihaLacksBaqarah()
    ensures !MatchesQuery(Fatiha, "البقرة")
  {
    IncludesAbsentChar(Fatiha.title, "البقرة", 'ب');
    IncludesAbsentChar(Fatiha.subtitle, "البقرة", 'ب');
    FatihaDescriptionLacksBaqarah();
  }

  /** Records 1, 4 and 5 have "البقرة" in their titles. */
  lemma BaqarahTitles()
    ensures MatchesQuery(Baqarah, "البقرة")
    ensures MatchesQuery(BaqarahMurattal, "البقرة")
    ensures MatchesQuery(BaqarahMujawwad, "البقرة")
  {
    assert OccursAt(Baqarah.title, "البقرة", 5);
    assert OccursAt(BaqarahMurattal.title, "البقرة", 5);
    assert OccursAt(BaqarahMujawwad.title, "البقرة", 5);
  }

  /** The one-element list holding `x` when `p` accepts it, the empty list otherwise. */
  function Kept<T>(x: T, p: T -> bool): seq<T>
  {
    if p(x) then [x] else []
  }

  /** Filtering a list that starts with `x`: `x` when kept, then the filtered rest. */
  lemma FilterCons<T>(x: T, s: seq<T>, p: T -> bool)
    ensures Filter([x] + s, p) == Kept(x, p) + Filter(s, p)
  {
    assert ([x] + s)[0] == x;
    assert ([x] + s)[1..] == s;
  }

  /** Filtering a five-element list, one element at a time. */
  lemma FilterFive<T>(a: T, b: T, c: T, d: T, e: T, p: T -> bool)
    ensures Filter([a, b, c, d, e], p) == Kept(a, p) + (Kept(b, p) + (Kept(c, p) + (Kept(d, p) + Kept(e, p))))
  {
    var s4 := [e] + [];
    var s3 := [d] + s4;
    var s2 := [c] + s3;
    var s1 := [b] + s2;
    assert [a] + s1 == [a, b, c, d, e];
    FilterCons(e, [], p);
    assert Kept(e, p) + [] == Kept(e, p);
    FilterCons(d, s4, p);
    FilterCons(c, s3, p);
    FilterCons(b, s2, p);
    FilterCons(a, s1, p);
  }

  /** A test that accepts the first and the last two of five elements keeps exactly those. */
  lemma FilterFiveKeepsFirstAndLastTwo<T>(a: T, b: T, c: T, d: T, e: T, p: T -> bool)
    requires p(a) && !p(b) && !p(c) && p(d) && p(e)
    ensures Filter([a, b, c, d, e], p) == [a, d, e]
  {
    FilterFive(a, b, c, d, e, p);
  }

  /** A test that accepts only the third and fourth of five elements keeps exactly those. */
  lemma FilterFiveKeepsMiddleTwo<T>(a: T, b: T, c: T, d: T, e: T, p: T -> bool)
    requires !p(a) && !p(b) && p(c) && p(d) && !p(e)
    ensures Filter([a, b, c, d, e], p) == [c, d]
  {
    FilterFive(a, b, c, d, e, p);
  }

  /** A test that accepts none of five elements keeps nothing. */
  lemma FilterFiveKeepsNone<T>(a: T, b: T, c: T, d: T, e: T, p: T -> bool)
    requires !p(a) && !p(b) && !p(c) && !p(d) && !p(e)
    ensures Filter([a, b, c, d, e], p) == []
  {
    FilterFive(a, b, c, d, e, p);
  }

  /** Record 3 has no "ة" in any field, so no query with a "ة", such as "البقرة", matches it. */
  lemma TaMarbutaMissesAlafasy(query: string)
    requires 'ة' in query
    ensures !QueryTest(query)(Alafasy)
  {
    AlafasyDescriptionLacks();
    MissingCharNoMatch(Alafasy, query, 'ة');
  }

  /** Searching for "البقرة" with no filters finds records 1, 4 and 5, in that order. */
  lemma ScenarioBaqarah()
    ensures Evaluate(MockResults, "البقرة", []) == [Baqarah, BaqarahMurattal, BaqarahMujawwad]
    ensures Ids(Evaluate(MockResults, "البقرة", [])) == ["1", "4", "5"]
  {
    var p := QueryTest("البقرة");
    BaqarahTitles();
    assert p(Baqarah) && p(BaqarahMurattal) && p(BaqarahMujawwad);
    FatihaLacksBaqarah();
    TaMarbutaMissesAlafasy("البقرة");
    FilterFiveKeepsFirstAndLastTwo(Baqarah, Fatiha, Alafasy, BaqarahMurattal, BaqarahMujawwad, p);
  }

  /** The reader filter on "مشاري العفاسي". */
  const AlafasyFilter := [FilterType(ReaderCategory, "مشاري العفاسي")]

  /** A reader filter never matches a surah. */
  lemma AlafasyFilterSkipsSurahs()
    ensures !FiltersTest(AlafasyFilter)(Baqarah) && !FiltersTest(AlafasyFilter)(Fatiha)
  {
  }

  /** Record 3 matches the reader filter by its title. */
  lemma AlafasyFilterMatchesReader()
    ensures FiltersTest(AlafasyFilter)(Alafasy)
  {
    IncludesTrivial("مشاري العفاسي");
  }

  /** Record 4 matches the reader filter by its subtitle. */
  lemma AlafasyFilterMatchesMurattal()
    ensures FiltersTest(AlafasyFilter)(BaqarahMurattal)
  {
    IncludesTrivial("مشاري العفاسي");
  }

  /** Record 5 has no "ش" in its title or subtitle, so the reader filter skips it. */
  lemma AlafasyFilterSkipsMujawwad()
    ensures !FiltersTest(AlafasyFilter)(BaqarahMujawwad)
  {
    IncludesAbsentChar(BaqarahMujawwad.title, "مشاري العفاسي", 'ش');
    IncludesAbsentChar(BaqarahMujawwad.subtitle, "مشاري العفاسي", 'ش');
    assert !MatchesFilter(BaqarahMujawwad, AlafasyFilter[0]);
  }

  /**
   * Filtering by the reader "مشاري العفاسي" with no query finds the reader
   * (record 3, by title) and the reader's recitation (record 4, by subtitle).
   */
  lemma ScenarioReaderFilter()
    ensures Offered(AlafasyFilter[0])
    ensures Evaluate(MockResults, "", AlafasyFilter) == [Alafasy, BaqarahMurattal]
    ensures Ids(Evaluate(MockResults, "", AlafasyFilter)) == ["3", "4"]
  {
    AlafasyFilterSkipsSurahs();
    AlafasyFilterMatchesReader();
    AlafasyFilterMatchesMurattal();
    AlafasyFilterSkipsMujawwad();
    FilterFiveKeepsMiddleTwo(Baqarah, Fatiha, Alafasy, BaqarahMurattal, BaqarahMujawwad, FiltersTest(AlafasyFilter));
  }

  /** Record 1 has no "x" in any field. */
  lemma LatinXMissesBaqarah(query: string)
    requires 'x' in query
    ensures !QueryTest(query)(Baqarah)
  {
    BaqarahDescriptionLacksX();
    MissingCharNoMatch(Baqarah, query, 'x');
  }

  /** The description of record 3 has no "x" and no "ة". */
  lemma AlafasyDescriptionLacks()
    ensures Absent(Alafasy.description.value, 'x') && Absent(Alafasy.description.value, 'ة')
  {
  }

  /** The description of record 1 has no "x". */
  lemma BaqarahDescriptionLacksX()
    ensures Absent(Baqarah.description.value, 'x')
  {
  }

  /** Record 2 has no "x" in any field. */
  lemma LatinXMissesFatiha(query: string)
    requires 'x' in query
    ensures !QueryTest(query)(Fatiha)
  {
    MissingCharNoMatch(Fatiha, query, 'x');
  }

  /** Record 3 has no "x" in any field. */
  lemma LatinXMissesReader(query: string)
    requires 'x' in query
    ensures !QueryTest(query)(Alafasy)
  {
    AlafasyDescriptionLacks();
    MissingCharNoMatch(Alafasy, query, 'x');
  }

  /** Records 4 and 5 have no "x" in any field. */
  lemma LatinXMissesRecitations(query: string)
    requires 'x' in query
    ensures !QueryTest(query)(BaqarahMurattal) && !QueryTest(query)(BaqarahMujawwad)
  {
    MissingCharNoMatch(BaqarahMurattal, query, 'x');
    MissingCharNoMatch(BaqarahMujawwad, query, 'x');
  }

  /**
   * A query found nowhere (here: any query with a Latin "x", such as
   * "xyz-not-present") yields no records, and the results area then shows
   * the "no results" message rather than the nothing of the untouched page.
   */
  lemma ScenarioNotFound(query: string)
    requires 'x' in query
    ensures Evaluate(MockResults, query, []) == []
    ensures Render(Evaluate(MockResults, query, []), false, query) == NoResults(query)
    ensures Render([], false, "") == Nothing
  {
    LatinXMissesBaqarah(query);
    LatinXMissesFatiha(query);
    LatinXMissesReader(query);
    LatinXMissesRecitations(query);
    FilterFiveKeepsNone(Baqarah, Fatiha, Alafasy, BaqarahMurattal, BaqarahMujawwad, QueryTest(query));
  }

  /** No suggestion of the page has a Latin "x" in either case. */
  lemma SuggestionsLackX()
    ensures forall i :: 0 <= i < |SearchSuggestions| ==> 'x' !in SearchSuggestions[i] && 'X' !in SearchSuggestions[i]
  {
  }

  /** A text without "x" or "X" has no "x" once lower-cased. */
  lemma LowerLacksX(t: string)
    requires 'x' !in t && 'X' !in t
    ensures 'x' !in ToLower(t)
  {
    forall k | 0 <= k < |t| ensures ToLower(t)[k] != 'x' {
      assert t[k] != 'x' && t[k] != 'X';
    }
  }

  /** Typing a query with a Latin "x" leaves no suggestion to offer. */
  lemma NoSuggestionForX(query: string)
    requires 'x' in query
    ensures FilteredSuggestions(SearchSuggestions, query) == []
  {
    var k :| 0 <= k < |query| && query[k] == 'x';
    assert ToLower(query)[k] == 'x';
    SuggestionsLackX();
    forall i | 0 <= i < |SearchSuggestions|
      ensures !Includes(ToLower(SearchSuggestions[i]), ToLower(query))
    {
      LowerLacksX(SearchSuggestions[i]);
      IncludesAbsentChar(ToLower(SearchSuggestions[i]), ToLower(query), 'x');
    }
    FilteredSuggestionsNonEmpty(SearchSuggestions, query);
  }

  /** Typing "سورة" offers at least the first suggestion, "سورة البقرة". */
  lemma SurahOffered()
    ensures |FilteredSuggestions(SearchSuggestions, "سورة")| > 0
  {
    assert OccursAt(ToLower(SearchSuggestions[0]), ToLower("سورة"), 0);
    FilteredSuggestionsNonEmpty(SearchSuggestions, "سورة");
  }

  /**
   * The search bar never resets its cursor when the query changes.  On the
   * page's suggestions, typing "سورة" and pressing ArrowDown highlights the
   * first entry; typing a query with a Latin "x" then empties the list and
   * leaves the cursor on index 0 of it, where Enter would read past the end.
   */
  method StaleCursor(query: string) returns (box: SearchBox)
    requires 'x' in query
    ensures box.Valid() && box.suggestions == SearchSuggestions && box.query == query
    ensures box.activeSuggestion == 0 && box.Filtered() == []
  {
    box := new SearchBox(SearchSuggestions);
    box.ChangeQuery("سورة");
    box.SyncSuggestions();
    SurahOffered();
    var _ := box.KeyDown(ArrowDown);
    box.ChangeQuery(query);
    box.SyncSuggestions();
    NoSuggestionForX(query);
  }

  /** A search issued by `performSearch` and not yet completed: its captured arguments. */
  datatype PendingSearch = PendingSearch(query: string, filters: seq<FilterType>, isAISearch: bool)

  /**
   * The page state.  The deferred callback of a search is returned as a
   * `PendingSearch` and run later by `Complete`.
   */
  class IndexPage {
    const catalog: seq<Record>
    var query: string
    var filters: seq<FilterType>
    var results: seq<Record>
    var isLoading: bool
    var hasSearched: bool

    /** The page is only ever loading after a search has started, and shows catalog records in catalog order. */
    ghost predicate Valid()
      reads this
    {
      (isLoading ==> hasSearched) && IsSubsequence(results, catalog)
    }

    constructor (catalog: seq<Record>)
      ensures Valid() && this.catalog == catalog
      ensures query == "" && filters == [] && results == []
      ensures !isLoading && !hasSearched
    {
      this.catalog := catalog;
      query, filters, results := "", [], [];
      isLoading, hasSearched := false, false;
    }

    /**
     * `performSearch`: with neither a query nor filters the results are
     * cleared and nothing else happens; otherwise the page starts loading,
     * is marked as searched, and the search is left pending.
     */
    method PerformSearch(searchQuery: string, searchFilters: seq<FilterType>, isAISearch: bool)
      returns (pending: Option<PendingSearch>)
      requires Valid()
      modifies this
      ensures Valid()
      ensures query == old(query) && filters == old(filters)
      ensures searchQuery == "" && searchFilters == [] ==>
        && pending == None && results == []
        && isLoading == old(isLoading) && hasSearched == old(hasSearched)
      ensures !(searchQuery == "" && searchFilters == []) ==>
        && pending == Some(PendingSearch(searchQuery, searchFilters, isAISearch))
        && results == old(results) && isLoading && hasSearched
    {
      if searchQuery == "" && |searchFilters| == 0 {
        results := [];
        return None;
      }
      isLoading := true;
      hasSearched := true;
      pending := Some(PendingSearch(searchQuery, searchFilters, isAISearch));
    }

    /**
     * The deferred callback: the results become the evaluation of the
     * captured query and filters over the catalog, and loading stops.  The
     * AI flag does not enter the result.
     */
    method Complete(search: PendingSearch)
      requires Valid()
      modifies this
      ensures Valid()
      ensures results == Evaluate(catalog, search.query, search.filters) && !isLoading
      ensures query == old(query) && filters == old(filters) && hasSearched == old(hasSearched)
    {
      EvaluateSelects(catalog, search.query, search.filters);
      results := Evaluate(catalog, search.query, search.filters);
      isLoading := false;
    }

    /** `handleSearch`: store the query and search with the current filters. */
    method HandleSearch(searchQuery: string) returns (pending: Option<PendingSearch>)
      requires Valid()
      modifies this
      ensures Valid()
      ensures query == searchQuery && filters == old(filters)
      ensures searchQuery == "" && filters == [] ==>
        && pending == None && results == []
        && isLoading == old(isLoading) && hasSearched == old(hasSearched)
      ensures !(searchQuery == "" && filters == []) ==>
        && pending == Some(PendingSearch(searchQuery, filters, false))
        && results == old(results) && isLoading && hasSearched
    {
      query := searchQuery;
      pending := PerformSearch(searchQuery, filters, false);
    }

    /** `handleAISearch`: as `handleSearch`, with the search marked as an AI search. */
    method HandleAISearch(aiQuery: string) returns (pending: Option<PendingSearch>)
      requires Valid()
      modifies this
      ensures Valid()
      ensures query == aiQuery && filters == old(filters)
      ensures aiQuery == "" && filters == [] ==>
        && pending == None && results == []
        && isLoading == old(isLoading) && hasSearched == old(hasSearched)
      ensures !(aiQuery == "" && filters == []) ==>
        && pending == Some(PendingSearch(aiQuery, filters, true))
        && results == old(results) && isLoading && hasSearched
    {
      query := aiQuery;
      pending := PerformSearch(aiQuery, filters, true);
    }

    /**
     * `handleFilterChange`: always store the new filters; search again, with
     * the stored query, only once a search has been made.
     */
    method HandleFilterChange(newFilters: seq<FilterType>) returns (pending: Option<PendingSearch>)
      requires Valid()
      modifies this
      ensures Valid()
      ensures filters == newFilters && query == old(query) && hasSearched == old(hasSearched)
      ensures !old(hasSearched) ==>
        pending == None && results == old(results) && isLoading == old(isLoading)
      ensures old(hasSearched) && query == "" && newFilters == [] ==>
        pending == None && results == [] && isLoading == old(isLoading)
      ensures old(hasSearched) && !(query == "" && newFilters == []) ==>
        && pending == Some(PendingSearch(query, newFilters, false))
        && results == old(results) && isLoading
    {
      filters := newFilters;
      if hasSearched {
        pending := PerformSearch(query, newFilters, false);
      } else {
        pending := None;
      }
    }
  }
}
