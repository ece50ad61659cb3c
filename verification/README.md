# Quran search interface — a Dafny model

A model of the client-side logic of a Quran search page written in React.
The page holds a five-record catalog of surahs, readers and recitations
(`mockResults`). A search runs in two passes over that catalog:

- a literal, case-sensitive substring test of the query against a record's
  title, subtitle and description;
- an "any filter matches" test over the selected `(category, value)` filters.

The surrounding components are small state machines, and each becomes a
class here:

- the filter panel keeps its list of selected filters free of repeats;
- the search bar filters its autocomplete list and moves a keyboard cursor
  over it;
- the AI search box only sends non-blank questions;
- the page keeps `query`, `filters`, `results`, `isLoading` and `hasSearched`.

The results area picks one of four views.

Modules, one per component plus three helpers:

- `Wrappers`: `Option`.
- `Text`: the JavaScript string operations used. These are `includes` (an
  index scan proved equal to "occurs as a contiguous block"), `trim` (over
  ECMAScript's WhiteSpace and LineTerminator characters) and `toLowerCase`
  (ASCII letters).
- `Sequences`: `Array.prototype.filter`, removal by index, subsequence and
  no-duplicates, with their lemmas.
- `SearchResults` (`src/components/SearchResults.tsx`): the record type, the
  type badge, the card contents and the view decision.
- `SearchFilters` (`src/components/SearchFilters.tsx`): the `FilterPanel`
  class.
- `SearchPage` (`src/pages/Index.tsx`): the catalog, the search passes, the
  scenario lemmas on the catalog and the `IndexPage` class.
- `SearchBar` (`src/components/SearchBar.tsx`): suggestion filtering, the
  cursor and the `SearchBox` class.
- `AISearch` (`src/components/AISearch.tsx`): the `AIBox` class.

The 800 ms `setTimeout` in `performSearch` is split in two. `PerformSearch`
does the synchronous part and returns the captured `(query, filters,
isAISearch)` as a `PendingSearch`. `Complete` runs the deferred callback
on it.

The empty search is handled by the guard in `performSearch`, not by the
evaluation. A search with neither a query nor filters clears the results
and starts nothing. The two passes themselves, run with an empty query and
no filters, would keep the whole catalog (`Evaluate` does the same).

## Model

| member | source | states |
|---|---|---|
| Text.Includes | src/pages/Index.tsx:100-102 | `includes` is true exactly when the needle occurs as a contiguous block at some index |
| Text.IncludesAbsentChar | src/pages/Index.tsx:100-102 | a text lacking one character of the needle does not include it |
| Text.IncludesAcrossSeparator | src/pages/Index.tsx:102 | an occurrence in `a + b` lies inside `a` or inside `b` when the last character of `a` is not in the needle |
| Text.Trim | src/components/AISearch.tsx:24 | `trim` yields a contiguous block of the input with only whitespace before and after it; the block neither starts nor ends with whitespace, and is empty exactly when the input is all whitespace |
| Text.TrimPadding | src/components/AISearch.tsx:24 | whitespace added before and after a text does not change its trimmed form, so padding never turns a blank question into a sendable one or the reverse |
| Text.ToLower | src/components/SearchBar.tsx:19 | `toLowerCase` keeps the length and maps each character on its own: an ASCII capital becomes the same letter in lower case and any other character stays; so no ASCII capital is left, and a text without capitals is unchanged |
| Sequences.Filter | src/pages/Index.tsx:99-103 | `filter` never lengthens the list |
| Sequences.FilterMembers | src/pages/Index.tsx:99-103 | `filter` keeps exactly the elements that pass the test |
| Sequences.FilterCounts | src/pages/Index.tsx:99-103 | `filter` keeps every passing element as many times as the input holds it, and drops every failing one |
| Sequences.FilterIsSubsequence | src/pages/Index.tsx:95-108 | `filter` keeps the kept elements in their original order |
| Sequences.FilterTwice | src/pages/Index.tsx:98-121 | two successive `filter` passes equal one pass with the conjunction of the tests |
| Sequences.FilterKeepsAll | src/pages/Index.tsx:95 | a pass that every element passes changes nothing |
| Sequences.FilterAgree | src/pages/Index.tsx:98-121 | passes with tests that agree on every element give the same list |
| Sequences.RemoveAt | src/components/SearchFilters.tsx:37 | removing an in-range index drops exactly that element, shifts the later ones down and shrinks the list by one; an out-of-range index changes nothing |
| Sequences.NoDuplicatesAppend | src/components/SearchFilters.tsx:25-30 | appending an absent element keeps the list free of repeats |
| Sequences.NoDuplicatesRemoveAt | src/components/SearchFilters.tsx:37 | removal keeps the list free of repeats |
| SearchResults.TypeLabel | src/components/SearchResults.tsx:71-73 | the badge is سورة exactly for surahs, قارئ exactly for readers, تلاوة exactly for recitations |
| SearchResults.CardOf | src/components/SearchResults.tsx:57-82 | a card is keyed by the record's id (React's `key`, not shown) and shows the record's badge, title and subtitle, and its description exactly when there is a non-empty one |
| SearchResults.Cards | src/components/SearchResults.tsx:57 | one card per result, in the order of the results |
| SearchResults.Render | src/components/SearchResults.tsx:27-57 | loading always shows the spinner; no results shows the message quoting a non-empty query and nothing for an empty one; otherwise the full list in order, headed by its length |
| SearchFilters.Vocabulary | src/components/SearchFilters.tsx:19-21 | each category offers a non-empty list of values without repeats |
| SearchFilters.Offered | src/components/SearchFilters.tsx:19-21 | a filter the panel's buttons (lines 101, 116 and 131) can produce: its value is one of its category's listed values |
| SearchFilters.FilterPanel.constructor | src/components/SearchFilters.tsx:16 | the panel starts with no filter selected |
| SearchFilters.FilterPanel.Select | src/components/SearchFilters.tsx:23-34 | called with a value its category offers (the buttons at lines 101, 116 and 131); an already selected filter changes nothing and is not reported; a new one is appended and the new list reported; the list stays free of repeats and holds only offered values |
| SearchFilters.FilterPanel.Remove | src/components/SearchFilters.tsx:36-40 | the list loses the entry at the index, if any, and the new list is reported; no repeats |
| SearchFilters.FilterPanel.Clear | src/components/SearchFilters.tsx:42-45 | the list becomes empty and the empty list is reported |
| SearchPage.MockResults | src/pages/Index.tsx:9-43 | the five catalog records with their ids, titles, subtitles, descriptions and types, in order |
| SearchPage.SearchSuggestions | src/pages/Index.tsx:46-58 | the eleven autocomplete entries the page hands to the search bar, in order |
| SearchPage.MatchesQuery | src/pages/Index.tsx:99-103 | the query test: the query occurs in the title, the subtitle, or the description when there is one |
| SearchPage.MatchesFilter | src/pages/Index.tsx:109-120 | the per-category rule: a surah filter matches surahs by title; a reader filter matches readers and recitations by title or subtitle; a recitation-type filter matches recitations by title; nothing else matches |
| SearchPage.AnyFilterMatches | src/pages/Index.tsx:109-120 | true exactly when some selected filter matches the record under its category rule |
| SearchPage.Evaluate | src/pages/Index.tsx:95-121 | a search never returns more records than the catalog holds |
| SearchPage.EvaluateSelects | src/pages/Index.tsx:95-121 | the two passes compose by intersection: the result is the catalog records passing both tests, in catalog order, and a catalog record is in it exactly when it passes both |
| SearchPage.QueryOnlySearch | src/pages/Index.tsx:98-104 | with a query and no filters a record is kept exactly when the query occurs in its title, its subtitle or its description |
| SearchPage.FiltersOnlySearch | src/pages/Index.tsx:107-121 | with filters and no query a record is kept exactly when some filter matches it |
| SearchPage.MissingCharNoMatch | src/pages/Index.tsx:99-103 | a query with a character missing from every field of a record does not match it |
| SearchPage.FatihaLacksBaqarah | src/pages/Index.tsx:17-23 | record 2 does not contain "البقرة" in any field |
| SearchPage.BaqarahTitles | src/pages/Index.tsx:10-42 | records 1, 4 and 5 contain "البقرة" in their titles |
| SearchPage.ScenarioBaqarah | src/pages/Index.tsx:9-43 | searching "البقرة" with no filters gives records 1, 4, 5 in that order |
| SearchPage.ScenarioReaderFilter | src/pages/Index.tsx:9-43 | the reader filter "مشاري العفاسي", a value the reader category offers, with no query gives records 3 and 4 in that order |
| SearchPage.ScenarioNotFound | src/pages/Index.tsx:9-43 | a query containing a Latin "x" finds nothing, and the results area then shows the no-results message |
| SearchPage.IndexPage.constructor | src/pages/Index.tsx:61-65 | the page starts with empty query, filters and results, not loading and not searched |
| SearchPage.IndexPage.PerformSearch | src/pages/Index.tsx:84-92 | no query and no filters: results cleared, loading and searched flags untouched, nothing pending; otherwise loading and searched set and the search left pending; results stay catalog records in order |
| SearchPage.IndexPage.Complete | src/pages/Index.tsx:94-133 | the results become the evaluation of the captured query and filters, whatever the AI flag, and loading stops |
| SearchPage.IndexPage.HandleSearch | src/pages/Index.tsx:67-70 | the query is stored and a search runs with the current filters |
| SearchPage.IndexPage.HandleAISearch | src/pages/Index.tsx:79-82 | as a plain search, marked as an AI search |
| SearchPage.IndexPage.HandleFilterChange | src/pages/Index.tsx:72-77 | the filters are always stored; a search with the stored query runs only once a search has been made |
| SearchBar.FilteredSuggestions | src/components/SearchBar.tsx:18-20 | the filtered list is never longer than the suggestions |
| SearchBar.FilteredSuggestionsSpec | src/components/SearchBar.tsx:18-20 | the filtered list holds exactly the suggestions whose lower-cased form contains the lower-cased query, in original order |
| SearchBar.FilteredSuggestionsCounts | src/components/SearchBar.tsx:18-20 | a passing suggestion is offered as many times as the suggestions hold it, a failing one never |
| SearchBar.FilteredSuggestionsNonEmpty | src/components/SearchBar.tsx:18-20 | the filtered list is non-empty exactly when some suggestion passes the test |
| SearchBar.FilteredSuggestionsEmptyQuery | src/components/SearchBar.tsx:18-20 | an empty query offers every suggestion |
| SearchBar.CursorDown | src/components/SearchBar.tsx:41-43 | ArrowDown moves down by one exactly while the cursor is above the last entry, so it never moves onto index `length` or beyond |
| SearchBar.CursorUp | src/components/SearchBar.tsx:46 | ArrowUp moves up by one exactly while the cursor is above 0; from 0 or -1 it stays |
| SearchBar.SearchBox.constructor | src/components/SearchBar.tsx:11-14 | the bar starts with an empty query, the list hidden and no suggestion highlighted |
| SearchBar.SearchBox.ChangeQuery | src/components/SearchBar.tsx:79 | typing replaces the query and leaves the cursor where it was |
| SearchBar.SearchBox.SyncSuggestions | src/components/SearchBar.tsx:34-36 | the list is shown exactly when the query is non-empty and some suggestion contains it |
| SearchBar.SearchBox.KeyDown | src/components/SearchBar.tsx:38-59 | arrows move the cursor as `CursorDown`/`CursorUp`; Enter submits the highlighted suggestion (making it the query) or else the query, and hides the list; Escape hides the list without submitting |
| SearchBar.SearchBox.ClickSuggestion | src/components/SearchBar.tsx:106-110 | the clicked suggestion becomes the query, is submitted, and the list is hidden |
| SearchBar.SearchBox.SearchButton | src/components/SearchBar.tsx:61-64 | the query is submitted as typed and the list is hidden |
| SearchPage.NoSuggestionForX | src/pages/Index.tsx:46-58 | with the page's suggestions, a query containing a Latin "x" leaves no suggestion to offer |
| SearchPage.SurahOffered | src/pages/Index.tsx:46-58 | with the page's suggestions, the query "سورة" offers at least one suggestion |
| SearchPage.StaleCursor | src/components/SearchBar.tsx:41-50 | on the page's suggestions, typing "سورة", ArrowDown, then a query with a Latin "x" reaches a state where the cursor is on index 0 of an empty list, so Enter would read past its end |
| AISearch.SuggestedQueries | src/components/AISearch.tsx:14-20 | the five ready-made questions, in order |
| AISearch.AIBox.constructor | src/components/AISearch.tsx:10-11 | the box starts collapsed and empty |
| AISearch.AIBox.SubmitDisabled | src/components/AISearch.tsx:93 | the submit button is disabled exactly when the question is all whitespace |
| AISearch.AIBox.Type | src/components/AISearch.tsx:82 | typing replaces the question |
| AISearch.AIBox.Submit | src/components/AISearch.tsx:22-29 | a blank question sends nothing and changes nothing, exactly when the button is disabled; any other is sent untrimmed, then the box is emptied and collapsed |
| AISearch.AIBox.ClickSuggested | src/components/AISearch.tsx:31-34 | the button of the ready-made question at an index sends that question as it is, which is never blank; the panel collapses and the typed question stays |
| AISearch.SuggestedQueriesNotBlank | src/components/AISearch.tsx:14-20 | every ready-made question has a character other than whitespace |
| AISearch.AIBox.Toggle | src/components/AISearch.tsx:36-43 | the panel's open state flips and the question stays |

## Left out

- `src/components/VoiceRecognition.tsx`: browser speech-recognition plumbing. It is not part of this model.
- Timing: the 800 ms delay and the interleaving of overlapping searches are left out. With several searches in flight, the last one to complete decides the results; the model completes one `PendingSearch` at a time.
- The 100 ms focus timeout of the AI box and the input's focus state are left out. So are the click-outside listener of the search bar, `scrollIntoView`, `blur`/`focus` calls and `console.log`.
- Markup, class names and animations are left out. So is the open or closed state of the filter panel, which affects no data.
- Text.ToLower: only ASCII capitals are mapped. The rest of Unicode case mapping is left out; the Arabic script has no case.
- The catalog's three long descriptions and the first suggested question of the AI box are written as concatenations of short pieces, cut after spaces. The strings are identical to the originals.
- SearchBar.SearchBox.KeyDown: Enter with a highlighted index past the end of the current list is a precondition failure; that case is not modelled. In the component it calls `onSearch(undefined)` and sets the query to `undefined`. The next render then evaluates `query.toLowerCase()` (src/components/SearchBar.tsx:19) on `undefined`, which throws a TypeError and takes the page down. `SearchPage.StaleCursor` shows that state is reachable.
- SearchBar.SearchBox.SyncSuggestions: the effect re-runs after every render in which the query changed, including after Enter or a click replaced it. The model leaves calling it to the caller. So the model does not show the consequence: the chosen suggestion contains itself, so the effect at src/components/SearchBar.tsx:34-36 shows the list again right after Enter or a click hid it.
- SearchBar.SearchBox.ClickSuggestion: the clicked entry is given by its index in the shown list. That list exists only while the suggestions are shown.
- SearchFilters.FilterPanel.Remove: a JavaScript number index that is not an integer (such as 1.5) removes nothing. The model takes integer indices only.
- AISearch.AIBox.Submit, AISearch.AIBox.Type, AISearch.AIBox.ClickSuggested: the form, its text area and the ready-made question buttons exist only while the panel is open (src/components/AISearch.tsx:76-115). The model allows these handlers in either state.
