/**
 * The filter panel: the list of selected `(category, value)` filters, kept
 * free of repeats, and the three handlers that change it, each of which
 * reports the new list to the page.
 */
module SearchFilters {
  import opened Wrappers
  import opened Sequences

  /** The closed set of filter categories. */
  datatype Category = ReaderCategory | SurahCategory | RecitationTypeCategory

  /** `FilterType`: a category and a value; two filters are the same when both agree. */
  datatype FilterType = FilterType(category: Category, value: string)

  /** The values the panel offers in each category. */
  function Vocabulary(category: Category): (values: seq<string>)
    ensures |values| > 0 && NoDuplicates(values)
  {
    match category
    case ReaderCategory => ["عبد الباسط عبد الصمد", "محمود خليل الحصري", "مشاري العفاسي", "محمد صديق المنشاوي"]
    case SurahCategory => ["الفاتحة", "البقرة", "آل عمران", "النساء", "المائدة"]
    case RecitationTypeCategory => ["مرتل", "مجود", "حدر"]
  }

  /** A filter one of the panel's buttons can select: its value is offered in its category. */
  predicate Offered(f: FilterType)
  {
    f.value in Vocabulary(f.category)
  }

  /**
   * The panel's state.  `selected` is replaced by every handler; each
   * handler returns the list it passes to `onFilterChange`, or `None` when
   * it does not call it.
   */
  class FilterPanel {
    var selected: seq<FilterType>

    /** No filter is selected twice, and every selected filter is one the panel offers. */
    ghost predicate Valid()
      reads this
    {
      NoDuplicates(selected) && forall i :: 0 <= i < |selected| ==> Offered(selected[i])
    }

    constructor ()
      ensures Valid() && selected == []
    {
      selected := [];
    }

    /**
     * `handleFilterSelect`, called by the button of an offered value: a
     * filter already in the list changes nothing and is not reported; a new
     * one goes to the end of the list.
     */
    method Select(filter: FilterType) returns (notified: Option<seq<FilterType>>)
      requires Valid() && Offered(filter)
      modifies this
      ensures Valid()
      ensures filter in old(selected) ==> selected == old(selected) && notified == None
      ensures filter !in old(selected) ==>
        selected == old(selected) + [filter] && notified == Some(selected)
    {
      var present := filter in selected;
      if !present {
        NoDuplicatesAppend(selected, filter);
        selected := selected + [filter];
        notified := Some(selected);
      } else {
        notified := None;
      }
    }

    /**
     * `handleRemoveFilter`: drops the entry at `index` (none when `index` is
     * out of range) and always reports the resulting list.
     */
    method Remove(index: int) returns (notified: seq<FilterType>)
      requires Valid()
      modifies this
      ensures Valid()
      ensures selected == RemoveAt(old(selected), index) && notified == selected
    {
      NoDuplicatesRemoveAt(selected, index);
      selected := RemoveAt(selected, index);
      notified := selected;
    }

    /** `handleClearFilters`: empties the list and reports the empty list. */
    method Clear() returns (notified: seq<FilterType>)
      requires Valid()
      modifies this
      ensures Valid()
      ensures selected == [] && notified == []
    {
      selected := [];
      notified := [];
    }
  }
}
