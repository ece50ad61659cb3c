/**
 * The AI search box: a collapsible panel holding a free-text question and a
 * list of ready-made questions, each of which is passed to the page as a
 * search query.
 */
module AISearch {
  import opened Wrappers
  import opened Text

  /** `suggestedQueries`, the ready-made questions shown under the text box. */
  const SuggestedQueries: seq<string> := [
    "ابحث عن الآيات التي تحتوي " + "على أسماء الله الحسنى",
    "آيات عن الصبر والشكر",
    "سور تبدأ بالحروف المقطعة",
    "آيات تتحدث عن الجنة",
    "ابحث عن أطول آية في القرآن"]

  /**
   * The panel's state.  Each handler returns the string it passes to
   * `onSearch`, or `None` when it does not call it.
   */
  class AIBox {
    var aiQuery: string
    var isExpanded: bool

    constructor ()
      ensures aiQuery == "" && !isExpanded
    {
      aiQuery, isExpanded := "", false;
    }

    /** The submit button is disabled exactly when the trimmed question is empty. */
    function SubmitDisabled(): (disabled: bool)
      reads this
      ensures disabled <==> IsBlank(aiQuery)
    {
      Trim(aiQuery) == ""
    }

    /** The text area's `onChange`: the question becomes the typed text. */
    method Type(text: string)
      modifies this
      ensures aiQuery == text && isExpanded == old(isExpanded)
    {
      aiQuery := text;
    }

    /**
     * `handleSubmit`: a blank question changes nothing and is not sent; any
     * other question is sent as typed, untrimmed, after which the box is
     * emptied and the panel collapses.  Nothing is sent exactly when the
     * submit button is disabled.
     */
    method Submit() returns (sent: Option<string>)
      modifies this
      ensures sent.None? <==> old(SubmitDisabled())
      ensures IsBlank(old(aiQuery)) ==>
        sent == None && aiQuery == old(aiQuery) && isExpanded == old(isExpanded)
      ensures !IsBlank(old(aiQuery)) ==>
        sent == Some(old(aiQuery)) && aiQuery == "" && !isExpanded
    {
      if Trim(aiQuery) != "" {
        sent := Some(aiQuery);
        aiQuery := "";
        isExpanded := false;
      } else {
        sent := None;
      }
    }

    /**
     * `handleSuggestedQueryClick` on the button of the ready-made question
     * at `index`: that question is sent as it is, and it is never blank; the
     * panel collapses and the text box keeps what was typed.
     */
    method ClickSuggested(index: nat) returns (sent: string)
      requires index < |SuggestedQueries|
      modifies this
      ensures sent == SuggestedQueries[index] && !IsBlank(sent)
      ensures !isExpanded && aiQuery == old(aiQuery)
    {
      SuggestedQueriesNotBlank();
      sent := SuggestedQueries[index];
      isExpanded := false;
    }

    /** `handleExpandToggle`: opens a collapsed panel and collapses an open one. */
    method Toggle()
      modifies this
      ensures isExpanded == !old(isExpanded) && aiQuery == old(aiQuery)
    {
      isExpanded := !isExpanded;
    }
  }

  /** Every ready-made question has a character other than whitespace. */
  lemma SuggestedQueriesNotBlank()
    ensures forall k :: 0 <= k < |SuggestedQueries| ==> !IsBlank(SuggestedQueries[k])
  {
    forall k | 0 <= k < |SuggestedQueries| ensures !IsBlank(SuggestedQueries[k]) {
      assert !IsWhitespace(SuggestedQueries[k][0]);
    }
  }
}
