/**
 * The catalog record (`SearchResult`) and the choice of what the results
 * area shows for a given list of results, loading flag and query.
 */
module SearchResults {
  import opened Wrappers

  /** The closed set of record kinds. */
  datatype Kind = Surah | Reader | Recitation

  /** One catalog record; `description` is optional. */
  datatype Record = Record(
    id: string,
    title: string,
    subtitle: string,
    description: Option<string>,
    kind: Kind)

  /** The badge shown on a result card for each kind of record. */
  function TypeLabel(kind: Kind): (badge: string)
    ensures kind.Surah? <==> badge == "سورة"
    ensures kind.Reader? <==> badge == "قارئ"
    ensures kind.Recitation? <==> badge == "تلاوة"
  {
    if kind.Surah? then "سورة"
    else if kind.Reader? then "قارئ"
    else "تلاوة"
  }

  /**
   * One result card: its React `key` (not displayed) and what it shows;
   * `description` is absent when its paragraph is not rendered.
   */
  datatype Card = Card(key: string, badge: string, title: string, subtitle: string, description: Option<string>)

  /** The card rendered for one record. */
  function CardOf(r: Record): (c: Card)
    ensures c.key == r.id && c.title == r.title && c.subtitle == r.subtitle
    ensures c.badge == TypeLabel(r.kind)
    ensures c.description.Some? <==> r.description.Some? && r.description.value != ""
    ensures c.description.Some? ==> c.description == r.description
  {
    var shown := if r.description.Some? && r.description.value != "" then r.description else None;
    Card(r.id, TypeLabel(r.kind), r.title, r.subtitle, shown)
  }

  /** One card per record, in the order of the records. */
  function Cards(results: seq<Record>): (cards: seq<Card>)
    ensures |cards| == |results|
    ensures forall i :: 0 <= i < |results| ==> cards[i] == CardOf(results[i])
  {
    if results == [] then [] else [CardOf(results[0])] + Cards(results[1..])
  }

  /**
   * The four things the results area can show: the loading spinner, the
   * "no results for <query>" message, nothing at all, or a list headed by
   * the number of results.
   */
  datatype View =
    | Spinner
    | NoResults(query: string)
    | Nothing
    | ResultList(count: nat, cards: seq<Card>)

  /**
   * The render decision.  Loading wins over everything; otherwise an empty
   * list gives the message when a query was entered and nothing when not;
   * a non-empty list is shown in full, in order.
   */
  function Render(results: seq<Record>, isLoading: bool, query: string): (v: View)
    ensures isLoading ==> v == Spinner
    ensures !isLoading && query != "" && results == [] ==> v == NoResults(query)
    ensures !isLoading && query == "" && results == [] ==> v == Nothing
    ensures !isLoading && results != [] ==>
      v.ResultList? && v.count == |results| && v.cards == Cards(results)
    ensures v.ResultList? ==> |v.cards| == v.count == |results| > 0
  {
    if isLoading then Spinner
    else if query != "" && |results| == 0 then NoResults(query)
    else if |results| == 0 then Nothing
    else ResultList(|results|, Cards(results))
  }
}
