/**
 * The older list page: the search over all records, the industry line of a card
 * and the message shown when nothing is listed.
 */
module HomePage {
  import opened Wrappers
  import opened Values
  import Text
  import DocList

  /** A blank query (empty after trimming) lists every record. */
  lemma BlankQueryListsAll(docs: seq<Record>, query: string)
    requires Text.AllSpace(query)
    ensures DocList.Filtered(docs, query) == docs
  {
  }

  /**
   * `d.industry?.replaceAll("-", " ")`: nothing for a missing industry, the slug with
   * every `-` turned into a space for a string; any other value has no `replaceAll`
   * and throws, which is None.
   */
  function IndustryText(industry: Value): (r: Option<string>)
    ensures industry.Undefined? || industry.Null? ==> r == Some("")
    ensures industry.Str? ==> r.Some? && |r.value| == |industry.s|
    ensures industry.Str? ==> forall i :: 0 <= i < |industry.s| ==>
      r.value[i] == if industry.s[i] == '-' then ' ' else industry.s[i]
    ensures r.None? <==> !(industry.Undefined? || industry.Null? || industry.Str?)
  {
    match industry
    case Undefined => Some("")
    case Null => Some("")
    case Str(s) => Some(Text.ReplaceChar(s, '-', ' '))
    case _ => None
  }

  /** The industry line of a card never shows a `-`. */
  lemma IndustryTextHasNoDash(industry: Value)
    requires IndustryText(industry).Some?
    ensures forall i :: 0 <= i < |IndustryText(industry).value| ==> IndustryText(industry).value[i] != '-'
  {
  }

  /** A slug without dashes is shown as it is. */
  lemma IndustryTextKeepsPlainSlug(slug: string)
    requires forall i :: 0 <= i < |slug| ==> slug[i] != '-'
    ensures IndustryText(Str(slug)) == Some(slug)
  {
    var r := IndustryText(Str(slug)).value;
    assert forall i :: 0 <= i < |slug| ==> r[i] == slug[i];
    assert r == slug;
  }

  /** "No docs found", followed by the query between curly quotes when it is not empty, and a full stop. */
  function EmptyMessage(query: string): (r: string)
    ensures query == "" ==> r == "No docs found."
    ensures query != "" ==> |r| == |"No docs found for \U{201C}"| + |query| + 2
    ensures query != "" ==> r[..|"No docs found for \U{201C}"|] == "No docs found for \U{201C}"
    ensures query != "" ==> r[|"No docs found for \U{201C}"|..|r| - 2] == query
    ensures query != "" ==> r[|r| - 2..] == "\U{201D}."
  {
    var r := "No docs found" + (if query != "" then " for \U{201C}" + query + "\U{201D}" else "") + ".";
    assert query != "" ==> r == "No docs found for \U{201C}" + query + "\U{201D}.";
    r
  }

  /** With a query the message quotes exactly it; without one it is the bare sentence. */
  lemma EmptyMessageQuotesQuery(query: string)
    ensures query != "" <==> EmptyMessage(query) != "No docs found."
    ensures query != "" ==> Text.OccursAt(EmptyMessage(query), query, |"No docs found for \U{201C}"|)
  {
    if query != "" {
      assert |EmptyMessage(query)| > |"No docs found."|;
    }
  }

  /** The message appears exactly when the search lists nothing. */
  function Message(docs: seq<Record>, query: string): (r: Option<string>)
    requires !Text.AllSpace(query) ==> DocList.TitlesAreText(docs)
    ensures r.Some? <==> DocList.Filtered(docs, query) == []
    ensures r.Some? ==> r.value == EmptyMessage(query)
  {
    if |DocList.Filtered(docs, query)| == 0 then Some(EmptyMessage(query)) else None
  }

  /**
   * A whitespace-only query lists every record, yet when there are none the message
   * quotes it as typed: the quote tests the raw query, the search the trimmed one.
   */
  lemma BlankQueryIsQuoted(query: string)
    requires query != "" && Text.AllSpace(query)
    ensures Message([], query) == Some(EmptyMessage(query))
    ensures EmptyMessage(query) != "No docs found."
  {
    EmptyMessageQuotesQuery(query);
  }
}
