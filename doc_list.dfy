/**
 * What the two document-list pages have in common: the case-insensitive title
 * search and the title a card shows.
 */
module DocList {
  import opened Values
  import Text
  import Seqs

  /** `query.trim().toLowerCase()`. */
  function Query(query: string): (q: string)
    ensures |q| == |Text.Trim(query)|
    ensures q == [] <==> Text.AllSpace(query)
  {
    Text.Lower(Text.Trim(query))
  }

  /** `toLowerCase` can be called on `d.title || ""`: the title is text, or falsy and read as "". */
  predicate TitleIsText(d: Record) {
    Get(d, "title").Str? || !Truthy(Get(d, "title"))
  }

  /** Every record's title can be searched. */
  predicate TitlesAreText(docs: seq<Record>) {
    forall i :: 0 <= i < |docs| ==> TitleIsText(docs[i])
  }

  /** `d.title || ""`, for a title that is text or falsy. */
  function TitleText(d: Record): string {
    if Get(d, "title").Str? then Get(d, "title").s else ""
  }

  /** `(d.title || "").toLowerCase().includes(q)`. */
  predicate Matches(d: Record, q: string) {
    Text.Contains(Text.Lower(TitleText(d)), q)
  }

  /**
   * The `filtered` memo of both list pages: every record for a blank query, else the
   * records whose lower-cased title contains the lower-cased trimmed query, in order.
   * A non-blank query calls `toLowerCase` on every title, so titles must be text.
   */
  function Filtered(docs: seq<Record>, query: string): (r: seq<Record>)
    requires !Text.AllSpace(query) ==> TitlesAreText(docs)
    ensures Text.AllSpace(query) ==> r == docs
    ensures Seqs.IsSubsequence(r, docs)
    ensures forall i :: 0 <= i < |r| ==> r[i] in docs && Matches(r[i], Query(query))
    ensures forall i :: 0 <= i < |docs| && Matches(docs[i], Query(query)) ==> docs[i] in r
    ensures forall d :: multiset(r)[d] == if Text.AllSpace(query) || Matches(d, Query(query)) then multiset(docs)[d] else 0
  {
    var q := Query(query);
    if q == [] then
      assert Seqs.IsSubsequence(docs, docs) by { SubsequenceRefl(docs); }
      docs
    else Seqs.Filter(docs, d => Matches(d, q))
  }

  /** Every sequence is a subsequence of itself. */
  lemma {:induction false} SubsequenceRefl<T>(s: seq<T>)
    ensures Seqs.IsSubsequence(s, s)
  {
    if s != [] {
      SubsequenceRefl(s[1..]);
    }
  }

  /** Searching the search result again with the same query changes nothing. */
  lemma FilteredIdempotent(docs: seq<Record>, query: string)
    requires !Text.AllSpace(query) ==> TitlesAreText(docs)
    ensures !Text.AllSpace(query) ==> TitlesAreText(Filtered(docs, query))
    ensures Filtered(Filtered(docs, query), query) == Filtered(docs, query)
  {
    var q := Query(query);
    if q != [] {
      Seqs.FilterIdempotent(docs, d => Matches(d, q));
    }
  }

  /** A record stays in the list exactly when its title matches, for any query. */
  lemma KeptIffMatches(docs: seq<Record>, query: string, d: Record)
    requires !Text.AllSpace(query) ==> TitlesAreText(docs)
    requires d in docs
    ensures d in Filtered(docs, query) <==> Matches(d, Query(query))
  {
  }

  /** A record without a title matches only the blank query. */
  lemma UntitledMatchesOnlyBlank(d: Record, query: string)
    requires !Truthy(Get(d, "title"))
    ensures Matches(d, Query(query)) <==> Text.AllSpace(query)
  {
    assert TitleText(d) == "";
    assert Text.Lower("") == "";
    if Text.AllSpace(query) {
      assert Text.OccursAt("", Query(query), 0);
    }
  }

  /** `d.title || "Untitled"`: the title a card shows. */
  function DisplayTitle(d: Record): (r: Value)
    ensures !Truthy(Get(d, "title")) ==> r == Str("Untitled")
    ensures Truthy(Get(d, "title")) ==> r == Get(d, "title")
    ensures Truthy(r)
  {
    Or(Get(d, "title"), Str("Untitled"))
  }
}
