/**
 * The "My Documents" page: the count line over the search result, the empty
 * states, and the per-card options menu of which at most one is open.
 */
module AppHome {
  import opened Wrappers
  import opened Values
  import Text
  import DocList

  /** `{filtered.length} doc{filtered.length !== 1 ? 's' : ''}`. */
  function CountLabel(n: nat): (r: string)
    ensures |r| == |Text.Decimal(n)| + (if n == 1 then 4 else 5)
    ensures r[..|Text.Decimal(n)|] == Text.Decimal(n)
    ensures n == 1 ==> r[|Text.Decimal(n)|..] == " doc"
    ensures n != 1 ==> r[|Text.Decimal(n)|..] == " docs"
  {
    var digits := Text.Decimal(n);
    var r := digits + " doc" + (if n != 1 then "s" else "");
    assert r[..|digits|] == digits;
    assert r[|digits|..] == " doc" + (if n != 1 then "s" else "");
    r
  }

  /** The label ends in "docs" for every count but 1, including 0. */
  lemma CountLabelPlural(n: nat)
    ensures CountLabel(n)[|CountLabel(n)| - 4..] == "docs" <==> n != 1
  {
    var r := CountLabel(n);
    var d := |Text.Decimal(n)|;
    if n == 1 {
      assert r[d..] == " doc";
      assert r[|r| - 4..] == " doc";
    } else {
      assert r[d..] == " docs";
      assert r[|r| - 4..] == r[d..][1..];
    }
  }

  /** Different counts give different labels. */
  lemma CountLabelInjective(m: nat, n: nat)
    requires CountLabel(m) == CountLabel(n)
    ensures m == n
  {
    if |Text.Decimal(m)| == |Text.Decimal(n)| {
      var r := CountLabel(m);
      assert Text.Decimal(m) == r[..|Text.Decimal(m)|] == Text.Decimal(n);
      Text.DecimalInjective(m, n);
    }
  }

  /** The count line, shown only while there is at least one document. */
  function CountLine(docs: seq<Record>, query: string): (r: Option<string>)
    requires !Text.AllSpace(query) ==> DocList.TitlesAreText(docs)
    ensures r.Some? <==> |docs| > 0
    ensures r.Some? ==> r.value == CountLabel(|DocList.Filtered(docs, query)|)
  {
    if |docs| > 0 then Some(CountLabel(|DocList.Filtered(docs, query)|)) else None
  }

  /** The two empty states of the grid. */
  datatype EmptyState = NoDocumentsYet | NoMatch(query: string)

  /** The text of an empty state; the query is shown as typed, between curly quotes. */
  function EmptyStateText(e: EmptyState): (r: string)
    ensures e.NoDocumentsYet? ==> r == "No documents yet. Hit + to create one."
    ensures e.NoMatch? ==> |r| == |"No docs match \U{201C}"| + |e.query| + 1
    ensures e.NoMatch? ==> r[..|"No docs match \U{201C}"|] == "No docs match \U{201C}"
    ensures e.NoMatch? ==> r[|"No docs match \U{201C}"|..|r| - 1] == e.query
  {
    match e
    case NoDocumentsYet => "No documents yet. Hit + to create one."
    case NoMatch(q) =>
      var r := "No docs match \U{201C}" + q + "\U{201D}";
      assert r[|"No docs match \U{201C}"|..|r| - 1] == q;
      r
  }

  /** Which empty state the grid shows, if any: none while some record is listed. */
  function EmptyStateOf(docs: seq<Record>, query: string): (r: Option<EmptyState>)
    requires !Text.AllSpace(query) ==> DocList.TitlesAreText(docs)
    ensures r == Some(NoDocumentsYet) <==> |docs| == 0
    ensures r.Some? && r.value.NoMatch? <==> |docs| > 0 && |DocList.Filtered(docs, query)| == 0
    ensures r.Some? && r.value.NoMatch? ==> r.value.query == query
  {
    if |docs| == 0 then Some(NoDocumentsYet)
    else if |DocList.Filtered(docs, query)| == 0 then Some(NoMatch(query))
    else None
  }

  /** "No docs match" can only follow a query that is not blank: a blank one lists every record. */
  lemma NoMatchNeedsQuery(docs: seq<Record>, query: string)
    requires !Text.AllSpace(query) ==> DocList.TitlesAreText(docs)
    requires EmptyStateOf(docs, query) == Some(NoMatch(query))
    ensures !Text.AllSpace(query)
  {
  }

  /** `menuOpenId === id`: the options menu of the card for `id` is open. */
  predicate MenuOpenFor(openId: Value, id: Value) {
    openId == id
  }

  /** `menuOpenId === d.id ? null : d.id`, the next menu state after clicking a card's button. */
  function NextMenu(openId: Value, id: Value): (r: Value)
    ensures MenuOpenFor(openId, id) ==> r == Null
    ensures !MenuOpenFor(openId, id) ==> r == id
  {
    if MenuOpenFor(openId, id) then Null else id
  }

  /** For a card with a non-null id, one click opens its menu when closed and closes it when open. */
  lemma ToggleFlips(openId: Value, id: Value)
    requires id != Null
    ensures MenuOpenFor(NextMenu(openId, id), id) <==> !MenuOpenFor(openId, id)
  {
  }

  /** Two clicks on the same card's button, starting with its menu closed, leave every menu closed. */
  lemma ToggleTwiceCloses(openId: Value, id: Value)
    requires !MenuOpenFor(openId, id)
    ensures NextMenu(NextMenu(openId, id), id) == Null
  {
  }

  /** Opening another card's menu closes the one that was open. */
  lemma OneMenuAtATime(openId: Value, id: Value, other: Value)
    requires other != id
    ensures !MenuOpenFor(openId, id) ==> !MenuOpenFor(NextMenu(openId, id), other)
  {
  }

  /** The `menuOpenId` state. */
  class CardMenu {
    var openId: Value

    /** `useState(null)`: no menu is open. */
    constructor ()
      ensures openId == Null
    {
      openId := Null;
    }

    /** The button on the card for `id`; the click does not reach the page. */
    method Toggle(id: Value)
      modifies this
      ensures openId == NextMenu(old(openId), id)
      ensures id != Null ==> (IsOpenFor(id) <==> !old(IsOpenFor(id)))
    {
      openId := NextMenu(openId, id);
    }

    /** A click anywhere else on the page, or "Move to Trash". */
    method Close()
      modifies this
      ensures openId == Null
    {
      openId := Null;
    }

    /** The menu of the card for `id` is showing. */
    predicate IsOpenFor(id: Value)
      reads this
    {
      MenuOpenFor(openId, id)
    }
  }
}
