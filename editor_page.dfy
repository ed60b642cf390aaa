/**
 * The logic of the document editor page: the item and estimate totals, the
 * per-line amount, the line-item and nested-object merges, and the editor's
 * `patchDoc` wiring into the document store.
 */
module EditorPage {
  import opened Wrappers
  import opened Values
  import Text
  import DocsStore

  /** `null` or `undefined`: reading a property of either throws a TypeError. */
  predicate Nullish(v: Value) {
    v.Undefined? || v.Null?
  }

  /**
   * `(Number(li.qty) || 0) * (Number(li.rate) || 0)`: the amount a line shows and adds
   * to the total. None is the TypeError `li.qty` raises on a null or undefined line.
   */
  function LineAmount(li: Value, parse: string -> Option<real>): (r: Option<real>)
    ensures r.None? <==> Nullish(li)
  {
    if Nullish(li) then None
    else Some(NumberOrZero(Prop(li, "qty"), parse) * NumberOrZero(Prop(li, "rate"), parse))
  }

  /** A line whose quantity or rate does not read as a number contributes 0. */
  lemma UnreadableLineAddsNothing(li: Value, parse: string -> Option<real>)
    requires !Nullish(li)
    requires ToNumber(Prop(li, "qty"), parse).None? || ToNumber(Prop(li, "rate"), parse).None?
    ensures LineAmount(li, parse) == Some(0.0)
  {
  }

  /** A readable line shows, and adds, its quantity times its rate. */
  lemma LineAmountOfNumbers(li: Value, parse: string -> Option<real>, qty: real, rate: real)
    requires !Nullish(li)
    requires ToNumber(Prop(li, "qty"), parse) == Some(qty) && ToNumber(Prop(li, "rate"), parse) == Some(rate)
    ensures LineAmount(li, parse) == Some(qty * rate)
  {
    assert LineAmount(li, parse).Some?;
    assert LineAmount(li, parse).value == NumberOrZero(Prop(li, "qty"), parse) * NumberOrZero(Prop(li, "rate"), parse);
    ProductOfEquals(NumberOrZero(Prop(li, "qty"), parse), NumberOrZero(Prop(li, "rate"), parse), qty, rate);
    assert LineAmount(li, parse).value == qty * rate;
  }

  /** Equal factors give equal products. */
  lemma ProductOfEquals(a: real, b: real, c: real, d: real)
    requires a == c && b == d
    ensures a * b == c * d
  {
  }

  /** No line of `items` is null or undefined. */
  predicate NoNullish(items: seq<Value>) {
    forall i :: 0 <= i < |items| ==> !Nullish(items[i])
  }

  /** The sum of the line amounts, the reference the `reduce` is proved against. */
  function SumAmounts(items: seq<Value>, parse: string -> Option<real>): real
    requires NoNullish(items)
    decreases |items|
  {
    if items == [] then 0.0
    else SumAmounts(items[..|items| - 1], parse) + LineAmount(items[|items| - 1], parse).value
  }

  /** The sum taken from the front: the first amount plus the sum of the rest. */
  lemma {:induction false} SumAmountsFront(items: seq<Value>, parse: string -> Option<real>)
    requires items != [] && NoNullish(items)
    ensures SumAmounts(items, parse) == LineAmount(items[0], parse).value + SumAmounts(items[1..], parse)
    decreases |items|
  {
    if |items| > 1 {
      var front := items[..|items| - 1];
      SumAmountsFront(front, parse);
      assert front[1..] == items[1..][..|items[1..]| - 1];
      assert items[1..][|items[1..]| - 1] == items[|items| - 1];
    } else {
      assert items[..|items| - 1] == [] && items[1..] == [];
    }
  }

  /** A sequence has no nullish line exactly when its first line is not nullish and its rest has none. */
  lemma NoNullishCons(items: seq<Value>)
    requires items != []
    ensures NoNullish(items) <==> !Nullish(items[0]) && NoNullish(items[1..])
  {
    if !Nullish(items[0]) && NoNullish(items[1..]) {
      forall i | 0 <= i < |items| ensures !Nullish(items[i]) {
        if i > 0 { assert items[i] == items[1..][i - 1]; }
      }
    }
  }

  /**
   * `items.reduce((sum, item) => sum + amount(item), acc)`, left to right. It fails (the
   * TypeError a nullish line raises) exactly when some line is nullish, and otherwise
   * adds every line's amount to `acc`.
   */
  function Reduce(acc: real, items: seq<Value>, parse: string -> Option<real>): (r: Option<real>)
    ensures r.Some? <==> NoNullish(items)
    ensures r.Some? ==> r.value == acc + SumAmounts(items, parse)
    decreases |items|
  {
    if items == [] then Some(acc)
    else
      NoNullishCons(items);
      match LineAmount(items[0], parse)
      case None => None
      case Some(a) =>
        var r := Reduce(acc + a, items[1..], parse);
        if r.Some? then SumAmountsFront(items, parse); r else r
  }

  /**
   * The lines `doc.lineItems` gives `reduce` and `map`: a falsy value reads as no
   * lines, an array as its elements; any other value has neither method and throws.
   */
  function LineItemsOf(doc: Record): (r: Option<seq<Value>>)
    ensures !Truthy(Get(doc, "lineItems")) ==> r == Some([])
    ensures Get(doc, "lineItems").Arr? ==> r == Some(Get(doc, "lineItems").items)
    ensures r.Some? <==> !Truthy(Get(doc, "lineItems")) || Get(doc, "lineItems").Arr?
  {
    var v := Get(doc, "lineItems");
    if !Truthy(v) then Some([]) else if v.Arr? then Some(v.items) else None
  }

  /**
   * `totalFromItems`: 0 without a document or without lines; otherwise it is defined
   * exactly when `lineItems` can be read and no line is nullish, and is then the sum
   * of the line amounts.
   */
  function TotalFromItems(doc: Option<Record>, parse: string -> Option<real>): (r: Option<real>)
    ensures doc.None? ==> r == Some(0.0)
    ensures doc.Some? && !Truthy(Get(doc.value, "lineItems")) ==> r == Some(0.0)
    ensures doc.Some? ==>
      (r.Some? <==> LineItemsOf(doc.value).Some? && NoNullish(LineItemsOf(doc.value).value))
    ensures doc.Some? && r.Some? ==> r.value == SumAmounts(LineItemsOf(doc.value).value, parse)
  {
    if doc.None? then Some(0.0)
    else match LineItemsOf(doc.value)
      case None => None
      case Some(items) => Reduce(0.0, items, parse)
  }

  /** `doc?.pricing?.totalCost`. */
  function TotalCostOf(doc: Option<Record>): Value {
    if doc.None? then Undefined else Prop(Get(doc.value, "pricing"), "totalCost")
  }

  /**
   * `estimateTotal`, as written: a `pricing.totalCost` that `Number()` reads as a
   * finite number wins, otherwise the item total. The item total is computed first,
   * so a document whose lines throw throws here too.
   */
  function EstimateTotal(doc: Option<Record>, parse: string -> Option<real>): (r: Option<real>)
    ensures r.Some? <==> TotalFromItems(doc, parse).Some?
    ensures r.Some? && ToNumber(TotalCostOf(doc), parse).Some? ==> r == ToNumber(TotalCostOf(doc), parse)
    ensures ToNumber(TotalCostOf(doc), parse).None? ==> r == TotalFromItems(doc, parse)
  {
    var items := TotalFromItems(doc, parse);
    if items.None? then None
    else match ToNumber(TotalCostOf(doc), parse)
      case Some(n) => Some(n)
      case None => items
  }

  /** Without a `pricing.totalCost` the estimate total is the item total. */
  lemma EstimateWithoutTotalCost(doc: Record, parse: string -> Option<real>)
    requires !Get(doc, "pricing").Obj? || "totalCost" !in Get(doc, "pricing").fields
    ensures EstimateTotal(Some(doc), parse) == TotalFromItems(Some(doc), parse)
  {
  }

  /** Two lines, 2 at 50 and 1 at 30, total 130; a total cost of "200" makes the estimate 200. */
  lemma TotalCostOverridesExample(parse: string -> Option<real>)
    requires parse("200") == Some(200.0)
    ensures var items := Arr([Obj(map["qty" := Num(2.0), "rate" := Num(50.0)]),
                              Obj(map["qty" := Num(1.0), "rate" := Num(30.0)])]);
      var doc := map["lineItems" := items, "pricing" := Obj(map["totalCost" := Str("200")])];
      && TotalFromItems(Some(doc), parse) == Some(130.0)
      && EstimateTotal(Some(doc), parse) == Some(200.0)
  {
    var items := Arr([Obj(map["qty" := Num(2.0), "rate" := Num(50.0)]),
                      Obj(map["qty" := Num(1.0), "rate" := Num(30.0)])]);
    var doc := map["lineItems" := items, "pricing" := Obj(map["totalCost" := Str("200")])];
    assert items.items[1..][1..] == [];
    assert TotalCostOf(Some(doc)) == Str("200");
  }

  /**
   * As written, a cleared total-cost field overrides the lines: `Number("")` is 0, so
   * the estimate shows 0 for a document whose lines add up to 100.
   */
  lemma BlankTotalCostHidesItems(parse: string -> Option<real>)
    requires parse("") == Some(0.0)
    ensures var doc := map[
        "lineItems" := Arr([Obj(map["qty" := Num(2.0), "rate" := Num(50.0)])]),
        "pricing" := Obj(map["totalCost" := Str("")])];
      && TotalFromItems(Some(doc), parse) == Some(100.0)
      && EstimateTotal(Some(doc), parse) == Some(0.0)
  {
    var doc := map[
        "lineItems" := Arr([Obj(map["qty" := Num(2.0), "rate" := Num(50.0)])]),
        "pricing" := Obj(map["totalCost" := Str("")])];
    assert TotalCostOf(Some(doc)) == Str("");
  }

  /**
   * The estimate total as the field's placeholder evidently means it: a total cost
   * that is blank or only whitespace falls back to the item total, as a missing one does.
   */
  function EstimateTotalIntended(doc: Option<Record>, parse: string -> Option<real>): (r: Option<real>)
    ensures TotalCostOf(doc).Str? && Text.AllSpace(TotalCostOf(doc).s) ==> r == TotalFromItems(doc, parse)
    ensures !(TotalCostOf(doc).Str? && Text.AllSpace(TotalCostOf(doc).s)) ==> r == EstimateTotal(doc, parse)
    ensures r.Some? <==> TotalFromItems(doc, parse).Some?
  {
    var v := TotalCostOf(doc);
    if v.Str? && Text.AllSpace(v.s) then TotalFromItems(doc, parse) else EstimateTotal(doc, parse)
  }

  /** The corrected total no longer lets a cleared field hide the lines. */
  lemma BlankTotalCostFallsBack(parse: string -> Option<real>)
    ensures var doc := map[
        "lineItems" := Arr([Obj(map["qty" := Num(2.0), "rate" := Num(50.0)])]),
        "pricing" := Obj(map["totalCost" := Str("")])];
      EstimateTotalIntended(Some(doc), parse) == Some(100.0)
  {
    var doc := map[
        "lineItems" := Arr([Obj(map["qty" := Num(2.0), "rate" := Num(50.0)])]),
        "pricing" := Obj(map["totalCost" := Str("")])];
    assert TotalCostOf(Some(doc)) == Str("");
    assert Text.AllSpace("");
  }

  /** `li.id === itemId ? {...li, ...patch} : li`. */
  function MergeItem(li: Value, itemId: Value, patch: Record): (r: Value)
    ensures Prop(li, "id") != itemId ==> r == li
    ensures Prop(li, "id") == itemId ==>
      && r.Obj?
      && r.fields.Keys == Spread(li).Keys + patch.Keys
      && (forall k :: k in patch ==> r.fields[k] == patch[k])
      && (forall k :: k in Spread(li) && k !in patch ==> r.fields[k] == Spread(li)[k])
  {
    if Prop(li, "id") == itemId then Obj(Spread(li) + patch) else li
  }

  /**
   * The `map` in `setLineItem`: the same number of lines in the same order, the patch
   * merged into each line whose id is `itemId`, every other line the same value.
   * None is the TypeError `li.id` raises on a nullish line.
   */
  function SetLineItems(items: seq<Value>, itemId: Value, patch: Record): (r: Option<seq<Value>>)
    ensures r.Some? <==> NoNullish(items)
    ensures r.Some? ==> |r.value| == |items|
    ensures r.Some? ==> forall i :: 0 <= i < |items| ==> r.value[i] == MergeItem(items[i], itemId, patch)
    ensures r.Some? ==> forall i :: 0 <= i < |items| && Prop(items[i], "id") != itemId ==> r.value[i] == items[i]
    ensures r.Some? ==> forall i :: 0 <= i < |items| && Prop(items[i], "id") == itemId ==>
      && r.value[i].Obj?
      && r.value[i].fields.Keys == Spread(items[i]).Keys + patch.Keys
      && (forall k :: k in patch ==> r.value[i].fields[k] == patch[k])
      && (forall k :: k in Spread(items[i]) && k !in patch ==> r.value[i].fields[k] == Spread(items[i])[k])
  {
    MergeEach(items, itemId, patch)
  }

  /** `items.map((li) => MergeItem(li, itemId, patch))`, failing on the first nullish line. */
  function MergeEach(items: seq<Value>, itemId: Value, patch: Record): (r: Option<seq<Value>>)
    ensures r.Some? <==> NoNullish(items)
    ensures r.Some? ==> |r.value| == |items|
    ensures r.Some? ==> forall i :: 0 <= i < |items| ==> r.value[i] == MergeItem(items[i], itemId, patch)
    decreases |items|
  {
    if items == [] then Some([])
    else
      NoNullishCons(items);
      if Nullish(items[0]) then None
      else match MergeEach(items[1..], itemId, patch)
        case None => None
        case Some(rest) => Some([MergeItem(items[0], itemId, patch)] + rest)
  }

  /** Merging the same patch into a line twice is merging it once. */
  lemma MergeItemIdempotent(li: Value, itemId: Value, patch: Record)
    ensures MergeItem(MergeItem(li, itemId, patch), itemId, patch) == MergeItem(li, itemId, patch)
  {
    if Prop(li, "id") == itemId {
      var m := Spread(li) + patch;
      assert m + patch == m;
    }
  }

  /** Setting the same fields on the same line twice is setting them once. */
  lemma SetLineItemsIdempotent(items: seq<Value>, itemId: Value, patch: Record)
    requires NoNullish(items)
    ensures var once := SetLineItems(items, itemId, patch).value;
      SetLineItems(once, itemId, patch) == Some(once)
  {
    var once := SetLineItems(items, itemId, patch).value;
    assert NoNullish(once) by {
      forall i | 0 <= i < |once| ensures !Nullish(once[i]) {
        assert once[i] == MergeItem(items[i], itemId, patch);
      }
    }
    var twice := SetLineItems(once, itemId, patch).value;
    forall i | 0 <= i < |once| ensures twice[i] == once[i] {
      MergeItemIdempotent(items[i], itemId, patch);
    }
    assert twice == once;
  }

  /** Only matching lines change, so the total moves only by the matching lines' amounts. */
  lemma SetLineItemsKeepsOtherAmounts(items: seq<Value>, itemId: Value, patch: Record, parse: string -> Option<real>, i: nat)
    requires NoNullish(items) && i < |items| && Prop(items[i], "id") != itemId
    ensures LineAmount(SetLineItems(items, itemId, patch).value[i], parse) == LineAmount(items[i], parse)
  {
  }

  /** The patch `setLineItem(itemId, patch)` hands to `patchDoc`: `{lineItems: next}`. */
  function LineItemsPatch(doc: Record, itemId: Value, patch: Record): (r: Option<Record>)
    ensures r.Some? <==> LineItemsOf(doc).Some? && NoNullish(LineItemsOf(doc).value)
    ensures r.Some? ==> r.value.Keys == {"lineItems"} && r.value["lineItems"].Arr?
    ensures r.Some? ==> |r.value["lineItems"].items| == |LineItemsOf(doc).value|
    ensures r.Some? ==> r.value["lineItems"] == Arr(SetLineItems(LineItemsOf(doc).value, itemId, patch).value)
  {
    match LineItemsOf(doc)
    case None => None
    case Some(items) =>
      match SetLineItems(items, itemId, patch)
      case None => None
      case Some(next) => Some(map["lineItems" := Arr(next)])
  }

  /**
   * After `setLineItem` the record's lines are the old ones with the patch merged into
   * each line whose id matches, every other line identical, in the same order; no
   * top-level field but `lineItems` and the edit stamp changes.
   */
  lemma SetLineItemEffect(doc: Record, itemId: Value, patch: Record, now: string)
    requires LineItemsPatch(doc, itemId, patch).Some?
    ensures var items := LineItemsOf(doc).value;
      var r := DocsStore.Updated(doc, LineItemsPatch(doc, itemId, patch).value, now);
      && Get(r, "lineItems").Arr?
      && |Get(r, "lineItems").items| == |items|
      && (forall i :: 0 <= i < |items| && Prop(items[i], "id") != itemId ==> Get(r, "lineItems").items[i] == items[i])
      && (forall i :: 0 <= i < |items| && Prop(items[i], "id") == itemId ==>
            Get(r, "lineItems").items[i] == Obj(Spread(items[i]) + patch))
      && (forall k :: k != "lineItems" && k != "lastEditedAt" ==> Get(r, k) == Get(doc, k))
  {
    var items := LineItemsOf(doc).value;
    var next := SetLineItems(items, itemId, patch).value;
    var r := DocsStore.Updated(doc, LineItemsPatch(doc, itemId, patch).value, now);
    assert Get(r, "lineItems") == Arr(next);
    forall i | 0 <= i < |items| && Prop(items[i], "id") == itemId
      ensures next[i] == Obj(Spread(items[i]) + patch)
    {
      var m := Spread(items[i]) + patch;
      assert next[i].fields == m;
    }
  }

  /** The five sub-objects with a shallow-merge setter. */
  datatype Section = Meta | Company | Client | Job | Pricing {
    function Key(): string {
      match this
      case Meta => "meta"
      case Company => "company"
      case Client => "client"
      case Job => "job"
      case Pricing => "pricing"
    }
  }

  /** `{ [key]: { ...(doc[key] || {}), ...patch } }`, the patch every nested setter hands to `patchDoc`. */
  function SectionPatch(doc: Record, section: Section, patch: Record): (r: Record)
    ensures r.Keys == {section.Key()}
  {
    map[section.Key() := Obj(Spread(Or(Get(doc, section.Key()), Obj(map[]))) + patch)]
  }

  /**
   * After a nested setter the sub-object holds the patch over its old properties (a
   * missing or falsy one counts as empty), and no other field but the edit stamp changes.
   */
  lemma NestedSetterEffect(doc: Record, section: Section, patch: Record, now: string)
    ensures var r := DocsStore.Updated(doc, SectionPatch(doc, section, patch), now);
      var old_ := Spread(Get(doc, section.Key()));
      && Get(r, section.Key()).Obj?
      && Get(r, section.Key()).fields.Keys == old_.Keys + patch.Keys
      && (forall k :: k in patch ==> Get(r, section.Key()).fields[k] == patch[k])
      && (forall k :: k in old_ && k !in patch ==> Get(r, section.Key()).fields[k] == old_[k])
      && (forall k :: k != section.Key() && k != "lastEditedAt" ==> Get(r, k) == Get(doc, k))
  {
    SpreadOrEmpty(Get(doc, section.Key()));
    assert section.Key() != "lastEditedAt";
  }

  /** `doc.docType === "estimate"`. */
  predicate IsEstimate(doc: Record) {
    Get(doc, "docType") == Str("estimate")
  }

  /** `doc.docType === "invoice"`. */
  predicate IsInvoice(doc: Record) {
    Get(doc, "docType") == Str("invoice")
  }

  /** A record fresh from the store has no `docType`, so the editor shows neither layout for it. */
  lemma NewDocShowsNoLayout(id: string, industry: string, templateId: Value, language: Value, itemId: string, now: string)
    ensures var doc := DocsStore.NewDoc(id, industry, templateId, language, itemId, now);
      !IsEstimate(doc) && !IsInvoice(doc)
  {
    DocsStore.NewDocKeysExact(id, industry, templateId, language, itemId, now);
  }

  /** A fresh record totals its one line, 1 at 100, whichever way totals are read. */
  lemma NewDocTotals(id: string, industry: string, templateId: Value, language: Value, itemId: string, now: string,
                     parse: string -> Option<real>)
    ensures var doc := Some(DocsStore.NewDoc(id, industry, templateId, language, itemId, now));
      && TotalFromItems(doc, parse) == Some(100.0)
      && EstimateTotal(doc, parse) == Some(100.0)
      && EstimateTotalIntended(doc, parse) == Some(100.0)
  {
    var doc := DocsStore.NewDoc(id, industry, templateId, language, itemId, now);
    DocsStore.NewDocKeysExact(id, industry, templateId, language, itemId, now);
    DocsStore.NewDocClientAndItems(id, industry, templateId, language, itemId, now);
    var items := Get(doc, "lineItems").items;
    assert LineItemsOf(doc) == Some(items);
    assert Reduce(0.0, items, parse) == Some(100.0) by {
      assert items[1..] == [];
    }
    assert TotalCostOf(Some(doc)) == Undefined;
  }

  /**
   * The editor page for one document id: the React `doc` state next to the store it
   * edits. Every change goes through `patchDoc`, which writes the store first and
   * then sets the state to what the store returned.
   */
  class Editor {
    const store: DocsStore.Store
    const docId: string
    var doc: Option<Record>

    /** The page's state is the store's record for its id (or null when there is none). */
    ghost predicate Synced()
      reads this, store
    {
      doc == store.GetDoc(docId)
    }

    /** Mounting the page: the effect reads `getDoc(docId)` into the state. */
    constructor (store: DocsStore.Store, docId: string)
      ensures this.store == store && this.docId == docId
      ensures doc == store.GetDoc(docId)
      ensures Synced()
    {
      this.store := store;
      this.docId := docId;
      doc := store.GetDoc(docId);
    }

    /** `patchDoc(patch)`: `updateDoc(docId, patch)`, then the state becomes its result. */
    method PatchDoc(patch: Record, now: string)
      modifies this, store
      ensures docId !in old(store.docs) ==> doc == None && store.docs == old(store.docs)
      ensures docId in old(store.docs) ==>
        && doc == Some(DocsStore.Updated(old(store.docs)[docId], patch, now))
        && store.docs == old(store.docs)[docId := doc.value]
      ensures Synced()
    {
      doc := store.UpdateDoc(docId, patch, now);
    }

    /** `setMeta`, `setCompany`, `setClient`, `setJob`, `setPricing`: shallow-merge one sub-object. */
    method SetSection(section: Section, patch: Record, now: string)
      requires Synced() && doc.Some?
      modifies this, store
      ensures doc == Some(DocsStore.Updated(old(doc).value, SectionPatch(old(doc).value, section, patch), now))
      ensures store.docs == old(store.docs)[docId := doc.value]
      ensures Synced()
    {
      PatchDoc(SectionPatch(doc.value, section, patch), now);
    }

    /** `setLineItem(itemId, patch)`; the lines must be readable, or the source throws before patching. */
    method SetLineItem(itemId: Value, patch: Record, now: string)
      requires Synced() && doc.Some? && LineItemsPatch(doc.value, itemId, patch).Some?
      modifies this, store
      ensures doc == Some(DocsStore.Updated(old(doc).value, LineItemsPatch(old(doc).value, itemId, patch).value, now))
      ensures store.docs == old(store.docs)[docId := doc.value]
      ensures Synced()
    {
      PatchDoc(LineItemsPatch(doc.value, itemId, patch).value, now);
    }

    /** `isEstimate`: the estimate layout is shown. */
    predicate ShowsEstimate()
      reads this
    {
      doc.Some? && IsEstimate(doc.value)
    }

    /** `isInvoice`: the invoice layout is shown. */
    predicate ShowsInvoice()
      reads this
    {
      doc.Some? && IsInvoice(doc.value)
    }

    /**
     * The total the estimate layout offers as the total-cost placeholder: the
     * estimate total as written, so a cleared field shows 0.
     */
    function EstimatePlaceholder(parse: string -> Option<real>): (r: Option<real>)
      reads this
      ensures r.Some? <==> TotalFromItems(doc, parse).Some?
      ensures r.Some? && ToNumber(TotalCostOf(doc), parse).Some? ==> r == ToNumber(TotalCostOf(doc), parse)
      ensures ToNumber(TotalCostOf(doc), parse).None? ==> r == TotalFromItems(doc, parse)
    {
      EstimateTotal(doc, parse)
    }

    /** The placeholder with the blank-field correction of `EstimateTotalIntended`. */
    function IntendedPlaceholder(parse: string -> Option<real>): (r: Option<real>)
      reads this
      ensures r.Some? <==> EstimatePlaceholder(parse).Some?
      ensures !(TotalCostOf(doc).Str? && Text.AllSpace(TotalCostOf(doc).s)) ==> r == EstimatePlaceholder(parse)
      ensures TotalCostOf(doc).Str? && Text.AllSpace(TotalCostOf(doc).s) ==> r == TotalFromItems(doc, parse)
    {
      EstimateTotalIntended(doc, parse)
    }

    /** The total the invoice layout shows: the item total, whatever `pricing` holds. */
    function InvoiceTotal(parse: string -> Option<real>): (r: Option<real>)
      reads this
      ensures doc.None? ==> r == Some(0.0)
      ensures doc.Some? ==>
        (r.Some? <==> LineItemsOf(doc.value).Some? && NoNullish(LineItemsOf(doc.value).value))
      ensures doc.Some? && r.Some? ==> r.value == SumAmounts(LineItemsOf(doc.value).value, parse)
    {
      TotalFromItems(doc, parse)
    }
  }

  /** Two editors whose records differ only in `pricing` show the same invoice total. */
  lemma InvoiceTotalIgnoresPricing(e1: Editor, e2: Editor, pricing: Value, parse: string -> Option<real>)
    requires e1.doc.Some? && e2.doc == Some(e1.doc.value["pricing" := pricing])
    ensures e2.InvoiceTotal(parse) == e1.InvoiceTotal(parse)
  {
    assert Get(e2.doc.value, "lineItems") == Get(e1.doc.value, "lineItems");
  }

  /**
   * On the page, a cleared total cost makes the placeholder read 0 for lines that add
   * up to 100; the corrected placeholder shows the 100.
   */
  lemma ClearedTotalCostPlaceholder(e: Editor, parse: string -> Option<real>)
    requires parse("") == Some(0.0)
    requires e.doc == Some(map[
        "lineItems" := Arr([Obj(map["qty" := Num(2.0), "rate" := Num(50.0)])]),
        "pricing" := Obj(map["totalCost" := Str("")])])
    ensures e.EstimatePlaceholder(parse) == Some(0.0)
    ensures e.IntendedPlaceholder(parse) == Some(100.0)
  {
    BlankTotalCostHidesItems(parse);
    BlankTotalCostFallsBack(parse);
  }

  /** An editor holding a record fresh from the store shows neither the estimate nor the invoice layout. */
  lemma FreshEditorShowsNoLayout(e: Editor, industry: string, templateId: Value, language: Value, itemId: string,
                                 now: string)
    requires e.doc == Some(DocsStore.NewDoc(e.docId, industry, templateId, language, itemId, now))
    ensures !e.ShowsEstimate() && !e.ShowsInvoice()
  {
    NewDocShowsNoLayout(e.docId, industry, templateId, language, itemId, now);
  }
}
