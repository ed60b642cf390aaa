/**
 * The in-memory document store: a table from document id to document record,
 * with creation of a default record, lookup, and shallow-merge update.
 * The clock and the UUID generator are outside the model: the caller passes
 * the current timestamp and the fresh ids.
 */
module DocsStore {
  import opened Wrappers
  import opened Values
  import Text

  /** `capitalize(s)`: the first character upper-cased, the rest as it is. */
  function Capitalize(s: string): (r: string)
    ensures |r| == |s|
    ensures |s| > 0 ==> r[0] == Text.UpperChar(s[0]) && r[1..] == s[1..]
  {
    if |s| > 0 then [Text.UpperChar(s[0])] + s[1..] else s
  }

  /** Capitalizing keeps the length, upper-cases the first character and changes no other. */
  lemma CapitalizeShape(s: string)
    ensures |Capitalize(s)| == |s|
    ensures s != "" ==> Capitalize(s)[0] == Text.UpperChar(s[0])
    ensures forall i :: 1 <= i < |s| ==> Capitalize(s)[i] == s[i]
    ensures s == "" ==> Capitalize(s) == ""
  {
  }

  /** Capitalizing twice changes nothing more. */
  lemma CapitalizeIdempotent(s: string)
    ensures Capitalize(Capitalize(s)) == Capitalize(s)
  {
  }

  /** `language === "es"`. */
  predicate IsSpanish(language: Value) {
    language == Str("es")
  }

  /** The destructuring default `language = "en"`: it applies only when no language is passed. */
  function EffectiveLanguage(language: Value): (r: Value)
    ensures language.Undefined? ==> r == Str("en")
    ensures !language.Undefined? ==> r == language
  {
    if language.Undefined? then Str("en") else language
  }

  function TitlePrefix(language: Value): string {
    if IsSpanish(language) then "Estimado \U{2014} " else "Estimate \U{2014} "
  }

  /**
   * `defaultTitle(industry, templateId, language)`: the localized prefix followed by
   * the industry slug with every `-` turned into a space and its first letter
   * capitalized. `templateId` is accepted and ignored, as in the source.
   */
  function DefaultTitle(industry: string, templateId: Value, language: Value): (r: string)
    ensures |r| == |TitlePrefix(language)| + |industry|
    ensures r[..|TitlePrefix(language)|] == TitlePrefix(language)
  {
    TitlePrefix(language) + Capitalize(Text.ReplaceChar(industry, '-', ' '))
  }

  /**
   * A default title is the prefix for the language followed by one character per
   * character of the slug: no `-` survives, and the first letter is capitalized.
   */
  lemma DefaultTitleShape(industry: string, templateId: Value, language: Value)
    ensures var r := DefaultTitle(industry, templateId, language);
      && |r| == |TitlePrefix(language)| + |industry|
      && (IsSpanish(language) ==> r[..|TitlePrefix(language)|] == "Estimado \U{2014} ")
      && (!IsSpanish(language) ==> r[..|TitlePrefix(language)|] == "Estimate \U{2014} ")
      && (forall i :: 0 <= i < |r| ==> r[i] != '-')
      && (forall i :: 1 <= i < |industry| ==>
            r[|TitlePrefix(language)| + i] == if industry[i] == '-' then ' ' else industry[i])
      && (industry != "" && industry[0] != '-' ==> r[|TitlePrefix(language)|] == Text.UpperChar(industry[0]))
      && (industry != "" && industry[0] == '-' ==> r[|TitlePrefix(language)|] == ' ')
  {
    var prefix := TitlePrefix(language);
    var industryLabel := Capitalize(Text.ReplaceChar(industry, '-', ' '));
    CapitalizeShape(Text.ReplaceChar(industry, '-', ' '));
    assert forall i :: 0 <= i < |prefix| ==> prefix[i] != '-';
    assert forall i :: 0 <= i < |industryLabel| ==> industryLabel[i] != '-';
  }

  const NotesEs := "Gracias por su preferencia."
  const NotesEn := "Thank you for your business."
  const TermsEs := "Pago debido dentro de 15 d\U{00ED}as."
  const TermsEn := "Payment due within 15 days."

  /** `defaultNotes(language)`: Spanish exactly for `"es"`, English for every other language. */
  function DefaultNotes(language: Value): (r: string)
    ensures r == NotesEs <==> IsSpanish(language)
    ensures r == NotesEn <==> !IsSpanish(language)
  {
    assert NotesEs[0] != NotesEn[0];
    if IsSpanish(language) then NotesEs else NotesEn
  }

  /** `defaultTerms(language)`: Spanish exactly for `"es"`, English for every other language. */
  function DefaultTerms(language: Value): (r: string)
    ensures r == TermsEs <==> IsSpanish(language)
    ensures r == TermsEn <==> !IsSpanish(language)
  {
    assert TermsEs[2] != TermsEn[2];
    if IsSpanish(language) then TermsEs else TermsEn
  }

  /** The keys a freshly created record has: no `docType`, `meta`, `show` or number fields. */
  const NewDocKeys: set<string> := {
    "id", "industry", "templateId", "language", "status", "title",
    "createdAt", "lastEditedAt", "client", "lineItems", "notes", "terms" }

  /**
   * The object literal `createDocFromTemplate` builds, with the computed title,
   * notes and terms as parameters.
   */
  function DocLiteral(id: string, industry: string, templateId: Value, lang: Value, title: string,
                      notes: string, terms: string, itemId: string, now: string): (r: Record)
    ensures r.Keys == NewDocKeys
  {
    map[
      "id" := Str(id),
      "industry" := Str(industry),
      "templateId" := templateId,
      "language" := lang,
      "status" := Str("draft"),
      "title" := Str(title),
      "createdAt" := Str(now),
      "lastEditedAt" := Str(now),
      "client" := Obj(map["name" := Str(""), "phone" := Str(""), "email" := Str(""), "address" := Str("")]),
      "lineItems" := Arr([Obj(map[
        "id" := Str(itemId), "name" := Str("Service item"), "qty" := Num(1.0), "rate" := Num(100.0)])]),
      "notes" := Str(notes),
      "terms" := Str(terms)
    ]
  }

  /** The record `createDocFromTemplate` builds; `now` is the timestamp, `itemId` the line item's UUID. */
  function NewDoc(id: string, industry: string, templateId: Value, language: Value, itemId: string, now: string): (r: Record)
    ensures Get(r, "status") == Str("draft")
    ensures Get(r, "createdAt") == Get(r, "lastEditedAt") == Str(now)
  {
    var lang := EffectiveLanguage(language);
    DocLiteral(id, industry, templateId, lang, DefaultTitle(industry, templateId, lang),
               DefaultNotes(lang), DefaultTerms(lang), itemId, now)
  }

  /** A record built from the literal has exactly the default keys, whatever its texts. */
  lemma DocLiteralKeys(id: string, industry: string, templateId: Value, lang: Value, title: string,
                       notes: string, terms: string, itemId: string, now: string)
    ensures var r := DocLiteral(id, industry, templateId, lang, title, notes, terms, itemId, now);
      "docType" !in r && "meta" !in r && "company" !in r && "job" !in r && "pricing" !in r
  {
    assert |"docType"| == 7 && |"meta"| == 4 && |"company"| == 7 && |"job"| == 3 && |"pricing"| == 7;
    assert forall k :: k in NewDocKeys ==> |k| != 3 && |k| != 4 && |k| != 7;
  }

  /** A new record sets no `docType`, `meta`, `company`, `job` or `pricing`, and nothing beyond the defaults. */
  lemma NewDocKeysExact(id: string, industry: string, templateId: Value, language: Value, itemId: string, now: string)
    ensures NewDoc(id, industry, templateId, language, itemId, now).Keys == NewDocKeys
    ensures var r := NewDoc(id, industry, templateId, language, itemId, now);
      "docType" !in r && "meta" !in r && "company" !in r && "job" !in r && "pricing" !in r
  {
    var lang := EffectiveLanguage(language);
    DocLiteralKeys(id, industry, templateId, lang, DefaultTitle(industry, templateId, lang),
                   DefaultNotes(lang), DefaultTerms(lang), itemId, now);
  }

  /** `r` holds the id, industry and template id it was created with. */
  predicate HasProvenance(r: Record, id: string, industry: string, templateId: Value) {
    Get(r, "id") == Str(id) && Get(r, "industry") == Str(industry) && Get(r, "templateId") == templateId
  }

  /** `r` has an empty client and exactly one "Service item" line, quantity 1 at rate 100, with id `itemId`. */
  predicate HasDefaultClientAndItems(r: Record, itemId: string) {
    HasEmptyClient(r) && HasDefaultLine(r, itemId)
  }

  /** The client's four fields are all empty. */
  predicate HasEmptyClient(r: Record) {
    && Get(r, "client").Obj? && Get(r, "client").fields.Keys == {"name", "phone", "email", "address"}
    && (forall k :: k in Get(r, "client").fields ==> Get(r, "client").fields[k] == Str(""))
  }

  /** Exactly one line: "Service item", quantity 1 at rate 100, with id `itemId`. */
  predicate HasDefaultLine(r: Record, itemId: string) {
    && Get(r, "lineItems").Arr? && |Get(r, "lineItems").items| == 1
    && var li := Get(r, "lineItems").items[0];
    && Prop(li, "id") == Str(itemId) && Prop(li, "name") == Str("Service item")
    && Prop(li, "qty") == Num(1.0) && Prop(li, "rate") == Num(100.0)
  }

  /** The literal holds its provenance, whatever its texts. */
  lemma DocLiteralProvenance(id: string, industry: string, templateId: Value, lang: Value, title: string,
                            notes: string, terms: string, itemId: string, now: string)
    ensures var r := DocLiteral(id, industry, templateId, lang, title, notes, terms, itemId, now);
      HasProvenance(r, id, industry, templateId)
  {
  }

  /** A new record keeps its provenance: the id it is stored under, the industry and the template id passed in. */
  lemma NewDocProvenance(id: string, industry: string, templateId: Value, language: Value, itemId: string, now: string)
    ensures var r := NewDoc(id, industry, templateId, language, itemId, now);
      HasProvenance(r, id, industry, templateId)
  {
    var lang := EffectiveLanguage(language);
    DocLiteralProvenance(id, industry, templateId, lang, DefaultTitle(industry, templateId, lang),
                         DefaultNotes(lang), DefaultTerms(lang), itemId, now);
  }

  /** The literal's client and lines are the defaults, whatever its texts. */
  lemma DocLiteralClientAndItems(id: string, industry: string, templateId: Value, lang: Value, title: string,
                            notes: string, terms: string, itemId: string, now: string)
    ensures var r := DocLiteral(id, industry, templateId, lang, title, notes, terms, itemId, now);
      HasDefaultClientAndItems(r, itemId)
  {
    var r := DocLiteral(id, industry, templateId, lang, title, notes, terms, itemId, now);
    assert HasEmptyClient(r);
    assert HasDefaultLine(r, itemId);
  }

  /** A new record has an empty client and exactly one "Service item" line, quantity 1 at rate 100. */
  lemma NewDocClientAndItems(id: string, industry: string, templateId: Value, language: Value, itemId: string, now: string)
    ensures var r := NewDoc(id, industry, templateId, language, itemId, now);
      HasDefaultClientAndItems(r, itemId)
  {
    var lang := EffectiveLanguage(language);
    DocLiteralClientAndItems(id, industry, templateId, lang, DefaultTitle(industry, templateId, lang),
                             DefaultNotes(lang), DefaultTerms(lang), itemId, now);
  }

  /** The language defaults to English, and the title, notes and terms follow it. */
  lemma NewDocTexts(id: string, industry: string, templateId: Value, language: Value, itemId: string, now: string)
    ensures var r := NewDoc(id, industry, templateId, language, itemId, now);
      && Get(r, "language") == EffectiveLanguage(language)
      && Get(r, "title") == Str(DefaultTitle(industry, templateId, EffectiveLanguage(language)))
      && Get(r, "notes") == Str(DefaultNotes(EffectiveLanguage(language)))
      && Get(r, "terms") == Str(DefaultTerms(EffectiveLanguage(language)))
  {
  }

  /** Without a language the record is English throughout. */
  lemma NewDocDefaultsToEnglish(id: string, industry: string, templateId: Value, itemId: string, now: string)
    ensures var r := NewDoc(id, industry, templateId, Undefined, itemId, now);
      && Get(r, "language") == Str("en")
      && Get(r, "notes") == Str(NotesEn) && Get(r, "terms") == Str(TermsEn)
      && Get(r, "title").s[..|"Estimate \U{2014} "|] == "Estimate \U{2014} "
  {
  }

  /** `{...existing, ...patch, lastEditedAt: now}`. */
  function Updated(existing: Record, patch: Record, now: string): (r: Record)
    ensures r.Keys == existing.Keys + patch.Keys + {"lastEditedAt"}
    ensures r["lastEditedAt"] == Str(now)
    ensures forall k :: k in patch && k != "lastEditedAt" ==> r[k] == patch[k]
    ensures forall k :: k in existing && k !in patch && k != "lastEditedAt" ==> r[k] == existing[k]
  {
    existing + patch + map["lastEditedAt" := Str(now)]
  }

  /** Applying the same patch at the same time twice is applying it once. */
  lemma UpdatedIdempotent(existing: Record, patch: Record, now: string)
    ensures Updated(Updated(existing, patch, now), patch, now) == Updated(existing, patch, now)
  {
    var once := Updated(existing, patch, now);
    var twice := Updated(once, patch, now);
    assert forall k :: k in twice ==> twice[k] == once[k];
  }

  /** Two successive updates are one update with the later patch laid over the earlier one. */
  lemma UpdatedCompose(existing: Record, p: Record, q: Record, t1: string, t2: string)
    ensures Updated(Updated(existing, p, t1), q, t2) == Updated(existing, p + q, t2)
  {
    var lhs := Updated(Updated(existing, p, t1), q, t2);
    var rhs := Updated(existing, p + q, t2);
    assert forall k :: k in lhs ==> lhs[k] == rhs[k];
  }

  /** A title-only patch changes the title and the edit stamp and nothing else. */
  lemma TitlePatchChangesOnlyTitle(existing: Record, title: Value, now: string)
    ensures var r := Updated(existing, map["title" := title], now);
      && Get(r, "title") == title
      && Get(r, "lastEditedAt") == Str(now)
      && forall k :: k != "title" && k != "lastEditedAt" ==> Get(r, k) == Get(existing, k)
  {
  }

  /** The module-level `docs` Map, as an object. */
  class Store {
    var docs: map<string, Record>

    /** Every record holds its own key as its `id`. */
    ghost predicate Valid()
      reads this
    {
      forall k :: k in docs ==> Get(docs[k], "id") == Str(k)
    }

    /** The empty table the module starts with. */
    constructor ()
      ensures docs == map[] && Valid()
    {
      docs := map[];
    }

    /** `getDoc(docId)`: the stored record, or null. */
    function GetDoc(docId: string): (r: Option<Record>)
      reads this
      ensures r.Some? <==> docId in docs
      ensures r.Some? ==> r.value == docs[docId]
    {
      if docId in docs then Some(docs[docId]) else None
    }

    /**
     * `createDocFromTemplate({industry, templateId, language})`, with the fresh
     * document id, line-item id and timestamp supplied by the caller.
     */
    method CreateDocFromTemplate(industry: string, templateId: Value, language: Value, id: string, itemId: string, now: string)
      returns (doc: Record)
      modifies this
      ensures doc == NewDoc(id, industry, templateId, language, itemId, now)
      ensures docs == old(docs)[id := doc]
      ensures GetDoc(id) == Some(doc)
      ensures id !in old(docs) ==> forall k :: k in old(docs) ==> GetDoc(k) == Some(old(docs)[k])
      ensures old(Valid()) ==> Valid()
    {
      doc := NewDoc(id, industry, templateId, language, itemId, now);
      NewDocProvenance(id, industry, templateId, language, itemId, now);
      docs := docs[id := doc];
    }

    /** `updateDoc(docId, patch)`: null for an unknown id, else the merged record, which is also stored. */
    method UpdateDoc(docId: string, patch: Record, now: string) returns (r: Option<Record>)
      modifies this
      ensures docId !in old(docs) ==> r == None && docs == old(docs)
      ensures docId in old(docs) ==>
        && r == Some(Updated(old(docs)[docId], patch, now))
        && docs == old(docs)[docId := r.value]
      ensures GetDoc(docId) == r || (r.None? && GetDoc(docId).None?)
      ensures forall k :: k != docId ==> GetDoc(k) == old(GetDoc(k))
      ensures old(Valid()) && "id" !in patch ==> Valid()
    {
      if docId !in docs {
        return None;
      }
      var updated := Updated(docs[docId], patch, now);
      docs := docs[docId := updated];
      r := Some(updated);
    }
  }
}
