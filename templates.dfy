/** The static template catalog: the industries offered and the templates defined for them. */
module Templates {
  import opened Wrappers
  import Seqs

  /** A text given in English and in Spanish. */
  datatype Localized = Localized(en: string, es: string)

  /** An entry of the industry list: the slug used in URLs and its display name. */
  datatype Industry = Industry(slug: string, name: string)

  /** The kind of document a template produces (`"estimate"` or `"invoice"` in the source). */
  datatype DocType = Estimate | Invoice

  /** Which header fields a template shows. */
  datatype Show = Show(estimateNumber: bool, invoiceNumber: bool, issueDate: bool, dueDate: bool)

  datatype DefaultItem = DefaultItem(name: Localized, qty: int, rate: int)

  datatype Defaults = Defaults(
    title: Localized,
    show: Show,
    notes: Localized,
    terms: Localized,
    lineItems: seq<DefaultItem>)

  datatype Template = Template(
    id: string,
    industry: string,
    docType: DocType,
    name: Localized,
    description: Localized,
    defaults: Defaults)

  /** `INDUSTRIES`. */
  function Industries(): (r: seq<Industry>)
    ensures |r| == 4
    ensures forall i, j :: 0 <= i < j < |r| ==> r[i].slug != r[j].slug
  {
    [ Industry("construction", "Construction"),
      Industry("house-cleaning", "House " + "Cleaning"),
      Industry("painting", "Painting"),
      Industry("pest-control", "Pest Control") ]
  }

  /** The two default lines every construction template starts with. */
  function LaborAndMaterials(): seq<DefaultItem> {
    [ DefaultItem(Localized("Labor", "Mano de obra"), 1, 0),
      DefaultItem(Localized("Materials", "Materiales"), 1, 0) ]
  }

  // The catalog's longer texts are written as concatenations of short literals:
  // the words are exactly the source's, and short literals keep the proofs that
  // unfold the catalog cheap.

  function ConstructionEstimate(): Template {
    Template(
      "construction-estimate-v1",
      "construction",
      Estimate,
      Localized("Construction " + "\U{2014} " + "Estimate", "Construcci\U{00F3}n " + "\U{2014} " + "Estimado"),
      Localized(
        "Scope + " + "line items " + "+ totals + " + "terms " + "(great for " + "quotes).",
        "Alcance + " + "partidas + " + "totales + " + "t\U{00E9}rminos " + "(ideal para " + "cotizaciones)."),
      Defaults(
        Localized("Estimate", "Estimado"),
        Show(true, false, true, false),
        Localized(
          "Thank you " + "for the " + "opportunity. " + "Please " + "review the " + "scope and " + "let us know " + "if you have " + "any " + "questions.",
          "Gracias por " + "la " + "oportunidad. " + "Revise el " + "alcance y " + "av\U{00ED}senos " + "si tiene " + "alguna " + "pregunta."),
        Localized(
          "This " + "estimate is " + "valid for " + "30 days. " + "Materials " + "subject to " + "availability " + "and price " + "changes.",
          "Este " + "estimado es " + "v\U{00E1}lido " + "por 30 " + "d\U{00ED}as. " + "Materiales " + "sujetos a " + "disponibilidad " + "y cambios " + "de precio."),
        LaborAndMaterials()))
  }

  function ConstructionInvoice(): Template {
    Template(
      "construction-invoice-v1",
      "construction",
      Invoice,
      Localized("Construction " + "\U{2014} " + "Invoice", "Construcci\U{00F3}n " + "\U{2014} " + "Factura"),
      Localized(
        "Invoice " + "format with " + "due date + " + "payment " + "terms.",
        "Formato de " + "factura con " + "fecha de " + "vencimiento " + "+ " + "t\U{00E9}rminos " + "de pago."),
      Defaults(
        Localized("Invoice", "Factura"),
        Show(false, true, true, true),
        Localized("Thank you " + "for your " + "business.", "Gracias por " + "su " + "preferencia."),
        Localized(
          "Payment due " + "within 15 " + "days. Late " + "payments " + "may be " + "subject to " + "a fee.",
          "Pago debido " + "dentro de " + "15 " + "d\U{00ED}as. " + "Pagos " + "atrasados " + "pueden " + "estar " + "sujetos a " + "un cargo."),
        LaborAndMaterials()))
  }

  /** `TEMPLATES`, with the invariants the catalog's data keeps. */
  function Catalog(): (r: seq<Template>)
    // ids are pairwise distinct, so a lookup by id is unambiguous
    ensures forall i, j :: 0 <= i < j < |r| ==> r[i].id != r[j].id
    // the number field shown matches the document type
    ensures forall i :: 0 <= i < |r| ==>
      && (r[i].defaults.show.estimateNumber <==> r[i].docType == Estimate)
      && (r[i].defaults.show.invoiceNumber <==> r[i].docType == Invoice)
    // only invoices show a due date
    ensures forall i :: 0 <= i < |r| ==> (r[i].defaults.show.dueDate <==> r[i].docType == Invoice)
    // every template starts with a Labor and a Materials line, quantity 1 at rate 0
    ensures forall i :: 0 <= i < |r| ==>
      && |r[i].defaults.lineItems| == 2
      && r[i].defaults.lineItems[0].name.en == "Labor"
      && r[i].defaults.lineItems[1].name.en == "Materials"
      && forall k :: 0 <= k < 2 ==>
           r[i].defaults.lineItems[k].qty == 1 && r[i].defaults.lineItems[k].rate == 0
    // every template belongs to a listed industry
    ensures forall i :: 0 <= i < |r| ==> exists j :: 0 <= j < |Industries()| && Industries()[j].slug == r[i].industry
  {
    var r := [ConstructionEstimate(), ConstructionInvoice()];
    assert Industries()[0].slug == "construction";
    r
  }

  /** `getTemplatesByIndustry(industry)`. */
  function GetTemplatesByIndustry(industry: string): (r: seq<Template>)
    ensures forall i :: 0 <= i < |r| ==> r[i] in Catalog() && r[i].industry == industry
    ensures forall i :: 0 <= i < |Catalog()| && Catalog()[i].industry == industry ==> Catalog()[i] in r
    ensures Seqs.IsSubsequence(r, Catalog())
  {
    Seqs.Filter(Catalog(), (t: Template) => t.industry == industry)
  }

  /** `getTemplateById(templateId)`: the first catalog entry with that id, or null. */
  function GetTemplateById(templateId: string): (r: Option<Template>)
    ensures r.None? <==> forall i :: 0 <= i < |Catalog()| ==> Catalog()[i].id != templateId
    ensures r.Some? ==> exists i :: (0 <= i < |Catalog()| && Catalog()[i] == r.value && r.value.id == templateId &&
                                     forall j :: 0 <= j < i ==> Catalog()[j].id != templateId)
  {
    match Seqs.FindFirst(Catalog(), (t: Template) => t.id == templateId)
    case None => None
    case Some(i) => Some(Catalog()[i])
  }

  /** Because ids are distinct, the lookup returns the k-th entry exactly when that entry has the id. */
  lemma GetTemplateByIdExact(templateId: string, k: nat)
    requires k < |Catalog()|
    ensures GetTemplateById(templateId) == Some(Catalog()[k]) <==> Catalog()[k].id == templateId
  {
    var c := Catalog();
    if c[k].id == templateId {
      match Seqs.FindFirst(c, (t: Template) => t.id == templateId)
      case Some(j) =>
        if k < j {
          assert c[k].id == templateId;
        }
      case None =>
    }
  }

  /** Every listed industry other than construction has no templates yet. */
  lemma OnlyConstructionHasTemplates(k: nat)
    requires k < |Industries()|
    requires Industries()[k].slug != "construction"
    ensures GetTemplatesByIndustry(Industries()[k].slug) == []
  {
  }

  /** Construction lists the whole catalog, in catalog order. */
  lemma ConstructionTemplates()
    ensures GetTemplatesByIndustry("construction") == Catalog()
  {
    var c := Catalog();
    assert c[0].industry == "construction" && c[1].industry == "construction";
    Seqs.FilterAll(c, (t: Template) => t.industry == "construction");
  }
}
