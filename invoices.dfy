/** The invoice payload mapper and the invoice listing path of
    app/lib/api/invoices/invoice.ts. The casts to the enum types do no
    checking, so enum-typed fields are plain strings here. The `Entity`
    base type comes from app/lib/api/utils/entity.ts, which is not part of
    this model; it is represented by the fields the mapper drops. */
module Invoices {
  import opened Common
  import opened PlainFetch
  import opened Text

  const INVOICE_URI := "/v1/invoices"

  /** The members of `InvoiceItemType` and `InvoicePaymentMethod`. */
  const ITEM_TYPES: set<string> := {"GOOD", "SERVICE"}
  const PAYMENT_METHODS: set<string> := {"CASH", "CARD", "ONLINE"}

  /** The `Entity` fields of a stored record. */
  datatype EntityFields = EntityFields(id: string, createdAt: string, updatedAt: string)

  /** A detail line as the form model holds it. */
  datatype InvoiceDetail = InvoiceDetail(
    entity: EntityFields,
    itemId: string,
    itemName: string,
    itemType: string,
    quantity: real,
    unitPrice: real,
    total: real)

  /** `ModelCreateInvoice`. */
  datatype ModelCreateInvoice = ModelCreateInvoice(paymentMethod: string, clientDocument: string, details: seq<InvoiceDetail>)

  /** `CreateInvoiceDetail`: only the five fields the server takes. */
  datatype CreateInvoiceDetail = CreateInvoiceDetail(itemId: string, itemName: string, itemType: string, quantity: real, unitPrice: real)

  /** `CreateInvoice`. */
  datatype CreateInvoice = CreateInvoice(paymentMethod: string, clientDocument: string, details: seq<CreateInvoiceDetail>)

  /** The arrow given to `details.map`. */
  function MapDetail(d: InvoiceDetail): (c: CreateInvoiceDetail)
    ensures c.itemId == d.itemId && c.itemName == d.itemName && c.itemType == d.itemType
    ensures c.quantity == d.quantity && c.unitPrice == d.unitPrice
  {
    CreateInvoiceDetail(d.itemId, d.itemName, d.itemType, d.quantity, d.unitPrice)
  }

  /** `details.map(...)`: same length, same order. */
  function MapDetails(details: seq<InvoiceDetail>): (r: seq<CreateInvoiceDetail>)
    ensures |r| == |details|
    ensures forall i :: 0 <= i < |details| ==> r[i] == MapDetail(details[i])
  {
    if |details| == 0 then [] else [MapDetail(details[0])] + MapDetails(details[1..])
  }

  /** `mapModelCreateInvoiceToCreateInvoice`. */
  function MapModelCreateInvoice(model: ModelCreateInvoice): (r: CreateInvoice)
    ensures r.paymentMethod == model.paymentMethod && r.clientDocument == model.clientDocument
    ensures |r.details| == |model.details|
    ensures forall i :: 0 <= i < |model.details| ==>
      var c, d := r.details[i], model.details[i];
      c.itemId == d.itemId && c.itemName == d.itemName && c.itemType == d.itemType
      && c.quantity == d.quantity && c.unitPrice == d.unitPrice
  {
    CreateInvoice(model.paymentMethod, model.clientDocument, MapDetails(model.details))
  }

  /** The five fields a detail keeps. */
  predicate SameFiveFields(a: InvoiceDetail, b: InvoiceDetail) {
    a.itemId == b.itemId && a.itemName == b.itemName && a.itemType == b.itemType
    && a.quantity == b.quantity && a.unitPrice == b.unitPrice
  }

  /** The mapped invoice depends on nothing else: the details' totals and
      entity fields are dropped. */
  lemma MapperDropsTotalsAndEntity(m1: ModelCreateInvoice, m2: ModelCreateInvoice)
    requires m1.paymentMethod == m2.paymentMethod && m1.clientDocument == m2.clientDocument
    requires |m1.details| == |m2.details|
    requires forall i :: 0 <= i < |m1.details| ==> SameFiveFields(m1.details[i], m2.details[i])
    ensures MapModelCreateInvoice(m1) == MapModelCreateInvoice(m2)
  {
    var r1, r2 := MapModelCreateInvoice(m1), MapModelCreateInvoice(m2);
    assert forall i :: 0 <= i < |r1.details| ==> r1.details[i] == r2.details[i];
  }

  /** Mapping a merged list is merging the mapped lists. */
  lemma {:induction false} MapDetailsAppend(a: seq<InvoiceDetail>, b: seq<InvoiceDetail>)
    ensures MapDetails(a + b) == MapDetails(a) + MapDetails(b)
  {
    var l, r := MapDetails(a + b), MapDetails(a) + MapDetails(b);
    assert |l| == |r|;
    forall i | 0 <= i < |l| ensures l[i] == r[i] {
      if i < |a| {
        assert (a + b)[i] == a[i];
      } else {
        assert (a + b)[i] == b[i - |a|];
      }
    }
  }

  /** The casts accept any string: a payment method or item type outside
      the enums is passed through as it is. */
  lemma CastsDoNotValidate(model: ModelCreateInvoice)
    requires model.paymentMethod !in PAYMENT_METHODS
    requires |model.details| > 0 && model.details[0].itemType !in ITEM_TYPES
    ensures MapModelCreateInvoice(model).paymentMethod !in PAYMENT_METHODS
    ensures MapModelCreateInvoice(model).details[0].itemType !in ITEM_TYPES
  {
  }

  // ---- getAllInvoices ----

  /** `SpecInvoice`: each filter is a string or `null` (`None`). */
  datatype SpecInvoice = SpecInvoice(paymentMethod: Option<string>, clientDocument: Option<string>)

  function FilterValue(v: Option<string>): ParamValue {
    if v.Some? then Str(v.value) else Null
  }

  /** The object's entries, in declaration order. */
  function SpecEntries(spec: SpecInvoice): seq<Entry> {
    [("paymentMethod", FilterValue(spec.paymentMethod)), ("clientDocument", FilterValue(spec.clientDocument))]
  }

  /** `${CURRENT_INVOICE_URI}/all${genParams(data)}`. */
  function AllInvoicesPath(spec: SpecInvoice, encode: string -> string): (p: string)
    ensures StartsWith(p, INVOICE_URI + "/all")
    ensures p == INVOICE_URI + "/all" || p[|INVOICE_URI + "/all"|] == '?'
  {
    INVOICE_URI + "/all" + QueryOf(Some(SpecEntries(spec)), encode)
  }

  /** A null or empty filter is omitted; a set one is sent as its name and
      value. */
  lemma AllInvoicesPathFilters(spec: SpecInvoice, encode: string -> string)
    ensures var pairs := KeptPairs(SpecEntries(spec));
      && (Truthy(spec.paymentMethod) ==> ("paymentMethod", spec.paymentMethod.value) in pairs)
      && (Truthy(spec.clientDocument) ==> ("clientDocument", spec.clientDocument.value) in pairs)
      && (forall p :: p in pairs ==> p.0 == "paymentMethod" || p.0 == "clientDocument")
      && (forall p :: p in pairs && p.0 == "paymentMethod" ==> Truthy(spec.paymentMethod))
      && (forall p :: p in pairs && p.0 == "clientDocument" ==> Truthy(spec.clientDocument))
    ensures !Truthy(spec.paymentMethod) && !Truthy(spec.clientDocument) ==>
      AllInvoicesPath(spec, encode) == "/v1/invoices/all"
  {
    var es := SpecEntries(spec);
    var pairs := KeptPairs(es);
    forall p | true ensures p in pairs <==> exists e :: e in es && Kept(e.1) && p == (e.0, Render(e.1)) {
      KeptPairsMembers(es, p);
    }
    if Truthy(spec.paymentMethod) {
      assert es[0] in es;
    }
    if Truthy(spec.clientDocument) {
      assert es[1] in es;
    }
    if !Truthy(spec.paymentMethod) && !Truthy(spec.clientDocument) {
      QueryShape(Some(es), encode);
    }
  }
}
