/**
 * The supplier-interest endpoint's POST handler: the required-field gate, the
 * thank-you e-mail to the supplier, one notification to a fixed internal
 * address (each in its own catch), and the aggregated report.
 */
module SendEmailRoute {

  import opened Js
  import opened Dispatch
  import SupplierEmail

  type SupplierForm = SupplierEmail.SupplierForm

  /** The handler's own copies of the two code-to-label tables. */
  const ProductTypeNames: map<string, string> := map[
    "carnes" := "Carnes y embutidos",
    "lacteos" := "Lácteos",
    "verduras" := "Frutas y verduras",
    "bebidas" := "Bebidas",
    "panaderia" := "Panadería y pastelería",
    "condimentos" := "Condimentos y especias",
    "limpieza" := "Productos de limpieza",
    "equipamiento" := "Equipamiento y utensilios",
    "otros" := "Otros"
  ]

  const CoverageAreaNames: map<string, string> := map[
    "montevideo" := "Montevideo",
    "interior-uy" := "Interior de Uruguay",
    "buenos-aires" := "Buenos Aires",
    "interior-ar" := "Interior de Argentina",
    "ambos" := "Argentina y Uruguay"
  ]

  /** The only recipient of the internal notification; the configured address list is never consulted. */
  const AdminAddress := "leandro@forkcast.tech"

  const MissingFields := "Nombre de empresa, nombre de contacto y email son requeridos"

  /** The negation of `!companyName || !contactName || !email`. */
  predicate HasRequiredFields(f: SupplierForm) {
    Truthy(f.companyName) && Truthy(f.contactName) && Truthy(f.email)
  }

  /** `productType ? (productTypeNames[productType] || productType) : 'No especificado'`. */
  function ProductTypeName(productType: Field): (shown: string)
    ensures !Truthy(productType) ==> shown == "No especificado"
    ensures Truthy(productType) && productType.value in ProductTypeNames ==>
      shown == ProductTypeNames[productType.value]
    ensures Truthy(productType) && productType.value !in ProductTypeNames ==> shown == productType.value
    ensures shown != ""
  {
    assert LabelsNonEmpty(ProductTypeNames);
    if Truthy(productType) then LookupOr(ProductTypeNames, productType.value) else "No especificado"
  }

  /** `coverageArea ? (coverageAreaNames[coverageArea] || coverageArea) : 'No especificada'`. */
  function CoverageAreaName(coverageArea: Field): (shown: string)
    ensures !Truthy(coverageArea) ==> shown == "No especificada"
    ensures Truthy(coverageArea) && coverageArea.value in CoverageAreaNames ==>
      shown == CoverageAreaNames[coverageArea.value]
    ensures Truthy(coverageArea) && coverageArea.value !in CoverageAreaNames ==> shown == coverageArea.value
    ensures shown != ""
  {
    assert LabelsNonEmpty(CoverageAreaNames);
    if Truthy(coverageArea) then LookupOr(CoverageAreaNames, coverageArea.value) else "No especificada"
  }

  /**
   * The handler's tables equal the template's key for key, so whenever the
   * supplier's e-mail shows a product or coverage line, the administrator's
   * notice shows the same label.
   */
  lemma LabelsAgreeWithSupplierEmail(f: SupplierForm)
    ensures ProductTypeNames == SupplierEmail.ProductTypeNames
    ensures CoverageAreaNames == SupplierEmail.CoverageAreaNames
    ensures Truthy(f.productType) ==>
      SupplierEmail.Row(SupplierEmail.ProductCaption, ProductTypeName(f.productType)) in SupplierEmail.DetailRows(f)
    ensures Truthy(f.coverageArea) ==>
      SupplierEmail.Row(SupplierEmail.CoverageCaption, CoverageAreaName(f.coverageArea)) in SupplierEmail.DetailRows(f)
  {
    var rows := SupplierEmail.DetailRows(f);
    var p := if Truthy(f.phone) then 1 else 0;
    var t := if Truthy(f.productType) then 1 else 0;
    if Truthy(f.productType) {
      assert rows[3 + p] == SupplierEmail.Row(SupplierEmail.ProductCaption, ProductTypeName(f.productType));
    }
    if Truthy(f.coverageArea) {
      assert rows[3 + p + t] == SupplierEmail.Row(SupplierEmail.CoverageCaption, CoverageAreaName(f.coverageArea));
    }
  }

  /** The values the administrator's HTML interpolates, in order. */
  datatype SupplierNotice = SupplierNotice(
    company: string, contact: string, email: string, phone: string,
    productType: string, coverageArea: string, message: string)

  /** What a send carries: the thank-you template or the administrator's notice. */
  datatype Content = Thanks(view: SupplierEmail.Thanks) | Notice(notice: SupplierNotice)

  /**
   * The administrator's HTML: a missing phone and a missing message get a
   * placeholder text, the codes are shown as labels, the rest as submitted.
   */
  function NoticeOf(f: SupplierForm): (n: SupplierNotice)
    ensures Truthy(f.phone) ==> n.phone == f.phone.value
    ensures !Truthy(f.phone) ==> n.phone == "No proporcionado"
    ensures Truthy(f.message) ==> n.message == f.message.value
    ensures !Truthy(f.message) ==> n.message == "Sin mensaje"
    ensures n.productType == ProductTypeName(f.productType) && n.coverageArea == CoverageAreaName(f.coverageArea)
    ensures HasRequiredFields(f) ==>
      n.company == f.companyName.value && n.contact == f.contactName.value && n.email == f.email.value
  {
    SupplierNotice(
      Interpolate(f.companyName), Interpolate(f.contactName), Interpolate(f.email),
      Or(f.phone, "No proporcionado"),
      ProductTypeName(f.productType), CoverageAreaName(f.coverageArea),
      Or(f.message, "Sin mensaje"))
  }

  /** The thank-you e-mail to the submitted address. */
  function ProviderEnvelope(f: SupplierForm): Envelope<Content> {
    Envelope([Interpolate(f.email)], "Gracias por tu interés en ForkCast", Thanks(SupplierEmail.Render(f)))
  }

  /** The notification to the fixed internal address. */
  function AdminEnvelope(f: SupplierForm): Envelope<Content> {
    Envelope([AdminAddress], "Nuevo proveedor interesado: " + Interpolate(f.companyName), Notice(NoticeOf(f)))
  }

  /** `emailResults` of a valid submission: the supplier's entry, then the administrator's. */
  function Attempts(provider: Provider): seq<EmailResult> {
    [EmailResult("provider", provider(0)), EmailResult("admin", provider(1))]
  }

  /** The send calls of a valid submission, in order. */
  function Sends(f: SupplierForm): seq<Envelope<Content>> {
    [ProviderEnvelope(f), AdminEnvelope(f)]
  }

  /**
   * `POST /api/send-email`. The provider is an oracle indexed by call
   * number. Returns the response and the send calls made, in order.
   */
  method Post(request: Request<SupplierForm>, provider: Provider) returns (response: Response, sent: seq<Envelope<Content>>)
    ensures request.Malformed? ==> response == Crashed(request.error) && response.status == 500 && sent == []
    ensures request.Parsed? && !HasRequiredFields(request.form) ==>
      response == Rejected(MissingFields) && response.status == 400 && sent == []
    ensures request.Parsed? && HasRequiredFields(request.form) ==>
      response == Report(Attempts(provider)) && sent == Sends(request.form)
  {
    if request.Malformed? {
      return Crashed(request.error), [];
    }
    var form := request.form;
    if !HasRequiredFields(form) {
      return Rejected(MissingFields), [];
    }

    var emailResults: seq<EmailResult> := [];
    var calls: nat := 0;
    sent := [];

    // 1. The supplier; a throw is caught and recorded in place of the receipt.
    sent := sent + [ProviderEnvelope(form)];
    emailResults := emailResults + [EmailResult("provider", provider(calls))];
    calls := calls + 1;

    // 2. The administrator, whatever happened to the first send.
    sent := sent + [AdminEnvelope(form)];
    emailResults := emailResults + [EmailResult("admin", provider(calls))];
    calls := calls + 1;

    // 3. Aggregation.
    assert emailResults == Attempts(provider);
    assert sent == Sends(form);
    response := Report(emailResults);
  }

  /**
   * A valid submission always reports exactly two attempts, "provider" then
   * "admin"; it succeeds with "Se enviaron k de 2" when k of them got
   * through and k > 0, and fails with status 500 otherwise.
   */
  lemma TwoAttemptsReported(provider: Provider)
    ensures |Report(Attempts(provider)).body.emailResults| == 2
    ensures Report(Attempts(provider)).body.emailResults[0].to == "provider"
    ensures Report(Attempts(provider)).body.emailResults[1].to == "admin"
    ensures Report(Attempts(provider)).status == 200 <==> provider(0).Sent? || provider(1).Sent?
    ensures SuccessCount(Attempts(provider)) ==
      (if provider(0).Sent? then 1 else 0) + (if provider(1).Sent? then 1 else 0)
  {
    var results := Attempts(provider);
    assert results[..1] == [results[0]];
    assert results[..0] == [];
  }

  /** The thank-you goes to the supplier's address and the notice to the fixed internal address only. */
  lemma Recipients(f: SupplierForm)
    requires HasRequiredFields(f)
    ensures Sends(f)[0].to == [f.email.value]
    ensures Sends(f)[1].to == ["leandro@forkcast.tech"]
  {
  }
}
