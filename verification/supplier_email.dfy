/**
 * The thank-you e-mail sent to a prospective supplier: the product-type and
 * coverage-area tables with their raw-code fallback, and which detail rows
 * the template shows. Markup and styling are not modelled; the rendered
 * e-mail is the record `Thanks` of the texts it displays.
 */
module SupplierEmail {

  import opened Js

  /** The `supplierForm` prop: the submitted body as parsed. */
  datatype SupplierForm = SupplierForm(
    companyName: Field, contactName: Field, email: Field, phone: Field,
    productType: Field, coverageArea: Field, message: Field)

  const ProductTypeNames: map<string, string> := map[
    "carnes" := "Carnes y embutidos",
    "lacteos" := "Lácteos",
    "verduras" := "Frutas y verduras",
    "bebidas" := "Bebidas",
    "panaderia" := "Panadería y pastelería",
    "condimentos" := "Condimentos y especias",
    "limpieza" := "Productos de limpieza",
    "equipamiento" := "Equipamiento y utensilios",
    "otros" := "Otros"
  ]

  const CoverageAreaNames: map<string, string> := map[
    "montevideo" := "Montevideo",
    "interior-uy" := "Interior de Uruguay",
    "buenos-aires" := "Buenos Aires",
    "interior-ar" := "Interior de Argentina",
    "ambos" := "Argentina y Uruguay"
  ]

  lemma TablesHaveNonEmptyLabels()
    ensures LabelsNonEmpty(ProductTypeNames) && LabelsNonEmpty(CoverageAreaNames)
  {
  }

  /** `productTypeNames[code] || code`: the table's label for a known code, the code itself otherwise. */
  function ProductTypeLabel(code: string): (shown: string)
    ensures code in ProductTypeNames ==> shown == ProductTypeNames[code]
    ensures code !in ProductTypeNames ==> shown == code
    ensures code != "" ==> shown != ""
  {
    TablesHaveNonEmptyLabels();
    LookupOr(ProductTypeNames, code)
  }

  /** `coverageAreaNames[code] || code`: the table's label for a known code, the code itself otherwise. */
  function CoverageAreaLabel(code: string): (shown: string)
    ensures code in CoverageAreaNames ==> shown == CoverageAreaNames[code]
    ensures code !in CoverageAreaNames ==> shown == code
    ensures code != "" ==> shown != ""
  {
    TablesHaveNonEmptyLabels();
    LookupOr(CoverageAreaNames, code)
  }

  /**
   * The table lookup as JavaScript evaluates it does not fall back to the raw
   * code for a code that names an `Object.prototype` member: "toString" is no
   * product type, yet the lookup yields the inherited method, while the
   * corrected lookup shows "toString".
   */
  lemma InheritedCodeDefeatsFallback()
    ensures "toString" !in ProductTypeNames && "toString" !in CoverageAreaNames
    ensures LookupAsWritten(ProductTypeNames, "toString") == Inherited("toString")
    ensures LookupAsWritten(CoverageAreaNames, "toString") == Inherited("toString")
    ensures ProductTypeLabel("toString") == "toString" && CoverageAreaLabel("toString") == "toString"
  {
  }

  /** One `<strong>caption:</strong> value` line of the details section. */
  datatype Row = Row(caption: string, value: string)

  const PhoneCaption := "Teléfono"
  const ProductCaption := "Tipo de productos"
  const CoverageCaption := "Zona de cobertura"

  /** The texts the template displays, in order. */
  datatype Thanks = Thanks(greeting: string, company: string, details: seq<Row>)

  function OptionalCount(form: SupplierForm): nat {
    (if Truthy(form.phone) then 1 else 0)
    + (if Truthy(form.productType) then 1 else 0)
    + (if Truthy(form.coverageArea) then 1 else 0)
  }

  /** A line shown only when `shown` holds: `{field && (<Text>…</Text>)}`. */
  function OptionalRow(shown: bool, caption: string, value: string): seq<Row> {
    if shown then [Row(caption, value)] else []
  }

  /**
   * The details section: company, contact name and e-mail always, then the
   * phone, product-type and coverage lines, in that order, only for truthy
   * fields: the phone as submitted and the codes as labels; every optional
   * line shows a non-empty value.
   */
  function DetailRows(form: SupplierForm): (rows: seq<Row>)
    ensures |rows| == 3 + OptionalCount(form)
    ensures rows[0] == Row("Empresa", RenderChild(form.companyName))
    ensures rows[1] == Row("Nombre", RenderChild(form.contactName))
    ensures rows[2] == Row("Email", RenderChild(form.email))
    ensures forall i :: 3 <= i < |rows| ==> rows[i].value != ""
    ensures Truthy(form.phone) ==> rows[3] == Row(PhoneCaption, form.phone.value)
    ensures Truthy(form.productType) ==>
      rows[3 + (if Truthy(form.phone) then 1 else 0)] == Row(ProductCaption, ProductTypeLabel(form.productType.value))
    ensures Truthy(form.coverageArea) ==>
      rows[|rows| - 1] == Row(CoverageCaption, CoverageAreaLabel(form.coverageArea.value))
  {
    [Row("Empresa", RenderChild(form.companyName)),
     Row("Nombre", RenderChild(form.contactName)),
     Row("Email", RenderChild(form.email))]
    + OptionalRow(Truthy(form.phone), PhoneCaption, Or(form.phone, ""))
    + OptionalRow(Truthy(form.productType), ProductCaption, ProductTypeLabel(Or(form.productType, "")))
    + OptionalRow(Truthy(form.coverageArea), CoverageCaption, CoverageAreaLabel(Or(form.coverageArea, "")))
  }

  predicate HasRow(rows: seq<Row>, caption: string) {
    exists i :: 0 <= i < |rows| && rows[i].caption == caption
  }

  lemma HasRowConcat(a: seq<Row>, b: seq<Row>, caption: string)
    ensures HasRow(a + b, caption) <==> HasRow(a, caption) || HasRow(b, caption)
  {
    if HasRow(a + b, caption) {
      var i :| 0 <= i < |a + b| && (a + b)[i].caption == caption;
      if i < |a| {
        assert a[i].caption == caption;
      } else {
        assert b[i - |a|].caption == caption;
      }
    }
    if HasRow(a, caption) {
      var i :| 0 <= i < |a| && a[i].caption == caption;
      assert (a + b)[i].caption == caption;
    }
    if HasRow(b, caption) {
      var i :| 0 <= i < |b| && b[i].caption == caption;
      assert (a + b)[|a| + i].caption == caption;
    }
  }

  lemma HasOptionalRow(shown: bool, caption: string, value: string, wanted: string)
    ensures HasRow(OptionalRow(shown, caption, value), wanted) <==> shown && caption == wanted
  {
    if shown && caption == wanted {
      assert OptionalRow(shown, caption, value)[0].caption == wanted;
    }
  }

  /** Which captions the details section shows: the three fixed ones and the optional ones whose field is truthy. */
  lemma DetailRowCaptions(form: SupplierForm, wanted: string)
    ensures HasRow(DetailRows(form), wanted) <==>
      || wanted == "Empresa" || wanted == "Nombre" || wanted == "Email"
      || (wanted == PhoneCaption && Truthy(form.phone))
      || (wanted == ProductCaption && Truthy(form.productType))
      || (wanted == CoverageCaption && Truthy(form.coverageArea))
  {
    var fixed := [Row("Empresa", RenderChild(form.companyName)),
                  Row("Nombre", RenderChild(form.contactName)),
                  Row("Email", RenderChild(form.email))];
    var phone := OptionalRow(Truthy(form.phone), PhoneCaption, Or(form.phone, ""));
    var product := OptionalRow(Truthy(form.productType), ProductCaption, ProductTypeLabel(Or(form.productType, "")));
    var coverage := OptionalRow(Truthy(form.coverageArea), CoverageCaption, CoverageAreaLabel(Or(form.coverageArea, "")));
    assert DetailRows(form) == fixed + phone + product + coverage;
    HasRowConcat(fixed, phone, wanted);
    HasRowConcat(fixed + phone, product, wanted);
    HasRowConcat(fixed + phone + product, coverage, wanted);
    HasOptionalRow(Truthy(form.phone), PhoneCaption, Or(form.phone, ""), wanted);
    HasOptionalRow(Truthy(form.productType), ProductCaption, ProductTypeLabel(Or(form.productType, "")), wanted);
    HasOptionalRow(Truthy(form.coverageArea), CoverageCaption, CoverageAreaLabel(Or(form.coverageArea, "")), wanted);
    assert HasRow(fixed, wanted) <==> wanted == "Empresa" || wanted == "Nombre" || wanted == "Email" by {
      if wanted == "Empresa" { assert fixed[0].caption == wanted; }
      if wanted == "Nombre" { assert fixed[1].caption == wanted; }
      if wanted == "Email" { assert fixed[2].caption == wanted; }
    }
  }

  /** Each optional line is shown exactly when its field is truthy. */
  lemma OptionalRowShownIffTruthy(form: SupplierForm)
    ensures HasRow(DetailRows(form), PhoneCaption) <==> Truthy(form.phone)
    ensures HasRow(DetailRows(form), ProductCaption) <==> Truthy(form.productType)
    ensures HasRow(DetailRows(form), CoverageCaption) <==> Truthy(form.coverageArea)
  {
    DetailRowCaptions(form, PhoneCaption);
    DetailRowCaptions(form, ProductCaption);
    DetailRowCaptions(form, CoverageCaption);
  }

  /** `SupplierEmail({ supplierForm })`, as the texts it shows. */
  function Render(form: SupplierForm): Thanks {
    Thanks(RenderChild(form.contactName), RenderChild(form.companyName), DetailRows(form))
  }

  /** `message` is declared in the props but never shown: forms differing only there render alike. */
  lemma RenderIgnoresMessage(f: SupplierForm, g: SupplierForm)
    requires f.(message := None) == g.(message := None)
    ensures Render(f) == Render(g)
  {
  }
}
