/**
 * The few pieces of JavaScript value semantics that the form handlers and the
 * e-mail templates depend on, stated for string-valued form fields:
 * truthiness (`!x`), the `||` fallback, template-literal interpolation
 * (`${x}`), what a React text child renders, and looking a code up in an
 * object literal used as a table (`table[code] || code`).
 */
module Js {

  datatype Option<+T> = None | Some(value: T)

  /** A field of the parsed JSON body: absent (`undefined`) or a string. */
  type Field = Option<string>

  /** `!!f`: an absent field and the empty string are falsy, every other string is truthy. */
  predicate Truthy(f: Field) {
    f.Some? && f.value != ""
  }

  /** `f || fallback`. */
  function Or(f: Field, fallback: string): string {
    if Truthy(f) then f.value else fallback
  }

  /** `${f}` inside a template literal: an absent field prints as "undefined". */
  function Interpolate(f: Field): string {
    match f
    case None => "undefined"
    case Some(s) => s
  }

  /** `{f}` as a React text child: an absent field renders nothing. */
  function RenderChild(f: Field): string {
    match f
    case None => ""
    case Some(s) => s
  }

  /** Every label of a lookup table is a non-empty (so truthy) string. */
  ghost predicate LabelsNonEmpty(table: map<string, string>) {
    forall code :: code in table ==> table[code] != ""
  }

  /**
   * `table[code] || code`, reading only the table's own entries: a code with a
   * truthy label gives that label, and every other code gives itself.
   */
  function LookupOr(table: map<string, string>, code: string): (shown: string)
    ensures code in table && table[code] != "" ==> shown == table[code]
    ensures code !in table ==> shown == code
    ensures shown == code || (code in table && shown == table[code])
    ensures LabelsNonEmpty(table) && code != "" ==> shown != ""
  {
    if code in table && table[code] != "" then table[code] else code
  }

  // ---------------------------------------------------------------------------
  // The same lookup as JavaScript evaluates it on an object literal.
  // ---------------------------------------------------------------------------

  /** The property names every object literal inherits from `Object.prototype`. */
  const ObjectPrototypeMembers: set<string> := {
    "constructor", "hasOwnProperty", "isPrototypeOf", "propertyIsEnumerable",
    "toLocaleString", "toString", "valueOf", "__proto__",
    "__defineGetter__", "__defineSetter__", "__lookupGetter__", "__lookupSetter__"
  }

  /** What `table[code] || code` yields: a string, or an inherited member (a function or `Object.prototype`). */
  datatype LookupValue = Text(s: string) | Inherited(name: string)

  /**
   * `table[code] || code` on an object literal: an own entry shadows the
   * prototype, an inherited member is truthy and so is returned instead of
   * the code, and only a code found nowhere falls back to itself.
   */
  function LookupAsWritten(table: map<string, string>, code: string): (v: LookupValue)
    ensures v.Inherited? <==> code !in table && code in ObjectPrototypeMembers
  {
    if code in table && table[code] != "" then Text(table[code])
    else if code !in table && code in ObjectPrototypeMembers then Inherited(code)
    else Text(code)
  }

  /** Away from the inherited names, the lookup as written and the corrected lookup agree. */
  lemma LookupAgreesOffPrototype(table: map<string, string>, code: string)
    requires code !in ObjectPrototypeMembers
    ensures LookupAsWritten(table, code) == Text(LookupOr(table, code))
  {
  }
}
