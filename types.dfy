/**
 * The invoice record shared by the editing page, the on-screen preview and
 * the exported document (types/index.ts, app/page.tsx InvoiceData).
 *
 * Numbers are exact reals: the contracts of the source are equalities such
 * as total = subtotal + subtotal * taxRate / 100, not floating-point facts.
 */
module Types {

  datatype Option<+T> = None | Some(value: T)

  /** JavaScript `s || fallback` on a string: the empty string is falsy. */
  function OrElse(s: string, fallback: string): (r: string)
    ensures s != "" ==> r == s
    ensures s == "" ==> r == fallback
  {
    if s != "" then s else fallback
  }

  /** A nullable string used in a JSX condition (`logo && ...`): null and "" are falsy. */
  predicate Truthy(s: Option<string>)
  {
    s.Some? && s.value != ""
  }

  datatype LineItem = LineItem(
    id: string,
    description: string,
    quantity: real,
    rate: real,
    amount: real)

  datatype TemplateColors = TemplateColors(primary: string, accent: string, background: string)

  /**
   * One invoice. `template` and `logoPosition` are strings because a record
   * loaded from a file is not checked against the declared unions.
   */
  datatype Invoice = Invoice(
    invoiceNumber: string,
    date: string,
    dueDate: string,
    companyName: string,
    companyAddress: string,
    companyEmail: string,
    companyPhone: string,
    clientName: string,
    clientAddress: string,
    clientEmail: string,
    lineItems: seq<LineItem>,
    subtotal: real,
    taxRate: real,
    taxAmount: real,
    total: real,
    notes: string,
    currency: string,
    template: string,
    templateColors: TemplateColors,
    showLogo: bool,
    logoPosition: string,
    logo: Option<string>)
}
