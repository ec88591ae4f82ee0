/**
 * The rules of the invoice editing page (app/page.tsx): totals, line-item
 * editing, drag-and-drop reordering, the saved-list upsert, numeric input
 * coercion, template and colour selection, and the on-screen preview's
 * logo alignment and totals block. Each handler is a function from the old
 * record to the new one; the stateful component that applies them is in
 * module InvoiceEditor.
 */
module InvoicePage {
  import opened Types
  import opened Templates
  import InvoicePdf

  // ----------------------------------------------------------------- totals

  /** `lineItems.reduce((sum, item) => sum + item.amount, 0)`, a left fold in stored order. */
  function Subtotal(items: seq<LineItem>): real
  {
    if items == [] then 0.0 else Subtotal(items[..|items| - 1]) + items[|items| - 1].amount
  }

  /** The three derived fields agree with the line items and the tax rate. */
  predicate TotalsConsistent(invoice: Invoice)
  {
    && invoice.subtotal == Subtotal(invoice.lineItems)
    && invoice.taxAmount == invoice.subtotal * (invoice.taxRate / 100.0)
    && invoice.total == invoice.subtotal + invoice.taxAmount
  }

  /** An item's amount is its quantity times its rate. */
  predicate Priced(item: LineItem)
  {
    item.amount == item.quantity * item.rate
  }

  /** Every item is priced. */
  predicate AmountsConsistent(items: seq<LineItem>)
  {
    forall i :: 0 <= i < |items| ==> Priced(items[i])
  }

  /** `calculateTotals`: rewrite subtotal, tax and total; nothing else changes. */
  function CalculateTotals(invoice: Invoice): (r: Invoice)
    ensures TotalsConsistent(r)
    ensures r.(subtotal := invoice.subtotal, taxAmount := invoice.taxAmount, total := invoice.total) == invoice
  {
    var subtotal := Subtotal(invoice.lineItems);
    var taxAmount := subtotal * (invoice.taxRate / 100.0);
    invoice.(subtotal := subtotal, taxAmount := taxAmount, total := subtotal + taxAmount)
  }

  // ------------------------------------------------------------- line items

  /** The item `addLineItem` creates; the id comes from the clock and is a parameter here. */
  function NewItem(id: string): LineItem
  {
    LineItem(id, "", 1.0, 0.0, 0.0)
  }

  /** `addLineItem`: append one fresh item. */
  function AddLineItem(invoice: Invoice, id: string): (r: Invoice)
    ensures |r.lineItems| == |invoice.lineItems| + 1
    ensures r.lineItems[..|invoice.lineItems|] == invoice.lineItems
    ensures r.lineItems[|invoice.lineItems|] == LineItem(id, "", 1.0, 0.0, 0.0)
    ensures r.(lineItems := invoice.lineItems) == invoice
  {
    invoice.(lineItems := invoice.lineItems + [NewItem(id)])
  }

  /** The fields the page edits: `updateLineItem(id, field, value)` with these three fields. */
  datatype Edit =
    | SetDescription(text: string)
    | SetQuantity(quantity: real)
    | SetRate(rate: real)

  /** `{ ...item, [field]: value }`, recomputing the amount for quantity and rate. */
  function ApplyEdit(item: LineItem, edit: Edit): (r: LineItem)
    ensures r.id == item.id
    ensures edit.SetDescription? ==> r == item.(description := edit.text)
    ensures edit.SetQuantity? ==>
      r == item.(quantity := edit.quantity, amount := edit.quantity * item.rate)
    ensures edit.SetRate? ==> r == item.(rate := edit.rate, amount := item.quantity * edit.rate)
  {
    match edit
    case SetDescription(text) => item.(description := text)
    case SetQuantity(q) =>
      var u := item.(quantity := q);
      u.(amount := u.quantity * u.rate)
    case SetRate(rt) =>
      var u := item.(rate := rt);
      u.(amount := u.quantity * u.rate)
  }

  /** `lineItems.map(...)`: apply the edit to every item with the given id. */
  function UpdateItems(items: seq<LineItem>, id: string, edit: Edit): (r: seq<LineItem>)
    ensures |r| == |items|
    ensures forall i :: 0 <= i < |items| ==>
      r[i] == (if items[i].id == id then ApplyEdit(items[i], edit) else items[i])
  {
    if items == [] then []
    else [if items[0].id == id then ApplyEdit(items[0], edit) else items[0]]
         + UpdateItems(items[1..], id, edit)
  }

  /** `updateLineItem`: only the line items change, and their number stays the same. */
  function UpdateLineItem(invoice: Invoice, id: string, edit: Edit): (r: Invoice)
    ensures r.(lineItems := invoice.lineItems) == invoice
    ensures |r.lineItems| == |invoice.lineItems|
  {
    invoice.(lineItems := UpdateItems(invoice.lineItems, id, edit))
  }

  /** `lineItems.filter((item) => item.id !== id)`. */
  function RemoveItems(items: seq<LineItem>, id: string): (r: seq<LineItem>)
    ensures forall it :: it in r ==> it in items && it.id != id
    ensures forall it :: it in items && it.id != id ==> it in r
  {
    if items == [] then []
    else (if items[0].id != id then [items[0]] else []) + RemoveItems(items[1..], id)
  }

  /** `removeLineItem`: only the line items change, and none is added. */
  function RemoveLineItem(invoice: Invoice, id: string): (r: Invoice)
    ensures r.(lineItems := invoice.lineItems) == invoice
    ensures forall it :: it in r.lineItems ==> it in invoice.lineItems
  {
    invoice.(lineItems := RemoveItems(invoice.lineItems, id))
  }

  /** The ids of the items, in order. */
  function ItemIds(items: seq<LineItem>): (r: seq<string>)
    ensures |r| == |items|
    ensures forall i :: 0 <= i < |items| ==> r[i] == items[i].id
  {
    if items == [] then [] else [items[0].id] + ItemIds(items[1..])
  }

  // ------------------------------------------------------------- reordering

  /** Where `Array.prototype.splice(start, ...)` starts in an array of length `len`. */
  function SpliceStart(start: int, len: nat): (r: nat)
    ensures r <= len
    ensures 0 <= start <= len ==> r == start
    ensures start > len ==> r == len
    ensures start < 0 && len + start >= 0 ==> r == len + start
    ensures len + start < 0 ==> r == 0
  {
    if start < 0 then (if len + start < 0 then 0 else len + start)
    else if start > len then len
    else start
  }

  /** Take the element at `from` out and insert it at `to` of what remains. */
  function Moved<T>(s: seq<T>, from: nat, to: nat): seq<T>
    requires from < |s| && to < |s|
  {
    var rest := s[..from] + s[from + 1..];
    rest[..to] + [s[from]] + rest[to..]
  }

  /**
   * `onDragEnd`: with no destination the list is unchanged; otherwise the
   * two `splice` calls move one element. The drag library only reports a
   * source index that names an element.
   */
  function Reordered(items: seq<LineItem>, source: int, destination: Option<int>): seq<LineItem>
    requires destination.Some? ==> SpliceStart(source, |items|) < |items|
  {
    match destination
    case None => items
    case Some(d) => Moved(items, SpliceStart(source, |items|), SpliceStart(d, |items| - 1))
  }

  // ------------------------------------------------------------ saved list

  /** `findIndex` by invoice number: the first match, or -1. */
  function FindIndex(invoices: seq<Invoice>, number: string): (r: int)
    ensures -1 <= r < |invoices|
    ensures r >= 0 ==> invoices[r].invoiceNumber == number
    ensures r >= 0 ==> forall j :: 0 <= j < r ==> invoices[j].invoiceNumber != number
    ensures r == -1 <==> forall j :: 0 <= j < |invoices| ==> invoices[j].invoiceNumber != number
  {
    if invoices == [] then -1
    else if invoices[0].invoiceNumber == number then 0
    else
      var k := FindIndex(invoices[1..], number);
      assert forall j :: 1 <= j < |invoices| ==> invoices[j] == invoices[1..][j - 1];
      if k < 0 then -1 else k + 1
  }

  /** The saved list after `saveInvoice`: replace the first match or append. */
  function Upserted(invoices: seq<Invoice>, invoice: Invoice): seq<Invoice>
  {
    var k := FindIndex(invoices, invoice.invoiceNumber);
    if k >= 0 then invoices[k := invoice] else invoices + [invoice]
  }

  /** No two saved records share an invoice number. */
  predicate UniqueNumbers(invoices: seq<Invoice>)
  {
    forall i, j :: 0 <= i < j < |invoices| ==> invoices[i].invoiceNumber != invoices[j].invoiceNumber
  }

  // ------------------------------------------------- inputs and selections

  /** `Number.parseFloat(text) || 0`: NaN (`None`) and zero give 0, anything else is kept. */
  function Coerce(parsed: Option<real>): (r: real)
    ensures parsed.None? ==> r == 0.0
    ensures parsed.Some? ==> r == parsed.value
  {
    match parsed
    case None => 0.0
    case Some(v) => if v == 0.0 then 0.0 else v
  }

  /** `onSelectTemplate`: keep the id as given and copy the looked-up template's colours. */
  function SelectTemplate(invoice: Invoice, templateId: string): (r: Invoice)
    ensures r.(template := invoice.template, templateColors := invoice.templateColors) == invoice
  {
    var t := GetTemplateById(templateId);
    invoice.(template := templateId,
             templateColors := TemplateColors(t.primaryColor, t.accentColor, t.backgroundColor))
  }

  datatype ColorSlot = Primary | Accent | Background

  /** The three colour pickers' `onChange`: replace one colour, keep the other two. */
  function SetColor(invoice: Invoice, slot: ColorSlot, color: string): (r: Invoice)
    ensures r.(templateColors := invoice.templateColors) == invoice
    ensures slot.Primary? ==> r.templateColors == invoice.templateColors.(primary := color)
    ensures slot.Accent? ==> r.templateColors == invoice.templateColors.(accent := color)
    ensures slot.Background? ==> r.templateColors == invoice.templateColors.(background := color)
  {
    var c := invoice.templateColors;
    invoice.(templateColors :=
      match slot
      case Primary => c.(primary := color)
      case Accent => c.(accent := color)
      case Background => c.(background := color))
  }

  /** The currency list of the settings tab: (code, symbol). */
  const Currencies: seq<(string, string)> :=
    [("INR", "₹"), ("USD", "$"), ("EUR", "€"), ("GBP", "£"), ("JPY", "¥"), ("CAD", "C$")]

  /** `currencies.find((c) => c.code === code)?.symbol`. */
  function SymbolOf(list: seq<(string, string)>, code: string): (r: Option<string>)
    ensures r.Some? ==> exists i :: 0 <= i < |list| && list[i] == (code, r.value)
    ensures r.None? ==> forall i :: 0 <= i < |list| ==> list[i].0 != code
  {
    if list == [] then None
    else if list[0].0 == code then Some(list[0].1)
    else
      var r := SymbolOf(list[1..], code);
      assert forall i :: 1 <= i < |list| ==> list[i] == list[1..][i - 1];
      r
  }

  /** `selectedCurrency?.symbol || '$'`: the text the page's export puts before amounts. */
  function ExportCurrency(code: string): (r: string)
    ensures r != ""
    ensures SymbolOf(Currencies, code).None? ==> r == "$"
  {
    match SymbolOf(Currencies, code)
    case Some(s) => OrElse(s, "$")
    case None => "$"
  }

  /** The free-text fields the page binds to inputs and selects. */
  datatype TextField =
    | InvoiceNumber | Date | DueDate
    | CompanyName | CompanyAddress | CompanyEmail | CompanyPhone
    | ClientName | ClientAddress | ClientEmail
    | Notes | Currency | LogoPosition

  function Text(invoice: Invoice, field: TextField): string
  {
    match field
    case InvoiceNumber => invoice.invoiceNumber
    case Date => invoice.date
    case DueDate => invoice.dueDate
    case CompanyName => invoice.companyName
    case CompanyAddress => invoice.companyAddress
    case CompanyEmail => invoice.companyEmail
    case CompanyPhone => invoice.companyPhone
    case ClientName => invoice.clientName
    case ClientAddress => invoice.clientAddress
    case ClientEmail => invoice.clientEmail
    case Notes => invoice.notes
    case Currency => invoice.currency
    case LogoPosition => invoice.logoPosition
  }

  /** `setInvoice((prev) => ({ ...prev, [field]: value }))` for one text field. */
  function SetText(invoice: Invoice, field: TextField, value: string): (r: Invoice)
    ensures Text(r, field) == value
    ensures forall g :: g != field ==> Text(r, g) == Text(invoice, g)
    ensures r.lineItems == invoice.lineItems && r.taxRate == invoice.taxRate
    ensures r.subtotal == invoice.subtotal && r.taxAmount == invoice.taxAmount && r.total == invoice.total
    ensures r.template == invoice.template && r.templateColors == invoice.templateColors
    ensures r.showLogo == invoice.showLogo && r.logo == invoice.logo
  {
    match field
    case InvoiceNumber => invoice.(invoiceNumber := value)
    case Date => invoice.(date := value)
    case DueDate => invoice.(dueDate := value)
    case CompanyName => invoice.(companyName := value)
    case CompanyAddress => invoice.(companyAddress := value)
    case CompanyEmail => invoice.(companyEmail := value)
    case CompanyPhone => invoice.(companyPhone := value)
    case ClientName => invoice.(clientName := value)
    case ClientAddress => invoice.(clientAddress := value)
    case ClientEmail => invoice.(clientEmail := value)
    case Notes => invoice.(notes := value)
    case Currency => invoice.(currency := value)
    case LogoPosition => invoice.(logoPosition := value)
  }

  /** `s.slice(-6)`: the last six characters, or all of a shorter string. */
  function LastSix(s: string): (r: string)
    ensures |r| == if |s| < 6 then |s| else 6
    ensures s == s[..|s| - |r|] + r
  {
    if |s| < 6 then s else s[|s| - 6..]
  }

  /** `INV-` followed by the last six digits of the clock reading, given here as its decimal text. */
  function NewInvoiceNumber(clockDigits: string): (r: string)
    ensures 4 <= |r| <= 10 && r[..4] == "INV-"
    ensures r[4..] == LastSix(clockDigits)
  {
    var r := "INV-" + LastSix(clockDigits);
    assert r[..4] == "INV-" && r[4..] == LastSix(clockDigits);
    r
  }

  /** The page's starting record; the number and dates come from the clock and are parameters. */
  function InitialInvoice(number: string, date: string, dueDate: string): Invoice
  {
    Invoice(number, date, dueDate, "", "", "", "", "", "", "", [], 0.0, 0.0, 0.0, 0.0, "", "USD",
            "modern", TemplateColors("#3b82f6", "#2563eb", "#ffffff"), false, "left", None)
  }

  // ------------------------------------------------------------- rendering

  /** The logo block's flex alignment in the on-screen preview. */
  function LogoAlignment(position: string): (r: string)
    ensures position == "center" ==> r == "justify-center"
    ensures position == "right" ==> r == "justify-end"
    ensures position != "center" && position != "right" ==> r == "justify-start"
  {
    if position == "center" then "justify-center"
    else if position == "right" then "justify-end"
    else "justify-start"
  }

  /**
   * The preview's logo block: shown only for a truthy logo, with the
   * alignment of its position; `None` when no logo block is rendered.
   */
  function PreviewLogo(invoice: Invoice): (r: Option<string>)
    ensures r.Some? <==> Truthy(invoice.logo)
    ensures r.Some? ==> r.value == LogoAlignment(invoice.logoPosition)
  {
    if Truthy(invoice.logo) then Some(LogoAlignment(invoice.logoPosition)) else None
  }

  /** The preview resolves its styles through the registry lookup, so an unknown id gets the first entry's. */
  function PreviewStyles(invoice: Invoice): TemplateStyles
  {
    GetTemplateStyles(GetTemplateById(invoice.template))
  }

  /** `currency?.symbol` in the preview: nothing is printed for a code missing from the list. */
  function PreviewSymbol(code: string): string
  {
    match SymbolOf(Currencies, code)
    case Some(s) => s
    case None => ""
  }

  /** The preview's totals block: always Subtotal, Tax and Total, from the stored fields. */
  function PreviewTotals(invoice: Invoice): seq<InvoicePdf.TotalLine>
  {
    [ InvoicePdf.SubtotalLine(invoice.subtotal),
      InvoicePdf.TaxLine(invoice.taxRate, invoice.taxAmount),
      InvoicePdf.GrandTotalLine(invoice.total) ]
  }

  /** The page's Download PDF link: symbol from the currency list, no template id (so "modern"). */
  function PageExport(invoice: Invoice): InvoicePdf.Document
  {
    InvoicePdf.Render(invoice, ExportCurrency(invoice.currency), None)
  }

  /** The page's download file name; an empty number is not replaced. */
  function PageFileName(invoice: Invoice): string
  {
    "invoice-" + invoice.invoiceNumber + ".pdf"
  }

  /** The stand-alone download button's file name, with an "untitled" fallback. */
  function ButtonFileName(invoice: Invoice): (r: string)
    ensures invoice.invoiceNumber != "" ==> r == PageFileName(invoice)
    ensures invoice.invoiceNumber == "" ==> r == "invoice-untitled.pdf"
  {
    "invoice-" + OrElse(invoice.invoiceNumber, "untitled") + ".pdf"
  }

  /** The stand-alone download button: currency code as the symbol, template id with a "default" fallback. */
  function ButtonExport(invoice: Invoice): InvoicePdf.Document
  {
    InvoicePdf.Render(invoice, OrElse(invoice.currency, "$"), Some(OrElse(invoice.template, "default")))
  }

  // ================================================================ lemmas

  lemma {:induction false} SubtotalAppend(a: seq<LineItem>, b: seq<LineItem>)
    ensures Subtotal(a + b) == Subtotal(a) + Subtotal(b)
    decreases |b|
  {
    if b == [] {
      assert a + b == a;
    } else {
      var b' := b[..|b| - 1];
      assert (a + b)[..|a + b| - 1] == a + b';
      SubtotalAppend(a, b');
    }
  }

  /** Appending an item adds its amount; a fresh item has amount 0, so totals are unchanged. */
  lemma AddKeepsTotals(invoice: Invoice, id: string)
    ensures Subtotal(AddLineItem(invoice, id).lineItems) == Subtotal(invoice.lineItems)
    ensures AmountsConsistent(invoice.lineItems) ==> AmountsConsistent(AddLineItem(invoice, id).lineItems)
  {
    assert AddLineItem(invoice, id).lineItems[..|invoice.lineItems|] == invoice.lineItems;
  }

  /** Adding an item with a fresh id and removing that id gives back the original list. */
  lemma {:induction false} RemoveUndoesAdd(items: seq<LineItem>, id: string)
    requires id !in ItemIds(items)
    ensures RemoveItems(items + [NewItem(id)], id) == items
  {
    if items == [] {
      assert [NewItem(id)][1..] == [];
    } else {
      assert (items + [NewItem(id)])[1..] == items[1..] + [NewItem(id)];
      assert ItemIds(items)[0] == items[0].id;
      assert id !in ItemIds(items[1..]) by {
        forall k | 0 <= k < |items[1..]| ensures ItemIds(items[1..])[k] != id {
          assert ItemIds(items[1..])[k] == ItemIds(items)[k + 1];
        }
      }
      RemoveUndoesAdd(items[1..], id);
    }
  }

  /** Removal keeps the relative order: it distributes over concatenation. */
  lemma {:induction false} RemoveDistributes(a: seq<LineItem>, b: seq<LineItem>, id: string)
    ensures RemoveItems(a + b, id) == RemoveItems(a, id) + RemoveItems(b, id)
  {
    if a == [] {
      assert a + b == b;
    } else {
      assert (a + b)[1..] == a[1..] + b;
      RemoveDistributes(a[1..], b, id);
    }
  }

  /** After removal no item has the id, and every item without it is kept. */
  lemma RemoveDropsExactly(invoice: Invoice, id: string)
    ensures forall it :: it in RemoveLineItem(invoice, id).lineItems ==> it.id != id
    ensures forall it :: it in invoice.lineItems ==> (it in RemoveLineItem(invoice, id).lineItems <==> it.id != id)
    ensures RemoveLineItem(invoice, id).(lineItems := invoice.lineItems) == invoice
  {
  }

  /** An edit touches only the items with the id; ids and order never change. */
  lemma UpdateTouchesOnlyId(invoice: Invoice, id: string, edit: Edit)
    ensures var r := UpdateLineItem(invoice, id, edit).lineItems;
      && ItemIds(r) == ItemIds(invoice.lineItems)
      && (forall i :: 0 <= i < |r| && invoice.lineItems[i].id != id ==> r[i] == invoice.lineItems[i])
      && (forall i :: 0 <= i < |r| && invoice.lineItems[i].id == id ==>
            r[i] == ApplyEdit(invoice.lineItems[i], edit))
    ensures UpdateLineItem(invoice, id, edit).(lineItems := invoice.lineItems) == invoice
  {
  }

  /** A quantity or rate edit resets the amount; a description edit leaves it alone. */
  lemma EditAmount(item: LineItem, edit: Edit)
    ensures !edit.SetDescription? ==> Priced(ApplyEdit(item, edit))
    ensures edit.SetDescription? ==> ApplyEdit(item, edit).amount == item.amount
  {
  }

  /** Every edit the page makes keeps amount = quantity × rate for every item. */
  lemma UpdateKeepsAmounts(items: seq<LineItem>, id: string, edit: Edit)
    requires AmountsConsistent(items)
    ensures AmountsConsistent(UpdateItems(items, id, edit))
  {
    var r := UpdateItems(items, id, edit);
    forall i | 0 <= i < |r| ensures Priced(r[i]) {
      if items[i].id == id {
        EditAmount(items[i], edit);
      }
    }
  }

  /** Removing items keeps amount = quantity × rate for the remaining ones. */
  lemma RemoveKeepsAmounts(items: seq<LineItem>, id: string)
    requires AmountsConsistent(items)
    ensures AmountsConsistent(RemoveItems(items, id))
  {
    var r := RemoveItems(items, id);
    forall i | 0 <= i < |r| ensures Priced(r[i]) {
      assert r[i] in items;
    }
  }

  /** The element positions after a move. */
  lemma MovedAt<T>(s: seq<T>, from: nat, to: nat, i: nat)
    requires from < |s| && to < |s| && i < |s|
    ensures |Moved(s, from, to)| == |s|
    ensures Moved(s, from, to)[i] ==
      if i == to then s[from]
      else if from <= to && from <= i < to then s[i + 1]
      else if to < from && to < i <= from then s[i - 1]
      else s[i]
  {
  }

  /** A move is a permutation of the same length with the moved element at the destination. */
  lemma MovedIsPermutation<T>(s: seq<T>, from: nat, to: nat)
    requires from < |s| && to < |s|
    ensures |Moved(s, from, to)| == |s|
    ensures Moved(s, from, to)[to] == s[from]
    ensures multiset(Moved(s, from, to)) == multiset(s)
  {
    var rest := s[..from] + s[from + 1..];
    assert s == s[..from] + [s[from]] + s[from + 1..];
    assert rest == rest[..to] + rest[to..];
    calc {
      multiset(Moved(s, from, to));
      multiset(rest[..to]) + multiset([s[from]]) + multiset(rest[to..]);
      multiset(rest) + multiset([s[from]]);
      multiset(s[..from]) + multiset(s[from + 1..]) + multiset([s[from]]);
      multiset(s);
    }
  }

  /** Dragging the element back to where it came from restores the list. */
  lemma MoveBack<T>(s: seq<T>, from: nat, to: nat)
    requires from < |s| && to < |s|
    ensures Moved(Moved(s, from, to), to, from) == s
  {
    var m := Moved(s, from, to);
    forall i | 0 <= i < |s| ensures Moved(m, to, from)[i] == s[i] {
      MovedAt(m, to, from, i);
      if i == from {
        MovedAt(s, from, to, to);
      } else if to <= from && to <= i < from {
        MovedAt(s, from, to, i + 1);
      } else if from < to && from < i <= to {
        MovedAt(s, from, to, i - 1);
      } else {
        MovedAt(s, from, to, i);
      }
    }
    MovedAt(m, to, from, 0);
  }

  /** Putting an element back where it was taken from gives the original list. */
  lemma RemoveThenInsert<T>(s: seq<T>, from: nat)
    requires from < |s|
    ensures var rest := s[..from] + s[from + 1..];
      s == rest[..from] + [s[from]] + rest[from..]
  {
    var rest := s[..from] + s[from + 1..];
    assert rest[..from] == s[..from];
    assert rest[from..] == s[from + 1..];
  }

  /** Inserting an item anywhere adds its amount to the subtotal. */
  lemma SubtotalInsert(r: seq<LineItem>, x: LineItem, t: nat)
    requires t <= |r|
    ensures Subtotal(r[..t] + [x] + r[t..]) == Subtotal(r) + x.amount
  {
    SubtotalAppend(r[..t] + [x], r[t..]);
    SubtotalAppend(r[..t], [x]);
    SubtotalAppend(r[..t], r[t..]);
    assert r == r[..t] + r[t..];
  }

  /** A move does not change the subtotal. */
  lemma MovedKeepsSubtotal(s: seq<LineItem>, from: nat, to: nat)
    requires from < |s| && to < |s|
    ensures Subtotal(Moved(s, from, to)) == Subtotal(s)
  {
    var rest := s[..from] + s[from + 1..];
    RemoveThenInsert(s, from);
    SubtotalInsert(rest, s[from], from);
    SubtotalInsert(rest, s[from], to);
  }

  /** `onDragEnd` leaves the list alone without a destination and otherwise permutes it; totals are kept. */
  lemma ReorderKeepsTotals(items: seq<LineItem>, source: int, destination: Option<int>)
    requires destination.Some? ==> SpliceStart(source, |items|) < |items|
    ensures destination.None? ==> Reordered(items, source, destination) == items
    ensures multiset(Reordered(items, source, destination)) == multiset(items)
    ensures |Reordered(items, source, destination)| == |items|
    ensures Subtotal(Reordered(items, source, destination)) == Subtotal(items)
    ensures AmountsConsistent(items) ==> AmountsConsistent(Reordered(items, source, destination))
  {
    if destination.Some? {
      var f, t := SpliceStart(source, |items|), SpliceStart(destination.value, |items| - 1);
      MovedIsPermutation(items, f, t);
      MovedKeepsSubtotal(items, f, t);
      var r := Moved(items, f, t);
      if AmountsConsistent(items) {
        forall i | 0 <= i < |r| ensures Priced(r[i]) {
          assert r[i] in multiset(items);
          var j :| 0 <= j < |items| && items[j] == r[i];
        }
      }
    }
  }

  /** Reordering keeps consistent totals consistent. */
  lemma ReorderKeepsConsistency(invoice: Invoice, source: int, destination: Option<int>)
    requires TotalsConsistent(invoice)
    requires destination.Some? ==> SpliceStart(source, |invoice.lineItems|) < |invoice.lineItems|
    ensures TotalsConsistent(invoice.(lineItems := Reordered(invoice.lineItems, source, destination)))
  {
    var items := Reordered(invoice.lineItems, source, destination);
    if destination.Some? {
      MovedKeepsSubtotal(invoice.lineItems, SpliceStart(source, |invoice.lineItems|),
                         SpliceStart(destination.value, |invoice.lineItems| - 1));
    }
    assert Subtotal(items) == Subtotal(invoice.lineItems);
  }

  /** A record with the same number replaces the first match in place. */
  lemma UpsertReplaces(invoices: seq<Invoice>, invoice: Invoice)
    requires exists j :: 0 <= j < |invoices| && invoices[j].invoiceNumber == invoice.invoiceNumber
    ensures var k := FindIndex(invoices, invoice.invoiceNumber);
      && 0 <= k < |invoices|
      && Upserted(invoices, invoice) == invoices[k := invoice]
      && |Upserted(invoices, invoice)| == |invoices|
      && forall j :: 0 <= j < k ==> invoices[j].invoiceNumber != invoice.invoiceNumber
  {
  }

  /** A new number is appended: the list grows by exactly one. */
  lemma UpsertAppends(invoices: seq<Invoice>, invoice: Invoice)
    requires forall j :: 0 <= j < |invoices| ==> invoices[j].invoiceNumber != invoice.invoiceNumber
    ensures Upserted(invoices, invoice) == invoices + [invoice]
    ensures |Upserted(invoices, invoice)| == |invoices| + 1
  {
  }

  /** Whatever the list held before, the saved record is in it afterwards. */
  lemma UpsertContains(invoices: seq<Invoice>, invoice: Invoice)
    ensures invoice in Upserted(invoices, invoice)
  {
    var k := FindIndex(invoices, invoice.invoiceNumber);
    if k < 0 {
      assert Upserted(invoices, invoice)[|invoices|] == invoice;
    } else {
      assert Upserted(invoices, invoice)[k] == invoice;
    }
  }

  /** Saving never duplicates an invoice number. */
  lemma UpsertKeepsUnique(invoices: seq<Invoice>, invoice: Invoice)
    requires UniqueNumbers(invoices)
    ensures UniqueNumbers(Upserted(invoices, invoice))
    ensures invoice in Upserted(invoices, invoice)
  {
    var k := FindIndex(invoices, invoice.invoiceNumber);
    if k < 0 {
      assert Upserted(invoices, invoice)[|invoices|] == invoice;
    } else {
      assert Upserted(invoices, invoice)[k] == invoice;
    }
  }

  /** The first-match index is determined by its two defining facts. */
  lemma FirstMatch(invoices: seq<Invoice>, number: string, k: nat)
    requires k < |invoices| && invoices[k].invoiceNumber == number
    requires forall j :: 0 <= j < k ==> invoices[j].invoiceNumber != number
    ensures FindIndex(invoices, number) == k
  {
  }

  /** Saving the same record twice is the same as saving it once. */
  lemma UpsertIdempotent(invoices: seq<Invoice>, invoice: Invoice)
    ensures Upserted(Upserted(invoices, invoice), invoice) == Upserted(invoices, invoice)
  {
    var k := FindIndex(invoices, invoice.invoiceNumber);
    var once := Upserted(invoices, invoice);
    if k >= 0 {
      FirstMatch(once, invoice.invoiceNumber, k);
    } else {
      FirstMatch(once, invoice.invoiceNumber, |invoices|);
    }
  }

  /** The starting record has no items, zero consistent totals and the "modern" entry's colours. */
  lemma InitialInvoiceShape(number: string, date: string, dueDate: string)
    ensures var inv := InitialInvoice(number, date, dueDate);
      && inv.lineItems == [] && inv.total == 0.0
      && TotalsConsistent(inv) && AmountsConsistent(inv.lineItems)
      && SelectTemplate(inv, inv.template) == inv
      && PreviewLogo(inv).None?
  {
    GetTemplateByIdCases("modern");
    RegistryShape();
  }

  /** Editing a text field never disturbs the totals. */
  lemma SetTextKeepsTotals(invoice: Invoice, field: TextField, value: string)
    requires TotalsConsistent(invoice)
    ensures TotalsConsistent(SetText(invoice, field, value))
  {
  }

  /** Unparsable text becomes 0 and negative numbers pass through. */
  lemma CoerceCases(v: real)
    ensures Coerce(None) == 0.0
    ensures Coerce(Some(v)) == v
    ensures v < 0.0 ==> Coerce(Some(v)) < 0.0
  {
  }

  /** Choosing a template copies its registry colours; an unknown id keeps its name with the first entry's colours. */
  lemma SelectTemplateColors(invoice: Invoice, templateId: string)
    ensures var r := SelectTemplate(invoice, templateId);
      && r.template == templateId
      && (templateId in Ids(Registry) ==>
            exists t :: t in Registry && t.id == templateId
              && r.templateColors == TemplateColors(t.primaryColor, t.accentColor, t.backgroundColor))
      && (templateId !in Ids(Registry) ==> r.templateColors == TemplateColors("#3b82f6", "#2563eb", "#ffffff"))
  {
    GetTemplateByIdCases(templateId);
  }

  /** The on-screen subtotal equals the document's when every amount is quantity × rate. */
  lemma {:induction false} ScreenSubtotalMatchesDocument(items: seq<LineItem>)
    requires AmountsConsistent(items)
    ensures Subtotal(items) == InvoicePdf.PdfSubtotal(items)
  {
    if items != [] {
      var n := |items| - 1;
      assert AmountsConsistent(items[..n]);
      ScreenSubtotalMatchesDocument(items[..n]);
    }
  }

  /** With consistent totals, the document's totals lines carry the stored figures. */
  lemma TotalLinesMatchPreview(invoice: Invoice)
    requires TotalsConsistent(invoice)
    ensures var p := PreviewTotals(invoice);
      InvoicePdf.TotalLines(invoice.subtotal, invoice.taxRate)
        == (if invoice.taxRate > 0.0 then p else [p[0], p[2]])
  {
    var lines := InvoicePdf.TotalLines(invoice.subtotal, invoice.taxRate);
    var p := PreviewTotals(invoice);
    if invoice.taxRate > 0.0 {
      assert |lines| == 3 && lines[0] == p[0] && lines[1] == p[1] && lines[2] == p[2];
    } else {
      assert |lines| == 2 && lines[0] == p[0] && lines[1] == p[2];
    }
  }

  /**
   * With consistent amounts and totals, the exported totals block is the
   * preview's, except that the preview always shows the tax line and the
   * document drops it when the rate is not positive.
   */
  lemma DocumentTotalsMatchPreview(invoice: Invoice, currency: string, templateId: Option<string>)
    requires AmountsConsistent(invoice.lineItems) && TotalsConsistent(invoice)
    ensures var p := PreviewTotals(invoice);
      InvoicePdf.Render(invoice, currency, templateId).sections[4]
        == InvoicePdf.Totals(if invoice.taxRate > 0.0 then p else [p[0], p[2]])
  {
    ScreenSubtotalMatchesDocument(invoice.lineItems);
    TotalLinesMatchPreview(invoice);
    assert InvoicePdf.Sections(invoice)[4]
        == InvoicePdf.Totals(InvoicePdf.TotalLines(invoice.subtotal, invoice.taxRate));
  }

  /** The page's export always uses the invoice's own colours, whatever template is selected. */
  lemma PageExportUsesInvoiceColors(invoice: Invoice)
    ensures PageExport(invoice).palette.primary == OrElse(invoice.templateColors.primary, "#3b82f6")
    ensures PageExport(invoice).palette.accent == OrElse(invoice.templateColors.accent, "#2563eb")
    ensures PageExport(invoice).currency == ExportCurrency(invoice.currency)
  {
  }

  /** The preview never reaches the resolver's default branch: an unknown id is styled as "modern". */
  lemma PreviewStylesRegistered(invoice: Invoice)
    ensures invoice.template !in Ids(Registry) ==> PreviewStyles(invoice) == GetTemplateStyles(Modern)
    ensures PreviewStyles(invoice).pdf.Some? <==> invoice.template == "modern" || invoice.template !in Ids(Registry)
  {
    GetTemplateByIdCases(invoice.template);
  }

  /** For a listed code the preview and the export print the same symbol; otherwise "" against "$". */
  lemma PreviewAndExportSymbols(code: string)
    ensures (exists i :: 0 <= i < |Currencies| && Currencies[i].0 == code) ==>
      PreviewSymbol(code) == ExportCurrency(code) && PreviewSymbol(code) != ""
    ensures (forall i :: 0 <= i < |Currencies| ==> Currencies[i].0 != code) ==>
      PreviewSymbol(code) == "" && ExportCurrency(code) == "$"
  {
    var r := SymbolOf(Currencies, code);
    if r.Some? {
      var i :| 0 <= i < |Currencies| && Currencies[i] == (code, r.value);
      assert Currencies[i].1 != "";
    }
  }

  /** With an empty number the page names the file "invoice-.pdf"; the button says "untitled". */
  lemma EmptyNumberFileNames(invoice: Invoice)
    requires invoice.invoiceNumber == ""
    ensures PageFileName(invoice) == "invoice-.pdf"
    ensures ButtonFileName(invoice) == "invoice-untitled.pdf"
    ensures PageFileName(invoice) != ButtonFileName(invoice)
  {
  }

  /** The download button renders a non-modern template with the default palette. */
  lemma ButtonExportDefaultPalette(invoice: Invoice)
    requires invoice.template != "modern"
    ensures ButtonExport(invoice).palette == DefaultPdfColors
    ensures ButtonExport(invoice).currency == OrElse(invoice.currency, "$")
  {
  }
}
