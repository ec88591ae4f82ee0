/**
 * The invoice page as a stateful component (app/page.tsx): the record being
 * edited and the list of saved records kept in browser storage. Every
 * handler that changes the line items or the tax rate is followed by the
 * page's effect that recomputes the totals, so the totals are consistent
 * after every handler.
 */
module InvoiceEditor {
  import opened Types
  import opened InvoicePage

  /**
   * The drop step of `onDragEnd` on the copied array: take the element at
   * `from` out and insert it at `to`, shifting the ones in between by one.
   */
  method MoveItem(a: array<LineItem>, from: nat, to: nat)
    requires from < a.Length && to < a.Length
    modifies a
    ensures a[..] == Moved(old(a[..]), from, to)
  {
    ghost var s := a[..];
    var moving := a[from];
    var i := from;
    if from <= to {
      while i < to
        invariant from <= i <= to && |s| == a.Length
        invariant forall k :: from <= k < i ==> a[k] == s[k + 1]
        invariant forall k :: 0 <= k < from || i <= k < a.Length ==> a[k] == s[k]
      {
        a[i] := a[i + 1];
        i := i + 1;
      }
    } else {
      while i > to
        invariant to <= i <= from && |s| == a.Length
        invariant forall k :: i < k <= from ==> a[k] == s[k - 1]
        invariant forall k :: 0 <= k <= i || from < k < a.Length ==> a[k] == s[k]
      {
        a[i] := a[i - 1];
        i := i - 1;
      }
    }
    a[to] := moving;
    forall k | 0 <= k < a.Length ensures a[k] == Moved(s, from, to)[k] {
      MovedAt(s, from, to, k);
      if k == to {
        assert a[k] == s[from];
      }
    }
    MovedAt(s, from, to, 0);
  }

  /** `invoices.findIndex((inv) => inv.invoiceNumber === number)`. */
  method FindInvoiceIndex(invoices: seq<Invoice>, number: string) returns (idx: int)
    ensures idx == FindIndex(invoices, number)
    ensures idx >= 0 ==> invoices[idx].invoiceNumber == number
  {
    var i := 0;
    while i < |invoices|
      invariant 0 <= i <= |invoices|
      invariant forall j :: 0 <= j < i ==> invoices[j].invoiceNumber != number
    {
      if invoices[i].invoiceNumber == number {
        FirstMatch(invoices, number, i);
        return i;
      }
      i := i + 1;
    }
    return -1;
  }

  class Editor {
    /** The record on screen. */
    var invoice: Invoice
    /** The decoded "invoices" entry of browser storage. */
    var store: seq<Invoice>

    /**
     * The on-screen record's totals are consistent. Unique numbers in the
     * store are not part of it: the stored list may have been written
     * elsewhere, so `Save` only keeps uniqueness it finds.
     */
    ghost predicate Valid()
      reads this
    {
      TotalsConsistent(invoice)
    }

    /** The page's first render; the clock-derived number and dates are parameters. */
    constructor(number: string, date: string, dueDate: string, saved: seq<Invoice>)
      ensures Valid()
      ensures invoice == InitialInvoice(number, date, dueDate) && store == saved
    {
      invoice := InitialInvoice(number, date, dueDate);
      store := saved;
    }

    /** `addLineItem` followed by the totals effect. */
    method AddItem(id: string)
      requires Valid()
      modifies this
      ensures Valid() && store == old(store)
      ensures invoice == CalculateTotals(AddLineItem(old(invoice), id))
      ensures invoice.total == old(invoice).total
      ensures AmountsConsistent(old(invoice).lineItems) ==> AmountsConsistent(invoice.lineItems)
    {
      AddKeepsTotals(invoice, id);
      invoice := CalculateTotals(AddLineItem(invoice, id));
    }

    /** `updateLineItem` followed by the totals effect. */
    method UpdateItem(id: string, edit: Edit)
      requires Valid()
      modifies this
      ensures Valid() && store == old(store)
      ensures invoice == CalculateTotals(UpdateLineItem(old(invoice), id, edit))
      ensures AmountsConsistent(old(invoice).lineItems) ==> AmountsConsistent(invoice.lineItems)
    {
      if AmountsConsistent(invoice.lineItems) {
        UpdateKeepsAmounts(invoice.lineItems, id, edit);
      }
      invoice := CalculateTotals(UpdateLineItem(invoice, id, edit));
    }

    /** `removeLineItem` followed by the totals effect. */
    method RemoveItem(id: string)
      requires Valid()
      modifies this
      ensures Valid() && store == old(store)
      ensures invoice == CalculateTotals(RemoveLineItem(old(invoice), id))
      ensures AmountsConsistent(old(invoice).lineItems) ==> AmountsConsistent(invoice.lineItems)
    {
      if AmountsConsistent(invoice.lineItems) {
        RemoveKeepsAmounts(invoice.lineItems, id);
      }
      invoice := CalculateTotals(RemoveLineItem(invoice, id));
    }

    /** `onDragEnd`: copy the items, move one in the copy, store the copy; totals do not change. */
    method DragEnd(source: int, destination: Option<int>)
      requires Valid()
      requires destination.Some? ==> SpliceStart(source, |invoice.lineItems|) < |invoice.lineItems|
      modifies this
      ensures Valid() && store == old(store)
      ensures invoice == old(invoice).(lineItems := Reordered(old(invoice).lineItems, source, destination))
    {
      ReorderKeepsConsistency(invoice, source, destination);
      var items := invoice.lineItems;
      if destination.None? {
        return;
      }
      var n := |items|;
      var copy := new LineItem[n](i requires 0 <= i < n => items[i]);
      assert copy[..] == items;
      MoveItem(copy, SpliceStart(source, n), SpliceStart(destination.value, n - 1));
      invoice := invoice.(lineItems := copy[..]);
    }

    /** The tax-rate input: `parseFloat(value) || 0`, then the totals effect. */
    method SetTaxRate(parsed: Option<real>)
      requires Valid()
      modifies this
      ensures Valid() && store == old(store)
      ensures invoice == CalculateTotals(old(invoice).(taxRate := Coerce(parsed)))
    {
      invoice := CalculateTotals(invoice.(taxRate := Coerce(parsed)));
    }

    /** A text input or select bound to one field. */
    method SetTextField(field: TextField, value: string)
      requires Valid()
      modifies this
      ensures Valid() && store == old(store)
      ensures invoice == SetText(old(invoice), field, value)
    {
      SetTextKeepsTotals(invoice, field, value);
      invoice := SetText(invoice, field, value);
    }

    /** "Generate New Invoice Number". */
    method RegenerateNumber(clockDigits: string)
      requires Valid()
      modifies this
      ensures Valid() && store == old(store)
      ensures invoice == old(invoice).(invoiceNumber := NewInvoiceNumber(clockDigits))
    {
      invoice := invoice.(invoiceNumber := NewInvoiceNumber(clockDigits));
    }

    /** The template picker's `onSelectTemplate`. */
    method ChooseTemplate(templateId: string)
      requires Valid()
      modifies this
      ensures Valid() && store == old(store)
      ensures invoice == SelectTemplate(old(invoice), templateId)
    {
      invoice := SelectTemplate(invoice, templateId);
    }

    /** One of the three colour pickers' `onChange`. */
    method ChooseColor(slot: ColorSlot, color: string)
      requires Valid()
      modifies this
      ensures Valid() && store == old(store)
      ensures invoice == SetColor(old(invoice), slot, color)
    {
      invoice := SetColor(invoice, slot, color);
    }

    /** The logo uploader's `onLogoChange`. */
    method ChangeLogo(logo: Option<string>)
      requires Valid()
      modifies this
      ensures Valid() && store == old(store)
      ensures invoice == old(invoice).(logo := logo)
    {
      invoice := invoice.(logo := logo);
    }

    /** `saveInvoice`: overwrite the record with the same number, or append it. */
    method Save()
      requires Valid()
      modifies this
      ensures Valid() && invoice == old(invoice)
      ensures store == Upserted(old(store), invoice)
      ensures invoice in store
      ensures UniqueNumbers(old(store)) ==> UniqueNumbers(store)
    {
      UpsertContains(store, invoice);
      if UniqueNumbers(store) {
        UpsertKeepsUnique(store, invoice);
      }
      var k := FindInvoiceIndex(store, invoice.invoiceNumber);
      if k >= 0 {
        store := store[k := invoice];
      } else {
        store := store + [invoice];
      }
    }

    /** `loadInvoice` once the file is parsed: the record replaces the screen, then the totals effect runs. */
    method Load(data: Invoice)
      requires Valid()
      modifies this
      ensures Valid() && store == old(store)
      ensures invoice == CalculateTotals(data)
    {
      invoice := CalculateTotals(data);
    }
  }
}
