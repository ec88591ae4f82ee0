/**
 * The exported document (components/pdf/InvoicePDF.tsx), abstracted from
 * the react-pdf element tree to the sequence of sections it lays out and the
 * rows inside them. Styling is reduced to the resolved colour palette and
 * font; money stays an exact real (the `toFixed(2)` text is not modelled).
 */
module InvoicePdf {
  import opened Types
  import opened Templates

  /** `item.quantity * item.rate`: what the document prints as a line's amount. */
  function Extended(item: LineItem): real
  {
    item.quantity * item.rate
  }

  /**
   * `calculateTotal`: a left fold of quantity × rate over the items, in
   * stored order; the stored `amount` and `subtotal` fields are not read.
   */
  function PdfSubtotal(items: seq<LineItem>): real
  {
    if items == [] then 0.0 else PdfSubtotal(items[..|items| - 1]) + Extended(items[|items| - 1])
  }

  /** The `templateId = 'modern'` default of the component's props. */
  function EffectiveTemplateId(templateId: Option<string>): string
  {
    match templateId
    case Some(id) => id
    case None => "modern"
  }

  /**
   * The template handed to the style resolver: the requested id with the
   * invoice's own colours, each falling back to the default palette when empty.
   */
  function PaletteTemplate(invoice: Invoice, templateId: string): (t: TemplateOption)
    ensures t.id == templateId
  {
    TemplateOption(templateId, "", "",
      OrElse(invoice.templateColors.primary, DefaultPdfColors.primary),
      OrElse(invoice.templateColors.accent, DefaultPdfColors.accent),
      OrElse(invoice.templateColors.background, DefaultPdfColors.background),
      "Helvetica")
  }

  /** `templateStyles.pdf?.colors || DEFAULT_PDF_COLORS`. */
  function Palette(invoice: Invoice, templateId: string): (r: PdfColors)
    ensures templateId == "modern" ==>
      r == DefaultPdfColors.(
        primary := OrElse(invoice.templateColors.primary, DefaultPdfColors.primary),
        accent := OrElse(invoice.templateColors.accent, DefaultPdfColors.accent))
    ensures templateId != "modern" ==> r == DefaultPdfColors
  {
    var styles := GetTemplateStyles(PaletteTemplate(invoice, templateId));
    match styles.pdf
    case Some(p) => p.colors
    case None => DefaultPdfColors
  }

  /** `templateStyles.pdf?.fontFamily || 'Helvetica'`. */
  function FontFamily(invoice: Invoice, templateId: string): (r: string)
    ensures r == "Helvetica"
  {
    var styles := GetTemplateStyles(PaletteTemplate(invoice, templateId));
    match styles.pdf
    case Some(p) => OrElse(p.fontFamily, "Helvetica")
    case None => "Helvetica"
  }

  // ------------------------------------------------------------ the document

  datatype ItemRow = ItemRow(description: string, quantity: real, rate: real, amount: real)

  datatype TotalLine =
    | SubtotalLine(amount: real)
    | TaxLine(rate: real, amount: real)
    | GrandTotalLine(amount: real)

  datatype Section =
    | Header(logo: Option<string>, title: string, company: string, companyLines: seq<string>)
    | BillTo(client: string, clientLines: seq<string>)
    | InvoiceInfo(number: string, date: string, dueDate: string)
    | ItemsTable(columns: seq<string>, rows: seq<ItemRow>)
    | Totals(lines: seq<TotalLine>)
    | Notes(text: string)
    | Footer(company: string, message: string)

  datatype Document = Document(
    fontFamily: string,
    palette: PdfColors,
    currency: string,
    sections: seq<Section>)

  const CompanyPlaceholder := "Your Company Name"
  const ClientPlaceholder := "Client Name"
  const NumberPlaceholder := "N/A"
  const DescriptionPlaceholder := "Item description"
  const ThankYou := "Thank you for your business!"

  /** `{field && <Text>{field}</Text>}`: one line when the text is non-empty, none otherwise. */
  function OptionalLine(s: string): (r: seq<string>)
    ensures s != "" <==> r == [s]
    ensures s == "" <==> r == []
  {
    if s != "" then [s] else []
  }

  function Row(item: LineItem): ItemRow
  {
    ItemRow(OrElse(item.description, DescriptionPlaceholder), item.quantity, item.rate, Extended(item))
  }

  /** `invoice.lineItems.map(...)`: one table row per line item, in stored order. */
  function Rows(items: seq<LineItem>): (r: seq<ItemRow>)
    ensures |r| == |items|
    ensures forall i :: 0 <= i < |items| ==> r[i] == Row(items[i])
  {
    if items == [] then [] else [Row(items[0])] + Rows(items[1..])
  }

  /** The totals block: Subtotal, then Tax only when the rate is positive, then Total. */
  function TotalLines(subtotal: real, taxRate: real): seq<TotalLine>
  {
    var taxAmount := subtotal * (taxRate / 100.0);
    var total := subtotal + taxAmount;
    [SubtotalLine(subtotal)]
      + (if taxRate > 0.0 then [TaxLine(taxRate, taxAmount)] else [])
      + [GrandTotalLine(total)]
  }

  function HeaderSection(invoice: Invoice): Section
  {
    Header(
      if Truthy(invoice.logo) then invoice.logo else None,
      "INVOICE",
      OrElse(invoice.companyName, CompanyPlaceholder),
      OptionalLine(invoice.companyAddress) + OptionalLine(invoice.companyEmail)
        + OptionalLine(invoice.companyPhone))
  }

  function BillToSection(invoice: Invoice): Section
  {
    BillTo(OrElse(invoice.clientName, ClientPlaceholder),
           OptionalLine(invoice.clientAddress) + OptionalLine(invoice.clientEmail))
  }

  /** The dates are carried as given; their locale formatting is not modelled. */
  function InfoSection(invoice: Invoice): Section
  {
    InvoiceInfo(OrElse(invoice.invoiceNumber, NumberPlaceholder), invoice.date, invoice.dueDate)
  }

  function TableSection(invoice: Invoice): Section
  {
    ItemsTable(["Description", "Qty", "Rate", "Amount"], Rows(invoice.lineItems))
  }

  function FooterSection(invoice: Invoice): Section
  {
    Footer(OrElse(invoice.companyName, CompanyPlaceholder), ThankYou)
  }

  /** The page's sections, top to bottom; Notes only when there are notes. */
  function Sections(invoice: Invoice): seq<Section>
  {
    [ HeaderSection(invoice), BillToSection(invoice), InfoSection(invoice), TableSection(invoice),
      Totals(TotalLines(PdfSubtotal(invoice.lineItems), invoice.taxRate)) ]
    + (if invoice.notes != "" then [Notes(invoice.notes)] else [])
    + [FooterSection(invoice)]
  }

  /** `InvoicePDF`: the resolved font and palette, the currency text, and the sections. */
  function Render(invoice: Invoice, currency: string, templateId: Option<string>): Document
  {
    var id := EffectiveTemplateId(templateId);
    Document(FontFamily(invoice, id), Palette(invoice, id), currency, Sections(invoice))
  }

  /** Zero every stored derived number: each item's amount and the three totals. */
  function ClearDerived(invoice: Invoice): (r: Invoice)
    ensures |r.lineItems| == |invoice.lineItems|
    ensures forall i :: 0 <= i < |r.lineItems| ==>
      r.lineItems[i] == invoice.lineItems[i].(amount := 0.0)
  {
    invoice.(lineItems := ClearAmounts(invoice.lineItems), subtotal := 0.0, taxAmount := 0.0, total := 0.0)
  }

  function ClearAmounts(items: seq<LineItem>): (r: seq<LineItem>)
    ensures |r| == |items|
    ensures forall i :: 0 <= i < |items| ==> r[i] == items[i].(amount := 0.0)
  {
    if items == [] then [] else [items[0].(amount := 0.0)] + ClearAmounts(items[1..])
  }

  // ---------------------------------------------------------------- lemmas

  /** The sum over a concatenation is the sum of the parts. */
  lemma {:induction false} PdfSubtotalAppend(a: seq<LineItem>, b: seq<LineItem>)
    ensures PdfSubtotal(a + b) == PdfSubtotal(a) + PdfSubtotal(b)
    decreases |b|
  {
    if b == [] {
      assert a + b == a;
    } else {
      var b' := b[..|b| - 1];
      assert (a + b)[..|a + b| - 1] == a + b';
      PdfSubtotalAppend(a, b');
    }
  }

  /** Two item lists with the same quantities and rates, position by position. */
  predicate SamePricing(a: seq<LineItem>, b: seq<LineItem>)
  {
    |a| == |b| &&
    forall i :: 0 <= i < |a| ==> a[i].quantity == b[i].quantity && a[i].rate == b[i].rate
  }

  /** The document's subtotal reads only quantities and rates. */
  lemma {:induction false} PdfSubtotalPricingOnly(a: seq<LineItem>, b: seq<LineItem>)
    requires SamePricing(a, b)
    ensures PdfSubtotal(a) == PdfSubtotal(b)
  {
    if a != [] {
      var n := |a| - 1;
      assert SamePricing(a[..n], b[..n]);
      PdfSubtotalPricingOnly(a[..n], b[..n]);
      assert Extended(a[n]) == Extended(b[n]);
    }
  }

  /** Rows depend on description, quantity and rate only. */
  lemma RowsPricingOnly(a: seq<LineItem>, b: seq<LineItem>)
    requires SamePricing(a, b)
    requires forall i :: 0 <= i < |a| ==> a[i].description == b[i].description
    ensures Rows(a) == Rows(b)
  {
    assert forall i :: 0 <= i < |a| ==> Row(a[i]) == Row(b[i]);
  }

  /** The rows and totals read quantities and rates, never the stored amounts or totals. */
  lemma SectionsIgnoreStoredTotals(invoice: Invoice)
    ensures Sections(ClearDerived(invoice)) == Sections(invoice)
  {
    var c := ClearDerived(invoice);
    PdfSubtotalPricingOnly(c.lineItems, invoice.lineItems);
    RowsPricingOnly(c.lineItems, invoice.lineItems);
    assert TableSection(c) == TableSection(invoice);
  }

  /** Nothing the document shows depends on the stored amounts or totals. */
  lemma RenderIgnoresStoredTotals(invoice: Invoice, currency: string, templateId: Option<string>)
    ensures Render(ClearDerived(invoice), currency, templateId) == Render(invoice, currency, templateId)
  {
    SectionsIgnoreStoredTotals(invoice);
  }

  /** The totals block: its amounts, and two or three lines depending on the rate. */
  lemma TotalsBlock(invoice: Invoice)
    ensures var lines := TotalLines(PdfSubtotal(invoice.lineItems), invoice.taxRate);
      var s := PdfSubtotal(invoice.lineItems);
      var tax := s * invoice.taxRate / 100.0;
      && Sections(invoice)[4] == Totals(lines)
      && lines[0] == SubtotalLine(s)
      && lines[|lines| - 1] == GrandTotalLine(s + tax)
      && (invoice.taxRate > 0.0 ==> |lines| == 3 && lines[1] == TaxLine(invoice.taxRate, tax))
      && (invoice.taxRate <= 0.0 ==> |lines| == 2)
  {
    var s := PdfSubtotal(invoice.lineItems);
    assert s * (invoice.taxRate / 100.0) == s * invoice.taxRate / 100.0;
  }

  /** A tax line appears in the totals block exactly when the rate is positive. */
  lemma TaxLineIff(invoice: Invoice)
    ensures (exists l :: l in TotalLines(PdfSubtotal(invoice.lineItems), invoice.taxRate) && l.TaxLine?)
            <==> invoice.taxRate > 0.0
  {
    var lines := TotalLines(PdfSubtotal(invoice.lineItems), invoice.taxRate);
    if invoice.taxRate > 0.0 {
      assert lines[1].TaxLine?;
    } else {
      assert |lines| == 2 && !lines[0].TaxLine? && !lines[1].TaxLine?;
    }
  }

  /** One table row per item, in order, with a placeholder for an empty description. */
  lemma ItemTable(invoice: Invoice, i: nat)
    requires i < |invoice.lineItems|
    ensures var t := Sections(invoice)[3];
      var it := invoice.lineItems[i];
      && t.ItemsTable?
      && |t.rows| == |invoice.lineItems|
      && t.rows[i].amount == it.quantity * it.rate
      && t.rows[i].quantity == it.quantity
      && t.rows[i].rate == it.rate
      && (it.description == "" ==> t.rows[i].description == "Item description")
      && (it.description != "" ==> t.rows[i].description == it.description)
  {
  }

  /** Empty company, client and invoice-number fields render their placeholders. */
  lemma Placeholders(invoice: Invoice)
    ensures var ss := Sections(invoice);
      var last := ss[|ss| - 1];
      && ss[0].Header? && ss[1].BillTo? && ss[2].InvoiceInfo? && last.Footer?
      && (invoice.companyName == "" ==>
            ss[0].company == "Your Company Name" && last.company == "Your Company Name")
      && (invoice.companyName != "" ==>
            ss[0].company == invoice.companyName && last.company == invoice.companyName)
      && (invoice.clientName == "" ==> ss[1].client == "Client Name")
      && (invoice.clientName != "" ==> ss[1].client == invoice.clientName)
      && (invoice.invoiceNumber == "" ==> ss[2].number == "N/A")
      && (invoice.invoiceNumber != "" ==> ss[2].number == invoice.invoiceNumber)
  {
  }

  /** Address, email and phone lines appear exactly when their fields are non-empty. */
  lemma OptionalLines(invoice: Invoice)
    ensures var h := HeaderSection(invoice).companyLines;
      var b := BillToSection(invoice).clientLines;
      && Sections(invoice)[0] == HeaderSection(invoice)
      && Sections(invoice)[1] == BillToSection(invoice)
      && h == (if invoice.companyAddress != "" then [invoice.companyAddress] else [])
              + (if invoice.companyEmail != "" then [invoice.companyEmail] else [])
              + (if invoice.companyPhone != "" then [invoice.companyPhone] else [])
      && b == (if invoice.clientAddress != "" then [invoice.clientAddress] else [])
              + (if invoice.clientEmail != "" then [invoice.clientEmail] else [])
  {
  }

  /** The Notes section is emitted exactly when the notes are non-empty, just before the footer. */
  lemma NotesSection(invoice: Invoice)
    ensures var ss := Sections(invoice);
      && (invoice.notes != "" ==> |ss| == 7 && ss[5] == Notes(invoice.notes))
      && (invoice.notes == "" ==> |ss| == 6 && forall s :: s in ss ==> !s.Notes?)
  {
  }

  /** The logo is emitted exactly when the logo string is present and non-empty; `showLogo` is not read. */
  lemma LogoEmission(invoice: Invoice, currency: string, templateId: Option<string>, show: bool)
    ensures var h := Sections(invoice)[0];
      && h.Header?
      && (h.logo.Some? <==> Truthy(invoice.logo))
      && (h.logo.Some? ==> h.logo == invoice.logo)
      && Render(invoice.(showLogo := show), currency, templateId) == Render(invoice, currency, templateId)
  {
    assert Sections(invoice.(showLogo := show)) == Sections(invoice);
  }

  /** The palette: modern takes the invoice's colours (or defaults); every other id the defaults. */
  lemma DocumentPalette(invoice: Invoice, currency: string, templateId: Option<string>)
    ensures var d := Render(invoice, currency, templateId);
      && (EffectiveTemplateId(templateId) == "modern" ==>
            && d.palette.primary == OrElse(invoice.templateColors.primary, "#3b82f6")
            && d.palette.accent == OrElse(invoice.templateColors.accent, "#2563eb")
            && d.palette.(primary := DefaultPdfColors.primary, accent := DefaultPdfColors.accent)
                 == DefaultPdfColors)
      && (EffectiveTemplateId(templateId) != "modern" ==> d.palette == DefaultPdfColors)
      && (templateId.None? ==> d.palette.primary == OrElse(invoice.templateColors.primary, "#3b82f6"))
      && d.fontFamily == "Helvetica"
  {
  }
}
