# Invoice builder core in Dafny

This project models the core of a single-page invoice builder written in Next.js and React.

- **Invoice record.** One record holds the company and client details, a list of line items (quantity, rate and a stored amount) and the derived totals. It also holds notes, a currency code, a template id with three colours, and an optional logo.
- **Editing page.** The page edits this record. Line items are added, edited, removed and reordered by drag and drop. Every change to the items or to the tax rate is followed by an effect that recomputes the subtotal, the tax and the total. A Save button upserts the record, by invoice number, into a list kept in browser storage.
- **Preview and export.** The on-screen preview styles the record through a template registry. The exported document recomputes its own totals from quantity × rate and resolves a colour palette.
- **Colour picker and logo uploader.** The colour picker validates hex colours and has a small popover state machine. The logo uploader admits image files of at most 2 MiB.

The modules follow the source files:

| module | file | form |
|---|---|---|
| `Types` | the record (`types/index.ts`, `app/page.tsx` InvoiceData) | datatypes, JavaScript `||` on strings |
| `Templates` | `components/invoice-templates.tsx` | pure functions and lemmas |
| `InvoicePdf` | `components/pdf/InvoicePDF.tsx` | pure: the document as a sequence of sections |
| `InvoicePage` | `app/page.tsx` handlers and preview, plus the download button's file name and arguments | pure functions and lemmas |
| `InvoiceEditor` | `app/page.tsx` as a stateful component | class `Editor`; in-place move on an array; search loop |
| `ColorPicker` | `components/color-picker.tsx` | predicates, plus class `Picker` |
| `LogoUpload` | `components/logo-upload.tsx` | admission function, plus class `Uploader` |

## Modelling choices

- **Numbers.** Money, quantities and rates are exact reals. The source's promises are equalities such as total = subtotal + subtotal × (rate / 100).
- **Numeric inputs.** `Number.parseFloat(text) || 0` is modelled as `Coerce(parsed)`. The parse result is an input: `None` stands for NaN.
- **Clock values.** Item ids, invoice numbers and dates come from the clock, so the methods take them as parameters.
- **Totals effect.** The page's effect on `[lineItems, taxRate]` is applied right after each handler that changes either field. The intermediate render with stale totals is not represented.
- **Drag and drop.** `onDragEnd` copies the items into an array. It then moves one element in place (`InvoiceEditor.MoveItem`) and stores the copy. The drop step is specified by the function `InvoicePage.Moved`. Indices are normalised as `Array.prototype.splice` does (`SpliceStart`).
- **Save.** `saveInvoice` searches with a loop (`FindInvoiceIndex`). It then index-assigns or appends into the `store` field. The field stands for the decoded "invoices" entry of browser storage.
- **Totals shown in two places.** The preview prints the stored totals; the document recomputes them. `DocumentTotalsMatchPreview` proves that the two agree when the record is consistent. The one difference is that the document drops the tax line at a rate of 0 or below.
- **Invariants kept.** The editor keeps consistent totals on screen (`Editor.Valid`). The saved list may hold duplicate numbers written elsewhere, and `Save` accepts any list; a save keeps unique numbers when it finds them unique. The item-editing methods also keep amount = quantity × rate. Loading a file does not keep it: the loaded amounts are taken as they are, and only the totals are recomputed.
- **Stand-alone download button.** `components/pdf/PDFDownloadButton.tsx` passes the currency code (such as "USD") where the page passes the symbol. It also passes `invoice.template || 'default'` as the template id. This is modelled as written (`ButtonExport`). `ButtonExportDefaultPalette` shows that any template other than "modern" then renders with the default palette.
- **Logo uploader state.** The uploader's preview is seeded from the parent's logo only when it mounts. There is no effect that follows later changes of the parent's logo, and the model keeps this.

## Model

| member | source | states |
|---|---|---|
| Types.OrElse | components/pdf/InvoicePDF.tsx:161 | `s || fallback` on a string: a non-empty string is kept, the empty string gives the fallback |
| Templates.Find | components/invoice-templates.tsx:174 | `find` by id: a result is a member with that id and no earlier entry has it; no result exactly when no entry has the id |
| Templates.GetTemplateById | components/invoice-templates.tsx:173-175 | always a registry entry; a registered id yields the entry with that id, otherwise the first entry |
| Templates.GetTemplateByIdCases | components/invoice-templates.tsx:173-175 | a registered id is found; an unregistered id yields "modern" |
| Templates.RegistryShape | components/invoice-templates.tsx:29-135 | exactly four templates, ids modern, classic, minimal, creative in that order, pairwise distinct |
| Templates.BaseStyles | components/invoice-templates.tsx:207-222 | the base record takes its border colour from the template's primary colour and has no palette |
| Templates.ModernStyles | components/invoice-templates.tsx:225-237 | modern branch: border colour from the template and a palette present |
| Templates.ClassicStyles | components/invoice-templates.tsx:238-254 | classic branch: border colour from the template, no palette |
| Templates.MinimalStyles | components/invoice-templates.tsx:255-271 | minimal branch: border colour from the template, no palette |
| Templates.CreativeStyles | components/invoice-templates.tsx:272-288 | creative branch: border colour from the template, no palette |
| Templates.DefaultStyles | components/invoice-templates.tsx:289-305 | default branch: border colour from the template, no palette |
| Templates.GetTemplateStyles | components/invoice-templates.tsx:206-307 | every id gets its border colour from the template; a palette exactly for "modern" |
| Templates.ModernPalette | components/invoice-templates.tsx:225-236 | the modern palette is the default palette with primary and accent from the template; all string fields equal the base record except `container` |
| Templates.UnknownIdStyles | components/invoice-templates.tsx:289-305 | an unregistered id gets the base tokens with container "bg-white" and no palette |
| Templates.StylesTotal | components/invoice-templates.tsx:177-191 | every branch fills every class-string field with a non-empty token |
| Templates.RegisteredStylesDistinct | components/invoice-templates.tsx:224-288 | the four registered templates resolve to four different style records |
| InvoicePdf.PaletteTemplate | components/pdf/InvoicePDF.tsx:110-119 | the template handed to the resolver carries the requested id |
| InvoicePdf.Palette | components/pdf/InvoicePDF.tsx:122 | modern: defaults with primary and accent from the invoice (or the defaults when empty); any other id: exactly the defaults |
| InvoicePdf.FontFamily | components/pdf/InvoicePDF.tsx:23 | the font is Helvetica for every template |
| InvoicePdf.OptionalLine | components/pdf/InvoicePDF.tsx:163-165 | a field's line is present iff the field is non-empty |
| InvoicePdf.Rows | components/pdf/InvoicePDF.tsx:205-212 | one row per item, position by position |
| InvoicePdf.PdfSubtotal | components/pdf/InvoicePDF.tsx:124-128 | `calculateTotal`, a left fold of quantity × rate; characterised by `PdfSubtotalAppend` and `PdfSubtotalPricingOnly`, and equal to the page's subtotal on priced items by `ScreenSubtotalMatchesDocument` |
| InvoicePdf.TotalLines | components/pdf/InvoicePDF.tsx:217-237 | the totals block for a subtotal and rate; its shape is stated by `TotalsBlock` and `TaxLineIff` |
| InvoicePdf.Sections | components/pdf/InvoicePDF.tsx:143-258 | the page's sections in order; stated by `Placeholders`, `OptionalLines`, `ItemTable`, `NotesSection`, `LogoEmission` and `SectionsIgnoreStoredTotals` |
| InvoicePdf.Render | components/pdf/InvoicePDF.tsx:105-258 | the whole document; its palette and font are stated by `DocumentPalette`, its independence from the stored totals by `RenderIgnoresStoredTotals` |
| InvoicePdf.PdfSubtotalAppend | components/pdf/InvoicePDF.tsx:124-128 | the document's subtotal of a concatenation is the sum of the parts |
| InvoicePdf.PdfSubtotalPricingOnly | components/pdf/InvoicePDF.tsx:124-128 | the document's subtotal depends only on quantities and rates |
| InvoicePdf.RowsPricingOnly | components/pdf/InvoicePDF.tsx:205-212 | the rows depend only on description, quantity and rate |
| InvoicePdf.SectionsIgnoreStoredTotals | components/pdf/InvoicePDF.tsx:124-141 | the sections are unchanged when the stored amounts and totals are zeroed |
| InvoicePdf.RenderIgnoresStoredTotals | components/pdf/InvoicePDF.tsx:124-141 | the whole document ignores the stored amount and subtotal fields |
| InvoicePdf.TotalsBlock | components/pdf/InvoicePDF.tsx:217-237 | Subtotal first, Total last (subtotal + subtotal × rate / 100); three lines with the tax when the rate is positive, two otherwise |
| InvoicePdf.TaxLineIff | components/pdf/InvoicePDF.tsx:221-226 | a tax line is present iff the rate is positive |
| InvoicePdf.ItemTable | components/pdf/InvoicePDF.tsx:205-212 | one row per item; the amount cell is quantity × rate; an empty description shows "Item description" |
| InvoicePdf.Placeholders | components/pdf/InvoicePDF.tsx:157-183 | empty company, client and number show "Your Company Name" (header and footer), "Client Name" and "N/A"; non-empty ones show themselves |
| InvoicePdf.OptionalLines | components/pdf/InvoicePDF.tsx:163-176 | address, email and phone lines appear exactly for the non-empty fields |
| InvoicePdf.NotesSection | components/pdf/InvoicePDF.tsx:241-246 | the Notes section appears, just before the footer, exactly when notes are non-empty |
| InvoicePdf.LogoEmission | components/pdf/InvoicePDF.tsx:151-156 | the logo image appears iff the logo is present and non-empty; `showLogo` has no effect |
| InvoicePdf.DocumentPalette | components/pdf/InvoicePDF.tsx:108-122 | the document's palette and font, with the "modern" default id when none is given |
| InvoicePage.CalculateTotals | app/page.tsx:114-125 | afterwards subtotal = sum of amounts, tax = subtotal × rate / 100, total = subtotal + tax; no other field changes |
| InvoicePage.Subtotal | app/page.tsx:115 | the `reduce` over stored amounts; stated by `SubtotalAppend`, `SubtotalInsert` and `MovedKeepsSubtotal` |
| InvoicePage.AddLineItem | app/page.tsx:127-139 | exactly one item {"", 1, 0, 0} appended; earlier items unchanged and in order; nothing else changes |
| InvoicePage.AddKeepsTotals | app/page.tsx:127-139 | adding an item does not change the subtotal and keeps amount = quantity × rate |
| InvoicePage.RemoveUndoesAdd | app/page.tsx:157-162 | adding an item with a fresh id and removing that id restores the list |
| InvoicePage.ApplyEdit | app/page.tsx:146-149 | quantity and rate edits reset amount to quantity × rate; a description edit leaves it; the id never changes |
| InvoicePage.EditAmount | app/page.tsx:146-149 | after a quantity or rate edit the item is priced; a description edit keeps the amount |
| InvoicePage.UpdateItems | app/page.tsx:141-155 | same length; each item with the id is edited, every other item is identical |
| InvoicePage.UpdateLineItem | app/page.tsx:141-155 | only the line items change and their number is kept |
| InvoicePage.UpdateTouchesOnlyId | app/page.tsx:141-155 | ids and order unchanged; only items with the id change; nothing outside the items changes |
| InvoicePage.UpdateKeepsAmounts | app/page.tsx:141-155 | every edit keeps amount = quantity × rate for all items |
| InvoicePage.RemoveItems | app/page.tsx:157-162 | the result holds exactly the original items whose id differs |
| InvoicePage.RemoveLineItem | app/page.tsx:157-162 | only the line items change and no item is added |
| InvoicePage.RemoveDropsExactly | app/page.tsx:157-162 | no item with the id remains; every other item stays; nothing outside the items changes |
| InvoicePage.RemoveDistributes | app/page.tsx:157-162 | removal distributes over concatenation, so the relative order of the survivors is kept |
| InvoicePage.RemoveKeepsAmounts | app/page.tsx:157-162 | removal keeps amount = quantity × rate for the survivors |
| InvoicePage.SpliceStart | app/page.tsx:167-169 | `splice`'s start index: kept when in range, clamped above, counted from the end when negative |
| InvoicePage.Moved | app/page.tsx:167-169 | the two splices of a drop; stated by `MovedAt`, `MovedIsPermutation`, `MoveBack` and `RemoveThenInsert` |
| InvoicePage.Reordered | app/page.tsx:164-172 | `onDragEnd` on the items; stated by `ReorderKeepsTotals` and `ReorderKeepsConsistency` |
| InvoicePage.MovedAt | app/page.tsx:167-169 | position of every element after the two splices: the moved one at the destination, the ones in between shifted by one |
| InvoicePage.MovedIsPermutation | app/page.tsx:167-169 | the move is a permutation of the same length with the source element at the destination |
| InvoicePage.MoveBack | app/page.tsx:164-172 | dragging the element back to where it came from restores the list |
| InvoicePage.RemoveThenInsert | app/page.tsx:167-169 | putting the taken element back at its own index gives the original list |
| InvoicePage.SubtotalAppend | app/page.tsx:115 | the page's subtotal of a concatenation is the sum of the parts |
| InvoicePage.SubtotalInsert | app/page.tsx:115 | inserting an item anywhere adds its amount to the subtotal |
| InvoicePage.MovedKeepsSubtotal | app/page.tsx:164-172 | a move does not change the subtotal |
| InvoicePage.ReorderKeepsTotals | app/page.tsx:164-172 | no destination: list unchanged; otherwise a permutation of the same length with the same subtotal, still priced |
| InvoicePage.ReorderKeepsConsistency | app/page.tsx:164-172 | reordering keeps consistent totals consistent |
| InvoicePage.FindIndex | app/page.tsx:284 | `findIndex`: the first record with the number, or -1 exactly when there is none |
| InvoicePage.FirstMatch | app/page.tsx:284 | an index holding the number with no earlier match is the one `findIndex` returns |
| InvoicePage.Upserted | app/page.tsx:283-290 | the saved list after a save; stated by `UpsertReplaces`, `UpsertAppends`, `UpsertKeepsUnique` and `UpsertIdempotent` |
| InvoicePage.UpsertReplaces | app/page.tsx:286-287 | an existing number: the first match is replaced and the length is unchanged |
| InvoicePage.UpsertAppends | app/page.tsx:288-290 | a new number: the record is appended and the length grows by one |
| InvoicePage.UpsertKeepsUnique | app/page.tsx:283-290 | saving keeps invoice numbers unique and the saved record is in the list |
| InvoicePage.UpsertContains | app/page.tsx:283-290 | on any list, the saved record is in the list afterwards |
| InvoicePage.UpsertIdempotent | app/page.tsx:283-290 | saving the same record twice equals saving it once |
| InvoicePage.Coerce | app/page.tsx:562 | `parseFloat(text) || 0`: NaN gives 0, any parsed number is kept |
| InvoicePage.CoerceCases | app/page.tsx:562 | unparsable text gives 0; negative numbers pass through unchanged |
| InvoicePage.SelectTemplate | app/page.tsx:588-599 | only `template` and `templateColors` change |
| InvoicePage.SelectTemplateColors | app/page.tsx:588-599 | the id is kept as given; a registered id copies its colours; an unknown id gets the first entry's colours |
| InvoicePage.SetColor | app/page.tsx:608-640 | one colour slot replaced, the other two and every other field kept |
| InvoicePage.SetText | app/page.tsx:371-441 | the chosen text field takes the value; every other text field, the items, the totals, the template and the logo are kept |
| InvoicePage.SetTextKeepsTotals | app/page.tsx:111-112 | a text edit cannot break consistent totals (the effect does not run for it) |
| InvoicePage.LastSix | app/page.tsx:749 | `slice(-6)`: a suffix of length min(6, length) |
| InvoicePage.NewInvoiceNumber | app/page.tsx:749 | "INV-" followed by the last six characters of the clock digits |
| InvoicePage.InitialInvoiceShape | app/page.tsx:77-104 | the starting record has no items, a zero total, consistent totals, the "modern" entry's colours and no logo block |
| InvoicePage.InitialInvoice | app/page.tsx:77-104 | the page's starting record; stated by `InitialInvoiceShape` |
| InvoicePage.SymbolOf | app/page.tsx:66-73 | the symbol found is listed for that code; none only when no entry has the code |
| InvoicePage.ExportCurrency | app/page.tsx:108 | `selectedCurrency?.symbol || '$'`: never empty, and "$" for a code missing from the list |
| InvoicePage.PreviewAndExportSymbols | app/page.tsx:108 | for a listed code the preview and the export print the same non-empty symbol; otherwise the preview prints "" and the export "$" |
| InvoicePage.LogoAlignment | app/page.tsx:795-801 | "center" gives justify-center, "right" gives justify-end, anything else justify-start |
| InvoicePage.PreviewLogo | app/page.tsx:793-809 | the preview's logo block exists iff the logo is truthy, aligned by its position |
| InvoicePage.PreviewStylesRegistered | app/page.tsx:781-782 | the preview resolves through the registry: an unknown id is styled as "modern", never by the default branch |
| InvoicePage.ScreenSubtotalMatchesDocument | app/page.tsx:115 | when every amount is quantity × rate, the page's subtotal equals the document's |
| InvoicePage.TotalLinesMatchPreview | app/page.tsx:894-918 | with consistent totals the document's totals lines carry the stored figures, the tax line only at a positive rate |
| InvoicePage.DocumentTotalsMatchPreview | app/page.tsx:894-918 | with consistent amounts and totals the exported totals block equals the preview's, minus the tax line at a rate of 0 or below |
| InvoicePage.PreviewTotals | app/page.tsx:894-918 | the preview's three totals rows from the stored fields; compared with the document by `TotalLinesMatchPreview` and `DocumentTotalsMatchPreview` |
| InvoicePage.PageExportUsesInvoiceColors | app/page.tsx:332-334 | the page's export passes no template id, so it always uses the invoice's primary and accent colours, and it prints the currency list's symbol |
| InvoicePage.PageExport | app/page.tsx:332-334 | the page's Download PDF document; stated by `PageExportUsesInvoiceColors` and `DocumentTotalsMatchPreview` |
| InvoicePage.ButtonFileName | components/pdf/PDFDownloadButton.tsx:94 | `invoice-<number>.pdf`, with "untitled" for an empty number |
| InvoicePage.EmptyNumberFileNames | app/page.tsx:334 | for an empty number the page's file is "invoice-.pdf" while the button's is "invoice-untitled.pdf" |
| InvoicePage.ButtonExportDefaultPalette | components/pdf/PDFDownloadButton.tsx:88-92 | the button renders any non-modern template with the default palette and prints the currency code as given |
| InvoicePage.ButtonExport | components/pdf/PDFDownloadButton.tsx:88-92 | the stand-alone button's document; stated by `ButtonExportDefaultPalette` |
| InvoiceEditor.MoveItem | app/page.tsx:166-169 | the array afterwards is the specified move of its old contents |
| InvoiceEditor.FindInvoiceIndex | app/page.tsx:284 | the loop returns exactly `FindIndex`: the first match, or -1 |
| InvoiceEditor.Editor.constructor | app/page.tsx:77-104 | the starting record, with consistent totals, beside any stored list |
| InvoiceEditor.Editor.AddItem | app/page.tsx:127-139 | add, then recompute; the total is unchanged; totals stay consistent and items stay priced |
| InvoiceEditor.Editor.UpdateItem | app/page.tsx:141-155 | edit, then recompute; totals stay consistent and items stay priced |
| InvoiceEditor.Editor.RemoveItem | app/page.tsx:157-162 | remove, then recompute; totals stay consistent and items stay priced |
| InvoiceEditor.Editor.DragEnd | app/page.tsx:164-172 | the items become the reordered list; totals stay consistent without recomputation |
| InvoiceEditor.Editor.SetTaxRate | app/page.tsx:556-563 | coerced rate, then recompute |
| InvoiceEditor.Editor.SetTextField | app/page.tsx:371-441 | one text field replaced; totals stay consistent |
| InvoiceEditor.Editor.RegenerateNumber | app/page.tsx:745-751 | a new "INV-" number; nothing else changes |
| InvoiceEditor.Editor.ChooseTemplate | app/page.tsx:588-599 | the template id and its registry colours |
| InvoiceEditor.Editor.ChooseColor | app/page.tsx:608-640 | one colour replaced |
| InvoiceEditor.Editor.ChangeLogo | app/page.tsx:644 | the logo reported by the uploader replaces the record's |
| InvoiceEditor.Editor.Save | app/page.tsx:282-294 | on any stored list, the list becomes the upsert of the record and contains it; unique numbers stay unique; the record itself is untouched |
| InvoiceEditor.Editor.Load | app/page.tsx:296-313 | the parsed record replaces the screen, then totals are recomputed |
| ColorPicker.GroupsShape | components/color-picker.tsx:38 | `([0-9A-F]{3}){n}` matches exactly the strings of 3n hex digits |
| ColorPicker.IsValidHexColor | components/color-picker.tsx:37-39 | a valid colour starts with "#" and has length 4 or 7; `HexColorShape` gives the exact characterisation |
| ColorPicker.HexColorShape | components/color-picker.tsx:37-39 | valid iff "#" followed by exactly 3 or 6 hex digits, either case |
| ColorPicker.HexColorExamples | components/color-picker.tsx:37-39 | "#fff" and "#3B82F6" pass; 4 or 5 digits, no "#", a bare "#", "" and non-hex letters fail |
| ColorPicker.SwatchesValid | components/color-picker.tsx:11-28 | every swatch passes the check and is selected verbatim |
| ColorPicker.HexOnly | components/color-picker.tsx:60 | only hex digits remain, none is added, and an all-hex string is kept; `HexOnlyChar` and `HexOnlyAppend` pin down exactly which characters survive, in order |
| ColorPicker.HexOnlyChar | components/color-picker.tsx:60 | one character survives the filter exactly when it is a hex digit |
| ColorPicker.HexOnlyAppend | components/color-picker.tsx:60 | the filter distributes over concatenation, so the survivors keep their order and every hex digit survives |
| ColorPicker.Normalize | components/color-picker.tsx:60 | "#" followed by the first min(6, n) of the n hex digits that survive the filter |
| ColorPicker.NormalizeValid | components/color-picker.tsx:59-63 | a normalised colour is valid iff exactly 3, or 6 or more, hex digits survive |
| ColorPicker.NormalizeIdempotent | components/color-picker.tsx:59-63 | normalising a normalised colour gives it back |
| ColorPicker.SelectKeepsNormalized | components/color-picker.tsx:55-63 | selecting a normalised colour keeps it verbatim |
| ColorPicker.Selected | components/color-picker.tsx:55-64 | a colour starting with "#" is kept verbatim, anything else normalised |
| ColorPicker.CoherentNoError | components/color-picker.tsx:149-151 | with no error shown and non-empty text, the working colour is that text and is valid |
| ColorPicker.Picker.constructor | components/color-picker.tsx:42-44 | closed, both colours equal to the parent's value |
| ColorPicker.Picker.SetOpen | components/color-picker.tsx:94-99 | only `isOpen` changes |
| ColorPicker.Picker.SyncValue | components/color-picker.tsx:50-53 | a parent value that differs from the previous one resets the working colour and the text; the same value changes nothing |
| ColorPicker.Picker.SelectColor | components/color-picker.tsx:55-64 | both fields take the selected colour |
| ColorPicker.Picker.InputChange | components/color-picker.tsx:66-72 | the text always follows; the working colour only when the text is valid |
| ColorPicker.Picker.Apply | components/color-picker.tsx:74-79 | reports the working colour only when it differs from the parent's; always closes |
| ColorPicker.Picker.ClickApply | components/color-picker.tsx:163-168 | a valid working colour closes the popover and reports it exactly when it differs from the parent's, keeping both colour fields; an invalid one (button disabled) changes nothing and reports nothing |
| ColorPicker.Picker.Cancel | components/color-picker.tsx:153-161 | restores both fields to the parent's value and closes |
| ColorPicker.Picker.KeyDown | components/color-picker.tsx:81-89 | Enter with a valid colour applies it (closes, reports it when new, keeps both fields); Enter with an invalid colour and every other key but Escape change nothing; Escape restores and closes |
| LogoUpload.ImageTypeIff | components/logo-upload.tsx:25 | the type check holds iff "image" occurs somewhere in the type |
| LogoUpload.IsImageType | components/logo-upload.tsx:25 | a passing type is at least as long as "image", and a type that starts with "image" passes; `ImageTypeIff` gives the exact characterisation |
| LogoUpload.ImageTypeAccepts | components/logo-upload.tsx:25 | "image/png" and a type with "image" further in pass |
| LogoUpload.ImageTypeRejects | components/logo-upload.tsx:25 | "text/css" and "" fail |
| LogoUpload.Admit | components/logo-upload.tsx:21-36 | no file is its own case; acceptance implies an image type within the size limit |
| LogoUpload.AdmitCases | components/logo-upload.tsx:25-36 | accepted iff image type and size ≤ 2 MiB; the type is checked before the size |
| LogoUpload.SizeBoundary | components/logo-upload.tsx:32 | exactly 2 MiB is accepted, one byte more is too large |
| LogoUpload.Alert | components/logo-upload.tsx:26-34 | an alert exactly for the two rejections |
| LogoUpload.Uploader.constructor | components/logo-upload.tsx:17 | the preview starts as the parent's logo |
| LogoUpload.Uploader.HandleFileChange | components/logo-upload.tsx:19-45 | an accepted file's data becomes the preview and is reported; otherwise nothing changes and nothing is reported |
| LogoUpload.Uploader.RemoveLogo | components/logo-upload.tsx:47-50 | the preview is cleared and "no logo" is reported |

## Left out

- Layout and styling: JSX structure, Tailwind class strings and react-pdf style objects. The class strings are opaque tokens. Only the resolved palette and font of the document are modelled.
- The remote font registration in the document component is not modelled.
- Browser storage and JSON: `localStorage` reads and writes and `JSON.parse`/`stringify` in save and load. The saved list is a plain sequence; a load is given the parsed record. A file that fails to parse is not modelled.
- `FileReader`: reading the logo and reading an invoice file are asynchronous. Their results are parameters.
- `alert` and `toast`: the logo's alert texts are modelled as a value (`Alert`); the others are not.
- Clearing the file input after a rejection is not modelled.
- Number and date display: `toFixed(2)` and `toLocaleDateString` are not modelled. Dates are carried as the strings stored in the record.
- Coerce: `parseFloat` reads a numeric prefix of the text. The model takes the parse result as input and does not model the parsing itself.
- Clock-derived values: item ids, invoice numbers and the default dates are parameters.
- `generatePrintableHTML` in the page is never called and is not modelled.
- The drag-and-drop library's wiring is not modelled. The library reports a source index that names an element; `Reordered` and `Editor.DragEnd` require this.
- The preview dialog wrapper (`components/pdf/PDFPreviewDialog.tsx`) is not modelled. Of the download button, only its file name and its arguments to the document are modelled.
- Template preview elements and the template picker are not modelled: they are presentation only.
- The colour picker's `label` fallback and the swatch ring highlight are presentation only.
- Theme provider, layout and framework configuration hold no logic.
- A loaded record with missing fields cannot be represented: the record type has every field. The document's `templateColors?.` and `|| default` guards are modelled only for empty colour strings.
- Editor.UpdateItem: the page's `updateLineItem` accepts any field name of a line item. The model covers the three fields the page edits (description, quantity, rate). It does not model writes to `id` or `amount`, which the page never makes.
