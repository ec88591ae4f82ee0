/**
 * Template registry and style resolver (components/invoice-templates.tsx).
 *
 * The registry is a fixed catalogue of four templates; lookup by id falls
 * back to the first entry; `GetTemplateStyles` maps a template to a style
 * record of thirteen class-string tokens and a border colour, and only the
 * "modern" branch adds a document colour palette.
 */
module Templates {
  import opened Types

  /** A registry entry; the JSX `preview` element is presentation only and is omitted. */
  datatype TemplateOption = TemplateOption(
    id: string,
    name: string,
    description: string,
    primaryColor: string,
    accentColor: string,
    backgroundColor: string,
    fontFamily: string)

  datatype PdfColors = PdfColors(
    text: string,
    background: string,
    primary: string,
    accent: string,
    border: string,
    muted: string)

  datatype PdfStyle = PdfStyle(fontFamily: string, colors: PdfColors)

  datatype TemplateStyles = TemplateStyles(
    container: string,
    borderColor: string,
    header: string,
    title: string,
    companyName: string,
    sectionTitle: string,
    table: string,
    tableHeader: string,
    tableRow: string,
    tableCell: string,
    totalSection: string,
    totalRow: string,
    grandTotal: string,
    notes: string,
    pdf: Option<PdfStyle>)

  const DefaultPdfColors := PdfColors(
    "#1f2937", "#ffffff", "#3b82f6", "#2563eb", "#e5e7eb", "#6b7280")

  const Modern := TemplateOption("modern", "Modern",
    "Clean and professional with a colored accent bar",
    "#3b82f6", "#2563eb", "#ffffff", "'Inter', sans-serif")
  const Classic := TemplateOption("classic", "Classic",
    "Traditional business style with elegant borders",
    "#1e293b", "#475569", "#f8fafc", "'Georgia', serif")
  const Minimal := TemplateOption("minimal", "Minimal",
    "Simple and elegant with clean typography",
    "#18181b", "#71717a", "#fafafa", "'Inter', sans-serif")
  const Creative := TemplateOption("creative", "Creative",
    "Colorful and modern with gradient accents",
    "#8b5cf6", "#7c3aed", "#f5f3ff", "'Poppins', sans-serif")

  const Registry: seq<TemplateOption> := [Modern, Classic, Minimal, Creative]

  /** The ids of a list of templates, in order. */
  function Ids(ts: seq<TemplateOption>): (r: seq<string>)
    ensures |r| == |ts|
    ensures forall i :: 0 <= i < |ts| ==> r[i] == ts[i].id
  {
    if ts == [] then [] else [ts[0].id] + Ids(ts[1..])
  }

  /** `Array.prototype.find` by id: the first template whose id matches, if any. */
  function Find(ts: seq<TemplateOption>, id: string): (r: Option<TemplateOption>)
    ensures r.Some? ==> r.value in ts && r.value.id == id
    ensures r.Some? ==> exists k :: 0 <= k < |ts| && ts[k] == r.value &&
                          forall j :: 0 <= j < k ==> ts[j].id != id
    ensures r.None? <==> forall t :: t in ts ==> t.id != id
  {
    if ts == [] then None
    else if ts[0].id == id then Some(ts[0])
    else
      var r := Find(ts[1..], id);
      if r.Some? then
        var k :| 0 <= k < |ts[1..]| && ts[1..][k] == r.value &&
                 forall j :: 0 <= j < k ==> ts[1..][j].id != id;
        assert ts[k + 1] == r.value;
        assert forall j :: 0 <= j < k + 1 ==> ts[j].id != id by {
          forall j | 0 <= j < k + 1 ensures ts[j].id != id {
            if j > 0 { assert ts[j] == ts[1..][j - 1]; }
          }
        }
        r
      else
        assert forall t :: t in ts ==> t == ts[0] || t in ts[1..];
        r
  }

  /** `find(...) || templates[0]`: never undefined. */
  function GetTemplateById(id: string): (r: TemplateOption)
    ensures r in Registry
    ensures (exists t :: t in Registry && t.id == id) ==> r.id == id
    ensures (forall t :: t in Registry ==> t.id != id) ==> r == Registry[0]
  {
    match Find(Registry, id)
    case Some(t) => t
    case None => Registry[0]
  }

  /**
   * The class-string tokens of each branch, with an empty border colour that
   * the branch fills from the template's primary colour.
   */
  const BaseTokens :=
    TemplateStyles(
      "", "", "mb-8", "text-4xl font-bold mb-2", "text-2xl font-bold",
      "text-lg font-semibold mb-2", "w-full", "border-b-2 text-left py-3 font-semibold",
      "border-b", "py-3", "w-64", "flex justify-between py-2",
      "flex justify-between py-2 border-t-2 font-bold text-lg", "mt-8", None)

  /** `baseStyles`: the record every branch starts from or repeats. */
  function BaseStyles(template: TemplateOption): (r: TemplateStyles)
    ensures r.borderColor == template.primaryColor && r.pdf.None?
  {
    BaseTokens.(borderColor := template.primaryColor)
  }

  /** The "modern" branch: base tokens, its own container, and the document palette. */
  function ModernStyles(template: TemplateOption): (r: TemplateStyles)
    ensures r.borderColor == template.primaryColor && r.pdf.Some?
  {
    BaseStyles(template).(
      container := "bg-white border-l-4 rounded-sm shadow-md",
      pdf := Some(PdfStyle("Helvetica",
        DefaultPdfColors.(primary := template.primaryColor, accent := template.accentColor))))
  }

  const ClassicTokens :=
    TemplateStyles(
      "bg-slate-50 border border-slate-300 rounded-none shadow-md", "",
      "mb-8 border-b-2 pb-4", "text-3xl font-serif font-bold mb-2",
      "text-2xl font-serif font-bold", "text-lg font-serif font-semibold mb-2 border-b pb-1",
      "w-full", "border-b-2 text-left py-3 font-semibold", "border-b border-slate-200",
      "py-3", "w-64 border-t-2 mt-4 pt-2", "flex justify-between py-2",
      "flex justify-between py-2 border-t-2 font-bold text-lg", "mt-8 border-t-2 pt-4", None)

  function ClassicStyles(template: TemplateOption): (r: TemplateStyles)
    ensures r.borderColor == template.primaryColor && r.pdf.None?
  {
    ClassicTokens.(borderColor := template.primaryColor)
  }

  const MinimalTokens :=
    TemplateStyles(
      "bg-zinc-50 rounded-sm shadow-sm", "",
      "mb-8", "text-3xl font-bold mb-4", "text-xl font-bold", "text-base font-medium mb-2",
      "w-full", "border-b text-left py-3 font-medium", "border-b border-zinc-100",
      "py-3", "w-64", "flex justify-between py-2",
      "flex justify-between py-2 border-t font-bold text-base", "mt-8 pt-4 border-t", None)

  function MinimalStyles(template: TemplateOption): (r: TemplateStyles)
    ensures r.borderColor == template.primaryColor && r.pdf.None?
  {
    MinimalTokens.(borderColor := template.primaryColor)
  }

  const CreativeTokens :=
    TemplateStyles(
      "bg-gradient-to-br from-violet-50 to-fuchsia-50 rounded-lg shadow-lg", "",
      "mb-8",
      "text-4xl font-bold mb-2 bg-gradient-to-r from-violet-700 to-fuchsia-700 text-transparent bg-clip-text",
      "text-2xl font-bold bg-gradient-to-r from-violet-600 to-fuchsia-600 text-transparent bg-clip-text",
      "text-lg font-semibold mb-2 text-violet-700", "w-full",
      "border-b-2 border-violet-200 text-left py-3 font-semibold text-violet-800",
      "border-b border-violet-100", "py-3", "w-64 bg-white bg-opacity-50 p-4 rounded-lg",
      "flex justify-between py-2",
      "flex justify-between py-2 border-t-2 border-violet-300 font-bold text-lg text-violet-800",
      "mt-8 p-4 bg-white bg-opacity-50 rounded-lg", None)

  function CreativeStyles(template: TemplateOption): (r: TemplateStyles)
    ensures r.borderColor == template.primaryColor && r.pdf.None?
  {
    CreativeTokens.(borderColor := template.primaryColor)
  }

  /** The `default` branch, reached by every unregistered id. */
  function DefaultStyles(template: TemplateOption): (r: TemplateStyles)
    ensures r.borderColor == template.primaryColor && r.pdf.None?
  {
    BaseStyles(template).(container := "bg-white")
  }

  /** The `switch (template.id)` of the resolver; total over all ids. */
  function GetTemplateStyles(template: TemplateOption): (r: TemplateStyles)
    ensures r.borderColor == template.primaryColor
    ensures template.id == "modern" ==> r.pdf.Some?
    ensures template.id != "modern" ==> r.pdf.None?
  {
    match template.id
    case "modern" => ModernStyles(template)
    case "classic" => ClassicStyles(template)
    case "minimal" => MinimalStyles(template)
    case "creative" => CreativeStyles(template)
    case _ => DefaultStyles(template)
  }

  /** Every one of the thirteen class-string fields carries a non-empty token (the border colour comes from the template). */
  predicate AllFieldsFilled(s: TemplateStyles)
  {
    && s.container != "" && s.header != "" && s.title != "" && s.companyName != ""
    && s.sectionTitle != "" && s.table != "" && s.tableHeader != "" && s.tableRow != ""
    && s.tableCell != "" && s.totalSection != "" && s.totalRow != "" && s.grandTotal != ""
    && s.notes != ""
  }

  /** The thirteen class strings and the border colour agree (the `pdf` part is not compared). */
  predicate SameTokens(s: TemplateStyles, t: TemplateStyles)
  {
    s.(pdf := None) == t.(pdf := None)
  }

  // ---------------------------------------------------------------- lemmas

  lemma RegistryShape()
    ensures |Registry| == 4
    ensures Ids(Registry) == ["modern", "classic", "minimal", "creative"]
    ensures forall i, j :: 0 <= i < j < |Registry| ==> Registry[i].id != Registry[j].id
  {
  }

  /** A registered id is found; an unregistered one yields "modern". */
  lemma GetTemplateByIdCases(id: string)
    ensures id in Ids(Registry) ==> GetTemplateById(id).id == id
    ensures id !in Ids(Registry) ==> GetTemplateById(id) == Modern
  {
    RegistryShape();
    if id in Ids(Registry) {
      var i :| 0 <= i < 4 && Ids(Registry)[i] == id;
      assert Registry[i] in Registry;
    }
  }

  /** Only "modern" carries a palette: the defaults with primary and accent from the template. */
  lemma ModernPalette(template: TemplateOption)
    requires template.id == "modern"
    ensures GetTemplateStyles(template).pdf ==
      Some(PdfStyle("Helvetica", PdfColors(DefaultPdfColors.text, DefaultPdfColors.background,
        template.primaryColor, template.accentColor, DefaultPdfColors.border, DefaultPdfColors.muted)))
    ensures SameTokens(GetTemplateStyles(template),
                       BaseStyles(template).(container := "bg-white border-l-4 rounded-sm shadow-md"))
  {
  }

  /** Unknown ids reach the default branch: base tokens with container "bg-white", no palette. */
  lemma UnknownIdStyles(template: TemplateOption)
    requires template.id !in Ids(Registry)
    ensures GetTemplateStyles(template) == BaseStyles(template).(container := "bg-white")
    ensures GetTemplateStyles(template).pdf.None?
  {
    RegistryShape();
  }

  /** Every branch fills every string field, so the shape is uniform over all ids. */
  lemma StylesTotal(template: TemplateOption)
    ensures AllFieldsFilled(GetTemplateStyles(template))
  {
    match template.id
    case "modern" =>
    case "classic" =>
    case "minimal" =>
    case "creative" =>
    case _ =>
  }

  /** The four registered templates resolve to four different style records. */
  lemma RegisteredStylesDistinct(i: nat, j: nat)
    requires i < j < |Registry|
    ensures !SameTokens(GetTemplateStyles(Registry[i]), GetTemplateStyles(Registry[j]))
  {
    assert GetTemplateStyles(Registry[i]).container != GetTemplateStyles(Registry[j]).container;
  }
}
