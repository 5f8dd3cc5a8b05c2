/** The label designer component: the form, the loaded batch, the column
    mapping and the preferences as fields, the handlers that update them,
    the drawing of one label and the entry points of the exports. The form
    fields that getCurrentConfig gathers are held together as one
    configuration, `form` (its `qty` is the form's quantity). */
module Designer {
  import opened Js
  import opened Labels
  import opened Validation
  import opened RowMapper
  import opened Tiling
  import opened Batch
  import opened Exports
  import opened Compositor
  import opened Csv

  // -------------------------------------------------------------------
  // Size presets.

  datatype Template = Template(name: string, w: real, h: real, m: real)

  const CustomTemplate := "Custom"
  const DefaultTemplate := "50 x 30 mm"

  const Templates: seq<Template> :=
    [Template("50 x 30 mm", 50.0, 30.0, 5.0), Template("70 x 25 mm", 70.0, 25.0, 4.0),
     Template("100 x 50 mm", 100.0, 50.0, 6.0), Template(CustomTemplate, 0.0, 0.0, 0.0)]

  /** `templates.find(x => x.name === name)`: the first preset of that
      name, None when there is none. */
  function FindTemplate(ts: seq<Template>, name: string): (t: Option<Template>)
    ensures t.None? <==> forall i :: 0 <= i < |ts| ==> ts[i].name != name
    ensures t.Some? ==> exists i :: 0 <= i < |ts| && ts[i] == t.value && t.value.name == name
                                     && forall j :: 0 <= j < i ==> ts[j].name != name
  {
    if ts == [] then None
    else if ts[0].name == name then Some(ts[0])
    else
      var r := FindTemplate(ts[1..], name);
      if r.Some? then
        ghost var i :| 0 <= i < |ts[1..]| && ts[1..][i] == r.value && r.value.name == name
                       && forall j :: 0 <= j < i ==> ts[1..][j].name != name;
        assert ts[i + 1] == r.value;
        assert forall j :: 0 < j <= i ==> ts[j].name == ts[1..][j - 1].name;
        r
      else
        assert forall i :: 0 < i < |ts| ==> ts[i].name == ts[1..][i - 1].name;
        r
  }

  /** Every preset but Custom has a positive size, so picking one never
      brings the size error. */
  lemma PresetsHavePositiveSizes(name: string)
    requires name != CustomTemplate
    ensures var t := FindTemplate(Templates, name);
            t.Some? ==> t.value.w > 0.0 && t.value.h > 0.0 && t.value.m > 0.0
  {
    var t := FindTemplate(Templates, name);
    if t.Some? {
      var i :| 0 <= i < |Templates| && Templates[i] == t.value;
      assert i < 3;
    }
  }

  // -------------------------------------------------------------------
  // Defaults.

  /** The form's initial values, which resetForm restores. */
  const DefaultForm: LabelConfig :=
    LabelConfig("123456789012", "CODE128", Barcode, true, "", "", "", "", "", "",
                50.0, 30.0, 5.0, 300.0, Classic, Center, 0.10, 0.08, 0.07, 1.0)

  /** The default label passes validation. */
  lemma DefaultFormIsValid()
    ensures ValidateConfig(DefaultForm) == ""
  {
    assert "CODE128" !in StrictLengths;
  }

  /** The keys of the custom column mapping. The logo's key is `LogoUrl`,
      while the row mapper looks the logo's alias up under `Logo`. */
  const MappingKeys: seq<string> :=
    ["Codigo", "Tipo", "Modo", "Cantidad", "Descripcion", "Precio", "Lote", "Encabezado", "Pie",
     "Ancho_mm", "Alto_mm", "Margen_mm", "DPI", "Layout", "Alineacion", "EscalaEncabezado",
     "EscalaCuerpo", "EscalaPie", "LogoUrl"]

  /** The mapping with every key present and unset. */
  const EmptyMapping: AliasMap := map k | k in MappingKeys :: ""

  /** With the mapping cleared no field has an alias: every field is read
      from its recognised column names only. */
  lemma EmptyMappingHasNoAlias(canonical: string)
    ensures Alias(EmptyMapping, canonical) == []
  {
    if canonical in EmptyMapping {
      assert EmptyMapping[canonical] == "";
    }
  }

  const ClearAllPrompt := "Esto limpiará el formulario y también los datos cargados (Excel/lote). ¿Continuar?"
  const RestoreFormPrompt := "Esto restaurará el formulario a sus valores por defecto. ¿Continuar?"
  const ClearMappingPrompt := "Esto limpiará el mapeo de columnas personalizado. ¿Continuar?"
  const ClearBatchPrompt := "Esto limpiará los datos cargados del Excel/lote (no cambia el formulario ni el mapeo). ¿Continuar?"

  // -------------------------------------------------------------------
  // Pure pieces of the component's state logic.

  /** `excelRows.map(r => mapRowToConfig(r))`: one configuration per row,
      in row order (the `filter(Boolean)` after it removes nothing, since
      every configuration is an object). */
  function MapRows(rows: seq<Row>, m: AliasMap, form: LabelConfig, rt: Runtime): (items: seq<LabelConfig>)
    ensures |items| == |rows|
  {
    seq(|rows|, i requires 0 <= i < |rows| => MapRow(rows[i], m, form, rt))
  }

  /** The rows mapped to labels under the mapping and the form, and each
      label's validation message. */
  method LoadBatch(rows: seq<Row>, m: AliasMap, form: LabelConfig, rt: Runtime)
    returns (items: seq<LabelConfig>, errs: seq<string>)
    ensures items == MapRows(rows, m, form, rt) && errs == BatchErrors(items)
    ensures |items| == |rows| && |errs| == |rows|
  {
    items := MapRows(rows, m, form, rt);
    errs := BatchErrors(items);
  }

  /** updateFormError: no form error in batch mode, otherwise the form's
      validation message (None for `null`, when the form is valid). */
  function FormError(useBatch: bool, form: LabelConfig): (e: Option<string>)
    ensures e.Some? ==> e.value != "" && e.value == ValidateConfig(form)
    ensures e.None? <==> useBatch || ValidateConfig(form) == ""
  {
    if useBatch then None
    else
      var err := ValidateConfig(form);
      if err == "" then None else Some(err)
  }

  /** `batchItems[sel]` is a configuration only when `sel` is a whole
      number below the batch length. */
  predicate IsIndex(v: real, n: nat)
  {
    v == v.Floor as real && 0 <= v.Floor < n
  }

  /** The label the preview and exportPng show: the selected batch row in
      batch mode when the selection names a row, the form otherwise. */
  function Selected(items: seq<LabelConfig>, useBatch: bool, sel: Option<real>, form: LabelConfig): LabelConfig
  {
    if useBatch && sel.Some? && IsIndex(sel.value, |items|) then items[sel.value.Floor] else form
  }

  /** A row index selects that row in batch mode. */
  lemma SelectedRow(items: seq<LabelConfig>, form: LabelConfig, k: nat)
    requires k < |items|
    ensures Selected(items, true, Some(k as real), form) == items[k]
    ensures Selected(items, false, Some(k as real), form) == form
  {
    assert (k as real).Floor == k;
  }

  /** A fractional index inside the batch's range is accepted as the
      selection, yet the preview falls back to the form. */
  lemma FractionalSelectionShowsForm(items: seq<LabelConfig>, form: LabelConfig, v: real)
    requires 0.0 <= v < |items| as real && v != v.Floor as real
    ensures Selected(items, true, Some(v), form) == form
  {
  }

  /** The value a stored preference is read back as: a missing entry
      keeps the current value, any text other than `false` means true. */
  function PrefValue(stored: Option<string>, current: bool): bool
  {
    if stored.None? then current else stored.value != "false"
  }

  /** `String(b)`, as the preferences are stored. */
  function PrefText(b: bool): string
  {
    if b then "true" else "false"
  }

  /** A stored preference reads back as the value that was stored. */
  lemma PrefRoundTrip(b: bool, current: bool)
    ensures PrefValue(Some(PrefText(b)), current) == b
  {
    if b {
      assert PrefText(b)[0] == 't';
    }
  }

  /** The preview canvas side: `max(1, floor(mmToPx(mm, 96)))`. */
  function PreviewSide(mm: real): (px: int)
    ensures px >= 1
    ensures px > 1 ==> px as real <= MmToPx(mm, 96.0) < px as real + 1.0
  {
    Max(1, MmToPx(mm, 96.0).Floor)
  }

  /** The single PNG export: the file name, the label and the resolution
      it is rendered at. */
  datatype PngFile = PngFile(name: string, image: LabelConfig, dpi: real)

  /** One body line off the front of the remaining lines: drawn lines
      plus the lines still to draw stay the whole list. */
  lemma LineOpsStep(lines: seq<string>, k: nat, W: int, y: int, step: int, font: int, align: Align, env: Env,
                    drawn: seq<DrawOp>, whole: seq<DrawOp>)
    requires k < |lines|
    requires drawn + LineOps(lines[k..], W, y, step, font, align, env) == whole
    ensures (drawn + [BodyLineOp(lines[k], W, y, font, align, env)])
            + LineOps(lines[k + 1..], W, y + step, step, font, align, env) == whole
  {
    assert lines[k..][1..] == lines[k + 1..];
    var op := BodyLineOp(lines[k], W, y, font, align, env);
    var rest := LineOps(lines[k + 1..], W, y + step, step, font, align, env);
    assert LineOps(lines[k..], W, y, step, font, align, env) == [op] + rest;
    assert (drawn + [op]) + rest == drawn + ([op] + rest);
  }

  // -------------------------------------------------------------------
  // The parts of drawLabelToCanvasWith that leave the component alone.

  /** The background, the header and the logos. */
  method DrawFront(c: LabelConfig, W: int, H: int, env: Env) returns (ops: seq<DrawOp>)
    requires ValidEnv(env)
    ensures ops == [FillRect(Background, 0, 0, W, H)] + HeaderOps(c, W, H, env) + LogoOps(c, W, H, AreaTop(c, H), env)
  {
    ops := [FillRect(Background, 0, 0, W, H)];
    var pad := Pad(H);
    var y := pad;
    if c.headerText != "" {
      var font := HeaderFont(c, H);
      var tx := HeaderX(W, pad, env.measure(font, c.headerText));
      ops := ops + [FillText(HeaderLine, c.headerText, tx, y, font)];
      y := y + HeaderGap(H);
    }
    var logos := DrawLogos(c, W, H, y, env);
    ops := ops + logos;
  }

  /** The logo at the top left, and again in the left strip in the
      logo-left layout; nothing when there is no logo or it fails to
      load. */
  method DrawLogos(c: LabelConfig, W: int, H: int, y: int, env: Env) returns (ops: seq<DrawOp>)
    requires ValidEnv(env)
    ensures ops == LogoOps(c, W, H, y, env)
  {
    ops := [];
    var pad := Pad(H);
    if c.logo != "" && env.logoImage.Some? {
      var iw, ih := env.logoImage.value.0, env.logoImage.value.1;
      var size := FitLogo(iw, ih, LogoBoxW(W), LogoBoxH(H));
      ops := [DrawLogo(pad, y, size.0, size.1)];
    }
    if c.layout == LogoLeft && c.logo != "" && env.logoImage.Some? {
      var iw, ih := env.logoImage.value.0, env.logoImage.value.1;
      var size := FitLogo(iw, ih, LogoBoxW(W), SideBoxH(H));
      ops := ops + [DrawLogo(pad, y, size.0, size.1)];
    }
  }

  /** The body lines pushed in order: description, price, lot. */
  method CollectLines(c: LabelConfig) returns (lines: seq<string>)
    ensures lines == BodyLines(c)
  {
    lines := [];
    if c.description != "" {
      lines := lines + [c.description];
    }
    if c.price != "" {
      lines := lines + ["Precio: " + c.price];
    }
    if c.lot != "" {
      lines := lines + ["Lote: " + c.lot];
    }
  }

  /** The body lines, each drawn aligned and one step below the last. */
  method DrawBody(c: LabelConfig, W: int, H: int, y: int, env: Env) returns (ops: seq<DrawOp>)
    ensures ops == LineOps(BodyLines(c), W, y, LineStep(c, H), BodyFont(c, H), c.bodyAlign, env)
  {
    var lines := CollectLines(c);
    ops := DrawLines(lines, W, y, LineStep(c, H), BodyFont(c, H), c.bodyAlign, env);
  }

  /** The loop over the lines, moving down one step after each. */
  method DrawLines(lines: seq<string>, W: int, y: int, step: int, font: int, align: Align, env: Env)
    returns (ops: seq<DrawOp>)
    ensures ops == LineOps(lines, W, y, step, font, align, env)
  {
    var textY := y;
    ops := [];
    for k := 0 to |lines|
      invariant ops + LineOps(lines[k..], W, textY, step, font, align, env) == LineOps(lines, W, y, step, font, align, env)
    {
      var op := BodyLineOp(lines[k], W, textY, font, align, env);
      LineOpsStep(lines, k, W, textY, step, font, align, env, ops, LineOps(lines, W, y, step, font, align, env));
      ops := ops + [op];
      textY := textY + step;
    }
    assert lines[|lines|..] == [];
  }

  /** The footer, aligned like the body, one footer line above the
      bottom padding. */
  method DrawFooter(c: LabelConfig, W: int, H: int, env: Env) returns (ops: seq<DrawOp>)
    ensures ops == FooterOps(c, W, H, env)
  {
    ops := [];
    if c.footerText != "" {
      var font := FooterFont(c, H);
      ops := [FillText(FooterLine, c.footerText, AlignX(c.bodyAlign, W, env.measure(font, c.footerText)), FooterY(c, H), font)];
    }
  }

  /** The composition when the generator draws, assembled from its
      parts. */
  lemma ComposeDrawn(c: LabelConfig, W: int, H: int, env: Env, front: seq<DrawOp>, code: seq<DrawOp>, body: seq<DrawOp>)
    requires ValidEnv(env) && env.code.Drawn?
    requires front == [FillRect(Background, 0, 0, W, H)] + HeaderOps(c, W, H, env) + LogoOps(c, W, H, AreaTop(c, H), env)
    requires code == CodeOps(c, W, H, AreaTop(c, H), AreaHeight(c, H), env.code.width, env.code.height)
    requires body == LineOps(BodyLines(c), W, AreaTop(c, H) + AreaHeight(c, H) + BodyGap(H),
                             LineStep(c, H), BodyFont(c, H), c.bodyAlign, env)
    ensures Compose(c, W, H, env) == (front + code + body + FooterOps(c, W, H, env), None)
  {
  }

  /** The composition when the generator throws. */
  lemma ComposeThrew(c: LabelConfig, W: int, H: int, env: Env, front: seq<DrawOp>)
    requires ValidEnv(env) && env.code.Threw?
    requires front == [FillRect(Background, 0, 0, W, H)] + HeaderOps(c, W, H, env) + LogoOps(c, W, H, AreaTop(c, H), env)
    ensures Compose(c, W, H, env)
            == (front + Placeholder(c, W, H, AreaTop(c, H), AreaHeight(c, H)), Some(FailureMessage(c, env.code.message)))
  {
  }

  /** The generator's environment for every label an export renders. */
  ghost predicate ValidEnvs(envOf: LabelConfig -> Env)
  {
    forall c :: ValidEnv(envOf(c))
  }

  /** The renderError `buildLabelDataUrlFrom(c, dpi)` leaves: the canvas is
      sized from the label at `dpi` and the label drawn on it. */
  function RenderError(c: LabelConfig, dpi: real, env: Env): Option<string>
    requires ValidEnv(env)
  {
    Compose(c, CanvasSide(c.widthMm, dpi), CanvasSide(c.heightMm, dpi), env).1
  }

  /** After rendering `labels` in turn, the renderError the last one left,
      or the earlier one when nothing was rendered. */
  function LastRenderError(labels: seq<LabelConfig>, dpi: real, envOf: LabelConfig -> Env, prior: Option<string>): Option<string>
    requires ValidEnvs(envOf)
  {
    if labels == [] then prior
    else var c := labels[|labels| - 1]; RenderError(c, dpi, envOf(c))
  }

  /** A render clears renderError exactly when its generator draws, and
      otherwise leaves the generator's message: an export whose last label
      draws wipes an earlier preview failure. */
  lemma RenderErrorOutcome(c: LabelConfig, dpi: real, env: Env)
    requires ValidEnv(env)
    ensures env.code.Drawn? <==> RenderError(c, dpi, env) == None
    ensures env.code.Threw? ==> RenderError(c, dpi, env) == Some(FailureMessage(c, env.code.message))
  {
  }

  /** Rendering one more label replaces whatever renderError was left. */
  lemma LastRenderErrorSnoc(labels: seq<LabelConfig>, c: LabelConfig, dpi: real,
                             envOf: LabelConfig -> Env, prior: Option<string>)
    requires ValidEnvs(envOf)
    ensures LastRenderError(labels + [c], dpi, envOf, prior) == RenderError(c, dpi, envOf(c))
    ensures LastRenderError(labels + [c], dpi, envOf, prior) == LastRenderError([c], dpi, envOf, None)
  {
  }

  /** Clamping a selection to the last row keeps it inside the batch, and
      leaves a whole-number row index as it was. */
  lemma ClampSelection(v: real, n: nat)
    requires 0.0 <= v < n as real
    ensures 0.0 <= MinR(v, (n - 1) as real) < n as real
    ensures IsIndex(v, n) ==> MinR(v, (n - 1) as real) == v
  {
  }

  // -------------------------------------------------------------------
  // The component.

  class LabelDesigner {
    var form: LabelConfig
    var selectedTemplate: string
    var pageFormat: PageFormat
    var renderError: Option<string>
    var formError: Option<string>
    var batchItems: seq<LabelConfig>
    var batchErrors: seq<string>
    var excelRows: seq<Row>
    var selectedBatchIndex: Option<real>
    var useBatch: bool
    var customMap: AliasMap
    var confirmOnResetForm: bool
    var confirmOnResetMapping: bool

    /** The batch is the mapping of the sheet's rows, the errors are its
        validation, and a selection exists exactly when the batch is not
        empty and lies within it. */
    predicate Valid()
      reads this
    {
      batchErrors == BatchErrors(batchItems)
      && |excelRows| == |batchItems|
      && (selectedBatchIndex.Some? <==> |batchItems| > 0)
      && (selectedBatchIndex.Some? ==> 0.0 <= selectedBatchIndex.value < |batchItems| as real)
    }

    /** The component's initial state. */
    constructor()
      ensures Valid()
      ensures form == DefaultForm && selectedTemplate == DefaultTemplate && pageFormat == A4
      ensures renderError == None && formError == None
      ensures batchItems == [] && batchErrors == [] && excelRows == []
      ensures selectedBatchIndex == None && !useBatch
      ensures customMap == EmptyMapping
      ensures confirmOnResetForm && confirmOnResetMapping
    {
      form := DefaultForm;
      selectedTemplate := DefaultTemplate;
      pageFormat := A4;
      renderError := None;
      formError := None;
      batchItems := [];
      batchErrors := [];
      excelRows := [];
      selectedBatchIndex := None;
      useBatch := false;
      customMap := EmptyMapping;
      confirmOnResetForm := true;
      confirmOnResetMapping := true;
    }

    /** ngOnInit: the two preferences read from storage (None for an
        entry that is missing or storage that cannot be read). */
    method LoadPreferences(storedForm: Option<string>, storedMapping: Option<string>)
      modifies this`confirmOnResetForm, this`confirmOnResetMapping
      ensures confirmOnResetForm == PrefValue(storedForm, old(confirmOnResetForm))
      ensures confirmOnResetMapping == PrefValue(storedMapping, old(confirmOnResetMapping))
    {
      if storedForm.Some? {
        confirmOnResetForm := storedForm.value != "false";
      }
      if storedMapping.Some? {
        confirmOnResetMapping := storedMapping.value != "false";
      }
    }

    /** onToggleConfirmPrefs: the texts written to storage. */
    method SavePreferences() returns (storedForm: string, storedMapping: string)
      ensures storedForm == PrefText(confirmOnResetForm)
      ensures storedMapping == PrefText(confirmOnResetMapping)
      ensures PrefValue(Some(storedForm), false) == confirmOnResetForm
      ensures PrefValue(Some(storedMapping), false) == confirmOnResetMapping
    {
      storedForm := if confirmOnResetForm then "true" else "false";
      storedMapping := if confirmOnResetMapping then "true" else "false";
      PrefRoundTrip(confirmOnResetForm, false);
      PrefRoundTrip(confirmOnResetMapping, false);
    }

    /** getCurrentConfig. */
    function CurrentConfig(): LabelConfig
      reads this
    {
      form
    }

    /** The batchErrorCount getter: the number of rows with a message. */
    function BatchErrorCount(): (n: nat)
      reads this
      ensures n == |FlaggedRows(batchErrors)|
    {
      ErrorCountIsFlaggedRows(batchErrors);
      ErrorCount(batchErrors)
    }

    /** The batchHasErrors getter. */
    function BatchHasErrors(): (b: bool)
      reads this
      ensures b <==> BatchErrorCount() > 0
    {
      HasErrorsIffCount(batchErrors);
      HasErrors(batchErrors)
    }

    /** The label the preview and exportPng show. */
    function SelectedConfig(): LabelConfig
      reads this
    {
      Selected(batchItems, useBatch, selectedBatchIndex, form)
    }

    /** What renderPreview leaves: the selected label composed on the
        preview canvas, sized from the form at 96 dpi, and the renderError
        of that composition. */
    function Preview(env: Env): (seq<DrawOp>, Option<string>)
      reads this
      requires ValidEnv(env)
    {
      Compose(SelectedConfig(), PreviewSide(form.widthMm), PreviewSide(form.heightMm), env)
    }

    /** updateFormError. */
    method UpdateFormError()
      modifies this`formError
      ensures formError == FormError(useBatch, form)
    {
      if useBatch {
        formError := None;
        return;
      }
      var err := ValidateConfig(form);
      formError := if err == "" then None else Some(err);
    }

    /** onChange: the form error is recomputed and the preview redrawn. */
    method OnChange(env: Env) returns (preview: seq<DrawOp>)
      requires ValidEnv(env)
      modifies this`formError, this`renderError
      ensures formError == FormError(useBatch, form)
      ensures (preview, renderError) == Preview(env)
    {
      UpdateFormError();
      preview := RedrawPreview(env);
    }

    /** onTemplateChange: a preset other than Custom sets the size and
        margin; the form error is then recomputed and the preview
        redrawn. */
    method OnTemplateChange(env: Env) returns (preview: seq<DrawOp>)
      requires ValidEnv(env)
      modifies this`form, this`formError, this`renderError
      ensures var t := FindTemplate(Templates, selectedTemplate);
              form == if t.Some? && t.value.name != CustomTemplate
                      then old(form).(widthMm := t.value.w, heightMm := t.value.h, marginMm := t.value.m)
                      else old(form)
      ensures formError == FormError(useBatch, form)
      ensures (preview, renderError) == Preview(env)
    {
      ApplyTemplate();
      UpdateFormError();
      preview := RedrawPreview(env);
    }

    /** The size and margin of the selected preset, unless it is Custom. */
    method ApplyTemplate()
      modifies this`form
      ensures var t := FindTemplate(Templates, selectedTemplate);
              form == if t.Some? && t.value.name != CustomTemplate
                      then old(form).(widthMm := t.value.w, heightMm := t.value.h, marginMm := t.value.m)
                      else old(form)
    {
      var t := FindTemplate(Templates, selectedTemplate);
      if t.Some? && t.value.name != CustomTemplate {
        form := form.(widthMm := t.value.w, heightMm := t.value.h, marginMm := t.value.m);
      }
    }

    /** The logo file's data URL once read (`String(result || '')`); the
        preview is redrawn with it. */
    method OnLogoLoaded(dataUrl: string, env: Env) returns (preview: seq<DrawOp>)
      requires ValidEnv(env)
      modifies this`form, this`renderError
      ensures form == old(form).(logo := dataUrl)
      ensures (preview, renderError) == Preview(env)
    {
      form := form.(logo := dataUrl);
      preview := RedrawPreview(env);
    }

    /** clearLogo: the logo removed and the preview redrawn. */
    method ClearLogo(env: Env) returns (preview: seq<DrawOp>)
      requires ValidEnv(env)
      modifies this`form, this`renderError
      ensures form == old(form).(logo := "")
      ensures (preview, renderError) == Preview(env)
    {
      form := form.(logo := "");
      preview := RedrawPreview(env);
    }

    /** onExcelSelected, from the rows of the workbook's first sheet (None
        when no file was chosen): the batch is rebuilt and validated, batch
        mode is on exactly when there are rows, and the first row is
        selected. */
    method OnExcelSelected(rows: Option<seq<Row>>, rt: Runtime)
      requires Valid()
      modifies this`excelRows, this`batchItems, this`batchErrors, this`useBatch, this`selectedBatchIndex
      ensures Valid()
      ensures rows.None? ==> excelRows == old(excelRows) && batchItems == old(batchItems)
                             && useBatch == old(useBatch) && selectedBatchIndex == old(selectedBatchIndex)
      ensures rows.Some? ==> excelRows == rows.value
                             && batchItems == MapRows(rows.value, old(customMap), old(form), rt)
                             && useBatch == (|rows.value| > 0)
                             && selectedBatchIndex == (if |rows.value| > 0 then Some(0.0) else None)
    {
      if rows.None? {
        return;
      }
      var items, errs := LoadBatch(rows.value, customMap, form, rt);
      excelRows := rows.value;
      batchItems := items;
      batchErrors := errs;
      useBatch := |items| > 0;
      selectedBatchIndex := if |items| > 0 then Some(0.0) else None;
    }

    /** applyCustomMapping: the loaded rows are mapped again under the
        current mapping and form, the selection is clamped to the last row
        and the preview redrawn; without loaded rows nothing happens. The
        batch keeps its length, so a whole-number selection is kept as it
        was. */
    method ApplyCustomMapping(rt: Runtime, env: Env) returns (preview: Option<seq<DrawOp>>)
      requires Valid() && ValidEnv(env)
      modifies this`batchItems, this`batchErrors, this`selectedBatchIndex, this`renderError
      ensures Valid()
      ensures preview.Some? <==> |old(excelRows)| > 0
      ensures preview.Some? ==> (preview.value, renderError) == Preview(env)
      ensures preview.None? ==> renderError == old(renderError)
      ensures |old(excelRows)| == 0 ==> batchItems == old(batchItems)
      ensures |old(excelRows)| > 0 ==> batchItems == MapRows(old(excelRows), old(customMap), old(form), rt)
      ensures |old(excelRows)| > 0 ==>
                selectedBatchIndex == Some(MinR(old(selectedBatchIndex).value, (|batchItems| - 1) as real))
      ensures old(selectedBatchIndex).Some? && IsIndex(old(selectedBatchIndex).value, |batchItems|) ==>
                selectedBatchIndex == old(selectedBatchIndex)
    {
      if |excelRows| == 0 {
        return None;
      }
      var items, errs := LoadBatch(excelRows, customMap, form, rt);
      var current := if selectedBatchIndex.Some? then selectedBatchIndex.value else 0.0;
      batchItems := items;
      batchErrors := errs;
      if |items| > 0 {
        ClampSelection(current, |items|);
        selectedBatchIndex := Some(MinR(current, (|items| - 1) as real));
      }
      var ops := RedrawPreview(env);
      preview := Some(ops);
    }

    /** setSelectedBatchIndex: a string is read with `Number`; the index
        is taken, and the preview redrawn, when it is finite and inside the
        batch. */
    method SetSelectedBatchIndex(i: Cell, rt: Runtime, env: Env) returns (preview: Option<seq<DrawOp>>)
      requires i.Str? || i.Num?
      requires Valid() && ValidEnv(env)
      modifies this`selectedBatchIndex, this`renderError
      ensures Valid()
      ensures var idx := if i.Str? then rt.parseNumber(i.s) else Some(i.n);
              && (preview.Some? <==> idx.Some? && 0.0 <= idx.value < |batchItems| as real)
              && selectedBatchIndex == if preview.Some? then idx else old(selectedBatchIndex)
      ensures preview.Some? ==> (preview.value, renderError) == Preview(env)
      ensures preview.None? ==> renderError == old(renderError)
    {
      var idx := if i.Str? then rt.parseNumber(i.s) else Some(i.n);
      preview := None;
      if idx.Some? && 0.0 <= idx.value < |batchItems| as real {
        selectedBatchIndex := idx;
        var ops := RedrawPreview(env);
        preview := Some(ops);
      }
    }

    /** resetForm: the prompt shown (None when confirmation is off) and
        the user's answer to it. Confirmed, the form returns to its
        defaults, the batch is cleared and the preview redrawn; the mapping
        is kept. */
    method ResetForm(confirmed: bool, env: Env) returns (prompt: Option<string>, preview: Option<seq<DrawOp>>)
      requires Valid() && ValidEnv(env)
      modifies this`form, this`selectedTemplate, this`pageFormat, this`batchItems, this`batchErrors,
               this`excelRows, this`selectedBatchIndex, this`useBatch, this`renderError
      ensures Valid()
      ensures preview.Some? <==> prompt.None? || confirmed
      ensures preview.Some? ==> (preview.value, renderError) == Preview(env)
      ensures preview.None? ==> renderError == old(renderError)
      ensures prompt == if old(confirmOnResetForm)
                        then Some(if |old(batchItems)| > 0 || old(useBatch) then ClearAllPrompt else RestoreFormPrompt)
                        else None
      ensures prompt.Some? && !confirmed ==>
                form == old(form) && batchItems == old(batchItems) && useBatch == old(useBatch)
                && selectedTemplate == old(selectedTemplate) && pageFormat == old(pageFormat)
                && excelRows == old(excelRows) && selectedBatchIndex == old(selectedBatchIndex)
      ensures prompt.None? || confirmed ==>
                form == DefaultForm && selectedTemplate == DefaultTemplate && pageFormat == A4
                && batchItems == [] && batchErrors == [] && excelRows == []
                && selectedBatchIndex == None && !useBatch
    {
      prompt, preview := None, None;
      if confirmOnResetForm {
        prompt := Some(if |batchItems| > 0 || useBatch then ClearAllPrompt else RestoreFormPrompt);
        if !confirmed {
          return;
        }
      }
      RestoreDefaults();
      var ops := RedrawPreview(env);
      preview := Some(ops);
    }

    /** resetForm's assignments: the form's defaults and an empty batch. */
    method RestoreDefaults()
      modifies this`form, this`selectedTemplate, this`pageFormat, this`batchItems, this`batchErrors,
               this`excelRows, this`selectedBatchIndex, this`useBatch
      ensures Valid()
      ensures form == DefaultForm && selectedTemplate == DefaultTemplate && pageFormat == A4
              && batchItems == [] && batchErrors == [] && excelRows == []
              && selectedBatchIndex == None && !useBatch
    {
      form := DefaultForm;
      selectedTemplate := DefaultTemplate;
      pageFormat := A4;
      batchItems := [];
      batchErrors := [];
      excelRows := [];
      selectedBatchIndex := None;
      useBatch := false;
    }

    /** resetMapping: every key of the mapping unset, after confirmation
        when it is asked for. */
    method ResetMapping(confirmed: bool) returns (prompt: Option<string>)
      modifies this`customMap
      ensures prompt == if confirmOnResetMapping then Some(ClearMappingPrompt) else None
      ensures customMap == if prompt.Some? && !confirmed then old(customMap) else EmptyMapping
    {
      prompt := None;
      if confirmOnResetMapping {
        prompt := Some(ClearMappingPrompt);
        if !confirmed {
          return;
        }
      }
      customMap := EmptyMapping;
    }

    /** resetBatch: the loaded batch cleared, asking first only when
        confirmation is on and there is a batch to lose; the form and the
        mapping are kept. */
    method ResetBatch(confirmed: bool) returns (prompt: Option<string>)
      requires Valid()
      modifies this`batchItems, this`batchErrors, this`excelRows, this`selectedBatchIndex, this`useBatch
      ensures Valid()
      ensures prompt == if confirmOnResetForm && (|old(batchItems)| > 0 || old(useBatch))
                        then Some(ClearBatchPrompt) else None
      ensures prompt.Some? && !confirmed ==>
                batchItems == old(batchItems) && excelRows == old(excelRows)
                && useBatch == old(useBatch) && selectedBatchIndex == old(selectedBatchIndex)
      ensures prompt.None? || confirmed ==>
                batchItems == [] && batchErrors == [] && excelRows == [] && selectedBatchIndex == None && !useBatch
    {
      prompt := None;
      if confirmOnResetForm && (|batchItems| > 0 || useBatch) {
        prompt := Some(ClearBatchPrompt);
        if !confirmed {
          return;
        }
      }
      batchItems := [];
      batchErrors := [];
      excelRows := [];
      selectedBatchIndex := None;
      useBatch := false;
    }

    // -----------------------------------------------------------------
    // Drawing.

    /** drawLabelToCanvasWith on a W x H canvas: the instructions drawn and
        the value renderError is left with are those of the composition. */
    method DrawLabel(c: LabelConfig, W: int, H: int, env: Env) returns (ops: seq<DrawOp>)
      requires ValidEnv(env)
      modifies this`renderError
      ensures (ops, renderError) == Compose(c, W, H, env)
    {
      var front := DrawFront(c, W, H, env);
      var areaY := AreaTop(c, H);
      var areaHeight := AreaHeight(c, H);
      var code := DrawCode(c, W, H, areaY, areaHeight, env.code);
      if env.code.Threw? {
        ops := front + code;
        ComposeThrew(c, W, H, env, front);
        return;
      }
      var body := DrawBody(c, W, H, areaY + areaHeight + BodyGap(H), env);
      var footer := DrawFooter(c, W, H, env);
      ops := front + code + body + footer;
      ComposeDrawn(c, W, H, env, front, code, body);
    }

    /** The barcode or the QR code in its area; when the generator throws,
        renderError takes its message and the placeholder is drawn
        instead. */
    method DrawCode(c: LabelConfig, W: int, H: int, areaY: int, areaHeight: int, outcome: Outcome)
      returns (ops: seq<DrawOp>)
      modifies this`renderError
      ensures outcome.Threw? ==> ops == Placeholder(c, W, H, areaY, areaHeight)
                                 && renderError == Some(FailureMessage(c, outcome.message))
      ensures outcome.Drawn? ==> ops == CodeOps(c, W, H, areaY, areaHeight, outcome.width, outcome.height)
                                 && renderError == None
    {
      var pad := Pad(H);
      var errorFont := ErrorFont(H);
      if c.mode == Barcode {
        // The canvas handed to the generator, which resizes it as it draws.
        var bcW, bcH := Max(10, W - pad * 2), Max(10, areaHeight);
        var options := Options(c, W, H, areaHeight);
        if outcome.Threw? {
          renderError := Some(BarcodeFailurePrefix + outcome.message);
          ops := [FillRect(ErrorFill, pad, areaY, W - pad * 2, areaHeight),
                  FillText(ErrorLine, BarcodePlaceholder, (pad + 6) as real, areaY + 6, errorFont)];
          return;
        }
        renderError := None;
        bcW, bcH := outcome.width, outcome.height;
        var dx := CenterOffset(W, bcW);
        if c.layout == LogoLeft && c.logo != "" {
          dx := Max(dx, QuarterWidth(W));
        }
        ops := [DrawBarcode(dx, areaY, bcW, bcH, options)];
      } else {
        var qrSize := QrBase(W, H);
        if c.layout == LogoLeft && c.logo != "" {
          qrSize := QrShrunk(qrSize);
        }
        if outcome.Threw? {
          renderError := Some(QrFailurePrefix + outcome.message);
          ops := [FillRect(ErrorFill, pad, areaY, W - pad * 2, areaHeight),
                  FillText(ErrorLine, QrPlaceholder, (pad + 6) as real, areaY + 6, errorFont)];
          return;
        }
        ops := [DrawQr(CenterOffset(W, qrSize), areaY + CenterOffset(areaHeight, qrSize), qrSize)];
        renderError := None;
      }
    }

    /** buildLabelDataUrlFrom: the canvas sized from the label at `dpi`,
        then drawn. */
    method BuildLabel(cfg: LabelConfig, dpi: real, env: Env) returns (ops: seq<DrawOp>, W: int, H: int)
      requires ValidEnv(env)
      modifies this`renderError
      ensures W == CanvasSide(cfg.widthMm, dpi) && H == CanvasSide(cfg.heightMm, dpi)
      ensures (ops, renderError) == Compose(cfg, W, H, env)
    {
      W := Max(10, Round(MmToPx(cfg.widthMm, dpi)));
      H := Max(10, Round(MmToPx(cfg.heightMm, dpi)));
      ops := DrawLabel(cfg, W, H, env);
    }

    /** renderPreview: the canvas is sized from the form at 96 dpi, and the
        selected label is drawn on it. */
    method RenderPreview(env: Env) returns (ops: seq<DrawOp>, W: int, H: int)
      requires ValidEnv(env)
      modifies this`renderError
      ensures W == PreviewSide(form.widthMm) && H == PreviewSide(form.heightMm)
      ensures (ops, renderError) == Compose(SelectedConfig(), W, H, env)
    {
      W := Max(1, MmToPx(form.widthMm, 96.0).Floor);
      H := Max(1, MmToPx(form.heightMm, 96.0).Floor);
      var cfg := if useBatch && selectedBatchIndex.Some? && IsIndex(selectedBatchIndex.value, |batchItems|)
                 then batchItems[selectedBatchIndex.value.Floor] else form;
      ops := DrawLabel(cfg, W, H, env);
    }

    /** renderPreview as the handlers call it: the preview's drawing. */
    method RedrawPreview(env: Env) returns (preview: seq<DrawOp>)
      requires ValidEnv(env)
      modifies this`renderError
      ensures (preview, renderError) == Preview(env)
    {
      var W, H;
      preview, W, H := RenderPreview(env);
    }

    // -----------------------------------------------------------------
    // Exports, on the component's own state.

    /** The form's page grid is defined when neither the label width nor
        its height cancels the margin. */
    predicate GridDefined()
      reads this
    {
      form.widthMm + form.marginMm != 0.0 && form.heightMm + form.marginMm != 0.0
    }

    /** The grid the form's page format, label size and margin give. */
    function PageGrid(): (g: Grid)
      reads this
      requires GridDefined()
      ensures ValidGrid(g)
    {
      MakeGrid(pageFormat, form.widthMm, form.heightMm, form.marginMm)
    }

    /** exportPdf on the component: the batch or the form's quantity, at
        the form's resolution. */
    /** The exports' renders: `buildLabelDataUrlFrom` on each label in
        turn, each drawing rewriting renderError. */
    method RenderEach(labels: seq<LabelConfig>, dpi: real, envOf: LabelConfig -> Env)
      requires ValidEnvs(envOf)
      modifies this`renderError
      ensures renderError == LastRenderError(labels, dpi, envOf, old(renderError))
    {
      for i := 0 to |labels|
        invariant renderError == LastRenderError(labels[..i], dpi, envOf, old(renderError))
      {
        var c := labels[i];
        var ops, W, H := BuildLabel(c, dpi, envOf(c));
        assert labels[..i + 1] == labels[..i] + [c];
        LastRenderErrorSnoc(labels[..i], c, dpi, envOf, old(renderError));
      }
      assert labels[..|labels|] == labels;
    }

    method ExportPdf(envOf: LabelConfig -> Env) returns (doc: PdfDocument)
      requires Valid() && GridDefined() && ValidEnvs(envOf)
      modifies this`renderError
      ensures var items := ExportItems(batchItems, useBatch, form, form.qty);
              doc == PdfDocument(PdfFileName, form.dpi,
                                 PdfOpsFixed(items, ExportFlags(batchItems, batchErrors, useBatch), PageGrid(), |items|))
      ensures useBatch && |batchItems| > 0 ==> AnnotatedImages(Annotate(doc.ops)) == Expand(ValidRows(batchItems))
      ensures !(useBatch && |batchItems| > 0) ==> AnnotatedImages(Annotate(doc.ops)) == Repeat(form, SingleCount(form.qty))
      ensures renderError == LastRenderError(AnnotatedImages(Annotate(doc.ops)), form.dpi, envOf, old(renderError))
    {
      doc := Exports.ExportPdf(batchItems, batchErrors, useBatch, form, form.qty, PageGrid(), form.dpi);
      if useBatch && |batchItems| > 0 {
        ExportPdfDrawsValidCopies(batchItems, form, form.qty, PageGrid());
      } else {
        ExportPdfSingleDrawsAll(batchItems, batchErrors, useBatch, form, form.qty, PageGrid());
      }
      RenderEach(AnnotatedImages(Annotate(doc.ops)), form.dpi, envOf);
    }

    /** printPage on the component. */
    method PrintPage(envOf: LabelConfig -> Env) returns (pages: seq<seq<Placement<LabelConfig>>>)
      requires Valid() && GridDefined() && ValidEnvs(envOf)
      modifies this`renderError
      ensures pages == PrintSpec(ExportItems(batchItems, useBatch, form, form.qty),
                                 ExportFlags(batchItems, batchErrors, useBatch), PageGrid())
      ensures useBatch && |batchItems| > 0 ==> PrintedImages(pages) == Expand(ValidRows(batchItems))
      ensures renderError == LastRenderError(PrintedImages(pages), form.dpi, envOf, old(renderError))
    {
      pages := Exports.PrintPage(batchItems, batchErrors, useBatch, form, form.qty, PageGrid());
      if useBatch && |batchItems| > 0 {
        PrintPageShowsValidCopies(batchItems, form, form.qty, PageGrid());
      }
      RenderEach(PrintedImages(pages), form.dpi, envOf);
    }

    /** exportPdfPorFila on the component: the copies of each unflagged
        row are rendered in row order. */
    method ExportPdfPerRow(envOf: LabelConfig -> Env) returns (docs: seq<PdfDocument>)
      requires Valid() && GridDefined() && ValidEnvs(envOf)
      modifies this`renderError
      ensures docs == if useBatch && |batchItems| > 0
                      then RowDocuments(batchItems, batchErrors, PageGrid(), form.dpi, |batchItems|) else []
      ensures renderError == LastRenderError(if useBatch && |batchItems| > 0 then Expand(ValidRows(batchItems)) else [],
                                             form.dpi, envOf, old(renderError))
    {
      if useBatch && |batchItems| > 0 {
        RenderEach(Expand(ValidRows(batchItems)), form.dpi, envOf);
      }
      docs := Exports.ExportPdfPerRow(batchItems, batchErrors, useBatch, PageGrid(), form.dpi);
    }

    /** exportPngPorFilaZip on the component: the renders of the images in
        the order they are written, and the archive they fill. */
    method ExportPngZip(rt: Runtime, envOf: LabelConfig -> Env) returns (zip: Option<ZipArchive>)
      requires Valid() && ValidEnvs(envOf)
      modifies this`renderError
      ensures zip.Some? <==> useBatch && |batchItems| > 0
      ensures zip.Some? ==> zip.value.dpi == form.dpi
                            && EntryImages(zip.value.entries) == Expand(ValidRows(batchItems))
                            && zip.value.summary == CsvText(SummaryHeaders, Summary(batchItems, batchErrors, |batchItems|), rt)
      ensures zip.Some? && DistinctFolders(batchItems, batchErrors, |batchItems|) ==>
                |ArchiveFiles(zip.value.entries)| == |Expand(ValidRows(batchItems))|
      ensures renderError == LastRenderError(if zip.Some? then EntryImages(zip.value.entries) else [],
                                             form.dpi, envOf, old(renderError))
    {
      if useBatch && |batchItems| > 0 {
        RenderEach(Expand(ValidRows(batchItems)), form.dpi, envOf);
      }
      zip := ZipArchiveOf(rt);
    }

    /** The archive exportPngPorFilaZip builds from the batch. */
    method ZipArchiveOf(rt: Runtime) returns (zip: Option<ZipArchive>)
      requires Valid()
      ensures zip.Some? <==> useBatch && |batchItems| > 0
      ensures zip.Some? ==> zip.value.dpi == form.dpi
                            && EntryImages(zip.value.entries) == Expand(ValidRows(batchItems))
                            && zip.value.summary == CsvText(SummaryHeaders, Summary(batchItems, batchErrors, |batchItems|), rt)
      ensures zip.Some? && DistinctFolders(batchItems, batchErrors, |batchItems|) ==>
                |ArchiveFiles(zip.value.entries)| == |Expand(ValidRows(batchItems))|
    {
      zip := Exports.ExportPngZip(batchItems, batchErrors, useBatch, form.dpi, rt);
      if zip.Some? {
        ZipImagesAreValidCopies(batchItems);
        if DistinctFolders(batchItems, batchErrors, |batchItems|) {
          ZipArchiveHoldsValidCopies(batchItems);
        }
      }
    }

    /** exportPng: the selected label, rendered at the form's resolution. */
    method ExportPng(env: Env) returns (file: PngFile)
      requires ValidEnv(env)
      modifies this`renderError
      ensures file.image == SelectedConfig() && file.dpi == form.dpi
      ensures file.name == PngFileName(file.image)
      ensures renderError == RenderError(file.image, form.dpi, env)
    {
      var cfg := if useBatch && selectedBatchIndex.Some? && IsIndex(selectedBatchIndex.value, |batchItems|)
                 then batchItems[selectedBatchIndex.value.Floor] else form;
      var ops, W, H := BuildLabel(cfg, form.dpi, env);
      file := PngFile(PngFileName(cfg), cfg, form.dpi);
    }
  }
}
