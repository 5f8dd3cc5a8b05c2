/** The row mapper: turns one spreadsheet row (column name to cell) into a
    label configuration. Every field has a list of recognised column names;
    a user-chosen alias column for the field, when set, is tried first; the
    first candidate column holding a real value wins, and otherwise the
    field keeps the form's current value. */
module RowMapper {
  import opened Js
  import opened Labels

  type Row = map<string, Cell>

  /** Canonical field name to custom column name ("" = not set). */
  type AliasMap = map<string, string>

  const ValueKeys: seq<string> := ["Codigo", "Código", "Valor", "Value", "Codigo_o_texto"]
  const TypeKeys: seq<string> := ["Tipo", "Type"]
  const ModeKeys: seq<string> := ["Modo", "mode"]
  const ShowValueKeys: seq<string> := ["MostrarValor", "ShowValue"]
  const DescriptionKeys: seq<string> := ["Descripcion", "Descripción", "Description"]
  const PriceKeys: seq<string> := ["Precio", "Price"]
  const LotKeys: seq<string> := ["Lote", "Lot"]
  const HeaderKeys: seq<string> := ["Encabezado", "Header"]
  const FooterKeys: seq<string> := ["Pie", "Footer"]
  const LogoKeys: seq<string> := ["Logo", "LogoUrl"]
  const WidthKeys: seq<string> := ["Ancho_mm", "Width_mm"]
  const HeightKeys: seq<string> := ["Alto_mm", "Height_mm"]
  const MarginKeys: seq<string> := ["Margen_mm", "Margin_mm"]
  const DpiKeys: seq<string> := ["DPI", "dpi"]
  const LayoutKeys: seq<string> := ["Layout"]
  const AlignKeys: seq<string> := ["Alineacion", "Alineación", "Align"]
  const HeaderScaleKeys: seq<string> := ["EscalaEncabezado", "HeaderScale"]
  const BodyScaleKeys: seq<string> := ["EscalaCuerpo", "BodyScale"]
  const FooterScaleKeys: seq<string> := ["EscalaPie", "FooterScale"]
  const QtyKeys: seq<string> := ["Cantidad", "Qty", "Quantity"]

  /** The first key of every field: the name its alias is looked up by. */
  const AliasLookupNames: set<string> :=
    {"Codigo", "Tipo", "Modo", "MostrarValor", "Descripcion", "Precio", "Lote", "Encabezado",
     "Pie", "Logo", "Ancho_mm", "Alto_mm", "Margen_mm", "DPI", "Layout", "Alineacion",
     "EscalaEncabezado", "EscalaCuerpo", "EscalaPie", "Cantidad"}

  /** Strings `bool` accepts as true (after lower-casing). */
  const TruthyTokens: seq<string> := ["true", "1", "si", "sí", "y", "yes"]

  const LayoutTable: map<string, Layout> :=
    map["classic" := Classic, "clasico" := Classic, "clásico" := Classic,
        "logoleft" := LogoLeft, "logo izquierda" := LogoLeft,
        "codetop" := CodeTop, "codigo arriba" := CodeTop, "código arriba" := CodeTop]

  const AlignTable: map<string, Align> :=
    map["left" := Left, "izquierda" := Left, "center" := Center, "centro" := Center,
        "right" := Right, "derecha" := Right]

  /** `alias(canonical)`: the trimmed custom column for the field, when it
      is set to something other than white space. */
  function Alias(m: AliasMap, canonical: string): (r: seq<string>)
    ensures |r| <= 1
    ensures r != [] <==> canonical in m && exists i :: 0 <= i < |m[canonical]| && !IsJsSpace(m[canonical][i])
    ensures r != [] ==> r[0] != "" && r[0] == Trim(m[canonical])
  {
    if canonical in m then TrimEmptyIffBlank(m[canonical]); (
      var a := m[canonical];
      if a != "" && Trim(a) != "" then [Trim(a)] else [])
    else []
  }

  /** The cell under column `k` holds a value: the key is non-empty and the
      cell is neither missing, nor null, nor the empty string. */
  predicate Present(r: Row, k: string)
  {
    k != "" && k in r && r[k] != Undefined && r[k] != Null && r[k] != Str("")
  }

  /** The columns `get` tries, in order: the alias of the field's first key,
      then the recognised names. */
  function Candidates(m: AliasMap, keys: seq<string>): seq<string>
  {
    Alias(m, if keys == [] then "" else keys[0]) + keys
  }

  /** The value `get` returns for a candidate list. */
  function Resolve(r: Row, cands: seq<string>, def: Cell): Cell
  {
    if cands == [] then def
    else if Present(r, cands[0]) then r[cands[0]]
    else Resolve(r, cands[1..], def)
  }

  /** `get` is "first present candidate, else the default": the cell of the
      earliest candidate column that holds a value, or the default when no
      candidate does. */
  lemma {:induction false} ResolveIsFirstPresent(r: Row, cands: seq<string>, def: Cell, i: int)
    ensures (forall j :: 0 <= j < |cands| ==> !Present(r, cands[j])) ==> Resolve(r, cands, def) == def
    ensures 0 <= i < |cands| && Present(r, cands[i]) && (forall j :: 0 <= j < i ==> !Present(r, cands[j]))
      ==> Resolve(r, cands, def) == r[cands[i]]
  {
    if cands != [] {
      ResolveIsFirstPresent(r, cands[1..], def, i - 1);
      if forall j :: 0 <= j < |cands| ==> !Present(r, cands[j]) {
        assert !Present(r, cands[0]);
        assert forall j :: 0 <= j < |cands[1..]| ==> !Present(r, cands[1..][j]) by {
          forall j | 0 <= j < |cands[1..]| ensures !Present(r, cands[1..][j]) {
            assert cands[1..][j] == cands[j + 1];
          }
        }
      }
      if 0 < i < |cands| && Present(r, cands[i]) && (forall j :: 0 <= j < i ==> !Present(r, cands[j])) {
        assert cands[1..][i - 1] == cands[i];
        assert !Present(r, cands[0]);
        forall j | 0 <= j < i - 1 ensures !Present(r, cands[1..][j]) {
          assert cands[1..][j] == cands[j + 1];
        }
      }
    }
  }

  /** `get(keys, def)`: walks the candidate columns and returns the first
      cell that holds a value, else the default. */
  method Get(r: Row, m: AliasMap, keys: seq<string>, def: Cell) returns (v: Cell)
    ensures v == Resolve(r, Candidates(m, keys), def)
  {
    var withAlias := Candidates(m, keys);
    v := FirstPresent(r, withAlias, def);
  }

  /** The `for (const k of ...)` loop of `get`. */
  method FirstPresent(r: Row, cands: seq<string>, def: Cell) returns (v: Cell)
    ensures v == Resolve(r, cands, def)
  {
    var j := 0;
    while j < |cands|
      invariant 0 <= j <= |cands|
      invariant Resolve(r, cands[j..], def) == Resolve(r, cands, def)
    {
      var k := cands[j];
      ResolveStep(r, cands, j, def);
      if k != "" && k in r && r[k] != Undefined && r[k] != Null && r[k] != Str("") {
        return r[k];
      }
      j := j + 1;
    }
    v := def;
  }

  /** One step of the walk: the candidate at `j` decides, or the rest
      does. */
  lemma ResolveStep(r: Row, cands: seq<string>, j: nat, def: Cell)
    requires j < |cands|
    ensures Resolve(r, cands[j..], def)
            == if Present(r, cands[j]) then r[cands[j]] else Resolve(r, cands[j + 1..], def)
  {
    assert cands[j..][0] == cands[j];
    assert cands[j..][1..] == cands[j + 1..];
  }

  /** An alias column that holds a value beats every recognised column. */
  lemma AliasWins(r: Row, m: AliasMap, keys: seq<string>, def: Cell)
    requires keys != [] && keys[0] in m && Trim(m[keys[0]]) != ""
    requires Present(r, Trim(m[keys[0]]))
    ensures Resolve(r, Candidates(m, keys), def) == r[Trim(m[keys[0]])]
  {
    TrimEmptyIffBlank(m[keys[0]]);
    assert Candidates(m, keys)[0] == Trim(m[keys[0]]);
  }

  /** `num(v, d)`: the number when `Number(v)` is finite, else `d`. */
  function NumOr(v: Cell, d: real, rt: Runtime): real
  {
    match NumberOf(v, rt)
    case Some(n) => n
    case None => d
  }

  /** `bool(v, d)`: booleans as they are, numbers as "non-zero", strings by
      the truthy token list (any other string is false, not `d`). */
  function BoolOr(v: Cell, d: bool, rt: Runtime): bool
  {
    match v
    case Bool(b) => b
    case Num(n) => n != 0.0
    case Str(s) => rt.lower(s) in TruthyTokens
    case _ => d
  }

  function ModeOf(v: Cell, rt: Runtime): Mode
  {
    if rt.lower(CellToString(v, rt)) == "qr" then Qr else Barcode
  }

  function LayoutOr(v: Cell, d: Layout, rt: Runtime): Layout
  {
    var k := rt.lower(CellToString(v, rt));
    if k in LayoutTable then LayoutTable[k] else d
  }

  function AlignOr(v: Cell, d: Align, rt: Runtime): Align
  {
    var k := rt.lower(CellToString(v, rt));
    if k in AlignTable then AlignTable[k] else d
  }

  /** `String(v) || 'CODE128'`. */
  function SymbologyOf(v: Cell, rt: Runtime): string
  {
    var s := CellToString(v, rt);
    if s == "" then "CODE128" else s
  }

  /** mapRowToConfig as a value: `form` holds the form's current values. */
  function MapRow(r: Row, m: AliasMap, form: LabelConfig, rt: Runtime): LabelConfig
  {
    LabelConfig(
      CellToString(Resolve(r, Candidates(m, ValueKeys), Str(form.value)), rt),
      SymbologyOf(Resolve(r, Candidates(m, TypeKeys), Str(form.symbology)), rt),
      ModeOf(Resolve(r, Candidates(m, ModeKeys), Str(ModeName(form.mode))), rt),
      BoolOr(Resolve(r, Candidates(m, ShowValueKeys), Bool(form.showValue)), form.showValue, rt),
      CellToString(Resolve(r, Candidates(m, DescriptionKeys), Str("")), rt),
      CellToString(Resolve(r, Candidates(m, PriceKeys), Str("")), rt),
      CellToString(Resolve(r, Candidates(m, LotKeys), Str("")), rt),
      CellToString(Resolve(r, Candidates(m, HeaderKeys), Str("")), rt),
      CellToString(Resolve(r, Candidates(m, FooterKeys), Str("")), rt),
      CellToString(Resolve(r, Candidates(m, LogoKeys), Str("")), rt),
      NumOr(Resolve(r, Candidates(m, WidthKeys), Num(form.widthMm)), form.widthMm, rt),
      NumOr(Resolve(r, Candidates(m, HeightKeys), Num(form.heightMm)), form.heightMm, rt),
      NumOr(Resolve(r, Candidates(m, MarginKeys), Num(form.marginMm)), form.marginMm, rt),
      NumOr(Resolve(r, Candidates(m, DpiKeys), Num(form.dpi)), form.dpi, rt),
      LayoutOr(Resolve(r, Candidates(m, LayoutKeys), Str(LayoutName(form.layout))), form.layout, rt),
      AlignOr(Resolve(r, Candidates(m, AlignKeys), Str(AlignName(form.bodyAlign))), form.bodyAlign, rt),
      NumOr(Resolve(r, Candidates(m, HeaderScaleKeys), Num(form.headerScale)), form.headerScale, rt),
      NumOr(Resolve(r, Candidates(m, BodyScaleKeys), Num(form.bodyScale)), form.bodyScale, rt),
      NumOr(Resolve(r, Candidates(m, FooterScaleKeys), Num(form.footerScale)), form.footerScale, rt),
      NumOr(Resolve(r, Candidates(m, QtyKeys), Num(1.0)), 1.0, rt))
  }

  /** mapRowToConfig: one `get` per field, then the field's conversion. */
  method MapRowToConfig(r: Row, m: AliasMap, form: LabelConfig, rt: Runtime) returns (cfg: LabelConfig)
    ensures cfg == MapRow(r, m, form, rt)
  {
    var value := Get(r, m, ValueKeys, Str(form.value));
    var symbology := Get(r, m, TypeKeys, Str(form.symbology));
    var mode := Get(r, m, ModeKeys, Str(ModeName(form.mode)));
    var showValue := Get(r, m, ShowValueKeys, Bool(form.showValue));
    var description := Get(r, m, DescriptionKeys, Str(""));
    var price := Get(r, m, PriceKeys, Str(""));
    var lot := Get(r, m, LotKeys, Str(""));
    var header := Get(r, m, HeaderKeys, Str(""));
    var footer := Get(r, m, FooterKeys, Str(""));
    var logo := Get(r, m, LogoKeys, Str(""));
    var width := Get(r, m, WidthKeys, Num(form.widthMm));
    var height := Get(r, m, HeightKeys, Num(form.heightMm));
    var margin := Get(r, m, MarginKeys, Num(form.marginMm));
    var dpi := Get(r, m, DpiKeys, Num(form.dpi));
    var layout := Get(r, m, LayoutKeys, Str(LayoutName(form.layout)));
    var align := Get(r, m, AlignKeys, Str(AlignName(form.bodyAlign)));
    var headerScale := Get(r, m, HeaderScaleKeys, Num(form.headerScale));
    var bodyScale := Get(r, m, BodyScaleKeys, Num(form.bodyScale));
    var footerScale := Get(r, m, FooterScaleKeys, Num(form.footerScale));
    var qty := Get(r, m, QtyKeys, Num(1.0));
    cfg := LabelConfig(
      CellToString(value, rt), SymbologyOf(symbology, rt), ModeOf(mode, rt),
      BoolOr(showValue, form.showValue, rt),
      CellToString(description, rt), CellToString(price, rt), CellToString(lot, rt),
      CellToString(header, rt), CellToString(footer, rt), CellToString(logo, rt),
      NumOr(width, form.widthMm, rt), NumOr(height, form.heightMm, rt),
      NumOr(margin, form.marginMm, rt), NumOr(dpi, form.dpi, rt),
      LayoutOr(layout, form.layout, rt), AlignOr(align, form.bodyAlign, rt),
      NumOr(headerScale, form.headerScale, rt), NumOr(bodyScale, form.bodyScale, rt),
      NumOr(footerScale, form.footerScale, rt), NumOr(qty, 1.0, rt));
  }

  /** `num`'s rule for one field: the picked cell's number when `Number`
      gives a finite one, otherwise the form's value `d`. */
  predicate TakesNumberOr(picked: Cell, x: real, d: real, rt: Runtime)
  {
    (NumberOf(picked, rt).None? ==> x == d)
    && (NumberOf(picked, rt).Some? ==> x == NumberOf(picked, rt).value)
  }

  /** The size fields: a cell that does not parse to a finite number leaves
      the form's width, height or margin, and one that does is taken. */
  lemma NumericFallbacks(r: Row, m: AliasMap, form: LabelConfig, rt: Runtime)
    ensures var c := MapRow(r, m, form, rt);
            && TakesNumberOr(Resolve(r, Candidates(m, WidthKeys), Num(form.widthMm)), c.widthMm, form.widthMm, rt)
            && TakesNumberOr(Resolve(r, Candidates(m, HeightKeys), Num(form.heightMm)), c.heightMm, form.heightMm, rt)
            && TakesNumberOr(Resolve(r, Candidates(m, MarginKeys), Num(form.marginMm)), c.marginMm, form.marginMm, rt)
  {
  }

  /** The resolution and the three font scales follow the same rule. */
  lemma ResolutionScaleFallbacks(r: Row, m: AliasMap, form: LabelConfig, rt: Runtime)
    ensures var c := MapRow(r, m, form, rt);
            && TakesNumberOr(Resolve(r, Candidates(m, DpiKeys), Num(form.dpi)), c.dpi, form.dpi, rt)
            && TakesNumberOr(Resolve(r, Candidates(m, HeaderScaleKeys), Num(form.headerScale)), c.headerScale, form.headerScale, rt)
            && TakesNumberOr(Resolve(r, Candidates(m, BodyScaleKeys), Num(form.bodyScale)), c.bodyScale, form.bodyScale, rt)
            && TakesNumberOr(Resolve(r, Candidates(m, FooterScaleKeys), Num(form.footerScale)), c.footerScale, form.footerScale, rt)
  {
  }

  /** The quantity does not fall back to the form: it is 1 when no quantity
      column holds a value or the picked cell does not parse, and the
      parsed number otherwise. */
  lemma QuantityFallback(r: Row, m: AliasMap, form: LabelConfig, rt: Runtime)
    ensures TakesNumberOr(Resolve(r, Candidates(m, QtyKeys), Num(1.0)), MapRow(r, m, form, rt).qty, 1.0, rt)
    ensures (forall j :: 0 <= j < |Candidates(m, QtyKeys)| ==> !Present(r, Candidates(m, QtyKeys)[j]))
            ==> MapRow(r, m, form, rt).qty == 1.0
  {
    ResolveIsFirstPresent(r, Candidates(m, QtyKeys), Num(1.0), 0);
  }

  /** A string in the show-value column sets the flag exactly when it is a
      truthy token, whatever the form's flag is. */
  lemma StringFlagIgnoresForm(r: Row, m: AliasMap, form: LabelConfig, rt: Runtime)
    ensures var v := Resolve(r, Candidates(m, ShowValueKeys), Bool(form.showValue));
            v.Str? ==> (MapRow(r, m, form, rt).showValue <==> rt.lower(v.s) in TruthyTokens)
  {
  }

  /** The mode is QR exactly when the picked cell reads `qr` in lower
      case, and an unknown layout or alignment keeps the form's. */
  lemma ChoiceFallbacks(r: Row, m: AliasMap, form: LabelConfig, rt: Runtime)
    ensures var v := Resolve(r, Candidates(m, ModeKeys), Str(ModeName(form.mode)));
            MapRow(r, m, form, rt).mode == Qr <==> rt.lower(CellToString(v, rt)) == "qr"
    ensures var v := Resolve(r, Candidates(m, LayoutKeys), Str(LayoutName(form.layout)));
            rt.lower(CellToString(v, rt)) !in LayoutTable ==> MapRow(r, m, form, rt).layout == form.layout
    ensures var v := Resolve(r, Candidates(m, AlignKeys), Str(AlignName(form.bodyAlign)));
            rt.lower(CellToString(v, rt)) !in AlignTable ==> MapRow(r, m, form, rt).bodyAlign == form.bodyAlign
  {
  }

  /** `get` returns its default or a cell that holds a value; since the
      show-value field's default is a boolean, `bool`'s own fallback `d`
      is never reached from mapRowToConfig. */
  lemma {:induction false} ResolvePresentOrDefault(r: Row, cands: seq<string>, def: Cell)
    ensures var v := Resolve(r, cands, def);
            v == def || (v != Null && v != Undefined && v != Str(""))
  {
    if cands != [] && !Present(r, cands[0]) {
      ResolvePresentOrDefault(r, cands[1..], def);
    }
  }

  /** The facts about `toLowerCase` that the form's own strings need. */
  predicate LowersFormNames(rt: Runtime)
  {
    rt.lower("qr") == "qr" && rt.lower("barcode") == "barcode"
    && rt.lower("classic") == "classic" && rt.lower("logoLeft") == "logoleft"
    && rt.lower("codeTop") == "codetop"
    && rt.lower("left") == "left" && rt.lower("center") == "center" && rt.lower("right") == "right"
  }

  /** A row none of whose cells holds a value yields the form's own
      configuration: text fields empty, no logo, one copy, and the tag
      `CODE128` if the form's tag is empty. */
  lemma BlankRowKeepsForm(r: Row, m: AliasMap, form: LabelConfig, rt: Runtime)
    requires BlankRow(r)
    requires LowersFormNames(rt)
    ensures MapRow(r, m, form, rt) ==
      form.(symbology := if form.symbology == "" then "CODE128" else form.symbology,
            description := "", price := "", lot := "", headerText := "", footerText := "",
            logo := "", qty := 1.0)
  {
    BlankRowTexts(r, m, form, rt);
    BlankRowNumbers(r, m, form, rt);
    BlankRowChoices(r, m, form, rt);
  }

  lemma BlankRowTexts(r: Row, m: AliasMap, form: LabelConfig, rt: Runtime)
    requires BlankRow(r)
    ensures var c := MapRow(r, m, form, rt);
            && c.value == form.value && c.description == "" && c.price == "" && c.lot == ""
            && c.headerText == "" && c.footerText == "" && c.logo == ""
  {
    forall cands: seq<string>, def: Cell ensures Resolve(r, cands, def) == def {
      BlankRowResolvesDefault(r, cands, def);
    }
  }

  lemma BlankRowNumbers(r: Row, m: AliasMap, form: LabelConfig, rt: Runtime)
    requires BlankRow(r)
    ensures var c := MapRow(r, m, form, rt);
            && c.widthMm == form.widthMm && c.heightMm == form.heightMm && c.marginMm == form.marginMm
            && c.dpi == form.dpi && c.headerScale == form.headerScale && c.bodyScale == form.bodyScale
            && c.footerScale == form.footerScale && c.qty == 1.0
  {
    forall cands: seq<string>, def: Cell ensures Resolve(r, cands, def) == def {
      BlankRowResolvesDefault(r, cands, def);
    }
  }

  lemma BlankRowChoices(r: Row, m: AliasMap, form: LabelConfig, rt: Runtime)
    requires BlankRow(r)
    requires LowersFormNames(rt)
    ensures var c := MapRow(r, m, form, rt);
            && c.symbology == (if form.symbology == "" then "CODE128" else form.symbology)
            && c.mode == form.mode && c.showValue == form.showValue
            && c.layout == form.layout && c.bodyAlign == form.bodyAlign
  {
    forall cands: seq<string>, def: Cell ensures Resolve(r, cands, def) == def {
      BlankRowResolvesDefault(r, cands, def);
    }
    FormNamesMapBack(form, rt);
  }

  /** In a blank row no candidate is present, so `get` falls back to its
      default. */
  lemma {:induction false} BlankRowResolvesDefault(r: Row, cands: seq<string>, def: Cell)
    requires BlankRow(r)
    ensures Resolve(r, cands, def) == def
  {
    if cands != [] {
      assert !Present(r, cands[0]);
      BlankRowResolvesDefault(r, cands[1..], def);
    }
  }

  /** No cell of the row holds a value `get` would take. */
  predicate BlankRow(r: Row)
  {
    forall k :: k in r ==> r[k] == Null || r[k] == Undefined || r[k] == Str("")
  }

  lemma FormNamesMapBack(form: LabelConfig, rt: Runtime)
    requires LowersFormNames(rt)
    ensures ModeOf(Str(ModeName(form.mode)), rt) == form.mode
    ensures LayoutOr(Str(LayoutName(form.layout)), form.layout, rt) == form.layout
    ensures AlignOr(Str(AlignName(form.bodyAlign)), form.bodyAlign, rt) == form.bodyAlign
  {
  }

  /** The `LogoUrl` alias is never consulted: the logo field looks its alias
      up under `Logo`, and no field looks anything up under `LogoUrl`. */
  lemma LogoUrlAliasIgnored(r: Row, m: AliasMap, form: LabelConfig, rt: Runtime, a: string)
    ensures MapRow(r, m["LogoUrl" := a], form, rt) == MapRow(r, m, form, rt)
  {
    CandidatesSkipLogoUrl(m, a, ValueKeys);
    CandidatesSkipLogoUrl(m, a, TypeKeys);
    CandidatesSkipLogoUrl(m, a, ModeKeys);
    CandidatesSkipLogoUrl(m, a, ShowValueKeys);
    CandidatesSkipLogoUrl(m, a, DescriptionKeys);
    CandidatesSkipLogoUrl(m, a, PriceKeys);
    CandidatesSkipLogoUrl(m, a, LotKeys);
    CandidatesSkipLogoUrl(m, a, HeaderKeys);
    CandidatesSkipLogoUrl(m, a, FooterKeys);
    CandidatesSkipLogoUrl(m, a, LogoKeys);
    CandidatesSkipLogoUrl(m, a, WidthKeys);
    CandidatesSkipLogoUrl(m, a, HeightKeys);
    CandidatesSkipLogoUrl(m, a, MarginKeys);
    CandidatesSkipLogoUrl(m, a, DpiKeys);
    CandidatesSkipLogoUrl(m, a, LayoutKeys);
    CandidatesSkipLogoUrl(m, a, AlignKeys);
    CandidatesSkipLogoUrl(m, a, HeaderScaleKeys);
    CandidatesSkipLogoUrl(m, a, BodyScaleKeys);
    CandidatesSkipLogoUrl(m, a, FooterScaleKeys);
    CandidatesSkipLogoUrl(m, a, QtyKeys);
  }

  /** A field whose first key is not `LogoUrl` looks up the same
      candidates whatever `LogoUrl` is mapped to. */
  lemma CandidatesSkipLogoUrl(m: AliasMap, a: string, keys: seq<string>)
    requires keys != [] && keys[0] in AliasLookupNames
    ensures Candidates(m["LogoUrl" := a], keys) == Candidates(m, keys)
  {
    assert keys[0] != "LogoUrl";
    assert keys[0] in m ==> m["LogoUrl" := a][keys[0]] == m[keys[0]];
  }
}
