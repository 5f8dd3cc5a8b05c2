/** The layout decisions of one label render (drawLabelToCanvasWith and
    drawAlignedText): which elements are drawn, where and at which font
    size, on a canvas of `W` x `H` pixels. Pixels, fonts and the barcode
    and QR generators are opaque: text widths come from a given measure,
    the logo from its natural size when it loads, and each generator either
    draws or throws with a message. */
module Compositor {
  import opened Js
  import opened Labels

  /** mmToPx, exact over the reals. */
  function MmToPx(mm: real, dpi: real): real
  {
    mm / 25.4 * dpi
  }

  /** A side of the canvas buildLabelDataUrlFrom renders into:
      `max(10, round(mmToPx(mm, dpi)))`. */
  function CanvasSide(mm: real, dpi: real): (px: int)
    ensures px >= 10
    ensures px > 10 ==> MmToPx(mm, dpi) - 0.5 < px as real <= MmToPx(mm, dpi) + 0.5
  {
    Max(10, Round(MmToPx(mm, dpi)))
  }

  /** A 50 x 30 mm label at 300 dpi is rendered on a 591 x 354 canvas, and
      nothing is ever rendered below 10 pixels. */
  lemma FiftyByThirtyAt300Dpi()
    ensures CanvasSide(50.0, 300.0) == 591 && CanvasSide(30.0, 300.0) == 354
    ensures CanvasSide(1.0, 72.0) == 10
  {
    assert MmToPx(50.0, 300.0) == 15000.0 / 25.4;
    assert 590.5 < 15000.0 / 25.4 < 591.0;
    assert MmToPx(30.0, 300.0) == 9000.0 / 25.4;
    assert 354.0 < 9000.0 / 25.4 < 354.5;
    assert MmToPx(1.0, 72.0) == 72.0 / 25.4;
    assert 2.5 < 72.0 / 25.4 < 3.0;
  }

  // -------------------------------------------------------------------
  // What the drawing takes from outside and what it produces.

  /** What the barcode or QR generator does: it draws, leaving its canvas
      at `width` x `height` pixels (the barcode generator resizes the
      canvas it is handed to the encoded symbol; the QR drawing uses its own
      size and ignores these), or it throws with a message. */
  datatype Outcome = Drawn(width: int, height: int) | Threw(message: string)

  /** `measure(px, text)` is the width of `text` in a `px`-pixel font; the
      logo's natural size when it loads (None when loading fails, which the
      drawing ignores); the outcome of the barcode or QR generator. */
  datatype Env = Env(measure: (int, string) -> real, logoImage: Option<(real, real)>, code: Outcome)

  predicate ValidEnv(env: Env)
  {
    env.logoImage.Some? ==> env.logoImage.value.0 > 0.0 && env.logoImage.value.1 > 0.0
  }

  datatype TextRole = HeaderLine | BodyLine | FooterLine | ErrorLine

  /** The options handed to the barcode generator. */
  datatype BarcodeOptions = BarcodeOptions(format: string, value: string, displayValue: bool,
                                           margin: int, barWidth: int, height: int, fontSize: int)

  /** One drawing instruction, in canvas pixels. */
  datatype DrawOp =
    | FillRect(color: string, x: int, y: int, w: int, h: int)
    | FillText(role: TextRole, text: string, left: real, top: int, fontPx: int)
    | DrawLogo(x: int, y: int, w: int, h: int)
    | DrawBarcode(x: int, y: int, w: int, h: int, options: BarcodeOptions)
    | DrawQr(x: int, y: int, size: int)

  const Background := "#fff"
  const ErrorFill := "#fee"
  const BarcodeFailurePrefix := "No se pudo generar el código de barras: "
  const QrFailurePrefix := "No se pudo generar el QR: "
  const BarcodePlaceholder := "Error al generar código"
  const QrPlaceholder := "Error al generar QR"

  // -------------------------------------------------------------------
  // Measures derived from the canvas.

  /** The inner margin: 3% of the height. */
  function Pad(H: int): int { Round(H as real * 0.03) }

  /** Where the code area starts: below the header when there is one. */
  function AreaTop(c: LabelConfig, H: int): int
  {
    Pad(H) + (if c.headerText != "" then HeaderGap(H) else 0)
  }

  /** The code area takes 55% of the height, 45% in the code-top layout. */
  function AreaHeight(c: LabelConfig, H: int): int
  {
    if c.layout == CodeTop then Round(H as real * 0.45) else Round(H as real * 0.55)
  }

  function BodyFont(c: LabelConfig, H: int): int { Max(8, Round(H as real * c.bodyScale)) }

  function HeaderFont(c: LabelConfig, H: int): int { Max(10, Round(H as real * c.headerScale)) }

  function HeaderGap(H: int): int { Round(H as real * 0.12) }

  /** The gap between the code area and the first body line. */
  function BodyGap(H: int): int { Round(H as real * 0.02) }

  function FooterFont(c: LabelConfig, H: int): int { Max(8, Round(H as real * c.footerScale)) }

  /** The footer's baseline: one footer line above the bottom padding. */
  function FooterY(c: LabelConfig, H: int): int { H - Pad(H) - Round(H as real * c.footerScale) }

  /** The logo boxes: 22% of the width, 22% of the height at the top and
      half the height in the left strip. */
  function LogoBoxW(W: int): int { Round(W as real * 0.22) }

  function LogoBoxH(H: int): int { Round(H as real * 0.22) }

  function SideBoxH(H: int): int { Round(H as real * 0.5) }

  /** Where an `inner` length starts when centred in an `outer` one. */
  function CenterOffset(outer: int, inner: int): int { Round((outer - inner) as real / 2.0) }

  function QuarterWidth(W: int): int { Round(W as real * 0.25) }

  function QrBase(W: int, H: int): int { Round(Min(W, H) as real * 0.6) }

  function QrShrunk(s: int): int { Round(s as real * 0.75) }

  function ErrorFont(H: int): int { Max(10, Round(H as real * 0.07)) }

  /** The distance between two body lines: a line height of 1.2 times the
      body scale plus a gap of at least 2 pixels. */
  function LineStep(c: LabelConfig, H: int): int
  {
    Round(H as real * c.bodyScale * 1.2) + Max(2, Round(H as real * 0.01))
  }

  // -------------------------------------------------------------------
  // Horizontal placement of text.

  /** drawAlignedText's rule: 4 pixels from the left edge, 4 from the right
      edge, or centred. */
  function AlignX(align: Align, W: int, w: real): (x: real)
    ensures align == Left ==> x == 4.0
    ensures align == Center ==> -1.0 < 2.0 * x + w - W as real <= 1.0
    ensures align == Right ==> -0.5 < x + w - (W as real - 4.0) <= 0.5
  {
    match align
    case Center => Round((W as real - w) / 2.0) as real
    case Right => Round(W as real - w - 4.0) as real
    case Left => 4.0
  }

  /** The header is centred, then pushed inside the padding:
      `max(pad, min(W - pad - w, round((W - w) / 2)))`. */
  function HeaderX(W: int, pad: int, w: real): (x: real)
    ensures x >= pad as real
    ensures pad as real <= W as real - pad as real - w ==> x + w <= W as real - pad as real
  {
    MaxR(pad as real, MinR(W as real - pad as real - w, Round((W as real - w) / 2.0) as real))
  }

  // -------------------------------------------------------------------
  // The parts of the label.

  function HeaderOps(c: LabelConfig, W: int, H: int, env: Env): seq<DrawOp>
  {
    if c.headerText == "" then []
    else
      var font := HeaderFont(c, H);
      [FillText(HeaderLine, c.headerText, HeaderX(W, Pad(H), env.measure(font, c.headerText)), Pad(H), font)]
  }

  /** The logo scaled down (never up) to fit a box:
      `scale = min(boxW / iw, boxH / ih, 1)`. */
  function FitLogo(iw: real, ih: real, boxW: int, boxH: int): (size: (int, int))
    requires iw > 0.0 && ih > 0.0
  {
    var scale := MinR(MinR(boxW as real / iw, boxH as real / ih), 1.0);
    (Round(iw * scale), Round(ih * scale))
  }

  /** A scaled logo stays within its box and is never enlarged. */
  lemma LogoFitsBox(iw: real, ih: real, boxW: int, boxH: int)
    requires iw > 0.0 && ih > 0.0 && boxW >= 0 && boxH >= 0
    ensures var size := FitLogo(iw, ih, boxW, boxH);
            0 <= size.0 <= boxW && 0 <= size.1 <= boxH
            && size.0 <= Round(iw) && size.1 <= Round(ih)
  {
    var sw, sh := boxW as real / iw, boxH as real / ih;
    var scale := MinR(MinR(sw, sh), 1.0);
    FitSide(iw, scale, boxW);
    FitSide(ih, scale, boxH);
  }

  /** One side of the scaled logo: `d * scale` rounded, for a scale between
      0 and both 1 and `box / d`. */
  lemma FitSide(d: real, scale: real, box: int)
    requires d > 0.0 && box >= 0 && 0.0 <= scale <= 1.0 && scale <= box as real / d
    ensures 0 <= Round(d * scale) <= box && Round(d * scale) <= Round(d)
  {
    ScaledWithin(d, scale, box as real);
    RoundMonotone(d * scale, box as real);
    RoundMonotone(d * scale, d);
    RoundMonotone(0.0, d * scale);
  }

  /** A positive length scaled by a factor in [0, 1] that is also at most
      `box / d` stays between 0, the length and the box. */
  lemma ScaledWithin(d: real, scale: real, box: real)
    requires d > 0.0 && 0.0 <= scale <= 1.0 && scale <= box / d
    ensures 0.0 <= d * scale <= d && d * scale <= box
  {
    MulMono(d, scale, box / d);
    assert d * (box / d) == box;
  }

  lemma MulMono(d: real, a: real, b: real)
    requires d > 0.0 && a <= b
    ensures d * a <= d * b
  {
    assert d * b - d * a == d * (b - a);
  }

  lemma RoundMonotone(x: real, y: real)
    requires x <= y
    ensures Round(x) <= Round(y)
  {
  }

  /** The logo, when there is one and it loads: at the top left, and drawn
      a second time into the left strip in the logo-left layout. */
  function LogoOps(c: LabelConfig, W: int, H: int, y: int, env: Env): (ops: seq<DrawOp>)
    requires ValidEnv(env)
    ensures forall i :: 0 <= i < |ops| ==> ops[i].DrawLogo?
  {
    if c.logo == "" || env.logoImage.None? then []
    else
      var iw, ih := env.logoImage.value.0, env.logoImage.value.1;
      var top := FitLogo(iw, ih, LogoBoxW(W), LogoBoxH(H));
      [DrawLogo(Pad(H), y, top.0, top.1)]
      + (if c.layout == LogoLeft
         then var side := FitLogo(iw, ih, LogoBoxW(W), SideBoxH(H));
              [DrawLogo(Pad(H), y, side.0, side.1)]
         else [])
  }

  function Options(c: LabelConfig, W: int, H: int, areaH: int): BarcodeOptions
  {
    BarcodeOptions(c.symbology, c.value, c.showValue, Max(4, Round(H as real * 0.01)),
                   Max(1, Round(W as real / 200.0)), Max(10, Round(areaH as real * 0.75)),
                   Max(8, Round(H as real * c.bodyScale)))
  }

  /** The barcode, `bw` pixels wide as the generator left it, is centred,
      and in the logo-left layout with a logo pushed right to at least a
      quarter of the width. */
  function BarcodeX(c: LabelConfig, W: int, bw: int): (x: int)
    ensures !(c.layout == LogoLeft && c.logo != "") ==> -1 <= 2 * x + bw - W <= 1
    ensures c.layout == LogoLeft && c.logo != "" ==>
              x >= QuarterWidth(W) && 2 * x + bw - W >= -1
              && (x == QuarterWidth(W) || 2 * x + bw - W <= 1)
  {
    var dx := CenterOffset(W, bw);
    if c.layout == LogoLeft && c.logo != "" then Max(dx, QuarterWidth(W)) else dx
  }

  /** The QR side: 60% of the smaller dimension, shrunk by a quarter in the
      logo-left layout with a logo. */
  function QrSize(c: LabelConfig, W: int, H: int): (s: int)
  {
    var s := QrBase(W, H);
    if c.layout == LogoLeft && c.logo != "" then QrShrunk(s) else s
  }

  lemma QrShrinksBesideLogo(c: LabelConfig, W: int, H: int)
    requires W >= 10 && H >= 10
    ensures var base := QrBase(W, H);
            base >= 6
            && (c.layout == LogoLeft && c.logo != "" ==> QrSize(c, W, H) < base)
            && (!(c.layout == LogoLeft && c.logo != "") ==> QrSize(c, W, H) == base)
  {
    var base := QrBase(W, H);
    assert Min(W, H) as real * 0.6 >= 6.0;
  }

  /** The code, when its generator succeeds leaving a `bw` x `bh` canvas:
      the barcode canvas is drawn at its own size, the QR code at the side
      it was asked for. */
  function CodeOps(c: LabelConfig, W: int, H: int, areaY: int, areaH: int, bw: int, bh: int): (ops: seq<DrawOp>)
    ensures |ops| == 1 && (ops[0].DrawBarcode? || ops[0].DrawQr?) && (c.mode == Barcode <==> ops[0].DrawBarcode?)
    ensures ops[0].DrawBarcode? ==> ops[0].w == bw && ops[0].h == bh && ops[0].y == areaY
    ensures ops[0].DrawQr? ==> ops[0].size == QrSize(c, W, H)
  {
    if c.mode == Barcode then
      [DrawBarcode(BarcodeX(c, W, bw), areaY, bw, bh, Options(c, W, H, areaH))]
    else
      var s := QrSize(c, W, H);
      [DrawQr(CenterOffset(W, s), areaY + CenterOffset(areaH, s), s)]
  }

  /** What a failing generator leaves: the area filled and a short notice
      6 pixels inside it. */
  function Placeholder(c: LabelConfig, W: int, H: int, areaY: int, areaH: int): seq<DrawOp>
  {
    [FillRect(ErrorFill, Pad(H), areaY, W - 2 * Pad(H), areaH),
     FillText(ErrorLine, if c.mode == Barcode then BarcodePlaceholder else QrPlaceholder,
              (Pad(H) + 6) as real, areaY + 6, ErrorFont(H))]
  }

  function FailureMessage(c: LabelConfig, message: string): string
  {
    (if c.mode == Barcode then BarcodeFailurePrefix else QrFailurePrefix) + message
  }

  /** The body lines, in order: description, price, lot, each only when
      set. */
  function BodyLines(c: LabelConfig): (lines: seq<string>)
    ensures |lines| <= 3
    ensures forall i :: 0 <= i < |lines| ==> lines[i] != ""
  {
    (if c.description != "" then [c.description] else [])
    + (if c.price != "" then ["Precio: " + c.price] else [])
    + (if c.lot != "" then ["Lote: " + c.lot] else [])
  }

  /** One body line at height `y`, aligned by its measured width. */
  function BodyLineOp(line: string, W: int, y: int, font: int, align: Align, env: Env): DrawOp
  {
    FillText(BodyLine, line, AlignX(align, W, env.measure(font, line)), y, font)
  }

  /** Body lines from `y` down, one step apart. */
  function LineOps(lines: seq<string>, W: int, y: int, step: int, font: int, align: Align, env: Env): (ops: seq<DrawOp>)
    ensures |ops| == |lines|
  {
    if lines == [] then []
    else [BodyLineOp(lines[0], W, y, font, align, env)]
         + LineOps(lines[1..], W, y + step, step, font, align, env)
  }

  function FooterOps(c: LabelConfig, W: int, H: int, env: Env): seq<DrawOp>
  {
    if c.footerText == "" then []
    else
      var font := FooterFont(c, H);
      [FillText(FooterLine, c.footerText, AlignX(c.bodyAlign, W, env.measure(font, c.footerText)), FooterY(c, H), font)]
  }

  /** The whole label: its instructions and the value renderError is left
      with (None standing for `null`). */
  function Compose(c: LabelConfig, W: int, H: int, env: Env): (seq<DrawOp>, Option<string>)
    requires ValidEnv(env)
  {
    var areaY := AreaTop(c, H);
    var areaH := AreaHeight(c, H);
    var front := [FillRect(Background, 0, 0, W, H)] + HeaderOps(c, W, H, env) + LogoOps(c, W, H, areaY, env);
    match env.code
    case Threw(m) => (front + Placeholder(c, W, H, areaY, areaH), Some(FailureMessage(c, m)))
    case Drawn(bw, bh) =>
      var textY := areaY + areaH + BodyGap(H);
      (front + CodeOps(c, W, H, areaY, areaH, bw, bh)
       + LineOps(BodyLines(c), W, textY, LineStep(c, H), BodyFont(c, H), c.bodyAlign, env)
       + FooterOps(c, W, H, env), None)
  }

  // -------------------------------------------------------------------
  // Properties of the composition.

  /** The texts drawn in one role, in drawing order. */
  function TextsOf(ops: seq<DrawOp>, role: TextRole): seq<string>
  {
    if ops == [] then []
    else (if ops[0].FillText? && ops[0].role == role then [ops[0].text] else []) + TextsOf(ops[1..], role)
  }

  lemma {:induction false} TextsOfConcat(a: seq<DrawOp>, b: seq<DrawOp>, role: TextRole)
    ensures TextsOf(a + b, role) == TextsOf(a, role) + TextsOf(b, role)
  {
    if a != [] {
      TextsOfConcat(a[1..], b, role);
      assert (a + b)[0] == a[0];
      assert (a + b)[1..] == a[1..] + b;
      var first := if a[0].FillText? && a[0].role == role then [a[0].text] else [];
      var x, y := TextsOf(a[1..], role), TextsOf(b, role);
      assert TextsOf(a + b, role) == first + (x + y);
      assert first + (x + y) == (first + x) + y;
    } else {
      assert a + b == b;
    }
  }

  predicate NoRole(ops: seq<DrawOp>, role: TextRole)
  {
    forall i :: 0 <= i < |ops| ==> !(ops[i].FillText? && ops[i].role == role)
  }

  lemma {:induction false} NoRoleNoTexts(ops: seq<DrawOp>, role: TextRole)
    requires NoRole(ops, role)
    ensures TextsOf(ops, role) == []
  {
    if ops != [] {
      assert NoRole(ops[1..], role) by {
        forall i | 0 <= i < |ops[1..]| ensures !(ops[1..][i].FillText? && ops[1..][i].role == role) {
          assert ops[1..][i] == ops[i + 1];
        }
      }
      NoRoleNoTexts(ops[1..], role);
    }
  }

  lemma TextsOfSix(a: seq<DrawOp>, b: seq<DrawOp>, c: seq<DrawOp>, d: seq<DrawOp>, e: seq<DrawOp>, f: seq<DrawOp>, role: TextRole)
    ensures TextsOf(a + b + c + d + e + f, role)
         == TextsOf(a, role) + TextsOf(b, role) + TextsOf(c, role) + TextsOf(d, role) + TextsOf(e, role) + TextsOf(f, role)
  {
    TextsOfConcat(a + b + c + d + e, f, role);
    TextsOfConcat(a + b + c + d, e, role);
    TextsOfConcat(a + b + c, d, role);
    TextsOfConcat(a + b, c, role);
    TextsOfConcat(a, b, role);
  }

  lemma {:induction false} LineOpsTexts(lines: seq<string>, W: int, y: int, step: int, font: int, align: Align, env: Env, role: TextRole)
    ensures TextsOf(LineOps(lines, W, y, step, font, align, env), role) == if role == BodyLine then lines else []
  {
    if lines != [] {
      LineOpsTexts(lines[1..], W, y + step, step, font, align, env, role);
      var first := BodyLineOp(lines[0], W, y, font, align, env);
      TextsOfConcat([first], LineOps(lines[1..], W, y + step, step, font, align, env), role);
      assert lines == [lines[0]] + lines[1..];
    }
  }

  /** Line `k` of the body sits `k` steps below the first. */
  lemma {:induction false} LineOpsSpacing(lines: seq<string>, W: int, y: int, step: int, font: int, align: Align, env: Env, k: nat)
    requires k < |lines|
    ensures LineOps(lines, W, y, step, font, align, env)[k].FillText?
    ensures LineOps(lines, W, y, step, font, align, env)[k].top == y + k * step
    ensures LineOps(lines, W, y, step, font, align, env)[k].text == lines[k]
  {
    if k > 0 {
      LineOpsSpacing(lines[1..], W, y + step, step, font, align, env, k - 1);
    }
  }

  /** With a non-negative body scale, consecutive body lines are at least
      two pixels apart. */
  lemma LineStepPositive(c: LabelConfig, H: int)
    requires H >= 0 && c.bodyScale >= 0.0
    ensures LineStep(c, H) >= 2
  {
    assert H as real * c.bodyScale * 1.2 >= 0.0;
  }

  /** When the generator throws, renderError carries its message, the area
      shows the placeholder as the last thing drawn, and no body line or
      footer is drawn. */
  lemma ComposeOnFailure(c: LabelConfig, W: int, H: int, env: Env)
    requires ValidEnv(env) && env.code.Threw?
    ensures var (ops, err) := Compose(c, W, H, env);
            err == Some(FailureMessage(c, env.code.message))
            && |ops| >= 2
            && ops[|ops| - 2] == FillRect(ErrorFill, Pad(H), AreaTop(c, H), W - 2 * Pad(H), AreaHeight(c, H))
            && ops[|ops| - 1].FillText? && ops[|ops| - 1].role == ErrorLine
            && ops[|ops| - 1].left == (Pad(H) + 6) as real && ops[|ops| - 1].top == AreaTop(c, H) + 6
            && TextsOf(ops, BodyLine) == [] && TextsOf(ops, FooterLine) == []
  {
    var areaY := AreaTop(c, H);
    var head := [FillRect(Background, 0, 0, W, H)];
    var hops, lops := HeaderOps(c, W, H, env), LogoOps(c, W, H, areaY, env);
    var ph := Placeholder(c, W, H, areaY, AreaHeight(c, H));
    var ops := head + hops + lops + ph;
    assert Compose(c, W, H, env).0 == ops;
    forall role | role == BodyLine || role == FooterLine
      ensures TextsOf(ops, role) == []
    {
      assert NoRole(ops, role);
      NoRoleNoTexts(ops, role);
    }
  }

  /** When the generator draws, renderError is cleared, the body shows
      exactly the set lines in order, and the footer is drawn exactly when
      it is set. */
  lemma ComposeOnSuccess(c: LabelConfig, W: int, H: int, env: Env)
    requires ValidEnv(env) && env.code.Drawn?
    ensures var (ops, err) := Compose(c, W, H, env);
            err == None
            && TextsOf(ops, BodyLine) == BodyLines(c)
            && TextsOf(ops, FooterLine) == (if c.footerText == "" then [] else [c.footerText])
            && TextsOf(ops, ErrorLine) == []
  {
    SuccessTexts(c, W, H, env, BodyLine);
    SuccessTexts(c, W, H, env, FooterLine);
    SuccessTexts(c, W, H, env, ErrorLine);
    FooterTexts(c, W, H, env, BodyLine);
    FooterTexts(c, W, H, env, FooterLine);
    FooterTexts(c, W, H, env, ErrorLine);
  }

  lemma SuccessTexts(c: LabelConfig, W: int, H: int, env: Env, role: TextRole)
    requires ValidEnv(env) && env.code.Drawn? && role != HeaderLine
    ensures TextsOf(Compose(c, W, H, env).0, role)
         == (if role == BodyLine then BodyLines(c) else []) + TextsOf(FooterOps(c, W, H, env), role)
  {
    var areaY := AreaTop(c, H);
    var areaH := AreaHeight(c, H);
    var head := [FillRect(Background, 0, 0, W, H)];
    var hops, lops := HeaderOps(c, W, H, env), LogoOps(c, W, H, areaY, env);
    var code := CodeOps(c, W, H, areaY, areaH, env.code.width, env.code.height);
    var textY := areaY + areaH + BodyGap(H);
    var body := LineOps(BodyLines(c), W, textY, LineStep(c, H), BodyFont(c, H), c.bodyAlign, env);
    var foot := FooterOps(c, W, H, env);
    SuccessParts(c, W, H, env);
    FrontTextless(c, W, H, env, env.code.width, env.code.height, role);
    TextsAfterTextlessFront(head, hops, lops, code, body, foot, role);
    LineOpsTexts(BodyLines(c), W, textY, LineStep(c, H), BodyFont(c, H), c.bodyAlign, env, role);
  }

  /** Four leading parts without text of a role leave only the texts of
      the last two. */
  lemma TextsAfterTextlessFront(a: seq<DrawOp>, b: seq<DrawOp>, c: seq<DrawOp>, d: seq<DrawOp>, e: seq<DrawOp>, f: seq<DrawOp>,
                                role: TextRole)
    requires TextsOf(a, role) == [] && TextsOf(b, role) == [] && TextsOf(c, role) == [] && TextsOf(d, role) == []
    ensures TextsOf(a + b + c + d + e + f, role) == TextsOf(e, role) + TextsOf(f, role)
  {
    TextsOfSix(a, b, c, d, e, f, role);
    assert [] + [] + [] + [] + TextsOf(e, role) == TextsOf(e, role);
  }

  lemma SuccessParts(c: LabelConfig, W: int, H: int, env: Env)
    requires ValidEnv(env) && env.code.Drawn?
    ensures var areaY, areaH := AreaTop(c, H), AreaHeight(c, H);
            Compose(c, W, H, env).0
              == [FillRect(Background, 0, 0, W, H)] + HeaderOps(c, W, H, env) + LogoOps(c, W, H, areaY, env)
                 + CodeOps(c, W, H, areaY, areaH, env.code.width, env.code.height)
                 + LineOps(BodyLines(c), W, areaY + areaH + BodyGap(H), LineStep(c, H), BodyFont(c, H), c.bodyAlign, env)
                 + FooterOps(c, W, H, env)
  {
  }

  /** The background, header, logo and code draw no text of any role but
      the header's. */
  lemma FrontTextless(c: LabelConfig, W: int, H: int, env: Env, bw: int, bh: int, role: TextRole)
    requires ValidEnv(env) && role != HeaderLine
    ensures var areaY := AreaTop(c, H);
            TextsOf([FillRect(Background, 0, 0, W, H)], role) == []
            && TextsOf(HeaderOps(c, W, H, env), role) == []
            && TextsOf(LogoOps(c, W, H, areaY, env), role) == []
            && TextsOf(CodeOps(c, W, H, areaY, AreaHeight(c, H), bw, bh), role) == []
  {
    var areaY := AreaTop(c, H);
    NoRoleNoTexts([FillRect(Background, 0, 0, W, H)], role);
    NoRoleNoTexts(HeaderOps(c, W, H, env), role);
    NoRoleNoTexts(LogoOps(c, W, H, areaY, env), role);
    NoRoleNoTexts(CodeOps(c, W, H, areaY, AreaHeight(c, H), bw, bh), role);
  }

  lemma FooterTexts(c: LabelConfig, W: int, H: int, env: Env, role: TextRole)
    ensures TextsOf(FooterOps(c, W, H, env), role)
         == if role == FooterLine && c.footerText != "" then [c.footerText] else []
  {
    var foot := FooterOps(c, W, H, env);
    if foot != [] {
      assert foot[1..] == [];
    }
  }
}
