/** The label configuration: the record the designer's form, every batch row
    and every render work on. */
module Labels {

  datatype Mode = Barcode | Qr

  datatype Layout = Classic | LogoLeft | CodeTop

  datatype Align = Left | Center | Right

  /** One label. `symbology` is the unchecked symbology tag (`CODE128`,
      `EAN13`, ... or whatever a spreadsheet supplied); `logo` is the logo's
      data URL, the empty string standing for "no logo"; sizes are in
      millimetres, `qty` is the repetition count of a batch row. */
  datatype LabelConfig = LabelConfig(
    value: string,
    symbology: string,
    mode: Mode,
    showValue: bool,
    description: string,
    price: string,
    lot: string,
    headerText: string,
    footerText: string,
    logo: string,
    widthMm: real,
    heightMm: real,
    marginMm: real,
    dpi: real,
    layout: Layout,
    bodyAlign: Align,
    headerScale: real,
    bodyScale: real,
    footerScale: real,
    qty: real)

  /** The string a mode, layout or alignment carries in the component. */
  function ModeName(m: Mode): string
  {
    match m
    case Barcode => "barcode"
    case Qr => "qr"
  }

  function LayoutName(l: Layout): string
  {
    match l
    case Classic => "classic"
    case LogoLeft => "logoLeft"
    case CodeTop => "codeTop"
  }

  function AlignName(a: Align): string
  {
    match a
    case Left => "left"
    case Center => "center"
    case Right => "right"
  }
}
