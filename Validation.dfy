/** The per-label validator and the batch validation built on it. A label
    is reported with the first reason that applies, the empty string meaning
    "valid". */
module Validation {
  import opened Js
  import opened Labels

  const EmptyValue := "Valor vacío"
  const Ean13Message := "EAN13 debe ser 12 o 13 dígitos"
  const Ean8Message := "EAN8 debe ser 7 u 8 dígitos"
  const UpcMessage := "UPC-A debe ser 11 o 12 dígitos"
  const Itf14Message := "ITF-14 debe ser 13 o 14 dígitos"
  const BadSize := "Tamaño etiqueta inválido"
  const LowDpi := "DPI muy bajo (<72)"

  /** `/^[0-9]+$/`: at least one character, all of them ASCII digits. */
  predicate OnlyDigits(s: string)
  {
    |s| > 0 && forall i :: 0 <= i < |s| ==> IsDigit(s[i])
  }

  /** Reference table of the symbologies with a strict rule: the accepted
      lengths of an all-digit value, and the reason given otherwise. Every
      other tag (CODE128, MSI, pharmacode, codabar or anything unknown) has
      no charset or length rule. */
  const StrictLengths: map<string, set<nat>> :=
    map["EAN13" := {12, 13}, "EAN8" := {7, 8}, "UPC" := {11, 12}, "ITF14" := {13, 14}]

  const StrictMessages: map<string, string> :=
    map["EAN13" := Ean13Message, "EAN8" := Ean8Message, "UPC" := UpcMessage, "ITF14" := Itf14Message]

  predicate SymbologyAccepts(symbology: string, v: string)
  {
    symbology in StrictLengths ==> OnlyDigits(v) && |v| in StrictLengths[symbology]
  }

  /** The `switch` on the symbology in barcode mode: a reason, or "". */
  function SymbologyError(v: string, symbology: string): string
  {
    var len := |v|;
    if symbology == "EAN13" then
      (if !OnlyDigits(v) || !(len == 12 || len == 13) then Ean13Message else "")
    else if symbology == "EAN8" then
      (if !OnlyDigits(v) || !(len == 7 || len == 8) then Ean8Message else "")
    else if symbology == "UPC" then
      (if !OnlyDigits(v) || !(len == 11 || len == 12) then UpcMessage else "")
    else if symbology == "ITF14" then
      (if !OnlyDigits(v) || !(len == 13 || len == 14) then Itf14Message else "")
    else ""
  }

  predicate GeometryOk(c: LabelConfig)
  {
    c.widthMm > 0.0 && c.heightMm > 0.0
  }

  /** validateConfig: the empty value first, then (in barcode mode only) the
      symbology rule, then the label size, then the resolution. */
  function ValidateConfig(c: LabelConfig): string
  {
    if c.value == [] then EmptyValue
    else if c.mode == Barcode && SymbologyError(c.value, c.symbology) != "" then
      SymbologyError(c.value, c.symbology)
    else if c.widthMm <= 0.0 || c.heightMm <= 0.0 then BadSize
    else if c.dpi < 72.0 then LowDpi
    else ""
  }

  /** The empty value is reported before anything else; otherwise the label
      is valid exactly when the symbology rule (barcode mode only), the size
      and the resolution all pass; a failing symbology rule gives that
      symbology's reason, and a bad size is reported before a low
      resolution. */
  lemma ValidateConfigOrder(c: LabelConfig)
    ensures c.value == [] ==> ValidateConfig(c) == EmptyValue
    ensures ValidateConfig(c) == "" <==>
      c.value != [] && (c.mode == Barcode ==> SymbologyAccepts(c.symbology, c.value))
      && GeometryOk(c) && c.dpi >= 72.0
    ensures c.value != [] && c.mode == Barcode && !SymbologyAccepts(c.symbology, c.value) ==>
      c.symbology in StrictMessages && ValidateConfig(c) == StrictMessages[c.symbology]
    ensures c.value != [] && (c.mode == Barcode ==> SymbologyAccepts(c.symbology, c.value)) ==>
      (!GeometryOk(c) ==> ValidateConfig(c) == BadSize)
      && (GeometryOk(c) && c.dpi < 72.0 ==> ValidateConfig(c) == LowDpi)
  {
    SymbologyErrorMatchesTable(c.value, c.symbology);
  }

  /** The `switch` agrees with the reference table: it gives the table's
      reason exactly when the table's rule fails, and "" otherwise. */
  lemma SymbologyErrorMatchesTable(v: string, symbology: string)
    ensures SymbologyError(v, symbology) == "" <==> SymbologyAccepts(symbology, v)
    ensures !SymbologyAccepts(symbology, v) ==>
      symbology in StrictMessages && SymbologyError(v, symbology) == StrictMessages[symbology]
  {
  }

  /** In QR mode, and for a tag without a strict rule, the value's characters
      and length are never checked: only emptiness, size and resolution. */
  lemma NoCharsetCheckOutsideStrictBarcodes(c: LabelConfig)
    requires c.mode == Qr || c.symbology !in StrictLengths
    ensures ValidateConfig(c) == "" <==> c.value != [] && GeometryOk(c) && c.dpi >= 72.0
  {
    ValidateConfigOrder(c);
  }

  /** computeBatchValidation: one result per configuration, in order. */
  function BatchErrors(items: seq<LabelConfig>): (errs: seq<string>)
    ensures |errs| == |items|
    ensures forall i :: 0 <= i < |items| ==> errs[i] == ValidateConfig(items[i])
  {
    seq(|items|, i requires 0 <= i < |items| => ValidateConfig(items[i]))
  }

  /** `batchErrors.filter(Boolean).length`. */
  function ErrorCount(errs: seq<string>): nat
  {
    if errs == [] then 0
    else ErrorCount(errs[..|errs| - 1]) + (if errs[|errs| - 1] != "" then 1 else 0)
  }

  /** `batchErrors.some(e => !!e)`. */
  predicate HasErrors(errs: seq<string>)
  {
    exists i :: 0 <= i < |errs| && errs[i] != ""
  }

  function FlaggedRows(errs: seq<string>): set<nat>
  {
    set i: nat | i < |errs| && errs[i] != ""
  }

  /** The error count is the number of rows carrying a reason. */
  lemma {:induction false} ErrorCountIsFlaggedRows(errs: seq<string>)
    ensures ErrorCount(errs) == |FlaggedRows(errs)|
  {
    if errs != [] {
      var n := |errs| - 1;
      var prefix := errs[..n];
      ErrorCountIsFlaggedRows(prefix);
      if errs[n] != "" {
        assert FlaggedRows(errs) == FlaggedRows(prefix) + {n};
      } else {
        assert FlaggedRows(errs) == FlaggedRows(prefix);
      }
    }
  }

  /** The batch has errors exactly when the error count is positive. */
  lemma HasErrorsIffCount(errs: seq<string>)
    ensures HasErrors(errs) <==> ErrorCount(errs) > 0
  {
    ErrorCountIsFlaggedRows(errs);
    if HasErrors(errs) {
      var i :| 0 <= i < |errs| && errs[i] != "";
      assert i in FlaggedRows(errs);
    } else {
      assert FlaggedRows(errs) == {};
    }
  }
}
