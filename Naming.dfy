/** File and folder names derived from a label's value:
    `value.replace(/[^a-z0-9_-]+/gi, '_').slice(0, 40)` with a fallback for
    an empty value, and the names the exports give their files. */
module Naming {
  import opened Js

  /** The characters the pattern leaves alone (the `i` flag admits both
      cases of the ASCII letters and nothing else). */
  predicate SafeChar(c: char)
  {
    ('a' <= c <= 'z') || ('A' <= c <= 'Z') || ('0' <= c <= '9') || c == '_' || c == '-'
  }

  predicate AllSafe(s: string)
  {
    forall i :: 0 <= i < |s| ==> SafeChar(s[i])
  }

  /** The global replace, scanning left to right; `inRun` says that the
      previous character was unsafe and has already produced its `_`. */
  function SanitizeFrom(s: string, inRun: bool): (r: string)
    ensures AllSafe(r) && |r| <= |s|
    ensures AllSafe(s) ==> r == s
  {
    if s == [] then []
    else if SafeChar(s[0]) then [s[0]] + SanitizeFrom(s[1..], false)
    else if inRun then SanitizeFrom(s[1..], true)
    else ['_'] + SanitizeFrom(s[1..], true)
  }

  /** Every maximal run of unsafe characters becomes one `_`. */
  function Sanitize(s: string): string
  {
    SanitizeFrom(s, false)
  }

  /** A run of unsafe characters collapses to a single underscore. */
  lemma {:induction false} UnsafeRunCollapses(run: string, rest: string)
    requires run != [] && forall i :: 0 <= i < |run| ==> !SafeChar(run[i])
    requires rest == [] || SafeChar(rest[0])
    ensures Sanitize(run + rest) == "_" + Sanitize(rest)
  {
    assert (run + rest)[1..] == run[1..] + rest;
    RunAbsorbed(run[1..], rest);
  }

  lemma {:induction false} RunAbsorbed(run: string, rest: string)
    requires forall i :: 0 <= i < |run| ==> !SafeChar(run[i])
    requires rest == [] || SafeChar(rest[0])
    ensures SanitizeFrom(run + rest, true) == SanitizeFrom(rest, false)
    decreases |run|
  {
    if run == [] {
      assert run + rest == rest;
    } else {
      assert (run + rest)[1..] == run[1..] + rest;
      RunAbsorbed(run[1..], rest);
    }
  }

  /** The sanitiser leaves a string unchanged exactly when all of it is
      safe, and applying it twice changes nothing more. */
  lemma SanitizeFixpoint(s: string)
    ensures Sanitize(s) == s <==> AllSafe(s)
    ensures Sanitize(Sanitize(s)) == Sanitize(s)
  {
  }

  const MaxNameLength := 40

  /** `(value || fallback).replace(...).slice(0, 40)`. */
  function SafeName(value: string, fallback: string): (r: string)
    ensures AllSafe(r) && |r| <= MaxNameLength
    ensures value != [] && |value| <= MaxNameLength && AllSafe(value) ==> r == value
    ensures (value != [] || fallback != []) ==> r != []
  {
    var s := Sanitize(if value != [] then value else fallback);
    NonEmptyStaysNonEmpty(if value != [] then value else fallback);
    if |s| <= MaxNameLength then s else s[..MaxNameLength]
  }

  lemma NonEmptyStaysNonEmpty(s: string)
    ensures s != [] ==> Sanitize(s) != []
  {
  }

  /** The fallback of the per-row exports: `fila-<row number>`. */
  function RowFallback(i: nat): string
  {
    "fila-" + NatToString(i + 1)
  }

  /** The fallback name is already safe, so an empty value names row `i`
      `fila-<i+1>` exactly (while the counter has at most 35 digits). */
  lemma RowFallbackIsSafe(i: nat)
    requires |NatToString(i + 1)| <= 35
    ensures SafeName("", RowFallback(i)) == RowFallback(i)
  {
    var d := NatToString(i + 1);
    assert AllSafe(RowFallback(i)) by {
      forall k | 0 <= k < |RowFallback(i)| ensures SafeChar(RowFallback(i)[k]) {
        if k >= 5 { assert RowFallback(i)[k] == d[k - 5]; }
      }
    }
  }

  const SingleFallback := "etiqueta"

  /** The name of copy `k` of a row in the PNG archive. */
  function ArchiveName(safe: string, count: nat, k: nat): string
  {
    if count > 1 then "etiqueta_" + safe + "_" + NatToString(k + 1) + ".png"
    else "etiqueta_" + safe + ".png"
  }

  /** The copies of one row get different names in the archive. */
  lemma ArchiveNamesDistinct(safe: string, count: nat, k1: nat, k2: nat)
    requires count > 1 && k1 != k2
    ensures ArchiveName(safe, count, k1) != ArchiveName(safe, count, k2)
  {
    var p := "etiqueta_" + safe + "_";
    var a, b := NatToString(k1 + 1), NatToString(k2 + 1);
    if ArchiveName(safe, count, k1) == ArchiveName(safe, count, k2) {
      var n1, n2 := p + a + ".png", p + b + ".png";
      assert n1 == ArchiveName(safe, count, k1) && n2 == ArchiveName(safe, count, k2);
      assert |a| == |b|;
      assert a == n1[|p|..|p| + |a|];
      assert b == n2[|p|..|p| + |b|];
      NatToStringInjective(k1 + 1, k2 + 1);
    }
  }

  /** The folder of a row in the archive. */
  function FolderName(safe: string): string
  {
    "etiquetas/" + safe
  }

  /** The PDF of one row. */
  function RowPdfName(safe: string): string
  {
    "etiquetas_" + safe + ".pdf"
  }

  /** The single PNG export. */
  function PngName(safe: string): string
  {
    "etiqueta_" + safe + ".png"
  }
}
