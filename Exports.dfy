/** The exports that walk the label list: the paged PDF, the print page,
    one PDF per batch row, the PNG archive with its CSV summary and the
    single PNG. Rendering, the PDF and archive libraries and the download
    are opaque: an image stands for the configuration it is rendered from,
    and a file is its name plus what is written into it. */
module Exports {
  import opened Js
  import opened Labels
  import opened Validation
  import opened Tiling
  import opened Batch
  import opened Naming
  import opened Csv

  /** A PDF file: its name, the resolution every label is rendered at and
      the operations on the document. */
  datatype PdfDocument = PdfDocument(name: string, dpi: real, ops: seq<PdfOp<LabelConfig>>)

  const PdfFileName := "etiquetas.pdf"

  // -------------------------------------------------------------------
  // exportPdf and printPage: the item list and its flags.

  /** The list both exports walk: the expanded batch when the batch is on
      and not empty, otherwise `quantity` copies of the form. */
  function ExportItems(batch: seq<LabelConfig>, useBatch: bool, form: LabelConfig, quantity: real): seq<LabelConfig>
  {
    if useBatch && |batch| > 0 then Expand(batch) else Repeat(form, SingleCount(quantity))
  }

  /** The per-item flags: each row's validation result carried along with
      its copies in batch mode, none otherwise. */
  function ExportFlags(batch: seq<LabelConfig>, errs: seq<string>, useBatch: bool): (flags: seq<string>)
    requires |errs| == |batch|
    ensures useBatch && |batch| > 0 ==> |flags| == |Expand(batch)|
    ensures !(useBatch && |batch| > 0) ==> flags == []
  {
    if useBatch && |batch| > 0 then ExpandErrors(batch, errs) else []
  }

  /** exportPdf: the item list is built by its loops and drawn into one
      document, the flagged items filtered out before they take a slot. */
  method ExportPdf(batch: seq<LabelConfig>, errs: seq<string>, useBatch: bool, form: LabelConfig,
                   quantity: real, g: Grid, dpi: real) returns (doc: PdfDocument)
    requires |errs| == |batch| && ValidGrid(g)
    ensures var items := ExportItems(batch, useBatch, form, quantity);
            doc == PdfDocument(PdfFileName, dpi, PdfOpsFixed(items, ExportFlags(batch, errs, useBatch), g, |items|))
  {
    var items;
    if useBatch && |batch| > 0 {
      items := ExpandBatch(batch);
    } else {
      items := ExpandSingle(form, quantity);
    }
    var flags := ExportFlags(batch, errs, useBatch);
    var ops := PdfLoopFixed(items, flags, g);
    doc := PdfDocument(PdfFileName, dpi, ops);
  }

  /** In batch mode the corrected PDF holds exactly the copies of the rows
      that pass validation, in row order. */
  lemma ExportPdfDrawsValidCopies(batch: seq<LabelConfig>, form: LabelConfig, quantity: real, g: Grid)
    requires ValidGrid(g) && |batch| > 0
    ensures var items := ExportItems(batch, true, form, quantity);
            var flags := ExportFlags(batch, BatchErrors(batch), true);
            AnnotatedImages(Annotate(PdfOpsFixed(items, flags, g, |items|))) == Expand(ValidRows(batch))
  {
    var items := Expand(batch);
    FixedImagesAreKept(items, ExpandErrors(batch, BatchErrors(batch)), g, |items|);
    ExpandedFlagsKeepValidRows(batch);
  }

  /** In single mode every one of the `quantity` copies is drawn. */
  lemma ExportPdfSingleDrawsAll(batch: seq<LabelConfig>, errs: seq<string>, useBatch: bool, form: LabelConfig,
                                quantity: real, g: Grid)
    requires ValidGrid(g) && |errs| == |batch| && !(useBatch && |batch| > 0)
    ensures var items := ExportItems(batch, useBatch, form, quantity);
            AnnotatedImages(Annotate(PdfOpsFixed(items, ExportFlags(batch, errs, useBatch), g, |items|)))
              == Repeat(form, SingleCount(quantity))
  {
    var items := Repeat(form, SingleCount(quantity));
    FixedImagesAreKept(items, [], g, |items|);
    KeptNothingFlagged(items, |items|);
  }

  /** printPage: the same item list laid out by its page, row and column
      loops. */
  method PrintPage(batch: seq<LabelConfig>, errs: seq<string>, useBatch: bool, form: LabelConfig,
                   quantity: real, g: Grid) returns (pages: seq<seq<Placement<LabelConfig>>>)
    requires |errs| == |batch| && ValidGrid(g)
    ensures pages == PrintSpec(ExportItems(batch, useBatch, form, quantity), ExportFlags(batch, errs, useBatch), g)
  {
    var items;
    if useBatch && |batch| > 0 {
      items := ExpandBatch(batch);
    } else {
      items := ExpandSingle(form, quantity);
    }
    pages := PrintLoop(items, ExportFlags(batch, errs, useBatch), g);
  }

  /** In batch mode the corrected print page shows exactly the copies of the
      valid rows, in row order. */
  lemma PrintPageShowsValidCopies(batch: seq<LabelConfig>, form: LabelConfig, quantity: real, g: Grid)
    requires ValidGrid(g) && |batch| > 0
    ensures PrintedImages(PrintSpec(ExportItems(batch, true, form, quantity), ExportFlags(batch, BatchErrors(batch), true), g))
         == Expand(ValidRows(batch))
  {
    var items := Expand(batch);
    var flags := ExpandErrors(batch, BatchErrors(batch));
    PrintSpecImages(items, flags, g);
    ExpandedFlagsKeepValidRows(batch);
  }

  // -------------------------------------------------------------------
  // exportPdfPorFila: one document per unflagged row.

  /** The name a row's files carry: its value, or `fila-<r+1>`, made safe. */
  function RowSafeName(cfg: LabelConfig, r: nat): (safe: string)
    ensures AllSafe(safe) && 0 < |safe| <= MaxNameLength
  {
    SafeName(cfg.value, RowFallback(r))
  }

  /** The document of row `r`: `Copies(qty)` images of it on a fresh grid. */
  function RowDocument(cfg: LabelConfig, r: nat, g: Grid, dpi: real): PdfDocument
    requires ValidGrid(g)
  {
    var count := Copies(cfg.qty);
    PdfDocument(RowPdfName(RowSafeName(cfg, r)), dpi, PdfOps(Repeat(cfg, count), [], g, count))
  }

  /** The documents of the first `n` rows, skipping the flagged ones. */
  function RowDocuments(batch: seq<LabelConfig>, errs: seq<string>, g: Grid, dpi: real, n: nat): seq<PdfDocument>
    requires ValidGrid(g) && n <= |batch|
  {
    if n == 0 then []
    else RowDocuments(batch, errs, g, dpi, n - 1)
         + (if Flagged(errs, n - 1) then [] else [RowDocument(batch[n - 1], n - 1, g, dpi)])
  }

  /** exportPdfPorFila: nothing without a batch; otherwise a row loop that
      skips flagged rows and runs the paged loop over each row's copies. */
  method ExportPdfPerRow(batch: seq<LabelConfig>, errs: seq<string>, useBatch: bool, g: Grid, dpi: real)
    returns (docs: seq<PdfDocument>)
    requires ValidGrid(g)
    ensures docs == if useBatch && |batch| > 0 then RowDocuments(batch, errs, g, dpi, |batch|) else []
  {
    docs := [];
    if !useBatch || |batch| == 0 {
      return;
    }
    for r := 0 to |batch|
      invariant docs == RowDocuments(batch, errs, g, dpi, r)
    {
      if Flagged(errs, r) {
        assert RowDocuments(batch, errs, g, dpi, r + 1) == docs + [];
        continue;
      }
      var cfg := batch[r];
      var count := Copies(cfg.qty);
      var ops := PdfLoop(Repeat(cfg, count), [], g);
      docs := docs + [PdfDocument(RowPdfName(RowSafeName(cfg, r)), dpi, ops)];
    }
  }

  /** Each row's document starts its own grid: copy `i` lands on page
      `i / perPage` in slot `i % perPage`, whatever the rows before. */
  lemma RowDocumentLayout(cfg: LabelConfig, r: nat, g: Grid, dpi: real)
    requires ValidGrid(g)
    ensures var count := Copies(cfg.qty);
            var ops := RowDocument(cfg, r, g, dpi).ops;
            AddedPages(ops) == (count - 1) / PerPage(g)
            && Annotate(ops) == seq(count, i requires 0 <= i < count => (i / PerPage(g), At(g, i % PerPage(g), cfg)))
  {
    var count := Copies(cfg.qty);
    var items := Repeat(cfg, count);
    PdfUnflaggedLayout(items, [], g, count);
    assert seq(count, i requires 0 <= i < count => (i / PerPage(g), At(g, i % PerPage(g), items[i])))
        == seq(count, i requires 0 <= i < count => (i / PerPage(g), At(g, i % PerPage(g), cfg)));
  }

  /** The per-row export writes one document per unflagged row, in row
      order. */
  lemma {:induction false} RowDocumentsFollowUnflagged(batch: seq<LabelConfig>, errs: seq<string>, g: Grid, dpi: real, n: nat)
    requires ValidGrid(g) && n <= |batch|
    ensures var ix := Unflagged(errs, n);
            RowDocuments(batch, errs, g, dpi, n)
              == seq(|ix|, k requires 0 <= k < |ix| => RowDocument(batch[ix[k]], ix[k], g, dpi))
  {
    if n > 0 {
      RowDocumentsFollowUnflagged(batch, errs, g, dpi, n - 1);
      var ix := Unflagged(errs, n - 1);
      if Flagged(errs, n - 1) {
        assert Unflagged(errs, n) == ix + [];
      } else {
        assert Unflagged(errs, n) == ix + [n - 1];
      }
    }
  }

  /** Every row index below `n` that is not flagged is among the unflagged
      indices. */
  lemma {:induction false} UnflaggedComplete(errs: seq<string>, n: nat, r: nat)
    requires r < n && !Flagged(errs, r)
    ensures r in Unflagged(errs, n)
  {
    if r < n - 1 {
      UnflaggedComplete(errs, n - 1, r);
    }
  }

  /** With the batch's own validation results, a row gets a document
      exactly when it passes validation. */
  lemma PerRowDocumentsAreValidRows(batch: seq<LabelConfig>, g: Grid, dpi: real, r: nat)
    requires ValidGrid(g) && r < |batch|
    ensures var ix := Unflagged(BatchErrors(batch), |batch|);
            (r in ix <==> ValidateConfig(batch[r]) == "")
            && |RowDocuments(batch, BatchErrors(batch), g, dpi, |batch|)| == |ix|
  {
    var errs := BatchErrors(batch);
    RowDocumentsFollowUnflagged(batch, errs, g, dpi, |batch|);
    if ValidateConfig(batch[r]) == "" {
      UnflaggedComplete(errs, |batch|, r);
    }
  }

  // -------------------------------------------------------------------
  // exportPngPorFilaZip: one folder per unflagged row, one PNG per copy and
  // a CSV summary.

  /** A file in the archive and the label rendered into it. */
  datatype ZipEntry = ZipEntry(path: string, image: LabelConfig)

  /** The archive: every label rendered at `dpi`, its files and the text of
      `resumen.csv`. */
  datatype ZipArchive = ZipArchive(dpi: real, entries: seq<ZipEntry>, summary: string)

  const SummaryHeaders: seq<string> :=
    ["index", "value", "type", "mode", "qty", "description", "price", "lot", "width_mm",
     "height_mm", "margin_mm", "dpi", "layout", "align", "header", "footer", "has_logo", "folder"]

  /** The summary record of row `i` with `count` copies in folder `safe`. */
  function SummaryRecord(cfg: LabelConfig, i: nat, count: nat, safe: string): Record
  {
    map["index" := Num((i + 1) as real), "value" := Str(cfg.value), "type" := Str(cfg.symbology),
        "mode" := Str(ModeName(cfg.mode)), "qty" := Num(count as real), "description" := Str(cfg.description),
        "price" := Str(cfg.price), "lot" := Str(cfg.lot), "width_mm" := Num(cfg.widthMm),
        "height_mm" := Num(cfg.heightMm), "margin_mm" := Num(cfg.marginMm), "dpi" := Num(cfg.dpi),
        "layout" := Str(LayoutName(cfg.layout)), "align" := Str(AlignName(cfg.bodyAlign)),
        "header" := Str(cfg.headerText), "footer" := Str(cfg.footerText),
        "has_logo" := Bool(cfg.logo != ""), "folder" := Str(FolderName(safe))]
  }

  /** Every record fills every column of the summary, so no field of the
      CSV reads a missing key. */
  lemma SummaryRecordHasColumns(cfg: LabelConfig, i: nat, count: nat, safe: string)
    ensures forall h :: h in SummaryHeaders ==> h in SummaryRecord(cfg, i, count, safe)
  {
  }

  /** The files of one row: copy `k` named by ArchiveName inside the row's
      folder. */
  function RowEntries(cfg: LabelConfig, safe: string, count: nat): (es: seq<ZipEntry>)
    ensures |es| == count
  {
    seq(count, k requires 0 <= k < count => ZipEntry(FolderName(safe) + "/" + ArchiveName(safe, count, k), cfg))
  }

  function ZipEntries(batch: seq<LabelConfig>, errs: seq<string>, n: nat): seq<ZipEntry>
    requires n <= |batch|
  {
    if n == 0 then []
    else
      var cfg := batch[n - 1];
      ZipEntries(batch, errs, n - 1)
      + (if Flagged(errs, n - 1) then [] else RowEntries(cfg, RowSafeName(cfg, n - 1), Copies(cfg.qty)))
  }

  /** The summary record of row `i`, with its own copy count and folder. */
  function RowRecord(batch: seq<LabelConfig>, i: nat): Record
    requires i < |batch|
  {
    SummaryRecord(batch[i], i, Copies(batch[i].qty), RowSafeName(batch[i], i))
  }

  function Summary(batch: seq<LabelConfig>, errs: seq<string>, n: nat): seq<Record>
    requires n <= |batch|
  {
    if n == 0 then []
    else Summary(batch, errs, n - 1) + (if Flagged(errs, n - 1) then [] else [RowRecord(batch, n - 1)])
  }

  /** exportPngPorFilaZip: nothing without a batch; otherwise the row loop
      with its copy loop, then the summary through toCsv. */
  method ExportPngZip(batch: seq<LabelConfig>, errs: seq<string>, useBatch: bool, dpi: real, rt: Runtime)
    returns (zip: Option<ZipArchive>)
    ensures zip == if useBatch && |batch| > 0
                   then Some(ZipArchive(dpi, ZipEntries(batch, errs, |batch|),
                                        CsvText(SummaryHeaders, Summary(batch, errs, |batch|), rt)))
                   else None
  {
    if !useBatch || |batch| == 0 {
      return None;
    }
    var entries: seq<ZipEntry> := [];
    var rows: seq<Record> := [];
    for i := 0 to |batch|
      invariant entries == ZipEntries(batch, errs, i)
      invariant rows == Summary(batch, errs, i)
    {
      var files, records := ZipRow(batch, errs, i);
      entries := entries + files;
      rows := rows + records;
    }
    var csv := ToCsv(SummaryHeaders, rows, rt);
    zip := Some(ZipArchive(dpi, entries, csv));
  }

  /** One pass of the row loop: a flagged row is skipped; otherwise its
      copies go into its folder and its record into the summary. */
  method ZipRow(batch: seq<LabelConfig>, errs: seq<string>, i: nat)
    returns (files: seq<ZipEntry>, records: seq<Record>)
    requires i < |batch|
    ensures ZipEntries(batch, errs, i + 1) == ZipEntries(batch, errs, i) + files
    ensures Summary(batch, errs, i + 1) == Summary(batch, errs, i) + records
  {
    if Flagged(errs, i) {
      return [], [];
    }
    var cfg := batch[i];
    var count := Copies(cfg.qty);
    var safe := RowSafeName(cfg, i);
    files := RowFiles(cfg, safe, count);
    records := [SummaryRecord(cfg, i, count, safe)];
  }

  /** The copy loop of one row: copy `k` written into the row's folder. */
  method RowFiles(cfg: LabelConfig, safe: string, count: nat) returns (files: seq<ZipEntry>)
    ensures files == RowEntries(cfg, safe, count)
  {
    var folder := FolderName(safe);
    files := [];
    for k := 0 to count
      invariant files == RowEntries(cfg, safe, count)[..k]
    {
      var name := if count > 1 then "etiqueta_" + safe + "_" + NatToString(k + 1) + ".png"
                  else "etiqueta_" + safe + ".png";
      files := files + [ZipEntry(folder + "/" + name, cfg)];
      assert RowEntries(cfg, safe, count)[..k + 1] == RowEntries(cfg, safe, count)[..k] + [ZipEntry(folder + "/" + name, cfg)];
    }
    assert RowEntries(cfg, safe, count)[..count] == RowEntries(cfg, safe, count);
  }

  function EntryImages(es: seq<ZipEntry>): (imgs: seq<LabelConfig>)
    ensures |imgs| == |es| && forall i :: 0 <= i < |es| ==> imgs[i] == es[i].image
  {
    seq(|es|, i requires 0 <= i < |es| => es[i].image)
  }

  /** The archive holds exactly the copies of the unflagged rows, in row
      order. */
  lemma {:induction false} ZipImagesAreCleanCopies(batch: seq<LabelConfig>, errs: seq<string>)
    requires |errs| == |batch|
    ensures EntryImages(ZipEntries(batch, errs, |batch|)) == Expand(CleanRows(batch, errs))
  {
    if batch != [] {
      var n := |batch| - 1;
      var prefix, pe := batch[..n], errs[..n];
      ZipImagesAreCleanCopies(prefix, pe);
      ZipEntriesOfPrefix(batch, errs, n);
      var x := batch[n];
      var c := Copies(x.qty);
      var v := CleanRows(prefix, pe);
      var before := ZipEntries(batch, errs, n);
      if errs[n] == "" {
        var row := RowEntries(x, RowSafeName(x, n), c);
        assert ZipEntries(batch, errs, n + 1) == before + row;
        assert EntryImages(before + row) == EntryImages(before) + Repeat(x, c);
        assert CleanRows(batch, errs) == v + [x];
        assert (v + [x])[..|v|] == v;
        assert Expand(v + [x]) == Expand(v) + Repeat(x, c);
      } else {
        assert ZipEntries(batch, errs, n + 1) == before + [];
        assert CleanRows(batch, errs) == v;
      }
    }
  }

  /** The first `m` rows produce the same files within a longer batch. */
  lemma ZipEntriesOfPrefix(batch: seq<LabelConfig>, errs: seq<string>, m: nat)
    requires m <= |batch| && |errs| == |batch|
    ensures ZipEntries(batch, errs, m) == ZipEntries(batch[..m], errs[..m], m)
  {
    assert batch[..m][..m] == batch[..m];
    ZipEntriesAgree(batch, errs, batch[..m], errs[..m], m);
  }

  /** Two batches that agree on their first `n` rows and flags write the
      same files for them. */
  lemma {:induction false} ZipEntriesAgree(a: seq<LabelConfig>, ea: seq<string>, b: seq<LabelConfig>, eb: seq<string>, n: nat)
    requires n <= |a| && n <= |b| && a[..n] == b[..n]
    requires forall i :: 0 <= i < n ==> (Flagged(ea, i) <==> Flagged(eb, i))
    ensures ZipEntries(a, ea, n) == ZipEntries(b, eb, n)
  {
    if n > 0 {
      assert a[..n - 1] == a[..n][..n - 1] && b[..n - 1] == b[..n][..n - 1];
      assert a[n - 1] == a[..n][n - 1] && b[n - 1] == b[..n][n - 1];
      ZipEntriesAgree(a, ea, b, eb, n - 1);
    }
  }

  /** With the batch's own validation results, the archive holds exactly
      the copies of the valid rows. */
  lemma ZipImagesAreValidCopies(batch: seq<LabelConfig>)
    ensures EntryImages(ZipEntries(batch, BatchErrors(batch), |batch|)) == Expand(ValidRows(batch))
  {
    ZipImagesAreCleanCopies(batch, BatchErrors(batch));
    CleanRowsAreValidRows(batch);
  }

  // The archive JSZip builds from the writes: one file per path.

  /** The files after the writes `es`, keyed by path: a later write to a
      path replaces the earlier file. */
  function ArchiveFiles(es: seq<ZipEntry>): (files: map<string, LabelConfig>)
    ensures forall i :: 0 <= i < |es| ==> es[i].path in files
    ensures forall p :: p in files ==> exists i :: 0 <= i < |es| && es[i].path == p
  {
    if es == [] then map[]
    else
      var prefix := es[..|es| - 1];
      var files := ArchiveFiles(prefix)[es[|es| - 1].path := es[|es| - 1].image];
      assert forall i :: 0 <= i < |es| - 1 ==> es[i] == prefix[i];
      files
  }

  /** A file holds the last label written to its path. */
  lemma {:induction false} LastWriteWins(es: seq<ZipEntry>, i: nat)
    requires i < |es|
    requires forall j :: i < j < |es| ==> es[j].path != es[i].path
    ensures ArchiveFiles(es)[es[i].path] == es[i].image
  {
    if i < |es| - 1 {
      var prefix := es[..|es| - 1];
      assert prefix[i] == es[i];
      LastWriteWins(prefix, i);
    }
  }

  predicate DistinctPaths(es: seq<ZipEntry>)
  {
    forall i, j :: 0 <= i < j < |es| ==> es[i].path != es[j].path
  }

  /** Writes to pairwise different paths all survive: one file per write,
      each holding its own label. */
  lemma DistinctPathsKeepEveryFile(es: seq<ZipEntry>)
    requires DistinctPaths(es)
    ensures |ArchiveFiles(es)| == |es|
    ensures forall i :: 0 <= i < |es| ==> ArchiveFiles(es)[es[i].path] == es[i].image
  {
    DistinctPathsFileCount(es);
    forall i | 0 <= i < |es| ensures ArchiveFiles(es)[es[i].path] == es[i].image {
      LastWriteWins(es, i);
    }
  }

  lemma {:induction false} DistinctPathsFileCount(es: seq<ZipEntry>)
    requires DistinctPaths(es)
    ensures |ArchiveFiles(es)| == |es|
  {
    if es != [] {
      var n := |es| - 1;
      var prefix := es[..n];
      assert DistinctPaths(prefix) by {
        forall i, j | 0 <= i < j < |prefix| ensures prefix[i].path != prefix[j].path {
          assert prefix[i] == es[i] && prefix[j] == es[j];
        }
      }
      DistinctPathsFileCount(prefix);
      var before := ArchiveFiles(prefix);
      assert es[n].path !in before by {
        forall i | 0 <= i < |prefix| ensures prefix[i].path != es[n].path {
          assert prefix[i] == es[i];
        }
      }
      assert ArchiveFiles(es) == before[es[n].path := es[n].image];
    }
  }

  /** `path` lies in the folder of the row named `safe`. */
  predicate InFolder(path: string, safe: string)
  {
    FolderName(safe) + "/" <= path
  }

  /** A path lies in at most one row folder: a `/` ends the folder name,
      and a safe name holds none. */
  lemma FolderOfPathUnique(path: string, s1: string, s2: string)
    requires AllSafe(s1) && AllSafe(s2)
    requires InFolder(path, s1) && InFolder(path, s2)
    ensures s1 == s2
  {
    if |s1| <= |s2| {
      ShorterFolderEqual(path, s1, s2);
    } else {
      ShorterFolderEqual(path, s2, s1);
    }
  }

  lemma ShorterFolderEqual(path: string, s1: string, s2: string)
    requires AllSafe(s2) && InFolder(path, s1) && InFolder(path, s2) && |s1| <= |s2|
    ensures s1 == s2
  {
    var p1, p2 := FolderName(s1) + "/", FolderName(s2) + "/";
    var k := |"etiquetas/"|;
    assert path[k + |s1|] == p1[k + |s1|] == '/';
    assert forall j :: k <= j < k + |s2| ==> path[j] == p2[j] == s2[j - k];
    assert |s1| == |s2|;
    assert p1 == path[..|p1|] == p2;
    assert s1 == p1[k..|p1| - 1] && s2 == p2[k..|p2| - 1];
  }

  /** The rows that write files carry pairwise different safe names. */
  predicate DistinctFolders(batch: seq<LabelConfig>, errs: seq<string>, n: nat)
    requires n <= |batch|
  {
    forall a, b :: 0 <= a < b < n && !Flagged(errs, a) && !Flagged(errs, b)
      ==> RowSafeName(batch[a], a) != RowSafeName(batch[b], b)
  }

  /** `path` lies in the folder of one of the first `n` rows that is not
      flagged. */
  predicate InUnflaggedFolder(batch: seq<LabelConfig>, errs: seq<string>, n: nat, path: string)
    requires n <= |batch|
  {
    exists r :: 0 <= r < n && !Flagged(errs, r) && InFolder(path, RowSafeName(batch[r], r))
  }

  /** Every file of a row is written into that row's folder. */
  lemma RowEntriesInFolder(cfg: LabelConfig, safe: string, count: nat)
    ensures forall k :: 0 <= k < count ==> InFolder(RowEntries(cfg, safe, count)[k].path, safe)
  {
    forall k | 0 <= k < count ensures InFolder(RowEntries(cfg, safe, count)[k].path, safe) {
      var p := FolderName(safe) + "/";
      var q := p + ArchiveName(safe, count, k);
      assert q[..|p|] == p;
    }
  }

  /** Every file the archive export writes lies in the folder of an
      unflagged row. */
  lemma {:induction false} ZipEntriesInRowFolders(batch: seq<LabelConfig>, errs: seq<string>, n: nat)
    requires n <= |batch|
    ensures forall i :: 0 <= i < |ZipEntries(batch, errs, n)| ==>
              InUnflaggedFolder(batch, errs, n, ZipEntries(batch, errs, n)[i].path)
  {
    if n > 0 {
      ZipEntriesInRowFolders(batch, errs, n - 1);
      var cfg := batch[n - 1];
      var safe := RowSafeName(cfg, n - 1);
      var extra := if Flagged(errs, n - 1) then [] else RowEntries(cfg, safe, Copies(cfg.qty));
      assert ZipEntries(batch, errs, n) == ZipEntries(batch, errs, n - 1) + extra;
      if !Flagged(errs, n - 1) {
        RowEntriesInFolder(cfg, safe, Copies(cfg.qty));
        forall k | 0 <= k < |extra| ensures InUnflaggedFolder(batch, errs, n, extra[k].path) {
          assert InFolder(extra[k].path, RowSafeName(batch[n - 1], n - 1));
        }
      }
      FoldersOfAppend(batch, errs, n, ZipEntries(batch, errs, n - 1), extra);
    }
  }

  lemma FoldersOfAppend(batch: seq<LabelConfig>, errs: seq<string>, n: nat, prev: seq<ZipEntry>, extra: seq<ZipEntry>)
    requires 0 < n <= |batch|
    requires forall i :: 0 <= i < |prev| ==> InUnflaggedFolder(batch, errs, n - 1, prev[i].path)
    requires forall k :: 0 <= k < |extra| ==> InUnflaggedFolder(batch, errs, n, extra[k].path)
    ensures forall i :: 0 <= i < |prev + extra| ==> InUnflaggedFolder(batch, errs, n, (prev + extra)[i].path)
  {
    forall i | 0 <= i < |prev + extra| ensures InUnflaggedFolder(batch, errs, n, (prev + extra)[i].path) {
      if i < |prev| {
        assert (prev + extra)[i] == prev[i];
        UnflaggedFolderGrows(batch, errs, n - 1, prev[i].path);
      } else {
        assert (prev + extra)[i] == extra[i - |prev|];
      }
    }
  }

  lemma UnflaggedFolderGrows(batch: seq<LabelConfig>, errs: seq<string>, n: nat, path: string)
    requires n < |batch| && InUnflaggedFolder(batch, errs, n, path)
    ensures InUnflaggedFolder(batch, errs, n + 1, path)
  {
    var r :| 0 <= r < n && !Flagged(errs, r) && InFolder(path, RowSafeName(batch[r], r));
    assert 0 <= r < n + 1;
  }

  /** A file of an earlier unflagged row and a file of a row with another
      safe name never share a path. */
  lemma EarlierRowsApart(batch: seq<LabelConfig>, errs: seq<string>, n: nat, e: ZipEntry, safe: string)
    requires n <= |batch| && AllSafe(safe) && InFolder(e.path, safe)
    requires forall r :: 0 <= r < n && !Flagged(errs, r) ==> RowSafeName(batch[r], r) != safe
    ensures forall i :: 0 <= i < |ZipEntries(batch, errs, n)| ==> ZipEntries(batch, errs, n)[i].path != e.path
  {
    ZipEntriesInRowFolders(batch, errs, n);
    var es := ZipEntries(batch, errs, n);
    forall i | 0 <= i < |es| ensures es[i].path != e.path {
      assert InUnflaggedFolder(batch, errs, n, es[i].path);
      var r :| 0 <= r < n && !Flagged(errs, r) && InFolder(es[i].path, RowSafeName(batch[r], r));
      if es[i].path == e.path {
        FolderOfPathUnique(e.path, RowSafeName(batch[r], r), safe);
      }
    }
  }

  /** When the unflagged rows carry pairwise different safe names, no two
      files the archive export writes share a path. */
  lemma {:induction false} ZipPathsDistinct(batch: seq<LabelConfig>, errs: seq<string>, n: nat)
    requires n <= |batch| && DistinctFolders(batch, errs, n)
    ensures DistinctPaths(ZipEntries(batch, errs, n))
  {
    if n > 0 {
      ZipPathsDistinct(batch, errs, n - 1);
      var prev := ZipEntries(batch, errs, n - 1);
      if Flagged(errs, n - 1) {
        assert ZipEntries(batch, errs, n) == prev + [];
      } else {
        var cfg := batch[n - 1];
        var safe := RowSafeName(cfg, n - 1);
        var row := RowEntries(cfg, safe, Copies(cfg.qty));
        assert ZipEntries(batch, errs, n) == prev + row;
        RowEntriesInFolder(cfg, safe, Copies(cfg.qty));
        forall k | 0 <= k < |row|
          ensures forall i :: 0 <= i < |prev| ==> prev[i].path != row[k].path
        {
          EarlierRowsApart(batch, errs, n - 1, row[k], safe);
        }
        forall a, b | 0 <= a < b < |row| ensures row[a].path != row[b].path {
          RowEntryPathsDistinct(cfg, safe, Copies(cfg.qty), a, b);
        }
        AppendDistinct(prev, row);
      }
    }
  }

  lemma AppendDistinct(xs: seq<ZipEntry>, ys: seq<ZipEntry>)
    requires DistinctPaths(xs) && DistinctPaths(ys)
    requires forall k, i :: 0 <= k < |ys| && 0 <= i < |xs| ==> xs[i].path != ys[k].path
    ensures DistinctPaths(xs + ys)
  {
    var es := xs + ys;
    forall i, j | 0 <= i < j < |es| ensures es[i].path != es[j].path {
      if j < |xs| {
        assert es[i] == xs[i] && es[j] == xs[j];
      } else if i >= |xs| {
        assert es[i] == ys[i - |xs|] && es[j] == ys[j - |xs|];
      } else {
        assert es[i] == xs[i] && es[j] == ys[j - |xs|];
      }
    }
  }

  /** When the valid rows' safe names are pairwise different, the archive
      holds one file per copy of the valid rows, each file holding its own
      copy. */
  lemma ZipArchiveHoldsValidCopies(batch: seq<LabelConfig>)
    requires DistinctFolders(batch, BatchErrors(batch), |batch|)
    ensures var es := ZipEntries(batch, BatchErrors(batch), |batch|);
            var copies := Expand(ValidRows(batch));
            |ArchiveFiles(es)| == |copies| == |es|
            && forall i :: 0 <= i < |es| ==> ArchiveFiles(es)[es[i].path] == copies[i]
  {
    var es := ZipEntries(batch, BatchErrors(batch), |batch|);
    ZipImagesAreValidCopies(batch);
    ZipPathsDistinct(batch, BatchErrors(batch), |batch|);
    DistinctPathsKeepEveryFile(es);
  }

  /** Two valid rows with the same value and one copy each write the same
      path, so the archive keeps one image where the valid rows have two
      copies. */
  lemma SameNameRowsCollide(a: LabelConfig)
    requires ValidateConfig(a) == "" && Copies(a.qty) == 1
    ensures var es := ZipEntries([a, a], BatchErrors([a, a]), 2);
            |es| == 2 && |ArchiveFiles(es)| == 1 && |Expand(ValidRows([a, a]))| == 2
  {
    var errs := BatchErrors([a, a]);
    assert errs == ["", ""];
    ZipImagesAreValidCopies([a, a]);
    var e0 := SameRowTwice(a, errs);
    WrittenTwiceKeptOnce(e0);
  }

  /** Both copies of a row with one copy write the same single entry. */
  lemma SameRowTwice(a: LabelConfig, errs: seq<string>) returns (e0: ZipEntry)
    requires errs == ["", ""] && ValidateConfig(a) == "" && Copies(a.qty) == 1
    ensures ZipEntries([a, a], errs, 2) == [e0, e0]
  {
    assert RowSafeName(a, 0) == RowSafeName(a, 1);
    var files := RowEntries(a, RowSafeName(a, 0), 1);
    e0 := files[0];
    assert files == [e0];
    assert ZipEntries([a, a], errs, 1) == [] + files;
  }

  lemma WrittenTwiceKeptOnce(e: ZipEntry)
    ensures ArchiveFiles([e, e]) == map[e.path := e.image]
  {
    assert [e, e][..1] == [e];
    assert [e][..0] == [];
  }

  /** Within one row's folder the copies get different paths. */
  lemma RowEntryPathsDistinct(cfg: LabelConfig, safe: string, count: nat, a: nat, b: nat)
    requires a < b < count
    ensures RowEntries(cfg, safe, count)[a].path != RowEntries(cfg, safe, count)[b].path
  {
    ArchiveNamesDistinct(safe, count, a, b);
    var p := FolderName(safe) + "/";
    var na, nb := ArchiveName(safe, count, a), ArchiveName(safe, count, b);
    assert (p + na)[|p|..] == na;
    assert (p + nb)[|p|..] == nb;
  }

  /** Rows whose safe names differ write into different folders, so their
      files never collide; rows with equal safe names share a folder. */
  lemma FolderPathsDistinct(s1: string, s2: string, a: string, b: string)
    requires AllSafe(s1) && AllSafe(s2) && s1 != s2
    ensures FolderName(s1) + "/" + a != FolderName(s2) + "/" + b
  {
    var p1, p2 := FolderName(s1) + "/" + a, FolderName(s2) + "/" + b;
    var k := |"etiquetas/"|;
    if |s1| == |s2| {
      assert exists j :: 0 <= j < |s1| && s1[j] != s2[j];
      var j :| 0 <= j < |s1| && s1[j] != s2[j];
      assert p1[k + j] == s1[j] && p2[k + j] == s2[j];
    } else if |s1| < |s2| {
      assert p1[k + |s1|] == '/';
      assert p2[k + |s1|] == s2[|s1|] && SafeChar(s2[|s1|]);
    } else {
      assert p2[k + |s2|] == '/';
      assert p1[k + |s2|] == s1[|s2|] && SafeChar(s1[|s2|]);
    }
  }

  /** The summary has one record per unflagged row, in row order, carrying
      its 1-based row number, its copy count and its folder. */
  lemma {:induction false} SummaryFollowsUnflagged(batch: seq<LabelConfig>, errs: seq<string>, n: nat)
    requires n <= |batch|
    ensures Summary(batch, errs, n) == RowRecords(batch, Unflagged(errs, n))
  {
    if n > 0 {
      var i := n - 1;
      SummaryFollowsUnflagged(batch, errs, i);
      var ix := Unflagged(errs, i);
      if Flagged(errs, i) {
        assert Summary(batch, errs, n) == Summary(batch, errs, i) + [];
        assert Unflagged(errs, n) == ix + [];
        assert ix + [] == ix;
      } else {
        assert Summary(batch, errs, n) == Summary(batch, errs, i) + [RowRecord(batch, i)];
        assert Unflagged(errs, n) == ix + [i];
        RowRecordsSnoc(batch, ix, i);
      }
    }
  }

  /** The records of the given rows, in the given order. */
  function RowRecords(batch: seq<LabelConfig>, ix: seq<nat>): (rs: seq<Record>)
    requires forall k :: 0 <= k < |ix| ==> ix[k] < |batch|
    ensures |rs| == |ix|
  {
    seq(|ix|, k requires 0 <= k < |ix| => RowRecord(batch, ix[k]))
  }

  lemma RowRecordsSnoc(batch: seq<LabelConfig>, ix: seq<nat>, j: nat)
    requires forall k :: 0 <= k < |ix| ==> ix[k] < |batch|
    requires j < |batch|
    ensures RowRecords(batch, ix + [j]) == RowRecords(batch, ix) + [RowRecord(batch, j)]
  {
    var next := RowRecords(batch, ix + [j]);
    assert forall k :: 0 <= k < |ix| ==> next[k] == RowRecords(batch, ix)[k];
  }

  // -------------------------------------------------------------------
  // exportPng

  /** The single PNG is named after the label's value, or `etiqueta`. */
  function PngFileName(cfg: LabelConfig): (name: string)
    ensures 13 < |name| && name[..9] == "etiqueta_" && name[|name| - 4..] == ".png"
    ensures AllSafe(name[9..|name| - 4]) && |name| <= 13 + MaxNameLength
  {
    var safe := SafeName(cfg.value, SingleFallback);
    var name := PngName(safe);
    assert name[9..|name| - 4] == safe;
    name
  }
}
