# Label designer: the batch engine, modelled in Dafny

This project models the label-batch engine inside the Angular component `LabelDesigner`
(`src/app/label-designer/label-designer.ts`). The component designs barcode and QR
labels. It can load a batch of labels from a spreadsheet and exports them as a paged PDF,
a print page, one PDF per row, or a ZIP of PNG files with a CSV summary. The model covers:

- `Labels`: the label configuration record.
- `Js`: the JavaScript facilities the engine relies on. Spreadsheet cells, `String(v)`,
  `Number(v)`, `toLowerCase`, `Math.round` and `trim`.
- `Validation`: the per-label validator `validateConfig` and the batch validation with
  its error count.
- `RowMapper`: `mapRowToConfig`, which reads a spreadsheet row through the custom column
  mapping and the recognised column names, with its conversions.
- `Batch`: the quantity expansion. Each row is repeated `max(1, floor(qty || 1))`
  times; the form is repeated `quantity` times.
- `Tiling`: the page grid and the three walks over it. exportPdf's loop, printPage's
  page/row/column loops and exportPdfPorFila's per-row loop.
- `Naming`: the file-name sanitiser and the archive's file names.
- `Csv`: the CSV writer `toCsv`, with a reader used to state its round trip.
- `Compositor`: the layout decisions of `drawLabelToCanvasWith` and `drawAlignedText`.
  The result is a list of draw instructions and the final `renderError`.
- `Exports`: the exports as values. A document or archive is its file names plus the
  labels and placements written into it.
- `Designer`: the component itself, a class whose fields are the form, the batch, the
  mapping and the preferences. Its methods are the handlers that update them.

Rendering, image decoding, the PDF, spreadsheet and archive libraries, the browser and
storage are opaque. A rendered image is represented by the configuration it is rendered
from. Text widths, the logo's natural size and the generator's outcome (drawn, with the
size it leaves the barcode canvas at, or thrown) are inputs. `toLowerCase`, `Number(string)` and `String(number)` are given functions
(`Js.Runtime`). A `confirm()` answer is a boolean parameter.

The paged PDF (exportPdf) and the print page (printPage) are modelled with the two
corrections listed under "## Findings". Each correction has a member that models the code
as written and exhibits the problem.

## Model

| member | source | states |
|---|---|---|
| Js.Round | src/app/label-designer/label-designer.ts:707 | `Math.round` gives the integer within half a unit of the argument, halves rounded up |
| Js.TrimStart | src/app/label-designer/label-designer.ts:410 | trimming the front keeps a suffix and removes only white space, up to the first non-space character |
| Js.TrimEnd | src/app/label-designer/label-designer.ts:410 | trimming the end keeps a prefix and removes only white space, back to the last non-space character |
| Js.TrimEmptyIffBlank | src/app/label-designer/label-designer.ts:410 | `a.trim()` is empty exactly when `a` is all white space |
| Js.NatToString | src/app/label-designer/label-designer.ts:301 | the printed counter is a non-empty string of decimal digits, one digit exactly below 10 |
| Js.NatToStringInjective | src/app/label-designer/label-designer.ts:307 | different counters print as different strings |
| Validation.ValidateConfigOrder | src/app/label-designer/label-designer.ts:479-510 | an empty value always gives 'Valor vacío'; otherwise the result is '' exactly when the symbology rule (barcode mode only), the size and the resolution pass; a failing symbology rule gives that symbology's message; a bad size is reported before a low dpi |
| Validation.SymbologyErrorMatchesTable | src/app/label-designer/label-designer.ts:484-506 | the `switch` accepts exactly all-digit values of the lengths EAN13 {12,13}, EAN8 {7,8}, UPC {11,12}, ITF14 {13,14}, and gives the table's message otherwise |
| Validation.NoCharsetCheckOutsideStrictBarcodes | src/app/label-designer/label-designer.ts:483-507 | in QR mode, or for any other tag, only emptiness, size and resolution decide validity |
| Validation.BatchErrors | src/app/label-designer/label-designer.ts:459-461 | one result per batch item, each the validator's result for that item |
| Validation.ErrorCountIsFlaggedRows | src/app/label-designer/label-designer.ts:88 | `batchErrorCount` is the number of rows carrying a message |
| Validation.HasErrorsIffCount | src/app/label-designer/label-designer.ts:87-88 | `batchHasErrors` holds exactly when `batchErrorCount` is positive |
| Naming.SanitizeFrom | src/app/label-designer/label-designer.ts:280 | the replace leaves only safe characters, never lengthens, and leaves a safe name unchanged |
| Naming.UnsafeRunCollapses | src/app/label-designer/label-designer.ts:280 | each maximal run of unsafe characters becomes a single `_` |
| Naming.SanitizeFixpoint | src/app/label-designer/label-designer.ts:280 | the replace changes a name exactly when it holds an unsafe character, and is idempotent |
| Naming.SafeName | src/app/label-designer/label-designer.ts:301 | the name is safe, at most 40 characters, equal to a short safe value, and non-empty when the value or the fallback is |
| Naming.NonEmptyStaysNonEmpty | src/app/label-designer/label-designer.ts:280 | sanitising a non-empty name gives a non-empty name |
| Naming.RowFallbackIsSafe | src/app/label-designer/label-designer.ts:301 | an empty value names row `i` exactly `fila-<i+1>` |
| Naming.ArchiveNamesDistinct | src/app/label-designer/label-designer.ts:307 | with more than one copy, different copies get different file names |
| RowMapper.Alias | src/app/label-designer/label-designer.ts:408-411 | the alias list has at most one entry; it is non-empty exactly when the mapping holds a non-blank column for the key, and its entry is that column trimmed |
| RowMapper.ResolveIsFirstPresent | src/app/label-designer/label-designer.ts:412-419 | `get` returns the cell of the earliest candidate holding a value (not undefined, null or ''), and the default when none does |
| RowMapper.Get | src/app/label-designer/label-designer.ts:412-419 | `get` puts the custom alias ahead of the recognised keys and returns what the walk over those candidates resolves to |
| RowMapper.FirstPresent | src/app/label-designer/label-designer.ts:415-418 | the candidate loop returns the first present candidate's cell, else the default |
| RowMapper.AliasWins | src/app/label-designer/label-designer.ts:414-417 | an alias column holding a value beats every recognised column |
| RowMapper.ResolvePresentOrDefault | src/app/label-designer/label-designer.ts:412-430 | `get` returns its default or a cell holding a value, so `bool`'s fallback `d` is never reached from the mapper |
| RowMapper.MapRowToConfig | src/app/label-designer/label-designer.ts:407-457 | the mapped configuration takes each field through `get` and the field's conversion |
| RowMapper.NumericFallbacks | src/app/label-designer/label-designer.ts:420-448 | for width, height and margin, a cell whose `Number` is not finite keeps the form's value, and a finite one is taken |
| RowMapper.ResolutionScaleFallbacks | src/app/label-designer/label-designer.ts:420-454 | dpi and the three font scales follow the same rule: the form's value when the parse is not finite, the parsed number otherwise |
| RowMapper.QuantityFallback | src/app/label-designer/label-designer.ts:420-455 | the quantity is the parsed number, and 1 (not the form's quantity) when the cell does not parse or no quantity column holds a value |
| RowMapper.StringFlagIgnoresForm | src/app/label-designer/label-designer.ts:424-430 | a string flag is true exactly for a truthy token, whatever the form's flag is |
| RowMapper.ChoiceFallbacks | src/app/label-designer/label-designer.ts:431-452 | the mode is QR exactly when the cell lower-cases to `qr`; a layout or alignment that is not one of the table's own keys keeps the form's |
| RowMapper.BlankRowKeepsForm | src/app/label-designer/label-designer.ts:435-455 | a row with no value in any cell yields the form's configuration with empty texts, no logo, one copy, and `CODE128` for an empty tag |
| RowMapper.BlankRowTexts | src/app/label-designer/label-designer.ts:436-445 | for a blank row, the value comes from the form and the texts and logo are empty |
| RowMapper.BlankRowNumbers | src/app/label-designer/label-designer.ts:446-454 | for a blank row, sizes, dpi and scales come from the form and the quantity is 1 |
| RowMapper.BlankRowChoices | src/app/label-designer/label-designer.ts:437-451 | for a blank row, tag, mode, flag, layout and alignment come from the form |
| RowMapper.BlankRowResolvesDefault | src/app/label-designer/label-designer.ts:412-419 | in a blank row every `get` returns its default |
| RowMapper.FormNamesMapBack | src/app/label-designer/label-designer.ts:431-452 | the form's own mode, layout and alignment strings convert back to themselves |
| RowMapper.LogoUrlAliasIgnored | src/app/label-designer/label-designer.ts:444 | what the mapping holds under `LogoUrl` never changes a mapped row (the logo's alias is looked up under `Logo`) |
| RowMapper.CandidatesSkipLogoUrl | src/app/label-designer/label-designer.ts:414 | no field's candidate list depends on the `LogoUrl` entry |
| Tiling.FitCount | src/app/label-designer/label-designer.ts:171-172 | at least one label fits; beyond one, the count is the floor of `(page - gap) / (size + gap)` |
| Tiling.MakeGrid | src/app/label-designer/label-designer.ts:167-173 | the grid has at least one column and one row and keeps the label size and the gap |
| Tiling.PerPage | src/app/label-designer/label-designer.ts:173 | a page holds at least one label |
| Tiling.A4FiftyByThirty | src/app/label-designer/label-designer.ts:171-173 | an A4 page of 50 x 30 mm labels with a 5 mm gap is 3 x 8 = 24 labels |
| Tiling.SlotOf | src/app/label-designer/label-designer.ts:182-183 | slot `r * cols + c` is column `c` of row `r` |
| Tiling.DistinctSlotsDistinctPositions | src/app/label-designer/label-designer.ts:182-185 | different slots of a page are at different positions |
| Tiling.Kept | src/app/label-designer/label-designer.ts:178-179 | the unflagged items are no more than the items |
| Tiling.PdfLoop | src/app/label-designer/label-designer.ts:178-191 | exportPdf's loop issues exactly the page and image operations of the as-written specification |
| Tiling.PdfImagesAreKept | src/app/label-designer/label-designer.ts:178-191 | as written, exportPdf draws exactly the unflagged items, in order |
| Tiling.PdfUnflaggedLayout | src/app/label-designer/label-designer.ts:180-190 | with nothing flagged, item `i` lands on page `i / perPage` in slot `i % perPage`, and a page is added at each later multiple of perPage |
| Tiling.PdfOpsAgreeWithoutFlags | src/app/label-designer/label-designer.ts:178-191 | with nothing flagged, the as-written and corrected loops issue the same operations |
| Tiling.ExportPdfOverlapWitness | src/app/label-designer/label-designer.ts:178-183 | as written, a flagged item at a page boundary suppresses the new page, and a later label is drawn over an earlier one |
| Tiling.PdfLoopFixed | src/app/label-designer/label-designer.ts:175-191 | the corrected loop, which takes the slot from a count of the labels drawn so far, issues exactly the operations of the corrected specification |
| Tiling.PdfFixedIsTiledKept | src/app/label-designer/label-designer.ts:175-191 | the corrected export is the loop run over the unflagged items alone, so flagged items take no slot |
| Tiling.FixedImagesAreKept | src/app/label-designer/label-designer.ts:178-191 | the corrected export draws exactly the unflagged items, in order |
| Tiling.Unflagged | src/app/label-designer/label-designer.ts:178-179 | the indices the export keeps are unflagged, below the bound and ascending |
| Tiling.PdfFixedLayout | src/app/label-designer/label-designer.ts:175-191 | the corrected export puts the `j`-th drawn label on page `j / perPage` in slot `j % perPage`, adding a page at each later multiple of perPage drawn labels, so no slot is left empty |
| Tiling.PdfFixedNoOverlap | src/app/label-designer/label-designer.ts:178-191 | in the corrected export no two labels share a position on a page |
| Tiling.LayoutNoOverlap | src/app/label-designer/label-designer.ts:180-187 | distinct indices get distinct page and position pairs |
| Tiling.ExportPdfFixedWitness | src/app/label-designer/label-designer.ts:178-183 | on the overlap input, the corrected export puts the fourth label in the first slot of the second page, the slot the flagged third would have taken |
| Tiling.ChunksShape | src/app/label-designer/label-designer.ts:226-242 | cutting into pages loses and reorders nothing; pages hold 1 to perPage items, all but the last exactly perPage |
| Tiling.ChunksFull | src/app/label-designer/label-designer.ts:226-242 | a multiple of perPage items cuts into full pages only |
| Tiling.ChunksAppend | src/app/label-designer/label-designer.ts:226-242 | a new page after full pages is added as the last page |
| Tiling.PlacePage | src/app/label-designer/label-designer.ts:229-238 | a page has one placement per item |
| Tiling.PlacePages | src/app/label-designer/label-designer.ts:226-242 | there is one placed page per chunk |
| Tiling.PlacePagesImages | src/app/label-designer/label-designer.ts:226-242 | the placed pages show the chunks' items in order |
| Tiling.PlacePageImages | src/app/label-designer/label-designer.ts:229-238 | a placed page shows its items in order |
| Tiling.PrintSpecImages | src/app/label-designer/label-designer.ts:226-242 | printPage emits every unflagged item exactly once, in input order |
| Tiling.PrintSpecPageSizes | src/app/label-designer/label-designer.ts:226-242 | each printed page holds at most rows x cols images, and every page but the last is full |
| Tiling.PrintSpecTrailingPage | src/app/label-designer/label-designer.ts:226-242 | an empty list prints no page; otherwise the last page is empty exactly when the kept items fill their pages and the final item is flagged |
| Tiling.KeptNonEmpty | src/app/label-designer/label-designer.ts:226-242 | unless the trailing-page condition holds, some item is printed |
| Tiling.PageClose | src/app/label-designer/label-designer.ts:226-242 | closing a page leaves the pages so far equal to the specification's pages of the consumed items, and to the whole print at the end |
| Tiling.PrintLoop | src/app/label-designer/label-designer.ts:226-242 | printPage's loops terminate and produce exactly the specified pages |
| Tiling.FillPage | src/app/label-designer/label-designer.ts:228-240 | one page consumes at least one item, places the next unflagged items slot by slot, at most perPage, and is full unless items run out |
| Tiling.PageRowStep | src/app/label-designer/label-designer.ts:229-238 | a filled row extends the page's bookkeeping by one row |
| Tiling.PageSoFarDone | src/app/label-designer/label-designer.ts:229-240 | after all rows, the page's bookkeeping gives FillPage's promises |
| Tiling.FillRow | src/app/label-designer/label-designer.ts:230-238 | one row skips flagged items without using a slot (`printed++; c--`), places up to cols items, and is full unless items run out |
| Tiling.RowCells | src/app/label-designer/label-designer.ts:233-237 | a row has one placement per item |
| Tiling.RowCellsSnoc | src/app/label-designer/label-designer.ts:233-237 | placing one more item in a row appends its cell |
| Tiling.PageRowAppend | src/app/label-designer/label-designer.ts:229-238 | a row laid after `r` full rows continues the page slot by slot |
| Batch.Copies | src/app/label-designer/label-designer.ts:160 | at least one copy; the floor of `qty` from 1 up; a single copy below 2, including 0 |
| Batch.Repeat | src/app/label-designer/label-designer.ts:161 | `k` copies of the item |
| Batch.ExpandIsRowCopies | src/app/label-designer/label-designer.ts:158-162 | every expanded item is a copy of its origin row, and origins ascend |
| Batch.ExpandCopyCounts | src/app/label-designer/label-designer.ts:159-162 | row `r` appears exactly `Copies(qty)` times |
| Batch.ExpandBatch | src/app/label-designer/label-designer.ts:158-162 | the nested loops build exactly the expansion |
| Batch.SingleCount | src/app/label-designer/label-designer.ts:164 | the loop count is the least natural number not below `quantity`, with no flooring |
| Batch.ExpandSingle | src/app/label-designer/label-designer.ts:164 | the single-mode loop pushes that many copies of the form |
| Batch.ValidRows | src/app/label-designer/label-designer.ts:459-461 | the kept rows all pass validation |
| Batch.ExpandErrors | src/app/label-designer/label-designer.ts:176-179 | the flags carried along with the copies are as many as the expanded items |
| Batch.KeptOfBlock | src/app/label-designer/label-designer.ts:176-179 | a block of copies with one flag is kept whole or dropped whole |
| Batch.ExpandedFlagsKeepValidRows | src/app/label-designer/label-designer.ts:176-179 | with the flags expanded along with the items, an export keeps exactly the copies of the valid rows |
| Batch.CleanRowsAreValidRows | src/app/label-designer/label-designer.ts:459-461 | the rows with an empty message are the valid rows |
| Batch.ExpandedFlagsKeepCleanRows | src/app/label-designer/label-designer.ts:176-179 | with expanded flags, the kept items are the copies of the rows with an empty message |
| Batch.RowIndexedFlagsWitness | src/app/label-designer/label-designer.ts:176-179 | reading row errors by expanded index prints an invalid row and drops a valid copy |
| Csv.DoubleQuotes | src/app/label-designer/label-designer.ts:354 | doubling quotes never shortens, and leaves a quote-free text unchanged |
| Csv.Escape | src/app/label-designer/label-designer.ts:352-358 | a field is quoted with doubled quotes exactly when it needs quoting, otherwise left as is |
| Csv.QuotedIffSpecial | src/app/label-designer/label-designer.ts:356 | the escaped text needs quotes exactly when the original holds a comma, a quote or a line feed (a carriage return does not count) |
| Csv.HalveDoubled | src/app/label-designer/label-designer.ts:354 | halving doubled quotes undoes the doubling |
| Csv.UnescapeEscape | src/app/label-designer/label-designer.ts:352-358 | stripping the outer quotes and halving doubled quotes recovers the original field |
| Csv.FieldTexts | src/app/label-designer/label-designer.ts:353 | one text per column, null and undefined read as '' |
| Csv.EscapeAll | src/app/label-designer/label-designer.ts:362 | one escaped field per column |
| Csv.ToCsv | src/app/label-designer/label-designer.ts:351-365 | the output is the header line, then one line per record, joined with a bare line feed |
| Csv.ParseQuotedDoubled | src/app/label-designer/label-designer.ts:354-356 | a quoted field reads back as its text up to the closing quote |
| Csv.ParsePlainUnspecial | src/app/label-designer/label-designer.ts:356 | an unquoted field reads back up to the next comma |
| Csv.ParseFieldEscape | src/app/label-designer/label-designer.ts:352-358 | an escaped field followed by a comma or the end reads back as the original text |
| Csv.ParseRecordRoundTrip | src/app/label-designer/label-designer.ts:362 | a joined line of escaped fields reads back as the fields |
| Csv.ParseRecordLast | src/app/label-designer/label-designer.ts:362 | a field that ends the line is the record's last field |
| Csv.ParseRecordNext | src/app/label-designer/label-designer.ts:362 | a field followed by a comma is followed by the rest of the record |
| Csv.RecordLineRoundTrip | src/app/label-designer/label-designer.ts:361-363 | every record line reads back as the record's field texts, column by column |
| Compositor.CanvasSide | src/app/label-designer/label-designer.ts:687-688 | the canvas side is at least 10 pixels, and above 10 it is the millimetre size at `dpi` rounded |
| Compositor.FiftyByThirtyAt300Dpi | src/app/label-designer/label-designer.ts:677-688 | a 50 x 30 mm label at 300 dpi renders on 591 x 354 pixels, and a tiny one on 10 pixels |
| Compositor.AlignX | src/app/label-designer/label-designer.ts:840-847 | left is 4 pixels in, right ends 4 pixels from the edge, and centre is centred, each to within rounding |
| Compositor.HeaderX | src/app/label-designer/label-designer.ts:715 | the header starts inside the padding, and ends inside it whenever it fits |
| Compositor.LogoFitsBox | src/app/label-designer/label-designer.ts:721-728 | a scaled logo stays within its box and is never enlarged |
| Compositor.FitSide | src/app/label-designer/label-designer.ts:725-727 | one scaled side is between 0 and both the box and the natural size |
| Compositor.LogoOps | src/app/label-designer/label-designer.ts:720-747 | the logo part draws only logo images |
| Compositor.BarcodeX | src/app/label-designer/label-designer.ts:781-786 | the barcode canvas, at the width the generator left it, is centred; for logo-left with a logo it is pushed right to at least a quarter of the width, and stays there only when centring would put it further left |
| Compositor.QrShrinksBesideLogo | src/app/label-designer/label-designer.ts:790-793 | the QR side is 60% of the smaller side, strictly smaller for logo-left with a logo |
| Compositor.CodeOps | src/app/label-designer/label-designer.ts:781-799 | a successful generator draws exactly one image, a barcode exactly in barcode mode; the barcode at the size the generator left its canvas, the QR code at the requested side |
| Compositor.BodyLines | src/app/label-designer/label-designer.ts:817-820 | at most three body lines, none empty |
| Compositor.LineOps | src/app/label-designer/label-designer.ts:822-825 | one instruction per body line |
| Compositor.LineOpsTexts | src/app/label-designer/label-designer.ts:822-825 | the body loop draws exactly its lines, in order, as body text |
| Compositor.LineOpsSpacing | src/app/label-designer/label-designer.ts:822-825 | line `k` is drawn `k` steps below the first |
| Compositor.LineStepPositive | src/app/label-designer/label-designer.ts:815-824 | consecutive body lines are at least two pixels apart |
| Compositor.ComposeOnFailure | src/app/label-designer/label-designer.ts:759-809 | when the generator throws, renderError carries the message, the placeholder is the last thing drawn, and no body or footer text is drawn |
| Compositor.ComposeOnSuccess | src/app/label-designer/label-designer.ts:697-831 | when the generator draws, renderError is cleared, the body shows exactly the set lines in order, and the footer is drawn exactly when set |
| Compositor.SuccessTexts | src/app/label-designer/label-designer.ts:811-831 | after a successful generator, the texts other than the header come from the body and footer only |
| Compositor.FrontTextless | src/app/label-designer/label-designer.ts:701-799 | the background, header, logo and code draw no text except the header's |
| Compositor.FooterTexts | src/app/label-designer/label-designer.ts:828-831 | the footer draws its text exactly when it is set |
| Exports.ExportFlags | src/app/label-designer/label-designer.ts:176 | corrected: batch mode carries one flag per expanded item, its row's message; single mode has none |
| Exports.ExportPdf | src/app/label-designer/label-designer.ts:147-194 | exportPdf writes `etiquetas.pdf` with the corrected layout of the export list at the form's dpi |
| Exports.ExportPdfDrawsValidCopies | src/app/label-designer/label-designer.ts:158-191 | corrected: in batch mode the corrected PDF holds exactly the copies of the valid rows, in row order |
| Exports.ExportPdfSingleDrawsAll | src/app/label-designer/label-designer.ts:164-191 | in single mode every one of the `quantity` copies is drawn |
| Tiling.KeptNothingFlagged | src/app/label-designer/label-designer.ts:176-179 | with no flags, every item is kept |
| Exports.PrintPage | src/app/label-designer/label-designer.ts:196-242 | corrected: printPage lays out the export list as specified, with one flag per expanded item |
| Exports.PrintPageShowsValidCopies | src/app/label-designer/label-designer.ts:208-242 | corrected: in batch mode the corrected print page shows exactly the copies of the valid rows, in row order |
| Exports.RowSafeName | src/app/label-designer/label-designer.ts:538 | a row's name is safe, non-empty and at most 40 characters |
| Exports.ExportPdfPerRow | src/app/label-designer/label-designer.ts:512-541 | nothing without a batch; otherwise one document per unflagged row |
| Exports.RowDocumentLayout | src/app/label-designer/label-designer.ts:526-537 | each row's document restarts the grid: copy `i` lands on page `i / perPage` in slot `i % perPage` |
| Exports.RowDocumentsFollowUnflagged | src/app/label-designer/label-designer.ts:523-540 | the documents are those of the unflagged rows, in row order |
| Exports.PerRowDocumentsAreValidRows | src/app/label-designer/label-designer.ts:523-526 | with the batch's own validation, a row gets a document exactly when it is valid |
| Exports.SummaryRecordHasColumns | src/app/label-designer/label-designer.ts:311-336 | every summary record fills every CSV column |
| Exports.RowEntries | src/app/label-designer/label-designer.ts:304-309 | a row writes one file per copy |
| Exports.ExportPngZip | src/app/label-designer/label-designer.ts:289-338 | no archive without a batch; otherwise the rows' files and `resumen.csv` with the summary |
| Exports.ZipRow | src/app/label-designer/label-designer.ts:296-330 | one pass of the row loop extends the files and summary by that row's share |
| Exports.RowFiles | src/app/label-designer/label-designer.ts:304-309 | the copy loop writes exactly the row's files |
| Exports.ZipImagesAreCleanCopies | src/app/label-designer/label-designer.ts:296-309 | the files written, in order, are exactly the copies of the rows without a message |
| Exports.ZipImagesAreValidCopies | src/app/label-designer/label-designer.ts:296-309 | with the batch's own validation, the files written are exactly the copies of the valid rows |
| Exports.ArchiveFiles | src/app/label-designer/label-designer.ts:302-308 | the archive has a file at every path written, and at no other path |
| Exports.LastWriteWins | src/app/label-designer/label-designer.ts:302-308 | a file holds the label of the last write to its path |
| Exports.DistinctPathsKeepEveryFile | src/app/label-designer/label-designer.ts:302-308 | writes to pairwise different paths give one file per write, each with its own label |
| Exports.FolderOfPathUnique | src/app/label-designer/label-designer.ts:301-302 | a path lies in the folder of at most one safe name |
| Exports.RowEntriesInFolder | src/app/label-designer/label-designer.ts:302-308 | every file of a row is written into that row's folder |
| Exports.ZipEntriesInRowFolders | src/app/label-designer/label-designer.ts:296-308 | every file written lies in the folder of an unflagged row |
| Exports.EarlierRowsApart | src/app/label-designer/label-designer.ts:296-308 | a file in a folder no earlier unflagged row uses shares no path with the earlier rows' files |
| Exports.ZipPathsDistinct | src/app/label-designer/label-designer.ts:296-308 | when the unflagged rows' safe names differ pairwise, no two files written share a path |
| Exports.ZipArchiveHoldsValidCopies | src/app/label-designer/label-designer.ts:296-309 | when the valid rows' safe names differ pairwise, the archive holds one file per copy of the valid rows, each with its own copy |
| Exports.SameNameRowsCollide | src/app/label-designer/label-designer.ts:301-308 | two valid rows with the same value and one copy each write one path twice, so the archive keeps one image for two copies |
| Exports.RowEntryPathsDistinct | src/app/label-designer/label-designer.ts:302-308 | within one folder the copies get different paths |
| Exports.FolderPathsDistinct | src/app/label-designer/label-designer.ts:302 | rows with different safe names write into different folders |
| Exports.SummaryFollowsUnflagged | src/app/label-designer/label-designer.ts:311-330 | the summary has one record per unflagged row, in row order, with its row number, copy count and folder |
| Exports.PngFileName | src/app/label-designer/label-designer.ts:280-283 | the single PNG is `etiqueta_<safe>.png` with a safe name of at most 40 characters |
| Designer.FindTemplate | src/app/label-designer/label-designer.ts:123 | `find` returns the first preset of that name, and None exactly when there is none |
| Designer.PresetsHavePositiveSizes | src/app/label-designer/label-designer.ts:60-65 | every preset but Custom has a positive size and margin |
| Designer.DefaultFormIsValid | src/app/label-designer/label-designer.ts:45-81 | the initial form passes validation |
| Designer.EmptyMappingHasNoAlias | src/app/label-designer/label-designer.ts:92-96 | with the mapping cleared, no field has an alias |
| Designer.MapRows | src/app/label-designer/label-designer.ts:401 | one configuration per row (the `filter(Boolean)` drops nothing) |
| Designer.LoadBatch | src/app/label-designer/label-designer.ts:400-402 | the batch is the mapped rows and the errors are their validation |
| Designer.FormError | src/app/label-designer/label-designer.ts:568-575 | no form error in batch mode; otherwise the validator's message, null for a valid form |
| Designer.SelectedRow | src/app/label-designer/label-designer.ts:139-141 | a row index selects that row in batch mode, the form otherwise |
| Designer.FractionalSelectionShowsForm | src/app/label-designer/label-designer.ts:139-143 | an accepted fractional index makes the preview fall back to the form |
| Designer.PrefRoundTrip | src/app/label-designer/label-designer.ts:628-633 | a stored preference reads back as the stored value |
| Designer.PreviewSide | src/app/label-designer/label-designer.ts:135-138 | the preview side is at least 1 pixel, and above 1 it is the floor of the size at 96 dpi |
| Designer.DrawFront | src/app/label-designer/label-designer.ts:701-747 | background, header and logos are drawn as composed |
| Designer.DrawLogos | src/app/label-designer/label-designer.ts:720-747 | the logo is drawn at the top left, and again for logo-left, only when it loads |
| Designer.CollectLines | src/app/label-designer/label-designer.ts:817-820 | the pushed lines are the composed body lines |
| Designer.DrawBody | src/app/label-designer/label-designer.ts:813-825 | the body is drawn as composed |
| Designer.DrawLines | src/app/label-designer/label-designer.ts:822-825 | the line loop draws each line one step below the last |
| Designer.DrawFooter | src/app/label-designer/label-designer.ts:828-831 | the footer is drawn as composed |
| Designer.ClampSelection | src/app/label-designer/label-designer.ts:467 | the clamped selection is inside the batch, and a whole-number index is kept |
| Designer.LabelDesigner.constructor | src/app/label-designer/label-designer.ts:45-102 | the initial state: default form, A4, no batch, no selection, empty mapping, confirmations on |
| Designer.LabelDesigner.LoadPreferences | src/app/label-designer/label-designer.ts:104-111 | a missing entry keeps the preference; any stored text but `false` means true |
| Designer.LabelDesigner.SavePreferences | src/app/label-designer/label-designer.ts:628-633 | the stored texts read back as the current preferences |
| Designer.LabelDesigner.BatchErrorCount | src/app/label-designer/label-designer.ts:88 | the count is the number of rows with a message |
| Designer.LabelDesigner.BatchHasErrors | src/app/label-designer/label-designer.ts:87 | the batch has errors exactly when the count is positive |
| Designer.LabelDesigner.UpdateFormError | src/app/label-designer/label-designer.ts:568-575 | the form error becomes the form's validation outcome, none in batch mode |
| Designer.LabelDesigner.OnChange | src/app/label-designer/label-designer.ts:117-120 | the form error is recomputed and the preview redrawn, leaving renderError from that drawing |
| Designer.LabelDesigner.OnTemplateChange | src/app/label-designer/label-designer.ts:122-131 | a preset other than Custom sets size and margin, the form error is recomputed, and the preview is redrawn, leaving renderError from that drawing |
| Designer.LabelDesigner.ApplyTemplate | src/app/label-designer/label-designer.ts:123-128 | the preset found by name sets width, height and margin, unless it is missing or Custom; the rest of the form is kept |
| Designer.LabelDesigner.OnLogoLoaded | src/app/label-designer/label-designer.ts:381-383 | the logo becomes the data URL read, and the preview is redrawn with it |
| Designer.LabelDesigner.ClearLogo | src/app/label-designer/label-designer.ts:388-391 | the logo becomes none, and the preview is redrawn without it |
| Designer.LabelDesigner.OnExcelSelected | src/app/label-designer/label-designer.ts:393-405 | no file changes nothing; otherwise the batch is the mapped rows, batch mode is on exactly when there are rows, and row 0 is selected; the state stays consistent |
| Designer.LabelDesigner.ApplyCustomMapping | src/app/label-designer/label-designer.ts:463-469 | without loaded rows nothing changes and nothing is drawn; with rows the batch is remapped, the selection clamped to the last row (a whole-number selection is kept), and the preview redrawn |
| Designer.LabelDesigner.SetSelectedBatchIndex | src/app/label-designer/label-designer.ts:471-477 | the index is taken, and the preview redrawn, exactly when it is finite and inside the batch; otherwise the selection and renderError are unchanged |
| Designer.LabelDesigner.ResetForm | src/app/label-designer/label-designer.ts:577-626 | the right prompt is shown when confirmation is on; declined, nothing changes and nothing is drawn; otherwise the form is reset, the batch cleared with the mapping kept, and the preview redrawn |
| Designer.LabelDesigner.RestoreDefaults | src/app/label-designer/label-designer.ts:590-622 | the form's default values, the A4 page and an empty batch, with the state consistent |
| Designer.LabelDesigner.ResetMapping | src/app/label-designer/label-designer.ts:635-645 | the prompt is shown when confirmation is on; declined, the mapping is kept, otherwise every key is cleared |
| Designer.LabelDesigner.ResetBatch | src/app/label-designer/label-designer.ts:647-657 | the prompt is shown only when confirmation is on and there is a batch; declined, nothing changes; otherwise the batch is cleared |
| Designer.LabelDesigner.DrawLabel | src/app/label-designer/label-designer.ts:697-831 | the drawing and the final renderError are those of the composition |
| Designer.LabelDesigner.DrawCode | src/app/label-designer/label-designer.ts:754-809 | a throwing generator sets renderError to its message and draws the placeholder; a drawing one clears renderError, and the barcode is placed by the size the generator left its canvas |
| Designer.LabelDesigner.BuildLabel | src/app/label-designer/label-designer.ts:685-691 | the canvas is sized from the label at `dpi`, then the label is drawn on it |
| Designer.LabelDesigner.RenderEach | src/app/label-designer/label-designer.ts:685-691 | rendering labels one after another leaves the renderError of the last one, or the earlier renderError when none is rendered |
| Designer.RenderErrorOutcome | src/app/label-designer/label-designer.ts:759-809 | a render leaves renderError null exactly when the generator draws, and the generator's prefixed message when it throws |
| Designer.LastRenderErrorSnoc | src/app/label-designer/label-designer.ts:685-691 | rendering one more label replaces whatever renderError the earlier renders left |
| Designer.LabelDesigner.RenderPreview | src/app/label-designer/label-designer.ts:133-145 | the preview is sized from the form at 96 dpi and shows the selected label |
| Designer.LabelDesigner.RedrawPreview | src/app/label-designer/label-designer.ts:133-145 | the handlers' redraw draws the preview and leaves its renderError |
| Designer.LabelDesigner.PageGrid | src/app/label-designer/label-designer.ts:167-173 | the form's grid is a valid grid |
| Designer.LabelDesigner.ExportPdf | src/app/label-designer/label-designer.ts:147-194 | the PDF holds the valid rows' copies in batch mode and `quantity` copies of the form otherwise; renderError is the one the last drawn label leaves |
| Designer.LabelDesigner.PrintPage | src/app/label-designer/label-designer.ts:196-251 | in batch mode the print shows exactly the valid rows' copies; renderError is the one the last shown label leaves |
| Designer.LabelDesigner.ExportPdfPerRow | src/app/label-designer/label-designer.ts:512-541 | one document per unflagged row, at the form's grid and dpi; the valid rows' copies are rendered in order, leaving the last one's renderError |
| Designer.LabelDesigner.ExportPngZip | src/app/label-designer/label-designer.ts:289-349 | an archive is made exactly in batch mode with rows; the files written are exactly the valid rows' copies at the form's dpi, `resumen.csv` is the summary of the unflagged rows, the archive holds one file per copy when the valid rows' safe names differ, and renderError is the one the last written label leaves |
| Designer.LabelDesigner.ZipArchiveOf | src/app/label-designer/label-designer.ts:289-341 | the archive, its files and its summary, as exportPngPorFilaZip fills them from the batch |
| Designer.LabelDesigner.ExportPng | src/app/label-designer/label-designer.ts:275-287 | the selected label, at the form's dpi, named `etiqueta_<safe>.png`; renderError is the one its render leaves |

## Left out

- Rendering, image decoding and the barcode and QR generators are opaque: a rendered image is the configuration it is drawn from, and a generator either draws or throws. The size JsBarcode gives the canvas it resizes is an input.
- Canvas drawing and `measureText`: text widths are an input function, and drawing is a list of instructions.
- The PDF, spreadsheet and archive libraries (jsPDF, XLSX, JSZip) and their byte formats. `exportExcel`, `downloadExcelTemplate` and `dataURLtoUint8Array` are not modelled, since they only call into these libraries or `atob`.
- printPage's HTML markup, `window.open` and `print`: only the page and placement sequence is modelled.
- localStorage, `confirm()` and anchor downloads are I/O. The stored preference and the confirmation answer are parameters.
- async/await: every step is modelled as a sequential call.
- Floating point: numbers are exact reals, and `Math.round` is exactly `floor(x + 0.5)`. IEEE-754 products such as `Math.round(H * 0.03)` are not reproduced bit for bit.
- `Number(string)`, `String(number)` and `toLowerCase` are given functions. Their parsing and formatting details are not modelled.
- The Angular wiring (`@Component`, `@ViewChild`, `ngAfterViewInit`) is not modelled. Neither is the preview canvas element itself; `renderPreview` is modelled through its sizing, the label it shows and the renderError it leaves. Its drawing is not awaited by the handlers; the model runs it to completion at the end of each handler.
- A page grid is only defined when the label width plus the gap and the label height plus the gap are non-zero. With a zero sum, JavaScript divides to Infinity or NaN, and that case is not modelled.
- RowMapper.MapRowToConfig: row cells and the layout and alignment tables are looked up as own keys only. In JavaScript they are plain objects, so a key such as `constructor`, `__proto__` or `toString` reads an inherited Object.prototype member: a Layout cell that lower-cases to `constructor` gives a truthy layout that is neither codeTop nor logoLeft (drawn classic), an Alineacion cell the same way falls to the left alignment, and an alias naming such a key reads a function. These inherited values are not modelled.
- RowMapper.ChoiceFallbacks: states the fallback for cells that are not own keys of the tables; for the inherited Object.prototype names above the source does not fall back, and the model does not cover them.
- The generator's outcome for each label an export renders is a given function of the label (`envOf`), the same for every render of that label.
- Naming.RowFallbackIsSafe: holds for row counters of at most 35 digits, since a longer `fila-N` would be cut at 40 characters.
- Exports.ExportPdf: models the two corrections below, not the code as written: one flag per expanded copy, and flagged copies filtered out before they take a slot. The as-written loop is Tiling.PdfLoop; the as-written flags are shown by Batch.RowIndexedFlagsWitness.
- Exports.PrintPage: models the corrected flags (one per expanded copy), not the code as written, which reads the per-row `batchErrors` at the copy index; see Batch.RowIndexedFlagsWitness.
- Exports.ExportFlags: gives the corrected per-copy flags (Batch.ExpandErrors); the code as written passes the per-row `batchErrors` at line 176, whose effect is Batch.RowIndexedFlagsWitness.
- Exports.ExportPdfDrawsValidCopies: is a property of the corrected export only; the code as written can drop a valid copy and draw an invalid row (Batch.RowIndexedFlagsWitness) and can draw one label over another (Tiling.ExportPdfOverlapWitness).
- Exports.PrintPageShowsValidCopies: is a property of the corrected print page only; the code as written can drop a valid copy and show an invalid row (Batch.RowIndexedFlagsWitness).
- Designer.LabelDesigner.ExportPdf: specifies the corrected export (each copy checked against its own row's message, flagged copies filtered out before they take a slot), not the code as written; see "## Findings".
- Exports.ZipImagesAreCleanCopies: speaks of the files written, in order; the archive JSZip builds from them keeps the last write per path (Exports.ArchiveFiles), stated by Exports.ZipArchiveHoldsValidCopies.
- Exports.ZipImagesAreValidCopies: likewise speaks of the files written; with two rows of the same safe name the archive holds fewer images (Exports.SameNameRowsCollide).
- Designer.LabelDesigner.PrintPage: specifies the corrected print page (each copy checked against its own row's message), not the code as written, which reads `batchErrors[printed]`; see "## Findings".

Behaviour the model keeps on purpose, though it may surprise:

- A fractional selected index is accepted by `setSelectedBatchIndex`, but the preview and exportPng then fall back to the form (Designer.FractionalSelectionShowsForm).
- The preview canvas is sized from the form even when a batch row is shown.
- The custom mapping's `LogoUrl` entry is never consulted (RowMapper.LogoUrlAliasIgnored).
- Rows whose values sanitise to the same name share a ZIP folder, where files of the same name replace one another: the archive then holds fewer images than the valid rows have copies (Exports.SameNameRowsCollide). Exports.ZipArchiveHoldsValidCopies states the full count for pairwise different names.
- `filter(Boolean)` after mapping the rows removes nothing.

## Findings

| source | as written | input that shows it | evidently intended | confidence | as-written member | corrected member |
|---|---|---|---|---|---|---|
| src/app/label-designer/label-designer.ts:178-183 | exportPdf skips a flagged item before its page check, so a flagged item at a page boundary suppresses `addPage`, and later labels are drawn over the previous page's labels | one column and two rows per page (A4, 100 x 140 mm labels, 5 mm gap), items 1..4, the third flagged: the fourth label is drawn over the second on page 0 | flagged items are filtered out before they take a slot (the loop is headed "filter out the invalid ones", and printPage reuses the slot with `c--`), so the drawn labels are tiled one after another, a page is added at every perPage-th drawn label, and no two labels overlap | not executed | Tiling.ExportPdfOverlapWitness | Tiling.PdfFixedNoOverlap |
| src/app/label-designer/label-designer.ts:176-179 | exportPdf and printPage read `batchErrors` (one entry per row) at the expanded item index | a valid row `a` with quantity 2, then a row `b` with an empty value: the items `[a, a, b]` are checked against `["", 'Valor vacío']`, so the second copy of `a` is dropped and the invalid `b` is printed | each item is checked against its own row's message, so the export holds exactly the copies of the valid rows | not executed | Batch.RowIndexedFlagsWitness | Batch.ExpandedFlagsKeepValidRows |
