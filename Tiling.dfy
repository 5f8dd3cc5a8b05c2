/** The page tiler: a grid of equal label slots on a page, filled row by
    row, and the three ways the exports walk a list of rendered labels over
    it (the paged PDF, the print page and the per-row PDF). */
module Tiling {
  import opened Js

  datatype PageFormat = A4 | Letter

  /** getPageSizeMm: A4 is 210 x 297 mm, anything else is US Letter,
      216 x 279 mm. */
  function PageWidthMm(f: PageFormat): real { if f == A4 then 210.0 else 216.0 }
  function PageHeightMm(f: PageFormat): real { if f == A4 then 297.0 else 279.0 }

  /** The number of labels that fit along one page dimension:
      `max(1, floor((page - gap) / (size + gap)))`. */
  function FitCount(page: real, size: real, gap: real): (n: nat)
    requires size + gap != 0.0
    ensures n >= 1
    ensures n > 1 ==> n as real <= (page - gap) / (size + gap) < n as real + 1.0
    ensures n == 1 ==> (page - gap) / (size + gap) < 2.0
  {
    var f := ((page - gap) / (size + gap)).Floor;
    if f < 1 then 1 else f
  }

  /** A page grid: its columns and rows, the label size and the gap, all in
      millimetres. */
  datatype Grid = Grid(cols: nat, rows: nat, labelW: real, labelH: real, gap: real)

  predicate ValidGrid(g: Grid)
  {
    g.cols >= 1 && g.rows >= 1
  }

  function MakeGrid(f: PageFormat, labelW: real, labelH: real, gap: real): (g: Grid)
    requires labelW + gap != 0.0 && labelH + gap != 0.0
    ensures ValidGrid(g) && g.labelW == labelW && g.labelH == labelH && g.gap == gap
  {
    Grid(FitCount(PageWidthMm(f), labelW, gap), FitCount(PageHeightMm(f), labelH, gap), labelW, labelH, gap)
  }

  function PerPage(g: Grid): (n: nat)
    requires ValidGrid(g)
    ensures n >= 1
  {
    MulAtLeast(g.cols, g.rows);
    g.cols * g.rows
  }

  /** The page item `i` falls on, `p` items to a page. */
  function PageOf(i: nat, p: nat): nat
    requires p >= 1
  {
    i / p
  }

  /** The slot item `i` takes on its page. */
  function SlotIn(i: nat, p: nat): nat
    requires p >= 1
  {
    i % p
  }

  /** An A4 page of 50 x 30 mm labels with a 5 mm gap holds 3 x 8 = 24. */
  lemma A4FiftyByThirty()
    ensures MakeGrid(A4, 50.0, 30.0, 5.0).cols == 3
    ensures MakeGrid(A4, 50.0, 30.0, 5.0).rows == 8
    ensures PerPage(MakeGrid(A4, 50.0, 30.0, 5.0)) == 24
  {
    assert 3.0 <= 205.0 / 55.0 < 4.0;
    assert 8.0 <= 292.0 / 35.0 < 9.0;
  }

  /** One image placed on a page: its top-left corner and size in mm. */
  datatype Placement<T> = Placement(x: real, y: real, w: real, h: real, image: T)

  /** The placement of `image` in slot `s` of a page, counting row-major. */
  function At<T>(g: Grid, s: nat, image: T): Placement<T>
    requires ValidGrid(g)
  {
    Placement(g.gap + (s % g.cols) as real * (g.labelW + g.gap),
              g.gap + (s / g.cols) as real * (g.labelH + g.gap),
              g.labelW, g.labelH, image)
  }

  /** Slot `r * cols + c` is column `c` of row `r`. */
  lemma SlotOf(r: nat, c: nat, cols: nat)
    requires c < cols
    ensures (r * cols + c) % cols == c && (r * cols + c) / cols == r
  {
    DivModUnique(r * cols + c, cols, r, c);
  }

  lemma DivModUnique(n: int, p: int, q: int, r: int)
    requires p > 0 && 0 <= r < p && n == q * p + r
    ensures n / p == q && n % p == r
  {
    var q', r' := n / p, n % p;
    var d := q - q';
    assert d * p == q * p - q' * p;
    if d >= 1 {
      MulAtLeast(d, p);
    } else if d <= -1 {
      MulAtLeast(-d, p);
    }
  }

  lemma {:induction false} MulAtLeast(d: int, p: int)
    requires d >= 1 && p > 0
    ensures d * p >= p
    decreases d
  {
    if d > 1 {
      MulAtLeast(d - 1, p);
      assert d * p == (d - 1) * p + p;
    }
  }

  /** Different slots of one page never share a position. */
  lemma DistinctSlotsDistinctPositions<T>(g: Grid, s1: nat, s2: nat, a: T, b: T)
    requires ValidGrid(g) && g.labelW + g.gap != 0.0 && g.labelH + g.gap != 0.0
    requires s1 != s2
    ensures At(g, s1, a).x != At(g, s2, b).x || At(g, s1, a).y != At(g, s2, b).y
  {
    var c1, c2 := s1 % g.cols, s2 % g.cols;
    var r1, r2 := s1 / g.cols, s2 / g.cols;
    SlotsDiffer(s1, s2, g.cols);
    if c1 != c2 {
      ScaledDiffers(c1 as real, c2 as real, g.labelW + g.gap);
    } else {
      ScaledDiffers(r1 as real, r2 as real, g.labelH + g.gap);
    }
  }

  lemma SlotsDiffer(s1: nat, s2: nat, cols: nat)
    requires cols >= 1 && s1 != s2
    ensures s1 % cols != s2 % cols || s1 / cols != s2 / cols
  {
    assert s1 == (s1 / cols) * cols + s1 % cols;
    assert s2 == (s2 / cols) * cols + s2 % cols;
  }

  lemma ScaledDiffers(u: real, v: real, w: real)
    requires u != v && w != 0.0
    ensures u * w != v * w
  {
    assert u * w - v * w == (u - v) * w;
  }

  /** `errors[i]` is truthy: a reason is recorded at that index (an index
      past the end reads `undefined`). */
  predicate Flagged(errors: seq<string>, i: int)
  {
    0 <= i < |errors| && |errors[i]| > 0
  }

  /** The first `n` items without the flagged ones, in order. */
  function Kept<T>(items: seq<T>, errors: seq<string>, n: nat): (k: seq<T>)
    requires n <= |items|
    ensures |k| <= n
  {
    if n == 0 then []
    else Kept(items, errors, n - 1) + (if Flagged(errors, n - 1) then [] else [items[n - 1]])
  }

  // ---------------------------------------------------------------------
  // exportPdf and exportPdfPorFila: a document that starts with one page,
  // and two operations on it.

  datatype PdfOp<T> = AddPage | AddImage(p: Placement<T>)

  /** The operations exportPdf issues for the first `n` items: a flagged item
      is skipped before its slot index `i % perPage` is computed, so it
      leaves its slot empty and, at a page boundary, no page is added. */
  function PdfOps<T>(items: seq<T>, errors: seq<string>, g: Grid, n: nat): seq<PdfOp<T>>
    requires ValidGrid(g) && n <= |items|
  {
    if n == 0 then []
    else
      var i := n - 1;
      var idx := SlotIn(i, PerPage(g));
      PdfOps(items, errors, g, i)
      + (if Flagged(errors, i) then []
         else (if i > 0 && idx == 0 then [AddPage] else []) + [AddImage(At(g, idx, items[i]))])
  }

  /** The loop of exportPdf (and, with nothing flagged, the inner loop of
      exportPdfPorFila). */
  method PdfLoop<T>(items: seq<T>, errors: seq<string>, g: Grid) returns (ops: seq<PdfOp<T>>)
    requires ValidGrid(g)
    ensures ops == PdfOps(items, errors, g, |items|)
  {
    var perPage := g.cols * g.rows;
    ops := [];
    for i := 0 to |items|
      invariant ops == PdfOps(items, errors, g, i)
    {
      if Flagged(errors, i) {
        assert PdfOps(items, errors, g, i + 1) == ops + [];
        continue;
      }
      var idx := i % perPage;
      ghost var prev := ops;
      if i > 0 && idx == 0 {
        ops := ops + [AddPage];
      }
      ops := ops + [AddImage(At(g, idx, items[i]))];
      PdfOpsStep(items, errors, g, i, prev, ops);
    }
  }

  lemma PdfOpsStep<T>(items: seq<T>, errors: seq<string>, g: Grid, i: nat, prev: seq<PdfOp<T>>, ops: seq<PdfOp<T>>)
    requires ValidGrid(g) && i < |items| && !Flagged(errors, i)
    requires prev == PdfOps(items, errors, g, i)
    requires ops == prev + (if i > 0 && i % PerPage(g) == 0 then [AddPage] else [])
                    + [AddImage(At(g, i % PerPage(g), items[i]))]
    ensures ops == PdfOps(items, errors, g, i + 1)
  {
  }

  /** The number of pages added after the first. */
  function AddedPages<T>(ops: seq<PdfOp<T>>): nat
  {
    if ops == [] then 0
    else AddedPages(ops[..|ops| - 1]) + (if ops[|ops| - 1].AddPage? then 1 else 0)
  }

  /** Every image of a document with the index of the page it lands on. */
  function Annotate<T>(ops: seq<PdfOp<T>>): seq<(nat, Placement<T>)>
  {
    if ops == [] then []
    else
      var prev := ops[..|ops| - 1];
      match ops[|ops| - 1]
      case AddPage => Annotate(prev)
      case AddImage(p) => Annotate(prev) + [(AddedPages(prev), p)]
  }

  function AnnotatedImages<T>(ann: seq<(nat, Placement<T>)>): seq<T>
  {
    if ann == [] then [] else AnnotatedImages(ann[..|ann| - 1]) + [ann[|ann| - 1].1.image]
  }

  lemma AnnotateAddPage<T>(ops: seq<PdfOp<T>>)
    ensures Annotate(ops + [AddPage]) == Annotate(ops)
    ensures AddedPages(ops + [AddPage]) == AddedPages(ops) + 1
  {
    assert (ops + [AddPage])[..|ops|] == ops;
  }

  lemma AnnotateAddImage<T>(ops: seq<PdfOp<T>>, p: Placement<T>)
    ensures Annotate(ops + [AddImage(p)]) == Annotate(ops) + [(AddedPages(ops), p)]
    ensures AddedPages(ops + [AddImage(p)]) == AddedPages(ops)
  {
    assert (ops + [AddImage(p)])[..|ops|] == ops;
  }

  /** The images exportPdf draws are exactly the unflagged items, in order. */
  lemma {:induction false} PdfImagesAreKept<T>(items: seq<T>, errors: seq<string>, g: Grid, n: nat)
    requires ValidGrid(g) && n <= |items|
    ensures AnnotatedImages(Annotate(PdfOps(items, errors, g, n))) == Kept(items, errors, n)
  {
    if n > 0 {
      var i := n - 1;
      PdfImagesAreKept(items, errors, g, i);
      var ops := PdfOps(items, errors, g, i);
      var slot := SlotIn(i, PerPage(g));
      if Flagged(errors, i) {
        assert PdfOps(items, errors, g, n) == ops + [];
        assert ops + [] == ops;
      } else {
        var pl := At(g, slot, items[i]);
        var pg: seq<PdfOp<T>> := if i > 0 && slot == 0 then [AddPage] else [];
        assert PdfOps(items, errors, g, n) == ops + (pg + [AddImage(pl)]);
        assert ops + (pg + [AddImage(pl)]) == (ops + pg) + [AddImage(pl)];
        if pg == [] {
          assert ops + pg == ops;
        } else {
          AnnotateAddPage(ops);
        }
        ImagesAddImage(ops + pg, pl);
      }
    }
  }

  lemma ImagesAddImage<T>(ops: seq<PdfOp<T>>, p: Placement<T>)
    ensures AnnotatedImages(Annotate(ops + [AddImage(p)])) == AnnotatedImages(Annotate(ops)) + [p.image]
  {
    AnnotateAddImage(ops, p);
    var ann := Annotate(ops) + [(AddedPages(ops), p)];
    assert ann[..|ann| - 1] == Annotate(ops);
  }

  /** With no item flagged, item `i` lands on page `i / perPage` in slot
      `i % perPage`: a new page starts exactly when `i > 0` and the slot is
      0. */
  lemma PdfUnflaggedLayout<T>(items: seq<T>, errors: seq<string>, g: Grid, n: nat)
    requires ValidGrid(g) && n <= |items|
    requires forall i :: 0 <= i < n ==> !Flagged(errors, i)
    ensures AddedPages(PdfOps(items, errors, g, n)) == if n == 0 then 0 else (n - 1) / PerPage(g)
    ensures Annotate(PdfOps(items, errors, g, n))
         == seq(n, i requires 0 <= i < n => (PageOf(i, PerPage(g)), At(g, SlotIn(i, PerPage(g)), items[i])))
  {
    PdfOpsUnflaggedLayout(items, errors, g, n);
    UnflaggedAll(errors, n);
  }

  lemma {:induction false} PdfOpsUnflaggedLayout<T>(items: seq<T>, errors: seq<string>, g: Grid, n: nat)
    requires ValidGrid(g) && n <= |items|
    requires forall i :: 0 <= i < n ==> !Flagged(errors, i)
    ensures AddedPages(PdfOps(items, errors, g, n)) == if n == 0 then 0 else (n - 1) / PerPage(g)
    ensures Annotate(PdfOps(items, errors, g, n)) == Layout(items, g, Unflagged(errors, n))
  {
    if n > 0 {
      var i := n - 1;
      var p := PerPage(g);
      PdfOpsUnflaggedLayout(items, errors, g, i);
      var ops := PdfOps(items, errors, g, i);
      var paged := ops + (if i > 0 && i % p == 0 then [AddPage] else []);
      PageBreakStep(ops, i, p);
      var ix := Unflagged(errors, i);
      assert !Flagged(errors, i);
      assert PdfOps(items, errors, g, n) == paged + [AddImage(At(g, SlotIn(i, p), items[i]))];
      AnnotateAddImage(paged, At(g, SlotIn(i, p), items[i]));
      assert Unflagged(errors, n) == ix + [i];
      LayoutSnoc(items, g, ix, i);
    }
  }

  lemma {:induction false} UnflaggedAll(errors: seq<string>, n: nat)
    requires forall i :: 0 <= i < n ==> !Flagged(errors, i)
    ensures Unflagged(errors, n) == seq(n, i requires 0 <= i < n => i)
  {
    if n > 0 {
      UnflaggedAll(errors, n - 1);
    }
  }

  lemma DivStep(n: nat, p: nat)
    requires p >= 1 && n >= 1
    ensures n % p == 0 ==> n / p == (n - 1) / p + 1
    ensures n % p != 0 ==> n / p == (n - 1) / p
  {
    var q, r := (n - 1) / p, (n - 1) % p;
    if r + 1 < p {
      DivModUnique(n, p, q, r + 1);
    } else {
      DivModUnique(n, p, q + 1, 0);
    }
  }

  /** Two different labels drawn at the same position of the same page:
      with one column and two rows per page, the third of four items
      flagged, exportPdf adds no second page, and the fourth item is drawn
      over the second. */
  lemma ExportPdfOverlapWitness()
    ensures MakeGrid(A4, 100.0, 140.0, 5.0) == Grid(1, 2, 100.0, 140.0, 5.0)
    ensures var ann := Annotate(PdfOps([1, 2, 3, 4], ["", "", "x", ""], Grid(1, 2, 100.0, 140.0, 5.0), 4));
            |ann| == 3 && ann[1].0 == ann[2].0 == 0
            && ann[1].1.x == ann[2].1.x && ann[1].1.y == ann[2].1.y
            && ann[1].1.image == 2 && ann[2].1.image == 4
  {
    assert 1.0 <= 205.0 / 105.0 < 2.0;
    assert 2.0 <= 292.0 / 145.0 < 3.0;
    var g := Grid(1, 2, 100.0, 140.0, 5.0);
    var items, errors := [1, 2, 3, 4], ["", "", "x", ""];
    var o1 := PdfOps(items, errors, g, 1);
    var o2 := PdfOps(items, errors, g, 2);
    assert o1 == [AddImage(At(g, 0, 1))];
    assert o2 == o1 + [AddImage(At(g, 1, 2))];
    assert PdfOps(items, errors, g, 3) == o2;
    assert PdfOps(items, errors, g, 4) == o2 + [AddImage(At(g, 1, 4))];
    AnnotateAddImage([], At(g, 0, 1));
    assert [] + [AddImage(At(g, 0, 1))] == o1;
    AnnotateAddImage(o1, At(g, 1, 2));
    AnnotateAddImage(o2, At(g, 1, 4));
  }

  /** exportPdf as its "filter out the invalid ones" step intends: a flagged
      item is dropped before it is given a slot, so the drawn items are
      tiled one after another, as printPage tiles them. The slot index is
      taken from `d`, the number of items drawn so far. */
  function PdfOpsFixed<T>(items: seq<T>, errors: seq<string>, g: Grid, n: nat): seq<PdfOp<T>>
    requires ValidGrid(g) && n <= |items|
  {
    if n == 0 then []
    else
      var i := n - 1;
      var d := |Kept(items, errors, i)|;
      var idx := SlotIn(d, PerPage(g));
      PdfOpsFixed(items, errors, g, i)
      + (if Flagged(errors, i) then []
         else (if d > 0 && idx == 0 then [AddPage] else []) + [AddImage(At(g, idx, items[i]))])
  }

  /** The corrected loop: a counter of the labels drawn gives the slot. */
  method PdfLoopFixed<T>(items: seq<T>, errors: seq<string>, g: Grid) returns (ops: seq<PdfOp<T>>)
    requires ValidGrid(g)
    ensures ops == PdfOpsFixed(items, errors, g, |items|)
  {
    var perPage := g.cols * g.rows;
    var drawn := 0;
    ops := [];
    for i := 0 to |items|
      invariant ops == PdfOpsFixed(items, errors, g, i)
      invariant drawn == |Kept(items, errors, i)|
    {
      if Flagged(errors, i) {
        assert PdfOpsFixed(items, errors, g, i + 1) == ops + [];
        continue;
      }
      var idx := drawn % perPage;
      ghost var prev := ops;
      if drawn > 0 && idx == 0 {
        ops := ops + [AddPage];
      }
      ops := ops + [AddImage(At(g, idx, items[i]))];
      assert ops == prev + ((if drawn > 0 && idx == 0 then [AddPage] else []) + [AddImage(At(g, idx, items[i]))]);
      drawn := drawn + 1;
    }
  }

  /** PdfOps looks at the first `n` items only. */
  lemma {:induction false} PdfOpsPrefix<T>(a: seq<T>, b: seq<T>, errors: seq<string>, g: Grid, n: nat)
    requires ValidGrid(g) && n <= |a| && n <= |b| && a[..n] == b[..n]
    ensures PdfOps(a, errors, g, n) == PdfOps(b, errors, g, n)
  {
    if n > 0 {
      assert a[..n - 1] == a[..n][..n - 1] && b[..n - 1] == b[..n][..n - 1];
      assert a[n - 1] == a[..n][n - 1] && b[n - 1] == b[..n][n - 1];
      PdfOpsPrefix(a, b, errors, g, n - 1);
    }
  }

  /** The corrected export is the as-written loop run over the kept items
      alone. */
  lemma {:induction false} PdfFixedIsTiledKept<T>(items: seq<T>, errors: seq<string>, g: Grid, n: nat)
    requires ValidGrid(g) && n <= |items|
    ensures var k := Kept(items, errors, n);
            PdfOpsFixed(items, errors, g, n) == PdfOps(k, [], g, |k|)
  {
    if n > 0 {
      var i := n - 1;
      PdfFixedIsTiledKept(items, errors, g, i);
      var k := Kept(items, errors, i);
      if !Flagged(errors, i) {
        var k' := k + [items[i]];
        assert Kept(items, errors, n) == k';
        assert k'[..|k|] == k[..|k|];
        PdfOpsPrefix(k', k, [], g, |k|);
      } else {
        assert Kept(items, errors, n) == k;
      }
    }
  }

  /** With no flags, Kept takes every item. */
  lemma {:induction false} KeptNothingFlagged<T>(items: seq<T>, n: nat)
    requires n <= |items|
    ensures Kept(items, [], n) == items[..n]
  {
    if n > 0 {
      KeptNothingFlagged(items, n - 1);
      assert items[..n] == items[..n - 1] + [items[n - 1]];
    }
  }

  /** With nothing flagged the as-written and corrected exports agree. */
  lemma {:induction false} PdfOpsAgreeWithoutFlags<T>(items: seq<T>, errors: seq<string>, g: Grid, n: nat)
    requires ValidGrid(g) && n <= |items|
    requires forall i :: 0 <= i < n ==> !Flagged(errors, i)
    ensures PdfOps(items, errors, g, n) == PdfOpsFixed(items, errors, g, n)
    ensures |Kept(items, errors, n)| == n
  {
    if n > 0 {
      PdfOpsAgreeWithoutFlags(items, errors, g, n - 1);
    }
  }

  /** The corrected export draws exactly the unflagged items, in order. */
  lemma FixedImagesAreKept<T>(items: seq<T>, errors: seq<string>, g: Grid, n: nat)
    requires ValidGrid(g) && n <= |items|
    ensures AnnotatedImages(Annotate(PdfOpsFixed(items, errors, g, n))) == Kept(items, errors, n)
  {
    var k := Kept(items, errors, n);
    PdfFixedIsTiledKept(items, errors, g, n);
    PdfImagesAreKept(k, [], g, |k|);
    KeptNothingFlagged(k, |k|);
    assert k[..|k|] == k;
  }

  /** The indices of the unflagged items among the first `n`, ascending. */
  function Unflagged(errors: seq<string>, n: nat): (ix: seq<nat>)
    ensures forall k :: 0 <= k < |ix| ==> ix[k] < n && !Flagged(errors, ix[k])
    ensures forall a, b :: 0 <= a < b < |ix| ==> ix[a] < ix[b]
  {
    if n == 0 then [] else Unflagged(errors, n - 1) + (if Flagged(errors, n - 1) then [] else [n - 1])
  }

  /** Item `i` on page `i / perPage` in slot `i % perPage`, for each index. */
  function Layout<T>(items: seq<T>, g: Grid, ix: seq<nat>): seq<(nat, Placement<T>)>
    requires ValidGrid(g) && forall k :: 0 <= k < |ix| ==> ix[k] < |items|
  {
    seq(|ix|, k requires 0 <= k < |ix| => (PageOf(ix[k], PerPage(g)), At(g, SlotIn(ix[k], PerPage(g)), items[ix[k]])))
  }

  /** The corrected export puts the `j`-th drawn label on page
      `j / perPage` in slot `j % perPage`, and adds a page at every later
      multiple of `perPage` drawn labels. */
  lemma PdfFixedLayout<T>(items: seq<T>, errors: seq<string>, g: Grid, n: nat)
    requires ValidGrid(g) && n <= |items|
    ensures var k := Kept(items, errors, n);
            AddedPages(PdfOpsFixed(items, errors, g, n)) == (if |k| == 0 then 0 else (|k| - 1) / PerPage(g))
            && Annotate(PdfOpsFixed(items, errors, g, n))
               == seq(|k|, j requires 0 <= j < |k| => (PageOf(j, PerPage(g)), At(g, SlotIn(j, PerPage(g)), k[j])))
  {
    var k := Kept(items, errors, n);
    PdfFixedIsTiledKept(items, errors, g, n);
    PdfUnflaggedLayout(k, [], g, |k|);
  }

  /** Before item `i` the page check adds a page exactly at a nonzero
      multiple of `p`, which brings the page count to `i / p`. */
  lemma PageBreakStep<T>(ops: seq<PdfOp<T>>, i: nat, p: nat)
    requires p >= 1
    requires AddedPages(ops) == if i == 0 then 0 else (i - 1) / p
    ensures var paged := ops + (if i > 0 && i % p == 0 then [AddPage] else []);
            Annotate(paged) == Annotate(ops) && AddedPages(paged) == i / p
  {
    if i > 0 && i % p == 0 {
      AnnotateAddPage(ops);
    } else {
      assert ops + [] == ops;
    }
    if i > 0 { DivStep(i, p); }
  }

  lemma LayoutSnoc<T>(items: seq<T>, g: Grid, ix: seq<nat>, i: nat)
    requires ValidGrid(g) && i < |items| && forall k :: 0 <= k < |ix| ==> ix[k] < |items|
    ensures Layout(items, g, ix + [i])
         == Layout(items, g, ix) + [(PageOf(i, PerPage(g)), At(g, SlotIn(i, PerPage(g)), items[i]))]
  {
  }

  /** In the corrected export no two drawn labels share a position on the
      same page. */
  lemma PdfFixedNoOverlap<T>(items: seq<T>, errors: seq<string>, g: Grid, a: nat, b: nat)
    requires ValidGrid(g) && g.labelW + g.gap != 0.0 && g.labelH + g.gap != 0.0
    requires a < b < |Annotate(PdfOpsFixed(items, errors, g, |items|))|
    ensures var ann := Annotate(PdfOpsFixed(items, errors, g, |items|));
            ann[a].0 != ann[b].0 || ann[a].1.x != ann[b].1.x || ann[a].1.y != ann[b].1.y
  {
    var k := Kept(items, errors, |items|);
    PdfFixedIsTiledKept(items, errors, g, |items|);
    PdfOpsUnflaggedLayout(k, [], g, |k|);
    LayoutNoOverlap(k, g, Unflagged([], |k|), a, b);
  }

  /** Distinct indices on the same page take distinct slots, so distinct
      positions. */
  lemma LayoutNoOverlap<T>(items: seq<T>, g: Grid, ix: seq<nat>, a: nat, b: nat)
    requires ValidGrid(g) && g.labelW + g.gap != 0.0 && g.labelH + g.gap != 0.0
    requires forall k :: 0 <= k < |ix| ==> ix[k] < |items|
    requires a < b < |ix| && ix[a] != ix[b]
    ensures var ann := Layout(items, g, ix);
            ann[a].0 != ann[b].0 || ann[a].1.x != ann[b].1.x || ann[a].1.y != ann[b].1.y
  {
    var p := PerPage(g);
    var i, j := ix[a], ix[b];
    if PageOf(i, p) == PageOf(j, p) {
      SameCellSameIndex(i, j, p);
      DistinctSlotsDistinctPositions(g, SlotIn(i, p), SlotIn(j, p), items[i], items[j]);
    }
  }

  lemma SameCellSameIndex(i: nat, j: nat, p: nat)
    requires p >= 1 && i != j
    ensures PageOf(i, p) != PageOf(j, p) || SlotIn(i, p) != SlotIn(j, p)
  {
    SlotsDiffer(i, j, p);
  }

  /** On the overlap input the corrected export gives the fourth item the
      slot the flagged third one would have taken: the first slot of the
      second page, where the first item sits on the first page. */
  lemma ExportPdfFixedWitness()
    ensures var ann := Annotate(PdfOpsFixed([1, 2, 3, 4], ["", "", "x", ""], Grid(1, 2, 100.0, 140.0, 5.0), 4));
            |ann| == 3 && ann[1].0 == 0 && ann[2].0 == 1 && ann[2].1.image == 4
            && ann[2].1.x == ann[0].1.x && ann[2].1.y == ann[0].1.y
  {
    var g := Grid(1, 2, 100.0, 140.0, 5.0);
    var items, errors := [1, 2, 3, 4], ["", "", "x", ""];
    PdfFixedLayout(items, errors, g, 4);
    assert Kept(items, errors, 2) == [1, 2];
    assert Kept(items, errors, 4) == [1, 2, 4];
  }

  // ---------------------------------------------------------------------
  // printPage: flagged items consume no slot.

  function Chunks<T>(s: seq<T>, p: nat): (cs: seq<seq<T>>)
    requires p >= 1
    decreases |s|
  {
    if |s| == 0 then [] else if |s| <= p then [s] else [s[..p]] + Chunks(s[p..], p)
  }

  function Concat<T>(ss: seq<seq<T>>): seq<T>
  {
    if ss == [] then [] else ss[0] + Concat(ss[1..])
  }

  /** Cutting into pages loses and reorders nothing; every page holds
      between 1 and `p` items and every page but the last exactly `p`. */
  lemma {:induction false} ChunksShape<T>(s: seq<T>, p: nat)
    requires p >= 1
    ensures Concat(Chunks(s, p)) == s
    ensures forall q :: 0 <= q < |Chunks(s, p)| ==> 1 <= |Chunks(s, p)[q]| <= p
    ensures forall q :: 0 <= q < |Chunks(s, p)| - 1 ==> |Chunks(s, p)[q]| == p
    decreases |s|
  {
    if |s| > p {
      ChunksShape(s[p..], p);
      var cs := Chunks(s, p);
      assert cs[1..] == Chunks(s[p..], p);
      assert s == s[..p] + s[p..];
      forall q | 1 <= q < |cs| ensures cs[q] == Chunks(s[p..], p)[q - 1] { }
    }
  }

  /** A positive multiple of `p` is at least `p`, and less `p` it is still
      a multiple. */
  lemma MultipleStep(m: nat, p: nat)
    requires p >= 1 && m % p == 0 && m > 0
    ensures m >= p && (m - p) % p == 0
  {
    var q := m / p;
    assert m == q * p;
    assert q >= 1;
    assert m - p == (q - 1) * p;
    DivModUnique(m - p, p, q - 1, 0);
  }

  /** A length that is a multiple of `p` cuts into full pages only. */
  lemma {:induction false} ChunksFull<T>(s: seq<T>, p: nat)
    requires p >= 1 && |s| % p == 0
    ensures forall q :: 0 <= q < |Chunks(s, p)| ==> |Chunks(s, p)[q]| == p
    decreases |s|
  {
    if |s| > p {
      DivModUnique(|s| - p, p, |s| / p - 1, 0);
      ChunksFull(s[p..], p);
      var cs := Chunks(s, p);
      assert cs[1..] == Chunks(s[p..], p);
    } else if 0 < |s| < p {
      DivModUnique(|s|, p, 0, |s|);
    }
  }

  lemma {:induction false} ChunksAppend<T>(a: seq<T>, b: seq<T>, p: nat)
    requires p >= 1 && |a| % p == 0 && 1 <= |b| <= p
    ensures Chunks(a + b, p) == Chunks(a, p) + [b]
    decreases |a|
  {
    if a == [] {
      assert a + b == b;
    } else {
      MultipleStep(|a|, p);
      assert (a + b)[..p] == a[..p];
      assert (a + b)[p..] == a[p..] + b;
      if |a| == p {
        assert a[p..] + b == b;
      } else {
        ChunksAppend(a[p..], b, p);
      }
    }
  }

  /** The placements of one page: item `t` of the page in slot `t`. */
  function PlacePage<T>(g: Grid, page: seq<T>): (pp: seq<Placement<T>>)
    requires ValidGrid(g)
    ensures |pp| == |page|
  {
    seq(|page|, t requires 0 <= t < |page| => At(g, t, page[t]))
  }

  function PlacePages<T>(g: Grid, cs: seq<seq<T>>): (pages: seq<seq<Placement<T>>>)
    requires ValidGrid(g)
    ensures |pages| == |cs|
  {
    seq(|cs|, q requires 0 <= q < |cs| => PlacePage(g, cs[q]))
  }

  /** What printPage lays out: the unflagged items cut into pages of
      `perPage` in slot order, plus one empty page when the last item is
      flagged and the unflagged ones filled their pages exactly (including
      the case where every item is flagged). */
  function PrintSpec<T>(items: seq<T>, errors: seq<string>, g: Grid): seq<seq<Placement<T>>>
    requires ValidGrid(g)
  {
    var k := Kept(items, errors, |items|);
    var pages := PlacePages(g, Chunks(k, PerPage(g)));
    if |items| > 0 && |k| % PerPage(g) == 0 && Flagged(errors, |items| - 1) then pages + [[]] else pages
  }

  function PageImages<T>(page: seq<Placement<T>>): seq<T>
  {
    if page == [] then [] else [page[0].image] + PageImages(page[1..])
  }

  function PrintedImages<T>(pages: seq<seq<Placement<T>>>): seq<T>
  {
    if pages == [] then [] else PageImages(pages[0]) + PrintedImages(pages[1..])
  }

  lemma {:induction false} PlacePagesImages<T>(g: Grid, cs: seq<seq<T>>)
    requires ValidGrid(g)
    ensures PrintedImages(PlacePages(g, cs)) == Concat(cs)
  {
    if cs != [] {
      PlacePagesImages(g, cs[1..]);
      assert PlacePages(g, cs)[1..] == PlacePages(g, cs[1..]);
      PlacePageImages(g, cs[0]);
    }
  }

  lemma {:induction false} PlacePageImages<T>(g: Grid, page: seq<T>)
    requires ValidGrid(g)
    ensures PageImages(PlacePage(g, page)) == page
    decreases |page|
  {
    if page != [] {
      var pp := PlacePage(g, page);
      assert pp[1..] == seq(|page| - 1, t requires 0 <= t < |page| - 1 => At(g, t + 1, page[t + 1]));
      PlacedShiftImages(g, page[1..], 1);
      assert pp[1..] == ShiftedPage(g, page[1..], 1);
    }
  }

  function ShiftedPage<T>(g: Grid, page: seq<T>, off: nat): seq<Placement<T>>
    requires ValidGrid(g)
  {
    seq(|page|, t requires 0 <= t < |page| => At(g, t + off, page[t]))
  }

  lemma {:induction false} PlacedShiftImages<T>(g: Grid, page: seq<T>, off: nat)
    requires ValidGrid(g)
    ensures PageImages(ShiftedPage(g, page, off)) == page
    decreases |page|
  {
    if page != [] {
      assert ShiftedPage(g, page, off)[1..] == ShiftedPage(g, page[1..], off + 1);
      PlacedShiftImages(g, page[1..], off + 1);
    }
  }

  lemma {:induction false} PrintedImagesAppendEmpty<T>(pages: seq<seq<Placement<T>>>)
    ensures PrintedImages(pages + [[]]) == PrintedImages(pages)
  {
    if pages != [] {
      assert (pages + [[]])[1..] == pages[1..] + [[]];
      PrintedImagesAppendEmpty(pages[1..]);
    } else {
      var one: seq<seq<Placement<T>>> := [[]];
      assert one[1..] == [];
    }
  }

  /** printPage emits every unflagged item exactly once, in input order. */
  lemma PrintSpecImages<T>(items: seq<T>, errors: seq<string>, g: Grid)
    requires ValidGrid(g)
    ensures PrintedImages(PrintSpec(items, errors, g)) == Kept(items, errors, |items|)
  {
    var k := Kept(items, errors, |items|);
    var cs := Chunks(k, PerPage(g));
    ChunksShape(k, PerPage(g));
    PlacePagesImages(g, cs);
    PrintedImagesAppendEmpty(PlacePages(g, cs));
  }

  /** No printed page holds more than `perPage` images and every page but
      the last is full. */
  lemma PrintSpecPageSizes<T>(items: seq<T>, errors: seq<string>, g: Grid)
    requires ValidGrid(g)
    ensures forall q :: 0 <= q < |PrintSpec(items, errors, g)| ==> |PrintSpec(items, errors, g)[q]| <= PerPage(g)
    ensures forall q :: 0 <= q < |PrintSpec(items, errors, g)| - 1 ==> |PrintSpec(items, errors, g)[q]| == PerPage(g)
  {
    var k := Kept(items, errors, |items|);
    var p := PerPage(g);
    ChunksShape(k, p);
    var pages := PlacePages(g, Chunks(k, p));
    if |items| > 0 && |k| % p == 0 && Flagged(errors, |items| - 1) {
      ChunksFull(k, p);
      var all := pages + [[]];
      assert PrintSpec(items, errors, g) == all;
      forall q | 0 <= q < |all| - 1 ensures |all[q]| == p {
        assert all[q] == pages[q];
      }
    } else {
      assert PrintSpec(items, errors, g) == pages;
    }
  }

  /** printPage prints nothing for an empty list; otherwise its last page is
      empty exactly when the unflagged items filled their pages exactly and
      the final item is flagged (this includes a list whose every item is
      flagged). */
  lemma PrintSpecTrailingPage<T>(items: seq<T>, errors: seq<string>, g: Grid)
    requires ValidGrid(g)
    ensures (|PrintSpec(items, errors, g)| == 0) == (|items| == 0)
    ensures |items| > 0 ==>
      (|PrintSpec(items, errors, g)[|PrintSpec(items, errors, g)| - 1]| == 0 <==>
       |Kept(items, errors, |items|)| % PerPage(g) == 0 && Flagged(errors, |items| - 1))
  {
    var n := |items|;
    var k := Kept(items, errors, n);
    var p := PerPage(g);
    var cs := Chunks(k, p);
    var pages := PlacePages(g, cs);
    var trailing := n > 0 && |k| % p == 0 && Flagged(errors, n - 1);
    assert PrintSpec(items, errors, g) == if trailing then pages + [[]] else pages;
    if n == 0 {
      assert cs == [];
    } else if !trailing {
      KeptNonEmpty(items, errors, p);
      ChunksShape(k, p);
      assert |pages[|pages| - 1]| == |cs[|cs| - 1]| >= 1;
    }
  }

  /** Unless the last item is flagged and the kept ones fill their pages
      exactly, something is kept. */
  lemma KeptNonEmpty<T>(items: seq<T>, errors: seq<string>, p: nat)
    requires p >= 1 && |items| > 0
    requires !(|Kept(items, errors, |items|)| % p == 0 && Flagged(errors, |items| - 1))
    ensures Kept(items, errors, |items|) != []
  {
    var n := |items|;
    if !Flagged(errors, n - 1) {
      assert Kept(items, errors, n) == Kept(items, errors, n - 1) + [items[n - 1]];
    }
  }

  /** The placement printPage computes for column `c` of row `r`. */
  function CellPlacement<T>(g: Grid, r: nat, c: nat, image: T): Placement<T>
  {
    Placement(g.gap + c as real * (g.labelW + g.gap), g.gap + r as real * (g.labelH + g.gap),
              g.labelW, g.labelH, image)
  }

  lemma SlotBelowPerPage(r: nat, c: nat, cols: nat, rows: nat)
    requires r < rows && c < cols
    ensures r * cols + c < rows * cols
  {
    MulAtLeast(rows - r, cols);
    assert rows * cols == (rows - r) * cols + r * cols;
  }

  lemma ModAfterAppend(a: nat, k: nat, p: nat)
    requires p >= 1 && a % p == 0 && 1 <= k <= p
    ensures k < p ==> (a + k) % p != 0
    ensures k == p ==> (a + k) % p == 0
  {
    var q := a / p;
    assert a == q * p;
    if k == p {
      assert a + k == (q + 1) * p;
      DivModUnique(a + k, p, q + 1, 0);
    } else {
      DivModUnique(a + k, p, q, k);
    }
  }

  lemma PlacePagesAppend<T>(g: Grid, cs: seq<seq<T>>, last: seq<T>)
    requires ValidGrid(g)
    ensures PlacePages(g, cs + [last]) == PlacePages(g, cs) + [PlacePage(g, last)]
  {
    var lhs := PlacePages(g, cs + [last]);
    var rhs := PlacePages(g, cs) + [PlacePage(g, last)];
    forall q | 0 <= q < |cs| ensures lhs[q] == rhs[q] {
      assert (cs + [last])[q] == cs[q];
    }
    assert lhs[|cs|] == rhs[|cs|];
  }

  /** Closing a page in printPage: the pages so far followed by the one
      just filled are the specification's pages of the items consumed, and
      when every item is consumed they are the whole print. */
  lemma PageClose<T>(items: seq<T>, errors: seq<string>, g: Grid, printed: nat,
                     before: seq<T>, pageItems: seq<T>, pages: seq<seq<Placement<T>>>)
    requires ValidGrid(g) && printed <= |items|
    requires |before| % PerPage(g) == 0
    requires pages == PlacePages(g, Chunks(before, PerPage(g)))
    requires Kept(items, errors, printed) == before + pageItems
    requires |pageItems| <= PerPage(g)
    requires printed < |items| ==> |pageItems| == PerPage(g)
    requires |pageItems| == PerPage(g) ==> printed > 0 && !Flagged(errors, printed - 1)
    requires pageItems == [] ==> printed > 0 && Flagged(errors, printed - 1)
    ensures printed < |items| ==>
      |Kept(items, errors, printed)| % PerPage(g) == 0
      && pages + [PlacePage(g, pageItems)] == PlacePages(g, Chunks(Kept(items, errors, printed), PerPage(g)))
    ensures printed == |items| ==> pages + [PlacePage(g, pageItems)] == PrintSpec(items, errors, g)
  {
    var p := PerPage(g);
    if pageItems == [] {
      assert before + pageItems == before;
      assert PlacePage(g, pageItems) == [];
    } else {
      ChunksAppend(before, pageItems, p);
      PlacePagesAppend(g, Chunks(before, p), pageItems);
      ModAfterAppend(|before|, |pageItems|, p);
    }
  }

  /** The loops of printPage: a page is opened while items remain and
      filled by FillPage. */
  method PrintLoop<T>(items: seq<T>, errors: seq<string>, g: Grid) returns (pages: seq<seq<Placement<T>>>)
    requires ValidGrid(g)
    ensures pages == PrintSpec(items, errors, g)
  {
    var n := |items|;
    var printed := 0;
    pages := [];
    while printed < n
      invariant 0 <= printed <= n
      invariant printed < n ==> |Kept(items, errors, printed)| % PerPage(g) == 0
      invariant printed < n ==> pages == PlacePages(g, Chunks(Kept(items, errors, printed), PerPage(g)))
      invariant printed == n ==> pages == PrintSpec(items, errors, g)
      decreases n - printed
    {
      ghost var before := Kept(items, errors, printed);
      var page;
      ghost var pageItems;
      page, printed, pageItems := FillPage(items, errors, g, printed);
      PageClose(items, errors, g, printed, before, pageItems, pages);
      pages := pages + [page];
    }
  }

  /** One page of printPage: its rows are filled in turn from item `start`
      on; the page ends when its slots are used up or the items run out. */
  method FillPage<T>(items: seq<T>, errors: seq<string>, g: Grid, start: nat)
    returns (page: seq<Placement<T>>, printed: nat, ghost pageItems: seq<T>)
    requires ValidGrid(g) && start < |items|
    ensures start < printed <= |items|
    ensures Kept(items, errors, printed) == Kept(items, errors, start) + pageItems
    ensures page == PlacePage(g, pageItems)
    ensures |pageItems| <= PerPage(g) && (printed < |items| ==> |pageItems| == PerPage(g))
    ensures |pageItems| == PerPage(g) ==> !Flagged(errors, printed - 1)
    ensures pageItems == [] ==> Flagged(errors, printed - 1)
  {
    printed := start;
    pageItems := [];
    page := [];
    for r := 0 to g.rows
      invariant PageSoFar(items, errors, g, start, r, printed, pageItems, page)
    {
      var cells;
      ghost var rowItems;
      ghost var printed0 := printed;
      cells, printed, rowItems := FillRow(items, errors, g, r, printed);
      PageRowStep(items, errors, g, start, r, printed0, pageItems, page, cells, printed, rowItems);
      page := page + cells;
      pageItems := pageItems + rowItems;
    }
    PageSoFarDone(items, errors, g, start, printed, pageItems, page);
  }

  /** What the first `r` rows of a page opened at item `start` have done:
      the items consumed, the kept ones placed in slot order, every row full
      while items remain, and the last item consumed kept exactly when the
      page is full. */
  ghost predicate PageSoFar<T>(items: seq<T>, errors: seq<string>, g: Grid, start: nat, r: nat,
                               printed: nat, pageItems: seq<T>, page: seq<Placement<T>>)
    requires ValidGrid(g)
  {
    start <= printed <= |items|
    && Kept(items, errors, printed) == Kept(items, errors, start) + pageItems
    && page == PlacePage(g, pageItems)
    && |pageItems| <= r * g.cols && (printed < |items| ==> |pageItems| == r * g.cols)
    && (|pageItems| == g.rows * g.cols ==> printed > 0 && !Flagged(errors, printed - 1))
    && (printed > start && pageItems == [] ==> Flagged(errors, printed - 1))
    && (r > 0 ==> printed > start)
  }

  lemma PageRowStep<T>(items: seq<T>, errors: seq<string>, g: Grid, start: nat, r: nat,
                       printed0: nat, pageItems: seq<T>, page: seq<Placement<T>>,
                       cells: seq<Placement<T>>, printed: nat, rowItems: seq<T>)
    requires ValidGrid(g) && r < g.rows && start < |items|
    requires PageSoFar(items, errors, g, start, r, printed0, pageItems, page)
    requires printed0 <= printed <= |items|
    requires Kept(items, errors, printed) == Kept(items, errors, printed0) + rowItems
    requires cells == RowCells(g, r, rowItems)
    requires |rowItems| <= g.cols && (printed < |items| ==> |rowItems| == g.cols)
    requires |rowItems| == g.cols ==> printed > 0 && !Flagged(errors, printed - 1)
    requires printed > printed0 && rowItems == [] ==> Flagged(errors, printed - 1)
    requires printed0 < |items| ==> printed > printed0
    ensures PageSoFar(items, errors, g, start, r + 1, printed, pageItems + rowItems, page + cells)
  {
    RowArith(r, g.rows, g.cols, |pageItems|, |rowItems|);
    if rowItems != [] {
      PageRowAppend(g, pageItems, rowItems, r);
    } else {
      assert pageItems + rowItems == pageItems;
    }
    assert Kept(items, errors, start) + pageItems + rowItems == Kept(items, errors, start) + (pageItems + rowItems);
  }

  lemma PageSoFarDone<T>(items: seq<T>, errors: seq<string>, g: Grid, start: nat,
                         printed: nat, pageItems: seq<T>, page: seq<Placement<T>>)
    requires ValidGrid(g) && start < |items|
    requires PageSoFar(items, errors, g, start, g.rows, printed, pageItems, page)
    ensures start < printed <= |items|
    ensures Kept(items, errors, printed) == Kept(items, errors, start) + pageItems
    ensures page == PlacePage(g, pageItems)
    ensures |pageItems| <= PerPage(g) && (printed < |items| ==> |pageItems| == PerPage(g))
    ensures |pageItems| == PerPage(g) ==> !Flagged(errors, printed - 1)
    ensures pageItems == [] ==> Flagged(errors, printed - 1)
  {
    assert PerPage(g) == g.rows * g.cols;
  }

  /** The bookkeeping of one row added to a page of `r` earlier rows. */
  lemma RowArith(r: nat, rows: nat, cols: nat, a: nat, b: nat)
    requires r < rows && cols >= 1 && a <= r * cols && b <= cols
    ensures a + b <= (r + 1) * cols
    ensures a + b == rows * cols ==> b == cols
    ensures a < rows * cols
  {
    assert (r + 1) * cols == r * cols + cols;
    MulAtLeast(rows - r, cols);
    assert rows * cols == (rows - r) * cols + r * cols;
  }

  /** One row of printPage: columns `c = 0, 1, ...` from item `start` on,
      a flagged item passed over without using the column (the source's
      `printed++; c--; continue`), until the row is full or the items run
      out. */
  method FillRow<T>(items: seq<T>, errors: seq<string>, g: Grid, r: nat, start: nat)
    returns (cells: seq<Placement<T>>, printed: nat, ghost rowItems: seq<T>)
    requires ValidGrid(g) && start <= |items|
    ensures start <= printed <= |items|
    ensures Kept(items, errors, printed) == Kept(items, errors, start) + rowItems
    ensures cells == RowCells(g, r, rowItems)
    ensures |rowItems| <= g.cols && (printed < |items| ==> |rowItems| == g.cols)
    ensures |rowItems| == g.cols ==> printed > 0 && !Flagged(errors, printed - 1)
    ensures printed > start && rowItems == [] ==> Flagged(errors, printed - 1)
    ensures start < |items| ==> printed > start
  {
    var n := |items|;
    ghost var before := Kept(items, errors, start);
    printed := start;
    rowItems := [];
    cells := [];
    var c := 0;
    while c < g.cols
      invariant 0 <= c <= g.cols
      invariant start <= printed <= n
      invariant Kept(items, errors, printed) == before + rowItems
      invariant cells == RowCells(g, r, rowItems)
      invariant |rowItems| <= c && (printed < n ==> |rowItems| == c)
      invariant |rowItems| == g.cols ==> printed > 0 && !Flagged(errors, printed - 1)
      invariant printed > start && rowItems == [] ==> Flagged(errors, printed - 1)
      invariant c > 0 ==> printed > start
      decreases n - printed, g.cols - c
    {
      if printed >= n {
        break;
      }
      if Flagged(errors, printed) {
        printed := printed + 1;
      } else {
        RowCellsSnoc(g, r, rowItems, items[printed]);
        cells := cells + [CellPlacement(g, r, c, items[printed])];
        rowItems := rowItems + [items[printed]];
        printed := printed + 1;
        c := c + 1;
      }
    }
  }

  /** The placements of one row: item `j` of the row in column `j` of row
      `r`. */
  function RowCells<T>(g: Grid, r: nat, row: seq<T>): (cells: seq<Placement<T>>)
    ensures |cells| == |row|
  {
    seq(|row|, j requires 0 <= j < |row| => CellPlacement(g, r, j, row[j]))
  }

  lemma RowCellsSnoc<T>(g: Grid, r: nat, row: seq<T>, x: T)
    ensures RowCells(g, r, row) + [CellPlacement(g, r, |row|, x)] == RowCells(g, r, row + [x])
  {
    var lhs := RowCells(g, r, row) + [CellPlacement(g, r, |row|, x)];
    var rhs := RowCells(g, r, row + [x]);
    forall j | 0 <= j < |row| ensures lhs[j] == rhs[j] {
      assert (row + [x])[j] == row[j];
    }
  }

  /** A row laid after `r` full rows continues the page slot by slot. */
  lemma PageRowAppend<T>(g: Grid, pageItems: seq<T>, row: seq<T>, r: nat)
    requires ValidGrid(g) && |pageItems| == r * g.cols && |row| <= g.cols
    ensures PlacePage(g, pageItems) + RowCells(g, r, row) == PlacePage(g, pageItems + row)
  {
    var lhs := PlacePage(g, pageItems) + RowCells(g, r, row);
    var rhs := PlacePage(g, pageItems + row);
    var s := |pageItems|;
    forall t | 0 <= t < |lhs| ensures lhs[t] == rhs[t] {
      if t < s {
        assert (pageItems + row)[t] == pageItems[t];
      } else {
        var j := t - s;
        assert (pageItems + row)[t] == row[j];
        SlotOf(r, j, g.cols);
      }
    }
  }
}
