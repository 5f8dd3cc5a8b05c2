/** Quantity expansion: the list of labels an export walks, one copy per
    unit of each batch row's quantity (or the form's quantity in single
    mode), and the per-item error flags that go with it. */
module Batch {
  import opened Labels
  import opened Validation
  import opened Tiling

  /** `Math.max(1, Math.floor(qty || 1))`: a zero quantity is falsy and
      counts as 1, anything below 2 gives one copy. */
  function Copies(qty: real): (n: nat)
    ensures n >= 1
    ensures qty >= 1.0 ==> n as real <= qty < n as real + 1.0
    ensures qty < 2.0 ==> n == 1
  {
    var q := if qty == 0.0 then 1.0 else qty;
    var f := q.Floor;
    if f < 1 then 1 else f
  }

  function Repeat<T>(x: T, k: nat): (s: seq<T>)
    ensures |s| == k && forall i :: 0 <= i < k ==> s[i] == x
  {
    seq(k, _ => x)
  }

  /** The batch rows, each repeated `Copies(qty)` times, in row order. */
  function Expand(batch: seq<LabelConfig>): seq<LabelConfig>
  {
    if batch == [] then []
    else
      var last := batch[|batch| - 1];
      Expand(batch[..|batch| - 1]) + Repeat(last, Copies(last.qty))
  }

  /** The row each expanded item comes from. */
  function Origins(batch: seq<LabelConfig>): seq<nat>
  {
    if batch == [] then []
    else
      var n := |batch| - 1;
      Origins(batch[..n]) + Repeat(n, Copies(batch[n].qty))
  }

  /** Every expanded item is a copy of its origin row, and origins ascend. */
  lemma {:induction false} ExpandIsRowCopies(batch: seq<LabelConfig>)
    ensures |Origins(batch)| == |Expand(batch)|
    ensures forall i :: 0 <= i < |Origins(batch)| ==>
      Origins(batch)[i] < |batch| && Expand(batch)[i] == batch[Origins(batch)[i]]
    ensures forall i, j :: 0 <= i <= j < |Origins(batch)| ==> Origins(batch)[i] <= Origins(batch)[j]
  {
    if batch != [] {
      var n := |batch| - 1;
      var prefix := batch[..n];
      ExpandIsRowCopies(prefix);
      var o, e := Origins(prefix), Expand(prefix);
      var c := Copies(batch[n].qty);
      assert Origins(batch) == o + Repeat<nat>(n, c);
      assert Expand(batch) == e + Repeat(batch[n], c);
      forall i | 0 <= i < |Origins(batch)|
        ensures Origins(batch)[i] < |batch| && Expand(batch)[i] == batch[Origins(batch)[i]]
      {
        if i < |o| {
          assert Origins(batch)[i] == o[i] && Expand(batch)[i] == e[i];
          assert prefix[o[i]] == batch[o[i]];
        }
      }
    }
  }

  /** Row `r` is copied exactly `Copies(qty)` times. */
  lemma {:induction false} ExpandCopyCounts(batch: seq<LabelConfig>)
    ensures forall r :: 0 <= r < |batch| ==> multiset(Origins(batch))[r] == Copies(batch[r].qty)
  {
    if batch != [] {
      var n: nat := |batch| - 1;
      var prefix := batch[..n];
      ExpandCopyCounts(prefix);
      ExpandIsRowCopies(prefix);
      var o := Origins(prefix);
      var c := Copies(batch[n].qty);
      assert Origins(batch) == o + Repeat<nat>(n, c);
      assert multiset(Origins(batch)) == multiset(o) + multiset(Repeat<nat>(n, c));
      forall r | 0 <= r < |batch| ensures multiset(Origins(batch))[r] == Copies(batch[r].qty) {
        RepeatCount(n, c, r);
        if r < n {
          assert prefix[r] == batch[r];
        } else {
          assert n !in multiset(o);
        }
      }
    }
  }

  lemma {:induction false} RepeatCount(x: nat, k: nat, y: nat)
    ensures multiset(Repeat<nat>(x, k))[y] == if x == y then k else 0
  {
    if k > 0 {
      RepeatCount(x, k - 1, y);
      var a: seq<nat> := Repeat(x, k - 1);
      var b: seq<nat> := Repeat(x, k);
      assert b == a + [x];
      assert multiset(b) == multiset(a) + multiset{x};
      assert multiset(b)[y] == multiset(a)[y] + multiset{x}[y];
      assert multiset{x}[y] == if x == y then 1 else 0;
    } else {
      assert Repeat(x, k) == [];
    }
  }

  /** The nested loops that build the batch item list. */
  method ExpandBatch(batch: seq<LabelConfig>) returns (items: seq<LabelConfig>)
    ensures items == Expand(batch)
  {
    items := [];
    for r := 0 to |batch|
      invariant items == Expand(batch[..r])
    {
      var it := batch[r];
      var count := Copies(it.qty);
      ghost var start := items;
      for k := 0 to count
        invariant items == start + Repeat(it, k)
      {
        items := items + [it];
      }
      assert batch[..r + 1][..r] == batch[..r];
    }
    assert batch[..|batch|] == batch;
  }

  /** The number of iterations of `for (i = 0; i < quantity; i++)`: the
      least natural number not below `quantity` (no flooring, so 2.5 makes
      three copies and 0 or less makes none). */
  function SingleCount(quantity: real): (n: nat)
    ensures quantity <= n as real
    ensures n == 0 || (n - 1) as real < quantity
  {
    if quantity <= 0.0 then 0 else -((-quantity).Floor)
  }

  /** The loop that fills the single-mode item list. */
  method ExpandSingle(cfg: LabelConfig, quantity: real) returns (items: seq<LabelConfig>)
    ensures items == Repeat(cfg, SingleCount(quantity))
  {
    items := [];
    var i := 0;
    while (i as real) < quantity
      invariant 0 <= i <= SingleCount(quantity)
      invariant items == Repeat(cfg, i)
      decreases SingleCount(quantity) - i
    {
      items := items + [cfg];
      i := i + 1;
    }
  }

  /** The rows that pass validation, in order. */
  function ValidRows(batch: seq<LabelConfig>): (v: seq<LabelConfig>)
    ensures forall i :: 0 <= i < |v| ==> ValidateConfig(v[i]) == ""
  {
    if batch == [] then []
    else
      var n := |batch| - 1;
      ValidRows(batch[..n]) + (if ValidateConfig(batch[n]) == "" then [batch[n]] else [])
  }

  /** Each row's validation result repeated along with its copies, so that
      the flag at an expanded index is the flag of that item's row. */
  function ExpandErrors(batch: seq<LabelConfig>, errs: seq<string>): (flags: seq<string>)
    requires |errs| == |batch|
    ensures |flags| == |Expand(batch)|
  {
    if batch == [] then []
    else
      var n := |batch| - 1;
      ExpandErrors(batch[..n], errs[..n]) + Repeat(errs[n], Copies(batch[n].qty))
  }

  lemma {:induction false} BatchErrorsSnoc(batch: seq<LabelConfig>)
    requires batch != []
    ensures BatchErrors(batch) == BatchErrors(batch[..|batch| - 1]) + [ValidateConfig(batch[|batch| - 1])]
  {
    if |batch| > 1 {
      var t := batch[1..];
      BatchErrorsSnoc(t);
      assert t[..|t| - 1] == batch[..|batch| - 1][1..];
      assert batch[..|batch| - 1][0] == batch[0];
    } else {
      assert batch[..0] == [];
    }
  }

  /** Kept over a sequence extended on the right, up to the old length. */
  lemma {:induction false} KeptOfExtension<T>(items: seq<T>, flags: seq<string>, more: seq<T>, moreFlags: seq<string>, m: nat)
    requires m <= |items| && |flags| == |items|
    ensures Kept(items + more, flags + moreFlags, m) == Kept(items, flags, m)
  {
    if m > 0 {
      KeptOfExtension(items, flags, more, moreFlags, m - 1);
      assert (items + more)[m - 1] == items[m - 1];
      assert (flags + moreFlags)[m - 1] == flags[m - 1];
    }
  }

  /** Kept over a block of `k` copies of `x`, all carrying the flag `e`. */
  lemma {:induction false} KeptOfBlock<T>(items: seq<T>, flags: seq<string>, x: T, e: string, k: nat)
    requires |flags| == |items|
    ensures Kept(items + Repeat(x, k), flags + Repeat(e, k), |items| + k)
         == Kept(items, flags, |items|) + (if e != "" then [] else Repeat(x, k))
  {
    var all, allFlags := items + Repeat(x, k), flags + Repeat(e, k);
    if k == 0 {
      assert all == items && allFlags == flags;
    } else {
      KeptOfBlock(items, flags, x, e, k - 1);
      KeptOfExtension(items + Repeat(x, k - 1), flags + Repeat(e, k - 1), [x], [e], |items| + k - 1);
      assert all == items + Repeat(x, k - 1) + [x];
      assert allFlags == flags + Repeat(e, k - 1) + [e];
      assert all[|items| + k - 1] == x;
      assert Flagged(allFlags, |items| + k - 1) == (e != "");
      assert Repeat(x, k) == Repeat(x, k - 1) + [x];
    }
  }

  /** With the flags expanded along with the items, an export keeps exactly
      the copies of the valid rows. */
  lemma ExpandedFlagsKeepValidRows(batch: seq<LabelConfig>)
    ensures Kept(Expand(batch), ExpandErrors(batch, BatchErrors(batch)), |Expand(batch)|)
         == Expand(ValidRows(batch))
  {
    ExpandedFlagsKeepCleanRows(batch, BatchErrors(batch));
    CleanRowsAreValidRows(batch);
  }

  /** The rows whose error entry is empty, in order. */
  function CleanRows(batch: seq<LabelConfig>, errs: seq<string>): seq<LabelConfig>
    requires |errs| == |batch|
  {
    if batch == [] then []
    else
      var n := |batch| - 1;
      CleanRows(batch[..n], errs[..n]) + (if errs[n] == "" then [batch[n]] else [])
  }

  lemma {:induction false} CleanRowsAreValidRows(batch: seq<LabelConfig>)
    ensures CleanRows(batch, BatchErrors(batch)) == ValidRows(batch)
  {
    if batch != [] {
      BatchErrorsSnoc(batch);
      CleanRowsAreValidRows(batch[..|batch| - 1]);
    }
  }

  lemma {:induction false} ExpandedFlagsKeepCleanRows(batch: seq<LabelConfig>, errs: seq<string>)
    requires |errs| == |batch|
    ensures Kept(Expand(batch), ExpandErrors(batch, errs), |Expand(batch)|) == Expand(CleanRows(batch, errs))
  {
    if batch != [] {
      var n := |batch| - 1;
      var prefix, pe := batch[..n], errs[..n];
      var x, e := batch[n], errs[n];
      ExpandedFlagsKeepCleanRows(prefix, pe);
      var c := Copies(x.qty);
      var items, flags := Expand(prefix), ExpandErrors(prefix, pe);
      assert Expand(batch) == items + Repeat(x, c);
      assert ExpandErrors(batch, errs) == flags + Repeat(e, c);
      KeptOfBlock(items, flags, x, e, c);
      var v := CleanRows(prefix, pe);
      if e == "" {
        assert CleanRows(batch, errs) == v + [x];
        assert (v + [x])[..|v|] == v;
        assert Expand(v + [x]) == Expand(v) + Repeat(x, c);
      } else {
        assert CleanRows(batch, errs) == v;
        assert Expand(v) + [] == Expand(v);
      }
    }
  }

  /** As written, exportPdf and printPage read the row-indexed batch errors
      at the expanded item index: a valid row with two copies followed by an
      invalid row prints the invalid label and drops a valid copy. */
  lemma RowIndexedFlagsWitness(a: LabelConfig)
    requires ValidateConfig(a) == "" && Copies(a.qty) == 2
    ensures var b := a.(value := "", qty := 1.0);
            var batch := [a, b];
            Expand(batch) == [a, a, b]
            && Kept(Expand(batch), BatchErrors(batch), 3) == [a, b]
            && ValidateConfig(b) == EmptyValue
            && Expand(ValidRows(batch)) == [a, a]
  {
    var b := a.(value := "", qty := 1.0);
    var batch := [a, b];
    assert batch[..1] == [a];
    assert [a][..0] == [];
    assert Expand([a]) == [a, a];
    assert Expand(batch) == [a, a] + [b];
    assert ValidRows([a]) == [a];
    assert ValidRows(batch) == [a];
    var errs := BatchErrors(batch);
    assert errs[0] == "" && errs[1] == EmptyValue;
    var items := [a, a, b];
    assert Kept(items, errs, 1) == [a];
    assert Kept(items, errs, 2) == [a];
    assert Kept(items, errs, 3) == [a, b];
  }
}
