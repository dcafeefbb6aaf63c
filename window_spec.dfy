/**
 * Specification functions of the display window (the `y_raw_buffer` of the signal viewers):
 * channel selection, the wrapping chunk write, the line-connect mask and the per-channel
 * scaling statistics of the raw (stacked) view.
 */
module WindowSpec {
  import opened Wrappers
  import Arith

  /** One slot of the display window: one value per viewed channel; `None` is the NaN sentinel. */
  type Row = seq<Option<real>>

  /** A chunk as the stream delivers it: `chunk[sample][channel]`. */
  type Chunk = seq<seq<real>>

  /** Every sample of the chunk carries `width` channels. */
  predicate Fits(chunk: Chunk, width: nat) {
    forall j :: 0 <= j < |chunk| ==> |chunk[j]| == width
  }

  /** Every channel index is a valid column of a `width`-channel sample. */
  predicate InRange(indices: seq<nat>, width: nat) {
    forall k :: 0 <= k < |indices| ==> indices[k] < width
  }

  /** No element occurs twice. */
  predicate Distinct<T(==)>(s: seq<T>) {
    forall i, j :: 0 <= i < j < |s| ==> s[i] != s[j]
  }

  /** `chunk[j, indices]`: one sample restricted to the viewed channels, in the order of `indices`. */
  function SelectRow(sample: seq<real>, indices: seq<nat>): (r: Row)
    requires InRange(indices, |sample|)
    ensures |r| == |indices|
  {
    seq(|indices|, k requires 0 <= k < |indices| => Some(sample[indices[k]]))
  }

  /** `chunk[:, indices]` for a whole chunk. */
  function SelectRows(chunk: Chunk, indices: seq<nat>, width: nat): (r: seq<Row>)
    requires Fits(chunk, width) && InRange(indices, width)
    ensures |r| == |chunk|
    ensures forall j :: 0 <= j < |chunk| ==> |r[j]| == |indices|
    ensures forall j, k :: 0 <= j < |chunk| && 0 <= k < |indices| ==> r[j][k] == Some(chunk[j][indices[k]])
  {
    seq(|chunk|, j requires 0 <= j < |chunk| => SelectRow(chunk[j], indices))
  }

  // ---------------------------------------------------------------------------------------
  // Channel-name filtering of the viewer constructors

  /** The names kept by `for i, n in enumerate(names): if i in view_channels: names.append(n)`. */
  function SelectedNames(names: seq<string>, view: seq<nat>): seq<string>
    decreases |names|
  {
    if |names| == 0 then []
    else
      SelectedNames(names[..|names| - 1], view)
      + (if |names| - 1 in view then [names[|names| - 1]] else [])
  }

  /** The constructor loop over `enumerate(names)` that keeps the names at viewed positions. */
  method FilterNames(names: seq<string>, view: seq<nat>) returns (kept: seq<string>)
    ensures kept == SelectedNames(names, view)
  {
    kept := [];
    var i := 0;
    while i < |names|
      invariant 0 <= i <= |names|
      invariant kept == SelectedNames(names[..i], view)
    {
      if i in view {
        kept := kept + [names[i]];
      }
      i := i + 1;
      assert names[..i][..i - 1] == names[..i - 1];
    }
    assert names[..|names|] == names;
  }

  /** The positions of `names` that the filter keeps, in increasing order. */
  function KeptIndices(n: nat, view: seq<nat>): seq<nat>
    decreases n
  {
    if n == 0 then [] else KeptIndices(n - 1, view) + (if n - 1 in view then [n - 1] else [])
  }

  /** How many entries of `view` are below `n`. */
  function CountBelow(view: seq<nat>, n: nat): nat
    decreases |view|
  {
    if |view| == 0 then 0
    else CountBelow(view[..|view| - 1], n) + (if view[|view| - 1] < n then 1 else 0)
  }

  /** The kept positions are exactly the indices below `n` that occur in `view`, strictly increasing. */
  lemma {:induction false} KeptIndicesExact(n: nat, view: seq<nat>)
    ensures forall i :: i in KeptIndices(n, view) <==> i < n && i in view
    ensures forall k, l :: 0 <= k < l < |KeptIndices(n, view)| ==> KeptIndices(n, view)[k] < KeptIndices(n, view)[l]
  {
    if n > 0 {
      var init := KeptIndices(n - 1, view);
      KeptIndicesExact(n - 1, view);
      assert forall k :: 0 <= k < |init| ==> init[k] < n - 1 by {
        forall k | 0 <= k < |init| ensures init[k] < n - 1 {
          assert init[k] in init;
        }
      }
    }
  }

  /**
   * `self.names` holds exactly the names whose position occurs in `view_channels`, in their
   * original order: the k-th kept name is the name at the k-th kept position.
   */
  lemma {:induction false} SelectedNamesInOrder(names: seq<string>, view: seq<nat>)
    ensures |SelectedNames(names, view)| == |KeptIndices(|names|, view)|
    ensures forall k :: 0 <= k < |SelectedNames(names, view)| ==>
      KeptIndices(|names|, view)[k] < |names| && SelectedNames(names, view)[k] == names[KeptIndices(|names|, view)[k]]
  {
    KeptIndicesExact(|names|, view);
    if |names| > 0 {
      var init := names[..|names| - 1];
      SelectedNamesInOrder(init, view);
      KeptIndicesExact(|init|, view);
      assert forall k :: 0 <= k < |KeptIndices(|init|, view)| ==> KeptIndices(|init|, view)[k] < |init| by {
        forall k | 0 <= k < |KeptIndices(|init|, view)| ensures KeptIndices(|init|, view)[k] < |init| {
          assert KeptIndices(|init|, view)[k] in KeptIndices(|init|, view);
        }
      }
    }
  }

  /** With distinct entries, raising the bound by one counts `n` once if it occurs. */
  lemma {:induction false} CountBelowStep(view: seq<nat>, n: nat)
    requires Distinct(view)
    ensures CountBelow(view, n + 1) == CountBelow(view, n) + (if n in view then 1 else 0)
  {
    if |view| > 0 {
      var init := view[..|view| - 1];
      assert Distinct(init);
      CountBelowStep(init, n);
      assert view == init + [view[|view| - 1]];
      assert n in view <==> n in init || n == view[|view| - 1];
      assert n in init ==> n != view[|view| - 1];
    }
  }

  /** An in-range selection has every entry below the bound. */
  lemma {:induction false} CountBelowAll(view: seq<nat>, n: nat)
    requires InRange(view, n)
    ensures CountBelow(view, n) == |view|
  {
    if |view| > 0 {
      CountBelowAll(view[..|view| - 1], n);
    }
  }

  /** The filter keeps one name per entry of `view` below `|names|` (entries assumed distinct). */
  lemma {:induction false} SelectedNamesLength(names: seq<string>, view: seq<nat>)
    requires Distinct(view)
    ensures |SelectedNames(names, view)| == CountBelow(view, |names|)
  {
    if |names| == 0 {
      if |view| > 0 { CountBelowZero(view); }
    } else {
      SelectedNamesLength(names[..|names| - 1], view);
      CountBelowStep(view, |names| - 1);
    }
  }

  lemma {:induction false} CountBelowZero(view: seq<nat>)
    ensures CountBelow(view, 0) == 0
  {
    if |view| > 0 { CountBelowZero(view[..|view| - 1]); }
  }

  /**
   * For a selection with no repeated channel and only valid channels (what the channel
   * checkboxes produce) the viewer has one signal per selected channel, so the buffer width
   * `n_signals` agrees with the width of `chunk[:, indices]`.
   */
  lemma NamesMatchIndices(names: seq<string>, view: seq<nat>)
    requires Distinct(view) && InRange(view, |names|)
    ensures |SelectedNames(names, view)| == |view|
  {
    SelectedNamesLength(names, view);
    CountBelowAll(view, |names|);
  }

  /** No name is kept exactly when no selected position is a channel. */
  lemma NoNameKept(names: seq<string>, view: seq<nat>)
    ensures |SelectedNames(names, view)| == 0 <==> forall k :: 0 <= k < |view| ==> view[k] >= |names|
  {
    SelectedNamesInOrder(names, view);
    NoIndexKept(|names|, view);
  }

  /** No position below `n` is kept exactly when every entry of `view` is at least `n`. */
  lemma NoIndexKept(n: nat, view: seq<nat>)
    ensures |KeptIndices(n, view)| == 0 <==> forall k :: 0 <= k < |view| ==> view[k] >= n
  {
    KeptIndicesExact(n, view);
    var kept := KeptIndices(n, view);
    if |kept| > 0 {
      assert kept[0] in kept;
      var k :| 0 <= k < |view| && view[k] == kept[0];
      assert view[k] < n;
    } else {
      forall k | 0 <= k < |view|
        ensures view[k] >= n
      {
        assert view[k] in view;
      }
    }
  }

  /**
   * What the viewer constructors make of a selection: `n_signals` is the number of kept names,
   * and with none kept `indexes_to_plot` is empty, so `self.indexes_to_plot[0]` raises
   * `IndexError`. That happens exactly when no selected position is a channel.
   */
  function InitSignals(names: seq<string>, view: seq<nat>): (r: Result<nat, PyError>)
    ensures r.Err? <==> forall k :: 0 <= k < |view| ==> view[k] >= |names|
    ensures r.Err? ==> r.error == IndexError
  {
    NoNameKept(names, view);
    if |SelectedNames(names, view)| == 0 then Err(IndexError) else Ok(|SelectedNames(names, view)|)
  }

  /** An empty selection makes the constructors raise `IndexError`. */
  lemma EmptySelectionRaises(names: seq<string>)
    ensures InitSignals(names, []) == Err(IndexError)
  {
  }

  /**
   * A non-empty selection without repeats inside the channel range (what the viewers here are
   * built from) raises nothing and gives one signal per selected channel.
   */
  lemma SelectionAccepted(names: seq<string>, view: seq<nat>)
    requires |view| >= 1 && Distinct(view) && InRange(view, |names|)
    ensures InitSignals(names, view) == Ok(|view|)
  {
    NamesMatchIndices(names, view);
  }

  /**
   * The labels follow channel order while the columns follow selection order: when the
   * selection is increasing the label of column k names channel `view[k]`; otherwise they can
   * disagree (selecting channel 2, then channel 0 labels the column holding channel 2 as "a").
   */
  lemma LabelsMatchSortedSelection(names: seq<string>, view: seq<nat>)
    requires InRange(view, |names|)
    requires forall k, l :: 0 <= k < l < |view| ==> view[k] < view[l]
    ensures |SelectedNames(names, view)| == |view|
    ensures forall k :: 0 <= k < |view| ==> SelectedNames(names, view)[k] == names[view[k]]
  {
    SelectedNamesInOrder(names, view);
    var m := KeptSortedPrefix(|names|, view);
    CountBelowAll(view, |names|);
    assert view[..m] == view;
  }

  /** `view` is below `n` before position `m` and at least `n` from there on. */
  predicate SplitAt(view: seq<nat>, m: nat, n: nat) {
    && m <= |view|
    && (forall i :: 0 <= i < m ==> view[i] < n)
    && (forall i :: m <= i < |view| ==> view[i] >= n)
  }

  /** Raising the bound from `n` to `n + 1` moves the split of an increasing selection past `n` if it occurs. */
  lemma SplitStep(view: seq<nat>, m: nat, n: nat)
    requires forall k, l :: 0 <= k < l < |view| ==> view[k] < view[l]
    requires SplitAt(view, m, n)
    ensures n in view ==> m < |view| && view[m] == n && SplitAt(view, m + 1, n + 1)
    ensures n !in view ==> SplitAt(view, m, n + 1)
  {
    if n in view {
      var i :| 0 <= i < |view| && view[i] == n;
      assert i >= m;
      assert view[m] <= view[i];
    } else {
      forall i | m <= i < |view| ensures view[i] >= n + 1 {
        assert view[i] in view;
      }
    }
  }

  /** For an increasing selection, the kept positions below `n` are a prefix of the selection. */
  lemma {:induction false} KeptSortedPrefix(n: nat, view: seq<nat>) returns (m: nat)
    requires forall k, l :: 0 <= k < l < |view| ==> view[k] < view[l]
    ensures m <= |view| && KeptIndices(n, view) == view[..m] && m == CountBelow(view, n)
    ensures SplitAt(view, m, n)
  {
    if n == 0 {
      m := 0;
      CountBelowZero(view);
    } else {
      var m0 := KeptSortedPrefix(n - 1, view);
      m := KeptPrefixStep(n - 1, view, m0);
    }
  }

  /** One step of `KeptSortedPrefix`: raising the bound from `n` to `n + 1`. */
  lemma KeptPrefixStep(n: nat, view: seq<nat>, m0: nat) returns (m: nat)
    requires forall k, l :: 0 <= k < l < |view| ==> view[k] < view[l]
    requires m0 <= |view| && KeptIndices(n, view) == view[..m0] && m0 == CountBelow(view, n)
    requires SplitAt(view, m0, n)
    ensures m <= |view| && KeptIndices(n + 1, view) == view[..m] && m == CountBelow(view, n + 1)
    ensures SplitAt(view, m, n + 1)
  {
    assert Distinct(view);
    CountBelowStep(view, n);
    SplitStep(view, m0, n);
    if n in view {
      m := m0 + 1;
      assert view[..m] == view[..m0] + [view[m0]];
    } else {
      m := m0;
    }
  }

  /** The unsorted selection [2, 0] of three channels is labelled ["a", "c"]: column 0 holds "c". */
  lemma UnsortedSelectionMislabels()
    ensures SelectedNames(["a", "b", "c"], [2, 0]) == ["a", "c"]
    ensures SelectRow([10.0, 11.0, 12.0], [2, 0])[0] == Some(12.0)
  {
    var names, view := ["a", "b", "c"], [2, 0];
    assert names[..2] == ["a", "b"] && names[..2][..1] == ["a"] && names[..2][..1][..0] == [];
    assert 0 in view && 1 !in view && 2 in view;
    assert SelectedNames(names[..2][..1][..0], view) == [];
    assert SelectedNames(names[..2][..1], view) == ["a"];
    assert SelectedNames(names[..2], view) == ["a"];
  }

  // ---------------------------------------------------------------------------------------
  // The wrapping write of SignalViewer.update

  /** The display buffer after an update, and whether numpy accepted every slice assignment. */
  datatype Write = Write(rows: seq<Row>, ok: bool)

  /**
   * The slice assignments of `update` at cursor `prev`, exactly as numpy performs them:
   * the no-wrap branch writes `[prev:cur]`, the wrap branch writes `[prev:]` and then `[:cur]`
   * when `cur > 0`. A slice whose length differs from the rows assigned to it raises ValueError
   * (`ok` is false); rows already assigned stay written.
   */
  function WriteAt(buf: seq<Row>, prev: nat, sel: seq<Row>): (w: Write)
    requires prev < |buf|
    ensures |w.rows| == |buf|
  {
    var n := |buf|;
    var cur := (prev + |sel|) % n;
    if prev < cur then
      if |sel| == cur - prev then Write(buf[..prev] + sel + buf[cur..], true) else Write(buf, false)
    else if |sel| < n - prev then
      Write(buf, false)
    else
      var first := buf[..prev] + sel[..n - prev];
      if cur == 0 then Write(first, true)
      else if |sel| - (n - prev) == cur then Write(sel[n - prev..] + first[cur..], true)
      else Write(first, false)
  }

  lemma ModSmall(x: int, n: int)
    requires 0 <= x < n
    ensures x % n == x
  {
  }

  lemma ModWrap(x: int, n: int)
    requires 0 < n <= x < 2 * n
    ensures x % n == x - n
  {
    assert x == n * 1 + (x - n);
  }

  lemma ModNegative(x: int, n: int)
    requires 0 < n && -n <= x < 0
    ensures x % n == x + n
  {
    assert x == n * (-1) + (x + n);
  }

  /** The offset of slot `i` from the cursor `prev`, going forward around the window. */
  function Offset(i: int, prev: int, n: int): (d: int)
    requires 0 < n
    ensures 0 <= d < n
  {
    (i - prev) % n
  }

  /**
   * For `1 <= len(chunk) <= n_samples` the update succeeds, and the slot at forward offset
   * `d < len` from the cursor `prev` receives chunk row `d`, while every other slot keeps its
   * old row: the two branches of `update` agree on one circular write.
   */
  lemma WriteAtLands(buf: seq<Row>, prev: nat, sel: seq<Row>)
    requires prev < |buf| && 1 <= |sel| <= |buf|
    ensures WriteAt(buf, prev, sel).ok
    ensures forall i :: 0 <= i < |buf| ==>
      WriteAt(buf, prev, sel).rows[i] == (if Offset(i, prev, |buf|) < |sel| then sel[Offset(i, prev, |buf|)] else buf[i])
  {
    if prev + |sel| < |buf| {
      WriteAtLandsStraight(buf, prev, sel);
    } else {
      WriteAtLandsWrapped(buf, prev, sel);
    }
  }

  lemma WriteAtLandsStraight(buf: seq<Row>, prev: nat, sel: seq<Row>)
    requires prev < |buf| && 1 <= |sel| && prev + |sel| < |buf|
    ensures WriteAt(buf, prev, sel).ok
    ensures forall i :: 0 <= i < |buf| ==>
      WriteAt(buf, prev, sel).rows[i] == (if Offset(i, prev, |buf|) < |sel| then sel[Offset(i, prev, |buf|)] else buf[i])
  {
    var n, len := |buf|, |sel|;
    ModSmall(prev + len, n);
    var rows := buf[..prev] + sel + buf[prev + len..];
    assert WriteAt(buf, prev, sel) == Write(rows, true);
    forall i | 0 <= i < n
      ensures rows[i] == if Offset(i, prev, n) < len then sel[Offset(i, prev, n)] else buf[i]
    {
      if i < prev {
        ModNegative(i - prev, n);
      } else {
        ModSmall(i - prev, n);
      }
    }
  }

  lemma WriteAtLandsWrapped(buf: seq<Row>, prev: nat, sel: seq<Row>)
    requires prev < |buf| && |sel| <= |buf| && prev + |sel| >= |buf|
    ensures WriteAt(buf, prev, sel).ok
    ensures forall i :: 0 <= i < |buf| ==>
      WriteAt(buf, prev, sel).rows[i] == (if Offset(i, prev, |buf|) < |sel| then sel[Offset(i, prev, |buf|)] else buf[i])
  {
    var n, len := |buf|, |sel|;
    ModWrap(prev + len, n);
    var cur := prev + len - n;
    var first := buf[..prev] + sel[..n - prev];
    var rows := sel[n - prev..] + first[cur..];
    assert cur == 0 ==> rows == first;
    assert WriteAt(buf, prev, sel) == Write(rows, true);
    forall i | 0 <= i < n
      ensures rows[i] == if Offset(i, prev, n) < len then sel[Offset(i, prev, n)] else buf[i]
    {
      WrappedSlot(buf, prev, sel, i);
    }
  }

  /** One slot of a wrapped write: the tail of the chunk first, then what the first pass left. */
  lemma WrappedSlot(buf: seq<Row>, prev: nat, sel: seq<Row>, i: nat)
    requires prev < |buf| && |sel| <= |buf| && prev + |sel| >= |buf| && i < |buf|
    ensures var n := |buf|;
      var rows := sel[n - prev..] + (buf[..prev] + sel[..n - prev])[prev + |sel| - n..];
      rows[i] == if Offset(i, prev, n) < |sel| then sel[Offset(i, prev, n)] else buf[i]
  {
    var n, len := |buf|, |sel|;
    var cur := prev + len - n;
    var first := buf[..prev] + sel[..n - prev];
    var rows := sel[n - prev..] + first[cur..];
    if i < prev {
      ModNegative(i - prev, n);
      if i < cur {
        assert rows[i] == sel[n - prev + i];
      } else {
        assert rows[i] == first[i];
      }
    } else {
      ModSmall(i - prev, n);
      assert rows[i] == first[i];
    }
  }

  /** Chunk row `j` lands at slot `(prev + j) mod n`. */
  lemma WriteAtRowSlot(buf: seq<Row>, prev: nat, sel: seq<Row>, j: nat)
    requires prev < |buf| && j < |sel| <= |buf|
    ensures WriteAt(buf, prev, sel).rows[(prev + j) % |buf|] == sel[j]
  {
    var n := |buf|;
    var i := (prev + j) % n;
    WriteAtLands(buf, prev, sel);
    if prev + j < n {
      ModSmall(prev + j, n);
      ModSmall(i - prev, n);
    } else {
      ModWrap(prev + j, n);
      ModNegative(i - prev, n);
    }
    assert Offset(i, prev, n) == j;
  }

  /** Every row the write produces is an old row or a chunk row, so all keep a common width. */
  lemma WriteAtKeepsWidth(buf: seq<Row>, prev: nat, sel: seq<Row>, width: nat)
    requires prev < |buf|
    requires forall i :: 0 <= i < |buf| ==> |buf[i]| == width
    requires forall j :: 0 <= j < |sel| ==> |sel[j]| == width
    ensures forall i :: 0 <= i < |buf| ==> |WriteAt(buf, prev, sel).rows[i]| == width
  {
    var n := |buf|;
    var cur := (prev + |sel|) % n;
    if prev >= cur && |sel| >= n - prev {
      var first := buf[..prev] + sel[..n - prev];
      assert forall i :: 0 <= i < n ==> |first[i]| == width;
    }
  }

  /** A successful write of a non-empty chunk puts its first row at the old cursor. */
  lemma WriteAtCursorRow(buf: seq<Row>, prev: nat, sel: seq<Row>)
    requires prev < |buf| && 1 <= |sel| && WriteAt(buf, prev, sel).ok
    ensures WriteAt(buf, prev, sel).rows[prev] == sel[0]
  {
    if |sel| <= |buf| {
      WriteAtRowSlot(buf, prev, sel, 0);
      ModSmall(prev, |buf|);
    } else {
      WriteAtOversized(buf, prev, sel);
    }
  }

  /** An empty chunk always makes the wrap-branch assignment `y[prev:] = chunk[:n-prev]` fail. */
  lemma WriteAtRejectsEmpty(buf: seq<Row>, prev: nat)
    requires prev < |buf|
    ensures !WriteAt(buf, prev, []).ok && WriteAt(buf, prev, []).rows == buf
  {
    ModSmall(prev, |buf|);
  }

  /**
   * A chunk longer than the window succeeds only when the cursor comes back to 0; then only
   * its first `n - prev` rows are written and the rest is dropped. Otherwise the write fails,
   * after writing `[prev:]` in the wrap branch.
   */
  lemma {:induction false} WriteAtOversized(buf: seq<Row>, prev: nat, sel: seq<Row>)
    requires prev < |buf| < |sel|
    ensures WriteAt(buf, prev, sel).ok <==> (prev + |sel|) % |buf| == 0
    ensures WriteAt(buf, prev, sel).ok ==> WriteAt(buf, prev, sel).rows == buf[..prev] + sel[..|buf| - prev]
  {
    var n, len := |buf|, |sel|;
    var cur := (prev + len) % n;
    assert 0 <= cur < n;
    if prev < cur {
      assert len > cur - prev;
    } else if cur != 0 {
      assert len - (n - prev) > prev;
    }
  }

  /**
   * The slice assignments of `update` at cursor `prev`: `[prev:cur]` without wrap-around,
   * `[prev:]` and then `[:cur]` with it; a length mismatch stops at the failing assignment.
   */
  method AssignWindow(y: array<Row>, prev: nat, sel: seq<Row>) returns (ok: bool)
    requires prev < y.Length
    modifies y
    ensures y[..] == WriteAt(old(y[..]), prev, sel).rows
    ensures ok == WriteAt(old(y[..]), prev, sel).ok
  {
    var n := y.Length;
    var cur := (prev + |sel|) % n;
    ghost var before := y[..];
    if prev < cur {
      if |sel| != cur - prev {
        return false;
      }
      forall i | prev <= i < cur {
        y[i] := sel[i - prev];
      }
      assert y[..] == before[..prev] + sel + before[cur..];
    } else {
      if |sel| < n - prev {
        return false;
      }
      forall i | prev <= i < n {
        y[i] := sel[i - prev];
      }
      ghost var first := before[..prev] + sel[..n - prev];
      assert y[..] == first;
      if cur > 0 {
        if |sel| - (n - prev) != cur {
          return false;
        }
        forall i | 0 <= i < cur {
          y[i] := sel[n - prev + i];
        }
        assert y[..] == sel[n - prev..] + first[cur..];
      }
    }
    ok := true;
  }

  // ---------------------------------------------------------------------------------------
  // The way a curve is drawn

  /** Column `c` of the window (one channel over every slot). */
  function Column(rows: seq<Row>, c: nat): (col: seq<Option<real>>)
    requires forall i :: 0 <= i < |rows| ==> c < |rows[i]|
    ensures |col| == |rows|
  {
    seq(|rows|, i requires 0 <= i < |rows| => rows[i][c])
  }

  /** `np.isfinite(y) | (x_stamps < current_pos)`: whether pyqtgraph joins point i to the next. */
  function ConnectMask(y: seq<Option<real>>, cur: nat): (mask: seq<bool>)
    ensures |mask| == |y|
  {
    seq(|y|, i requires 0 <= i < |y| => y[i].Some? || i < cur)
  }

  /** Every slot the update has just filled is drawn connected, in every viewed channel. */
  lemma WrittenSlotsConnected(buf: seq<Row>, prev: nat, sel: seq<Row>, c: nat, i: nat)
    requires prev < |buf| && 1 <= |sel| <= |buf|
    requires forall s :: 0 <= s < |buf| ==> c < |buf[s]|
    requires forall j :: 0 <= j < |sel| ==> c < |sel[j]| && sel[j][c].Some?
    requires i < |buf| && Offset(i, prev, |buf|) < |sel|
    ensures forall s :: 0 <= s < |buf| ==> c < |WriteAt(buf, prev, sel).rows[s]|
    ensures ConnectMask(Column(WriteAt(buf, prev, sel).rows, c), (prev + |sel|) % |buf|)[i]
  {
    WriteAtLands(buf, prev, sel);
  }

  /** A window in which every value is the NaN sentinel. */
  predicate AllNaN(rows: seq<Row>) {
    forall i, c :: 0 <= i < |rows| && 0 <= c < |rows[i]| ==> rows[i][c].None?
  }

  /** A NaN slot past the cursor is never connected: gaps stay visible. */
  lemma NaNAfterCursorNotConnected(y: seq<Option<real>>, cur: nat, i: nat)
    requires cur <= i < |y| && y[i].None?
    ensures !ConnectMask(y, cur)[i]
  {
  }

  // ---------------------------------------------------------------------------------------
  // Scaling statistics of the raw (stacked) view: np.nanmean, scipy's iqr with rng=(0, 100)

  function NanSum(col: seq<Option<real>>): real
    decreases |col|
  {
    if |col| == 0 then 0.0 else NanSum(col[..|col| - 1]) + col[|col| - 1].GetOr(0.0)
  }

  function NanCount(col: seq<Option<real>>): nat
    decreases |col|
  {
    if |col| == 0 then 0 else NanCount(col[..|col| - 1]) + (if col[|col| - 1].Some? then 1 else 0)
  }

  /** `np.nanmean`: the mean of the finite entries, NaN when there are none. */
  function NanMean(col: seq<Option<real>>): (r: Option<real>)
    ensures r.Some? <==> NanMax(col).Some?
  {
    if NanCount(col) == 0 then None else Some(NanSum(col) / NanCount(col) as real)
  }

  function NanMax(col: seq<Option<real>>): (r: Option<real>)
    ensures r.Some? <==> NanCount(col) > 0
    decreases |col|
  {
    if |col| == 0 then None
    else
      var m := NanMax(col[..|col| - 1]);
      match col[|col| - 1]
      case None => m
      case Some(v) => if m.Some? && m.value >= v then m else Some(v)
  }

  function NanMin(col: seq<Option<real>>): (r: Option<real>)
    ensures r.Some? <==> NanCount(col) > 0
    decreases |col|
  {
    if |col| == 0 then None
    else
      var m := NanMin(col[..|col| - 1]);
      match col[|col| - 1]
      case None => m
      case Some(v) => if m.Some? && m.value <= v then m else Some(v)
  }

  /** `stats.iqr(col, rng=(0, 100), nan_policy='omit')`: the spread from the 0th to the 100th percentile. */
  function NanRange(col: seq<Option<real>>): Option<real> {
    if NanMax(col).Some? && NanMin(col).Some? then Some(NanMax(col).value - NanMin(col).value) else None
  }

  /** Maximum and minimum exist together, and the maximum is never below the minimum. */
  lemma {:induction false} NanMaxAtLeastMin(col: seq<Option<real>>)
    ensures NanMax(col).Some? <==> NanMin(col).Some?
    ensures NanMax(col).Some? ==> NanMax(col).value >= NanMin(col).value
  {
    if |col| > 0 { NanMaxAtLeastMin(col[..|col| - 1]); }
  }

  /** The full-range IQR is NaN or non-negative, so the clamp only ever meets zero. */
  lemma NanRangeNonNegative(col: seq<Option<real>>)
    ensures NanRange(col).Some? ==> NanRange(col).value >= 0.0
  {
    NanMaxAtLeastMin(col);
  }

  /** `iqr[iqr <= 0] = 1`: a non-positive spread becomes 1; NaN (never <= 0) is left alone. */
  function ClampIqr(q: Option<real>): (r: Option<real>)
    ensures r.Some? ==> r.value > 0.0
    ensures r.None? <==> q.None?
    ensures q.Some? && q.value > 0.0 ==> r == q
  {
    if q.Some? && q.value <= 0.0 then Some(1.0) else q
  }

  /** A channel whose finite samples all equal one value has mean that value and clamped IQR 1. */
  lemma {:induction false} ConstantChannelStats(col: seq<Option<real>>, v: real)
    requires |col| > 0 && forall i :: 0 <= i < |col| ==> col[i] == Some(v)
    ensures NanMax(col) == Some(v) && NanMin(col) == Some(v)
    ensures ClampIqr(NanRange(col)) == Some(1.0)
    ensures NanMean(col) == Some(v)
  {
    ConstantSumCount(col, v);
    var len := |col| as real;
    assert len * v / len == v;
    assert NanSum(col) / NanCount(col) as real == v;
    if |col| > 1 { ConstantChannelStats(col[..|col| - 1], v); }
  }

  lemma {:induction false} ConstantSumCount(col: seq<Option<real>>, v: real)
    requires forall i :: 0 <= i < |col| ==> col[i] == Some(v)
    ensures NanCount(col) == |col| && NanSum(col) == |col| as real * v
  {
    if |col| > 0 { ConstantSumCount(col[..|col| - 1], v); }
  }

  /** `(y - mean) / iqr` for one value: finite only when all three are finite and iqr is non-zero. */
  function Scale(y: Option<real>, m: Option<real>, q: Option<real>): (r: Option<real>)
    ensures r.Some? <==> y.Some? && m.Some? && q.Some? && q.value != 0.0
  {
    if y.Some? && m.Some? && q.Some? && q.value != 0.0 then Some((y.value - m.value) / q.value) else None
  }
  /** Multiplying by a non-negative factor keeps the order. */
  lemma MulMonotone(c: real, x: real, y: real)
    requires c >= 0.0 && x <= y
    ensures c * x <= c * y
  {
  }

  /** Every finite entry lies between the minimum and the maximum. */
  lemma EntryWithinRange(col: seq<Option<real>>, k: nat)
    requires k < |col| && col[k].Some?
    ensures NanMin(col).Some? && NanMax(col).Some?
    ensures NanMin(col).value <= col[k].value <= NanMax(col).value
  {
    EntryAboveMin(col, k);
    EntryBelowMax(col, k);
  }

  lemma {:induction false} EntryAboveMin(col: seq<Option<real>>, k: nat)
    requires k < |col| && col[k].Some?
    ensures NanMin(col).Some? && NanMin(col).value <= col[k].value
  {
    var init := col[..|col| - 1];
    if k < |col| - 1 {
      assert init[k] == col[k];
      EntryAboveMin(init, k);
    }
  }

  lemma {:induction false} EntryBelowMax(col: seq<Option<real>>, k: nat)
    requires k < |col| && col[k].Some?
    ensures NanMax(col).Some? && col[k].value <= NanMax(col).value
  {
    var init := col[..|col| - 1];
    if k < |col| - 1 {
      assert init[k] == col[k];
      EntryBelowMax(init, k);
    }
  }

  /** Without finite entries the sum is zero. */
  lemma {:induction false} NanSumNoEntries(col: seq<Option<real>>)
    requires NanCount(col) == 0
    ensures NanSum(col) == 0.0
  {
    if |col| > 0 { NanSumNoEntries(col[..|col| - 1]); }
  }

  /** When every finite entry is at least `lo`, the sum is at least count * lo. */
  lemma {:induction false} NanSumAbove(col: seq<Option<real>>, lo: real)
    requires forall k :: 0 <= k < |col| && col[k].Some? ==> lo <= col[k].value
    ensures NanCount(col) as real * lo <= NanSum(col)
  {
    if |col| > 0 {
      var init, last := col[..|col| - 1], col[|col| - 1];
      assert forall k :: 0 <= k < |init| ==> init[k] == col[k];
      NanSumAbove(init, lo);
      var c, t := NanCount(init) as real, NanSum(init);
      assert NanSum(col) == t + last.GetOr(0.0);
      if last.Some? {
        assert NanCount(col) as real == c + 1.0;
        assert (c + 1.0) * lo == c * lo + lo;
      } else {
        assert NanCount(col) as real == c;
      }
    }
  }

  /** When every finite entry is at most `hi`, the sum is at most count * hi. */
  lemma {:induction false} NanSumBelow(col: seq<Option<real>>, hi: real)
    requires forall k :: 0 <= k < |col| && col[k].Some? ==> col[k].value <= hi
    ensures NanSum(col) <= NanCount(col) as real * hi
  {
    if |col| > 0 {
      var init, last := col[..|col| - 1], col[|col| - 1];
      assert forall k :: 0 <= k < |init| ==> init[k] == col[k];
      NanSumBelow(init, hi);
      var c, t := NanCount(init) as real, NanSum(init);
      assert NanSum(col) == t + last.GetOr(0.0);
      if last.Some? {
        assert NanCount(col) as real == c + 1.0;
        assert (c + 1.0) * hi == c * hi + hi;
      } else {
        assert NanCount(col) as real == c;
      }
    }
  }

  /** `np.nanmean` is at least the smallest finite entry. */
  lemma NanMeanAboveMin(col: seq<Option<real>>)
    requires NanMean(col).Some?
    ensures NanMin(col).Some? && NanMin(col).value <= NanMean(col).value
  {
    var lo := NanMin(col).value;
    forall k | 0 <= k < |col| && col[k].Some? ensures lo <= col[k].value {
      EntryAboveMin(col, k);
    }
    NanSumAbove(col, lo);
    DivLower(NanSum(col), NanCount(col) as real, lo);
  }

  /** `np.nanmean` is at most the largest finite entry. */
  lemma NanMeanBelowMax(col: seq<Option<real>>)
    requires NanMean(col).Some?
    ensures NanMax(col).Some? && NanMean(col).value <= NanMax(col).value
  {
    var hi := NanMax(col).value;
    forall k | 0 <= k < |col| && col[k].Some? ensures col[k].value <= hi {
      EntryBelowMax(col, k);
    }
    NanSumBelow(col, hi);
    DivUpper(NanSum(col), NanCount(col) as real, hi);
  }

  /** `np.nanmean` lies between the smallest and the largest finite entry. */
  lemma NanMeanWithinRange(col: seq<Option<real>>)
    requires NanMean(col).Some?
    ensures NanMin(col).Some? && NanMax(col).Some?
    ensures NanMin(col).value <= NanMean(col).value <= NanMax(col).value
  {
    NanMeanAboveMin(col);
    NanMeanBelowMax(col);
  }

  lemma DivLower(s: real, c: real, lo: real)
    requires c > 0.0 && c * lo <= s
    ensures lo <= s / c
  {
    var q := s / c;
    assert s == c * q;
  }

  lemma DivUpper(s: real, c: real, hi: real)
    requires c > 0.0 && s <= c * hi
    ensures s / c <= hi
  {
    var q := s / c;
    assert s == c * q;
  }

  /** A quotient by a positive divisor keeps bounds that hold after multiplying. */
  lemma DivBounds(s: real, c: real, lo: real, hi: real)
    requires c > 0.0 && c * lo <= s <= c * hi
    ensures lo <= s / c <= hi
  {
    var q := s / c;
    assert s == c * q;
  }

  /**
   * Right after a statistics refresh every finite scaled sample of a channel lies in
   * [-1, 1]: the stacked view keeps each trace within one unit of its lane.
   */
  lemma ScaledWithinLane(col: seq<Option<real>>, k: nat)
    requires k < |col| && col[k].Some?
    ensures Scale(col[k], NanMean(col), ClampIqr(NanRange(col))).Some?
    ensures -1.0 <= Scale(col[k], NanMean(col), ClampIqr(NanRange(col))).value <= 1.0
  {
    EntryWithinRange(col, k);
    NanMeanWithinRange(col);
    NanRangeNonNegative(col);
    var y, m, lo, hi := col[k].value, NanMean(col).value, NanMin(col).value, NanMax(col).value;
    var r := hi - lo;
    if r > 0.0 {
      DivBounds(y - m, r, -1.0, 1.0);
    }
  }

  // ---------------------------------------------------------------------------------------
  // Shape of a viewer, its x mesh, its y-axis ticks and its channel-group cursor

  /** What the constructor fixes: window length, the kept channel names and the viewed indices. */
  datatype Layout = Layout(nSamples: nat, seconds: real, names: seq<string>, indices: seq<nat>)

  /** What one call of `update` puts on screen, or the exception it raises. */
  datatype Drawing =
    | Drawn(curves: seq<seq<Option<real>>>, masks: seq<seq<bool>>, lineX: real)
    | Raised(error: PyError)

  /** `int(fs * seconds_to_plot)` for a non-negative product. */
  function NSamples(fs: real, seconds: real): (n: nat)
    requires fs * seconds >= 0.0
    ensures n as real <= fs * seconds < n as real + 1.0
  {
    (fs * seconds).Floor
  }

  /** `np.linspace(0, seconds, n)[k]`: the x position of slot k. */
  function XMesh(l: Layout, k: nat): (x: real)
    requires k < l.nSamples
    ensures l.seconds >= 0.0 ==> 0.0 <= x <= l.seconds
  {
    if l.nSamples == 1 then 0.0
    else
      MeshStepBound(l.seconds, l.nSamples, k);
      k as real * (l.seconds / (l.nSamples - 1) as real)
  }

  lemma MeshStepBound(seconds: real, n: nat, k: nat)
    requires 2 <= n && k < n
    ensures seconds >= 0.0 ==> 0.0 <= k as real * (seconds / (n - 1) as real) <= seconds
  {
    var step := seconds / (n - 1) as real;
    if seconds >= 0.0 {
      assert step * (n - 1) as real == seconds;
      MulMonotone(step, k as real, (n - 1) as real);
      MulMonotone(k as real, 0.0, step);
    }
  }

  /** A window of `n` slots of `width` NaNs. */
  function NaNRows(n: nat, width: nat): (rows: seq<Row>)
    ensures |rows| == n && AllNaN(rows)
    ensures forall i :: 0 <= i < n ==> |rows[i]| == width
  {
    seq(n, i => seq(width, c => None))
  }

  /** The `connect` argument of each curve. */
  function Masks(curves: seq<seq<Option<real>>>, cur: nat): (ms: seq<seq<bool>>)
    ensures |ms| == |curves|
  {
    seq(|curves|, i requires 0 <= i < |curves| => ConnectMask(curves[i], cur))
  }

  /** `(current_indexes_ind + direction) % len(indexes_to_plot)` with Python's floored modulo. */
  function NextGroup(group: nat, direction: int, count: nat): (g: nat)
    requires count >= 1
    ensures g < count
  {
    (group + direction) % count
  }

  /** The y-axis ticks of `reset_labels`: tick k + 1 is labelled with the name of channel `group + k`. */
  function Ticks(l: Layout, group: nat): (ts: seq<(nat, string)>)
    requires group < |l.names|
    ensures |ts| == |l.names| - group
    ensures forall k :: 0 <= k < |ts| ==> ts[k] == (k + 1, l.names[group + k])
  {
    seq(|l.names| - group, k requires 0 <= k < |l.names| - group => (k + 1, l.names[group + k]))
  }

  /**
   * The labels name the data: for an increasing selection, made by the constructor, tick k of
   * group g names the channel whose samples fill column g + k, the one curve k draws.
   */
  lemma TicksNameDrawnChannels(allNames: seq<string>, view: seq<nat>, n: nat, seconds: real, g: nat, k: nat)
    requires InRange(view, |allNames|) && g < |view| && k < |view| - g
    requires forall a, b :: 0 <= a < b < |view| ==> view[a] < view[b]
    ensures |SelectedNames(allNames, view)| == |view|
    ensures var l := Layout(n, seconds, SelectedNames(allNames, view), view);
      Ticks(l, g)[k] == (k + 1, allNames[view[g + k]])
      && forall sample: seq<real> :: |sample| == |allNames| ==> SelectRow(sample, view)[g + k] == Some(sample[view[g + k]])
  {
    LabelsMatchSortedSelection(allNames, view);
  }

  /** Moving one group forward and one back restores the group, for any number of groups. */
  lemma NextGroupInverse(group: nat, direction: int, count: nat)
    requires group < count
    ensures NextGroup(NextGroup(group, direction, count), -direction, count) == group
  {
    var a := NextGroup(group, direction, count);
    var q := (group + direction) / count;
    assert group + direction == q * count + a;
    Arith.ModUnique(a - direction, -q, count, group);
  }
}
