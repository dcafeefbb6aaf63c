/**
 * The raw signal viewer of application/Widgets/SignalViewer_copy.py: the same circular
 * display window as SignalViewer.py, but drawn unscaled (its `prepare_y_data` override is
 * commented out), with the current cursor and x position kept as attributes and an
 * `update(chunk, setX, setPos)` override guarded by a `pos` attribute that stays 0.
 */
module SignalViewerCopy {
  import opened Wrappers
  import opened WindowSpec

  /**
   * The mutable part of the copy's viewer. `currentPos` and `currentX` are `None` until the
   * first update assigns the attributes.
   */
  datatype Screen = Screen(rows: seq<Row>, previousPos: nat, pos: int, currentPos: Option<int>, currentX: Option<real>, group: nat)

  /** The invariant every state of the copy's viewer keeps. */
  predicate Consistent(l: Layout, s: Screen) {
    && |l.names| >= 1 && |l.indices| == |l.names|
    && |s.rows| == l.nSamples
    && (l.nSamples == 0 ==> s.previousPos == 0)
    && (l.nSamples > 0 ==> s.previousPos < l.nSamples)
    && (forall i :: 0 <= i < |s.rows| ==> |s.rows[i]| == |l.names|)
    && s.pos == 0
    && s.group < |l.names|
  }

  /** Python truthiness of an optional integer argument. */
  predicate IntTruthy(x: Option<int>) {
    x.Some? && x.value != 0
  }

  /** Python truthiness of an optional real argument. */
  predicate RealTruthy(x: Option<real>) {
    x.Some? && x.value != 0.0
  }

  /** `y_data = y_raw_buffer`: curve i draws column i unscaled. */
  function RawCurves(rows: seq<Row>, width: nat): (cs: seq<seq<Option<real>>>)
    requires forall i :: 0 <= i < |rows| ==> |rows[i]| == width
    ensures |cs| == width && forall i :: 0 <= i < width ==> |cs[i]| == |rows|
  {
    seq(width, i requires 0 <= i < width => Column(rows, i))
  }

  /**
   * `update(chunk)` of the copy as (new state, drawing). The cursor attributes are set before
   * the slice assignments, so they already hold the new cursor when an assignment raises.
   */
  function UpdateSpec(l: Layout, s: Screen, chunk: Chunk, width: nat): (r: (Screen, Drawing))
    requires Consistent(l, s) && Fits(chunk, width)
    ensures r.1.Raised? ==> r.0.previousPos == s.previousPos
    ensures r.1.Drawn? ==> r.0.previousPos < l.nSamples && r.0.currentPos == Some(r.0.previousPos)
  {
    var n := l.nSamples;
    if n == 0 then (s, Raised(ZeroDivisionError))
    else
      var cur := (s.previousPos + |chunk|) % n;
      var s1 := s.(currentPos := Some(cur), currentX := Some(XMesh(l, cur)));
      if |l.indices| == 0 || !InRange(l.indices, width) then (s1, Raised(IndexError))
      else
        var w := WriteAt(s.rows, s.previousPos, SelectRows(chunk, l.indices, width));
        if !w.ok then (s1.(rows := w.rows), Raised(ValueError))
        else
          var curves := RawCurves(w.rows, |l.names|);
          (s1.(rows := w.rows, previousPos := cur), Drawn(curves, Masks(curves, cur), XMesh(l, cur)))
  }

  /** Every update keeps the invariant of the copy's viewer. */
  lemma UpdateKeepsConsistent(l: Layout, s: Screen, chunk: Chunk, width: nat)
    requires Consistent(l, s) && Fits(chunk, width)
    ensures Consistent(l, UpdateSpec(l, s, chunk, width).0)
  {
    if l.nSamples > 0 && InRange(l.indices, width) {
      WriteAtKeepsWidth(s.rows, s.previousPos, SelectRows(chunk, l.indices, width), |l.names|);
    }
  }

  /**
   * The copy raises exactly where SignalViewer.py raises; every call that gets past the
   * modulo leaves `current_pos` at `(previous_pos + len(chunk)) mod n_samples`, and
   * `previous_pos` moves only on success.
   */
  lemma UpdateRaisesExactly(l: Layout, s: Screen, chunk: Chunk, width: nat)
    requires Consistent(l, s) && Fits(chunk, width)
    ensures var (s', d) := UpdateSpec(l, s, chunk, width);
      && (d == Raised(ZeroDivisionError) <==> l.nSamples == 0)
      && (d == Raised(IndexError) <==> l.nSamples > 0 && !InRange(l.indices, width))
      && (d == Raised(ValueError) <==>
            l.nSamples > 0 && InRange(l.indices, width) &&
            (|chunk| == 0 || (|chunk| > l.nSamples && (s.previousPos + |chunk|) % l.nSamples != 0)))
      && (l.nSamples > 0 ==> s'.currentPos == Some((s.previousPos + |chunk|) % l.nSamples))
      && (d.Raised? ==> s'.previousPos == s.previousPos)
      && (d.Drawn? ==> s'.previousPos == (s.previousPos + |chunk|) % l.nSamples)
  {
    var n := l.nSamples;
    if n > 0 && InRange(l.indices, width) {
      var sel := SelectRows(chunk, l.indices, width);
      if |chunk| == 0 {
        WriteAtRejectsEmpty(s.rows, s.previousPos);
      } else if |chunk| <= n {
        WriteAtLands(s.rows, s.previousPos, sel);
      } else {
        WriteAtOversized(s.rows, s.previousPos, sel);
      }
    }
  }

  /**
   * For 1 to `n_samples` samples the copy draws, chunk sample d lands at forward offset d
   * from the old cursor and every other slot keeps its row.
   */
  lemma UpdateWritesChunk(l: Layout, s: Screen, chunk: Chunk, width: nat)
    requires Consistent(l, s) && Fits(chunk, width)
    requires InRange(l.indices, width) && 1 <= |chunk| <= l.nSamples
    ensures var (s', d) := UpdateSpec(l, s, chunk, width);
      && d.Drawn?
      && forall i :: 0 <= i < l.nSamples ==>
           s'.rows[i] == if Offset(i, s.previousPos, l.nSamples) < |chunk|
                         then SelectRow(chunk[Offset(i, s.previousPos, l.nSamples)], l.indices)
                         else s.rows[i]
  {
    WriteAtLands(s.rows, s.previousPos, SelectRows(chunk, l.indices, width));
  }

  /**
   * The copy draws the raw window: point r of curve i is slot r of channel column i, and it
   * is connected exactly when it is finite or lies before the new cursor.
   */
  lemma DrawnCurvesAreRawColumns(l: Layout, s: Screen, chunk: Chunk, width: nat, i: nat, r: nat)
    requires Consistent(l, s) && Fits(chunk, width)
    requires UpdateSpec(l, s, chunk, width).1.Drawn? && i < |l.names| && r < l.nSamples
    ensures var (s', d) := UpdateSpec(l, s, chunk, width);
      && |s'.rows[r]| == |l.names|
      && d.curves[i][r] == s'.rows[r][i]
      && (d.masks[i][r] <==> s'.rows[r][i].Some? || r < s'.previousPos)
  {
    UpdateKeepsConsistent(l, s, chunk, width);
  }

  class RawSignalViewer {
    const layout: Layout
    /** `y_raw_buffer`, one row per slot. */
    const y: array<Row>
    var previousPos: nat
    var pos: int
    var currentPos: Option<int>
    var currentX: Option<real>
    var currentIndexesInd: nat

    ghost function State(): Screen
      reads this, y
    {
      Screen(y[..], previousPos, pos, currentPos, currentX, currentIndexesInd)
    }

    ghost predicate Valid()
      reads this, y
    {
      Consistent(layout, State())
    }

    /** `RawSignalViewer(fs, names, view_channels, seconds_to_plot)` of the copy. */
    constructor (fs: real, seconds: real, allNames: seq<string>, view: seq<nat>)
      requires fs * seconds >= 0.0
      requires |view| >= 1 && Distinct(view) && InRange(view, |allNames|)
      ensures Valid() && fresh(y)
      ensures layout == Layout(NSamples(fs, seconds), seconds, SelectedNames(allNames, view), view)
      ensures State() == Screen(NaNRows(NSamples(fs, seconds), |view|), 0, 0, None, None, 0)
    {
      var kept := FilterNames(allNames, view);
      NamesMatchIndices(allNames, view);
      var n := NSamples(fs, seconds);
      layout := Layout(n, seconds, kept, view);
      y := new Row[n](i => seq(|kept|, c => None));
      previousPos := 0;
      pos := 0;
      currentPos := None;
      currentX := None;
      currentIndexesInd := 0;
      new;
      assert y[..] == NaNRows(n, |view|);
    }

    /**
     * `update(chunk, setX, setPos)`. The override branch needs `pos != 0`, which no state
     * of the viewer has, so whatever `setX` and `setPos` are the call behaves as `update(chunk)`.
     */
    method Update(chunk: Chunk, width: nat, setX: Option<real>, setPos: Option<int>) returns (out: Drawing)
      requires Valid() && Fits(chunk, width)
      modifies this, y
      ensures Valid()
      ensures (State(), out) == UpdateSpec(layout, old(State()), chunk, width)
    {
      ghost var s0 := State();
      UpdateKeepsConsistent(layout, s0, chunk, width);
      var n := layout.nSamples;
      if n == 0 {
        return Raised(ZeroDivisionError);
      }
      var cur := (previousPos + |chunk|) % n;
      if RealTruthy(setX) && IntTruthy(setPos) && pos != 0 {
        // the override (x and cursor taken from the arguments, `pos` reset) cannot run
        assert false;
      } else {
        currentX := Some(XMesh(layout, cur));
        currentPos := Some((previousPos + |chunk|) % n);
      }
      var indices := layout.indices;
      if |indices| == 0 || !InRange(indices, width) {
        return Raised(IndexError);
      }
      var sel := SelectRows(chunk, indices, width);
      var ok := AssignWindow(y, previousPos, sel);
      if !ok {
        return Raised(ValueError);
      }
      var curves := RawCurves(y[..], |layout.names|);
      out := Drawn(curves, Masks(curves, cur), XMesh(layout, cur));
      previousPos := currentPos.GetOr(0);
    }

    /** `reset_buffer`: every slot becomes NaN and nothing else changes. */
    method ResetBuffer()
      requires Valid()
      modifies y
      ensures Valid()
      ensures State() == old(State()).(rows := NaNRows(layout.nSamples, |layout.names|))
    {
      forall i | 0 <= i < y.Length {
        y[i] := seq(|layout.names|, c => None);
      }
      assert y[..] == NaNRows(layout.nSamples, |layout.names|);
    }

    /**
     * `next_channels_group(direction)`: clear the window and move the group index modulo the
     * group count. Only the tick labels follow the group; the copy's curves are still columns
     * 0, 1, ... of the window.
     */
    method NextChannelsGroup(direction: int)
      requires Valid()
      modifies this, y
      ensures Valid()
      ensures State() == old(State()).(rows := NaNRows(layout.nSamples, |layout.names|),
                                       group := NextGroup(old(currentIndexesInd), direction, |layout.names|))
    {
      forall i | 0 <= i < y.Length {
        y[i] := seq(|layout.names|, c => None);
      }
      assert y[..] == NaNRows(layout.nSamples, |layout.names|);
      currentIndexesInd := (currentIndexesInd + direction) % |layout.names|;
    }

    /** The labels `reset_labels` puts on the y axis for the current group. */
    function Labels(): (ts: seq<(nat, string)>)
      requires Valid()
      reads this, y
      ensures |ts| == |layout.names| - currentIndexesInd
    {
      Ticks(layout, currentIndexesInd)
    }
  }
}
