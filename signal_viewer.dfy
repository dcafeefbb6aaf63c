/**
 * The raw (stacked) signal viewer of SignalViewer.py: a circular display window of
 * `n_samples` slots, written chunk by chunk at a running cursor, scaled per channel by
 * statistics refreshed every third of a window, and drawn one curve per channel from the
 * current channel group on; plus the `runSignal` driver that pulls chunks on a timer.
 */
module SignalViewer {
  import opened Wrappers
  import opened WindowSpec

  /** The mutable part of a viewer: window rows, cursor, stats counter, scaling stats, group. */
  datatype Screen = Screen(rows: seq<Row>, pos: nat, counter: nat, mean: seq<Option<real>>, iqr: seq<Option<real>>, group: nat)

  /**
   * After a refresh computed on a window holding a fully finite row, every channel has a
   * finite mean and a finite, positive spread.
   */
  lemma RefreshedStatsFinite(rows: seq<Row>, width: nat, r: nat)
    requires forall i :: 0 <= i < |rows| ==> |rows[i]| == width
    requires r < |rows| && forall c :: 0 <= c < width ==> rows[r][c].Some?
    ensures forall c :: 0 <= c < width ==> ColumnMeans(rows, width)[c].Some?
    ensures forall c :: 0 <= c < width ==> ColumnIqrs(rows, width)[c].Some? && ColumnIqrs(rows, width)[c].value > 0.0
  {
    forall c | 0 <= c < width
      ensures ColumnMeans(rows, width)[c].Some?
      ensures ColumnIqrs(rows, width)[c].Some? && ColumnIqrs(rows, width)[c].value > 0.0
    {
      var col := Column(rows, c);
      EntryWithinRange(col, r);
    }
  }

  /** The invariant every viewer state keeps. */
  predicate Consistent(l: Layout, s: Screen) {
    && |l.names| >= 1 && |l.indices| == |l.names|
    && |s.rows| == l.nSamples
    && (l.nSamples == 0 ==> s.pos == 0)
    && (l.nSamples > 0 ==> s.pos < l.nSamples)
    && (forall i :: 0 <= i < |s.rows| ==> |s.rows[i]| == |l.names|)
    && |s.mean| == |l.names| && |s.iqr| == |l.names|
    && (forall c :: 0 <= c < |s.mean| ==> s.mean[c].Some?)
    && (forall c :: 0 <= c < |s.iqr| ==> s.iqr[c].Some? && s.iqr[c].value > 0.0)
    && s.counter <= l.nSamples / 3
    && s.group < |l.names|
  }

  /** `np.nanmean(y_raw_buffer, 0)`. */
  function ColumnMeans(rows: seq<Row>, width: nat): (m: seq<Option<real>>)
    requires forall i :: 0 <= i < |rows| ==> |rows[i]| == width
    ensures |m| == width
  {
    seq(width, c requires 0 <= c < width => NanMean(Column(rows, c)))
  }

  /** `stats.iqr(y_raw_buffer, 0, rng=(0, 100), nan_policy='omit')` followed by `iqr[iqr <= 0] = 1`. */
  function ColumnIqrs(rows: seq<Row>, width: nat): (q: seq<Option<real>>)
    requires forall i :: 0 <= i < |rows| ==> |rows[i]| == width
    ensures |q| == width
  {
    seq(width, c requires 0 <= c < width => ClampIqr(NanRange(Column(rows, c))))
  }

  /** One curve per signal: curve i shows channel `group + i` scaled, or NaN past the last channel. */
  function Curves(rows: seq<Row>, mean: seq<Option<real>>, iqr: seq<Option<real>>, group: nat, width: nat): (cs: seq<seq<Option<real>>>)
    requires forall i :: 0 <= i < |rows| ==> |rows[i]| == width
    requires |mean| == width && |iqr| == width
    ensures |cs| == width && forall i :: 0 <= i < width ==> |cs[i]| == |rows|
  {
    seq(width, i requires 0 <= i < width =>
      if group + i < width then
        seq(|rows|, r requires 0 <= r < |rows| => Scale(rows[r][group + i], mean[group + i], iqr[group + i]))
      else
        seq(|rows|, r => None))
  }

  /**
   * `RawSignalViewer.update(chunk)` for a `width`-channel chunk, as (new state, drawing):
   * the cursor modulo, the column selection, the slice assignments, `prepare_y_data` and the
   * curves with their connect masks. An exception leaves everything but the rows already
   * assigned unchanged.
   */
  function UpdateSpec(l: Layout, s: Screen, chunk: Chunk, width: nat): (r: (Screen, Drawing))
    requires Consistent(l, s) && Fits(chunk, width)
    ensures r.1.Raised? ==> r.0 == s.(rows := r.0.rows)
    ensures r.1.Drawn? ==> r.0.pos < l.nSamples && r.0.counter <= l.nSamples / 3 && r.0.group == s.group
  {
    var n := l.nSamples;
    if n == 0 then (s, Raised(ZeroDivisionError))
    else if |l.indices| == 0 || !InRange(l.indices, width) then (s, Raised(IndexError))
    else
      var w := WriteAt(s.rows, s.pos, SelectRows(chunk, l.indices, width));
      if !w.ok then (s.(rows := w.rows), Raised(ValueError))
      else
        var cur := (s.pos + |chunk|) % n;
        var counter := s.counter + |chunk|;
        var refresh := counter > n / 3;
        var mean := if refresh then ColumnMeans(w.rows, |l.names|) else s.mean;
        var iqr := if refresh then ColumnIqrs(w.rows, |l.names|) else s.iqr;
        var curves := Curves(w.rows, mean, iqr, s.group, |l.names|);
        (Screen(w.rows, cur, if refresh then 0 else counter, mean, iqr, s.group),
         Drawn(curves, Masks(curves, cur), XMesh(l, cur)))
  }

  /** Every update, successful or not, keeps the viewer invariant. */
  lemma UpdateKeepsConsistent(l: Layout, s: Screen, chunk: Chunk, width: nat)
    requires Consistent(l, s) && Fits(chunk, width)
    ensures Consistent(l, UpdateSpec(l, s, chunk, width).0)
  {
    var n := l.nSamples;
    if n > 0 && |l.indices| > 0 && InRange(l.indices, width) {
      var sel := SelectRows(chunk, l.indices, width);
      var w := WriteAt(s.rows, s.pos, sel);
      WriteAtKeepsWidth(s.rows, s.pos, sel, |l.names|);
      if w.ok && s.counter + |chunk| > n / 3 {
        if |chunk| == 0 {
          WriteAtRejectsEmpty(s.rows, s.pos);
        }
        WriteAtCursorRow(s.rows, s.pos, sel);
        RefreshedStatsFinite(w.rows, |l.names|, s.pos);
      }
    }
  }

  /**
   * When `update` raises, and which exception: ZeroDivisionError for an empty window,
   * IndexError for a viewed index outside the chunk, ValueError exactly for an empty chunk or
   * a chunk longer than the window that does not end on the window's end. A raising update
   * leaves cursor, counter, statistics and group as they were.
   */
  lemma UpdateRaisesExactly(l: Layout, s: Screen, chunk: Chunk, width: nat)
    requires Consistent(l, s) && Fits(chunk, width)
    ensures var (s', d) := UpdateSpec(l, s, chunk, width);
      && (d == Raised(ZeroDivisionError) <==> l.nSamples == 0)
      && (d == Raised(IndexError) <==> l.nSamples > 0 && !InRange(l.indices, width))
      && (d == Raised(ValueError) <==>
            l.nSamples > 0 && InRange(l.indices, width) &&
            (|chunk| == 0 || (|chunk| > l.nSamples && (s.pos + |chunk|) % l.nSamples != 0)))
      && (d.Raised? ==> s' == s.(rows := s'.rows))
  {
    var n := l.nSamples;
    if n > 0 && InRange(l.indices, width) {
      var sel := SelectRows(chunk, l.indices, width);
      if |chunk| == 0 {
        WriteAtRejectsEmpty(s.rows, s.pos);
      } else if |chunk| <= n {
        WriteAtLands(s.rows, s.pos, sel);
      } else {
        WriteAtOversized(s.rows, s.pos, sel);
      }
    }
  }

  /**
   * A chunk of 1 to `n_samples` samples is drawn: the slot at forward offset d < len(chunk)
   * from the old cursor holds the viewed channels of sample d, every other slot is kept, and
   * the cursor moves on by len(chunk) around the window.
   */
  lemma UpdateWritesChunk(l: Layout, s: Screen, chunk: Chunk, width: nat)
    requires Consistent(l, s) && Fits(chunk, width)
    requires InRange(l.indices, width) && 1 <= |chunk| <= l.nSamples
    ensures var (s', d) := UpdateSpec(l, s, chunk, width);
      && d.Drawn?
      && s'.pos == (s.pos + |chunk|) % l.nSamples
      && s'.group == s.group
      && forall i :: 0 <= i < l.nSamples ==>
           s'.rows[i] == if Offset(i, s.pos, l.nSamples) < |chunk|
                         then SelectRow(chunk[Offset(i, s.pos, l.nSamples)], l.indices)
                         else s.rows[i]
  {
    WriteAtLands(s.rows, s.pos, SelectRows(chunk, l.indices, width));
  }

  /**
   * A chunk longer than the window that ends exactly on a multiple of the window is drawn
   * with only its first `n_samples - previous_pos` samples, written at the end of the window;
   * the rest of the chunk is dropped and the cursor returns to 0.
   */
  lemma UpdateDropsOverflow(l: Layout, s: Screen, chunk: Chunk, width: nat)
    requires Consistent(l, s) && Fits(chunk, width)
    requires InRange(l.indices, width) && 0 < l.nSamples < |chunk| && (s.pos + |chunk|) % l.nSamples == 0
    ensures var (s', d) := UpdateSpec(l, s, chunk, width);
      && d.Drawn? && s'.pos == 0
      && s'.rows == s.rows[..s.pos] + SelectRows(chunk[..l.nSamples - s.pos], l.indices, width)
  {
    var sel := SelectRows(chunk, l.indices, width);
    WriteAtOversized(s.rows, s.pos, sel);
    assert sel[..l.nSamples - s.pos] == SelectRows(chunk[..l.nSamples - s.pos], l.indices, width);
  }

  /**
   * Right after a statistics refresh every finite point of every curve lies in [-1, 1]:
   * each channel stays within one unit of its own line of the stacked plot.
   */
  lemma RefreshedCurvesWithinLanes(l: Layout, s: Screen, chunk: Chunk, width: nat, i: nat, r: nat)
    requires Consistent(l, s) && Fits(chunk, width)
    requires UpdateSpec(l, s, chunk, width).1.Drawn? && s.counter + |chunk| > l.nSamples / 3
    requires i < |l.names| && r < l.nSamples && UpdateSpec(l, s, chunk, width).1.curves[i][r].Some?
    ensures -1.0 <= UpdateSpec(l, s, chunk, width).1.curves[i][r].value <= 1.0
  {
    var w := RefreshedState(l, s, chunk, width);
    var d := UpdateSpec(l, s, chunk, width).1;
    var c := s.group + i;
    assert c < |l.names|;
    var col := Column(w, c);
    assert d.curves[i][r] == Scale(col[r], NanMean(col), ClampIqr(NanRange(col)));
    ScaledWithinLane(col, r);
  }

  /** A drawn update that refreshes the statistics computes them on the rows it shows. */
  lemma RefreshedState(l: Layout, s: Screen, chunk: Chunk, width: nat) returns (w: seq<Row>)
    requires Consistent(l, s) && Fits(chunk, width)
    requires UpdateSpec(l, s, chunk, width).1.Drawn? && s.counter + |chunk| > l.nSamples / 3
    ensures Consistent(l, UpdateSpec(l, s, chunk, width).0) && UpdateSpec(l, s, chunk, width).0.rows == w
    ensures UpdateSpec(l, s, chunk, width).1.curves
         == Curves(w, ColumnMeans(w, |l.names|), ColumnIqrs(w, |l.names|), s.group, |l.names|)
  {
    UpdateKeepsConsistent(l, s, chunk, width);
    w := WriteAt(s.rows, s.pos, SelectRows(chunk, l.indices, width)).rows;
  }

  /**
   * The curves show exactly the finite data: point r of curve i is finite iff slot r holds a
   * finite value of channel `group + i`, and then pyqtgraph connects it. Curves past the last
   * channel of the group are all NaN.
   */
  lemma DrawnCurvesMatchData(l: Layout, s: Screen, chunk: Chunk, width: nat, i: nat, r: nat)
    requires Consistent(l, s) && Fits(chunk, width)
    requires UpdateSpec(l, s, chunk, width).1.Drawn? && i < |l.names| && r < l.nSamples
    ensures var (s', d) := UpdateSpec(l, s, chunk, width);
      && |s'.rows[r]| == |l.names|
      && (s.group + i < |l.names| ==> (d.curves[i][r].Some? <==> s'.rows[r][s.group + i].Some?))
      && (s.group + i >= |l.names| ==> d.curves[i][r].None?)
      && (d.curves[i][r].Some? ==> d.masks[i][r])
  {
    UpdateKeepsConsistent(l, s, chunk, width);
    var (s', d) := UpdateSpec(l, s, chunk, width);
    var m := |l.names|;
    assert d.curves == Curves(s'.rows, s'.mean, s'.iqr, s.group, m);
    assert |d.curves[i]| == l.nSamples;
    assert d.masks[i] == ConnectMask(d.curves[i], s'.pos);
    if s.group + i < m {
      var c := s.group + i;
      assert s'.mean[c].Some? && s'.iqr[c].Some? && s'.iqr[c].value != 0.0;
      assert d.curves[i][r] == Scale(s'.rows[r][c], s'.mean[c], s'.iqr[c]);
    }
  }

  class RawSignalViewer {
    const layout: Layout
    /** `y_raw_buffer`, one row per slot. */
    const y: array<Row>
    var previousPos: nat
    var statsCounter: nat
    var mean: seq<Option<real>>
    var iqr: seq<Option<real>>
    var currentIndexesInd: nat

    ghost function State(): Screen
      reads this, y
    {
      Screen(y[..], previousPos, statsCounter, mean, iqr, currentIndexesInd)
    }

    ghost predicate Valid()
      reads this, y
    {
      Consistent(layout, State())
    }

    /**
     * `RawSignalViewer(fs, names, view_channels, seconds_to_plot)`. The selection must be
     * non-empty (otherwise `indexes_to_plot[0]` raises), free of repeats and within the names.
     */
    constructor (fs: real, seconds: real, allNames: seq<string>, view: seq<nat>)
      requires fs * seconds >= 0.0
      requires |view| >= 1 && Distinct(view) && InRange(view, |allNames|)
      ensures Valid() && fresh(y)
      ensures layout == Layout(NSamples(fs, seconds), seconds, SelectedNames(allNames, view), view)
      ensures State() == Screen(NaNRows(NSamples(fs, seconds), |view|), 0, 0, seq(|view|, c => Some(0.0)), seq(|view|, c => Some(1.0)), 0)
    {
      var kept := FilterNames(allNames, view);
      NamesMatchIndices(allNames, view);
      var n := NSamples(fs, seconds);
      layout := Layout(n, seconds, kept, view);
      y := new Row[n](i => seq(|kept|, c => None));
      previousPos := 0;
      statsCounter := 0;
      mean := seq(|kept|, c => Some(0.0));
      iqr := seq(|kept|, c => Some(1.0));
      currentIndexesInd := 0;
      new;
      assert y[..] == NaNRows(n, |view|);
    }

    /** `update(chunk)`: write the chunk at the cursor, rescale and redraw. */
    method Update(chunk: Chunk, width: nat) returns (out: Drawing)
      requires Valid() && Fits(chunk, width)
      modifies this, y
      ensures Valid()
      ensures (State(), out) == UpdateSpec(layout, old(State()), chunk, width)
    {
      ghost var s0 := State();
      UpdateKeepsConsistent(layout, s0, chunk, width);
      var n := layout.nSamples;
      if n == 0 {
        return Raised(ZeroDivisionError);
      }
      var prev := previousPos;
      var cur := (prev + |chunk|) % n;
      var indices := layout.indices;
      if |indices| == 0 || !InRange(indices, width) {
        return Raised(IndexError);
      }
      var sel := SelectRows(chunk, indices, width);
      ghost var before := y[..];
      var ok := AssignWindow(y, prev, sel);
      if !ok {
        return Raised(ValueError);
      }
      // prepare_y_data
      statsCounter := statsCounter + |chunk|;
      if statsCounter > n / 3 {
        mean := ColumnMeans(y[..], |layout.names|);
        iqr := ColumnIqrs(y[..], |layout.names|);
        statsCounter := 0;
      }
      var curves := Curves(y[..], mean, iqr, currentIndexesInd, |layout.names|);
      out := Drawn(curves, Masks(curves, cur), XMesh(layout, cur));
      previousPos := cur;
    }

    /** `reset_buffer`: every slot becomes NaN; the cursor and the statistics are kept. */
    method ResetBuffer()
      requires Valid()
      modifies y
      ensures Valid()
      ensures State() == old(State()).(rows := NaNRows(layout.nSamples, |layout.names|))
    {
      forall i | 0 <= i < y.Length {
        y[i] := seq(|layout.names|, c => None);
      }
      assert y[..] == NaNRows(layout.nSamples, |layout.names|);
    }

    /** `next_channels_group(direction)`: clear the window and move the first drawn channel. */
    method NextChannelsGroup(direction: int)
      requires Valid()
      modifies this, y
      ensures Valid()
      ensures State() == old(State()).(rows := NaNRows(layout.nSamples, |layout.names|),
                                       group := NextGroup(old(currentIndexesInd), direction, |layout.names|))
    {
      forall i | 0 <= i < y.Length {
        y[i] := seq(|layout.names|, c => None);
      }
      assert y[..] == NaNRows(layout.nSamples, |layout.names|);
      currentIndexesInd := (currentIndexesInd + direction) % |layout.names|;
    }

    /** The labels `reset_labels` puts on the y axis for the current group. */
    function Labels(): (ts: seq<(nat, string)>)
      requires Valid()
      reads this, y
      ensures |ts| == |layout.names| - currentIndexesInd
    {
      Ticks(layout, currentIndexesInd)
    }
  }

  /** `runSignal`: a raw viewer driven by a timer that pulls one chunk per tick. */
  class RunSignal {
    /** `self.w`. */
    var viewer: RawSignalViewer
    /** `main_timer.isActive()`. */
    var timerActive: bool
    /** `self.time`, advanced by `chunk_len` on every tick. */
    var time: int
    /** `self.chunk`, the last pull. */
    var chunk: Option<Chunk>
    const chunkLen: nat

    ghost predicate Valid()
      reads this, viewer, viewer.y
    {
      viewer.Valid()
    }

    /** `runSignal(fs, names, view_channels, ...)`, `setViewer` (5-second window) and `createTimer`. */
    constructor (fs: real, allNames: seq<string>, view: seq<nat>)
      requires fs >= 0.0 && |view| >= 1 && Distinct(view) && InRange(view, |allNames|)
      ensures Valid() && fresh(viewer) && fresh(viewer.y)
      ensures viewer.layout == Layout(NSamples(fs, 5.0), 5.0, SelectedNames(allNames, view), view)
      ensures !timerActive && time == 0 && chunk == None && chunkLen == 8
    {
      viewer := new RawSignalViewer(fs, 5.0, allNames, view);
      timerActive := false;
      time := 0;
      chunk := None;
      chunkLen := 8;
    }

    /** `setTimer`: connect `update` and start the 30 ms timer. */
    method SetTimer()
      modifies this
      ensures timerActive && viewer == old(viewer) && time == old(time) && chunk == old(chunk)
    {
      timerActive := true;
    }

    /** `start`: starts the timer only when it is inactive. */
    method Start()
      modifies this
      ensures timerActive && viewer == old(viewer) && time == old(time) && chunk == old(chunk)
    {
      if !timerActive {
        timerActive := true;
      }
    }

    /** `stop`: stops the timer only when it is active. */
    method Stop()
      modifies this
      ensures !timerActive && viewer == old(viewer) && time == old(time) && chunk == old(chunk)
    {
      if timerActive {
        timerActive := false;
      }
    }

    /** `resetViewer(fs, names, view_channels, lsl)`: replace the viewer by a fresh one. */
    method ResetViewer(fs: real, allNames: seq<string>, view: seq<nat>)
      requires fs >= 0.0 && |view| >= 1 && Distinct(view) && InRange(view, |allNames|)
      modifies this
      ensures Valid() && fresh(viewer) && fresh(viewer.y)
      ensures viewer.layout == Layout(NSamples(fs, 5.0), 5.0, SelectedNames(allNames, view), view)
      ensures time == 0 && timerActive == old(timerActive) && chunk == old(chunk)
    {
      viewer := new RawSignalViewer(fs, 5.0, allNames, view);
      time := 0;
    }

    /**
     * `update`: advance `time` by `chunk_len`, take the pulled chunk (`None` when the inlet had
     * nothing) and, only for a real chunk, update the viewer.
     */
    method Update(pulled: Option<Chunk>, width: nat) returns (out: Option<Drawing>)
      requires Valid() && (pulled.Some? ==> Fits(pulled.value, width))
      modifies this, viewer, viewer.y
      ensures Valid() && viewer == old(viewer) && timerActive == old(timerActive)
      ensures time == old(time) + chunkLen && chunk == pulled
      ensures pulled.None? ==> out.None? && viewer.State() == old(viewer.State())
      ensures pulled.Some? ==>
        out.Some? && (viewer.State(), out.value) == UpdateSpec(viewer.layout, old(viewer.State()), pulled.value, width)
    {
      time := time + chunkLen;
      chunk := pulled;
      if pulled.Some? {
        var d := viewer.Update(pulled.value, width);
        out := Some(d);
      } else {
        out := None;
      }
    }
  }
}
