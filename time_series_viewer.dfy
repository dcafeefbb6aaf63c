/**
 * `TimeSeriesSignal` of TimeSeriesViewer.py: a timer-driven controller that pulls a chunk per
 * tick, shows it in a raw viewer and, while filtering is switched on, also shows it notch- and
 * Butterworth-filtered in two more viewers. It is modelled after `setViewer` was given the
 * filter checkboxes and band boxes, so all three viewers exist.
 */
module TimeSeriesViewer {
  import opened Wrappers
  import opened WindowSpec
  import opened SignalFilters
  import opened Controls
  import opened FilterPanel
  import SV = SignalViewer

  /** The three checkboxes `applyFilter` reads. */
  datatype FilterChecks = FilterChecks(noFilter: bool, notch: bool, butter: bool)

  /**
   * `applyFilter` with the boxes as given: "noFilter" only switches filtering off, otherwise
   * the checked filters run.
   */
  function CheckedApply(p: Params, s: FilterSide, checks: FilterChecks, low: Option<real>, high: Option<real>,
                        chunk: Option<Chunk>, width: nat): (r: (FilterSide, Result<(), PyError>))
    requires SideOk(p, s) && (chunk.Some? ==> Fits(chunk.value, width))
    ensures SideOk(p, r.0)
    ensures checks.noFilter ==> r == (s.(active := false), Ok(()))
    ensures !checks.noFilter && (checks.notch || checks.butter) ==> r.0.active
  {
    if checks.noFilter then (s.(active := false), Ok(()))
    else ApplySpec(p, s, checks.notch, checks.butter, low, high, chunk, width)
  }

  /** The filter work of one `update` tick: `applyFilter` only while filtering is on. */
  function TickSpec(p: Params, s: FilterSide, checks: FilterChecks, low: Option<real>, high: Option<real>,
                    chunk: Option<Chunk>, width: nat): (r: (FilterSide, Result<(), PyError>))
    requires SideOk(p, s) && (chunk.Some? ==> Fits(chunk.value, width))
    ensures SideOk(p, r.0)
    ensures !s.active ==> r == (s, Ok(()))
  {
    if s.active then CheckedApply(p, s, checks, low, high, chunk, width) else (s, Ok(()))
  }

  class TimeSeriesSignal {
    const fs: real
    /** `self.w`, the raw view. */
    const w: SV.RawSignalViewer
    /** `apply_filters`, the two filters and the viewers `w2` and `w3`. */
    const views: FilteredViews
    /** `main_timer.isActive()`. */
    var timerActive: bool
    /** `self.chunk`, the last pull. */
    var chunk: Option<Chunk>
    var low: Option<real>
    var high: Option<real>

    ghost predicate Valid()
      reads this, w, w.y, views, views.Repr
    {
      && w.Valid() && views.Valid() && views.fs == fs
      && this !in views.Repr && w !in views.Repr && w.y !in views.Repr
      && LowOk(low) && HighOk(high, fs)
    }

    /**
     * `TimeSeriesSignal(lsl, view_channels)` followed by `setViewer(layout, filters, band)`:
     * three 5-second viewers over the same channels, no band edges, filtering off and the
     * 30 ms timer running.
     */
    constructor (fs: real, allNames: seq<string>, view: seq<nat>, cosNotch: real, butter: (nat, Design) -> Result<Coeffs, PyError>)
      requires fs >= 0.0 && |view| >= 1 && Distinct(view) && InRange(view, |allNames|)
      requires MonicDesigner(butter)
      ensures Valid() && fresh(w) && fresh(w.y) && fresh(views.Repr)
      ensures this.fs == fs && views.nChannels == |allNames| && views.cosNotch == cosNotch && views.butter == butter
      ensures timerActive && chunk.None? && low.None? && high.None?
      ensures !views.active && views.notchFilter.None? && views.butterFilter.None?
    {
      this.fs := fs;
      w := new SV.RawSignalViewer(fs, 5.0, allNames, view);
      views := new FilteredViews(fs, allNames, view, cosNotch, butter);
      timerActive := true;
      chunk := None;
      low := None;
      high := None;
    }

    /** `start`: starts the timer only when it is inactive. */
    method Start()
      requires Valid()
      modifies this
      ensures Valid() && timerActive
      ensures chunk == old(chunk) && low == old(low) && high == old(high)
    {
      if !timerActive {
        timerActive := true;
      }
    }

    /** `stop`: stops the timer only when it is active. */
    method Stop()
      requires Valid()
      modifies this
      ensures Valid() && !timerActive
      ensures chunk == old(chunk) && low == old(low) && high == old(high)
    {
      if timerActive {
        timerActive := false;
      }
    }

    /** `lowPass`, reading the low band box. */
    method LowPass(e: Entry) returns (r: Result<(), PyError>)
      requires Valid()
      modifies this
      ensures Valid()
      ensures LowEdge(old(low), e).Ok? ==> r.Ok? && low == LowEdge(old(low), e).value
      ensures LowEdge(old(low), e).Err? ==> r == Err(LowEdge(old(low), e).error) && low == old(low)
      ensures high == old(high) && chunk == old(chunk) && timerActive == old(timerActive)
    {
      var v := LowEdge(low, e);
      if v.Err? {
        return Err(v.error);
      }
      low := v.value;
      r := Ok(());
    }

    /** `highPass`, reading the high band box. */
    method HighPass(e: Entry) returns (r: Result<(), PyError>)
      requires Valid()
      modifies this
      ensures Valid()
      ensures HighEdge(old(high), e, fs).Ok? ==> r.Ok? && high == HighEdge(old(high), e, fs).value
      ensures HighEdge(old(high), e, fs).Err? ==> r == Err(HighEdge(old(high), e, fs).error) && high == old(high)
      ensures low == old(low) && chunk == old(chunk) && timerActive == old(timerActive)
    {
      var v := HighEdge(high, e, fs);
      if v.Err? {
        return Err(v.error);
      }
      high := v.value;
      r := Ok(());
    }

    /**
     * `applyFilter`: with "noFilter" checked only switch filtering off; otherwise run the notch
     * branch and then the Butterworth branch for the boxes that are checked.
     */
    method ApplyFilter(checks: FilterChecks, width: nat) returns (r: Result<(), PyError>)
      requires Valid() && (chunk.Some? ==> Fits(chunk.value, width))
      modifies views.Repr
      ensures Valid()
      ensures (views.Side(), r) == CheckedApply(views.Config(), old(views.Side()), checks, low, high, chunk, width)
    {
      if checks.noFilter {
        views.SwitchOff();
        return Ok(());
      }
      r := views.Apply(checks.notch, checks.butter, low, high, chunk, width);
    }

    /** The filter part of `update`: `applyFilter` only while `apply_filters` is set. */
    method FilterTick(checks: FilterChecks, width: nat) returns (r: Result<(), PyError>)
      requires Valid() && (chunk.Some? ==> Fits(chunk.value, width))
      modifies views.Repr
      ensures Valid()
      ensures (views.Side(), r) == TickSpec(views.Config(), old(views.Side()), checks, low, high, chunk, width)
    {
      r := Ok(());
      if views.active {
        r := ApplyFilter(checks, width);
      }
    }

    /**
     * `update`: take the pulled chunk; for a real chunk update `w`, and then, only while
     * filtering is on and `w` did not raise, run `applyFilter` with the boxes as they are.
     */
    method Update(pulled: Option<Chunk>, width: nat, checks: FilterChecks) returns (r: Result<(), PyError>)
      requires Valid() && (pulled.Some? ==> Fits(pulled.value, width))
      modifies this, w, w.y, views.Repr
      ensures chunk == pulled
      ensures Valid()
      ensures low == old(low) && high == old(high) && timerActive == old(timerActive)
      ensures pulled.None? ==> r.Ok? && w.State() == old(w.State()) && views.Side() == old(views.Side())
      ensures pulled.Some? ==>
        var (s, d) := SV.UpdateSpec(w.layout, old(w.State()), pulled.value, width);
        && w.State() == s
        && (d.Raised? ==> r == Err(d.error) && views.Side() == old(views.Side()))
        && (d.Drawn? ==> (views.Side(), r) == TickSpec(views.Config(), old(views.Side()), checks, low, high, pulled, width))
    {
      chunk := pulled;
      if pulled.None? {
        return Ok(());
      }
      var d := w.Update(pulled.value, width);
      if d.Raised? {
        return Err(d.error);
      }
      r := FilterTick(checks, width);
    }
  }
}
