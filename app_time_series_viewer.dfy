/**
 * `TimeSeriesSignal` of application/Widgets/TimeSeriesViewer.py: a raw viewer (it inherits
 * `RawSignalViewer`, here the viewer of SignalViewer_copy.py) that, once a filter is added,
 * also shows every pulled chunk notch- or Butterworth-filtered in a viewer of its own. Unlike
 * the older controllers, the filter objects are made once, by `addFilter`, and then reused on
 * every tick, so their delay lines carry from one chunk to the next.
 */
module AppTimeSeriesViewer {
  import opened Wrappers
  import opened WindowSpec
  import opened SignalFilters
  import opened Controls
  import opened FilterPanel
  import SVC = SignalViewerCopy

  /** The keys of `self.Filters`, which are also the names `addFilter` and `removeFilter` take. */
  const NotchKey: string := "Notch"
  const ButterKey: string := "Butter"

  /** `any(d)` of a dict tests its keys; a string key is truthy when it is not empty. */
  predicate AnyKey(keys: seq<string>) {
    exists k :: k in keys && k != ""
  }

  /** `any(self.Filters)` holds whatever the flags are, so only the per-flag tests decide. */
  lemma FilterKeysAlwaysAny()
    ensures AnyKey([NotchKey, ButterKey])
  {
    assert NotchKey in [NotchKey, ButterKey];
  }

  /**
   * What stays fixed: the rate, `len(num_channels)`, `cos(2 pi 60 / fs)`, scipy's designer and
   * the layout every viewer of the controller shares.
   */
  datatype AppParams = AppParams(fs: real, nch: nat, cosNotch: real, butter: (nat, Design) -> Result<Coeffs, PyError>,
                                 layout: Layout)

  /**
   * The filter state of the controller: the two `self.Filters` flags, the two filtered viewers
   * (`None` when there is no graph) and the two filter objects (`None` before the first one).
   */
  datatype AppSide = AppSide(notchOn: bool, butterOn: bool,
                             notchView: Option<SVC.Screen>, butterView: Option<SVC.Screen>,
                             notch: Option<FilterSnap>, butter: Option<FilterSnap>)

  /**
   * The invariant: a flag is set exactly when its graph exists, a notch graph always comes with
   * a notch filter (a Butterworth graph need not: its constructor may have raised), and every
   * filter and viewer is well shaped.
   */
  ghost predicate AppOk(p: AppParams, s: AppSide) {
    && MonicDesigner(p.butter)
    && |p.layout.names| >= 1 && |p.layout.indices| == |p.layout.names|
    && SnapOk(s.notch, p.nch) && SnapOk(s.butter, p.nch)
    && (s.notchOn <==> s.notchView.Some?) && (s.butterOn <==> s.butterView.Some?)
    && (s.notchOn ==> s.notch.Some?)
    && (s.notchView.Some? ==> SVC.Consistent(p.layout, s.notchView.value))
    && (s.butterView.Some? ==> SVC.Consistent(p.layout, s.butterView.value))
  }

  /** The state of a newly made `RawSignalViewer(fs, num_channels, showChannels)`. */
  function FreshScreen(p: AppParams): (s: SVC.Screen)
    ensures |p.layout.names| >= 1 && |p.layout.indices| == |p.layout.names| ==> SVC.Consistent(p.layout, s)
    ensures AllNaN(s.rows) && s.previousPos == 0 && s.currentPos.None?
  {
    SVC.Screen(NaNRows(p.layout.nSamples, |p.layout.indices|), 0, 0, None, None, 0)
  }

  /**
   * `ButterFilter((0.1, fs/2 - 0.001), fs, n)`: the band-pass design of the default band with a
   * zero delay line; a zero rate raises when the edges are divided by it.
   */
  function DefaultButter(p: AppParams): (r: Result<FilterSnap, PyError>)
    requires MonicDesigner(p.butter)
    ensures p.fs == 0.0 ==> r == Err(ZeroDivisionError)
    ensures p.fs != 0.0 ==>
      var d := BandPass(MinLow / p.fs * 2.0, (p.fs / 2.0 - 0.001) / p.fs * 2.0);
      && (p.butter(ButterOrder, d).Err? ==> r == Err(p.butter(ButterOrder, d).error))
      && (p.butter(ButterOrder, d).Ok? ==>
            r.Ok? && r.value.coeffs == p.butter(ButterOrder, d).value
            && r.value.zi == Zeros(StateRows(r.value.coeffs), p.nch))
    ensures r.Ok? ==> FilterState(r.value.coeffs, r.value.zi, p.nch)
  {
    var band := DefaultBand(p.fs);
    var d := ChooseDesign(band.0, band.1, p.fs);
    if d.Err? then Err(d.error)
    else
      var co := p.butter(ButterOrder, d.value);
      if co.Err? then Err(co.error)
      else Ok(FilterSnap(co.value, Zeros(StateRows(co.value), p.nch)))
  }

  /**
   * `addFilter(name)`: "Notch" sets its flag, opens a new notch graph and makes a new notch
   * filter; "Butter" sets its flag and opens a new graph before making the filter, so when the
   * constructor raises the flag and graph stay and the old filter, if any, is kept; any other
   * name does nothing.
   */
  function AddSpec(p: AppParams, s: AppSide, name: string): (r: (AppSide, Result<(), PyError>))
    requires AppOk(p, s)
    ensures AppOk(p, r.0)
    ensures name == NotchKey ==>
      && r.1.Ok? && r.0.notchOn && r.0.notchView == Some(FreshScreen(p))
      && r.0.notch == Some(FilterSnap(NotchCoeffs(NotchMu, p.cosNotch), Zeros(2, p.nch)))
      && r.0.butterOn == s.butterOn && r.0.butterView == s.butterView && r.0.butter == s.butter
    ensures name == ButterKey ==>
      && r.0.butterOn && r.0.butterView == Some(FreshScreen(p))
      && r.0.notchOn == s.notchOn && r.0.notchView == s.notchView && r.0.notch == s.notch
      && (DefaultButter(p).Ok? ==> r.1.Ok? && r.0.butter == Some(DefaultButter(p).value))
      && (DefaultButter(p).Err? ==> r.1 == Err(DefaultButter(p).error) && r.0.butter == s.butter)
    ensures name != NotchKey && name != ButterKey ==> r == (s, Ok(()))
  {
    if name == NotchKey then
      (s.(notchOn := true, notchView := Some(FreshScreen(p)),
          notch := Some(FilterSnap(NotchCoeffs(NotchMu, p.cosNotch), Zeros(2, p.nch)))), Ok(()))
    else if name == ButterKey then
      var s1 := s.(butterOn := true, butterView := Some(FreshScreen(p)));
      var made := DefaultButter(p);
      if made.Err? then (s1, Err(made.error)) else (s1.(butter := Some(made.value)), Ok(()))
    else (s, Ok(()))
  }

  /**
   * `removeFilter(name)`: clears the flag and closes the graph of a known name; the filter
   * object stays; any other name does nothing.
   */
  function RemoveSpec(p: AppParams, s: AppSide, name: string): (r: AppSide)
    requires AppOk(p, s)
    ensures AppOk(p, r)
    ensures name == NotchKey ==>
      !r.notchOn && r.notchView.None? && r == s.(notchOn := r.notchOn, notchView := r.notchView)
    ensures name == ButterKey ==>
      !r.butterOn && r.butterView.None? && r == s.(butterOn := r.butterOn, butterView := r.butterView)
    ensures name != NotchKey && name != ButterKey ==> r == s
  {
    if name == NotchKey then s.(notchOn := false, notchView := None)
    else if name == ButterKey then s.(butterOn := false, butterView := None)
    else s
  }

  /**
   * Removing a filter after adding it leaves what removing it alone leaves, except that the
   * filter object the add made is still held.
   */
  lemma RemoveUndoesAdd(p: AppParams, s: AppSide, name: string)
    requires AppOk(p, s)
    ensures var a := RemoveSpec(p, AddSpec(p, s, name).0, name);
      var b := RemoveSpec(p, s, name);
      a.(notch := b.notch, butter := b.butter) == b
  {
  }

  /** Removing is idempotent. */
  lemma RemoveTwice(p: AppParams, s: AppSide, name: string)
    requires AppOk(p, s)
    ensures RemoveSpec(p, RemoveSpec(p, s, name), name) == RemoveSpec(p, s, name)
  {
  }

  /**
   * `changeFilter(name, band)` as written: for "Butter" with a live graph it calls
   * `self.butter_filter.reset(band)`, but `reset` takes no argument besides `self`, so the call
   * raises `TypeError` (or `AttributeError` when no Butterworth filter was ever made) and
   * changes nothing.
   */
  function ChangeAsWritten(s: AppSide, name: string, band: (Option<real>, Option<real>)): (r: Result<(), PyError>)
    ensures r.Err? <==> name == ButterKey && s.butterView.Some?
    ensures r.Err? && s.butter.Some? ==> r.error == TypeError
  {
    if name == ButterKey && s.butterView.Some? then
      if s.butter.None? then Err(AttributeError) else Err(TypeError)
    else Ok(())
  }

  /** With the graph open and a filter made, `changeFilter("Butter", band)` raises whatever the band. */
  lemma ChangeAsWrittenNeverChangesBand(p: AppParams, s: AppSide, band: (Option<real>, Option<real>))
    requires AppOk(p, s) && s.butterOn && s.butter.Some?
    ensures ChangeAsWritten(s, ButterKey, band) == Err(TypeError)
  {
  }

  /**
   * `changeFilter(name, band)` as evidently intended: for "Butter" with a live graph the
   * Butterworth filter is rebuilt for `band`, starting from a zero delay line; a band the
   * constructor or the designer rejects raises and keeps the old filter.
   */
  function ChangeSpec(p: AppParams, s: AppSide, name: string, band: (Option<real>, Option<real>))
    : (r: (AppSide, Result<(), PyError>))
    requires AppOk(p, s)
    ensures AppOk(p, r.0)
    ensures !(name == ButterKey && s.butterView.Some?) ==> r == (s, Ok(()))
    ensures r.0 == s.(butter := r.0.butter)
    ensures r.1.Err? ==> r.0 == s
    ensures name == ButterKey && s.butterView.Some? ==>
      var d := ChooseDesign(band.0, band.1, p.fs);
      && (d.Err? ==> r.1 == Err(d.error))
      && (d.Ok? && p.butter(ButterOrder, d.value).Err? ==> r.1 == Err(p.butter(ButterOrder, d.value).error))
      && (d.Ok? && p.butter(ButterOrder, d.value).Ok? ==>
            var co := p.butter(ButterOrder, d.value).value;
            r.1.Ok? && r.0.butter == Some(FilterSnap(co, Zeros(StateRows(co), p.nch))))
  {
    if !(name == ButterKey && s.butterView.Some?) then (s, Ok(()))
    else
      var d := ChooseDesign(band.0, band.1, p.fs);
      if d.Err? then (s, Err(d.error))
      else
        var co := p.butter(ButterOrder, d.value);
        if co.Err? then (s, Err(co.error))
        else (s.(butter := Some(FilterSnap(co.value, Zeros(StateRows(co.value), p.nch)))), Ok(()))
  }

  /** A filter applied to a chunk and the output shown in a viewer of the copy. */
  datatype CopyShown = CopyShown(zf: Chunk, screen: SVC.Screen, outcome: Result<(), PyError>)

  /**
   * `graph.update(f.apply(chunk))`: filter from delay line `zi`, then update the viewer with
   * the output; an error in `lfilter` leaves the delay line and the viewer as they were.
   */
  function ShowCopy(c: Coeffs, zi: Chunk, nch: nat, chunk: Chunk, width: nat, l: Layout, s: SVC.Screen): (r: CopyShown)
    requires FilterState(c, zi, nch) && SVC.Consistent(l, s) && Fits(chunk, width)
    ensures Shaped(r.zf, StateRows(c), nch) && SVC.Consistent(l, r.screen)
    ensures LFilter(c, chunk, width, zi, nch).Err? ==> r == CopyShown(zi, s, Err(ValueError))
    ensures LFilter(c, chunk, width, zi, nch).Ok? ==>
      var f := LFilter(c, chunk, width, zi, nch).value;
      && r.zf == f.zf
      && r.screen == SVC.UpdateSpec(l, s, f.y, width).0
      && (r.outcome.Ok? <==> SVC.UpdateSpec(l, s, f.y, width).1.Drawn?)
  {
    var f := LFilter(c, chunk, width, zi, nch);
    if f.Err? then CopyShown(zi, s, Err(f.error))
    else
      SVC.UpdateKeepsConsistent(l, s, f.value.y, width);
      var (s', d) := SVC.UpdateSpec(l, s, f.value.y, width);
      CopyShown(f.value.zf, s', if d.Raised? then Err(d.error) else Ok(()))
  }

  /** The notch part of `main_loop`: only while the notch flag is set, with the held filter. */
  function NotchStage(p: AppParams, s: AppSide, chunk: Chunk, width: nat): (r: (AppSide, Result<(), PyError>))
    requires AppOk(p, s) && Fits(chunk, width)
    ensures AppOk(p, r.0)
    ensures !s.notchOn ==> r == (s, Ok(()))
    ensures r.0 == s.(notch := r.0.notch, notchView := r.0.notchView)
    ensures s.notchOn ==> r.0.notch.Some? && r.0.notch.value.coeffs == s.notch.value.coeffs
  {
    if !s.notchOn then (s, Ok(()))
    else
      var f := s.notch.value;
      var sh := ShowCopy(f.coeffs, f.zi, p.nch, chunk, width, p.layout, s.notchView.value);
      (s.(notch := Some(FilterSnap(f.coeffs, sh.zf)), notchView := Some(sh.screen)), sh.outcome)
  }

  /**
   * The Butterworth part of `main_loop`: only while the flag is set; with a graph but no filter
   * `self.butter_filter` is missing and the lookup raises `AttributeError`.
   */
  function ButterStage(p: AppParams, s: AppSide, chunk: Chunk, width: nat): (r: (AppSide, Result<(), PyError>))
    requires AppOk(p, s) && Fits(chunk, width)
    ensures AppOk(p, r.0)
    ensures !s.butterOn ==> r == (s, Ok(()))
    ensures s.butterOn && s.butter.None? ==> r == (s, Err(AttributeError))
    ensures r.0 == s.(butter := r.0.butter, butterView := r.0.butterView)
  {
    if !s.butterOn then (s, Ok(()))
    else if s.butter.None? then (s, Err(AttributeError))
    else
      var f := s.butter.value;
      var sh := ShowCopy(f.coeffs, f.zi, p.nch, chunk, width, p.layout, s.butterView.value);
      (s.(butter := Some(FilterSnap(f.coeffs, sh.zf)), butterView := Some(sh.screen)), sh.outcome)
  }

  /** The filter part of a `main_loop` tick: the notch part, then, unless it raised, the Butterworth part. */
  function TickSpec(p: AppParams, s: AppSide, chunk: Chunk, width: nat): (r: (AppSide, Result<(), PyError>))
    requires AppOk(p, s) && Fits(chunk, width)
    ensures AppOk(p, r.0)
    ensures r.0.notchOn == s.notchOn && r.0.butterOn == s.butterOn
    ensures !s.notchOn && !s.butterOn ==> r == (s, Ok(()))
  {
    var (s1, r1) := NotchStage(p, s, chunk, width);
    if r1.Err? then (s1, r1) else ButterStage(p, s1, chunk, width)
  }

  /**
   * The notch filter is reused: over two ticks its delay line ends where filtering the two
   * chunks as one signal ends.
   */
  lemma NotchCarriesAcrossTicks(p: AppParams, s: AppSide, c1: Chunk, c2: Chunk, width: nat)
    requires AppOk(p, s) && Fits(c1, width) && Fits(c2, width) && width == p.nch && s.notchOn
    ensures Fits(c1 + c2, width)
    ensures var s1 := TickSpec(p, s, c1, width).0;
      var s2 := TickSpec(p, s1, c2, width).0;
      var f := s.notch.value;
      var once := LFilter(f.coeffs, c1 + c2, width, f.zi, width);
      once.Ok? && s2.notch == Some(FilterSnap(f.coeffs, once.value.zf))
  {
    var f := s.notch.value;
    LFilterConcat(f.coeffs, c1, c2, width, f.zi);
    var n1 := NotchStage(p, s, c1, width);
    var s1 := TickSpec(p, s, c1, width).0;
    assert s1.notch == n1.0.notch;
    var n2 := NotchStage(p, s1, c2, width);
    assert TickSpec(p, s1, c2, width).0.notch == n2.0.notch;
  }

  /**
   * The Butterworth filter is reused too: over two ticks that both end without an exception,
   * its delay line ends where filtering the two chunks as one signal ends.
   */
  lemma ButterCarriesAcrossTicks(p: AppParams, s: AppSide, c1: Chunk, c2: Chunk, width: nat)
    requires AppOk(p, s) && Fits(c1, width) && Fits(c2, width) && width == p.nch && s.butterOn && s.butter.Some?
    requires TickSpec(p, s, c1, width).1.Ok?
    requires TickSpec(p, TickSpec(p, s, c1, width).0, c2, width).1.Ok?
    ensures Fits(c1 + c2, width)
    ensures var s1 := TickSpec(p, s, c1, width).0;
      var s2 := TickSpec(p, s1, c2, width).0;
      var f := s.butter.value;
      var once := LFilter(f.coeffs, c1 + c2, width, f.zi, width);
      once.Ok? && s2.butter == Some(FilterSnap(f.coeffs, once.value.zf))
  {
    var f := s.butter.value;
    LFilterConcat(f.coeffs, c1, c2, width, f.zi);
    var n1 := NotchStage(p, s, c1, width);
    assert n1.1.Ok?;
    var s1 := TickSpec(p, s, c1, width).0;
    assert s1 == ButterStage(p, n1.0, c1, width).0;
    assert s1.butter == Some(FilterSnap(f.coeffs, LFilter(f.coeffs, c1, width, f.zi, width).value.zf));
    var n2 := NotchStage(p, s1, c2, width);
    assert n2.1.Ok?;
    assert TickSpec(p, s1, c2, width).0 == ButterStage(p, n2.0, c2, width).0;
  }

  /** The layout of `RawSignalViewer(fs, num_channels, showChannels)`. */
  function ViewLayout(fs: real, allNames: seq<string>, view: seq<nat>): Layout
    requires fs >= 0.0
  {
    Layout(NSamples(fs, 5.0), 5.0, SelectedNames(allNames, view), view)
  }

  /** A Butterworth filter object, if any, as a value. */
  ghost function ButterSnapOf(f: Option<ButterFilter>): Option<FilterSnap>
    reads if f.Some? then {f.value} else {}
  {
    if f.Some? then Some(FilterSnap(f.value.coeffs, f.value.zi)) else None
  }

  /**
   * The filter side of `TimeSeriesSignal`: the `self.Filters` flags, `notch_graph`,
   * `butter_graph`, `notch_filter` and `butter_filter`, with the values their constructors
   * need. `main` is the controller's own viewer, which the filtered graphs never alias.
   */
  class FilterGraphs {
    const fs: real
    /** `self.num_channels`, the channel names. */
    const allNames: seq<string>
    /** `self.showChannels`. */
    const view: seq<nat>
    const cosNotch: real
    const butter: (nat, Design) -> Result<Coeffs, PyError>
    const main: SVC.RawSignalViewer
    /** `self.Filters["Notch"]` and `self.Filters["Butter"]`. */
    var notchOn: bool
    var butterOn: bool
    var notchGraph: Option<SVC.RawSignalViewer>
    var butterGraph: Option<SVC.RawSignalViewer>
    var notchFilter: Option<NotchFilter>
    var butterFilter: Option<ButterFilter>
    /** The objects the filter side is made of. */
    ghost var Repr: set<object>

    /** The objects of the notch output: its filter and its graph. */
    ghost function NotchParts(): set<object>
      reads this
    {
      (if notchFilter.Some? then {notchFilter.value} else {})
      + (if notchGraph.Some? then {notchGraph.value, notchGraph.value.y} else {})
    }

    /** The objects of the Butterworth output: its filter and its graph. */
    ghost function ButterParts(): set<object>
      reads this
    {
      (if butterFilter.Some? then {butterFilter.value} else {})
      + (if butterGraph.Some? then {butterGraph.value, butterGraph.value.y} else {})
    }

    /** What stays fixed; only constant fields are read. */
    function Config(): AppParams
    {
      AppParams(fs, |allNames|, cosNotch, butter, main.layout)
    }

    /** The filter state as a value. */
    ghost function Side(): AppSide
      reads this, NotchParts(), ButterParts()
    {
      AppSide(notchOn, butterOn,
              if notchGraph.Some? then Some(notchGraph.value.State()) else None,
              if butterGraph.Some? then Some(butterGraph.value.State()) else None,
              if notchFilter.Some? then Some(FilterSnap(notchFilter.value.coeffs, notchFilter.value.zi)) else None,
              ButterSnapOf(butterFilter))
    }

    ghost predicate Valid()
      reads this, Repr
    {
      && this in Repr && NotchParts() <= Repr && ButterParts() <= Repr
      && main !in Repr && main.y !in Repr
      && fs >= 0.0 && |view| >= 1 && Distinct(view) && InRange(view, |allNames|)
      && main.layout == ViewLayout(fs, allNames, view)
      && (notchGraph.Some? ==> notchGraph.value.layout == main.layout)
      && (butterGraph.Some? ==> butterGraph.value.layout == main.layout)
      && (notchGraph.Some? && butterGraph.Some? ==>
            notchGraph.value != butterGraph.value && notchGraph.value.y != butterGraph.value.y)
      && (notchFilter.Some? ==> notchFilter.value.nChannels == |allNames|)
      && (butterFilter.Some? ==> butterFilter.value.nChannels == |allNames|)
      && AppOk(Config(), Side())
    }

    /** `initFilteredGraphs` and the `self.Filters` of the constructor: no graphs, both flags off. */
    constructor (fs: real, allNames: seq<string>, view: seq<nat>, cosNotch: real,
                 butter: (nat, Design) -> Result<Coeffs, PyError>, main: SVC.RawSignalViewer)
      requires fs >= 0.0 && |view| >= 1 && Distinct(view) && InRange(view, |allNames|)
      requires MonicDesigner(butter) && main.layout == ViewLayout(fs, allNames, view)
      ensures Valid() && fresh(Repr)
      ensures this.fs == fs && this.allNames == allNames && this.view == view
      ensures this.cosNotch == cosNotch && this.butter == butter && this.main == main
      ensures Side() == AppSide(false, false, None, None, None, None)
    {
      this.fs := fs;
      this.allNames := allNames;
      this.view := view;
      this.cosNotch := cosNotch;
      this.butter := butter;
      this.main := main;
      notchOn := false;
      butterOn := false;
      notchGraph := None;
      butterGraph := None;
      notchFilter := None;
      butterFilter := None;
      new;
      NamesMatchIndices(allNames, view);
      Repr := {this};
    }

    /** `self.butter_filter = f`: the new filter replaces the held one, whose graph state stays. */
    method InstallButter(f: ButterFilter)
      requires Valid() && f.Valid() && f.nChannels == |allNames|
      modifies this
      ensures Valid()
      ensures Side() == old(Side()).(butter := Some(FilterSnap(f.coeffs, f.zi)))
    {
      butterFilter := Some(f);
      Repr := Repr + {f};
    }

    /** The "Notch" branch of `addFilter`. */
    method AddNotch()
      requires Valid()
      modifies this
      ensures Valid()
      ensures (Side(), Ok(())) == AddSpec(Config(), old(Side()), NotchKey)
    {
      var g := new SVC.RawSignalViewer(fs, 5.0, allNames, view);
      var f := new NotchFilter(|allNames|, NotchMu, cosNotch);
      SetNotch(g, f);
    }

    /** The notch flag set, `self.notch_graph = g` and `self.notch_filter = f` for a new graph and filter. */
    method SetNotch(g: SVC.RawSignalViewer, f: NotchFilter)
      requires Valid() && g.Valid() && f.Valid()
      requires g.layout == main.layout && f.nChannels == |allNames|
      requires g !in Repr && g.y !in Repr && g != main && g.y != main.y
      modifies this
      ensures Valid()
      ensures Side() == old(Side()).(notchOn := true, notchView := Some(g.State()), notch := Some(FilterSnap(f.coeffs, f.zi)))
    {
      notchOn := true;
      notchGraph := Some(g);
      notchFilter := Some(f);
      Repr := Repr + {g, g.y, f};
    }

    /** The first half of the "Butter" branch of `addFilter`: the flag and a new graph. */
    method OpenButterGraph()
      requires Valid()
      modifies this
      ensures Valid()
      ensures Side() == old(Side()).(butterOn := true, butterView := Some(FreshScreen(Config())))
    {
      butterOn := true;
      var g := new SVC.RawSignalViewer(fs, 5.0, allNames, view);
      butterGraph := Some(g);
      Repr := Repr + {g, g.y};
    }

    /** The "Butter" branch of `addFilter`: the graph first, then the default-band filter. */
    method AddButter() returns (r: Result<(), PyError>)
      requires Valid()
      modifies this
      ensures Valid()
      ensures (Side(), r) == AddSpec(Config(), old(Side()), ButterKey)
    {
      OpenButterGraph();
      var f := MakeDefaultButter();
      if f.Err? {
        return Err(f.error);
      }
      InstallButter(f.value);
      r := Ok(());
    }

    /** `ButterFilter((0.1, (fs / 2) - 0.001), fs, len(num_channels))`. */
    method MakeDefaultButter() returns (f: Result<ButterFilter, PyError>)
      requires Valid()
      ensures DefaultButter(Config()).Err? ==> f == Err(DefaultButter(Config()).error)
      ensures DefaultButter(Config()).Ok? ==>
        && f.Ok? && fresh(f.value) && f.value.Valid() && f.value.nChannels == |allNames|
        && FilterSnap(f.value.coeffs, f.value.zi) == DefaultButter(Config()).value
    {
      var band := DefaultBand(fs);
      f := NewButterFilter(band.0, band.1, fs, |allNames|, ButterOrder, butter);
    }

    /** `addFilter(name)`. */
    method AddFilter(name: string) returns (r: Result<(), PyError>)
      requires Valid()
      modifies this
      ensures Valid()
      ensures (Side(), r) == AddSpec(Config(), old(Side()), name)
    {
      r := Ok(());
      if name == NotchKey {
        AddNotch();
      } else if name == ButterKey {
        r := AddButter();
      }
    }

    /** The "Notch" branch of `removeFilter`. */
    method CloseNotch()
      requires Valid()
      modifies this
      ensures Valid()
      ensures Side() == old(Side()).(notchOn := false, notchView := None)
    {
      notchOn := false;
      if notchGraph.Some? {
        notchGraph := None;
      }
    }

    /** The "Butter" branch of `removeFilter`. */
    method CloseButter()
      requires Valid()
      modifies this
      ensures Valid()
      ensures Side() == old(Side()).(butterOn := false, butterView := None)
    {
      butterOn := false;
      if butterGraph.Some? {
        butterGraph := None;
      }
    }

    /** `removeFilter(name)`. */
    method RemoveFilter(name: string)
      requires Valid()
      modifies this
      ensures Valid()
      ensures Side() == RemoveSpec(Config(), old(Side()), name)
    {
      if name == NotchKey {
        CloseNotch();
      } else if name == ButterKey {
        CloseButter();
      }
    }

    /** `changeFilter(name, band)` with the Butterworth filter rebuilt for `band`, as intended. */
    method ChangeFilter(name: string, band: (Option<real>, Option<real>)) returns (r: Result<(), PyError>)
      requires Valid()
      modifies this
      ensures Valid()
      ensures (Side(), r) == ChangeSpec(Config(), old(Side()), name, band)
    {
      if name == ButterKey && butterGraph.Some? {
        var f := NewButterFilter(band.0, band.1, fs, |allNames|, ButterOrder, butter);
        if f.Err? {
          return Err(f.error);
        }
        InstallButter(f.value);
      }
      r := Ok(());
    }

    /** `self.notch_graph.update(self.notch_filter.apply(chunk))` while the notch flag is set. */
    method NotchTick(c: Chunk, width: nat) returns (r: Result<(), PyError>)
      requires Valid() && Fits(c, width)
      modifies NotchParts()
      ensures Valid()
      ensures (Side(), r) == NotchStage(Config(), old(Side()), c, width)
    {
      if !notchOn {
        return Ok(());
      }
      var g := notchGraph.value;
      var y := notchFilter.value.Apply(c, width);
      if y.Err? {
        return Err(y.error);
      }
      var d := g.Update(y.value, width, None, None);
      r := if d.Raised? then Err(d.error) else Ok(());
    }

    /** `self.butter_graph.update(self.butter_filter.apply(chunk))` while the Butterworth flag is set. */
    method ButterTick(c: Chunk, width: nat) returns (r: Result<(), PyError>)
      requires Valid() && Fits(c, width)
      modifies ButterParts()
      ensures Valid()
      ensures (Side(), r) == ButterStage(Config(), old(Side()), c, width)
    {
      if !butterOn {
        return Ok(());
      }
      if butterFilter.None? {
        return Err(AttributeError);
      }
      var g := butterGraph.value;
      var y := butterFilter.value.Apply(c, width);
      if y.Err? {
        return Err(y.error);
      }
      var d := g.Update(y.value, width, None, None);
      r := if d.Raised? then Err(d.error) else Ok(());
    }

    /** The filter part of `main_loop`: the notch graph, then, unless it raised, the Butterworth graph. */
    method FilterTick(c: Chunk, width: nat) returns (r: Result<(), PyError>)
      requires Valid() && Fits(c, width)
      modifies Repr - {this}
      ensures Valid()
      ensures (Side(), r) == TickSpec(Config(), old(Side()), c, width)
    {
      r := NotchTick(c, width);
      if r.Err? {
        return;
      }
      r := ButterTick(c, width);
    }
  }

  /** `TimeSeriesSignal`: the raw viewer it is, its timer, the last chunk and the filter side. */
  class TimeSeriesSignal {
    const fs: real
    /** The raw viewer the controller itself is. */
    const w: SVC.RawSignalViewer
    const filters: FilterGraphs
    /** `main_timer.isActive()`. */
    var timerActive: bool
    /** `self.chunk`, the last pull. */
    var chunk: Option<Chunk>

    ghost predicate Valid()
      reads this, w, w.y, filters, filters.Repr
    {
      && w.Valid() && filters.Valid() && filters.main == w && filters.fs == fs
      && this !in filters.Repr
    }

    /**
     * `TimeSeriesSignal(fs, num_channels, showChannels)`: the raw 5-second viewer, both flags
     * off, no graphs, and the 30 ms timer started by `createTimer`.
     */
    constructor (fs: real, allNames: seq<string>, view: seq<nat>, cosNotch: real, butter: (nat, Design) -> Result<Coeffs, PyError>)
      requires fs >= 0.0 && |view| >= 1 && Distinct(view) && InRange(view, |allNames|)
      requires MonicDesigner(butter)
      ensures Valid() && fresh(w) && fresh(w.y) && fresh(filters.Repr)
      ensures this.fs == fs && filters.allNames == allNames && filters.view == view
      ensures filters.cosNotch == cosNotch && filters.butter == butter
      ensures timerActive && chunk.None?
      ensures filters.Side() == AppSide(false, false, None, None, None, None)
    {
      this.fs := fs;
      var v := new SVC.RawSignalViewer(fs, 5.0, allNames, view);
      w := v;
      filters := new FilterGraphs(fs, allNames, view, cosNotch, butter, v);
      timerActive := true;
      chunk := None;
    }

    /** `start`: starts the timer only when it is inactive. */
    method Start()
      requires Valid()
      modifies this
      ensures Valid() && timerActive && chunk == old(chunk)
    {
      if !timerActive {
        timerActive := true;
      }
    }

    /** `stop`: stops the timer only when it is active. */
    method Stop()
      requires Valid()
      modifies this
      ensures Valid() && !timerActive && chunk == old(chunk)
    {
      if timerActive {
        timerActive := false;
      }
    }

    /**
     * `main_loop` given what `get_next_chunk` pulled: take the chunk; for a real chunk update
     * the controller's own viewer, then the notch graph and then the Butterworth graph with the
     * held filters, an exception ending the tick.
     */
    method MainLoop(pulled: Option<Chunk>, width: nat) returns (r: Result<(), PyError>)
      requires Valid() && (pulled.Some? ==> Fits(pulled.value, width))
      modifies this, w, w.y, filters.Repr - {filters}
      ensures Valid()
      ensures chunk == pulled && timerActive == old(timerActive)
      ensures pulled.None? ==> r.Ok? && w.State() == old(w.State()) && filters.Side() == old(filters.Side())
      ensures pulled.Some? ==>
        var (s, d) := SVC.UpdateSpec(w.layout, old(w.State()), pulled.value, width);
        && w.State() == s
        && (d.Raised? ==> r == Err(d.error) && filters.Side() == old(filters.Side()))
        && (d.Drawn? ==> (filters.Side(), r) == TickSpec(filters.Config(), old(filters.Side()), pulled.value, width))
    {
      chunk := pulled;
      if pulled.None? {
        return Ok(());
      }
      r := Show(pulled.value, width);
    }

    /** `self.update(chunk)` and then, unless it raised, the filtered graphs. */
    method Show(c: Chunk, width: nat) returns (r: Result<(), PyError>)
      requires Valid() && Fits(c, width)
      modifies w, w.y, filters.Repr - {filters}
      ensures Valid()
      ensures var (s, d) := SVC.UpdateSpec(w.layout, old(w.State()), c, width);
        && w.State() == s
        && (d.Raised? ==> r == Err(d.error) && filters.Side() == old(filters.Side()))
        && (d.Drawn? ==> (filters.Side(), r) == TickSpec(filters.Config(), old(filters.Side()), c, width))
    {
      var d := w.Update(c, width, None, None);
      if d.Raised? {
        return Err(d.error);
      }
      r := filters.FilterTick(c, width);
    }
  }
}
