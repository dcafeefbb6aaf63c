/**
 * The filtered-view side of the controllers in TimeSeriesViewer.py and LSLViewer.py: an
 * `apply_filters` flag, the notch and Butterworth filters and the two extra raw viewers (`w2`
 * for the notch output, `w3` for the Butterworth output), and what one `applyFilter` call does
 * to them. The notch filter is rebuilt, with a zero delay line, on every call; the Butterworth
 * filter is rebuilt unless the band edges ask to keep it.
 */
module FilterPanel {
  import opened Wrappers
  import opened WindowSpec
  import opened SignalFilters
  import opened Controls
  import SV = SignalViewer

  /** `mu` of `NotchFilter(60, fs, n_channels)`. */
  const NotchMu: real := 0.05
  /** `order` of `ButterFilter(band, fs, n_channels)`. */
  const ButterOrder: nat := 4

  /** The coefficients and delay line of a filter object. */
  datatype FilterSnap = FilterSnap(coeffs: Coeffs, zi: Chunk)

  /** The state one `applyFilter` call reads and writes. */
  datatype FilterSide = FilterSide(active: bool, notch: Option<FilterSnap>, butter: Option<FilterSnap>,
                                   notchView: SV.Screen, butterView: SV.Screen)

  /**
   * What stays fixed: the rate, the channel count `len(n_channels)`, `cos(2 pi 60 / fs)`, the
   * Butterworth designer and the layouts of the two filtered viewers.
   */
  datatype Params = Params(fs: real, nch: nat, cosNotch: real, butter: (nat, Design) -> Result<Coeffs, PyError>,
                           notchLayout: Layout, butterLayout: Layout)

  predicate SnapOk(f: Option<FilterSnap>, nch: nat) {
    f.Some? ==> FilterState(f.value.coeffs, f.value.zi, nch)
  }

  /** The invariant of the filtered-view side. */
  ghost predicate SideOk(p: Params, s: FilterSide) {
    && MonicDesigner(p.butter)
    && SnapOk(s.notch, p.nch) && SnapOk(s.butter, p.nch)
    && SV.Consistent(p.notchLayout, s.notchView) && SV.Consistent(p.butterLayout, s.butterView)
  }

  /** A filter applied to the pulled chunk and the result shown in a raw viewer. */
  datatype Shown = Shown(zf: Chunk, screen: SV.Screen, outcome: Result<(), PyError>)

  /**
   * `w.update(f.apply(self.chunk))`: filter from delay line `zi`, then update the viewer with
   * the output. A missing chunk makes `lfilter` raise `ValueError` (no sample axis); an error
   * in `lfilter` leaves the delay line and the viewer as they were; an error in the viewer
   * leaves what the viewer's update left.
   */
  function ShowFiltered(c: Coeffs, zi: Chunk, nch: nat, chunk: Option<Chunk>, width: nat, l: Layout, s: SV.Screen): (r: Shown)
    requires FilterState(c, zi, nch) && SV.Consistent(l, s) && (chunk.Some? ==> Fits(chunk.value, width))
    ensures Shaped(r.zf, StateRows(c), nch) && SV.Consistent(l, r.screen)
    ensures chunk.None? ==> r == Shown(zi, s, Err(ValueError))
    ensures chunk.Some? && LFilter(c, chunk.value, width, zi, nch).Ok? ==>
      var f := LFilter(c, chunk.value, width, zi, nch).value;
      && r.zf == f.zf
      && r.screen == SV.UpdateSpec(l, s, f.y, width).0
      && (r.outcome.Ok? <==> SV.UpdateSpec(l, s, f.y, width).1.Drawn?)
    ensures chunk.Some? && LFilter(c, chunk.value, width, zi, nch).Err? ==> r == Shown(zi, s, Err(ValueError))
  {
    if chunk.None? then Shown(zi, s, Err(ValueError))
    else
      var f := LFilter(c, chunk.value, width, zi, nch);
      if f.Err? then Shown(zi, s, Err(f.error))
      else
        SV.UpdateKeepsConsistent(l, s, f.value.y, width);
        var (s', d) := SV.UpdateSpec(l, s, f.value.y, width);
        Shown(f.value.zf, s', if d.Raised? then Err(d.error) else Ok(()))
  }

  /** The notch branch: a new notch filter from a zero delay line, shown in the notch viewer. */
  function NotchSpec(p: Params, s: FilterSide, chunk: Option<Chunk>, width: nat): (r: (FilterSide, Result<(), PyError>))
    requires SideOk(p, s) && (chunk.Some? ==> Fits(chunk.value, width))
    ensures SideOk(p, r.0) && r.0.active && r.0.notch.Some?
    ensures r.0.notch.value.coeffs == NotchCoeffs(NotchMu, p.cosNotch)
    ensures r.0.butter == s.butter && r.0.butterView == s.butterView
  {
    var c := NotchCoeffs(NotchMu, p.cosNotch);
    var sh := ShowFiltered(c, Zeros(2, p.nch), p.nch, chunk, width, p.notchLayout, s.notchView);
    (s.(active := true, notch := Some(FilterSnap(c, sh.zf)), notchView := sh.screen), sh.outcome)
  }

  /**
   * The Butterworth filter the branch goes on to apply: a new one with a zero delay line for
   * the chosen band, or the one already held when the edges ask to keep it. A band the
   * constructor or the designer rejects raises.
   */
  function PreparedButter(p: Params, held: Option<FilterSnap>, low: Option<real>, high: Option<real>)
    : (r: Result<Option<FilterSnap>, PyError>)
    requires MonicDesigner(p.butter)
    ensures r.Ok? && SnapOk(held, p.nch) ==> SnapOk(r.value, p.nch)
    ensures ButterBand(low, high, p.fs).KeepFilter? ==> r == Ok(held)
    ensures ButterBand(low, high, p.fs).Rebuild? && r.Ok? ==>
      r.value.Some? && Monic(r.value.value.coeffs) && r.value.value.zi == Zeros(StateRows(r.value.value.coeffs), p.nch)
  {
    match ButterBand(low, high, p.fs)
    case Rebuild(l, h) =>
      var d := ChooseDesign(l, h, p.fs);
      if d.Err? then Err(d.error)
      else
        var co := p.butter(ButterOrder, d.value);
        if co.Err? then Err(co.error)
        else Ok(Some(FilterSnap(co.value, Zeros(StateRows(co.value), p.nch))))
    case KeepFilter => Ok(held)
  }

  /** Switching filtering on and replacing the Butterworth filter by a well-shaped one keeps the side invariant. */
  lemma SideOkWithButter(p: Params, s: FilterSide, b: Option<FilterSnap>)
    requires SideOk(p, s) && SnapOk(b, p.nch)
    ensures SideOk(p, s.(active := true, butter := b))
  {
  }

  /**
   * The second half of the Butterworth branch: with filtering on and `held` as the filter,
   * apply it and show the output; with no filter at all `None.apply` raises `AttributeError`.
   */
  function UseSpec(p: Params, s: FilterSide, held: Option<FilterSnap>, chunk: Option<Chunk>, width: nat)
    : (r: (FilterSide, Result<(), PyError>))
    requires SideOk(p, s) && SnapOk(held, p.nch) && (chunk.Some? ==> Fits(chunk.value, width))
    ensures SideOk(p, r.0) && r.0.active
    ensures r.0.notch == s.notch && r.0.notchView == s.notchView
    ensures held.None? ==> r == (s.(active := true, butter := None), Err(AttributeError))
  {
    var s1 := s.(active := true, butter := held);
    if held.None? then (s1, Err(AttributeError))
    else
      var g := held.value;
      var sh := ShowFiltered(g.coeffs, g.zi, p.nch, chunk, width, p.butterLayout, s.butterView);
      (s1.(butter := Some(FilterSnap(g.coeffs, sh.zf)), butterView := sh.screen), sh.outcome)
  }

  /** The Butterworth branch once the filter is prepared: an error only switches filtering on. */
  function FinishSpec(p: Params, s: FilterSide, made: Result<Option<FilterSnap>, PyError>, chunk: Option<Chunk>, width: nat)
    : (r: (FilterSide, Result<(), PyError>))
    requires SideOk(p, s) && (made.Ok? ==> SnapOk(made.value, p.nch)) && (chunk.Some? ==> Fits(chunk.value, width))
    ensures SideOk(p, r.0) && r.0.active
    ensures r.0.notch == s.notch && r.0.notchView == s.notchView
    ensures made.Err? ==> r == (s.(active := true), Err(made.error))
  {
    if made.Err? then (s.(active := true), Err(made.error))
    else UseSpec(p, s, made.value, chunk, width)
  }

  /**
   * The Butterworth branch: prepare the filter, where an error leaves the old one, then use
   * it.
   */
  function ButterSpec(p: Params, s: FilterSide, low: Option<real>, high: Option<real>, chunk: Option<Chunk>, width: nat)
    : (r: (FilterSide, Result<(), PyError>))
    requires SideOk(p, s) && (chunk.Some? ==> Fits(chunk.value, width))
    ensures SideOk(p, r.0) && r.0.active
    ensures r.0.notch == s.notch && r.0.notchView == s.notchView
  {
    FinishSpec(p, s, PreparedButter(p, s.butter, low, high), chunk, width)
  }

  /**
   * One `applyFilter` call with the notch and Butterworth boxes as given: the notch branch
   * first, then the Butterworth branch; an exception in the first ends the call.
   */
  function ApplySpec(p: Params, s: FilterSide, notch: bool, butter: bool, low: Option<real>, high: Option<real>,
                     chunk: Option<Chunk>, width: nat): (r: (FilterSide, Result<(), PyError>))
    requires SideOk(p, s) && (chunk.Some? ==> Fits(chunk.value, width))
    ensures SideOk(p, r.0)
    ensures r.0.active == (s.active || notch || butter)
    ensures !notch ==> r.0.notch == s.notch && r.0.notchView == s.notchView
    ensures !butter ==> r.0.butter == s.butter && r.0.butterView == s.butterView
  {
    var (s1, r1) := if notch then NotchSpec(p, s, chunk, width) else (s, Ok(()));
    if r1.Err? then (s1, r1)
    else if butter then ButterSpec(p, s1, low, high, chunk, width)
    else (s1, Ok(()))
  }

  /** A ticked notch box is the notch branch followed by the call with it unticked, unless it raised. */
  lemma NotchThenButter(p: Params, s0: FilterSide, s1: FilterSide, r1: Result<(), PyError>, butter: bool,
                        low: Option<real>, high: Option<real>, chunk: Option<Chunk>, width: nat)
    requires SideOk(p, s0) && (chunk.Some? ==> Fits(chunk.value, width))
    requires (s1, r1) == NotchSpec(p, s0, chunk, width)
    ensures r1.Err? ==> ApplySpec(p, s0, true, butter, low, high, chunk, width) == (s1, r1)
    ensures r1.Ok? ==> ApplySpec(p, s0, true, butter, low, high, chunk, width) == ApplySpec(p, s1, false, butter, low, high, chunk, width)
  {
  }

  /**
   * The notch output has no memory: whatever notch filter the side held before, the notch
   * filter and notch viewer after a call are the same.
   */
  lemma NotchForgets(p: Params, s: FilterSide, earlier: Option<FilterSnap>, low: Option<real>, high: Option<real>,
                     chunk: Option<Chunk>, width: nat)
    requires SideOk(p, s) && SnapOk(earlier, p.nch) && (chunk.Some? ==> Fits(chunk.value, width))
    ensures var a := ApplySpec(p, s, true, false, low, high, chunk, width);
      var b := ApplySpec(p, s.(notch := earlier), true, false, low, high, chunk, width);
      a == b
  {
  }

  /**
   * A kept Butterworth filter carries its delay line: the call filters the chunk from the
   * delay line the previous call left, so two calls with kept filters filter the two chunks
   * as one signal.
   */
  lemma KeptButterCarriesState(p: Params, s: FilterSide, low: Option<real>, high: Option<real>,
                               c1: Chunk, c2: Chunk, width: nat)
    requires SideOk(p, s) && Fits(c1, width) && Fits(c2, width) && width == p.nch
    requires ButterBand(low, high, p.fs).KeepFilter? && s.butter.Some?
    ensures Fits(c1 + c2, width)
    ensures var s1 := ApplySpec(p, s, false, true, low, high, Some(c1), width).0;
      var s2 := ApplySpec(p, s1, false, true, low, high, Some(c2), width).0;
      var once := LFilter(s.butter.value.coeffs, c1 + c2, width, s.butter.value.zi, width);
      once.Ok? && s2.butter == Some(FilterSnap(s.butter.value.coeffs, once.value.zf))
  {
    var f := s.butter.value;
    LFilterConcat(f.coeffs, c1, c2, width, f.zi);
  }

  /** A rebuilt Butterworth filter starts from a zero delay line of the designed order. */
  lemma RebuiltButterStartsFromZero(p: Params, s: FilterSide, low: Option<real>, high: Option<real>,
                                    chunk: Chunk, width: nat)
    requires SideOk(p, s) && Fits(chunk, width) && width == p.nch
    requires ButterBand(low, high, p.fs).Rebuild?
    ensures var ch := ButterBand(low, high, p.fs);
      var d := ChooseDesign(ch.low, ch.high, p.fs);
      var r := ApplySpec(p, s, false, true, low, high, Some(chunk), width);
      && (d.Err? ==> r.1 == Err(d.error) && r.0.butter == s.butter)
      && (d.Ok? && p.butter(ButterOrder, d.value).Ok? ==>
            var co := p.butter(ButterOrder, d.value).value;
            r.0.butter == Some(FilterSnap(co, LFilter(co, chunk, width, Zeros(StateRows(co), p.nch), p.nch).value.zf)))
  {
  }

  /** `v.update(f.apply(chunk))` for a notch filter object, as `ShowFiltered` describes it. */
  method ShowNotchFiltered(f: NotchFilter, v: SV.RawSignalViewer, chunk: Option<Chunk>, width: nat) returns (r: Result<(), PyError>)
    requires f.Valid() && v.Valid() && (chunk.Some? ==> Fits(chunk.value, width))
    modifies f, v, v.y
    ensures f.Valid() && v.Valid()
    ensures var sh := ShowFiltered(f.coeffs, old(f.zi), f.nChannels, chunk, width, v.layout, old(v.State()));
      f.zi == sh.zf && v.State() == sh.screen && r == sh.outcome
  {
    if chunk.None? {
      return Err(ValueError);
    }
    var y := f.Apply(chunk.value, width);
    if y.Err? {
      return Err(y.error);
    }
    var d := v.Update(y.value, width);
    r := if d.Raised? then Err(d.error) else Ok(());
  }

  /** `v.update(f.apply(chunk))` for a Butterworth filter object, as `ShowFiltered` describes it. */
  method ShowButterFiltered(f: ButterFilter, v: SV.RawSignalViewer, chunk: Option<Chunk>, width: nat) returns (r: Result<(), PyError>)
    requires f.Valid() && v.Valid() && (chunk.Some? ==> Fits(chunk.value, width))
    modifies f, v, v.y
    ensures f.Valid() && v.Valid()
    ensures var sh := ShowFiltered(f.coeffs, old(f.zi), f.nChannels, chunk, width, v.layout, old(v.State()));
      f.zi == sh.zf && v.State() == sh.screen && r == sh.outcome
  {
    if chunk.None? {
      return Err(ValueError);
    }
    var y := f.Apply(chunk.value, width);
    if y.Err? {
      return Err(y.error);
    }
    var d := v.Update(y.value, width);
    r := if d.Raised? then Err(d.error) else Ok(());
  }

  /** A Butterworth filter object, if any, as a value. */
  ghost function Snap(f: Option<ButterFilter>): Option<FilterSnap>
    reads if f.Some? then {f.value} else {}
  {
    if f.Some? then Some(FilterSnap(f.value.coeffs, f.value.zi)) else None
  }

  /** A made Butterworth filter, or the exception making it raised, as a value. */
  ghost function MadeSnap(made: Result<Option<ButterFilter>, PyError>): Result<Option<FilterSnap>, PyError>
    reads if made.Ok? && made.value.Some? then {made.value.value} else {}
  {
    if made.Err? then Err(made.error) else Ok(Snap(made.value))
  }

  /**
   * The filtered-view part of a controller: `apply_filters`, `notch_filter`, `butter_filter`
   * and the viewers `w2` (notch output) and `w3` (Butterworth output), with the values the
   * filter constructors need. The band edges stay with the controller and are passed in.
   */
  class FilteredViews {
    const fs: real
    /** `len(self.n_channels)`, the channel count given to the filters. */
    const nChannels: nat
    /** `cos(2 pi 60 / fs)`, the one value of the 60 Hz notch design computed outside. */
    const cosNotch: real
    /** scipy's `butter`. */
    const butter: (nat, Design) -> Result<Coeffs, PyError>
    const w2: SV.RawSignalViewer
    const w3: SV.RawSignalViewer
    /** `self.apply_filters`. */
    var active: bool
    var notchFilter: Option<NotchFilter>
    var butterFilter: Option<ButterFilter>
    /** The objects this part is made of. */
    ghost var Repr: set<object>

    /** The filter objects currently held. */
    ghost function Filters(): set<object>
      reads this
    {
      (if notchFilter.Some? then {notchFilter.value} else {}) + (if butterFilter.Some? then {butterFilter.value} else {})
    }

    /** What stays fixed; only constant fields are read. */
    function Config(): Params
    {
      Params(fs, nChannels, cosNotch, butter, w2.layout, w3.layout)
    }

    /** The Butterworth filter held, as a value. */
    ghost function ButterSnap(): Option<FilterSnap>
      reads this, Filters()
    {
      Snap(butterFilter)
    }

    /** The state as a value. */
    ghost function Side(): FilterSide
      reads this, w2, w2.y, w3, w3.y, Filters()
    {
      FilterSide(active,
                 if notchFilter.Some? then Some(FilterSnap(notchFilter.value.coeffs, notchFilter.value.zi)) else None,
                 ButterSnap(), w2.State(), w3.State())
    }

    ghost predicate Valid()
      reads this, Repr
    {
      && Repr == {this, w2, w2.y, w3, w3.y} + Filters()
      && w2 != w3 && w2.y != w3.y
      && (notchFilter.Some? ==> notchFilter.value.nChannels == nChannels)
      && (butterFilter.Some? ==> butterFilter.value.nChannels == nChannels)
      && SideOk(Config(), Side())
    }

    /** The two filtered 5-second viewers of `setViewer`, filtering off and no filter yet. */
    constructor (fs: real, allNames: seq<string>, view: seq<nat>, cosNotch: real, butter: (nat, Design) -> Result<Coeffs, PyError>)
      requires fs >= 0.0 && |view| >= 1 && Distinct(view) && InRange(view, |allNames|)
      requires MonicDesigner(butter)
      ensures Valid() && fresh(Repr)
      ensures this.fs == fs && nChannels == |allNames| && this.cosNotch == cosNotch && this.butter == butter
      ensures w2.layout == w3.layout == Layout(NSamples(fs, 5.0), 5.0, SelectedNames(allNames, view), view)
      ensures !active && notchFilter.None? && butterFilter.None?
    {
      this.fs := fs;
      nChannels := |allNames|;
      this.cosNotch := cosNotch;
      this.butter := butter;
      w2 := new SV.RawSignalViewer(fs, 5.0, allNames, view);
      w3 := new SV.RawSignalViewer(fs, 5.0, allNames, view);
      active := false;
      notchFilter := None;
      butterFilter := None;
      new;
      Repr := {this, w2, w2.y, w3, w3.y};
    }

    /** `if self.apply_filters == True: self.apply_filters = False`. */
    method SwitchOff()
      requires Valid()
      modifies this
      ensures Valid() && Side() == old(Side()).(active := false)
    {
      if active {
        active := false;
      }
    }

    /** `if self.apply_filters == False: self.apply_filters = True`. */
    method SwitchOn()
      requires Valid()
      modifies this
      ensures Valid() && Side() == old(Side()).(active := true)
    {
      if !active {
        active := true;
      }
    }

    /** The notch branch of `applyFilter`: a new `NotchFilter(60, fs, n)` applied and shown in `w2`. */
    method NotchBranch(chunk: Option<Chunk>, width: nat) returns (r: Result<(), PyError>)
      requires Valid() && (chunk.Some? ==> Fits(chunk.value, width))
      modifies this, w2, w2.y
      ensures Valid() && butterFilter == old(butterFilter)
      ensures (Side(), r) == NotchSpec(Config(), old(Side()), chunk, width)
    {
      active := true;
      var f := new NotchFilter(nChannels, NotchMu, cosNotch);
      notchFilter := Some(f);
      Repr := {this, w2, w2.y, w3, w3.y} + Filters();
      r := ShowNotchFiltered(f, w2, chunk, width);
    }

    /**
     * The first half of the Butterworth branch: the `ButterFilter` for the band the edges
     * choose, or the held one when they ask to keep it.
     */
    method MakeButter(low: Option<real>, high: Option<real>) returns (r: Result<Option<ButterFilter>, PyError>)
      requires Valid()
      ensures MadeSnap(r) == PreparedButter(Config(), ButterSnap(), low, high)
      ensures r.Ok? && r.value.Some? ==> r.value.value.Valid() && r.value.value.nChannels == nChannels
      ensures r.Ok? && r.value != butterFilter ==> r.value.Some? && fresh(r.value.value)
    {
      var choice := ButterBand(low, high, fs);
      if choice.KeepFilter? {
        return Ok(butterFilter);
      }
      var made := NewButterFilter(choice.low, choice.high, fs, nChannels, ButterOrder, butter);
      if made.Err? {
        return Err(made.error);
      }
      r := Ok(Some(made.value));
    }

    /** Filtering switched on and `self.butter_filter` set to `f`. */
    method Install(f: Option<ButterFilter>)
      requires Valid() && (f.Some? ==> f.value.Valid() && f.value.nChannels == nChannels)
      modifies this
      ensures Valid() && Side() == old(Side()).(active := true, butter := Snap(f))
      ensures butterFilter == f
    {
      ghost var s0 := Side();
      active := true;
      butterFilter := f;
      Repr := {this, w2, w2.y, w3, w3.y} + Filters();
      assert Side() == s0.(active := true, butter := Snap(f));
      SideOkWithButter(Config(), s0, Snap(f));
    }

    /** The second half of the Butterworth branch: apply the held filter and show the output in `w3`. */
    method ShowButter(chunk: Option<Chunk>, width: nat) returns (r: Result<(), PyError>)
      requires Valid() && butterFilter.Some? && (chunk.Some? ==> Fits(chunk.value, width))
      modifies w3, w3.y, butterFilter.value
      ensures Valid()
      ensures var f := old(Side()).butter.value;
        var sh := ShowFiltered(f.coeffs, f.zi, nChannels, chunk, width, w3.layout, old(w3.State()));
        && Side() == old(Side()).(butter := Some(FilterSnap(f.coeffs, sh.zf)), butterView := sh.screen)
        && r == sh.outcome
    {
      var f := butterFilter.value;
      r := ShowButterFiltered(f, w3, chunk, width);
    }

    /** `self.butter_filter = f` with filtering on, then `w3.update(self.butter_filter.apply(self.chunk))`. */
    method UseButter(f: Option<ButterFilter>, chunk: Option<Chunk>, width: nat) returns (r: Result<(), PyError>)
      requires Valid() && (f.Some? ==> f.value.Valid() && f.value.nChannels == nChannels)
      requires chunk.Some? ==> Fits(chunk.value, width)
      modifies this, w3, w3.y, (if f.Some? then {f.value} else {})
      ensures Valid()
      ensures (Side(), r) == UseSpec(Config(), old(Side()), old(Snap(f)), chunk, width)
    {
      Install(f);
      if butterFilter.None? {
        r := Err(AttributeError);
      } else {
        r := ShowButter(chunk, width);
      }
    }

    /** The Butterworth branch once the filter is made: an error only switches filtering on. */
    method Finish(made: Result<Option<ButterFilter>, PyError>, chunk: Option<Chunk>, width: nat) returns (r: Result<(), PyError>)
      requires Valid() && (chunk.Some? ==> Fits(chunk.value, width))
      requires made.Ok? && made.value.Some? ==> made.value.value.Valid() && made.value.value.nChannels == nChannels
      modifies this, w3, w3.y, (if made.Ok? && made.value.Some? then {made.value.value} else {})
      ensures Valid()
      ensures (Side(), r) == FinishSpec(Config(), old(Side()), old(MadeSnap(made)), chunk, width)
    {
      if made.Err? {
        SwitchOn();
        r := Err(made.error);
      } else {
        r := UseButter(made.value, chunk, width);
      }
    }

    /**
     * The Butterworth branch of `applyFilter`: rebuild `ButterFilter` for the band the edges
     * choose, or keep the old one, then apply it and show the output in `w3`.
     */
    method ButterBranch(low: Option<real>, high: Option<real>, chunk: Option<Chunk>, width: nat) returns (r: Result<(), PyError>)
      requires Valid() && (chunk.Some? ==> Fits(chunk.value, width))
      modifies this, w3, w3.y, (if butterFilter.Some? then {butterFilter.value} else {})
      ensures Valid()
      ensures (Side(), r) == ButterSpec(Config(), old(Side()), low, high, chunk, width)
    {
      // building the filter changes nothing else, so it may come before `apply_filters = True`
      var made := MakeButter(low, high);
      r := Finish(made, chunk, width);
    }

    /** `applyFilter` with the notch box unticked: the Butterworth branch alone, if ticked. */
    method ApplyWithoutNotch(butter: bool, low: Option<real>, high: Option<real>, chunk: Option<Chunk>, width: nat)
      returns (r: Result<(), PyError>)
      requires Valid() && (chunk.Some? ==> Fits(chunk.value, width))
      modifies this, w3, w3.y, (if butterFilter.Some? then {butterFilter.value} else {})
      ensures Valid()
      ensures (Side(), r) == ApplySpec(Config(), old(Side()), false, butter, low, high, chunk, width)
    {
      r := Ok(());
      if butter {
        r := ButterBranch(low, high, chunk, width);
      }
    }

    /** `applyFilter` with the notch box ticked: the notch branch, then the Butterworth one unless it raised. */
    method ApplyWithNotch(butter: bool, low: Option<real>, high: Option<real>, chunk: Option<Chunk>, width: nat)
      returns (r: Result<(), PyError>)
      requires Valid() && (chunk.Some? ==> Fits(chunk.value, width))
      modifies this, w2, w2.y, w3, w3.y, (if butterFilter.Some? then {butterFilter.value} else {})
      ensures Valid()
      ensures (Side(), r) == ApplySpec(Config(), old(Side()), true, butter, low, high, chunk, width)
    {
      ghost var s0 := Side();
      r := NotchBranch(chunk, width);
      ghost var s1 := Side();
      NotchThenButter(Config(), s0, s1, r, butter, low, high, chunk, width);
      if r.Ok? {
        r := ApplyWithoutNotch(butter, low, high, chunk, width);
      }
    }

    /**
     * The filter part of `applyFilter` for the notch and Butterworth boxes as given: the notch
     * branch, then the Butterworth branch, an exception in the first ending the call.
     */
    method Apply(notch: bool, butter: bool, low: Option<real>, high: Option<real>, chunk: Option<Chunk>, width: nat)
      returns (r: Result<(), PyError>)
      requires Valid() && (chunk.Some? ==> Fits(chunk.value, width))
      modifies Repr
      ensures Valid()
      ensures (Side(), r) == ApplySpec(Config(), old(Side()), notch, butter, low, high, chunk, width)
    {
      if notch {
        r := ApplyWithNotch(butter, low, high, chunk, width);
      } else {
        r := ApplyWithoutNotch(butter, low, high, chunk, width);
      }
    }
  }
}
