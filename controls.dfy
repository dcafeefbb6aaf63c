/**
 * Control logic the viewer controllers of TimeSeriesViewer.py, LSLViewer.py and
 * application/Widgets/TimeSeriesViewer.py share: band-edge edits (`lowPass`, `highPass`) and
 * the per-tick choice of the Butterworth band.
 */
module Controls {
  import opened Wrappers

  /** The text of a band edit box as `float(text)` sees it. */
  datatype Entry = Blank | Number(value: real) | NotANumber

  /** The smallest low edge `lowPass` accepts. */
  const MinLow: real := 0.1

  /** A low edge the controllers can hold: absent, or at least 0.1 Hz. */
  predicate LowOk(low: Option<real>) {
    low.None? || low.value >= MinLow
  }

  /** A high edge the controllers can hold: absent, or below the Nyquist rate `fs/2`. */
  predicate HighOk(high: Option<real>, fs: real) {
    high.None? || high.value < fs / 2.0
  }

  /**
   * `lowPass`: an empty box clears the edge, a number of at least 0.1 becomes the edge, a
   * smaller number is ignored, and text `float` cannot parse raises `ValueError`.
   */
  function LowEdge(low: Option<real>, e: Entry): (r: Result<Option<real>, PyError>)
    ensures r.Err? <==> e.NotANumber?
    ensures r.Err? ==> r.error == ValueError
    ensures r.Ok? && LowOk(low) ==> LowOk(r.value)
    ensures e.Number? ==> (r.value == Some(e.value) <==> e.value >= MinLow || low == Some(e.value))
    ensures e.Number? && e.value < MinLow ==> r.value == low
    ensures e.Blank? ==> r.value.None?
  {
    match e
    case Blank => Ok(None)
    case Number(v) => Ok(if MinLow <= v then Some(v) else low)
    case NotANumber => Err(ValueError)
  }

  /**
   * `highPass`: an empty box clears the edge, a number below `fs/2` becomes the edge, any
   * other number is ignored, and unparsable text raises `ValueError`.
   */
  function HighEdge(high: Option<real>, e: Entry, fs: real): (r: Result<Option<real>, PyError>)
    ensures r.Err? <==> e.NotANumber?
    ensures r.Err? ==> r.error == ValueError
    ensures r.Ok? && HighOk(high, fs) ==> HighOk(r.value, fs)
    ensures e.Number? ==> (r.value == Some(e.value) <==> e.value < fs / 2.0 || high == Some(e.value))
    ensures e.Number? && e.value >= fs / 2.0 ==> r.value == high
    ensures e.Blank? ==> r.value.None?
  {
    match e
    case Blank => Ok(None)
    case Number(v) => Ok(if v < fs / 2.0 then Some(v) else high)
    case NotANumber => Err(ValueError)
  }

  /** Editing the same text twice leaves the edges where one edit put them. */
  lemma EdgeEditsIdempotent(low: Option<real>, high: Option<real>, e: Entry, fs: real)
    requires e.Number? || e.Blank?
    ensures LowEdge(LowEdge(low, e).value, e) == LowEdge(low, e)
    ensures HighEdge(HighEdge(high, e, fs).value, e, fs) == HighEdge(high, e, fs)
  {
  }

  /** Python truthiness of an optional float: present and non-zero. */
  predicate Truthy(x: Option<real>) {
    x.Some? && x.value != 0.0
  }

  /** `(0.1, fs/2 - 0.001)`: the band used when no edge is set. */
  function DefaultBand(fs: real): (band: (Option<real>, Option<real>))
    ensures band.0 == Some(MinLow) && band.1.Some? && band.1.value < fs / 2.0
  {
    (Some(MinLow), Some(fs / 2.0 - 0.001))
  }

  /** What a tick of `applyFilter` does with the Butterworth filter. */
  datatype ButterChoice = Rebuild(low: Option<real>, high: Option<real>) | KeepFilter

  /**
   * The choice in `applyFilter`: rebuild for `(low, high)` when either edge is truthy, rebuild
   * for the default band when both are `None`, and otherwise keep the filter already there.
   */
  function ButterBand(low: Option<real>, high: Option<real>, fs: real): (c: ButterChoice)
    ensures c.Rebuild? ==> c.low.Some? || c.high.Some?
    ensures (Truthy(low) || Truthy(high)) ==> c == Rebuild(low, high)
    ensures low.None? && high.None? ==> c == Rebuild(DefaultBand(fs).0, DefaultBand(fs).1)
    ensures c.KeepFilter? <==> !Truthy(low) && !Truthy(high) && (low.Some? || high.Some?)
  {
    if Truthy(low) || Truthy(high) then Rebuild(low, high)
    else if low.None? && high.None? then Rebuild(DefaultBand(fs).0, DefaultBand(fs).1)
    else KeepFilter
  }

  /**
   * With edges that `lowPass`/`highPass` accepted, the filter is kept only when the low edge
   * is absent and the high edge is exactly 0, which `highPass` accepts because 0 is below
   * `fs/2` for any positive rate.
   */
  lemma KeepOnlyForZeroHigh(low: Option<real>, high: Option<real>, fs: real)
    requires LowOk(low) && HighOk(high, fs)
    ensures ButterBand(low, high, fs).KeepFilter? <==> low.None? && high == Some(0.0)
  {
  }
}
