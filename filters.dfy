/**
 * The IIR filters of application/Widgets/SignalFilters.py. A filter owns its coefficients
 * `b`, `a` and a delay line `zi` of `max(len(b), len(a)) - 1` rows and one column per channel.
 * `apply` runs scipy's `lfilter` along the sample axis from `zi` and keeps the final delay line,
 * so consecutive chunks are filtered as one continuous signal. `lfilter` is modelled as the
 * direct-form II transposed recurrence over reals; the coefficient values (`cos`, `butter`)
 * are supplied from outside.
 */
module SignalFilters {
  import opened Wrappers
  import opened WindowSpec

  /** Numerator `b` and denominator `a` of a filter. */
  datatype Coeffs = Coeffs(b: seq<real>, a: seq<real>)

  /**
   * The coefficients this code ever filters with: both vectors non-empty and `a[0] == 1`
   * (the notch builds `a` with a leading 1, and scipy's `butter` normalises `a[0]` to 1), so
   * `lfilter`'s division by `a[0]` is the identity.
   */
  predicate Monic(c: Coeffs) {
    |c.b| >= 1 && |c.a| >= 1 && c.a[0] == 1.0
  }

  function Max(x: nat, y: nat): (m: nat)
    ensures m >= x && m >= y && (m == x || m == y)
  {
    if x >= y then x else y
  }

  /** `max(len(b), len(a)) - 1`: the number of rows of the delay line. */
  function StateRows(c: Coeffs): (k: nat)
    requires Monic(c)
    ensures k + 1 == |c.b| || k + 1 == |c.a|
    ensures k + 1 >= |c.b| && k + 1 >= |c.a|
  {
    Max(|c.b|, |c.a|) - 1
  }

  /** `np.zeros((rows, cols))`. */
  function Zeros(rows: nat, cols: nat): (z: Chunk)
    ensures |z| == rows && forall i :: 0 <= i < rows ==> z[i] == seq(cols, j => 0.0)
  {
    seq(rows, i => seq(cols, j => 0.0))
  }

  /** `zi` has `rows` rows of `cols` entries each. */
  predicate Shaped(zi: Chunk, rows: nat, cols: nat) {
    |zi| == rows && Fits(zi, cols)
  }

  /** The notch coefficients for `mu` and `cos(w0)`, `w0 = 2 pi f0 / fs`. */
  function NotchCoeffs(mu: real, cosW0: real): (c: Coeffs)
    ensures Monic(c) && |c.b| == 3 && |c.a| == 3 && StateRows(c) == 2
    ensures c.b[0] == c.b[2] == 1.0 - mu && c.a[2] == 1.0 - 2.0 * mu
  {
    Coeffs([1.0 * (1.0 - mu), -2.0 * cosW0 * (1.0 - mu), 1.0 * (1.0 - mu)],
           [1.0, 2.0 * (mu - 1.0) * cosW0, 1.0 - 2.0 * mu])
  }

  /** `s` extended with zeros to length `k`. */
  function Padded(s: seq<real>, k: nat): (p: seq<real>)
    requires |s| <= k
    ensures |p| == k && p[..|s|] == s && forall i :: |s| <= i < k ==> p[i] == 0.0
  {
    s + seq(k - |s|, i => 0.0)
  }

  /** One output sample: `y = b[0] x + z[0]`. */
  function StepOut(b: seq<real>, z: seq<real>, x: real): real
    requires |b| == |z| + 1
  {
    b[0] * x + (if |z| > 0 then z[0] else 0.0)
  }

  /** The delay line after one sample: `z'[i] = b[i+1] x - a[i+1] y + z[i+1]`, `z[K-1] = 0`. */
  function StepState(b: seq<real>, a: seq<real>, z: seq<real>, x: real, y: real): (z': seq<real>)
    requires |b| == |a| == |z| + 1
    ensures |z'| == |z|
  {
    seq(|z|, i requires 0 <= i < |z| => b[i + 1] * x - a[i + 1] * y + (if i + 1 < |z| then z[i + 1] else 0.0))
  }

  /** The recurrence over one channel: (outputs, final delay line). */
  function Run(b: seq<real>, a: seq<real>, z: seq<real>, xs: seq<real>): (r: (seq<real>, seq<real>))
    requires |b| == |a| == |z| + 1
    ensures |r.0| == |xs| && |r.1| == |z|
    decreases |xs|
  {
    if |xs| == 0 then ([], z)
    else
      var y := StepOut(b, z, xs[0]);
      var rest := Run(b, a, StepState(b, a, z, xs[0], y), xs[1..]);
      ([y] + rest.0, rest.1)
  }

  /**
   * Filtering `xs ++ ys` from delay line `z` is filtering `xs`, then `ys` from the delay
   * line `xs` left behind.
   */
  lemma {:induction false} RunConcat(b: seq<real>, a: seq<real>, z: seq<real>, xs: seq<real>, ys: seq<real>)
    requires |b| == |a| == |z| + 1
    ensures var first := Run(b, a, z, xs);
      var second := Run(b, a, first.1, ys);
      Run(b, a, z, xs + ys) == (first.0 + second.0, second.1)
    decreases |xs|
  {
    if |xs| == 0 {
      assert xs + ys == ys;
      var second := Run(b, a, z, ys);
      assert Run(b, a, z, xs).0 + second.0 == second.0;
    } else {
      var y := StepOut(b, z, xs[0]);
      var z1 := StepState(b, a, z, xs[0], y);
      assert (xs + ys)[0] == xs[0];
      assert (xs + ys)[1..] == xs[1..] + ys;
      RunConcat(b, a, z1, xs[1..], ys);
      var first := Run(b, a, z1, xs[1..]);
      var second := Run(b, a, first.1, ys);
      assert [y] + (first.0 + second.0) == ([y] + first.0) + second.0;
    }
  }

  /** Column `c` of a matrix. */
  function ColumnOf(m: Chunk, c: nat): (col: seq<real>)
    requires forall i :: 0 <= i < |m| ==> c < |m[i]|
    ensures |col| == |m| && forall i :: 0 <= i < |m| ==> col[i] == m[i][c]
  {
    seq(|m|, i requires 0 <= i < |m| => m[i][c])
  }

  /** The result of `lfilter(b, a, chunk, axis=0, zi=zi)`: output and final delay line. */
  datatype Filtered = Filtered(y: Chunk, zf: Chunk)

  /** Channel `ch` of a chunk run through the recurrence from its column of `zi`. */
  function ChannelRun(c: Coeffs, chunk: Chunk, width: nat, zi: Chunk, ch: nat): (r: (seq<real>, seq<real>))
    requires Monic(c) && Fits(chunk, width) && Shaped(zi, StateRows(c), width) && ch < width
    ensures |r.0| == |chunk| && |r.1| == StateRows(c)
  {
    var k := StateRows(c) + 1;
    Run(Padded(c.b, k), Padded(c.a, k), ColumnOf(zi, ch), ColumnOf(chunk, ch))
  }

  /**
   * `lfilter` along axis 0 with initial state `zi` of `nch` columns: every channel is filtered
   * independently; a chunk whose channel count differs from `zi`'s is a `ValueError`.
   */
  function LFilter(c: Coeffs, chunk: Chunk, width: nat, zi: Chunk, nch: nat): (r: Result<Filtered, PyError>)
    requires Monic(c) && Fits(chunk, width) && Shaped(zi, StateRows(c), nch)
    ensures r.Err? <==> width != nch
    ensures r.Ok? ==> Fits(r.value.y, width) && |r.value.y| == |chunk| && Shaped(r.value.zf, StateRows(c), nch)
  {
    if width != nch then Err(ValueError)
    else
      Ok(Filtered(seq(|chunk|, n requires 0 <= n < |chunk| =>
                        seq(width, ch requires 0 <= ch < width => ChannelRun(c, chunk, width, zi, ch).0[n])),
                  seq(StateRows(c), i requires 0 <= i < StateRows(c) =>
                        seq(width, ch requires 0 <= ch < width => ChannelRun(c, chunk, width, zi, ch).1[i]))))
  }

  lemma ColumnOfConcat(m1: Chunk, m2: Chunk, width: nat, ch: nat)
    requires Fits(m1, width) && Fits(m2, width) && ch < width
    ensures Fits(m1 + m2, width) && ColumnOf(m1 + m2, ch) == ColumnOf(m1, ch) + ColumnOf(m2, ch)
  {
  }

  /**
   * State carries across calls: filtering `c1` and then `c2` from the delay line the first
   * call returned gives the outputs and final delay line of filtering `c1 ++ c2` at once.
   */
  lemma LFilterConcat(c: Coeffs, c1: Chunk, c2: Chunk, width: nat, zi: Chunk)
    requires Monic(c) && Fits(c1, width) && Fits(c2, width) && Shaped(zi, StateRows(c), width)
    ensures Fits(c1 + c2, width)
    ensures var f1 := LFilter(c, c1, width, zi, width).value;
      var f2 := LFilter(c, c2, width, f1.zf, width).value;
      LFilter(c, c1 + c2, width, zi, width) == Ok(Filtered(f1.y + f2.y, f2.zf))
  {
    var k := StateRows(c) + 1;
    var pb, pa := Padded(c.b, k), Padded(c.a, k);
    var f1 := LFilter(c, c1, width, zi, width).value;
    var f2 := LFilter(c, c2, width, f1.zf, width).value;
    var f := LFilter(c, c1 + c2, width, zi, width).value;
    forall ch | 0 <= ch < width
      ensures ChannelRun(c, c1 + c2, width, zi, ch)
              == (ChannelRun(c, c1, width, zi, ch).0 + ChannelRun(c, c2, width, f1.zf, ch).0,
                  ChannelRun(c, c2, width, f1.zf, ch).1)
    {
      ColumnOfConcat(c1, c2, width, ch);
      assert ColumnOf(f1.zf, ch) == ChannelRun(c, c1, width, zi, ch).1;
      RunConcat(pb, pa, ColumnOf(zi, ch), ColumnOf(c1, ch), ColumnOf(c2, ch));
    }
    assert f.y == f1.y + f2.y by {
      forall n | 0 <= n < |c1 + c2|
        ensures f.y[n] == (f1.y + f2.y)[n]
      {
        if n < |c1| {
          assert f.y[n] == f1.y[n];
        } else {
          assert f.y[n] == f2.y[n - |c1|];
        }
      }
    }
    assert f.zf == f2.zf by {
      forall i | 0 <= i < StateRows(c)
        ensures f.zf[i] == f2.zf[i]
      {
        assert forall ch :: 0 <= ch < width ==> f.zf[i][ch] == f2.zf[i][ch];
      }
    }
  }

  /** A filter that starts from a zero delay line and sees only zeros puts out only zeros. */
  lemma {:induction false} RunSilence(b: seq<real>, a: seq<real>, z: seq<real>, xs: seq<real>)
    requires |b| == |a| == |z| + 1
    requires forall i :: 0 <= i < |z| ==> z[i] == 0.0
    requires forall i :: 0 <= i < |xs| ==> xs[i] == 0.0
    ensures forall i :: 0 <= i < |xs| ==> Run(b, a, z, xs).0[i] == 0.0
    ensures forall i :: 0 <= i < |z| ==> Run(b, a, z, xs).1[i] == 0.0
    decreases |xs|
  {
    if |xs| > 0 {
      var y := StepOut(b, z, xs[0]);
      assert y == 0.0;
      RunSilence(b, a, StepState(b, a, z, xs[0], y), xs[1..]);
    }
  }

  /** Both filter classes expose the same delay-line invariant. */
  predicate FilterState(c: Coeffs, zi: Chunk, nch: nat) {
    Monic(c) && Shaped(zi, StateRows(c), nch)
  }

  /** `NotchFilter(f0, fs, n_channels, mu)`, given `cos(2 pi f0 / fs)`. */
  class NotchFilter {
    const nChannels: nat
    const coeffs: Coeffs
    var zi: Chunk

    ghost predicate Valid()
      reads this
    {
      FilterState(coeffs, zi, nChannels)
    }

    constructor (nch: nat, mu: real, cosW0: real)
      ensures Valid() && nChannels == nch && coeffs == NotchCoeffs(mu, cosW0)
      ensures zi == Zeros(2, nch)
    {
      nChannels := nch;
      coeffs := NotchCoeffs(mu, cosW0);
      zi := Zeros(2, nch);
    }

    /** `apply(chunk)`: the filtered chunk; on success `zi` becomes the final delay line. */
    method Apply(chunk: Chunk, width: nat) returns (r: Result<Chunk, PyError>)
      requires Valid() && Fits(chunk, width)
      modifies this
      ensures Valid()
      ensures var f := LFilter(coeffs, chunk, width, old(zi), nChannels);
        && (f.Ok? ==> r == Ok(f.value.y) && zi == f.value.zf)
        && (f.Err? ==> r == Err(f.error) && zi == old(zi))
    {
      var f := LFilter(coeffs, chunk, width, zi, nChannels);
      if f.Err? {
        return Err(f.error);
      }
      zi := f.value.zf;
      r := Ok(f.value.y);
    }

    /** `reset()`: a zero delay line of the same shape; the coefficients stay. */
    method Reset()
      requires Valid()
      modifies this
      ensures Valid() && zi == Zeros(StateRows(coeffs), nChannels)
    {
      zi := Zeros(StateRows(coeffs), nChannels);
    }
  }

  /** The Butterworth design `ButterFilter` asks for, at normalised frequencies. */
  datatype Design = LowPass(cutoff: real) | HighPass(cutoff: real) | BandPass(lo: real, hi: real)

  /**
   * The band dispatch of `ButterFilter(band, fs, ...)`: both edges missing is a `ValueError`;
   * a missing low edge asks for a low-pass at `high/fs*2`, a missing high edge for a high-pass
   * at `low/fs*2`, two edges for a band-pass; dividing by a zero rate raises.
   */
  function ChooseDesign(low: Option<real>, high: Option<real>, fs: real): (r: Result<Design, PyError>)
    ensures r == Err(ValueError) <==> low.None? && high.None?
    ensures r == Err(ZeroDivisionError) <==> (low.Some? || high.Some?) && fs == 0.0
    ensures r.Ok? ==> (r.value.LowPass? <==> low.None?) && (r.value.HighPass? <==> high.None?)
    ensures r.Ok? && r.value.LowPass? ==> r.value.cutoff * fs == high.value * 2.0
    ensures r.Ok? && r.value.HighPass? ==> r.value.cutoff * fs == low.value * 2.0
    ensures r.Ok? && r.value.BandPass? ==> r.value.lo * fs == low.value * 2.0 && r.value.hi * fs == high.value * 2.0
  {
    if low.None? && high.None? then Err(ValueError)
    else if fs == 0.0 then Err(ZeroDivisionError)
    else if low.None? then Ok(LowPass(high.value / fs * 2.0))
    else if high.None? then Ok(HighPass(low.value / fs * 2.0))
    else Ok(BandPass(low.value / fs * 2.0, high.value / fs * 2.0))
  }

  /** `ButterFilter`, holding the design it was built for. */
  class ButterFilter {
    const nChannels: nat
    const design: Design
    const coeffs: Coeffs
    var zi: Chunk

    ghost predicate Valid()
      reads this
    {
      FilterState(coeffs, zi, nChannels)
    }

    constructor (d: Design, c: Coeffs, nch: nat)
      requires Monic(c)
      ensures Valid() && design == d && coeffs == c && nChannels == nch
      ensures zi == Zeros(StateRows(c), nch)
    {
      nChannels := nch;
      design := d;
      coeffs := c;
      zi := Zeros(StateRows(c), nch);
    }

    /** `apply(chunk)`: the filtered chunk; on success `zi` becomes the final delay line. */
    method Apply(chunk: Chunk, width: nat) returns (r: Result<Chunk, PyError>)
      requires Valid() && Fits(chunk, width)
      modifies this
      ensures Valid()
      ensures var f := LFilter(coeffs, chunk, width, old(zi), nChannels);
        && (f.Ok? ==> r == Ok(f.value.y) && zi == f.value.zf)
        && (f.Err? ==> r == Err(f.error) && zi == old(zi))
    {
      var f := LFilter(coeffs, chunk, width, zi, nChannels);
      if f.Err? {
        return Err(f.error);
      }
      zi := f.value.zf;
      r := Ok(f.value.y);
    }

    /** `reset()`: a zero delay line of the same shape; the coefficients stay. */
    method Reset()
      requires Valid()
      modifies this
      ensures Valid() && zi == Zeros(StateRows(coeffs), nChannels)
    {
      zi := Zeros(StateRows(coeffs), nChannels);
    }
  }

  /** What the designer `butter(order, Wn, btype)` returns is monic whenever it succeeds. */
  ghost predicate MonicDesigner(butter: (nat, Design) -> Result<Coeffs, PyError>) {
    forall order: nat, d: Design :: butter(order, d).Ok? ==> Monic(butter(order, d).value)
  }

  /**
   * `ButterFilter((low, high), fs, n_channels, order)`. `butter` stands for scipy's designer,
   * which may itself reject a band with a `ValueError`.
   */
  method NewButterFilter(low: Option<real>, high: Option<real>, fs: real, nch: nat, order: nat,
                         butter: (nat, Design) -> Result<Coeffs, PyError>)
    returns (r: Result<ButterFilter, PyError>)
    requires MonicDesigner(butter)
    ensures ChooseDesign(low, high, fs).Err? ==> r == Err(ChooseDesign(low, high, fs).error)
    ensures ChooseDesign(low, high, fs).Ok? ==>
      var d := ChooseDesign(low, high, fs).value;
      && (butter(order, d).Err? ==> r == Err(butter(order, d).error))
      && (butter(order, d).Ok? ==>
            && r.Ok? && fresh(r.value) && r.value.Valid()
            && r.value.design == d && r.value.coeffs == butter(order, d).value && r.value.nChannels == nch
            && r.value.zi == Zeros(StateRows(r.value.coeffs), nch))
  {
    var d := ChooseDesign(low, high, fs);
    if d.Err? {
      return Err(d.error);
    }
    var c := butter(order, d.value);
    if c.Err? {
      return Err(c.error);
    }
    var f := new ButterFilter(d.value, c.value, nch);
    r := Ok(f);
  }
}
