/**
 * viz/rt_timeseries.py: `Grapher` keeps the last `buffer_size` samples of an LSL stream as one
 * flat, interleaved buffer `gbuffer` (`buffer_size * channel_count` values) with the matching
 * timestamps `gtimes`; every tick drains the inlet, shifts the buffers left by what arrived and
 * writes the new values at the end, and hands each channel its strided slice. `XYGrapher` keeps
 * sliding windows of the first two channels.
 *
 * The inlet is a parameter: the chunks successive `pull_chunk` calls return, in order; past the
 * recorded ones it returns nothing.
 */
module RtTimeseries {
  import opened Wrappers
  import opened Arith

  /** What one `pull_chunk` returns: the samples and their timestamps. */
  datatype Chunk = Chunk(samples: seq<seq<real>>, stamps: seq<real>)

  /** Pull number `i`; an inlet with nothing more returns an empty chunk. */
  function PullAt(pulls: seq<Chunk>, i: nat): (c: Chunk)
    ensures i >= |pulls| ==> c.samples == []
  {
    if i < |pulls| then pulls[i] else Chunk([], [])
  }

  /** The position of the first pull without samples, where `while c:` stops. */
  function FirstEmpty(pulls: seq<Chunk>): (k: nat)
    ensures k <= |pulls|
    ensures forall i :: 0 <= i < k ==> |pulls[i].samples| > 0
    ensures k < |pulls| ==> |pulls[k].samples| == 0
  {
    if |pulls| == 0 || |pulls[0].samples| == 0 then 0
    else
      var k := FirstEmpty(pulls[1..]);
      assert forall i :: 1 <= i < k + 1 ==> pulls[i] == pulls[1..][i - 1];
      k + 1
  }

  /** `new_c += c` over the chunks, in arrival order. */
  function Samples(cs: seq<Chunk>): seq<seq<real>> {
    if |cs| == 0 then [] else Samples(cs[..|cs| - 1]) + cs[|cs| - 1].samples
  }

  /** `new_t += t` over the chunks, in arrival order. */
  function Stamps(cs: seq<Chunk>): seq<real> {
    if |cs| == 0 then [] else Stamps(cs[..|cs| - 1]) + cs[|cs| - 1].stamps
  }

  /** What the drain loop collects: every chunk before the first empty pull. */
  function Drained(pulls: seq<Chunk>): (seq<seq<real>>, seq<real>) {
    var k := FirstEmpty(pulls);
    (Samples(pulls[..k]), Stamps(pulls[..k]))
  }

  /** Collecting is concatenation: the chunks of `a` and then those of `b`. */
  lemma {:induction false} SamplesAppend(a: seq<Chunk>, b: seq<Chunk>)
    ensures Samples(a + b) == Samples(a) + Samples(b)
    ensures Stamps(a + b) == Stamps(a) + Stamps(b)
    decreases |b|
  {
    if |b| > 0 {
      assert (a + b)[..|a + b| - 1] == a + b[..|b| - 1];
      SamplesAppend(a, b[..|b| - 1]);
    } else {
      assert a + b == a;
    }
  }

  /** Nothing after the first empty pull is collected, and everything before it is, in order. */
  lemma DrainStopsAtFirstEmpty(a: seq<Chunk>, e: Chunk, b: seq<Chunk>)
    requires forall i :: 0 <= i < |a| ==> |a[i].samples| > 0
    requires |e.samples| == 0
    ensures Drained(a + [e] + b) == (Samples(a), Stamps(a))
  {
    var p := a + [e] + b;
    assert p[|a|] == e;
    assert forall i :: 0 <= i < |a| ==> p[i] == a[i];
    FirstEmptyIs(p, |a|);
    assert p[..|a|] == a;
  }

  /** `FirstEmpty` is the position the loop reaches. */
  lemma {:induction false} FirstEmptyIs(pulls: seq<Chunk>, k: nat)
    requires k <= |pulls|
    requires forall i :: 0 <= i < k ==> |pulls[i].samples| > 0
    requires k == |pulls| || |pulls[k].samples| == 0
    ensures FirstEmpty(pulls) == k
  {
    if |pulls| > 0 && |pulls[0].samples| > 0 {
      assert forall i :: 0 <= i < k - 1 ==> pulls[1..][i] == pulls[i + 1];
      FirstEmptyIs(pulls[1..], k - 1);
    }
  }

  /** The drain loop: pull until a call returns no samples. */
  method Drain(pulls: seq<Chunk>) returns (newC: seq<seq<real>>, newT: seq<real>)
    ensures (newC, newT) == Drained(pulls)
  {
    newC := [];
    newT := [];
    var i := 0;
    var c := PullAt(pulls, 0);
    while |c.samples| > 0
      invariant i <= |pulls| && c == PullAt(pulls, i)
      invariant forall j :: 0 <= j < i ==> |pulls[j].samples| > 0
      invariant newC == Samples(pulls[..i]) && newT == Stamps(pulls[..i])
      decreases |pulls| - i
    {
      assert pulls[..i + 1] == pulls[..i] + [c];
      assert pulls[..i + 1][..i] == pulls[..i];
      newC := newC + c.samples;
      newT := newT + c.stamps;
      i := i + 1;
      c := PullAt(pulls, i);
    }
    FirstEmptyIs(pulls, i);
  }

  /** `any(new_c)`: some sample is a non-empty list. */
  predicate AnySample(newC: seq<seq<real>>) {
    exists j :: 0 <= j < |newC| && |newC[j]| > 0
  }

  /** `[item for sublist in new_c for item in sublist]`: the samples one after another. */
  function Flatten(newC: seq<seq<real>>): seq<real> {
    if |newC| == 0 then [] else Flatten(newC[..|newC| - 1]) + newC[|newC| - 1]
  }

  /** There is something to flatten exactly when some sample is non-empty. */
  lemma {:induction false} FlattenEmpty(newC: seq<seq<real>>)
    ensures |Flatten(newC)| > 0 <==> AnySample(newC)
  {
    if |newC| > 0 {
      var front := newC[..|newC| - 1];
      FlattenEmpty(front);
      if AnySample(front) {
        var j :| 0 <= j < |front| && |front[j]| > 0;
        assert newC[j] == front[j];
      }
      if AnySample(newC) {
        var j :| 0 <= j < |newC| && |newC[j]| > 0;
        if j < |front| {
          assert front[j] == newC[j];
        }
      }
    }
  }

  /** Every sample has `width` values, as every sample of a stream with `width` channels does. */
  predicate Uniform(newC: seq<seq<real>>, width: nat) {
    forall j :: 0 <= j < |newC| ==> |newC[j]| == width
  }

  /** The flattening is row-major: value `c` of sample `j` is at `j * width + c`. */
  lemma {:induction false} FlattenRowMajor(newC: seq<seq<real>>, width: nat)
    requires Uniform(newC, width)
    ensures |Flatten(newC)| == |newC| * width
    ensures forall j, c :: 0 <= j < |newC| && 0 <= c < width ==> j * width + c < |Flatten(newC)| && Flatten(newC)[j * width + c] == newC[j][c]
  {
    if |newC| > 0 {
      var n := |newC| - 1;
      var front := newC[..n];
      FlattenRowMajor(front, width);
      assert |Flatten(newC)| == n * width + width;
      forall j, c | 0 <= j < |newC| && 0 <= c < width
        ensures j * width + c < |Flatten(newC)| && Flatten(newC)[j * width + c] == newC[j][c]
      {
        if j < n {
          MulLe(j + 1, n, width);
          assert front[j] == newC[j];
        } else {
          assert j * width + c == n * width + c;
        }
      }
    }
  }

  /** `np.roll(g, -k)`: the values move `k` places to the front, the first ones to the back. */
  function RollLeft(g: seq<real>, k: nat): (r: seq<real>)
    ensures |r| == |g|
  {
    if |g| == 0 then g else g[k % |g|..] + g[..k % |g|]
  }

  /** Rolling by at most the length moves the first `k` values to the back. */
  lemma RollWithin(g: seq<real>, k: nat)
    requires 0 < k <= |g|
    ensures RollLeft(g, k) == if k == |g| then g else g[k..] + g[..k]
  {
    if k == |g| {
      ModUnique(k, 1, |g|, 0);
      assert g[0..] + g[..0] == g;
    } else {
      ModUnique(k, 0, |g|, k);
    }
  }

  /** `g[-len(data):] = data` for `0 < len(data) <= len(g)`. */
  function SetTail(g: seq<real>, data: seq<real>): (r: seq<real>)
    requires 0 < |data| <= |g|
    ensures |r| == |g| && r[|g| - |data|..] == data && r[..|g| - |data|] == g[..|g| - |data|]
  {
    g[..|g| - |data|] + data
  }

  /** Rolling by `k` and then overwriting the last `k` values drops the oldest `k`: `g[k..] + data`. */
  lemma ShiftIn(g: seq<real>, data: seq<real>)
    requires 0 < |data| <= |g|
    ensures SetTail(RollLeft(g, |data|), data) == g[|data|..] + data
  {
    var k := |data|;
    RollWithin(g, k);
    if k < |g| {
      assert RollLeft(g, k)[..|g| - k] == g[k..];
    }
  }

  /** Both buffers of a `Grapher`. */
  datatype Window = Window(values: seq<real>, times: seq<real>)

  /**
   * The "add samples" block of `update` and `fill_buffer`: nothing unless some sample is
   * non-empty; otherwise both buffers roll and their tails are overwritten, numpy raising
   * `ValueError` at the assignment when more values arrived than the buffer holds (after the
   * roll was stored). The timestamps move only when there are some.
   */
  function Absorb(w: Window, newC: seq<seq<real>>, newT: seq<real>): (r: (Window, Result<(), PyError>))
    ensures |r.0.values| == |w.values| && |r.0.times| == |w.times|
  {
    if !AnySample(newC) then (w, Ok(()))
    else
      var data := Flatten(newC);
      FlattenEmpty(newC);
      var rolled := RollLeft(w.values, |data|);
      if |data| > |w.values| then (w.(values := rolled), Err(ValueError))
      else
        var values := SetTail(rolled, data);
        if |newT| == 0 then (w.(values := values), Ok(()))
        else
          var times := RollLeft(w.times, |newT|);
          if |newT| > |w.times| then (Window(values, times), Err(ValueError))
          else (Window(values, SetTail(times, newT)), Ok(()))
  }

  /** Without a non-empty sample both buffers stay as they are. */
  lemma NoSamplesNoChange(w: Window, newC: seq<seq<real>>, newT: seq<real>)
    requires !AnySample(newC)
    ensures Absorb(w, newC, newT) == (w, Ok(()))
  {
  }

  /**
   * When what arrived fits, the buffers slide: `gbuffer` becomes its values past the first `k`
   * followed by the `k` new ones, and `gtimes` likewise with the new timestamps, if any.
   */
  lemma BuffersSlide(w: Window, newC: seq<seq<real>>, newT: seq<real>)
    requires AnySample(newC) && |Flatten(newC)| <= |w.values| && |newT| <= |w.times|
    ensures var data := Flatten(newC);
      Absorb(w, newC, newT) == (Window(w.values[|data|..] + data, if |newT| == 0 then w.times else w.times[|newT|..] + newT), Ok(()))
  {
    FlattenEmpty(newC);
    ShiftIn(w.values, Flatten(newC));
    if |newT| > 0 {
      ShiftIn(w.times, newT);
    }
  }

  /** More values than the buffer holds make the assignment raise. */
  lemma OverfullRaises(w: Window, newC: seq<seq<real>>, newT: seq<real>)
    requires |Flatten(newC)| > |w.values|
    ensures Absorb(w, newC, newT).1 == Err(ValueError)
  {
    FlattenEmpty(newC);
  }

  /** `g[k::step]`: every `step`-th value from position `k` on. */
  function Stride(g: seq<real>, k: nat, step: nat): (r: seq<real>)
    requires step >= 1
    ensures |r| == 0 <==> k >= |g|
    ensures k < |g| ==> r[0] == g[k]
    ensures forall x :: x in r ==> x in g
    decreases |g| - k
  {
    if k >= |g| then [] else [g[k]] + Stride(g, k + step, step)
  }

  /**
   * From `start` on, the slice has `t` entries when `t` steps of `step` reach just past the end,
   * and entry `j` is value `start + j * step`.
   */
  lemma {:induction false} StrideFrom(g: seq<real>, step: nat, start: nat, t: nat)
    requires step >= 1 && |g| <= start + t * step < |g| + step
    ensures |Stride(g, start, step)| == t
    ensures forall j :: 0 <= j < t ==> start + j * step < |g| && Stride(g, start, step)[j] == g[start + j * step]
    decreases t
  {
    if t > 0 {
      assert start + step + (t - 1) * step == start + t * step;
      StrideFrom(g, step, start + step, t - 1);
      forall j | 0 <= j < t
        ensures start + j * step < |g| && Stride(g, start, step)[j] == g[start + j * step]
      {
        if j > 0 {
          assert start + step + (j - 1) * step == start + j * step;
        }
      }
    } else {
      assert start >= |g|;
    }
  }

  /** What `update` hands channel `k`'s plot: the timestamps and `gbuffer[k::channel_count]`. */
  function Shown(w: Window, channels: nat): (r: Option<seq<(seq<real>, seq<real>)>>)
    ensures r.Some? <==> exists i :: 0 <= i < |w.values| && w.values[i] != 0.0
    ensures r.Some? ==> |r.value| == channels
    ensures r.Some? ==> forall k :: 0 <= k < channels ==> r.value[k] == (w.times, Stride(w.values, k, channels))
  {
    if exists i :: 0 <= i < |w.values| && w.values[i] != 0.0 then
      Some(seq(channels, k requires 0 <= k < channels => (w.times, Stride(w.values, k, channels))))
    else None
  }

  /**
   * After a tick that brought `m <= buffer_size` samples of `channel_count` values each, channel
   * `c`'s slice ends with channel `c` of the new samples, in arrival order, and keeps
   * `buffer_size` entries.
   */
  lemma NewestSamplesPerChannel(w: Window, newC: seq<seq<real>>, newT: seq<real>, channels: nat, size: nat, c: nat)
    requires channels >= 1 && c < channels && |w.values| == size * channels && |w.times| == size
    requires Uniform(newC, channels) && 1 <= |newC| <= size && |newT| <= size
    ensures var shifted := Absorb(w, newC, newT).0.values;
      && |Stride(shifted, c, channels)| == size
      && forall j :: 0 <= j < |newC| ==> Stride(shifted, c, channels)[size - |newC| + j] == newC[j][c]
  {
    assert |newC[0]| == channels;
    assert AnySample(newC);
    FlattenLength(newC, channels);
    MulLe(|newC|, size, channels);
    BuffersSlide(w, newC, newT);
    ShiftedStride(w.values, newC, channels, size, c);
  }

  /** The channel slice of `g` shifted by `|newC|` rows of new samples ends with their channel `c`. */
  lemma ShiftedStride(g: seq<real>, newC: seq<seq<real>>, channels: nat, size: nat, c: nat)
    requires channels >= 1 && c < channels && |g| == size * channels
    requires Uniform(newC, channels) && 1 <= |newC| <= size
    ensures |Flatten(newC)| <= |g|
    ensures var shifted := g[|Flatten(newC)|..] + Flatten(newC);
      && |Stride(shifted, c, channels)| == size
      && forall j :: 0 <= j < |newC| ==> Stride(shifted, c, channels)[size - |newC| + j] == newC[j][c]
  {
    var m := |newC|;
    FlattenLength(newC, channels);
    MulLe(m, size, channels);
    var data := Flatten(newC);
    var shifted := g[|data|..] + data;
    StrideLength(shifted, channels, c, size);
    forall j | 0 <= j < m
      ensures Stride(shifted, c, channels)[size - m + j] == newC[j][c]
    {
      TailPosition(size, m, j, channels, c);
      StrideEntry(shifted, channels, c, size, size - m + j);
      FlattenEntry(newC, channels, j, c);
      assert shifted[c + (size - m + j) * channels] == data[j * channels + c];
    }
  }

  /** The length part of `FlattenRowMajor`. */
  lemma FlattenLength(newC: seq<seq<real>>, width: nat)
    requires Uniform(newC, width)
    ensures |Flatten(newC)| == |newC| * width
  {
    FlattenRowMajor(newC, width);
  }

  /** One entry of `FlattenRowMajor`. */
  lemma FlattenEntry(newC: seq<seq<real>>, width: nat, j: nat, c: nat)
    requires Uniform(newC, width) && j < |newC| && c < width
    ensures j * width + c < |Flatten(newC)| && Flatten(newC)[j * width + c] == newC[j][c]
  {
    FlattenRowMajor(newC, width);
  }

  /** The length part of `StrideFrom`. */
  lemma StrideLength(g: seq<real>, step: nat, start: nat, t: nat)
    requires step >= 1 && start < step && |g| == t * step
    ensures |Stride(g, start, step)| == t
  {
    StrideFrom(g, step, start, t);
  }

  /** One entry of `StrideFrom`. */
  lemma StrideEntry(g: seq<real>, step: nat, start: nat, t: nat, j: nat)
    requires step >= 1 && start < step && |g| == t * step && j < t
    ensures |Stride(g, start, step)| == t && start + j * step < |g| && Stride(g, start, step)[j] == g[start + j * step]
  {
    StrideFrom(g, step, start, t);
  }

  /** Row `size - m + j` of a buffer of `size` rows is row `j` of its last `m`. */
  lemma TailPosition(size: nat, m: nat, j: nat, w: nat, c: nat)
    requires j < m <= size
    ensures c + (size - m + j) * w == (size * w - m * w) + (j * w + c)
    ensures m * w <= size * w
  {
    MulLe(m, size, w);
    assert (size - m + j) * w == size * w - m * w + j * w;
  }

  /**
   * `fill_buffer`: drains in rounds until at least `buffer_size` samples were counted. `rounds`
   * holds each round's pulls; `Ok(false)` means the recorded rounds ran out first.
   */
  function Fill(w: Window, size: nat, count: nat, rounds: seq<seq<Chunk>>): (r: (Window, Result<bool, PyError>))
    ensures |r.0.values| == |w.values| && |r.0.times| == |w.times|
    decreases |rounds|
  {
    if count >= size then (w, Ok(true))
    else if |rounds| == 0 then (w, Ok(false))
    else
      var (newC, newT) := Drained(rounds[0]);
      var (w1, r1) := Absorb(w, newC, newT);
      if r1.Err? then (w1, Err(r1.error))
      else Fill(w1, size, count + (if AnySample(newC) then |newC| else 0), rounds[1..])
  }

  /** The samples `fill_buffer` counts over the rounds: `len(new_c)` of each round with a non-empty sample. */
  function Counted(rounds: seq<seq<Chunk>>): nat {
    if |rounds| == 0 then 0
    else
      var newC := Drained(rounds[0]).0;
      (if AnySample(newC) then |newC| else 0) + Counted(rounds[1..])
  }

  /** Without an exception, `fill_buffer` reports full exactly when the counted samples reach `buffer_size`. */
  lemma {:induction false} FillExitsWhenFull(w: Window, size: nat, count: nat, rounds: seq<seq<Chunk>>)
    requires Fill(w, size, count, rounds).1.Ok?
    ensures Fill(w, size, count, rounds).1.value <==> count + Counted(rounds) >= size
    decreases |rounds|
  {
    if count < size && |rounds| > 0 {
      var (newC, newT) := Drained(rounds[0]);
      var (w1, r1) := Absorb(w, newC, newT);
      FillExitsWhenFull(w1, size, count + (if AnySample(newC) then |newC| else 0), rounds[1..]);
    } else if count >= size {
      assert count + Counted(rounds) >= size;
    }
  }

  /** `chnames` as `__init__` leaves it: absent, `False`, or the list. */
  datatype NamesAttr = Missing | NoNames | Names(names: seq<string>)

  /** A plot title: a channel name, or `"ch" + str(k)`. */
  datatype Title = Named(name: string) | Numbered(k: nat)

  /** `__init__` as written: a non-empty list of the wrong length is reported and the attribute is never set. */
  function NamesAsWritten(chnames: seq<string>, channels: nat): (r: NamesAttr)
    ensures |chnames| > 0 && |chnames| != channels ==> r == Missing
  {
    if |chnames| > 0 then (if |chnames| == channels then Names(chnames) else Missing) else NoNames
  }

  /** `__init__` with the mismatch skipping the names, as the message says: the attribute is `False`. */
  function NamesChecked(chnames: seq<string>, channels: nat): (r: NamesAttr)
    ensures r != Missing
    ensures r.Names? <==> |chnames| > 0 && |chnames| == channels
    ensures r.Names? ==> r.names == chnames
  {
    if |chnames| > 0 && |chnames| == channels then Names(chnames) else NoNames
  }

  /** The titles `start_graph` gives the plots: `if self.chnames:` raises when the attribute is absent. */
  function Titles(attr: NamesAttr, channels: nat): (r: Result<seq<Title>, PyError>)
    ensures r.Ok? ==> |r.value| == channels
    ensures r.Err? <==> channels > 0 && (attr.Missing? || (attr.Names? && 0 < |attr.names| < channels))
    ensures r.Err? ==> r.error == if attr.Missing? then AttributeError else IndexError
  {
    if channels == 0 then Ok([])
    else match attr
      case Missing => Err(AttributeError)
      case NoNames => Ok(seq(channels, k requires 0 <= k < channels => Numbered(k)))
      case Names(n) =>
        if |n| == 0 then Ok(seq(channels, k requires 0 <= k < channels => Numbered(k)))
        else if |n| < channels then Err(IndexError)
        else Ok(seq(channels, k requires 0 <= k < channels => Named(n[k])))
  }

  /** As written, a name list of the wrong length makes the grapher fail with `AttributeError` when it builds its plots. */
  lemma MismatchedNamesBreakStartAsWritten(chnames: seq<string>, channels: nat)
    requires |chnames| > 0 && |chnames| != channels && channels >= 1
    ensures Titles(NamesAsWritten(chnames, channels), channels) == Err(AttributeError)
  {
  }

  /** With the check as intended the plots always get titles: the names when they match the channels, `ch0`, `ch1`, ... otherwise. */
  lemma CheckedNamesGiveTitles(chnames: seq<string>, channels: nat)
    ensures Titles(NamesChecked(chnames, channels), channels).Ok?
    ensures var t := Titles(NamesChecked(chnames, channels), channels).value;
      && |t| == channels
      && (|chnames| == channels ==> forall k :: 0 <= k < channels ==> t[k] == Named(chnames[k]))
      && (|chnames| != channels ==> forall k :: 0 <= k < channels ==> t[k] == Numbered(k))
  {
  }

  /** `Grapher`'s buffers. */
  class Grapher {
    const bufferSize: nat
    const channelCount: nat
    var gbuffer: seq<real>
    var gtimes: seq<real>
    var chnames: NamesAttr

    function State(): Window
      reads this
    {
      Window(gbuffer, gtimes)
    }

    ghost predicate Valid()
      reads this
    {
      |gbuffer| == bufferSize * channelCount && |gtimes| == bufferSize && chnames != Missing
    }

    /**
     * The buffers of `__init__` (zeros, and the timestamps all at the clock reading `now`) and the
     * `chnames` check; `fill_buffer` and `start_graph` are the methods below and UI.
     */
    constructor (bufferSize: nat, channelCount: nat, now: real, chnames: seq<string>)
      ensures Valid() && this.bufferSize == bufferSize && this.channelCount == channelCount
      ensures gbuffer == seq(bufferSize * channelCount, _ => 0.0) && gtimes == seq(bufferSize, _ => now)
      ensures this.chnames == NamesChecked(chnames, channelCount)
    {
      this.bufferSize := bufferSize;
      this.channelCount := channelCount;
      gbuffer := seq(bufferSize * channelCount, _ => 0.0);
      gtimes := seq(bufferSize, _ => now);
      if |chnames| > 0 {
        if channelCount == |chnames| {
          this.chnames := Names(chnames);
        } else {
          this.chnames := NoNames;
        }
      } else {
        this.chnames := NoNames;
      }
    }

    /** The "add samples" block. */
    method AddSamples(newC: seq<seq<real>>, newT: seq<real>) returns (r: Result<(), PyError>)
      requires Valid()
      modifies this
      ensures Valid() && chnames == old(chnames)
      ensures (State(), r) == Absorb(old(State()), newC, newT)
    {
      r := Ok(());
      if AnySample(newC) {
        FlattenEmpty(newC);
        var data := Flatten(newC);
        gbuffer := RollLeft(gbuffer, |data|);
        if |data| > |gbuffer| {
          return Err(ValueError);
        }
        gbuffer := SetTail(gbuffer, data);
        if |newT| > 0 {
          gtimes := RollLeft(gtimes, |newT|);
          if |newT| > |gtimes| {
            return Err(ValueError);
          }
          gtimes := SetTail(gtimes, newT);
        }
      }
    }

    /** `update`: drain, add the samples, and hand each channel its slice when the buffer is not all zeros. */
    method Update(pulls: seq<Chunk>) returns (r: Result<(), PyError>, shown: Option<seq<(seq<real>, seq<real>)>>)
      requires Valid()
      modifies this
      ensures Valid() && chnames == old(chnames)
      ensures (State(), r) == Absorb(old(State()), Drained(pulls).0, Drained(pulls).1)
      ensures shown == if r.Ok? then Shown(State(), channelCount) else None
    {
      var newC, newT := Drain(pulls);
      r := AddSamples(newC, newT);
      if r.Err? {
        return r, None;
      }
      shown := Shown(State(), channelCount);
    }

    /** `fill_buffer`: the rounds of draining until `buffer_size` samples were counted. */
    method FillBuffer(rounds: seq<seq<Chunk>>) returns (r: Result<bool, PyError>)
      requires Valid()
      modifies this
      ensures Valid() && chnames == old(chnames)
      ensures (State(), r) == Fill(old(State()), bufferSize, 0, rounds)
    {
      var numOfSmp := 0;
      var i := 0;
      while numOfSmp < bufferSize && i < |rounds|
        invariant i <= |rounds| && Valid() && chnames == old(chnames)
        invariant Fill(old(State()), bufferSize, 0, rounds) == Fill(State(), bufferSize, numOfSmp, rounds[i..])
      {
        assert rounds[i..][0] == rounds[i] && rounds[i..][1..] == rounds[i + 1..];
        var newC, newT := Drain(rounds[i]);
        var a := AddSamples(newC, newT);
        if a.Err? {
          return Err(a.error);
        }
        if AnySample(newC) {
          numOfSmp := numOfSmp + |newC|;
        }
        i := i + 1;
      }
      r := Ok(numOfSmp >= bufferSize);
    }
  }

  /**
   * The block of `XYGrapher.update`: `smp[0]` and `smp[1]` of every sample (an `IndexError` for a
   * shorter sample, before anything is stored), then both windows roll and take the new values
   * at the end, `ValueError` arising at the first assignment when more samples arrived than the
   * window holds.
   */
  function AbsorbXY(xs: seq<real>, ys: seq<real>, newC: seq<seq<real>>): (r: (seq<real>, seq<real>, Result<(), PyError>))
    requires |xs| == |ys|
    ensures |r.0| == |xs| && |r.1| == |ys|
  {
    if !AnySample(newC) then (xs, ys, Ok(()))
    else if exists j :: 0 <= j < |newC| && |newC[j]| < 2 then (xs, ys, Err(IndexError))
    else
      var dx := seq(|newC|, j requires 0 <= j < |newC| && |newC[j]| >= 2 => newC[j][0]);
      var dy := seq(|newC|, j requires 0 <= j < |newC| && |newC[j]| >= 2 => newC[j][1]);
      var rx := RollLeft(xs, |newC|);
      var ry := RollLeft(ys, |newC|);
      if |newC| > |xs| then (rx, ry, Err(ValueError))
      else (SetTail(rx, dx), SetTail(ry, dy), Ok(()))
  }

  /** When the samples fit, both windows slide by the same amount and stay the same length. */
  lemma XYWindowsSlide(xs: seq<real>, ys: seq<real>, newC: seq<seq<real>>)
    requires |xs| == |ys| && 1 <= |newC| <= |xs|
    requires forall j :: 0 <= j < |newC| ==> |newC[j]| >= 2
    ensures var (x1, y1, r) := AbsorbXY(xs, ys, newC);
      && r.Ok? && |x1| == |y1| == |xs|
      && x1 == xs[|newC|..] + seq(|newC|, j requires 0 <= j < |newC| && |newC[j]| >= 2 => newC[j][0])
      && y1 == ys[|newC|..] + seq(|newC|, j requires 0 <= j < |newC| && |newC[j]| >= 2 => newC[j][1])
  {
    assert |newC[0]| >= 2;
    var dx := seq(|newC|, j requires 0 <= j < |newC| && |newC[j]| >= 2 => newC[j][0]);
    var dy := seq(|newC|, j requires 0 <= j < |newC| && |newC[j]| >= 2 => newC[j][1]);
    ShiftIn(xs, dx);
    ShiftIn(ys, dy);
  }

  /** `XYGrapher`'s two windows. */
  class XYGrapher {
    const bufferSize: nat
    var xvals: seq<real>
    var yvals: seq<real>

    ghost predicate Valid()
      reads this
    {
      |xvals| == bufferSize && |yvals| == bufferSize
    }

    /** `__init__`: both windows zero. */
    constructor (bufferSize: nat)
      ensures Valid() && xvals == seq(bufferSize, _ => 0.0) && yvals == seq(bufferSize, _ => 0.0)
    {
      this.bufferSize := bufferSize;
      xvals := seq(bufferSize, _ => 0.0);
      yvals := seq(bufferSize, _ => 0.0);
    }

    /** The loop over the samples collecting their first two values. */
    static method Coordinates(newC: seq<seq<real>>) returns (r: Result<(seq<real>, seq<real>), PyError>)
      ensures r.Err? <==> exists j :: 0 <= j < |newC| && |newC[j]| < 2
      ensures r.Err? ==> r.error == IndexError
      ensures r.Ok? ==> r.value.0 == seq(|newC|, j requires 0 <= j < |newC| && |newC[j]| >= 2 => newC[j][0])
      ensures r.Ok? ==> r.value.1 == seq(|newC|, j requires 0 <= j < |newC| && |newC[j]| >= 2 => newC[j][1])
    {
      var dataX: seq<real> := [];
      var dataY: seq<real> := [];
      var j := 0;
      while j < |newC|
        invariant 0 <= j <= |newC| && |dataX| == j && |dataY| == j
        invariant forall i :: 0 <= i < j ==> |newC[i]| >= 2 && dataX[i] == newC[i][0] && dataY[i] == newC[i][1]
      {
        if |newC[j]| < 2 {
          return Err(IndexError);
        }
        dataX := dataX + [newC[j][0]];
        dataY := dataY + [newC[j][1]];
        j := j + 1;
      }
      r := Ok((dataX, dataY));
    }

    /** `update`: drain, store the coordinates, and hand both windows to the plot. */
    method Update(pulls: seq<Chunk>) returns (r: Result<(), PyError>, shown: Option<(seq<real>, seq<real>)>)
      requires Valid()
      modifies this
      ensures Valid()
      ensures (xvals, yvals, r) == AbsorbXY(old(xvals), old(yvals), Drained(pulls).0)
      ensures shown == if r.Ok? then Some((xvals, yvals)) else None
    {
      var newC, newT := Drain(pulls);
      if AnySample(newC) {
        var d := Coordinates(newC);
        if d.Err? {
          return Err(IndexError), None;
        }
        var (dataX, dataY) := d.value;
        xvals := RollLeft(xvals, |dataX|);
        yvals := RollLeft(yvals, |dataY|);
        if |dataX| > |xvals| {
          return Err(ValueError), None;
        }
        assert |dataX| > 0 by {
          var j :| 0 <= j < |newC| && |newC[j]| > 0;
        }
        xvals := SetTail(xvals, dataX);
        yvals := SetTail(yvals, dataY);
      }
      r := Ok(());
      shown := Some((xvals, yvals));
    }
  }
}
