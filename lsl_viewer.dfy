/**
 * `runSignal` of LSLViewer.py: the stream controller of the root application. Like
 * `TimeSeriesSignal` it pulls a chunk per tick, shows it raw and, while filtering is on,
 * notch- and Butterworth-filtered; it also counts ticks in `time` and keeps a queue of the
 * chunks of the last four seconds. It is modelled after `createTimer`, `setViewer` with the
 * filter checkboxes and band boxes, and `setTimer`, the order in which the application calls them.
 */
module LslViewer {
  import opened Wrappers
  import opened WindowSpec
  import opened SignalFilters
  import opened Controls
  import opened FilterPanel
  import SV = SignalViewer

  /** `self.chunk_len`: what every tick adds to `time`. */
  const ChunkLen: nat := 8

  /** How long the queue grows: `timer.elapsed()/1000 <= 4`, in whole milliseconds. */
  const HistoryMs: nat := 4000

  /**
   * The queue part of `updateData` as written: while at most four seconds have passed the
   * chunk is put; after that one chunk is got first. `Queue.get()` on an empty queue waits for
   * a put that can never come from the same thread, so `None` stands for the call blocking.
   */
  function QueueStepAsWritten(q: seq<Chunk>, c: Chunk, elapsedMs: nat): (r: Option<seq<Chunk>>)
    ensures r.None? <==> elapsedMs > HistoryMs && |q| == 0
  {
    if elapsedMs <= HistoryMs then Some(q + [c])
    else if |q| == 0 then None
    else Some(q[1..] + [c])
  }

  /**
   * The first chunk that reaches `updateData` after four seconds (the stream was slow to
   * start) finds the queue empty, and the tick never returns.
   */
  lemma QueueAsWrittenBlocks(c: Chunk)
    ensures QueueStepAsWritten([], c, HistoryMs + 1).None?
  {
  }

  /** The queue step as intended: drop the oldest chunk only when there is one. */
  function QueueStep(q: seq<Chunk>, c: Chunk, elapsedMs: nat): (r: seq<Chunk>)
    ensures |r| >= 1 && r[|r| - 1] == c
    ensures elapsedMs <= HistoryMs ==> r == q + [c]
    ensures elapsedMs > HistoryMs && |q| > 0 ==> |r| == |q|
    ensures |r| <= |q| + 1
  {
    if elapsedMs <= HistoryMs || |q| == 0 then q + [c] else q[1..] + [c]
  }

  /** Wherever the step as written returns, the corrected step does the same. */
  lemma QueueStepAgrees(q: seq<Chunk>, c: Chunk, elapsedMs: nat)
    requires QueueStepAsWritten(q, c, elapsedMs).Some?
    ensures QueueStepAsWritten(q, c, elapsedMs).value == QueueStep(q, c, elapsedMs)
  {
  }

  /** `a` is what is left of `b` after dropping some of its oldest entries. */
  predicate IsSuffix(a: seq<Chunk>, b: seq<Chunk>) {
    |a| <= |b| && a == b[|b| - |a|..]
  }

  /** The queue after a run of ticks, each with its chunk and its elapsed time. */
  function Pushes(q: seq<Chunk>, ticks: seq<(Chunk, nat)>): (r: seq<Chunk>)
    ensures |r| <= |q| + |ticks|
    ensures |ticks| > 0 ==> |r| >= 1 && r[|r| - 1] == ticks[|ticks| - 1].0
    decreases |ticks|
  {
    if |ticks| == 0 then q else QueueStep(Pushes(q, ticks[..|ticks| - 1]), ticks[|ticks| - 1].0, ticks[|ticks| - 1].1)
  }

  /** The chunks of a run of ticks, in arrival order. */
  function Arrived(ticks: seq<(Chunk, nat)>): (cs: seq<Chunk>)
    ensures |cs| == |ticks|
    decreases |ticks|
  {
    if |ticks| == 0 then [] else Arrived(ticks[..|ticks| - 1]) + [ticks[|ticks| - 1].0]
  }

  /**
   * The queue is first in, first out: after any run of ticks it holds the newest chunks of
   * everything it held or received, in arrival order, and at least the chunks of the run.
   */
  lemma {:induction false} PushesKeepNewest(q: seq<Chunk>, ticks: seq<(Chunk, nat)>)
    ensures IsSuffix(Pushes(q, ticks), q + Arrived(ticks))
    ensures |ticks| > 0 ==> |Pushes(q, ticks)| >= 1
  {
    if |ticks| > 0 {
      var init, last := ticks[..|ticks| - 1], ticks[|ticks| - 1];
      PushesKeepNewest(q, init);
      assert q + Arrived(ticks) == (q + Arrived(init)) + [last.0];
      StepKeepsNewest(Pushes(q, init), q + Arrived(init), last.0, last.1);
    }
  }

  /** One queue step keeps the queue a suffix of everything seen, now including the new chunk. */
  lemma StepKeepsNewest(p: seq<Chunk>, all: seq<Chunk>, c: Chunk, elapsedMs: nat)
    requires IsSuffix(p, all)
    ensures IsSuffix(QueueStep(p, c, elapsedMs), all + [c])
  {
    var r := QueueStep(p, c, elapsedMs);
    if elapsedMs <= HistoryMs || |p| == 0 {
      assert (all + [c])[|all| + 1 - |r|..] == all[|all| - |p|..] + [c];
    } else {
      assert (all + [c])[|all| + 1 - |r|..] == all[|all| - |p| + 1..] + [c];
      assert all[|all| - |p| + 1..] == p[1..];
    }
  }

  /** After four seconds a non-empty queue keeps its length on every tick. */
  lemma {:induction false} PushesKeepLength(q: seq<Chunk>, ticks: seq<(Chunk, nat)>)
    requires |q| > 0
    requires forall i :: 0 <= i < |ticks| ==> ticks[i].1 > HistoryMs
    ensures |Pushes(q, ticks)| == |q|
  {
    if |ticks| > 0 {
      var init := ticks[..|ticks| - 1];
      assert forall i :: 0 <= i < |init| ==> init[i] == ticks[i];
      PushesKeepLength(q, init);
    }
  }

  /** The filter work of one `update` tick: `applyFilter` only while `apply_filters` is set. */
  function TickSpec(p: Params, s: FilterSide, notch: bool, butter: bool, low: Option<real>, high: Option<real>,
                    chunk: Option<Chunk>, width: nat): (r: (FilterSide, Result<(), PyError>))
    requires SideOk(p, s) && (chunk.Some? ==> Fits(chunk.value, width))
    ensures SideOk(p, r.0)
    ensures !s.active ==> r == (s, Ok(()))
    ensures s.active ==> r.0.active
  {
    if s.active then ApplySpec(p, s, notch, butter, low, high, chunk, width) else (s, Ok(()))
  }

  class RunSignal {
    const fs: real
    /** `self.w`, the raw view. */
    const w: SV.RawSignalViewer
    /** `apply_filters`, the two filters and the viewers `w2` and `w3`. */
    const views: FilteredViews
    /** `main_timer.isActive()`. */
    var timerActive: bool
    /** `self.time`, advanced by `chunk_len` on every tick. */
    var time: nat
    /** `self.chunk`, the last pull. */
    var chunk: Option<Chunk>
    var low: Option<real>
    var high: Option<real>
    /** `self.q`, oldest chunk first. */
    var q: seq<Chunk>

    ghost predicate Valid()
      reads this, w, w.y, views, views.Repr
    {
      && w.Valid() && views.Valid() && views.fs == fs
      && this !in views.Repr && w !in views.Repr && w.y !in views.Repr
      && LowOk(low) && HighOk(high, fs)
    }

    /**
     * `runSignal(fs, names, view_channels, lsl, label)`, `createTimer()`,
     * `setViewer(layout, filters, band)` and `setTimer()`: three 5-second viewers, no band
     * edges, filtering off, an empty queue, `time` at 0 and the 30 ms timer running.
     */
    constructor (fs: real, allNames: seq<string>, view: seq<nat>, cosNotch: real, butter: (nat, Design) -> Result<Coeffs, PyError>)
      requires fs >= 0.0 && |view| >= 1 && Distinct(view) && InRange(view, |allNames|)
      requires MonicDesigner(butter)
      ensures Valid() && fresh(w) && fresh(w.y) && fresh(views.Repr)
      ensures this.fs == fs && views.nChannels == |allNames| && views.cosNotch == cosNotch && views.butter == butter
      ensures timerActive && time == 0 && chunk.None? && low.None? && high.None? && q == []
      ensures !views.active && views.notchFilter.None? && views.butterFilter.None?
    {
      this.fs := fs;
      w := new SV.RawSignalViewer(fs, 5.0, allNames, view);
      views := new FilteredViews(fs, allNames, view, cosNotch, butter);
      timerActive := true;
      time := 0;
      chunk := None;
      low := None;
      high := None;
      q := [];
    }

    /** `start`: starts the timer only when it is inactive. */
    method Start()
      requires Valid()
      modifies this
      ensures Valid() && timerActive
      ensures time == old(time) && chunk == old(chunk) && low == old(low) && high == old(high) && q == old(q)
    {
      if !timerActive {
        timerActive := true;
      }
    }

    /** `stop`: stops the timer only when it is active. */
    method Stop()
      requires Valid()
      modifies this
      ensures Valid() && !timerActive
      ensures time == old(time) && chunk == old(chunk) && low == old(low) && high == old(high) && q == old(q)
    {
      if timerActive {
        timerActive := false;
      }
    }

    /** `lowPass`, reading the low band box. */
    method LowPass(e: Entry) returns (r: Result<(), PyError>)
      requires Valid()
      modifies this
      ensures Valid()
      ensures LowEdge(old(low), e).Ok? ==> r.Ok? && low == LowEdge(old(low), e).value
      ensures LowEdge(old(low), e).Err? ==> r == Err(LowEdge(old(low), e).error) && low == old(low)
      ensures high == old(high) && chunk == old(chunk) && timerActive == old(timerActive)
      ensures time == old(time) && q == old(q)
    {
      var v := LowEdge(low, e);
      if v.Err? {
        return Err(v.error);
      }
      low := v.value;
      r := Ok(());
    }

    /** `highPass`, reading the high band box. */
    method HighPass(e: Entry) returns (r: Result<(), PyError>)
      requires Valid()
      modifies this
      ensures Valid()
      ensures HighEdge(old(high), e, fs).Ok? ==> r.Ok? && high == HighEdge(old(high), e, fs).value
      ensures HighEdge(old(high), e, fs).Err? ==> r == Err(HighEdge(old(high), e, fs).error) && high == old(high)
      ensures low == old(low) && chunk == old(chunk) && timerActive == old(timerActive)
      ensures time == old(time) && q == old(q)
    {
      var v := HighEdge(high, e, fs);
      if v.Err? {
        return Err(v.error);
      }
      high := v.value;
      r := Ok(());
    }

    /** `removeFilter`: close the filtered views and switch filtering off; the filters stay. */
    method RemoveFilter()
      requires Valid()
      modifies views
      ensures Valid()
      ensures views.Side() == old(views.Side()).(active := false)
    {
      views.SwitchOff();
    }

    /** `applyFilter`: the notch branch and then the Butterworth branch for the boxes that are checked. */
    method ApplyFilter(notch: bool, butter: bool, width: nat) returns (r: Result<(), PyError>)
      requires Valid() && (chunk.Some? ==> Fits(chunk.value, width))
      modifies views.Repr
      ensures Valid()
      ensures (views.Side(), r) == ApplySpec(views.Config(), old(views.Side()), notch, butter, low, high, chunk, width)
    {
      r := views.Apply(notch, butter, low, high, chunk, width);
    }

    /** The filter part of `update`: `applyFilter` only while `apply_filters` is set. */
    method FilterTick(notch: bool, butter: bool, width: nat) returns (r: Result<(), PyError>)
      requires Valid() && (chunk.Some? ==> Fits(chunk.value, width))
      modifies views.Repr
      ensures Valid()
      ensures (views.Side(), r) == TickSpec(views.Config(), old(views.Side()), notch, butter, low, high, chunk, width)
    {
      r := Ok(());
      if views.active {
        r := ApplyFilter(notch, butter, width);
      }
    }

    /** The queue part of `updateData`, with the corrected step. */
    method UpdateData(elapsedMs: nat)
      requires Valid() && chunk.Some?
      modifies this
      ensures Valid()
      ensures time == old(time) && chunk == old(chunk) && low == old(low) && high == old(high)
      ensures timerActive == old(timerActive)
      ensures q == QueueStep(old(q), chunk.value, elapsedMs)
    {
      if elapsedMs <= HistoryMs || |q| == 0 {
        q := q + [chunk.value];
      } else {
        q := q[1..];
        q := q + [chunk.value];
      }
    }

    /** What `update` does after `w` has drawn: `applyFilter` while filtering is on, then `updateData`. */
    method AfterDraw(notch: bool, butter: bool, width: nat, elapsedMs: nat) returns (r: Result<(), PyError>)
      requires Valid() && chunk.Some? && Fits(chunk.value, width)
      modifies this, views.Repr
      ensures Valid()
      ensures time == old(time) && chunk == old(chunk) && low == old(low) && high == old(high)
      ensures timerActive == old(timerActive) && w.State() == old(w.State())
      ensures (views.Side(), r) == TickSpec(views.Config(), old(views.Side()), notch, butter, low, high, chunk, width)
      ensures q == (if r.Ok? then QueueStep(old(q), chunk.value, elapsedMs) else old(q))
    {
      r := FilterTick(notch, butter, width);
      if r.Err? {
        return;
      }
      UpdateData(elapsedMs);
    }

    /** The body of `if self.chunk is not None`: update `w`, then the filters and the queue. */
    method Show(width: nat, notch: bool, butter: bool, elapsedMs: nat) returns (r: Result<(), PyError>)
      requires Valid() && chunk.Some? && Fits(chunk.value, width)
      modifies this, w, w.y, views.Repr
      ensures Valid()
      ensures time == old(time) && chunk == old(chunk) && low == old(low) && high == old(high)
      ensures timerActive == old(timerActive)
      ensures var (s, d) := SV.UpdateSpec(w.layout, old(w.State()), chunk.value, width);
        && w.State() == s
        && (d.Raised? ==> r == Err(d.error) && q == old(q) && views.Side() == old(views.Side()))
        && (d.Drawn? ==>
              var (side, fr) := TickSpec(views.Config(), old(views.Side()), notch, butter, low, high, chunk, width);
              && views.Side() == side && r == fr
              && q == (if fr.Ok? then QueueStep(old(q), chunk.value, elapsedMs) else old(q)))
    {
      var d := w.Update(chunk.value, width);
      if d.Raised? {
        return Err(d.error);
      }
      r := AfterDraw(notch, butter, width, elapsedMs);
    }

    /**
     * `update`: advance `time`, take the pulled chunk; for a real chunk update `w`, then run
     * `applyFilter` while filtering is on, then `updateData`. An exception ends the tick.
     */
    method Update(pulled: Option<Chunk>, width: nat, notch: bool, butter: bool, elapsedMs: nat) returns (r: Result<(), PyError>)
      requires Valid() && (pulled.Some? ==> Fits(pulled.value, width))
      modifies this, w, w.y, views.Repr
      ensures Valid()
      ensures time == old(time) + ChunkLen && chunk == pulled
      ensures low == old(low) && high == old(high) && timerActive == old(timerActive)
      ensures pulled.None? ==> r.Ok? && q == old(q) && w.State() == old(w.State()) && views.Side() == old(views.Side())
      ensures pulled.Some? ==>
        var (s, d) := SV.UpdateSpec(w.layout, old(w.State()), pulled.value, width);
        && w.State() == s
        && (d.Raised? ==> r == Err(d.error) && q == old(q) && views.Side() == old(views.Side()))
        && (d.Drawn? ==>
              var (side, fr) := TickSpec(views.Config(), old(views.Side()), notch, butter, low, high, pulled, width);
              && views.Side() == side && r == fr
              && q == (if fr.Ok? then QueueStep(old(q), pulled.value, elapsedMs) else old(q)))
    {
      time := time + ChunkLen;
      chunk := pulled;
      if pulled.None? {
        return Ok(());
      }
      r := Show(width, notch, butter, elapsedMs);
    }
  }
}
