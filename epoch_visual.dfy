/**
 * `EpochViewer.main_loop` of application/Widgets/EpochVisual.py: each pulled epoch is drawn as
 * two curves (its first and second sample) into a five-slot round robin, the curve it replaces is
 * taken off the plot once every slot holds one, and from the second epoch on the shown curves get
 * the alphas, which then rotate by one place.
 *
 * Plot items are abstract handles; `plot` is modelled by the caller passing the handles the two
 * new curves get, and the plot item by the set of handles currently on it.
 */
module EpochVisual {
  import opened Wrappers

  /** The identity of a curve that `plot` returned. */
  type Handle = nat

  /** A slot of `epochOne`/`epochTwo`: the integer 0 it starts with, or a curve and the alpha last set on it. */
  datatype Slot = Unfilled | Curve(handle: Handle, alpha: Option<real>)

  /** The number of slots of each round robin. */
  const Slots: nat := 5
  /** The alphas the viewer starts with. */
  const StartAlphas: seq<real> := [0.8, 1.0, 0.2, 0.4, 0.6]

  /** `epoch.count(0)`: the slots that hold no curve yet. */
  function CountUnfilled(e: seq<Slot>): (n: nat)
    ensures n <= |e|
    ensures n == 0 <==> forall i :: 0 <= i < |e| ==> e[i].Curve?
  {
    if |e| == 0 then 0
    else
      var n := CountUnfilled(e[..|e| - 1]);
      assert forall i :: 0 <= i < |e| - 1 ==> e[..|e| - 1][i] == e[i];
      n + (if e[|e| - 1].Unfilled? then 1 else 0)
  }

  /** Exactly the slots below `k` hold a curve. */
  predicate FilledBelow(e: seq<Slot>, k: nat) {
    forall i :: 0 <= i < |e| ==> (e[i].Curve? <==> i < k)
  }

  /** When exactly the slots below `k` are filled, `k` is the number of filled slots. */
  lemma {:induction false} FilledBelowCount(e: seq<Slot>, k: nat)
    requires k <= |e| && FilledBelow(e, k)
    ensures CountUnfilled(e) == |e| - k
  {
    if |e| > 0 {
      var front := e[..|e| - 1];
      if k == |e| {
        assert CountUnfilled(e) == 0;
      } else {
        assert FilledBelow(front, k) by {
          forall i | 0 <= i < |front|
            ensures front[i].Curve? <==> i < k
          {
            assert front[i] == e[i];
          }
        }
        FilledBelowCount(front, k);
      }
    }
  }

  /** `np.roll(alphas, 1)`: every alpha moves one place on, the last one to the front. */
  function Roll(a: seq<real>): (r: seq<real>)
    requires |a| > 0
    ensures |r| == |a| && r[0] == a[|a| - 1]
    ensures forall i :: 0 <= i < |a| - 1 ==> r[i + 1] == a[i]
  {
    [a[|a| - 1]] + a[..|a| - 1]
  }

  /** The `lineIndex` step: one on, and 0 after the last slot. */
  function Next(i: nat): (r: nat)
    requires i < Slots
    ensures r == (i + 1) % Slots
  {
    if i < Slots - 1 then i + 1 else 0
  }

  /** The alpha loop over `lineChange = range(n)`: slot `i` below `n` gets alpha `a[i]`. */
  function Fade(e: seq<Slot>, a: seq<real>, n: nat): (r: seq<Slot>)
    requires n <= |e| && n <= |a|
    requires forall i :: 0 <= i < n ==> e[i].Curve?
    ensures |r| == |e|
    ensures forall i :: 0 <= i < |e| ==> r[i].Curve? == e[i].Curve?
    ensures forall i :: 0 <= i < |e| && e[i].Curve? ==> r[i].handle == e[i].handle
    ensures forall i :: 0 <= i < n ==> r[i].alpha == Some(a[i])
    ensures forall i :: n <= i < |e| ==> r[i] == e[i]
  {
    seq(|e|, i requires 0 <= i < |e| => if i < n then e[i].(alpha := Some(a[i])) else e[i])
  }

  /** The viewer's state: both round robins, `lineIndex`, the alphas, `linesPlotted` and the curves on the plot. */
  datatype Epochs = Epochs(one: seq<Slot>, two: seq<Slot>, index: nat, alphas: seq<real>, plotted: bool, onPlot: set<Handle>)

  /**
   * What `main_loop` keeps: five slots each and five alphas; either every slot is filled, or the
   * slots below `lineIndex` are (and possibly `epochOne`'s slot at `lineIndex`, written before an
   * exception); and before the first drawn epoch nothing of `epochTwo` is filled.
   */
  predicate Inv(s: Epochs) {
    && |s.one| == Slots && |s.two| == Slots && s.index < Slots && |s.alphas| == Slots
    && ((FilledBelow(s.one, Slots) && FilledBelow(s.two, Slots))
        || (FilledBelow(s.two, s.index) && (FilledBelow(s.one, s.index) || FilledBelow(s.one, s.index + 1))))
    && (!s.plotted ==> s.index == 0 && FilledBelow(s.two, 0))
  }

  /** The state after `__init__`. */
  function Start(): (s: Epochs)
    ensures Inv(s) && CountUnfilled(s.one) == Slots && CountUnfilled(s.two) == Slots
  {
    var e := seq(Slots, _ => Unfilled);
    FilledBelowCount(e, 0);
    Epochs(e, e, 0, StartAlphas, false, {})
  }

  /** Both round robins are full, so the slot about to be written goes off the plot first. */
  predicate AllFilled(s: Epochs) {
    CountUnfilled(s.one) == 0 && CountUnfilled(s.two) == 0
  }

  /** How many slots are filled once both have been written at `lineIndex`. */
  function Reach(s: Epochs): nat {
    if FilledBelow(s.one, Slots) && FilledBelow(s.two, Slots) then Slots else s.index + 1
  }

  /** Writing both round robins at `lineIndex` leaves exactly the slots below `Reach` filled. */
  lemma Written(s: Epochs, h1: Handle, h2: Handle)
    requires Inv(s)
    ensures Reach(s) <= Slots
    ensures FilledBelow(s.one[s.index := Curve(h1, None)], Reach(s))
    ensures FilledBelow(s.two[s.index := Curve(h2, None)], Reach(s))
    ensures CountUnfilled(s.one[s.index := Curve(h1, None)]) == Slots - Reach(s)
  {
    var one1 := s.one[s.index := Curve(h1, None)];
    assert FilledBelow(one1, Reach(s));
    FilledBelowCount(one1, Reach(s));
  }

  /** The curves left on the plot once the ones at `lineIndex` were removed, which happens only when both round robins are full. */
  function Kept(s: Epochs): set<Handle>
    requires Inv(s)
  {
    if AllFilled(s) then s.onPlot - {s.one[s.index].handle} - {s.two[s.index].handle} else s.onPlot
  }

  /** The state once the removal is done and `epochOne` got its new curve at `lineIndex`. */
  function Opened(s: Epochs, h1: Handle): (r: Epochs)
    requires Inv(s)
    ensures h1 in r.onPlot && r.onPlot - {h1} <= s.onPlot
    ensures r.two == s.two && r.index == s.index && r.index < |r.one| && r.one[r.index] == Curve(h1, None)
  {
    s.(one := s.one[s.index := Curve(h1, None)], onPlot := Kept(s) + {h1})
  }

  /** The state after a drawn epoch: `epochTwo` written too, the alphas set and rotated or the latch set, and `lineIndex` moved on. */
  function Drawn(s: Epochs, h1: Handle, h2: Handle): (r: Epochs)
    requires Inv(s)
    ensures r.plotted && r.index == Next(s.index)
    ensures h1 in r.onPlot && h2 in r.onPlot && r.onPlot - {h1, h2} <= s.onPlot
  {
    var o := Opened(s, h1);
    var two1 := s.two[s.index := Curve(h2, None)];
    var filled := Slots - CountUnfilled(o.one);
    Written(s, h1, h2);
    if s.plotted then
      o.(one := Fade(o.one, s.alphas, filled), two := Fade(two1, s.alphas, filled), alphas := Roll(s.alphas),
         index := Next(s.index), onPlot := o.onPlot + {h2})
    else
      o.(two := two1, plotted := true, index := Next(s.index), onPlot := o.onPlot + {h2})
  }

  /**
   * One `main_loop` tick. `pulled` is the number of samples `pull_chunk` returned, `None` when it
   * raised `IOError` (then `chunk` is unbound, which raises `UnboundLocalError`, a `NameError`).
   * A chunk of one sample raises `IndexError` at `chunk[1]` after `epochOne` was written.
   */
  function Step(s: Epochs, pulled: Option<nat>, h1: Handle, h2: Handle): (r: (Epochs, Result<(), PyError>))
    requires Inv(s)
    ensures Inv(r.0)
  {
    match pulled
    case None => (s, Err(NameError))
    case Some(n) =>
      Written(s, h1, h2);
      if n == 0 then (s, Ok(()))
      else if n < 2 then (Opened(s, h1), Err(IndexError))
      else (Drawn(s, h1, h2), Ok(()))
  }

  /** An empty pull changes nothing; a failed pull changes nothing and raises. */
  lemma EmptyChunkChangesNothing(s: Epochs, h1: Handle, h2: Handle)
    requires Inv(s)
    ensures Step(s, Some(0), h1, h2) == (s, Ok(()))
    ensures Step(s, None, h1, h2) == (s, Err(NameError))
  {
  }

  /**
   * A drawn epoch writes both round robins at `lineIndex`, leaves every other slot's curve where
   * it was, moves `lineIndex` on modulo 5 and latches `linesPlotted`.
   */
  lemma DrawnEpochAdvances(s: Epochs, n: nat, h1: Handle, h2: Handle)
    requires Inv(s) && n >= 2
    ensures var (t, r) := Step(s, Some(n), h1, h2);
      && r.Ok? && t.plotted && t.index == (s.index + 1) % Slots
      && |t.one| == Slots && |t.two| == Slots
      && t.one[s.index].Curve? && t.one[s.index].handle == h1
      && t.two[s.index].Curve? && t.two[s.index].handle == h2
      && (forall i :: 0 <= i < Slots && i != s.index ==> t.one[i].Curve? == s.one[i].Curve? && t.two[i].Curve? == s.two[i].Curve?)
      && (forall i :: 0 <= i < Slots && i != s.index && s.one[i].Curve? ==> t.one[i].handle == s.one[i].handle)
      && (forall i :: 0 <= i < Slots && i != s.index && s.two[i].Curve? ==> t.two[i].handle == s.two[i].handle)
  {
  }

  /** A one-sample chunk writes only `epochOne` at `lineIndex` and then raises, leaving `lineIndex` as it was. */
  lemma ShortChunkRaises(s: Epochs, h1: Handle, h2: Handle)
    requires Inv(s)
    ensures var (t, r) := Step(s, Some(1), h1, h2);
      && r == Err(IndexError) && t.index == s.index && t.two == s.two && t.plotted == s.plotted && t.alphas == s.alphas
      && t.one == s.one[s.index := Curve(h1, None)]
  {
  }

  /**
   * Curves leave the plot only once both round robins are full, and then exactly the two at
   * `lineIndex`; the new curves are always on it.
   */
  lemma RemovalOnlyWhenFull(s: Epochs, n: nat, h1: Handle, h2: Handle)
    requires Inv(s) && n > 0
    ensures var t := Step(s, Some(n), h1, h2).0;
      && h1 in t.onPlot
      && (!AllFilled(s) ==> s.onPlot <= t.onPlot)
      && (AllFilled(s) ==> s.onPlot - {s.one[s.index].handle, s.two[s.index].handle} <= t.onPlot)
      && (AllFilled(s) && h1 != s.one[s.index].handle && h1 != s.two[s.index].handle
          && (n >= 2 ==> h2 != s.one[s.index].handle && h2 != s.two[s.index].handle)
          ==> s.one[s.index].handle !in t.onPlot && s.two[s.index].handle !in t.onPlot)
  {
  }

  /**
   * The first drawn epoch only sets `linesPlotted`. Every later one gives each curve shown in
   * slot `i` the alpha `alphas[i]` (the loop over `lineChange` reaches exactly the filled slots)
   * and then rotates the alphas by one.
   */
  lemma AlphasFollowLatch(s: Epochs, n: nat, h1: Handle, h2: Handle)
    requires Inv(s) && n >= 2
    ensures var t := Step(s, Some(n), h1, h2).0;
      && (!s.plotted ==> t.alphas == s.alphas && t.one == s.one[s.index := Curve(h1, None)] && t.two == s.two[s.index := Curve(h2, None)])
      && (s.plotted ==> t.alphas == Roll(s.alphas))
      && (s.plotted ==> forall i :: 0 <= i < Slots && t.one[i].Curve? ==> t.one[i].alpha == Some(s.alphas[i]))
      && (s.plotted ==> forall i :: 0 <= i < Slots && t.two[i].Curve? ==> t.two[i].alpha == Some(s.alphas[i]))
  {
    Written(s, h1, h2);
  }

  /** `lineChange` has as many entries as filled slots: all five once full, `lineIndex + 1` before. */
  lemma LineChangeLength(s: Epochs, h1: Handle)
    requires Inv(s)
    ensures var filled := Slots - CountUnfilled(s.one[s.index := Curve(h1, None)]);
      && (FilledBelow(s.one, Slots) && FilledBelow(s.two, Slots) ==> filled == Slots)
      && (!AllFilled(s) ==> filled == s.index + 1)
  {
    Written(s, h1, h1);
    if !AllFilled(s) {
      assert !(FilledBelow(s.one, Slots) && FilledBelow(s.two, Slots));
    }
  }

  /** `EpochViewer`'s epoch state. */
  class EpochViewer {
    /** `self.epochOne`, the curves of the first sample. */
    var epochOne: seq<Slot>
    /** `self.epochTwo`, the curves of the second sample. */
    var epochTwo: seq<Slot>
    /** `self.lineIndex`, the slot the next epoch goes to. */
    var lineIndex: nat
    /** `self.alphas`. */
    var alphas: seq<real>
    /** `self.linesPlotted`. */
    var linesPlotted: bool
    /** The curves on the plot item. */
    var onPlot: set<Handle>

    function State(): Epochs
      reads this
    {
      Epochs(epochOne, epochTwo, lineIndex, alphas, linesPlotted, onPlot)
    }

    ghost predicate Valid()
      reads this
    {
      Inv(State())
    }

    /** `__init__`: empty slots, `lineIndex` 0, the start alphas, nothing plotted. */
    constructor ()
      ensures Valid() && State() == Start()
    {
      epochOne := seq(Slots, _ => Unfilled);
      epochTwo := seq(Slots, _ => Unfilled);
      lineIndex := 0;
      alphas := StartAlphas;
      linesPlotted := false;
      onPlot := {};
      new;
      assert State() == Start();
    }

    /** `main_loop`, with the pull and the two `plot` calls' results as parameters. */
    method MainLoop(pulled: Option<nat>, h1: Handle, h2: Handle) returns (r: Result<(), PyError>)
      requires Valid()
      modifies this
      ensures Valid()
      ensures (State(), r) == Step(old(State()), pulled, h1, h2)
    {
      if pulled.None? {
        return Err(NameError);
      }
      if pulled.value == 0 {
        return Ok(());
      }
      ghost var s := State();
      Open(h1);
      if pulled.value < 2 {
        return Err(IndexError);
      }
      Complete(s, h1, h2);
      r := Ok(());
    }

    /** The removal of the old curves and the new curve of `epochOne`. */
    method Open(h1: Handle)
      requires Valid()
      modifies this
      ensures Valid() && State() == Opened(old(State()), h1)
    {
      Written(State(), h1, h1);
      if CountUnfilled(epochOne) == 0 && CountUnfilled(epochTwo) == 0 {
        onPlot := onPlot - {epochOne[lineIndex].handle};
        onPlot := onPlot - {epochTwo[lineIndex].handle};
      }
      epochOne := epochOne[lineIndex := Curve(h1, None)];
      onPlot := onPlot + {h1};
    }

    /** The rest of a drawn epoch: the curve of `epochTwo`, the alphas or the latch, and `lineIndex`. */
    method Complete(ghost s: Epochs, h1: Handle, h2: Handle)
      requires Inv(s) && State() == Opened(s, h1)
      modifies this
      ensures State() == Drawn(s, h1, h2)
    {
      Written(s, h1, h2);
      epochTwo := epochTwo[lineIndex := Curve(h2, None)];
      onPlot := onPlot + {h2};
      var filled := Slots - CountUnfilled(epochOne);
      if linesPlotted {
        FadeLines(filled);
        alphas := Roll(alphas);
      } else {
        linesPlotted := true;
      }
      if lineIndex < Slots - 1 {
        lineIndex := lineIndex + 1;
      } else {
        lineIndex := 0;
      }
    }

    /** The loop of `main_loop` over `lineChange`: both curves of slot `i` get `alphas[i]`. */
    method FadeLines(n: nat)
      requires n <= Slots == |epochOne| == |epochTwo| == |alphas|
      requires forall i :: 0 <= i < n ==> epochOne[i].Curve? && epochTwo[i].Curve?
      modifies this
      ensures lineIndex == old(lineIndex) && alphas == old(alphas) && linesPlotted == old(linesPlotted) && onPlot == old(onPlot)
      ensures epochOne == Fade(old(epochOne), alphas, n) && epochTwo == Fade(old(epochTwo), alphas, n)
    {
      ghost var one0 := epochOne;
      ghost var two0 := epochTwo;
      var i := 0;
      while i < n
        invariant 0 <= i <= n
        invariant alphas == old(alphas) && lineIndex == old(lineIndex) && linesPlotted == old(linesPlotted) && onPlot == old(onPlot)
        invariant epochOne == Fade(one0, alphas, i) && epochTwo == Fade(two0, alphas, i)
      {
        epochOne := epochOne[i := epochOne[i].(alpha := Some(alphas[i]))];
        epochTwo := epochTwo[i := epochTwo[i].(alpha := Some(alphas[i]))];
        i := i + 1;
      }
    }
  }
}
