/**
 * `EpochViewer.main_loop` of application/Widgets/EpochVisualV2.py: one plot per channel, and per
 * marker value (the first value of the chunk's last sample) a bank of five-slot round robins, one
 * per channel. A marker of 1 draws sample `c` of the chunk into channel `c`'s slot of the first
 * bank, a marker of -1 into the second bank's, and any other marker draws nothing.

 * Around the slot write, each bank behaves as the single round robin of EpochVisual.py: the curve
 * at the slot leaves its plot once channel 0's slots are full, and from the second epoch on the
 * drawn curves get the bank's alphas. The rotation after that goes to misspelled attributes, so as
 * written the alphas never move; `TickAsWritten` keeps that, and `Tick` performs the rotation.
 */
module EpochVisualV2 {
  import opened Wrappers
  import opened EpochVisual

  /** What `pull_chunk` returned: the number of samples and the first value of the last one. */
  datatype Pulled = Pulled(rows: nat, marker: real)

  /** The marker of the first bank (`epochOne`). */
  const MarkerOne: real := 1.0
  /** The marker of the second bank (`epochTwo`). */
  const MarkerTwo: real := -1.0

  /** One bank: the channels' round robins, its slot index and its alphas. */
  datatype Bank = Bank(slots: seq<seq<Slot>>, index: nat, alphas: seq<real>)

  /**
   * What `main_loop` keeps of a bank: a five-slot list per channel, five alphas, and either every
   * slot filled or, per channel, the slots below the index (and maybe the slot at the index,
   * written before an `IndexError` cut the write loop short).
   */
  predicate BankOk(b: Bank, channels: nat) {
    && |b.slots| == channels && b.index < Slots && |b.alphas| == Slots
    && (forall c :: 0 <= c < channels ==> |b.slots[c]| == Slots)
    && ((forall c :: 0 <= c < channels ==> FilledBelow(b.slots[c], Slots))
        || (forall c :: 0 <= c < channels ==> FilledBelow(b.slots[c], b.index) || FilledBelow(b.slots[c], b.index + 1)))
  }

  /** The viewer's state: both banks, `linesPlotted` and the curves on each channel's plot. */
  datatype Viewer = Viewer(one: Bank, two: Bank, plotted: bool, plots: seq<set<Handle>>)

  predicate ViewerOk(s: Viewer, channels: nat) {
    BankOk(s.one, channels) && BankOk(s.two, channels) && |s.plots| == channels
  }

  /** A bank right after `__init__`. */
  function StartBank(channels: nat): (b: Bank)
    ensures BankOk(b, channels)
    ensures forall c :: 0 <= c < channels ==> CountUnfilled(b.slots[c]) == Slots
  {
    var e := seq(Slots, _ => Unfilled);
    FilledBelowCount(e, 0);
    Bank(seq(channels, _ => e), 0, StartAlphas)
  }

  /** The state after `__init__`: empty slots, both indices 0, nothing plotted. */
  function Initial(channels: nat): (s: Viewer)
    ensures ViewerOk(s, channels)
  {
    Viewer(StartBank(channels), StartBank(channels), false, seq(channels, _ => {}))
  }

  /** The curve a slot holds, as a set: empty for an unfilled slot. */
  function HandlesOf(slot: Slot): set<Handle> {
    if slot.Curve? then {slot.handle} else {}
  }

  /** `removeItem(slot)`: a curve leaves the plot; the integer 0 of an empty slot is not on it. */
  function Without(p: set<Handle>, slot: Slot): (r: set<Handle>)
    ensures r <= p
    ensures slot.Curve? ==> r == p - {slot.handle}
  {
    if slot.Curve? then p - {slot.handle} else p
  }

  /** The removal loop: once channel 0's list has no empty slot, each channel's curve at the index leaves its plot. */
  function Cleared(b: Bank, plots: seq<set<Handle>>): (r: seq<set<Handle>>)
    requires BankOk(b, |plots|) && |plots| >= 1
    ensures |r| == |plots|
    ensures CountUnfilled(b.slots[0]) > 0 ==> r == plots
    ensures forall c :: 0 <= c < |r| ==> r[c] <= plots[c] && plots[c] - r[c] <= HandlesOf(b.slots[c][b.index])
  {
    if CountUnfilled(b.slots[0]) == 0 then seq(|plots|, c requires 0 <= c < |plots| => Without(plots[c], b.slots[c][b.index]))
    else plots
  }

  /** The write loop for the first `m` channels: channel `c` gets curve `hs[c]` at the index. */
  function DrawnSlots(b: Bank, hs: seq<Handle>, m: nat): (r: seq<seq<Slot>>)
    requires BankOk(b, |b.slots|) && m <= |b.slots| == |hs|
    ensures |r| == |b.slots|
    ensures forall c :: 0 <= c < m ==> |r[c]| == Slots && r[c][b.index] == Curve(hs[c], None)
    ensures forall c, i :: 0 <= c < m && 0 <= i < Slots && i != b.index ==> r[c][i] == b.slots[c][i]
    ensures forall c :: m <= c < |r| ==> r[c] == b.slots[c]
  {
    seq(|b.slots|, c requires 0 <= c < |b.slots| => if c < m then b.slots[c][b.index := Curve(hs[c], None)] else b.slots[c])
  }

  /** The plots after the first `m` channels got their new curve. */
  function Added(plots: seq<set<Handle>>, hs: seq<Handle>, m: nat): (r: seq<set<Handle>>)
    requires m <= |plots| == |hs|
    ensures |r| == |plots|
    ensures forall c :: 0 <= c < m ==> hs[c] in r[c] && plots[c] <= r[c] && r[c] - plots[c] <= {hs[c]}
    ensures forall c :: m <= c < |r| ==> r[c] == plots[c]
  {
    seq(|plots|, c requires 0 <= c < |plots| => if c < m then plots[c] + {hs[c]} else plots[c])
  }

  /** The alpha loop over `lineChange = range(n)` and every channel. */
  function FadeAll(slots: seq<seq<Slot>>, a: seq<real>, n: nat): (r: seq<seq<Slot>>)
    requires n <= |a| && forall c :: 0 <= c < |slots| ==> n <= |slots[c]|
    requires forall c, i :: 0 <= c < |slots| && 0 <= i < n ==> slots[c][i].Curve?
    ensures |r| == |slots|
    ensures forall c :: 0 <= c < |slots| ==> r[c] == Fade(slots[c], a, n)
    ensures forall c :: 0 <= c < |slots| ==> |r[c]| == |slots[c]|
    ensures forall c, i :: 0 <= c < |slots| && 0 <= i < |slots[c]| ==>
      r[c][i].Curve? == slots[c][i].Curve? && (slots[c][i].Curve? ==> r[c][i].handle == slots[c][i].handle)
    ensures forall c, i :: 0 <= c < |slots| && 0 <= i < n ==> r[c][i].alpha == Some(a[i])
    ensures forall c, i :: 0 <= c < |slots| && n <= i < |slots[c]| ==> r[c][i] == slots[c][i]
  {
    seq(|slots|, c requires 0 <= c < |slots| => Fade(slots[c], a, n))
  }

  /** How many slots per channel are filled once every channel was written at the index. */
  function BankReach(b: Bank): nat {
    if forall c :: 0 <= c < |b.slots| ==> FilledBelow(b.slots[c], Slots) then Slots else b.index + 1
  }

  /** A write loop that reached every channel leaves exactly the slots below `BankReach` filled, as channel 0's count says. */
  lemma AllDrawn(b: Bank, hs: seq<Handle>, channels: nat)
    requires BankOk(b, channels) && |hs| == channels >= 1
    ensures BankReach(b) <= Slots
    ensures forall c :: 0 <= c < channels ==> FilledBelow(DrawnSlots(b, hs, channels)[c], BankReach(b))
    ensures CountUnfilled(DrawnSlots(b, hs, channels)[0]) == Slots - BankReach(b)
  {
    var d := DrawnSlots(b, hs, channels);
    forall c | 0 <= c < channels
      ensures FilledBelow(d[c], BankReach(b))
    {
      assert d[c] == b.slots[c][b.index := Curve(hs[c], None)];
    }
    FilledBelowCount(d[0], BankReach(b));
  }

  /** A write loop cut short after `m` channels keeps the bank's shape. */
  lemma PartlyDrawn(b: Bank, hs: seq<Handle>, channels: nat, m: nat)
    requires BankOk(b, channels) && |hs| == channels && m <= channels
    ensures BankOk(b.(slots := DrawnSlots(b, hs, m)), channels)
  {
    var d := DrawnSlots(b, hs, m);
    if forall c :: 0 <= c < channels ==> FilledBelow(b.slots[c], Slots) {
      forall c | 0 <= c < channels
        ensures FilledBelow(d[c], Slots)
      {
        if c < m {
          assert d[c] == b.slots[c][b.index := Curve(hs[c], None)];
        }
      }
    } else {
      forall c | 0 <= c < channels
        ensures FilledBelow(d[c], b.index) || FilledBelow(d[c], b.index + 1)
      {
        if c < m {
          assert d[c] == b.slots[c][b.index := Curve(hs[c], None)];
          assert FilledBelow(d[c], b.index + 1);
        }
      }
    }
  }

  /** The state of one bank and of the plots after its marker arrived. */
  datatype Marked = Marked(bank: Bank, plots: seq<set<Handle>>, plotted: bool, outcome: Result<(), PyError>)

  /**
   * The bank once every channel got its new curve: the alphas on every filled slot and their
   * rotation when `rotate` holds, or nothing on the first drawn epoch; then the index moves on.
   */
  function Finished(b: Bank, plotted: bool, hs: seq<Handle>, rotate: bool): (r: Bank)
    requires BankOk(b, |hs|) && |hs| >= 1
    ensures BankOk(r, |hs|)
  {
    var drawn := DrawnSlots(b, hs, |hs|);
    AllDrawn(b, hs, |hs|);
    var filled := Slots - CountUnfilled(drawn[0]);
    if plotted then
      var faded := FadeAll(drawn, b.alphas, filled);
      assert forall c :: 0 <= c < |hs| ==> FilledBelow(faded[c], BankReach(b));
      Bank(faded, Next(b.index), if rotate then Roll(b.alphas) else b.alphas)
    else
      Bank(drawn, Next(b.index), b.alphas)
  }

  /**
   * A chunk of `rows` samples with this bank's marker: the removal, the write loop (which raises
   * `IndexError` at `chunk[c, :]` once `c` reaches `rows`), and then `Finished`, which also
   * latches `linesPlotted`.
   */
  function MarkWith(b: Bank, plots: seq<set<Handle>>, plotted: bool, hs: seq<Handle>, rows: nat, rotate: bool): (r: Marked)
    requires BankOk(b, |plots|) && |hs| == |plots| >= 1
    ensures BankOk(r.bank, |plots|) && |r.plots| == |plots|
  {
    var cleared := Cleared(b, plots);
    if rows < |plots| then
      PartlyDrawn(b, hs, |plots|, rows);
      Marked(b.(slots := DrawnSlots(b, hs, rows)), Added(cleared, hs, rows), plotted, Err(IndexError))
    else
      Marked(Finished(b, plotted, hs, rotate), Added(cleared, hs, |plots|), true, Ok(()))
  }

  /**
   * One `main_loop` tick with `hs[c]` the curve `plot` returns for channel `c`: `None` for a
   * failed pull (`chunk` unbound: `NameError`), nothing for an empty chunk, `IndexError` at
   * `epochOne[0]` without channels, otherwise the bank the marker names, or only the latch for
   * any other marker.
   */
  function TickWith(s: Viewer, channels: nat, pulled: Option<Pulled>, hs: seq<Handle>, rotate: bool): (r: (Viewer, Result<(), PyError>))
    requires ViewerOk(s, channels) && |hs| == channels
    ensures ViewerOk(r.0, channels)
  {
    match pulled
    case None => (s, Err(NameError))
    case Some(p) =>
      if p.rows == 0 then (s, Ok(()))
      else if channels == 0 then (s, Err(IndexError))
      else if p.marker == MarkerOne then
        var m := MarkWith(s.one, s.plots, s.plotted, hs, p.rows, rotate);
        (s.(one := m.bank, plots := m.plots, plotted := m.plotted), m.outcome)
      else if p.marker == MarkerTwo then
        var m := MarkWith(s.two, s.plots, s.plotted, hs, p.rows, rotate);
        (s.(two := m.bank, plots := m.plots, plotted := m.plotted), m.outcome)
      else (s.(plotted := true), Ok(()))
  }

  /** `main_loop` as written: the rolled alphas go to `epochOneAlphaslphas`/`epochTwoAlphaslphas`, which nothing reads. */
  function TickAsWritten(s: Viewer, channels: nat, pulled: Option<Pulled>, hs: seq<Handle>): (r: (Viewer, Result<(), PyError>))
    requires ViewerOk(s, channels) && |hs| == channels
    ensures ViewerOk(r.0, channels)
  {
    TickWith(s, channels, pulled, hs, false)
  }

  /** `main_loop` with the rotation stored back into `epochOneAlphas`/`epochTwoAlphas`. */
  function Tick(s: Viewer, channels: nat, pulled: Option<Pulled>, hs: seq<Handle>): (r: (Viewer, Result<(), PyError>))
    requires ViewerOk(s, channels) && |hs| == channels
    ensures ViewerOk(r.0, channels)
  {
    TickWith(s, channels, pulled, hs, true)
  }

  /** As written, no tick ever changes either bank's alphas. */
  lemma AsWrittenAlphasNeverMove(s: Viewer, channels: nat, pulled: Option<Pulled>, hs: seq<Handle>)
    requires ViewerOk(s, channels) && |hs| == channels
    ensures TickAsWritten(s, channels, pulled, hs).0.one.alphas == s.one.alphas
    ensures TickAsWritten(s, channels, pulled, hs).0.two.alphas == s.two.alphas
  {
  }

  /**
   * With the rotation stored, every later drawn epoch of a bank rotates its alphas by one, and
   * the start alphas do move: the as-written viewer and this one differ from the third epoch of
   * a bank on.
   */
  lemma CorrectedAlphasRotate(s: Viewer, channels: nat, rows: nat, hs: seq<Handle>)
    requires ViewerOk(s, channels) && |hs| == channels && 1 <= channels <= rows && s.plotted
    ensures Tick(s, channels, Some(Pulled(rows, MarkerOne)), hs).0.one.alphas == Roll(s.one.alphas)
    ensures Tick(s, channels, Some(Pulled(rows, MarkerTwo)), hs).0.two.alphas == Roll(s.two.alphas)
    ensures Roll(StartAlphas) != StartAlphas
  {
    assert Roll(StartAlphas)[0] == 0.6;
  }

  /** An empty chunk changes nothing; a failed pull changes nothing and raises. */
  lemma EmptyChunkIgnored(s: Viewer, channels: nat, marker: real, hs: seq<Handle>)
    requires ViewerOk(s, channels) && |hs| == channels
    ensures Tick(s, channels, Some(Pulled(0, marker)), hs) == (s, Ok(()))
    ensures Tick(s, channels, None, hs) == (s, Err(NameError))
  {
  }

  /**
   * A marker of 1 over enough samples writes every channel's slot of the first bank, moves its
   * index on modulo 5 and leaves the second bank alone; a marker of -1 does the same the other
   * way round.
   */
  lemma MarkerPicksBank(s: Viewer, channels: nat, rows: nat, hs: seq<Handle>)
    requires ViewerOk(s, channels) && |hs| == channels && 1 <= channels <= rows
    ensures var (t, r) := Tick(s, channels, Some(Pulled(rows, MarkerOne)), hs);
      && r.Ok? && t.two == s.two && t.plotted && t.one.index == (s.one.index + 1) % Slots
      && forall c :: 0 <= c < channels ==> t.one.slots[c][s.one.index].Curve? && t.one.slots[c][s.one.index].handle == hs[c]
    ensures var (t, r) := Tick(s, channels, Some(Pulled(rows, MarkerTwo)), hs);
      && r.Ok? && t.one == s.one && t.plotted && t.two.index == (s.two.index + 1) % Slots
      && forall c :: 0 <= c < channels ==> t.two.slots[c][s.two.index].Curve? && t.two.slots[c][s.two.index].handle == hs[c]
  {
    AllDrawn(s.one, hs, channels);
    AllDrawn(s.two, hs, channels);
  }

  /** Any other marker writes no slot, moves no index and removes no curve; it only sets `linesPlotted`. */
  lemma OtherMarkerDrawsNothing(s: Viewer, channels: nat, p: Pulled, hs: seq<Handle>)
    requires ViewerOk(s, channels) && |hs| == channels && channels >= 1 && p.rows >= 1
    requires p.marker != MarkerOne && p.marker != MarkerTwo
    ensures Tick(s, channels, Some(p), hs) == (s.(plotted := true), Ok(()))
  {
  }

  /** Curves leave a plot only when channel 0's list of the marked bank has no empty slot, and then only the one at the index. */
  lemma RemovalOnlyWhenChannelZeroFull(s: Viewer, channels: nat, rows: nat, hs: seq<Handle>)
    requires ViewerOk(s, channels) && |hs| == channels && 1 <= channels && rows >= 1
    ensures var t := Tick(s, channels, Some(Pulled(rows, MarkerOne)), hs).0;
      && (CountUnfilled(s.one.slots[0]) > 0 ==> forall c :: 0 <= c < channels ==> s.plots[c] <= t.plots[c])
      && (forall c :: 0 <= c < channels ==> s.plots[c] - t.plots[c] <= HandlesOf(s.one.slots[c][s.one.index]))
  {
  }

  /** After a later drawn epoch every curve of the marked bank carries the alpha of its slot. */
  lemma EveryCurveFaded(s: Viewer, channels: nat, rows: nat, hs: seq<Handle>)
    requires ViewerOk(s, channels) && |hs| == channels && 1 <= channels <= rows && s.plotted
    ensures var t := Tick(s, channels, Some(Pulled(rows, MarkerOne)), hs).0;
      forall c, i :: 0 <= c < channels && 0 <= i < Slots && t.one.slots[c][i].Curve? ==> t.one.slots[c][i].alpha == Some(s.one.alphas[i])
  {
    AllDrawn(s.one, hs, channels);
  }

  /** One bank of round robins, `epochOne` or `epochTwo` with its index and alphas. */
  class EpochBank {
    var slots: seq<seq<Slot>>
    var index: nat
    var alphas: seq<real>

    function State(): Bank
      reads this
    {
      Bank(slots, index, alphas)
    }

    constructor (channels: nat)
      ensures State() == StartBank(channels)
    {
      slots := seq(channels, _ => seq(Slots, _ => Unfilled));
      index := 0;
      alphas := StartAlphas;
    }

    /** The removal loop over the channels. */
    method Clear(plots: seq<set<Handle>>) returns (r: seq<set<Handle>>)
      requires BankOk(State(), |plots|) && |plots| >= 1
      ensures r == Cleared(State(), plots)
    {
      r := plots;
      if CountUnfilled(slots[0]) == 0 {
        var c := 0;
        while c < |plots|
          invariant 0 <= c <= |plots| && |r| == |plots|
          invariant forall j :: 0 <= j < |plots| ==> r[j] == if j < c then Without(plots[j], slots[j][index]) else plots[j]
        {
          r := r[c := Without(r[c], slots[c][index])];
          c := c + 1;
        }
      }
    }

    /** The write loop over the channels; `ok` is false when `chunk[c, :]` raised at `c == rows`. */
    method Draw(hs: seq<Handle>, plots: seq<set<Handle>>, rows: nat) returns (r: seq<set<Handle>>, ok: bool)
      requires BankOk(State(), |plots|) && |hs| == |plots|
      modifies this
      ensures index == old(index) && alphas == old(alphas)
      ensures ok == (rows >= |plots|)
      ensures var m := if ok then |plots| else rows;
        slots == DrawnSlots(old(State()), hs, m) && r == Added(plots, hs, m)
    {
      ghost var b := State();
      r := plots;
      var c := 0;
      while c < |plots|
        invariant 0 <= c <= |plots| && c <= rows
        invariant index == b.index && alphas == b.alphas
        invariant slots == DrawnSlots(b, hs, c) && r == Added(plots, hs, c)
      {
        if c >= rows {
          return r, false;
        }
        slots := slots[c := slots[c][index := Curve(hs[c], None)]];
        r := r[c := r[c] + {hs[c]}];
        c := c + 1;
      }
      ok := true;
    }

    /** The alpha loop: for each slot below `n`, every channel's curve there gets `alphas[i]`. */
    method FadeSlots(n: nat)
      requires n <= Slots == |alphas| && forall c :: 0 <= c < |slots| ==> |slots[c]| == Slots
      requires forall c, i :: 0 <= c < |slots| && 0 <= i < n ==> slots[c][i].Curve?
      modifies this
      ensures index == old(index) && alphas == old(alphas)
      ensures slots == FadeAll(old(slots), alphas, n)
    {
      ghost var s0 := slots;
      forall c | 0 <= c < |s0|
        ensures Fade(s0[c], alphas, 0) == s0[c]
      {
      }
      assert slots == FadeAll(s0, alphas, 0);
      var i := 0;
      while i < n
        invariant 0 <= i <= n && index == old(index) && alphas == old(alphas)
        invariant slots == FadeAll(s0, alphas, i)
      {
        var c := 0;
        while c < |slots|
          invariant 0 <= c <= |slots| == |s0| && index == old(index) && alphas == old(alphas)
          invariant forall j :: 0 <= j < |slots| ==> slots[j] == Fade(s0[j], alphas, if j < c then i + 1 else i)
        {
          assert Fade(s0[c], alphas, i + 1) == Fade(s0[c], alphas, i)[i := s0[c][i].(alpha := Some(alphas[i]))];
          slots := slots[c := slots[c][i := slots[c][i].(alpha := Some(alphas[i]))]];
          c := c + 1;
        }
        assert slots == FadeAll(s0, alphas, i + 1);
        i := i + 1;
      }
    }

    /** The part of `main_loop` after the write loop reached every channel. */
    method Finish(ghost b0: Bank, plotted: bool, hs: seq<Handle>)
      requires BankOk(b0, |hs|) && |hs| >= 1 && State() == b0.(slots := DrawnSlots(b0, hs, |hs|))
      modifies this
      ensures State() == Finished(b0, plotted, hs, true)
    {
      AllDrawn(b0, hs, |hs|);
      var filled := Slots - CountUnfilled(slots[0]);
      if plotted {
        FadeSlots(filled);
        RollAlphas();
      }
      Advance();
    }

    /** `np.roll` of the bank's alphas, stored back. */
    method RollAlphas()
      requires |alphas| == Slots
      modifies this
      ensures alphas == Roll(old(alphas)) && slots == old(slots) && index == old(index)
    {
      alphas := Roll(alphas);
    }

    /** The index moves on, back to 0 after the last slot. */
    method Advance()
      requires index < Slots
      modifies this
      ensures index == Next(old(index)) && slots == old(slots) && alphas == old(alphas)
    {
      if index < Slots - 1 {
        index := index + 1;
      } else {
        index := 0;
      }
    }
  }

  /** `EpochViewer` of EpochVisualV2.py with the rolled alphas stored back. */
  class EpochViewer {
    const channels: nat
    /** `epochOne`, `epochOneIndex` and `epochOneAlphas`. */
    const one: EpochBank
    /** `epochTwo`, `epochTwoIndex` and `epochTwoAlphas`. */
    const two: EpochBank
    /** `self.linesPlotted`. */
    var linesPlotted: bool
    /** The curves on each channel's plot. */
    var plots: seq<set<Handle>>

    function State(): Viewer
      reads this, one, two
    {
      Viewer(one.State(), two.State(), linesPlotted, plots)
    }

    ghost predicate Valid()
      reads this, one, two
    {
      one != two && ViewerOk(State(), channels)
    }

    /** `__init__` for `channels` plots. */
    constructor (channels: nat)
      ensures Valid() && State() == Initial(channels) && fresh(one) && fresh(two)
    {
      this.channels := channels;
      one := new EpochBank(channels);
      two := new EpochBank(channels);
      linesPlotted := false;
      plots := seq(channels, _ => {});
    }

    /** `main_loop`, with the pull and the curves `plot` returns per channel as parameters. */
    method MainLoop(pulled: Option<Pulled>, hs: seq<Handle>) returns (r: Result<(), PyError>)
      requires Valid() && |hs| == channels
      modifies this, one, two
      ensures Valid()
      ensures (State(), r) == Tick(old(State()), channels, pulled, hs)
    {
      if pulled.None? {
        return Err(NameError);
      }
      if pulled.value.rows == 0 {
        return Ok(());
      }
      if channels == 0 {
        return Err(IndexError);
      }
      if pulled.value.marker == MarkerOne {
        r := Mark(one, hs, pulled.value.rows);
      } else if pulled.value.marker == MarkerTwo {
        r := Mark(two, hs, pulled.value.rows);
      } else {
        if !linesPlotted {
          linesPlotted := true;
        }
        r := Ok(());
      }
    }

    /** The work of `main_loop` for the bank `b` the marker names. */
    method Mark(b: EpochBank, hs: seq<Handle>, rows: nat) returns (r: Result<(), PyError>)
      requires Valid() && (b == one || b == two) && |hs| == channels >= 1
      modifies this, b
      ensures Valid()
      ensures Marked(b.State(), plots, linesPlotted, r) == MarkWith(old(b.State()), old(plots), old(linesPlotted), hs, rows, true)
      ensures b == one ==> two.State() == old(two.State())
      ensures b == two ==> one.State() == old(one.State())
    {
      ghost var b0 := b.State();
      var cleared := b.Clear(plots);
      var p, ok := b.Draw(hs, cleared, rows);
      plots := p;
      if !ok {
        PartlyDrawn(b0, hs, channels, rows);
        return Err(IndexError);
      }
      b.Finish(b0, linesPlotted, hs);
      if !linesPlotted {
        linesPlotted := true;
      }
      r := Ok(());
    }
  }
}
