/**
 * The selection logic of `LSLgui` in application/LSL_visualization.py: the list of channels
 * chosen for viewing (`showChannels`), the filter checkboxes (`filters`), applying the checked
 * filters to the time-series viewer, and the checks `showTSStream` and `showTFStream` make
 * before they open a viewer.
 */
module LslVisualization {
  import opened Wrappers
  import opened WindowSpec
  import opened AppTimeSeriesViewer

  /** The error text of both viewers when no stream was found. */
  const NoStreamMessage: string := "Please have ONE stream available to view."
  /** The error text when the channel selection does not suit the viewer. */
  const ChannelMessage: string := "Please select only ONE channel to view."

  /** `list.remove(x)` where `x` is known to be there: the first occurrence goes. */
  function RemoveFirst(s: seq<nat>, x: nat): (r: seq<nat>)
    ensures x !in s ==> r == s
    ensures x in s ==> |r| == |s| - 1
    ensures multiset(r) == multiset(s) - multiset{x}
  {
    if |s| == 0 then []
    else if s[0] == x then
      assert s == [s[0]] + s[1..];
      s[1..]
    else
      assert s == [s[0]] + s[1..];
      [s[0]] + RemoveFirst(s[1..], x)
  }

  /** A list without repeats loses exactly `x` when `x` is removed, and keeps no repeats. */
  lemma {:induction false} RemoveFirstDistinct(s: seq<nat>, x: nat)
    requires Distinct(s)
    ensures Distinct(RemoveFirst(s, x))
    ensures forall y :: y in RemoveFirst(s, x) <==> y in s && y != x
  {
    if |s| > 0 {
      DistinctTail(s);
      var r := RemoveFirst(s, x);
      if s[0] != x {
        RemoveFirstDistinct(s[1..], x);
        var t := RemoveFirst(s[1..], x);
        assert r == [s[0]] + t;
        DistinctCons(s[0], t);
        forall y
          ensures y in r <==> y in s && y != x
        {
          assert y in s <==> y == s[0] || y in s[1..];
        }
      } else {
        forall y
          ensures y in r <==> y in s && y != x
        {
          assert y in s <==> y == s[0] || y in s[1..];
        }
      }
    }
  }

  /** Putting a value a list lacks in front keeps it without repeats. */
  lemma DistinctCons(x: nat, t: seq<nat>)
    requires Distinct(t) && x !in t
    ensures Distinct([x] + t)
  {
    var c := [x] + t;
    forall i, j | 0 <= i < j < |c|
      ensures c[i] != c[j]
    {
      assert c[j] == t[j - 1];
      if i > 0 {
        assert c[i] == t[i - 1];
      }
    }
  }

  /** The tail of a list without repeats has none and lacks the head. */
  lemma DistinctTail(s: seq<nat>)
    requires Distinct(s) && |s| > 0
    ensures Distinct(s[1..]) && s[0] !in s[1..]
  {
    forall i, j | 0 <= i < j < |s[1..]|
      ensures s[1..][i] != s[1..][j]
    {
      assert s[1..][i] == s[i + 1] && s[1..][j] == s[j + 1];
    }
    forall k | 0 <= k < |s[1..]|
      ensures s[1..][k] != s[0]
    {
      assert s[1..][k] == s[k + 1];
    }
  }

  /** Removing a value just appended to a list that did not hold it gives the list back. */
  lemma {:induction false} RemoveAppended(s: seq<nat>, x: nat)
    requires x !in s
    ensures RemoveFirst(s + [x], x) == s
  {
    if |s| > 0 {
      assert (s + [x])[1..] == s[1..] + [x];
      RemoveAppended(s[1..], x);
    }
  }

  /**
   * `selectChannel(id)`: the button with id 0 ("View All") changes nothing; button `k > 0`
   * removes channel `k - 1` from the list if it is there and appends it otherwise.
   */
  function Toggle(s: seq<nat>, id: nat): (r: seq<nat>)
    ensures id == 0 ==> r == s
    ensures Distinct(s) ==> Distinct(r)
    ensures Distinct(s) ==> forall x :: x in r <==> (x in s) != (id > 0 && x == id - 1)
  {
    if id == 0 then s
    else if id - 1 in s then
      RemoveFirstDistinctWhen(s, id - 1);
      RemoveFirst(s, id - 1)
    else
      AppendDistinct(s, id - 1);
      s + [id - 1]
  }

  /** `RemoveFirstDistinct` for lists that may repeat, as the implication `Toggle` needs. */
  lemma RemoveFirstDistinctWhen(s: seq<nat>, x: nat)
    ensures Distinct(s) ==> Distinct(RemoveFirst(s, x)) && forall y :: y in RemoveFirst(s, x) <==> y in s && y != x
  {
    if Distinct(s) {
      RemoveFirstDistinct(s, x);
    }
  }

  /** Appending a value the list lacks keeps it without repeats. */
  lemma AppendDistinct(s: seq<nat>, x: nat)
    requires x !in s
    ensures Distinct(s) ==> Distinct(s + [x])
  {
  }

  /** Toggling a channel button of the group keeps the selection within the group. */
  lemma ToggleInRange(s: seq<nat>, id: nat, n: nat)
    requires InRange(s, n) && id <= n
    ensures InRange(Toggle(s, id), n)
  {
    var r := Toggle(s, id);
    if id > 0 && id - 1 in s {
      forall k | 0 <= k < |r|
        ensures r[k] < n
      {
        assert r[k] in multiset(r);
      }
    }
  }

  /**
   * Clicking the same channel twice restores which channels are selected; when the channel
   * was not selected, the list itself comes back.
   */
  lemma ToggleTwice(s: seq<nat>, id: nat)
    requires Distinct(s)
    ensures forall x :: x in Toggle(Toggle(s, id), id) <==> x in s
    ensures id > 0 && id - 1 !in s ==> Toggle(Toggle(s, id), id) == s
  {
    if id > 0 && id - 1 !in s {
      assert id - 1 in s + [id - 1];
      RemoveAppended(s, id - 1);
    }
  }

  /** `[index for index, value in enumerate(buttons)]` for `n` channel buttons. */
  function Range(n: nat): (r: seq<nat>)
    ensures |r| == n && Distinct(r) && InRange(r, n)
    ensures forall i: nat :: i < n ==> i in r
    ensures forall i :: 0 <= i < n ==> r[i] == i
  {
    var r := seq(n, i requires 0 <= i < n => i as nat);
    ListsEveryChannel(r, n);
    r
  }

  /** A list whose entry `i` is `i` for every `i < n` contains every channel below `n`. */
  lemma ListsEveryChannel(r: seq<nat>, n: nat)
    requires |r| == n && forall i :: 0 <= i < n ==> r[i] == i
    ensures forall i: nat :: i < n ==> i in r
  {
    forall i: nat | i < n
      ensures i in r
    {
      assert r[i] == i;
    }
  }

  /** The first value an association list gives for `k`, as a dict lookup. */
  function Lookup(d: seq<(string, bool)>, k: string): Option<bool>
  {
    if |d| == 0 then None
    else if d[0].0 == k then Some(d[0].1)
    else Lookup(d[1..], k)
  }

  /**
   * `d[k] = v` on a dict kept as an association list in insertion order: an existing key keeps
   * its place, a new key goes last.
   */
  function SetKey(d: seq<(string, bool)>, k: string, v: bool): (r: seq<(string, bool)>)
    ensures Lookup(r, k) == Some(v)
    ensures forall j :: j != k ==> Lookup(r, j) == Lookup(d, j)
    ensures Lookup(d, k).Some? ==> |r| == |d|
    ensures Lookup(d, k).None? ==> |r| == |d| + 1 && r[|d|] == (k, v)
    ensures forall i :: 0 <= i < |d| ==> r[i].0 == d[i].0
  {
    if |d| == 0 then [(k, v)]
    else if d[0].0 == k then [(k, v)] + d[1..]
    else [d[0]] + SetKey(d[1..], k, v)
  }

  /** One entry of `applyFilters`: a checked filter is added, an unchecked one removed. */
  function ApplyOne(p: AppParams, s: AppSide, e: (string, bool)): (r: (AppSide, Result<(), PyError>))
    requires AppOk(p, s)
    ensures AppOk(p, r.0)
    ensures e.1 ==> r == AddSpec(p, s, e.0)
    ensures !e.1 ==> r == (RemoveSpec(p, s, e.0), Ok(()))
  {
    if e.1 then AddSpec(p, s, e.0) else (RemoveSpec(p, s, e.0), Ok(()))
  }

  /** `applyFilters`: the entries in key order, an exception ending the loop. */
  function ApplyAll(p: AppParams, s: AppSide, d: seq<(string, bool)>): (r: (AppSide, Result<(), PyError>))
    requires AppOk(p, s)
    ensures AppOk(p, r.0)
    decreases |d|
  {
    if |d| == 0 then (s, Ok(()))
    else
      var (s1, r1) := ApplyAll(p, s, d[..|d| - 1]);
      if r1.Err? then (s1, r1) else ApplyOne(p, s1, d[|d| - 1])
  }

  /** Running one more entry after a prefix that did not raise. */
  lemma ApplyAllSnoc(p: AppParams, s: AppSide, d: seq<(string, bool)>, i: nat)
    requires AppOk(p, s) && i < |d| && ApplyAll(p, s, d[..i]).1.Ok?
    ensures AppOk(p, ApplyAll(p, s, d[..i]).0)
    ensures ApplyAll(p, s, d[..i + 1]) == ApplyOne(p, ApplyAll(p, s, d[..i]).0, d[i])
  {
    assert d[..i + 1][..i] == d[..i];
  }

  /** Once an entry raises, the entries after it do not run. */
  lemma {:induction false} ApplyAllStops(p: AppParams, s: AppSide, d: seq<(string, bool)>, i: nat)
    requires AppOk(p, s) && i <= |d| && ApplyAll(p, s, d[..i]).1.Err?
    ensures ApplyAll(p, s, d) == ApplyAll(p, s, d[..i])
    decreases |d|
  {
    if i < |d| {
      assert d[..|d| - 1][..i] == d[..i];
      ApplyAllStops(p, s, d[..|d| - 1], i);
    } else {
      assert d[..i] == d;
    }
  }

  /**
   * With the two filter boxes as the GUI holds them, `applyFilters` leaves each flag of the
   * viewer as its box says, and the only exception it can end with is the Butterworth
   * constructor's, for a checked Butterworth box.
   */
  lemma ApplyMatchesBoxes(p: AppParams, s: AppSide, notch: bool, butter: bool)
    requires AppOk(p, s)
    ensures var r := ApplyAll(p, s, [(NotchKey, notch), (ButterKey, butter)]);
      && r.0.notchOn == notch && r.0.butterOn == butter
      && (r.1.Err? ==> butter && DefaultButter(p).Err? && r.1 == Err(DefaultButter(p).error))
  {
    var d := [(NotchKey, notch), (ButterKey, butter)];
    assert d[..1] == [(NotchKey, notch)];
    assert d[..1][..0] == [];
    assert ApplyAll(p, s, d[..1][..0]) == (s, Ok(()));
    assert ApplyAll(p, s, d[..1]) == ApplyOne(p, s, (NotchKey, notch));
  }

  /** The selection state of `LSLgui`. */
  class Gui {
    /** The number of channel checkboxes `loadChannels` made for the current stream. */
    var nChannels: nat
    /** `self.showChannels`. */
    var showChannels: seq<nat>
    /** `self.filters`, in key order. */
    var filters: seq<(string, bool)>

    ghost predicate Valid()
      reads this
    {
      Distinct(showChannels) && InRange(showChannels, nChannels)
    }

    /** `LSLgui()`: nothing selected and both filter boxes unchecked. */
    constructor ()
      ensures Valid() && showChannels == [] && nChannels == 0
      ensures filters == [(NotchKey, false), (ButterKey, false)]
    {
      nChannels := 0;
      showChannels := [];
      filters := [(NotchKey, false), (ButterKey, false)];
    }

    /** The selection part of `loadChannels`: the list is cleared and `n` channel boxes appear. */
    method LoadChannels(n: nat)
      modifies this
      ensures Valid() && showChannels == [] && nChannels == n && filters == old(filters)
    {
      showChannels := [];
      nChannels := n;
    }

    /** `selectChannel(id)` for the button `id` of the channel group. */
    method SelectChannel(id: nat)
      requires Valid() && id <= nChannels
      modifies this
      ensures Valid()
      ensures showChannels == Toggle(old(showChannels), id)
      ensures nChannels == old(nChannels) && filters == old(filters)
    {
      if id != 0 {
        var button := id - 1;
        ToggleInRange(showChannels, id, nChannels);
        if button in showChannels {
          showChannels := RemoveFirst(showChannels, button);
        } else {
          showChannels := showChannels + [button];
        }
      }
    }

    /** `selectAllChannels`: every channel when "View All" is checked, none otherwise. */
    method SelectAllChannels(checked: bool)
      requires Valid()
      modifies this
      ensures Valid()
      ensures checked ==> showChannels == Range(nChannels)
      ensures !checked ==> showChannels == []
      ensures nChannels == old(nChannels) && filters == old(filters)
    {
      if checked {
        showChannels := Range(nChannels);
      } else {
        showChannels := [];
      }
    }

    /** `selectFilters(button)`: the box's text becomes a key holding its checked state. */
    method SelectFilters(text: string, checked: bool)
      modifies this
      ensures filters == SetKey(old(filters), text, checked)
      ensures showChannels == old(showChannels) && nChannels == old(nChannels)
    {
      filters := SetKey(filters, text, checked);
    }

    /**
     * `applyFilters` on the time-series viewer `self.graph`: for each key in order, add the
     * filter when its box is checked and remove it otherwise.
     */
    method ApplyFilters(g: FilterGraphs) returns (r: Result<(), PyError>)
      requires g.Valid()
      modifies g
      ensures g.Valid()
      ensures (g.Side(), r) == ApplyAll(g.Config(), old(g.Side()), filters)
    {
      var d := filters;
      ghost var p := g.Config();
      ghost var s0 := g.Side();
      var i := 0;
      while i < |d|
        invariant 0 <= i <= |d| && g.Valid() && g.Config() == p
        invariant (g.Side(), Ok(())) == ApplyAll(p, s0, d[..i])
      {
        ApplyAllSnoc(p, s0, d, i);
        var a := ApplyEntry(g, d[i]);
        if a.Err? {
          ApplyAllStops(p, s0, d, i + 1);
          return a;
        }
        i := i + 1;
      }
      assert d[..i] == d;
      r := Ok(());
    }

    /** One pass of the `applyFilters` loop. */
    method ApplyEntry(g: FilterGraphs, e: (string, bool)) returns (r: Result<(), PyError>)
      requires g.Valid()
      modifies g
      ensures g.Valid()
      ensures (g.Side(), r) == ApplyOne(g.Config(), old(g.Side()), e)
    {
      r := Ok(());
      if e.1 {
        r := g.AddFilter(e.0);
      } else {
        g.RemoveFilter(e.0);
      }
    }

    /**
     * The checks of `showTSStream`: an error message when no stream was found or no channel
     * is selected, and otherwise the copy of the selection the new viewer is built with, which
     * is what the viewer's constructor needs.
     */
    method ShowTSStream(nStreams: nat) returns (r: Result<seq<nat>, string>)
      requires Valid()
      ensures nStreams == 0 ==> r == Err(NoStreamMessage)
      ensures nStreams > 0 && |showChannels| == 0 ==> r == Err(ChannelMessage)
      ensures nStreams > 0 && |showChannels| > 0 ==> r == Ok(showChannels)
      ensures r.Ok? ==> |r.value| >= 1 && Distinct(r.value) && InRange(r.value, nChannels)
    {
      if nStreams == 0 {
        return Err(NoStreamMessage);
      } else if |showChannels| == 0 {
        return Err(ChannelMessage);
      }
      var view := showChannels;
      r := Ok(view);
    }

    /**
     * The checks of `showTFStream`: an error message when no stream was found or the
     * selection is not exactly one channel, and otherwise that channel.
     */
    method ShowTFStream(nStreams: nat) returns (r: Result<nat, string>)
      requires Valid()
      ensures nStreams == 0 ==> r == Err(NoStreamMessage)
      ensures nStreams > 0 && |showChannels| != 1 ==> r == Err(ChannelMessage)
      ensures r.Ok? <==> nStreams > 0 && |showChannels| == 1
      ensures r.Ok? ==> r.value == showChannels[0] && r.value < nChannels
    {
      if nStreams == 0 {
        return Err(NoStreamMessage);
      } else if |showChannels| > 1 || |showChannels| == 0 {
        return Err(ChannelMessage);
      }
      r := Ok(showChannels[0]);
    }
  }
}
