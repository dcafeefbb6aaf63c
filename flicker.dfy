/**
 * Section 2 of SSVEP/SSVEP_8_flickers.py: for each of the eight stimuli a 60-frame ON/OFF
 * schedule is laid out in `stimulus_frame_sequence` (1 on ON frames, 0 elsewhere) and in
 * `stimulus_color_sequence` (white, every component 1, on ON frames; black, every component -1,
 * on OFF frames), driven by a switch and a frame counter that count the ON and OFF frames of the
 * stimulus's activation pair.
 */
module Flicker {
  import opened Arith

  /** `number_stimulus`. */
  const NumberStimulus: nat := 8
  /** `stimulus_frame_sequence_length`. */
  const SequenceLength: nat := 60
  /** `stimulus_frame_activations`: the ON and OFF frame counts of each stimulus. */
  const Activations: seq<(nat, nat)> := [(1, 1), (3, 2), (2, 2), (2, 1), (3, 3), (4, 3), (5, 5), (4, 4)]

  /** The loop state before a frame: `frame_state_switch` and `frame_counter`. */
  datatype Phase = Phase(on: bool, counter: nat)

  /** One frame of the inner loop: count the frame and flip the switch when the phase is complete. */
  function StepPhase(p: Phase, act: (nat, nat)): (r: Phase)
    ensures r.on != p.on <==> p.counter + 1 == if p.on then act.0 else act.1
    ensures r.counter == if r.on != p.on then 0 else p.counter + 1
  {
    if p.on then
      if p.counter + 1 == act.0 then Phase(false, 0) else Phase(true, p.counter + 1)
    else
      if p.counter + 1 == act.1 then Phase(true, 0) else Phase(false, p.counter + 1)
  }

  /**
   * The loop state before frame `f`: every stimulus starts ON with the counter at 0. With both
   * counts positive the counter stays below the length of the current phase.
   */
  function PhaseAt(f: nat, act: (nat, nat)): (p: Phase)
    ensures act.0 >= 1 && act.1 >= 1 ==> p.counter < if p.on then act.0 else act.1
  {
    if f == 0 then Phase(true, 0) else StepPhase(PhaseAt(f - 1, act), act)
  }

  /**
   * The schedule in closed form: with both counts positive, frame `f` is ON exactly when
   * `f mod (on + off) < on`; a stimulus with no ON frames configured never switches off, and one
   * with no OFF frames stays off after its first `on` frames.
   */
  function Lit(f: nat, act: (nat, nat)): bool {
    if act.0 == 0 then true
    else if act.1 == 0 then f < act.0
    else f % (act.0 + act.1) < act.0
  }

  /** `(f + 1) mod p` from `f mod p`. */
  lemma ModNext(f: nat, p: nat)
    requires p > 0
    ensures (f + 1) % p == if f % p + 1 == p then 0 else f % p + 1
  {
    var q := f / p;
    assert f == q * p + f % p;
    if f % p + 1 == p {
      assert f + 1 == (q + 1) * p;
      ModUnique(f + 1, q + 1, p, 0);
    } else {
      ModUnique(f + 1, q, p, f % p + 1);
    }
  }

  /**
   * With positive counts the state before frame `f` is determined by `f mod (on + off)`: the
   * counter holds the frames already spent in the current phase, so it stays below that phase's
   * length and is 0 right after every switch.
   */
  lemma {:induction false} PhaseClosedForm(f: nat, act: (nat, nat))
    requires act.0 >= 1 && act.1 >= 1
    ensures var r := f % (act.0 + act.1);
      PhaseAt(f, act) == if r < act.0 then Phase(true, r) else Phase(false, r - act.0)
  {
    var p := act.0 + act.1;
    if f > 0 {
      var r := (f - 1) % p;
      PhaseClosedForm(f - 1, act);
      ModNext(f - 1, p);
      var prev := PhaseAt(f - 1, act);
      assert PhaseAt(f, act) == StepPhase(prev, act);
      if r < act.0 {
        assert prev == Phase(true, r);
      } else {
        assert prev == Phase(false, r - act.0);
      }
    }
  }

  /** With no ON frames configured the counter only grows, so the switch stays on. */
  lemma {:induction false} NoOnFramesStaysOn(f: nat, act: (nat, nat))
    requires act.0 == 0
    ensures PhaseAt(f, act) == Phase(true, f)
  {
    if f > 0 {
      NoOnFramesStaysOn(f - 1, act);
    }
  }

  /** With no OFF frames configured the stimulus is ON for its first `on` frames and off ever after. */
  lemma {:induction false} NoOffFramesStaysOff(f: nat, act: (nat, nat))
    requires act.0 >= 1 && act.1 == 0
    ensures PhaseAt(f, act) == if f < act.0 then Phase(true, f) else Phase(false, f - act.0)
  {
    if f > 0 {
      NoOffFramesStaysOff(f - 1, act);
    }
  }

  /** The switch before frame `f` is exactly the closed form `Lit`. */
  lemma ScheduleIsLit(f: nat, act: (nat, nat))
    ensures PhaseAt(f, act).on == Lit(f, act)
  {
    if act.0 == 0 {
      NoOnFramesStaysOn(f, act);
    } else if act.1 == 0 {
      NoOffFramesStaysOff(f, act);
    } else {
      PhaseClosedForm(f, act);
    }
  }

  /** Frame 0 of every stimulus is ON, and the very first OFF frame comes after the `on` ON frames. */
  lemma FirstFrames(act: (nat, nat))
    requires act.0 >= 1
    ensures PhaseAt(0, act).on
    ensures forall f :: 0 <= f < act.0 ==> Lit(f, act)
    ensures !Lit(act.0, act)
  {
    forall f | 0 <= f < act.0
      ensures Lit(f, act)
    {
      if act.1 >= 1 {
        ModUnique(f, 0, act.0 + act.1, f);
      }
    }
    if act.1 >= 1 {
      ModUnique(act.0, 0, act.0 + act.1, act.0);
    }
  }

  /** The configured stimuli each flicker with period `on + off`: frame `f` and frame `f + on + off` agree. */
  lemma ConfiguredPeriods(s: nat, f: nat)
    requires s < NumberStimulus
    ensures Activations[s].0 >= 1 && Activations[s].1 >= 1
    ensures Lit(f + Activations[s].0 + Activations[s].1, Activations[s]) == Lit(f, Activations[s])
  {
    var act := Activations[s];
    var p := act.0 + act.1;
    assert f == (f / p) * p + f % p;
    ModUnique(f + p, f / p + 1, p, f % p);
  }

  /** The frame-sequence value of a frame: 1 when ON, the 0 of `numpy.zeros` otherwise. */
  function FrameValue(on: bool): int {
    if on then 1 else 0
  }

  /** The colour component of a frame: 1 (white) when ON, -1 (black) when OFF. */
  function ColorValue(on: bool): int {
    if on then 1 else -1
  }

  /**
   * The loops of section 2 over the stimuli and their frames, writing into fresh zero matrices:
   * every cell is the value the switch gives before that frame.
   */
  method BuildSchedule(activations: seq<(nat, nat)>, length: nat) returns (frames: array2<int>, colors: array3<int>)
    ensures fresh(frames) && fresh(colors)
    ensures frames.Length0 == |activations| && frames.Length1 == length
    ensures colors.Length0 == |activations| && colors.Length1 == 3 && colors.Length2 == length
    ensures forall s, f :: 0 <= s < |activations| && 0 <= f < length ==>
      frames[s, f] == FrameValue(PhaseAt(f, activations[s]).on)
    ensures forall s, k, f :: 0 <= s < |activations| && 0 <= k < 3 && 0 <= f < length ==>
      colors[s, k, f] == ColorValue(PhaseAt(f, activations[s]).on)
  {
    frames := new int[|activations|, length]((_, _) => 0);
    colors := new int[|activations|, 3, length]((_, _, _) => 0);
    var stimulus := 0;
    while stimulus < |activations|
      invariant 0 <= stimulus <= |activations|
      invariant forall s, f :: 0 <= s < stimulus && 0 <= f < length ==> frames[s, f] == FrameValue(PhaseAt(f, activations[s]).on)
      invariant forall s, k, f :: 0 <= s < stimulus && 0 <= k < 3 && 0 <= f < length ==> colors[s, k, f] == ColorValue(PhaseAt(f, activations[s]).on)
      invariant forall s, f :: stimulus <= s < |activations| && 0 <= f < length ==> frames[s, f] == 0
    {
      FillStimulus(frames, colors, activations, stimulus, length);
      stimulus := stimulus + 1;
    }
  }

  /** The inner loop for one stimulus: the switch starts ON and the counter at 0. */
  method FillStimulus(frames: array2<int>, colors: array3<int>, activations: seq<(nat, nat)>, stimulus: nat, length: nat)
    requires stimulus < |activations| == frames.Length0 == colors.Length0
    requires frames.Length1 == length && colors.Length1 == 3 && colors.Length2 == length
    requires forall f :: 0 <= f < length ==> frames[stimulus, f] == 0
    modifies frames, colors
    ensures forall s, f :: 0 <= s < frames.Length0 && 0 <= f < length ==>
      frames[s, f] == if s == stimulus then FrameValue(PhaseAt(f, activations[s]).on) else old(frames[s, f])
    ensures forall s, k, f :: 0 <= s < colors.Length0 && 0 <= k < 3 && 0 <= f < length ==>
      colors[s, k, f] == if s == stimulus then ColorValue(PhaseAt(f, activations[s]).on) else old(colors[s, k, f])
  {
    var act := activations[stimulus];
    var frameStateSwitch := true;
    var frameCounter := 0;
    var frame := 0;
    while frame < length
      invariant 0 <= frame <= length
      invariant Phase(frameStateSwitch, frameCounter) == PhaseAt(frame, act)
      invariant forall s, f :: 0 <= s < frames.Length0 && 0 <= f < length ==>
        frames[s, f] == if s == stimulus && f < frame then FrameValue(PhaseAt(f, act).on) else old(frames[s, f])
      invariant forall s, k, f :: 0 <= s < colors.Length0 && 0 <= k < 3 && 0 <= f < length ==>
        colors[s, k, f] == if s == stimulus && f < frame then ColorValue(PhaseAt(f, act).on) else old(colors[s, k, f])
    {
      if frameStateSwitch {
        frameCounter := frameCounter + 1;
        frames[stimulus, frame] := 1;
        colors[stimulus, 0, frame] := 1;
        colors[stimulus, 1, frame] := 1;
        colors[stimulus, 2, frame] := 1;
        if frameCounter == act.0 {
          frameCounter := 0;
          frameStateSwitch := false;
        }
      } else {
        frameCounter := frameCounter + 1;
        colors[stimulus, 0, frame] := -1;
        colors[stimulus, 1, frame] := -1;
        colors[stimulus, 2, frame] := -1;
        if frameCounter == act.1 {
          frameCounter := 0;
          frameStateSwitch := true;
        }
      }
      frame := frame + 1;
    }
  }

  /**
   * The script's own schedule: frame `f` of stimulus `s` is ON exactly when
   * `f mod (on_s + off_s) < on_s`, with the frame value and all three colour components
   * following that.
   */
  lemma ScriptSchedule(s: nat, f: nat)
    requires s < NumberStimulus && f < SequenceLength
    ensures PhaseAt(f, Activations[s]).on <==> f % (Activations[s].0 + Activations[s].1) < Activations[s].0
    ensures FrameValue(PhaseAt(f, Activations[s]).on) == (if f % (Activations[s].0 + Activations[s].1) < Activations[s].0 then 1 else 0)
    ensures ColorValue(PhaseAt(f, Activations[s]).on) == (if f % (Activations[s].0 + Activations[s].1) < Activations[s].0 then 1 else -1)
  {
    ScheduleIsLit(f, Activations[s]);
  }
}
