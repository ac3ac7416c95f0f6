/**
 * The gradual-transition engine: the current envelope shape, the target it moves
 * towards, whether a transition is running and the bar it began at. One step is taken
 * per bar boundary; each step eases from the current, already-moved values.
 */
module Transition {
  import opened Util
  import opened Envelope

  /** Bar intervals offered by the randomize popup (1 to 24). */
  type BarInterval = n: int | 1 <= n <= 24 witness 1

  /** adsrValues, targetAdsrValues, isTransitioning and transitionStartBar taken together. */
  datatype Transition = Transition(current: AdsrValues, target: AdsrValues, active: bool, startBar: int)

  /**
   * The progress of a transition at `bar`: the elapsed bars over the interval, capped
   * at 1 but not floored at 0. It reaches 1 exactly when the interval has elapsed.
   */
  function Progress(bar: int, startBar: int, bars: BarInterval): (p: real)
    ensures p <= 1.0
    ensures p >= 1.0 <==> bar - startBar >= bars
    ensures startBar <= bar ==> 0.0 <= p
  {
    DivFacts((bar - startBar) as real, bars as real);
    Min((bar - startBar) as real / bars as real, 1.0)
  }

  /** Every component eased from `v` towards `target` at progress `p`. */
  function Step(v: AdsrValues, target: AdsrValues, p: real): AdsrValues {
    AdsrValues(
      Interpolate(v.attack, target.attack, p),
      Interpolate(v.decay, target.decay, p),
      Interpolate(v.sustain, target.sustain, p),
      Interpolate(v.release, target.release, p))
  }

  /** Every component of `r` lies between the same component of `v` and of `target`. */
  predicate StepBetween(v: AdsrValues, r: AdsrValues, target: AdsrValues) {
    Between(v.attack, r.attack, target.attack) &&
    Between(v.decay, r.decay, target.decay) &&
    Between(v.sustain, r.sustain, target.sustain) &&
    Between(v.release, r.release, target.release)
  }

  /**
   * One bar-boundary step of updateADSRTransition. An idle engine is left as it is;
   * once the interval has elapsed the shape snaps to the target and the engine goes
   * idle; before that it stays active. The target and start bar never change here.
   */
  function Advance(t: Transition, bar: int, bars: BarInterval): (r: Transition)
    ensures r.target == t.target && r.startBar == t.startBar
    ensures !t.active ==> r == t
    ensures t.active && bar - t.startBar >= bars ==> !r.active && r.current == t.target
    ensures t.active && bar - t.startBar < bars ==> r.active
  {
    if !t.active then t
    else
      var p := Progress(bar, t.startBar, bars);
      if p >= 1.0 then t.(current := t.target, active := false)
      else t.(current := Step(t.current, t.target, p))
  }

  /** While a transition runs and its start is not in the future, a step never overshoots. */
  lemma AdvanceBetween(t: Transition, bar: int, bars: BarInterval)
    requires t.active && t.startBar <= bar
    ensures StepBetween(t.current, Advance(t, bar, bars).current, t.target)
  {
    var p := Progress(bar, t.startBar, bars);
    if p < 1.0 {
      InterpolateBetween(t.current.attack, t.target.attack, p);
      InterpolateBetween(t.current.decay, t.target.decay, p);
      InterpolateBetween(t.current.sustain, t.target.sustain, p);
      InterpolateBetween(t.current.release, t.target.release, p);
    }
  }

  /**
   * Steps compound: each one eases from the already-moved shape, not from where the
   * transition began. Over 4 bars from 0 towards 1, the step at bar 1 (progress 1/4,
   * eased 1/16) gives 0.0625, and the step at bar 2 (progress 1/2, eased 1/2) then
   * gives 0.53125, not the 0.5 that easing from the starting value would give.
   */
  lemma StepsCompound()
    ensures var t0 := Transition(AdsrValues(0.0, 0.0, 0.0, 0.0), AdsrValues(1.0, 1.0, 1.0, 1.0), true, 0);
      var t1 := Advance(t0, 1, 4);
      var t2 := Advance(t1, 2, 4);
      t1.current.attack == 0.0625 && t2.active && t2.current.attack == 0.53125 &&
      Interpolate(t0.current.attack, t0.target.attack, Progress(2, 0, 4)) == 0.5
  {
    assert Progress(1, 0, 4) == 0.25;
    assert Cube(0.25) == 0.015625;
    assert Eased(0.25) == 0.0625;
    assert Progress(2, 0, 4) == 0.5;
    assert Cube(1.0) == 1.0;
    assert Eased(0.5) == 0.5;
  }

  /** setRandomADSRTargets: the samples become the target, starting at `bar`. */
  function Begin(t: Transition, samples: AdsrValues, bar: int): Transition {
    t.(target := samples, active := true, startBar := bar)
  }

  /**
   * randomizeADSRValues: in gradual mode a transition towards the samples begins; in
   * immediate mode the samples replace the shape and the transition flag is kept.
   */
  function Randomize(t: Transition, gradual: bool, samples: AdsrValues, bar: int): Transition {
    if gradual then Begin(t, samples, bar) else t.(current := samples)
  }

  /**
   * The envelope part of checkRandomization at a bar boundary: the running transition
   * takes its step first, and only then, if ADSR randomization is enabled, the bar is
   * a multiple of the interval and no transition is running any more, a new
   * randomization is made.
   */
  function ScheduleEnvelope(t: Transition, bar: int, enabled: bool, bars: BarInterval,
                            gradual: bool, samples: AdsrValues): Transition
  {
    var s := Advance(t, bar, bars);
    if enabled && bar % bars == 0 && !s.active then Randomize(s, gradual, samples, bar) else s
  }

  /** The envelope values are in [0,1] and a running transition did not start after `bar`. */
  predicate Settled(t: Transition, bar: int) {
    AllInUnit(t.current) && AllInUnit(t.target) && (t.active ==> t.startBar <= bar)
  }

  lemma BetweenUnit(a: real, x: real, b: real)
    requires InUnit(a) && InUnit(b) && Between(a, x, b)
    ensures InUnit(x)
  {
  }

  /** A scheduled bar keeps the envelope settled, given samples in [0,1] and bars that do not go back. */
  lemma ScheduleKeepsSettled(t: Transition, previous: int, bar: int, enabled: bool, bars: BarInterval,
                             gradual: bool, samples: AdsrValues)
    requires Settled(t, previous) && previous <= bar && AllInUnit(samples)
    ensures Settled(ScheduleEnvelope(t, bar, enabled, bars, gradual, samples), bar)
  {
    if t.active {
      AdvanceBetween(t, bar, bars);
      var r := Advance(t, bar, bars).current;
      BetweenUnit(t.current.attack, r.attack, t.target.attack);
      BetweenUnit(t.current.decay, r.decay, t.target.decay);
      BetweenUnit(t.current.sustain, r.sustain, t.target.sustain);
      BetweenUnit(t.current.release, r.release, t.target.release);
    }
  }

  /**
   * A running transition is never interrupted: before its interval has elapsed the
   * scheduler keeps its target and start bar and it stays active.
   */
  lemma NoInterruption(t: Transition, bar: int, enabled: bool, bars: BarInterval,
                       gradual: bool, samples: AdsrValues)
    requires t.active && bar - t.startBar < bars
    ensures var r := ScheduleEnvelope(t, bar, enabled, bars, gradual, samples);
      r.active && r.target == t.target && r.startBar == t.startBar
  {
  }

  /**
   * Because the gate is read after the step, a transition that completes on a bar that
   * is a multiple of the interval is followed on that same bar by the next one, which
   * starts from exactly the old target.
   */
  lemma CompletionRestarts(t: Transition, bar: int, bars: BarInterval, samples: AdsrValues)
    requires t.active && bar - t.startBar >= bars && bar % bars == 0
    ensures var r := ScheduleEnvelope(t, bar, true, bars, true, samples);
      r == Transition(t.target, samples, true, bar)
  {
  }

  // ---------------------------------------------------------------------------
  // Convergence over successive bar boundaries

  /** The transition after one step at each of the bars in `bs`, in order. */
  function AdvanceAll(t: Transition, bs: seq<int>, bars: BarInterval): Transition
    decreases |bs|
  {
    if bs == [] then t else AdvanceAll(Advance(t, bs[0], bars), bs[1..], bars)
  }

  lemma {:induction false} AdvanceAllIdle(t: Transition, bs: seq<int>, bars: BarInterval)
    requires !t.active
    ensures AdvanceAll(t, bs, bars) == t
    decreases |bs|
  {
    if bs != [] {
      AdvanceAllIdle(Advance(t, bs[0], bars), bs[1..], bars);
    }
  }

  lemma {:induction false} ConvergesAfter(t: Transition, bs: seq<int>, bars: BarInterval, done: nat)
    requires t.active && done < bars && done + |bs| >= bars
    requires forall i :: 0 <= i < |bs| ==> bs[i] >= t.startBar + done + i + 1
    ensures !AdvanceAll(t, bs, bars).active && AdvanceAll(t, bs, bars).current == t.target
    decreases |bs|
  {
    var s := Advance(t, bs[0], bars);
    if bs[0] - t.startBar >= bars {
      AdvanceAllIdle(s, bs[1..], bars);
    } else {
      forall i | 0 <= i < |bs[1..]| ensures bs[1..][i] >= s.startBar + (done + 1) + i + 1 {
        assert bs[1..][i] == bs[i + 1];
      }
      ConvergesAfter(s, bs[1..], bars, done + 1);
    }
  }

  /** Strictly increasing bars each lie at least their position above the first. */
  lemma {:induction false} IncreasingBars(bs: seq<int>, i: nat)
    requires forall j :: 0 <= j < |bs| - 1 ==> bs[j] < bs[j + 1]
    requires i < |bs|
    ensures bs[i] >= bs[0] + i
  {
    if i > 0 {
      IncreasingBars(bs, i - 1);
    }
  }

  /**
   * Convergence: a running transition that is stepped at `bars` or more strictly
   * increasing bar boundaries after its start bar ends idle with the shape exactly
   * equal to the target.
   */
  lemma TransitionConverges(t: Transition, bs: seq<int>, bars: BarInterval)
    requires t.active && |bs| >= bars
    requires forall j :: 0 <= j < |bs| - 1 ==> bs[j] < bs[j + 1]
    requires bs[0] > t.startBar
    ensures !AdvanceAll(t, bs, bars).active && AdvanceAll(t, bs, bars).current == t.target
  {
    forall i | 0 <= i < |bs| ensures bs[i] >= t.startBar + 0 + i + 1 {
      IncreasingBars(bs, i);
    }
    ConvergesAfter(t, bs, bars, 0);
  }

  /**
   * After a play restart the bar count is 0 again while a running transition keeps its
   * start bar, so the progress is negative and the cubic ease throws the shape far
   * outside [0,1]: started at bar 10 over 2 bars, the step at bar 1 has progress -4.5.
   */
  lemma RestartOvershoot()
    ensures var t := Transition(AdsrValues(0.5, 0.5, 0.5, 0.5), AdsrValues(1.0, 1.0, 1.0, 1.0), true, 10);
      AllInUnit(t.current) && AllInUnit(t.target) &&
      Advance(t, 1, 2).active && Advance(t, 1, 2).current.attack == -181.75
  {
    assert Progress(1, 10, 2) == -4.5;
    assert Cube(-4.5) == -91.125;
    assert Eased(-4.5) == -364.5;
  }
}
