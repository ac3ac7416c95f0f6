/**
 * The envelope model: the four ADSR ratios, their scaling to seconds by the tempo,
 * the cubic ease used for gradual changes, the slider clamping, and the gain-event
 * schedule that one triggered note hands to its gain node.
 */
module Envelope {
  import opened Util

  /** Tempo in beats per minute, an integer read from the tempo input. */
  type Bpm = b: int | b > 0 witness 120

  /** The normalised envelope shape (the `adsrValues` record). */
  datatype AdsrValues = AdsrValues(attack: real, decay: real, sustain: real, release: real)

  /** Attack, decay and release in seconds, with the sustain level passed through. */
  datatype AdsrTimes = AdsrTimes(attack: real, decay: real, sustain: real, release: real)

  predicate InUnit(x: real) { 0.0 <= x <= 1.0 }

  /** Every component of the shape lies in [0,1]. */
  predicate AllInUnit(v: AdsrValues) {
    InUnit(v.attack) && InUnit(v.decay) && InUnit(v.sustain) && InUnit(v.release)
  }

  /** Shares of the maximum note length given to attack, decay and release. */
  const AttackShare: real := 0.3
  const DecayShare: real := 0.3
  const ReleaseShare: real := 0.4

  /** The reference note length in seconds (two beats at the given tempo). */
  function MaxTime(bpm: Bpm): (m: real)
    ensures m > 0.0
    ensures m * bpm as real == 120.0
  {
    120.0 / bpm as real
  }

  /** A product of a ratio in [0,1] with a positive scale stays within [0, scale]. */
  lemma ScaledRatio(x: real, m: real, share: real)
    requires InUnit(x) && m > 0.0 && share >= 0.0
    ensures 0.0 <= x * m * share <= m * share
  {
    assert x * m <= 1.0 * m;
    assert 0.0 <= x * m;
    assert (x * m) * share <= m * share;
  }

  /** Scaling a non-negative amount by a factor in [0,1] keeps it within [0, amount]. */
  lemma MulUnit(d: real, e: real)
    requires d >= 0.0 && InUnit(e)
    ensures 0.0 <= d * e <= d
  {
    assert d * e <= d * 1.0;
  }

  /** The envelope timings of a note at the given tempo (calculateADSRTimes). */
  function CalculateAdsrTimes(v: AdsrValues, bpm: Bpm): AdsrTimes {
    var m := MaxTime(bpm);
    AdsrTimes(v.attack * m * AttackShare, v.decay * m * DecayShare, v.sustain, v.release * m * ReleaseShare)
  }

  /**
   * For ratios in [0,1] every time is non-negative, each is within its share of the
   * maximum note length, the three together never exceed it (the total that
   * updateADSRDisplay shows against that maximum), and sustain passes through.
   */
  lemma DurationsBounded(v: AdsrValues, bpm: Bpm)
    requires AllInUnit(v)
    ensures var r, m := CalculateAdsrTimes(v, bpm), MaxTime(bpm);
      0.0 <= r.attack <= AttackShare * m &&
      0.0 <= r.decay <= DecayShare * m &&
      0.0 <= r.release <= ReleaseShare * m &&
      r.attack + r.decay + r.release <= m &&
      r.sustain == v.sustain
  {
    var m := MaxTime(bpm);
    ScaledRatio(v.attack, m, AttackShare);
    ScaledRatio(v.decay, m, DecayShare);
    ScaledRatio(v.release, m, ReleaseShare);
  }

  // ---------------------------------------------------------------------------
  // Easing

  function Cube(x: real): real { x * x * x }

  /** The ease-in/out cubic curve applied to a progress value (first half of interpolate). */
  function Eased(p: real): real {
    if p < 0.5 then 4.0 * Cube(p) else 1.0 - Cube(-2.0 * p + 2.0) / 2.0
  }

  lemma CubeMonotone(a: real, b: real)
    requires 0.0 <= a <= b
    ensures 0.0 <= Cube(a) <= Cube(b)
  {
    assert a * a <= b * b by {
      assert a * a <= a * b;
      assert a * b <= b * b;
    }
    assert 0.0 <= a * a;
    assert (a * a) * a <= (b * b) * a;
    assert (b * b) * a <= (b * b) * b;
  }

  /** The curve fixes 0, 1/2 and 1. */
  lemma EasedFixedPoints()
    ensures Eased(0.0) == 0.0 && Eased(0.5) == 0.5 && Eased(1.0) == 1.0
  {
    assert Cube(0.0) == 0.0 * 0.0 * 0.0 == 0.0;
    assert Cube(1.0) == 1.0 * 1.0 * 1.0 == 1.0;
    assert -2.0 * 0.5 + 2.0 == 1.0;
    assert -2.0 * 1.0 + 2.0 == 0.0;
  }

  /** On [0,1] the curve stays in [0,1], below 1/2 on the first half and from 1/2 on after. */
  lemma EasedRange(p: real)
    requires InUnit(p)
    ensures InUnit(Eased(p))
    ensures p < 0.5 ==> Eased(p) < 0.5
    ensures p >= 0.5 ==> Eased(p) >= 0.5
  {
    if p < 0.5 {
      CubeMonotone(p, 0.5);
      assert Cube(p) < Cube(0.5) by {
        assert p * p < 0.5 * 0.5 by { assert p * p <= p * 0.5 < 0.5 * 0.5; }
        CubeMonotone(0.0, p);
        assert p * p * p <= p * p * 0.5;
        assert p * p * 0.5 < 0.5 * 0.5 * 0.5;
      }
    } else {
      var q := -2.0 * p + 2.0;
      CubeMonotone(q, 1.0);
    }
  }

  /** On [0,1] the curve never decreases. */
  lemma EasedMonotone(p1: real, p2: real)
    requires 0.0 <= p1 <= p2 <= 1.0
    ensures Eased(p1) <= Eased(p2)
  {
    EasedRange(p1);
    EasedRange(p2);
    if p2 < 0.5 {
      CubeMonotone(p1, p2);
    } else if 0.5 <= p1 {
      CubeMonotone(-2.0 * p2 + 2.0, -2.0 * p1 + 2.0);
    }
  }

  /** The point a fraction `e` of the way from `start` to `end`. */
  function Lerp(start: real, end: real, e: real): real {
    start + (end - start) * e
  }

  /** The value eased from `start` towards `end` at the given progress (interpolate). */
  function Interpolate(start: real, end: real, progress: real): (r: real)
    ensures progress == 0.0 ==> r == start
    ensures progress == 1.0 ==> r == end
  {
    Lerp(start, end, Eased(progress))
  }

  /** Moving a fraction `e` in [0,1] of the way up from `start` to `end` stays within them. */
  lemma LerpUp(start: real, end: real, e: real)
    requires start <= end && InUnit(e)
    ensures start <= Lerp(start, end, e) <= end
  {
    var d := end - start;
    MulUnit(d, e);
    var m := d * e;
    assert 0.0 <= m <= d;
    assert start + m <= end;
    assert Lerp(start, end, e) == start + m;
  }

  /** Moving a fraction `e` in [0,1] of the way down from `start` to `end` stays within them. */
  lemma LerpDown(start: real, end: real, e: real)
    requires end < start && InUnit(e)
    ensures end <= Lerp(start, end, e) <= start
  {
    var d := start - end;
    MulUnit(d, e);
    var m := d * e;
    assert 0.0 <= m <= d;
    assert end <= start - m;
    assert Lerp(start, end, e) == start - m;
  }

  /** Moving a fraction `e` in [0,1] of the way from `start` to `end` stays between the two. */
  lemma LerpBetween(start: real, end: real, e: real)
    requires InUnit(e)
    ensures Between(start, Lerp(start, end, e), end)
  {
    if start <= end {
      LerpUp(start, end, e);
      assert Min(start, end) == start && Max(start, end) == end;
    } else {
      LerpDown(start, end, e);
      assert Min(start, end) == end && Max(start, end) == start;
    }
  }

  /** For progress in [0,1] the interpolated value lies between the two ends: no overshoot. */
  lemma InterpolateBetween(start: real, end: real, progress: real)
    requires InUnit(progress)
    ensures Between(start, Interpolate(start, end, progress), end)
  {
    EasedRange(progress);
    LerpBetween(start, end, Eased(progress));
  }

  /** Moving a fraction `e` of the way from `start` to `end` gets no further from the end as `e` grows. */
  lemma LerpOrder(start: real, end: real, e1: real, e2: real)
    requires e1 <= e2
    ensures start <= end ==> Lerp(start, end, e1) <= Lerp(start, end, e2)
    ensures end <= start ==> Lerp(start, end, e2) <= Lerp(start, end, e1)
  {
    var d := end - start;
    if start <= end {
      MulMono(d, e1, e2);
      assert d * e1 <= d * e2;
    } else {
      MulMono(-d, e1, e2);
      assert d * e1 == -((-d) * e1) && d * e2 == -((-d) * e2);
    }
    assert Lerp(start, end, e1) == start + d * e1;
    assert Lerp(start, end, e2) == start + d * e2;
  }

  /** Interpolating at a later progress in [0,1] lands at least as close to the end. */
  lemma InterpolateMonotone(start: real, end: real, p1: real, p2: real)
    requires 0.0 <= p1 <= p2 <= 1.0
    ensures start <= end ==> Interpolate(start, end, p1) <= Interpolate(start, end, p2) <= end
    ensures end <= start ==> end <= Interpolate(start, end, p2) <= Interpolate(start, end, p1)
  {
    EasedMonotone(p1, p2);
    InterpolateBetween(start, end, p2);
    LerpOrder(start, end, Eased(p1), Eased(p2));
  }

  // ---------------------------------------------------------------------------
  // Slider clamping

  /** Largest ratios the sliders allow for attack, decay and release. */
  const MaxAttackRatio: real := 0.3
  const MaxDecayRatio: real := 0.3
  const MaxReleaseRatio: real := 0.4

  /**
   * The shape after updateADSRSliderMaxes: attack, decay and release are lowered to
   * their maximum ratio when above it and kept otherwise; sustain is untouched.
   */
  function ClampToSliderMaxes(v: AdsrValues): (r: AdsrValues)
    ensures r.attack <= MaxAttackRatio && r.decay <= MaxDecayRatio && r.release <= MaxReleaseRatio
    ensures r.attack <= v.attack && r.decay <= v.decay && r.release <= v.release
    ensures v.attack <= MaxAttackRatio ==> r.attack == v.attack
    ensures v.decay <= MaxDecayRatio ==> r.decay == v.decay
    ensures v.release <= MaxReleaseRatio ==> r.release == v.release
    ensures v.attack > MaxAttackRatio ==> r.attack == MaxAttackRatio
    ensures v.decay > MaxDecayRatio ==> r.decay == MaxDecayRatio
    ensures v.release > MaxReleaseRatio ==> r.release == MaxReleaseRatio
    ensures r.sustain == v.sustain
    ensures AllInUnit(v) ==> AllInUnit(r)
  {
    AdsrValues(
      if v.attack > MaxAttackRatio then MaxAttackRatio else v.attack,
      if v.decay > MaxDecayRatio then MaxDecayRatio else v.decay,
      v.sustain,
      if v.release > MaxReleaseRatio then MaxReleaseRatio else v.release)
  }

  /** Clamping a second time changes nothing. */
  lemma ClampIdempotent(v: AdsrValues)
    ensures ClampToSliderMaxes(ClampToSliderMaxes(v)) == ClampToSliderMaxes(v)
  {
  }

  // ---------------------------------------------------------------------------
  // Gain schedule of one note

  /** Peak gain of a note (-12 dB). */
  const PeakGain: real := 0.25

  /** How a gain event reaches its value: set at once, or ramped linearly. */
  datatype RampKind = SetAt | LinearRamp

  /** One scheduled gain change: reach `value` at absolute time `time`. */
  datatype GainEvent = GainEvent(time: real, value: real, kind: RampKind)

  /** A note either skipped by its miss chance, or played after cancelling from `cancelFrom`. */
  datatype NoteOutcome = Skipped | Played(cancelFrom: real, events: seq<GainEvent>)

  /** The five gain events of a note triggered at `now` with the given timings. */
  function GainSchedule(t: AdsrTimes, now: real): seq<GainEvent> {
    var held := now + t.attack + t.decay;
    [ GainEvent(now, 0.0, SetAt),
      GainEvent(now + t.attack, PeakGain, LinearRamp),
      GainEvent(held, t.sustain * PeakGain, LinearRamp),
      GainEvent(held, t.sustain * PeakGain, SetAt),
      GainEvent(held + t.release, 0.0, LinearRamp) ]
  }

  /**
   * A well-formed note: it starts silent at `now`, its event times never go back,
   * every value lies in [0, PeakGain], it ends silent, and it is over by `now + limit`.
   */
  predicate WellFormedNote(events: seq<GainEvent>, now: real, limit: real) {
    |events| > 0 &&
    events[0] == GainEvent(now, 0.0, SetAt) &&
    events[|events| - 1].value == 0.0 &&
    (forall i :: 0 <= i < |events| - 1 ==> events[i].time <= events[i + 1].time) &&
    (forall i :: 0 <= i < |events| ==> 0.0 <= events[i].value <= PeakGain) &&
    events[|events| - 1].time <= now + limit
  }

  /**
   * The outcome of playNote for a ball with the given miss chance, a draw of
   * Math.random() * 100, the current shape and tempo. A miss chance of 0 or less never
   * skips; from 100 on, every draw below 100 skips.
   */
  function PlayNote(missChance: int, draw: real, v: AdsrValues, bpm: Bpm, now: real): (r: NoteOutcome)
    ensures r.Skipped? <==> missChance > 0 && draw < missChance as real
    ensures missChance <= 0 ==> r.Played?
    ensures 0.0 <= draw < 100.0 && missChance >= 100 ==> r.Skipped?
    ensures r.Played? ==> r.cancelFrom == now && |r.events| == 5
    ensures r.Played? ==>
      var t := CalculateAdsrTimes(v, bpm);
      var held := now + t.attack + t.decay;
      r.events[0] == GainEvent(now, 0.0, SetAt) &&
      r.events[1] == GainEvent(now + t.attack, PeakGain, LinearRamp) &&
      r.events[2] == GainEvent(held, v.sustain * PeakGain, LinearRamp) &&
      r.events[3] == GainEvent(held, v.sustain * PeakGain, SetAt) &&
      r.events[4] == GainEvent(held + t.release, 0.0, LinearRamp)
  {
    if missChance > 0 && draw < missChance as real then Skipped
    else Played(now, GainSchedule(CalculateAdsrTimes(v, bpm), now))
  }

  /** A played note of a shape in [0,1] is well formed and over within the maximum note length. */
  lemma PlayedNoteWellFormed(missChance: int, draw: real, v: AdsrValues, bpm: Bpm, now: real)
    requires AllInUnit(v)
    requires PlayNote(missChance, draw, v, bpm, now).Played?
    ensures WellFormedNote(PlayNote(missChance, draw, v, bpm, now).events, now, MaxTime(bpm))
  {
    DurationsBounded(v, bpm);
    ScaledRatio(v.sustain, 1.0, PeakGain);
  }
}
