/**
 * The player's mutable state and the operations that change it: the envelope and its
 * transition, the transport counters, the selected key and chord, the note of each
 * ball, and the balls themselves.
 */
module Player {
  import opened Util
  import opened Envelope
  import opened Transition
  import opened Rhythm
  import opened Notes

  /** The controls that checkRandomization and updateBalls read from the page. */
  datatype Config = Config(
    bpm: Bpm,
    randomizeKey: bool, keyBars: BarInterval,
    randomizeChord: bool, chordBars: BarInterval,
    randomizeBalls: bool, ballsBars: BarInterval, ballsCount: int,
    randomizeAdsr: bool, adsrBars: BarInterval,
    gradualAdsr: bool)

  /** The random choices one bar boundary may consume: a shuffle of the balls and Math.random() samples. */
  datatype Draws = Draws(perm: seq<nat>, adsr: AdsrValues, key: real, chord: real)

  /** A value of Math.random(). */
  predicate RandomSample(x: real) { 0.0 <= x < 1.0 }

  predicate ValidDraws(d: Draws, n: nat) {
    IsPermutation(d.perm, n) &&
    RandomSample(d.adsr.attack) && RandomSample(d.adsr.decay) &&
    RandomSample(d.adsr.sustain) && RandomSample(d.adsr.release) &&
    RandomSample(d.key) && RandomSample(d.chord)
  }

  /** A feature randomizes on a bar when it is enabled and the bar is a multiple of its interval. */
  predicate Fires(enabled: bool, bar: int, interval: BarInterval) {
    enabled && bar % interval == 0
  }

  /** The balls after the ball-set randomization of a bar boundary, if that feature fires there. */
  function ScheduledBalls(bs: seq<Ball>, bar: int, cfg: Config, perm: seq<nat>): seq<Ball>
    requires IsPermutation(perm, |bs|)
  {
    if Fires(cfg.randomizeBalls, bar, cfg.ballsBars) then Randomized(bs, cfg.ballsCount, perm) else bs
  }

  /** What one ball does in a frame: nothing, or trigger playNote with the given outcome. */
  datatype BallEvent = Idle | Triggered(outcome: NoteOutcome)

  /** The event of a ball in a frame, given its miss-chance draw and the envelope in force. */
  function BallEventOf(b: Ball, draw: real, v: AdsrValues, bpm: Bpm, now: real): BallEvent {
    if Due(b, now, bpm) then Triggered(PlayNote(b.missChance, draw, v, bpm, now)) else Idle
  }

  /** JavaScript's `!startTime`: no start time, or a start time of 0. */
  predicate Falsy(t: Option<real>) {
    t.None? || t.value == 0.0
  }

  class Player {
    var adsr: AdsrValues
    var target: AdsrValues
    var isTransitioning: bool
    var transitionStartBar: int
    var totalElapsedBars: nat
    var startTime: Option<real>
    var isPlaying: bool
    var keyIndex: int
    var chordIndex: int
    /** The note number each ball's oscillator is tuned to. */
    var notes: seq<int>
    const balls: array<Ball>
    /** The chord table: the intervals of each chord. */
    const chords: seq<seq<int>>

    ghost predicate Valid()
      reads this
    {
      |chords| > 0 && (forall c :: 0 <= c < |chords| ==> |chords[c]| > 0) &&
      0 <= keyIndex < KeyCount && 0 <= chordIndex < |chords|
    }

    /** The four globals of the transition engine as one value. */
    function EnvelopeState(): Transition
      reads this
    {
      Transition(adsr, target, isTransitioning, transitionStartBar)
    }

    /** The envelope is in [0,1] and a running transition did not start after the current bar. */
    ghost predicate EnvelopeSettled()
      reads this
    {
      Settled(EnvelopeState(), totalElapsedBars)
    }

    /**
     * The state after setupBalls: one ball per rhythm, only the fourth active, every
     * last trigger time 0 and every miss chance 0; stopped, at bar 0, no transition.
     */
    constructor (initial: AdsrValues, rhythms: seq<Beats>, chordTable: seq<seq<int>>)
      requires |chordTable| > 0 && forall c :: 0 <= c < |chordTable| ==> |chordTable[c]| > 0
      ensures Valid() && fresh(balls) && chords == chordTable
      ensures balls.Length == |rhythms|
      ensures forall i :: 0 <= i < |rhythms| ==> balls[i] == Ball(i == 3, rhythms[i], 0.0, 0)
      ensures adsr == initial && target == initial && !isTransitioning && transitionStartBar == 0
      ensures totalElapsedBars == 0 && startTime == None && !isPlaying
      ensures keyIndex == 0 && chordIndex == 0 && notes == []
      ensures AllInUnit(initial) ==> EnvelopeSettled()
    {
      adsr, target := initial, initial;
      isTransitioning, transitionStartBar := false, 0;
      totalElapsedBars, startTime, isPlaying := 0, None, false;
      keyIndex, chordIndex, notes := 0, 0, [];
      chords := chordTable;
      balls := new Ball[|rhythms|](i requires 0 <= i < |rhythms| => Ball(i == 3, rhythms[i], 0.0, 0));
    }

    /** toggleBall: flip one ball's active flag. */
    method ToggleBall(index: nat)
      requires index < balls.Length
      modifies balls
      ensures balls[..] == Toggled(old(balls[..]), index)
    {
      balls[index] := balls[index].(active := !balls[index].active);
    }

    /** randomizeBallStates: deactivate every ball, then activate the first `count` of the shuffle. */
    method RandomizeBallStates(count: int, perm: seq<nat>)
      requires IsPermutation(perm, balls.Length)
      modifies balls
      ensures balls[..] == Randomized(old(balls[..]), count, perm)
    {
      var n := balls.Length;
      var i := 0;
      while i < n
        invariant 0 <= i <= n
        invariant forall m :: 0 <= m < i ==> balls[m] == old(balls[m]).(active := false)
        invariant forall m :: i <= m < n ==> balls[m] == old(balls[m])
      {
        balls[i] := balls[i].(active := false);
        i := i + 1;
      }
      var k := SliceLength(count, n);
      var j := 0;
      while j < k
        invariant 0 <= j <= k
        invariant forall m :: 0 <= m < n ==> balls[m] == old(balls[m]).(active := m in perm[..j])
      {
        assert perm[..j + 1] == perm[..j] + [perm[j]];
        balls[perm[j]] := balls[perm[j]].(active := true);
        j := j + 1;
      }
      assert forall m :: 0 <= m < n ==> balls[..][m] == Randomized(old(balls[..]), count, perm)[m];
    }

    /** updateADSRSliderMaxes: lower attack, decay and release to their slider maxima. */
    method UpdateADSRSliderMaxes()
      modifies this`adsr
      ensures adsr == ClampToSliderMaxes(old(adsr))
      ensures old(EnvelopeSettled()) ==> EnvelopeSettled()
    {
      if adsr.attack > MaxAttackRatio {
        adsr := adsr.(attack := MaxAttackRatio);
      }
      if adsr.decay > MaxDecayRatio {
        adsr := adsr.(decay := MaxDecayRatio);
      }
      if adsr.release > MaxReleaseRatio {
        adsr := adsr.(release := MaxReleaseRatio);
      }
    }

    /** setRandomADSRTargets: store the samples as the target and start a transition at the current bar. */
    method SetRandomADSRTargets(samples: AdsrValues)
      modifies this`target, this`isTransitioning, this`transitionStartBar
      ensures EnvelopeState() == Begin(old(EnvelopeState()), samples, totalElapsedBars)
      ensures target == samples && isTransitioning && transitionStartBar == totalElapsedBars && adsr == old(adsr)
      ensures old(EnvelopeSettled()) && AllInUnit(samples) ==> EnvelopeSettled()
    {
      target := samples;
      isTransitioning := true;
      transitionStartBar := totalElapsedBars;
    }

    /** updateADSRTransition with the ADSR interval as the transition length in bars. */
    method UpdateADSRTransition(bars: BarInterval)
      modifies this`adsr, this`isTransitioning
      ensures EnvelopeState() == Advance(old(EnvelopeState()), totalElapsedBars, bars)
      ensures old(EnvelopeSettled()) ==> EnvelopeSettled()
    {
      if !isTransitioning {
        return;
      }
      ghost var before := EnvelopeState();
      var progress := Min((totalElapsedBars - transitionStartBar) as real / bars as real, 1.0);
      if progress >= 1.0 {
        isTransitioning := false;
        adsr := target;
      } else {
        adsr := AdsrValues(
          Interpolate(adsr.attack, target.attack, progress),
          Interpolate(adsr.decay, target.decay, progress),
          Interpolate(adsr.sustain, target.sustain, progress),
          Interpolate(adsr.release, target.release, progress));
      }
      ScheduleKeepsSettledStep(before, totalElapsedBars, bars);
    }

    /** randomizeADSRValues: a gradual transition towards the samples, or the samples at once. */
    method RandomizeADSRValues(gradual: bool, samples: AdsrValues)
      modifies this`adsr, this`target, this`isTransitioning, this`transitionStartBar
      ensures EnvelopeState() == Randomize(old(EnvelopeState()), gradual, samples, totalElapsedBars)
      ensures !gradual ==> adsr == samples && EnvelopeState() == old(EnvelopeState()).(current := samples)
      ensures old(EnvelopeSettled()) && AllInUnit(samples) ==> EnvelopeSettled()
    {
      if gradual {
        SetRandomADSRTargets(samples);
      } else {
        adsr := samples;
      }
    }

    /** assignNotes: tune every ball to its note for the selected key and chord. */
    method AssignNotes()
      requires Valid()
      modifies this`notes
      ensures notes == NoteNumbers(keyIndex, chords[chordIndex], balls.Length)
    {
      var intervals := chords[chordIndex];
      var baseNote := MiddleC + keyIndex;
      var result: seq<int> := [];
      var index := 0;
      while index < balls.Length
        invariant 0 <= index <= balls.Length
        invariant result == NoteNumbers(keyIndex, intervals, index)
      {
        var noteIndex := intervals[index % |intervals|];
        var octave := index / |intervals|;
        result := result + [baseNote + noteIndex + octave * 12];
        index := index + 1;
      }
      notes := result;
    }

    /**
     * checkRandomization at the bar `totalElapsedBars`: step the transition, then run each
     * feature that fires on this bar (ADSR only when no transition is running after the
     * step), and retune the balls when key or chord randomization is enabled.
     */
    method CheckRandomization(cfg: Config, d: Draws)
      requires Valid() && ValidDraws(d, balls.Length)
      modifies this`adsr, this`target, this`isTransitioning, this`transitionStartBar
      modifies this`keyIndex, this`chordIndex, this`notes, balls
      ensures Valid()
      ensures EnvelopeState() ==
        ScheduleEnvelope(old(EnvelopeState()), totalElapsedBars, cfg.randomizeAdsr, cfg.adsrBars, cfg.gradualAdsr, d.adsr)
      ensures balls[..] == ScheduledBalls(old(balls[..]), totalElapsedBars, cfg, d.perm)
      ensures keyIndex == if Fires(cfg.randomizeKey, totalElapsedBars, cfg.keyBars)
                          then PickIndex(d.key, KeyCount) else old(keyIndex)
      ensures chordIndex == if Fires(cfg.randomizeChord, totalElapsedBars, cfg.chordBars)
                            then PickIndex(d.chord, |chords|) else old(chordIndex)
      ensures notes == if cfg.randomizeKey || cfg.randomizeChord
                       then NoteNumbers(keyIndex, chords[chordIndex], balls.Length) else old(notes)
      ensures old(EnvelopeSettled()) ==> EnvelopeSettled()
    {
      ghost var before := EnvelopeState();
      if isTransitioning {
        UpdateADSRTransition(cfg.adsrBars);
      }
      RandomizeBallsIfDue(cfg, d.perm);
      PickKeyAndChord(cfg, d);
      RandomizeADSRIfDue(cfg, d.adsr);
      if cfg.randomizeKey || cfg.randomizeChord {
        AssignNotes();
      }
      ghost var bar := totalElapsedBars;
      if Settled(before, bar) {
        ScheduleKeepsSettled(before, bar, bar, cfg.randomizeAdsr, cfg.adsrBars, cfg.gradualAdsr, d.adsr);
      }
    }

    /** The ball part of checkRandomization. */
    method RandomizeBallsIfDue(cfg: Config, perm: seq<nat>)
      requires IsPermutation(perm, balls.Length)
      modifies balls
      ensures balls[..] == ScheduledBalls(old(balls[..]), totalElapsedBars, cfg, perm)
    {
      if cfg.randomizeBalls && totalElapsedBars % cfg.ballsBars == 0 {
        RandomizeBallStates(cfg.ballsCount, perm);
      }
    }

    /** The ADSR part of checkRandomization, gated on no transition running. */
    method RandomizeADSRIfDue(cfg: Config, samples: AdsrValues)
      modifies this`adsr, this`target, this`isTransitioning, this`transitionStartBar
      ensures EnvelopeState() ==
        if Fires(cfg.randomizeAdsr, totalElapsedBars, cfg.adsrBars) && !old(isTransitioning)
        then Randomize(old(EnvelopeState()), cfg.gradualAdsr, samples, totalElapsedBars)
        else old(EnvelopeState())
    {
      if cfg.randomizeAdsr && totalElapsedBars % cfg.adsrBars == 0 && !isTransitioning {
        RandomizeADSRValues(cfg.gradualAdsr, samples);
      }
    }

    /** The key and chord part of checkRandomization: pick a random index for each feature that fires. */
    method PickKeyAndChord(cfg: Config, d: Draws)
      requires Valid() && RandomSample(d.key) && RandomSample(d.chord)
      modifies this`keyIndex, this`chordIndex
      ensures Valid()
      ensures keyIndex == if Fires(cfg.randomizeKey, totalElapsedBars, cfg.keyBars)
                          then PickIndex(d.key, KeyCount) else old(keyIndex)
      ensures chordIndex == if Fires(cfg.randomizeChord, totalElapsedBars, cfg.chordBars)
                            then PickIndex(d.chord, |chords|) else old(chordIndex)
    {
      if cfg.randomizeKey && totalElapsedBars % cfg.keyBars == 0 {
        PickIndexInRange(d.key, KeyCount);
        keyIndex := PickIndex(d.key, KeyCount);
      }
      if cfg.randomizeChord && totalElapsedBars % cfg.chordBars == 0 {
        PickIndexInRange(d.chord, |chords|);
        chordIndex := PickIndex(d.chord, |chords|);
      }
    }

    /** The inner loop of updateBalls: retrigger every due ball and play its note. */
    method RetriggerBalls(now: real, bpm: Bpm, missDraws: seq<real>) returns (events: seq<BallEvent>)
      requires |missDraws| == balls.Length
      modifies balls
      ensures |events| == balls.Length
      ensures forall i :: 0 <= i < balls.Length ==> balls[i] == Retriggered(old(balls[i]), now, bpm)
      ensures forall i :: 0 <= i < balls.Length ==>
        events[i] == BallEventOf(old(balls[i]), missDraws[i], adsr, bpm, now)
    {
      var beatDuration := 60.0 / bpm as real;
      events := [];
      var i := 0;
      while i < balls.Length
        invariant 0 <= i <= balls.Length
        invariant |events| == i
        invariant forall m :: 0 <= m < i ==> balls[m] == Retriggered(old(balls[m]), now, bpm)
        invariant forall m :: i <= m < balls.Length ==> balls[m] == old(balls[m])
        invariant forall m :: 0 <= m < i ==> events[m] == BallEventOf(old(balls[m]), missDraws[m], adsr, bpm, now)
      {
        var ball := balls[i];
        assert ball == old(balls[i]);
        assert CycleDuration(ball, bpm) == ball.beats * beatDuration;
        var event := Idle;
        if ball.active {
          var cycleDuration := ball.beats * beatDuration;
          if now - ball.lastPlayTime >= cycleDuration {
            event := Triggered(PlayNote(ball.missChance, missDraws[i], adsr, bpm, now));
            balls[i] := ball.(lastPlayTime := now - JsRem(now - ball.lastPlayTime, cycleDuration));
          }
        }
        assert balls[i] == Retriggered(old(balls[i]), now, bpm);
        events := events + [event];
        i := i + 1;
      }
    }

    /**
     * One frame of updateBalls at audio time `now`: take the start time if none is set,
     * count the bars, run the scheduler once if the count went up, then retrigger the
     * balls. A stopped player does nothing.
     */
    method UpdateBalls(now: real, cfg: Config, d: Draws, missDraws: seq<real>) returns (ticked: bool, events: seq<BallEvent>)
      requires Valid() && ValidDraws(d, balls.Length) && |missDraws| == balls.Length
      modifies this, balls
      ensures Valid() && isPlaying == old(isPlaying)
      ensures !old(isPlaying) ==> !ticked && events == [] && unchanged(this) && unchanged(balls)
      ensures old(isPlaying) ==>
        var start := if Falsy(old(startTime)) then now else old(startTime).value;
        var bar := ElapsedBars(now, start, cfg.bpm);
        startTime == Some(start) &&
        ticked == (bar > old(totalElapsedBars)) &&
        totalElapsedBars == (if ticked then bar else old(totalElapsedBars))
      ensures totalElapsedBars >= old(totalElapsedBars)
      ensures old(isPlaying) ==> |events| == balls.Length
      ensures old(isPlaying) ==>
        var mid := if ticked then ScheduledBalls(old(balls[..]), totalElapsedBars, cfg, d.perm) else old(balls[..]);
        (forall i :: 0 <= i < balls.Length ==> balls[i] == Retriggered(mid[i], now, cfg.bpm)) &&
        (forall i :: 0 <= i < balls.Length ==> events[i] == BallEventOf(mid[i], missDraws[i], adsr, cfg.bpm, now))
      ensures ticked ==> (EnvelopeState() ==
        ScheduleEnvelope(old(EnvelopeState()), totalElapsedBars, cfg.randomizeAdsr, cfg.adsrBars, cfg.gradualAdsr, d.adsr))
      ensures ticked ==> keyIndex == if Fires(cfg.randomizeKey, totalElapsedBars, cfg.keyBars)
                                     then PickIndex(d.key, KeyCount) else old(keyIndex)
      ensures ticked ==> chordIndex == if Fires(cfg.randomizeChord, totalElapsedBars, cfg.chordBars)
                                       then PickIndex(d.chord, |chords|) else old(chordIndex)
      ensures ticked ==> notes == if cfg.randomizeKey || cfg.randomizeChord
                                  then NoteNumbers(keyIndex, chords[chordIndex], balls.Length) else old(notes)
      ensures !ticked ==> (EnvelopeState() == old(EnvelopeState()) &&
        keyIndex == old(keyIndex) && chordIndex == old(chordIndex) && notes == old(notes))
      ensures old(EnvelopeSettled()) ==> EnvelopeSettled()
    {
      ticked, events := false, [];
      if !isPlaying {
        return;
      }
      if startTime.None? || startTime.value == 0.0 {
        startTime := Some(now);
      }
      var newTotalElapsedBars := ElapsedBars(now, startTime.value, cfg.bpm);
      if newTotalElapsedBars > totalElapsedBars {
        totalElapsedBars := newTotalElapsedBars;
        CheckRandomization(cfg, d);
        ticked := true;
      }
      events := RetriggerBalls(now, cfg.bpm, missDraws);
    }

    /**
     * The play/pause button: starting takes `now` as the start time and resets the bar
     * count to 0; pausing clears the start time. A running transition is kept either way.
     */
    method PlayPause(now: real)
      modifies this`isPlaying, this`startTime, this`totalElapsedBars
      ensures isPlaying == !old(isPlaying)
      ensures isPlaying ==> startTime == Some(now) && totalElapsedBars == 0
      ensures !isPlaying ==> startTime == None && totalElapsedBars == old(totalElapsedBars)
      ensures EnvelopeState() == old(EnvelopeState())
      ensures old(EnvelopeSettled()) && (!isPlaying || !isTransitioning) ==> EnvelopeSettled()
    {
      isPlaying := !isPlaying;
      if isPlaying {
        startTime := Some(now);
        totalElapsedBars := 0;
      } else {
        startTime := None;
      }
    }
  }

  /** A single transition step keeps the envelope settled at the same bar. */
  lemma ScheduleKeepsSettledStep(t: Transition, bar: int, bars: BarInterval)
    ensures Settled(t, bar) ==> Settled(Advance(t, bar, bars), bar)
  {
    if Settled(t, bar) {
      ScheduleKeepsSettled(t, bar, bar, false, bars, false, t.current);
    }
  }
}
