# Envelope, transition and rhythm core of the sound-ball toy

The toy is a row of "balls". Each ball has a rhythm in beats and plays a synthesized note once per cycle of that rhythm. Every bar, the toy may re-roll the key, the chord, the set of active balls and the ADSR envelope. This project models the sequential control core of `soundGenerators.js` and proves properties of it:

- **Envelope arithmetic** (`Envelope`). The four ADSR ratios are scaled to seconds from the tempo (`calculateADSRTimes`). The cubic ease-in/out is used for gradual changes (`interpolate`). `updateADSRSliderMaxes` clamps the ratios. `playNote` produces a miss-chance gate and a five-event gain schedule.
- **Gradual-transition engine** (`Transition`). The globals `adsrValues`, `targetAdsrValues`, `isTransitioning` and `transitionStartBar` are modelled as one value, stepped once per bar boundary. Each step eases from the current, already-moved shape.
- **Transport clock and trigger loop** (`Rhythm`). This covers bar counting from the audio clock, the retrigger rule that snaps a due ball's `lastPlayTime` onto its rhythm grid, the shuffle-and-take choice of active balls, and `toggleBall`.
- **Note numbers** (`Notes`). This is the MIDI note arithmetic of `assignNotes`.
- **The player** (`Player`). It is a class holding the mutable globals and the `balls` array. Its methods are `updateADSRSliderMaxes`, `setRandomADSRTargets`, `updateADSRTransition`, `randomizeADSRValues`, `assignNotes`, `checkRandomization`, `randomizeBallStates`, `toggleBall`, one frame of `updateBalls`, and the play/pause button. Each method is proved against the specification functions of the modules above.

Several functions are declared twice in the source file. Under JavaScript function-declaration hoisting the later declaration wins, so the model follows the later ones: `setRandomADSRTargets` (line 461), `interpolate` (479), `updateADSRTransition` (489), `randomizeADSRValues` (530) and `checkRandomization` (654). As a result, the transition length is the ADSR randomization interval `randomizeADSRBars`. The `transitionDuration` variable and the `adsrTransitionBars` selector play no part in it.

Randomness is passed in as arguments:

- the four `Math.random()` envelope samples;
- the key and chord samples;
- one miss-chance draw per ball;
- the shuffled order of the balls, given as a permutation of their indices.

The audio clock reading `now` and the controls read from the page (tempo, toggles, intervals, ball count, gradual mode) are also parameters.

Times and ratios are `real`. JavaScript's `%` on numbers truncates toward zero, and it is written out as `Rhythm.JsRem`. `Math.floor` is `.Floor`.

Behaviour worth knowing:

- The transition progress is capped at 1 but not floored at 0. Pressing play resets the bar count to 0 and keeps a running transition with its start bar. The progress is then negative while the bar count is below the start bar, and the cubic ease can throw the envelope far outside [0,1]: in `Transition.RestartOvershoot` an attack of 0.5 heading for 1.0 jumps to −181.75.
- A due ball's new trigger time is `now − ((now − last) mod cycle)`. It is a whole number of cycles after the old time, so the ball stays on its grid (`Rhythm.RetriggerOnGrid`, `Rhythm.RetriggerStaysOnGrid`). Several missed cycles are jumped in one frame.
- `setRandomADSRTargets` does not itself refuse to start while a transition is running. The only guard is the `!isTransitioning` test in `checkRandomization`, which runs after that bar's transition step.
- The miss-chance gate skips when the draw is below the miss chance. A miss chance of 0 never skips. The dropdown offers at most 75.

## Model

| member | source | states |
|---|---|---|
| Envelope.DurationsBounded | soundGenerators.js:569-579 | for ratios in [0,1] and bpm > 0 the attack, decay and release times are ≥ 0, at most 0.3, 0.3 and 0.4 of 120/bpm, together at most 120/bpm (the maximum shown by updateADSRDisplay), and sustain passes through unchanged |
| Envelope.EasedFixedPoints | soundGenerators.js:479-483 | the cubic ease maps 0 to 0, 1/2 to 1/2 and 1 to 1 |
| Envelope.EasedRange | soundGenerators.js:481-483 | on [0,1] the ease stays in [0,1], below 1/2 on the first half and at least 1/2 on the second |
| Envelope.EasedMonotone | soundGenerators.js:481-483 | on [0,1] the ease never decreases |
| Envelope.Interpolate | soundGenerators.js:479-486 | interpolation at progress 0 gives the start value and at progress 1 gives the end value |
| Envelope.InterpolateBetween | soundGenerators.js:479-486 | for progress in [0,1] the interpolated value lies between start and end, so it never overshoots |
| Envelope.InterpolateMonotone | soundGenerators.js:479-486 | a later progress in [0,1] lands at least as close to the end value, from either side |
| Envelope.ClampToSliderMaxes | soundGenerators.js:396-425 | attack, decay and release are at most 0.3, 0.3 and 0.4 afterwards, set to their cap when above it, kept when already within it; sustain is untouched; values in [0,1] stay in [0,1] |
| Envelope.ClampIdempotent | soundGenerators.js:409-422 | clamping a second time changes nothing |
| Envelope.PlayNote | soundGenerators.js:581-609 | a note is skipped iff the miss chance is positive and the draw is below it; a chance ≤ 0 always plays, one ≥ 100 always skips draws in [0,100); a played note cancels from `now` and schedules five gain events: gain set to 0 at `now`, a ramp to 0.25 at now + attack, a ramp to sustain·0.25 at now + attack + decay, that value set again there, and a ramp to 0 at now + attack + decay + release |
| Envelope.PlayedNoteWellFormed | soundGenerators.js:591-608 | a played note of a shape in [0,1] starts by setting gain 0 at `now`, never goes back in time, keeps every value in [0, 0.25], ends silent, and is over within 120/bpm |
| Transition.Progress | soundGenerators.js:494-498 | progress is at most 1, reaches 1 exactly when the interval has elapsed since the start bar, and is non-negative while the start bar is not in the future |
| Transition.Advance | soundGenerators.js:489-518 | an idle engine is unchanged; once the interval has elapsed the shape snaps exactly to the target and the engine goes idle; before that it stays active; target and start bar are never changed by a step |
| Transition.AdvanceBetween | soundGenerators.js:508-514 | while a transition runs and started no later than the current bar, every component moves to a value between its old value and its target |
| Transition.StepsCompound | soundGenerators.js:509-514 | each step eases from the already-moved shape, so two steps of a 4-bar transition reach 0.53125 where easing from the starting value gives 0.5 |
| Transition.ScheduleKeepsSettled | soundGenerators.js:665-687 | a bar of the envelope scheduler (step, then maybe randomize) keeps every envelope value in [0,1] given samples in [0,1], a bar count that does not go back, and a running transition that did not start after the previous bar |
| Transition.NoInterruption | soundGenerators.js:685-687 | before its interval has elapsed a running transition is not replaced by the scheduler: it stays active with the same target and start bar |
| Transition.CompletionRestarts | soundGenerators.js:665-687 | because the ADSR gate is read after the step, a transition that completes on a multiple of the interval is followed on the same bar by a new one starting from exactly the old target |
| Transition.AdvanceAllIdle | soundGenerators.js:490 | any number of steps of an idle engine change nothing |
| Transition.TransitionConverges | soundGenerators.js:495-505 | a running transition stepped at `bars` or more strictly increasing bar boundaries after its start ends idle with the shape exactly equal to the target |
| Transition.RestartOvershoot | soundGenerators.js:495-498 | after a play restart resets the bar count, a running transition with shape in [0,1] gets a negative progress and its attack jumps to −181.75 |
| Rhythm.ElapsedBarsMonotone | soundGenerators.js:620-624 | the computed bar count never decreases as time goes on and is 0 at the start time |
| Rhythm.JsRemRange | soundGenerators.js:635 | the truncating remainder of a non-negative elapsed time by a positive cycle is in [0, cycle) and equals the floored remainder |
| Rhythm.RetriggerOnGrid | soundGenerators.js:633-635 | a due ball's new lastPlayTime is ≤ now, less than one cycle before now, and a whole positive number of cycles after the old one |
| Rhythm.RetriggerStaysOnGrid | soundGenerators.js:633-635 | a retrigger keeps a ball on the grid of any earlier trigger time, so its phase never drifts |
| Rhythm.Retriggered | soundGenerators.js:630-636 | a retrigger changes only lastPlayTime, and it leaves an inactive ball or a ball that is not yet due unchanged |
| Rhythm.RetriggeredCaughtUp | soundGenerators.js:630-636 | after a frame an active ball is less than one cycle behind now, and is not ahead of now unless it already was |
| Rhythm.SliceLength | soundGenerators.js:703 | `slice(0, count)` takes min(count, n) elements for a non-negative count and max(n + count, 0) for a negative one, never more than n |
| Rhythm.RandomizedActive | soundGenerators.js:694-707 | after randomizeBallStates the active balls are exactly the first k of the shuffle, that many in all, where k is min(count, n) for a non-negative count and max(n + count, 0) for a negative one (`slice`'s negative end), and no other ball field changes |
| Rhythm.ToggledActive | soundGenerators.js:373-376 | toggling flips membership of exactly that ball in the active set, and toggling twice restores the balls |
| Rhythm.PickIndexInRange | soundGenerators.js:675-681 | `Math.floor(Math.random() * length)` is a valid index into a non-empty table |
| Notes.OctaveUp | soundGenerators.js:385-391 | balls one chord length apart play the same chord tone one octave (12 semitones) apart, and a non-negative note gets the same name |
| Notes.NoteNameIndexRange | soundGenerators.js:391 | a non-negative note names a key in the 12-entry table, and notes whole octaves apart get the same name |
| Notes.NoteNumberValid | soundGenerators.js:381-391 | with a non-negative key and intervals, each note is at least middle C plus 12 per full pass through the chord, and names a key in the table |
| Player.Player.constructor | soundGenerators.js:358-367 | one ball per rhythm, only the fourth active, every last play time and miss chance 0; stopped at bar 0 with no transition; an initial envelope in [0,1] satisfies the settled invariant (values in [0,1], a running transition not started after the current bar) |
| Player.Player.ToggleBall | soundGenerators.js:373-376 | the balls become `Toggled` of the old balls: only that ball's active flag flips |
| Player.Player.RandomizeBallStates | soundGenerators.js:694-707 | the balls become `Randomized` of the old balls under the given shuffle (see RandomizedActive) |
| Player.Player.UpdateADSRSliderMaxes | soundGenerators.js:396-425 | the envelope becomes its clamp to the slider maxima, and a settled envelope stays settled |
| Player.Player.SetRandomADSRTargets | soundGenerators.js:461-476 | the samples become the target, a transition is marked running from the current bar, and the shape is unchanged |
| Player.Player.UpdateADSRTransition | soundGenerators.js:489-518 | the transition state becomes `Advance` of the old one at the current bar, and values in [0,1] stay there while the running transition did not start after the current bar |
| Player.Player.RandomizeADSRValues | soundGenerators.js:530-546 | gradual mode starts a transition towards the samples; immediate mode writes the samples into the shape and leaves the transition flag, target and start bar alone |
| Player.Player.AssignNotes | soundGenerators.js:378-393 | every ball's note becomes its note number for the selected key and chord |
| Player.Player.CheckRandomization | soundGenerators.js:654-692 | balls, key and chord change iff enabled and the bar is a multiple of their interval; ADSR follows the step-then-gate rule; notes are reassigned iff key or chord randomization is enabled; values in [0,1] stay there while the running transition did not start after the current bar, given samples in [0,1] |
| Player.Player.RandomizeBallsIfDue | soundGenerators.js:670-672 | the balls are re-randomized iff ball randomization fires on the current bar |
| Player.Player.PickKeyAndChord | soundGenerators.js:674-682 | key and chord indices are re-picked iff their feature fires on the current bar, and stay valid table indices |
| Player.Player.RandomizeADSRIfDue | soundGenerators.js:685-687 | the envelope is randomized iff ADSR randomization fires on the current bar and no transition is running |
| Player.Player.RetriggerBalls | soundGenerators.js:630-649 | every ball becomes `Retriggered` and reports its note outcome; the retrigger happens whether or not the miss gate skipped the note |
| Player.Player.UpdateBalls | soundGenerators.js:611-652 | a stopped player changes nothing; otherwise the start time is taken when falsy, the bar count is replaced only by a strictly larger value (so it never decreases) and the scheduler runs exactly when it is, with the envelope, balls, key, chord and notes changing as in CheckRandomization, then the balls retrigger |
| Player.Player.PlayPause | soundGenerators.js:709-721 | starting sets the start time to now and the bar count to 0; pausing clears the start time; a running transition is kept either way; the settled invariant survives a pause, and a start only when no transition is running |
| Player.ScheduleKeepsSettledStep | soundGenerators.js:489-518 | one transition step at the current bar keeps values in [0,1] while the running transition did not start after the current bar |

## Left out

- DOM work is not modelled. This covers the popup and option building, the listener wiring in `setupControls` and `setupRandomizeControls`, `addTransitionDurationSetting`, the element half of `setupBalls`, slider writes in `updateADSRSliders`, the `toFixed` text of `updateADSRDisplay`, the CSS classes and animation durations in `updateBalls`, and `showNotification` with its timers. It is presentation only and feeds nothing back into the core.
- The slider `input` listeners (lines 440-458) and the miss-chance dropdown listener are not modelled. They only store a parsed control value into a field.
- Web Audio calls are not modelled: oscillator creation, `changeSoundGenerator`, `cancelScheduledValues`, `setValueAtTime` and `linearRampToValueAtTime`. `playNote` is modelled as returning the cancel time and the list of (time, value, kind) gain events it would schedule.
- The frequency formula `220·2^((note−69)/12)` is not modelled, because it is transcendental floating point. Only the integer note number and its name index are modelled.
- `requestAnimationFrame` self-scheduling and `audioContext.resume`/`suspend` are not modelled. One `Player.UpdateBalls` call is one frame, with the clock reading as a parameter.
- `Math.random()` and the random-comparator `sort` shuffle are not modelled as distributions. Their outcomes are arguments. The shuffle is any permutation of the ball indices.
- The earlier, overridden duplicate definitions at lines 9-148 are not modelled. They are dead code once the later declarations replace them.
- IEEE double rounding is not modelled: all arithmetic is exact over `real`.
- Control parsing is not modelled. The tempo is taken to be a positive integer. Bar intervals are taken to be the integers 1 to 24 that the selectors offer. `parseInt` failures (NaN) are not modelled.
- The key-name table is defined outside this file and is not part of this model. It is taken to have 12 entries, as `keys[note % 12]` indexes it. The chord table is passed to the constructor.
- The `playing`/`active` CSS class toggling that `updateBalls` and `randomizeBallStates` do beside the `active` flag is not modelled.
- Player.Player.constructor: the initial values of `isPlaying` (false), `startTime` (unset), `totalElapsedBars` (0), `isTransitioning` (false), `transitionStartBar` (0), the selected key and chord (index 0) and `targetAdsrValues` (equal to the initial envelope) are assumptions, because those globals are declared outside this file. The rhythm table is assumed to hold positive beat counts (`Rhythm.Beats`), and every chord in the chord table is assumed to have at least one interval (the constructor's requires), because both tables are defined outside this file. The first `assignNotes` call that tunes the balls after setup is made outside this file, so the constructor leaves `notes` empty until `AssignNotes` runs.
