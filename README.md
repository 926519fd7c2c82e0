# TempoTron-3000 in Dafny

TempoTron-3000 is a browser metronome with a drone synthesiser and a tuner.
This project models its core and proves properties of the model:

- **the audio engine** (`services/MetronomeAudio.ts`), as the class
  `MetronomeEngine.Engine`. It covers:
  - the start/stop/toggle lifecycle;
  - the look-ahead scheduler, which requests every beat due before
    `now + 0.1` s on the audio clock;
  - the main and subdivision clicks of each beat, recorded in a click log;
  - the table of sustained synth voices;
  - the A440 tuning voice;
  - volume changes.
- **the discrete part of the pitch detector** (`autoCorrelate`) in
  `PitchDetector`: the silence gate, the edge trim, the autocorrelation
  sums, the skip over the initial descent and the strongest-lag search.
  Also the note name and octave of a rounded note index.
- **the tempo controls** of the application component (`App.tsx`) in
  `TempoControl`:
  - the three-digit keypad buffer, with backspace and clear;
  - the clamped commit and the 1200 ms auto-commit;
  - the ±1 buttons;
  - tap tempo, as the class `TapTempo` holding the tap history.
- **the drone** in `Drone`:
  - the chord table;
  - the `midi-N` voice ids;
  - the reconciling effect, as `DroneController.Reconcile`. It stops the
    voices no longer wanted and starts the new ones. Two loops do this, each
    proved against a specification of the resulting voice table.
- **the keyboard panel** (`components/PianoKeys.tsx`) in `PianoKeys`: the
  white-key, black-key and chord-button tables, and the chord toggle.
- **the tuner panel** (`components/Tuner.tsx`) in `TunerDisplay`: the
  needle clamp, the in-tune test and the sign of the deviation text.

`Common` holds the shared helpers:

- `Option`;
- JavaScript's `Math.abs`, clamping and `Math.round`;
- the select/deselect toggle used by the root keys and the chord buttons;
- decimal rendering (`${n}`) and parsing (`parseInt`) of integers.

How the model represents the source:

- **Numbers.** Every number is an exact `real` or an unbounded `int`.
- **Time.** The audio clock and `Date.now()` are parameters.
- **Timers.** A timer firing is an explicit call:
  - `Engine.Tick` for the interval timer;
  - `Engine.TuningCleanup` for the 150 ms cleanup;
  - `TempoControl.AutoCommit` for the 1200 ms auto-commit.
- **Sound.** Whatever would sound is recorded as data: a `Click` per
  requested click, and a `Voice` (frequency and target gain) per sustained
  oscillator, that is per synth voice and for the tuning note.

## Model

| member | source | states |
|---|---|---|
| Common.Abs | components/Tuner.tsx:24 | Math.abs: the result is non-negative and is x or -x |
| Common.Clamp | App.tsx:154 | Math.min(Math.max(x, lo), hi) lies in [lo, hi]: it is x inside the range, lo below it, hi above it |
| Common.JsRound | App.tsx:189 | Math.round: the result is the integer within half a unit of x, with halves rounded up |
| Common.Toggle | App.tsx:226 | pressing a selector deselects it exactly when the pressed value was selected; otherwise it selects the pressed value |
| Common.ToggleTwice | App.tsx:226 | pressing the same key twice returns to no selection, or to that key |
| Common.DigitChar | App.tsx:145 | digit.toString() for a digit is a digit character whose code is '0' + d |
| Common.NatToStringDigits | App.tsx:85 | the decimal rendering of a natural number is a non-empty digit string, with at least two digits from 10 on |
| Common.IntToStringSign | App.tsx:85 | `${i}` is non-empty, and starts with '-' exactly when i is negative |
| Common.ParseDigitsBound | App.tsx:153 | parseInt of at most three digits is at most 999 (99 for two digits, 9 for one) |
| Common.ParseNatToString | App.tsx:153 | parseInt undoes the decimal rendering of a natural number |
| Common.NatToStringInjective | App.tsx:85 | distinct natural numbers render differently |
| Common.IntToStringInjective | App.tsx:85 | distinct integers render differently, so `midi-${n}` ids never collide |
| MetronomeEngine.SecondsPerBeat | services/MetronomeAudio.ts:280 | 60 / tempo is a positive beat length for a positive tempo |
| MetronomeEngine.SubdivisionOffsets | services/MetronomeAudio.ts:318-338 | each mode's secondary click fractions are strictly inside the beat and strictly increasing; there are none exactly for 1/4 |
| MetronomeEngine.EvenSubdivisions | services/MetronomeAudio.ts:323-334 | 1/8, 1/8T and 1/16 put their clicks at k/n of the beat, for k = 1..n-1 and n = 2, 3, 4 |
| MetronomeEngine.DottedIsLastSixteenth | services/MetronomeAudio.ts:335-337 | the dotted rhythm's single secondary click is the last sixteenth, at 0.75 |
| MetronomeEngine.ClickAt | services/MetronomeAudio.ts:289-309 | a click keeps its time, frequency and starting gain, and its oscillator stops 0.04 s later (30 ms decay plus 10 ms) |
| MetronomeEngine.SubClicks | services/MetronomeAudio.ts:318-338 | one secondary click per offset |
| MetronomeEngine.SubClicksIndex | services/MetronomeAudio.ts:318-338 | the i-th secondary click sounds at t + spb·offset[i], at 800 Hz and the subdivision gain |
| MetronomeEngine.SubClickAt | services/MetronomeAudio.ts:311-339 | click i ≥ 1 of a beat is the (i-1)-th subdivision click, and the beat has 1 + (number of offsets) clicks |
| MetronomeEngine.BeatClicksCases | services/MetronomeAudio.ts:315-338 | the clicks of a beat written out for each of the five modes |
| MetronomeEngine.BeatClicksShape | services/MetronomeAudio.ts:311-339 | a beat is a 1500 Hz click at full volume on the beat, then the subdivision's 800 Hz clicks at 60% volume, each 0.04 s long and strictly inside the beat |
| MetronomeEngine.BeatClicksOrdered | services/MetronomeAudio.ts:311-339 | the clicks of a beat are requested in strictly increasing time order |
| MetronomeEngine.BeatsLeftStep | services/MetronomeAudio.ts:353-356 | each scheduler iteration lowers the number of beats still due before the window end by one: the loop terminates for a positive tempo |
| MetronomeEngine.TickBeatsSpacing | services/MetronomeAudio.ts:350-357 | the beats of one scheduler tick are exactly one beat length apart from the first pending one, and all fall inside the look-ahead window; the beat after the last one falls outside it |
| MetronomeEngine.TickEnd | services/MetronomeAudio.ts:353 | where the next tick resumes is at or past the window end |
| MetronomeEngine.TickEndAfterBeats | services/MetronomeAudio.ts:353-356 | the tick resumes |beats| beat lengths after the first pending beat |
| MetronomeEngine.TickBeatsConsecutive | services/MetronomeAudio.ts:279-287 | successive requested beats are one beat length (60/tempo) apart |
| MetronomeEngine.TickBeatsEmpty | services/MetronomeAudio.ts:353 | a tick requests nothing exactly when the pending beat is already outside the window |
| MetronomeEngine.RenderBeatsCount | services/MetronomeAudio.ts:350-357 | the beats of a tick request exactly one main click each plus each beat's secondary clicks, n·(1 + number of offsets) clicks in all |
| MetronomeEngine.Engine.constructor | services/MetronomeAudio.ts:4-35 | no audio context, not playing, no timer; tempo 120, volume 0.8, 1/4, no voices, no tuning voice |
| MetronomeEngine.Engine.InitContext | services/MetronomeAudio.ts:37-44 | afterwards an audio context exists |
| MetronomeEngine.Engine.SetTempo | services/MetronomeAudio.ts:46-48 | the tempo is whatever was passed |
| MetronomeEngine.Engine.SetSubdivision | services/MetronomeAudio.ts:65-67 | the subdivision is whatever was passed |
| MetronomeEngine.Engine.SetVolume | services/MetronomeAudio.ts:50-63 | the volume is set; every synth voice keeps its id and frequency and is retargeted to vol·0.25; with a context, a tuning voice keeps its frequency and is retargeted to vol·0.5 |
| MetronomeEngine.Engine.Start | services/MetronomeAudio.ts:69-77 | no-op while playing; otherwise it creates the context, resets the bar, makes the first beat due 50 ms after now and arms the timer |
| MetronomeEngine.Engine.Stop | services/MetronomeAudio.ts:79-85 | afterwards nothing plays and no timer is armed, whatever the state before |
| MetronomeEngine.Engine.Toggle | services/MetronomeAudio.ts:87-94 | the playing state flips, and the result reports the new state |
| MetronomeEngine.Engine.PlayClick | services/MetronomeAudio.ts:289-309 | with a context, exactly one click is appended at the volume times its multiplier; without one, nothing is appended |
| MetronomeEngine.Engine.ScheduleNote | services/MetronomeAudio.ts:311-339 | with a context, exactly the clicks of one beat at `time` are appended; without one, nothing |
| MetronomeEngine.Engine.NextNote | services/MetronomeAudio.ts:279-287 | the next beat moves one beat length later, and the bar position resets as soon as it reaches 1 |
| MetronomeEngine.Engine.Scheduler | services/MetronomeAudio.ts:350-357 | one tick appends the clicks of exactly the beats the tick is due, in order, and leaves the next pending beat at or past now + 0.1; without a context nothing changes |
| MetronomeEngine.Engine.Tick | services/MetronomeAudio.ts:76 | the interval timer runs the scheduler only while armed |
| MetronomeEngine.Engine.PlaySynthTone | services/MetronomeAudio.ts:131-157 | an absent id starts a voice at vol·0.25 and reports true; an id already sounding is stopped instead and reports false |
| MetronomeEngine.Engine.StopSynthTone | services/MetronomeAudio.ts:159-172 | the id is removed from the voice table; an unknown id changes nothing |
| MetronomeEngine.Engine.StopAllSynthTones | services/MetronomeAudio.ts:174-177 | the voice table ends empty |
| MetronomeEngine.Engine.ToggleTuningNote | services/MetronomeAudio.ts:97-128 | enabling starts a 440 Hz voice at vol·0.5 unless one exists, which is then kept as it is; disabling an existing one keeps its frequency, fades it to 0 and schedules one cleanup; the voice stays until that cleanup fires; disabling with no voice changes nothing |
| MetronomeEngine.Engine.TuningCleanup | services/MetronomeAudio.ts:122-125 | a firing cleanup forgets the tuning voice |
| PitchDetector.ZeroLagIsEnergy | services/MetronomeAudio.ts:253-258 | the zero-lag autocorrelation is the frame's energy, never negative |
| PitchDetector.ZeroFrameEnergy | services/MetronomeAudio.ts:242-245 | an all-zero frame has zero energy, so it is reported silent |
| PitchDetector.SumOfSquares | services/MetronomeAudio.ts:242-243 | the loop computes the sum of squares of the frame |
| PitchDetector.TrimStart | services/MetronomeAudio.ts:248 | r1 is the first quiet sample (magnitude < 0.2) of the first half, or 0 when there is none |
| PitchDetector.TrimEnd | services/MetronomeAudio.ts:249 | r2 is the last quiet sample past the middle, searching back from the end, or size-1 when there is none |
| PitchDetector.LagSums | services/MetronomeAudio.ts:253-258 | c[i] is the sum of b[j]·b[j+i] over every j that keeps j+i inside the slice |
| PitchDetector.SkipDescent | services/MetronomeAudio.ts:260-261 | d ends the initial strictly descending run of c; a comparison past the end counts as false |
| PitchDetector.FirstArgMax | services/MetronomeAudio.ts:262-268 | maxpos is the first index from d on with the largest value above -1, or -1 when no value exceeds -1 |
| PitchDetector.AutoCorrelate | services/MetronomeAudio.ts:240-269 | the frame is silent exactly when its mean square is below 0.0001 (RMS < 0.01); otherwise r1 < r2 and the result is the autocorrelation of buf[r1..r2], its descent end and its coarse period |
| PitchDetector.TrimStartUnique | services/MetronomeAudio.ts:248 | the trim start is determined uniquely by the frame |
| PitchDetector.TrimEndUnique | services/MetronomeAudio.ts:249 | the trim end is determined uniquely by the frame |
| PitchDetector.DescentEndUnique | services/MetronomeAudio.ts:261 | the end of the initial descent is determined uniquely |
| PitchDetector.FirstArgMaxUnique | services/MetronomeAudio.ts:262-268 | the strongest lag is determined uniquely |
| PitchDetector.PeakFoundWithoutDescent | services/MetronomeAudio.ts:260-269 | when there is no initial descent, the search always finds a lag, never -1 |
| PitchDetector.NoteName | services/MetronomeAudio.ts:226-229 | noteStrings[noteIndex % 12] is a name from the table, and is undefined exactly for a negative index off the multiples of 12 |
| PitchDetector.Octave | services/MetronomeAudio.ts:230 | Math.floor(noteIndex / 12) - 1 is the octave r with 12·(r+1) ≤ noteIndex < 12·(r+2) |
| PitchDetector.JsRemainder | services/MetronomeAudio.ts:229 | JavaScript's `%` lies strictly between -n and n, agrees with the mathematical remainder for non-negative dividends and is ≤ 0 for negative ones |
| PitchDetector.NoteLabelRoundTrip | services/MetronomeAudio.ts:226-230 | a non-negative index is named noteStrings[k mod 12], and pitch class and octave together give the index back |
| PitchDetector.OctaveStep | services/MetronomeAudio.ts:229-230 | twelve semitones up is the same name one octave higher |
| PitchDetector.ReferenceNotes | services/MetronomeAudio.ts:226-230 | index 69 is A4 and index 60 is C4 |
| PitchDetector.NegativeNoteNames | services/MetronomeAudio.ts:229 | a negative index off the multiples of 12 has no name (undefined); a multiple of 12 reads "C" |
| TempoControl.Initial | App.tsx:26-30 | the tempo starts at 60 with an empty buffer |
| TempoControl.DigitPress | App.tsx:143-146 | with fewer than three digits, the digit is appended and the parsed value becomes 10·old + d; with three, nothing changes |
| TempoControl.Backspace | App.tsx:148 | drops the last typed digit; an empty buffer stays empty |
| TempoControl.Clear | App.tsx:149 | empties the buffer and keeps the tempo |
| TempoControl.Commit | App.tsx:151-157 | nothing on an empty buffer; otherwise the buffer empties and the tempo becomes the parsed value, clamped to [10, 999] |
| TempoControl.AutoCommit | App.tsx:159-169 | the auto-commit takes the typed value exactly when it is already in [10, 999]; otherwise nothing changes |
| TempoControl.Adjust | App.tsx:171-174 | the tempo moves by the amount, clamped to [10, 999], and typed digits are discarded |
| TempoControl.EntryOperationsPreserveValid | App.tsx:143-174 | every keypad and tempo operation keeps the tempo in [10, 999] and the buffer to at most three digits |
| TempoControl.BackspaceUndoesDigit | App.tsx:143-148 | backspace undoes an accepted digit press |
| TempoControl.CommitTypedNumber | App.tsx:151-157 | typing the digits of n and committing gives n clamped to the legal range |
| TempoControl.AutoCommitAgreesWithCommit | App.tsx:151-169 | when the auto-commit fires it does what an explicit commit does, and a commit afterwards changes nothing |
| TempoControl.CommitIdempotent | App.tsx:151-157 | committing twice is committing once |
| TempoControl.AdjustInverse | App.tsx:171-174 | +1 and -1 undo each other away from the range ends and saturate at them |
| TempoControl.SingleDigitWaits | App.tsx:159-169 | a single typed digit never auto-commits, while an explicit commit makes it 10 |
| TempoControl.TapEstimate | App.tsx:185-189 | there is no estimate exactly when the first and last taps coincide (the division by zero) |
| TempoControl.TapOutcome | App.tsx:185-190 | the tempo becomes the estimate exactly when that is a legal tempo, and stays legal |
| TempoControl.AppendTap | App.tsx:183-184 | with fewer than five taps held, the tap is appended and every older tap is kept; with five or more, the tap is appended and exactly the oldest one is dropped; a window of at most five stays at most five, and its last entry is the new tap |
| TempoControl.EvenTapsEstimate | App.tsx:186-189 | any number of taps exactly p ms apart estimate round(60000 / p) |
| TempoControl.HalfSecondTaps | App.tsx:186-189 | two taps 500 ms apart give 120 bpm |
| TempoControl.TapTempo.constructor | App.tsx:44 | the tap history starts empty |
| TempoControl.TapTempo.SumIntervals | App.tsx:186-187 | the summed intervals telescope to last tap minus first tap |
| TempoControl.TapTempo.Tap | App.tsx:176-192 | a tap more than 2000 ms after the previous one restarts the history without touching the tempo; otherwise the history gets the tap and the tempo becomes the tap outcome, so a legal tempo stays legal |
| Drone.LookupSound | App.tsx:81 | a chord lookup finds an entry of the table under that name, and finds nothing only when no entry has that name |
| Drone.ChordOffsetsTable | App.tsx:16-23 | the offsets of the six chords, and [0] for no chord or an unknown name |
| Drone.OffsetsWellFormed | App.tsx:81 | whatever is selected, the offsets start with the root (0) and have no repeats |
| Drone.MidiIdIsInjective | App.tsx:85 | different MIDI notes get different `midi-N` ids: the id naming is injective |
| Drone.IdsMember | App.tsx:85-87 | a note's id is among a set's ids exactly when the note is in the set |
| Drone.IdsDifference | App.tsx:92-98 | the ids of a note set difference are the difference of the id sets |
| Drone.IdsAdd | App.tsx:87 | adding a note adds exactly its id |
| Drone.IdsSize | App.tsx:77-89 | a set of notes has exactly as many ids as notes |
| Drone.ShiftedNotesMember | App.tsx:83-84 | m is a drone note exactly when m - root is one of the offsets |
| Drone.ShiftedNotesSize | App.tsx:83-87 | distinct offsets give as many notes as offsets |
| Drone.TargetMember | App.tsx:77-90 | `midi-m` is wanted exactly when there is a root and m - root is an offset |
| Drone.TargetIds | App.tsx:77-90 | every wanted id is the id of a note at an offset above the root |
| Drone.TargetDifference | App.tsx:92-98 | the ids to stop are exactly those whose offset only the old chord has |
| Drone.DroneTargetShape | App.tsx:77-90 | without a root nothing is wanted; with one, the root always sounds and there is one voice per chord tone |
| Drone.SingleOffsetDifference | App.tsx:92-98 | chords that differ in one offset differ in exactly one voice |
| Drone.MajorToMinorSwitch | App.tsx:17-18 | switching from M3 to m3 stops only the major third and starts only the minor third |
| Drone.SubdivisionPress | App.tsx:234-238 | pressing the active subdivision falls back to 1/4; pressing another selects it |
| Drone.SubdivisionPressTwice | App.tsx:238 | pressing a subdivision button twice returns to where it started |
| Drone.ToggledStep | services/MetronomeAudio.ts:131-157 | one more playSynthTone on a new id toggles that voice and only it |
| Drone.DroneController.constructor | App.tsx:38 | no voice is believed playing at first |
| Drone.DroneController.BuildTarget | App.tsx:77-90 | targetIds is exactly the wanted id set; targetFreqs has exactly those keys, and `midi-m` maps to the frequency of m |
| Drone.DroneController.StopStale | App.tsx:92-98 | exactly the playing ids that are no longer wanted are stopped and forgotten; the rest are untouched |
| Drone.DroneController.StartMissing | App.tsx:100-108 | every wanted id not yet playing is passed once to playSynthTone, so the voice table is the old one with those ids toggled; afterwards exactly the wanted ids are believed playing |
| Drone.DroneController.Reconcile | App.tsx:74-110 | afterwards exactly the drone target is believed playing; the voice table is the old one minus the stopped ids, with the new ones toggled; new voices sound at hz(m) and vol·0.25; a table that matched the believed set still does |
| PianoKeys.KeysCoverOneOctave | components/PianoKeys.tsx:27-43 | the white and black keys are MIDI 48..59, each exactly once |
| PianoKeys.WhiteKeysAscending | components/PianoKeys.tsx:27-35 | white keys are listed in strictly ascending MIDI order |
| PianoKeys.BlackKeysBetweenWhites | components/PianoKeys.tsx:37-43 | each black key has boundaryIndex in 1..6, and lies a semitone above the white key to its left and a semitone below the one to its right |
| PianoKeys.KeyLabelsMatchNoteNames | components/PianoKeys.tsx:27-43 | each key's label is the tuner's name for its pitch class, noteStrings[midi mod 12] |
| PianoKeys.ChordButtonsMatchTable | components/PianoKeys.tsx:10-17 | the chord buttons are the drone table's chords in the same order, each captioned with its id |
| PianoKeys.LookupDistinctNames | App.tsx:81 | in a table without repeated names, looking up entry i's name finds entry i |
| PianoKeys.ChordPress | components/PianoKeys.tsx:58 | the active chord button deselects the chord; another selects it, and its offsets are its own table entry, never the root-only fallback |
| TunerDisplay.NeedlePos | components/Tuner.tsx:19-22 | the needle lies in [0, 100]; it is 50 + c for c in [-50, 50], 0 at or below -50, and 100 at or above 50 |
| TunerDisplay.NeedleMonotone | components/Tuner.tsx:19-22 | a larger deviation never moves the needle left |
| TunerDisplay.InTuneNeedleCentred | components/Tuner.tsx:24 | nothing is in tune without a reading; a reading is in tune exactly when the needle is less than 5 from the centre, i.e. |cents| < 5 |
| TunerDisplay.CentsLabelSign | components/Tuner.tsx:87 | the deviation text starts with '+' exactly when cents > 0, and with '-' exactly when it rounds to a negative number (below -0.5) |

## Left out

- **Web Audio node graphs.** Oscillator types, connections and gain ramps are not modelled, nor is the stop time of the tuning oscillator. Frequencies and target gains are recorded instead, and so is each click's oscillator stop time (0.01 s after its 0.03 s decay).
- **Resuming a suspended audio context** (`initContext`) is device plumbing and is not modelled.
- **Interval and timeout scheduling** (the 25 ms lookahead timer, setTimeout delays, React effect ordering) is not modelled. Each timer firing is an explicit call that the environment may make at any time.
- **The beat notification `onBeatCallback`** in scheduleNote (services/MetronomeAudio.ts:341-347) is display-only. It is not modelled.
- **The microphone and the tuner loop.** `startTuner`, `stopTuner`, requestAnimationFrame and the analyser are platform I/O.
- **Floating point in the tuner.** `updateTuner`'s frequency to note-number arithmetic (log, pow, cents) is not modelled. Neither are the parabolic refinement and `sampleRate / T0` in autoCorrelate (services/MetronomeAudio.ts:271-276). The model starts from a rounded note index and ends at the coarse period.
- **Exact arithmetic.** All numbers are exact reals or unbounded integers. 1/3 is exact. The RMS gate is stated on the mean square, which is equivalent to the square-root comparison for these non-negative values.
- **MIDI note frequency.** `440 * Math.pow(2, (midi - 69) / 12)` is a parameter `hz` of `Drone.DroneController.Reconcile`.
- **The `if (freq)` guard** (App.tsx:103) always passes, because a note frequency is always positive; `Drone.DroneController.Reconcile` requires `hz` to be positive everywhere. The guard is not modelled.
- **`Date.now()`** is the parameter `now` of `TempoControl.TapTempo.Tap`.
- **Iteration order of JavaScript Set and Map.** The loops over the playing set, the target set and the voice table pick elements in an unspecified order. Every stated result holds for any order.
- **`timerID`** is reduced to whether a timer is armed.
- **JavaScript's inherited object keys.** Lookups in CHORD_OFFSETS consider only the table's own six names. No inherited key such as `constructor` can be selected, because chord names come only from the six buttons.
- **`togglePlay`** (App.tsx:136-141) is not a member of its own. It is `TempoControl.Commit` followed by `MetronomeEngine.Engine.Toggle`.
- **`toggleA440` and `toggleTuner`** keep UI booleans. Those booleans, the rendering, CSS and layout percentages (components/PianoKeys.tsx:105), and the other display components are not modelled.
- MetronomeEngine.Engine.ScheduleNote: requires a positive tempo, even for 1/4, which does not divide. The application never sets a tempo below 10. In the source a zero tempo makes 60 / tempo Infinity, so every subdivision click would be handed a non-finite time.
- MetronomeEngine.Engine.NextNote: requires a positive tempo. In the source a zero tempo moves the next beat to Infinity and a negative one moves it backwards; neither is modelled.
- MetronomeEngine.Engine.Scheduler: requires a positive tempo. In the source a negative tempo moves nextNoteTime backwards, so the loop never ends; a zero tempo sets nextNoteTime to Infinity after the first beat, so the loop ends after one beat, and with any subdivision but 1/4 that beat's clicks get non-finite times. Neither case is modelled.
- MetronomeEngine.Engine.Tick: requires a positive tempo while the timer is armed, for the same reasons as the scheduler.
- MetronomeEngine.Engine.Scheduler: takes the audio clock `now` once per tick, where the source reads `audioContext.currentTime` again on each loop iteration (services/MetronomeAudio.ts:353). A clock that advances during one tick could let the source request further beats; the model does not capture that.
- PitchDetector.AutoCorrelate: requires a frame of at least two samples. The source always analyses 2048.
- PitchDetector.TrimStart: requires a non-empty frame.
- PitchDetector.TrimEnd: requires a non-empty frame.
