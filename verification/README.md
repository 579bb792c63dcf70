# Record session controller, modelled in Dafny

This project models the session controller of the `Record` component of a
browser voice recorder with a teleprompter (`src/components/Record.tsx`).
The user picks a microphone and presses Start. The component acquires the
microphone, shows a countdown overlay of 2 to 15 seconds, and then records.
While it records, an elapsed-time display counts seconds and the
teleprompter text scrolls. A level meter is meant to show the mean of the
analyser's frequency bins, but as written it never samples and reads 0 (see
Findings; the session model follows the corrected level effect). Pause freezes the recorder and the scrolling but not the elapsed
counter. Stop downloads the take as `recording-<timestamp>.wav` and releases
the microphone. Cancel on the countdown overlay aborts the start and releases
the microphone too. A Rehearse toggle scrolls the text without recording.

The model is functional: one immutable `Record.Session` value holds every
signal of the component, and there is one pure transition per command or
timer tick. The browser handles become "held / null" flags:

- the media stream;
- the audio context;
- the analyser node;
- the media recorder.

Each `setInterval` timer becomes a "live" flag, and each tick is an explicit
event (`Record.Event`, applied by `Record.Step` and `Record.Run`).
`Record.Valid` is the invariant every transition keeps. The pure helpers
have their own modules:

- `TimeFormat`: the `MM:SS` display;
- `Level`: the level value;
- `Devices`: microphone filtering, default selection, option labels and the capture constraint;
- `Download`: the download file name;
- `Status`: the status badge.

Modules, leaves first: `Wrappers`, `Digits` (decimal rendering, parsing and
`padStart`), `TimeFormat`, `Level`, `Devices`, `Download`, `Record`,
`RecordProps` (multi-step properties), `Status`, and `LevelEffect` (the
reactive level effect, see Findings).

Behaviour that this component does not have, although a description of the
product could suggest it, is not modelled:

- RMS, peak-hold or decibel computation, and severity bands with hysteresis.
  The level is a plain mean of bytes over 255.
- A preview/save/discard step for the take. Stop downloads it at once.
- Keeping the microphone open after Stop. Stop releases every handle.
- Skipping a zero-length countdown. The select offers 2 to 15 seconds only.
- Refusing a microphone change during a recording. `MicChosen` is accepted
  in any state, as in the code.
- A guard against a second Start. See `StartRecording` under Left out.
- Device hot-plug handling.

## Model

| member | source | states |
|---|---|---|
| `Digits.NatToString` | src/components/Record.tsx:49 | `toString` of a whole number: at least one character, digits only, no leading zero |
| `Digits.ValueOfNatToString` | src/components/Record.tsx:49 | parsing the decimal rendering of n gives back n |
| `Digits.NatToStringLength` | src/components/Record.tsx:49 | the rendering fits in k characters exactly when n < 10^k |
| `Digits.PadStart` | src/components/Record.tsx:49 | `padStart` reaches the width, never truncates, keeps the original as suffix and fills only on the left |
| `Digits.ValueOfPadded` | src/components/Record.tsx:49 | zero-padding a rendering keeps its digits and its value |
| `TimeFormat.Pad2` | src/components/Record.tsx:49 | `toString().padStart(2, '0')`: digits only, at least two, exactly two below 100, reading back as the input |
| `TimeFormat.FormatTime` | src/components/Record.tsx:46-50 | the display is always a clock string: digits, a colon three from the end, two seconds digits, at least five characters |
| `TimeFormat.FormatParseRoundTrip` | src/components/Record.tsx:46-50 | reading the display back as 60·minutes + seconds gives the elapsed seconds, for every input |
| `TimeFormat.FormatTimeInjective` | src/components/Record.tsx:46-50 | distinct elapsed times never show the same text |
| `TimeFormat.FormatTimeShortShape` | src/components/Record.tsx:46-50 | below 6000 s: length 5, colon at index 2, seconds field < 60, 60·MM + SS equals the input |
| `TimeFormat.FormatTimeLongShape` | src/components/Record.tsx:46-50 | from 6000 s: the minutes field is the full, untruncated decimal minutes (three or more digits) |
| `Level.Sum` | src/components/Record.tsx:201 | the sum of a frame is at most 255 per bin |
| `Level.LevelOf` | src/components/Record.tsx:200-202 | the meter value of any byte frame lies in [0, 1] |
| `Level.LevelZeroIff` | src/components/Record.tsx:200-202 | the meter reads 0 exactly when every bin is 0 |
| `Level.LevelOneIff` | src/components/Record.tsx:200-202 | the meter reads 1 exactly when every bin is 255 |
| `Level.LevelMonotone` | src/components/Record.tsx:200-202 | raising bins never lowers the meter |
| `Devices.Microphones` | src/components/Record.tsx:238 | the list holds exactly the devices of kind `audioinput`, and is no longer than the input |
| `Devices.MicrophonesAppend` | src/components/Record.tsx:238 | filtering distributes over concatenation, so the platform's order is kept |
| `Devices.MicrophonesCount` | src/components/Record.tsx:238 | each microphone keeps its multiplicity; other devices occur zero times |
| `Devices.MicrophonesIdempotent` | src/components/Record.tsx:238 | filtering a filtered list changes nothing |
| `Devices.DefaultSelection` | src/components/Record.tsx:241-244 | the selection becomes the first microphone's id only when it was empty and the list is non-empty; otherwise it is kept |
| `Devices.DefaultSelectionStable` | src/components/Record.tsx:241-244 | defaulting twice equals defaulting once, and a changed selection names a listed microphone |
| `Devices.Take` | src/components/Record.tsx:374 | `slice(0, n)`: the first min(n, length) characters of the id |
| `Devices.MicLabel` | src/components/Record.tsx:374 | a non-empty label is shown as is; otherwise `Microphone ` + the first min(8, length) id characters + `...` |
| `Devices.MicLabelCollision` | src/components/Record.tsx:374 | two unlabelled microphones get the same option text exactly when their ids agree on the first eight characters |
| `Devices.CaptureConstraint` | src/components/Record.tsx:71-73 | the constraint asks for an exact device iff a microphone is selected, and then for that id |
| `Download.Stamp` | src/components/Record.tsx:124 | the timestamp part is 19 characters and contains no colon |
| `Download.Filename` | src/components/Record.tsx:119-124 | the download name is 33 characters: `recording-`, the stamp, `.wav`; no colon anywhere |
| `Download.StampRoundTrip` | src/components/Record.tsx:124 | for years 0–9999 the stamp is `YYYY-MM-DDTHH-mm-ss`, and reading it back gives the instant without milliseconds |
| `Download.FilenameDropsSecondsForExpandedYears` | src/components/Record.tsx:124 | outside years 0–9999 the 19-character cut ends at the minutes, so instants of one minute share a name |
| `Download.MimeType` | src/components/Record.tsx:120 | the blob type is `audio/wav` |
| `Download.AsciiLower` | src/components/Record.tsx:120-124 | `toLowerCase` on ASCII: same length, each capital letter lowered, every other character kept |
| `Download.IsoFacts` | src/components/Record.tsx:124 | `toISOString` is the year field plus 20 characters; the year field is 4 characters for years 0–9999 and 7 (sign and six digits) otherwise |
| `Download.ReplaceColons` | src/components/Record.tsx:124 | `replace(/:/g, '-')`: same length, each colon becomes a hyphen, every other character kept, no colon left |
| `Download.ExtensionIsLowerFormat` | src/components/Record.tsx:15 | the extension and MIME subtype are the lower-cased recording format `WAV` |
| `Record.SettleLevel` | src/components/Record.tsx:207-213 | corrected level effect (see Findings): whenever its gate is closed the meter reads 0; otherwise nothing changes |
| `Record.StartRecording` | src/components/Record.tsx:69-103 | refused access changes nothing; granted access holds stream, context and analyser, shows the overlay at the configured duration and starts the countdown timer, nothing else changes |
| `Record.StartActualRecording` | src/components/Record.tsx:106-138 | without a stream nothing happens; with one, recording runs unpaused from 0 s, rehearsal stops, a recorder and the elapsed timer exist, nothing else changes |
| `Record.CountdownTick` | src/components/Record.tsx:87-97 | no timer, no tick; a count above 1 only decrements; at 1 the timer and overlay go, the count returns to the duration, and with a stream recording starts unpaused from 0 s with a recorder, the elapsed timer and rehearsal off; without one nothing else changes; the scroll, level, microphones and the other handles are always kept |
| `Record.TogglePause` | src/components/Record.tsx:141-151 | without a recorder nothing happens; otherwise only the paused flag flips and the meter keeps its value while the level gate stays open, else reads 0; recording flag and elapsed time never change |
| `Record.CleanupMedia` | src/components/Record.tsx:178-193 | all four handles end null, nothing else changes, and with nothing held it is the identity |
| `Record.StopRecording` | src/components/Record.tsx:154-165 | from any state: not recording, not paused, 0 s, no handles, no elapsed timer, meter 0; a download exactly when a recorder existed, named for `now`, of type `audio/wav` |
| `Record.CancelCountdown` | src/components/Record.tsx:168-175 | from any state: overlay hidden, no countdown timer, all handles null, meter 0; the countdown value and the recording flags are untouched |
| `Record.ElapsedTick` | src/components/Record.tsx:135-137 | the elapsed timer adds one second while live, paused or not |
| `Record.ScrollTick` | src/components/Record.tsx:218-222 | the position grows by the speed when recording unpaused or rehearsing, else nothing changes |
| `Record.ResetScroll` | src/components/Record.tsx:230-232 | the position becomes 0 and nothing else changes |
| `Record.ToggleRehearse` | src/components/Record.tsx:289 | only the rehearsal flag flips |
| `Record.LevelTick` | src/components/Record.tsx:196-204 | corrected level effect (see Findings; as written the meter never samples): while recording unpaused with an analyser the meter shows the frame's level; otherwise no sampling happens |
| `Record.EnumerateMicrophones` | src/components/Record.tsx:235-248 | a failed enumeration changes nothing; otherwise the list is the microphone filter and the selection is defaulted; nothing else changes |
| `Record.Step` | src/components/Record.tsx:69-248 | every command and tick keeps the invariant: countdown duration in 2..15, speed in [0.5, 5], position ≥ 0, meter in [0, 1] and 0 when gated off, elapsed timer live iff recording, paused ⇒ recording, recorder ⇒ recording and stream, overlay iff countdown timer, count ≥ 1 while counting |
| `Record.Run` | src/components/Record.tsx:69-248 | any sequence of events keeps the invariant |
| `RecordProps.CountdownBeforeHandOff` | src/components/Record.tsx:84-97 | after Start, tick k < D only lowers the count to D − k |
| `RecordProps.CountdownHandOff` | src/components/Record.tsx:84-97 | tick D hides the overlay, clears the timer, resets the count to D and starts recording unpaused from 0 s with rehearsal off |
| `RecordProps.RecordingStartsOnLastTick` | src/components/Record.tsx:84-97 | from an idle session, recording is on after k ticks iff k = D |
| `RecordProps.CancelledCountdownStaysIdle` | src/components/Record.tsx:168-175 | after Cancel, no number of countdown ticks changes anything |
| `RecordProps.CancelIdempotent` | src/components/Record.tsx:168-193 | cancelling twice equals cancelling once |
| `RecordProps.PauseTwice` | src/components/Record.tsx:141-151 | two Pause presses restore the session, except that a running meter reads 0 until its next sample |
| `RecordProps.StopTwice` | src/components/Record.tsx:154-165 | a second Stop changes nothing and downloads nothing |
| `RecordProps.ScrollTickIff` | src/components/Record.tsx:218-222 | a tick adds exactly the speed iff the gate is open and keeps the position iff it is closed; an open gate strictly advances with a slider speed |
| `RecordProps.ScrollTicksDistance` | src/components/Record.tsx:218-222 | n ticks move the text by n × speed when the gate is open, and not at all otherwise |
| `RecordProps.ResetAfterScrolling` | src/components/Record.tsx:230-232 | resetting after any number of ticks gives the same session as resetting before them |
| `RecordProps.ElapsedTicksCount` | src/components/Record.tsx:135-137 | n ticks of a live elapsed timer add n seconds |
| `RecordProps.ElapsedIgnoresPause` | src/components/Record.tsx:135-151 | the elapsed tick and Pause commute |
| `RecordProps.ReachableSessionsValid` | src/components/Record.tsx:11-34 | from the mount values, any events leave the meter in [0, 1] (0 when gated off), the position ≥ 0, and paused ⇒ recording |
| `RecordProps.LevelTickExtremes` | src/components/Record.tsx:197-203 | while sampling, a silent frame empties the meter and a saturated one fills it |
| `Status.StatusOf` | src/components/Record.tsx:53-58 | READY iff not recording, PAUSED iff recording and paused, RECORDING iff recording unpaused |
| `Status.RecordingStatusText` | src/components/Record.tsx:53-58 | the badge text is READY, PAUSED or RECORDING exactly as the session is idle, paused or recording unpaused, and parses back to its status |
| `Status.StatusVariant` | src/components/Record.tsx:61-66 | the variant is default, secondary or destructive exactly as the session is idle, paused or recording unpaused, and parses back to its status |
| `Status.VariantTextRoundTrip` | src/components/Record.tsx:61-66 | the badge variant names its status unambiguously |
| `Status.StatusTextRoundTrip` | src/components/Record.tsx:53-58 | the badge text names its status unambiguously |
| `Status.TextAndVariantAgree` | src/components/Record.tsx:53-66 | two sessions show the same badge text exactly when they show the same variant |
| `Status.StatusThroughATake` | src/components/Record.tsx:53-58 | READY after Stop, RECORDING at a hand-off with a stream, PAUSED after pausing a recording |
| `LevelEffect.RunAsWritten` | src/components/Record.tsx:197 | the condition as written samples iff the gate is open, but reads no signal while the analyser is null |
| `LevelEffect.RunCorrected` | src/components/Record.tsx:196-215 | the corrected condition samples iff the gate is open and always depends on both signals |
| `LevelEffect.AsWrittenNeverSamples` | src/components/Record.tsx:196-215 | mounted with a null analyser, the effect as written never runs again and never samples |
| `LevelEffect.LevelMeterStuckAtZero` | src/components/Record.tsx:196-215 | mount, Start, end of countdown: the gate is open, the as-written effect does not sample, the corrected one does |
| `LevelEffect.CorrectedTracksGate` | src/components/Record.tsx:196-215 | corrected: along any history that changes the analyser only while the gate is closed, the effect samples iff the gate is open |

## Left out

- Browser media objects (`getUserMedia`, `AudioContext`, `AnalyserNode`, `MediaRecorder`): each is a held/null flag. Recorded audio, chunks, the `Blob`, the object URL and the anchor click are not modelled. Stop yields only the download's file name.
- `StartRecording`: the acquisition outcome is one boolean. If `new AudioContext()` threw after the stream was obtained, the stream would stay held with no overlay; that partial failure is not modelled.
- `StartRecording`: a second Start press is not guarded. The overlay is shown only after `getUserMedia` resolves (lines 74 and 84), so the Start button stays clickable while the permission prompt is open. The second run overwrites `mediaStream` and `audioContext` (lines 74 and 77) without releasing the first ones; `cleanupMedia` (lines 178-193) then releases only the second pair, so the first microphone stream and audio context stay live after Cancel or Stop. It also overwrites the countdown timer handle without clearing it, so the earlier timer keeps firing and can start a recording again later. The model holds one flag per handle and one countdown-timer flag, so neither leak is reproduced.
- `ScrollTick`: the model has one scroll timer that is live exactly while its gate is open. In the source, when the effect re-runs with the gate still open, a new interval is created and the old one is not cleared. For example, Resume while rehearsing scrolls at double speed. The leak is not reproduced.
- Timer scheduling (`setInterval`, `clearInterval`), Solid's effect scheduling and the unmount cleanup (`src/components/Record.tsx:256-261`): ticks are explicit events. `LevelEffect` models dependency tracking for the level effect only.
- `scrollPosition` and `audioLevel` are exact reals, while the program uses IEEE doubles. `prev + scrollSpeed()` (line 221) with slider values in steps of 0.1 (line 444), such as 0.7, rounds at every tick, so `RecordProps.ScrollTicksDistance` (n × speed) and `RecordProps.ScrollTickIff` ("adds exactly the speed") hold in exact arithmetic only. The level's division by the bin count and by 255 (lines 201-202) also rounds; its bounds 0 and 1 and the silent and saturated cases are exact in doubles too.
- `NatToString`: renders every natural number in decimal. `Number.prototype.toString` switches to exponent notation from 10^21, which an elapsed time cannot reach.
- `MicLabel`: `slice(0, 8)` counts UTF-16 code units, while the model counts Dafny characters.
- `Download.ValidInstant`: accepts day 31 in every month. The instant comes from the platform clock, which never produces an impossible date.
- `Record.LevelTick`: the frame's length is fixed at the analyser's bin count, 128, half the FFT size of 256.
- Cosmetic state: teleprompter text, font size, the teleprompter and editor visibility toggles. These are plain setters with no logic. The speed slider and countdown select are modelled only as ranges (`SpeedChanged`, `DurationChosen`).
- Layout and the duplicated mobile and desktop markup, `alert` and `console.error`, and `parseInt`/`parseFloat` of control values.
- `src/components/ui/*.tsx`: presentational wrappers with no domain logic.

## Findings

| source | as written | input that shows it | evidently intended | confidence | as-written member | corrected member |
|---|---|---|---|---|---|---|
| src/components/Record.tsx:196-215 | the effect tests the plain variable `analyser` before reading `isRecording()` and `isPaused()`. At mount the analyser is null, so no signal is read, the effect gets no dependencies and never re-runs. No sampling timer starts and the meter stays at 0 | mount, press Start (access granted), let the countdown end: recording runs with an analyser and the meter never moves | the meter samples every 100 ms while recording unpaused and reads 0 otherwise | medium, not executed | `LevelEffect.AsWrittenNeverSamples`, `LevelEffect.LevelMeterStuckAtZero` | `LevelEffect.CorrectedTracksGate`; the session model samples under the corrected gate (`Record.LevelTick`, `Record.SettleLevel`) |
