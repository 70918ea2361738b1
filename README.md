# osu-preview playback core in Dafny

A model of the preview player in `popup/canvas.js` of osu-preview, a browser
extension that plays a scrub-able, audio-synchronised preview of an osu!
beatmap. Three pieces are modelled:

- **Time formatting** (`toTimeString`): milliseconds to `M:SS`, in module
  `TimeFormat` (time_format.dfy). The function follows JavaScript for every
  input, negative ones included: `Math.floor`, the truncating `%`, the printing
  of a negative number, and `substr(-2)`.
- **Timeline finalisation** (`processHitObjects`), in module `Timeline`
  (timeline.dfy). Hit objects are values held in an `array`, and the method
  rewrites each cell in place. The kind of an object is a closed datatype
  (circle, slider, spinner, hold) with its payload. It stands in for the
  `isSlider`/`isSpinner`/`isHold` predicates, and the tests keep their order:
  slider first, then spinner or hold, then the default. The timing-point lookup
  (`Array.find`) is a "first index satisfying the test" function that returns
  `None` where `find` gives `undefined`. The derived fields are `Option`s that
  start as `None` (undefined).
- **Playback clock and seek state machine** (the closure state of
  `playPreview`), in modules `Playback` (playback.dfy) and `Preview`
  (preview.dfy):
  - `Preview.PreviewSession` is a class with the fields `mapStartTime`,
    `startTime`, `seeking` and `waitingForSeek` and the constant `lastTime`.
    It has one method per handler: `Animate`, `Seeked`, `PointerDown`,
    `PointerMove` and `PointerUp`.
  - Each method is specified by a pure transition function in `Playback`.
    The lemmas are stated over those functions.
  - The wall clock, the audio position and the audio's paused flag are
    parameters. `Animate` takes two clock readings: the frame timestamp, used
    for drift correction, and a fresh reading, used for the shown time.
  - Audio commands (`Pause`, `SeekTo(seconds)`, `Play`) are returned in order.
  - Start-up (`Preview.PlayPreview`, specified by `Preview.Start`) selects the
    renderer, finalises the objects, reads the map length, resolves the start
    time, and positions and starts the audio. Each exception the source lets
    escape becomes a `StartError`.

Numbers are `real`. Wall-clock readings and map times are milliseconds;
audio positions are seconds, as in the source.

Behaviour of `canvas.js` that the model keeps and proves:

- The shown time is frozen only while `seeking` is set. After `pointerup` it
  is `now - startTime + mapStartTime` again, with `startTime` taken at the
  last `pointerdown` or `pointermove`. So on release the readout jumps ahead
  by however long the pointer was held still (`Playback.ReleaseRunsFromLastAnchor`,
  `Playback.DisplayFrozenIffSeeking`).
- `seeking` and `waitingForSeek` are two independent flags, and `pointerdown`
  does not clear `waitingForSeek`. So a drag can start while a seek is
  pending (`Playback.BothFlagsReachable`). A seek that completes during that
  drag resumes the audio while the pointer is still down
  (`Playback.SeekedDuringDragResumes`).
- A slider takes the first timing point in sequence order that starts at or
  before it. With timing points in ascending order, this is always the first
  timing point or none (`Timeline.SortedLookupIsFirstPoint`).

## Model

| member | source | states |
|---|---|---|
| `TimeFormat.ToTimeString` | popup/canvas.js:6-10 | `toTimeString` with JavaScript's floor, truncating `%`, number printing and `substr(-2)`, for every real input |
| `TimeFormat.ToTimeStringShape` | popup/canvas.js:6-10 | for a non-negative time the readout is the whole minutes (unbounded), a colon, and the seconds within the minute as exactly two digits |
| `TimeFormat.FloorDiv60` | popup/canvas.js:7-8 | flooring the time in minutes equals dividing the whole seconds by 60, so minutes and seconds agree |
| `TimeFormat.PaddedSeconds` | popup/canvas.js:9 | prefixing "00" and keeping the last two characters pads any seconds value below 100 to two digits |
| `TimeFormat.SixtyFiveSeconds` | popup/canvas.js:6-10 | 65000 ms reads "1:05" |
| `TimeFormat.OneHour` | popup/canvas.js:6-10 | 3600000 ms reads "60:00": no hour rollover |
| `TimeFormat.NegativeTimeMalformed` | popup/canvas.js:6-10 | a negative time gives a malformed readout: -500 ms reads "-1:-1" |
| `TimeFormat.ParseToTimeString` | popup/canvas.js:6-10 | reading the readout back gives exactly the whole seconds of a non-negative time |
| `TimeFormat.ToTimeStringInjective` | popup/canvas.js:6-10 | two non-negative times with the same readout lie in the same whole second |
| `Timeline.FindTimingPoint` | popup/canvas.js:16 | returns the lowest index whose timing point starts at or before the time; returns None exactly when every timing point starts later |
| `Timeline.Finalize` | popup/canvas.js:15-27 | one object's derived fields by kind, tested slider, then spinner or hold, then default; None for a slider without a timing point |
| `Timeline.SliderTiming` | popup/canvas.js:15-20 | a slider fails exactly when no timing point qualifies; otherwise it uses the lowest qualifying point, duration = distance/(100·sv)·ms per beat, endTime = time + duration·repetitions, and endPos is left as it was |
| `Timeline.SpinnerHoldTiming` | popup/canvas.js:21-23 | a spinner or hold ends at its own end time, at (256, 192) |
| `Timeline.CircleTiming` | popup/canvas.js:24-27 | any other object ends at its start time and at its own position |
| `Timeline.FinalizeTouchesOnlyDerived` | popup/canvas.js:13-28 | finalising keeps an object's time and payload and always sets endTime; a slider keeps its endPos, and the other kinds keep their duration |
| `Timeline.EndTimeNotBeforeStart` | popup/canvas.js:15-27 | with positive sv and beat lengths, non-negative distances and repetitions, and spinner/hold end times not before their start, every object ends no earlier than it starts |
| `Timeline.SortedLookupIsFirstPoint` | popup/canvas.js:16 | on ascending timing points the lookup yields index 0 or fails; a later tempo segment is never chosen |
| `Timeline.FirstMatchNotNearest` | popup/canvas.js:16 | with points at 0 and 500 ms, a slider at 1000 ms uses the point at 0 ms |
| `Timeline.FinalizeAll` | popup/canvas.js:13-28 | the objects finalised in order, or the index of the first one that fails |
| `Timeline.FinalizeAllAt` | popup/canvas.js:13-28 | whole-map finalisation succeeds exactly when every object can be finalised; it keeps length and order and finalises each object on its own; otherwise it reports the first object that fails |
| `Timeline.ProcessHitObjects` | popup/canvas.js:12-29 | in place, index by index: on success the array is the finalised map; on a slider without a timing point it reports that index, with the objects before it finalised and the rest untouched |
| `Playback.InitialState` | popup/canvas.js:48-49 | the closure state at start-up: previewTime, or 0.42·lastTime when negative (lines 67-69), anchored at now, both flags false (lines 75-76) |
| `Playback.Resync` | popup/canvas.js:80-89 | drift correction against the frame timestamp, only with no drag, no pending seek and no pause |
| `Playback.ResyncChangesIff` | popup/canvas.js:80-89 | the anchor moves if and only if there is no drag, no pending seek and no pause, and the audio differs from the expected time by strictly more than 100 ms |
| `Playback.ResyncReanchors` | popup/canvas.js:85-88 | a correction anchors the map time at the frame timestamp to the audio position and leaves both flags alone |
| `Playback.ResyncBoundaryTolerated` | popup/canvas.js:85 | a drift of exactly 100 ms changes nothing |
| `Playback.ResyncBoundsDrift` | popup/canvas.js:80-89 | after a frame in which correction ran, audio and clock agree within 100 ms at the frame timestamp |
| `Playback.ResyncIdempotent` | popup/canvas.js:80-89 | a second correction against the same reading changes nothing |
| `Playback.DisplayTime` | popup/canvas.js:91 | `mapStartTime` while seeking, otherwise the map time at the fresh clock reading |
| `Playback.MapTime` | popup/canvas.js:82 | the map time at a clock reading from the anchor pair, `t - startTime + mapStartTime` (also line 91) |
| `Playback.SyncEnabled` | popup/canvas.js:80 | drift correction runs only with no drag, no pending seek and the audio playing |
| `Playback.DisplayFrozenIffSeeking` | popup/canvas.js:91 | the shown time ignores the wall clock if and only if a drag is in progress |
| `Playback.DisplayTracksClock` | popup/canvas.js:91 | out of a drag the shown time advances exactly as the wall clock does |
| `Playback.Readout` | popup/canvas.js:93 | "elapsed / total" with elapsed capped at the total |
| `Playback.Progress` | popup/canvas.js:94 | time/lastTime, unclamped; None where JavaScript divides by zero |
| `Playback.RenderFrame` | popup/canvas.js:91-97 | the time one frame shows and hands to the renderer, its readout and its progress value |
| `Playback.ReadoutCappedPastEnd` | popup/canvas.js:93 | past the end of the map the readout shows the total on both sides |
| `Playback.ProgressUnclamped` | popup/canvas.js:94 | past the end the progress fraction exceeds 1 |
| `Playback.PastEndExample` | popup/canvas.js:91-94 | 3000 ms into a 2000 ms map gives "0:02 / 0:02" and progress 1.5 |
| `Playback.DragTime` | popup/canvas.js:124-125 | max(0, x − left)/width·lastTime |
| `Playback.DragTimeRange` | popup/canvas.js:124-125 | the dragged time is never negative, is 0 left of the bar, and is offset/width·lastTime on or right of the left edge |
| `Playback.DragTimeNoUpperClamp` | popup/canvas.js:124-125 | a pointer right of the bar drags past the end of the map |
| `Playback.DragTimeMonotone` | popup/canvas.js:133-134 | a pointer further right never gives an earlier time |
| `Playback.DragMidpoint` | popup/canvas.js:123-125 | the bar's midpoint over a 2000 ms map is 1000 ms |
| `Playback.OnPointerDown` | popup/canvas.js:120-129 | the state and audio commands of `pointerdown` |
| `Playback.ReleaseRunsFromLastAnchor` | popup/canvas.js:91-141 | after down then up, the shown time is the dragged time plus the time elapsed since the press: the readout jumps ahead on release |
| `Playback.PointerDownEffect` | popup/canvas.js:120-129 | pointerdown pauses the audio, sets seeking, keeps waitingForSeek, anchors at the current time and freezes the display at the dragged time |
| `Playback.OnPointerMove` | popup/canvas.js:130-137 | the state after `pointermove` |
| `Playback.PointerMoveOnlyWhileSeeking` | popup/canvas.js:130-137 | pointermove changes nothing outside a drag; during one it leaves both flags and shows the dragged time |
| `Playback.OnPointerUp` | popup/canvas.js:138-146 | the state and audio commands of `pointerup` |
| `Playback.PointerUpEffect` | popup/canvas.js:138-146 | pointerup during a drag clears seeking, sets waitingForSeek and requests mapStartTime/1000 s; otherwise it does nothing |
| `Playback.OnSeeked` | popup/canvas.js:104-116 | the state and audio commands of `onSeeked` |
| `Playback.SeekedEffect` | popup/canvas.js:104-116 | a completed seek while waiting re-anchors at the audio position, clears waitingForSeek, keeps seeking and plays; otherwise it does nothing |
| `Playback.SeekCycle` | popup/canvas.js:104-146 | down, up, seeked from playing issues Pause, SeekTo(dragged/1000), Play, ends with both flags clear, anchored at the actual audio time, and re-enables drift correction |
| `Playback.BothFlagsReachable` | popup/canvas.js:120-146 | from start-up, down, up, down sets seeking and waitingForSeek together |
| `Playback.SeekedDuringDragResumes` | popup/canvas.js:104-122 | a seek completing during a drag plays the audio and the drag continues |
| `Playback.Step` | popup/canvas.js:78-146 | one handler call (a frame or one of the four listeners), with the audio commands it issues |
| `Playback.Run` | popup/canvas.js:78-146 | handler calls one after another, with every audio command issued on the way |
| `Playback.RunKeepsAnchorNonNegative` | popup/canvas.js:78-146 | over any sequence of handler calls on a map of non-negative length, with non-negative audio readings and from a non-negative anchor, the anchor stays non-negative and no seek goes before the start |
| `Playback.InitialAnchorNonNegative` | popup/canvas.js:67-76 | the start-up anchor is non-negative for a non-negative map length, with both flags clear |
| `Preview.RendererFor` | popup/canvas.js:54-55 | a renderer exists exactly for modes 0 (osu!) and 3 (mania) |
| `Preview.LastTime` | popup/canvas.js:64-65 | the end time of the last object; None for an empty map or an unfinalised last object |
| `Preview.Start` | popup/canvas.js:48-76 | start-up in the source's order: renderer, finalisation, map length, start time, audio commands |
| `Preview.StartOutcome` | popup/canvas.js:48-76 | start-up checks, in order: unsupported mode, then the first slider without a timing point, then an empty map, and succeeds exactly when all three pass; on success the objects are the input finalised one by one, the renderer is that of the mode, lastTime is the last finalised object's endTime, the start is previewTime or 0.42·lastTime when previewTime is negative, both flags are clear, and the audio is sent to start/1000 s and played |
| `Preview.DefaultStartScenario` | popup/canvas.js:64-69 | two circles at 0 and 1000 ms with a negative preview time: length 1000 ms, start 420 ms |
| `Preview.LastTimeIsNotLatestEnd` | popup/canvas.js:64-65 | a 5000 ms spinner followed by a circle at 1000 ms gives a map length of 1000 ms |
| `Preview.PreviewSession.constructor` | popup/canvas.js:48-49 | the closure state starts as InitialState: moved to 42% for a negative preview time, anchored at now, no flags |
| `Preview.PreviewSession.Animate` | popup/canvas.js:78-100 | the frame's new state is the drift correction of the old one at the frame timestamp, and the frame is the time, readout and progress at the fresh clock reading |
| `Preview.PreviewSession.Seeked` | popup/canvas.js:104-116 | state and commands are those of OnSeeked |
| `Preview.PreviewSession.PointerDown` | popup/canvas.js:120-129 | state and commands are those of OnPointerDown |
| `Preview.PreviewSession.PointerMove` | popup/canvas.js:130-137 | state is that of OnPointerMove |
| `Preview.PreviewSession.PointerUp` | popup/canvas.js:138-146 | state and commands are those of OnPointerUp |
| `Preview.PlayPreview` | popup/canvas.js:40-76 | returns Start's outcome, with the objects finalised in place; an unsupported mode leaves them untouched, and a missing timing point leaves them partly finalised |

## Left out

- Drawing: the canvas context, `translate`, `clearRect`, `renderer.render`, and the osu! and mania renderers (`./renderers/osu`, `./renderers/mania`). They are not part of this model. Only the choice of renderer kind is modelled; `Frame.time` is the value handed to `render`.
- `isSlider`, `isSpinner` and `isHold` from `./renderers/utils` are not part of this model. A closed datatype of kinds replaces them.
- DOM side effects: the readout text and the progress value are returned in a `Frame` instead of being written. Adding and removing the `seeking` CSS class is not modelled. The bar's bounding rectangle is passed as `left` and `width`.
- Listener registration, `requestAnimationFrame` scheduling and the endless frame loop. Each handler is one atomic method call.
- `performance.now()` and the audio element are parameters. The promise returned by `audio.play()` and its swallowed rejection are not modelled: `Play` is only a recorded command.
- IEEE-754 rounding: numbers are reals. JavaScript prints integers of magnitude 10^21 and above in exponent notation, and `ToTimeString` does not model that format. JavaScript's negative zero does not exist in the model.
- `Timeline.ProcessHitObjects`, `Timeline.Finalize`, `Timeline.FinalizeAll`, `Preview.Start` and `Preview.PlayPreview` require `sv != 0`, although only sliders divide by it. A zero scroll velocity gives Infinity or NaN in JavaScript, and a map with no slider would not divide at all.
- `Preview.PreviewSession.PointerDown`, `Preview.PreviewSession.PointerMove`, `Playback.DragTime`, `Playback.OnPointerDown` and `Playback.OnPointerMove` require a bar of positive width, and `Playback.ValidEvent` admits pointer events only with a positive width. `Playback.RunKeepsAnchorNonNegative` also assumes the audio never reports a negative position (`Playback.NonNegativeReading`). A zero width gives NaN or Infinity in JavaScript.
- `Playback.Progress`: where `lastTime` is 0, JavaScript produces NaN or Infinity. The model returns `None`.
- The beatmap mode is an integer. Non-integer or non-numeric modes are not modelled.
- Payload fields that the core does not read are not in the datatype.
