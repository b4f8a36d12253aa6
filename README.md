# Browser audio recorder: recording session model

The recorder page captures microphone audio, shows a live frequency
visualizer while recording, and keeps a playlist of the finished clips
(play, download, delete). All of its logic lives in `script.js`: a handful of
module-level variables (`isRecording`, `mediaRecorder`, `audioChunks`,
`audioContext`/`analyser`, `animationId`, `timerInterval`) changed by event
handlers. This project models that state and those handlers in Dafny and
proves what they guarantee.

- `elapsed.dfy` (module `Elapsed`, pure): the `mm:ss` text the timer writes.
  `ParseElapsed` reads such a text back independently. The round trip, the
  field lemmas and the "same text iff same whole second" lemma say what the
  display means.
- `chunks.dfy` (module `Chunks`, pure): encoded fragments, the buffer rule
  (non-empty fragments are appended in arrival order) and the clip built from
  the buffer (`audio/webm`, the parts concatenated).
- `media.dfy` (module `Media`): the browser objects whose state the handlers
  change. These are the microphone `Track`s, the `Stream` holding them (its
  `StopTracks` is the `forEach(track => track.stop())` loop) and the
  `Recorder` (`MediaRecorder`).
- `script.dfy` (module `Script`): class `Session` holds the module-level
  variables as fields. Each browser event is a method: `Start`
  (`startRecording`, with a `SetupFault` naming the first browser call that
  throws), `OnData`, `OnRecorderStop`, `Stop`, `Frame` (an animation frame
  running `draw`), `Tick` (a timer interval firing), `KeyDown`,
  `ClickRecord` and `Delete`. Interval and frame handles are kept as sets of
  live handles, so a leaked timer or a second draw loop could be seen in the
  model. The phase predicates `Idle`, `Active` and `Draining` describe the
  page's single-loop discipline. `Draining` is the state after `Stop` and
  before the recorder's stop event: the draw loop still runs there.
- `scenarios.dfy` (module `Scenarios`): complete runs from a freshly loaded
  page through the handlers, and what each run ends with.

Behaviours of the code a reader might not expect, all kept by the model:

- `startRecording` itself does not reject a call while recording. Only its
  callers guard it: the key handler checks `isRecording`, and the record
  button is disabled while the UI shows recording. `Start` has no guard;
  `KeyDown` and `ClickRecord` carry it.
- When a setup call fails after the microphone was acquired, the catch path
  only shows an alert. It does not stop the acquired stream's tracks, and
  `Start` modifies nothing but the session. Recording state stays as it was,
  and no timer or draw loop starts.
- The guard of `draw` (`!isRecording && !analyser`) never stops the loop once
  the audio context exists. The loop keeps running after `stopRecording`
  until the recorder's stop event cancels the frame in `animationId`
  (`Draw`, `Frame`, `Draining`).
- The stop handler reads the module-level buffer, not one owned by its
  recording. A restart before the previous recorder's stop event sends that
  recorder's late fragment and clip to the wrong recording
  (`Scenarios.RestartBeforeStopEvent`).
- The main download button is disabled when a recording starts and enabled
  by every new clip, even one that arrives during a later recording
  (`Scenarios.RestartBeforeStopEvent`). It keeps saving the newest clip even
  after that clip is deleted (`Scenarios.DeleteNewest`).

## Model

| member | source | states |
|---|---|---|
| `Elapsed.NatToDecimal` | script.js:95-96 | `toString()` of a whole number: at least one digit, all digits, no leading zero for a positive number, one digit exactly below 10, at most two below 100 |
| `Elapsed.DecimalOfNatToDecimal` | script.js:95-96 | reading the decimal text of `n` gives back `n` |
| `Elapsed.PadStart` | script.js:95-96 | `padStart(width, fill)` has length max(\|s\|, width) |
| `Elapsed.PadStartShape` | script.js:95-96 | the padded text ends with the original text and holds only the fill character before it |
| `Elapsed.PadZeroKeepsValue` | script.js:95-96 | padding digits with '0' keeps them digits denoting the same number |
| `Elapsed.Field` | script.js:95-96 | a padded field has at least two characters, exactly two for values below 100 |
| `Elapsed.MinutesOfMilliseconds` | script.js:94-95 | `floor(floor(ms / 1000) / 60)` is `ms / 60000`, below 100 when ms is below 6,000,000 |
| `Elapsed.FormatElapsed` | script.js:93-97 | the display has at least 5 characters, exactly 5 (`mm:ss`) below 100 minutes |
| `Elapsed.FormatFields` | script.js:94-97 | the display has a colon third from the end. The minutes field before it has at least two digits and denotes ms / 60000. The seconds field after it has exactly two digits, denotes (ms / 1000) % 60, and starts with '0'..'5' |
| `Elapsed.FormatParseRoundTrip` | script.js:93-97 | reading the display back gives (ms / 60000, (ms / 1000) % 60) |
| `Elapsed.FormatSameSecond` | script.js:93-97 | two elapsed times show the same text if and only if they agree in whole seconds |
| `Chunks.Buffered` | script.js:115-121 | the buffer after a fragment sequence, starting from empty, is no longer than the sequence and holds only non-empty fragments |
| `Chunks.BufferedConcat` | script.js:117-124 | the bytes of the buffered fragments equal the bytes of all fragments: dropping empty ones loses nothing |
| `Chunks.BufferedAppend` | script.js:117-121 | buffering keeps arrival order: buffering two batches gives the first batch's buffer followed by the second's |
| `Chunks.BufferedMembers` | script.js:117-121 | a fragment is buffered if and only if it arrived and is non-empty |
| `Chunks.BufferedAllNonEmpty` | script.js:117-121 | fragments that are all non-empty are buffered unchanged |
| `Chunks.MakeClip` | script.js:124 | the clip is tagged `audio/webm` and its size is the total size of the buffered parts |
| `Chunks.ConcatAppend` | script.js:124 | the Blob of two part lists is the first's bytes followed by the second's |
| `Chunks.ConcatSize` | script.js:124 | the Blob's size is the sum of its parts' sizes |
| `Media.Track.Stop` | script.js:133 | a stopped track is ended |
| `Media.Stream.StopTracks` | script.js:133 | after the loop every track of the stream is ended |
| `Media.Recorder.constructor` | script.js:114 | a new recorder is bound to the given stream and inactive |
| `Media.Recorder.Start` | script.js:136 | the recorder is recording |
| `Media.Recorder.Stop` | script.js:150 | the recorder is inactive |
| `Script.Session.constructor` | script.js:10-19 | a loaded page is idle: no recorder, no context, empty buffer and playlist, display "00:00", download disabled |
| `Script.Session.InitAudioContext` | script.js:22-30 | afterwards the context exists and the sample buffer has 256 / 2 = 128 bins. A call with the context already created changes nothing |
| `Script.Session.Draw` | script.js:33-36 | when not recording and no analyser exists, nothing changes. Otherwise exactly one new frame handle is scheduled and remembered in `animationId`, and the canvas is painted |
| `Script.Session.Frame` | script.js:36 | only a scheduled frame runs. Running it replaces its handle by the next one and repaints the canvas; when the guard returns early, only its handle is used up. The Idle, Active and Draining phases are preserved |
| `Script.Session.StartTimer` | script.js:90-92 | one new interval is live and remembered in `timerInterval` |
| `Script.Session.StopTimer` | script.js:101-104 | the remembered interval is cleared and the display reads exactly "00:00" |
| `Script.Session.Tick` | script.js:92-97 | a live interval writes the formatted elapsed time; a cleared one changes nothing |
| `Script.Session.Prepare` | script.js:107-115 | the context is created unless acquisition or its constructor failed. The source taps the new stream once `createMediaStreamSource` returned, even when the following `connect` throws. A new inactive recorder on that stream and an empty buffer exist exactly when no earlier call threw. Otherwise recorder and buffer are as before |
| `Script.Session.Start` | script.js:106-146 | a failure shows one alert and keeps `isRecording`: no timer, frame or UI change. Success gives a fresh recording recorder on the stream, an empty buffer, one new timer and one new frame, the UI signal true and download disabled. From Idle it leads to Active, or back to Idle on failure |
| `Script.Session.Begin` | script.js:136-140 | the recorder records, `isRecording` is set, one timer and one frame are added, UI signals recording, download is disabled |
| `Script.Session.OnData` | script.js:117-121 | a non-empty fragment is appended at the end of the buffer; an empty one changes nothing |
| `Script.Session.AddToPlaylist` | script.js:177-231 | the clip goes to the front of the playlist and the download button is enabled and saves that clip |
| `Script.Session.OnRecorderStop` | script.js:123-134 | the clip of the buffered bytes, tagged `audio/webm`, goes to the front of the playlist and download is enabled. The frame in `animationId` is cancelled and the canvas cleared. Every track of that recorder's stream is ended. From Draining it leads to Idle |
| `Script.Session.Stop` | script.js:148-155 | without a recorder or while not recording, nothing changes. Otherwise (`Stopped`): the same recorder is inactive, `isRecording` and the UI signal are false, the remembered timer is cleared and the display reads "00:00"; buffer, draw loop, playlist, alerts and download button are as before. From Active it leads to Draining |
| `Script.Session.ClickRecord` | script.js:235 | while recording (button disabled) nothing changes. Otherwise it has the whole effect of `startRecording` (`Started`): one alert on failure; a fresh recorder on the stream with an empty buffer once the recorder is constructed, recorder and buffer kept before that; one new timer and frame, the UI signal on and download disabled exactly on success; display and playlist unchanged |
| `Script.Session.KeyDown` | script.js:239-246 | any key other than Space/KeyR when idle or KeyS/Escape when recording changes nothing. A start key when idle has the whole effect of `startRecording` (`Started`, as for `ClickRecord`). A stop key when recording has the whole effect of `stopRecording` (`Stopped`, as for `Stop`). A start key leaves the previous recorder's state alone |
| `Script.Session.Delete` | script.js:224-227 | exactly item `i` is removed and the rest keep their order. Download ends up enabled if and only if it was enabled and the list is still non-empty |
| `Scenarios.Record` | script.js:106-134 | a whole recording of one fragment on an idle session puts the clip of that fragment at the front and returns to Idle |
| `Scenarios.Feed` | script.js:117-121 | delivering a fragment sequence to an Active session with an empty buffer leaves exactly `Buffered` of the sequence in the buffer, the same recorder and the playlist unchanged |
| `Scenarios.StartFailures` | script.js:108-146 | a start key with the `MediaRecorder` constructor throwing leaves no recorder; with `start()` throwing, a recorder exists but recording stays off; each shows one alert |
| `Scenarios.RecordAgain` | script.js:157-163 | a click on the record button after one finished recording disables the download button and keeps the playlist |
| `Scenarios.FailedRestart` | script.js:106-146 | a start key whose setup fails after a stop, before the old recorder's stop event, leaves that recorder inactive and its stop event still builds the clip |
| `Scenarios.StopKeepsBuffer` | script.js:148-155 | Escape while recording leaves the buffered fragment and the playlist as they were |
| `Scenarios.StopAndDeliver` | script.js:123-155 | stopping an Active session and then delivering its recorder's stop event returns to Idle. The clip of the buffer goes to the front, the display reads "00:00" and the stream is released |
| `Scenarios.RecordOnce` | script.js:106-155 | start, fragments, stop and stop event give exactly one clip holding the fragments' bytes in arrival order. The microphone track is ended, nothing is recording, the display reads "00:00", and no timer or frame is left |
| `Scenarios.MicrophoneRefused` | script.js:106-145 | a refused microphone gives one alert, no recording, no timer or frame, no clip |
| `Scenarios.ThreeSecondsThenStop` | script.js:90-104 | the tick at 3000 ms shows "00:03", stopping shows "00:00", and exactly one clip arrives |
| `Scenarios.KeyboardSession` | script.js:239-246 | Space starts and R while recording creates no second recorder. Enter does nothing, Escape stops, S while stopped does nothing |
| `Scenarios.RestartBeforeStopEvent` | script.js:115-134 | restarting before the old recorder's stop event starts the new recording's buffer with the old recorder's final bytes. With an earlier fragment of the old recording also delivered, the old recording's clip holds only its late fragment. That clip enables the download button while the new recording runs |
| `Scenarios.DeleteNewest` | script.js:188-227 | deleting the newer of two clips leaves the older and keeps download enabled, but the button still saves the deleted clip |
| `Scenarios.DeleteOnly` | script.js:224-227 | deleting the only clip empties the list and disables download |

## Left out

- Canvas drawing in `draw` (script.js:44-87) is not modelled: the gradient colours, the bar geometry (`width / length * 2.5`, `/ 2`, `* 0.5`) and the `fillRect` calls are floating-point visual policy. `Draw` keeps the guard, the rescheduling and a `canvasPainted` flag.
- The analyser's samples (`getByteFrequencyData`) are foreign and not modelled; only the sample buffer's length, `binCount`, is kept.
- `getUserMedia`, `AudioContext`, `MediaRecorder` encoding, `URL.createObjectURL` and the anchor-click downloads are browser code. They are not modelled beyond a `Stream` of `Track`s, a `Recorder` state, the `SetupFault` parameter and the bytes of a `Clip`.
- Clocks are not modelled (`Date.now()`, the 1000 ms cadence of `setInterval`, `requestAnimationFrame` timing). `Tick` takes the elapsed milliseconds as a natural number, so a clock that goes backwards is outside the model. "One second more per tick" depends on the clock, not on this code.
- Interleavings while `getUserMedia` is pending are not modelled: each `Start` is atomic. Two key presses can both pass the guard before `isRecording` is set.
- `Script.Session.Start`: `ContextFails` means the `AudioContext` constructor threw, so nothing was assigned. `createAnalyser` throwing after a successful constructor is not modelled (it would leave the context set and the analyser undefined). A fault the code cannot reach (the constructor failing when the context already exists) is excluded by a requires.
- Earlier media-stream source nodes are never disconnected from the analyser in the code. The model keeps only the latest one (`source`).
- `updateUIState` class, label and icon changes, the item markup, the localised names and dates, and the per-item download buttons are not modelled. Only the recording signal `uiRecording`, `downloadEnabled` and the clip the main download button saves are kept.
- `console.error` and the alert text are not modelled; alerts are counted in `notices`.
- `Elapsed.NatToDecimal` writes plain decimal digits. JavaScript switches to exponent notation from 1e21 on, which the display would need more than 6e25 ms to reach.
- The page's initial markup (index.html) is not part of this model. The constructor assumes the display reads "00:00", download is disabled and the playlist is empty.
