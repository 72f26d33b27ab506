# Recording-session controller of video-recorder-backup

The repository holds four versions of one React recording screen: `RecorderV4.js`, `bringjal-video-recorderV2.js`, `bringjal-video-recorderV1.js` and `Recorder.js`. Each screen is a single-threaded, event-driven state machine:

- a camera stream is opened and closed;
- a three-second countdown starts a `MediaRecorder`;
- the recorder's `dataavailable` payloads are collected;
- its `stop` event turns them into a Blob (and, in V4, V2 and V1, a history entry);
- timers count the elapsed seconds and scroll a teleprompter.

RecorderV4.js also records through a canvas. An animation-frame loop draws the camera frame there, optionally through a CSS filter.

This project models that controller in Dafny. Every handler, effect and timer callback is an atomic method of a class that owns the screen's state. Browser facts the handler reads come in as parameters:

- whether `getUserMedia` grants a stream;
- what the webcam element holds;
- whether the canvas is mounted;
- `MediaRecorder.isTypeSupported`;
- the type a recorder reports for `{}` options;
- the current timestamp string.

Modules, one per file:

- `Media` (media.dfy): bytes, chunks and `Concat`, Blobs, history entries, the webcam as the handlers see it, and notices.
- `Formats` (formats.dfy): both `formatTime` functions, and the download file names with their character replacement.
- `MimeTypes` (mime.dfy): the ordered format pick and the options objects.
- `Teleprompter` (teleprompter.dfy): the speed clamp, and the `Scroller` class (speed, interval ref, running intervals, `scrollTop`).
- `Devices` (devices.dfy): `DeviceStreams`, the stream held in `streamRef` and the set of streams requested by `openCamera` and `toggleCamera` whose tracks still run.
- `Encoding` (encoder.dfy): `Encoder`, a `MediaRecorder` together with its closure `chunks` array. Its invariant is that the delivered chunks followed by the pending bytes are exactly the bytes encoded, so no byte is lost or reordered.
- `Compositor` (compositor.dfy): RecorderV4.js's `processVideoFrame` as a sequence of drawing passes, and the frame-loop ref.
- `RecorderV4`, `RecorderV2`, `RecorderV1`, `RecorderBasic` (recorder_v4.dfy, recorder_v2.dfy, recorder_v1.dfy, recorder_basic.dfy): one `Recorder` class per screen.
- `Scenarios` (scenarios.dfy): whole sessions driven through the handlers, each ending in a concrete outcome.

Each `Recorder` class keeps an invariant `Valid()` that every handler preserves:

- `isRecording`/`isPaused` mirror the recorder's state;
- the elapsed timer runs exactly while recording unpaused, so `recordTime` cannot move while paused;
- the countdown is at most 3 and never runs during a recording;
- the prompter interval runs only while recording unpaused, at the current speed, and at most one runs;
- `recordedChunks` is the tail of the current recorder's closure array, so chunks keep their arrival order;
- the selected history entry (V4, V2) or preview (V1) is in the history;
- of the streams `openCamera` and `toggleCamera` request, every one still running is the one `streamRef` holds, in all variants except V1 (see Findings);
- in V4, a scheduled frame is recorded in its ref.

The countdown's `disabled={countdown !== null}` guards on Record, Switch Camera and Close become `requires countdown == None`. React's batching of state updates is modelled where it decides the outcome. Example: a throw after `setCountdown(null)` still clears the countdown, because the update is batched with the `catch`.

## Model

| member | source | states |
|---|---|---|
| Media.ConcatAppend | RecorderV4.js:412-418 | appending a chunk to the list appends its bytes to the Blob, so the Blob is the chunks in arrival order |
| Formats.NatToString | RecorderV4.js:569 | `n.toString()` is a digit string of value `n` with no leading zero, one digit below 10 and two below 100 |
| Formats.PadZeros | RecorderV4.js:569 | `padStart(width, '0')` keeps a digit string's value and makes it exactly `width` long when shorter |
| Formats.FormatTime | RecorderV4.js:566-570 | the label is `mm:ss`: the part after the colon is two digits below 60, and minutes·60 + seconds gives back the input; it is five characters below 100 minutes (same code at bringjal-video-recorderV2.js:363-367 and bringjal-video-recorderV1.js:328-332) |
| Formats.ClockField | Recorder.js:272 | a field below 60 with a `'0'` in front of values below 10 is two digits of that value |
| Formats.ClockArithmetic | Recorder.js:269-271 | minutes `(s % 3600) / 60` and seconds `s % 60` are below 60, hours·3600 + minutes·60 + seconds gives back `s`, and hours are 0 exactly below 3600 |
| Formats.FormatTimeWithHours | Recorder.js:268-273 | below an hour the label is `mm:ss` and encodes the input; from an hour on it is `h:mm:ss`, and hours·3600 + minutes·60 + seconds gives back the input; minutes and seconds are always two digits below 60 |
| Formats.ReplaceChars | RecorderV4.js:490 | `replace(/[…]/g, c)` keeps the length and replaces exactly the listed characters, position by position |
| Formats.VideoFileName | RecorderV4.js:490 | the name is `video_` + timestamp + `.webm`, with each `/`, `:` and `\` of the timestamp replaced by `-` and none left in the middle part |
| Formats.RecordedFileName | Recorder.js:254-256 | the name is `recorded-video-` + ISO timestamp + `.webm`, with each `:` and `.` of the timestamp replaced by `-` and none left in the middle part |
| Formats.SanitiseIdempotent | Recorder.js:254 | sanitising a sanitised timestamp changes nothing |
| MimeTypes.FirstSupportedIndex | RecorderV4.js:398 | the index found is accepted and every earlier type is rejected; None means every type is rejected |
| MimeTypes.PickMimeType | RecorderV4.js:391-401 | `find` returns an accepted type from the list, and `undefined` exactly when none is accepted |
| MimeTypes.PickIsFirstAccepted | bringjal-video-recorderV2.js:212-218 | a type at position `k` is the pick whenever it is accepted and no earlier type is |
| MimeTypes.PreferredOptions | Recorder.js:161-168 | the options name vp9 when it is supported, otherwise webm when supported, otherwise `{}`; this is the first-accepted pick over [vp9, webm] and never fails |
| Teleprompter.ClampSpeed | RecorderV4.js:129-131 | the new speed is within [0.5, 10], equals `prev + change` when that is in range, and otherwise is the bound it crossed |
| Teleprompter.ButtonsStayOnHalfGrid | RecorderV4.js:660-667 | starting from a multiple of 0.5 in range, each ±0.5 arrow press moves the speed one half-step, saturating at 0.5 and 10 |
| Teleprompter.Scroller.Adjust | RecorderV4.js:129-131 | the speed becomes the clamp of old speed plus change; the interval and the scroll position are untouched |
| Teleprompter.Scroller.Start | RecorderV4.js:111-118 | the old interval is cleared before a new one starts, so exactly one interval runs, at the current speed |
| Teleprompter.Scroller.Stop | RecorderV4.js:122-127 | no interval runs afterwards and the ref is cleared |
| Teleprompter.Scroller.Tick | RecorderV4.js:113-117 | one firing scrolls by the speed the interval captured, and only when the prompter element exists |
| Devices.AtMostOneLive | RecorderV4.js:166-203 | when every running requested stream is the held one, at most one requested stream runs |
| Devices.DeviceStreams.StopTracks | RecorderV4.js:168-171 | the held stream stops running, the ref keeps it, and when nothing leaked no requested stream runs afterwards |
| Devices.DeviceStreams.Acquire | RecorderV4.js:185 | a granted request yields a new, previously unused stream that now runs; a refusal changes nothing |
| Devices.DeviceStreams.Hold | RecorderV4.js:188 | the ref holds the given stream; which streams run is unchanged |
| Devices.DeviceStreams.StopStream | bringjal-video-recorderV1.js:101-124 | stops one stream the ref does not hold; used by the corrected `openCamera` |
| Devices.DeviceStreams.Release | RecorderV4.js:544-547 | the held stream stops and the ref is cleared; when nothing leaked no requested stream runs afterwards |
| Encoding.Encoder.Start | RecorderV4.js:447 | `start(timeslice)` moves an inactive recorder to recording with that timeslice, keeping the no-loss invariant |
| Encoding.Encoder.Capture | RecorderV4.js:409 | encoded bytes are added to the pending buffer and to everything captured; nothing is delivered |
| Encoding.Encoder.Emit | RecorderV4.js:412-418 | a `dataavailable` hands out all pending bytes; a non-empty payload is appended to the closure array, an empty one is dropped |
| Encoding.Encoder.Pause | RecorderV4.js:513 | `pause()` leaves the recorder paused with its bytes untouched |
| Encoding.Encoder.Resume | RecorderV4.js:517 | `resume()` leaves the recorder recording with its bytes untouched |
| Encoding.Encoder.Stop | RecorderV4.js:502 | `stop()` makes the recorder inactive at once and queues a last `dataavailable` followed by `stop` |
| Encoding.Encoder.Finish | RecorderV4.js:420-423 | at the `stop` event the closure array's Blob is every byte ever encoded, and it is empty exactly when no chunk arrived |
| Encoding.NonEmptyChunks | RecorderV4.js:422 | for non-empty chunks, `chunks.length > 0` and "the Blob has content" are the same test |
| Compositor.FramePasses | RecorderV4.js:76-101 | a frame makes 3 drawing calls, or 7 when a filter other than `none` is active |
| Compositor.FitToVideo | RecorderV4.js:70-74 | the canvas is resized (and so cleared) only when its width differs from the video's; otherwise it is untouched |
| Compositor.FrameShowsFilteredCamera | RecorderV4.js:64-101 | whatever the canvas showed before, a frame shows the camera frame filtered exactly once by the active filter (unfiltered for `none`), leaves that filter on the context, and keeps the video's width |
| Compositor.FramesKeepSize | RecorderV4.js:70-74 | once the canvas matches the video, later frames never change its size |
| Compositor.SizeToVideo | RecorderV4.js:365-369 | assigning the size in `startActualRecording` gives the video's dimensions and a cleared bitmap, and later frames keep that width |
| Compositor.StartCanvas | RecorderV4.js:365-374 | after the start the canvas has the video's size; it shows the filtered camera frame when the loop was started here, and nothing when the ref claimed a running loop |
| Compositor.FrameFired | RecorderV4.js:64-105 | a frame with the camera view present schedules the next and sets the ref; without it the loop stops but the ref keeps its old value |
| Compositor.EnsureLoop | RecorderV4.js:371-374 | the ref is set afterwards; a frame is scheduled if the ref was clear, and nothing changes if it was set |
| Compositor.CancelLoop | RecorderV4.js:435-439 | after `cancelAnimationFrame` and clearing, no frame is scheduled and the ref is clear |
| Compositor.FrameFiredClearingRef | RecorderV4.js:104 | the intended callback: with the view present the loop continues, and without it both the schedule and the ref are cleared |
| Compositor.DeadLoopNotRestarted | RecorderV4.js:64-105 | as written, a loop that stopped for lack of a camera view keeps its ref set, and a later start does not reschedule it |
| Compositor.CorrectedLoopRestarts | RecorderV4.js:372-374 | with the ref cleared on stop, "ref set ⇒ frame scheduled" is preserved by every loop operation, and every start leaves a frame scheduled |
| RecorderV4.AttemptStart | RecorderV4.js:359-401 | the start succeeds iff the video and canvas exist, the stream exists and a type is supported; it then records the first supported type of the list; each failure is named by the first check that fails |
| RecorderV4.Recorder.SyncScrolling | RecorderV4.js:158-164 | after the scrolling effect, an interval runs at the current speed iff recording, not paused and the prompter is mounted |
| RecorderV4.Recorder.EditScript | RecorderV4.js:601-606 | the script becomes the text typed |
| RecorderV4.Recorder.OpenCamera | RecorderV4.js:166-203 | the old stream is stopped first; a grant opens the camera on a new stream that is the only requested stream still running, and a refusal reports an access error with no requested stream running |
| RecorderV4.Recorder.ToggleCamera | RecorderV4.js:205-241 | the facing mode flips even when the request fails; a grant holds a new stream facing that way as the only requested stream still running, and a refusal reports a switch error with no requested stream running |
| RecorderV4.Recorder.StartRecording | RecorderV4.js:243-249 | without a webcam stream it reports and leaves the countdown unset; otherwise the countdown starts at 3 |
| RecorderV4.Recorder.CountdownTick | RecorderV4.js:144-156 | each tick lowers the countdown by exactly 1, and the start is due exactly when it reaches 0 |
| RecorderV4.Recorder.StartActualRecording | RecorderV4.js:359-466 | without video or canvas: error, countdown left at 0, nothing else changed. Otherwise the canvas is sized and drawn, the frame loop ensured, and the stream decides the outcome: missing stream leaves countdown 0, no supported type clears countdown and chunks and cancels the loop, success gives a fresh recorder with the first supported type and 2.5 Mbps/128 kbps; whether it records, the type recorded and the reported failure are those `AttemptStart` predicts |
| RecorderV4.Recorder.StartWithView | RecorderV4.js:365-466 | the part after the view check: canvas, loop filter and frame loop as above, and the stream outcome |
| RecorderV4.Recorder.StartFromStream | RecorderV4.js:377-466 | the stream outcome with the loop already ensured: cancelled on failure, kept on success |
| RecorderV4.Recorder.AbortStart | RecorderV4.js:455-465 | a throw before any state update reports the reason, leaves nothing recording and cancels the frame loop |
| RecorderV4.Recorder.AbortWithoutFormat | RecorderV4.js:385-401 | with the batched updates before the throw: not recording, chunks cleared, countdown cleared, loop cancelled, format error |
| RecorderV4.Recorder.PrepareFrames | RecorderV4.js:365-374 | the canvas is sized and, unless the ref was set, drawn with the active filter, which the new loop keeps |
| RecorderV4.Recorder.BeginRecording | RecorderV4.js:403-453 | a fresh recorder with the chosen type and bit rates is recording with a 1000 ms timeslice and nothing captured; recording flags and timer on; scrolling synchronised |
| RecorderV4.Recorder.OnAnimationFrame | RecorderV4.js:64-106 | one frame: drawn through the filter the loop captured when the view is present, the loop as in `FrameFired` |
| RecorderV4.Recorder.OnAnimationFrameClearingRef | RecorderV4.js:104 | the intended frame: as above, but a frame without the view also clears the ref, so a set ref always names a scheduled frame |
| RecorderV4.Recorder.OnCapture | RecorderV4.js:377-383 | bytes encoded from the canvas stream are captured while recording |
| RecorderV4.Recorder.OnDataAvailable | RecorderV4.js:413-418 | a non-empty payload is appended both to the closure array and to `recordedChunks`, in arrival order; an empty one to neither |
| RecorderV4.Recorder.OnRecorderStop | RecorderV4.js:420-444 | when chunks arrived, the Blob of all captured bytes with the chosen type becomes the preview and is prepended to the history stamped `now` (older entries keep their order); otherwise nothing is added; the frame loop is cancelled either way |
| RecorderV4.Recorder.HandlePlayedVideoFromList | RecorderV4.js:475-479 | the clicked entry is selected and previewed |
| RecorderV4.Recorder.SaveVideo | RecorderV4.js:481-498 | with no selection only an error is set; otherwise the selected entry's bytes are downloaded as `video_<sanitised timestamp>.webm`, and they are a history entry's bytes |
| RecorderV4.Recorder.StopRecording | RecorderV4.js:500-508 | a no-op when the recorder is absent or inactive; otherwise the recorder stops, recording, pause, timer and scrolling end, and no byte is lost |
| RecorderV4.Recorder.TogglePause | RecorderV4.js:510-525 | acts only while recording: flips pause, the recorder follows, the timer runs exactly when unpaused, and scrolling is synchronised |
| RecorderV4.Recorder.TimerTick | RecorderV4.js:450-453 | one second of the timer adds 1 to `recordTime`; it can only fire while recording unpaused |
| RecorderV4.Recorder.ClosePreview | RecorderV4.js:539-541 | preview mode ends |
| RecorderV4.Recorder.CloseCamera | RecorderV4.js:543-564 | no requested stream runs and the ref is clear; camera, recording, pause, timer, time, preview, chunks, error and countdown are reset; the history is untouched; recorder and frame loop are not stopped |
| RecorderV4.Recorder.ClearSession | RecorderV4.js:548-563 | the state resets of `closeCamera` |
| RecorderV4.Recorder.AdjustScrollSpeed | RecorderV4.js:129-131 | the speed becomes the clamp of old speed plus change, and a running interval picks up the new speed |
| RecorderV4.Recorder.ScrollTick | RecorderV4.js:113-117 | the prompter scrolls by the current speed when mounted |
| RecorderV4.Recorder.DismissError | RecorderV4.js:45-53 | the error timeout clears the error |
| RecorderV2.AttemptStart | bringjal-video-recorderV2.js:176-228 | the start succeeds iff the stream exists with a video and an audio track and a type is supported, and then records the first supported type; each failure is named by the first check that fails, in source order |
| RecorderV2.SelectMimeType | bringjal-video-recorderV2.js:212-218 | the `for`/`break` loop selects exactly the first supported type of the list, or none |
| RecorderV2.Recorder.SyncScrolling | bringjal-video-recorderV2.js:73-79 | an interval runs at the current speed iff recording, not paused and the prompter is mounted |
| RecorderV2.Recorder.EditScript | bringjal-video-recorderV2.js:20-26 | the script becomes the text typed |
| RecorderV2.Recorder.OpenCamera | bringjal-video-recorderV2.js:81-122 | the old stream is stopped first; a grant opens the camera on a new stream that is the only requested stream still running, and a refusal reports an access error |
| RecorderV2.Recorder.ToggleCamera | bringjal-video-recorderV2.js:124-164 | the old stream is stopped and the facing mode flips before the request, so the flip persists on failure; a grant holds a new stream facing that way |
| RecorderV2.Recorder.StartRecording | bringjal-video-recorderV2.js:168-174 | without a webcam stream it reports and leaves the countdown unset; otherwise the countdown starts at 3 |
| RecorderV2.Recorder.CountdownTick | bringjal-video-recorderV2.js:59-71 | each tick lowers the countdown by exactly 1, and the start is due exactly at 0 |
| RecorderV2.Recorder.StartActualRecording | bringjal-video-recorderV2.js:176-270 | a missing stream, video track or audio track reports that reason with nothing changed, leaving the countdown stuck at 0; no supported type clears countdown and chunks; success is a fresh recorder on the first supported type with 2.5 Mbps/128 kbps, as `AttemptStart` predicts |
| RecorderV2.Recorder.CountdownStuck | bringjal-video-recorderV2.js:516-544 | the countdown shows 0 after its effect ran, with nothing recording; no handler leaves this state, which follows from the other handlers' requires (`countdown == None` on Record, Switch Camera and Close, a positive countdown on the tick, a pending start on the start) |
| RecorderV2.Recorder.StartActualRecordingClearingCountdown | bringjal-video-recorderV2.js:179-201 | the intended start: the same outcomes, but every failure also ends the countdown, so the screen is never stuck |
| RecorderV2.Recorder.AbortStartClearingCountdown | bringjal-video-recorderV2.js:265-269 | the intended `catch` for a failed check: reason reported, nothing recording, countdown ended |
| RecorderV2.Recorder.StartWithTracks | bringjal-video-recorderV2.js:198-264 | once the tracks are there: no supported type is a batched failure with countdown and chunks cleared; otherwise recording begins on the picked type |
| RecorderV2.Recorder.AbortStart | bringjal-video-recorderV2.js:265-269 | a throw before any state update reports the reason and leaves nothing recording |
| RecorderV2.Recorder.AbortWithoutFormat | bringjal-video-recorderV2.js:198-222 | with the batched updates before the throw: not recording, chunks and countdown cleared, format error |
| RecorderV2.Recorder.BeginRecording | bringjal-video-recorderV2.js:224-264 | a fresh recorder with the picked type and bit rates is recording with a 1000 ms timeslice and nothing captured; flags and timer on |
| RecorderV2.Recorder.OnCapture | bringjal-video-recorderV2.js:231 | bytes encoded from the webcam stream are captured while recording |
| RecorderV2.Recorder.OnDataAvailable | bringjal-video-recorderV2.js:235-240 | a non-empty payload is appended to the closure array and to `recordedChunks`, in arrival order |
| RecorderV2.Recorder.OnRecorderStop | bringjal-video-recorderV2.js:242-257 | when chunks arrived, the Blob of all captured bytes is previewed and prepended to the history stamped `now`; otherwise nothing changes |
| RecorderV2.Recorder.HandlePlayedVideoFromList | bringjal-video-recorderV2.js:272-276 | the clicked entry is selected and previewed |
| RecorderV2.Recorder.SaveVideo | bringjal-video-recorderV2.js:278-295 | with no selection only an error is set; otherwise the selected entry's bytes are downloaded as `video_<sanitised timestamp>.webm` |
| RecorderV2.Recorder.StopRecording | bringjal-video-recorderV2.js:297-305 | a no-op when the recorder is absent or inactive; otherwise it stops, and recording, pause and timer end |
| RecorderV2.Recorder.TogglePause | bringjal-video-recorderV2.js:307-322 | acts only while recording: flips pause, the recorder follows, the timer runs exactly when unpaused |
| RecorderV2.Recorder.TimerTick | bringjal-video-recorderV2.js:315-317 | one second adds 1 to `recordTime`, only while recording unpaused |
| RecorderV2.Recorder.ClosePreview | bringjal-video-recorderV2.js:336-338 | preview mode ends |
| RecorderV2.Recorder.CloseCamera | bringjal-video-recorderV2.js:340-361 | no requested stream runs; recording, pause, timer, time, preview, chunks, error and countdown are reset; the history is untouched |
| RecorderV2.Recorder.ClearSession | bringjal-video-recorderV2.js:345-360 | the state resets of `closeCamera` |
| RecorderV2.Recorder.AdjustScrollSpeed | bringjal-video-recorderV2.js:44-46 | the speed becomes the clamp of old speed plus change |
| RecorderV2.Recorder.ScrollTick | bringjal-video-recorderV2.js:28-35 | the prompter scrolls by the current speed when mounted |
| RecorderV1.MobileOptions | bringjal-video-recorderV1.js:175-193 | the options are the first supported type of the mp4-first list with 1 Mbps/128 kbps, or `{}` |
| RecorderV1.ChooseOptions | bringjal-video-recorderV1.js:175-193 | the `for`/`break` loop leaves `{}` exactly when no type is supported, and otherwise the first supported type with the mobile bit rates |
| RecorderV1.BlobType | bringjal-video-recorderV1.js:207 | the Blob's type is never empty: the recorder's type, or `video/webm` when it reports none |
| RecorderV1.MobileBlobType | bringjal-video-recorderV1.js:175-207 | the Blob a V1 recording ends in is typed with the first supported type of the mp4-first list, and otherwise with the platform's own choice, or `video/webm` when that is empty; the type is never empty |
| RecorderV1.Recorder.SyncScrolling | bringjal-video-recorderV1.js:71-77 | an interval runs at the current speed iff recording, not paused and the prompter is mounted |
| RecorderV1.Recorder.EditScript | bringjal-video-recorderV1.js:20-24 | the script becomes the text typed |
| RecorderV1.Recorder.OpenCamera | bringjal-video-recorderV1.js:79-151 | as written: the held stream stops; when the mobile stream is granted but `applyConstraints` rejects, the fallback is requested without stopping it, so two requested streams run; each of the five grant/reject combinations ends in the stated stream set, ref, and error |
| RecorderV1.Recorder.OpenFallback | bringjal-video-recorderV1.js:124-146 | the fallback request: a grant opens the camera on a new stream, a refusal reports the access error |
| RecorderV1.Recorder.OpenCameraReleasingPrimary | bringjal-video-recorderV1.js:101-146 | the intended `openCamera`: the same outcomes, but the rejected stream is stopped first, so "every running stream is the held one" is preserved |
| RecorderV1.Recorder.ReleaseAndFallBack | bringjal-video-recorderV1.js:124-146 | the intended inner `catch`: the rejected stream stops, then the fallback decides as above |
| RecorderV1.Recorder.StartRecording | bringjal-video-recorderV1.js:153-159 | without a webcam stream it reports; otherwise the countdown starts at 3 |
| RecorderV1.Recorder.CountdownTick | bringjal-video-recorderV1.js:57-69 | each tick lowers the countdown by exactly 1, and the start is due exactly at 0 |
| RecorderV1.Recorder.StartActualRecording | bringjal-video-recorderV1.js:161-235 | the countdown always ends and chunks are cleared; a missing stream reports and nothing records; otherwise a fresh recorder uses `MobileOptions` (never failing), reports the requested or platform type, and records with a 1000 ms timeslice |
| RecorderV1.Recorder.AbortWithoutStream | bringjal-video-recorderV1.js:163-172 | with the batched updates before the throw: not recording, chunks and countdown cleared, stream error |
| RecorderV1.Recorder.BeginRecording | bringjal-video-recorderV1.js:195-229 | a fresh recorder with the given options is recording with a 1000 ms timeslice; flags and timer on |
| RecorderV1.Recorder.OnCapture | bringjal-video-recorderV1.js:195 | bytes encoded from the webcam stream are captured while recording |
| RecorderV1.Recorder.OnDataAvailable | bringjal-video-recorderV1.js:199-203 | a non-empty payload goes into the closure array only; `recordedChunks` stays empty |
| RecorderV1.Recorder.OnRecorderStop | bringjal-video-recorderV1.js:205-221 | always, even with no chunks, the Blob of all captured bytes, typed per `BlobType`, becomes the preview and is prepended; the history grows by exactly one and older entries keep their order |
| RecorderV1.Recorder.HandlePlayedVideoFromList | bringjal-video-recorderV1.js:277-284 | the clicked Blob is previewed |
| RecorderV1.Recorder.SaveVideo | bringjal-video-recorderV1.js:290-303 | it would download `recordedChunks` as `recorded-video-<ISO>.webm`, but since they stay empty it never downloads |
| RecorderV1.Recorder.SaveVideoFromPreview | bringjal-video-recorderV1.js:535-544 | the intended save: downloads exactly when a preview is shown, and the bytes are a whole recording from the history |
| RecorderV1.Recorder.StopRecording | bringjal-video-recorderV1.js:237-245 | a no-op when the recorder is absent or inactive; otherwise it stops, and recording, pause and timer end |
| RecorderV1.Recorder.TogglePause | bringjal-video-recorderV1.js:247-262 | acts only while recording: flips pause, the recorder follows, the timer runs exactly when unpaused |
| RecorderV1.Recorder.TimerTick | bringjal-video-recorderV1.js:226-228 | one second adds 1 to `recordTime`, only while recording unpaused |
| RecorderV1.Recorder.ClosePreview | bringjal-video-recorderV1.js:286-288 | preview mode ends |
| RecorderV1.Recorder.CloseCamera | bringjal-video-recorderV1.js:305-326 | the held stream stops and the ref is cleared, while a leaked stream keeps running; the session state is reset and the history kept |
| RecorderV1.Recorder.AdjustScrollSpeed | bringjal-video-recorderV1.js:42-44 | the speed becomes the clamp of old speed plus change |
| RecorderV1.Recorder.ScrollTick | bringjal-video-recorderV1.js:26-33 | the prompter scrolls by the current speed when mounted |
| RecorderBasic.Recorder.SyncScrolling | Recorder.js:62-69 | at most one interval: it runs at the current speed iff recording, not paused and the prompter is present |
| RecorderBasic.Recorder.EditScript | Recorder.js:75-77 | the script becomes the text typed |
| RecorderBasic.Recorder.ToggleScriptEdit | Recorder.js:79-81 | the prompter and its editor swap |
| RecorderBasic.Recorder.OpenCamera | Recorder.js:116-144 | the old stream is stopped first; a grant opens the camera on a new user-facing stream that is the only requested stream still running, and a refusal reports the access error |
| RecorderBasic.Recorder.StartRecording | Recorder.js:146-152 | without a webcam stream it reports; otherwise the countdown starts at 3 |
| RecorderBasic.Recorder.CountdownTick | Recorder.js:83-96 | each tick lowers the countdown by exactly 1, and the start is due exactly at 0 |
| RecorderBasic.Recorder.StartActualRecording | Recorder.js:154-201 | the countdown always ends; a missing stream reports and nothing records; otherwise a fresh recorder on `PreferredOptions` records with a 200 ms timeslice, with flags and timer on |
| RecorderBasic.Recorder.AbortWithoutStream | Recorder.js:156-170 | with the batched updates before the throw: not recording, chunks and countdown cleared, stream error |
| RecorderBasic.Recorder.BeginRecording | Recorder.js:170-195 | a fresh recorder with the given options is recording with a 200 ms timeslice and nothing captured |
| RecorderBasic.Recorder.OnCapture | Recorder.js:170 | bytes encoded from the webcam stream are captured while recording |
| RecorderBasic.Recorder.OnDataAvailable | Recorder.js:174-179 | a non-empty payload is appended to the closure array and to `recordedChunks`, in arrival order |
| RecorderBasic.Recorder.OnRecorderStop | Recorder.js:181-188 | the Blob of every captured byte, typed `video/webm`, replaces the preview |
| RecorderBasic.Recorder.PauseRecording | Recorder.js:203-215 | acts only when the recorder is `recording`: it pauses, the timer stops, and the pending bytes are flushed onto both chunk lists; otherwise nothing changes |
| RecorderBasic.Recorder.ResumeRecording | Recorder.js:217-231 | acts only when the recorder is `paused`: it resumes, the timer restarts, scrolling is synchronised; otherwise nothing changes |
| RecorderBasic.Recorder.StopRecording | Recorder.js:233-246 | when not inactive: the pending bytes are flushed, then the recorder stops, and recording, pause, timer and scrolling end; otherwise nothing changes |
| RecorderBasic.Recorder.SaveVideo | Recorder.js:248-266 | downloads exactly when `recordedChunks` is non-empty, as `recorded-video-<ISO>.webm`; after a complete recording the download is every byte encoded |
| RecorderBasic.Recorder.TimerTick | Recorder.js:192-195 | one second adds 1 to `recordTime`, only while recording unpaused |
| RecorderBasic.Recorder.CloseCamera | Recorder.js:99-114 | no requested stream runs; scrolling stops; recording, pause, timer, time, preview, chunks, error and countdown are reset |
| RecorderBasic.Recorder.ClearSession | Recorder.js:104-113 | the state resets of `closeCamera` |
| RecorderBasic.Recorder.AdjustScrollSpeed | Recorder.js:71-73 | the speed becomes the clamp of old speed plus change |
| RecorderBasic.Recorder.ScrollTick | Recorder.js:48-52 | the prompter scrolls by the current speed when present |
| Scenarios.StartedSession | Recorder.js:116-201 | opening the camera and counting 3, 2, 1, 0 leaves a fresh recorder recording with nothing captured |
| Scenarios.PauseResumeStop | Recorder.js:203-246 | recording [1,2], pausing, resuming, recording [3] and stopping leaves all three bytes in `recordedChunks` |
| Scenarios.PausedSessionSavesEverything | Recorder.js:248-266 | the whole session downloads exactly [1, 2, 3] |
| Scenarios.RejectedConstraintsLeakStream | bringjal-video-recorderV1.js:101-146 | granted, constraints rejected, fallback granted, then closed: stream 0 still runs |
| Scenarios.ReleasedStreamDoesNotOutliveClose | bringjal-video-recorderV1.js:305-309 | the same session with the intended `openCamera` leaves no requested stream running |
| Scenarios.StartedMobileSession | bringjal-video-recorderV1.js:79-235 | opening the camera and counting down leaves a recorder recording with nothing captured |
| Scenarios.RecordTwoBytes | bringjal-video-recorderV1.js:199-221 | recording [1,2] and stopping previews those two bytes |
| Scenarios.SaveAfterRecording | bringjal-video-recorderV1.js:290-303 | after that recording the Save button as written downloads nothing, and the intended save downloads [1, 2] |
| Scenarios.CountedDown | bringjal-video-recorderV2.js:59-71 | opening the camera and counting down makes the start due |
| Scenarios.MissingAudioTrack | bringjal-video-recorderV2.js:194-196 | with no audio track the countdown stays at 0 and is stuck as written, and is cleared by the intended start |
| Media.SuffixExtend | RecorderV4.js:412-418 | a tail of the closure array stays a tail when both grow by the same chunk, so `recordedChunks` keeps following the recorder's chunks |
| Media.Flip | RecorderV4.js:212-213 | switching the camera always changes the facing mode |
| Formats.LeadingZero | Recorder.js:272 | a `'0'` in front of a digit string keeps it a digit string of the same value |
| Formats.HoursLayout | Recorder.js:271-272 | in `h:mm:ss` with two-digit fields, the colons sit six and three characters from the end, and the hours, minutes and seconds can be read back from their positions |
| Compositor.RunAppend | RecorderV4.js:76-101 | drawing two lists of passes one after the other gives the same picture as drawing their concatenation |
| Teleprompter.Scroller.constructor | RecorderV4.js:37 | the prompter starts at speed 2, scrolled to the top, with no interval |
| Encoding.Encoder.constructor | RecorderV4.js:409 | `new MediaRecorder(stream, options)` is inactive with nothing encoded, keeps the options, and reports the requested type or the platform's choice |
| RecorderV4.Recorder.constructor | RecorderV4.js:20-43 | the screen starts with the camera closed, user-facing, no recorder, no countdown, nothing recorded, an empty history and no error |
| RecorderV2.Recorder.constructor | bringjal-video-recorderV2.js:7-26 | the screen starts with the camera closed, user-facing, no recorder, no countdown, nothing recorded, an empty history and no error |
| RecorderV1.Recorder.constructor | bringjal-video-recorderV1.js:7-24 | the screen starts with the camera closed, no recorder, no countdown, nothing recorded, an empty history and no error |
| RecorderV1.Recorder.ClearSession | bringjal-video-recorderV1.js:310-325 | the state resets of `closeCamera` |
| RecorderBasic.Recorder.constructor | Recorder.js:12-31 | the screen starts with the camera closed, not editing, no recorder, no countdown, no chunks, no preview and no error |

## Left out

- The teardown effect with `[timerInterval, videoURL]` dependencies is left out in all four screens (RecorderV4.js:133-142, the V2 variant's 48-57, the V1 variant's 46-55, Recorder.js:34-43). It stops `streamRef`'s tracks and clears the scroll interval on unmount and whenever the timer id or the preview URL changes. After `openCamera` that stream is not the one the `Webcam` element records. After a granted `toggleCamera` in V4 or V2 it is, so the cleanup that runs when a recording starts its timer stops the tracks being recorded (see the next lines).
- `<Webcam audio={true}>` acquires a stream of its own when it mounts, in all four screens (RecorderV4.js:615-627, bringjal-video-recorderV2.js:414-425, bringjal-video-recorderV1.js:377-387, Recorder.js:301-312). Until a camera switch, that is the stream the handlers check and record (`webcamRef.current.stream`). The `openCamera` of V4, V2 and V1 tries to hand its stream to the element, but the element is not mounted yet, because Open Camera is shown only while the camera is closed (RecorderV4.js:190-195, bringjal-video-recorderV2.js:109-114, bringjal-video-recorderV1.js:118-120 and 140-142). Recorder.js never hands its stream over. `Devices.DeviceStreams` counts only the streams `openCamera` and `toggleCamera` request. The Webcam's own stream is the `Webcam.stream` parameter, and the model does not say when its tracks stop.
- RecorderV4.Recorder.ToggleCamera and RecorderV2.Recorder.ToggleCamera: the hand-over of the granted stream to `webcamRef.current.stream` and `video.srcObject` is not modelled (RecorderV4.js:231-236, bringjal-video-recorderV2.js:154-159). Switch Camera is shown only inside the camera view, so that hand-over reaches the mounted element. From then on the stream later handlers check and record is the one `streamRef` holds. The model still takes it as the free `Webcam.stream` parameter, so it does not capture that tie, nor the teardown cleanup above stopping that stream's tracks once a recording starts.
- What `MediaRecorder.mimeType` reports is an assumption about the platform, written as `MimeTypes.ReportedMimeType`: the requested type, or the platform's own choice (a parameter) for `{}` options.
- Object URLs, `revokeObjectURL`, the anchor-click download and `new Blob`: a Blob is its bytes and type, and a download is a file name and bytes.
- `console` output, the `try`/`catch` around downloads, `onstop` and DOM updates, and the browser errors those catches would report.
- `getUserMedia`, `applyConstraints`, `captureStream(30)` and the audio-track clone: each enters as an outcome parameter. Constraint values (resolution, frame rate) are not modelled.
- `processVideoFrame` draws into pictures, not pixels. The scratch canvas's own size and the `ctx.filter` CSS syntax are not modelled.
- Recorders replaced by a newer start keep their own closures. Their late events are not modelled; only the current recorder's events are.
- The error auto-dismiss timeout (RecorderV4.js:45-59) is one `DismissError` tick. The 1500 ms delay and the restart on a new error are not modelled.
- DOM `scrollTop` saturates at the end of the script. The model's `scrollTop` grows without bound.
- `handlePreview` (the V2 variant's 324-334 and the V1 variant's 264-274) is never called by the page. In RecorderV4.js it is commented out.
- `isEditingScript` and `showTeleprompter` in RecorderV4.js, V2 and V1 are presentation only. Only whether the prompter element is mounted is modelled.
- `webcamRef.current` being null inside `startActualRecording` throws a TypeError. The model folds it into the missing-stream case, since `Webcam.stream` is None then.
- FilterVideo.js and VideoRecorderContext.js are not part of this model. The active filter is a parameter, and `none` is the context's default.
- RecorderV1.Recorder.Valid: it does not include "every running stream is the held one", because the as-written `openCamera` breaks it (see Findings).
- RecorderBasic.Recorder.PauseRecording: the `dataavailable` that `requestData()` schedules is delivered within the handler. Nothing is encoded while paused, so its payload is the same.
- RecorderBasic.Recorder.StopRecording: the flush payload is delivered within the handler, and the `dataavailable` that `stop()` queues is then empty.
- The speed arrows are disabled while paused (and, in Recorder.js, while not recording). The `AdjustScrollSpeed` methods do not require that, and are stated for every state.
- RecorderBasic.Recorder.PauseRecording and RecorderBasic.Recorder.ResumeRecording require `isRecording`, because the Pause and Resume buttons exist only while recording (Recorder.js:368-385).

## Findings

| source | as written | input that shows it | evidently intended | confidence | as-written member | corrected member |
|---|---|---|---|---|---|---|
| RecorderV4.js:64-105 | the frame callback stops when the camera view is missing but leaves `frameProcessingRef` set, and `startActualRecording` only starts the loop when the ref is clear | a frame that fires while the webcam video is unmounted, then a new recording start | a stopped loop clears its ref, so the next start draws frames into the recorded canvas again | medium, not executed | Compositor.DeadLoopNotRestarted | Compositor.CorrectedLoopRestarts |
| bringjal-video-recorderV1.js:101-137 | when `applyConstraints` rejects, the `catch` requests the fallback stream without stopping the stream just granted | primary granted, constraints rejected, fallback granted, then Close | the rejected stream is stopped before falling back, so closing the camera releases it | high, not executed | RecorderV1.Recorder.OpenCamera | RecorderV1.Recorder.OpenCameraReleasingPrimary |
| bringjal-video-recorderV1.js:199-203, 290-303 | `saveVideo` downloads `recordedChunks`, which no handler fills, while the Save button is offered whenever a preview exists | any recording, then Save | Save downloads the recording the preview shows | high, not executed | RecorderV1.Recorder.SaveVideo | RecorderV1.Recorder.SaveVideoFromPreview |
| bringjal-video-recorderV2.js:179-196, 521-540 | a missing stream or track throws before `setCountdown(null)`, leaving the countdown at 0, while Record, Switch Camera and Close are disabled until it clears | a webcam stream without an audio track when the countdown ends | a failed start ends the countdown, as the batched updates already do for a missing format | high, not executed | RecorderV2.Recorder.StartActualRecording | RecorderV2.Recorder.StartActualRecordingClearingCountdown |

Scenarios.RejectedConstraintsLeakStream, Scenarios.SaveAfterRecording and Scenarios.MissingAudioTrack drive the inputs above through both halves of their rows, as verified method calls.

RecorderV4.js:361-363 has the same stuck countdown as the last row, for a missing camera view or stream. RecorderV4.Recorder.StartActualRecording states it: its contract leaves the countdown at 0 in those cases.
