/** bringjal-video-recorderV2.js: the same recording screen as RecorderV4.js
    without the canvas compositor. The webcam's own stream is recorded; before
    touching any state, `startActualRecording` checks that the stream exists and
    has a video and an audio track, and it picks the format with a `for` loop
    that stops at the first supported type. */
module RecorderV2 {
  import opened Media
  import opened Formats
  import opened MimeTypes
  import opened Teleprompter
  import opened Devices
  import opened Encoding

  const CountdownSeconds: nat := 3
  const VideoBitrate: nat := 2500000
  const AudioBitrate: nat := 128000
  /** The `start(1000)` timeslice, in milliseconds. */
  const Timeslice: nat := 1000

  /** How `startActualRecording` ends, check by check in source order: the stream,
      its video tracks, its audio tracks, then the format. */
  function AttemptStart(stream: Option<Tracks>, isTypeSupported: string -> bool): (o: StartOutcome)
    ensures o.Started? <==>
      stream.Some? && stream.value.videoTracks > 0 && stream.value.audioTracks > 0
      && PickMimeType(WebmFirst, isTypeSupported).Some?
    ensures o.Started? ==> Some(o.mimeType) == PickMimeType(WebmFirst, isTypeSupported)
    ensures o == Failed(StreamMissing) <==> stream.None?
    ensures o == Failed(NoVideoTrack) <==> stream.Some? && stream.value.videoTracks == 0
    ensures o == Failed(NoAudioTrack) <==>
      stream.Some? && stream.value.videoTracks > 0 && stream.value.audioTracks == 0
    ensures o.Failed? ==> o.reason in {StreamMissing, NoVideoTrack, NoAudioTrack, NoSupportedFormat}
  {
    if stream.None? then Failed(StreamMissing)
    else if stream.value.videoTracks == 0 then Failed(NoVideoTrack)
    else if stream.value.audioTracks == 0 then Failed(NoAudioTrack)
    else match PickMimeType(WebmFirst, isTypeSupported)
      case None => Failed(NoSupportedFormat)
      case Some(m) => Started(m)
  }

  /** The `for (const mimeType of mimeTypes)` loop: the first supported type, or
      none; the loop breaks at the first match. */
  method SelectMimeType(types: seq<string>, isTypeSupported: string -> bool) returns (selected: Option<string>)
    ensures selected == PickMimeType(types, isTypeSupported)
  {
    selected := None;
    for i := 0 to |types|
      invariant selected.None?
      invariant forall j :: 0 <= j < i ==> !isTypeSupported(types[j])
    {
      if isTypeSupported(types[i]) {
        PickIsFirstAccepted(types, isTypeSupported, i);
        selected := Some(types[i]);
        break;
      }
    }
  }

  class Recorder {
    const camera: DeviceStreams
    const scroller: Scroller
    /** `mediaRecorderRef.current`. */
    var recorder: Encoder?
    var isCameraOpen: bool
    var facing: Facing
    var script: string
    var countdown: Option<nat>
    /** The countdown has just reached 0 and the effect that starts recording is due. */
    var startPending: bool
    var isRecording: bool
    var isPaused: bool
    var recordTime: nat
    /** `timerInterval !== null`: the one-second recording timer runs. */
    var timerActive: bool
    var recordedChunks: seq<Chunk>
    var videoList: seq<Artifact>
    var selected: Option<Artifact>
    var videoURL: Option<Blob>
    var isPreviewMode: bool
    var error: Option<Notice>

    /** The teleprompter element exists: the camera view shows it while recording with a script. */
    predicate PrompterMounted()
      reads this
    {
      isCameraOpen && !isPreviewMode && script != "" && isRecording
    }

    /** The scrolling effect's condition. */
    predicate ScrollWanted()
      reads this
    {
      isRecording && !isPaused && PrompterMounted()
    }

    /** `recordedChunks` is the tail of what the current recorder has handed out
        (all of it, unless the camera was closed in between). */
    ghost predicate ChunksValid()
      reads this`recorder, this`recordedChunks, recorder
    {
      (recorder != null ==>
         recorder.Valid() && recorder.options.WithBitrates? && IsSuffix(recordedChunks, recorder.chunks))
      && (recorder == null ==> recordedChunks == [])
    }

    /** `isRecording` and `isPaused` mirror the current recorder's state, and the
        timer runs exactly while recording unpaused. */
    ghost predicate FlagsValid()
      reads this`recorder, this`isRecording, this`isPaused, this`timerActive, recorder
    {
      (isPaused ==> isRecording)
      && (isRecording ==> recorder != null && recorder.state == (if isPaused then Paused else Recording))
      && (timerActive <==> isRecording && !isPaused)
    }

    /** The countdown runs from 3 only while not recording. */
    ghost predicate CountdownValid()
      reads this`countdown, this`startPending, this`isRecording
    {
      (countdown.Some? ==> countdown.value <= CountdownSeconds && !isRecording)
      && (startPending ==> countdown == Some(0))
    }

    /** The prompter scrolls only while recording and not paused, at the current speed. */
    ghost predicate ScrollValid()
      reads this`isRecording, this`isPaused, scroller
    {
      scroller.Valid()
      && (scroller.intervalSet ==> isRecording && !isPaused && scroller.intervalSpeed == scroller.speed)
    }

    /** The selected history entry is one of the history's. */
    ghost predicate SelectionValid()
      reads this`selected, this`videoList
    {
      selected.Some? ==> selected.value in videoList
    }

    ghost predicate Valid()
      reads this, camera, scroller, recorder
    {
      camera.Valid() && camera.NoLeak()
      && ChunksValid() && FlagsValid() && CountdownValid() && ScrollValid() && SelectionValid()
    }

    constructor ()
      ensures Valid() && fresh(camera) && fresh(scroller)
      ensures recorder == null && !isCameraOpen && facing == User && script == ""
      ensures countdown == None && !isRecording && !isPaused && recordTime == 0
      ensures videoList == [] && selected == None && videoURL == None && error == None
      ensures camera.live == {}
    {
      camera := new DeviceStreams();
      scroller := new Scroller();
      recorder := null;
      isCameraOpen := false;
      facing := User;
      script := "";
      countdown := None;
      startPending := false;
      isRecording := false;
      isPaused := false;
      recordTime := 0;
      timerActive := false;
      recordedChunks := [];
      videoList := [];
      selected := None;
      videoURL := None;
      isPreviewMode := false;
      error := None;
    }

    /** The scrolling effect, run when `isRecording`, `isPaused` or the speed changed. */
    method SyncScrolling()
      requires scroller.Valid() && (ScrollWanted() ==> isRecording && !isPaused)
      modifies scroller
      ensures scroller.Valid()
      ensures scroller.speed == old(scroller.speed) && scroller.scrollTop == old(scroller.scrollTop)
      ensures ScrollWanted() ==> scroller.intervalSet && scroller.intervalSpeed == scroller.speed
      ensures !ScrollWanted() ==> !scroller.intervalSet
    {
      if ScrollWanted() {
        scroller.Start();
      } else {
        scroller.Stop();
      }
    }

    /** The script textarea. */
    method EditScript(text: string)
      requires Valid()
      modifies this`script
      ensures Valid() && script == text
    {
      script := text;
    }

    /** `openCamera`: stop the held stream's tracks, ask for a new stream with the
        current facing mode, and hold it. */
    method OpenCamera(granted: bool)
      requires Valid()
      modifies camera, this`isCameraOpen, this`error
      ensures Valid() && camera.nextId >= old(camera.nextId)
      ensures granted ==> (camera.current == Some(Stream(old(camera.nextId), facing))
          && camera.live == {old(camera.nextId)} && isCameraOpen && error == None)
      ensures !granted ==> (camera.current == old(camera.current) && camera.live == {}
          && isCameraOpen == old(isCameraOpen) && error == Some(CameraAccessFailed))
    {
      camera.StopTracks();
      var s := camera.Acquire(facing, granted);
      if s.Some? {
        camera.Hold(s.value);
        isCameraOpen := true;
        error := None;
      } else {
        error := Some(CameraAccessFailed);
      }
    }

    /** `toggleCamera`: stop the held stream, flip the facing mode, and ask for a
        stream facing the new way. The flip stands even when the request fails. */
    method ToggleCamera(granted: bool)
      requires Valid() && countdown == None
      modifies camera, this`facing, this`error
      ensures Valid() && facing == Flip(old(facing))
      ensures granted ==> (camera.current == Some(Stream(old(camera.nextId), facing))
          && camera.live == {old(camera.nextId)} && error == old(error))
      ensures !granted ==> (camera.current == old(camera.current) && camera.live == {}
          && error == Some(SwitchCameraFailed))
    {
      camera.StopTracks();
      facing := Flip(facing);
      var s := camera.Acquire(facing, granted);
      if s.Some? {
        camera.Hold(s.value);
      } else {
        error := Some(SwitchCameraFailed);
      }
    }

    /** `startRecording`: without a stream on the webcam, report it; otherwise count down from 3. */
    method StartRecording(cam: Webcam)
      requires Valid() && countdown == None && !isRecording
      modifies this`countdown, this`error
      ensures Valid()
      ensures cam.stream.None? ==> countdown == None && error == Some(NoActiveStream)
      ensures cam.stream.Some? ==> countdown == Some(CountdownSeconds) && error == old(error)
    {
      if cam.stream.None? {
        error := Some(NoActiveStream);
      } else {
        countdown := Some(CountdownSeconds);
      }
    }

    /** One second of the countdown interval. */
    method CountdownTick()
      requires Valid() && countdown.Some? && countdown.value > 0
      modifies this`countdown, this`startPending
      ensures Valid() && countdown == Some(old(countdown.value) - 1)
      ensures startPending == (countdown == Some(0))
    {
      countdown := Some(countdown.value - 1);
      startPending := countdown == Some(0);
    }

    /** `startActualRecording`, run by the effect once the countdown reaches 0. A
        failed check leaves the countdown at 0 and nothing else changed but the error. */
    method StartActualRecording(cam: Webcam, isTypeSupported: string -> bool)
      requires Valid() && startPending
      modifies this`startPending, this`isRecording, this`isPaused, this`recordedChunks
      modifies this`countdown, this`recorder, this`timerActive, this`error, scroller
      ensures Valid() && !startPending
      ensures var o := AttemptStart(cam.stream, isTypeSupported);
        o.Failed? && o.reason != NoSupportedFormat ==>
          error == Some(StartFailed(o.reason)) && countdown == Some(0) && CountdownStuck()
          && recorder == old(recorder) && recordedChunks == old(recordedChunks)
      ensures AttemptStart(cam.stream, isTypeSupported) == Failed(NoSupportedFormat) ==>
        error == Some(StartFailed(NoSupportedFormat)) && countdown == None && !isRecording
        && recorder == old(recorder) && recordedChunks == []
      ensures AttemptStart(cam.stream, isTypeSupported).Started? ==>
        RecordingBegun(old(error)) && Started(recorder.mimeType) == AttemptStart(cam.stream, isTypeSupported)
      ensures isRecording ==> fresh(recorder)
      ensures !isRecording ==> unchanged(scroller)
    {
      if cam.stream.None? {
        AbortStart(StreamMissing);
      } else if cam.stream.value.videoTracks == 0 {
        AbortStart(NoVideoTrack);
      } else if cam.stream.value.audioTracks == 0 {
        AbortStart(NoAudioTrack);
      } else {
        StartWithTracks(isTypeSupported);
      }
    }

    /** The countdown shows 0 and its effect has already run, so nothing ticks or
        starts it again, while Record, Switch Camera and Close are disabled as long
        as a countdown is shown: no control is left that leaves this state. */
    predicate CountdownStuck()
      reads this
    {
      countdown == Some(0) && !startPending && !isRecording
    }

    /** `startActualRecording` as intended: a failed check also ends the countdown,
        as the state updates placed before the throw do for a missing format. */
    method StartActualRecordingClearingCountdown(cam: Webcam, isTypeSupported: string -> bool)
      requires Valid() && startPending
      modifies this`startPending, this`isRecording, this`isPaused, this`recordedChunks
      modifies this`countdown, this`recorder, this`timerActive, this`error, scroller
      ensures Valid() && !startPending && countdown == None && !CountdownStuck()
      ensures var o := AttemptStart(cam.stream, isTypeSupported);
        o.Failed? ==> error == Some(StartFailed(o.reason)) && !isRecording && recorder == old(recorder)
      ensures AttemptStart(cam.stream, isTypeSupported).Started? ==>
        RecordingBegun(old(error)) && Started(recorder.mimeType) == AttemptStart(cam.stream, isTypeSupported)
      ensures isRecording ==> fresh(recorder)
      ensures !isRecording ==> unchanged(scroller)
    {
      if cam.stream.None? {
        AbortStartClearingCountdown(StreamMissing);
      } else if cam.stream.value.videoTracks == 0 {
        AbortStartClearingCountdown(NoVideoTrack);
      } else if cam.stream.value.audioTracks == 0 {
        AbortStartClearingCountdown(NoAudioTrack);
      } else {
        StartWithTracks(isTypeSupported);
      }
    }

    /** The intended `catch` for a failed check: report, and end the countdown. */
    method AbortStartClearingCountdown(reason: StartFailure)
      requires Valid() && startPending
      modifies this`startPending, this`error, this`isRecording, this`countdown
      ensures Valid() && !startPending && error == Some(StartFailed(reason)) && !isRecording
      ensures countdown == None
    {
      startPending := false;
      error := Some(StartFailed(reason));
      isRecording := false;
      countdown := None;
    }

    /** The state a successful start leaves: a fresh recorder on the picked type with
        the fixed bit rates, started with a one-second timeslice and nothing
        captured yet, the recording flags, the timer, and the scrolling effect. */
    ghost predicate RecordingBegun(error0: Option<Notice>)
      reads this, recorder, scroller
    {
      recorder != null && recorder.options == WithBitrates(recorder.mimeType, VideoBitrate, AudioBitrate)
      && recorder.state == Recording && recorder.timeslice == Some(Timeslice)
      && recorder.chunks == [] && recorder.captured == []
      && isRecording && !isPaused && timerActive && countdown == None && recordedChunks == []
      && error == error0 && (scroller.intervalSet <==> ScrollWanted())
    }

    /** `startActualRecording` once the stream and both kinds of track are there. */
    method StartWithTracks(isTypeSupported: string -> bool)
      requires Valid() && startPending
      modifies this`startPending, this`isRecording, this`isPaused, this`recordedChunks
      modifies this`countdown, this`recorder, this`timerActive, this`error, scroller
      ensures Valid() && !startPending
      ensures PickMimeType(WebmFirst, isTypeSupported).None? ==>
        error == Some(StartFailed(NoSupportedFormat)) && countdown == None && !isRecording
        && recorder == old(recorder) && recordedChunks == []
      ensures PickMimeType(WebmFirst, isTypeSupported).Some? ==>
        RecordingBegun(old(error)) && Some(recorder.mimeType) == PickMimeType(WebmFirst, isTypeSupported)
      ensures isRecording ==> fresh(recorder)
      ensures !isRecording ==> unchanged(scroller)
    {
      var picked := SelectMimeType(WebmFirst, isTypeSupported);
      if picked.None? {
        AbortWithoutFormat();
      } else {
        BeginRecording(picked.value);
      }
    }

    /** The `catch` of `startActualRecording` when it throws before touching the
        recording state: report and clear `isRecording`. The countdown stays at 0. */
    method AbortStart(reason: StartFailure)
      requires Valid() && startPending
      modifies this`startPending, this`error, this`isRecording
      ensures Valid() && !startPending && error == Some(StartFailed(reason)) && !isRecording
    {
      startPending := false;
      error := Some(StartFailed(reason));
      isRecording := false;
    }

    /** The throw on "no supported format": the state updates made just before it
        (recording on, chunks cleared, countdown cleared) are batched with the
        `catch`, so the countdown ends but nothing records. */
    method AbortWithoutFormat()
      requires Valid() && startPending
      modifies this`startPending, this`isRecording, this`isPaused
      modifies this`recordedChunks, this`countdown, this`error
      ensures Valid() && !startPending
      ensures !isRecording && !isPaused && recordedChunks == [] && countdown == None
      ensures error == Some(StartFailed(NoSupportedFormat))
    {
      ResetWithoutFormat();
    }

    /** The batched state updates of that failure. */
    method ResetWithoutFormat()
      modifies this`startPending, this`isRecording, this`isPaused
      modifies this`recordedChunks, this`countdown, this`error
      ensures !startPending && !isRecording && !isPaused && recordedChunks == [] && countdown == None
      ensures error == Some(StartFailed(NoSupportedFormat))
    {
      startPending := false;
      isPaused := false;
      recordedChunks := [];
      countdown := None;
      error := Some(StartFailed(NoSupportedFormat));
      isRecording := false;
    }

    /** The successful end of `startActualRecording`. */
    method BeginRecording(mimeType: string)
      requires Valid() && startPending
      modifies this`startPending, this`isRecording, this`isPaused
      modifies this`recordedChunks, this`countdown, this`recorder, this`timerActive, scroller
      ensures Valid() && !startPending
      ensures isRecording && !isPaused && timerActive && countdown == None && recordedChunks == []
      ensures fresh(recorder) && recorder.options == WithBitrates(mimeType, VideoBitrate, AudioBitrate)
      ensures recorder.mimeType == mimeType && recorder.state == Recording
      ensures recorder.timeslice == Some(Timeslice) && recorder.chunks == [] && recorder.captured == []
      ensures scroller.intervalSet <==> ScrollWanted()
    {
      var encoder := new Encoder(WithBitrates(mimeType, VideoBitrate, AudioBitrate), mimeType);
      encoder.Start(Some(Timeslice));
      MarkRecording(encoder);
      SyncScrolling();
    }

    /** The state updates of a successful start: recording on, chunks and countdown
        cleared, the recorder held in its ref, the timer running. */
    method MarkRecording(encoder: Encoder)
      modifies this`startPending, this`isRecording, this`isPaused
      modifies this`recordedChunks, this`countdown, this`recorder, this`timerActive
      ensures !startPending && recorder == encoder
      ensures isRecording && !isPaused && timerActive && countdown == None && recordedChunks == []
    {
      startPending := false;
      isRecording := true;
      isPaused := false;
      recordedChunks := [];
      countdown := None;
      recorder := encoder;
      timerActive := true;
    }

    /** The encoder producing bytes from the webcam's stream. */
    method OnCapture(data: seq<byte>)
      requires Valid() && recorder != null && recorder.state == Recording
      modifies recorder
      ensures Valid() && recorder.state == Recording && recorder.chunks == old(recorder.chunks)
      ensures recorder.captured == old(recorder.captured) + data
    {
      recorder.Capture(data);
    }

    /** `ondataavailable`: a non-empty payload goes into the closure array and into
        `recordedChunks`, in arrival order. */
    method OnDataAvailable()
      requires Valid() && recorder != null
      requires recorder.state != Inactive || recorder.queued == DataThenStop
      modifies recorder, this`recordedChunks
      ensures Valid() && recorder.state == old(recorder.state) && recorder.captured == old(recorder.captured)
      ensures var data := old(recorder.buffer);
        recorder.chunks == old(recorder.chunks) + (if |data| > 0 then [data] else [])
        && recordedChunks == old(recordedChunks) + (if |data| > 0 then [data] else [])
    {
      var data := recorder.Emit();
      if |data| > 0 {
        SuffixExtend(recordedChunks, old(recorder.chunks), data);
        recordedChunks := recordedChunks + [data];
      }
    }

    /** `onstop`: when the closure array holds anything, its Blob (typed with the
        selected format) becomes the preview and the newest history entry, stamped `now`. */
    method OnRecorderStop(now: string)
      requires Valid() && recorder != null && recorder.queued == StopOnly
      modifies recorder, this`videoURL, this`videoList
      ensures Valid() && recorder.state == Inactive && recorder.queued == NotStopping
      ensures recorder.chunks == old(recorder.chunks) && recorder.captured == old(recorder.captured)
      ensures var blob := Blob(recorder.captured, recorder.options.mimeType);
        if recorder.chunks != [] then
          videoList == [Artifact(blob, now)] + old(videoList) && videoURL == Some(blob)
        else
          videoList == old(videoList) && videoURL == old(videoURL)
      ensures recorder.chunks != [] <==> recorder.captured != []
    {
      var payload := recorder.Finish();
      if |recorder.chunks| > 0 {
        var blob := Blob(payload, recorder.options.mimeType);
        videoURL := Some(blob);
        videoList := [Artifact(blob, now)] + videoList;
      }
    }

    /** `handlePlayedVideoFromList`. */
    method HandlePlayedVideoFromList(video: Artifact)
      requires Valid() && video in videoList
      modifies this`selected, this`videoURL, this`isPreviewMode
      ensures Valid() && selected == Some(video) && videoURL == Some(video.blob) && isPreviewMode
    {
      selected := Some(video);
      videoURL := Some(video.blob);
      isPreviewMode := true;
    }

    /** `saveVideo`: download the selected entry under a name built from its timestamp. */
    method SaveVideo() returns (d: Option<Download>)
      requires Valid()
      modifies this`error
      ensures Valid()
      ensures selected.None? ==> d == None && error == Some(NothingSelected)
      ensures selected.Some? ==> (error == old(error)
          && d == Some(Download(VideoFileName(selected.value.timestamp), selected.value.blob.payload)))
      ensures d.Some? ==> exists a :: a in videoList && a.blob.payload == d.value.payload
    {
      if selected.None? {
        error := Some(NothingSelected);
        d := None;
      } else {
        d := Some(Download(VideoFileName(selected.value.timestamp), selected.value.blob.payload));
      }
    }

    /** `stopRecording`: when the current recorder is not inactive, stop it and the timer. */
    method StopRecording()
      requires Valid()
      modifies recorder, this`isRecording, this`isPaused, this`timerActive, scroller
      ensures Valid()
      ensures old(recorder != null && recorder.state != Inactive) ==>
        recorder.state == Inactive && recorder.queued == DataThenStop
        && !isRecording && !isPaused && !timerActive && !scroller.intervalSet
      ensures !old(recorder != null && recorder.state != Inactive) ==>
        (isRecording == old(isRecording) && isPaused == old(isPaused) && timerActive == old(timerActive)
        && (recorder != null ==> unchanged(recorder)) && unchanged(scroller))
      ensures recorder != null ==> (recorder.chunks == old(recorder.chunks)
          && recorder.buffer == old(recorder.buffer) && recorder.captured == old(recorder.captured))
      ensures scroller.speed == old(scroller.speed) && scroller.scrollTop == old(scroller.scrollTop)
    {
      if recorder != null && recorder.state != Inactive {
        recorder.Stop();
        isRecording := false;
        isPaused := false;
        timerActive := false;
        SyncScrolling();
      }
    }

    /** `togglePause`: pause (and stop the timer) or resume (and restart it). */
    method TogglePause()
      requires Valid()
      modifies recorder, this`isPaused, this`timerActive, scroller
      ensures Valid()
      ensures old(isRecording) ==> (isPaused == !old(isPaused)
          && recorder.state == (if isPaused then Paused else Recording)
          && timerActive == !isPaused && (scroller.intervalSet <==> ScrollWanted()))
      ensures !old(isRecording) ==> (isPaused == old(isPaused) && timerActive == old(timerActive)
          && (recorder != null ==> unchanged(recorder)) && unchanged(scroller))
      ensures recorder != null ==> (recorder.chunks == old(recorder.chunks)
          && recorder.buffer == old(recorder.buffer) && recorder.captured == old(recorder.captured))
    {
      if recorder != null && isRecording {
        if !isPaused {
          recorder.Pause();
          timerActive := false;
        } else {
          recorder.Resume();
          timerActive := true;
        }
        isPaused := !isPaused;
        SyncScrolling();
      }
    }

    /** One second of the recording timer. */
    method TimerTick()
      requires Valid() && timerActive
      modifies this`recordTime
      ensures Valid() && recordTime == old(recordTime) + 1
    {
      recordTime := recordTime + 1;
    }

    method ClosePreview()
      requires Valid()
      modifies this`isPreviewMode
      ensures Valid() && !isPreviewMode
    {
      isPreviewMode := false;
    }

    /** `closeCamera`: release the stream and reset the session's state. The media
        recorder is left as it is, and the history is kept. */
    method CloseCamera()
      requires Valid() && countdown == None
      modifies camera, scroller, this`isCameraOpen, this`isRecording, this`isPaused, this`timerActive
      modifies this`recordTime, this`videoURL, this`recordedChunks, this`error, this`countdown
      modifies this`isPreviewMode
      ensures Valid()
      ensures camera.current == None && camera.live == {}
      ensures !isCameraOpen && !isRecording && !isPaused && !timerActive && recordTime == 0
      ensures videoURL == None && recordedChunks == [] && error == None && countdown == None
      ensures !isPreviewMode && !scroller.intervalSet
    {
      camera.Release();
      ClearSession();
      SyncScrolling();
    }

    /** The state resets of `closeCamera`. */
    method ClearSession()
      modifies this`isCameraOpen, this`isRecording, this`isPaused, this`timerActive
      modifies this`recordTime, this`videoURL, this`recordedChunks, this`error, this`countdown
      modifies this`isPreviewMode
      ensures !isCameraOpen && !isRecording && !isPaused && !timerActive && recordTime == 0
      ensures videoURL == None && recordedChunks == [] && error == None && countdown == None
      ensures !isPreviewMode
    {
      isCameraOpen := false;
      isRecording := false;
      isPaused := false;
      timerActive := false;
      recordTime := 0;
      videoURL := None;
      recordedChunks := [];
      error := None;
      countdown := None;
      isPreviewMode := false;
    }

    /** The arrow buttons: clamp the speed; a changed speed re-runs the scrolling effect. */
    method AdjustScrollSpeed(change: real)
      requires Valid()
      modifies scroller
      ensures Valid() && scroller.speed == ClampSpeed(old(scroller.speed), change)
      ensures scroller.scrollTop == old(scroller.scrollTop)
    {
      var before := scroller.speed;
      scroller.Adjust(change);
      if scroller.speed != before {
        SyncScrolling();
      }
    }

    /** One firing of the scrolling interval. */
    method ScrollTick()
      requires Valid() && scroller.intervalSet
      modifies scroller
      ensures Valid()
      ensures scroller.scrollTop == old(scroller.scrollTop) + (if PrompterMounted() then scroller.speed else 0.0)
    {
      scroller.Tick(PrompterMounted());
    }
  }
}
