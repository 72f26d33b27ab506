/** RecorderV4.js: the recording screen with a three-second countdown, a canvas
    compositor that applies the active filter to what is recorded, pause and
    resume, a teleprompter, and a history of recordings that can be previewed
    and saved. Each handler and each timer or media event is one atomic method;
    what the browser supplies when a handler runs (the webcam element, whether
    the canvas is mounted, `getUserMedia`'s verdict, `isTypeSupported`, the clock)
    comes in as parameters. */
module RecorderV4 {
  import opened Media
  import opened Formats
  import opened MimeTypes
  import opened Teleprompter
  import opened Devices
  import opened Encoding
  import opened Compositor

  const CountdownSeconds: nat := 3
  const VideoBitrate: nat := 2500000
  const AudioBitrate: nat := 128000
  /** The `start(1000)` timeslice, in milliseconds. */
  const Timeslice: nat := 1000

  /** How `startActualRecording` ends, check by check in source order: the video
      element and the canvas, then the stream's audio lookup, then the format. */
  function AttemptStart(cam: Webcam, canvasMounted: bool, isTypeSupported: string -> bool): (o: StartOutcome)
    ensures o.Started? <==>
      cam.video && canvasMounted && cam.stream.Some? && PickMimeType(WebmFirst, isTypeSupported).Some?
    ensures o.Started? ==> o.mimeType in WebmFirst && isTypeSupported(o.mimeType)
    ensures o.Started? ==> forall j :: 0 <= j < |WebmFirst| && WebmFirst[j] == o.mimeType ==>
      forall i :: 0 <= i < j ==> !isTypeSupported(WebmFirst[i])
    ensures o == Failed(CameraOrCanvasMissing) <==> !cam.video || !canvasMounted
    ensures o == Failed(StreamMissing) <==> cam.video && canvasMounted && cam.stream.None?
    ensures o.Failed? ==> o.reason in {CameraOrCanvasMissing, StreamMissing, NoSupportedFormat}
  {
    if !cam.video || !canvasMounted then Failed(CameraOrCanvasMissing)
    else if cam.stream.None? then Failed(StreamMissing)
    else match FirstSupportedIndex(WebmFirst, isTypeSupported)
      case None => Failed(NoSupportedFormat)
      case Some(k) => Started(WebmFirst[k])
  }

  class Recorder {
    const camera: DeviceStreams
    const scroller: Scroller
    /** `mediaRecorderRef.current`. */
    var recorder: Encoder?
    var isCameraOpen: bool
    var facing: Facing
    var script: string
    var countdown: Option<nat>
    /** The countdown has just reached 0 and the effect that starts recording is due. */
    var startPending: bool
    var isRecording: bool
    var isPaused: bool
    var recordTime: nat
    /** `timerInterval !== null`: the one-second recording timer runs. */
    var timerActive: bool
    var recordedChunks: seq<Chunk>
    var videoList: seq<Artifact>
    var selected: Option<Artifact>
    var videoURL: Option<Blob>
    var isPreviewMode: bool
    var error: Option<Notice>
    var canvas: Canvas
    var frameLoop: FrameLoop
    /** The filter the running frame loop's callback closed over. */
    var loopFilter: Option<Filter>
    /** Whether the recorded stream got a clone of the camera's audio track. */
    var recordingAudio: bool

    /** The teleprompter element exists: the camera view shows it while recording with a script. */
    predicate PrompterMounted()
      reads this
    {
      isCameraOpen && !isPreviewMode && script != "" && isRecording
    }

    /** The scrolling effect's condition. */
    predicate ScrollWanted()
      reads this
    {
      isRecording && !isPaused && PrompterMounted()
    }

    /** `recordedChunks` is the tail of what the current recorder has handed out
        (all of it, unless the camera was closed in between). */
    ghost predicate ChunksValid()
      reads this`recorder, this`recordedChunks, recorder
    {
      (recorder != null ==>
         recorder.Valid() && recorder.options.WithBitrates? && IsSuffix(recordedChunks, recorder.chunks))
      && (recorder == null ==> recordedChunks == [])
    }

    /** `isRecording` and `isPaused` mirror the current recorder's state, and the
        timer runs exactly while recording unpaused. */
    ghost predicate FlagsValid()
      reads this`recorder, this`isRecording, this`isPaused, this`timerActive, recorder
    {
      (isPaused ==> isRecording)
      && (isRecording ==> recorder != null && recorder.state == (if isPaused then Paused else Recording))
      && (timerActive <==> isRecording && !isPaused)
    }

    /** The countdown runs from 3 only while not recording. */
    ghost predicate CountdownValid()
      reads this`countdown, this`startPending, this`isRecording
    {
      (countdown.Some? ==> countdown.value <= CountdownSeconds && !isRecording)
      && (startPending ==> countdown == Some(0))
    }

    /** The prompter scrolls only while recording and not paused, at the current speed. */
    ghost predicate ScrollValid()
      reads this`isRecording, this`isPaused, scroller
    {
      scroller.Valid()
      && (scroller.intervalSet ==> isRecording && !isPaused && scroller.intervalSpeed == scroller.speed)
    }

    /** The selected history entry is one of the history's. */
    ghost predicate SelectionValid()
      reads this`selected, this`videoList
    {
      selected.Some? ==> selected.value in videoList
    }

    /** A scheduled frame is always recorded in the ref. */
    ghost predicate LoopValid()
      reads this`frameLoop
    {
      frameLoop.queued ==> frameLoop.ref
    }

    ghost predicate Valid()
      reads this, camera, scroller, recorder
    {
      camera.Valid() && camera.NoLeak()
      && ChunksValid() && FlagsValid() && CountdownValid() && ScrollValid()
      && SelectionValid() && LoopValid()
    }

    constructor ()
      ensures Valid() && fresh(camera) && fresh(scroller)
      ensures recorder == null && !isCameraOpen && facing == User && script == ""
      ensures countdown == None && !isRecording && !isPaused && recordTime == 0
      ensures videoList == [] && selected == None && videoURL == None && error == None
      ensures canvas == NewCanvas && frameLoop == NoLoop && camera.live == {}
    {
      camera := new DeviceStreams();
      scroller := new Scroller();
      recorder := null;
      isCameraOpen := false;
      facing := User;
      script := "";
      countdown := None;
      startPending := false;
      isRecording := false;
      isPaused := false;
      recordTime := 0;
      timerActive := false;
      recordedChunks := [];
      videoList := [];
      selected := None;
      videoURL := None;
      isPreviewMode := false;
      error := None;
      canvas := NewCanvas;
      frameLoop := NoLoop;
      loopFilter := None;
      recordingAudio := false;
    }

    /** The scrolling effect, run when `isRecording`, `isPaused` or the speed changed. */
    method SyncScrolling()
      requires scroller.Valid() && (ScrollWanted() ==> isRecording && !isPaused)
      modifies scroller
      ensures scroller.Valid()
      ensures scroller.speed == old(scroller.speed) && scroller.scrollTop == old(scroller.scrollTop)
      ensures ScrollWanted() ==> scroller.intervalSet && scroller.intervalSpeed == scroller.speed
      ensures !ScrollWanted() ==> !scroller.intervalSet
    {
      if ScrollWanted() {
        scroller.Start();
      } else {
        scroller.Stop();
      }
    }

    /** The script textarea. */
    method EditScript(text: string)
      requires Valid()
      modifies this`script
      ensures Valid() && script == text
    {
      script := text;
    }

    /** `openCamera`: stop the held stream's tracks, ask for a new stream with the
        current facing mode, and hold it. */
    method OpenCamera(granted: bool)
      requires Valid()
      modifies camera, this`isCameraOpen, this`error
      ensures Valid() && camera.nextId >= old(camera.nextId)
      ensures granted ==> (camera.current == Some(Stream(old(camera.nextId), facing))
          && camera.live == {old(camera.nextId)} && isCameraOpen && error == None)
      ensures !granted ==> (camera.current == old(camera.current) && camera.live == {}
          && isCameraOpen == old(isCameraOpen) && error == Some(CameraAccessFailed))
    {
      camera.StopTracks();
      var s := camera.Acquire(facing, granted);
      if s.Some? {
        camera.Hold(s.value);
        isCameraOpen := true;
        error := None;
      } else {
        error := Some(CameraAccessFailed);
      }
    }

    /** `toggleCamera`: stop the held stream, flip the facing mode, and ask for a
        stream facing the new way. The flip stands even when the request fails. */
    method ToggleCamera(granted: bool)
      requires Valid() && countdown == None
      modifies camera, this`facing, this`error
      ensures Valid() && facing == Flip(old(facing))
      ensures granted ==> (camera.current == Some(Stream(old(camera.nextId), facing))
          && camera.live == {old(camera.nextId)} && error == old(error))
      ensures !granted ==> (camera.current == old(camera.current) && camera.live == {}
          && error == Some(SwitchCameraFailed))
    {
      camera.StopTracks();
      facing := Flip(facing);
      var s := camera.Acquire(facing, granted);
      if s.Some? {
        camera.Hold(s.value);
      } else {
        error := Some(SwitchCameraFailed);
      }
    }

    /** `startRecording`: without a stream on the webcam, report it; otherwise count down from 3. */
    method StartRecording(cam: Webcam)
      requires Valid() && countdown == None && !isRecording
      modifies this`countdown, this`error
      ensures Valid()
      ensures cam.stream.None? ==> countdown == None && error == Some(NoActiveStream)
      ensures cam.stream.Some? ==> countdown == Some(CountdownSeconds) && error == old(error)
    {
      if cam.stream.None? {
        error := Some(NoActiveStream);
      } else {
        countdown := Some(CountdownSeconds);
      }
    }

    /** One second of the countdown interval. */
    method CountdownTick()
      requires Valid() && countdown.Some? && countdown.value > 0
      modifies this`countdown, this`startPending
      ensures Valid() && countdown == Some(old(countdown.value) - 1)
      ensures startPending == (countdown == Some(0))
    {
      countdown := Some(countdown.value - 1);
      startPending := countdown == Some(0);
    }

    /** `startActualRecording`, run by the effect once the countdown reaches 0. */
    method StartActualRecording(cam: Webcam, canvasMounted: bool, activeFilter: Option<Filter>,
                                isTypeSupported: string -> bool)
      requires Valid() && startPending
      modifies this`startPending, this`canvas, this`frameLoop, this`loopFilter, this`isRecording
      modifies this`isPaused, this`recordedChunks, this`countdown, this`recorder, this`timerActive
      modifies this`error, this`recordingAudio, scroller
      ensures Valid() && !startPending
      ensures !cam.video || !canvasMounted ==>
        (error == Some(StartFailed(CameraOrCanvasMissing)) && countdown == Some(0) && !isRecording
         && frameLoop == NoLoop && canvas == old(canvas) && recorder == old(recorder)
         && recordedChunks == old(recordedChunks))
      ensures cam.video && canvasMounted ==>
        canvas == StartCanvas(old(canvas), old(frameLoop.ref), cam.videoWidth, cam.videoHeight, activeFilter)
        && loopFilter == (if old(frameLoop.ref) then old(loopFilter) else activeFilter)
      ensures cam.video && canvasMounted ==>
        frameLoop == (if isRecording then EnsureLoop(old(frameLoop)) else NoLoop)
      ensures cam.video && canvasMounted ==> StreamOutcome(cam.stream, isTypeSupported, old(error), old(recorder), old(recordedChunks))
      ensures var o := AttemptStart(cam, canvasMounted, isTypeSupported);
        (isRecording <==> o.Started?) && (o.Started? ==> recorder.mimeType == o.mimeType)
        && (o.Failed? ==> error == Some(StartFailed(o.reason)))
      ensures isRecording ==> fresh(recorder)
      ensures !isRecording ==> unchanged(scroller)
    {
      if !cam.video || !canvasMounted {
        AbortStart(CameraOrCanvasMissing);
      } else {
        StartWithView(cam, activeFilter, isTypeSupported);
      }
    }

    /** `startActualRecording` once the video element and the canvas are there:
        prepare the frames, then go on with the webcam's stream. */
    method StartWithView(cam: Webcam, activeFilter: Option<Filter>, isTypeSupported: string -> bool)
      requires Valid() && startPending
      modifies this`startPending, this`canvas, this`frameLoop, this`loopFilter, this`isRecording
      modifies this`isPaused, this`recordedChunks, this`countdown, this`recorder, this`timerActive
      modifies this`error, this`recordingAudio, scroller
      ensures Valid() && !startPending
      ensures canvas == StartCanvas(old(canvas), old(frameLoop.ref), cam.videoWidth, cam.videoHeight, activeFilter)
      ensures loopFilter == (if old(frameLoop.ref) then old(loopFilter) else activeFilter)
      ensures frameLoop == (if isRecording then EnsureLoop(old(frameLoop)) else NoLoop)
      ensures StreamOutcome(cam.stream, isTypeSupported, old(error), old(recorder), old(recordedChunks))
      ensures isRecording ==> fresh(recorder)
      ensures !isRecording ==> unchanged(scroller)
    {
      PrepareFrames(cam, activeFilter);
      StartFromStream(cam.stream, isTypeSupported);
    }

    /** What the part of `startActualRecording` after the canvas checks leaves
        behind, for the webcam's stream: without a stream, the countdown stuck at 0;
        without a supported format, nothing recording; otherwise a new recorder on
        the first supported type, started with a one-second timeslice, and the
        recording flags, the timer and the scrolling effect. */
    ghost predicate StreamOutcome(stream: Option<Tracks>, isTypeSupported: string -> bool,
                                  error0: Option<Notice>, recorder0: Encoder?, chunks0: seq<Chunk>)
      reads this, recorder, scroller
    {
      var picked := PickMimeType(WebmFirst, isTypeSupported);
      (stream.None? ==>
         error == Some(StartFailed(StreamMissing)) && countdown == Some(0) && !isRecording
         && recorder == recorder0 && recordedChunks == chunks0)
      && (stream.Some? ==> recordingAudio == (stream.value.audioTracks > 0))
      && (stream.Some? && picked.None? ==>
         error == Some(StartFailed(NoSupportedFormat)) && countdown == None && !isRecording
         && recorder == recorder0 && recordedChunks == [])
      && (stream.Some? && picked.Some? ==>
         recorder != null && recorder.options == WithBitrates(picked.value, VideoBitrate, AudioBitrate)
         && recorder.mimeType == picked.value && recorder.state == Recording
         && recorder.timeslice == Some(Timeslice) && recorder.chunks == [] && recorder.captured == []
         && isRecording && !isPaused && timerActive && countdown == None && recordedChunks == []
         && error == error0 && (scroller.intervalSet <==> ScrollWanted()))
    }

    /** `startActualRecording` from the stream's track lookup on, once the frame loop runs. */
    method StartFromStream(stream: Option<Tracks>, isTypeSupported: string -> bool)
      requires Valid() && startPending && frameLoop.ref
      modifies this`startPending, this`frameLoop, this`isRecording, this`isPaused, this`recordedChunks
      modifies this`countdown, this`recorder, this`timerActive, this`error, this`recordingAudio, scroller
      ensures Valid() && !startPending
      ensures frameLoop == (if isRecording then old(frameLoop) else NoLoop)
      ensures StreamOutcome(stream, isTypeSupported, old(error), old(recorder), old(recordedChunks))
      ensures isRecording ==> fresh(recorder)
      ensures !isRecording ==> unchanged(scroller)
    {
      if stream.None? {
        AbortStart(StreamMissing);
      } else {
        var picked := PickMimeType(WebmFirst, isTypeSupported);
        if picked.None? {
          AbortWithoutFormat(stream.value.audioTracks > 0);
        } else {
          BeginRecording(picked.value, stream.value.audioTracks > 0);
        }
      }
    }

    /** The `catch` of `startActualRecording` when it throws before touching the
        recording state: report, clear `isRecording`, cancel the frame loop. The
        countdown stays at 0. */
    method AbortStart(reason: StartFailure)
      requires Valid() && startPending
      modifies this`startPending, this`error, this`isRecording, this`frameLoop
      ensures Valid() && !startPending && error == Some(StartFailed(reason)) && !isRecording && frameLoop == NoLoop
    {
      startPending := false;
      error := Some(StartFailed(reason));
      isRecording := false;
      frameLoop := CancelLoop(frameLoop);
    }

    /** The throw on "no supported format": the state updates made just before it
        (recording on, chunks cleared, countdown cleared) are batched with the
        `catch`, so the countdown ends but nothing records. */
    method AbortWithoutFormat(withAudio: bool)
      requires Valid() && startPending
      modifies this`startPending, this`recordingAudio, this`isRecording, this`isPaused
      modifies this`recordedChunks, this`countdown, this`error, this`frameLoop
      ensures Valid() && !startPending && recordingAudio == withAudio
      ensures !isRecording && !isPaused && recordedChunks == [] && countdown == None
      ensures error == Some(StartFailed(NoSupportedFormat)) && frameLoop == NoLoop
    {
      ResetWithoutFormat(withAudio);
    }

    /** The batched state updates of that failure. */
    method ResetWithoutFormat(withAudio: bool)
      modifies this`startPending, this`recordingAudio, this`isRecording, this`isPaused
      modifies this`recordedChunks, this`countdown, this`error, this`frameLoop
      ensures !startPending && recordingAudio == withAudio
      ensures !isRecording && !isPaused && recordedChunks == [] && countdown == None
      ensures error == Some(StartFailed(NoSupportedFormat)) && frameLoop == NoLoop
    {
      startPending := false;
      recordingAudio := withAudio;
      isPaused := false;
      recordedChunks := [];
      countdown := None;
      error := Some(StartFailed(NoSupportedFormat));
      isRecording := false;
      frameLoop := CancelLoop(frameLoop);
    }

    /** Size the canvas to the video, and draw the first frame unless the ref says a
        loop already runs. */
    method PrepareFrames(cam: Webcam, activeFilter: Option<Filter>)
      modifies this`canvas, this`frameLoop, this`loopFilter
      ensures frameLoop == EnsureLoop(old(frameLoop)) && frameLoop.ref
      ensures canvas == StartCanvas(old(canvas), old(frameLoop.ref), cam.videoWidth, cam.videoHeight, activeFilter)
      ensures loopFilter == if old(frameLoop.ref) then old(loopFilter) else activeFilter
    {
      canvas := StartCanvas(canvas, frameLoop.ref, cam.videoWidth, cam.videoHeight, activeFilter);
      if !frameLoop.ref {
        loopFilter := activeFilter;
      }
      frameLoop := EnsureLoop(frameLoop);
    }

    /** The successful end of `startActualRecording`: a new recorder on the chosen
        type started with a one-second timeslice, the recording flags, the timer,
        and the scrolling effect. */
    method BeginRecording(mimeType: string, withAudio: bool)
      requires Valid() && startPending
      modifies this`startPending, this`recordingAudio, this`isRecording, this`isPaused
      modifies this`recordedChunks, this`countdown, this`recorder, this`timerActive, scroller
      ensures Valid() && !startPending && recordingAudio == withAudio
      ensures isRecording && !isPaused && timerActive && countdown == None && recordedChunks == []
      ensures fresh(recorder) && recorder.options == WithBitrates(mimeType, VideoBitrate, AudioBitrate)
      ensures recorder.mimeType == mimeType && recorder.state == Recording
      ensures recorder.timeslice == Some(Timeslice) && recorder.chunks == [] && recorder.captured == []
      ensures scroller.intervalSet <==> ScrollWanted()
    {
      var encoder := new Encoder(WithBitrates(mimeType, VideoBitrate, AudioBitrate), mimeType);
      encoder.Start(Some(Timeslice));
      MarkRecording(encoder, withAudio);
      SyncScrolling();
    }

    /** The state updates of a successful start: recording on, chunks and countdown
        cleared, the recorder held in its ref, the timer running. */
    method MarkRecording(encoder: Encoder, withAudio: bool)
      modifies this`startPending, this`recordingAudio, this`isRecording, this`isPaused
      modifies this`recordedChunks, this`countdown, this`recorder, this`timerActive
      ensures !startPending && recordingAudio == withAudio && recorder == encoder
      ensures isRecording && !isPaused && timerActive && countdown == None && recordedChunks == []
    {
      startPending := false;
      recordingAudio := withAudio;
      isRecording := true;
      isPaused := false;
      recordedChunks := [];
      countdown := None;
      recorder := encoder;
      timerActive := true;
    }

    /** One animation frame of `processVideoFrame`, with the filter its closure captured. */
    method OnAnimationFrame(cam: Webcam, canvasMounted: bool)
      requires Valid() && frameLoop.queued
      modifies this`frameLoop, this`canvas
      ensures Valid()
      ensures frameLoop == FrameFired(old(frameLoop), cam.video && canvasMounted)
      ensures cam.video && canvasMounted ==>
        canvas == RenderFrame(old(canvas), cam.videoWidth, cam.videoHeight, loopFilter)
      ensures !(cam.video && canvasMounted) ==> canvas == old(canvas)
    {
      var present := cam.video && canvasMounted;
      if present {
        canvas := RenderFrame(canvas, cam.videoWidth, cam.videoHeight, loopFilter);
      }
      frameLoop := FrameFired(frameLoop, present);
    }

    /** The frame handler as intended: a frame that finds no camera view also
        clears the ref, so a set ref always names a scheduled frame. */
    method OnAnimationFrameClearingRef(cam: Webcam, canvasMounted: bool)
      requires Valid() && frameLoop.queued
      modifies this`frameLoop, this`canvas
      ensures Valid() && RefIsLive(frameLoop)
      ensures frameLoop == FrameFiredClearingRef(old(frameLoop), cam.video && canvasMounted)
      ensures cam.video && canvasMounted ==>
        canvas == RenderFrame(old(canvas), cam.videoWidth, cam.videoHeight, loopFilter)
      ensures !(cam.video && canvasMounted) ==> canvas == old(canvas)
    {
      var present := cam.video && canvasMounted;
      if present {
        canvas := RenderFrame(canvas, cam.videoWidth, cam.videoHeight, loopFilter);
      }
      frameLoop := FrameFiredClearingRef(frameLoop, present);
    }

    /** The encoder producing bytes from the canvas stream. */
    method OnCapture(data: seq<byte>)
      requires Valid() && recorder != null && recorder.state == Recording
      modifies recorder
      ensures Valid() && recorder.state == Recording && recorder.chunks == old(recorder.chunks)
      ensures recorder.captured == old(recorder.captured) + data
    {
      recorder.Capture(data);
    }

    /** `ondataavailable`: a non-empty payload goes into the closure array and into
        `recordedChunks`, in arrival order. */
    method OnDataAvailable()
      requires Valid() && recorder != null
      requires recorder.state != Inactive || recorder.queued == DataThenStop
      modifies recorder, this`recordedChunks
      ensures Valid() && recorder.state == old(recorder.state) && recorder.captured == old(recorder.captured)
      ensures var data := old(recorder.buffer);
        recorder.chunks == old(recorder.chunks) + (if |data| > 0 then [data] else [])
        && recordedChunks == old(recordedChunks) + (if |data| > 0 then [data] else [])
    {
      var data := recorder.Emit();
      if |data| > 0 {
        SuffixExtend(recordedChunks, old(recorder.chunks), data);
        recordedChunks := recordedChunks + [data];
      }
    }

    /** `onstop`: when the closure array holds anything, its Blob (with the chosen
        type) becomes the preview and the newest history entry, stamped `now`; the
        frame loop is cancelled in any case. */
    method OnRecorderStop(now: string)
      requires Valid() && recorder != null && recorder.queued == StopOnly
      modifies recorder, this`videoURL, this`videoList, this`frameLoop
      ensures Valid() && recorder.state == Inactive && recorder.queued == NotStopping
      ensures recorder.chunks == old(recorder.chunks) && recorder.captured == old(recorder.captured)
      ensures frameLoop == NoLoop
      ensures var blob := Blob(recorder.captured, recorder.options.mimeType);
        if recorder.chunks != [] then
          videoList == [Artifact(blob, now)] + old(videoList) && videoURL == Some(blob)
        else
          videoList == old(videoList) && videoURL == old(videoURL)
      ensures recorder.chunks != [] <==> recorder.captured != []
    {
      var payload := recorder.Finish();
      if |recorder.chunks| > 0 {
        var blob := Blob(payload, recorder.options.mimeType);
        videoURL := Some(blob);
        videoList := [Artifact(blob, now)] + videoList;
      }
      frameLoop := CancelLoop(frameLoop);
    }

    /** `handlePlayedVideoFromList`. */
    method HandlePlayedVideoFromList(video: Artifact)
      requires Valid() && video in videoList
      modifies this`selected, this`videoURL, this`isPreviewMode
      ensures Valid() && selected == Some(video) && videoURL == Some(video.blob) && isPreviewMode
    {
      selected := Some(video);
      videoURL := Some(video.blob);
      isPreviewMode := true;
    }

    /** `saveVideo`: download the selected entry under a name built from its timestamp. */
    method SaveVideo() returns (d: Option<Download>)
      requires Valid()
      modifies this`error
      ensures Valid()
      ensures selected.None? ==> d == None && error == Some(NothingSelected)
      ensures selected.Some? ==> (error == old(error)
          && d == Some(Download(VideoFileName(selected.value.timestamp), selected.value.blob.payload)))
      ensures d.Some? ==> exists a :: a in videoList && a.blob.payload == d.value.payload
    {
      if selected.None? {
        error := Some(NothingSelected);
        d := None;
      } else {
        d := Some(Download(VideoFileName(selected.value.timestamp), selected.value.blob.payload));
      }
    }

    /** `stopRecording`: when the current recorder is not inactive, stop it and the timer. */
    method StopRecording()
      requires Valid()
      modifies recorder, this`isRecording, this`isPaused, this`timerActive, scroller
      ensures Valid()
      ensures old(recorder != null && recorder.state != Inactive) ==>
        recorder.state == Inactive && recorder.queued == DataThenStop
        && !isRecording && !isPaused && !timerActive && !scroller.intervalSet
      ensures !old(recorder != null && recorder.state != Inactive) ==>
        (isRecording == old(isRecording) && isPaused == old(isPaused) && timerActive == old(timerActive)
        && (recorder != null ==> unchanged(recorder)) && unchanged(scroller))
      ensures recorder != null ==> (recorder.chunks == old(recorder.chunks)
          && recorder.buffer == old(recorder.buffer) && recorder.captured == old(recorder.captured))
      ensures scroller.speed == old(scroller.speed) && scroller.scrollTop == old(scroller.scrollTop)
    {
      if recorder != null && recorder.state != Inactive {
        recorder.Stop();
        isRecording := false;
        isPaused := false;
        timerActive := false;
        SyncScrolling();
      }
    }

    /** `togglePause`: pause (and stop the timer) or resume (and restart it). */
    method TogglePause()
      requires Valid()
      modifies recorder, this`isPaused, this`timerActive, scroller
      ensures Valid()
      ensures old(isRecording) ==> (isPaused == !old(isPaused)
          && recorder.state == (if isPaused then Paused else Recording)
          && timerActive == !isPaused && (scroller.intervalSet <==> ScrollWanted()))
      ensures !old(isRecording) ==> (isPaused == old(isPaused) && timerActive == old(timerActive)
          && (recorder != null ==> unchanged(recorder)) && unchanged(scroller))
      ensures recorder != null ==> (recorder.chunks == old(recorder.chunks)
          && recorder.buffer == old(recorder.buffer) && recorder.captured == old(recorder.captured))
    {
      if recorder != null && isRecording {
        if !isPaused {
          recorder.Pause();
          timerActive := false;
        } else {
          recorder.Resume();
          timerActive := true;
        }
        isPaused := !isPaused;
        SyncScrolling();
      }
    }

    /** One second of the recording timer. */
    method TimerTick()
      requires Valid() && timerActive
      modifies this`recordTime
      ensures Valid() && recordTime == old(recordTime) + 1
    {
      recordTime := recordTime + 1;
    }

    method ClosePreview()
      requires Valid()
      modifies this`isPreviewMode
      ensures Valid() && !isPreviewMode
    {
      isPreviewMode := false;
    }

    /** `closeCamera`: release the stream and reset the session's state. The media
        recorder and the frame loop are left as they are. */
    method CloseCamera()
      requires Valid() && countdown == None
      modifies camera, scroller, this`isCameraOpen, this`isRecording, this`isPaused, this`timerActive
      modifies this`recordTime, this`videoURL, this`recordedChunks, this`error, this`countdown
      modifies this`isPreviewMode
      ensures Valid()
      ensures camera.current == None && camera.live == {}
      ensures !isCameraOpen && !isRecording && !isPaused && !timerActive && recordTime == 0
      ensures videoURL == None && recordedChunks == [] && error == None && countdown == None
      ensures !isPreviewMode && !scroller.intervalSet
    {
      camera.Release();
      ClearSession();
      SyncScrolling();
    }

    /** The state resets of `closeCamera`. */
    method ClearSession()
      modifies this`isCameraOpen, this`isRecording, this`isPaused, this`timerActive
      modifies this`recordTime, this`videoURL, this`recordedChunks, this`error, this`countdown
      modifies this`isPreviewMode
      ensures !isCameraOpen && !isRecording && !isPaused && !timerActive && recordTime == 0
      ensures videoURL == None && recordedChunks == [] && error == None && countdown == None
      ensures !isPreviewMode
    {
      isCameraOpen := false;
      isRecording := false;
      isPaused := false;
      timerActive := false;
      recordTime := 0;
      videoURL := None;
      recordedChunks := [];
      error := None;
      countdown := None;
      isPreviewMode := false;
    }

    /** The arrow buttons: clamp the speed; a changed speed re-runs the scrolling effect. */
    method AdjustScrollSpeed(change: real)
      requires Valid()
      modifies scroller
      ensures Valid() && scroller.speed == ClampSpeed(old(scroller.speed), change)
      ensures scroller.scrollTop == old(scroller.scrollTop)
    {
      var before := scroller.speed;
      scroller.Adjust(change);
      if scroller.speed != before {
        SyncScrolling();
      }
    }

    /** One firing of the scrolling interval. */
    method ScrollTick()
      requires Valid() && scroller.intervalSet
      modifies scroller
      ensures Valid()
      ensures scroller.scrollTop == old(scroller.scrollTop) + (if PrompterMounted() then scroller.speed else 0.0)
    {
      scroller.Tick(PrompterMounted());
    }

    /** The error timeout: the message disappears after 1.5 seconds. */
    method DismissError()
      requires Valid() && error.Some?
      modifies this`error
      ensures Valid() && error == None
    {
      error := None;
    }
  }
}
