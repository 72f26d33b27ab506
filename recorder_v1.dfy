/** bringjal-video-recorderV1.js: the mobile-first recording screen. The camera
    always faces the user; `openCamera` asks for a stream with mobile constraints,
    tightens its video track with `applyConstraints`, and falls back to basic
    constraints when either step rejects. The format pick never fails (the options
    stay `{}`), `onstop` always adds a Blob to the history, and the chunk handler
    fills only the recorder's closure array, never `recordedChunks`. */
module RecorderV1 {
  import opened Media
  import opened Formats
  import opened MimeTypes
  import opened Teleprompter
  import opened Devices
  import opened Encoding

  const CountdownSeconds: nat := 3
  /** The "1 Mbps for better mobile performance" video bit rate. */
  const MobileVideoBitrate: nat := 1000000
  const AudioBitrate: nat := 128000
  /** The `start(1000)` timeslice, in milliseconds. */
  const Timeslice: nat := 1000
  /** The type `onstop` falls back to when the recorder reports none. */
  const FallbackType: string := "video/webm"

  /** The options object the format loop leaves behind. */
  function MobileOptions(isTypeSupported: string -> bool): RecorderOptions
  {
    match PickMimeType(Mp4First, isTypeSupported)
    case Some(m) => WithBitrates(m, MobileVideoBitrate, AudioBitrate)
    case None => DefaultOptions
  }

  /** The `for (const mimeType of mimeTypes)` loop that replaces `options = {}`
      by the first supported type with the mobile bit rates, and breaks. */
  method ChooseOptions(isTypeSupported: string -> bool) returns (options: RecorderOptions)
    ensures options == MobileOptions(isTypeSupported)
    ensures options.DefaultOptions? <==> forall j :: 0 <= j < |Mp4First| ==> !isTypeSupported(Mp4First[j])
    ensures options.WithBitrates? ==> options.mimeType in Mp4First && isTypeSupported(options.mimeType)
  {
    options := DefaultOptions;
    for i := 0 to |Mp4First|
      invariant options == DefaultOptions
      invariant forall j :: 0 <= j < i ==> !isTypeSupported(Mp4First[j])
    {
      if isTypeSupported(Mp4First[i]) {
        PickIsFirstAccepted(Mp4First, isTypeSupported, i);
        options := WithBitrates(Mp4First[i], MobileVideoBitrate, AudioBitrate);
        break;
      }
    }
  }

  /** `mediaRecorder.mimeType || 'video/webm'`. */
  function BlobType(reported: string): (t: string)
    ensures t != ""
    ensures reported != "" ==> t == reported
  {
    if reported != "" then reported else FallbackType
  }

  /** The type of the Blob a V1 recording ends in: the first type of the mp4-first
      list the platform supports, and otherwise the platform's own choice, or
      `video/webm` when it names none; it is never empty. */
  lemma MobileBlobType(isTypeSupported: string -> bool, platformDefault: string)
    ensures var t := BlobType(ReportedMimeType(MobileOptions(isTypeSupported), platformDefault));
      t != ""
      && (PickMimeType(Mp4First, isTypeSupported).Some? ==>
            t == PickMimeType(Mp4First, isTypeSupported).value && t in Mp4First && isTypeSupported(t))
      && (PickMimeType(Mp4First, isTypeSupported).None? ==>
            t == (if platformDefault != "" then platformDefault else FallbackType))
  {
  }

  class Recorder {
    const camera: DeviceStreams
    const scroller: Scroller
    /** `mediaRecorderRef.current`. */
    var recorder: Encoder?
    var isCameraOpen: bool
    var script: string
    var countdown: Option<nat>
    /** The countdown has just reached 0 and the effect that starts recording is due. */
    var startPending: bool
    var isRecording: bool
    var isPaused: bool
    var recordTime: nat
    /** `timerInterval !== null`: the one-second recording timer runs. */
    var timerActive: bool
    var recordedChunks: seq<Chunk>
    /** The history holds bare Blobs, newest first. */
    var videoList: seq<Blob>
    var videoURL: Option<Blob>
    var isPreviewMode: bool
    var error: Option<Notice>

    /** The teleprompter element exists: the camera view shows it while recording with a script. */
    predicate PrompterMounted()
      reads this
    {
      isCameraOpen && !isPreviewMode && script != "" && isRecording
    }

    /** The scrolling effect's condition. */
    predicate ScrollWanted()
      reads this
    {
      isRecording && !isPaused && PrompterMounted()
    }

    /** Nothing ever adds to `recordedChunks`: it is cleared on start and on close only. */
    ghost predicate ChunksValid()
      reads this`recorder, this`recordedChunks, recorder
    {
      recordedChunks == [] && (recorder != null ==> recorder.Valid())
    }

    /** `isRecording` and `isPaused` mirror the current recorder's state, and the
        timer runs exactly while recording unpaused. */
    ghost predicate FlagsValid()
      reads this`recorder, this`isRecording, this`isPaused, this`timerActive, recorder
    {
      (isPaused ==> isRecording)
      && (isRecording ==> recorder != null && recorder.state == (if isPaused then Paused else Recording))
      && (timerActive <==> isRecording && !isPaused)
    }

    /** The countdown runs from 3 only while not recording. */
    ghost predicate CountdownValid()
      reads this`countdown, this`startPending, this`isRecording
    {
      (countdown.Some? ==> countdown.value <= CountdownSeconds && !isRecording)
      && (startPending ==> countdown == Some(0))
    }

    /** The prompter scrolls only while recording and not paused, at the current speed. */
    ghost predicate ScrollValid()
      reads this`isRecording, this`isPaused, scroller
    {
      scroller.Valid()
      && (scroller.intervalSet ==> isRecording && !isPaused && scroller.intervalSpeed == scroller.speed)
    }

    /** The preview is always one of the recordings in the history. */
    ghost predicate HistoryValid()
      reads this`videoURL, this`videoList
    {
      videoURL.Some? ==> videoURL.value in videoList
    }

    /** Unlike the other variants, the streams need not all be accounted for:
        `openCamera` can leave one running that the ref does not hold. */
    ghost predicate Valid()
      reads this, camera, scroller, recorder
    {
      camera.Valid() && ChunksValid() && FlagsValid() && CountdownValid() && ScrollValid() && HistoryValid()
    }

    constructor ()
      ensures Valid() && fresh(camera) && fresh(scroller)
      ensures recorder == null && !isCameraOpen && script == ""
      ensures countdown == None && !isRecording && !isPaused && recordTime == 0
      ensures videoList == [] && videoURL == None && error == None
      ensures camera.live == {} && camera.current == None && camera.nextId == 0
    {
      camera := new DeviceStreams();
      scroller := new Scroller();
      recorder := null;
      isCameraOpen := false;
      script := "";
      countdown := None;
      startPending := false;
      isRecording := false;
      isPaused := false;
      recordTime := 0;
      timerActive := false;
      recordedChunks := [];
      videoList := [];
      videoURL := None;
      isPreviewMode := false;
      error := None;
    }

    /** The scrolling effect, run when `isRecording`, `isPaused` or the speed changed. */
    method SyncScrolling()
      requires scroller.Valid() && (ScrollWanted() ==> isRecording && !isPaused)
      modifies scroller
      ensures scroller.Valid()
      ensures scroller.speed == old(scroller.speed) && scroller.scrollTop == old(scroller.scrollTop)
      ensures ScrollWanted() ==> scroller.intervalSet && scroller.intervalSpeed == scroller.speed
      ensures !ScrollWanted() ==> !scroller.intervalSet
    {
      if ScrollWanted() {
        scroller.Start();
      } else {
        scroller.Stop();
      }
    }

    /** The script textarea. */
    method EditScript(text: string)
      requires Valid()
      modifies this`script
      ensures Valid() && script == text
    {
      script := text;
    }

    /** `openCamera` as written: stop the held stream's tracks; ask for a stream with
        the mobile constraints and tighten its video track; if either step rejects,
        ask once more with the fallback constraints, and only then report. A stream
        whose `applyConstraints` rejected is dropped without stopping its tracks. */
    method OpenCamera(primaryGranted: bool, constraintsApplied: bool, fallbackGranted: bool)
      requires Valid()
      modifies camera, this`isCameraOpen, this`error
      ensures Valid()
      ensures var n := old(camera.nextId);
        var stopped := if old(camera.current).Some? then old(camera.live) - {old(camera.current).value.id}
                       else old(camera.live);
        (primaryGranted && constraintsApplied ==>
           camera.current == Some(Stream(n, User)) && camera.live == stopped + {n})
        && (primaryGranted && !constraintsApplied && fallbackGranted ==>
           camera.current == Some(Stream(n + 1, User)) && camera.live == stopped + {n, n + 1})
        && (primaryGranted && !constraintsApplied && !fallbackGranted ==>
           camera.current == old(camera.current) && camera.live == stopped + {n})
        && (!primaryGranted && fallbackGranted ==>
           camera.current == Some(Stream(n, User)) && camera.live == stopped + {n})
        && (!primaryGranted && !fallbackGranted ==>
           camera.current == old(camera.current) && camera.live == stopped)
      ensures (primaryGranted && constraintsApplied) || fallbackGranted ==> isCameraOpen && error == None
      ensures !((primaryGranted && constraintsApplied) || fallbackGranted) ==>
        isCameraOpen == old(isCameraOpen) && error == Some(CameraAccessFailed)
    {
      camera.StopTracks();
      var primary := camera.Acquire(User, primaryGranted);
      if primary.Some? && constraintsApplied {
        camera.Hold(primary.value);
        isCameraOpen := true;
        error := None;
      } else {
        OpenFallback(fallbackGranted);
      }
    }

    /** The inner `catch` of `openCamera`: the fallback request. */
    method OpenFallback(fallbackGranted: bool)
      requires Valid()
      modifies camera, this`isCameraOpen, this`error
      ensures Valid()
      ensures fallbackGranted ==> (camera.current == Some(Stream(old(camera.nextId), User))
        && camera.live == old(camera.live) + {old(camera.nextId)} && isCameraOpen && error == None)
      ensures !fallbackGranted ==> (camera.current == old(camera.current) && camera.live == old(camera.live)
        && isCameraOpen == old(isCameraOpen) && error == Some(CameraAccessFailed))
    {
      var fallback := camera.Acquire(User, fallbackGranted);
      if fallback.Some? {
        camera.Hold(fallback.value);
        isCameraOpen := true;
        error := None;
      } else {
        error := Some(CameraAccessFailed);
      }
    }

    /** `openCamera` as intended: the stream whose `applyConstraints` rejected is
        stopped before falling back, so every running stream is the held one. */
    method OpenCameraReleasingPrimary(primaryGranted: bool, constraintsApplied: bool, fallbackGranted: bool)
      requires Valid()
      modifies camera, this`isCameraOpen, this`error
      ensures Valid()
      ensures var stopped := if old(camera.current).Some? then old(camera.live) - {old(camera.current).value.id}
                             else old(camera.live);
        ((primaryGranted && constraintsApplied) || fallbackGranted ==>
           camera.current.Some? && camera.live == stopped + {camera.current.value.id}
           && isCameraOpen && error == None)
        && (!((primaryGranted && constraintsApplied) || fallbackGranted) ==>
           camera.current == old(camera.current) && camera.live == stopped
           && isCameraOpen == old(isCameraOpen) && error == Some(CameraAccessFailed))
      ensures old(camera.NoLeak()) ==> camera.NoLeak()
    {
      camera.StopTracks();
      var primary := camera.Acquire(User, primaryGranted);
      if primary.Some? && constraintsApplied {
        camera.Hold(primary.value);
        isCameraOpen := true;
        error := None;
      } else {
        ReleaseAndFallBack(primary, fallbackGranted);
      }
    }

    /** The inner `catch` of the intended `openCamera`: stop the rejected stream, then fall back. */
    method ReleaseAndFallBack(primary: Option<Stream>, fallbackGranted: bool)
      requires Valid()
      requires primary.Some? ==> primary.value.id in camera.live
      modifies camera, this`isCameraOpen, this`error
      ensures Valid()
      ensures var kept := if primary.Some? then old(camera.live) - {primary.value.id} else old(camera.live);
        (fallbackGranted ==>
           camera.current == Some(Stream(old(camera.nextId), User))
           && camera.live == kept + {old(camera.nextId)} && isCameraOpen && error == None)
        && (!fallbackGranted ==>
           camera.current == old(camera.current) && camera.live == kept
           && isCameraOpen == old(isCameraOpen) && error == Some(CameraAccessFailed))
    {
      if primary.Some? {
        camera.StopStream(primary.value);
      }
      OpenFallback(fallbackGranted);
    }

    /** `startRecording`: without a stream on the webcam, report it; otherwise count down from 3. */
    method StartRecording(cam: Webcam)
      requires Valid() && countdown == None && !isRecording
      modifies this`countdown, this`error
      ensures Valid()
      ensures cam.stream.None? ==> countdown == None && error == Some(NoActiveStream)
      ensures cam.stream.Some? ==> countdown == Some(CountdownSeconds) && error == old(error)
    {
      if cam.stream.None? {
        error := Some(NoActiveStream);
      } else {
        countdown := Some(CountdownSeconds);
      }
    }

    /** One second of the countdown interval. */
    method CountdownTick()
      requires Valid() && countdown.Some? && countdown.value > 0
      modifies this`countdown, this`startPending
      ensures Valid() && countdown == Some(old(countdown.value) - 1)
      ensures startPending == (countdown == Some(0))
    {
      countdown := Some(countdown.value - 1);
      startPending := countdown == Some(0);
    }

    /** `startActualRecording`, run by the effect once the countdown reaches 0. The
        state updates come first and are batched with the `catch`: a missing stream
        ends the countdown and leaves nothing recording. `platformDefault` is the
        type the platform reports when the options name none. */
    method StartActualRecording(cam: Webcam, isTypeSupported: string -> bool, platformDefault: string)
      requires Valid() && startPending
      modifies this`startPending, this`isRecording, this`isPaused, this`recordedChunks
      modifies this`countdown, this`recorder, this`timerActive, this`error, scroller
      ensures Valid() && !startPending && countdown == None && !isPaused && recordedChunks == []
      ensures cam.stream.None? ==>
        error == Some(StartFailed(StreamMissing)) && !isRecording && recorder == old(recorder)
        && unchanged(scroller)
      ensures cam.stream.Some? ==>
        fresh(recorder) && recorder.options == MobileOptions(isTypeSupported)
        && recorder.mimeType == ReportedMimeType(MobileOptions(isTypeSupported), platformDefault)
        && recorder.state == Recording && recorder.timeslice == Some(Timeslice)
        && recorder.chunks == [] && recorder.captured == []
        && isRecording && timerActive && error == old(error)
        && (scroller.intervalSet <==> ScrollWanted())
    {
      if cam.stream.None? {
        AbortWithoutStream();
      } else {
        var options := ChooseOptions(isTypeSupported);
        BeginRecording(options, platformDefault);
      }
    }

    /** The throw on a missing stream, with the updates made before it. */
    method AbortWithoutStream()
      requires Valid() && startPending
      modifies this`startPending, this`isRecording, this`isPaused
      modifies this`recordedChunks, this`countdown, this`error
      ensures Valid() && !startPending
      ensures !isRecording && !isPaused && recordedChunks == [] && countdown == None
      ensures error == Some(StartFailed(StreamMissing))
    {
      ResetWithoutStream();
    }

    /** The batched state updates of that failure. */
    method ResetWithoutStream()
      modifies this`startPending, this`isRecording, this`isPaused
      modifies this`recordedChunks, this`countdown, this`error
      ensures !startPending && !isRecording && !isPaused && recordedChunks == [] && countdown == None
      ensures error == Some(StartFailed(StreamMissing))
    {
      startPending := false;
      isPaused := false;
      recordedChunks := [];
      countdown := None;
      error := Some(StartFailed(StreamMissing));
      isRecording := false;
    }

    /** The successful end of `startActualRecording`. */
    method BeginRecording(options: RecorderOptions, platformDefault: string)
      requires Valid() && startPending
      modifies this`startPending, this`isRecording, this`isPaused
      modifies this`recordedChunks, this`countdown, this`recorder, this`timerActive, scroller
      ensures Valid() && !startPending
      ensures isRecording && !isPaused && timerActive && countdown == None && recordedChunks == []
      ensures fresh(recorder) && recorder.options == options
      ensures recorder.mimeType == ReportedMimeType(options, platformDefault) && recorder.state == Recording
      ensures recorder.timeslice == Some(Timeslice) && recorder.chunks == [] && recorder.captured == []
      ensures scroller.intervalSet <==> ScrollWanted()
    {
      var encoder := new Encoder(options, platformDefault);
      encoder.Start(Some(Timeslice));
      MarkRecording(encoder);
      SyncScrolling();
    }

    /** The state updates of a successful start: recording on, chunks and countdown
        cleared, the recorder held in its ref, the timer running. */
    method MarkRecording(encoder: Encoder)
      modifies this`startPending, this`isRecording, this`isPaused
      modifies this`recordedChunks, this`countdown, this`recorder, this`timerActive
      ensures !startPending && recorder == encoder
      ensures isRecording && !isPaused && timerActive && countdown == None && recordedChunks == []
    {
      startPending := false;
      isRecording := true;
      isPaused := false;
      recordedChunks := [];
      countdown := None;
      recorder := encoder;
      timerActive := true;
    }

    /** The encoder producing bytes from the webcam's stream. */
    method OnCapture(data: seq<byte>)
      requires Valid() && recorder != null && recorder.state == Recording
      modifies recorder
      ensures Valid() && recorder.state == Recording && recorder.chunks == old(recorder.chunks)
      ensures recorder.captured == old(recorder.captured) + data
    {
      recorder.Capture(data);
    }

    /** `ondataavailable`: a non-empty payload goes into the closure array only. */
    method OnDataAvailable()
      requires Valid() && recorder != null
      requires recorder.state != Inactive || recorder.queued == DataThenStop
      modifies recorder
      ensures Valid() && recorder.state == old(recorder.state) && recorder.captured == old(recorder.captured)
      ensures recorder.buffer == [] && recorder.timeslice == old(recorder.timeslice)
      ensures recorder.queued == (if old(recorder.queued) == DataThenStop then StopOnly else old(recorder.queued))
      ensures var data := old(recorder.buffer);
        recorder.chunks == old(recorder.chunks) + (if |data| > 0 then [data] else [])
      ensures recordedChunks == []
    {
      var data := recorder.Emit();
    }

    /** `onstop`: the Blob of the closure array, typed with what the recorder reports
        or `video/webm`, becomes the preview and the newest history entry, even when
        no chunk arrived. */
    method OnRecorderStop()
      requires Valid() && recorder != null && recorder.queued == StopOnly
      modifies recorder, this`videoURL, this`videoList
      ensures Valid() && recorder.state == Inactive && recorder.queued == NotStopping
      ensures recorder.chunks == old(recorder.chunks) && recorder.captured == old(recorder.captured)
      ensures var blob := Blob(recorder.captured, BlobType(recorder.mimeType));
        videoList == [blob] + old(videoList) && videoURL == Some(blob)
      ensures |videoList| == |old(videoList)| + 1 && videoList[1..] == old(videoList)
    {
      var payload := recorder.Finish();
      var blob := Blob(payload, BlobType(recorder.mimeType));
      videoURL := Some(blob);
      videoList := [blob] + videoList;
    }

    /** `handlePlayedVideoFromList`: preview the clicked Blob. */
    method HandlePlayedVideoFromList(blob: Blob)
      requires Valid() && blob in videoList
      modifies this`videoURL, this`isPreviewMode
      ensures Valid() && videoURL == Some(blob) && isPreviewMode
    {
      videoURL := Some(blob);
      isPreviewMode := true;
    }

    /** `saveVideo`: download `recordedChunks` as `recorded-video-<ISO time>.webm` when
        there are any. Since nothing fills them, it never downloads. */
    method SaveVideo(isoTimestamp: string) returns (d: Option<Download>)
      requires Valid()
      ensures recordedChunks != [] ==> d == Some(Download(RecordedFileName(isoTimestamp), Concat(recordedChunks)))
      ensures d == None
    {
      if |recordedChunks| > 0 {
        d := Some(Download(RecordedFileName(isoTimestamp), Concat(recordedChunks)));
      } else {
        d := None;
      }
    }

    /** `saveVideo` as intended: the Save button shows under a preview, and saving
        downloads that preview's bytes, which are a whole recording from the history. */
    method SaveVideoFromPreview(isoTimestamp: string) returns (d: Option<Download>)
      requires Valid()
      ensures d.Some? <==> videoURL.Some?
      ensures videoURL.Some? ==> d == Some(Download(RecordedFileName(isoTimestamp), videoURL.value.payload))
      ensures d.Some? ==> exists b :: b in videoList && b.payload == d.value.payload
    {
      if videoURL.Some? {
        d := Some(Download(RecordedFileName(isoTimestamp), videoURL.value.payload));
      } else {
        d := None;
      }
    }

    /** `stopRecording`: when the current recorder is not inactive, stop it and the timer. */
    method StopRecording()
      requires Valid()
      modifies recorder, this`isRecording, this`isPaused, this`timerActive, scroller
      ensures Valid()
      ensures old(recorder != null && recorder.state != Inactive) ==>
        recorder.state == Inactive && recorder.queued == DataThenStop
        && !isRecording && !isPaused && !timerActive && !scroller.intervalSet
      ensures !old(recorder != null && recorder.state != Inactive) ==>
        (isRecording == old(isRecording) && isPaused == old(isPaused) && timerActive == old(timerActive)
        && (recorder != null ==> unchanged(recorder)) && unchanged(scroller))
      ensures recorder != null ==> (recorder.chunks == old(recorder.chunks)
          && recorder.buffer == old(recorder.buffer) && recorder.captured == old(recorder.captured))
      ensures scroller.speed == old(scroller.speed) && scroller.scrollTop == old(scroller.scrollTop)
    {
      if recorder != null && recorder.state != Inactive {
        recorder.Stop();
        isRecording := false;
        isPaused := false;
        timerActive := false;
        SyncScrolling();
      }
    }

    /** `togglePause`: pause (and stop the timer) or resume (and restart it). */
    method TogglePause()
      requires Valid()
      modifies recorder, this`isPaused, this`timerActive, scroller
      ensures Valid()
      ensures old(isRecording) ==> (isPaused == !old(isPaused)
          && recorder.state == (if isPaused then Paused else Recording)
          && timerActive == !isPaused && (scroller.intervalSet <==> ScrollWanted()))
      ensures !old(isRecording) ==> (isPaused == old(isPaused) && timerActive == old(timerActive)
          && (recorder != null ==> unchanged(recorder)) && unchanged(scroller))
      ensures recorder != null ==> (recorder.chunks == old(recorder.chunks)
          && recorder.buffer == old(recorder.buffer) && recorder.captured == old(recorder.captured))
    {
      if recorder != null && isRecording {
        if !isPaused {
          recorder.Pause();
          timerActive := false;
        } else {
          recorder.Resume();
          timerActive := true;
        }
        isPaused := !isPaused;
        SyncScrolling();
      }
    }

    /** One second of the recording timer. */
    method TimerTick()
      requires Valid() && timerActive
      modifies this`recordTime
      ensures Valid() && recordTime == old(recordTime) + 1
    {
      recordTime := recordTime + 1;
    }

    method ClosePreview()
      requires Valid()
      modifies this`isPreviewMode
      ensures Valid() && !isPreviewMode
    {
      isPreviewMode := false;
    }

    /** `closeCamera`: stop the held stream and reset the session's state. A stream
        the ref no longer holds keeps running; the history is kept. */
    method CloseCamera()
      requires Valid() && countdown == None
      modifies camera, scroller, this`isCameraOpen, this`isRecording, this`isPaused, this`timerActive
      modifies this`recordTime, this`videoURL, this`recordedChunks, this`error, this`countdown
      modifies this`isPreviewMode
      ensures Valid()
      ensures camera.current == None
      ensures camera.live == if old(camera.current).Some? then old(camera.live) - {old(camera.current).value.id}
                             else old(camera.live)
      ensures old(camera.NoLeak()) ==> camera.live == {}
      ensures !isCameraOpen && !isRecording && !isPaused && !timerActive && recordTime == 0
      ensures videoURL == None && recordedChunks == [] && error == None && countdown == None
      ensures !isPreviewMode && !scroller.intervalSet
    {
      camera.Release();
      ClearSession();
      SyncScrolling();
    }

    /** The state resets of `closeCamera`. */
    method ClearSession()
      modifies this`isCameraOpen, this`isRecording, this`isPaused, this`timerActive
      modifies this`recordTime, this`videoURL, this`recordedChunks, this`error, this`countdown
      modifies this`isPreviewMode
      ensures !isCameraOpen && !isRecording && !isPaused && !timerActive && recordTime == 0
      ensures videoURL == None && recordedChunks == [] && error == None && countdown == None
      ensures !isPreviewMode
    {
      isCameraOpen := false;
      isRecording := false;
      isPaused := false;
      timerActive := false;
      recordTime := 0;
      videoURL := None;
      recordedChunks := [];
      error := None;
      countdown := None;
      isPreviewMode := false;
    }

    /** The arrow buttons: clamp the speed; a changed speed re-runs the scrolling effect. */
    method AdjustScrollSpeed(change: real)
      requires Valid()
      modifies scroller
      ensures Valid() && scroller.speed == ClampSpeed(old(scroller.speed), change)
      ensures scroller.scrollTop == old(scroller.scrollTop)
    {
      var before := scroller.speed;
      scroller.Adjust(change);
      if scroller.speed != before {
        SyncScrolling();
      }
    }

    /** One firing of the scrolling interval. */
    method ScrollTick()
      requires Valid() && scroller.intervalSet
      modifies scroller
      ensures Valid()
      ensures scroller.scrollTop == old(scroller.scrollTop) + (if PrompterMounted() then scroller.speed else 0.0)
    {
      scroller.Tick(PrompterMounted());
    }
  }
}
