/** Recorder.js: the first recording screen. Pause and resume are separate
    handlers guarded on the recorder's own state, and pausing or stopping first
    flushes the pending bytes with `requestData()`. There is no history: each
    `onstop` replaces the single preview, and saving downloads `recordedChunks`. */
module RecorderBasic {
  import opened Media
  import opened Formats
  import opened MimeTypes
  import opened Teleprompter
  import opened Devices
  import opened Encoding

  const CountdownSeconds: nat := 3
  /** The `start(200)` timeslice, in milliseconds. */
  const Timeslice: nat := 200
  /** Both the preview and the download are typed `video/webm` whatever was recorded. */
  const BlobType: string := "video/webm"

  class Recorder {
    const camera: DeviceStreams
    const scroller: Scroller
    /** `mediaRecorderRef.current`. */
    var recorder: Encoder?
    var isCameraOpen: bool
    var script: string
    var isEditingScript: bool
    var countdown: Option<nat>
    /** The countdown has just reached 0 and the effect that starts recording is due. */
    var startPending: bool
    var isRecording: bool
    var isPaused: bool
    var recordTime: nat
    /** The one-second recording timer runs. */
    var timerActive: bool
    var recordedChunks: seq<Chunk>
    var videoURL: Option<Blob>
    var error: Option<Notice>

    /** `prompterRef.current` is set: the camera view shows the script, not its editor. */
    predicate PrompterMounted()
      reads this
    {
      isCameraOpen && script != "" && !isEditingScript
    }

    /** The scrolling effect's condition. */
    predicate ScrollWanted()
      reads this
    {
      isRecording && !isPaused && PrompterMounted()
    }

    /** `recordedChunks` is what the current recorder delivered since the last
        reset: the tail of its closure array. */
    ghost predicate ChunksValid()
      reads this`recorder, this`recordedChunks, recorder
    {
      (recorder != null ==> recorder.Valid() && IsSuffix(recordedChunks, recorder.chunks))
      && (recorder == null ==> recordedChunks == [])
    }

    /** `isRecording` and `isPaused` mirror the current recorder's state, and the
        timer runs exactly while recording unpaused. */
    ghost predicate FlagsValid()
      reads this`recorder, this`isRecording, this`isPaused, this`timerActive, recorder
    {
      (isPaused ==> isRecording)
      && (isRecording ==> recorder != null && recorder.state == (if isPaused then Paused else Recording))
      && (timerActive <==> isRecording && !isPaused)
    }

    /** The countdown runs from 3 only while not recording. */
    ghost predicate CountdownValid()
      reads this`countdown, this`startPending, this`isRecording
    {
      (countdown.Some? ==> countdown.value <= CountdownSeconds && !isRecording)
      && (startPending ==> countdown == Some(0))
    }

    /** The prompter scrolls only while recording and not paused, at the current speed. */
    ghost predicate ScrollValid()
      reads this`isRecording, this`isPaused, scroller
    {
      scroller.Valid()
      && (scroller.intervalSet ==> isRecording && !isPaused && scroller.intervalSpeed == scroller.speed)
    }

    ghost predicate Valid()
      reads this, camera, scroller, recorder
    {
      camera.Valid() && camera.NoLeak() && ChunksValid() && FlagsValid() && CountdownValid() && ScrollValid()
    }

    constructor ()
      ensures Valid() && fresh(camera) && fresh(scroller)
      ensures recorder == null && !isCameraOpen && script == "" && !isEditingScript
      ensures countdown == None && !isRecording && !isPaused && recordTime == 0
      ensures videoURL == None && error == None && recordedChunks == []
    {
      camera := new DeviceStreams();
      scroller := new Scroller();
      recorder := null;
      isCameraOpen := false;
      script := "";
      isEditingScript := false;
      countdown := None;
      startPending := false;
      isRecording := false;
      isPaused := false;
      recordTime := 0;
      timerActive := false;
      recordedChunks := [];
      videoURL := None;
      error := None;
    }

    /** The scrolling effect, run when `isRecording`, `isPaused` or the speed changed.
        Starting first clears any running interval, so at most one ever runs. */
    method SyncScrolling()
      requires scroller.Valid() && (ScrollWanted() ==> isRecording && !isPaused)
      modifies scroller
      ensures scroller.Valid()
      ensures scroller.speed == old(scroller.speed) && scroller.scrollTop == old(scroller.scrollTop)
      ensures ScrollWanted() ==> scroller.intervalSet && scroller.intervalSpeed == scroller.speed
      ensures !ScrollWanted() ==> !scroller.intervalSet
    {
      if ScrollWanted() {
        scroller.Start();
      } else {
        scroller.Stop();
      }
    }

    /** `handleScriptChange`. */
    method EditScript(text: string)
      requires Valid()
      modifies this`script
      ensures Valid() && script == text
    {
      script := text;
    }

    /** `toggleScriptEdit`: swap the prompter for its editor or back. */
    method ToggleScriptEdit()
      requires Valid()
      modifies this`isEditingScript
      ensures Valid() && isEditingScript == !old(isEditingScript)
    {
      isEditingScript := !isEditingScript;
    }

    /** `openCamera`: stop the held stream's tracks, then ask for a user-facing stream;
        a refusal is reported and leaves the (stopped) stream in the ref. */
    method OpenCamera(granted: bool)
      requires Valid()
      modifies camera, this`isCameraOpen, this`error
      ensures Valid()
      ensures granted ==> (camera.current == Some(Stream(old(camera.nextId), User))
        && camera.live == {old(camera.nextId)} && isCameraOpen && error == None)
      ensures !granted ==> (camera.current == old(camera.current) && camera.live == {}
        && isCameraOpen == old(isCameraOpen) && error == Some(CameraAccessFailed))
    {
      camera.StopTracks();
      var s := camera.Acquire(User, granted);
      if s.Some? {
        camera.Hold(s.value);
        isCameraOpen := true;
        error := None;
      } else {
        error := Some(CameraAccessFailed);
      }
    }

    /** `startRecording`: without a stream on the webcam, report it; otherwise count down from 3. */
    method StartRecording(cam: Webcam)
      requires Valid() && countdown == None && !isRecording
      modifies this`countdown, this`error
      ensures Valid()
      ensures cam.stream.None? ==> countdown == None && error == Some(NoActiveStream)
      ensures cam.stream.Some? ==> countdown == Some(CountdownSeconds) && error == old(error)
    {
      if cam.stream.None? {
        error := Some(NoActiveStream);
      } else {
        countdown := Some(CountdownSeconds);
      }
    }

    /** One second of the countdown interval. */
    method CountdownTick()
      requires Valid() && countdown.Some? && countdown.value > 0
      modifies this`countdown, this`startPending
      ensures Valid() && countdown == Some(old(countdown.value) - 1)
      ensures startPending == (countdown == Some(0))
    {
      countdown := Some(countdown.value - 1);
      startPending := countdown == Some(0);
    }

    /** `startActualRecording`, run by the effect once the countdown reaches 0. The
        state updates made before `new MediaRecorder` are batched with the `catch`:
        without a stream nothing records and the countdown is over. The format is
        vp9, then webm, then the platform's choice, so it never fails. */
    method StartActualRecording(cam: Webcam, isTypeSupported: string -> bool, platformDefault: string)
      requires Valid() && startPending
      modifies this`startPending, this`isRecording, this`isPaused, this`recordedChunks
      modifies this`countdown, this`recorder, this`timerActive, this`error, scroller
      ensures Valid() && !startPending && countdown == None && !isPaused && recordedChunks == []
      ensures cam.stream.None? ==>
        error == Some(StartFailed(StreamMissing)) && !isRecording && recorder == old(recorder)
        && unchanged(scroller)
      ensures cam.stream.Some? ==>
        fresh(recorder) && recorder.options == PreferredOptions(isTypeSupported)
        && recorder.mimeType == ReportedMimeType(PreferredOptions(isTypeSupported), platformDefault)
        && recorder.state == Recording && recorder.timeslice == Some(Timeslice)
        && recorder.chunks == [] && recorder.captured == []
        && isRecording && timerActive && error == old(error)
        && (scroller.intervalSet <==> ScrollWanted())
    {
      if cam.stream.None? {
        AbortWithoutStream();
      } else {
        BeginRecording(PreferredOptions(isTypeSupported), platformDefault);
      }
    }

    /** The `catch` of `startActualRecording`, with the updates made before the throw. */
    method AbortWithoutStream()
      requires Valid() && startPending
      modifies this`startPending, this`isRecording, this`isPaused
      modifies this`recordedChunks, this`countdown, this`error
      ensures Valid() && !startPending
      ensures !isRecording && !isPaused && recordedChunks == [] && countdown == None
      ensures error == Some(StartFailed(StreamMissing))
    {
      ResetWithoutStream();
    }

    /** The batched state updates of that failure. */
    method ResetWithoutStream()
      modifies this`startPending, this`isRecording, this`isPaused
      modifies this`recordedChunks, this`countdown, this`error
      ensures !startPending && !isRecording && !isPaused && recordedChunks == [] && countdown == None
      ensures error == Some(StartFailed(StreamMissing))
    {
      startPending := false;
      isPaused := false;
      recordedChunks := [];
      countdown := None;
      error := Some(StartFailed(StreamMissing));
      isRecording := false;
    }

    /** The successful end of `startActualRecording`. */
    method BeginRecording(options: RecorderOptions, platformDefault: string)
      requires Valid() && startPending
      modifies this`startPending, this`isRecording, this`isPaused
      modifies this`recordedChunks, this`countdown, this`recorder, this`timerActive, scroller
      ensures Valid() && !startPending
      ensures isRecording && !isPaused && timerActive && countdown == None && recordedChunks == []
      ensures fresh(recorder) && recorder.options == options
      ensures recorder.mimeType == ReportedMimeType(options, platformDefault) && recorder.state == Recording
      ensures recorder.timeslice == Some(Timeslice) && recorder.chunks == [] && recorder.captured == []
      ensures scroller.intervalSet <==> ScrollWanted()
    {
      var encoder := new Encoder(options, platformDefault);
      encoder.Start(Some(Timeslice));
      MarkRecording(encoder);
      SyncScrolling();
    }

    /** The state updates of a successful start. */
    method MarkRecording(encoder: Encoder)
      modifies this`startPending, this`isRecording, this`isPaused
      modifies this`recordedChunks, this`countdown, this`recorder, this`timerActive
      ensures !startPending && recorder == encoder
      ensures isRecording && !isPaused && timerActive && countdown == None && recordedChunks == []
    {
      startPending := false;
      isRecording := true;
      isPaused := false;
      recordedChunks := [];
      countdown := None;
      recorder := encoder;
      timerActive := true;
    }

    /** The encoder producing bytes from the webcam's stream. */
    method OnCapture(data: seq<byte>)
      requires Valid() && recorder != null && recorder.state == Recording
      modifies recorder
      ensures Valid() && recorder.state == Recording && recorder.chunks == old(recorder.chunks)
      ensures recorder.captured == old(recorder.captured) + data
    {
      recorder.Capture(data);
    }

    /** `ondataavailable`: a non-empty payload goes into the closure array and onto `recordedChunks`. */
    method OnDataAvailable()
      requires Valid() && recorder != null
      requires recorder.state != Inactive || recorder.queued == DataThenStop
      modifies recorder, this`recordedChunks
      ensures Valid() && recorder.state == old(recorder.state) && recorder.captured == old(recorder.captured)
      ensures recorder.buffer == [] && recorder.timeslice == old(recorder.timeslice)
      ensures recorder.queued == (if old(recorder.queued) == DataThenStop then StopOnly else old(recorder.queued))
      ensures var data := old(recorder.buffer);
        recorder.chunks == old(recorder.chunks) + (if |data| > 0 then [data] else [])
        && recordedChunks == old(recordedChunks) + (if |data| > 0 then [data] else [])
    {
      var data := recorder.Emit();
      if |data| > 0 {
        SuffixExtend(recordedChunks, old(recorder.chunks), data);
        recordedChunks := recordedChunks + [data];
      }
    }

    /** `onstop`: the Blob of the whole closure array, typed `video/webm`, replaces the preview. */
    method OnRecorderStop()
      requires Valid() && recorder != null && recorder.queued == StopOnly
      modifies recorder, this`videoURL
      ensures Valid() && recorder.state == Inactive && recorder.queued == NotStopping
      ensures recorder.chunks == old(recorder.chunks) && recorder.captured == old(recorder.captured)
      ensures recorder.buffer == [] && videoURL == Some(Blob(recorder.captured, BlobType))
    {
      var payload := recorder.Finish();
      videoURL := Some(Blob(payload, BlobType));
    }

    /** `pauseRecording`, reachable from the Pause button while recording: only a
        recorder in the `recording` state is paused; then the timer stops and the
        pending bytes are flushed. */
    method PauseRecording()
      requires Valid() && isRecording
      modifies recorder, this`isPaused, this`timerActive, this`recordedChunks, scroller
      ensures Valid() && isRecording
      ensures recorder.captured == old(recorder.captured) && recorder.queued == old(recorder.queued)
      ensures old(recorder.state) == Recording ==> (isPaused && !timerActive && recorder.state == Paused
        && recorder.buffer == [] && !scroller.intervalSet
        && var data := old(recorder.buffer);
           recorder.chunks == old(recorder.chunks) + (if |data| > 0 then [data] else [])
           && recordedChunks == old(recordedChunks) + (if |data| > 0 then [data] else []))
      ensures old(recorder.state) != Recording ==> (isPaused == old(isPaused) && timerActive == old(timerActive)
        && recorder.state == old(recorder.state) && recorder.chunks == old(recorder.chunks)
        && recorder.buffer == old(recorder.buffer) && recordedChunks == old(recordedChunks)
        && unchanged(scroller))
    {
      if recorder.state == Recording {
        recorder.Pause();
        timerActive := false;
        isPaused := true;
        SyncScrolling();
        OnDataAvailable();
      }
    }

    /** `resumeRecording`, reachable from the Resume button while recording: only a
        recorder in the `paused` state is resumed; then the timer restarts. */
    method ResumeRecording()
      requires Valid() && isRecording
      modifies recorder, this`isPaused, this`timerActive, scroller
      ensures Valid() && isRecording
      ensures recorder.captured == old(recorder.captured) && recorder.chunks == old(recorder.chunks)
      ensures recorder.buffer == old(recorder.buffer) && recordedChunks == old(recordedChunks)
      ensures old(recorder.state) == Paused ==> (!isPaused && timerActive && recorder.state == Recording
        && (scroller.intervalSet <==> ScrollWanted()))
      ensures old(recorder.state) != Paused ==> (isPaused == old(isPaused) && timerActive == old(timerActive)
        && recorder.state == old(recorder.state) && unchanged(scroller))
    {
      if recorder.state == Paused {
        recorder.Resume();
        timerActive := true;
        isPaused := false;
        SyncScrolling();
      }
    }

    /** `stopRecording`: when the current recorder is not inactive, flush its pending
        bytes, stop it, and stop the timer. */
    method StopRecording()
      requires Valid()
      modifies recorder, this`isRecording, this`isPaused, this`timerActive, this`recordedChunks, scroller
      ensures Valid()
      ensures old(recorder != null && recorder.state != Inactive) ==>
        (recorder.state == Inactive && recorder.queued == DataThenStop && recorder.buffer == []
        && recorder.captured == old(recorder.captured)
        && !isRecording && !isPaused && !timerActive && !scroller.intervalSet
        && var data := old(recorder.buffer);
           recorder.chunks == old(recorder.chunks) + (if |data| > 0 then [data] else [])
           && recordedChunks == old(recordedChunks) + (if |data| > 0 then [data] else []))
      ensures !old(recorder != null && recorder.state != Inactive) ==>
        (isRecording == old(isRecording) && isPaused == old(isPaused) && timerActive == old(timerActive)
        && recordedChunks == old(recordedChunks) && unchanged(scroller)
        && (recorder != null ==> unchanged(recorder)))
    {
      if recorder != null && recorder.state != Inactive {
        OnDataAvailable();
        recorder.Stop();
        isRecording := false;
        isPaused := false;
        timerActive := false;
        SyncScrolling();
      }
    }

    /** `saveVideo`: download `recordedChunks` as `recorded-video-<ISO time>.webm` when
        there are any. After a complete recording that is every byte it encoded. */
    method SaveVideo(isoTimestamp: string) returns (d: Option<Download>)
      requires Valid()
      ensures d.Some? <==> recordedChunks != []
      ensures d.Some? ==> d.value == Download(RecordedFileName(isoTimestamp), Concat(recordedChunks))
      ensures recorder != null && recordedChunks == recorder.chunks && recorder.buffer == [] ==>
        d == (if recorder.captured == [] then None
              else Some(Download(RecordedFileName(isoTimestamp), recorder.captured)))
    {
      if |recordedChunks| > 0 {
        d := Some(Download(RecordedFileName(isoTimestamp), Concat(recordedChunks)));
      } else {
        d := None;
      }
      if recorder != null && recordedChunks == recorder.chunks && recorder.buffer == [] {
        assert ChunksValid() && recorder.Valid();
        assert Concat(recorder.chunks) + [] == recorder.captured;
        NonEmptyChunks(recorder.chunks);
        assert d.Some? ==> d.value.payload == recorder.captured;
      }
    }

    /** One second of the recording timer. */
    method TimerTick()
      requires Valid() && timerActive
      modifies this`recordTime
      ensures Valid() && recordTime == old(recordTime) + 1
    {
      recordTime := recordTime + 1;
    }

    /** `closeCamera`: stop the held stream, stop scrolling, and reset the session;
        the recorder itself is not stopped. */
    method CloseCamera()
      requires Valid() && countdown == None
      modifies camera, scroller, this`isCameraOpen, this`isRecording, this`isPaused, this`timerActive
      modifies this`recordTime, this`videoURL, this`recordedChunks, this`error, this`countdown
      ensures Valid()
      ensures camera.current == None && camera.live == {}
      ensures !isCameraOpen && !isRecording && !isPaused && !timerActive && recordTime == 0
      ensures videoURL == None && recordedChunks == [] && error == None && countdown == None
      ensures !scroller.intervalSet && scroller.speed == old(scroller.speed)
    {
      camera.Release();
      scroller.Stop();
      ClearSession();
    }

    /** The state resets of `closeCamera`. */
    method ClearSession()
      modifies this`isCameraOpen, this`isRecording, this`isPaused, this`timerActive
      modifies this`recordTime, this`videoURL, this`recordedChunks, this`error, this`countdown
      ensures !isCameraOpen && !isRecording && !isPaused && !timerActive && recordTime == 0
      ensures videoURL == None && recordedChunks == [] && error == None && countdown == None
    {
      isCameraOpen := false;
      isRecording := false;
      isPaused := false;
      timerActive := false;
      recordTime := 0;
      videoURL := None;
      recordedChunks := [];
      error := None;
      countdown := None;
    }

    /** The arrow buttons: clamp the speed; a changed speed re-runs the scrolling effect. */
    method AdjustScrollSpeed(change: real)
      requires Valid()
      modifies scroller
      ensures Valid() && scroller.speed == ClampSpeed(old(scroller.speed), change)
      ensures scroller.scrollTop == old(scroller.scrollTop)
    {
      var before := scroller.speed;
      scroller.Adjust(change);
      if scroller.speed != before {
        SyncScrolling();
      }
    }

    /** One firing of the scrolling interval. */
    method ScrollTick()
      requires Valid() && scroller.intervalSet
      modifies scroller
      ensures Valid()
      ensures scroller.scrollTop == old(scroller.scrollTop) + (if PrompterMounted() then scroller.speed else 0.0)
    {
      scroller.Tick(PrompterMounted());
    }
  }
}
