/** Whole sessions driven through the handlers in the order the browser and the
    user would fire them, each ending in a concrete observable outcome. */
module Scenarios {
  import opened Media
  import opened Formats
  import opened Encoding
  import RecorderBasic
  import RecorderV1
  import RecorderV2

  /** A webcam with one video and one audio track. */
  const FrontCamera: Webcam := Webcam(true, Some(Tracks(1, 1)), 640, 480)

  /** Recorder.js: open the camera and count down to a running recording. */
  method StartedSession() returns (r: RecorderBasic.Recorder)
    ensures fresh(r) && fresh(r.scroller) && fresh(r.camera) && r.recorder != null && fresh(r.recorder)
    ensures r.Valid() && r.isRecording && !r.isPaused
    ensures r.recorder.captured == [] && r.recorder.chunks == [] && r.recordedChunks == []
  {
    r := new RecorderBasic.Recorder();
    r.OpenCamera(true);
    r.StartRecording(FrontCamera);
    r.CountdownTick();
    r.CountdownTick();
    r.CountdownTick();
    r.StartActualRecording(FrontCamera, t => true, "video/webm");
  }

  /** Record two bytes, pause, resume, record one more, stop, and deliver the
      events the stop queued. */
  method PauseResumeStop(r: RecorderBasic.Recorder)
    requires r.Valid() && r.isRecording && !r.isPaused && r.recorder != null
    requires r.recorder.captured == [] && r.recorder.chunks == [] && r.recordedChunks == []
    modifies r, r.recorder, r.scroller
    ensures r.Valid() && r.recorder != null && r.recorder.buffer == []
    ensures r.recorder.captured == [1, 2, 3] && r.recordedChunks == r.recorder.chunks
  {
    r.OnCapture([1, 2]);
    r.PauseRecording();
    r.ResumeRecording();
    r.OnCapture([3]);
    r.StopRecording();
    r.OnDataAvailable();
    r.OnRecorderStop();
  }

  /** The whole Recorder.js session: the flushes at pause and stop lose nothing,
      so saving downloads all three bytes in order under the sanitised timestamp. */
  method PausedSessionSavesEverything() returns (d: Option<Download>)
    ensures d == Some(Download(RecordedFileName("2024-01-01T00:00:00.000Z"), [1, 2, 3]))
  {
    var r := StartedSession();
    PauseResumeStop(r);
    d := r.SaveVideo("2024-01-01T00:00:00.000Z");
  }

  /** The V1 variant, as written: the mobile constraints are granted but
      `applyConstraints` rejects, the fallback is granted, and the camera is
      closed. The first stream (number 0) is still running afterwards. */
  method RejectedConstraintsLeakStream() returns (running: set<nat>)
    ensures running == {0}
  {
    var r := new RecorderV1.Recorder();
    r.OpenCamera(true, false, true);
    r.CloseCamera();
    running := r.camera.live;
  }

  /** The same session with the rejected stream stopped before falling back:
      closing the camera leaves nothing running. */
  method ReleasedStreamDoesNotOutliveClose() returns (running: set<nat>)
    ensures running == {}
  {
    var r := new RecorderV1.Recorder();
    r.OpenCameraReleasingPrimary(true, false, true);
    r.CloseCamera();
    running := r.camera.live;
  }

  /** The V1 variant: open the camera and count down to a running recording. */
  method StartedMobileSession() returns (r: RecorderV1.Recorder)
    ensures fresh(r) && fresh(r.scroller) && r.recorder != null && fresh(r.recorder)
    ensures r.Valid() && r.isRecording && !r.isPaused && r.recorder.captured == []
  {
    r := new RecorderV1.Recorder();
    r.OpenCamera(true, true, false);
    r.StartRecording(FrontCamera);
    r.CountdownTick();
    r.CountdownTick();
    r.CountdownTick();
    r.StartActualRecording(FrontCamera, t => true, "");
  }

  /** Record two bytes, stop, and deliver the events the stop queued. */
  method RecordTwoBytes(r: RecorderV1.Recorder)
    requires r.Valid() && r.isRecording && !r.isPaused && r.recorder != null && r.recorder.captured == []
    modifies r, r.recorder, r.scroller
    ensures r.Valid() && !r.isRecording && r.videoURL.Some? && r.videoURL.value.payload == [1, 2]
  {
    r.OnCapture([1, 2]);
    r.StopRecording();
    r.OnDataAvailable();
    r.OnRecorderStop();
  }

  /** The V1 variant: after a recording of two bytes the Save button is offered,
      yet `saveVideo` as written downloads nothing, while saving the preview
      downloads the recording. */
  method SaveAfterRecording() returns (asWritten: Option<Download>, intended: Option<Download>)
    ensures asWritten == None
    ensures intended == Some(Download(RecordedFileName("t"), [1, 2]))
  {
    var r := StartedMobileSession();
    RecordTwoBytes(r);
    asWritten := r.SaveVideo("t");
    intended := r.SaveVideoFromPreview("t");
  }

  /** A webcam whose stream has a video track but no audio track. */
  const MutedCamera: Webcam := Webcam(true, Some(Tracks(1, 0)), 640, 480)

  /** The V2 variant: open the camera and let the countdown reach 0. */
  method CountedDown() returns (r: RecorderV2.Recorder)
    ensures fresh(r) && fresh(r.scroller) && r.Valid() && r.startPending
  {
    r := new RecorderV2.Recorder();
    r.OpenCamera(true);
    r.StartRecording(MutedCamera);
    r.CountdownTick();
    r.CountdownTick();
    r.CountdownTick();
  }

  /** The V2 variant with a stream that lacks an audio track: as written the
      countdown is left showing 0 with every control that could clear it disabled;
      with the countdown cleared on failure, Record is available again. */
  method MissingAudioTrack() returns (asWritten: Option<nat>, intended: Option<nat>, stuck: bool)
    ensures asWritten == Some(0) && stuck
    ensures intended == None
  {
    var r := CountedDown();
    r.StartActualRecording(MutedCamera, t => true);
    asWritten := r.countdown;
    stuck := r.CountdownStuck();
    var q := CountedDown();
    q.StartActualRecordingClearingCountdown(MutedCamera, t => true);
    intended := q.countdown;
  }
}
