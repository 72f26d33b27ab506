/** The drawing step of RecorderV4.js (`processVideoFrame`): each animation frame
    sizes the canvas to the video once, redraws the camera frame, and, when a
    filter other than `none` is active, redraws it once more through that filter
    using a scratch canvas. The canvas is what `captureStream(30)` records. */
module Compositor {
  import opened Media

  /** A filter entry: its `id` and its CSS `filter` string. */
  datatype Filter = Filter(id: string, filter: string)

  /** The filter the shared context starts with. */
  const NormalFilter := Filter("normal", "none")

  /** What a bitmap shows: nothing, the camera frame, or a bitmap drawn through a CSS filter. */
  datatype Picture = Blank | CameraFrame | Filtered(filter: string, inner: Picture)

  /** A 2D context's state during one frame: the main bitmap, its current
      `ctx.filter`, and the scratch canvas. */
  datatype Context = Context(picture: Picture, filter: string, scratch: Picture)

  /** The canvas element: its size, its bitmap and its context's `filter`. */
  datatype Canvas = Canvas(width: nat, height: nat, picture: Picture, filter: string)

  /** An element as created: 300 by 150, blank, no filter. */
  const NewCanvas := Canvas(300, 150, Blank, "none")

  /** One drawing call of the frame routine. */
  datatype Pass =
    | ClearRect
    | SetFilter(filter: string)
    | DrawVideo
    | CopyToScratch
    | DrawScratch

  /** `drawImage` with the context's filter: `none` draws the source as it is. */
  function Through(filter: string, source: Picture): Picture
  {
    if filter == "none" then source else Filtered(filter, source)
  }

  function Step(ctx: Context, pass: Pass): Context
  {
    match pass
    case ClearRect => ctx.(picture := Blank)
    case SetFilter(f) => ctx.(filter := f)
    case DrawVideo => ctx.(picture := Through(ctx.filter, CameraFrame))
    // the scratch context is new, so its filter is `none`
    case CopyToScratch => ctx.(scratch := ctx.picture)
    case DrawScratch => ctx.(picture := Through(ctx.filter, ctx.scratch))
  }

  function Run(ctx: Context, passes: seq<Pass>): Context
    decreases |passes|
  {
    if passes == [] then ctx else Run(Step(ctx, passes[0]), passes[1..])
  }

  /** `activeFilter && activeFilter.filter !== 'none'`. */
  predicate FilterActive(activeFilter: Option<Filter>)
  {
    activeFilter.Some? && activeFilter.value.filter != "none"
  }

  /** The calls of one frame, in source order. */
  function FramePasses(activeFilter: Option<Filter>): (passes: seq<Pass>)
    ensures |passes| == if FilterActive(activeFilter) then 7 else 3
  {
    [ClearRect, SetFilter("none"), DrawVideo]
    + if FilterActive(activeFilter)
      then [CopyToScratch, ClearRect, SetFilter(activeFilter.value.filter), DrawScratch]
      else []
  }

  /** `if (canvas.width !== video.videoWidth)`: resize once; a resize clears the
      bitmap and resets the context. */
  function FitToVideo(canvas: Canvas, videoWidth: nat, videoHeight: nat): (c: Canvas)
    ensures c.width == videoWidth
    ensures canvas.width == videoWidth ==> c == canvas
    ensures canvas.width != videoWidth ==> c == Canvas(videoWidth, videoHeight, Blank, "none")
  {
    if canvas.width != videoWidth then Canvas(videoWidth, videoHeight, Blank, "none") else canvas
  }

  /** One call of `processVideoFrame` while the video and the canvas exist. */
  function RenderFrame(canvas: Canvas, videoWidth: nat, videoHeight: nat, activeFilter: Option<Filter>): (c: Canvas)
  {
    var fitted := FitToVideo(canvas, videoWidth, videoHeight);
    var ctx := Run(Context(fitted.picture, fitted.filter, Blank), FramePasses(activeFilter));
    Canvas(fitted.width, fitted.height, ctx.picture, ctx.filter)
  }

  /** The picture a frame should show: the camera frame, through the active filter if any. */
  function Look(activeFilter: Option<Filter>): Picture
  {
    if FilterActive(activeFilter) then Filtered(activeFilter.value.filter, CameraFrame) else CameraFrame
  }

  lemma {:induction false} RunAppend(ctx: Context, p: seq<Pass>, q: seq<Pass>)
    ensures Run(ctx, p + q) == Run(Run(ctx, p), q)
    decreases |p|
  {
    if p != [] {
      assert (p + q)[0] == p[0] && (p + q)[1..] == p[1..] + q;
      RunAppend(Step(ctx, p[0]), p[1..], q);
    } else {
      assert p + q == q;
    }
  }

  /** Whatever the bitmap held before, a frame shows the camera frame filtered
      exactly once, by the active filter, leaves that filter on the context, and
      keeps the canvas at the video's width (its height changes only on a resize). */
  lemma {:induction false} FrameShowsFilteredCamera(canvas: Canvas, videoWidth: nat, videoHeight: nat,
                                                    activeFilter: Option<Filter>)
    ensures var c := RenderFrame(canvas, videoWidth, videoHeight, activeFilter);
      c.picture == Look(activeFilter)
      && c.filter == (if FilterActive(activeFilter) then activeFilter.value.filter else "none")
      && c.width == videoWidth
      && c.height == (if canvas.width != videoWidth then videoHeight else canvas.height)
  {
    var fitted := FitToVideo(canvas, videoWidth, videoHeight);
    var start := Context(fitted.picture, fitted.filter, Blank);
    var base := [ClearRect, SetFilter("none"), DrawVideo];
    var afterBase := Context(CameraFrame, "none", Blank);
    assert Run(start, base) == afterBase by {
      var s1 := Step(start, ClearRect);
      var s2 := Step(s1, SetFilter("none"));
      var s3 := Step(s2, DrawVideo);
      assert s3 == afterBase;
      assert base[1..] == [SetFilter("none"), DrawVideo];
      assert base[1..][1..] == [DrawVideo];
      assert base[1..][1..][1..] == [];
      assert Run(s3, []) == s3;
      assert Run(s2, [DrawVideo]) == s3;
      assert Run(s1, [SetFilter("none"), DrawVideo]) == s3;
    }
    var passes := FramePasses(activeFilter);
    var end := Run(start, passes);
    if FilterActive(activeFilter) {
      var f := activeFilter.value.filter;
      var extra := [CopyToScratch, ClearRect, SetFilter(f), DrawScratch];
      assert passes == base + extra;
      RunAppend(start, base, extra);
      var t1 := Step(afterBase, CopyToScratch);
      var t2 := Step(t1, ClearRect);
      var t3 := Step(t2, SetFilter(f));
      var t4 := Step(t3, DrawScratch);
      assert t4 == Context(Filtered(f, CameraFrame), f, CameraFrame);
      assert extra[1..] == [ClearRect, SetFilter(f), DrawScratch];
      assert extra[1..][1..] == [SetFilter(f), DrawScratch];
      assert extra[1..][1..][1..] == [DrawScratch];
      assert extra[1..][1..][1..][1..] == [];
      assert Run(t4, []) == t4;
      assert Run(t3, [DrawScratch]) == t4;
      assert Run(t2, [SetFilter(f), DrawScratch]) == t4;
      assert Run(t1, [ClearRect, SetFilter(f), DrawScratch]) == t4;
      assert end == t4;
    } else {
      assert passes == base;
      assert end == afterBase;
    }
  }

  /** Once the canvas matches the video, further frames never resize it: the
      "set canvas size once" guard. */
  lemma FramesKeepSize(canvas: Canvas, videoWidth: nat, videoHeight: nat, activeFilter: Option<Filter>)
    requires canvas.width == videoWidth
    ensures var c := RenderFrame(canvas, videoWidth, videoHeight, activeFilter);
      c.width == canvas.width && c.height == canvas.height
  {
    FrameShowsFilteredCamera(canvas, videoWidth, videoHeight, activeFilter);
  }

  /** `canvas.width = video.videoWidth; canvas.height = video.videoHeight` in
      `startActualRecording`: assigning the size always clears and resets. */
  function SizeToVideo(canvas: Canvas, videoWidth: nat, videoHeight: nat): (c: Canvas)
    ensures c.width == videoWidth && c.height == videoHeight && c.picture == Blank
    ensures RenderFrame(c, videoWidth, videoHeight, None).width == videoWidth
  {
    FrameShowsFilteredCamera(Canvas(videoWidth, videoHeight, Blank, "none"), videoWidth, videoHeight, None);
    Canvas(videoWidth, videoHeight, Blank, "none")
  }

  /** The canvas after `startActualRecording` sized it to the video and, unless the
      ref says a loop already runs, drew the first frame: the video's size, and the
      filtered camera frame, or nothing at all when the ref was set. */
  function StartCanvas(canvas: Canvas, loopRef: bool, videoWidth: nat, videoHeight: nat,
                       activeFilter: Option<Filter>): (c: Canvas)
    ensures c.width == videoWidth && c.height == videoHeight
    ensures loopRef ==> c.picture == Blank
    ensures !loopRef ==> c.picture == Look(activeFilter)
  {
    var sized := SizeToVideo(canvas, videoWidth, videoHeight);
    if loopRef then sized
    else
      FrameShowsFilteredCamera(sized, videoWidth, videoHeight, activeFilter);
      RenderFrame(sized, videoWidth, videoHeight, activeFilter)
  }

  /** `frameProcessingRef` and the browser's queue: whether the ref holds an id,
      and whether a frame callback is actually scheduled. */
  datatype FrameLoop = FrameLoop(ref: bool, queued: bool)

  const NoLoop := FrameLoop(false, false)

  /** The frame callback as written: it draws and schedules the next frame only
      while the video and the canvas exist; otherwise it stops, but the ref keeps
      the id of the frame that just ran. */
  function FrameFired(loop: FrameLoop, present: bool): (l: FrameLoop)
    ensures present ==> l == FrameLoop(true, true)
    ensures !present ==> l.ref == loop.ref && !l.queued
  {
    if present then FrameLoop(true, true) else loop.(queued := false)
  }

  /** `if (!frameProcessingRef.current) processVideoFrame()` in `startActualRecording`,
      where the video and the canvas have just been checked. */
  function EnsureLoop(loop: FrameLoop): (l: FrameLoop)
    ensures l.ref
    ensures !loop.ref ==> l.queued
    ensures loop.ref ==> l == loop
  {
    if loop.ref then loop else FrameFired(loop, true)
  }

  /** `cancelAnimationFrame` on the ref, then `frameProcessingRef.current = null`. */
  function CancelLoop(loop: FrameLoop): (l: FrameLoop)
    ensures !l.ref && !l.queued
  {
    NoLoop
  }

  /** The frame callback as intended: when it stops, it also clears the ref. */
  function FrameFiredClearingRef(loop: FrameLoop, present: bool): (l: FrameLoop)
    ensures present ==> l == FrameLoop(true, true)
    ensures !present ==> l == NoLoop
  {
    if present then FrameLoop(true, true) else NoLoop
  }

  /** A ref that is set names a scheduled frame. */
  predicate RefIsLive(loop: FrameLoop)
  {
    loop.ref ==> loop.queued
  }

  /** As written: a loop that stopped because the camera view went away leaves the
      ref set, so the next recording start does not restart it and no frame is drawn. */
  lemma DeadLoopNotRestarted()
    ensures var stopped := FrameFired(FrameLoop(true, true), false);
      stopped.ref && !EnsureLoop(stopped).queued
  {
  }

  /** With the ref cleared on stop, a set ref always names a scheduled frame, and
      every recording start leaves a frame scheduled, whatever happened before. */
  lemma {:induction false} CorrectedLoopRestarts(loop: FrameLoop, present: bool)
    requires RefIsLive(loop)
    ensures RefIsLive(FrameFiredClearingRef(loop, present))
    ensures RefIsLive(EnsureLoop(loop)) && RefIsLive(CancelLoop(loop))
    ensures EnsureLoop(loop).queued
    ensures EnsureLoop(FrameFiredClearingRef(loop, present)).queued
  {
    var after := FrameFiredClearingRef(loop, present);
    assert RefIsLive(after);
  }
}
