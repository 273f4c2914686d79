/**
 * Frame orchestration (`render` in scripts/three-sixty-video.js) as the
 * ordered trace of calls one frame makes on the renderer and the display.
 *
 * `FrameEvents` is the trace of one frame; `Draws` and `After` replay a trace
 * on the renderer's scissor and viewport state, giving an independent account
 * of what each render call draws into.
 */
module Frame {
  import opened Optional
  import opened Projection
  import opened View

  datatype Rect = Rect(x: real, y: real, width: real, height: real)

  /** One call on the renderer or the display. */
  datatype Event =
    | Clear
    | SetScissorTest(enabled: bool)
    | SetScissor(rect: Rect)
    | SetViewport(rect: Rect)
    | RenderScene(camera: CameraState)
    | GetPose
    | SubmitFrame(pose: Pose)
    | SetSize(width: real, height: real)

  /** What a frame reads from the display: presentation flag, current pose, both eyes. */
  datatype DisplayState = DisplayState(isPresenting: bool, pose: Pose, leftEye: EyeParameters, rightEye: EyeParameters)

  predicate IsGetPose(e: Event) { e.GetPose? }
  predicate IsRender(e: Event) { e.RenderScene? }
  predicate IsSubmit(e: Event) { e.SubmitFrame? }

  function LeftHalf(width: real, height: real): Rect { Rect(0.0, 0.0, width / 2.0, height) }
  function RightHalf(width: real, height: real): Rect { Rect(width / 2.0, 0.0, width / 2.0, height) }
  function FullSurface(width: real, height: real): Rect { Rect(0.0, 0.0, width, height) }

  /** When presenting, both eyes' projections can be computed with the camera's clip planes. */
  predicate FrameRenderable(display: Option<DisplayState>, cam: CameraState, tanDegrees: real -> real)
  {
    display.Some? && display.value.isPresenting ==>
      EyeRenderable(display.value.leftEye, tanDegrees, cam.near, cam.far) &&
      EyeRenderable(display.value.rightEye, tanDegrees, cam.near, cam.far)
  }

  /** Scissor and viewport for one half of the surface, then that eye's render. */
  function EyePass(half: Rect, view: CameraState): seq<Event>
  {
    [SetScissor(half), SetViewport(half), RenderScene(view)]
  }

  /**
   * The calls of one frame on a `width` x `height` surface, starting with the
   * camera in state `cam`: no display, a display that is not presenting, or a
   * presenting display (left eye, then right eye, then submit).
   */
  function FrameEvents(display: Option<DisplayState>, cam: CameraState, width: real, height: real,
                       tanDegrees: real -> real): seq<Event>
    requires FrameRenderable(display, cam, tanDegrees)
  {
    match display
    case None => [Clear, RenderScene(cam)]
    case Some(d) =>
      if !d.isPresenting then
        [Clear, GetPose, RenderScene(ResolvedView(cam, d.pose, None, tanDegrees))]
      else
        var left := ResolvedView(cam, d.pose, Some(d.leftEye), tanDegrees);
        var right := ResolvedView(left, d.pose, Some(d.rightEye), tanDegrees);
        StereoEvents(d.pose, left, right, width, height)
  }

  /** The calls of a presenting frame, given the two eyes' camera states. */
  function StereoEvents(pose: Pose, left: CameraState, right: CameraState, width: real, height: real): seq<Event>
  {
    [Clear, GetPose, SetScissorTest(true)]
    + EyePass(LeftHalf(width, height), left)
    + EyePass(RightHalf(width, height), right)
    + [SetScissorTest(false), SetViewport(FullSurface(width, height)), SubmitFrame(pose)]
  }

  /** The camera state a frame leaves behind. */
  function FrameCamera(display: Option<DisplayState>, cam: CameraState, tanDegrees: real -> real): CameraState
    requires FrameRenderable(display, cam, tanDegrees)
  {
    match display
    case None => cam
    case Some(d) =>
      if !d.isPresenting then ResolvedView(cam, d.pose, None, tanDegrees)
      else ResolvedView(ResolvedView(cam, d.pose, Some(d.leftEye), tanDegrees), d.pose, Some(d.rightEye), tanDegrees)
  }

  // ---------------------------------------------------------------------------
  // Reading a trace
  // ---------------------------------------------------------------------------

  /** How many events of a trace satisfy `p`. */
  function Count(t: seq<Event>, p: Event -> bool): nat
  {
    if t == [] then 0 else (if p(t[0]) then 1 else 0) + Count(t[1..], p)
  }

  /** The renderer's scissor test, scissor box and viewport. */
  datatype RendererState = RendererState(scissorTest: bool, scissor: Rect, viewport: Rect)

  /** One render call: the camera it saw, the viewport and the scissor box if the test was on. */
  datatype Draw = Draw(camera: CameraState, viewport: Rect, scissor: Option<Rect>)

  /** The effect of one call on the renderer state (setSize also resets the viewport). */
  function Step(s: RendererState, e: Event): RendererState
  {
    match e
    case SetScissorTest(b) => s.(scissorTest := b)
    case SetScissor(r) => s.(scissor := r)
    case SetViewport(r) => s.(viewport := r)
    case SetSize(w, h) => s.(viewport := FullSurface(w, h))
    case _ => s
  }

  /** The renderer state after a trace. */
  function After(s: RendererState, t: seq<Event>): RendererState
    decreases t
  {
    if t == [] then s else After(Step(s, t[0]), t[1..])
  }

  /** The render calls of a trace, each with the state it drew under. */
  function Draws(s: RendererState, t: seq<Event>): seq<Draw>
    decreases t
  {
    if t == [] then [] else DrawOf(s, t[0]) + Draws(Step(s, t[0]), t[1..])
  }

  /** What one call draws: nothing, or one draw if it is a render call. */
  function DrawOf(s: RendererState, e: Event): seq<Draw>
  {
    if e.RenderScene? then [Draw(e.camera, s.viewport, if s.scissorTest then Some(s.scissor) else None)] else []
  }

  function CountOne(e: Event, p: Event -> bool): nat
  {
    if p(e) then 1 else 0
  }

  lemma {:induction false} CountAppend(a: seq<Event>, b: seq<Event>, p: Event -> bool)
    ensures Count(a + b, p) == Count(a, p) + Count(b, p)
  {
    if a == [] {
      assert a + b == b;
    } else {
      assert (a + b)[1..] == a[1..] + b;
      CountAppend(a[1..], b, p);
    }
  }

  /** Replaying a concatenation replays its parts in turn. */
  lemma {:induction false} ReplayAppend(s: RendererState, a: seq<Event>, b: seq<Event>)
    ensures After(s, a + b) == After(After(s, a), b)
    ensures Draws(s, a + b) == Draws(s, a) + Draws(After(s, a), b)
    decreases a
  {
    if a == [] {
      assert a + b == b;
    } else {
      assert (a + b)[1..] == a[1..] + b;
      ReplayAppend(Step(s, a[0]), a[1..], b);
    }
  }

  // ---------------------------------------------------------------------------
  // Properties of a frame
  // ---------------------------------------------------------------------------

  /** Every frame clears first and only once, and never sets the surface size. */
  lemma FrameClearsFirstAndOnce(display: Option<DisplayState>, cam: CameraState, width: real, height: real,
                                tanDegrees: real -> real)
    requires FrameRenderable(display, cam, tanDegrees)
    ensures var t := FrameEvents(display, cam, width, height, tanDegrees);
      |t| > 0 && t[0] == Clear && forall i | 0 < i < |t| :: !t[i].Clear? && !t[i].SetSize?
  {
  }

  /**
   * Without a display: one render with the camera as it is, no pose query, no
   * submit, and the renderer's scissor and viewport left alone.
   */
  lemma NoDisplayFrame(cam: CameraState, width: real, height: real, tanDegrees: real -> real, s: RendererState)
    ensures var t := FrameEvents(None, cam, width, height, tanDegrees);
      && Count(t, IsRender) == 1 && Count(t, IsGetPose) == 0 && Count(t, IsSubmit) == 0
      && Draws(s, t) == [Draw(cam, s.viewport, if s.scissorTest then Some(s.scissor) else None)]
      && After(s, t) == s
  {
    var t := FrameEvents(None, cam, width, height, tanDegrees);
    assert t == [Clear] + [RenderScene(cam)];
    CountAppend([Clear], [RenderScene(cam)], IsRender);
    CountAppend([Clear], [RenderScene(cam)], IsGetPose);
    CountAppend([Clear], [RenderScene(cam)], IsSubmit);
    ReplayAppend(s, [Clear], [RenderScene(cam)]);
  }

  /**
   * A display that is not presenting: one pose query, one render of the
   * monoscopic view of that pose over the viewport in effect, no submit, and
   * the renderer's scissor and viewport left alone.
   */
  lemma MonoFrame(d: DisplayState, cam: CameraState, width: real, height: real, tanDegrees: real -> real,
                  s: RendererState)
    requires !d.isPresenting
    ensures var t := FrameEvents(Some(d), cam, width, height, tanDegrees);
      && Count(t, IsGetPose) == 1 && Count(t, IsRender) == 1 && Count(t, IsSubmit) == 0
      && t[1] == GetPose
      && Draws(s, t) == [Draw(ResolvedView(cam, d.pose, None, tanDegrees), s.viewport,
                              if s.scissorTest then Some(s.scissor) else None)]
      && After(s, t) == s
  {
    var view := ResolvedView(cam, d.pose, None, tanDegrees);
    var t := FrameEvents(Some(d), cam, width, height, tanDegrees);
    assert t == [Clear, GetPose] + [RenderScene(view)];
    assert [Clear, GetPose] == [Clear] + [GetPose];
    CountAppend([Clear], [GetPose], IsGetPose);
    CountAppend([Clear, GetPose], [RenderScene(view)], IsGetPose);
    CountAppend([Clear], [GetPose], IsRender);
    CountAppend([Clear, GetPose], [RenderScene(view)], IsRender);
    CountAppend([Clear], [GetPose], IsSubmit);
    CountAppend([Clear, GetPose], [RenderScene(view)], IsSubmit);
    ReplayAppend(s, [Clear], [GetPose]);
    ReplayAppend(s, [Clear, GetPose], [RenderScene(view)]);
  }

  /**
   * A presenting display on a `width` x `height` surface: one pose query, then
   * exactly two renders, the left eye's view in the left half and then the
   * right eye's view in the right half, each clipped by the scissor to its own
   * half; the right eye's view depends on the pose and that eye only. After
   * them the scissor test is off, the viewport covers the whole surface, and
   * the only submit comes last, with the pose that was queried.
   */
  lemma StereoFrame(d: DisplayState, cam: CameraState, width: real, height: real, tanDegrees: real -> real,
                    s: RendererState)
    requires d.isPresenting && FrameRenderable(Some(d), cam, tanDegrees)
    ensures var t := FrameEvents(Some(d), cam, width, height, tanDegrees);
      var left := ResolvedView(cam, d.pose, Some(d.leftEye), tanDegrees);
      var right := ResolvedView(cam, d.pose, Some(d.rightEye), tanDegrees);
      var l := LeftHalf(width, height);
      var r := RightHalf(width, height);
      && Count(t, IsGetPose) == 1 && t[1] == GetPose
      && Count(t, IsRender) == 2
      && Draws(s, t) == [Draw(left, l, Some(l)), Draw(right, r, Some(r))]
      && After(s, t) == RendererState(false, r, FullSurface(width, height))
      && Count(t, IsSubmit) == 1 && t[|t| - 1] == SubmitFrame(d.pose)
  {
    var left := ResolvedView(cam, d.pose, Some(d.leftEye), tanDegrees);
    ResolvedViewOverwrites(left, cam, d.pose, Some(d.rightEye), tanDegrees);
    var right := ResolvedView(cam, d.pose, Some(d.rightEye), tanDegrees);
    StereoEventsCounts(d.pose, left, right, width, height);
    StereoEventsReplay(s, d.pose, left, right, width, height);
  }

  /** The counts of StereoFrame, for any two eye views. */
  lemma StereoEventsCounts(pose: Pose, left: CameraState, right: CameraState, width: real, height: real)
    ensures var t := StereoEvents(pose, left, right, width, height);
      && Count(t, IsGetPose) == 1 && t[1] == GetPose
      && Count(t, IsRender) == 2
      && Count(t, IsSubmit) == 1 && t[|t| - 1] == SubmitFrame(pose)
  {
    var l := LeftHalf(width, height);
    var r := RightHalf(width, height);
    var full := FullSurface(width, height);
    var head := [Clear, GetPose, SetScissorTest(true)];
    var eyes := EyePass(l, left) + EyePass(r, right);
    var tail := [SetScissorTest(false), SetViewport(full), SubmitFrame(pose)];
    var t := StereoEvents(pose, left, right, width, height);
    assert t == head + eyes + tail;
    forall p: Event -> bool
      ensures Count(t, p) == CountOne(Clear, p) + CountOne(GetPose, p) + CountOne(SetScissorTest(true), p)
        + CountOne(SetScissor(l), p) + CountOne(SetViewport(l), p) + CountOne(RenderScene(left), p)
        + CountOne(SetScissor(r), p) + CountOne(SetViewport(r), p) + CountOne(RenderScene(right), p)
        + CountOne(SetScissorTest(false), p) + CountOne(SetViewport(full), p) + CountOne(SubmitFrame(pose), p)
    {
      StereoCount(head, eyes, tail, p);
      CountAppend(EyePass(l, left), EyePass(r, right), p);
      CountTriple(Clear, GetPose, SetScissorTest(true), p);
      CountTriple(SetScissor(l), SetViewport(l), RenderScene(left), p);
      CountTriple(SetScissor(r), SetViewport(r), RenderScene(right), p);
      CountTriple(SetScissorTest(false), SetViewport(full), SubmitFrame(pose), p);
    }
  }

  /** The replay of StereoFrame, for any two eye views and any starting renderer state. */
  lemma StereoEventsReplay(s: RendererState, pose: Pose, left: CameraState, right: CameraState,
                           width: real, height: real)
    ensures var t := StereoEvents(pose, left, right, width, height);
      var l := LeftHalf(width, height);
      var r := RightHalf(width, height);
      && Draws(s, t) == [Draw(left, l, Some(l)), Draw(right, r, Some(r))]
      && After(s, t) == RendererState(false, r, FullSurface(width, height))
  {
    var l := LeftHalf(width, height);
    var r := RightHalf(width, height);
    var full := FullSurface(width, height);
    var head := [Clear, GetPose, SetScissorTest(true)];
    var eyes := EyePass(l, left) + EyePass(r, right);
    var tail := [SetScissorTest(false), SetViewport(full), SubmitFrame(pose)];
    var t := StereoEvents(pose, left, right, width, height);
    assert t == head + eyes + tail;
    var s1 := s.(scissorTest := true);
    ReplayTriple(s, Clear, GetPose, SetScissorTest(true));
    var s2 := s1.(scissor := l, viewport := l);
    ReplayTriple(s1, SetScissor(l), SetViewport(l), RenderScene(left));
    var s3 := s2.(scissor := r, viewport := r);
    ReplayTriple(s2, SetScissor(r), SetViewport(r), RenderScene(right));
    ReplayTriple(s3, SetScissorTest(false), SetViewport(full), SubmitFrame(pose));
    ReplayAppend(s1, EyePass(l, left), EyePass(r, right));
    ReplayAppend(s, head, eyes);
    ReplayAppend(s, head + eyes, tail);
  }

  /** Counting over the three parts of a stereo frame. */
  lemma StereoCount(head: seq<Event>, eyes: seq<Event>, tail: seq<Event>, p: Event -> bool)
    ensures Count(head + eyes + tail, p) == Count(head, p) + Count(eyes, p) + Count(tail, p)
  {
    CountAppend(head + eyes, tail, p);
    CountAppend(head, eyes, p);
  }

  /** Counting over a trace of three calls. */
  lemma CountTriple(a: Event, b: Event, c: Event, p: Event -> bool)
    ensures Count([a, b, c], p) == CountOne(a, p) + CountOne(b, p) + CountOne(c, p)
  {
    assert [a, b, c] == [a] + [b] + [c];
    CountAppend([a] + [b], [c], p);
    CountAppend([a], [b], p);
    CountSingle(a, p);
    CountSingle(b, p);
    CountSingle(c, p);
  }

  lemma CountSingle(e: Event, p: Event -> bool)
    ensures Count([e], p) == CountOne(e, p)
  {
    assert [e][1..] == [];
  }

  lemma ReplaySingle(s: RendererState, e: Event)
    ensures After(s, [e]) == Step(s, e)
    ensures Draws(s, [e]) == DrawOf(s, e)
  {
    assert [e][1..] == [];
  }

  /** Replaying a trace of three calls. */
  lemma ReplayTriple(s: RendererState, a: Event, b: Event, c: Event)
    ensures After(s, [a, b, c]) == Step(Step(Step(s, a), b), c)
    ensures Draws(s, [a, b, c]) == DrawOf(s, a) + DrawOf(Step(s, a), b) + DrawOf(Step(Step(s, a), b), c)
  {
    assert [a, b, c] == [a] + [b] + [c];
    ReplayAppend(s, [a] + [b], [c]);
    ReplayAppend(s, [a], [b]);
    ReplaySingle(s, a);
    ReplaySingle(Step(s, a), b);
    ReplaySingle(Step(Step(s, a), b), c);
  }

  /** The two halves of a stereo frame tile the surface side by side. */
  lemma HalvesTileSurface(width: real, height: real)
    ensures var l := LeftHalf(width, height);
      var r := RightHalf(width, height);
      && l.x == 0.0 && l.x + l.width == r.x && r.x + r.width == width
      && l.y == r.y == 0.0 && l.height == r.height == height
  {
  }

  /** The camera a frame leaves behind is the one its last render call saw. */
  lemma FrameCameraIsLastRendered(display: Option<DisplayState>, cam: CameraState, width: real, height: real,
                                  tanDegrees: real -> real, s: RendererState)
    requires FrameRenderable(display, cam, tanDegrees)
    ensures var draws := Draws(s, FrameEvents(display, cam, width, height, tanDegrees));
      |draws| > 0 && draws[|draws| - 1].camera == FrameCamera(display, cam, tanDegrees)
  {
    match display
    case None => NoDisplayFrame(cam, width, height, tanDegrees, s);
    case Some(d) =>
      if d.isPresenting {
        StereoFrame(d, cam, width, height, tanDegrees, s);
        ResolvedViewOverwrites(ResolvedView(cam, d.pose, Some(d.leftEye), tanDegrees), cam, d.pose,
                               Some(d.rightEye), tanDegrees);
      } else {
        MonoFrame(d, cam, width, height, tanDegrees, s);
      }
  }
}
