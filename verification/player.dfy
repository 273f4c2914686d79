/**
 * The `ThreeSixtyVideo` component of scripts/three-sixty-video.js: its fields,
 * the per-frame `render`/`renderSceneView` pair, surface sizing, the reaction
 * to presentation changes and the play-button/texture lifecycle.
 *
 * The renderer and the display are collaborators: every call the component
 * makes on them is appended to `trace`, and the renderer's size is kept in
 * `surfaceWidth`/`surfaceHeight`. The display is an object whose fields the
 * host may change between calls (it starts or stops presenting on its own).
 * Buttons are values in `buttons`, the button container; `id` stands for the
 * identity of the DOM element.
 */
module Player {
  import opened Optional
  import opened Projection
  import opened View
  import opened Frame

  /** What a button does when clicked. */
  datatype Action = ResetPose | RequestPresent | ExitPresent | Play

  /** A button element: its identity, its text, the icon class it was given, and what a click does. */
  datatype Button = Button(id: nat, text: string, iconClass: Option<string>, action: Action)

  /** The sphere's material: the grey wireframe placeholder, or the video texture. */
  datatype Material = GreyWireframe | VideoTexture

  /** How a DOM event handler ended: normally, or with an exception from the DOM. */
  datatype Outcome = Completed | Threw

  /** `Math.max` of two numbers. */
  function Max(a: real, b: real): (m: real)
    ensures m >= a && m >= b && (m == a || m == b)
  {
    if a >= b then a else b
  }

  /** The presentation button for the given state: "Exit VR" while presenting, "Enter VR" otherwise. */
  function PresentButton(id: nat, presenting: bool): Button
  {
    if presenting then Button(id, "Exit VR", Some("cardboard-icon"), ExitPresent)
    else Button(id, "Enter VR", Some("cardboard-icon"), RequestPresent)
  }

  /** The container's buttons with `b` taken out. */
  function Without(bs: seq<Button>, b: Button): (r: seq<Button>)
    ensures forall x :: x in r <==> x in bs && x != b
    ensures |r| <= |bs|
  {
    if bs == [] then []
    else (if bs[0] == b then [] else [bs[0]]) + Without(bs[1..], b)
  }

  /**
   * The surface of a stereo frame sized by `resize` gives each half at least
   * the recommended render size of either eye.
   */
  lemma StereoHalvesFitEyes(left: EyeParameters, right: EyeParameters)
    ensures var w := Max(left.renderWidth, right.renderWidth) * 2.0;
      var h := Max(left.renderHeight, right.renderHeight);
      && LeftHalf(w, h) == Rect(0.0, 0.0, Max(left.renderWidth, right.renderWidth), h)
      && RightHalf(w, h).width >= left.renderWidth && RightHalf(w, h).width >= right.renderWidth
      && h >= left.renderHeight && h >= right.renderHeight
  {
  }

  /** A WebVR display as the component sees it. */
  class VRDisplay {
    var isPresenting: bool
    const canPresent: bool
    const hasExternalDisplay: bool
    /** What `getPose()` returns now. */
    var pose: Pose
    /** What `getEyeParameters('left')` and `getEyeParameters('right')` return now. */
    var leftEye: EyeParameters
    var rightEye: EyeParameters

    function State(): DisplayState
      reads this
    {
      DisplayState(isPresenting, pose, leftEye, rightEye)
    }

    constructor (canPresent: bool, hasExternalDisplay: bool, pose: Pose, leftEye: EyeParameters, rightEye: EyeParameters)
      ensures !isPresenting && this.canPresent == canPresent && this.hasExternalDisplay == hasExternalDisplay
      ensures this.pose == pose && this.leftEye == leftEye && this.rightEye == rightEye
    {
      this.isPresenting := false;
      this.canPresent := canPresent;
      this.hasExternalDisplay := hasExternalDisplay;
      this.pose := pose;
      this.leftEye := leftEye;
      this.rightEye := rightEye;
    }
  }

  class ThreeSixtyVideo {
    const camera: Camera
    /** `Math.tan` of an angle in degrees. */
    const tanDegrees: real -> real
    /** The video element's `width` and `height`. */
    const videoWidth: real
    const videoHeight: real

    var vrDisplay: VRDisplay?
    /** The renderer's size, as `getSize()` reports it. */
    var surfaceWidth: real
    var surfaceHeight: real
    /** The calls made so far on the renderer and the display. */
    var trace: seq<Event>
    /** The button container's children, in order. */
    var buttons: seq<Button>
    var nextButtonId: nat
    var vrPresentButton: Option<Button>
    var playButton: Option<Button>
    var hasVideoTexture: bool
    var sphereMaterial: Material

    ghost predicate Valid()
      reads this`hasVideoTexture, this`sphereMaterial, this`playButton, this`vrPresentButton
      reads this`buttons, this`nextButtonId
    {
      && camera.near != camera.far
      && (hasVideoTexture <==> sphereMaterial == VideoTexture)
      && (playButton.Some? ==> hasVideoTexture && playButton.value in buttons)
      && (vrPresentButton.Some? ==> vrPresentButton.value in buttons)
      && (playButton.Some? && vrPresentButton.Some? ==> playButton.value != vrPresentButton.value)
      && ButtonIdsFresh()
    }

    /** Every button in the container has its own id, below the next one to hand out. */
    ghost predicate ButtonIdsFresh()
      reads this`buttons, this`nextButtonId
    {
      && (forall b | b in buttons :: b.id < nextButtonId)
      && (forall a, b | a in buttons && b in buttons && a.id == b.id :: a == b)
    }

    /** The display's state as a frame reads it, or None when no display was found. */
    function Display(): Option<DisplayState>
      reads this, vrDisplay
    {
      if vrDisplay == null then None else Some(vrDisplay.State())
    }

    /**
     * The synchronous part of construction: a 90-degree perspective camera with
     * Z up and clip planes 1 and 100, the renderer sized to the video's on-page
     * box, the wireframe sphere, the first frame (no display is known yet), and
     * the play button if the video can already play (`readyState >= 2`).
     */
    constructor (videoWidth: real, videoHeight: real, rectWidth: real, rectHeight: real, readyState: nat,
                 tanDegrees: real -> real)
      ensures Valid() && fresh(camera)
      ensures this.videoWidth == videoWidth && this.videoHeight == videoHeight && this.tanDegrees == tanDegrees
      ensures vrDisplay == null && vrPresentButton.None?
      ensures camera.State() == CameraState(Origin, NoRotation, Vec3(0.0, 0.0, 1.0), 90.0, Aspect(rectWidth, rectHeight),
                                            1.0, 100.0, Perspective(90.0, Aspect(rectWidth, rectHeight), 1.0, 100.0))
      ensures surfaceWidth == rectWidth && surfaceHeight == rectHeight
      ensures trace == [SetSize(rectWidth, rectHeight), Clear, RenderScene(camera.State())]
      ensures readyState >= 2 ==>
        && hasVideoTexture && sphereMaterial == VideoTexture
        && playButton == Some(Button(0, "Play", Some("play-icon"), Play))
        && buttons == [playButton.value]
      ensures readyState < 2 ==>
        !hasVideoTexture && sphereMaterial == GreyWireframe && playButton.None? && buttons == []
    {
      var cam := new Camera(90.0, Aspect(rectWidth, rectHeight), 1.0, 100.0);
      cam.up := Vec3(0.0, 0.0, 1.0);
      this.camera := cam;
      this.tanDegrees := tanDegrees;
      this.videoWidth := videoWidth;
      this.videoHeight := videoHeight;
      this.vrDisplay := null;
      this.vrPresentButton := None;
      this.playButton := None;
      this.buttons := [];
      this.nextButtonId := 0;
      this.surfaceWidth, this.surfaceHeight := rectWidth, rectHeight;
      this.trace := [SetSize(rectWidth, rectHeight)];
      this.hasVideoTexture := false;
      this.sphereMaterial := GreyWireframe;
      new;
      Render();
      if readyState >= 2 {
        AddPlayButton();
      }
    }

    /**
     * `addButton`: appends a new button to the container and returns it. The
     * `shortcut` argument is accepted and, as `addButton` does, not used.
     */
    method AddButton(text: string, shortcut: string, iconClass: Option<string>, action: Action) returns (b: Button)
      requires ButtonIdsFresh()
      modifies this`buttons, this`nextButtonId
      ensures ButtonIdsFresh()
      ensures b == Button(old(nextButtonId), text, iconClass, action)
      ensures buttons == old(buttons) + [b] && nextButtonId == old(nextButtonId) + 1
    {
      b := Button(nextButtonId, text, iconClass, action);
      buttons := buttons + [b];
      nextButtonId := nextButtonId + 1;
    }

    /**
     * `removeButton`: takes the button out of the container. The DOM throws
     * when the argument is missing or not a child of the container.
     */
    method RemoveButton(el: Option<Button>) returns (outcome: Outcome)
      modifies this`buttons
      ensures outcome == if el.Some? && el.value in old(buttons) then Completed else Threw
      ensures buttons == if outcome == Completed then Without(old(buttons), el.value) else old(buttons)
    {
      if el.Some? && el.value in buttons {
        buttons := Without(buttons, el.value);
        outcome := Completed;
      } else {
        outcome := Threw;
      }
    }

    /**
     * The `getVRDisplays()` callback: with at least one display, the first one
     * becomes the component's display, a "Reset" button is added and, if the
     * display can present, an "Enter VR" button.
     */
    method OnDisplaysFound(displays: seq<VRDisplay>)
      requires Valid()
      modifies this`vrDisplay, this`buttons, this`nextButtonId, this`vrPresentButton
      ensures Valid()
      ensures |displays| == 0 ==> unchanged(this)
      ensures |displays| > 0 ==>
        var reset := Button(old(nextButtonId), "Reset", None, ResetPose);
        var enter := PresentButton(old(nextButtonId) + 1, false);
        && vrDisplay == displays[0]
        && (displays[0].canPresent ==>
              && buttons == old(buttons) + [reset, enter] && vrPresentButton == Some(enter)
              && nextButtonId == old(nextButtonId) + 2)
        && (!displays[0].canPresent ==>
              && buttons == old(buttons) + [reset] && vrPresentButton == old(vrPresentButton)
              && nextButtonId == old(nextButtonId) + 1)
    {
      if |displays| > 0 {
        vrDisplay := displays[0];
        var _ := AddButton("Reset", "R", None, ResetPose);
        if vrDisplay.canPresent {
          var enter := AddButton("Enter VR", "E", Some("cardboard-icon"), RequestPresent);
          vrPresentButton := Some(enter);
        }
      }
    }

    /** `updateTexture`: binds the video texture to the sphere once; later calls change nothing. */
    method UpdateTexture()
      requires Valid()
      modifies this`hasVideoTexture, this`sphereMaterial
      ensures Valid() && hasVideoTexture && sphereMaterial == VideoTexture
      ensures old(hasVideoTexture) ==> unchanged(this)
    {
      if hasVideoTexture {
        return;
      }
      sphereMaterial := VideoTexture;
      hasVideoTexture := true;
    }

    /**
     * `addPlayButton`: binds the texture and adds a "Play" button unless one is
     * already shown; with a play button present it changes nothing.
     */
    method AddPlayButton()
      requires Valid()
      modifies this`buttons, this`nextButtonId, this`playButton, this`hasVideoTexture, this`sphereMaterial
      ensures Valid() && playButton.Some? && hasVideoTexture && sphereMaterial == VideoTexture
      ensures old(playButton).Some? ==> unchanged(this)
      ensures old(playButton).None? ==>
        && playButton == Some(Button(old(nextButtonId), "Play", Some("play-icon"), Play))
        && buttons == old(buttons) + [playButton.value]
        && nextButtonId == old(nextButtonId) + 1
    {
      if playButton.Some? {
        return;
      }
      UpdateTexture();
      var b := AddButton("Play", "space", Some("play-icon"), Play);
      playButton := Some(b);
    }

    /**
     * The Play button's click handler: takes the Play button out of the
     * container and forgets it (the video then starts playing). Without a Play
     * button the removal throws and nothing changes.
     */
    method OnPlayClicked() returns (outcome: Outcome)
      requires Valid()
      modifies this`buttons, this`playButton
      ensures Valid()
      ensures old(playButton).None? ==> outcome == Threw && unchanged(this)
      ensures old(playButton).Some? ==>
        && outcome == Completed && playButton.None?
        && buttons == Without(old(buttons), old(playButton).value)
    {
      outcome := RemoveButton(playButton);
      if outcome == Completed {
        playButton := None;
      }
    }

    /**
     * `resize`: while presenting, the surface is twice the wider eye's render
     * width by the taller eye's render height and the camera takes the
     * window's aspect; otherwise the surface and the aspect are the video's.
     */
    method Resize(windowWidth: real, windowHeight: real)
      requires Valid()
      modifies this`surfaceWidth, this`surfaceHeight, this`trace, camera`aspect
      ensures Valid()
      ensures vrDisplay != null && vrDisplay.isPresenting ==>
        && surfaceWidth == Max(vrDisplay.leftEye.renderWidth, vrDisplay.rightEye.renderWidth) * 2.0
        && surfaceHeight == Max(vrDisplay.leftEye.renderHeight, vrDisplay.rightEye.renderHeight)
        && camera.aspect == Aspect(windowWidth, windowHeight)
      ensures !(vrDisplay != null && vrDisplay.isPresenting) ==>
        && surfaceWidth == videoWidth && surfaceHeight == videoHeight
        && camera.aspect == Aspect(videoWidth, videoHeight)
      ensures trace == old(trace) + [SetSize(surfaceWidth, surfaceHeight)]
    {
      if vrDisplay != null && vrDisplay.isPresenting {
        camera.aspect := Aspect(windowWidth, windowHeight);
        var leftEye := vrDisplay.leftEye;
        var rightEye := vrDisplay.rightEye;
        surfaceWidth := Max(leftEye.renderWidth, rightEye.renderWidth) * 2.0;
        surfaceHeight := Max(leftEye.renderHeight, rightEye.renderHeight);
      } else {
        camera.aspect := Aspect(videoWidth, videoHeight);
        surfaceWidth, surfaceHeight := videoWidth, videoHeight;
      }
      trace := trace + [SetSize(surfaceWidth, surfaceHeight)];
    }

    /**
     * `onVRPresentChange`: always resizes; with an external display it swaps
     * the presentation button for "Exit VR" (now presenting) or "Enter VR" (not
     * presenting). Removing a button that was never added throws, and then no
     * new button is added.
     */
    method OnVRPresentChange(windowWidth: real, windowHeight: real) returns (outcome: Outcome)
      requires Valid() && vrDisplay != null
      modifies this`surfaceWidth, this`surfaceHeight, this`trace, camera`aspect
      modifies this`buttons, this`nextButtonId, this`vrPresentButton
      ensures Valid()
      ensures vrDisplay.isPresenting ==>
        && surfaceWidth == Max(vrDisplay.leftEye.renderWidth, vrDisplay.rightEye.renderWidth) * 2.0
        && surfaceHeight == Max(vrDisplay.leftEye.renderHeight, vrDisplay.rightEye.renderHeight)
      ensures !vrDisplay.isPresenting ==> surfaceWidth == videoWidth && surfaceHeight == videoHeight
      ensures vrDisplay.isPresenting ==> camera.aspect == Aspect(windowWidth, windowHeight)
      ensures !vrDisplay.isPresenting ==> camera.aspect == Aspect(videoWidth, videoHeight)
      ensures trace == old(trace) + [SetSize(surfaceWidth, surfaceHeight)]
      ensures !vrDisplay.hasExternalDisplay ==>
        && outcome == Completed && buttons == old(buttons) && vrPresentButton == old(vrPresentButton)
        && nextButtonId == old(nextButtonId)
      ensures vrDisplay.hasExternalDisplay && old(vrPresentButton).None? ==>
        && outcome == Threw && buttons == old(buttons) && vrPresentButton.None?
        && nextButtonId == old(nextButtonId)
      ensures vrDisplay.hasExternalDisplay && old(vrPresentButton).Some? ==>
        && outcome == Completed
        && vrPresentButton == Some(PresentButton(old(nextButtonId), vrDisplay.isPresenting))
        && nextButtonId == old(nextButtonId) + 1
        && buttons == Without(old(buttons), old(vrPresentButton).value) + [vrPresentButton.value]
    {
      Resize(windowWidth, windowHeight);
      outcome := Completed;
      if vrDisplay.isPresenting {
        if vrDisplay.hasExternalDisplay {
          outcome := RemoveButton(vrPresentButton);
          if outcome == Completed {
            var b := AddButton("Exit VR", "E", Some("cardboard-icon"), ExitPresent);
            vrPresentButton := Some(b);
          }
        }
      } else {
        if vrDisplay.hasExternalDisplay {
          outcome := RemoveButton(vrPresentButton);
          if outcome == Completed {
            var b := AddButton("Enter VR", "E", Some("cardboard-icon"), RequestPresent);
            vrPresentButton := Some(b);
          }
        }
      }
    }

    /**
     * `renderSceneView`: resolves the pose (and eye, for stereo) into the
     * camera, then renders once with it.
     */
    method RenderSceneView(pose: Pose, eye: Option<EyeParameters>)
      requires eye.Some? ==> EyeRenderable(eye.value, tanDegrees, camera.near, camera.far)
      modifies this`trace, camera
      ensures camera.State() == ResolvedView(old(camera.State()), pose, eye, tanDegrees)
      ensures trace == old(trace) + [RenderScene(camera.State())]
    {
      var orientation := pose.orientation;
      var position := pose.position;
      if orientation.None? {
        orientation := Some(IdentityQuaternion);
      }
      if position.None? {
        position := Some(Origin);
      }
      camera.position := position.value;
      camera.rotation := EulerXZY(orientation.value);
      if eye.Some? {
        var m := FovToProjection(eye.value.fieldOfView, tanDegrees, Some(true), Some(camera.near), Some(camera.far));
        camera.projection := OffAxis(m[..]);
        camera.position := Add(camera.position, eye.value.offset);
      } else {
        camera.fov := MonoFov;
        camera.projection := Perspective(camera.fov, camera.aspect, camera.near, camera.far);
      }
      trace := trace + [RenderScene(camera.State())];
    }

    /**
     * `render`: one frame. Clears, then renders once without a display, once
     * with the pose when the display is not presenting, or both eyes into the
     * two halves of the surface followed by a single submit when it is.
     */
    method Render()
      requires FrameRenderable(Display(), camera.State(), tanDegrees)
      modifies this`trace, camera
      ensures trace == old(trace) + FrameEvents(old(Display()), old(camera.State()), surfaceWidth, surfaceHeight, tanDegrees)
      ensures camera.State() == FrameCamera(old(Display()), old(camera.State()), tanDegrees)
    {
      ghost var cam := camera.State();
      trace := trace + [Clear];
      if vrDisplay != null {
        var pose := vrDisplay.pose;
        trace := trace + [GetPose];
        if vrDisplay.isPresenting {
          var width, height := surfaceWidth, surfaceHeight;
          ghost var start := trace;
          trace := trace + [SetScissorTest(true)];

          trace := trace + [SetScissor(Rect(0.0, 0.0, width / 2.0, height))];
          trace := trace + [SetViewport(Rect(0.0, 0.0, width / 2.0, height))];
          RenderSceneView(pose, Some(vrDisplay.leftEye));
          ghost var left := camera.State();
          assert trace == start + [SetScissorTest(true)] + EyePass(LeftHalf(width, height), left);

          trace := trace + [SetScissor(Rect(width / 2.0, 0.0, width / 2.0, height))];
          trace := trace + [SetViewport(Rect(width / 2.0, 0.0, width / 2.0, height))];
          RenderSceneView(pose, Some(vrDisplay.rightEye));
          ghost var right := camera.State();
          assert trace == start + [SetScissorTest(true)] + EyePass(LeftHalf(width, height), left)
                                + EyePass(RightHalf(width, height), right);

          trace := trace + [SetScissorTest(false)];
          trace := trace + [SetViewport(Rect(0.0, 0.0, width, height))];
          trace := trace + [SubmitFrame(pose)];
          assert trace == old(trace) + StereoEvents(pose, left, right, width, height);
          assert old(Display()) == Some(vrDisplay.State());
        } else {
          RenderSceneView(pose, None);
          assert old(Display()) == Some(vrDisplay.State());
        }
      } else {
        // no display found: render with the camera as it is
        trace := trace + [RenderScene(camera.State())];
      }
    }
  }
}
