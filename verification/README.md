# 360-degree video player: projection, frame and presentation model

A Dafny model of the core of `scripts/three-sixty-video.js`, the component that
plays an equirectangular video on the inside of a sphere. It renders either
monoscopically or, on a WebVR display that is presenting, as a stereo pair.

- `optional.dfy` (module `Optional`): an `Option` type. It stands for a
  JavaScript value that may be `undefined` or `null`.
- `projection.dfy` (module `Projection`): `fovToNDCScaleOffset`,
  `fovPortToProjection` and `fovToProjection`.
  - The scratch matrix is filled entry by entry in row-major order in an
    `array<real>` and then transposed in place, as the source does.
  - Each method is proved against the functions `ScratchMatrix`, `Transposed`
    and `ProjectionElements`.
  - The algebra of the result is proved as lemmas: where the frustum edges
    land, what symmetry gives, what handedness changes and where the near and
    far planes land.
- `view.dfy` (module `View`): the camera record and `ResolvedView`. That
  function gives the camera state `renderSceneView` leaves behind for a pose
  and an optional eye. It also holds the `Camera` class whose fields the
  component updates in place.
- `frame.dfy` (module `Frame`): the calls one frame of `render` makes on the
  renderer and the display, as a sequence of `Event`s (`FrameEvents`).
  - The interpreter `Draws`/`After` replays such a trace on the renderer's
    scissor test, scissor box and viewport.
  - The frame lemmas state what every render call draws into and in which
    order.
- `player.dfy` (module `Player`): the classes `VRDisplay` and
  `ThreeSixtyVideo`.
  - Their methods are `render`, `renderSceneView`, `resize`,
    `onVRPresentChange`, `addPlayButton`, `updateTexture`, `addButton`,
    `removeButton`, the display-discovery callback and the constructor.
  - Every renderer or display call that has an effect (clear, scissor test,
    scissor, viewport, render, setSize, submitFrame) is appended to the field
    `trace`, and so is `getPose`.
  - The queries `getSize` and `getEyeParameters` are not recorded. Their
    answers are read from the fields `surfaceWidth`/`surfaceHeight` and the
    display's `leftEye`/`rightEye`.
  - The buttons in the container are the field `buttons`.
  - `Valid()` is the invariant the presentation and button methods keep. The
    exception is `RemoveButton`: it can remove the Play button while
    `playButton` still names it. Its callers restore the invariant
    (`OnPlayClicked` forgets the Play button, and `OnVRPresentChange` adds a new
    presentation button).

JavaScript numbers are modelled as `real`. `Math.tan` of an angle in degrees is
the parameter `tanDegrees`, and the window's inner size is passed as arguments.

The off-axis offsets satisfy `|offset| < 1` for positive tangents
(`PositiveTangentsGiveCentredScale`): the optical axis always falls inside the
viewport. The stronger bound `|offset| < scale`, which one might expect, does not
hold. `OffsetCanExceedScale` exhibits tangents (left 5, right 0.5) for which the
horizontal offset exceeds the horizontal scale.

## Model

| member | source | states |
|---|---|---|
| Projection.FovToNDCScaleOffset | scripts/three-sixty-video.js:11-19 | the scale/offset pair sends the left edge -leftTan to -1 and the right edge rightTan to +1; with device Y pointing down, it sends -upTan to -1 and downTan to +1 |
| Projection.PositiveTangentsGiveCentredScale | scripts/three-sixty-video.js:13-16 | for positive tangents both scales are positive and equal 2 over the tangent sums, and both offsets lie strictly between -1 and 1 |
| Projection.OffsetCanExceedScale | scripts/three-sixty-video.js:13-14 | for left tangent 5 and right tangent 0.5 the horizontal offset is larger than the horizontal scale |
| Projection.ZeroOffsetIffSymmetric | scripts/three-sixty-video.js:14-16 | the horizontal offset is zero exactly when leftTan == rightTan, and the vertical one exactly when upTan == downTan |
| Projection.Transposed | scripts/three-sixty-video.js:63 | element (row, col) of the column-major result equals entry (row, col) of the row-major input |
| Projection.FillScratch | scripts/three-sixty-video.js:28-61 | after the fill the 16 entries are exactly the X, Y, Z and W rows of the scratch matrix, with the handedness sign, the negated Y offset and the depth terms, whatever the array held before |
| Projection.Transpose | scripts/three-sixty-video.js:63 | the array afterwards holds the transpose of what it held before |
| Projection.FovPortToProjection | scripts/three-sixty-video.js:22-67 | an absent handedness, near or far takes the default true, 0.01 or 10000; the returned fresh matrix is the transposed scratch matrix for those values |
| Projection.FovToProjection | scripts/three-sixty-video.js:70-83 | the result is FovPortToProjection's matrix for the tangents of the four edge angles |
| Projection.ProjectionIsScratchColumnMajor | scripts/three-sixty-video.js:37-65 | applying the returned column-major matrix to a point multiplies it by the rows written into the scratch matrix |
| Projection.CentredIffSymmetric | scripts/three-sixty-video.js:14-48 | the two off-axis entries of column 2 are both zero exactly when the field of view is symmetric on both axes |
| Projection.FrustumCornersMapToClipCorners | scripts/three-sixty-video.js:37-49 | for either handedness, the frustum corner (-leftTan, upTan) maps to clip (-1, +1) and (rightTan, -downTan) to (+1, -1), both with w = 1 |
| Projection.NearAndFarPlanesMapToDepthRange | scripts/three-sixty-video.js:51-61 | every point of the near plane, whatever its x and y, gets z = 0 with w = zNear, and every point of the far plane gets z = w = zFar |
| Projection.HandednessFlipNegatesColumnTwo | scripts/three-sixty-video.js:28-61 | left-handed instead of right-handed negates exactly the column-2 entries of rows X, Y, Z and W and keeps all others; the W entry really changes |
| View.MissingPoseDefaults | scripts/three-sixty-video.js:226-238 | each part of the pose is defaulted on its own: a missing orientation becomes the identity quaternion and a present one is used as given; a missing position becomes the origin (plus the eye offset for an eye view) |
| View.EyeViewUsesEyeOffsetAndFov | scripts/three-sixty-video.js:234-238 | with an eye, the camera sits at the head position plus the eye offset and takes the eye's right-handed off-axis projection over its own near and far; field of view, aspect, up and clip planes are kept |
| View.MonoViewUsesFixedFov | scripts/three-sixty-video.js:234-241 | without an eye, the camera sits at the head position, its field of view becomes 45 and its projection is the symmetric one for 45 degrees |
| View.ResolvedViewOverwrites | scripts/three-sixty-video.js:234-241 | the resolved state depends on the earlier camera only through field of view, aspect, up and clip planes, so the right eye never inherits the left eye's position or projection |
| View.Camera.constructor | scripts/three-sixty-video.js:122 | a new perspective camera sits at the origin, unrotated, with Y up and its symmetric projection |
| Frame.FrameClearsFirstAndOnce | scripts/three-sixty-video.js:248 | every frame's first call is clear; there is no other clear and no resize |
| Frame.NoDisplayFrame | scripts/three-sixty-video.js:270-274 | without a display a frame renders once with the camera as it is, queries no pose, submits nothing and leaves scissor and viewport alone |
| Frame.MonoFrame | scripts/three-sixty-video.js:249-269 | a display that is not presenting gets one pose query (the second call), then one render of the eye-less view of that pose, and no submit |
| Frame.StereoFrame | scripts/three-sixty-video.js:249-266 | a presenting display gets one pose query and exactly two renders: left eye in the left half, then right eye in the right half, each clipped to its half. Afterwards the scissor test is off and the viewport is the full surface; the single submit is last and carries the queried pose |
| Frame.HalvesTileSurface | scripts/three-sixty-video.js:256-261 | the two scissor/viewport halves sit side by side and together cover the surface exactly |
| Frame.FrameCameraIsLastRendered | scripts/three-sixty-video.js:247-275 | the camera state a frame leaves behind is the one its last render call used |
| Player.Max | scripts/three-sixty-video.js:206-207 | the result is one of the two arguments and at least as large as both |
| Player.Without | scripts/three-sixty-video.js:316-318 | the removed button is no longer a child, every other child stays, and nothing is added |
| Player.StereoHalvesFitEyes | scripts/three-sixty-video.js:205-261 | on the surface `resize` sets while presenting, each half is at least as wide and high as either eye's recommended render size |
| Player.VRDisplay.constructor | scripts/three-sixty-video.js:92-96 | a display as discovered: not presenting yet, with its capabilities, pose and eye parameters |
| Player.ThreeSixtyVideo.constructor | scripts/three-sixty-video.js:107-144 | a 90-degree camera with Z up and clip planes 1 and 100 at the video box's aspect, and the renderer sized to that box. The first frame is rendered with no display. The texture and a Play button are present exactly when the video is ready (readyState >= 2). The invariant holds |
| Player.ThreeSixtyVideo.AddButton | scripts/three-sixty-video.js:307-314 | appends one new button with the given text, icon class and action and a never-used identity, and returns it; the shortcut argument is ignored, as `addButton` does |
| Player.ThreeSixtyVideo.RemoveButton | scripts/three-sixty-video.js:316-318 | a child of the container is taken out; an absent or foreign button makes the DOM throw and changes nothing |
| Player.ThreeSixtyVideo.OnDisplaysFound | scripts/three-sixty-video.js:92-98 | with at least one display the first is adopted, a Reset button is added and, only if it can present, an Enter VR button that becomes the presentation button, using up one or two identities; with none nothing changes |
| Player.ThreeSixtyVideo.UpdateTexture | scripts/three-sixty-video.js:170-180 | afterwards the sphere shows the video texture; if it already did, nothing changes |
| Player.ThreeSixtyVideo.AddPlayButton | scripts/three-sixty-video.js:159-168 | with no Play button it binds the texture and appends one Play button, using up one identity; with one already shown nothing changes |
| Player.ThreeSixtyVideo.OnPlayClicked | scripts/three-sixty-video.js:162-165 | the Play button is taken out of the container and `playButton` is cleared, so the invariant holds again; without a Play button the removal throws and nothing changes |
| Player.ThreeSixtyVideo.Resize | scripts/three-sixty-video.js:196-213 | while presenting, the surface is twice the wider eye by the taller eye and the aspect is the window's; otherwise surface and aspect are the video's. One setSize call is recorded |
| Player.ThreeSixtyVideo.OnVRPresentChange | scripts/three-sixty-video.js:291-304 | always resizes: while presenting the surface is sized from the eyes and the camera takes the window's aspect, otherwise both surface and aspect are the video's. With an external display it replaces the presentation button by Exit VR when presenting and by Enter VR when not (throwing, with no new button, when there was none); without one the buttons are unchanged. A new identity is used up only when a button is replaced. The invariant is kept |
| Player.ThreeSixtyVideo.RenderSceneView | scripts/three-sixty-video.js:225-245 | the camera ends in the state ResolvedView gives for the pose and eye, and exactly one render call with that state is recorded |
| Player.ThreeSixtyVideo.Render | scripts/three-sixty-video.js:247-275 | the calls recorded are exactly the frame's FrameEvents for the display state and camera at entry, and the camera ends in the state of the frame's last render |

## Left out

- Everything inside the rendering library is left out: matrices, the quaternion-to-Euler conversion (`EulerXZY` only records the quaternion), `updateProjectionMatrix` (`Perspective` records its arguments), the scene, sphere geometry and materials.
- `Math.tan` and the degree-to-radian step are a parameter `tanDegrees`. Transcendental floating point is not modelled.
- JavaScript doubles are modelled as exact `real`s. Rounding, Infinity and NaN are not modelled.
- Projection.FovToNDCScaleOffset: requires nonzero tangent sums. The source divides anyway and would produce Infinity or NaN, which `real` cannot represent.
- Projection.FovPortToProjection: requires zNear != zFar and nonzero tangent sums, for the same reason.
- Player.ThreeSixtyVideo.Render: requires both eyes to satisfy that precondition while the display is presenting, for the same reason.
- The `requestAnimationFrame` loop (`startAnimation`) and `stopAnimation` are left out. They are the host's frame scheduling. One frame is one `Render` call, and the constructor renders one frame.
- The asynchronous `requestPresent`/`exitPresent` calls and their error logging are left out. A display's presentation flag is a field that the host changes between calls.
- `getVRDisplays` itself and the console messages for browsers without WebVR are left out. The callback is `OnDisplaysFound`.
- The canvas click handler is left out, because it branches on the video's `paused` state, which is not modelled. Its paused branch has the effect of `OnPlayClicked`; its other branch is `AddPlayButton`.
- `video.play()`/`pause()`, the `stopPropagation` call and the `canplay` listener are left out. They are media and event wiring.
- DOM elements are left out: container creation, canvas setup, the depth-test switch and the pixel ratio. A button is a value whose `id` stands for the element's identity.
- Player.ThreeSixtyVideo.Resize: `window.innerWidth`/`innerHeight` are arguments. The renderer's `setSize` is modelled only as the new surface size, which also resets the viewport when the trace is replayed.
