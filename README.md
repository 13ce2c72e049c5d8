# OpenGLApp interaction core in Dafny

OpenGLApp is an Android OpenGL ES 2.0 viewer that shows two 3D objects: an
angel's halo and its body. This project models the part of it that is
plain logic, and proves properties of that model:

- **Pose of a posable object** (`Model3D`), in module `Orientation`.
  - Each object has a current rotation (X and Y) and a destination rotation.
    It also has a depth offset `rotationZ`, used as a zoom translation.
  - `setDestination` replaces the destination. `rotateY` nudges the Y
    destination. `zoom` moves the depth at once.
  - `updatePosition(speed)` moves the rotation a fraction `speed` of the way
    to the destination.
  - The class `Orientation.Model3D` keeps these five fields and updates them
    in place. Each method is specified by a function on the `Pose` value.
- **The algebra of damping.**
  - Each step scales the remaining error by `1 - speed`. After k steps it is
    `(1 - speed)^k` times the start (`Decay`).
  - There is no overshoot, and full speed lands on the destination.
  - A step leaves the pose fixed exactly when the speed is 0 or the pose has
    arrived.
  - Below full speed a non-zero error never becomes exactly 0.
  - For any speed in (0, 1] the errors fall below every tolerance. The proof
    is a Bernoulli-style bound: `|error_k| * (1 + k*speed) <= |error_0|`.
- **Projection builders** (`perspective`, `frustum2`, `frustum`,
  `perspective2`), in module `Projection`.
  - Each writes a 16-entry column-major `array<real>` in place.
  - They are compared with the glFrustum matrix of section 2.11.2 of the
    OpenGL 2.1 specification.
  - `perspective` and `frustum2` both compute the depth entry `m[10]` as
    `(n - f) / (f - n)`. That is always -1. glFrustum has `-(f + n) / (f - n)`
    there, so the two differ exactly when `n != 0`. The model keeps the
    code's value.
  - `frustum` halves entry 8 of the array, not entry `offset + 8`.
    `perspective` and `frustum2` ignore their `offset`. Both are modelled as
    written.
  - With the `frustumM` of older Android releases, which doubles entry 8,
    `frustum` at offset 0 gives exactly the glFrustum matrix.
- **The renderer** (`OpenGLRenderer`), in module `Renderer`.
  - Per frame, it applies `updatePosition(0.06)` to both objects.
  - Press retargets the halo with gain 20. Drag retargets both objects with
    gain 180.
  - Zoom in and zoom out move both depths. The head buttons turn the halo's
    Y destination by ∓20 degrees.
  - On resize it picks a 45-degree perspective from 0.01 to 1000.
  - A value `Scene` holds the two poses. The class methods are specified
    against functions on it.
- **The touch listener** of `OpenGLActivity`, in module `Touch`.
  - Pixel positions are normalised to [-1, 1], with Y inverted.
  - A press emits a press command. Every move emits a drag. A two-pointer
    move compares the pinch distance with the one from the anchor
    `(dstX, dstY)` and emits at most one zoom.
  - The pure function `React` specifies the method
    `Touch.TouchListener.OnTouch`. That method updates the anchor fields in
    place and returns the queued commands in order.

A press at `(0.5, -0.5)` gives the halo destination
`(-(-0.5) * 20, 0.5 * 20) = (10, 10)`: because `ny` is negated, the X
destination is positive (`Renderer.PressExamples`).

The files are `orientation.dfy`, `projection.dfy`, `touch.dfy` and
`renderer.dfy`. Verify them all together with
`dafny verify orientation.dfy projection.dfy touch.dfy renderer.dfy`.

## Model

Source paths are under `app/src/main/java/com/japg/mastermoviles/opengl10/`.

| member | source | states |
|---|---|---|
| Orientation.Initial | app/src/main/java/com/japg/mastermoviles/opengl10/Model3D.java:61-65 | a fresh pose has the constructor's rotations and depth and destination (0, 0), because the destination fields are never assigned |
| Orientation.Retargeted | app/src/main/java/com/japg/mastermoviles/opengl10/Model3D.java:71-74 | setDestination sets exactly the destination and keeps both rotations and the depth |
| Orientation.NudgedY | app/src/main/java/com/japg/mastermoviles/opengl10/Model3D.java:84-86 | rotateY is a retarget that keeps the X destination and adds delta to the Y destination |
| Orientation.Zoomed | app/src/main/java/com/japg/mastermoviles/opengl10/Model3D.java:88-90 | zoom raises the depth by exactly delta and leaves every other field as it was |
| Orientation.Damped | app/src/main/java/com/japg/mastermoviles/opengl10/Model3D.java:76-82 | updatePosition leaves the depth and the destination unchanged |
| Orientation.DampedAxis | app/src/main/java/com/japg/mastermoviles/opengl10/Model3D.java:76-82 | on each axis the new rotation is one step of r + (d - r) * speed, and the destination is kept |
| Orientation.DampedError | app/src/main/java/com/japg/mastermoviles/opengl10/Model3D.java:76-82 | after one step, destination - rotation on each axis is (1 - speed) times its old value |
| Orientation.StepNoOvershoot | app/src/main/java/com/japg/mastermoviles/opengl10/Model3D.java:80-81 | for 0 < s <= 1 a step lands between the old value and the target and is no farther from the target |
| Orientation.DampedNoOvershoot | app/src/main/java/com/japg/mastermoviles/opengl10/Model3D.java:76-82 | for 0 < speed <= 1 each new rotation lies between the old rotation and the destination, with no larger error |
| Orientation.DampedFullSpeedArrives | app/src/main/java/com/japg/mastermoviles/opengl10/Model3D.java:76-82 | at speed 1 one step lands exactly on the destination |
| Orientation.DampedFixedPoint | app/src/main/java/com/japg/mastermoviles/opengl10/Model3D.java:77-81 | a step leaves the pose unchanged if and only if the speed is 0 or the rotation already equals the destination |
| Orientation.DampedNError | app/src/main/java/com/japg/mastermoviles/opengl10/Model3D.java:76-82 | after k steps the error on each axis is (1 - speed)^k times the initial error; the destination and the depth are those of the start |
| Orientation.DampedNMonotone | app/src/main/java/com/japg/mastermoviles/opengl10/Model3D.java:76-82 | for 0 < speed <= 1, after any number of steps the rotation lies between its start and the destination, and each further step does not increase the error |
| Orientation.DampedNNeverArrives | app/src/main/java/com/japg/mastermoviles/opengl10/Model3D.java:76-82 | for 0 <= speed < 1, a non-zero error stays non-zero after any number of steps |
| Orientation.DampedConverges | app/src/main/java/com/japg/mastermoviles/opengl10/Model3D.java:76-82 | for 0 < speed <= 1 and any eps > 0, some number of steps is reached after which both errors stay below eps |
| Orientation.DecayBetween | app/src/main/java/com/japg/mastermoviles/opengl10/Model3D.java:77-81 | an error repeatedly scaled by a factor in [0, 1] stays between 0 and the initial error |
| Orientation.DecayShrinks | app/src/main/java/com/japg/mastermoviles/opengl10/Model3D.java:77-81 | each additional scaling by a factor in [0, 1] does not increase the error's magnitude |
| Orientation.DecayNonZero | app/src/main/java/com/japg/mastermoviles/opengl10/Model3D.java:77-81 | a non-zero error scaled by a non-zero factor stays non-zero |
| Orientation.DecayBound | app/src/main/java/com/japg/mastermoviles/opengl10/Model3D.java:77-81 | the error after k steps at speed s, times 1 + k*s, is at most the initial error |
| Orientation.DecayConverges | app/src/main/java/com/japg/mastermoviles/opengl10/Model3D.java:77-81 | for a factor in [0, 1), the scaled error eventually stays below any eps > 0 |
| Orientation.NudgedYAdditive | app/src/main/java/com/japg/mastermoviles/opengl10/Model3D.java:84-86 | rotateY(d1) then rotateY(d2) equals rotateY(d1 + d2) |
| Orientation.ZoomedAdditive | app/src/main/java/com/japg/mastermoviles/opengl10/Model3D.java:88-90 | zoom(d1) then zoom(d2) equals zoom(d1 + d2) |
| Orientation.Model3D.constructor | app/src/main/java/com/japg/mastermoviles/opengl10/Model3D.java:61-69 | the new object's pose is Initial of the three given values |
| Orientation.Model3D.SetDestination | app/src/main/java/com/japg/mastermoviles/opengl10/Model3D.java:71-74 | the new pose is Retargeted of the old one |
| Orientation.Model3D.UpdatePosition | app/src/main/java/com/japg/mastermoviles/opengl10/Model3D.java:76-82 | the new pose is Damped of the old one |
| Orientation.Model3D.RotateY | app/src/main/java/com/japg/mastermoviles/opengl10/Model3D.java:84-86 | the new pose is NudgedY of the old one |
| Orientation.Model3D.Zoom | app/src/main/java/com/japg/mastermoviles/opengl10/Model3D.java:88-90 | the new pose is Zoomed of the old one |
| Projection.AndroidFrustum | app/src/main/java/com/japg/mastermoviles/opengl10/OpenGLRenderer.java:98-100 | the frustumM output that frustum's correction assumes: the glFrustum matrix with entry 8 doubled |
| Projection.Frustum2Matrix | app/src/main/java/com/japg/mastermoviles/opengl10/OpenGLRenderer.java:139-164 | frustum2's matrix equals the glFrustum matrix with entry 10 replaced by -1 |
| Projection.MinusOneQuotient | app/src/main/java/com/japg/mastermoviles/opengl10/OpenGLRenderer.java:120 | the depth entry (n - f) / (f - n) that perspective and frustum2 write equals -1 whenever f != n |
| Projection.Frustum2DepthEntry | app/src/main/java/com/japg/mastermoviles/opengl10/OpenGLRenderer.java:157 | frustum2's entry 10 equals glFrustum's if and only if n = 0 |
| Projection.SymmetricFrustum2 | app/src/main/java/com/japg/mastermoviles/opengl10/OpenGLRenderer.java:139-164 | for a symmetric frustum (-r, r, -t, t), m[8] = m[9] = 0, m[0] = n/r and m[5] = n/t |
| Projection.PerspectiveIsSymmetricFrustum | app/src/main/java/com/japg/mastermoviles/opengl10/OpenGLRenderer.java:103-137 | perspective's matrix is frustum2's matrix of the symmetric bounds (-fW, fW, -fH, fH) that perspective2 derives, with fH = tan(fovy/360 * pi) * n and fW = fH * aspect; so entries 0, 5, 11 and 14 are a/aspect, a, -1 and -2fn/(f - n) and the other entries except 10 are 0 |
| Projection.FrustumAtStart | app/src/main/java/com/japg/mastermoviles/opengl10/OpenGLRenderer.java:96-101 | at offset 0, frustum leaves entry 8 at half of frustumM's value, keeps frustumM's other 15 entries, and does not touch the rest of the array |
| Projection.FrustumAtLaterOffset | app/src/main/java/com/japg/mastermoviles/opengl10/OpenGLRenderer.java:96-101 | at offset 9 or more the written block is exactly frustumM's matrix, the caller's entry 8 is halved instead, and every other entry is unchanged |
| Projection.FrustumCorrectsAndroid | app/src/main/java/com/japg/mastermoviles/opengl10/OpenGLRenderer.java:96-101 | with a frustumM that doubles entry 8, frustum at offset 0 yields exactly the glFrustum matrix |
| Projection.SymmetricAndroidFrustum | app/src/main/java/com/japg/mastermoviles/opengl10/OpenGLRenderer.java:96-101 | for the symmetric bounds perspective2 passes, entry 8 is 0, so the defective frustumM matrix equals glFrustum's |
| Projection.Perspective2AgreesWithPerspective | app/src/main/java/com/japg/mastermoviles/opengl10/OpenGLRenderer.java:103-137 | at offset 0, over such a frustumM, perspective2 agrees with perspective on every entry except entry 10, where it has glFrustum's value; at later offsets the two write different parts of the array |
| Projection.Perspective | app/src/main/java/com/japg/mastermoviles/opengl10/OpenGLRenderer.java:103-128 | entries 0..15 of m become PerspectiveMatrix whatever the offset, and the rest of m is unchanged |
| Projection.Frustum2 | app/src/main/java/com/japg/mastermoviles/opengl10/OpenGLRenderer.java:139-164 | entries 0..15 of m become Frustum2Matrix whatever the offset, and the rest of m is unchanged |
| Projection.Frustum | app/src/main/java/com/japg/mastermoviles/opengl10/OpenGLRenderer.java:96-101 | m becomes FrustumWritten: frustumM's matrix spliced in at offset, and then entry 8 of m halved |
| Projection.Perspective2 | app/src/main/java/com/japg/mastermoviles/opengl10/OpenGLRenderer.java:130-137 | m becomes frustum's result for the symmetric bounds (-fW, fW, -fH, fH) |
| Touch.NormalizeXRange | app/src/main/java/com/japg/mastermoviles/opengl10/OpenGLActivity.java:71 | for 0 <= x <= w, nx is in [-1, 1]; the left edge gives -1 and the right edge 1; x is recovered from nx |
| Touch.NormalizeYRange | app/src/main/java/com/japg/mastermoviles/opengl10/OpenGLActivity.java:72 | for 0 <= y <= h, ny is in [-1, 1]; y = 0 gives 1 and y = h gives -1; ny decreases as y grows; y is recovered from ny |
| Touch.DistanceNonNegative | app/src/main/java/com/japg/mastermoviles/opengl10/OpenGLActivity.java:131-133 | given a square root, getDistance is non-negative, so Math.abs leaves it unchanged, and its square is the squared Euclidean distance |
| Touch.DistanceSymmetric | app/src/main/java/com/japg/mastermoviles/opengl10/OpenGLActivity.java:131-133 | getDistance does not depend on which point is given first |
| Touch.DistanceToSelf | app/src/main/java/com/japg/mastermoviles/opengl10/OpenGLActivity.java:131-133 | a point is at distance 0 from itself |
| Touch.NullEventRefused | app/src/main/java/com/japg/mastermoviles/opengl10/OpenGLActivity.java:70-106 | a null event returns false, queues nothing and keeps the anchor |
| Touch.DownPresses | app/src/main/java/com/japg/mastermoviles/opengl10/OpenGLActivity.java:74-78 | ACTION_DOWN queues exactly one press at the normalised position and sets the anchor to that position |
| Touch.MoveDrags | app/src/main/java/com/japg/mastermoviles/opengl10/OpenGLActivity.java:80-81 | every ACTION_MOVE, whatever its pointer count, queues a drag at the primary position first, and only zoom commands after it |
| Touch.MoveWithoutPinch | app/src/main/java/com/japg/mastermoviles/opengl10/OpenGLActivity.java:80-83 | a move whose pointer count is not 2 queues only the drag and keeps the anchor |
| Touch.OtherActionIgnored | app/src/main/java/com/japg/mastermoviles/opengl10/OpenGLActivity.java:74-102 | any other action returns true, queues nothing and keeps the anchor |
| Touch.AnchorUpdates | app/src/main/java/com/japg/mastermoviles/opengl10/OpenGLActivity.java:74-100 | the anchor becomes the primary position after a press or a two-pointer move and is kept otherwise |
| Touch.PinchDecision | app/src/main/java/com/japg/mastermoviles/opengl10/OpenGLActivity.java:89-97 | for non-negative distances: zoom-out with factor (new - old) * 10 fires if and only if old < new; zoom-in with factor (old - new) * 10 fires if and only if old > new; at most one fires, none on equality, and every factor is positive |
| Touch.TwoPointerMove | app/src/main/java/com/japg/mastermoviles/opengl10/OpenGLActivity.java:83-100 | a two-pointer move queues the drag followed by the pinch commands for the new and the anchored non-negative distances to the second pointer, and moves the anchor to the primary position |
| Touch.TwoPointerZoom | app/src/main/java/com/japg/mastermoviles/opengl10/OpenGLActivity.java:86-97 | on a two-pointer move, zoom-out is queued if and only if the primary pointer is now farther from the second pointer than the anchor was, and zoom-in if and only if it is nearer; at most two commands are queued, and only the drag on equal distances |
| Touch.TouchListener.constructor | app/src/main/java/com/japg/mastermoviles/opengl10/OpenGLActivity.java:29-30 | the anchor starts at (1, 1) |
| Touch.TouchListener.OnTouch | app/src/main/java/com/japg/mastermoviles/opengl10/OpenGLActivity.java:69-107 | the return value, the queued commands and the new anchor are React of the old anchor and the event |
| Renderer.InitialScene | app/src/main/java/com/japg/mastermoviles/opengl10/OpenGLRenderer.java:170-171 | both objects start with the same pose, at depth -5 |
| Renderer.PressRetargetsHalo | app/src/main/java/com/japg/mastermoviles/opengl10/OpenGLRenderer.java:219-224 | a press sets the halo's destination to (-ny * 20, nx * 20) and changes nothing else: the halo keeps its rotation and depth and the body is untouched |
| Renderer.DragRetargetsBoth | app/src/main/java/com/japg/mastermoviles/opengl10/OpenGLRenderer.java:226-232 | a drag sets both destinations to (-ny * 180, nx * 180) and keeps both rotations and depths |
| Renderer.DragOverridesPress | app/src/main/java/com/japg/mastermoviles/opengl10/OpenGLRenderer.java:219-232 | a drag after a press has the same effect as the drag alone |
| Renderer.ZoomInOutCancel | app/src/main/java/com/japg/mastermoviles/opengl10/OpenGLRenderer.java:234-242 | handleZoomIn(z) then handleZoomOut(z), in either order, restores both objects |
| Renderer.HeadTurnsCancel | app/src/main/java/com/japg/mastermoviles/opengl10/OpenGLRenderer.java:244-250 | rotateHeadLeft then rotateHeadRight, in either order, restores the halo; neither touches the body |
| Renderer.HandleKeepsDepthGap | app/src/main/java/com/japg/mastermoviles/opengl10/OpenGLRenderer.java:215-250 | one touch command, frame or head turn leaves the depth difference unchanged |
| Renderer.HandleAllKeepsDepthGap | app/src/main/java/com/japg/mastermoviles/opengl10/OpenGLRenderer.java:215-250 | no sequence mixing touch commands, frames and head turns changes the depth difference |
| Renderer.DepthsStayEqual | app/src/main/java/com/japg/mastermoviles/opengl10/OpenGLRenderer.java:170-250 | from the initial scene, after any sequence of touch commands, frames and head turns, the halo and the body are at the same depth |
| Renderer.ApplyAllIsHandleAll | app/src/main/java/com/japg/mastermoviles/opengl10/OpenGLRenderer.java:219-242 | running a queue of touch commands gives the same scene as handling them one by one as touch inputs |
| Renderer.ApplyAllKeepsDepthGap | app/src/main/java/com/japg/mastermoviles/opengl10/OpenGLRenderer.java:219-242 | no sequence of queued touch commands changes the depth difference (derived from HandleAllKeepsDepthGap) |
| Renderer.FramesDamp | app/src/main/java/com/japg/mastermoviles/opengl10/OpenGLRenderer.java:215-216 | k frames damp each object k times at speed 0.06 |
| Renderer.FramesSettle | app/src/main/java/com/japg/mastermoviles/opengl10/OpenGLRenderer.java:215-216 | left alone, both objects come and stay within any tolerance of their destinations after some number of frames |
| Renderer.PressEventRetargetsHalo | app/src/main/java/com/japg/mastermoviles/opengl10/OpenGLRenderer.java:219-224 | running the commands an ACTION_DOWN queues retargets the halo from the normalised press position |
| Renderer.PressExamples | app/src/main/java/com/japg/mastermoviles/opengl10/OpenGLRenderer.java:223 | a press at (0, 0) aims the halo at (0, 0); a press at (0.5, -0.5) aims it at (10, 10) |
| Renderer.AspectRatio | app/src/main/java/com/japg/mastermoviles/opengl10/OpenGLRenderer.java:184-186 | the aspect ratio is at least 1 |
| Renderer.ProjectionAspectIsWidthOverHeight | app/src/main/java/com/japg/mastermoviles/opengl10/OpenGLRenderer.java:184-197 | in both branches the aspect passed to perspective equals width / height and is positive |
| Renderer.ResizeExamples | app/src/main/java/com/japg/mastermoviles/opengl10/OpenGLRenderer.java:184-197 | 200 x 100 has ratio 2 and passes 2; 100 x 200 has ratio 2 and passes 0.5 |
| Renderer.OpenGLRenderer.constructor | app/src/main/java/com/japg/mastermoviles/opengl10/OpenGLRenderer.java:166-172 | two distinct fresh objects with the initial scene and a zero projection matrix |
| Renderer.OpenGLRenderer.OnSurfaceChanged | app/src/main/java/com/japg/mastermoviles/opengl10/OpenGLRenderer.java:181-198 | the projection matrix becomes the 45-degree perspective from 0.01 to 1000 with aspect width / height, and the scene is unchanged |
| Renderer.OpenGLRenderer.OnDrawFrame | app/src/main/java/com/japg/mastermoviles/opengl10/OpenGLRenderer.java:215-216 | the new scene is one Frame of the old |
| Renderer.OpenGLRenderer.HandleTouchPress | app/src/main/java/com/japg/mastermoviles/opengl10/OpenGLRenderer.java:219-224 | the new scene is Pressed of the old |
| Renderer.OpenGLRenderer.HandleTouchDrag | app/src/main/java/com/japg/mastermoviles/opengl10/OpenGLRenderer.java:226-232 | the new scene is Dragged of the old |
| Renderer.OpenGLRenderer.HandleZoomIn | app/src/main/java/com/japg/mastermoviles/opengl10/OpenGLRenderer.java:234-237 | the new scene is ZoomedIn of the old |
| Renderer.OpenGLRenderer.HandleZoomOut | app/src/main/java/com/japg/mastermoviles/opengl10/OpenGLRenderer.java:239-242 | the new scene is ZoomedOut of the old |
| Renderer.OpenGLRenderer.RotateHeadLeft | app/src/main/java/com/japg/mastermoviles/opengl10/OpenGLRenderer.java:244-246 | the new scene is HeadLeft of the old |
| Renderer.OpenGLRenderer.RotateHeadRight | app/src/main/java/com/japg/mastermoviles/opengl10/OpenGLRenderer.java:248-250 | the new scene is HeadRight of the old |

## Left out

- Drawing and GL state are not modelled. This covers `Model3D.loadTexture` and `Model3D.drawModel`, `onSurfaceCreated`, the `glViewport`/`glClear`/`glEnable` calls and the drawing part of `onDrawFrame`. They are GL I/O.
- The `android.opengl.Matrix` functions `rotateM`, `translateM`, `multiplyMM` and `setIdentityM` are foreign code. `frustumM` is a function parameter of `Projection.Frustum` and `Projection.Perspective2`.
- `frustumM`'s own argument checks are not modelled. It throws `IllegalArgumentException` when left equals right and in similar cases; those checks are inside the library function.
- `TextureHelper`, `Resource3DSReader`, `ShaderHelper` and `TextResourceReader` are not part of this model. They do bitmap, mesh, shader and resource loading.
- UI wiring is not modelled: the head buttons, Toasts, the OpenGL ES 2.0 detection, and `onPause`/`onResume`. On a device without ES 2.0 the activity returns before installing the listener; the model assumes the listener is installed.
- `glSurfaceView.queueEvent` is not modelled. It hands commands to the render thread. The listener returns its commands as a sequence, and `Renderer.ApplyAll` runs them in order; threads and interleaving with frames are not modelled.
- Numbers are `real`. There is no `float` rounding, no `(float)` cast and no IEEE infinity or NaN.
- Projection.Perspective: requires `f != n`, `aspect != 0` and `tan(fovy * pi / 360) != 0`, because real division by zero is undefined. Java would write infinities or NaN instead.
- Projection.Frustum2: requires `r != l`, `t != b` and `f != n`, for the same reason.
- Renderer.OpenGLRenderer.OnSurfaceChanged: requires a positive width and height (so does `Renderer.AspectRatio`). Java would compute an infinite or NaN aspect ratio for a surface of size 0.
- Touch.TouchListener.OnTouch: requires a positive view width and height when the event is present. Java would produce infinities or NaN for a view of size 0.
- Projection.Perspective / Projection.Frustum2 / Projection.Frustum / Projection.Perspective2: require the array to be long enough for the entries written. The Java code throws `ArrayIndexOutOfBoundsException` instead.
- `Math.tan` and `Math.sqrt` are function parameters. `Math.sqrt` is constrained by `Touch.IsSqrt` (non-negative, squares back) only where a lemma needs it, and `Math.tan` only by the non-zero requirement above. `Math.PI` is the double constant 3.141592653589793 taken as an exact real.
- Action codes are plain integers: `ACTION_DOWN` = 0 and `ACTION_MOVE` = 2. Every other code, including the pointer-down and pointer-up actions, takes the "other action" branch, as in the code.
- The constructor arguments `Context`, model resource and texture resource are not modelled. They only load data.
- Fields of `OpenGLRenderer` that are never read are not modelled: `tablaVertices`, `rX`, `rY`, `obj3DS`, its shader handles and its model matrices. The shader handles and `modelMatrix` of `Model3D` are used only by `drawModel`, which is GL drawing and left out above.
- Logging is not modelled: the `Log.w` calls under `LoggerConfig.ON` in `handleTouchPress` and `handleTouchDrag` only write to the log and change no state.
