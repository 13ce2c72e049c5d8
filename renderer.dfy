/** The renderer: two posable objects (the halo and the body), the
    projection matrix, the per-frame damping and the command handlers the
    touch listener and the head buttons call. */
module Renderer {
  import opened Orientation
  import Projection
  import Touch

  /** Gain from a normalised press position to a halo destination, in degrees. */
  const PRESS_GAIN: real := 20.0
  /** Gain from a normalised drag position to both destinations, in degrees. */
  const DRAG_GAIN: real := 180.0
  /** How far one head button turns the halo's Y destination, in degrees. */
  const HEAD_TURN: real := 20.0
  /** The damping speed of one frame. */
  const FRAME_SPEED: real := 0.06
  /** The projection onSurfaceChanged sets up. */
  const FOVY: real := 45.0
  const NEAR: real := 0.01
  const FAR: real := 1000.0
  /** The depth both objects start at. */
  const INITIAL_DEPTH: real := -5.0

  /** The poses of the two objects, as a value. */
  datatype Scene = Scene(halo: Pose, body: Pose)

  function InitialScene(): (s: Scene)
    ensures s.halo == s.body
    ensures s.halo.rotationZ == INITIAL_DEPTH
  {
    Scene(Initial(0.0, 0.0, INITIAL_DEPTH), Initial(0.0, 0.0, INITIAL_DEPTH))
  }

  /** handleTouchPress: retargets the halo only. */
  function Pressed(s: Scene, nx: real, ny: real): Scene {
    s.(halo := Retargeted(s.halo, -ny * PRESS_GAIN, nx * PRESS_GAIN))
  }

  /** handleTouchDrag: retargets both objects to the same destination. */
  function Dragged(s: Scene, nx: real, ny: real): Scene {
    Scene(Retargeted(s.halo, -ny * DRAG_GAIN, nx * DRAG_GAIN),
          Retargeted(s.body, -ny * DRAG_GAIN, nx * DRAG_GAIN))
  }

  /** handleZoomIn: both objects move away by z. */
  function ZoomedIn(s: Scene, z: real): Scene {
    Scene(Zoomed(s.halo, -z), Zoomed(s.body, -z))
  }

  /** handleZoomOut: both objects move closer by z. */
  function ZoomedOut(s: Scene, z: real): Scene {
    Scene(Zoomed(s.halo, z), Zoomed(s.body, z))
  }

  /** rotateHeadLeft: the halo's Y destination turns by -20 degrees. */
  function HeadLeft(s: Scene): Scene {
    s.(halo := NudgedY(s.halo, -HEAD_TURN))
  }

  /** rotateHeadRight: the halo's Y destination turns by 20 degrees. */
  function HeadRight(s: Scene): Scene {
    s.(halo := NudgedY(s.halo, HEAD_TURN))
  }

  /** One frame of onDrawFrame: both objects take one damped step. */
  function Frame(s: Scene): Scene {
    Scene(Damped(s.halo, FRAME_SPEED), Damped(s.body, FRAME_SPEED))
  }

  /** k frames. */
  function Frames(s: Scene, k: nat): Scene
    decreases k
  {
    if k == 0 then s else Frames(Frame(s), k - 1)
  }

  /** Running one command the touch listener queued. */
  function Apply(s: Scene, c: Touch.Command): Scene {
    match c
    case TouchPress(nx, ny) => Pressed(s, nx, ny)
    case TouchDrag(nx, ny) => Dragged(s, nx, ny)
    case ZoomOut(z) => ZoomedOut(s, z)
    case ZoomIn(z) => ZoomedIn(s, z)
  }

  /** Running queued commands in order. */
  function ApplyAll(s: Scene, cs: seq<Touch.Command>): Scene
    decreases |cs|
  {
    if cs == [] then s else ApplyAll(Apply(s, cs[0]), cs[1..])
  }

  /** A press retargets the halo to (-ny * 20, nx * 20) and changes nothing
      else: the halo keeps its rotation and depth and the body is untouched. */
  lemma PressRetargetsHalo(s: Scene, nx: real, ny: real)
    ensures Pressed(s, nx, ny).body == s.body
    ensures Pressed(s, nx, ny).halo.destinationX == -ny * PRESS_GAIN
    ensures Pressed(s, nx, ny).halo.destinationY == nx * PRESS_GAIN
    ensures Pressed(s, nx, ny).halo.(destinationX := s.halo.destinationX, destinationY := s.halo.destinationY) == s.halo
  {
  }

  /** A drag gives both objects the same destination (-ny * 180, nx * 180),
      and keeps their rotations and depths. */
  lemma DragRetargetsBoth(s: Scene, nx: real, ny: real)
    ensures var d := Dragged(s, nx, ny);
      d.halo.destinationX == d.body.destinationX == -ny * DRAG_GAIN &&
      d.halo.destinationY == d.body.destinationY == nx * DRAG_GAIN &&
      d.halo.(destinationX := s.halo.destinationX, destinationY := s.halo.destinationY) == s.halo &&
      d.body.(destinationX := s.body.destinationX, destinationY := s.body.destinationY) == s.body
  {
  }

  /** A drag overrides whatever a press set before it. */
  lemma DragOverridesPress(s: Scene, px: real, py: real, nx: real, ny: real)
    ensures Dragged(Pressed(s, px, py), nx, ny) == Dragged(s, nx, ny)
  {
  }

  /** Zooming in and out by the same amount cancel, in either order. */
  lemma ZoomInOutCancel(s: Scene, z: real)
    ensures ZoomedOut(ZoomedIn(s, z), z) == s
    ensures ZoomedIn(ZoomedOut(s, z), z) == s
  {
    ZoomedAdditive(s.halo, -z, z);
    ZoomedAdditive(s.body, -z, z);
    ZoomedAdditive(s.halo, z, -z);
    ZoomedAdditive(s.body, z, -z);
  }

  /** A head turn left and one right cancel, in either order; neither touches
      the body. */
  lemma HeadTurnsCancel(s: Scene)
    ensures HeadRight(HeadLeft(s)) == s && HeadLeft(HeadRight(s)) == s
    ensures HeadLeft(s).body == s.body && HeadRight(s).body == s.body
  {
  }

  /** The depth gap between the two objects: no command and no frame changes it. */
  function DepthGap(s: Scene): real {
    s.halo.rotationZ - s.body.rotationZ
  }

  /** Everything that changes the scene: a queued touch command, a frame,
      or a head button. */
  datatype Input = Touched(command: Touch.Command) | DrewFrame | TurnedHeadLeft | TurnedHeadRight

  function Handle(s: Scene, i: Input): Scene {
    match i
    case Touched(c) => Apply(s, c)
    case DrewFrame => Frame(s)
    case TurnedHeadLeft => HeadLeft(s)
    case TurnedHeadRight => HeadRight(s)
  }

  /** Handling inputs in order. */
  function HandleAll(s: Scene, inputs: seq<Input>): Scene
    decreases |inputs|
  {
    if inputs == [] then s else HandleAll(Handle(s, inputs[0]), inputs[1..])
  }

  lemma HandleKeepsDepthGap(s: Scene, i: Input)
    ensures DepthGap(Handle(s, i)) == DepthGap(s)
  {
  }

  /** Any mix of touch commands, frames and head turns keeps the depth gap. */
  lemma {:induction false} HandleAllKeepsDepthGap(s: Scene, inputs: seq<Input>)
    ensures DepthGap(HandleAll(s, inputs)) == DepthGap(s)
    decreases |inputs|
  {
    if inputs != [] {
      HandleKeepsDepthGap(s, inputs[0]);
      HandleAllKeepsDepthGap(Handle(s, inputs[0]), inputs[1..]);
    }
  }

  /** The queued touch commands as inputs. */
  function Touches(cs: seq<Touch.Command>): (inputs: seq<Input>)
    ensures |inputs| == |cs|
    ensures forall i :: 0 <= i < |cs| ==> inputs[i] == Touched(cs[i])
  {
    seq(|cs|, i requires 0 <= i < |cs| => Touched(cs[i]))
  }

  /** Running queued commands is handling them as touch inputs. */
  lemma {:induction false} ApplyAllIsHandleAll(s: Scene, cs: seq<Touch.Command>)
    ensures ApplyAll(s, cs) == HandleAll(s, Touches(cs))
    decreases |cs|
  {
    if cs != [] {
      assert Touches(cs)[1..] == Touches(cs[1..]);
      ApplyAllIsHandleAll(Apply(s, cs[0]), cs[1..]);
    }
  }

  /** Whatever commands run, the halo and the body stay at the same depth
      once they start there, as they do in the initial scene. */
  lemma ApplyAllKeepsDepthGap(s: Scene, cs: seq<Touch.Command>)
    ensures DepthGap(ApplyAll(s, cs)) == DepthGap(s)
  {
    ApplyAllIsHandleAll(s, cs);
    HandleAllKeepsDepthGap(s, Touches(cs));
  }

  /** The halo and the body start at the same depth and stay there, whatever
      the user does and however many frames are drawn. */
  lemma DepthsStayEqual(inputs: seq<Input>)
    ensures HandleAll(InitialScene(), inputs).halo.rotationZ ==
            HandleAll(InitialScene(), inputs).body.rotationZ
  {
    HandleAllKeepsDepthGap(InitialScene(), inputs);
  }

  /** k frames damp each object k times at the frame speed. */
  lemma {:induction false} FramesDamp(s: Scene, k: nat)
    ensures Frames(s, k) == Scene(DampedN(s.halo, FRAME_SPEED, k), DampedN(s.body, FRAME_SPEED, k))
    decreases k
  {
    if k > 0 {
      FramesDamp(Frame(s), k - 1);
    }
  }

  /** Left alone, both objects settle: for every tolerance there is a number
      of frames after which every rotation is within it of its destination. */
  lemma FramesSettle(s: Scene, eps: real) returns (n: nat)
    requires eps > 0.0
    ensures forall k: nat :: n <= k ==>
      Abs(Error(Frames(s, k).halo, X)) < eps && Abs(Error(Frames(s, k).halo, Y)) < eps &&
      Abs(Error(Frames(s, k).body, X)) < eps && Abs(Error(Frames(s, k).body, Y)) < eps
  {
    var nh := DampedConverges(s.halo, FRAME_SPEED, eps);
    var nb := DampedConverges(s.body, FRAME_SPEED, eps);
    n := if nh < nb then nb else nh;
    forall k: nat | n <= k
      ensures Abs(Error(Frames(s, k).halo, X)) < eps && Abs(Error(Frames(s, k).halo, Y)) < eps &&
              Abs(Error(Frames(s, k).body, X)) < eps && Abs(Error(Frames(s, k).body, Y)) < eps
    {
      FramesDamp(s, k);
    }
  }

  /** A press event, run through the renderer, retargets the halo from the
      normalised press position. */
  lemma PressEventRetargetsHalo(anchor: Touch.Anchor, e: Touch.MotionEvent, width: int, height: int,
                                sqrt: real -> real, s: Scene)
    requires width > 0 && height > 0 && e.action == Touch.ACTION_DOWN
    ensures ApplyAll(s, Touch.React(anchor, Touch.Some(e), width, height, sqrt).commands) ==
            Pressed(s, Touch.NormalizeX(e.primary.x, width), Touch.NormalizeY(e.primary.y, height))
  {
    Touch.DownPresses(anchor, e, width, height, sqrt);
    var c := Touch.TouchPress(Touch.NormalizeX(e.primary.x, width), Touch.NormalizeY(e.primary.y, height));
    assert ApplyAll(s, [c]) == ApplyAll(Apply(s, c), []);
  }

  /** A press at the centre of the view aims the halo straight ahead; a press
      at (0.5, -0.5) aims it at (10, 10). */
  lemma PressExamples(s: Scene)
    ensures Pressed(s, 0.0, 0.0).halo.destinationX == 0.0 && Pressed(s, 0.0, 0.0).halo.destinationY == 0.0
    ensures Pressed(s, 0.5, -0.5).halo.destinationX == 10.0 && Pressed(s, 0.5, -0.5).halo.destinationY == 10.0
  {
  }

  /** The aspect ratio onSurfaceChanged computes: long side over short side. */
  function AspectRatio(width: int, height: int): (r: real)
    requires width > 0 && height > 0
    ensures r >= 1.0
  {
    if width > height then
      AtLeastOne(width as real, height as real);
      width as real / height as real
    else
      AtLeastOne(height as real, width as real);
      height as real / width as real
  }

  lemma AtLeastOne(a: real, b: real)
    requires 0.0 < b <= a
    ensures a / b >= 1.0
  {
  }

  /** The aspect onSurfaceChanged passes to perspective: the ratio in
      landscape, its reciprocal in portrait or square. */
  function ProjectionAspect(width: int, height: int): real
    requires width > 0 && height > 0
  {
    if width > height then AspectRatio(width, height) else 1.0 / AspectRatio(width, height)
  }

  /** In both orientations perspective receives width / height. */
  lemma ProjectionAspectIsWidthOverHeight(width: int, height: int)
    requires width > 0 && height > 0
    ensures ProjectionAspect(width, height) == width as real / height as real
    ensures ProjectionAspect(width, height) > 0.0
  {
    if width <= height {
      ReciprocalQuotient(height as real, width as real);
    }
  }

  lemma ReciprocalQuotient(a: real, b: real)
    requires a > 0.0 && b > 0.0
    ensures 1.0 / (a / b) == b / a
  {
  }

  /** A landscape 200 x 100 surface has ratio 2 and passes 2; a portrait
      100 x 200 one has ratio 2 too but passes 0.5. */
  lemma ResizeExamples()
    ensures AspectRatio(200, 100) == 2.0 && ProjectionAspect(200, 100) == 2.0
    ensures AspectRatio(100, 200) == 2.0 && ProjectionAspect(100, 200) == 0.5
  {
  }

  /** The renderer object: its two posable objects and the projection matrix. */
  class OpenGLRenderer {
    const halo: Model3D
    const body: Model3D
    const projectionMatrix: array<real>

    ghost predicate Valid() {
      halo != body && projectionMatrix.Length == 16
    }

    ghost function SceneState(): Scene
      reads halo, body
    {
      Scene(halo.State(), body.State())
    }

    constructor ()
      ensures Valid() && fresh(halo) && fresh(body) && fresh(projectionMatrix)
      ensures SceneState() == InitialScene()
      ensures projectionMatrix[..] == seq(16, _ => 0.0)
    {
      projectionMatrix := new real[16](_ => 0.0);
      halo := new Model3D(0.0, 0.0, INITIAL_DEPTH);
      body := new Model3D(0.0, 0.0, INITIAL_DEPTH);
    }

    /** onSurfaceChanged: a 45 degree perspective from 0.01 to 1000 whose
        aspect is width / height, whichever branch is taken. */
    method OnSurfaceChanged(width: int, height: int, tan: real -> real)
      requires Valid() && width > 0 && height > 0
      requires tan(Projection.HalfAngle(FOVY)) != 0.0
      modifies projectionMatrix
      ensures projectionMatrix[..] ==
              Projection.PerspectiveMatrix(tan, FOVY, width as real / height as real, NEAR, FAR)
      ensures SceneState() == old(SceneState())
    {
      var aspectRatio := AspectRatio(width, height);
      ProjectionAspectIsWidthOverHeight(width, height);
      if width > height {
        // landscape
        Projection.Perspective(projectionMatrix, 0, FOVY, aspectRatio, NEAR, FAR, tan);
      } else {
        // portrait or square
        Projection.Perspective(projectionMatrix, 0, FOVY, 1.0 / aspectRatio, NEAR, FAR, tan);
      }
      assert projectionMatrix[..] == projectionMatrix[..16];
    }

    /** onDrawFrame, without the drawing: both objects take one damped step. */
    method OnDrawFrame()
      requires Valid()
      modifies halo, body
      ensures SceneState() == Frame(old(SceneState()))
    {
      halo.UpdatePosition(FRAME_SPEED);
      body.UpdatePosition(FRAME_SPEED);
    }

    method HandleTouchPress(normalizedX: real, normalizedY: real)
      requires Valid()
      modifies halo
      ensures SceneState() == Pressed(old(SceneState()), normalizedX, normalizedY)
    {
      halo.SetDestination(-normalizedY * PRESS_GAIN, normalizedX * PRESS_GAIN);
    }

    method HandleTouchDrag(normalizedX: real, normalizedY: real)
      requires Valid()
      modifies halo, body
      ensures SceneState() == Dragged(old(SceneState()), normalizedX, normalizedY)
    {
      halo.SetDestination(-normalizedY * DRAG_GAIN, normalizedX * DRAG_GAIN);
      body.SetDestination(-normalizedY * DRAG_GAIN, normalizedX * DRAG_GAIN);
    }

    method HandleZoomIn(normalizedZ: real)
      requires Valid()
      modifies halo, body
      ensures SceneState() == ZoomedIn(old(SceneState()), normalizedZ)
    {
      halo.Zoom(-normalizedZ);
      body.Zoom(-normalizedZ);
    }

    method HandleZoomOut(normalizedZ: real)
      requires Valid()
      modifies halo, body
      ensures SceneState() == ZoomedOut(old(SceneState()), normalizedZ)
    {
      halo.Zoom(normalizedZ);
      body.Zoom(normalizedZ);
    }

    method RotateHeadLeft()
      requires Valid()
      modifies halo
      ensures SceneState() == HeadLeft(old(SceneState()))
    {
      halo.RotateY(-HEAD_TURN);
    }

    method RotateHeadRight()
      requires Valid()
      modifies halo
      ensures SceneState() == HeadRight(old(SceneState()))
    {
      halo.RotateY(HEAD_TURN);
    }
  }
}
