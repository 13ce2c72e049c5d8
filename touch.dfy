/** The touch listener of the activity: it turns raw motion events into
    renderer commands (press, drag, zoom in, zoom out) and keeps the anchor
    point a pinch is measured from. */
module Touch {
  import Orientation

  datatype Option<T> = None | Some(value: T)

  /** MotionEvent action codes. */
  const ACTION_DOWN: int := 0
  const ACTION_MOVE: int := 2

  /** A pointer position in view pixels. */
  datatype Pointer = Pointer(x: real, y: real)

  /** A motion event: its action code, the primary pointer (index 0) and the
      further pointers (index 1 onwards). Every event has a primary pointer. */
  datatype MotionEvent = MotionEvent(action: int, primary: Pointer, others: seq<Pointer>)
  {
    function PointerCount(): nat {
      1 + |others|
    }
  }

  /** The renderer calls the listener queues, with their arguments. */
  datatype Command =
    | TouchPress(nx: real, ny: real)
    | TouchDrag(nx: real, ny: real)
    | ZoomOut(factor: real)
    | ZoomIn(factor: real)

  /** The last remembered primary position (dstX, dstY), in normalised coordinates. */
  datatype Anchor = Anchor(x: real, y: real)

  /** The anchor the listener starts with. */
  const INITIAL_ANCHOR: Anchor := Anchor(1.0, 1.0)

  /** What one call of the listener does: its return value, the commands it
      queues in order, and the anchor it leaves. */
  datatype Reaction = Reaction(handled: bool, commands: seq<Command>, anchor: Anchor)

  /** The gain applied to a change of pinch distance. */
  const PINCH_GAIN: real := 10.0

  /** Horizontal view coordinate to [-1, 1], left to right. */
  function NormalizeX(x: real, width: int): real
    requires width > 0
  {
    (x / width as real) * 2.0 - 1.0
  }

  /** Vertical view coordinate to [-1, 1], inverted: the top edge is 1. */
  function NormalizeY(y: real, height: int): real
    requires height > 0
  {
    -((y / height as real) * 2.0 - 1.0)
  }

  /** Points inside the view map into [-1, 1], the left edge to -1 and the
      right edge to 1, preserving order; the pixel is recovered from the
      normalised value. */
  lemma NormalizeXRange(x: real, width: int)
    requires width > 0
    ensures 0.0 <= x <= width as real ==> -1.0 <= NormalizeX(x, width) <= 1.0
    ensures NormalizeX(0.0, width) == -1.0 && NormalizeX(width as real, width) == 1.0
    ensures (NormalizeX(x, width) + 1.0) / 2.0 * width as real == x
  {
    QuotientBounds(x, width as real);
    QuotientInverse(x, width as real);
  }

  /** Points inside the view map into [-1, 1], the top edge to 1 and the
      bottom edge to -1; a lower point gets a smaller value. */
  lemma NormalizeYRange(y: real, y2: real, height: int)
    requires height > 0
    ensures 0.0 <= y <= height as real ==> -1.0 <= NormalizeY(y, height) <= 1.0
    ensures NormalizeY(0.0, height) == 1.0 && NormalizeY(height as real, height) == -1.0
    ensures y < y2 ==> NormalizeY(y2, height) < NormalizeY(y, height)
    ensures (1.0 - NormalizeY(y, height)) / 2.0 * height as real == y
  {
    QuotientBounds(y, height as real);
    QuotientInverse(y, height as real);
    QuotientMonotone(y, y2, height as real);
  }

  lemma QuotientBounds(x: real, w: real)
    requires w > 0.0
    ensures 0.0 <= x <= w ==> 0.0 <= x / w <= 1.0
    ensures 0.0 / w == 0.0 && w / w == 1.0
  {
  }

  lemma QuotientInverse(x: real, w: real)
    requires w > 0.0
    ensures (x / w) * w == x
  {
  }

  lemma QuotientMonotone(x: real, y: real, w: real)
    requires w > 0.0
    ensures x < y ==> x / w < y / w
  {
  }

  /** getDistance over an abstract square root. */
  function Distance(sqrt: real -> real, x1: real, y1: real, x2: real, y2: real): real {
    sqrt((x2 - x1) * (x2 - x1) + (y2 - y1) * (y2 - y1))
  }

  /** The two facts about Math.sqrt the listener relies on: on non-negative
      arguments it is non-negative and squares back. */
  ghost predicate IsSqrt(sqrt: real -> real) {
    forall v :: v >= 0.0 ==> sqrt(v) >= 0.0 && sqrt(v) * sqrt(v) == v
  }

  lemma SquareNonNegative(d: real)
    ensures d * d >= 0.0
  {
    if d < 0.0 {
      assert d * d == (-d) * (-d);
    }
  }

  /** Distances are non-negative, so Math.abs leaves them unchanged; squared
      they give the squared Euclidean distance. */
  lemma DistanceNonNegative(sqrt: real -> real, x1: real, y1: real, x2: real, y2: real)
    requires IsSqrt(sqrt)
    ensures Distance(sqrt, x1, y1, x2, y2) >= 0.0
    ensures Orientation.Abs(Distance(sqrt, x1, y1, x2, y2)) == Distance(sqrt, x1, y1, x2, y2)
    ensures Distance(sqrt, x1, y1, x2, y2) * Distance(sqrt, x1, y1, x2, y2) ==
            (x2 - x1) * (x2 - x1) + (y2 - y1) * (y2 - y1)
  {
    SquareNonNegative(x2 - x1);
    SquareNonNegative(y2 - y1);
  }

  /** The distance does not depend on the order of the two points. */
  lemma DistanceSymmetric(sqrt: real -> real, x1: real, y1: real, x2: real, y2: real)
    ensures Distance(sqrt, x1, y1, x2, y2) == Distance(sqrt, x2, y2, x1, y1)
  {
    Negated(x2 - x1);
    Negated(y2 - y1);
  }

  lemma Negated(d: real)
    ensures (-d) * (-d) == d * d
  {
  }

  /** A point is at distance 0 from itself. */
  lemma DistanceToSelf(sqrt: real -> real, x: real, y: real)
    requires IsSqrt(sqrt)
    ensures Distance(sqrt, x, y, x, y) == 0.0
  {
    var z := sqrt(0.0);
    assert (x - x) * (x - x) + (y - y) * (y - y) == 0.0;
    ZeroSquare(z, z * z);
  }

  lemma ZeroSquare(z: real, w: real)
    requires w == z * z && w == 0.0
    ensures z == 0.0
  {
    if z > 0.0 {
      PositiveProduct(z, z, w);
    } else if z < 0.0 {
      assert (-z) * (-z) == w;
      PositiveProduct(-z, -z, w);
    }
  }

  lemma PositiveProduct(a: real, b: real, p: real)
    requires a > 0.0 && b > 0.0 && p == a * b
    ensures p > 0.0
  {
  }

  /** The zoom commands of a two-pointer move, given the new and the old
      distance of the second pointer from the primary one. */
  function PinchCommands(distanceNew: real, distanceOld: real): seq<Command> {
    (if Orientation.Abs(distanceOld) < Orientation.Abs(distanceNew) then [ZoomOut((distanceNew - distanceOld) * PINCH_GAIN)] else []) +
    (if Orientation.Abs(distanceOld) > Orientation.Abs(distanceNew) then [ZoomIn((distanceOld - distanceNew) * PINCH_GAIN)] else [])
  }

  /** The listener as a function of the anchor it finds and the event. */
  function React(anchor: Anchor, event: Option<MotionEvent>, width: int, height: int,
                 sqrt: real -> real): Reaction
    requires event.Some? ==> width > 0 && height > 0
  {
    match event
    case None => Reaction(false, [], anchor)
    case Some(e) =>
      var nx := NormalizeX(e.primary.x, width);
      var ny := NormalizeY(e.primary.y, height);
      if e.action == ACTION_DOWN then
        Reaction(true, [TouchPress(nx, ny)], Anchor(nx, ny))
      else if e.action == ACTION_MOVE then
        if e.PointerCount() == 2 then
          var sx := NormalizeX(e.others[0].x, width);
          var sy := NormalizeY(e.others[0].y, height);
          var distanceNew := Distance(sqrt, nx, ny, sx, sy);
          var distanceOld := Distance(sqrt, anchor.x, anchor.y, sx, sy);
          Reaction(true, [TouchDrag(nx, ny)] + PinchCommands(distanceNew, distanceOld), Anchor(nx, ny))
        else
          Reaction(true, [TouchDrag(nx, ny)], anchor)
      else
        Reaction(true, [], anchor)
  }

  /** A missing event is refused and changes nothing. */
  lemma NullEventRefused(anchor: Anchor, width: int, height: int, sqrt: real -> real)
    ensures React(anchor, None, width, height, sqrt) == Reaction(false, [], anchor)
  {
  }

  /** A press queues exactly one press command at the normalised primary
      position and makes that position the anchor. */
  lemma DownPresses(anchor: Anchor, e: MotionEvent, width: int, height: int, sqrt: real -> real)
    requires width > 0 && height > 0 && e.action == ACTION_DOWN
    ensures var r := React(anchor, Some(e), width, height, sqrt);
      var nx := NormalizeX(e.primary.x, width);
      var ny := NormalizeY(e.primary.y, height);
      r.handled && r.commands == [TouchPress(nx, ny)] && r.anchor == Anchor(nx, ny)
  {
  }

  /** Every move, whatever its pointer count, queues a drag at the primary
      position first, and queues nothing but zooms after it. */
  lemma MoveDrags(anchor: Anchor, e: MotionEvent, width: int, height: int, sqrt: real -> real)
    requires width > 0 && height > 0 && e.action == ACTION_MOVE
    ensures var r := React(anchor, Some(e), width, height, sqrt);
      r.handled && |r.commands| >= 1 &&
      r.commands[0] == TouchDrag(NormalizeX(e.primary.x, width), NormalizeY(e.primary.y, height)) &&
      forall i :: 1 <= i < |r.commands| ==> r.commands[i].ZoomOut? || r.commands[i].ZoomIn?
  {
  }

  /** A one-pointer (or three-or-more-pointer) move queues only the drag and
      keeps the anchor. */
  lemma MoveWithoutPinch(anchor: Anchor, e: MotionEvent, width: int, height: int, sqrt: real -> real)
    requires width > 0 && height > 0 && e.action == ACTION_MOVE && e.PointerCount() != 2
    ensures var r := React(anchor, Some(e), width, height, sqrt);
      r.commands == [TouchDrag(NormalizeX(e.primary.x, width), NormalizeY(e.primary.y, height))] &&
      r.anchor == anchor
  {
  }

  /** Any other action is accepted but queues nothing and keeps the anchor. */
  lemma OtherActionIgnored(anchor: Anchor, e: MotionEvent, width: int, height: int, sqrt: real -> real)
    requires width > 0 && height > 0 && e.action != ACTION_DOWN && e.action != ACTION_MOVE
    ensures React(anchor, Some(e), width, height, sqrt) == Reaction(true, [], anchor)
  {
  }

  /** The anchor changes only to the primary position of a press or of a
      two-pointer move. */
  lemma AnchorUpdates(anchor: Anchor, e: MotionEvent, width: int, height: int, sqrt: real -> real)
    requires width > 0 && height > 0
    ensures var r := React(anchor, Some(e), width, height, sqrt);
      var p := Anchor(NormalizeX(e.primary.x, width), NormalizeY(e.primary.y, height));
      if e.action == ACTION_DOWN || (e.action == ACTION_MOVE && e.PointerCount() == 2)
      then r.anchor == p else r.anchor == anchor
  {
  }

  /** The pinch decision, with distances from a real square root: zoom out
      exactly when the fingers moved apart, zoom in exactly when they moved
      together, each with a positive factor, never both, and neither when the
      distance is unchanged. */
  lemma PinchDecision(distanceNew: real, distanceOld: real)
    requires distanceNew >= 0.0 && distanceOld >= 0.0
    ensures var cs := PinchCommands(distanceNew, distanceOld);
      |cs| <= 1 &&
      (distanceOld < distanceNew <==> cs == [ZoomOut((distanceNew - distanceOld) * PINCH_GAIN)]) &&
      (distanceOld > distanceNew <==> cs == [ZoomIn((distanceOld - distanceNew) * PINCH_GAIN)]) &&
      (distanceOld == distanceNew <==> cs == []) &&
      (forall c :: c in cs ==> c.factor > 0.0)
  {
    var cs := PinchCommands(distanceNew, distanceOld);
    if distanceOld < distanceNew {
      assert cs == [ZoomOut((distanceNew - distanceOld) * PINCH_GAIN)];
    } else if distanceOld > distanceNew {
      assert cs == [ZoomIn((distanceOld - distanceNew) * PINCH_GAIN)];
    } else {
      assert cs == [];
    }
  }

  /** The pinch decision of a two-pointer move, in terms of the event: the
      primary pointer's new and anchored distances from the second pointer. */
  lemma TwoPointerMove(anchor: Anchor, e: MotionEvent, width: int, height: int, sqrt: real -> real)
    requires IsSqrt(sqrt)
    requires width > 0 && height > 0 && e.action == ACTION_MOVE && e.PointerCount() == 2
    ensures var r := React(anchor, Some(e), width, height, sqrt);
      var nx := NormalizeX(e.primary.x, width);
      var ny := NormalizeY(e.primary.y, height);
      var sx := NormalizeX(e.others[0].x, width);
      var sy := NormalizeY(e.others[0].y, height);
      r.handled && r.anchor == Anchor(nx, ny) &&
      r.commands == [TouchDrag(nx, ny)] +
        PinchCommands(Distance(sqrt, nx, ny, sx, sy), Distance(sqrt, anchor.x, anchor.y, sx, sy)) &&
      Distance(sqrt, nx, ny, sx, sy) >= 0.0 && Distance(sqrt, anchor.x, anchor.y, sx, sy) >= 0.0
  {
    var nx := NormalizeX(e.primary.x, width);
    var ny := NormalizeY(e.primary.y, height);
    var sx := NormalizeX(e.others[0].x, width);
    var sy := NormalizeY(e.others[0].y, height);
    DistanceNonNegative(sqrt, nx, ny, sx, sy);
    DistanceNonNegative(sqrt, anchor.x, anchor.y, sx, sy);
  }

  /** The pinch decision of a two-pointer move, in terms of the event: zoom
      out exactly when the primary pointer is now farther from the second one
      than the anchor was, zoom in exactly when it is nearer. */
  lemma TwoPointerZoom(anchor: Anchor, e: MotionEvent, width: int, height: int, sqrt: real -> real)
    requires IsSqrt(sqrt)
    requires width > 0 && height > 0 && e.action == ACTION_MOVE && e.PointerCount() == 2
    ensures var r := React(anchor, Some(e), width, height, sqrt);
      var nx := NormalizeX(e.primary.x, width);
      var ny := NormalizeY(e.primary.y, height);
      var sx := NormalizeX(e.others[0].x, width);
      var sy := NormalizeY(e.others[0].y, height);
      var distanceNew := Distance(sqrt, nx, ny, sx, sy);
      var distanceOld := Distance(sqrt, anchor.x, anchor.y, sx, sy);
      |r.commands| <= 2 &&
      (distanceOld < distanceNew <==> ZoomOut((distanceNew - distanceOld) * PINCH_GAIN) in r.commands) &&
      (distanceOld > distanceNew <==> ZoomIn((distanceOld - distanceNew) * PINCH_GAIN) in r.commands) &&
      (distanceOld == distanceNew <==> |r.commands| == 1)
  {
    var nx := NormalizeX(e.primary.x, width);
    var ny := NormalizeY(e.primary.y, height);
    var sx := NormalizeX(e.others[0].x, width);
    var sy := NormalizeY(e.others[0].y, height);
    var distanceNew := Distance(sqrt, nx, ny, sx, sy);
    var distanceOld := Distance(sqrt, anchor.x, anchor.y, sx, sy);
    TwoPointerMove(anchor, e, width, height, sqrt);
    PinchDecision(distanceNew, distanceOld);
  }

  /** The listener of the activity, with its anchor fields dstX and dstY. */
  class TouchListener {
    var dstX: real
    var dstY: real

    ghost function AnchorState(): Anchor
      reads this
    {
      Anchor(dstX, dstY)
    }

    constructor ()
      ensures AnchorState() == INITIAL_ANCHOR
    {
      dstX := 1.0;
      dstY := 1.0;
    }

    /** onTouch: returns whether the event was handled and the commands queued
        for the renderer, in order. */
    method OnTouch(event: Option<MotionEvent>, width: int, height: int, sqrt: real -> real)
      returns (handled: bool, commands: seq<Command>)
      requires event.Some? ==> width > 0 && height > 0
      modifies this
      ensures Reaction(handled, commands, AnchorState()) == React(old(AnchorState()), event, width, height, sqrt)
    {
      commands := [];
      if event.Some? {
        var e := event.value;
        var normalizedX := (e.primary.x / width as real) * 2.0 - 1.0;
        var normalizedY := -((e.primary.y / height as real) * 2.0 - 1.0);
        assert normalizedX == NormalizeX(e.primary.x, width) && normalizedY == NormalizeY(e.primary.y, height);

        if e.action == ACTION_DOWN {
          commands := commands + [TouchPress(normalizedX, normalizedY)];

          dstX := normalizedX;
          dstY := normalizedY;

        } else if e.action == ACTION_MOVE {
          commands := commands + [TouchDrag(normalizedX, normalizedY)];

          if e.PointerCount() == 2 {
            var secondFingerX := (e.others[0].x / width as real) * 2.0 - 1.0;
            var secondFingerY := -((e.others[0].y / height as real) * 2.0 - 1.0);
            assert secondFingerX == NormalizeX(e.others[0].x, width) && secondFingerY == NormalizeY(e.others[0].y, height);
            var distanceNew := Distance(sqrt, normalizedX, normalizedY, secondFingerX, secondFingerY);
            var distanceOld := Distance(sqrt, dstX, dstY, secondFingerX, secondFingerY);

            if Orientation.Abs(distanceOld) < Orientation.Abs(distanceNew) {
              var zoomFactor := (distanceNew - distanceOld) * PINCH_GAIN;
              commands := commands + [ZoomOut(zoomFactor)];
            }

            if Orientation.Abs(distanceOld) > Orientation.Abs(distanceNew) {
              var zoomFactor := (distanceOld - distanceNew) * PINCH_GAIN;
              commands := commands + [ZoomIn(zoomFactor)];
            }
            dstX := normalizedX;
            dstY := normalizedY;
          }
        }
        handled := true;

      } else {
        handled := false;
      }
    }
  }
}
