/** Orientation state of one posable object (Model3D): a current rotation,
    a destination rotation it is damped towards, and a depth offset used as
    a zoom translation when the object is drawn. */
module Orientation {

  /** The five pose fields of a Model3D, as a value. */
  datatype Pose = Pose(
    rotationX: real,
    rotationY: real,
    rotationZ: real,
    destinationX: real,
    destinationY: real)

  /** The two rotation axes a pose is damped along. */
  datatype Axis = X | Y

  function Rotation(p: Pose, axis: Axis): real {
    match axis
    case X => p.rotationX
    case Y => p.rotationY
  }

  function Destination(p: Pose, axis: Axis): real {
    match axis
    case X => p.destinationX
    case Y => p.destinationY
  }

  /** Signed remaining distance from the rotation to the destination. */
  function Error(p: Pose, axis: Axis): real {
    Destination(p, axis) - Rotation(p, axis)
  }

  function Abs(x: real): (r: real)
    ensures r >= 0.0 && (r == x || r == -x)
  {
    if x < 0.0 then -x else x
  }

  /** x lies on the closed segment between a and b, in either order. */
  predicate Between(a: real, x: real, b: real) {
    (a <= x <= b) || (b <= x <= a)
  }

  /** The pose a freshly constructed object has: the given rotation and depth,
      and a destination of (0, 0), the default of fields that the constructor
      never assigns. */
  function Initial(ix: real, iy: real, iz: real): (p: Pose)
    ensures p.rotationX == ix && p.rotationY == iy && p.rotationZ == iz
    ensures p.destinationX == 0.0 && p.destinationY == 0.0
  {
    Pose(ix, iy, iz, 0.0, 0.0)
  }

  /** setDestination: the destination is replaced, the rotation and the depth are kept. */
  function Retargeted(p: Pose, x: real, y: real): (q: Pose)
    ensures q.destinationX == x && q.destinationY == y
    ensures q.rotationX == p.rotationX && q.rotationY == p.rotationY && q.rotationZ == p.rotationZ
  {
    p.(destinationX := x, destinationY := y)
  }

  /** rotateY: a retarget by a relative nudge of the Y destination only. */
  function NudgedY(p: Pose, delta: real): (q: Pose)
    ensures q == Retargeted(p, p.destinationX, p.destinationY + delta)
  {
    p.(destinationY := p.destinationY + delta)
  }

  /** zoom: the depth offset moves at once by delta; nothing else moves. */
  function Zoomed(p: Pose, delta: real): (q: Pose)
    ensures q.rotationZ - p.rotationZ == delta
    ensures q.(rotationZ := p.rotationZ) == p
  {
    p.(rotationZ := p.rotationZ + delta)
  }

  /** One damped step of a single coordinate: move a fraction s of the way
      from r to d. */
  function Step(r: real, d: real, s: real): real {
    r + (d - r) * s
  }

  /** updatePosition(speed): one damped step on each axis. The destination
      and the depth are untouched. */
  function Damped(p: Pose, speed: real): (q: Pose)
    ensures q.rotationZ == p.rotationZ
    ensures q.destinationX == p.destinationX && q.destinationY == p.destinationY
  {
    p.(rotationX := Step(p.rotationX, p.destinationX, speed),
       rotationY := Step(p.rotationY, p.destinationY, speed))
  }

  /** Each axis of a damped pose takes one Step towards its destination. */
  lemma DampedAxis(p: Pose, speed: real, axis: Axis)
    ensures Rotation(Damped(p, speed), axis) == Step(Rotation(p, axis), Destination(p, axis), speed)
    ensures Destination(Damped(p, speed), axis) == Destination(p, axis)
  {
  }

  /** The remaining error of a step is 1 - s times the old error. */
  lemma StepError(r: real, d: real, s: real)
    ensures d - Step(r, d, s) == (1.0 - s) * (d - r)
  {
  }

  /** After one damped step the error on each axis is 1 - speed times the old one. */
  lemma DampedError(p: Pose, speed: real, axis: Axis)
    ensures Error(Damped(p, speed), axis) == (1.0 - speed) * Error(p, axis)
  {
    DampedAxis(p, speed, axis);
    StepError(Rotation(p, axis), Destination(p, axis), speed);
  }

  /** For s in (0, 1] a step never overshoots: the new value lies between
      the old value and the target, and is no farther from the target. */
  lemma StepNoOvershoot(r: real, d: real, s: real)
    requires 0.0 < s <= 1.0
    ensures Between(r, Step(r, d, s), d)
    ensures Abs(d - Step(r, d, s)) <= Abs(d - r)
  {
    ProductBounds(s, d - r);
    ProductBounds(1.0 - s, d - r);
    StepError(r, d, s);
    AbsBetween((1.0 - s) * (d - r), d - r);
  }

  /** For a speed in (0, 1] one damped step never overshoots on either axis. */
  lemma DampedNoOvershoot(p: Pose, speed: real, axis: Axis)
    requires 0.0 < speed <= 1.0
    ensures Between(Rotation(p, axis), Rotation(Damped(p, speed), axis), Destination(p, axis))
    ensures Abs(Error(Damped(p, speed), axis)) <= Abs(Error(p, axis))
  {
    DampedAxis(p, speed, axis);
    StepNoOvershoot(Rotation(p, axis), Destination(p, axis), speed);
  }

  /** c * e lies between 0 and e when c is in [0, 1]. */
  lemma ProductBounds(c: real, e: real)
    requires 0.0 <= c <= 1.0
    ensures e >= 0.0 ==> 0.0 <= c * e <= e
    ensures e < 0.0 ==> e <= c * e <= 0.0
  {
    if e >= 0.0 {
      MulNonNegative(c, e);
      MulNonNegative(1.0 - c, e);
      assert (1.0 - c) * e == e - c * e;
    } else {
      MulNonNegative(c, -e);
      MulNonNegative(1.0 - c, -e);
      assert (1.0 - c) * (-e) == c * e - e;
      assert c * (-e) == -(c * e);
    }
  }

  lemma AbsBetween(m: real, e: real)
    requires Between(0.0, m, e)
    ensures Abs(m) <= Abs(e)
  {
  }

  lemma MulNonNegative(a: real, b: real)
    requires a >= 0.0 && b >= 0.0
    ensures a * b >= 0.0
  {
  }

  /** At full speed a single step lands exactly on the destination. */
  lemma DampedFullSpeedArrives(p: Pose)
    ensures Damped(p, 1.0).rotationX == p.destinationX
    ensures Damped(p, 1.0).rotationY == p.destinationY
  {
  }

  /** A step leaves the pose unchanged exactly when the speed is zero or the
      rotation already equals the destination. */
  lemma DampedFixedPoint(p: Pose, speed: real)
    ensures Damped(p, speed) == p <==>
            speed == 0.0 || (p.rotationX == p.destinationX && p.rotationY == p.destinationY)
  {
    if Damped(p, speed) == p && speed != 0.0 {
      ZeroProduct(Error(p, X), speed);
      ZeroProduct(Error(p, Y), speed);
    }
  }

  lemma ZeroProduct(a: real, b: real)
    requires a * b == 0.0 && b != 0.0
    ensures a == 0.0
  {
  }

  function DampedN(p: Pose, speed: real, k: nat): Pose
    decreases k
  {
    if k == 0 then p else DampedN(Damped(p, speed), speed, k - 1)
  }

  function Decay(e: real, x: real, k: nat): real
    decreases k
  {
    if k == 0 then e else Decay(x * e, x, k - 1)
  }

  lemma {:induction false} DampedNError(p: Pose, speed: real, k: nat, axis: Axis)
    decreases k
    ensures Error(DampedN(p, speed, k), axis) == Decay(Error(p, axis), 1.0 - speed, k)
    ensures Destination(DampedN(p, speed, k), axis) == Destination(p, axis)
    ensures DampedN(p, speed, k).rotationZ == p.rotationZ
  {
    if k > 0 {
      DampedNError(Damped(p, speed), speed, k - 1, axis);
      DampedError(p, speed, axis);
      DampedAxis(p, speed, axis);
    }
  }

  /** For a speed in (0, 1], any number of steps keeps the rotation between
      its start and the destination, and each further step brings it no
      farther from the destination (a monotone approach, never an overshoot). */
  lemma DampedNMonotone(p: Pose, speed: real, k: nat, axis: Axis)
    requires 0.0 < speed <= 1.0
    ensures Between(Rotation(p, axis), Rotation(DampedN(p, speed, k), axis), Destination(p, axis))
    ensures Abs(Error(DampedN(p, speed, k + 1), axis)) <= Abs(Error(DampedN(p, speed, k), axis))
  {
    DampedNError(p, speed, k, axis);
    DampedNError(p, speed, k + 1, axis);
    DecayBetween(Error(p, axis), 1.0 - speed, k);
    DecayShrinks(Error(p, axis), 1.0 - speed, k);
  }

  /** Below full speed the destination is never reached exactly: a non-zero
      error stays non-zero after any number of steps. */
  lemma DampedNNeverArrives(p: Pose, speed: real, k: nat, axis: Axis)
    requires 0.0 <= speed < 1.0
    requires Error(p, axis) != 0.0
    ensures Error(DampedN(p, speed, k), axis) != 0.0
  {
    DampedNError(p, speed, k, axis);
    DecayNonZero(Error(p, axis), 1.0 - speed, k);
  }

  /** Convergence: for a speed in (0, 1] and every tolerance eps > 0 there is
      a number of frame ticks after which both errors stay below eps. */
  lemma DampedConverges(p: Pose, speed: real, eps: real) returns (n: nat)
    requires 0.0 < speed <= 1.0 && eps > 0.0
    ensures forall k: nat :: n <= k ==>
      Abs(Error(DampedN(p, speed, k), X)) < eps && Abs(Error(DampedN(p, speed, k), Y)) < eps
  {
    var nx := DecayConverges(Error(p, X), 1.0 - speed, eps);
    var ny := DecayConverges(Error(p, Y), 1.0 - speed, eps);
    n := if nx < ny then ny else nx;
    forall k: nat | n <= k
      ensures Abs(Error(DampedN(p, speed, k), X)) < eps && Abs(Error(DampedN(p, speed, k), Y)) < eps
    {
      DampedNError(p, speed, k, X);
      DampedNError(p, speed, k, Y);
    }
  }

  /** For x in [0, 1] the decayed value stays between 0 and its start. */
  lemma {:induction false} DecayBetween(e: real, x: real, k: nat)
    requires 0.0 <= x <= 1.0
    ensures Between(0.0, Decay(e, x, k), e)
    decreases k
  {
    if k > 0 {
      var m := x * e;
      Shrink(x, e, e);
      DecayBetween(m, x, k - 1);
      BetweenZeroTrans(Decay(m, x, k - 1), m, e);
    }
  }

  /** For x in [0, 1] each further step does not grow the decayed value. */
  lemma {:induction false} DecayShrinks(e: real, x: real, k: nat)
    requires 0.0 <= x <= 1.0
    ensures Abs(Decay(e, x, k + 1)) <= Abs(Decay(e, x, k))
    decreases k
  {
    var m := x * e;
    if k == 0 {
      Shrink(x, e, e);
    } else {
      DecayShrinks(m, x, k - 1);
    }
  }

  lemma BetweenZeroTrans(d: real, m: real, e: real)
    requires Between(0.0, d, m) && Between(0.0, m, e)
    ensures Between(0.0, d, e)
  {
  }

  /** Scaling a value between 0 and e by x in [0, 1] keeps it there and does
      not grow its magnitude. */
  lemma Shrink(x: real, d: real, e: real)
    requires 0.0 <= x <= 1.0 && Between(0.0, d, e)
    ensures Between(0.0, x * d, e) && Abs(x * d) <= Abs(d)
  {
    ProductBounds(x, d);
    AbsBetween(x * d, d);
  }

  /** A non-zero value decayed by a non-zero factor stays non-zero. */
  lemma {:induction false} DecayNonZero(e: real, x: real, k: nat)
    requires e != 0.0 && x != 0.0
    ensures Decay(e, x, k) != 0.0
    decreases k
  {
    if k > 0 {
      NonZeroProduct(x, e);
      DecayNonZero(x * e, x, k - 1);
    }
  }

  /** 1 + k * s, built up one step at a time. */
  function Gain(s: real, k: nat): real
  {
    if k == 0 then 1.0 else Gain(s, k - 1) + s
  }

  lemma {:induction false} GainLinear(s: real, k: nat)
    ensures Gain(s, k) == 1.0 + (k as real) * s
  {
    if k > 0 {
      GainLinear(s, k - 1);
      assert (k as real) == ((k - 1) as real) + 1.0;
      assert (k as real) * s == ((k - 1) as real) * s + s;
    }
  }

  lemma {:induction false} GainAtLeastOne(s: real, k: nat)
    requires s > 0.0
    ensures Gain(s, k) >= 1.0
  {
    if k > 0 {
      GainAtLeastOne(s, k - 1);
    }
  }

  /** Bernoulli-style bound: the error after k steps at speed s, times
      1 + k * s, is at most the initial error. */
  lemma {:induction false} DecayBound(e: real, x: real, s: real, k: nat)
    requires x == 1.0 - s && 0.0 < s <= 1.0
    ensures Abs(Decay(e, x, k)) * Gain(s, k) <= Abs(e)
    decreases k
  {
    if k > 0 {
      var m := x * e;
      var d := Decay(m, x, k - 1);
      DecayBound(m, x, s, k - 1);
      DecayBetween(m, x, k - 1);
      BernoulliStep(x, s, e, m, d, Gain(s, k - 1));
    }
  }

  /** The induction step of DecayBound, on plain reals: g stands for 1 + j * s
      and d for the error after j steps taken from m = x * e. */
  lemma BernoulliStep(x: real, s: real, e: real, m: real, d: real, g: real)
    requires x == 1.0 - s && 0.0 < s <= 1.0 && m == x * e
    requires Between(0.0, d, m) && Abs(d) * g <= Abs(m)
    ensures Abs(d) * (g + s) <= Abs(e)
  {
    AbsBetween(d, m);
    AbsScale(x, e);
    BernoulliArith(Abs(d), g, s, Abs(e), Abs(m));
  }

  /** The arithmetic of BernoulliStep, with a = |d|, b = |e| and xb = |m|. */
  lemma BernoulliArith(a: real, g: real, s: real, b: real, xb: real)
    requires 0.0 < s <= 1.0 && b >= 0.0 && xb == (1.0 - s) * b
    requires 0.0 <= a <= xb && a * g <= xb
    ensures a * (g + s) <= b
  {
    MulMonotone(s, a, xb);
    assert a * (g + s) == a * g + s * a;
    assert s * xb == s * b - (s * s) * b;
    MulNonNegative(s * s, b);
  }

  /** Convergence of the decayed error: for every tolerance eps > 0 there is
      a number of steps after which it stays below eps. */
  lemma DecayConverges(e: real, x: real, eps: real) returns (n: nat)
    requires 0.0 <= x < 1.0 && eps > 0.0
    ensures forall k: nat :: n <= k ==> Abs(Decay(e, x, k)) < eps
  {
    var s := 1.0 - x;
    var q := Abs(e) / (s * eps);
    n := q.Floor as nat + 1;
    forall k: nat | n <= k
      ensures Abs(Decay(e, x, k)) < eps
    {
      GainLinear(s, k);
      EnoughSteps(Abs(e), s, eps, q, k as real, Gain(s, k));
      DecayBound(e, x, s, k);
      GainAtLeastOne(s, k);
      SmallError(Abs(Decay(e, x, k)), Gain(s, k), eps, Abs(e));
    }
  }

  lemma EnoughSteps(e0: real, s: real, eps: real, q: real, k: real, g: real)
    requires s > 0.0 && eps > 0.0 && q == e0 / (s * eps) && k > q && g == 1.0 + k * s
    ensures (g - 1.0) * eps >= e0
  {
    assert q * (s * eps) == e0;
    MulStrict(s * eps, q, k);
    MulAssoc(k, s, eps);
  }

  lemma SmallError(a: real, g: real, eps: real, b: real)
    requires a >= 0.0 && g >= 1.0 && eps > 0.0
    requires a * g <= b && (g - 1.0) * eps >= b
    ensures a < eps
  {
    if a >= eps {
      MulMonotone(g, eps, a);
    }
  }

  lemma AbsScale(c: real, e: real)
    requires c >= 0.0
    ensures Abs(c * e) == c * Abs(e)
  {
  }

  lemma MulAssoc(a: real, b: real, c: real)
    ensures a * (b * c) == (a * b) * c
  {
  }

  lemma MulMonotone(a: real, x: real, y: real)
    requires a >= 0.0 && x <= y
    ensures a * x <= a * y
  {
  }

  lemma MulStrict(a: real, x: real, y: real)
    requires a > 0.0 && x < y
    ensures a * x < a * y
  {
  }

  lemma NonZeroProduct(a: real, b: real)
    requires a != 0.0 && b != 0.0
    ensures a * b != 0.0
  {
  }

  /** Two nudges compose into one nudge by their sum. */
  lemma NudgedYAdditive(p: Pose, d1: real, d2: real)
    ensures NudgedY(NudgedY(p, d1), d2) == NudgedY(p, d1 + d2)
  {
  }

  /** Two zooms compose into one zoom by their sum. */
  lemma ZoomedAdditive(p: Pose, d1: real, d2: real)
    ensures Zoomed(Zoomed(p, d1), d2) == Zoomed(p, d1 + d2)
  {
  }

  /** A posable object whose pose fields are updated in place. */
  class Model3D {
    var rotationX: real
    var rotationY: real
    var rotationZ: real
    var destinationX: real
    var destinationY: real

    ghost function State(): Pose
      reads this
    {
      Pose(rotationX, rotationY, rotationZ, destinationX, destinationY)
    }

    constructor (initialRotationX: real, initialRotationY: real, initialRotationZ: real)
      ensures State() == Initial(initialRotationX, initialRotationY, initialRotationZ)
    {
      rotationX := initialRotationX;
      rotationY := initialRotationY;
      rotationZ := initialRotationZ;
      // the destination fields keep their default value
      destinationX := 0.0;
      destinationY := 0.0;
    }

    method SetDestination(x: real, y: real)
      modifies this
      ensures State() == Retargeted(old(State()), x, y)
    {
      destinationX := x;
      destinationY := y;
    }

    method UpdatePosition(speed: real)
      modifies this
      ensures State() == Damped(old(State()), speed)
    {
      var differenceX := destinationX - rotationX;
      var differenceY := destinationY - rotationY;
      rotationX := rotationX + differenceX * speed;
      rotationY := rotationY + differenceY * speed;
    }

    method RotateY(delta: real)
      modifies this
      ensures State() == NudgedY(old(State()), delta)
    {
      destinationY := destinationY + delta;
    }

    method Zoom(delta: real)
      modifies this
      ensures State() == Zoomed(old(State()), delta)
    {
      rotationZ := rotationZ + delta;
    }
  }
}
