/**
 * The Drive command: each stick axis goes through a dead band and a signed
 * square, and the three shaped axes become a field-centric request to the
 * swerve drive, unless the sticks are at rest, when the drive is told to
 * idle.
 *
 * The swerve drive is a sink: every request written to it is appended to
 * `issued`. The stick axes are the arguments of `Execute`.
 */
module DriveCommand {
  import opened Reals

  /** Per-axis dead band. */
  const DeadbandWidth: real := 0.2
  /** Below this sum of squared axes the sticks count as at rest. */
  const IdleThreshold: real := 0.05
  /** Largest shaped magnitude a stick in [-1, 1] can produce: (1 - 0.2)^2. */
  const FullDeflectionOutput: real := 0.64

  /** A request written to the swerve drive. */
  datatype SwerveRequest =
    | Idle
    | FieldCentric(velocityX: real, velocityY: real, rotationalRate: real)

  /** deadband: zero inside the band, otherwise the excess over the band, with the input's sign. */
  function Deadband(x: real): (r: real)
    ensures Abs(r) == Max(Abs(x) - DeadbandWidth, 0.0)
    ensures Abs(r) <= Abs(x)
    ensures r == 0.0 <==> Abs(x) <= DeadbandWidth
    ensures r > 0.0 <==> x > DeadbandWidth
    ensures r < 0.0 <==> x < -DeadbandWidth
  {
    if Abs(x) < DeadbandWidth then 0.0 else (Abs(x) - DeadbandWidth) * Signum(x)
  }

  /** sigSqr: the square of x with the sign of x. */
  function SigSqr(x: real): (r: real)
    ensures r == x * Abs(x)
    ensures r == 0.0 <==> x == 0.0
    ensures r > 0.0 <==> x > 0.0
  {
    x * x * Signum(x)
  }

  /** 0 <= a <= b implies a * a <= b * b. */
  lemma SquareMonotone(a: real, b: real)
    requires 0.0 <= a <= b
    ensures a * a <= b * b
  {
    assert a * a <= a * b;
    assert a * b <= b * b;
  }

  /** A signed square is bounded by the square of a bound on its input. */
  lemma SigSqrBound(x: real, bound: real)
    requires bound >= 0.0
    ensures Abs(x) <= bound ==> Abs(SigSqr(x)) <= bound * bound
  {
    if Abs(x) <= bound {
      SquareMonotone(Abs(x), bound);
    }
  }

  /** shapeInput: the dead-banded input, signed-squared, capped at 1 from above only. */
  function ShapeInput(x: real): (r: real)
    ensures r <= 1.0
    ensures r == 0.0 <==> Abs(x) <= DeadbandWidth
    ensures r > 0.0 <==> x > DeadbandWidth
    ensures r < 0.0 <==> x < -DeadbandWidth
    ensures -1.0 <= x <= 1.0 ==> Abs(r) <= FullDeflectionOutput
  {
    var d := Deadband(x);
    SigSqrBound(d, 1.0 - DeadbandWidth);
    Min(SigSqr(d), 1.0)
  }

  lemma DeadbandOdd(x: real)
    ensures Deadband(-x) == -Deadband(x)
  {
  }

  lemma SigSqrOdd(x: real)
    ensures SigSqr(-x) == -SigSqr(x)
  {
  }

  /** Odd for every input whose signed square stays below the cap. */
  lemma ShapeInputOdd(x: real)
    requires Abs(x) <= 1.2
    ensures ShapeInput(-x) == -ShapeInput(x)
  {
    DeadbandOdd(x);
    SigSqrOdd(Deadband(x));
    SquareMonotone(Abs(Deadband(x)), 1.0);
  }

  lemma DeadbandMonotone(x: real, y: real)
    requires x <= y
    ensures Deadband(x) <= Deadband(y)
  {
  }

  lemma SigSqrMonotone(x: real, y: real)
    requires x <= y
    ensures SigSqr(x) <= SigSqr(y)
  {
    if 0.0 <= x {
      SquareMonotone(x, y);
    } else if y <= 0.0 {
      SquareMonotone(-y, -x);
    }
  }

  /** A stick pushed further never yields a smaller output. */
  lemma ShapeInputMonotone(x: real, y: real)
    requires x <= y
    ensures ShapeInput(x) <= ShapeInput(y)
  {
    DeadbandMonotone(x, y);
    SigSqrMonotone(Deadband(x), Deadband(y));
  }

  /** At full deflection the output is 0.64, not 1: the cap never bites inside [-1, 1]. */
  lemma ShapeInputAtFullDeflection()
    ensures ShapeInput(1.0) == FullDeflectionOutput
    ensures ShapeInput(-1.0) == -FullDeflectionOutput
  {
  }

  /** Nothing caps the output from below. */
  lemma ShapeInputNotClampedBelow()
    ensures ShapeInput(-2.0) == -3.24
    ensures ShapeInput(2.0) == 1.0
  {
  }

  /**
   * One component of the field-centric request: the negated axis, shaped and
   * scaled by its top value. Pushing a stick forward (negative) drives forward.
   */
  function Component(axis: real, top: real): (v: real)
    requires top > 0.0
    ensures v <= top
    ensures -1.0 <= axis <= 1.0 ==> Abs(v) <= FullDeflectionOutput * top
    ensures v > 0.0 <==> axis < -DeadbandWidth
    ensures v < 0.0 <==> axis > DeadbandWidth
  {
    var s := ShapeInput(-axis);
    ScaleBound(s, FullDeflectionOutput, top);
    ScaleBound(-s, FullDeflectionOutput, top);
    s * top
  }

  /** The request one tick of the command issues for the three stick axes. */
  function DriveRequest(leftY: real, leftX: real, rightX: real, maxSpeed: real, maxAngularRate: real)
    : (r: SwerveRequest)
    requires maxSpeed > 0.0 && maxAngularRate > 0.0
    ensures r.Idle? <==> leftY * leftY + leftX * leftX + rightX * rightX < IdleThreshold
    ensures r.FieldCentric? ==> r.velocityX <= maxSpeed && r.velocityY <= maxSpeed && r.rotationalRate <= maxAngularRate
    ensures r.FieldCentric? && -1.0 <= leftY <= 1.0 ==> Abs(r.velocityX) <= FullDeflectionOutput * maxSpeed
    ensures r.FieldCentric? && -1.0 <= leftX <= 1.0 ==> Abs(r.velocityY) <= FullDeflectionOutput * maxSpeed
    ensures r.FieldCentric? && -1.0 <= rightX <= 1.0 ==> Abs(r.rotationalRate) <= FullDeflectionOutput * maxAngularRate
    ensures r.FieldCentric? ==> (r.velocityX > 0.0 <==> leftY < -DeadbandWidth)
    ensures r.FieldCentric? ==> (r.velocityX < 0.0 <==> leftY > DeadbandWidth)
    ensures r.FieldCentric? ==> (r.velocityY > 0.0 <==> leftX < -DeadbandWidth)
    ensures r.FieldCentric? ==> (r.velocityY < 0.0 <==> leftX > DeadbandWidth)
    ensures r.FieldCentric? ==> (r.rotationalRate > 0.0 <==> rightX < -DeadbandWidth)
    ensures r.FieldCentric? ==> (r.rotationalRate < 0.0 <==> rightX > DeadbandWidth)
  {
    if leftY * leftY + leftX * leftX + rightX * rightX < IdleThreshold then
      Idle
    else
      FieldCentric(Component(leftY, maxSpeed), Component(leftX, maxSpeed), Component(rightX, maxAngularRate))
  }

  /** Scaling by a positive factor keeps a bound and the order against 1. */
  lemma ScaleBound(s: real, bound: real, factor: real)
    requires factor > 0.0
    ensures Abs(s) <= bound ==> Abs(s * factor) <= bound * factor
    ensures s <= 1.0 ==> s * factor <= factor
    ensures s * factor > 0.0 <==> s > 0.0
  {
  }

  /** Sticks at rest, as in (0.02, 0.01, 0): the drive idles. */
  lemma RestingSticksIdle(maxSpeed: real, maxAngularRate: real)
    requires maxSpeed > 0.0 && maxAngularRate > 0.0
    ensures DriveRequest(0.02, 0.01, 0.0, maxSpeed, maxAngularRate) == Idle
  {
  }

  /**
   * Every axis inside its dead band yet past the idle gate: the drive gets a
   * field-centric request for no motion, not an idle request.
   */
  lemma DeadZoneButNotIdle(leftY: real, leftX: real, rightX: real, maxSpeed: real, maxAngularRate: real)
    requires maxSpeed > 0.0 && maxAngularRate > 0.0
    requires Abs(leftY) <= DeadbandWidth && Abs(leftX) <= DeadbandWidth && Abs(rightX) <= DeadbandWidth
    requires leftY * leftY + leftX * leftX + rightX * rightX >= IdleThreshold
    ensures DriveRequest(leftY, leftX, rightX, maxSpeed, maxAngularRate) == FieldCentric(0.0, 0.0, 0.0)
  {
    assert Abs(-leftY) <= DeadbandWidth && Abs(-leftX) <= DeadbandWidth && Abs(-rightX) <= DeadbandWidth;
  }

  /** 0.15 on every axis is such an input. */
  lemma DeadZoneButNotIdleExample(maxSpeed: real, maxAngularRate: real)
    requires maxSpeed > 0.0 && maxAngularRate > 0.0
    ensures DriveRequest(0.15, 0.15, 0.15, maxSpeed, maxAngularRate) == FieldCentric(0.0, 0.0, 0.0)
  {
    DeadZoneButNotIdle(0.15, 0.15, 0.15, maxSpeed, maxAngularRate);
  }

  class Drive {
    /** Top linear speed, metres per second. */
    const maxSpeed: real
    /** Top rotation rate, radians per second. */
    const maxAngularRate: real
    /** Fields of the shared field-centric request the command reuses every tick. */
    var velocityX: real
    var velocityY: real
    var rotationalRate: real
    /** Every request written to the swerve drive, oldest first. */
    var issued: seq<SwerveRequest>

    ghost predicate Valid()
    {
      maxSpeed > 0.0 && maxAngularRate > 0.0
    }

    constructor (maxSpeed: real, maxAngularRate: real)
      requires maxSpeed > 0.0 && maxAngularRate > 0.0
      ensures Valid() && this.maxSpeed == maxSpeed && this.maxAngularRate == maxAngularRate
      ensures velocityX == 0.0 && velocityY == 0.0 && rotationalRate == 0.0 && issued == []
    {
      this.maxSpeed := maxSpeed;
      this.maxAngularRate := maxAngularRate;
      velocityX, velocityY, rotationalRate := 0.0, 0.0, 0.0;
      issued := [];
    }

    /**
     * One tick: idle when the sticks are at rest (the shared request keeps
     * its old velocities), otherwise update the shared request and send it.
     */
    method Execute(leftY: real, leftX: real, rightX: real)
      requires Valid()
      modifies this
      ensures issued == old(issued) + [DriveRequest(leftY, leftX, rightX, maxSpeed, maxAngularRate)]
      ensures issued[|issued| - 1].Idle? ==>
        velocityX == old(velocityX) && velocityY == old(velocityY) && rotationalRate == old(rotationalRate)
      ensures issued[|issued| - 1].FieldCentric? ==>
        issued[|issued| - 1] == FieldCentric(velocityX, velocityY, rotationalRate)
    {
      if leftY * leftY + leftX * leftX + rightX * rightX < IdleThreshold {
        issued := issued + [Idle];
      } else {
        velocityX := Component(leftY, maxSpeed);
        velocityY := Component(leftX, maxSpeed);
        rotationalRate := Component(rightX, maxAngularRate);
        issued := issued + [FieldCentric(velocityX, velocityY, rotationalRate)];
      }
    }

    /** End action: always idle. */
    method End(interrupted: bool)
      modifies this`issued
      ensures issued == old(issued) + [Idle]
    {
      issued := issued + [Idle];
    }
  }
}
