/**
 * The elevator (vertical lift): conversions between motor rotations and
 * inches of travel, the clamped height request, the bottom-of-travel test
 * and the commands that drive the leader motor.
 *
 * The motor is a sink: every control request written to it is appended to
 * `issued`. Sensed position and velocity are fields the motor (the
 * environment) updates; the core only reads them.
 */
module Elevator {
  import opened Reals

  /** Full travel of the mechanism in motor rotations. */
  const MaxHeightAngle: real := 5.0
  /** Full travel of the carriage in inches. */
  const MaxHeightLinear: real := 53.6
  /** Half-width, in inches, of the band around zero height that counts as the bottom. */
  const BottomTolerance: real := 1.0

  /** A control request written to the leader motor. */
  datatype ControlRequest =
    | MotionMagicVoltage(position: real)  // profiled move to a position, in rotations
    | VoltageOut(volts: real)             // open-loop voltage

  /** The fixed height commands offered to the operator. */
  datatype Preset = L1 | L2 | L3 | L4 | PickUp

  /** Motor rotations to inches. Exactly the travel range maps onto the travel range. */
  function ToHeight(angle: real): (h: real)
    ensures (0.0 <= angle <= MaxHeightAngle) <==> (0.0 <= h <= MaxHeightLinear)
    ensures h < 0.0 <==> angle < 0.0
    ensures h == 0.0 <==> angle == 0.0
  {
    angle / MaxHeightAngle * MaxHeightLinear
  }

  /** Inches to motor rotations. Exactly the travel range maps onto the travel range. */
  function FromHeight(height: real): (a: real)
    ensures (0.0 <= height <= MaxHeightLinear) <==> (0.0 <= a <= MaxHeightAngle)
    ensures a > MaxHeightAngle <==> height > MaxHeightLinear
    ensures a < 0.0 <==> height < 0.0
  {
    height / MaxHeightLinear * MaxHeightAngle
  }

  lemma FromHeightToHeight(angle: real)
    ensures FromHeight(ToHeight(angle)) == angle
  {
  }

  lemma ToHeightFromHeight(height: real)
    ensures ToHeight(FromHeight(height)) == height
  {
  }

  /** Both conversions preserve order, so clamping commutes with converting. */
  lemma ConversionsMonotone(x: real, y: real)
    requires x <= y
    ensures ToHeight(x) <= ToHeight(y)
    ensures FromHeight(x) <= FromHeight(y)
  {
  }

  /**
   * The motor position `setHeight` commands for a requested height: the
   * height clamped into the travel, in rotations.
   */
  function ClampedTarget(height: real): (t: real)
    ensures 0.0 <= t <= MaxHeightAngle
    ensures 0.0 <= height <= MaxHeightLinear ==> t == FromHeight(height)
    ensures height > MaxHeightLinear ==> t == MaxHeightAngle
    ensures height < 0.0 ==> t == 0.0
  {
    FromHeight(Max(0.0, Min(height, MaxHeightLinear)))
  }

  /** A request over the top clamps to full travel, a negative one to zero. */
  lemma ClampExamples()
    ensures ClampedTarget(60.0) == MaxHeightAngle
    ensures ClampedTarget(-5.0) == 0.0
    ensures ClampedTarget(0.0) == 0.0
  {
  }

  /** Height in inches of each preset command. */
  function PresetHeight(p: Preset): (h: real)
    ensures 0.0 < h < MaxHeightLinear
  {
    match p
    case L1 => 10.0
    case L2 => 20.0
    case L3 => 30.0
    case L4 => 40.0
    case PickUp => 15.0
  }

  /** No preset is ever clamped: its target is its own height converted. */
  lemma PresetsWithinTravel(p: Preset)
    ensures ClampedTarget(PresetHeight(p)) == FromHeight(PresetHeight(p))
    ensures 0.0 < ClampedTarget(PresetHeight(p)) < MaxHeightAngle
  {
  }

  /** Linear speed for a motor speed, in inches per second. */
  function VelocityFromRotations(rotationsPerSecond: real): (v: real)
    ensures v == ToHeight(rotationsPerSecond)
  {
    var inchesPerRotation := MaxHeightLinear / MaxHeightAngle;
    rotationsPerSecond * inchesPerRotation
  }

  /** True when a height in inches is within the bottom tolerance of zero. */
  predicate NearBottom(height: real)
  {
    Abs(height) <= BottomTolerance
  }

  /** The request the default command issues each tick. */
  function DefaultRequest(disableMotionMagic: bool, position: real, climbing: bool): (r: ControlRequest)
    ensures r == VoltageOut(0.0) || r == MotionMagicVoltage(0.0)
    ensures r.MotionMagicVoltage? <==>
      !disableMotionMagic && !climbing && Abs(position) > BottomTolerance * MaxHeightAngle / MaxHeightLinear
  {
    if NearBottom(ToHeight(position)) || climbing then VoltageOut(0.0)
    else if disableMotionMagic then VoltageOut(0.0)
    else MotionMagicVoltage(ClampedTarget(0.0))
  }

  class ElevatorSubsystem {
    /** When set, `SetHeight` cuts power instead of requesting a profiled move. */
    const disableMotionMagic: bool
    /** Sensed leader position, rotations (zeroed at construction). */
    var position: real
    /** Sensed leader velocity, rotations per second. */
    var velocity: real
    /** Set and cleared by climb sequencing outside this core; only read here. */
    var climbing: bool
    /** Every request written to the leader motor, oldest first. */
    var issued: seq<ControlRequest>

    constructor (disableMotionMagic: bool)
      ensures this.disableMotionMagic == disableMotionMagic
      ensures position == 0.0 && !climbing && issued == []
      ensures IsAtBottomOfTravel()
    {
      this.disableMotionMagic := disableMotionMagic;
      position := 0.0;
      climbing := false;
      issued := [];
    }

    /** getHeight: the carriage height, which converts back to the sensed position. */
    function Height(): (h: real)
      reads this`position
      ensures FromHeight(h) == position
    {
      ToHeight(position)
    }

    /** getVelocity, in inches per second. */
    function Velocity(): (v: real)
      reads this`velocity
      ensures v == ToHeight(velocity)
    {
      VelocityFromRotations(velocity)
    }

    /** isAtBottomOfTravel, stated on the sensed position in rotations. */
    function IsAtBottomOfTravel(): (b: bool)
      reads this`position
      ensures b <==> Abs(position) <= BottomTolerance * MaxHeightAngle / MaxHeightLinear
    {
      NearBottom(Height())
    }

    method SetVoltageOutToZero()
      modifies this`issued
      ensures issued == old(issued) + [VoltageOut(0.0)]
    {
      issued := issued + [VoltageOut(0.0)];
    }

    /** setHeight: convert, clamp from above, clamp from below, then request. */
    method SetHeight(height: real)
      modifies this`issued
      ensures issued == old(issued) +
        [if disableMotionMagic then VoltageOut(0.0) else MotionMagicVoltage(ClampedTarget(height))]
    {
      var targetPosition := FromHeight(height);
      if targetPosition > MaxHeightAngle {
        targetPosition := MaxHeightAngle;
      }
      if targetPosition < 0.0 {
        targetPosition := 0.0;
      }
      if !disableMotionMagic {
        issued := issued + [MotionMagicVoltage(targetPosition)];
      } else {
        SetVoltageOutToZero();
      }
    }

    /** One tick of raiseToHeight. */
    method RaiseToHeightExecute(height: real)
      modifies this`issued
      ensures issued == old(issued) +
        [if disableMotionMagic then VoltageOut(0.0) else MotionMagicVoltage(ClampedTarget(height))]
    {
      SetHeight(height);
    }

    /** End action of raiseToHeight (and of every preset). */
    method RaiseToHeightEnd()
      modifies this`issued
      ensures issued == old(issued) + [VoltageOut(0.0)]
    {
      SetVoltageOutToZero();
    }

    /** One tick of a preset command: never clamped. */
    method PresetExecute(p: Preset)
      modifies this`issued
      ensures issued == old(issued) +
        [if disableMotionMagic then VoltageOut(0.0) else MotionMagicVoltage(FromHeight(PresetHeight(p)))]
    {
      PresetsWithinTravel(p);
      RaiseToHeightExecute(PresetHeight(p));
    }

    /** One tick of cutPower. */
    method CutPowerExecute()
      modifies this`issued
      ensures issued == old(issued) + [VoltageOut(0.0)]
    {
      SetVoltageOutToZero();
    }

    /** One tick of the default command powerDownwardsToZero. */
    method PowerDownwardsToZeroExecute()
      modifies this`issued
      ensures issued == old(issued) + [DefaultRequest(disableMotionMagic, position, climbing)]
    {
      if IsAtBottomOfTravel() || climbing {
        SetVoltageOutToZero();
      } else {
        SetHeight(0.0);
      }
    }

    /** End action of powerDownwardsToZero. */
    method PowerDownwardsToZeroEnd()
      modifies this`issued
      ensures issued == old(issued) + [VoltageOut(0.0)]
    {
      SetVoltageOutToZero();
    }
  }
}
