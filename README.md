# Robot actuator controllers, modelled in Dafny

A model of three controllers of a competition robot. Each turns an unbounded input into a bounded request to an actuator:

- **Elevator** (`elevator.dfy`, module `Elevator`, from `ElevatorSubsystem`): motor rotations and inches of carriage travel are converted into each other over a fixed ratio of 53.6 in per 5 rotations. A height request is clamped into the travel. It becomes either a Motion Magic request at the clamped position or zero volts, depending on the mode switch `disableMotionMagic`. The default command cuts power at the bottom of travel or while climbing. Otherwise it drives the carriage to height 0.
- **Jaws** (`jaws.dfy`, module `Jaws`, from `JawsSubsystem`): one flag, `holdingBall`. The periodic check sets it when sensed power (stator current × output voltage) strictly exceeds 5 W. Only the end of a release clears it. The grab, release, default-hold and idle requests are the fixed voltages 7, −7, 3 and 0 V.
- **Drive** (`drive.dfy`, module `DriveCommand`, from the `Drive` command): each stick axis passes through `deadband` (0.2), then `sigSqr`, then `shapeInput`, which caps at 1 from above only. Each tick the command asks the swerve drive to idle when the sum of squared axes is below 0.05. Otherwise it sends a field-centric request scaled by the top speed and the top rotation rate.

`reals.dfy` (module `Reals`) holds `Abs`, `Signum` and `Min`, which stand in for `Math.abs`, `Math.signum` and `Math.min`, and `Max`, which the model uses for its own clamp and contracts.

Java doubles are modelled as `real`, and `Math.pow(x, 2)` as `x * x`. The motor controllers and the swerve drive are sinks: each class keeps `issued`, the sequence of every request written to its actuator, oldest first. Each command is a pair of methods on the owning class: `…Execute` is one scheduler tick and `…End` is the end action. Sensed values are supplied by the environment:

- elevator position and velocity: fields of `ElevatorSubsystem`;
- jaws stator current and output voltage: arguments of `Periodic`;
- stick axes: arguments of `Drive.Execute`.

The Jaws module also has a pure specification of the flag over a whole run. `NextHolding` and `Output` give the flag and the voltages after one event (a periodic check or a command step). `HoldingAfter` and `IssuedAfter` fold them over a sequence of events. `HoldingAfterCharacterised` proves, by induction, when the flag is set after any run. `JawsSubsystem` keeps the ghost sequence `events` of everything it has seen. Its invariant `Valid()` says that `holdingBall` and `issued` are exactly what those events determine from a clear flag. Every event method (`Periodic`, the `…Execute` and `…End` methods) keeps that invariant and states its effect through `NextHolding` and `Output`. The internal helpers `GrabbedBall`, `ReleasedBall`, `SetVoltageOut` and `Zero` state their effect directly.

Facts of the code that the model keeps:

- `shapeInput(1.0)` is (1 − 0.2)² = 0.64 (`ShapeInputAtFullDeflection`), so the cap at 1 in `shapeInput` never acts on inputs in [−1, 1].
- src/main/java/frc/robot/RobotContainer.java:73-74 calls `intake()` and `extake()`, which `JawsSubsystem` does not define; that branch is switched off there. The model uses the commands the subsystem does define, `grab` and `realese`.
- The travel constants (5 rotations, 53.6 in) are literals and are never checked; the model's constants are the same literals.

## Model

| member | source | states |
|---|---|---|
| `Elevator.ToHeight` | src/main/java/frc/robot/subsystems/ElevatorSubsystem.java:129-131 | a position lies in [0, 5] rotations iff its height lies in [0, 53.6] in; the height has the sign of the position and is zero only at zero |
| `Elevator.FromHeight` | src/main/java/frc/robot/subsystems/ElevatorSubsystem.java:133-135 | a height lies in the travel iff its position lies in [0, 5] rotations; the position exceeds 5 iff the height exceeds 53.6, and is negative iff the height is |
| `Elevator.FromHeightToHeight` | src/main/java/frc/robot/subsystems/ElevatorSubsystem.java:129-135 | converting a position to a height and back gives the same position |
| `Elevator.ToHeightFromHeight` | src/main/java/frc/robot/subsystems/ElevatorSubsystem.java:129-135 | converting a height to a position and back gives the same height |
| `Elevator.ConversionsMonotone` | src/main/java/frc/robot/subsystems/ElevatorSubsystem.java:129-135 | both conversions preserve order |
| `Elevator.ClampedTarget` | src/main/java/frc/robot/subsystems/ElevatorSubsystem.java:153-158 | the commanded position lies in [0, 5] rotations for every requested height; an in-travel height converts unchanged, one above the travel gives 5 and a negative one gives 0 |
| `Elevator.ClampExamples` | src/main/java/frc/robot/subsystems/ElevatorSubsystem.java:153-158 | a 60 in request targets exactly 5 rotations; −5 in and 0 in target 0 |
| `Elevator.PresetHeight` | src/main/java/frc/robot/subsystems/ElevatorSubsystem.java:105-123 | every preset height (10, 20, 30, 40, 15 in) lies strictly inside the travel |
| `Elevator.PresetsWithinTravel` | src/main/java/frc/robot/subsystems/ElevatorSubsystem.java:105-123 | no preset target is clamped: it is the preset height converted, strictly between 0 and 5 rotations |
| `Elevator.VelocityFromRotations` | src/main/java/frc/robot/subsystems/ElevatorSubsystem.java:141-147 | the linear velocity is the motor velocity converted by the same ratio as `toHeight` |
| `Elevator.DefaultRequest` | src/main/java/frc/robot/subsystems/ElevatorSubsystem.java:96-101 | the default tick issues zero volts or a Motion Magic request to position 0, nothing else; the latter exactly when Motion Magic is enabled, the elevator is not climbing and the position is more than 1 in (5/53.6 rotation) from zero |
| `Elevator.ElevatorSubsystem.constructor` | src/main/java/frc/robot/subsystems/ElevatorSubsystem.java:50-55 | position zeroed, not climbing, nothing issued, and the elevator is at the bottom of travel |
| `Elevator.ElevatorSubsystem.Height` | src/main/java/frc/robot/subsystems/ElevatorSubsystem.java:137-139 | the reported height converts back to the sensed position |
| `Elevator.ElevatorSubsystem.Velocity` | src/main/java/frc/robot/subsystems/ElevatorSubsystem.java:141-147 | the reported velocity is the sensed rotation rate converted like a position |
| `Elevator.ElevatorSubsystem.IsAtBottomOfTravel` | src/main/java/frc/robot/subsystems/ElevatorSubsystem.java:149-151 | true iff the sensed position is within 1 in of zero, stated in rotations (at most 5/53.6) |
| `Elevator.ElevatorSubsystem.SetVoltageOutToZero` | src/main/java/frc/robot/subsystems/ElevatorSubsystem.java:165-167 | appends exactly one zero-volt request |
| `Elevator.ElevatorSubsystem.SetHeight` | src/main/java/frc/robot/subsystems/ElevatorSubsystem.java:153-163 | clamping in rotations, as the code does, appends zero volts when Motion Magic is disabled, else a Motion Magic request at `ClampedTarget` of the height |
| `Elevator.ElevatorSubsystem.RaiseToHeightExecute` | src/main/java/frc/robot/subsystems/ElevatorSubsystem.java:88-90 | one tick of raiseToHeight issues the clamped request of `SetHeight` |
| `Elevator.ElevatorSubsystem.RaiseToHeightEnd` | src/main/java/frc/robot/subsystems/ElevatorSubsystem.java:88-90 | the end action issues zero volts |
| `Elevator.ElevatorSubsystem.PresetExecute` | src/main/java/frc/robot/subsystems/ElevatorSubsystem.java:105-123 | a preset tick issues zero volts or a Motion Magic request at the unclamped preset position |
| `Elevator.ElevatorSubsystem.CutPowerExecute` | src/main/java/frc/robot/subsystems/ElevatorSubsystem.java:92-94 | issues zero volts |
| `Elevator.ElevatorSubsystem.PowerDownwardsToZeroExecute` | src/main/java/frc/robot/subsystems/ElevatorSubsystem.java:96-101 | one default tick appends `DefaultRequest` of the mode, the sensed position and the climbing flag |
| `Elevator.ElevatorSubsystem.PowerDownwardsToZeroEnd` | src/main/java/frc/robot/subsystems/ElevatorSubsystem.java:102-102 | the default command's end action issues zero volts |
| `Jaws.MotorOutputPower` | src/main/java/frc/robot/subsystems/JawsSubsystem.java:67-69 | sensed power is positive iff current and voltage are both positive or both negative, and zero iff either is zero |
| `Jaws.NextHolding` | src/main/java/frc/robot/subsystems/JawsSubsystem.java:42-57 | the flag rises only on a periodic check above 5 W and always does then; it falls only at a release end and always does then |
| `Jaws.Output` | src/main/java/frc/robot/subsystems/JawsSubsystem.java:32-65 | the periodic check writes nothing; every command step writes one voltage from {7, −7, 3, 0}; 7 V exactly on a grab tick, −7 V exactly on a release tick, 3 V exactly on a default tick while holding |
| `Jaws.HoldingAfterCharacterised` | src/main/java/frc/robot/subsystems/JawsSubsystem.java:42-57 | after any run the flag is set iff some check above 5 W is not followed by a release end, or the flag was set at the start and no release ended |
| `Jaws.NeverRevertsWithoutRelease` | src/main/java/frc/robot/subsystems/JawsSubsystem.java:42-46 | once set, the flag stays set through any run without a release end |
| `Jaws.NeverSetWithoutSpike` | src/main/java/frc/robot/subsystems/JawsSubsystem.java:42-46 | a clear flag stays clear through any run with no check above 5 W |
| `Jaws.IssuedVoltagesBounded` | src/main/java/frc/robot/subsystems/JawsSubsystem.java:32-65 | over any run the motor gets at most one voltage per event, and only 7, −7, 3 or 0 V |
| `Jaws.JawsSubsystem.constructor` | src/main/java/frc/robot/subsystems/JawsSubsystem.java:24-39 | a new subsystem is not holding a ball, has issued nothing, has seen no event, and satisfies the invariant tying the flag and the voltages to the events |
| `Jaws.JawsSubsystem.IsHoldingBall` | src/main/java/frc/robot/subsystems/JawsSubsystem.java:74-76 | reports true exactly when some check above 5 W came after the last release end among the events seen (the run-level characterisation applied to the subsystem) |
| `Jaws.JawsSubsystem.GrabbedBall` | src/main/java/frc/robot/subsystems/JawsSubsystem.java:78-80 | sets the flag |
| `Jaws.JawsSubsystem.ReleasedBall` | src/main/java/frc/robot/subsystems/JawsSubsystem.java:82-84 | clears the flag |
| `Jaws.JawsSubsystem.SetVoltageOut` | src/main/java/frc/robot/subsystems/JawsSubsystem.java:59-61 | appends the requested voltage |
| `Jaws.JawsSubsystem.Zero` | src/main/java/frc/robot/subsystems/JawsSubsystem.java:63-65 | appends 0 V |
| `Jaws.JawsSubsystem.Periodic` | src/main/java/frc/robot/subsystems/JawsSubsystem.java:42-46 | the new flag is `NextHolding` of the old flag and the sensed power I·V; nothing is issued; records the event and keeps the invariant that the flag and the voltages are those the events determine |
| `Jaws.JawsSubsystem.GrabExecute` | src/main/java/frc/robot/subsystems/JawsSubsystem.java:48-50 | appends `Output` of a grab tick (7 V) and leaves the flag alone; records the event and keeps the invariant that the flag and the voltages are those the events determine |
| `Jaws.JawsSubsystem.GrabEnd` | src/main/java/frc/robot/subsystems/JawsSubsystem.java:48-50 | appends 0 V and leaves the flag alone; records the event and keeps the invariant that the flag and the voltages are those the events determine |
| `Jaws.JawsSubsystem.ReleaseExecute` | src/main/java/frc/robot/subsystems/JawsSubsystem.java:52-57 | appends −7 V and leaves the flag alone; records the event and keeps the invariant that the flag and the voltages are those the events determine |
| `Jaws.JawsSubsystem.ReleaseEnd` | src/main/java/frc/robot/subsystems/JawsSubsystem.java:52-57 | appends 0 V and clears the flag; records the event and keeps the invariant that the flag and the voltages are those the events determine |
| `Jaws.JawsSubsystem.DefaultExecute` | src/main/java/frc/robot/subsystems/JawsSubsystem.java:32-38 | appends 3 V while holding and 0 V otherwise; the flag is unchanged; records the event and keeps the invariant that the flag and the voltages are those the events determine |
| `Jaws.JawsSubsystem.DefaultEnd` | src/main/java/frc/robot/subsystems/JawsSubsystem.java:32-38 | appends 0 V and leaves the flag alone; records the event and keeps the invariant that the flag and the voltages are those the events determine |
| `Jaws.ReleaseRaceOnSubsystem` | src/main/java/frc/robot/subsystems/JawsSubsystem.java:42-57 | on a fresh subsystem, release, a check above 5 W and the release end leave the flag set during the release and cleared after it, with −7 V then 0 V issued |
| `DriveCommand.Deadband` | src/main/java/frc/robot/commands/Drive.java:46-48 | the output's magnitude is max(abs(x) − 0.2, 0), never more than abs(x); it is zero iff abs(x) ≤ 0.2, including the edge; positive iff x > 0.2 and negative iff x < −0.2 |
| `DriveCommand.SigSqr` | src/main/java/frc/robot/commands/Drive.java:50-52 | the output is x·abs(x); it is zero only at zero and positive exactly for positive x |
| `DriveCommand.ShapeInput` | src/main/java/frc/robot/commands/Drive.java:54-56 | the output never exceeds 1; it is zero iff abs(x) ≤ 0.2, positive iff x > 0.2 and negative iff x < −0.2; for x in [−1, 1] its magnitude is at most 0.64 |
| `DriveCommand.DeadbandOdd` | src/main/java/frc/robot/commands/Drive.java:46-48 | deadband is odd |
| `DriveCommand.SigSqrOdd` | src/main/java/frc/robot/commands/Drive.java:50-52 | sigSqr is odd |
| `DriveCommand.ShapeInputOdd` | src/main/java/frc/robot/commands/Drive.java:46-56 | shapeInput is odd for abs(x) ≤ 1.2, where the cap does not act |
| `DriveCommand.DeadbandMonotone` | src/main/java/frc/robot/commands/Drive.java:46-48 | deadband is monotone non-decreasing |
| `DriveCommand.SigSqrMonotone` | src/main/java/frc/robot/commands/Drive.java:50-52 | sigSqr is monotone non-decreasing |
| `DriveCommand.ShapeInputMonotone` | src/main/java/frc/robot/commands/Drive.java:46-56 | shapeInput is monotone non-decreasing |
| `DriveCommand.ShapeInputAtFullDeflection` | src/main/java/frc/robot/commands/Drive.java:54-56 | shapeInput(1) = 0.64 and shapeInput(−1) = −0.64 |
| `DriveCommand.ShapeInputNotClampedBelow` | src/main/java/frc/robot/commands/Drive.java:54-56 | shapeInput(−2) = −3.24, so nothing bounds it below; shapeInput(2) is capped at 1 |
| `DriveCommand.Component` | src/main/java/frc/robot/commands/Drive.java:65-68 | one velocity of the request is at most its top value, at most 0.64 of it in magnitude for an axis in [−1, 1], positive iff the axis is below −0.2 and negative iff it is above 0.2 |
| `DriveCommand.DriveRequest` | src/main/java/frc/robot/commands/Drive.java:59-69 | idle iff the sum of squared axes is below 0.05; a field-centric request never exceeds the top speed or rate; with axes in [−1, 1] each component is at most 0.64 of its top value in magnitude; each component is positive exactly when its axis is pushed negative past the dead band and negative exactly when it is pushed positive past it |
| `DriveCommand.RestingSticksIdle` | src/main/java/frc/robot/commands/Drive.java:60-62 | sticks at (0.02, 0.01, 0) give the idle request |
| `DriveCommand.DeadZoneButNotIdle` | src/main/java/frc/robot/commands/Drive.java:60-68 | axes all inside the dead band whose squares sum to at least 0.05 give a field-centric request with all velocities 0, not idle |
| `DriveCommand.DeadZoneButNotIdleExample` | src/main/java/frc/robot/commands/Drive.java:60-68 | 0.15 on every axis gives a field-centric request with all velocities 0 |
| `DriveCommand.Drive.constructor` | src/main/java/frc/robot/commands/Drive.java:21-44 | positive top speed and rate; the shared request starts at zero velocities; nothing issued |
| `DriveCommand.Drive.Execute` | src/main/java/frc/robot/commands/Drive.java:59-70 | appends `DriveRequest` of the axes; an idle tick leaves the shared request's velocities as they were, and a driving tick writes them and sends exactly them |
| `DriveCommand.Drive.End` | src/main/java/frc/robot/commands/Drive.java:73-75 | the end action always issues idle |

## Left out

- Motor-controller configuration (PID slot, Motion Magic cruise velocity, acceleration and jerk, feedback ratios, the follower motor): firmware behaviour. A Motion Magic request is modelled as a tagged request carrying only its target position.
- The dashboard-driven `voltageOut` command, the `Telemetry` inner classes and `getState`: user interface only.
- The percent-output division by bus voltage in the jaws' `setVoltageOut`: a hardware read. The request is modelled as the voltage itself.
- How the top speed and top rotation rate are derived from the drivetrain constants, the wheelbase and π: both are positive constructor parameters of `Drive`.
- The command scheduler: `runEnd`, `run`, `addRequirements`, default-command selection, and the order of `periodic` against command steps within a tick. Each command is an `…Execute`/`…End` method pair, and callers choose the order.
- The climbing flag is never set in this code. It is a public field of `ElevatorSubsystem` that the environment may assign. No climb sequence is modelled.
- The sensed elevator position and velocity are public fields that the environment updates. The constructor zeroes the position only, as the code does; the velocity is whatever the sensor reads. How the motor moves in response to a request is not modelled.
- `Drive.Execute` keeps the shared field-centric request's velocities as fields of `Drive`, but `issued` records a copy of the request by value. That the swerve drive holds a reference to the same object, which later ticks change in place, is not modelled.
- `DISABLE_MOTION_MAGIC` is the literal `true` in the code. It is the constructor parameter `disableMotionMagic`, so both branches of `setHeight` are modelled.
- Floating point: `real` arithmetic throughout. The conversion round trips are exact over reals. With doubles they hold only up to rounding, because 53.6 is not representable.
- `RobotContainer` (button bindings, optional subsystems, the autonomous chooser, vision) is wiring and is not part of this model.
