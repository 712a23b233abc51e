/**
 * The jaws (grasp controller): one flag, holdingBall, set by the periodic
 * power check and cleared only by the end of a release, and the fixed
 * voltages each command writes to the jaws motor.
 *
 * The motor is a sink: every voltage requested of it is appended to
 * `issued`. The stator current and output voltage it reports are the
 * arguments of `Periodic`.
 */
module Jaws {

  /** Sensed power, in watts, above which a ball counts as grabbed. */
  const IntakePowerLimit: real := 5.0
  /** Volts while grabbing. */
  const GrabVolts: real := 7.0
  /** Volts while releasing. */
  const ReleaseVolts: real := -7.0
  /** Volts the default command holds a grabbed ball with. */
  const HoldVolts: real := 3.0

  /** getMotorOutputPower: stator current times motor output voltage. */
  function MotorOutputPower(statorCurrent: real, outputVoltage: real): (p: real)
    ensures p > 0.0 <==> (statorCurrent > 0.0 && outputVoltage > 0.0) || (statorCurrent < 0.0 && outputVoltage < 0.0)
    ensures p == 0.0 <==> statorCurrent == 0.0 || outputVoltage == 0.0
  {
    statorCurrent * outputVoltage
  }

  /** What can happen to the jaws in one step: the periodic check or a step of a command. */
  datatype JawsEvent =
    | Periodic(power: real)
    | GrabExecute | GrabEnd
    | ReleaseExecute | ReleaseEnd
    | DefaultExecute | DefaultEnd

  /** Whether an event is a periodic check that sees a grab. */
  predicate IsSpike(e: JawsEvent)
  {
    e.Periodic? && e.power > IntakePowerLimit
  }

  /** The holding flag after one event. */
  function NextHolding(holding: bool, e: JawsEvent): (h: bool)
    ensures h && !holding ==> IsSpike(e)
    ensures !h && holding ==> e == ReleaseEnd
    ensures IsSpike(e) ==> h
    ensures e == ReleaseEnd ==> !h
  {
    match e
    case Periodic(power) => if power > IntakePowerLimit then true else holding
    case ReleaseEnd => false
    case _ => holding
  }

  /** The voltages written to the motor by one event. */
  function Output(holding: bool, e: JawsEvent): (vs: seq<real>)
    ensures e.Periodic? <==> vs == []
    ensures forall i :: 0 <= i < |vs| ==> vs[i] in {GrabVolts, ReleaseVolts, HoldVolts, 0.0}
    ensures |vs| <= 1
    ensures vs == [HoldVolts] <==> e == DefaultExecute && holding
    ensures vs == [GrabVolts] <==> e == GrabExecute
    ensures vs == [ReleaseVolts] <==> e == ReleaseExecute
  {
    match e
    case Periodic(_) => []
    case GrabExecute => [GrabVolts]
    case ReleaseExecute => [ReleaseVolts]
    case DefaultExecute => if holding then [HoldVolts] else [0.0]
    case _ => [0.0]
  }

  /** The holding flag after a sequence of events, starting from `holding`. */
  function HoldingAfter(holding: bool, events: seq<JawsEvent>): bool
  {
    if events == [] then holding
    else NextHolding(HoldingAfter(holding, events[..|events| - 1]), events[|events| - 1])
  }

  /** No release end among events[from..]. */
  predicate NoReleaseEndFrom(events: seq<JawsEvent>, from: nat)
  {
    forall j :: from <= j < |events| ==> events[j] != ReleaseEnd
  }

  /** Some spike among events that no later release end cancels. */
  predicate UncancelledSpike(events: seq<JawsEvent>)
  {
    exists i :: 0 <= i < |events| && IsSpike(events[i]) && NoReleaseEndFrom(events, i + 1)
  }

  /**
   * After any run, the jaws hold a ball exactly when a spike was seen after
   * the last release end, or when they held one to begin with and no release
   * ended since.
   */
  lemma {:induction false} HoldingAfterCharacterised(holding: bool, events: seq<JawsEvent>)
    ensures HoldingAfter(holding, events) <==>
      UncancelledSpike(events) || (holding && NoReleaseEndFrom(events, 0))
  {
    if events != [] {
      var n := |events| - 1;
      var prefix, last := events[..n], events[n];
      HoldingAfterCharacterised(holding, prefix);
      assert forall j :: 0 <= j < n ==> prefix[j] == events[j];
      if last == ReleaseEnd {
        assert !NoReleaseEndFrom(events, 0);
        assert !UncancelledSpike(events);
      } else if IsSpike(last) {
        assert NoReleaseEndFrom(events, n + 1);
        assert UncancelledSpike(events);
      } else {
        assert NoReleaseEndFrom(events, 0) <==> NoReleaseEndFrom(prefix, 0);
        if UncancelledSpike(prefix) {
          var i :| 0 <= i < n && IsSpike(prefix[i]) && NoReleaseEndFrom(prefix, i + 1);
          assert IsSpike(events[i]) && NoReleaseEndFrom(events, i + 1);
        }
        if UncancelledSpike(events) {
          var i :| 0 <= i < |events| && IsSpike(events[i]) && NoReleaseEndFrom(events, i + 1);
          assert i < n;
          assert IsSpike(prefix[i]) && NoReleaseEndFrom(prefix, i + 1);
        }
      }
    }
  }

  /** The flag never reverts to false unless a release ends. */
  lemma {:induction false} NeverRevertsWithoutRelease(events: seq<JawsEvent>)
    requires NoReleaseEndFrom(events, 0)
    ensures HoldingAfter(true, events)
  {
    HoldingAfterCharacterised(true, events);
  }

  /** The flag never becomes true unless a spike is seen. */
  lemma {:induction false} NeverSetWithoutSpike(events: seq<JawsEvent>)
    requires forall i :: 0 <= i < |events| ==> !IsSpike(events[i])
    ensures !HoldingAfter(false, events)
  {
    HoldingAfterCharacterised(false, events);
  }

  /** Every voltage written to the motor over a sequence of events, starting from `holding`. */
  function IssuedAfter(holding: bool, events: seq<JawsEvent>): seq<real>
  {
    if events == [] then []
    else
      var prefix := events[..|events| - 1];
      IssuedAfter(holding, prefix) + Output(HoldingAfter(holding, prefix), events[|events| - 1])
  }

  /** One more event: the flag and the voltages advance by that event alone. */
  lemma AppendEvent(holding: bool, events: seq<JawsEvent>, e: JawsEvent)
    ensures HoldingAfter(holding, events + [e]) == NextHolding(HoldingAfter(holding, events), e)
    ensures IssuedAfter(holding, events + [e]) == IssuedAfter(holding, events) + Output(HoldingAfter(holding, events), e)
  {
    assert (events + [e])[..|events|] == events;
  }

  /**
   * Over any run the motor is sent at most one voltage per event, and only
   * ever 7, -7, 3 or 0 volts.
   */
  lemma {:induction false} IssuedVoltagesBounded(holding: bool, events: seq<JawsEvent>)
    ensures |IssuedAfter(holding, events)| <= |events|
    ensures forall v :: v in IssuedAfter(holding, events) ==> v in {GrabVolts, ReleaseVolts, HoldVolts, 0.0}
  {
    if events != [] {
      var prefix := events[..|events| - 1];
      IssuedVoltagesBounded(holding, prefix);
      var out := Output(HoldingAfter(holding, prefix), events[|events| - 1]);
      assert forall v :: v in out ==> v in {GrabVolts, ReleaseVolts, HoldVolts, 0.0} by {
        forall v | v in out ensures v in {GrabVolts, ReleaseVolts, HoldVolts, 0.0} {
          var i :| 0 <= i < |out| && out[i] == v;
        }
      }
    }
  }

  class JawsSubsystem {
    /** The State's holdingBall flag. */
    var holdingBall: bool
    /** Every voltage requested of the jaws motor, oldest first. */
    var issued: seq<real>
    /** Every periodic check and command step this subsystem has seen, oldest first. */
    ghost var events: seq<JawsEvent>

    /** The flag and the voltages issued are those the events determine from a clear flag. */
    ghost predicate Valid()
      reads this
    {
      holdingBall == HoldingAfter(false, events) && issued == IssuedAfter(false, events)
    }

    constructor ()
      ensures Valid() && events == []
      ensures !holdingBall && issued == []
    {
      holdingBall := false;
      issued := [];
      events := [];
    }

    /** isHoldingBall: set exactly when a check above the limit came after the last release end. */
    function IsHoldingBall(): (h: bool)
      requires Valid()
      reads this
      ensures h <==> UncancelledSpike(events)
    {
      HoldingAfterCharacterised(false, events);
      holdingBall
    }

    /** State.grabbedBall */
    method GrabbedBall()
      modifies this`holdingBall
      ensures holdingBall
    {
      holdingBall := true;
    }

    /** State.releasedBall */
    method ReleasedBall()
      modifies this`holdingBall
      ensures !holdingBall
    {
      holdingBall := false;
    }

    /** setVoltageOut: the request is the voltage itself. */
    method SetVoltageOut(volts: real)
      modifies this`issued
      ensures issued == old(issued) + [volts]
    {
      issued := issued + [volts];
    }

    method Zero()
      modifies this`issued
      ensures issued == old(issued) + [0.0]
    {
      SetVoltageOut(0.0);
    }

    /** The periodic power check, run every tick whatever command is active. */
    method Periodic(statorCurrent: real, outputVoltage: real)
      requires Valid()
      modifies this
      ensures Valid() && events == old(events) + [JawsEvent.Periodic(MotorOutputPower(statorCurrent, outputVoltage))]
      ensures holdingBall == NextHolding(old(holdingBall), JawsEvent.Periodic(MotorOutputPower(statorCurrent, outputVoltage)))
      ensures issued == old(issued)
    {
      var e := JawsEvent.Periodic(MotorOutputPower(statorCurrent, outputVoltage));
      AppendEvent(false, events, e);
      if MotorOutputPower(statorCurrent, outputVoltage) > IntakePowerLimit {
        GrabbedBall();
      }
      events := events + [e];
    }

    /** One tick of grab. */
    method GrabExecute()
      requires Valid()
      modifies this
      ensures Valid() && events == old(events) + [JawsEvent.GrabExecute]
      ensures issued == old(issued) + Output(old(holdingBall), JawsEvent.GrabExecute)
      ensures holdingBall == old(holdingBall)
    {
      AppendEvent(false, events, JawsEvent.GrabExecute);
      SetVoltageOut(GrabVolts);
      events := events + [JawsEvent.GrabExecute];
    }

    /** End action of grab: the flag is left alone. */
    method GrabEnd()
      requires Valid()
      modifies this
      ensures Valid() && events == old(events) + [JawsEvent.GrabEnd]
      ensures issued == old(issued) + Output(old(holdingBall), JawsEvent.GrabEnd)
      ensures holdingBall == old(holdingBall)
    {
      AppendEvent(false, events, JawsEvent.GrabEnd);
      Zero();
      events := events + [JawsEvent.GrabEnd];
    }

    /** One tick of realese. */
    method ReleaseExecute()
      requires Valid()
      modifies this
      ensures Valid() && events == old(events) + [JawsEvent.ReleaseExecute]
      ensures issued == old(issued) + Output(old(holdingBall), JawsEvent.ReleaseExecute)
      ensures holdingBall == old(holdingBall)
    {
      AppendEvent(false, events, JawsEvent.ReleaseExecute);
      SetVoltageOut(ReleaseVolts);
      events := events + [JawsEvent.ReleaseExecute];
    }

    /** End action of realese: zero volts, then the flag is cleared. */
    method ReleaseEnd()
      requires Valid()
      modifies this
      ensures Valid() && events == old(events) + [JawsEvent.ReleaseEnd]
      ensures issued == old(issued) + Output(old(holdingBall), JawsEvent.ReleaseEnd)
      ensures holdingBall == NextHolding(old(holdingBall), JawsEvent.ReleaseEnd)
    {
      AppendEvent(false, events, JawsEvent.ReleaseEnd);
      Zero();
      ReleasedBall();
      events := events + [JawsEvent.ReleaseEnd];
    }

    /** One tick of the default command: hold a grabbed ball, else idle. */
    method DefaultExecute()
      requires Valid()
      modifies this
      ensures Valid() && events == old(events) + [JawsEvent.DefaultExecute]
      ensures issued == old(issued) + Output(old(holdingBall), JawsEvent.DefaultExecute)
      ensures holdingBall == old(holdingBall)
    {
      AppendEvent(false, events, JawsEvent.DefaultExecute);
      if IsHoldingBall() {
        SetVoltageOut(HoldVolts);
      } else {
        Zero();
      }
      events := events + [JawsEvent.DefaultExecute];
    }

    /** End action of the default command. */
    method DefaultEnd()
      requires Valid()
      modifies this
      ensures Valid() && events == old(events) + [JawsEvent.DefaultEnd]
      ensures issued == old(issued) + Output(old(holdingBall), JawsEvent.DefaultEnd)
      ensures holdingBall == old(holdingBall)
    {
      AppendEvent(false, events, JawsEvent.DefaultEnd);
      Zero();
      events := events + [JawsEvent.DefaultEnd];
    }
  }

  /**
   * The race, kept as written: on a fresh subsystem, a periodic check that
   * senses more than the limit while releasing sets the flag, and the
   * release end clears it.
   */
  method ReleaseRaceOnSubsystem(statorCurrent: real, outputVoltage: real)
    returns (duringRelease: bool, afterRelease: bool, voltages: seq<real>)
    requires statorCurrent * outputVoltage > IntakePowerLimit
    ensures duringRelease && !afterRelease
    ensures voltages == [ReleaseVolts, 0.0]
  {
    var jaws := new JawsSubsystem();
    jaws.ReleaseExecute();
    jaws.Periodic(statorCurrent, outputVoltage);
    duringRelease := jaws.IsHoldingBall();
    jaws.ReleaseEnd();
    afterRelease := jaws.IsHoldingBall();
    voltages := jaws.issued;
  }
}
