/** The `VESC` motor wrapper: the last encoder angle received from the
    motor controller, a first-difference velocity estimate, the per-motor
    frame configuration, and the commands sent back to the controller. */
module SerialVesc {
  import opened Angles
  import opened Frames

  /** A command handed to the serial transport: a position hold target in
      the encoder frame (degrees) or a motor current (amps). */
  datatype Command = Position(degrees: real) | Current(amps: real)

  function Abs(x: real): (r: real) {
    if x < 0.0 then -x else x
  }

  /** A velocity estimate p * d from an arc d of at most half a turn is at
      most half a turn's worth of rate. */
  lemma ScaledArcBound(p: real, d: real)
    requires -180.0 <= d <= 180.0
    ensures -180.0 * Abs(p) <= p * d <= 180.0 * Abs(p)
  {
    var q := Abs(p);
    NonNegativeProduct(q, 180.0 - d);
    NonNegativeProduct(q, d + 180.0);
    assert p * d == q * d || p * d == -(q * d);
  }

  lemma NonNegativeProduct(x: real, y: real)
    requires 0.0 <= x && 0.0 <= y
    ensures 0.0 <= x * y
  {
  }

  /** The velocity recorded for a move of less than half a turn from any
      previous angle is that move times the rate multiplier, across the
      0/360 seam as anywhere else. */
  lemma VelocityOfSmallMove(p: real, previous: real, m: real)
    requires -180.0 < m < 180.0
    ensures Diff(Norm(previous + m), previous) == m
    ensures p * Diff(Norm(previous + m), previous) == p * m
  {
    var a := Norm(previous + m);
    CongruentSymmetric(previous + m, a);
    CongruentShift(a, previous + m, -previous);
    assert previous + m + -previous == m;
    DiffRecoversMove(a, previous, m);
  }

  /** Moving from a reading or from its normalised value ends in the same
      direction. */
  lemma NormOfShift(previous: real, m: real)
    ensures Norm(previous + m) == Norm(Norm(previous) + m)
  {
    CongruentShift(previous, Norm(previous), m);
    NormEqualIff(previous + m, Norm(previous) + m);
  }

  /** A step from 359 to 1 degree is recorded as +2 degrees of travel. */
  lemma VelocityAcrossSeam(p: real)
    ensures p * Diff(Norm(1.0), 359.0) == 2.0 * p
  {
    CongruentBy(359.0 + 2.0, 1.0, 1);
    CongruentSymmetric(359.0 + 2.0, 1.0);
    NormCanonical(359.0 + 2.0, 1.0);
    VelocityOfSmallMove(p, 359.0, 2.0);
  }

  /** The error the position controller sees for a robot-frame set point,
      once converted to the encoder frame, is the robot-frame error (read
      angle minus set point), sign-flipped when the encoder is reversed. */
  lemma PidErrorInRobotFrame(raw: real, setPoint: real, offset: real, direction: int)
    ensures var robotAngle := VescToNormalized(raw, offset, direction);
            Congruent(Diff(raw, NormalizedToVesc(setPoint, offset, direction)),
                      if direction == -1 then setPoint - robotAngle else robotAngle - setPoint)
  {
    var v := NormalizedToVesc(setPoint, offset, direction);
    var n := VescToNormalized(raw, offset, direction);
    NormalizedToVescMeaning(setPoint, offset, direction);
    VescToNormalizedMeaning(raw, offset, direction);
    CongruentBy(raw, raw, 0);
    CongruentBy(setPoint, setPoint, 0);
    var e := Diff(raw, v);
    if direction == -1 {
      // e ~ raw - v ~ raw - (offset - setPoint) == setPoint - (offset - raw) ~ setPoint - n
      CongruentSubtract(raw, raw, v, offset - setPoint);
      CongruentTransitive(e, raw - v, raw - (offset - setPoint));
      CongruentSubtract(setPoint, setPoint, n, offset - raw);
      CongruentSymmetric(setPoint - n, setPoint - (offset - raw));
      assert raw - (offset - setPoint) == setPoint - (offset - raw);
      CongruentTransitive(e, setPoint - (offset - raw), setPoint - n);
    } else {
      // e ~ raw - v ~ raw - (setPoint - offset) == (raw + offset) - setPoint ~ n - setPoint
      CongruentSubtract(raw, raw, v, setPoint - offset);
      CongruentTransitive(e, raw - v, raw - (setPoint - offset));
      CongruentSubtract(n, raw + offset, setPoint, setPoint);
      CongruentSymmetric(n - setPoint, raw + offset - setPoint);
      assert raw - (setPoint - offset) == raw + offset - setPoint;
      CongruentTransitive(e, raw + offset - setPoint, n - setPoint);
    }
  }

  class Vesc {
    /** Last encoder-frame angle received, in [0, 360). */
    var vescAngle: real
    /** First-difference velocity estimate, in degrees per second. */
    var trueDegps: real
    /** VESC_ENCODER_PERIOD: the multiplier from one sample's arc to a rate. */
    const encoderPeriod: real
    /** The position controller's command law, from (error, velocity) to a
        fraction of the maximum current. */
    const pdLaw: (real, real) -> real

    /** Frame configuration, installed by Attach. */
    var encoderOffset: real
    var encoderDirection: int
    var maxCurrent: real

    /** The signed arc, in degrees, behind the present velocity estimate. */
    ghost var lastArc: real

    /** Every command sent to the motor controller, oldest first. */
    ghost var log: seq<Command>

    /** The stored angle is normalised and the velocity estimate is the
        rate multiplier times an arc of at most half a turn. */
    ghost predicate Valid()
      reads this`vescAngle, this`trueDegps, this`lastArc
    {
      0.0 <= vescAngle < 360.0 &&
      -180.0 <= lastArc <= 180.0 &&
      trueDegps == encoderPeriod * lastArc
    }

    /** The velocity estimate never exceeds half a turn per sample. */
    lemma VelocityBounded()
      requires Valid()
      ensures -180.0 * Abs(encoderPeriod) <= trueDegps <= 180.0 * Abs(encoderPeriod)
    {
      ScaledArcBound(encoderPeriod, lastArc);
    }

    /** The current the position controller asks for to reach an
        encoder-frame set point from the present state. */
    function PidCurrent(setPoint: real): (amps: real)
      reads this`vescAngle, this`trueDegps, this`maxCurrent
    {
      maxCurrent * pdLaw(Diff(vescAngle, setPoint), trueDegps)
    }

    /** Starts at angle 0 with no velocity and nothing sent; the frame
        configuration is whatever it happens to be until Attach. */
    constructor (vescEncoderReadingPeriod: int, pdLaw: (real, real) -> real)
      ensures Valid()
      ensures vescAngle == 0.0 && trueDegps == 0.0
      ensures encoderPeriod == vescEncoderReadingPeriod as real
      ensures this.pdLaw == pdLaw
      ensures log == []
    {
      vescAngle := 0.0;
      trueDegps := 0.0;
      lastArc := 0.0;
      encoderPeriod := vescEncoderReadingPeriod as real;
      this.pdLaw := pdLaw;
      log := [];
    }

    /** Installs the frame configuration, overwriting the previous one. */
    method Attach(offset: real, direction: int, maxCurrent: real)
      modifies this`encoderOffset, this`encoderDirection, this`maxCurrent
      ensures encoderOffset == offset
      ensures encoderDirection == direction
      ensures this.maxCurrent == maxCurrent
    {
      encoderOffset := offset;
      encoderDirection := direction;
      this.maxCurrent := maxCurrent;
    }

    /** Records a new encoder reading: the stored angle becomes the reading
        reduced into [0, 360), and the velocity the signed shortest arc
        from the old angle to the new one times the rate multiplier. */
    method UpdateAngle(angle: real)
      requires Valid()
      modifies this`vescAngle, this`trueDegps, this`lastArc
      ensures Valid()
      ensures vescAngle == Norm(angle)
      ensures trueDegps == encoderPeriod * Diff(vescAngle, old(vescAngle))
    {
      var previous := vescAngle;
      var corrected := Norm(angle);
      var arc := Diff(corrected, previous);
      assert 0.0 <= corrected < 360.0 && -180.0 <= arc <= 180.0;
      trueDegps := encoderPeriod * arc;
      lastArc := arc;
      vescAngle := corrected;
      assert vescAngle == corrected && old(vescAngle) == previous;
    }

    /** The robot-frame angle of the last reading (not of the last command). */
    method Read() returns (deg: real)
      ensures 0.0 <= deg < 360.0
      ensures deg == VescToNormalized(vescAngle, encoderOffset, encoderDirection)
    {
      deg := VescToNormalized(vescAngle, encoderOffset, encoderDirection);
    }

    /** `_send_position`: hands one position command to the transport. */
    method SendPosition(pos: real)
      modifies this`log
      ensures log == old(log) + [Position(pos)]
    {
      log := log + [Position(pos)];
    }

    /** `_send_current`: hands one current command to the transport. */
    method SendCurrent(current: real)
      modifies this`log
      ensures log == old(log) + [Current(current)]
    {
      log := log + [Current(current)];
    }

    /** Commands a position hold at a robot-frame angle, sent in the
        encoder frame. */
    method Write(deg: real)
      modifies this`log
      ensures log == old(log) + [Position(NormalizedToVesc(deg, encoderOffset, encoderDirection))]
      ensures 0.0 <= log[|log| - 1].degrees < 360.0
    {
      var target := NormalizedToVesc(deg, encoderOffset, encoderDirection);
      SendPosition(target);
    }

    /** Commands a current as given: not clamped by maxCurrent. */
    method WriteCurrent(current: real)
      modifies this`log
      ensures log == old(log) + [Current(current)]
    {
      SendCurrent(current);
    }

    /** One step of the position controller towards an encoder-frame set
        point: the error is the shortest arc from the set point to the
        stored angle, scaled to a current by maxCurrent. */
    method PidUpdate(setPoint: real)
      modifies this`log
      ensures log == old(log) + [Current(PidCurrent(setPoint))]
    {
      var error := Diff(vescAngle, setPoint);
      var curCommand := maxCurrent * pdLaw(error, trueDegps);
      assert curCommand == PidCurrent(setPoint);
      SendCurrent(curCommand);
    }

    /** The same step towards a robot-frame set point, converted to the
        encoder frame first. */
    method PidUpdateNormalized(setPoint: real)
      modifies this`log
      ensures log == old(log) + [Current(PidCurrent(NormalizedToVesc(setPoint, encoderOffset, encoderDirection)))]
    {
      PidUpdate(NormalizedToVesc(setPoint, encoderOffset, encoderDirection));
    }
  }

  /** Encoder readings of 350 then 355 degrees are a move of +5 degrees,
      so the velocity is 5 times the rate multiplier. */
  lemma OffsetTenVelocity(p: real)
    ensures p * Diff(Norm(355.0), Norm(350.0)) == 5.0 * p
  {
    NormInRange(350.0);
    VelocityOfSmallMove(p, 350.0, 5.0);
  }

  /** With offset 10 and direction 1 the encoder reading 355 is the robot
      angle 5: the offset carries it across the seam. */
  lemma OffsetTenRead()
    ensures VescToNormalized(355.0, 10.0, 1) == 5.0
  {
    VescToNormalizedMeaning(355.0, 10.0, 1);
    CongruentBy(355.0 + 10.0, 5.0, 1);
    NormCanonical(355.0 + 10.0, 5.0);
  }

  /** With offset 10 and direction 1 the robot angle 15 is sent as the
      encoder angle 5. */
  lemma OffsetTenWrite()
    ensures NormalizedToVesc(15.0, 10.0, 1) == 5.0
  {
    NormalizedToVescMeaning(15.0, 10.0, 1);
    NormInRange(5.0);
  }

  /** Whatever is commanded after it, a read gives the robot-frame angle of
      the last encoder reading, not of any commanded position. */
  method ReadReflectsLastUpdate(period: int, law: (real, real) -> real,
                                offset: real, direction: int, maxCurrent: real,
                                first: real, second: real, target: real, current: real)
    returns (angle: real)
    ensures angle == VescToNormalized(second, offset, direction)
  {
    var motor := new Vesc(period, law);
    motor.Attach(offset, direction, maxCurrent);
    motor.UpdateAngle(first);
    motor.UpdateAngle(second);
    motor.Write(target);
    motor.PidUpdateNormalized(target);
    motor.WriteCurrent(current);
    angle := motor.Read();
    CongruentSymmetric(second, Norm(second));
    VescToNormalizedIgnoresWinding(Norm(second), second, offset, direction);
  }

  /** Attach with offset 10, direction 1 and 5 A, receive encoder readings
      of 350 then 355 degrees, and a read gives 5 degrees, whatever is
      commanded in between. */
  method OffsetTenScenario(target: real, current: real) returns (angle: real)
    ensures angle == 5.0
  {
    var law := (error: real, velocity: real) => 0.0;
    angle := ReadReflectsLastUpdate(1000, law, 10.0, 1, 5.0, 350.0, 355.0, target, current);
    OffsetTenRead();
  }

  /** Two encoder readings a move m apart (less than half a turn either
      way) record a velocity of m times the rate multiplier, whether or not
      the move crosses the 0/360 seam. */
  method SmallMoveScenario(period: int, law: (real, real) -> real, previous: real, m: real)
    returns (rate: real)
    requires -180.0 < m < 180.0
    ensures rate == period as real * m
  {
    var motor := new Vesc(period, law);
    motor.UpdateAngle(previous);
    ghost var stored := motor.vescAngle;
    NormOfShift(previous, m);
    VelocityOfSmallMove(period as real, stored, m);
    motor.UpdateAngle(previous + m);
    assert motor.vescAngle == Norm(stored + m);
    assert Diff(motor.vescAngle, stored) == m;
    rate := motor.trueDegps;
  }

  /** Encoder readings of 359 then 1 degree record a velocity of +2 times
      the rate multiplier: the step across the seam is a short forward
      move, not most of a turn backwards. */
  method SeamStepScenario(period: int, law: (real, real) -> real) returns (rate: real)
    ensures rate == 2.0 * period as real
  {
    rate := SmallMoveScenario(period, law, 359.0, 2.0);
  }
}
