/** The two frame conversions of the VESC wrapper: from the motor
    controller's encoder frame to the robot frame and back. Both take the
    per-motor configuration set by `attach`: the encoder offset and the
    encoder direction. Only a direction of exactly -1 reflects the angle;
    every other value (1, 0, ...) is read as "same sense". */
module Frames {
  import opened Angles

  /** `vesc_to_normalized_angle`: reflect when the encoder runs the other
      way, add the offset, reduce into [0, 360). */
  function VescToNormalized(raw: real, offset: real, direction: int): (r: real)
    ensures 0.0 <= r < 360.0
  {
    var sensed := if direction == -1 then Diff(0.0, raw) else raw;
    Norm(sensed + offset)
  }

  /** `normalized_to_vesc_angle`: subtract the offset, reflect when the
      encoder runs the other way, reduce into [0, 360). */
  function NormalizedToVesc(normalized: real, offset: real, direction: int): (r: real)
    ensures 0.0 <= r < 360.0
  {
    var shifted := normalized - offset;
    var sensed := if direction == -1 then Diff(0.0, shifted) else shifted;
    Norm(sensed)
  }

  /** What the robot-frame angle is: raw + offset in the same sense, and
      offset - raw when the encoder is reversed, taken modulo 360. */
  lemma VescToNormalizedMeaning(raw: real, offset: real, direction: int)
    ensures direction != -1 ==> Congruent(VescToNormalized(raw, offset, direction), raw + offset)
    ensures direction == -1 ==> Congruent(VescToNormalized(raw, offset, direction), offset - raw)
    ensures VescToNormalized(raw, offset, direction)
         == Norm(if direction == -1 then offset - raw else raw + offset)
  {
    var r := VescToNormalized(raw, offset, direction);
    var sensed := if direction == -1 then Diff(0.0, raw) else raw;
    var target := if direction == -1 then offset - raw else raw + offset;
    if direction == -1 {
      DiffFromZeroReflects(raw);
      CongruentShift(Diff(0.0, raw), -raw, offset);
    } else {
      CongruentBy(raw, raw, 0);
      CongruentShift(raw, raw, offset);
    }
    assert Congruent(sensed + offset, target);
    CongruentSymmetric(sensed + offset, r);
    CongruentTransitive(r, sensed + offset, target);
    CongruentSymmetric(r, target);
    NormCanonical(target, r);
  }

  /** What the encoder-frame angle is: normalized - offset in the same
      sense, and offset - normalized when the encoder is reversed, modulo 360. */
  lemma NormalizedToVescMeaning(normalized: real, offset: real, direction: int)
    ensures direction != -1 ==> Congruent(NormalizedToVesc(normalized, offset, direction), normalized - offset)
    ensures direction == -1 ==> Congruent(NormalizedToVesc(normalized, offset, direction), offset - normalized)
    ensures NormalizedToVesc(normalized, offset, direction)
         == Norm(if direction == -1 then offset - normalized else normalized - offset)
  {
    var r := NormalizedToVesc(normalized, offset, direction);
    var shifted := normalized - offset;
    var sensed := if direction == -1 then Diff(0.0, shifted) else shifted;
    var target := if direction == -1 then offset - normalized else normalized - offset;
    if direction == -1 {
      DiffFromZeroReflects(shifted);
    } else {
      CongruentBy(shifted, shifted, 0);
    }
    assert Congruent(sensed, target);
    CongruentSymmetric(sensed, r);
    CongruentTransitive(r, sensed, target);
    CongruentSymmetric(r, target);
    NormCanonical(target, r);
  }

  /** Encoder frame -> robot frame -> encoder frame gives back the encoder
      angle, reduced into [0, 360), for every offset and every direction. */
  lemma RoundTripFromVesc(raw: real, offset: real, direction: int)
    ensures NormalizedToVesc(VescToNormalized(raw, offset, direction), offset, direction) == Norm(raw)
  {
    var n := VescToNormalized(raw, offset, direction);
    VescToNormalizedMeaning(raw, offset, direction);
    NormalizedToVescMeaning(n, offset, direction);
    if direction == -1 {
      // n ~ offset - raw, so offset - n ~ raw
      CongruentNegate(n, offset - raw);
      CongruentShift(-n, -(offset - raw), offset);
      assert -(offset - raw) + offset == raw;
      NormEqualIff(offset - n, raw);
    } else {
      // n ~ raw + offset, so n - offset ~ raw
      CongruentShift(n, raw + offset, -offset);
      assert raw + offset + -offset == raw;
      NormEqualIff(n - offset, raw);
    }
  }

  /** Robot frame -> encoder frame -> robot frame gives back the robot
      angle, reduced into [0, 360), for every offset and every direction. */
  lemma RoundTripFromNormalized(normalized: real, offset: real, direction: int)
    ensures VescToNormalized(NormalizedToVesc(normalized, offset, direction), offset, direction) == Norm(normalized)
  {
    var v := NormalizedToVesc(normalized, offset, direction);
    NormalizedToVescMeaning(normalized, offset, direction);
    VescToNormalizedMeaning(v, offset, direction);
    if direction == -1 {
      // v ~ offset - normalized, so offset - v ~ normalized
      CongruentNegate(v, offset - normalized);
      CongruentShift(-v, -(offset - normalized), offset);
      assert -(offset - normalized) + offset == normalized;
      NormEqualIff(offset - v, normalized);
    } else {
      // v ~ normalized - offset, so v + offset ~ normalized
      CongruentShift(v, normalized - offset, offset);
      assert normalized - offset + offset == normalized;
      NormEqualIff(v + offset, normalized);
    }
  }

  /** The robot-frame angle depends only on the direction the encoder
      angle names, not on how many turns it carries. */
  lemma VescToNormalizedIgnoresWinding(raw1: real, raw2: real, offset: real, direction: int)
    requires Congruent(raw1, raw2)
    ensures VescToNormalized(raw1, offset, direction) == VescToNormalized(raw2, offset, direction)
  {
    VescToNormalizedMeaning(raw1, offset, direction);
    VescToNormalizedMeaning(raw2, offset, direction);
    if direction == -1 {
      CongruentNegate(raw1, raw2);
      CongruentShift(-raw1, -raw2, offset);
      assert -raw1 + offset == offset - raw1 && -raw2 + offset == offset - raw2;
      NormEqualIff(offset - raw1, offset - raw2);
    } else {
      CongruentShift(raw1, raw2, offset);
      NormEqualIff(raw1 + offset, raw2 + offset);
    }
  }

  /** A reversed encoder with no offset reads 90 degrees as 270. */
  lemma ReversedEncoderExample()
    ensures VescToNormalized(90.0, 0.0, -1) == 270.0
  {
    VescToNormalizedMeaning(90.0, 0.0, -1);
    CongruentBy(0.0 - 90.0, 270.0, -1);
    NormCanonical(0.0 - 90.0, 270.0);
  }
}
