/** Angle arithmetic on the 360-degree circle: the two helpers the motor
    wrapper takes from the VESC firmware utilities, `utils_norm_angle` and
    `utils_angle_difference`, together with the congruence they respect. */
module Angles {

  /** k whole turns, in degrees. */
  function Turns(k: int): (degrees: real) {
    360.0 * k as real
  }

  /** a and b name the same direction: they differ by a whole number of turns. */
  ghost predicate Congruent(a: real, b: real) {
    exists k: int :: a - b == Turns(k)
  }

  lemma CongruentBy(a: real, b: real, k: int)
    requires a - b == Turns(k)
    ensures Congruent(a, b)
  {
  }

  lemma CongruentSymmetric(a: real, b: real)
    requires Congruent(a, b)
    ensures Congruent(b, a)
  {
    var k :| a - b == Turns(k);
    CongruentBy(b, a, -k);
  }

  lemma CongruentTransitive(a: real, b: real, c: real)
    requires Congruent(a, b) && Congruent(b, c)
    ensures Congruent(a, c)
  {
    var k :| a - b == Turns(k);
    var j :| b - c == Turns(j);
    CongruentBy(a, c, k + j);
  }

  /** Adding the same amount to both sides keeps two angles congruent. */
  lemma CongruentShift(a: real, b: real, c: real)
    requires Congruent(a, b)
    ensures Congruent(a + c, b + c)
  {
    var k :| a - b == Turns(k);
    CongruentBy(a + c, b + c, k);
  }

  /** Reflecting both sides through 0 keeps two angles congruent. */
  lemma CongruentNegate(a: real, b: real)
    requires Congruent(a, b)
    ensures Congruent(-a, -b)
  {
    var k :| a - b == Turns(k);
    CongruentBy(-a, -b, -k);
  }

  /** Differences of congruent angles are congruent. */
  lemma CongruentSubtract(a: real, b: real, c: real, d: real)
    requires Congruent(a, b) && Congruent(c, d)
    ensures Congruent(a - c, b - d)
  {
    var k :| a - b == Turns(k);
    var j :| c - d == Turns(j);
    CongruentBy(a - c, b - d, k - j);
  }

  /** Two congruent angles less than a full turn apart are equal. */
  lemma CongruentClose(a: real, b: real)
    requires Congruent(a, b)
    requires -360.0 < a - b < 360.0
    ensures a == b
  {
    var k :| a - b == Turns(k);
    assert -1 < k < 1;
  }

  /** `utils_norm_angle`: the angle reduced into [0, 360), naming the same
      direction as its argument, for inputs of any sign and size. */
  function Norm(x: real): (r: real)
    ensures 0.0 <= r < 360.0
    ensures Congruent(x, r)
  {
    var k := (x / 360.0).Floor;
    CongruentBy(x, x - Turns(k), k);
    x - Turns(k)
  }

  /** Norm picks the one representative in [0, 360) of each direction. */
  lemma NormCanonical(x: real, y: real)
    requires Congruent(x, y)
    requires 0.0 <= y < 360.0
    ensures Norm(x) == y
  {
    CongruentSymmetric(x, Norm(x));
    CongruentTransitive(Norm(x), x, y);
    CongruentClose(Norm(x), y);
  }

  /** Angles already in [0, 360) are left alone. */
  lemma NormInRange(y: real)
    requires 0.0 <= y < 360.0
    ensures Norm(y) == y
  {
    CongruentBy(y, y, 0);
    NormCanonical(y, y);
  }

  lemma NormIdempotent(x: real)
    ensures Norm(Norm(x)) == Norm(x)
  {
    NormInRange(Norm(x));
  }

  /** Two angles normalise to the same value exactly when they are congruent. */
  lemma NormEqualIff(x: real, y: real)
    ensures Norm(x) == Norm(y) <==> Congruent(x, y)
  {
    if Norm(x) == Norm(y) {
      CongruentSymmetric(y, Norm(y));
      CongruentTransitive(x, Norm(x), y);
    }
    if Congruent(x, y) {
      CongruentTransitive(x, y, Norm(y));
      NormCanonical(x, Norm(y));
    }
  }

  /** `utils_angle_difference(a, b)`: the signed shortest arc from b to a,
      congruent to a - b and at most half a turn either way. */
  function Diff(a: real, b: real): (r: real)
    ensures -180.0 <= r <= 180.0
    ensures Congruent(r, a - b)
  {
    var d := Norm(a - b);
    CongruentSymmetric(a - b, d);
    if d > 180.0 then
      CongruentBy(d - 360.0, d, -1);
      CongruentTransitive(d - 360.0, d, a - b);
      d - 360.0
    else
      d
  }

  /** A true move of less than half a turn is recovered exactly by Diff,
      whatever windings separate the two readings (the 0/360 seam included). */
  lemma DiffRecoversMove(a: real, b: real, m: real)
    requires Congruent(a - b, m)
    requires -180.0 < m < 180.0
    ensures Diff(a, b) == m
  {
    var r := Diff(a, b);
    CongruentTransitive(r, a - b, m);
    CongruentClose(r, m);
  }

  /** `Diff(0, x)` reflects x through 0: it names the direction of -x. */
  lemma DiffFromZeroReflects(x: real)
    ensures Congruent(Diff(0.0, x), -x)
    ensures Norm(Diff(0.0, x)) == Norm(-x)
  {
    NormEqualIff(Diff(0.0, x), -x);
  }

  /** The wrap cases: from 359 to 1 is +2 degrees, from 1 to 359 is -2,
      and half a turn from 0 comes out as 180 in magnitude. */
  lemma DiffAtSeam()
    ensures Diff(1.0, 359.0) == 2.0
    ensures Diff(359.0, 1.0) == -2.0
    ensures Diff(0.0, 180.0) == 180.0 || Diff(0.0, 180.0) == -180.0
  {
    CongruentBy(1.0 - 359.0, 2.0, -1);
    DiffRecoversMove(1.0, 359.0, 2.0);
    CongruentBy(359.0 - 1.0, -2.0, 1);
    DiffRecoversMove(359.0, 1.0, -2.0);
    var r := Diff(0.0, 180.0);
    var k :| r - (0.0 - 180.0) == Turns(k);
    assert -1 <= k <= 1;
  }
}
