/**
 * The floor socket's animation driver as a function of its state: the
 * cover angle (degrees, 0 = closed flat, 85 = fully raised) and the two
 * flags `isOpening` and `isClosing`. One tick runs the opening phase, then
 * the closing phase on the angle the opening phase left, each moving the
 * cover 2.5 degrees and stopping exactly at its limit. Also here: the
 * auto-rotation step, an angle advanced by 2 and taken modulo 360 with
 * JavaScript's `%`.
 */
module SocketAnimation {

  const OPEN_SPEED: real := 2.5
  const COVER_MAX_ANGLE: real := 85.0
  const ROTATION_SPEED: real := 2.0

  datatype Cover = Cover(angle: real, isOpening: bool, isClosing: bool)

  /** What one phase or one tick produces, and whether the geometry is rebuilt. */
  datatype CoverStep = CoverStep(next: Cover, needsUpdate: bool)

  /** The states the commands and the slider can reach: the angle within its limits, never both flags set. */
  predicate Reachable(c: Cover) {
    0.0 <= c.angle <= COVER_MAX_ANGLE && !(c.isOpening && c.isClosing)
  }

  /** The opening phase: below the maximum, raise by the speed and stop at the maximum. */
  function OpenPhase(c: Cover): CoverStep {
    if c.isOpening && c.angle < COVER_MAX_ANGLE then
      var a := c.angle + OPEN_SPEED;
      if a >= COVER_MAX_ANGLE then CoverStep(c.(angle := COVER_MAX_ANGLE, isOpening := false), true)
      else CoverStep(c.(angle := a), true)
    else CoverStep(c, false)
  }

  /** The closing phase: above 0, lower by the speed and stop at 0. */
  function ClosePhase(c: Cover): CoverStep {
    if c.isClosing && c.angle > 0.0 then
      var a := c.angle - OPEN_SPEED;
      if a <= 0.0 then CoverStep(c.(angle := 0.0, isClosing := false), true)
      else CoverStep(c.(angle := a), true)
    else CoverStep(c, false)
  }

  /**
   * The cover half of `updateAnimation`. A tick that requests no rebuild
   * changes nothing; one that does moves the angle by at most the speed
   * (both phases can run only when both flags are set, and then they
   * cancel out).
   */
  function CoverTick(c: Cover): (r: CoverStep)
    ensures !r.needsUpdate ==> r.next == c
    ensures -OPEN_SPEED <= r.next.angle - c.angle <= OPEN_SPEED
    ensures r.next.isOpening ==> c.isOpening
    ensures r.next.isClosing ==> c.isClosing
  {
    var o := OpenPhase(c);
    var k := ClosePhase(o.next);
    CoverStep(k.next, o.needsUpdate || k.needsUpdate)
  }

  /** `n` consecutive ticks. */
  function CoverRun(c: Cover, n: nat): Cover
    decreases n
  {
    if n == 0 then c else CoverRun(CoverTick(c).next, n - 1)
  }

  /** A tick keeps the angle within [0, 85] and never sets both flags. */
  lemma TickStaysReachable(c: Cover)
    requires Reachable(c)
    ensures Reachable(CoverTick(c).next)
  {
  }

  /**
   * An opening tick below the maximum adds 2.5 degrees, or stops at 85 and
   * clears `isOpening`; either way it requests a rebuild.
   */
  lemma OpeningTick(c: Cover)
    requires Reachable(c) && c.isOpening && c.angle < COVER_MAX_ANGLE
    ensures CoverTick(c).needsUpdate
    ensures c.angle + OPEN_SPEED >= COVER_MAX_ANGLE ==> CoverTick(c).next == Cover(COVER_MAX_ANGLE, false, false)
    ensures c.angle + OPEN_SPEED < COVER_MAX_ANGLE ==> CoverTick(c).next == Cover(c.angle + OPEN_SPEED, true, false)
  {
  }

  /**
   * A closing tick above 0 subtracts 2.5 degrees, or stops at 0 and clears
   * `isClosing`; either way it requests a rebuild.
   */
  lemma ClosingTick(c: Cover)
    requires Reachable(c) && c.isClosing && c.angle > 0.0
    ensures CoverTick(c).needsUpdate
    ensures c.angle - OPEN_SPEED <= 0.0 ==> CoverTick(c).next == Cover(0.0, false, false)
    ensures c.angle - OPEN_SPEED > 0.0 ==> CoverTick(c).next == Cover(c.angle - OPEN_SPEED, false, true)
  {
  }

  /**
   * Opening a cover already at 85 (or closing one already at 0) does
   * nothing at all: the flag is not cleared, since only a moving phase
   * clears it.
   */
  lemma FlagStaysAtLimit(c: Cover)
    requires Reachable(c)
    requires (c.isOpening && c.angle == COVER_MAX_ANGLE) || (c.isClosing && c.angle == 0.0)
    ensures CoverTick(c) == CoverStep(c, false)
  {
  }

  /** With neither flag set, the cover stays where it is. */
  lemma {:induction false} IdleStays(angle: real, n: nat)
    ensures CoverRun(Cover(angle, false, false), n) == Cover(angle, false, false)
  {
    if n > 0 {
      IdleStays(angle, n - 1);
    }
  }

  /**
   * Opening from any reachable angle ends at exactly 85 once 2.5 times the
   * number of ticks covers the distance; `isOpening` is then clear, unless
   * the cover was at 85 already.
   */
  lemma {:induction false} OpeningReachesMax(angle: real, n: nat)
    requires 0.0 <= angle <= COVER_MAX_ANGLE
    requires angle + OPEN_SPEED * n as real >= COVER_MAX_ANGLE
    ensures CoverRun(Cover(angle, true, false), n) == Cover(COVER_MAX_ANGLE, angle == COVER_MAX_ANGLE, false)
    decreases n
  {
    var c := Cover(angle, true, false);
    if n > 0 {
      if angle == COVER_MAX_ANGLE {
        FlagStaysAtLimit(c);
        OpeningReachesMax(angle, n - 1);
      } else if angle + OPEN_SPEED >= COVER_MAX_ANGLE {
        OpeningTick(c);
        IdleStays(COVER_MAX_ANGLE, n - 1);
      } else {
        OpeningTick(c);
        OpeningReachesMax(angle + OPEN_SPEED, n - 1);
      }
    }
  }

  /**
   * Closing from any reachable angle ends at exactly 0 once 2.5 times the
   * number of ticks covers the distance; `isClosing` is then clear, unless
   * the cover was at 0 already.
   */
  lemma {:induction false} ClosingReachesZero(angle: real, n: nat)
    requires 0.0 <= angle <= COVER_MAX_ANGLE
    requires angle - OPEN_SPEED * n as real <= 0.0
    ensures CoverRun(Cover(angle, false, true), n) == Cover(0.0, false, angle == 0.0)
    decreases n
  {
    var c := Cover(angle, false, true);
    if n > 0 {
      if angle == 0.0 {
        FlagStaysAtLimit(c);
        ClosingReachesZero(angle, n - 1);
      } else if angle - OPEN_SPEED <= 0.0 {
        ClosingTick(c);
        IdleStays(0.0, n - 1);
      } else {
        ClosingTick(c);
        ClosingReachesZero(angle - OPEN_SPEED, n - 1);
      }
    }
  }

  /** Opening a closed cover takes 34 ticks: 85 / 2.5. */
  lemma OpeningFromClosedInThirtyFourTicks()
    ensures CoverRun(Cover(0.0, true, false), 34) == Cover(COVER_MAX_ANGLE, false, false)
  {
    OpeningReachesMax(0.0, 34);
  }

  // ---------------------------------------------------------------------
  // The auto-rotation counter

  /** The integer part of `x`, rounding toward zero. */
  function Trunc(x: real): int {
    if x >= 0.0 then x.Floor else -((-x).Floor)
  }

  /**
   * JavaScript's `a % m` on numbers: the remainder after the quotient
   * truncated toward zero, so it has the sign of `a`.
   */
  function JsRem(a: real, m: real): (r: real)
    requires m > 0.0
    ensures 0.0 <= a ==> 0.0 <= r < m
    ensures a < 0.0 ==> -m < r <= 0.0
    ensures 0.0 <= a < m ==> r == a
  {
    var q := Trunc(a / m);
    QuotientBounds(a, m);
    a - m * q as real
  }

  /** The truncated quotient of `a` by `m` leaves a remainder smaller than `m` with the sign of `a`. */
  lemma QuotientBounds(a: real, m: real)
    requires m > 0.0
    ensures var r := a - m * Trunc(a / m) as real;
            && (0.0 <= a ==> 0.0 <= r < m)
            && (a < 0.0 ==> -m < r <= 0.0)
            && (0.0 <= a < m ==> r == a)
  {
    var x := a / m;
    var q := Trunc(x) as real;
    DivideByPositive(a, m);
    FractionFacts(a, m, x);
    if x >= 0.0 {
      TruncBelow(x);
      RemainderOfFraction(a, m, x, q);
    } else {
      TruncAbove(x);
      RemainderOfFraction(-a, m, -x, -q);
    }
  }

  lemma DivideByPositive(a: real, m: real)
    requires m > 0.0
    ensures m * (a / m) == a
  {
  }

  /** For a = m * x with m positive: a and x have the same sign, and a below m means x below 1. */
  lemma FractionFacts(a: real, m: real, x: real)
    requires m > 0.0 && a == m * x
    ensures 0.0 <= a <==> 0.0 <= x
    ensures a < m ==> x < 1.0
  {
  }

  lemma TruncBelow(x: real)
    requires x >= 0.0
    ensures 0.0 <= x - Trunc(x) as real < 1.0
    ensures x < 1.0 ==> Trunc(x) == 0
  {
  }

  lemma TruncAbove(x: real)
    requires x < 0.0
    ensures 0.0 <= Trunc(x) as real - x < 1.0
  {
  }

  /** When a = m * x and q is x less a fraction in [0, 1), the remainder a - m * q lies in [0, m). */
  lemma RemainderOfFraction(a: real, m: real, x: real, q: real)
    requires m > 0.0 && a == m * x && 0.0 <= x - q < 1.0
    ensures 0.0 <= a - m * q
    ensures a - m * q < m
  {
    var t := x - q;
    ScaleWithinUnit(m, t);
    assert m * t == m * x - m * q;
    assert m * t == a - m * q;
  }

  /** Scaling a fraction in [0, 1) by a positive `m` stays in [0, m). */
  lemma ScaleWithinUnit(m: real, t: real)
    requires m > 0.0 && 0.0 <= t < 1.0
    ensures 0.0 <= m * t
    ensures m * t < m
  {
    assert m * t < m * 1.0;
  }

  /** One auto-rotation step of the active axis. */
  function RotationStep(a: real): real {
    JsRem(a + ROTATION_SPEED, 360.0)
  }

  /**
   * From an angle in [0, 360) a step adds 2 degrees and wraps past 360,
   * landing again in [0, 360).
   */
  lemma RotationStepWraps(a: real)
    requires 0.0 <= a < 360.0
    ensures 0.0 <= RotationStep(a) < 360.0
    ensures a + ROTATION_SPEED < 360.0 ==> RotationStep(a) == a + ROTATION_SPEED
    ensures a + ROTATION_SPEED >= 360.0 ==> RotationStep(a) == a + ROTATION_SPEED - 360.0
  {
    var b := a + ROTATION_SPEED;
    if b >= 360.0 {
      var x := b / 360.0;
      assert b == 360.0 * x;
      assert 1.0 <= x < 2.0;
      assert Trunc(x) == 1;
    }
  }

  /** A negative angle (the rotation sliders allow them) steps toward 0 and stays above -360. */
  lemma RotationStepNegative(a: real)
    requires -360.0 < a < -ROTATION_SPEED
    ensures RotationStep(a) == a + ROTATION_SPEED
  {
    var b := a + ROTATION_SPEED;
    var x := b / 360.0;
    assert b == 360.0 * x;
    assert -1.0 < x < 0.0;
    assert Trunc(x) == 0;
  }
}
