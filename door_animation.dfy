/**
 * The folding door's animation driver as a function of its state: four
 * panel angles (degrees) and the three mode flags. One tick runs the
 * opening, closing and folding phases in that order, each active phase
 * stepping every angle toward the phase's target by at most 1.5 degrees,
 * then snapping all four angles to the target once each is within 0.5.
 */
module DoorAnimation {

  const ANIMATION_SPEED: real := 1.5
  const ARRIVAL_TOLERANCE: real := 0.5

  datatype Angles = Angles(p1: real, p2: real, p3: real, p4: real)

  datatype DoorAnim = DoorAnim(angles: Angles, isOpening: bool, isClosing: bool, isFolding: bool)

  datatype Mode = Opening | Closing | Folding

  const OPEN_TARGET: Angles := Angles(90.0, 90.0, 90.0, 90.0)
  const CLOSE_TARGET: Angles := Angles(0.0, 0.0, 0.0, 0.0)
  const FOLD_TARGET: Angles := Angles(0.0, 170.0, -170.0, 170.0)

  function Target(m: Mode): Angles {
    match m
    case Opening => OPEN_TARGET
    case Closing => CLOSE_TARGET
    case Folding => FOLD_TARGET
  }

  function Abs(x: real): real {
    if x < 0.0 then -x else x
  }

  /**
   * One panel's step toward `target`: add or subtract the speed and clamp
   * at the target if that overshoots it.
   */
  function Approach(angle: real, target: real): (r: real)
    ensures Abs(r - angle) <= ANIMATION_SPEED
    ensures angle <= target ==> angle <= r <= target
    ensures target <= angle ==> target <= r <= angle
    ensures angle == target ==> r == angle
    ensures Abs(angle - target) <= ANIMATION_SPEED ==> r == target
    ensures Abs(angle - target) > ANIMATION_SPEED ==> Abs(r - target) == Abs(angle - target) - ANIMATION_SPEED
  {
    if angle < target then
      var a := angle + ANIMATION_SPEED;
      if a > target then target else a
    else if angle > target then
      var a := angle - ANIMATION_SPEED;
      if a < target then target else a
    else
      angle
  }

  function ApproachAll(a: Angles, t: Angles): Angles {
    Angles(Approach(a.p1, t.p1), Approach(a.p2, t.p2), Approach(a.p3, t.p3), Approach(a.p4, t.p4))
  }

  /** The arrival test: every angle within the tolerance of its target. */
  predicate Near(a: Angles, t: Angles) {
    && Abs(a.p1 - t.p1) < ARRIVAL_TOLERANCE
    && Abs(a.p2 - t.p2) < ARRIVAL_TOLERANCE
    && Abs(a.p3 - t.p3) < ARRIVAL_TOLERANCE
    && Abs(a.p4 - t.p4) < ARRIVAL_TOLERANCE
  }

  /** What one phase of a tick produces: the angles, whether the phase stays active, whether anything is to be rebuilt. */
  datatype PhaseResult = PhaseResult(angles: Angles, active: bool, changed: bool)

  /**
   * One phase of `updateAnimation`. `flagArrival` is true for the folding
   * phase only, which also requests a rebuild when it arrives.
   */
  function Phase(a: Angles, target: Angles, active: bool, flagArrival: bool): PhaseResult {
    if !active then PhaseResult(a, false, false)
    else
      var stepped := ApproachAll(a, target);
      var moved := a != target;
      if Near(stepped, target) then PhaseResult(target, false, moved || flagArrival)
      else PhaseResult(stepped, true, moved)
  }

  /** The state after one tick, and whether the geometry is rebuilt. */
  datatype TickResult = TickResult(next: DoorAnim, needsUpdate: bool)

  function Tick(s: DoorAnim): TickResult {
    var o := Phase(s.angles, OPEN_TARGET, s.isOpening, false);
    var c := Phase(o.angles, CLOSE_TARGET, s.isClosing, false);
    var f := Phase(c.angles, FOLD_TARGET, s.isFolding, true);
    TickResult(DoorAnim(f.angles, o.active, c.active, f.active), o.changed || c.changed || f.changed)
  }

  /** `n` consecutive ticks. */
  function Run(s: DoorAnim, n: nat): DoorAnim
    decreases n
  {
    if n == 0 then s else Run(Tick(s).next, n - 1)
  }

  /** The state in which exactly the flag of mode `m` is set. */
  function InMode(a: Angles, m: Mode): DoorAnim {
    DoorAnim(a, m == Opening, m == Closing, m == Folding)
  }

  function Idle(a: Angles): DoorAnim {
    DoorAnim(a, false, false, false)
  }

  /** The least integer not below `x`. */
  function Ceil(x: real): int {
    -((-x).Floor)
  }

  /** Remaining ticks before one angle reaches its target exactly. */
  function StepsLeft(angle: real, target: real): nat {
    if angle == target then 0
    else
      var k := Ceil(Abs(angle - target) / ANIMATION_SPEED);
      if k < 0 then 0 else k
  }

  function Max(x: nat, y: nat): nat {
    if x < y then y else x
  }

  function MaxStepsLeft(a: Angles, t: Angles): nat {
    Max(Max(StepsLeft(a.p1, t.p1), StepsLeft(a.p2, t.p2)),
        Max(StepsLeft(a.p3, t.p3), StepsLeft(a.p4, t.p4)))
  }

  /** A step shortens the remaining ticks of an angle that is not yet at its target. */
  lemma ApproachShortens(angle: real, target: real)
    ensures angle != target ==> StepsLeft(angle, target) >= 1
    ensures angle != target ==> StepsLeft(Approach(angle, target), target) == StepsLeft(angle, target) - 1
    ensures angle == target ==> StepsLeft(Approach(angle, target), target) == 0
  {
    var d := Abs(angle - target);
    if angle != target {
      CeilPositive(d / ANIMATION_SPEED);
      if d > ANIMATION_SPEED {
        var d' := Abs(Approach(angle, target) - target);
        assert d' / ANIMATION_SPEED == d / ANIMATION_SPEED - 1.0;
        CeilMinusOne(d / ANIMATION_SPEED);
        CeilPositive(d' / ANIMATION_SPEED);
      } else {
        assert Ceil(d / ANIMATION_SPEED) == 1;
      }
    }
  }

  lemma CeilPositive(x: real)
    requires x > 0.0
    ensures Ceil(x) >= 1
  {
  }

  lemma CeilMinusOne(x: real)
    ensures Ceil(x - 1.0) == Ceil(x) - 1
  {
    assert (-(x - 1.0)).Floor == (-x).Floor + 1 by {
      assert -(x - 1.0) == -x + 1.0;
    }
  }

  lemma ApproachAllShortens(a: Angles, t: Angles)
    ensures MaxStepsLeft(ApproachAll(a, t), t) == if MaxStepsLeft(a, t) == 0 then 0 else MaxStepsLeft(a, t) - 1
  {
    ApproachShortens(a.p1, t.p1);
    ApproachShortens(a.p2, t.p2);
    ApproachShortens(a.p3, t.p3);
    ApproachShortens(a.p4, t.p4);
  }

  /** No step is left exactly when every angle is on target. */
  lemma NoStepsLeftIsTarget(a: Angles, t: Angles)
    ensures MaxStepsLeft(a, t) == 0 <==> a == t
  {
    ApproachShortens(a.p1, t.p1);
    ApproachShortens(a.p2, t.p2);
    ApproachShortens(a.p3, t.p3);
    ApproachShortens(a.p4, t.p4);
  }

  /** A tick in a single mode is that mode's phase and nothing else. */
  lemma TickInMode(a: Angles, m: Mode)
    ensures var p := Phase(a, Target(m), true, m == Folding);
            Tick(InMode(a, m)).next == if p.active then InMode(p.angles, m) else Idle(p.angles)
  {
  }

  /** Ticks leave an idle door alone. */
  lemma {:induction false} IdleIsFixed(a: Angles, n: nat)
    ensures Run(Idle(a), n) == Idle(a)
    decreases n
  {
    if n > 0 {
      assert Tick(Idle(a)).next == Idle(a);
      IdleIsFixed(a, n - 1);
    }
  }

  /**
   * Convergence: from any four real angles, ticking in one mode more times
   * than the slowest angle needs ends the mode, with the flag cleared and
   * the angles exactly at the mode's targets.
   */
  lemma {:induction false} ModeConverges(a: Angles, m: Mode, n: nat)
    requires n >= 1 && n >= MaxStepsLeft(a, Target(m))
    ensures Run(InMode(a, m), n) == Idle(Target(m))
    decreases n
  {
    var t := Target(m);
    var p := Phase(a, t, true, m == Folding);
    TickInMode(a, m);
    ApproachAllShortens(a, t);
    NoStepsLeftIsTarget(ApproachAll(a, t), t);
    if p.active {
      assert ApproachAll(a, t) != t;
      ModeConverges(p.angles, m, n - 1);
    } else {
      IdleIsFixed(t, n - 1);
    }
  }

  /** The three scenarios of the door's command buttons. */
  lemma OpeningEndsAtNinety(a: Angles, n: nat)
    requires n >= 1 && n >= MaxStepsLeft(a, OPEN_TARGET)
    ensures Run(DoorAnim(a, true, false, false), n) == DoorAnim(Angles(90.0, 90.0, 90.0, 90.0), false, false, false)
  {
    ModeConverges(a, Opening, n);
  }

  lemma ClosingEndsAtZero(a: Angles, n: nat)
    requires n >= 1 && n >= MaxStepsLeft(a, CLOSE_TARGET)
    ensures Run(DoorAnim(a, false, true, false), n) == DoorAnim(Angles(0.0, 0.0, 0.0, 0.0), false, false, false)
  {
    ModeConverges(a, Closing, n);
  }

  lemma FoldingEndsFolded(a: Angles, n: nat)
    requires n >= 1 && n >= MaxStepsLeft(a, FOLD_TARGET)
    ensures Run(DoorAnim(a, false, false, true), n) == DoorAnim(Angles(0.0, 170.0, -170.0, 170.0), false, false, false)
  {
    ModeConverges(a, Folding, n);
  }

  /** From rest, sixty ticks open the door exactly to 90 degrees. */
  lemma OpeningFromRestInSixtyTicks()
    ensures Run(InMode(CLOSE_TARGET, Opening), 60) == Idle(OPEN_TARGET)
  {
    assert StepsLeft(0.0, 90.0) == 60;
    ModeConverges(CLOSE_TARGET, Opening, 60);
  }

  /** A fold begun with panel 1 at 0 keeps panel 1 at 0 on every tick. */
  lemma {:induction false} FoldKeepsFirstPanel(a: Angles, n: nat)
    requires a.p1 == 0.0
    ensures Run(InMode(a, Folding), n).angles.p1 == 0.0
    decreases n
  {
    if n > 0 {
      var p := Phase(a, FOLD_TARGET, true, true);
      TickInMode(a, Folding);
      if p.active {
        FoldKeepsFirstPanel(p.angles, n - 1);
      } else {
        IdleIsFixed(p.angles, n - 1);
      }
    }
  }

  /**
   * The rebuild flag is never missed: a tick that changes any angle also
   * asks for the geometry to be rebuilt. (A folding tick can ask for a
   * rebuild without moving: on arrival it always does.)
   */
  lemma MotionRequestsRebuild(s: DoorAnim)
    ensures Tick(s).next.angles != s.angles ==> Tick(s).needsUpdate
  {
    var o := Phase(s.angles, OPEN_TARGET, s.isOpening, false);
    var c := Phase(o.angles, CLOSE_TARGET, s.isClosing, false);
    var f := Phase(c.angles, FOLD_TARGET, s.isFolding, true);
    PhaseMovesOnlyWhenChanged(s.angles, OPEN_TARGET, s.isOpening, false);
    PhaseMovesOnlyWhenChanged(o.angles, CLOSE_TARGET, s.isClosing, false);
    PhaseMovesOnlyWhenChanged(c.angles, FOLD_TARGET, s.isFolding, true);
  }

  /** A phase that reports no change leaves the angles where they were. */
  lemma PhaseMovesOnlyWhenChanged(a: Angles, target: Angles, active: bool, flagArrival: bool)
    ensures !Phase(a, target, active, flagArrival).changed ==> Phase(a, target, active, flagArrival).angles == a
  {
  }
}
