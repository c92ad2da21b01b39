/**
 * The folding door's hinge chain, as `createFoldingDoors` builds it: panel 1
 * hangs from a fixed wall point and turns about its left edge; each later
 * panel starts one panel width plus the gap along its predecessor and turns
 * about its own left edge; the hinge between two panels sits on the right
 * edge of the first of them. Angles are given as (cos, sin) pairs, and
 * the products are taken with the library's `mult`; the lemmas hold when
 * that is the exact matrix product.
 */
module DoorChain {
  import opened Algebra

  const DOOR_WIDTH: real := 0.8
  const DOOR_HEIGHT: real := 2.8
  const PANEL_GAP: real := 0.02

  /** The wall point panel 1 hangs from: `mult(mat4(), translate(-2, DOOR_HEIGHT / 2, 0))`. */
  function WallAnchor(lib: MathLib): Mat4 {
    lib.mult(Identity(), Translate(-2.0, DOOR_HEIGHT / 2.0, 0.0))
  }

  /** Translation from one panel's pivot to the next panel's pivot. */
  function Link(): Mat4 {
    Translate(DOOR_WIDTH + PANEL_GAP, 0.0, 0.0)
  }

  /** Panel 1's transform for its rotation `rot`. */
  function FirstPanel(lib: MathLib, rot: CosSin): Mat4 {
    lib.mult(WallAnchor(lib), RotateY(rot))
  }

  /** The transform of the panel after the one placed by `prev`, for its rotation `rot`. */
  function NextPanel(lib: MathLib, prev: Mat4, rot: CosSin): Mat4 {
    lib.mult(lib.mult(prev, Link()), RotateY(rot))
  }

  /** The transform of the hinge on the right edge of the panel placed by `panel`. */
  function HingeAt(lib: MathLib, panel: Mat4): Mat4 {
    lib.mult(panel, Translate(DOOR_WIDTH, 0.0, 0.0))
  }

  /** The seven transforms of the scene: four panels and the three hinges between them. */
  datatype Placement = Placement(
    panel1: Mat4, panel2: Mat4, panel3: Mat4, panel4: Mat4,
    hinge12: Mat4, hinge23: Mat4, hinge34: Mat4)

  /** `transform1` .. `transform4` and `hinge12Transform` .. `hinge34Transform` for the four rotations. */
  function Place(lib: MathLib, r1: CosSin, r2: CosSin, r3: CosSin, r4: CosSin): Placement {
    var t1 := FirstPanel(lib, r1);
    var t2 := NextPanel(lib, t1, r2);
    var t3 := NextPanel(lib, t2, r3);
    var t4 := NextPanel(lib, t3, r4);
    Placement(t1, t2, t3, t4, HingeAt(lib, t1), HingeAt(lib, t2), HingeAt(lib, t3))
  }

  /** A rotation about the y axis keeps the local origin where it is. */
  lemma RotateYFixesOrigin(t: CosSin)
    ensures Apply(RotateY(t), Origin) == Origin
  {
  }

  /** The wall anchor takes the local origin to the wall point (-2, DOOR_HEIGHT / 2, 0). */
  lemma WallAnchorAt(lib: MathLib)
    requires MultIsProduct(lib)
    ensures Apply(WallAnchor(lib), Origin) == Point(-2.0, DOOR_HEIGHT / 2.0, 0.0)
  {
    assert WallAnchor(lib) == Mul(Identity(), Translate(-2.0, DOOR_HEIGHT / 2.0, 0.0));
  }

  /** Whatever its angle, panel 1's pivot (local origin) stays at the wall point. */
  lemma FirstPanelPivotsOnWall(lib: MathLib, rot: CosSin)
    requires MultIsProduct(lib)
    ensures Apply(FirstPanel(lib, rot), Origin) == Point(-2.0, DOOR_HEIGHT / 2.0, 0.0)
  {
    assert FirstPanel(lib, rot) == Mul(WallAnchor(lib), RotateY(rot));
    ApplyMul(WallAnchor(lib), RotateY(rot), Origin);
    RotateYFixesOrigin(rot);
    WallAnchorAt(lib);
  }

  /**
   * Whatever the next panel's angle, its pivot lands where the previous
   * panel's transform puts the point one panel width plus the gap along
   * x: the panels stay connected.
   */
  lemma PivotOnPreviousPanel(lib: MathLib, prev: Mat4, rot: CosSin)
    requires MultIsProduct(lib)
    ensures Apply(NextPanel(lib, prev, rot), Origin) == Apply(prev, Point(DOOR_WIDTH + PANEL_GAP, 0.0, 0.0))
  {
    var m := Mul(prev, Link());
    assert NextPanel(lib, prev, rot) == Mul(m, RotateY(rot));
    ApplyMul(m, RotateY(rot), Origin);
    RotateYFixesOrigin(rot);
    ApplyMul(prev, Link(), Origin);
  }

  /** A hinge sits on the right edge (x = DOOR_WIDTH) of its panel. */
  lemma HingeOnRightEdge(lib: MathLib, panel: Mat4)
    requires MultIsProduct(lib)
    ensures Apply(HingeAt(lib, panel), Origin) == Apply(panel, Point(DOOR_WIDTH, 0.0, 0.0))
  {
    assert HingeAt(lib, panel) == Mul(panel, Translate(DOOR_WIDTH, 0.0, 0.0));
    ApplyMul(panel, Translate(DOOR_WIDTH, 0.0, 0.0), Origin);
  }

  /**
   * Hinge normals are transformed exactly as the normals of the panel they
   * belong to: the extra translation never reaches a normal.
   */
  lemma HingeNormalsFollowPanel(lib: MathLib, panel: Mat4, n: Vec3)
    requires MultIsProduct(lib)
    ensures ApplyUpper3(HingeAt(lib, panel), n) == ApplyUpper3(panel, n)
  {
    assert HingeAt(lib, panel) == Mul(panel, Translate(DOOR_WIDTH, 0.0, 0.0));
    MulTranslateLinearPart(panel, DOOR_WIDTH, 0.0, 0.0);
    ApplyUpper3OnlyLinear(HingeAt(lib, panel), panel, n);
  }

  /**
   * In the whole chain every panel after the first pivots on its
   * predecessor, one panel width plus the gap from the predecessor's pivot,
   * and every hinge sits on the right edge of the panel before it.
   */
  lemma ChainStaysConnected(lib: MathLib, r1: CosSin, r2: CosSin, r3: CosSin, r4: CosSin)
    requires MultIsProduct(lib)
    ensures var p := Place(lib, r1, r2, r3, r4);
            var next := Point(DOOR_WIDTH + PANEL_GAP, 0.0, 0.0);
            var edge := Point(DOOR_WIDTH, 0.0, 0.0);
            && Apply(p.panel1, Origin) == Point(-2.0, DOOR_HEIGHT / 2.0, 0.0)
            && Apply(p.panel2, Origin) == Apply(p.panel1, next)
            && Apply(p.panel3, Origin) == Apply(p.panel2, next)
            && Apply(p.panel4, Origin) == Apply(p.panel3, next)
            && Apply(p.hinge12, Origin) == Apply(p.panel1, edge)
            && Apply(p.hinge23, Origin) == Apply(p.panel2, edge)
            && Apply(p.hinge34, Origin) == Apply(p.panel3, edge)
  {
    var p := Place(lib, r1, r2, r3, r4);
    FirstPanelPivotsOnWall(lib, r1);
    PivotOnPreviousPanel(lib, p.panel1, r2);
    PivotOnPreviousPanel(lib, p.panel2, r3);
    PivotOnPreviousPanel(lib, p.panel3, r4);
    HingeOnRightEdge(lib, p.panel1);
    HingeOnRightEdge(lib, p.panel2);
    HingeOnRightEdge(lib, p.panel3);
  }

  /**
   * Each transform depends only on the angles of its own panel and the
   * panels before it: changing the later angles leaves it alone. In
   * particular the hinge after panel k ignores the angle of panel k + 1.
   */
  lemma ChainDependsOnlyOnEarlierAngles(lib: MathLib, r1: CosSin, r2: CosSin, r3: CosSin, r4: CosSin,
                                        s2: CosSin, s3: CosSin, s4: CosSin)
    ensures var p := Place(lib, r1, r2, r3, r4);
            && p.panel1 == Place(lib, r1, s2, s3, s4).panel1
            && p.hinge12 == Place(lib, r1, s2, s3, s4).hinge12
            && p.panel2 == Place(lib, r1, r2, s3, s4).panel2
            && p.hinge23 == Place(lib, r1, r2, s3, s4).hinge23
            && p.panel3 == Place(lib, r1, r2, r3, s4).panel3
            && p.hinge34 == Place(lib, r1, r2, r3, s4).hinge34
  {
  }
}
