/**
 * The folding-door scene: four panels on a serial hinge chain, two hinges
 * between each pair of neighbouring panels and two legs under every panel.
 * `createFoldingDoors` rebuilds the vertex, normal, colour and texture
 * arrays from the four panel angles; `updateBuffers` adds the quad indices;
 * the command buttons, the sliders, the camera and the per-frame animation
 * step change the state.
 *
 * The first half gives the local geometry of each part and of the whole
 * scene as functions; the class `FoldingDoors` holds the state and its
 * methods are proved to produce exactly that geometry.
 */
module DoorScene {
  import opened Algebra
  import opened DoorChain
  import opened DoorParts
  import opened Buffers
  import opened DoorAnimation
  import opened QuadIndexing

  const DOOR_THICKNESS: real := 0.05
  const FRAME_WIDTH: real := 0.08
  const HINGE_RADIUS: real := 0.06
  const HINGE_HEIGHT: real := 0.18
  const LEG_RADIUS: real := 0.04
  const LEG_HEIGHT: real := 0.18
  const HINGE_SEGMENTS: nat := 12
  const LEG_SEGMENTS: nat := 16

  /** The heights of the two hinges of a pair: 2/5 and 4/5 up the door. */
  const HINGE_Y1: real := -DOOR_HEIGHT / 2.0 + (2.0 / 5.0) * DOOR_HEIGHT
  const HINGE_Y2: real := -DOOR_HEIGHT / 2.0 + (4.0 / 5.0) * DOOR_HEIGHT
  /** The legs of a panel, near its left and its right edge, hanging from the door's bottom. */
  const LEG_X1: real := 0.1
  const LEG_X2: real := DOOR_WIDTH - 0.1
  const LEG_TOP: real := -DOOR_HEIGHT / 2.0

  const PANEL_COLOR: Rgba := Rgba(0.55, 0.35, 0.2, 1.0)
  const CREAM_TRIM: Rgba := Rgba(0.98, 0.94, 0.85, 1.0)
  const CREAM: Rgba := Rgba(0.85, 0.75, 0.60, 1.0)
  const DARK_BROWN: Rgba := Rgba(0.35, 0.25, 0.15, 1.0)

  const PANEL_VERTICES: nat := 1424
  const HINGE_VERTICES: nat := 48
  const LEG_VERTICES: nat := 128
  const SCENE_VERTICES: nat := 7008
  const SCENE_QUADS: nat := 1752

  // ---------------------------------------------------------------------
  // Local geometry of the parts

  /** The panel's frame sizes, derived from the frame width as createDoorPanel derives them. */
  const FRAME_RADIUS: real := FRAME_WIDTH / 2.0
  const BAR_GAP: real := FRAME_RADIUS * 1.8
  const BAR_RADIUS: real := FRAME_RADIUS * 0.65
  const SECTION_WIDTH: real := DOOR_WIDTH / 3.0
  const TOP_HEIGHT: real := DOOR_HEIGHT / 2.0 - (BAR_GAP / 2.0 + BAR_RADIUS)
  const TOP_START: real := BAR_GAP / 2.0 + BAR_RADIUS
  const BOTTOM_HEIGHT: real := (-BAR_GAP / 2.0 - BAR_RADIUS) - (-DOOR_HEIGHT / 2.0)
  const BOTTOM_START: real := -DOOR_HEIGHT / 2.0

  /** A door panel is built from 14 pieces: 8 frame cylinders, then 6 fills. */
  const PANEL_PIECES: nat := 14

  function PieceSize(j: nat): nat {
    if j < 8 then CYLINDER_VERTICES else BOX_VERTICES
  }

  function PieceOffset(k: nat): nat {
    if k == 0 then 0 else PieceOffset(k - 1) + PieceSize(k - 1)
  }

  /**
   * Piece j of a door panel (createDoorPanel): two bottom bars, two top
   * bars, the two side posts, two middle bars, then three fills above and
   * three below the middle bars.
   */
  function PanelPiece(lib: MathLib, j: nat): (s: seq<Vec4>)
    requires j < PANEL_PIECES
    ensures |s| == PieceSize(j)
  {
    var w, h := DOOR_WIDTH, DOOR_HEIGHT;
    var fillThickness := DOOR_THICKNESS * 0.8;
    match j
    case 0 => CylinderVertices(0.0, -h / 2.0 + BAR_GAP / 2.0, w, BAR_RADIUS, true, lib)
    case 1 => CylinderVertices(0.0, -h / 2.0 - BAR_GAP / 2.0, w, BAR_RADIUS, true, lib)
    case 2 => CylinderVertices(0.0, h / 2.0 + BAR_GAP / 2.0, w, BAR_RADIUS, true, lib)
    case 3 => CylinderVertices(0.0, h / 2.0 - BAR_GAP / 2.0, w, BAR_RADIUS, true, lib)
    case 4 => CylinderVertices(0.0, -h / 2.0, h, FRAME_RADIUS, false, lib)
    case 5 => CylinderVertices(w, -h / 2.0, h, FRAME_RADIUS, false, lib)
    case 6 => CylinderVertices(0.0, BAR_GAP / 2.0, w, BAR_RADIUS, true, lib)
    case 7 => CylinderVertices(0.0, -BAR_GAP / 2.0, w, BAR_RADIUS, true, lib)
    case 8 => BoxVertices(0.0, TOP_START, SECTION_WIDTH, TOP_HEIGHT, fillThickness)
    case 9 => BoxVertices(SECTION_WIDTH, TOP_START, SECTION_WIDTH, TOP_HEIGHT, fillThickness)
    case 10 => BoxVertices(2.0 * SECTION_WIDTH, TOP_START, SECTION_WIDTH, TOP_HEIGHT, fillThickness)
    case 11 => BoxVertices(0.0, BOTTOM_START, SECTION_WIDTH, BOTTOM_HEIGHT, fillThickness)
    case 12 => BoxVertices(SECTION_WIDTH, BOTTOM_START, SECTION_WIDTH, BOTTOM_HEIGHT, fillThickness)
    case _ => BoxVertices(2.0 * SECTION_WIDTH, BOTTOM_START, SECTION_WIDTH, BOTTOM_HEIGHT, fillThickness)
  }

  /** The normals of piece j: horizontal bars, then the two posts, then the middle bars, then the fills. */
  function PanelPieceNormals(lib: MathLib, j: nat): (s: seq<Vec3>)
    ensures |s| == PieceSize(j)
  {
    if j < 8 then CylinderNormals(j != 4 && j != 5, lib) else BoxNormals()
  }

  /** The colours of piece j: the frame in `frameColor`; the fills cream, dark brown, cream, above and below. */
  function PanelPieceColors(frameColor: Rgba, j: nat): (s: seq<Rgba>)
    ensures |s| == PieceSize(j)
  {
    if j < 8 then Copies(frameColor, CYLINDER_VERTICES)
    else if j == 9 || j == 12 then Copies(DARK_BROWN, BOX_VERTICES)
    else Copies(CREAM, BOX_VERTICES)
  }

  /** The first k pieces of a panel. */
  function PanelPieces(lib: MathLib, k: nat): (s: seq<Vec4>)
    requires k <= PANEL_PIECES
    ensures |s| == PieceOffset(k)
  {
    if k == 0 then [] else PanelPieces(lib, k - 1) + PanelPiece(lib, k - 1)
  }

  function PanelPiecesNormals(lib: MathLib, k: nat): (s: seq<Vec3>)
    ensures |s| == PieceOffset(k)
  {
    if k == 0 then [] else PanelPiecesNormals(lib, k - 1) + PanelPieceNormals(lib, k - 1)
  }

  function PanelPiecesColors(frameColor: Rgba, k: nat): (s: seq<Rgba>)
    ensures |s| == PieceOffset(k)
  {
    if k == 0 then [] else PanelPiecesColors(frameColor, k - 1) + PanelPieceColors(frameColor, k - 1)
  }

  /** Everything a door panel holds before it is placed: its 14 pieces in build order. */
  function PanelVertices(lib: MathLib): (s: seq<Vec4>)
    ensures |s| == PANEL_VERTICES
  {
    PanelPieces(lib, PANEL_PIECES)
  }

  function PanelNormals(lib: MathLib): (s: seq<Vec3>)
    ensures |s| == PANEL_VERTICES
  {
    PanelPiecesNormals(lib, PANEL_PIECES)
  }

  function PanelColors(frameColor: Rgba): (s: seq<Rgba>)
    ensures |s| == PANEL_VERTICES
  {
    PanelPiecesColors(frameColor, PANEL_PIECES)
  }

  /** Side quad i of a hinge: an upright strip of the cylinder of radius 0.06 and height 0.18 centred at yPos. */
  function HingeQuad(lib: MathLib, yPos: real, i: nat): seq<Vec4> {
    var c1 := lib.circle(i, HINGE_SEGMENTS);
    var c2 := lib.circle(i + 1, HINGE_SEGMENTS);
    var x1, z1 := HINGE_RADIUS * c1.cos, HINGE_RADIUS * c1.sin;
    var x2, z2 := HINGE_RADIUS * c2.cos, HINGE_RADIUS * c2.sin;
    [Point(x1, yPos - HINGE_HEIGHT / 2.0, z1), Point(x2, yPos - HINGE_HEIGHT / 2.0, z2),
     Point(x2, yPos + HINGE_HEIGHT / 2.0, z2), Point(x1, yPos + HINGE_HEIGHT / 2.0, z1)]
  }

  function HingeNormal(lib: MathLib, i: nat): Vec3 {
    var c1 := lib.circle(i, HINGE_SEGMENTS);
    var c2 := lib.circle(i + 1, HINGE_SEGMENTS);
    var x1, z1 := HINGE_RADIUS * c1.cos, HINGE_RADIUS * c1.sin;
    var x2, z2 := HINGE_RADIUS * c2.cos, HINGE_RADIUS * c2.sin;
    lib.normalize(Vec3((x1 + x2) / 2.0, 0.0, (z1 + z2) / 2.0))
  }

  function HingeSides(lib: MathLib, yPos: real, n: nat): (s: seq<Vec4>)
    ensures |s| == 4 * n
  {
    if n == 0 then [] else HingeSides(lib, yPos, n - 1) + HingeQuad(lib, yPos, n - 1)
  }

  function HingeSideNormals(lib: MathLib, n: nat): (s: seq<Vec3>)
    ensures |s| == 4 * n
  {
    if n == 0 then [] else HingeSideNormals(lib, n - 1) + Copies(HingeNormal(lib, n - 1), 4)
  }

  /** Side quad i of a leg: a strip of the cylinder of radius 0.04 hanging 0.18 below the door at xPos. */
  function LegQuad(lib: MathLib, xPos: real, i: nat): seq<Vec4> {
    var c1 := lib.circle(i, LEG_SEGMENTS);
    var c2 := lib.circle(i + 1, LEG_SEGMENTS);
    var x1, z1 := LEG_RADIUS * c1.cos, LEG_RADIUS * c1.sin;
    var x2, z2 := LEG_RADIUS * c2.cos, LEG_RADIUS * c2.sin;
    [Point(xPos + x1, LEG_TOP, z1), Point(xPos + x2, LEG_TOP, z2),
     Point(xPos + x2, LEG_TOP - LEG_HEIGHT, z2), Point(xPos + x1, LEG_TOP - LEG_HEIGHT, z1)]
  }

  function LegNormal(lib: MathLib, i: nat): Vec3 {
    var c1 := lib.circle(i, LEG_SEGMENTS);
    var c2 := lib.circle(i + 1, LEG_SEGMENTS);
    var x1, z1 := LEG_RADIUS * c1.cos, LEG_RADIUS * c1.sin;
    var x2, z2 := LEG_RADIUS * c2.cos, LEG_RADIUS * c2.sin;
    lib.normalize(Vec3((x1 + x2) / 2.0, 0.0, (z1 + z2) / 2.0))
  }

  /** The centre of a leg's bottom cap. */
  function LegFoot(xPos: real): Vec4 {
    Point(xPos, LEG_TOP - LEG_HEIGHT, 0.0)
  }

  /** Bottom-cap piece i of a leg: a triangle written as a quad whose first and last corners are both the centre. */
  function LegCapQuad(lib: MathLib, xPos: real, i: nat): seq<Vec4> {
    var c1 := lib.circle(i, LEG_SEGMENTS);
    var c2 := lib.circle(i + 1, LEG_SEGMENTS);
    var x1, z1 := LEG_RADIUS * c1.cos, LEG_RADIUS * c1.sin;
    var x2, z2 := LEG_RADIUS * c2.cos, LEG_RADIUS * c2.sin;
    [LegFoot(xPos), Point(xPos + x1, LEG_TOP - LEG_HEIGHT, z1), Point(xPos + x2, LEG_TOP - LEG_HEIGHT, z2), LegFoot(xPos)]
  }

  function LegSides(lib: MathLib, xPos: real, n: nat): (s: seq<Vec4>)
    ensures |s| == 4 * n
  {
    if n == 0 then [] else LegSides(lib, xPos, n - 1) + LegQuad(lib, xPos, n - 1)
  }

  function LegSideNormals(lib: MathLib, n: nat): (s: seq<Vec3>)
    ensures |s| == 4 * n
  {
    if n == 0 then [] else LegSideNormals(lib, n - 1) + Copies(LegNormal(lib, n - 1), 4)
  }

  function LegCaps(lib: MathLib, xPos: real, n: nat): (s: seq<Vec4>)
    ensures |s| == 4 * n
  {
    if n == 0 then [] else LegCaps(lib, xPos, n - 1) + LegCapQuad(lib, xPos, n - 1)
  }

  function HingeVertices(lib: MathLib, yPos: real): (s: seq<Vec4>)
    ensures |s| == HINGE_VERTICES
  {
    HingeSides(lib, yPos, HINGE_SEGMENTS)
  }

  function HingeNormals(lib: MathLib): (s: seq<Vec3>)
    ensures |s| == HINGE_VERTICES
  {
    HingeSideNormals(lib, HINGE_SEGMENTS)
  }

  function LegVertices(lib: MathLib, xPos: real): (s: seq<Vec4>)
    ensures |s| == LEG_VERTICES
  {
    LegSides(lib, xPos, LEG_SEGMENTS) + LegCaps(lib, xPos, LEG_SEGMENTS)
  }

  const LEG_CAP_NORMAL: Vec3 := Vec3(0.0, -1.0, 0.0)

  function LegNormals(lib: MathLib): (s: seq<Vec3>)
    ensures |s| == LEG_VERTICES
  {
    LegSideNormals(lib, LEG_SEGMENTS) + Copies(LEG_CAP_NORMAL, 64)
  }

  // ---------------------------------------------------------------------
  // Placing parts in the scene

  /** `mult(m, v)` on every local vertex. */
  function TransformPoints(m: Mat4, vs: seq<Vec4>): (r: seq<Vec4>)
    ensures |r| == |vs|
  {
    seq(|vs|, i requires 0 <= i < |vs| => Apply(m, vs[i]))
  }

  /** A local normal placed with m: the upper-left 3x3 block of m, then `normalize`. */
  function PlaceNormal(lib: MathLib, m: Mat4, n: Vec3): Vec3 {
    lib.normalize(ApplyUpper3(m, n))
  }

  /** Every local normal placed with m. */
  function TransformNormals(lib: MathLib, m: Mat4, ns: seq<Vec3>): (r: seq<Vec3>)
    ensures |r| == |ns|
  {
    seq(|ns|, i requires 0 <= i < |ns| => PlaceNormal(lib, m, ns[i]))
  }

  /** Transforming by a product is transforming by its factors in turn. */
  lemma TransformPointsMul(a: Mat4, b: Mat4, vs: seq<Vec4>)
    ensures TransformPoints(Mul(a, b), vs) == TransformPoints(a, TransformPoints(b, vs))
  {
    forall i | 0 <= i < |vs|
      ensures TransformPoints(Mul(a, b), vs)[i] == TransformPoints(a, TransformPoints(b, vs))[i]
    {
      ApplyMul(a, b, vs[i]);
    }
  }

  /** The placement of the scene for the panel angles in degrees (`rotateY(panelKAngle)`). */
  function ScenePlacement(lib: MathLib, a: Angles): Placement {
    Place(lib, lib.degrees(a.p1), lib.degrees(a.p2), lib.degrees(a.p3), lib.degrees(a.p4))
  }

  /** What `createDoorPanel(m, ...)` appends. */
  function PanelBlock(lib: MathLib, m: Mat4): (s: seq<Vec4>)
    ensures |s| == PANEL_VERTICES
  {
    TransformPoints(m, PanelVertices(lib))
  }

  /** What `createHinges(m, ...)` appends: the hinges at 2/5 and at 4/5 of the height. */
  function HingePair(lib: MathLib, m: Mat4): (s: seq<Vec4>)
    ensures |s| == 2 * HINGE_VERTICES
  {
    TransformPoints(m, HingeVertices(lib, HINGE_Y1)) + TransformPoints(m, HingeVertices(lib, HINGE_Y2))
  }

  /** What `createLegs(m, ...)` appends: the left and the right leg. */
  function LegPair(lib: MathLib, m: Mat4): (s: seq<Vec4>)
    ensures |s| == 2 * LEG_VERTICES
  {
    TransformPoints(m, LegVertices(lib, LEG_X1)) + TransformPoints(m, LegVertices(lib, LEG_X2))
  }

  function HingePairNormals(lib: MathLib, m: Mat4): (s: seq<Vec3>)
    ensures |s| == 2 * HINGE_VERTICES
  {
    TransformNormals(lib, m, HingeNormals(lib)) + TransformNormals(lib, m, HingeNormals(lib))
  }

  function LegPairNormals(lib: MathLib, m: Mat4): (s: seq<Vec3>)
    ensures |s| == 2 * LEG_VERTICES
  {
    TransformNormals(lib, m, LegNormals(lib)) + TransformNormals(lib, m, LegNormals(lib))
  }

  /** The number of parts `createFoldingDoors` builds: four panels, three hinge pairs, four leg pairs. */
  const SCENE_PARTS: nat := 11

  /** The vertex count of part j. */
  function PartSize(j: nat): nat {
    if j < 4 then PANEL_VERTICES else if j < 7 then 2 * HINGE_VERTICES else 2 * LEG_VERTICES
  }

  /** Where part k starts in the vertex array: the sizes of the parts before it. */
  function PartOffset(k: nat): nat {
    if k == 0 then 0 else PartOffset(k - 1) + PartSize(k - 1)
  }

  /** The transform of panel i (0 to 3), which its legs share. */
  function PanelTransform(p: Placement, i: nat): Mat4
    requires i < 4
  {
    match i
    case 0 => p.panel1
    case 1 => p.panel2
    case 2 => p.panel3
    case _ => p.panel4
  }

  /** The transform of hinge pair i (0 to 2): between panels i and i + 1. */
  function HingeTransform(p: Placement, i: nat): Mat4
    requires i < 3
  {
    match i
    case 0 => p.hinge12
    case 1 => p.hinge23
    case _ => p.hinge34
  }

  /** The vertices of part j, in build order: panels 1-4, hinges 1-2, 2-3, 3-4, then the legs of panels 1-4. */
  function PartVertices(lib: MathLib, p: Placement, j: nat): (s: seq<Vec4>)
    requires j < SCENE_PARTS
    ensures |s| == PartSize(j)
  {
    if j < 4 then PanelBlock(lib, PanelTransform(p, j))
    else if j < 7 then HingePair(lib, HingeTransform(p, j - 4))
    else LegPair(lib, PanelTransform(p, j - 7))
  }

  function PartNormals(lib: MathLib, p: Placement, j: nat): (s: seq<Vec3>)
    requires j < SCENE_PARTS
    ensures |s| == PartSize(j)
  {
    if j < 4 then TransformNormals(lib, PanelTransform(p, j), PanelNormals(lib))
    else if j < 7 then HingePairNormals(lib, HingeTransform(p, j - 4))
    else LegPairNormals(lib, PanelTransform(p, j - 7))
  }

  /** The colours of part j: every part is cream-trimmed; the panel fills have their own colours. */
  function PartColors(j: nat): (s: seq<Rgba>)
    ensures |s| == PartSize(j)
  {
    if j < 4 then PanelColors(CREAM_TRIM)
    else if j < 7 then Copies(CREAM_TRIM, 2 * HINGE_VERTICES)
    else Copies(CREAM_TRIM, 2 * LEG_VERTICES)
  }

  /** The vertices of the first k parts. */
  function FirstParts(lib: MathLib, p: Placement, k: nat): (s: seq<Vec4>)
    requires k <= SCENE_PARTS
    ensures |s| == PartOffset(k)
  {
    if k == 0 then [] else FirstParts(lib, p, k - 1) + PartVertices(lib, p, k - 1)
  }

  function FirstPartsNormals(lib: MathLib, p: Placement, k: nat): (s: seq<Vec3>)
    requires k <= SCENE_PARTS
    ensures |s| == PartOffset(k)
  {
    if k == 0 then [] else FirstPartsNormals(lib, p, k - 1) + PartNormals(lib, p, k - 1)
  }

  function FirstPartsColors(k: nat): (s: seq<Rgba>)
    ensures |s| == PartOffset(k)
  {
    if k == 0 then [] else FirstPartsColors(k - 1) + PartColors(k - 1)
  }

  /** The vertices in the order `createFoldingDoors` builds them. */
  function SceneVertices(lib: MathLib, p: Placement): (s: seq<Vec4>)
    ensures |s| == SCENE_VERTICES
  {
    FirstParts(lib, p, SCENE_PARTS)
  }

  function SceneNormals(lib: MathLib, p: Placement): (s: seq<Vec3>)
    ensures |s| == SCENE_VERTICES
  {
    FirstPartsNormals(lib, p, SCENE_PARTS)
  }

  /** The scene's colours; they do not depend on the angles. */
  function SceneColors(): (s: seq<Rgba>)
    ensures |s| == SCENE_VERTICES
  {
    FirstPartsColors(SCENE_PARTS)
  }

  /** Appending part k to the first k parts gives the first k + 1, in all three arrays. */
  lemma AppendPart(lib: MathLib, p: Placement, k: nat, v: seq<Vec4>, n: seq<Vec3>, c: seq<Rgba>)
    requires k < SCENE_PARTS
    ensures v + FirstParts(lib, p, k) + PartVertices(lib, p, k) == v + FirstParts(lib, p, k + 1)
    ensures n + FirstPartsNormals(lib, p, k) + PartNormals(lib, p, k) == n + FirstPartsNormals(lib, p, k + 1)
    ensures c + FirstPartsColors(k) + PartColors(k) == c + FirstPartsColors(k + 1)
  {
    AppendTwice(v, FirstParts(lib, p, k), PartVertices(lib, p, k));
    AppendTwice(n, FirstPartsNormals(lib, p, k), PartNormals(lib, p, k));
    AppendTwice(c, FirstPartsColors(k), PartColors(k));
  }

  /** The first j parts are a prefix of the first k. */
  lemma {:induction false} FirstPartsPrefix(lib: MathLib, p: Placement, j: nat, k: nat)
    requires j <= k <= SCENE_PARTS
    ensures PartOffset(j) <= PartOffset(k)
    ensures FirstParts(lib, p, k)[..PartOffset(j)] == FirstParts(lib, p, j)
    decreases k
  {
    if j < k {
      FirstPartsPrefix(lib, p, j, k - 1);
      assert FirstParts(lib, p, k)[..PartOffset(k - 1)] == FirstParts(lib, p, k - 1);
    }
  }

  // ---------------------------------------------------------------------
  // Properties of the scene

  /** The scene starts with panel 1's own 1424 vertices, placed by panel 1's transform. */
  lemma SceneStartsWithFirstPanel(lib: MathLib, p: Placement)
    ensures SceneVertices(lib, p)[..PANEL_VERTICES] == PanelBlock(lib, p.panel1)
  {
    FirstPartsPrefix(lib, p, 1, SCENE_PARTS);
    assert FirstParts(lib, p, 1) == [] + PanelBlock(lib, p.panel1);
  }

  /** Panel 1's vertices follow panel 1's angle alone: the other three angles never move them. */
  lemma FirstPanelFollowsOnlyItsAngle(lib: MathLib, a: Angles, b: Angles)
    requires a.p1 == b.p1
    ensures SceneVertices(lib, ScenePlacement(lib, a))[..PANEL_VERTICES]
         == SceneVertices(lib, ScenePlacement(lib, b))[..PANEL_VERTICES]
  {
    SceneStartsWithFirstPanel(lib, ScenePlacement(lib, a));
    SceneStartsWithFirstPanel(lib, ScenePlacement(lib, b));
    assert ScenePlacement(lib, a).panel1 == FirstPanel(lib, lib.degrees(a.p1)) == ScenePlacement(lib, b).panel1;
  }

  /**
   * Folding never moves panel 1: from any angles with panel 1 at 0, every
   * state of the fold animation puts panel 1's vertices where they were.
   */
  lemma FoldKeepsFirstPanelInPlace(lib: MathLib, a: Angles, n: nat)
    requires a.p1 == 0.0
    ensures SceneVertices(lib, ScenePlacement(lib, Run(InMode(a, Folding), n).angles))[..PANEL_VERTICES]
         == SceneVertices(lib, ScenePlacement(lib, a))[..PANEL_VERTICES]
  {
    FoldKeepsFirstPanel(a, n);
    FirstPanelFollowsOnlyItsAngle(lib, Run(InMode(a, Folding), n).angles, a);
  }

  /**
   * A hinge's vertices are its local geometry moved out by one panel width
   * and then placed by its panel, and its normals are placed exactly as the
   * panel's own normals are.
   */
  lemma HingesRideOnTheirPanel(lib: MathLib, panel: Mat4, yPos: real)
    requires MultIsProduct(lib)
    ensures TransformPoints(HingeAt(lib, panel), HingeVertices(lib, yPos))
         == TransformPoints(panel, TransformPoints(Translate(DOOR_WIDTH, 0.0, 0.0), HingeVertices(lib, yPos)))
    ensures TransformNormals(lib, HingeAt(lib, panel), HingeNormals(lib)) == TransformNormals(lib, panel, HingeNormals(lib))
  {
    assert HingeAt(lib, panel) == Mul(panel, Translate(DOOR_WIDTH, 0.0, 0.0));
    TransformPointsMul(panel, Translate(DOOR_WIDTH, 0.0, 0.0), HingeVertices(lib, yPos));
    var ns := HingeNormals(lib);
    forall i | 0 <= i < |ns|
      ensures TransformNormals(lib, HingeAt(lib, panel), ns)[i] == TransformNormals(lib, panel, ns)[i]
    {
      HingeNormalsFollowPanel(lib, panel, ns[i]);
    }
  }

  /** Every leg corner is at or below the door's bottom edge, and each leg's bottom cap lies in its foot plane. */
  lemma {:induction false} LegsHangBelowTheDoor(lib: MathLib, xPos: real, n: nat)
    ensures forall k :: 0 <= k < 4 * n ==> LegSides(lib, xPos, n)[k].y <= LEG_TOP
    ensures forall k :: 0 <= k < 4 * n ==> LegCaps(lib, xPos, n)[k].y == LEG_TOP - LEG_HEIGHT
  {
    if n > 0 {
      LegsHangBelowTheDoor(lib, xPos, n - 1);
      var s, c := LegSides(lib, xPos, n), LegCaps(lib, xPos, n);
      var s', c' := LegSides(lib, xPos, n - 1), LegCaps(lib, xPos, n - 1);
      var q, cq := LegQuad(lib, xPos, n - 1), LegCapQuad(lib, xPos, n - 1);
      assert s == s' + q && c == c' + cq;
      forall k | 0 <= k < 4 * n
        ensures s[k].y <= LEG_TOP && c[k].y == LEG_TOP - LEG_HEIGHT
      {
        if k < 4 * (n - 1) {
          assert s[k] == s'[k] && c[k] == c'[k];
        } else {
          assert s[k] == q[k - 4 * (n - 1)] && c[k] == cq[k - 4 * (n - 1)];
        }
      }
    }
  }

  /** A leg's cap pieces are triangles: the first and the last corner of each is the leg's foot. */
  lemma {:induction false} LegCapsAreFans(lib: MathLib, xPos: real, n: nat)
    ensures forall j :: 0 <= j < n ==> LegCaps(lib, xPos, n)[4 * j] == LegFoot(xPos) == LegCaps(lib, xPos, n)[4 * j + 3]
  {
    if n > 0 {
      LegCapsAreFans(lib, xPos, n - 1);
      var c, c' := LegCaps(lib, xPos, n), LegCaps(lib, xPos, n - 1);
      var cq := LegCapQuad(lib, xPos, n - 1);
      assert c == c' + cq;
      forall j | 0 <= j < n
        ensures c[4 * j] == LegFoot(xPos) == c[4 * j + 3]
      {
        if j < n - 1 {
          assert c[4 * j] == c'[4 * j] && c[4 * j + 3] == c'[4 * j + 3];
        } else {
          assert c[4 * j] == cq[0] && c[4 * j + 3] == cq[3];
        }
      }
    }
  }

  /** Every hinge corner lies within the hinge's height band around yPos. */
  lemma {:induction false} HingeWithinItsBand(lib: MathLib, yPos: real, n: nat)
    ensures forall k :: 0 <= k < 4 * n ==>
              var y := HingeSides(lib, yPos, n)[k].y;
              y == yPos - HINGE_HEIGHT / 2.0 || y == yPos + HINGE_HEIGHT / 2.0
  {
    if n > 0 {
      HingeWithinItsBand(lib, yPos, n - 1);
      var s, s' := HingeSides(lib, yPos, n), HingeSides(lib, yPos, n - 1);
      var q := HingeQuad(lib, yPos, n - 1);
      assert s == s' + q;
      forall k | 0 <= k < 4 * n
        ensures s[k].y == yPos - HINGE_HEIGHT / 2.0 || s[k].y == yPos + HINGE_HEIGHT / 2.0
      {
        if k < 4 * (n - 1) {
          assert s[k] == s'[k];
        } else {
          assert s[k] == q[k - 4 * (n - 1)];
        }
      }
    }
  }

  /** Both hinges of a pair sit inside the door's height, the lower at 2/5 and the upper at 4/5 of it. */
  lemma HingesInsideTheDoor()
    ensures -DOOR_HEIGHT / 2.0 < HINGE_Y1 - HINGE_HEIGHT / 2.0
    ensures HINGE_Y1 + HINGE_HEIGHT / 2.0 < HINGE_Y2 - HINGE_HEIGHT / 2.0
    ensures HINGE_Y2 + HINGE_HEIGHT / 2.0 < DOOR_HEIGHT / 2.0
  {
  }

  /** The scene's 7008 vertices fill 1752 whole quads, so every index fits and names a vertex. */
  lemma SceneIndicesValid()
    ensures QuadCount(SCENE_VERTICES) == SCENE_QUADS
    ensures forall k :: 0 <= k < |QuadIndices(SCENE_QUADS)| ==> 0 <= QuadIndices(SCENE_QUADS)[k] < SCENE_VERTICES
    ensures forall k :: 0 <= k < |QuadIndices(SCENE_QUADS)| ==> QuadIndices(SCENE_QUADS)[k] <= UINT16_MAX
  {
    SceneIndicesFitUint16(SCENE_VERTICES);
  }

  /** The angle of panel j (j = 1..4). */
  function AngleOf(a: Angles, j: nat): real
    requires 1 <= j <= 4
  {
    match j
    case 1 => a.p1
    case 2 => a.p2
    case 3 => a.p3
    case _ => a.p4
  }

  /** The angles `a` with panel k's (k = 1..4) replaced by `value`: that panel moves, no other. */
  function WithAngle(a: Angles, k: nat, value: real): (r: Angles)
    requires 1 <= k <= 4
    ensures forall j :: 1 <= j <= 4 ==> AngleOf(r, j) == if j == k then value else AngleOf(a, j)
  {
    match k
    case 1 => a.(p1 := value)
    case 2 => a.(p2 := value)
    case 3 => a.(p3 := value)
    case _ => a.(p4 := value)
  }

  // ---------------------------------------------------------------------
  // The application state

  /** The door demo's state: geometry buffers, panel angles, animation flags and camera. */
  class FoldingDoors {
    /** The host's trigonometry and vector helpers. */
    const lib: MathLib

    var vertices: seq<Vec4>
    var colors: seq<Rgba>
    var normals: seq<Vec3>
    var indices: seq<int>
    var texCoords: seq<Vec2>

    var panel1Angle: real
    var panel2Angle: real
    var panel3Angle: real
    var panel4Angle: real
    var isOpening: bool
    var isClosing: bool
    var isFolding: bool

    /** cameraRotation.x (pitch) and cameraRotation.y (yaw), in degrees, and the camera distance. */
    var cameraPitch: real
    var cameraYaw: real
    var zoom: real
    var mouseDown: bool
    var lastMouseX: real
    var lastMouseY: real

    function PanelAngles(): Angles
      reads this
    {
      Angles(panel1Angle, panel2Angle, panel3Angle, panel4Angle)
    }

    function Anim(): DoorAnim
      reads this
    {
      DoorAnim(PanelAngles(), isOpening, isClosing, isFolding)
    }

    /**
     * The buffers always show the current angles: the arrays hold exactly
     * the scene for the panel angles, and the indices are either not yet
     * built or the full quad list.
     */
    ghost predicate Valid()
      reads this
    {
      Shows(PanelAngles())
    }

    /** The buffers hold the scene for the angles `a`. */
    ghost predicate Shows(a: Angles)
      reads this`vertices, this`normals, this`colors, this`texCoords, this`indices
    {
      && vertices == SceneVertices(lib, ScenePlacement(lib, a))
      && normals == SceneNormals(lib, ScenePlacement(lib, a))
      && colors == SceneColors()
      && |texCoords| == SCENE_VERTICES
      && (indices == [] || indices == QuadIndices(QuadCount(|vertices|)))
    }

    /** `init`: everything at rest, geometry built, no indices yet. */
    constructor (lib: MathLib)
      ensures this.lib == lib
      ensures Valid() && indices == []
      ensures PanelAngles() == Angles(0.0, 0.0, 0.0, 0.0)
      ensures !isOpening && !isClosing && !isFolding
      ensures cameraPitch == 20.0 && cameraYaw == 45.0 && zoom == 8.0 && !mouseDown
    {
      this.lib := lib;
      panel1Angle, panel2Angle, panel3Angle, panel4Angle := 0.0, 0.0, 0.0, 0.0;
      isOpening, isClosing, isFolding := false, false, false;
      cameraPitch, cameraYaw, zoom := 20.0, 45.0, 8.0;
      mouseDown, lastMouseX, lastMouseY := false, 0.0, 0.0;
      vertices, colors, normals, indices, texCoords := [], [], [], [], [];
      new;
      CreateFoldingDoors();
    }

    /** The per-vertex loop of createDoorPanel, createHinge and createLeg: place a part with `m`. */
    method AppendTransformed(part: PartMesh, m: Mat4)
      requires part.Parallel()
      modifies this`vertices, this`colors, this`normals, this`texCoords
      ensures vertices == old(vertices) + TransformPoints(m, part.vertices)
      ensures colors == old(colors) + part.colors
      ensures normals == old(normals) + TransformNormals(lib, m, part.normals)
      ensures texCoords == old(texCoords) + part.texCoords
    {
      var i := 0;
      while i < |part.vertices|
        invariant 0 <= i <= |part.vertices|
        invariant vertices == old(vertices) + TransformPoints(m, part.vertices[..i])
        invariant colors == old(colors) + part.colors[..i]
        invariant normals == old(normals) + TransformNormals(lib, m, part.normals[..i])
        invariant texCoords == old(texCoords) + part.texCoords[..i]
      {
        var transformed := Apply(m, part.vertices[i]);
        vertices := vertices + [transformed];
        colors := colors + [part.colors[i]];
        normals := normals + [PlaceNormal(lib, m, part.normals[i])];
        texCoords := texCoords + [part.texCoords[i]];
        assert part.vertices[..i + 1] == part.vertices[..i] + [part.vertices[i]];
        assert part.normals[..i + 1] == part.normals[..i] + [part.normals[i]];
        assert part.colors[..i + 1] == part.colors[..i] + [part.colors[i]];
        assert part.texCoords[..i + 1] == part.texCoords[..i] + [part.texCoords[i]];
        i := i + 1;
      }
      assert part.vertices[..i] == part.vertices;
      assert part.normals[..i] == part.normals;
      assert part.colors[..i] == part.colors;
      assert part.texCoords[..i] == part.texCoords;
    }

    /** `createDoorPanel`: build one panel's frame and fills locally, then place them with `m`. */
    method CreateDoorPanel(m: Mat4, panelColor: Rgba, frameColor: Rgba)
      modifies this`vertices, this`colors, this`normals, this`texCoords
      ensures vertices == old(vertices) + PanelBlock(lib, m)
      ensures normals == old(normals) + TransformNormals(lib, m, PanelNormals(lib))
      ensures colors == old(colors) + PanelColors(frameColor)
      ensures |texCoords| == old(|texCoords|) + PANEL_VERTICES
    {
      var part := BuildPanel(lib, frameColor);
      AppendTransformed(part, m);
    }

    /** `createHinge`: a 12-sided hinge cylinder at height yPos, placed with `m`. */
    method CreateHinge(m: Mat4, yPos: real, color: Rgba)
      modifies this`vertices, this`colors, this`normals, this`texCoords
      ensures vertices == old(vertices) + TransformPoints(m, HingeVertices(lib, yPos))
      ensures normals == old(normals) + TransformNormals(lib, m, HingeNormals(lib))
      ensures colors == old(colors) + Copies(color, HINGE_VERTICES)
      ensures |texCoords| == old(|texCoords|) + HINGE_VERTICES
    {
      var part := new PartMesh();
      var segments := HINGE_SEGMENTS;
      var i := 0;
      while i < segments
        invariant 0 <= i <= segments
        invariant part.Parallel()
        invariant part.vertices == HingeSides(lib, yPos, i)
        invariant part.normals == HingeSideNormals(lib, i)
        invariant part.colors == Copies(color, 4 * i)
        invariant vertices == old(vertices) && normals == old(normals)
        invariant colors == old(colors) && texCoords == old(texCoords)
      {
        // The strip between angles i/12 and (i+1)/12, as HingeQuad and HingeNormal give it.
        var q := HingeQuad(lib, yPos, i);
        part.AddQuad(q[0], q[1], q[2], q[3], HingeNormal(lib, i), color);
        CopiesAppend(color, 4 * i, 4);
        i := i + 1;
      }
      AppendTransformed(part, m);
    }

    /** `createHinges`: the hinges at 2/5 and at 4/5 of the door's height. */
    method CreateHinges(m: Mat4, color: Rgba)
      modifies this`vertices, this`colors, this`normals, this`texCoords
      ensures vertices == old(vertices) + HingePair(lib, m)
      ensures normals == old(normals) + HingePairNormals(lib, m)
      ensures colors == old(colors) + Copies(color, 2 * HINGE_VERTICES)
      ensures |texCoords| == old(|texCoords|) + 2 * HINGE_VERTICES
    {
      var h := DOOR_HEIGHT;
      var hinge1Y := -h / 2.0 + (2.0 / 5.0) * h;
      CreateHinge(m, hinge1Y, color);
      var hinge2Y := -h / 2.0 + (4.0 / 5.0) * h;
      CreateHinge(m, hinge2Y, color);
      AppendCopies(old(colors), color, HINGE_VERTICES, HINGE_VERTICES);
    }

    /** `createLeg`: a 16-sided leg hanging below the door at xPos, with its bottom cap, placed with `m`. */
    method CreateLeg(m: Mat4, color: Rgba, xPos: real)
      modifies this`vertices, this`colors, this`normals, this`texCoords
      ensures vertices == old(vertices) + TransformPoints(m, LegVertices(lib, xPos))
      ensures normals == old(normals) + TransformNormals(lib, m, LegNormals(lib))
      ensures colors == old(colors) + Copies(color, LEG_VERTICES)
      ensures |texCoords| == old(|texCoords|) + LEG_VERTICES
    {
      var part := BuildLeg(lib, color, xPos);
      AppendTransformed(part, m);
    }

    /** `createLegs`: the legs near the panel's left and right edges. */
    method CreateLegs(m: Mat4, color: Rgba)
      modifies this`vertices, this`colors, this`normals, this`texCoords
      ensures vertices == old(vertices) + LegPair(lib, m)
      ensures normals == old(normals) + LegPairNormals(lib, m)
      ensures colors == old(colors) + Copies(color, 2 * LEG_VERTICES)
      ensures |texCoords| == old(|texCoords|) + 2 * LEG_VERTICES
    {
      CreateLeg(m, color, 0.1);
      CreateLeg(m, color, DOOR_WIDTH - 0.1);
      AppendCopies(old(colors), color, LEG_VERTICES, LEG_VERTICES);
    }

    /**
     * `createFoldingDoors`: clear the arrays, chain the four panel
     * transforms and the three hinge transforms, then build the parts.
     */
    method CreateFoldingDoors()
      modifies this`vertices, this`colors, this`normals, this`texCoords, this`indices
      ensures vertices == SceneVertices(lib, ScenePlacement(lib, PanelAngles()))
      ensures normals == SceneNormals(lib, ScenePlacement(lib, PanelAngles()))
      ensures colors == SceneColors()
      ensures |texCoords| == SCENE_VERTICES
      ensures indices == []
    {
      vertices, colors, normals, indices, texCoords := [], [], [], [], [];
      var transform1 := Identity();
      transform1 := lib.mult(transform1, Translate(-2.0, DOOR_HEIGHT / 2.0, 0.0));
      transform1 := lib.mult(transform1, RotateY(lib.degrees(panel1Angle)));
      var transform2 := lib.mult(transform1, Translate(DOOR_WIDTH + PANEL_GAP, 0.0, 0.0));
      transform2 := lib.mult(transform2, RotateY(lib.degrees(panel2Angle)));
      var hinge12Transform := lib.mult(transform1, Translate(DOOR_WIDTH, 0.0, 0.0));
      var transform3 := lib.mult(transform2, Translate(DOOR_WIDTH + PANEL_GAP, 0.0, 0.0));
      transform3 := lib.mult(transform3, RotateY(lib.degrees(panel3Angle)));
      var hinge23Transform := lib.mult(transform2, Translate(DOOR_WIDTH, 0.0, 0.0));
      var transform4 := lib.mult(transform3, Translate(DOOR_WIDTH + PANEL_GAP, 0.0, 0.0));
      transform4 := lib.mult(transform4, RotateY(lib.degrees(panel4Angle)));
      var hinge34Transform := lib.mult(transform3, Translate(DOOR_WIDTH, 0.0, 0.0));
      var placement := Placement(transform1, transform2, transform3, transform4,
                                 hinge12Transform, hinge23Transform, hinge34Transform);
      assert placement == ScenePlacement(lib, PanelAngles());
      CreateParts(placement);
    }

    /**
     * The part-building half of `createFoldingDoors`: the four panels, the
     * three hinge pairs, then the legs of each panel, part k of the scene
     * appended by the k-th call.
     */
    method CreateParts(p: Placement)
      modifies this`vertices, this`colors, this`normals, this`texCoords
      ensures vertices == old(vertices) + SceneVertices(lib, p)
      ensures normals == old(normals) + SceneNormals(lib, p)
      ensures colors == old(colors) + SceneColors()
      ensures |texCoords| == old(|texCoords|) + SCENE_VERTICES
    {
      ghost var v, n, c := vertices, normals, colors;
      assert vertices == v + FirstParts(lib, p, 0);
      assert normals == n + FirstPartsNormals(lib, p, 0);
      assert colors == c + FirstPartsColors(0);
      CreatePanels(p, v, n, c);
      CreateHingeSets(p, v, n, c);
      CreateLegSets(p, v, n, c);
    }

    /** "Create all panels with their respective transformations": parts 0 to 3. */
    method CreatePanels(p: Placement, ghost v: seq<Vec4>, ghost n: seq<Vec3>, ghost c: seq<Rgba>)
      requires vertices == v + FirstParts(lib, p, 0)
      requires normals == n + FirstPartsNormals(lib, p, 0)
      requires colors == c + FirstPartsColors(0)
      modifies this`vertices, this`colors, this`normals, this`texCoords
      ensures vertices == v + FirstParts(lib, p, 4)
      ensures normals == n + FirstPartsNormals(lib, p, 4)
      ensures colors == c + FirstPartsColors(4)
      ensures |texCoords| == old(|texCoords|) + PartOffset(4)
    {
      AddPanel(p, 0, v, n, c);
      AddPanel(p, 1, v, n, c);
      AddPanel(p, 2, v, n, c);
      AddPanel(p, 3, v, n, c);
    }

    /** "Create hinges": parts 4 to 6, a pair at each of the three joints. */
    method CreateHingeSets(p: Placement, ghost v: seq<Vec4>, ghost n: seq<Vec3>, ghost c: seq<Rgba>)
      requires vertices == v + FirstParts(lib, p, 4)
      requires normals == n + FirstPartsNormals(lib, p, 4)
      requires colors == c + FirstPartsColors(4)
      modifies this`vertices, this`colors, this`normals, this`texCoords
      ensures vertices == v + FirstParts(lib, p, 7)
      ensures normals == n + FirstPartsNormals(lib, p, 7)
      ensures colors == c + FirstPartsColors(7)
      ensures |texCoords| == old(|texCoords|) + (PartOffset(7) - PartOffset(4))
    {
      AddHingePair(p, 4, v, n, c);
      AddHingePair(p, 5, v, n, c);
      AddHingePair(p, 6, v, n, c);
    }

    /** "Create legs": parts 7 to 10, the two legs under each panel. */
    method CreateLegSets(p: Placement, ghost v: seq<Vec4>, ghost n: seq<Vec3>, ghost c: seq<Rgba>)
      requires vertices == v + FirstParts(lib, p, 7)
      requires normals == n + FirstPartsNormals(lib, p, 7)
      requires colors == c + FirstPartsColors(7)
      modifies this`vertices, this`colors, this`normals, this`texCoords
      ensures vertices == v + FirstParts(lib, p, 11)
      ensures normals == n + FirstPartsNormals(lib, p, 11)
      ensures colors == c + FirstPartsColors(11)
      ensures |texCoords| == old(|texCoords|) + (PartOffset(11) - PartOffset(7))
    {
      AddLegPair(p, 7, v, n, c);
      AddLegPair(p, 8, v, n, c);
      AddLegPair(p, 9, v, n, c);
      AddLegPair(p, 10, v, n, c);
    }

    /** `createDoorPanel(transform_i, panelColor, frameColor)`: part i of the scene, i < 4. */
    method AddPanel(p: Placement, i: nat, ghost v: seq<Vec4>, ghost n: seq<Vec3>, ghost c: seq<Rgba>)
      requires i < 4
      requires vertices == v + FirstParts(lib, p, i)
      requires normals == n + FirstPartsNormals(lib, p, i)
      requires colors == c + FirstPartsColors(i)
      modifies this`vertices, this`colors, this`normals, this`texCoords
      ensures vertices == v + FirstParts(lib, p, i + 1)
      ensures normals == n + FirstPartsNormals(lib, p, i + 1)
      ensures colors == c + FirstPartsColors(i + 1)
      ensures |texCoords| == old(|texCoords|) + PartSize(i)
    {
      var panelColor := PANEL_COLOR;
      var frameColor := CREAM_TRIM;
      CreateDoorPanel(PanelTransform(p, i), panelColor, frameColor);
      AppendPart(lib, p, i, v, n, c);
    }

    /** `createHinges(hinge_i_Transform, hingeColor)`: part k of the scene, 4 <= k < 7. */
    method AddHingePair(p: Placement, k: nat, ghost v: seq<Vec4>, ghost n: seq<Vec3>, ghost c: seq<Rgba>)
      requires 4 <= k < 7
      requires vertices == v + FirstParts(lib, p, k)
      requires normals == n + FirstPartsNormals(lib, p, k)
      requires colors == c + FirstPartsColors(k)
      modifies this`vertices, this`colors, this`normals, this`texCoords
      ensures vertices == v + FirstParts(lib, p, k + 1)
      ensures normals == n + FirstPartsNormals(lib, p, k + 1)
      ensures colors == c + FirstPartsColors(k + 1)
      ensures |texCoords| == old(|texCoords|) + PartSize(k)
    {
      var hingeColor := CREAM_TRIM;
      CreateHinges(HingeTransform(p, k - 4), hingeColor);
      AppendPart(lib, p, k, v, n, c);
    }

    /** `createLegs(transform_i, legColor)`: part k of the scene, 7 <= k < 11. */
    method AddLegPair(p: Placement, k: nat, ghost v: seq<Vec4>, ghost n: seq<Vec3>, ghost c: seq<Rgba>)
      requires 7 <= k < SCENE_PARTS
      requires vertices == v + FirstParts(lib, p, k)
      requires normals == n + FirstPartsNormals(lib, p, k)
      requires colors == c + FirstPartsColors(k)
      modifies this`vertices, this`colors, this`normals, this`texCoords
      ensures vertices == v + FirstParts(lib, p, k + 1)
      ensures normals == n + FirstPartsNormals(lib, p, k + 1)
      ensures colors == c + FirstPartsColors(k + 1)
      ensures |texCoords| == old(|texCoords|) + PartSize(k)
    {
      var legColor := CREAM_TRIM;
      CreateLegs(PanelTransform(p, k - 7), legColor);
      AppendPart(lib, p, k, v, n, c);
    }

    /** `updateBuffers`: rebuild the geometry, then index it as quads. */
    method UpdateBuffers()
      modifies this`vertices, this`colors, this`normals, this`texCoords, this`indices
      ensures Valid()
      ensures indices == QuadIndices(QuadCount(|vertices|))
    {
      CreateFoldingDoors();
      IndexQuads();
    }

    /**
     * The index loop of `updateBuffers`: one quad per four vertices, the
     * quad count being the real quotient `vertices.length / 4`.
     */
    method IndexQuads()
      modifies this`indices
      ensures indices == QuadIndices(QuadCount(|vertices|))
    {
      indices := [];
      var quadCount := (|vertices| as real) / 4.0;
      var i: nat := 0;
      LoopRunsQuadCountTimes(i, |vertices|);
      while (i as real) < quadCount
        invariant i <= QuadCount(|vertices|)
        invariant indices == QuadIndices(i)
        invariant ((i as real) < quadCount) <==> i < QuadCount(|vertices|)
        decreases QuadCount(|vertices|) - i
      {
        var base := i * 4;
        indices := indices + [base, base + 1, base + 2];
        indices := indices + [base, base + 2, base + 3];
        i := i + 1;
        LoopRunsQuadCountTimes(i, |vertices|);
      }
    }

    /** One panel's step in `updateAnimation`: toward `target` by the speed, clamped at the target. */
    static method Step(angle: real, target: real) returns (next: real, moved: bool)
      ensures next == Approach(angle, target)
      ensures moved <==> angle != target
      ensures Abs(next - target) <= Abs(angle - target)
    {
      next, moved := angle, false;
      if angle < target {
        next := angle + ANIMATION_SPEED;
        if next > target { next := target; }
        moved := true;
      } else if angle > target {
        next := angle - ANIMATION_SPEED;
        if next < target { next := target; }
        moved := true;
      }
    }

    /**
     * `updateAnimation`, once per frame: the opening, closing and folding
     * phases in that order, then a rebuild when anything changed. The new
     * state is one `Tick` of the old one, and the buffers keep showing the
     * current angles.
     */
    method UpdateAnimation()
      requires Valid()
      modifies this`panel1Angle, this`panel2Angle, this`panel3Angle, this`panel4Angle
      modifies this`isOpening, this`isClosing, this`isFolding
      modifies this`vertices, this`colors, this`normals, this`texCoords, this`indices
      ensures Valid()
      ensures Anim() == Tick(old(Anim())).next
      ensures Tick(old(Anim())).needsUpdate ==> indices == QuadIndices(QuadCount(|vertices|))
      ensures !Tick(old(Anim())).needsUpdate ==> indices == old(indices) && vertices == old(vertices)
    {
      var needsUpdate := AdvanceAngles();
      if needsUpdate {
        UpdateBuffers();
      }
    }

    /**
     * The angle-stepping half of `updateAnimation`: each active mode runs
     * its phase in turn; the result says whether the geometry needs a rebuild.
     */
    method AdvanceAngles() returns (needsUpdate: bool)
      modifies this`panel1Angle, this`panel2Angle, this`panel3Angle, this`panel4Angle
      modifies this`isOpening, this`isClosing, this`isFolding
      ensures Anim() == Tick(old(Anim())).next
      ensures needsUpdate == Tick(old(Anim())).needsUpdate
      ensures !needsUpdate ==> PanelAngles() == old(PanelAngles())
    {
      MotionRequestsRebuild(Anim());
      needsUpdate := false;
      var changed;
      isOpening, changed := RunMode(OPEN_TARGET, isOpening, false);
      needsUpdate := needsUpdate || changed;
      isClosing, changed := RunMode(CLOSE_TARGET, isClosing, false);
      needsUpdate := needsUpdate || changed;
      isFolding, changed := RunMode(FOLD_TARGET, isFolding, true);
      needsUpdate := needsUpdate || changed;
    }

    /** `if (mode) { ... }`: the mode's block runs only while its flag is set. */
    method RunMode(target: Angles, active: bool, flagArrival: bool) returns (stillActive: bool, changed: bool)
      modifies this`panel1Angle, this`panel2Angle, this`panel3Angle, this`panel4Angle
      ensures var r := Phase(old(PanelAngles()), target, active, flagArrival);
              PanelAngles() == r.angles && stillActive == r.active && changed == r.changed
    {
      if active {
        stillActive, changed := RunPhase(target, flagArrival);
      } else {
        stillActive, changed := false, false;
      }
    }

    /**
     * One mode's block of `updateAnimation`: step the four angles toward
     * `target`, and once all four are within 0.5 of it snap them there and
     * end the mode. The folding block also asks for a rebuild on arrival.
     */
    method RunPhase(target: Angles, flagArrival: bool) returns (stillActive: bool, changed: bool)
      modifies this`panel1Angle, this`panel2Angle, this`panel3Angle, this`panel4Angle
      ensures var r := Phase(old(PanelAngles()), target, true, flagArrival);
              PanelAngles() == r.angles && stillActive == r.active && changed == r.changed
    {
      var moved1, moved2, moved3, moved4;
      panel1Angle, moved1 := Step(panel1Angle, target.p1);
      panel2Angle, moved2 := Step(panel2Angle, target.p2);
      panel3Angle, moved3 := Step(panel3Angle, target.p3);
      panel4Angle, moved4 := Step(panel4Angle, target.p4);
      changed := moved1 || moved2 || moved3 || moved4;
      stillActive := true;
      if Abs(panel1Angle - target.p1) < ARRIVAL_TOLERANCE && Abs(panel2Angle - target.p2) < ARRIVAL_TOLERANCE
         && Abs(panel3Angle - target.p3) < ARRIVAL_TOLERANCE && Abs(panel4Angle - target.p4) < ARRIVAL_TOLERANCE {
        panel1Angle, panel2Angle, panel3Angle, panel4Angle := target.p1, target.p2, target.p3, target.p4;
        stillActive := false;
        changed := changed || flagArrival;
      }
    }

    /** `openDoors`: opening becomes the only active mode. */
    method OpenDoors()
      modifies this`isOpening, this`isClosing, this`isFolding
      ensures Anim() == InMode(old(PanelAngles()), Opening)
    {
      isOpening := true;
      isClosing := false;
      isFolding := false;
    }

    /** `closeDoors`: closing becomes the only active mode. */
    method CloseDoors()
      modifies this`isOpening, this`isClosing, this`isFolding
      ensures Anim() == InMode(old(PanelAngles()), Closing)
    {
      isClosing := true;
      isOpening := false;
      isFolding := false;
    }

    /** `foldDoors`: folding becomes the only active mode. */
    method FoldDoors()
      modifies this`isOpening, this`isClosing, this`isFolding
      ensures Anim() == InMode(old(PanelAngles()), Folding)
    {
      isFolding := true;
      isOpening := false;
      isClosing := false;
    }

    /** `stopAnimation`: stops opening and closing; a fold in progress goes on. */
    method StopAnimation()
      modifies this`isOpening, this`isClosing
      ensures Anim() == DoorAnim(old(PanelAngles()), false, false, old(isFolding))
    {
      isOpening := false;
      isClosing := false;
    }

    /**
     * `resetAnimation`: all angles to 0, opening and closing stopped, and the
     * geometry rebuilt; a fold in progress is not stopped and goes on from 0.
     */
    method ResetAnimation()
      modifies this`panel1Angle, this`panel2Angle, this`panel3Angle, this`panel4Angle
      modifies this`isOpening, this`isClosing
      modifies this`vertices, this`colors, this`normals, this`texCoords, this`indices
      ensures Anim() == DoorAnim(Angles(0.0, 0.0, 0.0, 0.0), false, false, old(isFolding))
      ensures Valid() && indices == QuadIndices(QuadCount(|vertices|))
    {
      ResetState();
      UpdateBuffers();
    }

    /** The state half of `resetAnimation`: angles to 0, opening and closing stopped. */
    method ResetState()
      modifies this`panel1Angle, this`panel2Angle, this`panel3Angle, this`panel4Angle
      modifies this`isOpening, this`isClosing
      ensures Anim() == DoorAnim(Angles(0.0, 0.0, 0.0, 0.0), false, false, old(isFolding))
    {
      panel1Angle, panel2Angle, panel3Angle, panel4Angle := 0.0, 0.0, 0.0, 0.0;
      isOpening := false;
      isClosing := false;
    }

    /** A panel-angle slider (k = 1..4): set that panel's angle to the slider's value and rebuild. */
    method SetPanelAngle(k: nat, value: real)
      requires 1 <= k <= 4
      modifies this`panel1Angle, this`panel2Angle, this`panel3Angle, this`panel4Angle
      modifies this`vertices, this`colors, this`normals, this`texCoords, this`indices
      ensures PanelAngles() == WithAngle(old(PanelAngles()), k, value)
      ensures Valid() && indices == QuadIndices(QuadCount(|vertices|))
    {
      SetAngle(k, value);
      UpdateBuffers();
    }

    /** The slider's `input` handler: panel k's angle becomes `value`. */
    method SetAngle(k: nat, value: real)
      requires 1 <= k <= 4
      modifies this`panel1Angle, this`panel2Angle, this`panel3Angle, this`panel4Angle
      ensures PanelAngles() == WithAngle(old(PanelAngles()), k, value)
    {
      if k == 1 {
        panel1Angle := value;
      } else if k == 2 {
        panel2Angle := value;
      } else if k == 3 {
        panel3Angle := value;
      } else {
        panel4Angle := value;
      }
    }

    /** `mousedown` and `mouseup` on the canvas. */
    method MouseDown(x: real, y: real)
      modifies this`mouseDown, this`lastMouseX, this`lastMouseY
      ensures mouseDown && lastMouseX == x && lastMouseY == y
    {
      mouseDown := true;
      lastMouseX := x;
      lastMouseY := y;
    }

    method MouseUp()
      modifies this`mouseDown
      ensures !mouseDown
    {
      mouseDown := false;
    }

    /**
     * `mousemove`: while the button is down, yaw follows the horizontal
     * movement and pitch the vertical one, half a degree per pixel, pitch
     * kept within [-89, 89].
     */
    method MouseMove(x: real, y: real)
      modifies this`cameraPitch, this`cameraYaw, this`lastMouseX, this`lastMouseY
      ensures !old(mouseDown) ==> cameraPitch == old(cameraPitch) && cameraYaw == old(cameraYaw)
                                  && lastMouseX == old(lastMouseX) && lastMouseY == old(lastMouseY)
      ensures old(mouseDown) ==> cameraYaw == old(cameraYaw) + (x - old(lastMouseX)) * 0.5
                                 && cameraPitch == Clamp(old(cameraPitch) + (y - old(lastMouseY)) * 0.5, -89.0, 89.0)
                                 && lastMouseX == x && lastMouseY == y
    {
      if !mouseDown {
        return;
      }
      var deltaX := x - lastMouseX;
      var deltaY := y - lastMouseY;
      cameraYaw := cameraYaw + deltaX * 0.5;
      cameraPitch := cameraPitch + deltaY * 0.5;
      if cameraPitch > 89.0 { cameraPitch := 89.0; }
      if cameraPitch < -89.0 { cameraPitch := -89.0; }
      lastMouseX := x;
      lastMouseY := y;
    }

    /** `wheel`: the distance moves by 0.01 per unit of scroll, kept within [3, 15]. */
    method Wheel(deltaY: real)
      modifies this`zoom
      ensures zoom == Clamp(old(zoom) + deltaY * 0.01, 3.0, 15.0)
    {
      zoom := zoom + deltaY * 0.01;
      if zoom < 3.0 { zoom := 3.0; }
      if zoom > 15.0 { zoom := 15.0; }
    }

    /** The zoom slider sets the distance as given, without the wheel's bounds. */
    method SetZoom(value: real)
      modifies this`zoom
      ensures zoom == value
    {
      zoom := value;
    }

    /** `resetView`. */
    method ResetView()
      modifies this`cameraPitch, this`cameraYaw, this`zoom
      ensures cameraPitch == 20.0 && cameraYaw == 45.0 && zoom == 8.0
    {
      cameraPitch, cameraYaw, zoom := 20.0, 45.0, 8.0;
    }
  }

  /**
   * The local mesh of `createDoorPanel`: bottom, top and middle bars in
   * pairs, the two sides as single cylinders, then three fills above the
   * middle bars and three below, cream, dark brown, cream.
   */
  method BuildPanel(lib: MathLib, frameColor: Rgba) returns (part: PartMesh)
    ensures fresh(part) && part.Parallel()
    ensures part.vertices == PanelVertices(lib)
    ensures part.normals == PanelNormals(lib)
    ensures part.colors == PanelColors(frameColor)
  {
    part := new PartMesh();
    AddOuterBars(part, lib, frameColor);
    AddSidesAndMiddleBars(part, lib, frameColor);
    AddTopFills(part, lib, frameColor);
    AddBottomFills(part, lib, frameColor);
  }

  /** Pieces 0 to 3 of a panel: the bottom pair of bars, then the top pair. */
  method AddOuterBars(part: PartMesh, lib: MathLib, frameColor: Rgba)
    requires part.Parallel()
    requires part.vertices == PanelPieces(lib, 0) && part.normals == PanelPiecesNormals(lib, 0)
    requires part.colors == PanelPiecesColors(frameColor, 0)
    modifies part
    ensures part.Parallel()
    ensures part.vertices == PanelPieces(lib, 4) && part.normals == PanelPiecesNormals(lib, 4)
    ensures part.colors == PanelPiecesColors(frameColor, 4)
  {
    var w, h, f := DOOR_WIDTH, DOOR_HEIGHT, FRAME_WIDTH;
    var frameRadius := f / 2.0;
    var barGap := frameRadius * 1.8;
    var barRadius := frameRadius * 0.65;
    part.CreateFrameCylinder(0.0, -h / 2.0 + barGap / 2.0, w, barRadius, frameColor, true, lib);
    assert part.vertices == PanelPieces(lib, 1) && part.normals == PanelPiecesNormals(lib, 1)
        && part.colors == PanelPiecesColors(frameColor, 1);
    part.CreateFrameCylinder(0.0, -h / 2.0 - barGap / 2.0, w, barRadius, frameColor, true, lib);
    assert part.vertices == PanelPieces(lib, 2) && part.normals == PanelPiecesNormals(lib, 2)
        && part.colors == PanelPiecesColors(frameColor, 2);
    part.CreateFrameCylinder(0.0, h / 2.0 + barGap / 2.0, w, barRadius, frameColor, true, lib);
    assert part.vertices == PanelPieces(lib, 3) && part.normals == PanelPiecesNormals(lib, 3)
        && part.colors == PanelPiecesColors(frameColor, 3);
    part.CreateFrameCylinder(0.0, h / 2.0 - barGap / 2.0, w, barRadius, frameColor, true, lib);
  }

  /** Pieces 4 to 7 of a panel: the left and right uprights, then the middle pair of bars. */
  method AddSidesAndMiddleBars(part: PartMesh, lib: MathLib, frameColor: Rgba)
    requires part.Parallel()
    requires part.vertices == PanelPieces(lib, 4) && part.normals == PanelPiecesNormals(lib, 4)
    requires part.colors == PanelPiecesColors(frameColor, 4)
    modifies part
    ensures part.Parallel()
    ensures part.vertices == PanelPieces(lib, 8) && part.normals == PanelPiecesNormals(lib, 8)
    ensures part.colors == PanelPiecesColors(frameColor, 8)
  {
    var w, h, f := DOOR_WIDTH, DOOR_HEIGHT, FRAME_WIDTH;
    var frameRadius := f / 2.0;
    var barGap := frameRadius * 1.8;
    var barRadius := frameRadius * 0.65;
    part.CreateFrameCylinder(0.0, -h / 2.0, h, frameRadius, frameColor, false, lib);
    assert part.vertices == PanelPieces(lib, 5) && part.normals == PanelPiecesNormals(lib, 5)
        && part.colors == PanelPiecesColors(frameColor, 5);
    part.CreateFrameCylinder(w, -h / 2.0, h, frameRadius, frameColor, false, lib);
    assert part.vertices == PanelPieces(lib, 6) && part.normals == PanelPiecesNormals(lib, 6)
        && part.colors == PanelPiecesColors(frameColor, 6);
    part.CreateFrameCylinder(0.0, barGap / 2.0, w, barRadius, frameColor, true, lib);
    assert part.vertices == PanelPieces(lib, 7) && part.normals == PanelPiecesNormals(lib, 7)
        && part.colors == PanelPiecesColors(frameColor, 7);
    part.CreateFrameCylinder(0.0, -barGap / 2.0, w, barRadius, frameColor, true, lib);
  }

  /** Pieces 8 to 10 of a panel: the three fills above the middle bars, cream, dark brown, cream. */
  method AddTopFills(part: PartMesh, lib: MathLib, frameColor: Rgba)
    requires part.Parallel()
    requires part.vertices == PanelPieces(lib, 8) && part.normals == PanelPiecesNormals(lib, 8)
    requires part.colors == PanelPiecesColors(frameColor, 8)
    modifies part
    ensures part.Parallel()
    ensures part.vertices == PanelPieces(lib, 11) && part.normals == PanelPiecesNormals(lib, 11)
    ensures part.colors == PanelPiecesColors(frameColor, 11)
  {
    var w, h, t, f := DOOR_WIDTH, DOOR_HEIGHT, DOOR_THICKNESS, FRAME_WIDTH;
    var frameRadius := f / 2.0;
    var barGap := frameRadius * 1.8;
    var barRadius := frameRadius * 0.65;
    var sectionWidth := w / 3.0;
    var startX := 0.0;
    var topHeight := h / 2.0 - (barGap / 2.0 + barRadius);
    var topStart := barGap / 2.0 + barRadius;
    part.CreatePanelFill(startX, topStart, sectionWidth, topHeight, t, CREAM);
    assert part.vertices == PanelPieces(lib, 9) && part.normals == PanelPiecesNormals(lib, 9)
        && part.colors == PanelPiecesColors(frameColor, 9);
    part.CreatePanelFill(startX + sectionWidth, topStart, sectionWidth, topHeight, t, DARK_BROWN);
    assert part.vertices == PanelPieces(lib, 10) && part.normals == PanelPiecesNormals(lib, 10)
        && part.colors == PanelPiecesColors(frameColor, 10);
    part.CreatePanelFill(startX + 2.0 * sectionWidth, topStart, sectionWidth, topHeight, t, CREAM);
  }

  /** Pieces 11 to 13 of a panel: the three fills below the middle bars, cream, dark brown, cream. */
  method AddBottomFills(part: PartMesh, lib: MathLib, frameColor: Rgba)
    requires part.Parallel()
    requires part.vertices == PanelPieces(lib, 11) && part.normals == PanelPiecesNormals(lib, 11)
    requires part.colors == PanelPiecesColors(frameColor, 11)
    modifies part
    ensures part.Parallel()
    ensures part.vertices == PanelPieces(lib, 14) && part.normals == PanelPiecesNormals(lib, 14)
    ensures part.colors == PanelPiecesColors(frameColor, 14)
  {
    var w, h, t, f := DOOR_WIDTH, DOOR_HEIGHT, DOOR_THICKNESS, FRAME_WIDTH;
    var frameRadius := f / 2.0;
    var barGap := frameRadius * 1.8;
    var barRadius := frameRadius * 0.65;
    var sectionWidth := w / 3.0;
    var startX := 0.0;
    var bottomHeight := (-barGap / 2.0 - barRadius) - (-h / 2.0);
    var bottomStart := -h / 2.0;
    part.CreatePanelFill(startX, bottomStart, sectionWidth, bottomHeight, t, CREAM);
    assert part.vertices == PanelPieces(lib, 12) && part.normals == PanelPiecesNormals(lib, 12)
        && part.colors == PanelPiecesColors(frameColor, 12);
    part.CreatePanelFill(startX + sectionWidth, bottomStart, sectionWidth, bottomHeight, t, DARK_BROWN);
    assert part.vertices == PanelPieces(lib, 13) && part.normals == PanelPiecesNormals(lib, 13)
        && part.colors == PanelPiecesColors(frameColor, 13);
    part.CreatePanelFill(startX + 2.0 * sectionWidth, bottomStart, sectionWidth, bottomHeight, t, CREAM);
  }

  /** The local mesh of `createLeg`: 16 side quads, then 16 bottom-cap pieces. */
  method BuildLeg(lib: MathLib, color: Rgba, xPos: real) returns (part: PartMesh)
    ensures fresh(part) && part.Parallel()
    ensures part.vertices == LegVertices(lib, xPos)
    ensures part.normals == LegNormals(lib)
    ensures part.colors == Copies(color, LEG_VERTICES)
  {
    part := new PartMesh();
    AddLegSides(part, lib, color, xPos);
    AddLegCap(part, lib, color, xPos);
  }

  /** The first loop of `createLeg`: the 16 side quads of an empty leg mesh. */
  method AddLegSides(part: PartMesh, lib: MathLib, color: Rgba, xPos: real)
    requires part.Parallel() && part.vertices == [] && part.normals == [] && part.colors == []
    modifies part
    ensures part.Parallel()
    ensures part.vertices == LegSides(lib, xPos, LEG_SEGMENTS)
    ensures part.normals == LegSideNormals(lib, LEG_SEGMENTS)
    ensures part.colors == Copies(color, 4 * LEG_SEGMENTS)
  {
    var segments := LEG_SEGMENTS;
    var i := 0;
    while i < segments
      invariant 0 <= i <= segments
      invariant part.Parallel()
      invariant part.vertices == LegSides(lib, xPos, i)
      invariant part.normals == LegSideNormals(lib, i)
      invariant part.colors == Copies(color, 4 * i)
    {
      // The strip between angles i/16 and (i+1)/16, as LegQuad and LegNormal give it.
      var q := LegQuad(lib, xPos, i);
      part.AddQuad(q[0], q[1], q[2], q[3], LegNormal(lib, i), color);
      CopiesAppend(color, 4 * i, 4);
      i := i + 1;
    }
  }

  /** The second loop of `createLeg`: the 16 pieces of the bottom cap, after the sides. */
  method AddLegCap(part: PartMesh, lib: MathLib, color: Rgba, xPos: real)
    requires part.Parallel()
    requires part.vertices == LegSides(lib, xPos, LEG_SEGMENTS)
    requires part.normals == LegSideNormals(lib, LEG_SEGMENTS)
    requires part.colors == Copies(color, 4 * LEG_SEGMENTS)
    modifies part
    ensures part.Parallel()
    ensures part.vertices == LegVertices(lib, xPos)
    ensures part.normals == LegNormals(lib)
    ensures part.colors == Copies(color, LEG_VERTICES)
  {
    ghost var sides := part.vertices;
    ghost var sideNormals := part.normals;
    var segments := LEG_SEGMENTS;
    var i := 0;
    while i < segments
      invariant 0 <= i <= segments
      invariant part.Parallel()
      invariant part.vertices == sides + LegCaps(lib, xPos, i)
      invariant part.normals == sideNormals + Copies(LEG_CAP_NORMAL, 4 * i)
      invariant part.colors == Copies(color, 4 * LEG_SEGMENTS + 4 * i)
    {
      // The bottom-cap piece between angles i/16 and (i+1)/16, a quad whose first and last corners are the centre.
      var q := LegCapQuad(lib, xPos, i);
      part.AddQuad(q[0], q[1], q[2], q[3], LEG_CAP_NORMAL, color);
      AppendTwice(sides, LegCaps(lib, xPos, i), q);
      AppendCopies(sideNormals, LEG_CAP_NORMAL, 4 * i, 4);
      CopiesAppend(color, 4 * LEG_SEGMENTS + 4 * i, 4);
      i := i + 1;
    }
  }
}
