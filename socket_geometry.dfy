/**
 * The floor socket's geometry as values. Every builder of the socket demo
 * appends a block to the three global arrays `vertices`, `colors` and
 * `indices`: its vertices, one colour per vertex, and its own triangle
 * indices offset by `startIndex`, the vertex count before the block. A
 * `Mesh` is the content of the three arrays; the functions below say what
 * each builder appends, and the lemmas what that guarantees: equal array
 * lengths, and every index naming a vertex of the block that pushed it.
 */
module SocketGeometry {
  import opened Algebra
  import opened Buffers

  datatype Mesh = Mesh(vertices: seq<Vec4>, colors: seq<Rgba>, indices: seq<int>)

  const EMPTY: Mesh := Mesh([], [], [])

  /** Every entry of `s` lies in [lo, hi). */
  predicate InRange(s: seq<int>, lo: int, hi: int) {
    forall k :: 0 <= k < |s| ==> lo <= s[k] < hi
  }

  /** Parallel arrays, and every index names an existing vertex. */
  predicate WellFormed(m: Mesh) {
    |m.colors| == |m.vertices| && InRange(m.indices, 0, |m.vertices|)
  }

  /** `startIndex + local[f]` for every local index, in order. */
  function Shift(local: seq<int>, offset: int): (r: seq<int>)
    ensures |r| == |local|
    ensures forall k :: 0 <= k < |local| ==> r[k] == local[k] + offset
  {
    seq(|local|, k requires 0 <= k < |local| => local[k] + offset)
  }

  /** What a builder appends: its vertices, their colours, its local indices offset by the old vertex count. */
  function AppendBlock(m: Mesh, vs: seq<Vec4>, cs: seq<Rgba>, local: seq<int>): (r: Mesh)
    ensures |r.vertices| == |m.vertices| + |vs|
    ensures |r.colors| == |m.colors| + |cs|
    ensures |r.indices| == |m.indices| + |local|
  {
    Mesh(m.vertices + vs, m.colors + cs, m.indices + Shift(local, |m.vertices|))
  }

  /**
   * A block whose local indices stay below its own vertex count keeps the
   * mesh well formed, and its new indices all lie in
   * [startIndex, startIndex + |vs|): the block only names its own vertices.
   */
  lemma AppendBlockWellFormed(m: Mesh, vs: seq<Vec4>, cs: seq<Rgba>, local: seq<int>)
    requires WellFormed(m) && |cs| == |vs| && InRange(local, 0, |vs|)
    ensures WellFormed(AppendBlock(m, vs, cs, local))
    ensures InRange(AppendBlock(m, vs, cs, local).indices[|m.indices|..], |m.vertices|, |m.vertices| + |vs|)
  {
    var r := AppendBlock(m, vs, cs, local);
    assert r.indices[|m.indices|..] == Shift(local, |m.vertices|);
    forall k | 0 <= k < |r.indices|
      ensures 0 <= r.indices[k] < |r.vertices|
    {
      if k >= |m.indices| {
        assert r.indices[k] == local[k - |m.indices|] + |m.vertices|;
      }
    }
  }

  /** A block with no indices (the grid) keeps the old indices below the old vertex count. */
  lemma AppendUnindexed(m: Mesh, vs: seq<Vec4>, cs: seq<Rgba>)
    requires WellFormed(m) && |cs| == |vs|
    ensures WellFormed(AppendBlock(m, vs, cs, []))
    ensures AppendBlock(m, vs, cs, []).indices == m.indices
  {
    assert Shift([], |m.vertices|) == [];
    assert m.indices + [] == m.indices;
  }

  // ---------------------------------------------------------------------
  // addBox, addBaseFrame, addTriangle

  /** The eight corners of `addBox`: front face (z + d/2) first, then the back face. */
  function BoxCorners(x: real, y: real, z: real, width: real, height: real, depth: real): (vs: seq<Vec4>)
    ensures |vs| == 8
  {
    var w2, h2, d2 := width / 2.0, height / 2.0, depth / 2.0;
    [Point(x - w2, y - h2, z + d2), Point(x + w2, y - h2, z + d2),
     Point(x + w2, y + h2, z + d2), Point(x - w2, y + h2, z + d2),
     Point(x - w2, y - h2, z - d2), Point(x + w2, y - h2, z - d2),
     Point(x + w2, y + h2, z - d2), Point(x - w2, y + h2, z - d2)]
  }

  /** The twelve triangles of `addBox`: front, back, left, right, top, bottom. */
  const BOX_FACES: seq<int> := [0, 1, 2, 0, 2, 3, 5, 4, 7, 5, 7, 6, 4, 0, 3, 4, 3, 7,
                                1, 5, 6, 1, 6, 2, 3, 2, 6, 3, 6, 7, 4, 5, 1, 4, 1, 0]

  function AppendBox(m: Mesh, x: real, y: real, z: real, width: real, height: real, depth: real, color: Rgba): Mesh {
    AppendBlock(m, BoxCorners(x, y, z, width, height, depth), Copies(color, 8), BOX_FACES)
  }

  /** The eight corners of `addBaseFrame`: the outer rectangle at the floor, the inner one, smaller by the bevel, on top. */
  function FrameCorners(x: real, y: real, z: real, width: real, depth: real, height: real, bevel: real): (vs: seq<Vec4>)
    ensures |vs| == 8
  {
    var w2, d2, h2 := width / 2.0, depth / 2.0, height / 2.0;
    var bw, bd := w2 - bevel, d2 - bevel;
    [Point(x - w2, y - h2, z + d2), Point(x + w2, y - h2, z + d2),
     Point(x + w2, y - h2, z - d2), Point(x - w2, y - h2, z - d2),
     Point(x - bw, y + h2, z + bd), Point(x + bw, y + h2, z + bd),
     Point(x + bw, y + h2, z - bd), Point(x - bw, y + h2, z - bd)]
  }

  /** The frame's top, its four bevelled sides (front, right, back, left) and its bottom. */
  const FRAME_FACES: seq<int> := [4, 5, 6, 4, 6, 7, 0, 1, 5, 0, 5, 4, 1, 2, 6, 1, 6, 5,
                                  2, 3, 7, 2, 7, 6, 3, 0, 4, 3, 4, 7, 0, 3, 2, 0, 2, 1]

  /** The darker colour of the frame's back side. */
  const BACK_COLOR: Rgba := Rgba(0.6, 0.6, 0.65, 1.0)

  /** The colour `addBaseFrame` pushes for frame vertex i: vertices 2, 3, 6 and 7 are the back side. */
  function FrameColor(color: Rgba, i: nat): Rgba {
    if i == 2 || i == 3 || i == 6 || i == 7 then BACK_COLOR else color
  }

  function FrameColors(color: Rgba): (cs: seq<Rgba>)
    ensures |cs| == 8
  {
    seq(8, i requires 0 <= i < 8 => FrameColor(color, i))
  }

  function AppendBaseFrame(m: Mesh, x: real, y: real, z: real, width: real, depth: real, height: real,
                           bevel: real, color: Rgba): Mesh {
    AppendBlock(m, FrameCorners(x, y, z, width, depth, height, bevel), FrameColors(color), FRAME_FACES)
  }

  /** The indicator triangle of `addTriangle`: its tip toward -z, its base toward +z. */
  function TriangleCorners(x: real, y: real, z: real, width: real, height: real): (vs: seq<Vec4>)
    ensures |vs| == 3
  {
    var w2 := width / 2.0;
    [Point(x, y, z - height / 2.0), Point(x + w2, y, z + height / 2.0), Point(x - w2, y, z + height / 2.0)]
  }

  function AppendTriangle(m: Mesh, x: real, y: real, z: real, width: real, height: real, color: Rgba): Mesh {
    AppendBlock(m, TriangleCorners(x, y, z, width, height), Copies(color, 3), [0, 1, 2])
  }

  lemma BoxFacesInRange()
    ensures |BOX_FACES| == 36 && InRange(BOX_FACES, 0, 8)
  {
  }

  lemma FrameFacesInRange()
    ensures |FRAME_FACES| == 36 && InRange(FRAME_FACES, 0, 8)
  {
  }

  /** `addBox` appends 8 vertices, 8 colours and 36 indices, every index in [start, start + 8). */
  lemma AppendBoxShape(m: Mesh, x: real, y: real, z: real, width: real, height: real, depth: real, color: Rgba)
    requires WellFormed(m)
    ensures var r := AppendBox(m, x, y, z, width, height, depth, color);
            && WellFormed(r)
            && |r.vertices| == |m.vertices| + 8 && |r.indices| == |m.indices| + 36
            && r.indices[..|m.indices|] == m.indices
            && InRange(r.indices[|m.indices|..], |m.vertices|, |m.vertices| + 8)
  {
    BoxFacesInRange();
    AppendBlockWellFormed(m, BoxCorners(x, y, z, width, height, depth), Copies(color, 8), BOX_FACES);
  }

  /** `addBaseFrame` appends 8 vertices, 8 colours and 36 indices, every index in [start, start + 8). */
  lemma AppendBaseFrameShape(m: Mesh, x: real, y: real, z: real, width: real, depth: real, height: real,
                             bevel: real, color: Rgba)
    requires WellFormed(m)
    ensures var r := AppendBaseFrame(m, x, y, z, width, depth, height, bevel, color);
            && WellFormed(r)
            && |r.vertices| == |m.vertices| + 8 && |r.indices| == |m.indices| + 36
            && r.indices[..|m.indices|] == m.indices
            && InRange(r.indices[|m.indices|..], |m.vertices|, |m.vertices| + 8)
  {
    FrameFacesInRange();
    AppendBlockWellFormed(m, FrameCorners(x, y, z, width, depth, height, bevel), FrameColors(color), FRAME_FACES);
  }

  /** Exactly frame vertices 2, 3, 6 and 7 get the back colour (when the frame colour differs from it). */
  lemma BackSideColoured(color: Rgba, i: nat)
    requires i < 8 && color != BACK_COLOR
    ensures FrameColors(color)[i] == BACK_COLOR <==> i in {2, 3, 6, 7}
    ensures FrameColors(color)[i] != BACK_COLOR ==> FrameColors(color)[i] == color
  {
  }

  /** `addTriangle` appends 3 vertices, 3 colours and the indices (start, start + 1, start + 2). */
  lemma AppendTriangleShape(m: Mesh, x: real, y: real, z: real, width: real, height: real, color: Rgba)
    requires WellFormed(m)
    ensures var r := AppendTriangle(m, x, y, z, width, height, color);
            && WellFormed(r)
            && |r.vertices| == |m.vertices| + 3
            && r.indices == m.indices + [|m.vertices|, |m.vertices| + 1, |m.vertices| + 2]
  {
    var r := AppendTriangle(m, x, y, z, width, height, color);
    assert Shift([0, 1, 2], |m.vertices|) == [|m.vertices|, |m.vertices| + 1, |m.vertices| + 2];
    AppendBlockWellFormed(m, TriangleCorners(x, y, z, width, height), Copies(color, 3), [0, 1, 2]);
  }

  // ---------------------------------------------------------------------
  // addPopUpMechanism: the local arrays

  /** The wedge's six corners: the bottom rectangle, then the top edge at the back. */
  function WedgeCorners(w2: real, d2: real, height: real): (vs: seq<Vec4>)
    ensures |vs| == 6
  {
    [Point(-w2, 0.0, -d2), Point(w2, 0.0, -d2), Point(w2, 0.0, d2), Point(-w2, 0.0, d2),
     Point(-w2, height, d2), Point(w2, height, d2)]
  }

  /** Bottom, sloping back, sloping top and the two side triangles. */
  const WEDGE_FACES: seq<int> := [0, 1, 2, 0, 2, 3, 3, 2, 5, 3, 5, 4, 0, 4, 5, 0, 5, 1, 0, 3, 4, 1, 5, 2]

  /** The back panel's box, 1.2 times as wide and 1.05 times as high as the wedge, 0.05 thick, at z = d2. */
  function BackPanelCorners(width: real, height: real, d2: real): (vs: seq<Vec4>)
    ensures |vs| == 8
  {
    var pw2, ph := width * 1.2 / 2.0, height * 1.05;
    var bz, t := d2, 0.05;
    [Point(-pw2, 0.0, bz), Point(pw2, 0.0, bz), Point(pw2, ph, bz), Point(-pw2, ph, bz),
     Point(-pw2, 0.0, bz + t), Point(pw2, 0.0, bz + t), Point(pw2, ph, bz + t), Point(-pw2, ph, bz + t)]
  }

  /** The back panel's faces relative to `backStart`: front, back, bottom, top, left, right. */
  const BACK_PANEL_FACES: seq<int> := [0, 1, 2, 0, 2, 3, 4, 7, 6, 4, 6, 5, 0, 4, 5, 0, 5, 1,
                                       2, 6, 7, 2, 7, 3, 3, 7, 4, 3, 4, 0, 1, 5, 6, 1, 6, 2]

  const QUAD_FACES: seq<int> := [0, 1, 2, 0, 2, 3]

  function Min(a: real, b: real): real {
    if a < b then a else b
  }

  /** The back panel's colour: the body colour lightened by 0.3, capped at 1, opaque. */
  function Lighten(c: Rgba): (l: Rgba)
    ensures l.r <= 1.0 && l.g <= 1.0 && l.b <= 1.0 && l.a == 1.0
    ensures c.r <= 0.7 ==> l.r == c.r + 0.3
  {
    Rgba(Min(1.0, c.r + 0.3), Min(1.0, c.g + 0.3), Min(1.0, c.b + 0.3), 1.0)
  }

  /** The white socket panel on the wedge's slope: its four corners and the slope's normal. */
  datatype PanelFrame = PanelFrame(bl: Vec4, br: Vec4, tr: Vec4, tl: Vec4, normal: Vec3)

  /** Corners at 15% and 85% along the sloping edges 0-4 and 1-5, and their normal. */
  function PanelFrameOf(lib: MathLib, wedge: seq<Vec4>): PanelFrame
    requires |wedge| >= 6
  {
    var bl := lib.mix(wedge[0], wedge[4], 0.15);
    var br := lib.mix(wedge[1], wedge[5], 0.15);
    var tr := lib.mix(wedge[1], wedge[5], 0.85);
    var tl := lib.mix(wedge[0], wedge[4], 0.85);
    var n := lib.normalize(lib.cross(Xyz(Subtract(br, bl)), Xyz(Subtract(tl, bl))));
    PanelFrame(bl, br, tr, tl, n)
  }

  /** `scale(s, vec4(normal, 0))` */
  function AlongNormal(s: real, n: Vec3): Vec4 {
    Scale(s, Vec4(n.x, n.y, n.z, 0.0))
  }

  /** The socket panel lifted 0.01 off the slope along its normal. */
  function SocketPanelCorners(f: PanelFrame): (vs: seq<Vec4>)
    ensures |vs| == 4
  {
    var off := AlongNormal(-0.01, f.normal);
    [Add(f.bl, off), Add(f.br, off), Add(f.tr, off), Add(f.tl, off)]
  }

  /** Where the two holes go, and the panel's in-plane axes their rims are drawn along. */
  datatype HoleLayout = HoleLayout(left: Vec4, right: Vec4, rightVec: Vec4, upVec: Vec4)

  function HoleLayoutOf(lib: MathLib, f: PanelFrame): HoleLayout {
    var holeOffset := AlongNormal(-0.01 + -0.005, f.normal);
    var centre := Add(lib.mix(lib.mix(f.bl, f.br, 0.7), lib.mix(f.tl, f.tr, 0.7), 0.5), holeOffset);
    var rightVec := lib.normalize4(Subtract(f.br, f.bl));
    var upVec := lib.normalize4(Subtract(f.tl, f.bl));
    HoleLayout(Subtract(centre, Scale(0.1, rightVec)), Add(centre, Scale(0.1, rightVec)), rightVec, upVec)
  }

  const HOLE_RADIUS: real := 0.04
  const HOLE_SEGMENTS: nat := 15

  /** Rim vertex i of a hole (i = 0..15; the last closes the circle at the first one's angle). */
  function RimPoint(lib: MathLib, centre: Vec4, rightVec: Vec4, upVec: Vec4, i: nat): Vec4 {
    var c := lib.circle(i, HOLE_SEGMENTS);
    Add(Add(centre, Scale(HOLE_RADIUS * c.cos, rightVec)), Scale(HOLE_RADIUS * c.sin, upVec))
  }

  /** A hole's vertices: its centre, then the 16 rim points. */
  function CircleVertices(lib: MathLib, centre: Vec4, rightVec: Vec4, upVec: Vec4): (vs: seq<Vec4>)
    ensures |vs| == HOLE_SEGMENTS + 2
  {
    [centre] + seq(HOLE_SEGMENTS + 1, i requires 0 <= i <= HOLE_SEGMENTS => RimPoint(lib, centre, rightVec, upVec, i))
  }

  /** The fan of a hole whose centre is vertex c: triangle t is (c, c + 1 + t, c + 2 + t). */
  function FanIndices(c: int, n: nat): (s: seq<int>)
    ensures |s| == 3 * n
  {
    seq(3 * n, k requires 0 <= k < 3 * n => if k % 3 == 0 then c else c + k / 3 + k % 3)
  }

  /** The local arrays after the wedge (its indices are pushed as written: it starts at vertex 0). */
  function WedgeStep(l: Mesh, w2: real, d2: real, height: real, bodyColor: Rgba): Mesh {
    Mesh(l.vertices + WedgeCorners(w2, d2, height), l.colors + Copies(bodyColor, 6), l.indices + WEDGE_FACES)
  }

  /** The local arrays after the back panel, its faces offset by `backStart`, the local vertex count. */
  function BackPanelStep(l: Mesh, width: real, height: real, d2: real, bodyColor: Rgba): Mesh {
    Mesh(l.vertices + BackPanelCorners(width, height, d2), l.colors + Copies(Lighten(bodyColor), 8),
         l.indices + Shift(BACK_PANEL_FACES, |l.vertices|))
  }

  function SocketPanelStep(l: Mesh, f: PanelFrame, panelColor: Rgba): Mesh {
    Mesh(l.vertices + SocketPanelCorners(f), l.colors + Copies(panelColor, 4),
         l.indices + Shift(QUAD_FACES, |l.vertices|))
  }

  /** `createCircle(centre)`: the centre and rim vertices, and the fan around the centre. */
  function CircleStep(lib: MathLib, l: Mesh, centre: Vec4, h: HoleLayout, holeColor: Rgba): Mesh {
    Mesh(l.vertices + CircleVertices(lib, centre, h.rightVec, h.upVec),
         l.colors + Copies(holeColor, HOLE_SEGMENTS + 2),
         l.indices + FanIndices(|l.vertices|, HOLE_SEGMENTS))
  }

  /** The local arrays of `addPopUpMechanism` before the hinge rotation. */
  function PopUpLocal(lib: MathLib, width: real, depth: real, height: real,
                      bodyColor: Rgba, panelColor: Rgba, holeColor: Rgba): Mesh {
    var l1 := WedgeStep(EMPTY, width / 2.0, depth / 2.0, height, bodyColor);
    var l2 := BackPanelStep(l1, width, height, depth / 2.0, bodyColor);
    var f := PanelFrameOf(lib, l2.vertices);
    var l3 := SocketPanelStep(l2, f, panelColor);
    var h := HoleLayoutOf(lib, f);
    var l4 := CircleStep(lib, l3, h.left, h, holeColor);
    CircleStep(lib, l4, h.right, h, holeColor)
  }

  lemma WedgeFacesInRange()
    ensures |WEDGE_FACES| == 24 && InRange(WEDGE_FACES, 0, 6)
  {
  }

  lemma BackPanelFacesInRange()
    ensures |BACK_PANEL_FACES| == 36 && InRange(BACK_PANEL_FACES, 0, 8)
  {
  }

  /** Every triangle of a fan uses the centre c and rim vertices c + 1 .. c + n + 1 only. */
  lemma FanInRange(c: int, n: nat)
    ensures InRange(FanIndices(c, n), c, c + n + 2)
  {
  }

  /** Triangle t of the fan around c, as the loop pushes it. */
  lemma FanTriangle(c: int, n: nat, t: nat)
    requires t < n
    ensures FanIndices(c, n)[3 * t .. 3 * t + 3] == [c, c + 1 + t, c + 2 + t]
  {
  }

  /** A local step keeps the local arrays parallel and its indices on its own vertices. */
  lemma LocalStep(l: Mesh, vs: seq<Vec4>, cs: seq<Rgba>, idx: seq<int>, lo: int)
    requires WellFormed(l) && |cs| == |vs| && lo >= 0 && InRange(idx, lo, |l.vertices| + |vs|)
    ensures WellFormed(Mesh(l.vertices + vs, l.colors + cs, l.indices + idx))
  {
  }

  /**
   * The local arrays hold 6 + 8 + 4 + 17 + 17 = 52 vertices and colours and
   * 24 + 36 + 6 + 45 + 45 = 156 indices, every index below 52; each hole's
   * fan stays on its own centre and rim (vertices 18..34 and 35..51).
   */
  lemma PopUpLocalShape(lib: MathLib, width: real, depth: real, height: real,
                        bodyColor: Rgba, panelColor: Rgba, holeColor: Rgba)
    ensures var l := PopUpLocal(lib, width, depth, height, bodyColor, panelColor, holeColor);
            && WellFormed(l) && |l.vertices| == 52 && |l.indices| == 156
            && l.indices[66..111] == FanIndices(18, HOLE_SEGMENTS)
            && l.indices[111..] == FanIndices(35, HOLE_SEGMENTS)
            && InRange(l.indices[66..111], 18, 35) && InRange(l.indices[111..], 35, 52)
  {
    var w2, d2 := width / 2.0, depth / 2.0;
    var l1 := WedgeStep(EMPTY, w2, d2, height, bodyColor);
    WedgeFacesInRange();
    LocalStep(EMPTY, WedgeCorners(w2, d2, height), Copies(bodyColor, 6), WEDGE_FACES, 0);
    var l2 := BackPanelStep(l1, width, height, d2, bodyColor);
    BackPanelFacesInRange();
    LocalStep(l1, BackPanelCorners(width, height, d2), Copies(Lighten(bodyColor), 8),
              Shift(BACK_PANEL_FACES, 6), 6);
    var f := PanelFrameOf(lib, l2.vertices);
    var l3 := SocketPanelStep(l2, f, panelColor);
    LocalStep(l2, SocketPanelCorners(f), Copies(panelColor, 4), Shift(QUAD_FACES, 14), 14);
    var h := HoleLayoutOf(lib, f);
    var l4 := CircleStep(lib, l3, h.left, h, holeColor);
    FanInRange(18, HOLE_SEGMENTS);
    LocalStep(l3, CircleVertices(lib, h.left, h.rightVec, h.upVec), Copies(holeColor, HOLE_SEGMENTS + 2),
              FanIndices(18, HOLE_SEGMENTS), 18);
    var l5 := CircleStep(lib, l4, h.right, h, holeColor);
    FanInRange(35, HOLE_SEGMENTS);
    LocalStep(l4, CircleVertices(lib, h.right, h.rightVec, h.upVec), Copies(holeColor, HOLE_SEGMENTS + 2),
              FanIndices(35, HOLE_SEGMENTS), 35);
    assert l5.indices[66..111] == FanIndices(18, HOLE_SEGMENTS);
    assert l5.indices[111..] == FanIndices(35, HOLE_SEGMENTS);
  }

  // ---------------------------------------------------------------------
  // The hinge rotation of the pop-up

  /**
   * One local vertex through the hinge: z shifted by -hingeZ, rotated by
   * rotateX(-angle) (`rot` is its (cos, sin)), shifted back, then moved by
   * the global offset (x, y, z).
   */
  function Pivot(rot: CosSin, v: Vec4, hingeZ: real, x: real, y: real, z: real): Vec4 {
    var r := Apply(RotateX(rot), Vec4(v.x, v.y, v.z - hingeZ, v.w));
    Vec4(r.x + x, r.y + y, r.z + hingeZ + z, r.w)
  }

  function PivotAll(rot: CosSin, vs: seq<Vec4>, hingeZ: real, x: real, y: real, z: real): (r: seq<Vec4>)
    ensures |r| == |vs|
  {
    seq(|vs|, i requires 0 <= i < |vs| => Pivot(rot, vs[i], hingeZ, x, y, z))
  }

  /** The rotation `rotateX(-angle)` of `addPopUpMechanism`. */
  function HingeRotation(lib: MathLib, angle: real): CosSin {
    lib.degrees(-angle)
  }

  /** `addPopUpMechanism(...)`: the local arrays through the hinge, appended with their indices offset. */
  function AppendPopUp(m: Mesh, lib: MathLib, x: real, y: real, z: real, width: real, depth: real, height: real,
                       angle: real, hingeZ: real, bodyColor: Rgba, panelColor: Rgba, holeColor: Rgba): Mesh {
    var l := PopUpLocal(lib, width, depth, height, bodyColor, panelColor, holeColor);
    AppendBlock(m, PivotAll(HingeRotation(lib, angle), l.vertices, hingeZ, x, y, z), l.colors, l.indices)
  }

  /** The rotation turns about the x axis: x and w pass through, x moved by the global offset only. */
  lemma PivotKeepsXAndW(rot: CosSin, v: Vec4, hingeZ: real, x: real, y: real, z: real)
    ensures Pivot(rot, v, hingeZ, x, y, z).x == v.x + x
    ensures Pivot(rot, v, hingeZ, x, y, z).w == v.w
  {
  }

  /** Points on the hinge line (y = 0, z = hingeZ) stay where they are, whatever the angle. */
  lemma PivotFixesHingeLine(rot: CosSin, v: Vec4, hingeZ: real, x: real, y: real, z: real)
    requires v.y == 0.0 && v.z == hingeZ
    ensures Pivot(rot, v, hingeZ, x, y, z) == Vec4(v.x + x, y, hingeZ + z, v.w)
  {
  }

  /** For a true rotation, every point keeps its distance from the hinge line. */
  lemma PivotKeepsDistanceToHinge(rot: CosSin, v: Vec4, hingeZ: real, x: real, y: real, z: real)
    requires OnUnitCircle(rot)
    ensures var p := Pivot(rot, v, hingeZ, x, y, z);
            (p.y - y) * (p.y - y) + (p.z - z - hingeZ) * (p.z - z - hingeZ)
            == v.y * v.y + (v.z - hingeZ) * (v.z - hingeZ)
  {
    var dz := v.z - hingeZ;
    var c, s := rot.cos, rot.sin;
    assert (c * v.y - s * dz) * (c * v.y - s * dz) + (s * v.y + c * dz) * (s * v.y + c * dz)
        == (c * c + s * s) * (v.y * v.y + dz * dz);
  }

  /**
   * With the hinge at the wedge's back edge (hingeZ = depth / 2), the
   * wedge's bottom-back corners 2 and 3 stay at (±width/2 + x, y, depth/2 + z)
   * for every cover angle.
   */
  lemma WedgeBackEdgeStays(lib: MathLib, x: real, y: real, z: real, width: real, depth: real, height: real,
                           angle: real, bodyColor: Rgba, panelColor: Rgba, holeColor: Rgba)
    ensures var l := PopUpLocal(lib, width, depth, height, bodyColor, panelColor, holeColor);
            var vs := PivotAll(HingeRotation(lib, angle), l.vertices, depth / 2.0, x, y, z);
            && |vs| == 52
            && vs[2] == Point(width / 2.0 + x, y, depth / 2.0 + z)
            && vs[3] == Point(-width / 2.0 + x, y, depth / 2.0 + z)
  {
    var l := PopUpLocal(lib, width, depth, height, bodyColor, panelColor, holeColor);
    PopUpLocalShape(lib, width, depth, height, bodyColor, panelColor, holeColor);
    var w := WedgeCorners(width / 2.0, depth / 2.0, height);
    assert l.vertices[..6] == w;
    var rot := HingeRotation(lib, angle);
    PivotFixesHingeLine(rot, w[2], depth / 2.0, x, y, z);
    PivotFixesHingeLine(rot, w[3], depth / 2.0, x, y, z);
  }

  // ---------------------------------------------------------------------
  // createFloorSocket and createGrid

  const BASE_WIDTH: real := 2.0
  const BASE_DEPTH: real := 1.6
  const BASE_HEIGHT: real := 0.2
  const BEVEL_SIZE: real := 0.1
  const POPUP_WIDTH: real := BASE_WIDTH - 0.6
  const POPUP_DEPTH: real := BASE_DEPTH - 0.4
  const POPUP_HEIGHT: real := POPUP_DEPTH * 0.9
  const BUTTON_Z: real := -(BASE_DEPTH / 2.0) + 0.2
  const HINGE_Z: real := POPUP_DEPTH / 2.0

  const BASE_COLOR: Rgba := Rgba(0.75, 0.75, 0.78, 1.0)
  const RECESS_COLOR: Rgba := Rgba(0.4, 0.4, 0.4, 1.0)
  const POPUP_BODY_COLOR: Rgba := Rgba(0.5, 0.5, 0.5, 1.0)
  const SOCKET_PANEL_COLOR: Rgba := Rgba(0.95, 0.95, 0.95, 1.0)
  const SOCKET_HOLE_COLOR: Rgba := Rgba(0.1, 0.1, 0.1, 1.0)
  const BUTTON_COLOR: Rgba := Rgba(0.6, 0.6, 0.6, 1.0)
  const INDICATOR_COLOR: Rgba := Rgba(0.3, 0.3, 0.3, 1.0)

  /** One call of a builder, with its arguments. */
  datatype Builder =
    | BaseFrame(x: real, y: real, z: real, width: real, depth: real, height: real, bevel: real, color: Rgba)
    | Box(x: real, y: real, z: real, width: real, height: real, depth: real, color: Rgba)
    | Triangle(x: real, y: real, z: real, width: real, height: real, color: Rgba)
    | PopUp(x: real, y: real, z: real, width: real, depth: real, height: real, angle: real, hingeZ: real,
            bodyColor: Rgba, panelColor: Rgba, holeColor: Rgba)

  /** What one builder call appends. */
  function Run(lib: MathLib, m: Mesh, b: Builder): Mesh {
    match b
    case BaseFrame(x, y, z, width, depth, height, bevel, color) =>
      AppendBaseFrame(m, x, y, z, width, depth, height, bevel, color)
    case Box(x, y, z, width, height, depth, color) => AppendBox(m, x, y, z, width, height, depth, color)
    case Triangle(x, y, z, width, height, color) => AppendTriangle(m, x, y, z, width, height, color)
    case PopUp(x, y, z, width, depth, height, angle, hingeZ, bodyColor, panelColor, holeColor) =>
      AppendPopUp(m, lib, x, y, z, width, depth, height, angle, hingeZ, bodyColor, panelColor, holeColor)
  }

  /** The vertex count a builder appends: 8 for a frame or box, 3 for the triangle, 52 for the pop-up. */
  function VerticesAdded(b: Builder): nat {
    match b
    case BaseFrame(_, _, _, _, _, _, _, _) => 8
    case Box(_, _, _, _, _, _, _) => 8
    case Triangle(_, _, _, _, _, _) => 3
    case PopUp(_, _, _, _, _, _, _, _, _, _, _) => 52
  }

  /** The index count a builder appends: 36 for a frame or box, 3 for the triangle, 156 for the pop-up. */
  function IndicesAdded(b: Builder): nat {
    match b
    case BaseFrame(_, _, _, _, _, _, _, _) => 36
    case Box(_, _, _, _, _, _, _) => 36
    case Triangle(_, _, _, _, _, _) => 3
    case PopUp(_, _, _, _, _, _, _, _, _, _, _) => 156
  }

  /** `addPopUpMechanism` appends 52 vertices and colours and 156 indices, every index in [start, start + 52). */
  lemma AppendPopUpShape(m: Mesh, lib: MathLib, x: real, y: real, z: real, width: real, depth: real, height: real,
                         angle: real, hingeZ: real, bodyColor: Rgba, panelColor: Rgba, holeColor: Rgba)
    requires WellFormed(m)
    ensures var r := AppendPopUp(m, lib, x, y, z, width, depth, height, angle, hingeZ, bodyColor, panelColor, holeColor);
            && WellFormed(r)
            && |r.vertices| == |m.vertices| + 52 && |r.indices| == |m.indices| + 156
            && r.indices[..|m.indices|] == m.indices
            && InRange(r.indices[|m.indices|..], |m.vertices|, |m.vertices| + 52)
  {
    var l := PopUpLocal(lib, width, depth, height, bodyColor, panelColor, holeColor);
    PopUpLocalShape(lib, width, depth, height, bodyColor, panelColor, holeColor);
    AppendBlockWellFormed(m, PivotAll(HingeRotation(lib, angle), l.vertices, hingeZ, x, y, z), l.colors, l.indices);
  }

  /**
   * Every builder keeps the arrays parallel, leaves what was there alone,
   * appends its fixed number of vertices and indices, and its indices name
   * only the vertices it appended.
   */
  lemma RunShape(lib: MathLib, m: Mesh, b: Builder)
    requires WellFormed(m)
    ensures var r := Run(lib, m, b);
            && WellFormed(r)
            && |r.vertices| == |m.vertices| + VerticesAdded(b) && |r.indices| == |m.indices| + IndicesAdded(b)
            && r.vertices[..|m.vertices|] == m.vertices && r.indices[..|m.indices|] == m.indices
            && InRange(r.indices[|m.indices|..], |m.vertices|, |m.vertices| + VerticesAdded(b))
  {
    match b
    case BaseFrame(x, y, z, width, depth, height, bevel, color) =>
      AppendBaseFrameShape(m, x, y, z, width, depth, height, bevel, color);
    case Box(x, y, z, width, height, depth, color) =>
      AppendBoxShape(m, x, y, z, width, height, depth, color);
    case Triangle(x, y, z, width, height, color) =>
      AppendTriangleShape(m, x, y, z, width, height, color);
      assert Shift([0, 1, 2], |m.vertices|)[..] == [|m.vertices|, |m.vertices| + 1, |m.vertices| + 2];
    case PopUp(x, y, z, width, depth, height, angle, hingeZ, bodyColor, panelColor, holeColor) =>
      AppendPopUpShape(m, lib, x, y, z, width, depth, height, angle, hingeZ, bodyColor, panelColor, holeColor);
  }

  /** The arrays after clearing them and running the builder calls `bs` in order. */
  function RunAll(lib: MathLib, bs: seq<Builder>): Mesh
    decreases |bs|
  {
    if |bs| == 0 then EMPTY else Run(lib, RunAll(lib, bs[..|bs| - 1]), bs[|bs| - 1])
  }

  function TotalVertices(bs: seq<Builder>): nat
    decreases |bs|
  {
    if |bs| == 0 then 0 else TotalVertices(bs[..|bs| - 1]) + VerticesAdded(bs[|bs| - 1])
  }

  function TotalIndices(bs: seq<Builder>): nat
    decreases |bs|
  {
    if |bs| == 0 then 0 else TotalIndices(bs[..|bs| - 1]) + IndicesAdded(bs[|bs| - 1])
  }

  /** Running the first k + 1 calls is running the first k, then call k. */
  lemma RunAllStep(lib: MathLib, bs: seq<Builder>, k: nat)
    requires k < |bs|
    ensures RunAll(lib, bs[..k + 1]) == Run(lib, RunAll(lib, bs[..k]), bs[k])
  {
    assert bs[..k + 1][..k] == bs[..k];
  }

  /** The counts of the first k + 1 calls are those of the first k plus call k's. */
  lemma TotalsStep(bs: seq<Builder>, k: nat)
    requires k < |bs|
    ensures TotalVertices(bs[..k + 1]) == TotalVertices(bs[..k]) + VerticesAdded(bs[k])
    ensures TotalIndices(bs[..k + 1]) == TotalIndices(bs[..k]) + IndicesAdded(bs[k])
  {
    assert bs[..k + 1][..k] == bs[..k];
  }

  /**
   * Any sequence of builder calls on cleared arrays leaves them parallel,
   * every index naming a vertex, with exactly the counts the calls add up to.
   */
  lemma {:induction false} RunAllShape(lib: MathLib, bs: seq<Builder>)
    ensures WellFormed(RunAll(lib, bs))
    ensures |RunAll(lib, bs).vertices| == TotalVertices(bs)
    ensures |RunAll(lib, bs).indices| == TotalIndices(bs)
    decreases |bs|
  {
    if |bs| > 0 {
      RunAllShape(lib, bs[..|bs| - 1]);
      RunShape(lib, RunAll(lib, bs[..|bs| - 1]), bs[|bs| - 1]);
    }
  }

  /** The calls of `createFloorSocket`: frame, recess, button, indicator, then the flat cover at exactly 0 degrees or the pop-up. */
  function SocketCalls(coverAngle: real): (bs: seq<Builder>)
    ensures |bs| == 5
  {
    [BaseFrame(0.0, 0.0, 0.0, BASE_WIDTH, BASE_DEPTH, BASE_HEIGHT, BEVEL_SIZE, BASE_COLOR),
     Box(0.0, BASE_HEIGHT / 2.0 - 0.01, 0.0, BASE_WIDTH - BEVEL_SIZE * 2.0, 0.02, BASE_DEPTH - BEVEL_SIZE * 2.0, RECESS_COLOR),
     Box(0.0, BASE_HEIGHT / 2.0, BUTTON_Z, 0.5, 0.02, 0.15, BUTTON_COLOR),
     Triangle(0.0, BASE_HEIGHT / 2.0 + 0.011, BUTTON_Z, 0.1, 0.07, INDICATOR_COLOR),
     if coverAngle == 0.0 then Box(0.0, BASE_HEIGHT / 2.0 - 0.1, 0.0, POPUP_WIDTH, 0.02, POPUP_DEPTH, BASE_COLOR)
     else PopUp(0.0, BASE_HEIGHT / 2.0, 0.0, POPUP_WIDTH, POPUP_DEPTH, POPUP_HEIGHT, 90.0 - coverAngle, HINGE_Z,
                POPUP_BODY_COLOR, SOCKET_PANEL_COLOR, SOCKET_HOLE_COLOR)]
  }

  /** `createFloorSocket()`. */
  function SocketMesh(lib: MathLib, coverAngle: real): Mesh {
    RunAll(lib, SocketCalls(coverAngle))
  }

  const GRID_SIZE: int := 10
  const GRID_STEP: real := 0.5
  const GRID_COLOR: Rgba := Rgba(0.7, 0.7, 0.7, 1.0)
  /** Two vertices for each of the 21 lines in each direction. */
  const GRID_VERTICES: nat := 84

  /** Vertex k (0..41) of the lines along x: line i = k / 2 - 10 at z = i * 0.5, from x = -5 to x = 5. */
  function GridXVertex(k: nat): Vec4 {
    var line := (k / 2) as real - GRID_SIZE as real;
    Point(if k % 2 == 0 then -(GRID_SIZE as real) * GRID_STEP else (GRID_SIZE as real) * GRID_STEP, 0.0, line * GRID_STEP)
  }

  /** Vertex k (0..41) of the lines along z: line i = k / 2 - 10 at x = i * 0.5, from z = -5 to z = 5. */
  function GridZVertex(k: nat): Vec4 {
    var line := (k / 2) as real - GRID_SIZE as real;
    Point(line * GRID_STEP, 0.0, if k % 2 == 0 then -(GRID_SIZE as real) * GRID_STEP else (GRID_SIZE as real) * GRID_STEP)
  }

  function GridVertices(): (vs: seq<Vec4>)
    ensures |vs| == GRID_VERTICES
  {
    seq(42, k requires 0 <= k < 42 => GridXVertex(k)) + seq(42, k requires 0 <= k < 42 => GridZVertex(k))
  }

  /** `createGrid()`: 84 vertices and colours, no indices. */
  function AppendGrid(m: Mesh): Mesh {
    Mesh(m.vertices + GridVertices(), m.colors + Copies(GRID_COLOR, GRID_VERTICES), m.indices)
  }

  /** What `updateBuffers` leaves in the arrays. */
  function Displayed(lib: MathLib, coverAngle: real, showGrid: bool): Mesh {
    var m := SocketMesh(lib, coverAngle);
    if showGrid then AppendGrid(m) else m
  }

  /**
   * A closed socket (angle exactly 0) has 35 vertices and 147 indices; any
   * other angle gives the pop-up: 79 vertices and 267 indices. Either way
   * the arrays are parallel and every index names a vertex.
   */
  lemma SocketMeshShape(lib: MathLib, coverAngle: real)
    ensures var m := SocketMesh(lib, coverAngle);
            && WellFormed(m)
            && (coverAngle == 0.0 ==> |m.vertices| == 35 && |m.indices| == 147)
            && (coverAngle != 0.0 ==> |m.vertices| == 79 && |m.indices| == 267)
  {
    var bs := SocketCalls(coverAngle);
    RunAllShape(lib, bs);
    assert TotalVertices(bs[..0]) == 0 && TotalIndices(bs[..0]) == 0;
    TotalsStep(bs, 0);
    TotalsStep(bs, 1);
    TotalsStep(bs, 2);
    TotalsStep(bs, 3);
    TotalsStep(bs, 4);
    assert bs[..5] == bs;
  }

  /**
   * The grid comes last and adds no indices, so no index names a grid
   * vertex, and `vertices.length - 84` is exactly where the grid starts,
   * as `render` assumes.
   */
  lemma GridAfterIndexedGeometry(lib: MathLib, coverAngle: real)
    ensures var m := SocketMesh(lib, coverAngle);
            var d := Displayed(lib, coverAngle, true);
            && WellFormed(d)
            && d.indices == m.indices
            && |d.vertices| - GRID_VERTICES == |m.vertices|
            && d.vertices[..|m.vertices|] == m.vertices
            && InRange(d.indices, 0, |d.vertices| - GRID_VERTICES)
  {
    var m := SocketMesh(lib, coverAngle);
    SocketMeshShape(lib, coverAngle);
    assert AppendGrid(m) == AppendBlock(m, GridVertices(), Copies(GRID_COLOR, GRID_VERTICES), []);
    AppendUnindexed(m, GridVertices(), Copies(GRID_COLOR, GRID_VERTICES));
  }
}
