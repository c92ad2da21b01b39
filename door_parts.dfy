/**
 * The door's primitive builders. Each works on one part's local arrays
 * (positions, normals, texture coordinates and colours, kept parallel),
 * which the caller later transforms into the scene's buffers. Points on a
 * circle come from `lib.circle`, normals go through `lib.normalize`.
 *
 * The functions in the first half say which vertices and normals a
 * builder appends; the methods of `PartMesh` are proved to append exactly
 * those.
 */
module DoorParts {
  import opened Algebra
  import opened Buffers

  /** Segments of a frame cylinder (createFrameCylinder). */
  const CYLINDER_SEGMENTS: nat := 16
  /** Vertices a frame cylinder appends: 16 side quads and two caps of 16 triangles. */
  const CYLINDER_VERTICES: nat := 160
  /** Vertices a box (createFrameRect) appends: 6 quads. */
  const BOX_VERTICES: nat := 24

  const QUAD_UV: seq<Vec2> := [Vec2(0.0, 0.0), Vec2(1.0, 0.0), Vec2(1.0, 1.0), Vec2(0.0, 1.0)]
  const TRIANGLE_UV: seq<Vec2> := [Vec2(0.0, 0.0), Vec2(1.0, 0.0), Vec2(0.5, 1.0)]

  /** The six face normals of a box, in the order createFrameRect adds its faces. */
  const BOX_NORMALS: seq<Vec3> := [Vec3(0.0, 0.0, 1.0), Vec3(0.0, 0.0, -1.0), Vec3(0.0, 1.0, 0.0),
                                   Vec3(0.0, -1.0, 0.0), Vec3(1.0, 0.0, 0.0), Vec3(-1.0, 0.0, 0.0)]

  // ---------------------------------------------------------------------
  // Frame cylinders

  /**
   * The point at (cos, sin) `c` on the circle of radius r around (x, y, 0):
   * in the y-z plane for a horizontal cylinder (axis along x), in the x-z
   * plane for a vertical one (axis along y).
   */
  function RimPoint(x: real, y: real, r: real, isHorizontal: bool, c: CosSin): Vec4 {
    if isHorizontal then Point(x, y + r * c.cos, r * c.sin) else Point(x + r * c.cos, y, r * c.sin)
  }

  /** The far end of a cylinder's axis: `length` along x or along y from (x, y). */
  function FarX(x: real, length: real, isHorizontal: bool): real {
    if isHorizontal then x + length else x
  }

  function FarY(y: real, length: real, isHorizontal: bool): real {
    if isHorizontal then y else y + length
  }

  /** The displacement from one end of a cylinder's axis to the other. */
  function Along(length: real, isHorizontal: bool): Vec4 {
    if isHorizontal then Vec4(length, 0.0, 0.0, 0.0) else Vec4(0.0, length, 0.0, 0.0)
  }

  /** The centre of a cylinder's first cap (left or bottom end). */
  function FirstCapCentre(x: real, y: real): Vec4 {
    Point(x, y, 0.0)
  }

  /** The centre of a cylinder's second cap (right or top end). */
  function SecondCapCentre(x: real, y: real, length: real, isHorizontal: bool): Vec4 {
    Point(FarX(x, length, isHorizontal), FarY(y, length, isHorizontal), 0.0)
  }

  /** The outward normal of a cylinder's first cap. */
  function FirstCapNormal(isHorizontal: bool): Vec3 {
    if isHorizontal then Vec3(-1.0, 0.0, 0.0) else Vec3(0.0, -1.0, 0.0)
  }

  /** The outward normal of a cylinder's second cap. */
  function SecondCapNormal(isHorizontal: bool): Vec3 {
    if isHorizontal then Vec3(1.0, 0.0, 0.0) else Vec3(0.0, 1.0, 0.0)
  }

  /** Side quad i of a frame cylinder: from angle i/16 to angle (i+1)/16, along the full length. */
  function SideQuad(x: real, y: real, length: real, r: real, isHorizontal: bool, lib: MathLib, i: nat): seq<Vec4> {
    var c1 := lib.circle(i, CYLINDER_SEGMENTS);
    var c2 := lib.circle(i + 1, CYLINDER_SEGMENTS);
    var fx := FarX(x, length, isHorizontal);
    var fy := FarY(y, length, isHorizontal);
    [RimPoint(x, y, r, isHorizontal, c1), RimPoint(fx, fy, r, isHorizontal, c1),
     RimPoint(fx, fy, r, isHorizontal, c2), RimPoint(x, y, r, isHorizontal, c2)]
  }

  /** The normal of side quad i: the normalised mid-direction of its two angles, across the axis. */
  function SideNormal(isHorizontal: bool, lib: MathLib, i: nat): Vec3 {
    var c1 := lib.circle(i, CYLINDER_SEGMENTS);
    var c2 := lib.circle(i + 1, CYLINDER_SEGMENTS);
    if isHorizontal then lib.normalize(Vec3(0.0, (c1.cos + c2.cos) / 2.0, (c1.sin + c2.sin) / 2.0))
    else lib.normalize(Vec3((c1.cos + c2.cos) / 2.0, 0.0, (c1.sin + c2.sin) / 2.0))
  }

  /** The first n side quads. */
  function Sides(x: real, y: real, length: real, r: real, isHorizontal: bool, lib: MathLib, n: nat): (s: seq<Vec4>)
    ensures |s| == 4 * n
  {
    if n == 0 then [] else Sides(x, y, length, r, isHorizontal, lib, n - 1) + SideQuad(x, y, length, r, isHorizontal, lib, n - 1)
  }

  function SideNormals(isHorizontal: bool, lib: MathLib, n: nat): (s: seq<Vec3>)
    ensures |s| == 4 * n
  {
    if n == 0 then [] else SideNormals(isHorizontal, lib, n - 1) + Copies(SideNormal(isHorizontal, lib, n - 1), 4)
  }

  /**
   * Triangle i of a cap around `centre` at (x, y): the centre, then the rim
   * points of angles i/16 and (i+1)/16, in the other order when `reversed`.
   */
  function FanTriangle(centre: Vec4, x: real, y: real, r: real, isHorizontal: bool, reversed: bool,
                       lib: MathLib, i: nat): seq<Vec4> {
    var p1 := RimPoint(x, y, r, isHorizontal, lib.circle(i, CYLINDER_SEGMENTS));
    var p2 := RimPoint(x, y, r, isHorizontal, lib.circle(i + 1, CYLINDER_SEGMENTS));
    if reversed then [centre, p2, p1] else [centre, p1, p2]
  }

  /** The first n triangles of a cap. */
  function Fan(centre: Vec4, x: real, y: real, r: real, isHorizontal: bool, reversed: bool,
               lib: MathLib, n: nat): (s: seq<Vec4>)
    ensures |s| == 3 * n
  {
    if n == 0 then []
    else Fan(centre, x, y, r, isHorizontal, reversed, lib, n - 1)
         + FanTriangle(centre, x, y, r, isHorizontal, reversed, lib, n - 1)
  }

  /** Everything `createFrameCylinder` appends to the positions: sides, first cap, second cap. */
  function CylinderVertices(x: real, y: real, length: real, r: real, isHorizontal: bool, lib: MathLib): (s: seq<Vec4>)
    ensures |s| == CYLINDER_VERTICES
  {
    Sides(x, y, length, r, isHorizontal, lib, CYLINDER_SEGMENTS)
    + Fan(FirstCapCentre(x, y), x, y, r, isHorizontal, false, lib, CYLINDER_SEGMENTS)
    + Fan(SecondCapCentre(x, y, length, isHorizontal), FarX(x, length, isHorizontal), FarY(y, length, isHorizontal),
          r, isHorizontal, true, lib, CYLINDER_SEGMENTS)
  }

  /** Everything `createFrameCylinder` appends to the normals. */
  function CylinderNormals(isHorizontal: bool, lib: MathLib): (s: seq<Vec3>)
    ensures |s| == CYLINDER_VERTICES
  {
    SideNormals(isHorizontal, lib, CYLINDER_SEGMENTS)
    + Copies(FirstCapNormal(isHorizontal), 48) + Copies(SecondCapNormal(isHorizontal), 48)
  }

  /** Every triangle of a cap starts at the cap's centre. */
  lemma {:induction false} FanStartsAtCentre(centre: Vec4, x: real, y: real, r: real, isHorizontal: bool,
                                             reversed: bool, lib: MathLib, n: nat)
    ensures forall j :: 0 <= j < n ==> Fan(centre, x, y, r, isHorizontal, reversed, lib, n)[3 * j] == centre
  {
    if n > 0 {
      FanStartsAtCentre(centre, x, y, r, isHorizontal, reversed, lib, n - 1);
      var prev := Fan(centre, x, y, r, isHorizontal, reversed, lib, n - 1);
      var s := Fan(centre, x, y, r, isHorizontal, reversed, lib, n);
      forall j | 0 <= j < n
        ensures s[3 * j] == centre
      {
        if j < n - 1 {
          assert s[3 * j] == prev[3 * j];
        }
      }
    }
  }

  /**
   * A cap has no gaps: the rim point at which one triangle ends is the rim
   * point at which the next one begins (the two middle corners for the
   * reversed winding).
   */
  lemma {:induction false} FanIsClosedChain(centre: Vec4, x: real, y: real, r: real, isHorizontal: bool,
                                            reversed: bool, lib: MathLib, n: nat)
    ensures var s := Fan(centre, x, y, r, isHorizontal, reversed, lib, n);
            forall j :: 0 <= j < n - 1 ==>
              if reversed then s[3 * j + 1] == s[3 * (j + 1) + 2] else s[3 * j + 2] == s[3 * (j + 1) + 1]
  {
    if n > 1 {
      FanIsClosedChain(centre, x, y, r, isHorizontal, reversed, lib, n - 1);
      var prev := Fan(centre, x, y, r, isHorizontal, reversed, lib, n - 1);
      var s := Fan(centre, x, y, r, isHorizontal, reversed, lib, n);
      forall j | 0 <= j < n - 1
        ensures if reversed then s[3 * j + 1] == s[3 * (j + 1) + 2] else s[3 * j + 2] == s[3 * (j + 1) + 1]
      {
        if j < n - 2 {
          assert s[3 * j + 1] == prev[3 * j + 1] && s[3 * j + 2] == prev[3 * j + 2];
          assert s[3 * (j + 1) + 1] == prev[3 * (j + 1) + 1] && s[3 * (j + 1) + 2] == prev[3 * (j + 1) + 2];
        } else {
          assert s[3 * j + 1] == prev[3 * j + 1] && s[3 * j + 2] == prev[3 * j + 2];
        }
      }
    }
  }

  /** Each of the n quads in `s` runs along the axis: its second corner is its first moved by `length`. */
  ghost predicate QuadsSpan(s: seq<Vec4>, length: real, isHorizontal: bool, n: nat)
    requires |s| == 4 * n
  {
    forall j :: 0 <= j < n ==> s[4 * j + 1] == Add(s[4 * j], Along(length, isHorizontal))
  }

  /** Side quad j of a cylinder runs the full length of the axis. */
  lemma {:induction false} SidesSpanLength(x: real, y: real, length: real, r: real, isHorizontal: bool, lib: MathLib, n: nat)
    ensures QuadsSpan(Sides(x, y, length, r, isHorizontal, lib, n), length, isHorizontal, n)
  {
    if n > 0 {
      SidesSpanLength(x, y, length, r, isHorizontal, lib, n - 1);
      var prev := Sides(x, y, length, r, isHorizontal, lib, n - 1);
      var s := Sides(x, y, length, r, isHorizontal, lib, n);
      var q := SideQuad(x, y, length, r, isHorizontal, lib, n - 1);
      assert s == prev + q;
      forall j | 0 <= j < n
        ensures s[4 * j + 1] == Add(s[4 * j], Along(length, isHorizontal))
      {
        if j < n - 1 {
          assert s[4 * j] == prev[4 * j] && s[4 * j + 1] == prev[4 * j + 1];
        } else {
          assert s[4 * j] == q[0] && s[4 * j + 1] == q[1];
        }
      }
    }
  }

  /** The squared distance of a point from the axis through (x, y, 0) along x or along y. */
  function AxisDistanceSquared(p: Vec4, x: real, y: real, isHorizontal: bool): real {
    if isHorizontal then (p.y - y) * (p.y - y) + p.z * p.z else (p.x - x) * (p.x - x) + p.z * p.z
  }

  /** When `c` is a true (cos, sin) pair, a rim point lies at distance r from the cylinder's axis. */
  lemma RimPointOnCircle(x: real, y: real, r: real, isHorizontal: bool, c: CosSin)
    requires OnUnitCircle(c)
    ensures AxisDistanceSquared(RimPoint(x, y, r, isHorizontal, c), x, y, isHorizontal) == r * r
  {
    var p := RimPoint(x, y, r, isHorizontal, c);
    assert AxisDistanceSquared(p, x, y, isHorizontal) == r * r * (c.cos * c.cos + c.sin * c.sin);
  }

  /** The two caps sit on the two ends of the axis and face away from each other. */
  lemma CylinderCapsAtEnds(x: real, y: real, length: real, r: real, isHorizontal: bool, lib: MathLib)
    ensures var s := CylinderVertices(x, y, length, r, isHorizontal, lib);
            forall j :: 0 <= j < 16 ==>
              s[64 + 3 * j] == FirstCapCentre(x, y) && s[112 + 3 * j] == SecondCapCentre(x, y, length, isHorizontal)
    ensures Add(FirstCapCentre(x, y), Along(length, isHorizontal))
         == SecondCapCentre(x, y, length, isHorizontal)
    ensures var n1, n2 := FirstCapNormal(isHorizontal), SecondCapNormal(isHorizontal);
            n1 == Vec3(-n2.x, -n2.y, -n2.z)
  {
    var sides := Sides(x, y, length, r, isHorizontal, lib, CYLINDER_SEGMENTS);
    var fan1 := Fan(FirstCapCentre(x, y), x, y, r, isHorizontal, false, lib, CYLINDER_SEGMENTS);
    var fan2 := Fan(SecondCapCentre(x, y, length, isHorizontal), FarX(x, length, isHorizontal), FarY(y, length, isHorizontal),
                    r, isHorizontal, true, lib, CYLINDER_SEGMENTS);
    FanStartsAtCentre(FirstCapCentre(x, y), x, y, r, isHorizontal, false, lib, CYLINDER_SEGMENTS);
    FanStartsAtCentre(SecondCapCentre(x, y, length, isHorizontal), FarX(x, length, isHorizontal), FarY(y, length, isHorizontal),
                      r, isHorizontal, true, lib, CYLINDER_SEGMENTS);
    var s := CylinderVertices(x, y, length, r, isHorizontal, lib);
    forall j | 0 <= j < 16
      ensures s[64 + 3 * j] == FirstCapCentre(x, y) && s[112 + 3 * j] == SecondCapCentre(x, y, length, isHorizontal)
    {
      assert s[64 + 3 * j] == fan1[3 * j];
      assert s[112 + 3 * j] == fan2[3 * j];
    }
  }

  // ---------------------------------------------------------------------
  // Boxes

  /** The 24 corners `createFrameRect` appends: front, back, top, bottom, right and left faces. */
  function BoxVertices(x: real, y: real, width: real, height: real, thickness: real): (s: seq<Vec4>)
    ensures |s| == BOX_VERTICES
  {
    var w2 := width / 2.0;
    var h2 := height / 2.0;
    var t2 := thickness / 2.0;
    var cx := x + width / 2.0;
    var cy := y + height / 2.0;
    var v0, v1 := Point(cx - w2, cy - h2, t2), Point(cx + w2, cy - h2, t2);
    var v2, v3 := Point(cx + w2, cy + h2, t2), Point(cx - w2, cy + h2, t2);
    var v4, v5 := Point(cx - w2, cy - h2, -t2), Point(cx + w2, cy - h2, -t2);
    var v6, v7 := Point(cx + w2, cy + h2, -t2), Point(cx - w2, cy + h2, -t2);
    [v0, v1, v2, v3] + [v5, v4, v7, v6] + [v3, v2, v6, v7] + [v4, v5, v1, v0] + [v1, v5, v6, v2] + [v4, v0, v3, v7]
  }

  /** The normals `createFrameRect` appends: each face's four corners carry that face's normal. */
  function BoxNormals(): (s: seq<Vec3>)
    ensures |s| == BOX_VERTICES
  {
    Copies(BOX_NORMALS[0], 4) + Copies(BOX_NORMALS[1], 4) + Copies(BOX_NORMALS[2], 4)
    + Copies(BOX_NORMALS[3], 4) + Copies(BOX_NORMALS[4], 4) + Copies(BOX_NORMALS[5], 4)
  }

  /** Every face of a box is flat and faces outward: all four of its corners lie on the face's plane, off the centre along its normal. */
  lemma BoxFacesOnTheirPlanes(x: real, y: real, width: real, height: real, thickness: real)
    ensures var s := BoxVertices(x, y, width, height, thickness);
            var c := Point(x + width / 2.0, y + height / 2.0, 0.0);
            var half := Vec3(width / 2.0, height / 2.0, thickness / 2.0);
            forall k :: 0 <= k < BOX_VERTICES ==>
              var nm := BoxNormals()[k];
              (s[k].x - c.x) * nm.x + (s[k].y - c.y) * nm.y + (s[k].z - c.z) * nm.z
              == half.x * nm.x * nm.x + half.y * nm.y * nm.y + half.z * nm.z * nm.z
  {
  }

  /** One part's local geometry: four parallel arrays that the builders push onto. */
  class PartMesh {
    var vertices: seq<Vec4>
    var normals: seq<Vec3>
    var texCoords: seq<Vec2>
    var colors: seq<Rgba>

    /** The invariant every builder keeps: one normal, texture coordinate and colour per vertex. */
    ghost predicate Parallel()
      reads this
    {
      |normals| == |vertices| && |texCoords| == |vertices| && |colors| == |vertices|
    }

    constructor ()
      ensures vertices == [] && normals == [] && texCoords == [] && colors == []
      ensures Parallel()
    {
      vertices, normals, texCoords, colors := [], [], [], [];
    }

    /** `addQuad`: four vertices sharing one normal and one colour, with the corners of the texture. */
    method AddQuad(v1: Vec4, v2: Vec4, v3: Vec4, v4: Vec4, normal: Vec3, color: Rgba)
      modifies this
      ensures vertices == old(vertices) + [v1, v2, v3, v4]
      ensures normals == old(normals) + Copies(normal, 4)
      ensures colors == old(colors) + Copies(color, 4)
      ensures texCoords == old(texCoords) + QUAD_UV
      ensures old(Parallel()) ==> Parallel()
    {
      vertices := vertices + [v1, v2, v3, v4];
      var i := 0;
      while i < 4
        invariant 0 <= i <= 4
        invariant vertices == old(vertices) + [v1, v2, v3, v4] && texCoords == old(texCoords)
        invariant normals == old(normals) + Copies(normal, i)
        invariant colors == old(colors) + Copies(color, i)
      {
        normals := normals + [normal];
        colors := colors + [color];
        i := i + 1;
      }
      texCoords := texCoords + QUAD_UV;
    }

    /** `addTriangle`: three vertices sharing one normal and one colour. */
    method AddTriangle(v1: Vec4, v2: Vec4, v3: Vec4, normal: Vec3, color: Rgba)
      modifies this
      ensures vertices == old(vertices) + [v1, v2, v3]
      ensures normals == old(normals) + Copies(normal, 3)
      ensures colors == old(colors) + Copies(color, 3)
      ensures texCoords == old(texCoords) + TRIANGLE_UV
      ensures old(Parallel()) ==> Parallel()
    {
      vertices := vertices + [v1, v2, v3];
      normals := normals + [normal, normal, normal];
      colors := colors + [color, color, color];
      texCoords := texCoords + TRIANGLE_UV;
    }

    /**
     * `createFrameCylinder`: 16 side quads (64 vertices), then the first
     * and the second cap of 16 triangles each (48 vertices per cap).
     */
    method CreateFrameCylinder(xStart: real, yStart: real, length: real, radius: real,
                               color: Rgba, isHorizontal: bool, lib: MathLib)
      requires Parallel()
      modifies this
      ensures Parallel()
      ensures vertices == old(vertices) + CylinderVertices(xStart, yStart, length, radius, isHorizontal, lib)
      ensures normals == old(normals) + CylinderNormals(isHorizontal, lib)
      ensures colors == old(colors) + Copies(color, CYLINDER_VERTICES)
    {
      AddSides(xStart, yStart, length, radius, color, isHorizontal, lib);
      // The first cap sits at the start of the axis, the second at its far
      // end, wound the other way round so that both face outward.
      var farX := FarX(xStart, length, isHorizontal);
      var farY := FarY(yStart, length, isHorizontal);
      AddCap(FirstCapCentre(xStart, yStart), xStart, yStart, radius,
             FirstCapNormal(isHorizontal), color, isHorizontal, false, lib);
      AddCap(SecondCapCentre(xStart, yStart, length, isHorizontal), farX, farY, radius,
             SecondCapNormal(isHorizontal), color, isHorizontal, true, lib);
    }

    /** The side of `createFrameCylinder`: 16 quads around the axis, each along the full length. */
    method AddSides(xStart: real, yStart: real, length: real, radius: real,
                    color: Rgba, isHorizontal: bool, lib: MathLib)
      requires Parallel()
      modifies this
      ensures Parallel()
      ensures vertices == old(vertices) + Sides(xStart, yStart, length, radius, isHorizontal, lib, CYLINDER_SEGMENTS)
      ensures normals == old(normals) + SideNormals(isHorizontal, lib, CYLINDER_SEGMENTS)
      ensures colors == old(colors) + Copies(color, 4 * CYLINDER_SEGMENTS)
    {
      var segments := CYLINDER_SEGMENTS;
      var i := 0;
      while i < segments
        invariant 0 <= i <= segments
        invariant Parallel()
        invariant vertices == old(vertices) + Sides(xStart, yStart, length, radius, isHorizontal, lib, i)
        invariant normals == old(normals) + SideNormals(isHorizontal, lib, i)
        invariant colors == old(colors) + Copies(color, 4 * i)
      {
        // The four corners and the normal at angles i/16 and (i+1)/16, as SideQuad and SideNormal give them.
        var q := SideQuad(xStart, yStart, length, radius, isHorizontal, lib, i);
        var normal := SideNormal(isHorizontal, lib, i);
        AddQuad(q[0], q[1], q[2], q[3], normal, color);
        assert [q[0], q[1], q[2], q[3]] == q;
        AppendTwice(old(vertices), Sides(xStart, yStart, length, radius, isHorizontal, lib, i), q);
        AppendTwice(old(normals), SideNormals(isHorizontal, lib, i), Copies(normal, 4));
        AppendCopies(old(colors), color, 4 * i, 4);
        i := i + 1;
      }
    }

    /**
     * One cap of `createFrameCylinder`: 16 triangles fanned from `centre`,
     * the cap's centre (x, y) in the cap's plane.
     */
    method AddCap(centre: Vec4, x: real, y: real, radius: real, normal: Vec3, color: Rgba,
                  isHorizontal: bool, reversed: bool, lib: MathLib)
      requires Parallel()
      modifies this
      ensures Parallel()
      ensures vertices == old(vertices) + Fan(centre, x, y, radius, isHorizontal, reversed, lib, CYLINDER_SEGMENTS)
      ensures normals == old(normals) + Copies(normal, 48)
      ensures colors == old(colors) + Copies(color, 48)
    {
      var segments := CYLINDER_SEGMENTS;
      var i := 0;
      while i < segments
        invariant 0 <= i <= segments
        invariant Parallel()
        invariant vertices == old(vertices) + Fan(centre, x, y, radius, isHorizontal, reversed, lib, i)
        invariant normals == old(normals) + Copies(normal, 3 * i)
        invariant colors == old(colors) + Copies(color, 3 * i)
      {
        // The centre and the rim points at angles i/16 and (i+1)/16, as FanTriangle gives them.
        var t := FanTriangle(centre, x, y, radius, isHorizontal, reversed, lib, i);
        AddTriangle(t[0], t[1], t[2], normal, color);
        assert [t[0], t[1], t[2]] == t;
        AppendTwice(old(vertices), Fan(centre, x, y, radius, isHorizontal, reversed, lib, i), t);
        AppendCopies(old(normals), normal, 3 * i, 3);
        AppendCopies(old(colors), color, 3 * i, 3);
        i := i + 1;
      }
    }

    /** `createFrameRect`: a box of six quads, each with its axis-aligned face normal. */
    method CreateFrameRect(x: real, y: real, width: real, height: real, thickness: real, color: Rgba)
      requires Parallel()
      modifies this
      ensures Parallel()
      ensures vertices == old(vertices) + BoxVertices(x, y, width, height, thickness)
      ensures normals == old(normals) + BoxNormals()
      ensures colors == old(colors) + Copies(color, BOX_VERTICES)
    {
      var w2 := width / 2.0;
      var h2 := height / 2.0;
      var t2 := thickness / 2.0;
      var cx := x + width / 2.0;
      var cy := y + height / 2.0;
      var v := [Point(cx - w2, cy - h2, t2), Point(cx + w2, cy - h2, t2),
                Point(cx + w2, cy + h2, t2), Point(cx - w2, cy + h2, t2),
                Point(cx - w2, cy - h2, -t2), Point(cx + w2, cy - h2, -t2),
                Point(cx + w2, cy + h2, -t2), Point(cx - w2, cy + h2, -t2)];
      AddQuad(v[0], v[1], v[2], v[3], BOX_NORMALS[0], color);   // front
      AddQuad(v[5], v[4], v[7], v[6], BOX_NORMALS[1], color);   // back
      AddQuad(v[3], v[2], v[6], v[7], BOX_NORMALS[2], color);   // top
      AddQuad(v[4], v[5], v[1], v[0], BOX_NORMALS[3], color);   // bottom
      AddQuad(v[1], v[5], v[6], v[2], BOX_NORMALS[4], color);   // right
      AddQuad(v[4], v[0], v[3], v[7], BOX_NORMALS[5], color);   // left
      AppendSix(old(vertices), [v[0], v[1], v[2], v[3]], [v[5], v[4], v[7], v[6]], [v[3], v[2], v[6], v[7]],
                [v[4], v[5], v[1], v[0]], [v[1], v[5], v[6], v[2]], [v[4], v[0], v[3], v[7]]);
      AppendSix(old(normals), Copies(BOX_NORMALS[0], 4), Copies(BOX_NORMALS[1], 4), Copies(BOX_NORMALS[2], 4),
                Copies(BOX_NORMALS[3], 4), Copies(BOX_NORMALS[4], 4), Copies(BOX_NORMALS[5], 4));
      var c4 := Copies(color, 4);
      AppendSix(old(colors), c4, c4, c4, c4, c4, c4);
      CopiesAppend(color, 4, 4);
      CopiesAppend(color, 8, 4);
      CopiesAppend(color, 12, 4);
      CopiesAppend(color, 16, 4);
      CopiesAppend(color, 20, 4);
    }

    /** `createPanelFill`: a frame box whose thickness is 0.8 of the given one. */
    method CreatePanelFill(x: real, y: real, width: real, height: real, thickness: real, color: Rgba)
      requires Parallel()
      modifies this
      ensures Parallel()
      ensures vertices == old(vertices) + BoxVertices(x, y, width, height, thickness * 0.8)
      ensures normals == old(normals) + BoxNormals()
      ensures colors == old(colors) + Copies(color, BOX_VERTICES)
    {
      CreateFrameRect(x, y, width, height, thickness * 0.8, color);
    }
  }
}
