/**
 * The folding door's index buffer. `updateBuffers` treats the vertex array
 * as consecutive quads of four vertices and emits two triangles per quad:
 * (b, b+1, b+2) and (b, b+2, b+3) with b = 4 * quad. The quad count is the
 * floating-point quotient `vertices.length / 4`, and the loop runs while the
 * quad number is below it, so a partial last quad still gets its indices.
 * WebGL receives the indices as a `Uint16Array`.
 */
module QuadIndexing {

  /** The largest value a Uint16Array element holds. */
  const UINT16_MAX: int := 0xFFFF

  /** The quads the index loop visits for n vertices: the least q with 4q >= n. */
  function QuadCount(n: nat): nat {
    (n + 3) / 4
  }

  /** The six indices of quad i. */
  function QuadPattern(i: nat): seq<int> {
    var b := 4 * i;
    [b, b + 1, b + 2, b, b + 2, b + 3]
  }

  /** The indices of the first q quads, in the order the loop pushes them. */
  function QuadIndices(q: nat): (s: seq<int>)
    ensures |s| == 6 * q
  {
    if q == 0 then [] else QuadIndices(q - 1) + QuadPattern(q - 1)
  }

  /** The loop test `i < vertices.length / 4` on reals is the integer test 4i < n. */
  lemma LoopTestIsIntegral(i: nat, n: nat)
    ensures ((i as real) < (n as real) / 4.0) <==> 4 * i < n
  {
    assert (n as real) / 4.0 * 4.0 == n as real;
    assert ((4 * i) as real) == 4.0 * (i as real);
  }

  /** The loop test holds for exactly the quads counted by QuadCount. */
  lemma LoopRunsQuadCountTimes(i: nat, n: nat)
    ensures ((i as real) < (n as real) / 4.0) <==> i < QuadCount(n)
  {
    LoopTestIsIntegral(i, n);
  }

  /** Quad j's six indices sit at positions 6j..6j+5, whatever the number of quads after it. */
  lemma {:induction false} QuadIndicesAt(q: nat, j: nat)
    requires j < q
    ensures forall k :: 0 <= k < 6 ==> QuadIndices(q)[6 * j + k] == QuadPattern(j)[k]
  {
    if j < q - 1 {
      QuadIndicesAt(q - 1, j);
      var prefix := QuadIndices(q - 1);
      assert QuadIndices(q) == prefix + QuadPattern(q - 1);
      forall k | 0 <= k < 6
        ensures QuadIndices(q)[6 * j + k] == QuadPattern(j)[k]
      {
        assert QuadIndices(q)[6 * j + k] == prefix[6 * j + k];
      }
    }
  }

  /** Every index lies in [0, 4q): the q quads never name a vertex outside their 4q vertices. */
  lemma {:induction false} QuadIndicesInRange(q: nat)
    ensures forall k :: 0 <= k < |QuadIndices(q)| ==> 0 <= QuadIndices(q)[k] < 4 * q
  {
    if q > 0 {
      QuadIndicesInRange(q - 1);
      var s := QuadIndices(q);
      forall k | 0 <= k < |s|
        ensures 0 <= s[k] < 4 * q
      {
        if k < 6 * (q - 1) {
          assert s[k] == QuadIndices(q - 1)[k];
        } else {
          assert s[k] == QuadPattern(q - 1)[k - 6 * (q - 1)];
        }
      }
    }
  }

  /** Every vertex of the q quads is used by some index. */
  lemma QuadIndicesCoverVertices(q: nat, v: nat)
    requires v < 4 * q
    ensures v in QuadIndices(q)
  {
    var j := v / 4;
    QuadIndicesAt(q, j);
    var s := QuadIndices(q);
    // Corners 0, 1 and 2 of quad j appear in its first triangle, corner 3 last.
    var k := if v % 4 == 3 then 5 else v % 4;
    assert s[6 * j + k] == QuadPattern(j)[k] == v;
  }

  /**
   * Triangle t (indices 3t..3t+2) uses vertices of quad t / 2 only; the two
   * triangles of a quad share its diagonal (b, b+2) and together use all four corners.
   */
  lemma TrianglesStayInTheirQuad(q: nat, t: nat)
    requires t < 2 * q
    ensures var s := QuadIndices(q);
            var b := 4 * (t / 2);
            s[3 * t] == b
            && (if t % 2 == 0 then s[3 * t + 1] == b + 1 && s[3 * t + 2] == b + 2
                else s[3 * t + 1] == b + 2 && s[3 * t + 2] == b + 3)
  {
    var j := t / 2;
    QuadIndicesAt(q, j);
    var s := QuadIndices(q);
    var k := 3 * t - 6 * j;
    assert s[6 * j + k] == QuadPattern(j)[k];
    assert s[6 * j + k + 1] == QuadPattern(j)[k + 1];
    assert s[6 * j + k + 2] == QuadPattern(j)[k + 2];
  }

  /**
   * For the scene's 7008 vertices the loop visits 1752 quads, and every
   * index names an existing vertex and fits a Uint16Array element, so the
   * conversion keeps every value.
   */
  lemma SceneIndicesFitUint16(n: nat)
    requires n % 4 == 0 && n <= UINT16_MAX + 1
    ensures 4 * QuadCount(n) == n
    ensures forall k :: 0 <= k < |QuadIndices(QuadCount(n))| ==> 0 <= QuadIndices(QuadCount(n))[k] < n
    ensures forall k :: 0 <= k < |QuadIndices(QuadCount(n))| ==> QuadIndices(QuadCount(n))[k] <= UINT16_MAX
  {
    QuadIndicesInRange(QuadCount(n));
  }

  /**
   * When the vertex count is not a multiple of four, the last quad is
   * partial and its indices name vertices past the end of the array.
   */
  lemma PartialQuadOverruns(n: nat)
    requires n % 4 != 0
    ensures var s := QuadIndices(QuadCount(n));
            |s| >= 6 && s[|s| - 1] >= n
  {
    var q := QuadCount(n);
    QuadIndicesAt(q, q - 1);
    var s := QuadIndices(q);
    assert s[6 * (q - 1) + 5] == QuadPattern(q - 1)[5];
  }

  /**
   * Triangles pushed as three vertices into the quad stream: a triangle
   * whose three vertices start at position p with p % 4 == 2 straddles two
   * quads, so no index triangle uses those three vertices together. In a
   * frame cylinder's cap, triangle 2 starts 70 vertices after the cylinder's
   * first vertex, and every cylinder starts at a multiple of four.
   */
  lemma StraddlingTriangleNotIndexed(q: nat, p: nat)
    requires p % 4 == 2
    ensures var s := QuadIndices(q);
            forall t :: 0 <= t < 2 * q ==>
              var tri := [s[3 * t], s[3 * t + 1], s[3 * t + 2]];
              !(p in tri && p + 2 in tri)
  {
    var s := QuadIndices(q);
    forall t | 0 <= t < 2 * q
      ensures var tri := [s[3 * t], s[3 * t + 1], s[3 * t + 2]];
              !(p in tri && p + 2 in tri)
    {
      TrianglesStayInTheirQuad(q, t);
      var b := 4 * (t / 2);
      assert b <= s[3 * t] < b + 4 && b <= s[3 * t + 1] < b + 4 && b <= s[3 * t + 2] < b + 4;
    }
  }
}
