/**
 * The hard-coded box `Table::Load` uploads: 24 vertices of six floats
 * (position, then normal), four per face, and 36 element indices, two
 * triangles per face, all drawn by one `glDrawElements` call.
 */
module TableMesh {
  import opened Vectors
  import Billiards


  const VERTEX_COUNT: nat := 24

  const FACE_COUNT: nat := 6

  /** The `count` argument of `glDrawElements` in `Table::Render`. */
  const DRAW_COUNT: nat := 36

  /** The `vertices` array of `Table::Load`, face by face as the source lays it out. */
  const TableVertices: seq<real> := ((FrontFace + BackFace) + (RightFace + LeftFace)) + (TopFace + BottomFace)

  const FrontFace: seq<real> :=
    ([-0.9, -0.05, 0.45, 0.0, 0.0, 1.0] + [0.9, -0.05, 0.45, 0.0, 0.0, 1.0]) +
    ([0.9, 0.05, 0.45, 0.0, 0.0, 1.0] + [-0.9, 0.05, 0.45, 0.0, 0.0, 1.0])

  const BackFace: seq<real> :=
    ([-0.9, -0.05, -0.45, 0.0, 0.0, -1.0] + [-0.9, 0.05, -0.45, 0.0, 0.0, -1.0]) +
    ([0.9, 0.05, -0.45, 0.0, 0.0, -1.0] + [0.9, -0.05, -0.45, 0.0, 0.0, -1.0])

  const RightFace: seq<real> :=
    ([0.9, -0.05, 0.45, 1.0, 0.0, 0.0] + [0.9, -0.05, -0.45, 1.0, 0.0, 0.0]) +
    ([0.9, 0.05, -0.45, 1.0, 0.0, 0.0] + [0.9, 0.05, 0.45, 1.0, 0.0, 0.0])

  const LeftFace: seq<real> :=
    ([-0.9, -0.05, 0.45, -1.0, 0.0, 0.0] + [-0.9, 0.05, 0.45, -1.0, 0.0, 0.0]) +
    ([-0.9, 0.05, -0.45, -1.0, 0.0, 0.0] + [-0.9, -0.05, -0.45, -1.0, 0.0, 0.0])

  const TopFace: seq<real> :=
    ([-0.9, 0.05, 0.45, 0.0, 1.0, 0.0] + [0.9, 0.05, 0.45, 0.0, 1.0, 0.0]) +
    ([0.9, 0.05, -0.45, 0.0, 1.0, 0.0] + [-0.9, 0.05, -0.45, 0.0, 1.0, 0.0])

  const BottomFace: seq<real> :=
    ([-0.9, -0.05, 0.45, 0.0, -1.0, 0.0] + [-0.9, -0.05, -0.45, 0.0, -1.0, 0.0]) +
    ([0.9, -0.05, -0.45, 0.0, -1.0, 0.0] + [0.9, -0.05, 0.45, 0.0, -1.0, 0.0])

  /** The `indices` array of `Table::Load`. */
  const TableIndices: seq<nat> := [
    0, 1, 2,     2, 3, 0,      // front
    4, 5, 6,     6, 7, 4,      // back
    8, 9, 10,    10, 11, 8,    // right
    12, 13, 14,  14, 15, 12,   // left
    16, 17, 18,  18, 19, 16,   // top
    20, 21, 22,  22, 23, 20    // bottom
  ]

  // ---------------------------------------------------------------------
  // Reading the interleaved array
  // ---------------------------------------------------------------------

  predicate HasVertex(vs: seq<real>, k: int) {
    0 <= k && 6 * k + 6 <= |vs|
  }

  /** Attribute 0 of vertex `k`: floats 0 to 2 of its stride. */
  function Position(vs: seq<real>, k: int): Vec3
    requires HasVertex(vs, k)
  {
    Vec3(vs[6 * k], vs[6 * k + 1], vs[6 * k + 2])
  }

  /** Attribute 1 of vertex `k`: floats 3 to 5 of its stride. */
  function Normal(vs: seq<real>, k: int): Vec3
    requires HasVertex(vs, k)
  {
    Vec3(vs[6 * k + 3], vs[6 * k + 4], vs[6 * k + 5])
  }

  // ---------------------------------------------------------------------
  // What a well-formed box mesh satisfies
  // ---------------------------------------------------------------------

  /** Every element index names a vertex of the array. */
  predicate IndicesInBounds(ix: seq<nat>, vertexCount: nat) {
    forall i | 0 <= i < |ix| :: ix[i] < vertexCount
  }

  /** Position of the `j`-th index of a face within its quad: triangles (0, 1, 2) and (2, 3, 0). */
  function QuadCorner(j: int): nat
    requires 0 <= j < 6
  {
    [0, 1, 2, 2, 3, 0][j]
  }

  /** Face `f` is drawn from indices `6f .. 6f+5`, which name exactly the quad `4f .. 4f+3`. */
  predicate FaceStructured(ix: seq<nat>, faces: nat) {
    && |ix| == 6 * faces
    && forall i | 0 <= i < |ix| :: ix[i] == 4 * (i / 6) + QuadCorner(i % 6)
  }

  predicate IsUnitAxis(n: Vec3) {
    || n == Vec3(1.0, 0.0, 0.0) || n == Vec3(-1.0, 0.0, 0.0)
    || n == Vec3(0.0, 1.0, 0.0) || n == Vec3(0.0, -1.0, 0.0)
    || n == Vec3(0.0, 0.0, 1.0) || n == Vec3(0.0, 0.0, -1.0)
  }

  /** Vertex `k` carries normal `n` and lies on the plane `Dot(p, n) == d`. */
  predicate OnPlane(vs: seq<real>, k: int, n: Vec3, d: real)
    requires HasVertex(vs, k)
  {
    Normal(vs, k) == n && Dot(Position(vs, k), n) == d
  }

  /**
   * The four vertices of face `f` share one normal, a unit axis, and lie on
   * one plane across that axis at a positive distance along the normal: the
   * normal points out of the box.
   */
  predicate FaceOutward(vs: seq<real>, f: nat)
    requires HasVertex(vs, 4 * f + 3)
  {
    var n := Normal(vs, 4 * f);
    var d := Dot(Position(vs, 4 * f), n);
    && IsUnitAxis(n)
    && d > 0.0
    && OnPlane(vs, 4 * f + 1, n, d)
    && OnPlane(vs, 4 * f + 2, n, d)
    && OnPlane(vs, 4 * f + 3, n, d)
  }

  predicate NormalsOutward(vs: seq<real>, faces: nat)
    requires |vs| == 6 * 4 * faces
  {
    forall f | 0 <= f < faces :: FaceOutward(vs, f)
  }

  /** The normal the vertices of face `f` share, that of its first vertex. */
  function FaceNormal(vs: seq<real>, f: nat): Vec3
    requires HasVertex(vs, 4 * f)
  {
    Normal(vs, 4 * f)
  }

  /** No two faces share a normal: no side of the box is drawn twice. */
  predicate DistinctNormals(vs: seq<real>, faces: nat)
    requires |vs| == 6 * 4 * faces
  {
    forall f, g | 0 <= f < g < faces :: FaceNormal(vs, f) != FaceNormal(vs, g)
  }

  /** Each of the six axis directions is the normal of some face: no side of the box is missing. */
  ghost predicate CoversAllSides(vs: seq<real>, faces: nat)
    requires |vs| == 6 * 4 * faces
  {
    forall n | IsUnitAxis(n) :: exists f | 0 <= f < faces :: FaceNormal(vs, f) == n
  }

  /** Every corner lies at a corner of the box `[-hx, hx] x [-hy, hy] x [-hz, hz]`. */
  predicate WithinBox(vs: seq<real>, hx: real, hy: real, hz: real)
    requires |vs| % 6 == 0
  {
    forall k | 0 <= k < |vs| / 6 :: AtCorner(Position(vs, k), hx, hy, hz)
  }

  /** Triangle `(a, b, c)` turns counter-clockwise seen from the side the normal of `a` points to. */
  predicate TriangleFacing(vs: seq<real>, a: nat, b: nat, c: nat)
    requires HasVertex(vs, a) && HasVertex(vs, b) && HasVertex(vs, c)
  {
    Facing(Position(vs, a), Position(vs, b), Position(vs, c), Normal(vs, a))
  }

  /** Triangle `t` of the index array, its indices `3t .. 3t+2`, faces outwards. */
  predicate FrontFacing(vs: seq<real>, ix: seq<nat>, t: nat)
    requires 3 * t + 3 <= |ix|
    requires forall i | 0 <= i < |ix| :: HasVertex(vs, ix[i])
  {
    TriangleFacing(vs, ix[3 * t], ix[3 * t + 1], ix[3 * t + 2])
  }

  // ---------------------------------------------------------------------
  // Validators
  // ---------------------------------------------------------------------

  /** Scan the index array for an index past the last vertex. */
  method CheckIndices(ix: seq<nat>, vertexCount: nat) returns (ok: bool)
    ensures ok <==> IndicesInBounds(ix, vertexCount)
  {
    var i := 0;
    while i < |ix|
      invariant 0 <= i <= |ix|
      invariant forall j | 0 <= j < i :: ix[j] < vertexCount
    {
      if ix[i] >= vertexCount {
        return false;
      }
      i := i + 1;
    }
    return true;
  }

  /** Check face by face that the indices are the two triangles of consecutive quads. */
  method CheckFaces(ix: seq<nat>, faces: nat) returns (ok: bool)
    ensures ok <==> FaceStructured(ix, faces)
  {
    if |ix| != 6 * faces {
      return false;
    }
    var i := 0;
    while i < |ix|
      invariant 0 <= i <= |ix|
      invariant forall j | 0 <= j < i :: ix[j] == 4 * (j / 6) + QuadCorner(j % 6)
    {
      if ix[i] != 4 * (i / 6) + QuadCorner(i % 6) {
        return false;
      }
      i := i + 1;
    }
    return true;
  }

  // ---------------------------------------------------------------------
  // The table's arrays pass
  // ---------------------------------------------------------------------

  /** 24 vertices of six floats, 36 indices, as many as the draw call consumes. */
  lemma TableSizes()
    ensures |TableVertices| == 6 * VERTEX_COUNT
    ensures |TableIndices| == DRAW_COUNT == 6 * FACE_COUNT
    ensures VERTEX_COUNT == 4 * FACE_COUNT
  {
  }

  /** Every index of the table is below 24. */
  lemma TableIndicesInBounds()
    ensures IndicesInBounds(TableIndices, VERTEX_COUNT)
  {
  }

  /** Face `k` is drawn as triangles (4k, 4k+1, 4k+2) and (4k+2, 4k+3, 4k). */
  lemma TableFaceStructured()
    ensures FaceStructured(TableIndices, FACE_COUNT)
  {
    forall i | 0 <= i < |TableIndices|
      ensures TableIndices[i] == 4 * (i / 6) + QuadCorner(i % 6)
    {
      var f := i / 6;
      assert 0 <= f < 6 && i == 6 * f + i % 6;
      if f == 0 {} else if f == 1 {} else if f == 2 {} else if f == 3 {} else if f == 4 {} else {}
    }
  }

  /** Position `p` is a corner of the box of half-extents `hx`, `hy`, `hz`. */
  predicate AtCorner(p: Vec3, hx: real, hy: real, hz: real) {
    (p.x == hx || p.x == -hx) && (p.y == hy || p.y == -hy) && (p.z == hz || p.z == -hz)
  }

  // ---------------------------------------------------------------------
  // A box from its six faces
  // ---------------------------------------------------------------------

  /** Triangle `(p0, p1, p2)` turns counter-clockwise seen from the side `n` points to. */
  predicate Facing(p0: Vec3, p1: Vec3, p2: Vec3, n: Vec3) {
    Dot(Cross(Sub(p1, p0), Sub(p2, p0)), n) > 0.0
  }

  /**
   * The checks for face `f`: its normal points outwards, its corners are
   * corners of the box, and the two triangles drawn for it,
   * `(4f, 4f+1, 4f+2)` and `(4f+2, 4f+3, 4f)`, face outwards.
   */
  predicate FaceChecks(vs: seq<real>, f: nat, hx: real, hy: real, hz: real)
    requires HasVertex(vs, 4 * f + 3)
  {
    FaceOutward(vs, f) && FaceCorners(vs, f, hx, hy, hz) && FaceTriangles(vs, f)
  }

  /** The four corners of face `f` are corners of the box. */
  predicate FaceCorners(vs: seq<real>, f: nat, hx: real, hy: real, hz: real)
    requires HasVertex(vs, 4 * f + 3)
  {
    && AtCorner(Position(vs, 4 * f), hx, hy, hz)
    && AtCorner(Position(vs, 4 * f + 1), hx, hy, hz)
    && AtCorner(Position(vs, 4 * f + 2), hx, hy, hz)
    && AtCorner(Position(vs, 4 * f + 3), hx, hy, hz)
  }

  /** The two triangles of face `f`, `(4f, 4f+1, 4f+2)` and `(4f+2, 4f+3, 4f)`, face outwards. */
  predicate FaceTriangles(vs: seq<real>, f: nat)
    requires HasVertex(vs, 4 * f + 3)
  {
    TriangleFacing(vs, 4 * f, 4 * f + 1, 4 * f + 2) && TriangleFacing(vs, 4 * f + 2, 4 * f + 3, 4 * f)
  }

  /** The winding of a triangle from its two edge vectors and their cross product. */
  lemma FacingFrom(p0: Vec3, p1: Vec3, p2: Vec3, n: Vec3, e1: Vec3, e2: Vec3, c: Vec3)
    requires Sub(p1, p0) == e1 && Sub(p2, p0) == e2 && Cross(e1, e2) == c
    ensures Facing(p0, p1, p2, n) <==> Dot(c, n) > 0.0
  {
  }

  /** The same checks for a quad given by its four corners and their common normal. */
  predicate QuadChecks(p0: Vec3, p1: Vec3, p2: Vec3, p3: Vec3, n: Vec3, hx: real, hy: real, hz: real) {
    && IsUnitAxis(n)
    && Dot(p0, n) > 0.0
    && Dot(p1, n) == Dot(p0, n) && Dot(p2, n) == Dot(p0, n) && Dot(p3, n) == Dot(p0, n)
    && AtCorner(p0, hx, hy, hz) && AtCorner(p1, hx, hy, hz)
    && AtCorner(p2, hx, hy, hz) && AtCorner(p3, hx, hy, hz)
    && Facing(p0, p1, p2, n)
    && Facing(p2, p3, p0, n)
  }

  /** A face whose vertices all carry normal `n` passes its checks exactly when its corners do. */
  lemma FaceFromCorners(vs: seq<real>, f: nat, p0: Vec3, p1: Vec3, p2: Vec3, p3: Vec3, n: Vec3, hx: real, hy: real, hz: real)
    requires HasVertex(vs, 4 * f + 3)
    requires Position(vs, 4 * f) == p0 && Position(vs, 4 * f + 1) == p1
    requires Position(vs, 4 * f + 2) == p2 && Position(vs, 4 * f + 3) == p3
    requires Normal(vs, 4 * f) == n && Normal(vs, 4 * f + 1) == n
    requires Normal(vs, 4 * f + 2) == n && Normal(vs, 4 * f + 3) == n
    ensures FaceChecks(vs, f, hx, hy, hz) <==> QuadChecks(p0, p1, p2, p3, n, hx, hy, hz)
  {
  }

  /** Each of the six faces of a 24-vertex array has an outward normal. */
  predicate SixFacesOutward(vs: seq<real>)
    requires |vs| == 6 * 24
  {
    && FaceOutward(vs, 0) && FaceOutward(vs, 1) && FaceOutward(vs, 2)
    && FaceOutward(vs, 3) && FaceOutward(vs, 4) && FaceOutward(vs, 5)
  }

  /** Each of the six faces of a 24-vertex array has its corners at box corners. */
  predicate SixFacesCornered(vs: seq<real>, hx: real, hy: real, hz: real)
    requires |vs| == 6 * 24
  {
    && FaceCorners(vs, 0, hx, hy, hz) && FaceCorners(vs, 1, hx, hy, hz) && FaceCorners(vs, 2, hx, hy, hz)
    && FaceCorners(vs, 3, hx, hy, hz) && FaceCorners(vs, 4, hx, hy, hz) && FaceCorners(vs, 5, hx, hy, hz)
  }

  /** Each of the six faces of a 24-vertex array has both its triangles facing outwards. */
  predicate SixFacesFacing(vs: seq<real>)
    requires |vs| == 6 * 24
  {
    && FaceTriangles(vs, 0) && FaceTriangles(vs, 1) && FaceTriangles(vs, 2)
    && FaceTriangles(vs, 3) && FaceTriangles(vs, 4) && FaceTriangles(vs, 5)
  }

  /** Six outward faces have every normal pointing outwards. */
  lemma BoxNormalsOutward(vs: seq<real>)
    requires |vs| == 6 * 24 && SixFacesOutward(vs)
    ensures NormalsOutward(vs, 6)
  {
    forall f | 0 <= f < 6
      ensures FaceOutward(vs, f)
    {
      if f == 0 {} else if f == 1 {} else if f == 2 {} else if f == 3 {} else if f == 4 {} else {}
    }
  }

  /** Six faces with corners at box corners put every vertex at a box corner. */
  lemma BoxWithinBox(vs: seq<real>, hx: real, hy: real, hz: real)
    requires |vs| == 6 * 24 && SixFacesCornered(vs, hx, hy, hz)
    ensures WithinBox(vs, hx, hy, hz)
  {
    forall k | 0 <= k < |vs| / 6
      ensures AtCorner(Position(vs, k), hx, hy, hz)
    {
      var f := k / 4;
      assert FaceCorners(vs, f, hx, hy, hz) by {
        if f == 0 {} else if f == 1 {} else if f == 2 {} else if f == 3 {} else if f == 4 {} else {}
      }
      var c := k - 4 * f;
      if c == 0 {} else if c == 1 {} else if c == 2 {} else {}
    }
  }

  /** Indices laid out face by face name only vertices of a 24-vertex array. */
  lemma StructuredInBounds(vs: seq<real>, ix: seq<nat>)
    requires |vs| == 6 * 24 && FaceStructured(ix, 6)
    ensures forall i | 0 <= i < |ix| :: HasVertex(vs, ix[i])
  {
    forall i | 0 <= i < |ix|
      ensures HasVertex(vs, ix[i])
    {
      assert ix[i] == 4 * (i / 6) + QuadCorner(i % 6);
    }
  }

  /**
   * Drawn by indices laid out face by face, the twelve triangles of six
   * checked faces all face outwards.
   */
  lemma BoxFrontFacing(vs: seq<real>, ix: seq<nat>)
    requires |vs| == 6 * 24 && SixFacesFacing(vs) && FaceStructured(ix, 6)
    ensures forall i | 0 <= i < |ix| :: HasVertex(vs, ix[i])
    ensures forall t | 0 <= t < |ix| / 3 :: FrontFacing(vs, ix, t)
  {
    StructuredInBounds(vs, ix);
    forall t | 0 <= t < |ix| / 3
      ensures FrontFacing(vs, ix, t)
    {
      var f := t / 2;
      assert FaceTriangles(vs, f) by {
        if f == 0 {} else if f == 1 {} else if f == 2 {} else if f == 3 {} else if f == 4 {} else {}
      }
      if t % 2 == 0 {
        SplitIndex(3 * t, f, 0);
        SplitIndex(3 * t + 1, f, 1);
        SplitIndex(3 * t + 2, f, 2);
        assert ix[3 * t] == 4 * f && ix[3 * t + 1] == 4 * f + 1 && ix[3 * t + 2] == 4 * f + 2;
      } else {
        SplitIndex(3 * t, f, 3);
        SplitIndex(3 * t + 1, f, 4);
        SplitIndex(3 * t + 2, f, 5);
        assert ix[3 * t] == 4 * f + 2 && ix[3 * t + 1] == 4 * f + 3 && ix[3 * t + 2] == 4 * f;
      }
    }
  }

  /** Index `i = 6f + r` of the index array is entry `r` of face `f`. */
  lemma SplitIndex(i: int, f: int, r: int)
    requires 0 <= r < 6 && i == 6 * f + r
    ensures i / 6 == f && i % 6 == r
  {
  }

  /** Faces `f` to 5 of a 24-vertex array pass their checks. */
  predicate FacesFrom(vs: seq<real>, f: nat, hx: real, hy: real, hz: real)
    requires |vs| == 6 * 24
    decreases 6 - f
  {
    f >= 6 || (FaceChecks(vs, f, hx, hy, hz) && FacesFrom(vs, f + 1, hx, hy, hz))
  }

  /** Every face from `f` on passes its checks. */
  lemma {:induction false} FacesFromEach(vs: seq<real>, f: nat, g: nat, hx: real, hy: real, hz: real)
    requires |vs| == 6 * 24 && FacesFrom(vs, f, hx, hy, hz) && f <= g < 6
    ensures FaceChecks(vs, g, hx, hy, hz)
    decreases g - f
  {
    if f < g {
      FacesFromEach(vs, f + 1, g, hx, hy, hz);
    }
  }

  /**
   * Six faces that pass their checks, drawn by indices laid out face by
   * face, make a closed box: every normal points outwards, every vertex is a
   * box corner and every triangle faces outwards.
   */
  lemma BoxFromFaces(vs: seq<real>, ix: seq<nat>, hx: real, hy: real, hz: real)
    requires |vs| == 6 * 24 && FaceStructured(ix, 6) && FacesFrom(vs, 0, hx, hy, hz)
    ensures NormalsOutward(vs, 6)
    ensures WithinBox(vs, hx, hy, hz)
    ensures forall i | 0 <= i < |ix| :: HasVertex(vs, ix[i])
    ensures forall t | 0 <= t < |ix| / 3 :: FrontFacing(vs, ix, t)
  {
    FacesFromEach(vs, 0, 0, hx, hy, hz); FacesFromEach(vs, 0, 1, hx, hy, hz);
    FacesFromEach(vs, 0, 2, hx, hy, hz); FacesFromEach(vs, 0, 3, hx, hy, hz);
    FacesFromEach(vs, 0, 4, hx, hy, hz); FacesFromEach(vs, 0, 5, hx, hy, hz);
    BoxNormalsOutward(vs);
    BoxWithinBox(vs, hx, hy, hz);
    BoxFrontFacing(vs, ix);
  }

  // ---------------------------------------------------------------------
  // The table's faces, one at a time: each vertex is read off the array,
  // then each face is checked on its literal corners
  // ---------------------------------------------------------------------

  lemma Vertex0()
    ensures Position(TableVertices, 0) == Vec3(-0.9, -0.05, 0.45) && Normal(TableVertices, 0) == Vec3(0.0, 0.0, 1.0)
  {
  }

  lemma Vertex1()
    ensures Position(TableVertices, 1) == Vec3(0.9, -0.05, 0.45) && Normal(TableVertices, 1) == Vec3(0.0, 0.0, 1.0)
  {
  }

  lemma Vertex2()
    ensures Position(TableVertices, 2) == Vec3(0.9, 0.05, 0.45) && Normal(TableVertices, 2) == Vec3(0.0, 0.0, 1.0)
  {
  }

  lemma Vertex3()
    ensures Position(TableVertices, 3) == Vec3(-0.9, 0.05, 0.45) && Normal(TableVertices, 3) == Vec3(0.0, 0.0, 1.0)
  {
  }

  lemma FrontQuadChecks()
    ensures QuadChecks(Vec3(-0.9, -0.05, 0.45), Vec3(0.9, -0.05, 0.45), Vec3(0.9, 0.05, 0.45), Vec3(-0.9, 0.05, 0.45), Vec3(0.0, 0.0, 1.0), Billiards.WALL_X, 0.05, Billiards.WALL_Z)
  {
    assert Dot(Vec3(-0.9, -0.05, 0.45), Vec3(0.0, 0.0, 1.0)) == 0.45;
    assert Dot(Vec3(0.9, -0.05, 0.45), Vec3(0.0, 0.0, 1.0)) == 0.45;
    assert Dot(Vec3(0.9, 0.05, 0.45), Vec3(0.0, 0.0, 1.0)) == 0.45;
    assert Dot(Vec3(-0.9, 0.05, 0.45), Vec3(0.0, 0.0, 1.0)) == 0.45;
    FacingFrom(Vec3(-0.9, -0.05, 0.45), Vec3(0.9, -0.05, 0.45), Vec3(0.9, 0.05, 0.45), Vec3(0.0, 0.0, 1.0), Vec3(1.8, 0.0, 0.0), Vec3(1.8, 0.1, 0.0), Vec3(0.0, 0.0, 0.18));
    FacingFrom(Vec3(0.9, 0.05, 0.45), Vec3(-0.9, 0.05, 0.45), Vec3(-0.9, -0.05, 0.45), Vec3(0.0, 0.0, 1.0), Vec3(-1.8, 0.0, 0.0), Vec3(-1.8, -0.1, 0.0), Vec3(0.0, 0.0, 0.18));
  }

  lemma FrontFaceChecks()
    ensures FaceChecks(TableVertices, 0, Billiards.WALL_X, 0.05, Billiards.WALL_Z)
  {
    Vertex0(); Vertex1(); Vertex2(); Vertex3();
    FrontQuadChecks();
    FaceFromCorners(TableVertices, 0, Vec3(-0.9, -0.05, 0.45), Vec3(0.9, -0.05, 0.45), Vec3(0.9, 0.05, 0.45), Vec3(-0.9, 0.05, 0.45), Vec3(0.0, 0.0, 1.0), Billiards.WALL_X, 0.05, Billiards.WALL_Z);
  }

  lemma Vertex4()
    ensures Position(TableVertices, 4) == Vec3(-0.9, -0.05, -0.45) && Normal(TableVertices, 4) == Vec3(0.0, 0.0, -1.0)
  {
  }

  lemma Vertex5()
    ensures Position(TableVertices, 5) == Vec3(-0.9, 0.05, -0.45) && Normal(TableVertices, 5) == Vec3(0.0, 0.0, -1.0)
  {
  }

  lemma Vertex6()
    ensures Position(TableVertices, 6) == Vec3(0.9, 0.05, -0.45) && Normal(TableVertices, 6) == Vec3(0.0, 0.0, -1.0)
  {
  }

  lemma Vertex7()
    ensures Position(TableVertices, 7) == Vec3(0.9, -0.05, -0.45) && Normal(TableVertices, 7) == Vec3(0.0, 0.0, -1.0)
  {
  }

  lemma BackQuadChecks()
    ensures QuadChecks(Vec3(-0.9, -0.05, -0.45), Vec3(-0.9, 0.05, -0.45), Vec3(0.9, 0.05, -0.45), Vec3(0.9, -0.05, -0.45), Vec3(0.0, 0.0, -1.0), Billiards.WALL_X, 0.05, Billiards.WALL_Z)
  {
    assert Dot(Vec3(-0.9, -0.05, -0.45), Vec3(0.0, 0.0, -1.0)) == 0.45;
    assert Dot(Vec3(-0.9, 0.05, -0.45), Vec3(0.0, 0.0, -1.0)) == 0.45;
    assert Dot(Vec3(0.9, 0.05, -0.45), Vec3(0.0, 0.0, -1.0)) == 0.45;
    assert Dot(Vec3(0.9, -0.05, -0.45), Vec3(0.0, 0.0, -1.0)) == 0.45;
    FacingFrom(Vec3(-0.9, -0.05, -0.45), Vec3(-0.9, 0.05, -0.45), Vec3(0.9, 0.05, -0.45), Vec3(0.0, 0.0, -1.0), Vec3(0.0, 0.1, 0.0), Vec3(1.8, 0.1, 0.0), Vec3(0.0, 0.0, -0.18));
    FacingFrom(Vec3(0.9, 0.05, -0.45), Vec3(0.9, -0.05, -0.45), Vec3(-0.9, -0.05, -0.45), Vec3(0.0, 0.0, -1.0), Vec3(0.0, -0.1, 0.0), Vec3(-1.8, -0.1, 0.0), Vec3(0.0, 0.0, -0.18));
  }

  lemma BackFaceChecks()
    ensures FaceChecks(TableVertices, 1, Billiards.WALL_X, 0.05, Billiards.WALL_Z)
  {
    Vertex4(); Vertex5(); Vertex6(); Vertex7();
    BackQuadChecks();
    FaceFromCorners(TableVertices, 1, Vec3(-0.9, -0.05, -0.45), Vec3(-0.9, 0.05, -0.45), Vec3(0.9, 0.05, -0.45), Vec3(0.9, -0.05, -0.45), Vec3(0.0, 0.0, -1.0), Billiards.WALL_X, 0.05, Billiards.WALL_Z);
  }

  lemma Vertex8()
    ensures Position(TableVertices, 8) == Vec3(0.9, -0.05, 0.45) && Normal(TableVertices, 8) == Vec3(1.0, 0.0, 0.0)
  {
  }

  lemma Vertex9()
    ensures Position(TableVertices, 9) == Vec3(0.9, -0.05, -0.45) && Normal(TableVertices, 9) == Vec3(1.0, 0.0, 0.0)
  {
  }

  lemma Vertex10()
    ensures Position(TableVertices, 10) == Vec3(0.9, 0.05, -0.45) && Normal(TableVertices, 10) == Vec3(1.0, 0.0, 0.0)
  {
  }

  lemma Vertex11()
    ensures Position(TableVertices, 11) == Vec3(0.9, 0.05, 0.45) && Normal(TableVertices, 11) == Vec3(1.0, 0.0, 0.0)
  {
  }

  lemma RightQuadChecks()
    ensures QuadChecks(Vec3(0.9, -0.05, 0.45), Vec3(0.9, -0.05, -0.45), Vec3(0.9, 0.05, -0.45), Vec3(0.9, 0.05, 0.45), Vec3(1.0, 0.0, 0.0), Billiards.WALL_X, 0.05, Billiards.WALL_Z)
  {
    assert Dot(Vec3(0.9, -0.05, 0.45), Vec3(1.0, 0.0, 0.0)) == 0.9;
    assert Dot(Vec3(0.9, -0.05, -0.45), Vec3(1.0, 0.0, 0.0)) == 0.9;
    assert Dot(Vec3(0.9, 0.05, -0.45), Vec3(1.0, 0.0, 0.0)) == 0.9;
    assert Dot(Vec3(0.9, 0.05, 0.45), Vec3(1.0, 0.0, 0.0)) == 0.9;
    FacingFrom(Vec3(0.9, -0.05, 0.45), Vec3(0.9, -0.05, -0.45), Vec3(0.9, 0.05, -0.45), Vec3(1.0, 0.0, 0.0), Vec3(0.0, 0.0, -0.9), Vec3(0.0, 0.1, -0.9), Vec3(0.09, 0.0, 0.0));
    FacingFrom(Vec3(0.9, 0.05, -0.45), Vec3(0.9, 0.05, 0.45), Vec3(0.9, -0.05, 0.45), Vec3(1.0, 0.0, 0.0), Vec3(0.0, 0.0, 0.9), Vec3(0.0, -0.1, 0.9), Vec3(0.09, 0.0, 0.0));
  }

  lemma RightFaceChecks()
    ensures FaceChecks(TableVertices, 2, Billiards.WALL_X, 0.05, Billiards.WALL_Z)
  {
    Vertex8(); Vertex9(); Vertex10(); Vertex11();
    RightQuadChecks();
    FaceFromCorners(TableVertices, 2, Vec3(0.9, -0.05, 0.45), Vec3(0.9, -0.05, -0.45), Vec3(0.9, 0.05, -0.45), Vec3(0.9, 0.05, 0.45), Vec3(1.0, 0.0, 0.0), Billiards.WALL_X, 0.05, Billiards.WALL_Z);
  }

  lemma Vertex12()
    ensures Position(TableVertices, 12) == Vec3(-0.9, -0.05, 0.45) && Normal(TableVertices, 12) == Vec3(-1.0, 0.0, 0.0)
  {
  }

  lemma Vertex13()
    ensures Position(TableVertices, 13) == Vec3(-0.9, 0.05, 0.45) && Normal(TableVertices, 13) == Vec3(-1.0, 0.0, 0.0)
  {
  }

  lemma Vertex14()
    ensures Position(TableVertices, 14) == Vec3(-0.9, 0.05, -0.45) && Normal(TableVertices, 14) == Vec3(-1.0, 0.0, 0.0)
  {
  }

  lemma Vertex15()
    ensures Position(TableVertices, 15) == Vec3(-0.9, -0.05, -0.45) && Normal(TableVertices, 15) == Vec3(-1.0, 0.0, 0.0)
  {
  }

  lemma LeftQuadChecks()
    ensures QuadChecks(Vec3(-0.9, -0.05, 0.45), Vec3(-0.9, 0.05, 0.45), Vec3(-0.9, 0.05, -0.45), Vec3(-0.9, -0.05, -0.45), Vec3(-1.0, 0.0, 0.0), Billiards.WALL_X, 0.05, Billiards.WALL_Z)
  {
    assert Dot(Vec3(-0.9, -0.05, 0.45), Vec3(-1.0, 0.0, 0.0)) == 0.9;
    assert Dot(Vec3(-0.9, 0.05, 0.45), Vec3(-1.0, 0.0, 0.0)) == 0.9;
    assert Dot(Vec3(-0.9, 0.05, -0.45), Vec3(-1.0, 0.0, 0.0)) == 0.9;
    assert Dot(Vec3(-0.9, -0.05, -0.45), Vec3(-1.0, 0.0, 0.0)) == 0.9;
    FacingFrom(Vec3(-0.9, -0.05, 0.45), Vec3(-0.9, 0.05, 0.45), Vec3(-0.9, 0.05, -0.45), Vec3(-1.0, 0.0, 0.0), Vec3(0.0, 0.1, 0.0), Vec3(0.0, 0.1, -0.9), Vec3(-0.09, 0.0, 0.0));
    FacingFrom(Vec3(-0.9, 0.05, -0.45), Vec3(-0.9, -0.05, -0.45), Vec3(-0.9, -0.05, 0.45), Vec3(-1.0, 0.0, 0.0), Vec3(0.0, -0.1, 0.0), Vec3(0.0, -0.1, 0.9), Vec3(-0.09, 0.0, 0.0));
  }

  lemma LeftFaceChecks()
    ensures FaceChecks(TableVertices, 3, Billiards.WALL_X, 0.05, Billiards.WALL_Z)
  {
    Vertex12(); Vertex13(); Vertex14(); Vertex15();
    LeftQuadChecks();
    FaceFromCorners(TableVertices, 3, Vec3(-0.9, -0.05, 0.45), Vec3(-0.9, 0.05, 0.45), Vec3(-0.9, 0.05, -0.45), Vec3(-0.9, -0.05, -0.45), Vec3(-1.0, 0.0, 0.0), Billiards.WALL_X, 0.05, Billiards.WALL_Z);
  }

  lemma Vertex16()
    ensures Position(TableVertices, 16) == Vec3(-0.9, 0.05, 0.45) && Normal(TableVertices, 16) == Vec3(0.0, 1.0, 0.0)
  {
  }

  lemma Vertex17()
    ensures Position(TableVertices, 17) == Vec3(0.9, 0.05, 0.45) && Normal(TableVertices, 17) == Vec3(0.0, 1.0, 0.0)
  {
  }

  lemma Vertex18()
    ensures Position(TableVertices, 18) == Vec3(0.9, 0.05, -0.45) && Normal(TableVertices, 18) == Vec3(0.0, 1.0, 0.0)
  {
  }

  lemma Vertex19()
    ensures Position(TableVertices, 19) == Vec3(-0.9, 0.05, -0.45) && Normal(TableVertices, 19) == Vec3(0.0, 1.0, 0.0)
  {
  }

  lemma TopQuadChecks()
    ensures QuadChecks(Vec3(-0.9, 0.05, 0.45), Vec3(0.9, 0.05, 0.45), Vec3(0.9, 0.05, -0.45), Vec3(-0.9, 0.05, -0.45), Vec3(0.0, 1.0, 0.0), Billiards.WALL_X, 0.05, Billiards.WALL_Z)
  {
    assert Dot(Vec3(-0.9, 0.05, 0.45), Vec3(0.0, 1.0, 0.0)) == 0.05;
    assert Dot(Vec3(0.9, 0.05, 0.45), Vec3(0.0, 1.0, 0.0)) == 0.05;
    assert Dot(Vec3(0.9, 0.05, -0.45), Vec3(0.0, 1.0, 0.0)) == 0.05;
    assert Dot(Vec3(-0.9, 0.05, -0.45), Vec3(0.0, 1.0, 0.0)) == 0.05;
    FacingFrom(Vec3(-0.9, 0.05, 0.45), Vec3(0.9, 0.05, 0.45), Vec3(0.9, 0.05, -0.45), Vec3(0.0, 1.0, 0.0), Vec3(1.8, 0.0, 0.0), Vec3(1.8, 0.0, -0.9), Vec3(0.0, 1.62, 0.0));
    FacingFrom(Vec3(0.9, 0.05, -0.45), Vec3(-0.9, 0.05, -0.45), Vec3(-0.9, 0.05, 0.45), Vec3(0.0, 1.0, 0.0), Vec3(-1.8, 0.0, 0.0), Vec3(-1.8, 0.0, 0.9), Vec3(0.0, 1.62, 0.0));
  }

  lemma TopFaceChecks()
    ensures FaceChecks(TableVertices, 4, Billiards.WALL_X, 0.05, Billiards.WALL_Z)
  {
    Vertex16(); Vertex17(); Vertex18(); Vertex19();
    TopQuadChecks();
    FaceFromCorners(TableVertices, 4, Vec3(-0.9, 0.05, 0.45), Vec3(0.9, 0.05, 0.45), Vec3(0.9, 0.05, -0.45), Vec3(-0.9, 0.05, -0.45), Vec3(0.0, 1.0, 0.0), Billiards.WALL_X, 0.05, Billiards.WALL_Z);
  }

  lemma Vertex20()
    ensures Position(TableVertices, 20) == Vec3(-0.9, -0.05, 0.45) && Normal(TableVertices, 20) == Vec3(0.0, -1.0, 0.0)
  {
  }

  lemma Vertex21()
    ensures Position(TableVertices, 21) == Vec3(-0.9, -0.05, -0.45) && Normal(TableVertices, 21) == Vec3(0.0, -1.0, 0.0)
  {
  }

  lemma Vertex22()
    ensures Position(TableVertices, 22) == Vec3(0.9, -0.05, -0.45) && Normal(TableVertices, 22) == Vec3(0.0, -1.0, 0.0)
  {
  }

  lemma Vertex23()
    ensures Position(TableVertices, 23) == Vec3(0.9, -0.05, 0.45) && Normal(TableVertices, 23) == Vec3(0.0, -1.0, 0.0)
  {
  }

  lemma BottomQuadChecks()
    ensures QuadChecks(Vec3(-0.9, -0.05, 0.45), Vec3(-0.9, -0.05, -0.45), Vec3(0.9, -0.05, -0.45), Vec3(0.9, -0.05, 0.45), Vec3(0.0, -1.0, 0.0), Billiards.WALL_X, 0.05, Billiards.WALL_Z)
  {
    assert Dot(Vec3(-0.9, -0.05, 0.45), Vec3(0.0, -1.0, 0.0)) == 0.05;
    assert Dot(Vec3(-0.9, -0.05, -0.45), Vec3(0.0, -1.0, 0.0)) == 0.05;
    assert Dot(Vec3(0.9, -0.05, -0.45), Vec3(0.0, -1.0, 0.0)) == 0.05;
    assert Dot(Vec3(0.9, -0.05, 0.45), Vec3(0.0, -1.0, 0.0)) == 0.05;
    FacingFrom(Vec3(-0.9, -0.05, 0.45), Vec3(-0.9, -0.05, -0.45), Vec3(0.9, -0.05, -0.45), Vec3(0.0, -1.0, 0.0), Vec3(0.0, 0.0, -0.9), Vec3(1.8, 0.0, -0.9), Vec3(0.0, -1.62, 0.0));
    FacingFrom(Vec3(0.9, -0.05, -0.45), Vec3(0.9, -0.05, 0.45), Vec3(-0.9, -0.05, 0.45), Vec3(0.0, -1.0, 0.0), Vec3(0.0, 0.0, 0.9), Vec3(-1.8, 0.0, 0.9), Vec3(0.0, -1.62, 0.0));
  }

  lemma BottomFaceChecks()
    ensures FaceChecks(TableVertices, 5, Billiards.WALL_X, 0.05, Billiards.WALL_Z)
  {
    Vertex20(); Vertex21(); Vertex22(); Vertex23();
    BottomQuadChecks();
    FaceFromCorners(TableVertices, 5, Vec3(-0.9, -0.05, 0.45), Vec3(-0.9, -0.05, -0.45), Vec3(0.9, -0.05, -0.45), Vec3(0.9, -0.05, 0.45), Vec3(0.0, -1.0, 0.0), Billiards.WALL_X, 0.05, Billiards.WALL_Z);
  }

  /** The normals of the six faces, in the order the array lists them: front, back, right, left, top, bottom. */
  lemma TableFaceNormals()
    ensures FaceNormal(TableVertices, 0) == Vec3(0.0, 0.0, 1.0)
    ensures FaceNormal(TableVertices, 1) == Vec3(0.0, 0.0, -1.0)
    ensures FaceNormal(TableVertices, 2) == Vec3(1.0, 0.0, 0.0)
    ensures FaceNormal(TableVertices, 3) == Vec3(-1.0, 0.0, 0.0)
    ensures FaceNormal(TableVertices, 4) == Vec3(0.0, 1.0, 0.0)
    ensures FaceNormal(TableVertices, 5) == Vec3(0.0, -1.0, 0.0)
  {
    Vertex0(); Vertex4(); Vertex8(); Vertex12(); Vertex16(); Vertex20();
  }

  /** Six vectors, no two of them equal. */
  predicate AllDifferent(n0: Vec3, n1: Vec3, n2: Vec3, n3: Vec3, n4: Vec3, n5: Vec3) {
    && n0 != n1 && n0 != n2 && n0 != n3 && n0 != n4 && n0 != n5
    && n1 != n2 && n1 != n3 && n1 != n4 && n1 != n5
    && n2 != n3 && n2 != n4 && n2 != n5
    && n3 != n4 && n3 != n5
    && n4 != n5
  }

  /** Six faces whose normals are all different have distinct normals. */
  lemma DistinctOfSix(vs: seq<real>)
    requires |vs| == 6 * 4 * 6
    requires AllDifferent(FaceNormal(vs, 0), FaceNormal(vs, 1), FaceNormal(vs, 2), FaceNormal(vs, 3), FaceNormal(vs, 4), FaceNormal(vs, 5))
    ensures DistinctNormals(vs, 6)
  {
    forall f, g | 0 <= f < g < 6
      ensures FaceNormal(vs, f) != FaceNormal(vs, g)
    {
      if f == 0 {} else if f == 1 {} else if f == 2 {} else if f == 3 {} else {}
    }
  }

  /** No two of the table's faces share a normal. */
  lemma TableNormalsDistinct()
    ensures DistinctNormals(TableVertices, FACE_COUNT)
  {
    TableFaceNormals();
    DistinctOfSix(TableVertices);
  }

  /** Every axis direction is the normal of one of the table's faces. */
  lemma TableCoversAllSides()
    ensures CoversAllSides(TableVertices, FACE_COUNT)
  {
    TableFaceNormals();
    forall n | IsUnitAxis(n)
      ensures exists f | 0 <= f < FACE_COUNT :: FaceNormal(TableVertices, f) == n
    {
      if n == Vec3(0.0, 0.0, 1.0) { assert FaceNormal(TableVertices, 0) == n; }
      else if n == Vec3(0.0, 0.0, -1.0) { assert FaceNormal(TableVertices, 1) == n; }
      else if n == Vec3(1.0, 0.0, 0.0) { assert FaceNormal(TableVertices, 2) == n; }
      else if n == Vec3(-1.0, 0.0, 0.0) { assert FaceNormal(TableVertices, 3) == n; }
      else if n == Vec3(0.0, 1.0, 0.0) { assert FaceNormal(TableVertices, 4) == n; }
      else { assert FaceNormal(TableVertices, 5) == n; }
    }
  }

  /**
   * The table is a closed box of half-extents 0.9, 0.05 and 0.45, whose x
   * and z half-extents are the wall limits of the collision test: every
   * face's normal points outwards, every vertex is a corner of the box,
   * all twelve triangles wind counter-clockwise seen from outside, and the
   * six faces cover the six sides, one side each.
   */
  lemma TableIsBox()
    ensures NormalsOutward(TableVertices, FACE_COUNT)
    ensures WithinBox(TableVertices, Billiards.WALL_X, 0.05, Billiards.WALL_Z)
    ensures forall i | 0 <= i < |TableIndices| :: HasVertex(TableVertices, TableIndices[i])
    ensures forall t | 0 <= t < DRAW_COUNT / 3 :: FrontFacing(TableVertices, TableIndices, t)
    ensures DistinctNormals(TableVertices, FACE_COUNT)
    ensures CoversAllSides(TableVertices, FACE_COUNT)
  {
    TableNormalsDistinct();
    TableCoversAllSides();
    var hx, hy, hz := Billiards.WALL_X, 0.05, Billiards.WALL_Z;
    BottomFaceChecks(); assert FacesFrom(TableVertices, 5, hx, hy, hz);
    TopFaceChecks(); assert FacesFrom(TableVertices, 4, hx, hy, hz);
    LeftFaceChecks(); assert FacesFrom(TableVertices, 3, hx, hy, hz);
    RightFaceChecks(); assert FacesFrom(TableVertices, 2, hx, hy, hz);
    BackFaceChecks(); assert FacesFrom(TableVertices, 1, hx, hy, hz);
    FrontFaceChecks(); assert FacesFrom(TableVertices, 0, hx, hy, hz);
    TableFaceStructured();
    BoxFromFaces(TableVertices, TableIndices, Billiards.WALL_X, 0.05, Billiards.WALL_Z);
  }
}
