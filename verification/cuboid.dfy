/** The unit cube `setupBuffers` uploads once and `drawCube` draws for the
    hull, both tracks and the turret: eight corner vertices at `±0.5` and a
    hard-coded table of 36 indices, two triangles per face, drawn with a
    hard-coded count of 36.
 */
module Cuboid {
  import opened MeshBuffers

  /** The element count `drawCube` passes to the indexed draw. */
  const DrawCount := 36

  /** A corner at the given position with the given colour. */
  function At(x: real, y: real, z: real, color: Color): Vertex
  {
    Vertex(Num(x), Num(y), Num(z), color)
  }

  /** The eight vertices of the cube, in buffer order. */
  const Vertices: seq<Vertex> := [
    At(-0.5, -0.5, -0.5, Color(1.0, 0.0, 0.0)),
    At( 0.5, -0.5, -0.5, Color(0.0, 1.0, 0.0)),
    At( 0.5,  0.5, -0.5, Color(0.0, 0.0, 1.0)),
    At(-0.5,  0.5, -0.5, Color(1.0, 1.0, 0.0)),
    At(-0.5, -0.5,  0.5, Color(1.0, 0.0, 1.0)),
    At( 0.5, -0.5,  0.5, Color(0.0, 1.0, 1.0)),
    At( 0.5,  0.5,  0.5, Color(0.5, 0.5, 0.5)),
    At(-0.5,  0.5,  0.5, Color(0.2, 0.8, 0.5))
  ]

  /** The `vertices[]` array as uploaded: 48 floats, six per vertex. */
  const VertexData: seq<Scalar> :=
    [Num(-0.5), Num(-0.5), Num(-0.5), Num(1.0), Num(0.0), Num(0.0)] +
    [Num( 0.5), Num(-0.5), Num(-0.5), Num(0.0), Num(1.0), Num(0.0)] +
    [Num( 0.5), Num( 0.5), Num(-0.5), Num(0.0), Num(0.0), Num(1.0)] +
    [Num(-0.5), Num( 0.5), Num(-0.5), Num(1.0), Num(1.0), Num(0.0)] +
    [Num(-0.5), Num(-0.5), Num( 0.5), Num(1.0), Num(0.0), Num(1.0)] +
    [Num( 0.5), Num(-0.5), Num( 0.5), Num(0.0), Num(1.0), Num(1.0)] +
    [Num( 0.5), Num( 0.5), Num( 0.5), Num(0.5), Num(0.5), Num(0.5)] +
    [Num(-0.5), Num( 0.5), Num( 0.5), Num(0.2), Num(0.8), Num(0.5)]

  /** The index table, six entries per face in the order front (`z = -0.5`),
      back (`z = +0.5`), bottom (`y = -0.5`), top (`y = +0.5`), left
      (`x = -0.5`), right (`x = +0.5`). */
  const Table: seq<int> :=
    [0, 1, 2, 2, 3, 0] +
    [4, 5, 6, 6, 7, 4] +
    [0, 1, 5, 5, 4, 0] +
    [2, 3, 7, 7, 6, 2] +
    [0, 3, 7, 7, 4, 0] +
    [1, 2, 6, 6, 5, 1]

  /** A face of the cube as four corners in order around it. */
  datatype Quad = Quad(a: int, b: int, c: int, d: int)

  /** A plane of the cube: coordinate `axis` (0 for x, 1 for y, 2 for z)
      equals `side`. */
  datatype Plane = Plane(axis: int, side: real)

  /** The six faces of the cube, independently of the table: the corners of
      each face, going round it, and the plane it lies in. */
  const Faces: seq<Quad> := [
    Quad(0, 1, 2, 3), Quad(4, 5, 6, 7), Quad(0, 1, 5, 4),
    Quad(2, 3, 7, 6), Quad(0, 3, 7, 4), Quad(1, 2, 6, 5)
  ]
  const Planes: seq<Plane> := [
    Plane(2, -0.5), Plane(2, 0.5), Plane(1, -0.5),
    Plane(1, 0.5), Plane(0, -0.5), Plane(0, 0.5)
  ]

  /** Coordinate `axis` of a vertex's position. */
  function Coord(v: Vertex, axis: int): Scalar
  {
    if axis == 0 then v.x else if axis == 1 then v.y else v.z
  }

  /** Vertex `k` of the cube lies in plane `p`. */
  predicate OnPlane(k: int, p: Plane)
  {
    0 <= k < |Vertices| && Coord(Vertices[k], p.axis) == Num(p.side)
  }

  /** The usual split of a quad into two triangles sharing the diagonal
      `a`–`c`. */
  function Split(q: Quad): seq<Tri>
  {
    [Tri(q.a, q.b, q.c), Tri(q.c, q.d, q.a)]
  }

  /** The twelve triangles of the table, read back three entries at a time. */
  lemma TableTriangles()
    ensures Triangle(Table, 0) == Tri(0, 1, 2) && Triangle(Table, 1) == Tri(2, 3, 0)
    ensures Triangle(Table, 2) == Tri(4, 5, 6) && Triangle(Table, 3) == Tri(6, 7, 4)
    ensures Triangle(Table, 4) == Tri(0, 1, 5) && Triangle(Table, 5) == Tri(5, 4, 0)
    ensures Triangle(Table, 6) == Tri(2, 3, 7) && Triangle(Table, 7) == Tri(7, 6, 2)
    ensures Triangle(Table, 8) == Tri(0, 3, 7) && Triangle(Table, 9) == Tri(7, 4, 0)
    ensures Triangle(Table, 10) == Tri(1, 2, 6) && Triangle(Table, 11) == Tri(6, 5, 1)
  {
  }

  /** The table draws exactly the six faces, each split along a diagonal:
      triangles `2f` and `2f + 1` of the table are the two halves of face
      `f`. */
  lemma {:induction false} TableSplitsFaces(f: int)
    requires 0 <= f < |Faces|
    ensures Triangle(Table, 2 * f) == Split(Faces[f])[0]
    ensures Triangle(Table, 2 * f + 1) == Split(Faces[f])[1]
  {
    TableTriangles();
  }

  /** The four corners of a quad are pairwise different. */
  predicate Distinct(q: Quad)
  {
    q.a != q.b && q.a != q.c && q.a != q.d && q.b != q.c && q.b != q.d && q.c != q.d
  }

  /** Number of coordinates in which the positions of vertices `k` and `m`
      differ. */
  function Diffs(k: int, m: int): nat
    requires 0 <= k < |Vertices| && 0 <= m < |Vertices|
  {
    (if Vertices[k].x != Vertices[m].x then 1 else 0) +
    (if Vertices[k].y != Vertices[m].y then 1 else 0) +
    (if Vertices[k].z != Vertices[m].z then 1 else 0)
  }

  /** Face `f` is a genuine face of the cube: its four corners are distinct
      vertices, all lie in plane `f`, and they are listed in order around the
      face: consecutive corners share an edge (differ in one coordinate) and
      `a`, `c` and `b`, `d` are opposite (differ in two). */
  lemma {:induction false} FacesLieInTheirPlanes(f: int)
    requires 0 <= f < |Faces|
    ensures var q := Faces[f];
      && Distinct(q)
      && OnPlane(q.a, Planes[f]) && OnPlane(q.b, Planes[f])
      && OnPlane(q.c, Planes[f]) && OnPlane(q.d, Planes[f])
      && Diffs(q.a, q.b) == 1 && Diffs(q.b, q.c) == 1 && Diffs(q.c, q.d) == 1 && Diffs(q.d, q.a) == 1
      && Diffs(q.a, q.c) == 2 && Diffs(q.b, q.d) == 2
  {
  }

  /** The six planes are the six different faces of the cube
      `[-0.5, 0.5]³`: each is `x`, `y` or `z` at `±0.5`, and no two are the
      same. */
  lemma PlanesAreTheSixFaces()
    ensures forall f :: 0 <= f < |Planes| ==> 0 <= Planes[f].axis < 3 && (Planes[f].side == 0.5 || Planes[f].side == -0.5)
    ensures forall f, g :: 0 <= f < g < |Planes| ==> Planes[f] != Planes[g]
  {
  }

  /** Both triangles the table draws for face `f` have three distinct
      corners, all in plane `f`: no triangle cuts through the cube. */
  lemma {:induction false} TrianglesAreFaceHalves(f: int)
    requires 0 <= f < |Faces|
    ensures forall tri :: tri == Triangle(Table, 2 * f) || tri == Triangle(Table, 2 * f + 1) ==>
      && tri.a != tri.b && tri.b != tri.c && tri.a != tri.c
      && OnPlane(tri.a, Planes[f]) && OnPlane(tri.b, Planes[f]) && OnPlane(tri.c, Planes[f])
  {
    TableSplitsFaces(f);
    FacesLieInTheirPlanes(f);
  }

  /** The table holds exactly as many entries as `drawCube` draws, so the
      draw reads the whole table and no further: 36 entries, twelve whole
      triangles. */
  lemma DrawCountMatchesTable()
    ensures |Table| == DrawCount
    ensures DrawCount % 3 == 0
  {
  }

  /** Every entry names one of the eight vertices, and each of the eight is
      used. */
  lemma TableCoversVertices()
    ensures forall j :: 0 <= j < |Table| ==> 0 <= Table[j] < |Vertices|
    ensures forall v :: 0 <= v < |Vertices| ==> v in Table
  {
    assert Table[0] == 0 && Table[1] == 1 && Table[2] == 2 && Table[4] == 3;
    assert Table[6] == 4 && Table[7] == 5 && Table[8] == 6 && Table[10] == 7;
  }

  /** A coordinate of a corner of the cube `[-0.5, 0.5]³`. */
  predicate Half(s: Scalar)
  {
    s == Num(0.5) || s == Num(-0.5)
  }

  /** The eight vertices are the eight corners of the cube `[-0.5, 0.5]³`,
      each exactly once: every coordinate is `±0.5` and no two vertices share
      a position. */
  lemma VerticesAreCorners()
    ensures forall k :: 0 <= k < |Vertices| ==>
      Half(Vertices[k].x) && Half(Vertices[k].y) && Half(Vertices[k].z)
    ensures forall k, m :: 0 <= k < m < |Vertices| ==>
      (Vertices[k].x, Vertices[k].y, Vertices[k].z) != (Vertices[m].x, Vertices[m].y, Vertices[m].z)
  {
  }

  /** The float array is the eight vertices pushed one after the other in
      the attribute layout. */
  lemma DataIsFlat()
    ensures VertexData == Flatten(Vertices)
  {
  }

  /** Read back through the attribute layout, the uploaded array holds the
      eight vertices in order and nothing else. */
  lemma {:induction false} BufferSlots(k: int)
    ensures 0 <= k < 8 ==> VertexAt(VertexData, k) == Some(Vertices[k])
    ensures !(0 <= k < 8) ==> VertexAt(VertexData, k) == None
  {
    DataIsFlat();
    FlattenRoundTrip(Vertices, k);
  }
}
