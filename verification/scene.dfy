/** How the meshes are used: `setupBuffers` builds the cube, the cannon
    cylinder and the wheel once, with the generators' default arguments on
    fresh vectors, and every frame issues eleven indexed draws: the hull and
    the two tracks as cubes, three pairs of wheels, the turret as a cube and
    the cannon as a cylinder. The wheels and the cannon are drawn with the
    size of their index vector, passed through `drawCylinder`'s `int`
    parameter.
 */
module Scene {
  import opened MeshBuffers
  import Cuboid
  import Cylinder
  import Wheel

  /** The three uploaded meshes. */
  datatype Meshes = Meshes(cube: Buffers, cylinder: Buffers, wheel: Buffers)

  /** `setupBuffers` with the segment counts of the two generator calls as
      parameters: the cube from its literal tables, the cylinder and the wheel
      from their generators on empty vectors. Each count is at least one, as
      the uploads read element 0 of the generated vectors. */
  function Setup(cylinderSegments: int, wheelSegments: int): (m: Meshes)
    requires 1 <= cylinderSegments <= Cylinder.MaxSegments && 1 <= wheelSegments <= Wheel.MaxSegments
    ensures |m.cube.vertices| == 6 * 8 && |m.cube.indices| == 36
    ensures |m.cylinder.vertices| == 6 * (2 * Segments(cylinderSegments))
    ensures |m.cylinder.indices| == 6 * Segments(cylinderSegments)
    ensures |m.wheel.vertices| == 6 * (2 * Segments(wheelSegments) + 2)
    ensures |m.wheel.indices| == 12 * Segments(wheelSegments)
  {
    Meshes(
      Buffers(Cuboid.VertexData, Cuboid.Table),
      Cylinder.CreateCylinder(Empty, cylinderSegments, Cylinder.DefaultHeight, Cylinder.DefaultRadius),
      Wheel.CreateWheel(Empty, wheelSegments, Wheel.DefaultRadius, Wheel.DefaultWidth))
  }

  datatype MeshKind = CubeMesh | CylinderMesh | WheelMesh

  /** One indexed draw: which mesh it binds and how many indices it reads. */
  datatype Draw = Draw(mesh: MeshKind, count: int)

  function MeshOf(m: Meshes, k: MeshKind): Buffers
  {
    match k
    case CubeMesh => m.cube
    case CylinderMesh => m.cylinder
    case WheelMesh => m.wheel
  }

  /** Number of values of a 32-bit integer. */
  const TwoTo32 := 0x1_0000_0000

  /** The `size_t` index count converted to the `int numIndices` parameter
      of `drawCylinder`: kept when it fits, otherwise wrapped modulo `2^32`
      into the signed range, as the conversion does on the usual 32-bit
      `int`. */
  function NarrowToInt(n: nat): (r: int)
    ensures -0x8000_0000 <= r <= IntMax
    ensures (r - n) % TwoTo32 == 0
    ensures r == n <==> n <= IntMax
  {
    var low := n % TwoTo32;
    if low <= IntMax then low else low - TwoTo32
  }

  /** The draws of one frame, in order: hull, right track, left track, three
      right/left wheel pairs, turret, cannon. Cubes are drawn with the fixed
      count 36, wheels and the cannon with the size of their index vector,
      narrowed to `int` on the way into `drawCylinder`. */
  function FrameDraws(m: Meshes): (ds: seq<Draw>)
    ensures |ds| == 11
    ensures forall i :: 0 <= i < |ds| ==> (ds[i].mesh == WheelMesh <==> 3 <= i < 9)
    ensures forall i :: 0 <= i < |ds| ==> (ds[i].mesh == CylinderMesh <==> i == 10)
    ensures forall i :: 0 <= i < |ds| ==>
      ds[i].count == if ds[i].mesh == CubeMesh then Cuboid.DrawCount else NarrowToInt(|MeshOf(m, ds[i].mesh).indices|)
  {
    var cube := Draw(CubeMesh, Cuboid.DrawCount);
    var wheel := Draw(WheelMesh, NarrowToInt(|m.wheel.indices|));
    [cube, cube, cube, wheel, wheel, wheel, wheel, wheel, wheel, cube,
     Draw(CylinderMesh, NarrowToInt(|m.cylinder.indices|))]
  }

  /** A draw of `count` indices from `b` reads only whole triangles, all
      inside the index buffer, each naming a vertex of the vertex buffer. */
  ghost predicate Drawable(b: Buffers, count: int)
  {
    && 0 <= count <= |b.indices|
    && count % 3 == 0
    && forall j :: 0 <= j < count ==> 0 <= b.indices[j] < VertexCount(b.vertices)
  }

  /** The cube can be drawn in full: 36 indices over its 8 vertices. */
  lemma CubeDrawable()
    ensures Drawable(Buffers(Cuboid.VertexData, Cuboid.Table), 36)
  {
  }

  /** The generated meshes can be drawn in full, whatever the segment
      counts. */
  lemma {:induction false} CylinderDrawable(c: int, w: int)
    requires 1 <= c <= Cylinder.MaxSegments && 1 <= w <= Wheel.MaxSegments
    ensures var m := Setup(c, w); Drawable(m.cylinder, |m.cylinder.indices|)
  {
  }

  lemma {:induction false} WheelDrawable(c: int, w: int)
    requires 1 <= c <= Cylinder.MaxSegments && 1 <= w <= Wheel.MaxSegments
    ensures var m := Setup(c, w); Drawable(m.wheel, |m.wheel.indices|)
  {
  }

  /** Every draw of a frame reads its mesh's whole index buffer exactly
      when that buffer's size fits in an `int`, and then it reads whole
      triangles over existing vertices; in particular the cube's hard-coded
      count 36 is exactly its table. */
  lemma {:induction false} FrameDrawsAreSound(c: int, w: int)
    requires 1 <= c <= Cylinder.MaxSegments && 1 <= w <= Wheel.MaxSegments
    ensures var m := Setup(c, w); var draws := FrameDraws(m);
      && |draws| == 11
      && forall i :: 0 <= i < |draws| ==>
           && (draws[i].count == |MeshOf(m, draws[i].mesh).indices| <==> |MeshOf(m, draws[i].mesh).indices| <= IntMax)
           && (|MeshOf(m, draws[i].mesh).indices| <= IntMax ==> Drawable(MeshOf(m, draws[i].mesh), draws[i].count))
  {
    CubeDrawable();
    CylinderDrawable(c, w);
    WheelDrawable(c, w);
    Cuboid.DrawCountMatchesTable();
  }

  /** The counts of one frame's draws: 36 for each of the four cubes,
      `12N` for each of the six wheels and `6N` for the cannon, each as it
      arrives after the conversion to `int`. */
  lemma {:induction false} FrameCounts(c: int, w: int)
    requires 1 <= c <= Cylinder.MaxSegments && 1 <= w <= Wheel.MaxSegments
    ensures var draws := FrameDraws(Setup(c, w));
      && draws[0].count == draws[1].count == draws[2].count == draws[9].count == 36
      && draws[3].count == draws[4].count == draws[5].count == NarrowToInt(12 * Segments(w))
      && draws[6].count == draws[7].count == draws[8].count == NarrowToInt(12 * Segments(w))
      && draws[10].count == NarrowToInt(6 * Segments(c))
  {
  }

  /** With the 36 segments `setupBuffers` uses for both generators, each
      wheel draw reads 432 indices and the cannon draw 216. */
  lemma DefaultFrameCounts()
    ensures var draws := FrameDraws(Setup(Cylinder.DefaultSegments, Wheel.DefaultSegments));
      && draws[3].count == draws[4].count == draws[5].count == 432
      && draws[6].count == draws[7].count == draws[8].count == 432
      && draws[10].count == 216
  {
    FrameCounts(Cylinder.DefaultSegments, Wheel.DefaultSegments);
  }

  /** Past the `int` range the conversion loses the count: a wheel whose
      `12N` indices exceed `IntMax` but stay below `2^32` (for instance
      `N = 2^28`, `3 * 2^30` indices) reaches `drawCylinder` with the
      negative count `12N - 2^32`, so the wheels are not drawn at all. */
  lemma {:induction false} OversizedWheelDrawsNothing(c: int, w: int)
    requires 1 <= c <= Cylinder.MaxSegments && 1 <= w <= Wheel.MaxSegments
    requires IntMax < 12 * w < TwoTo32
    ensures var m := Setup(c, w);
      && |m.wheel.indices| == 12 * w
      && FrameDraws(m)[3].count == 12 * w - TwoTo32 < 0
  {
    FrameCounts(c, w);
    assert (12 * w) % TwoTo32 == 12 * w;
  }
}
