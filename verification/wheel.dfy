/** `createWheel`: the closed disc used for the road wheels.

    It pushes two centre vertices first, slot 0 at `z = -width/2` and slot 1 at
    `z = +width/2` (both white), then per segment `i` a rim vertex on the
    `-width/2` face (red, slot `2i + 2`) and one on the `+width/2` face (green,
    slot `2i + 3`). Per segment it pushes four triangles, twelve indices: two
    side triangles across the rim, a fan triangle around centre 0 and a fan
    triangle around centre 1 with the opposite winding.

    Names here follow the sign of `z`: "back" is the `-width/2` face and
    "front" the `+width/2` face. The program's own comments label the fan
    around vertex 0 (on `-width/2`) the front face and the fan around
    vertex 1 the back face, the other way round.
 */
module Wheel {
  import opened MeshBuffers

  /** Default arguments of `createWheel`, the ones `setupBuffers` uses. */
  const DefaultSegments := 36
  const DefaultRadius := 0.5
  const DefaultWidth := 0.2

  /** Largest segment count for which every index expression (at most
      `2 * (N - 1) + 3`) stays within C++ `int`. */
  const MaxSegments := 0x3FFF_FFFF

  /** Centre of the `-width/2` face, slot 0. */
  function BackCentre(width: real): Vertex
  {
    Vertex(Num(0.0), Num(0.0), Num(-width / 2.0), White)
  }

  /** Centre of the `+width/2` face, slot 1. */
  function FrontCentre(width: real): Vertex
  {
    Vertex(Num(0.0), Num(0.0), Num(width / 2.0), White)
  }

  /** Rim vertex of segment `i` on the `-width/2` face. */
  function BackRim(n: int, radius: real, width: real, i: int): Vertex
  {
    Vertex(RadiusCos(radius, i, n), RadiusSin(radius, i, n), Num(-width / 2.0), Red)
  }

  /** Rim vertex of segment `i` on the `+width/2` face. */
  function FrontRim(n: int, radius: real, width: real, i: int): Vertex
  {
    Vertex(RadiusCos(radius, i, n), RadiusSin(radius, i, n), Num(width / 2.0), Green)
  }

  /** The rim vertices pushed by the first `k` iterations of the vertex loop
      (without the two centres). */
  function RimVertices(n: int, radius: real, width: real, k: nat): (vs: seq<Vertex>)
    ensures |vs| == 2 * k
    ensures forall i :: 0 <= i < k ==> vs[2 * i] == BackRim(n, radius, width, i)
    ensures forall i :: 0 <= i < k ==> vs[2 * i + 1] == FrontRim(n, radius, width, i)
  {
    if k == 0 then []
    else RimVertices(n, radius, width, k - 1) + [BackRim(n, radius, width, k - 1), FrontRim(n, radius, width, k - 1)]
  }

  /** Every vertex the generator pushes, in order. */
  function Vertices(n: int, radius: real, width: real): seq<Vertex>
  {
    [BackCentre(width), FrontCentre(width)] + RimVertices(n, radius, width, Segments(n))
  }

  /** The four triangles pushed by iteration `i` of the index loop: the side
      triangles `(2i+2, 2next+2, 2i+3)` and `(2i+3, 2next+2, 2next+3)`, the
      fan triangle `(0, 2i+2, 2next+2)` and the fan triangle
      `(1, 2next+3, 2i+3)`. */
  function SegmentTriangles(n: int, i: int): (ts: seq<Tri>)
    requires 0 <= i < n
    ensures |ts| == 4
    ensures ts[2].a == 0 && ts[3].a == 1
    ensures forall t :: 0 <= t < 4 ==> Below(ts[t], 2 * n + 2)
  {
    var next := Next(n, i);
    [ Tri(2 * i + 2, 2 * next + 2, 2 * i + 3),
      Tri(2 * i + 3, 2 * next + 2, 2 * next + 3),
      Tri(0, 2 * i + 2, 2 * next + 2),
      Tri(1, 2 * next + 3, 2 * i + 3) ]
  }

  /** The triangles pushed by the first `k` iterations of the index loop;
      every corner names one of the `2n + 2` vertices. */
  function TrianglesUpTo(n: int, k: nat): (ts: seq<Tri>)
    requires k <= Segments(n)
    ensures |ts| == 4 * k
    ensures forall t :: 0 <= t < |ts| ==> Below(ts[t], 2 * n + 2)
  {
    if k == 0 then [] else TrianglesUpTo(n, k - 1) + SegmentTriangles(n, k - 1)
  }

  /** The triangles of an `n`-segment wheel. */
  function Triangles(n: int): seq<Tri>
  {
    TrianglesUpTo(n, Segments(n))
  }

  /** The index list of an `n`-segment wheel. */
  function Indices(n: int): seq<int>
  {
    Corners(Triangles(n))
  }

  /** `createWheel(vertices, indices, n, radius, width)`: appends the two
      centres, the rim and the triangles. What is already in the two vectors
      is kept as a prefix; the indices appended depend on `n` alone and each
      fits in an `int`. */
  function CreateWheel(b: Buffers, n: int, radius: real, width: real): (r: Buffers)
    requires n <= MaxSegments
    ensures b.vertices <= r.vertices && b.indices <= r.indices
    ensures |r.vertices| == |b.vertices| + 6 * (2 + 2 * Segments(n))
    ensures |r.indices| == |b.indices| + 12 * Segments(n)
    ensures r.vertices[|b.vertices|..] == Flatten(Vertices(n, radius, width))
    ensures r.indices[|b.indices|..] == Indices(n)
    ensures forall j :: |b.indices| <= j < |r.indices| ==> 0 <= r.indices[j] < 2 * Segments(n) + 2
    ensures forall j :: |b.indices| <= j < |r.indices| ==> r.indices[j] <= IntMax
  {
    var vs := Flatten(Vertices(n, radius, width));
    var ix := Indices(n);
    CornersBelow(Triangles(n), 2 * Segments(n) + 2);
    assert (b.vertices + vs)[|b.vertices|..] == vs;
    assert (b.indices + ix)[|b.indices|..] == ix;
    Buffers(b.vertices + vs, b.indices + ix)
  }

  /** Triangle `4i + t` of the first `k` iterations is triangle `t` of
      iteration `i`. */
  lemma {:induction false} TrianglesBlock(n: int, k: nat, i: int, t: int)
    requires k <= Segments(n)
    requires 0 <= i < k && 0 <= t < 4
    ensures TrianglesUpTo(n, k)[4 * i + t] == SegmentTriangles(n, i)[t]
    decreases k
  {
    var prev := TrianglesUpTo(n, k - 1);
    assert TrianglesUpTo(n, k) == prev + SegmentTriangles(n, k - 1);
    if i < k - 1 {
      TrianglesBlock(n, k - 1, i, t);
    }
  }

  /** Triangle `4i + p` of the index list is triangle `p` of segment `i`. */
  lemma {:induction false} TriangleOfSegment(n: int, i: int, p: int)
    requires 0 <= i < n && 0 <= p < 4
    ensures Triangle(Indices(n), 4 * i + p) == SegmentTriangles(n, i)[p]
  {
    TrianglesBlock(n, n, i, p);
    CornersRoundTrip(Triangles(n), 4 * i + p);
  }

  /** Segment `i`'s four triangles, with `next` the following segment (0 after
      the last, closing the ring): two side triangles across the rim, a fan
      triangle around vertex 0, and one around vertex 1 whose rim corners are
      the first fan's, moved one slot over to the other face, in reverse
      order. */
  lemma {:induction false} SegmentTrianglesRead(n: int, i: int)
    requires 0 <= i < n
    ensures var ix := Indices(n); var next := if i == n - 1 then 0 else i + 1;
      && Triangle(ix, 4 * i) == Tri(2 * i + 2, 2 * next + 2, 2 * i + 3)
      && Triangle(ix, 4 * i + 1) == Tri(2 * i + 3, 2 * next + 2, 2 * next + 3)
      && Triangle(ix, 4 * i + 2) == Tri(0, 2 * i + 2, 2 * next + 2)
      && Triangle(ix, 4 * i + 3) == Tri(1, Triangle(ix, 4 * i + 2).c + 1, Triangle(ix, 4 * i + 2).b + 1)
  {
    TriangleOfSegment(n, i, 0);
    TriangleOfSegment(n, i, 1);
    TriangleOfSegment(n, i, 2);
    TriangleOfSegment(n, i, 3);
  }

  /** Where the centres are used: vertex 0 is a corner exactly of the fan
      triangles around it (position 2 of a segment) and vertex 1 exactly of
      the other fan (position 3); side triangles never use a centre. */
  lemma {:induction false} CentreRoles(n: int, i: int, p: int)
    requires 0 <= i < n && 0 <= p < 4
    ensures var tri := Triangle(Indices(n), 4 * i + p);
      && (0 in CornerSet(tri) <==> p == 2)
      && (1 in CornerSet(tri) <==> p == 3)
      && (p < 2 ==> tri.a >= 2 && tri.b >= 2 && tri.c >= 2)
  {
    TriangleOfSegment(n, i, p);
  }

  /** The fan triangles are anchored at their centre and their other two
      corners are rim slots of the same face: even slots 2 and up (the
      `-width/2` face) around vertex 0, odd slots 3 and up (the `+width/2`
      face) around vertex 1. */
  lemma {:induction false} FanCorners(n: int, i: int)
    requires 0 <= i < n
    ensures var fan := Triangle(Indices(n), 4 * i + 2);
      fan.a == 0 && fan.b >= 2 && fan.b % 2 == 0 && fan.c >= 2 && fan.c % 2 == 0
    ensures var fan := Triangle(Indices(n), 4 * i + 3);
      fan.a == 1 && fan.b >= 3 && fan.b % 2 == 1 && fan.c >= 3 && fan.c % 2 == 1
  {
    var next := Next(n, i);
    var ix := Indices(n);
    TriangleOfSegment(n, i, 2);
    TriangleOfSegment(n, i, 3);
    assert Triangle(ix, 4 * i + 2) == Tri(0, 2 * i + 2, 2 * next + 2);
    assert Triangle(ix, 4 * i + 3) == Tri(1, 2 * next + 3, 2 * i + 3);
  }

  /** The index list uses exactly the vertices `0 .. 2N + 2` once there is a
      segment: each index is one of them and each of them is used (the
      centres by the fans of segment 0, rim slots `2i + 2` and `2i + 3` by
      segment `i`'s first side triangle). */
  lemma {:induction false} IndicesCoverVertices(n: int)
    requires n >= 1
    ensures forall v :: v in Indices(n) <==> 0 <= v < 2 * n + 2
  {
    CornersBelow(Triangles(n), 2 * n + 2);
    forall v | 0 <= v < 2 * n + 2
      ensures v in Indices(n)
    {
      VertexUsed(n, v);
    }
    forall v | v in Indices(n)
      ensures 0 <= v < 2 * n + 2
    {
      var j :| 0 <= j < |Indices(n)| && Indices(n)[j] == v;
    }
  }

  /** Vertex `v` is a corner of some triangle: of a fan of segment 0 for a
      centre, of segment `(v - 2) / 2`'s first side triangle otherwise. */
  lemma {:induction false} VertexUsed(n: int, v: int)
    requires n >= 1
    requires 0 <= v < 2 * n + 2
    ensures v in Indices(n)
  {
    var ts := Triangles(n);
    CornersMembers(ts, v);
    var t := if v < 2 then 2 + v else 4 * ((v - 2) / 2);
    if v < 2 {
      TrianglesBlock(n, n, 0, 2 + v);
    } else {
      TrianglesBlock(n, n, (v - 2) / 2, 0);
    }
    assert v in CornerSet(ts[t]);
  }

  /** Read back through the attribute layout, the vertex buffer of a wheel
      built from empty vectors holds the `-width/2` centre at slot 0, the
      `+width/2` centre at slot 1, segment `i`'s `-width/2` rim vertex at slot
      `2i + 2` and its `+width/2` rim vertex at slot `2i + 3`, and nothing
      past slot `2N + 1`. */
  lemma {:induction false} VertexSlots(n: int, radius: real, width: real, v: int)
    ensures var vs := Flatten(Vertices(n, radius, width));
      && (v == 0 ==> VertexAt(vs, v) == Some(BackCentre(width)))
      && (v == 1 ==> VertexAt(vs, v) == Some(FrontCentre(width)))
      && (2 <= v < 2 * Segments(n) + 2 && v % 2 == 0 ==> VertexAt(vs, v) == Some(BackRim(n, radius, width, (v - 2) / 2)))
      && (2 <= v < 2 * Segments(n) + 2 && v % 2 == 1 ==> VertexAt(vs, v) == Some(FrontRim(n, radius, width, (v - 2) / 2)))
      && (!(0 <= v < 2 * Segments(n) + 2) ==> VertexAt(vs, v) == None)
  {
    var all := Vertices(n, radius, width);
    FlattenRoundTrip(all, v);
    if 2 <= v < 2 * Segments(n) + 2 {
      var rim := RimVertices(n, radius, width, Segments(n));
      var i := (v - 2) / 2;
      assert all[v] == rim[v - 2];
      if v % 2 == 0 {
        assert v - 2 == 2 * i;
        assert rim[v - 2] == BackRim(n, radius, width, i);
      } else {
        assert v - 2 == 2 * i + 1;
        assert rim[v - 2] == FrontRim(n, radius, width, i);
      }
    }
  }

  /** Depth of each vertex slot: even slots (centre 0 and the even rim
      slots) lie on the `-width/2` face, odd slots on the `+width/2` face. */
  lemma {:induction false} SlotFace(n: int, radius: real, width: real, v: int)
    requires 0 <= v < 2 * Segments(n) + 2
    ensures var vs := Flatten(Vertices(n, radius, width));
      && VertexAt(vs, v).Some?
      && VertexAt(vs, v).value.z == (if v % 2 == 0 then Num(-width / 2.0) else Num(width / 2.0))
  {
    VertexSlots(n, radius, width, v);
  }

  /** The fan around vertex 0 lies on the `-width/2` face and the fan around
      vertex 1 on the `+width/2` face: every corner of a fan triangle
      (position 2, respectively 3, of a segment) names a vertex of the
      appended vertex buffer at that depth. */
  lemma {:induction false} FansLieOnTheirFaces(n: int, radius: real, width: real, i: int)
    requires 0 <= i < n
    ensures var vs := Flatten(Vertices(n, radius, width)); var ix := Indices(n);
      && (forall v :: v in CornerSet(Triangle(ix, 4 * i + 2)) ==>
            VertexAt(vs, v).Some? && VertexAt(vs, v).value.z == Num(-width / 2.0))
      && (forall v :: v in CornerSet(Triangle(ix, 4 * i + 3)) ==>
            VertexAt(vs, v).Some? && VertexAt(vs, v).value.z == Num(width / 2.0))
  {
    var vs := Flatten(Vertices(n, radius, width));
    var next := Next(n, i);
    TriangleOfSegment(n, i, 2);
    TriangleOfSegment(n, i, 3);
    forall v | v in CornerSet(Triangle(Indices(n), 4 * i + 2))
      ensures VertexAt(vs, v).Some? && VertexAt(vs, v).value.z == Num(-width / 2.0)
    {
      assert v == 2 * (v / 2) && 0 <= v < 2 * n + 2;
      SlotFace(n, radius, width, v);
    }
    forall v | v in CornerSet(Triangle(Indices(n), 4 * i + 3))
      ensures VertexAt(vs, v).Some? && VertexAt(vs, v).value.z == Num(width / 2.0)
    {
      assert v == 2 * (v / 2) + 1 && 0 <= v < 2 * n + 2;
      SlotFace(n, radius, width, v);
    }
  }
}
