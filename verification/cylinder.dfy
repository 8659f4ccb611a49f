/** `createCylinder`: the open-ended tube used for the cannon barrel.

    For `N` segments it pushes, per segment `i`, a bottom-ring vertex (red, at
    `z = -height/2`) and a top-ring vertex (green, at `z = +height/2`), so
    bottom vertex `i` is slot `2i` and top vertex `i` is slot `2i + 1`. It then
    pushes two side triangles per segment joining segment `i` to the next one
    around the ring. There are no caps.
 */
module Cylinder {
  import opened MeshBuffers

  /** Default arguments of `createCylinder`, the ones `setupBuffers` uses. */
  const DefaultSegments := 36
  const DefaultHeight := 1.0
  const DefaultRadius := 1.0

  /** Largest segment count for which every index expression (at most
      `2 * (N - 1) + 1`) stays within C++ `int`; beyond it the signed
      arithmetic overflows. */
  const MaxSegments := 0x4000_0000

  /** Bottom-ring vertex of segment `i`. */
  function Bottom(n: int, height: real, radius: real, i: int): Vertex
  {
    Vertex(RadiusCos(radius, i, n), RadiusSin(radius, i, n), Num(-height / 2.0), Red)
  }

  /** Top-ring vertex of segment `i`. */
  function Top(n: int, height: real, radius: real, i: int): Vertex
  {
    Vertex(RadiusCos(radius, i, n), RadiusSin(radius, i, n), Num(height / 2.0), Green)
  }

  /** The vertices pushed by the first `k` iterations of the vertex loop. */
  function RingVertices(n: int, height: real, radius: real, k: nat): (vs: seq<Vertex>)
    ensures |vs| == 2 * k
    ensures forall i :: 0 <= i < k ==> vs[2 * i] == Bottom(n, height, radius, i)
    ensures forall i :: 0 <= i < k ==> vs[2 * i + 1] == Top(n, height, radius, i)
  {
    if k == 0 then []
    else RingVertices(n, height, radius, k - 1) + [Bottom(n, height, radius, k - 1), Top(n, height, radius, k - 1)]
  }

  /** Every vertex the generator pushes, in order. */
  function Vertices(n: int, height: real, radius: real): seq<Vertex>
  {
    RingVertices(n, height, radius, Segments(n))
  }

  /** The two triangles pushed by iteration `i` of the index loop. */
  function SegmentTriangles(n: int, i: int): (ts: seq<Tri>)
    requires 0 <= i < n
    ensures |ts| == 2
    ensures ts[0].b == ts[1].b && ts[0].c == ts[1].a
    ensures forall t :: 0 <= t < 2 ==> Below(ts[t], 2 * n)
  {
    var next := Next(n, i);
    [Tri(2 * i, 2 * next, 2 * i + 1), Tri(2 * i + 1, 2 * next, 2 * next + 1)]
  }

  /** The triangles pushed by the first `k` iterations of the index loop;
      every corner names one of the `2n` ring vertices. */
  function TrianglesUpTo(n: int, k: nat): (ts: seq<Tri>)
    requires k <= Segments(n)
    ensures |ts| == 2 * k
    ensures forall t :: 0 <= t < |ts| ==> Below(ts[t], 2 * n)
  {
    if k == 0 then [] else TrianglesUpTo(n, k - 1) + SegmentTriangles(n, k - 1)
  }

  /** The triangles of an `n`-segment cylinder. */
  function Triangles(n: int): seq<Tri>
  {
    TrianglesUpTo(n, Segments(n))
  }

  /** The index list of an `n`-segment cylinder. */
  function Indices(n: int): seq<int>
  {
    Corners(Triangles(n))
  }

  /** `createCylinder(vertices, indices, n, height, radius)`: appends the ring
      vertices and the side triangles. What is already in the two vectors is
      kept as a prefix; the indices appended depend on `n` alone and each
      fits in an `int`. */
  function CreateCylinder(b: Buffers, n: int, height: real, radius: real): (r: Buffers)
    requires n <= MaxSegments
    ensures b.vertices <= r.vertices && b.indices <= r.indices
    ensures |r.vertices| == |b.vertices| + 12 * Segments(n)
    ensures |r.indices| == |b.indices| + 6 * Segments(n)
    ensures r.vertices[|b.vertices|..] == Flatten(Vertices(n, height, radius))
    ensures r.indices[|b.indices|..] == Indices(n)
    ensures forall j :: |b.indices| <= j < |r.indices| ==> 0 <= r.indices[j] < 2 * Segments(n)
    ensures forall j :: |b.indices| <= j < |r.indices| ==> r.indices[j] <= IntMax
  {
    var vs := Flatten(Vertices(n, height, radius));
    var ix := Indices(n);
    CornersBelow(Triangles(n), 2 * Segments(n));
    assert (b.vertices + vs)[|b.vertices|..] == vs;
    assert (b.indices + ix)[|b.indices|..] == ix;
    Buffers(b.vertices + vs, b.indices + ix)
  }

  /** Triangle `2i + t` of the first `k` iterations is triangle `t` of
      iteration `i`. */
  lemma {:induction false} TrianglesBlock(n: int, k: nat, i: int, t: int)
    requires k <= Segments(n)
    requires 0 <= i < k && 0 <= t < 2
    ensures TrianglesUpTo(n, k)[2 * i + t] == SegmentTriangles(n, i)[t]
    decreases k
  {
    var prev := TrianglesUpTo(n, k - 1);
    assert TrianglesUpTo(n, k) == prev + SegmentTriangles(n, k - 1);
    if i < k - 1 {
      TrianglesBlock(n, k - 1, i, t);
    }
  }

  /** Segment `i` contributes, as triangles `2i` and `2i + 1` of the index
      list, `(2i, 2next, 2i+1)` and `(2i+1, 2next, 2next+1)`, where `next` is
      `i + 1`, or `0` for the last segment, which closes the tube onto
      segment 0. */
  lemma {:induction false} SideTriangles(n: int, i: int)
    requires 0 <= i < n
    ensures var next := if i == n - 1 then 0 else i + 1;
      && Triangle(Indices(n), 2 * i) == Tri(2 * i, 2 * next, 2 * i + 1)
      && Triangle(Indices(n), 2 * i + 1) == Tri(2 * i + 1, 2 * next, 2 * next + 1)
  {
    TrianglesBlock(n, n, i, 0);
    TrianglesBlock(n, n, i, 1);
    CornersRoundTrip(Triangles(n), 2 * i);
    CornersRoundTrip(Triangles(n), 2 * i + 1);
  }

  /** Wrap-around closure: the last segment's triangles reach back to the
      first segment's vertices 0 and 1. */
  lemma {:induction false} LastSegmentCloses(n: int)
    requires n >= 1
    ensures Triangle(Indices(n), 2 * n - 2) == Tri(2 * n - 2, 0, 2 * n - 1)
    ensures Triangle(Indices(n), 2 * n - 1) == Tri(2 * n - 1, 0, 1)
  {
    SideTriangles(n, n - 1);
  }

  /** Every side triangle spans both rings: triangle `2i` has two corners on
      the bottom ring (even slots) and one on the top ring (odd slot), and
      triangle `2i + 1` the other way round. */
  lemma {:induction false} TrianglesSpanRings(n: int, t: int)
    requires 0 <= t < 2 * Segments(n)
    ensures var tri := Triangle(Indices(n), t);
      && (t % 2 == 0 ==> tri.a % 2 == 0 && tri.b % 2 == 0 && tri.c % 2 == 1)
      && (t % 2 == 1 ==> tri.a % 2 == 1 && tri.b % 2 == 0 && tri.c % 2 == 1)
  {
    SideTriangles(n, t / 2);
  }

  /** The index list uses exactly the vertices `0 .. 2N`: each index is one of
      them, and each of them is used. */
  lemma {:induction false} IndicesCoverRings(n: int)
    ensures forall v :: v in Indices(n) <==> 0 <= v < 2 * Segments(n)
  {
    var ts := Triangles(n);
    forall v
      ensures v in Indices(n) <==> 0 <= v < 2 * Segments(n)
    {
      CornersMembers(ts, v);
      if 0 <= v < 2 * Segments(n) {
        var i := v / 2;
        TrianglesBlock(n, n, i, 0);
        assert v in CornerSet(ts[2 * i]);
      }
    }
  }

  /** Read back through the attribute layout, the vertex buffer a cylinder
      appends holds, at even slot `2i`, the bottom vertex of segment `i` and,
      at odd slot `2i + 1`, its top vertex; there is nothing past slot
      `2N - 1`. */
  lemma {:induction false} RingSlots(n: int, height: real, radius: real, v: int)
    ensures var vs := Flatten(Vertices(n, height, radius));
      && (0 <= v < 2 * Segments(n) && v % 2 == 0 ==> VertexAt(vs, v) == Some(Bottom(n, height, radius, v / 2)))
      && (0 <= v < 2 * Segments(n) && v % 2 == 1 ==> VertexAt(vs, v) == Some(Top(n, height, radius, v / 2)))
      && (!(0 <= v < 2 * Segments(n)) ==> VertexAt(vs, v) == None)
  {
    var vs := Vertices(n, height, radius);
    FlattenRoundTrip(vs, v);
    if 0 <= v < 2 * Segments(n) {
      var i := v / 2;
      if v % 2 == 0 {
        assert v == 2 * i;
        assert vs[v] == Bottom(n, height, radius, i);
      } else {
        assert v == 2 * i + 1;
        assert vs[v] == Top(n, height, radius, i);
      }
    }
  }
}
