/** Vertex and index buffers shared by the mesh generators.

    A vertex buffer is the flat `std::vector<float>` the generators append to:
    six floats per vertex, position (x, y, z) at offset 0 and colour (r, g, b)
    at offset 3, which is the attribute layout every vertex array object of the
    program declares. An index buffer is the `std::vector<unsigned int>` of
    triangle corners, three per triangle.
 */
module MeshBuffers {

  /** Largest value of a C++ `int`; every index is computed in `int`. */
  const IntMax := 0x7FFF_FFFF

  datatype Option<T> = None | Some(value: T)

  /** One float of a vertex buffer. Values the program writes as literals or
      halves of a parameter are exact (`Num`); `radius * cos(i * step)` and
      `radius * sin(i * step)`, with `step = 2 * pi / segs`, are kept symbolic. */
  datatype Scalar =
    | Num(v: real)
    | RadiusCos(radius: real, seg: int, segs: int)
    | RadiusSin(radius: real, seg: int, segs: int)

  datatype Color = Color(r: real, g: real, b: real)

  const Red := Color(1.0, 0.0, 0.0)
  const Green := Color(0.0, 1.0, 0.0)
  const White := Color(1.0, 1.0, 1.0)

  datatype Vertex = Vertex(x: Scalar, y: Scalar, z: Scalar, color: Color)

  /** The two vectors a generator appends to. */
  datatype Buffers = Buffers(vertices: seq<Scalar>, indices: seq<int>)

  const Empty := Buffers([], [])

  /** The six floats one vertex occupies, in buffer order: three for the
      position, three for the colour. */
  function Floats(v: Vertex): (fs: seq<Scalar>)
    ensures |fs| == 6
    ensures fs[3].Num? && fs[4].Num? && fs[5].Num?
  {
    [v.x, v.y, v.z, Num(v.color.r), Num(v.color.g), Num(v.color.b)]
  }

  /** The floats of a run of vertices, pushed one vertex after the other. */
  function Flatten(vs: seq<Vertex>): (fs: seq<Scalar>)
    ensures |fs| == 6 * |vs|
  {
    if |vs| == 0 then [] else Floats(vs[0]) + Flatten(vs[1..])
  }

  /** Number of whole vertices in a vertex buffer. */
  function VertexCount(fs: seq<Scalar>): nat
  {
    |fs| / 6
  }

  /** Reads vertex `k` back out of a vertex buffer the way the attribute
      layout does (stride six, position at 0, colour at 3); `None` when `k` is
      past the end or a colour slot does not hold a plain number. */
  function VertexAt(fs: seq<Scalar>, k: int): (r: Option<Vertex>)
    ensures r.Some? ==> 0 <= k < VertexCount(fs)
    ensures r.Some? ==> Flatten([r.value]) == fs[6 * k .. 6 * k + 6]
  {
    if k < 0 || 6 * k + 6 > |fs| then None
    else
      var base := 6 * k;
      if fs[base + 3].Num? && fs[base + 4].Num? && fs[base + 5].Num? then
        Some(Vertex(fs[base], fs[base + 1], fs[base + 2],
                    Color(fs[base + 3].v, fs[base + 4].v, fs[base + 5].v)))
      else None
  }

  /** Vertex `k` of a flattened run occupies floats `6k .. 6k+6`. */
  lemma {:induction false} FlattenSlice(vs: seq<Vertex>, k: int)
    requires 0 <= k < |vs|
    ensures Flatten(vs)[6 * k .. 6 * k + 6] == Floats(vs[k])
    decreases |vs|
  {
    var head := Floats(vs[0]);
    var tail := Flatten(vs[1..]);
    assert Flatten(vs) == head + tail;
    if k > 0 {
      FlattenSlice(vs[1..], k - 1);
      var lo := 6 * (k - 1);
      assert 6 * k == lo + 6;
      assert tail[lo .. lo + 6] == Floats(vs[k]);
      assert (head + tail)[lo + 6 .. lo + 12] == tail[lo .. lo + 6];
    } else {
      assert (head + tail)[0 .. 6] == head;
    }
  }

  /** Round trip of the vertex layout: reading vertex `k` of a flattened run
      gives back exactly the `k`-th vertex that was pushed, and nothing is read
      past the end. */
  lemma {:induction false} FlattenRoundTrip(vs: seq<Vertex>, k: int)
    ensures 0 <= k < |vs| ==> VertexAt(Flatten(vs), k) == Some(vs[k])
    ensures !(0 <= k < |vs|) ==> VertexAt(Flatten(vs), k) == None
  {
    if !(0 <= k < |vs|) {
      assert k < 0 || 6 * k + 6 > 6 * |vs|;
    } else {
      FlattenSlice(vs, k);
      var fs := Flatten(vs);
      var base := 6 * k;
      var v := vs[k];
      assert fs[base .. base + 6] == Floats(v);
      assert fs[base] == fs[base .. base + 6][0] == v.x;
      assert fs[base + 1] == fs[base .. base + 6][1] == v.y;
      assert fs[base + 2] == fs[base .. base + 6][2] == v.z;
      assert fs[base + 3] == Num(v.color.r);
      assert fs[base + 4] == Num(v.color.g);
      assert fs[base + 5] == Num(v.color.b);
    }
  }

  /** Number of times `for (int i = 0; i < numSegments; ++i)` runs: the
      segment count when it is positive, and zero otherwise. */
  function Segments(n: int): nat
  {
    if n > 0 then n else 0
  }

  /** The loop index `i` takes exactly the values `0 <= i < numSegments`,
      `Segments(n)` of them. */
  lemma SegmentsIsLoopRange(n: int, i: int)
    ensures 0 <= i < Segments(n) <==> 0 <= i < n
  {
  }

  /** The segment after `i` around a ring of `n`: the last segment wraps
      around to segment 0. */
  function Next(n: int, i: int): (j: int)
    requires 0 <= i < n
    ensures 0 <= j < n
  {
    if i == n - 1 then 0 else i + 1
  }

  /** `Next` is the program's `(i + 1) % numSegments`. Both operands are
      non-negative here, so C++'s truncating `%` and Dafny's Euclidean `%`
      agree. */
  lemma {:induction false} NextIsModulo(n: int, i: int)
    requires 0 <= i < n
    ensures Next(n, i) == (i + 1) % n
  {
    if i < n - 1 {
      assert (i + 1) % n == i + 1;
    } else {
      assert (i + 1) % n == n % n == 0;
    }
  }

  /** A triangle: three vertex slots in winding order. */
  datatype Tri = Tri(a: int, b: int, c: int)

  /** The vertex slots a triangle names. */
  function CornerSet(t: Tri): set<int>
  {
    {t.a, t.b, t.c}
  }

  /** Every corner of the triangle names one of the first `m` vertices. */
  predicate Below(t: Tri, m: int)
  {
    0 <= t.a < m && 0 <= t.b < m && 0 <= t.c < m
  }

  /** The index buffer of a run of triangles: three `push_back`s per
      triangle, one triangle after the other. */
  function Corners(ts: seq<Tri>): (ix: seq<int>)
    ensures |ix| == 3 * |ts|
  {
    if |ts| == 0 then [] else [ts[0].a, ts[0].b, ts[0].c] + Corners(ts[1..])
  }

  /** Triangle `t` of an index buffer: its three corners, as the indexed
      draw reads them. */
  function Triangle(ix: seq<int>, t: int): Tri
    requires 0 <= t && 3 * t + 3 <= |ix|
  {
    Tri(ix[3 * t], ix[3 * t + 1], ix[3 * t + 2])
  }

  /** Round trip of the index layout: triangle `t` read back from the index
      buffer of a run of triangles is the `t`-th triangle pushed. */
  lemma {:induction false} CornersRoundTrip(ts: seq<Tri>, t: int)
    requires 0 <= t < |ts|
    ensures Triangle(Corners(ts), t) == ts[t]
    decreases |ts|
  {
    var head := [ts[0].a, ts[0].b, ts[0].c];
    var tail := Corners(ts[1..]);
    assert Corners(ts) == head + tail;
    if t > 0 {
      CornersRoundTrip(ts[1..], t - 1);
      assert Triangle(tail, t - 1) == ts[t];
      var lo := 3 * (t - 1);
      assert 3 * t == lo + 3;
      assert (head + tail)[lo + 3] == tail[lo];
      assert (head + tail)[lo + 4] == tail[lo + 1];
      assert (head + tail)[lo + 5] == tail[lo + 2];
    }
  }

  /** An index is in the buffer exactly when it is a corner of one of the
      triangles. */
  lemma {:induction false} CornersMembers(ts: seq<Tri>, v: int)
    ensures v in Corners(ts) <==> exists t :: 0 <= t < |ts| && v in CornerSet(ts[t])
    decreases |ts|
  {
    if |ts| > 0 {
      CornersMembers(ts[1..], v);
      var head := [ts[0].a, ts[0].b, ts[0].c];
      assert Corners(ts) == head + Corners(ts[1..]);
      if v in Corners(ts[1..]) {
        var t :| 0 <= t < |ts| - 1 && v in CornerSet(ts[1..][t]);
        assert v in CornerSet(ts[t + 1]);
      }
      if exists t :: 0 <= t < |ts| && v in CornerSet(ts[t]) {
        var t :| 0 <= t < |ts| && v in CornerSet(ts[t]);
        if t > 0 {
          assert v in CornerSet(ts[1..][t - 1]);
        }
      }
    }
  }

  /** If every triangle stays below `m`, so does every index. */
  lemma {:induction false} CornersBelow(ts: seq<Tri>, m: int)
    requires forall t :: 0 <= t < |ts| ==> Below(ts[t], m)
    ensures forall j :: 0 <= j < |Corners(ts)| ==> 0 <= Corners(ts)[j] < m
    decreases |ts|
  {
    if |ts| > 0 {
      CornersBelow(ts[1..], m);
      assert Corners(ts) == [ts[0].a, ts[0].b, ts[0].c] + Corners(ts[1..]);
    }
  }
}
