/**
 * `create_cube_mesh` from end to end: emission, the sort by normal, the two
 * greedy merge passes, and the index and colour buffers of lines 451-459.
 *
 * The random hue of each quad (drawn from `rand::thread_rng`) is the
 * parameter `hue`, a function from quad number to hue.
 */
module Mesh {
  import opened Lattice
  import opened Quads
  import opened Terrain
  import opened Registry
  import opened Culling
  import opened Emission
  import opened NormalSort
  import opened Merge

  /** An RGBA colour of the mesh's colour attribute. */
  datatype Color = Color(r: real, g: real, b: real, a: real)

  /** The colour line 454 gives a quad of hue `hue`. */
  function QuadColor(hue: real): Color {
    Color(0.0, 0.0, hue, 1.0)
  }

  /**
   * a, b, c is a triangle of quad k whose corners follow the quad's own
   * corner cycle 4k, 4k+1, 4k+2, 4k+3, so it winds the same way as the quad.
   */
  predicate CycleTriangle(a: int, b: int, c: int, k: int) {
    && 4 * k <= a < 4 * k + 4 && 4 * k <= b < 4 * k + 4 && 4 * k <= c < 4 * k + 4
    && (b - a) % 4 == 1 && (c - b) % 4 == 1
  }

  /**
   * The index buffer splits quad k into two triangles of its own corners
   * that tile it: both wind like the quad, together they cover all four
   * corners, and the middle corners of the two are opposite, so the
   * triangles meet along a diagonal and do not overlap.
   */
  predicate QuadIndices(indices: seq<int>, k: int)
    requires 0 <= k && 6 * k + 6 <= |indices|
  {
    && CycleTriangle(indices[6 * k], indices[6 * k + 1], indices[6 * k + 2], k)
    && CycleTriangle(indices[6 * k + 3], indices[6 * k + 4], indices[6 * k + 5], k)
    && (indices[6 * k + 4] - indices[6 * k + 1]) % 4 == 2
    && var q := indices[6 * k..6 * k + 6];
      4 * k in q && 4 * k + 1 in q && 4 * k + 2 in q && 4 * k + 3 in q
  }

  /** The six indices line 452 pushes for quad k: triangles (0, 1, 2) and (2, 3, 0) of its corners. */
  function QuadTriangles(k: int): seq<int> {
    [k * 4 + 0, k * 4 + 1, k * 4 + 2, k * 4 + 2, k * 4 + 3, k * 4 + 0]
  }

  /** The pushed triangles tile their quad. */
  lemma TrianglesTileQuad(indices: seq<int>, k: int)
    requires 0 <= k && 6 * k + 6 <= |indices| && indices[6 * k..6 * k + 6] == QuadTriangles(k)
    ensures QuadIndices(indices, k)
  {
    var q := indices[6 * k..6 * k + 6];
    assert q[0] == indices[6 * k] && q[1] == indices[6 * k + 1] && q[2] == indices[6 * k + 2];
    assert q[3] == indices[6 * k + 3] && q[4] == indices[6 * k + 4] && q[5] == indices[6 * k + 5];
  }

  /** The index buffer of quads 0 .. n - 1: in range, and each quad drawn as line 452 draws it. */
  predicate IndicesUpTo(indices: seq<int>, n: int) {
    && 0 <= n && |indices| == 6 * n
    && (forall t :: 0 <= t < |indices| ==> 0 <= indices[t] < 4 * n)
    && forall k :: 0 <= k < n ==> indices[6 * k..6 * k + 6] == QuadTriangles(k)
  }

  /** The colour buffer of quads 0 .. n - 1: four copies of each quad's colour. */
  predicate ColorsUpTo(colors: seq<Color>, hue: int -> real, n: int) {
    && 0 <= n && |colors| == 4 * n
    && forall k :: 0 <= k < n ==> Uniform4(Quad(colors, k)) && colors[4 * k] == QuadColor(hue(k))
  }

  /** Appending the six indices of quad n extends the index buffer by one quad. */
  lemma IndicesStep(indices: seq<int>, n: int)
    requires IndicesUpTo(indices, n)
    ensures IndicesUpTo(indices + QuadTriangles(n), n + 1)
  {
    var r := indices + QuadTriangles(n);
    assert r[6 * n..6 * n + 6] == QuadTriangles(n);
    forall k | 0 <= k < n
      ensures r[6 * k..6 * k + 6] == QuadTriangles(k)
    {
      assert r[6 * k..6 * k + 6] == indices[6 * k..6 * k + 6];
    }
  }

  /** Appending four copies of quad n's colour extends the colour buffer by one quad. */
  lemma ColorsStep(colors: seq<Color>, hue: int -> real, n: int)
    requires ColorsUpTo(colors, hue, n)
    ensures var c := QuadColor(hue(n)); ColorsUpTo(colors + [c, c, c, c], hue, n + 1)
  {
    var c := QuadColor(hue(n));
    var r := colors + [c, c, c, c];
    forall k | 0 <= k < n
      ensures Quad(r, k) == Quad(colors, k)
    {
    }
  }

  /** The index and colour loop of lines 451-459, for a vertex buffer of length count. */
  method Assemble(count: nat, hue: int -> real) returns (indices: seq<int>, colors: seq<Color>)
    ensures |indices| == 6 * (count / 4) && |colors| == 4 * (count / 4)
    ensures forall t :: 0 <= t < |indices| ==> 0 <= indices[t] < count
    ensures forall k :: 0 <= k < count / 4 ==> indices[6 * k..6 * k + 6] == QuadTriangles(k)
    ensures forall k :: 0 <= k < count / 4 ==> QuadIndices(indices, k)
    ensures forall k :: 0 <= k < count / 4 ==> Uniform4(Quad(colors, k)) && colors[4 * k] == QuadColor(hue(k))
  {
    indices, colors := [], [];
    for i := 0 to count / 4
      invariant IndicesUpTo(indices, i)
      invariant ColorsUpTo(colors, hue, i)
    {
      IndicesStep(indices, i);
      ColorsStep(colors, hue, i);
      indices := indices + [i * 4 + 0, i * 4 + 1, i * 4 + 2, i * 4 + 2, i * 4 + 3, i * 4 + 0];
      assert indices[|indices| - 6..] == QuadTriangles(i);
      var color := QuadColor(hue(i));
      colors := colors + [color, color, color, color];
    }
    assert 4 * (count / 4) <= count;
    forall k | 0 <= k < count / 4
      ensures QuadIndices(indices, k)
    {
      TrianglesTileQuad(indices, k);
    }
  }

  /** The position half of a run of (normal, position) pairs. */
  function Positions(ps: seq<Pair>): (vs: seq<V3>)
    ensures |vs| == |ps| && forall k :: 0 <= k < |ps| ==> vs[k] == ps[k].1
  {
    seq(|ps|, k requires 0 <= k < |ps| => ps[k].1)
  }

  /** Zipping the two halves of a run of pairs gives the run back, and only they do. */
  lemma Unzip(ns: seq<V3>, vs: seq<V3>, ps: seq<Pair>)
    requires |ns| == |vs| && Zip(ns, vs) == ps
    ensures ns == Normals(ps) && vs == Positions(ps)
  {
  }

  /** The emitted buffers of a chunk, zipped into (normal, position) pairs as line 274 does. */
  function Emitted(c: Chunk, nb: map<Side, Chunk>, w: int, h: int): seq<Pair>
    requires ValidDims(w, h) && WellFormed(c, w, h) && NeighborsFit(nb, w, h)
  {
    var fs := FaceList(c, nb, w, h, w * w * h);
    Zip(FaceNormals(fs), Corners(fs))
  }

  /** The emitted pairs are a run of faces: whole quads, each of one normal. */
  lemma EmittedPairs(c: Chunk, nb: map<Side, Chunk>, w: int, h: int)
    requires ValidDims(w, h) && WellFormed(c, w, h) && NeighborsFit(nb, w, h)
    ensures Faces(Emitted(c, nb, w, h))
  {
    var fs := FaceList(c, nb, w, h, w * w * h);
    EmittedFaces(fs);
    NormalsOfZip(FaceNormals(fs), Corners(fs));
  }

  /**
   * The sorted emission of a chunk is again a run of faces, and each of its
   * quads is a quad of the emission.
   */
  lemma SortedEmission(c: Chunk, nb: map<Side, Chunk>, w: int, h: int)
    requires ValidDims(w, h) && WellFormed(c, w, h) && NeighborsFit(nb, w, h)
    ensures var r := SortByNormal(Emitted(c, nb, w, h));
      && Faces(r)
      && forall m :: 0 <= m && 4 * m + 4 <= |r| ==> FaceOf(Quad(r, m), Emitted(c, nb, w, h))
  {
    EmittedPairs(c, nb, w, h);
    SortKeepsFaces(Emitted(c, nb, w, h));
  }

  /**
   * v, n come from v0, n0 by the merges of the first pass followed by the
   * merges of the second, each of which passed its pass's test.
   */
  ghost predicate BothPasses(v0: seq<V3>, n0: seq<V3>, v: seq<V3>, n: seq<V3>) {
    exists v1, n1 :: Reaches(FirstPass, v0, n0, v1, n1) && Reaches(SecondPass, v1, n1, v, n)
  }

  /**
   * The passes stop at a read past the end of the normals: either the first
   * pass does, or it finishes with nothing left to merge and the second
   * pass does, in both cases after merges each of which passed the test.
   */
  ghost predicate PanicInPasses(v0: seq<V3>, n0: seq<V3>, v: seq<V3>, n: seq<V3>) {
    || ReachesPanic(FirstPass, v0, n0, v, n)
    || exists v1, n1 ::
        && |v1| == |n1|
        && Reaches(FirstPass, v0, n0, v1, n1)
        && NoMerge(FirstPass, v1, n1)
        && ReachesPanic(SecondPass, v1, n1, v, n)
  }

  /**
   * The two greedy passes (lines 313-442): the first pass, then, unless it
   * panicked, the second.  The result is reached from the input through
   * both passes' merges, has nothing left for the second pass to merge when
   * nothing panicked, and is the input itself when neither pass can merge.
   * ok is false only where one of the passes reads past the end.
   */
  method MergeBothPasses(v0: seq<V3>, n0: seq<V3>) returns (v: seq<V3>, n: seq<V3>, ok: bool)
    requires |v0| == |n0| && |v0| % 4 == 0
    ensures |v| == |n| && |v| % 4 == 0 && |v| <= |v0|
    ensures ok ==> NoMerge(SecondPass, v, n)
    ensures NoMerge(FirstPass, v0, n0) && NoMerge(SecondPass, v0, n0) ==> ok && v == v0 && n == n0
    ensures BothPasses(v0, n0, v, n)
    ensures !ok ==> PanicInPasses(v0, n0, v, n)
    ensures UniformQuads(n0) ==> UniformQuads(n)
  {
    v, n, ok := MergePass(FirstPass, v0, n0);
    ghost var v1, n1 := v, n;
    ReachesItself(SecondPass, v1, n1);
    if ok {
      v, n, ok := MergePass(SecondPass, v, n);
      if !ok {
        assert Reaches(FirstPass, v0, n0, v1, n1) && NoMerge(FirstPass, v1, n1);
      }
    }
  }

  /**
   * `create_cube_mesh` without the Bevy asset plumbing: the four buffers of
   * the mesh.  ok is false when a merge pass would panic on an index past
   * the end of the normals.  Every quad keeps one normal and one colour,
   * the index buffer draws each quad as two triangles of its own corners,
   * merging only removes quads, and when neither pass finds a pair to merge
   * the mesh is exactly the sorted emission.
   */
  method CreateCubeMesh(c: Chunk, nb: map<Side, Chunk>, w: int, h: int, hue: int -> real)
    returns (positions: seq<V3>, normals: seq<V3>, colors: seq<Color>, indices: seq<int>, ok: bool)
    requires ValidDims(w, h) && WellFormed(c, w, h) && NeighborsFit(nb, w, h)
    ensures |positions| == |normals| == |colors| && |positions| % 4 == 0
    ensures |positions| <= 4 * |FaceList(c, nb, w, h, w * w * h)|
    ensures UniformQuads(normals)
    ensures forall k :: 0 <= k < |positions| / 4 ==> Uniform4(Quad(colors, k)) && colors[4 * k] == QuadColor(hue(k))
    ensures |indices| == 6 * (|positions| / 4)
    ensures forall t :: 0 <= t < |indices| ==> 0 <= indices[t] < |positions|
    ensures forall k :: 0 <= k < |positions| / 4 ==> indices[6 * k..6 * k + 6] == QuadTriangles(k)
    ensures forall k :: 0 <= k < |positions| / 4 ==> QuadIndices(indices, k)
    ensures ok ==> NoMerge(SecondPass, positions, normals)
    ensures var s := SortByNormal(Emitted(c, nb, w, h));
      BothPasses(Positions(s), Normals(s), positions, normals)
    ensures var s := SortByNormal(Emitted(c, nb, w, h));
      !ok ==> PanicInPasses(Positions(s), Normals(s), positions, normals)
    ensures var s := SortByNormal(Emitted(c, nb, w, h));
      NoMerge(FirstPass, Positions(s), Normals(s)) && NoMerge(SecondPass, Positions(s), Normals(s)) ==>
        ok && Zip(normals, positions) == s
  {
    var vertices, emitted := EmitChunk(c, nb, w, h);
    ghost var fs := FaceList(c, nb, w, h, w * w * h);
    EmittedFaces(fs);
    var sortedNormals, sortedVertices := SortFaces(emitted, vertices);
    ghost var s := SortByNormal(Emitted(c, nb, w, h));
    SortedEmission(c, nb, w, h);
    Unzip(sortedNormals, sortedVertices, s);
    sortedVertices, sortedNormals, ok := MergeBothPasses(sortedVertices, sortedNormals);
    positions, normals := sortedVertices, sortedNormals;
    indices, colors := Assemble(|positions|, hue);
  }
}
