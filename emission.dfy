/**
 * Geometry emission of `create_cube_mesh`: for every solid cell, in flat
 * index order, the culled direction tags are handed to `generate_cube`,
 * which appends four corners and four normals per tag (lines 179-268 and
 * 472-575).
 *
 * The emitted buffers are specified as the corners and normals of a list of
 * faces, `FaceList`, and that list is characterised by the culling rule:
 * a face is listed exactly when its cell is solid and the face is visible.
 */
module Emission {
  import opened Lattice
  import opened FaceTables
  import opened GridIndex
  import opened Terrain
  import opened Registry
  import opened Culling
  import opened Quads

  /** One face the mesher draws: direction dir of cell (x, y, z). */
  datatype Face = Face(x: int, y: int, z: int, dir: Tag)

  /** The positions `generate_cube` appends for a run of faces, four per face. */
  function Corners(fs: seq<Face>): (r: seq<V3>)
    ensures |r| == 4 * |fs|
  {
    if |fs| == 0 then []
    else
      var f := fs[|fs| - 1];
      Corners(fs[..|fs| - 1]) + FaceCorners(f.dir, f.x, f.y, f.z)
  }

  /** The normals `generate_cube` appends for a run of faces, four per face. */
  function FaceNormals(fs: seq<Face>): (r: seq<V3>)
    ensures |r| == 4 * |fs|
  {
    if |fs| == 0 then []
    else FaceNormals(fs[..|fs| - 1]) + NormalTable(fs[|fs| - 1].dir)
  }

  /** The faces of cell (x, y, z) named by a list of direction tags. */
  function CubeFaces(tags: seq<Tag>, x: int, y: int, z: int): (r: seq<Face>)
    ensures |r| == |tags| && forall k :: 0 <= k < |r| ==> r[k] == Face(x, y, z, tags[k])
  {
    seq(|tags|, k requires 0 <= k < |tags| => Face(x, y, z, tags[k]))
  }

  /** Emitting two runs of faces one after the other. */
  lemma {:induction false} EmitAppend(a: seq<Face>, b: seq<Face>)
    ensures Corners(a + b) == Corners(a) + Corners(b)
    ensures FaceNormals(a + b) == FaceNormals(a) + FaceNormals(b)
  {
    CornersAppend(a, b);
    NormalsAppend(a, b);
  }

  lemma {:induction false} CornersAppend(a: seq<Face>, b: seq<Face>)
    ensures Corners(a + b) == Corners(a) + Corners(b)
  {
    if |b| > 0 {
      var b' := b[..|b| - 1];
      var f := b[|b| - 1];
      assert (a + b)[..|a + b| - 1] == a + b';
      CornersAppend(a, b');
      assert Corners(a + b) == Corners(a + b') + FaceCorners(f.dir, f.x, f.y, f.z);
    } else {
      assert a + b == a;
    }
  }

  lemma {:induction false} NormalsAppend(a: seq<Face>, b: seq<Face>)
    ensures FaceNormals(a + b) == FaceNormals(a) + FaceNormals(b)
  {
    if |b| > 0 {
      var b' := b[..|b| - 1];
      assert (a + b)[..|a + b| - 1] == a + b';
      NormalsAppend(a, b');
      assert FaceNormals(a + b) == FaceNormals(a + b') + NormalTable(b[|b| - 1].dir);
    } else {
      assert a + b == a;
    }
  }

  /**
   * Quad k of the emitted buffers is face k of the list: its four corners in
   * table order around the cell centre, and four copies of its normal.
   */
  lemma {:induction false} EmittedQuad(fs: seq<Face>, k: int)
    requires 0 <= k < |fs|
    ensures Quad(Corners(fs), k) == FaceCorners(fs[k].dir, fs[k].x, fs[k].y, fs[k].z)
    ensures Quad(FaceNormals(fs), k) == NormalTable(fs[k].dir)
  {
    CornersQuad(fs, k);
    NormalsQuad(fs, k);
  }

  lemma {:induction false} CornersQuad(fs: seq<Face>, k: int)
    requires 0 <= k < |fs|
    ensures Quad(Corners(fs), k) == FaceCorners(fs[k].dir, fs[k].x, fs[k].y, fs[k].z)
  {
    var init, f := fs[..|fs| - 1], fs[|fs| - 1];
    var last := FaceCorners(f.dir, f.x, f.y, f.z);
    assert Corners(fs) == Corners(init) + last;
    if k < |fs| - 1 {
      CornersQuad(init, k);
      assert init[k] == fs[k];
      QuadPrefix(Corners(init), last, k);
    } else {
      QuadLast(Corners(init), last, k);
    }
  }

  lemma {:induction false} NormalsQuad(fs: seq<Face>, k: int)
    requires 0 <= k < |fs|
    ensures Quad(FaceNormals(fs), k) == NormalTable(fs[k].dir)
  {
    var init := fs[..|fs| - 1];
    var last := NormalTable(fs[|fs| - 1].dir);
    assert FaceNormals(fs) == FaceNormals(init) + last;
    if k < |fs| - 1 {
      NormalsQuad(init, k);
      assert init[k] == fs[k];
      QuadPrefix(FaceNormals(init), last, k);
    } else {
      QuadLast(FaceNormals(init), last, k);
    }
  }

  /**
   * The emitted buffers are a run of faces: every quad of normals holds four
   * copies of one axis normal.
   */
  lemma EmittedFaces(fs: seq<Face>)
    ensures |Corners(fs)| == |FaceNormals(fs)| && |FaceNormals(fs)| % 4 == 0
    ensures UniformQuads(FaceNormals(fs))
    ensures forall k :: 0 <= k < |FaceNormals(fs)| ==> IsAxisNormal(FaceNormals(fs)[k])
  {
    var n := FaceNormals(fs);
    forall m | 0 <= m < |n| / 4
      ensures Uniform4(Quad(n, m))
    {
      EmittedQuad(fs, m);
      NormalTableRows(fs[m].dir);
    }
    forall k | 0 <= k < |n|
      ensures IsAxisNormal(n[k])
    {
      var m := k / 4;
      EmittedQuad(fs, m);
      NormalTableRows(fs[m].dir);
      assert n[k] == Quad(n, m)[k - 4 * m];
    }
  }

  /**
   * `generate_cube` for cell (x, y, z): for each tag in `vfaces`, append the
   * tag's table corners shifted by the cell, then the tag's table normals.
   */
  method GenerateCube(vertices: seq<V3>, vfaces: seq<Tag>, normals: seq<V3>, x: int, y: int, z: int)
    returns (vs: seq<V3>, ns: seq<V3>)
    ensures vs == vertices + Corners(CubeFaces(vfaces, x, y, z))
    ensures ns == normals + FaceNormals(CubeFaces(vfaces, x, y, z))
  {
    vs, ns := vertices, normals;
    for k := 0 to |vfaces|
      invariant vs == vertices + Corners(CubeFaces(vfaces[..k], x, y, z))
      invariant ns == normals + FaceNormals(CubeFaces(vfaces[..k], x, y, z))
    {
      var d := vfaces[k];
      var moved := Shifted(CornerTable(d), CellCentre(x, y, z));
      ShiftedTable(d, x, y, z);
      CubeStep(vfaces, k, x, y, z);
      AppendAssoc(vertices, Corners(CubeFaces(vfaces[..k], x, y, z)), moved);
      AppendAssoc(normals, FaceNormals(CubeFaces(vfaces[..k], x, y, z)), NormalTable(d));
      vs := vs + moved;
      ns := ns + NormalTable(d);
    }
    assert vfaces[..|vfaces|] == vfaces;
  }

  /** Every point of cs moved by c, in order. */
  function Shifted(cs: seq<V3>, c: V3): (r: seq<V3>)
    ensures |r| == |cs| && forall t :: 0 <= t < |cs| ==> r[t] == Add(cs[t], c)
  {
    seq(|cs|, t requires 0 <= t < |cs| => Add(cs[t], c))
  }

  /** The table corners of a tag moved to a cell are that cell's face corners. */
  lemma ShiftedTable(d: Tag, x: int, y: int, z: int)
    ensures Shifted(CornerTable(d), CellCentre(x, y, z)) == FaceCorners(d, x, y, z)
  {
    var r := Shifted(CornerTable(d), CellCentre(x, y, z));
    assert |CornerTable(d)| == 4;
    assert r == [r[0], r[1], r[2], r[3]];
  }

  /** One more tag of `generate_cube` appends that tag's face to both buffers. */
  lemma CubeStep(tags: seq<Tag>, k: int, x: int, y: int, z: int)
    requires 0 <= k < |tags|
    ensures Corners(CubeFaces(tags[..k + 1], x, y, z))
      == Corners(CubeFaces(tags[..k], x, y, z)) + FaceCorners(tags[k], x, y, z)
    ensures FaceNormals(CubeFaces(tags[..k + 1], x, y, z))
      == FaceNormals(CubeFaces(tags[..k], x, y, z)) + NormalTable(tags[k])
  {
    var before, after := CubeFaces(tags[..k], x, y, z), CubeFaces(tags[..k + 1], x, y, z);
    assert after[..|after| - 1] == before;
    assert after[|after| - 1] == Face(x, y, z, tags[k]);
  }

  /** The faces the culler and `generate_cube` produce for flat cell i. */
  function CellFaces(c: Chunk, nb: map<Side, Chunk>, w: int, h: int, i: int): seq<Face>
    requires ValidDims(w, h) && WellFormed(c, w, h) && NeighborsFit(nb, w, h) && 0 <= i < w * w * h
  {
    CellFacts(c, nb, w, h, i);
    if c.blocks[i].blockType == Air then []
    else
      var x, y, z := CellX(w, i), CellY(w, i), CellZ(w, i);
      CubeFaces(VisibleFaces(c, nb, w, h, x, y, z), x, y, z)
  }

  /** The faces emitted for flat cells 0 .. n - 1, in cell order and, per cell, in tag order. */
  function FaceList(c: Chunk, nb: map<Side, Chunk>, w: int, h: int, n: int): seq<Face>
    requires ValidDims(w, h) && WellFormed(c, w, h) && NeighborsFit(nb, w, h) && 0 <= n <= w * w * h
  {
    if n == 0 then [] else FaceList(c, nb, w, h, n - 1) + CellFaces(c, nb, w, h, n - 1)
  }

  /** f is a face of a solid cell with flat index below n, and the culler shows it. */
  predicate Drawn(c: Chunk, nb: map<Side, Chunk>, w: int, h: int, n: int, f: Face)
    requires ValidDims(w, h) && WellFormed(c, w, h) && NeighborsFit(nb, w, h)
  {
    && InChunk(w, h, f.x, f.y, f.z)
    && Index(w, f.x, f.y, f.z) < n
    && BlockAt(c, w, h, f.x, f.y, f.z) == Solid
    && Visible(c, nb, w, h, f.x, f.y, f.z, f.dir)
  }

  /** A face belongs to cell i's faces exactly when it is a drawn face of that cell. */
  lemma CellFacesSpec(c: Chunk, nb: map<Side, Chunk>, w: int, h: int, i: int, f: Face)
    requires ValidDims(w, h) && WellFormed(c, w, h) && NeighborsFit(nb, w, h) && 0 <= i < w * w * h
    ensures f in CellFaces(c, nb, w, h, i) <==>
      Drawn(c, nb, w, h, i + 1, f) && Index(w, f.x, f.y, f.z) == i
  {
    CellFacts(c, nb, w, h, i);
    var x, y, z := CellX(w, i), CellY(w, i), CellZ(w, i);
    if InChunk(w, h, f.x, f.y, f.z) {
      IndexBounds(w, h, f.x, f.y, f.z);
      if Index(w, f.x, f.y, f.z) == i {
        DecodeIndex(w, h, f.x, f.y, f.z);
        assert (f.x, f.y, f.z) == (x, y, z);
      }
    }
    VisibleFacesSpec(c, nb, w, h, x, y, z);
    if f in CellFaces(c, nb, w, h, i) {
      var k :| 0 <= k < |CellFaces(c, nb, w, h, i)| && CellFaces(c, nb, w, h, i)[k] == f;
      assert VisibleFaces(c, nb, w, h, x, y, z)[k] in VisibleFaces(c, nb, w, h, x, y, z);
    }
    if Drawn(c, nb, w, h, i + 1, f) && Index(w, f.x, f.y, f.z) == i {
      DecodeIndex(w, h, f.x, f.y, f.z);
      var vf := VisibleFaces(c, nb, w, h, x, y, z);
      assert f.dir in vf;
      var k :| 0 <= k < |vf| && vf[k] == f.dir;
      assert CellFaces(c, nb, w, h, i)[k] == f;
    }
  }

  /**
   * The culling rule for the whole chunk: a face is in the emitted list for
   * cells below n exactly when its cell lies below n, is solid, and the
   * face is visible.
   */
  lemma {:induction false} FaceListSpec(c: Chunk, nb: map<Side, Chunk>, w: int, h: int, n: int, f: Face)
    requires ValidDims(w, h) && WellFormed(c, w, h) && NeighborsFit(nb, w, h) && 0 <= n <= w * w * h
    ensures f in FaceList(c, nb, w, h, n) <==> Drawn(c, nb, w, h, n, f)
  {
    if n > 0 {
      FaceListSpec(c, nb, w, h, n - 1, f);
      CellFacesSpec(c, nb, w, h, n - 1, f);
      DrawnStep(c, nb, w, h, n, f);
      assert f in FaceList(c, nb, w, h, n) <==>
        f in FaceList(c, nb, w, h, n - 1) || f in CellFaces(c, nb, w, h, n - 1);
    } else if InChunk(w, h, f.x, f.y, f.z) {
      IndexBounds(w, h, f.x, f.y, f.z);
    }
  }

  /** The drawn faces of cells below n are those below n - 1 and those of cell n - 1. */
  lemma DrawnStep(c: Chunk, nb: map<Side, Chunk>, w: int, h: int, n: int, f: Face)
    requires ValidDims(w, h) && WellFormed(c, w, h) && NeighborsFit(nb, w, h) && 0 < n
    ensures Drawn(c, nb, w, h, n, f) <==>
      Drawn(c, nb, w, h, n - 1, f) || (Drawn(c, nb, w, h, n, f) && Index(w, f.x, f.y, f.z) == n - 1)
  {
  }

  /** A chunk made only of air emits no face at all. */
  lemma {:induction false} AirChunkEmpty(c: Chunk, nb: map<Side, Chunk>, w: int, h: int, n: int)
    requires ValidDims(w, h) && WellFormed(c, w, h) && NeighborsFit(nb, w, h) && 0 <= n <= w * w * h
    requires forall i :: 0 <= i < |c.blocks| ==> c.blocks[i].blockType == Air
    ensures FaceList(c, nb, w, h, n) == []
  {
    if n > 0 {
      AirChunkEmpty(c, nb, w, h, n - 1);
      CellFacts(c, nb, w, h, n - 1);
      assert c.blocks[n - 1].blockType == Air;
      assert CellFaces(c, nb, w, h, n - 1) == [];
    }
  }

  /**
   * One round of the per-voxel loop of `create_cube_mesh` (lines 179-268):
   * an air cell is skipped; for a solid cell the culler fills a fresh
   * `vfaces` and `generate_cube` appends the cell's faces.
   */
  method EmitCell(c: Chunk, nb: map<Side, Chunk>, w: int, h: int, i: int, vertices: seq<V3>, normals: seq<V3>)
    returns (vs: seq<V3>, ns: seq<V3>)
    requires ValidDims(w, h) && WellFormed(c, w, h) && NeighborsFit(nb, w, h) && 0 <= i < w * w * h
    ensures vs == vertices + Corners(CellFaces(c, nb, w, h, i))
    ensures ns == normals + FaceNormals(CellFaces(c, nb, w, h, i))
  {
    CellFacts(c, nb, w, h, i);
    if c.blocks[i].blockType == Air {
      assert vertices + [] == vertices && normals + [] == normals;
      return vertices, normals;
    }
    var x, z, y := i % w, (i % (w * w)) / w, i / (w * w);
    var vfaces := CullCell(c, nb, w, h, i);
    vs, ns := GenerateCube(vertices, vfaces, normals, x, y, z);
  }

  /** The per-voxel loop of `create_cube_mesh` (lines 179-268) over all W·W·H cells. */
  method EmitChunk(c: Chunk, nb: map<Side, Chunk>, w: int, h: int) returns (vertices: seq<V3>, normals: seq<V3>)
    requires ValidDims(w, h) && WellFormed(c, w, h) && NeighborsFit(nb, w, h)
    ensures vertices == Corners(FaceList(c, nb, w, h, w * w * h))
    ensures normals == FaceNormals(FaceList(c, nb, w, h, w * w * h))
  {
    vertices, normals := [], [];
    var numVoxels := w * w * h;
    for i := 0 to numVoxels
      invariant vertices == Corners(FaceList(c, nb, w, h, i))
      invariant normals == FaceNormals(FaceList(c, nb, w, h, i))
    {
      EmitAppend(FaceList(c, nb, w, h, i), CellFaces(c, nb, w, h, i));
      vertices, normals := EmitCell(c, nb, w, h, i, vertices, normals);
    }
  }
}
