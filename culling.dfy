/**
 * Face culling of `create_cube_mesh` (lines 179-268): for every solid cell,
 * the direction tags of the faces to draw.
 *
 * The source decides each face by arithmetic on the flat index i.  The
 * specification below, `Visible`, states the same decision on the cell's
 * coordinates (x, y, z); `CullCell` performs the index arithmetic of the
 * source, including Rust's truncating division, and is proved to agree
 * with it.
 */
module Culling {
  import opened GridIndex
  import opened Terrain
  import opened Registry
  import opened FaceTables

  /** Every chunk in the neighbour map has the size of the chunk being meshed. */
  predicate NeighborsFit(nb: map<Side, Chunk>, w: int, h: int) {
    forall s :: s in nb ==> WellFormed(nb[s], w, h)
  }

  /** The chunk dimensions the culler works with: W ≥ 2, H ≥ 1. */
  predicate ValidDims(w: int, h: int) { w >= 2 && h >= 1 }

  predicate InChunk(w: int, h: int, x: int, y: int, z: int) {
    0 <= x < w && 0 <= y < h && 0 <= z < w
  }

  predicate IsAir(c: Chunk, w: int, h: int, x: int, y: int, z: int)
    requires ValidDims(w, h) && WellFormed(c, w, h) && InChunk(w, h, x, y, z)
  {
    BlockAt(c, w, h, x, y, z) == Air
  }

  /**
   * Whether the source draws face d of the solid cell (x, y, z):
   * - inside the chunk, exactly when the adjacent cell is air;
   * - +X / -X / +Z at the chunk's last / first / last column, exactly when
   *   the "right" / "left" / "down" neighbour exists and its mirrored cell
   *   (x = 0 / x = W-1 / z = 0, same other coordinates) is air;
   * - -Z at z = 0 likewise through "top" (mirrored cell z = W-1), but only
   *   for y > 0: for y = 0 the source's row test compares i / W² with
   *   (i - W) / W², both 0 under truncating division, and falls through;
   * - +Y always on the top layer; -Y never on the bottom layer.
   */
  predicate Visible(c: Chunk, nb: map<Side, Chunk>, w: int, h: int, x: int, y: int, z: int, d: Tag)
    requires ValidDims(w, h) && WellFormed(c, w, h) && NeighborsFit(nb, w, h) && InChunk(w, h, x, y, z)
  {
    match d
    case 0 => if x < w - 1 then IsAir(c, w, h, x + 1, y, z) else Right in nb && IsAir(nb[Right], w, h, 0, y, z)
    case 1 => if x > 0 then IsAir(c, w, h, x - 1, y, z) else Left in nb && IsAir(nb[Left], w, h, w - 1, y, z)
    case 2 => y == h - 1 || IsAir(c, w, h, x, y + 1, z)
    case 3 => y > 0 && IsAir(c, w, h, x, y - 1, z)
    case 4 => if z < w - 1 then IsAir(c, w, h, x, y, z + 1) else Down in nb && IsAir(nb[Down], w, h, x, y, 0)
    case 5 =>
      if z > 0 then IsAir(c, w, h, x, y, z - 1)
      else y > 0 && Top in nb && IsAir(nb[Top], w, h, x, y, w - 1)
  }

  /** The visible directions among 0, 1, ..., d - 1, in increasing order. */
  function VisibleBelow(c: Chunk, nb: map<Side, Chunk>, w: int, h: int, x: int, y: int, z: int, d: nat): seq<Tag>
    requires ValidDims(w, h) && WellFormed(c, w, h) && NeighborsFit(nb, w, h) && InChunk(w, h, x, y, z)
    requires d <= 6
  {
    if d == 0 then []
    else VisibleBelow(c, nb, w, h, x, y, z, d - 1) + (if Visible(c, nb, w, h, x, y, z, d - 1) then [d - 1] else [])
  }

  /** The tags the culler pushes into `vfaces` for the solid cell (x, y, z). */
  function VisibleFaces(c: Chunk, nb: map<Side, Chunk>, w: int, h: int, x: int, y: int, z: int): seq<Tag>
    requires ValidDims(w, h) && WellFormed(c, w, h) && NeighborsFit(nb, w, h) && InChunk(w, h, x, y, z)
  {
    VisibleBelow(c, nb, w, h, x, y, z, 6)
  }

  /** The tags strictly increase (so there are no duplicates). */
  predicate StrictlyIncreasing(s: seq<Tag>) {
    forall a, b :: 0 <= a < b < |s| ==> s[a] < s[b]
  }

  lemma {:induction false} VisibleBelowSpec(c: Chunk, nb: map<Side, Chunk>, w: int, h: int, x: int, y: int, z: int, d: nat)
    requires ValidDims(w, h) && WellFormed(c, w, h) && NeighborsFit(nb, w, h) && InChunk(w, h, x, y, z)
    requires d <= 6
    ensures var s := VisibleBelow(c, nb, w, h, x, y, z, d);
      && StrictlyIncreasing(s) && |s| <= d
      && (forall e: Tag :: e in s <==> e < d && Visible(c, nb, w, h, x, y, z, e))
  {
    if d > 0 {
      var init := VisibleBelow(c, nb, w, h, x, y, z, d - 1);
      VisibleBelowSpec(c, nb, w, h, x, y, z, d - 1);
      if Visible(c, nb, w, h, x, y, z, d - 1) {
        assert VisibleBelow(c, nb, w, h, x, y, z, d) == init + [(d - 1) as Tag];
        AppendIncreasing(init, d - 1);
      } else {
        assert VisibleBelow(c, nb, w, h, x, y, z, d) == init;
      }
    }
  }

  /**
   * The culling result for one cell: a direction is listed exactly when
   * that face is visible, the list is in increasing tag order without
   * duplicates, and so it holds at most six tags.
   */
  lemma VisibleFacesSpec(c: Chunk, nb: map<Side, Chunk>, w: int, h: int, x: int, y: int, z: int)
    requires ValidDims(w, h) && WellFormed(c, w, h) && NeighborsFit(nb, w, h) && InChunk(w, h, x, y, z)
    ensures var s := VisibleFaces(c, nb, w, h, x, y, z);
      && StrictlyIncreasing(s) && |s| <= 6
      && (forall e: Tag :: e in s <==> Visible(c, nb, w, h, x, y, z, e))
  {
    VisibleBelowSpec(c, nb, w, h, x, y, z, 6);
  }

  /** One more test of the culler: the face is pushed exactly when it is visible. */
  lemma BelowStep(c: Chunk, nb: map<Side, Chunk>, w: int, h: int, x: int, y: int, z: int, d: nat,
                  prev: seq<Tag>, push: bool)
    requires ValidDims(w, h) && WellFormed(c, w, h) && NeighborsFit(nb, w, h) && InChunk(w, h, x, y, z)
    requires d < 6 && prev == VisibleBelow(c, nb, w, h, x, y, z, d)
    requires push == Visible(c, nb, w, h, x, y, z, d)
    ensures (if push then prev + [d as Tag] else prev) == VisibleBelow(c, nb, w, h, x, y, z, d + 1)
  {
  }

  lemma AppendIncreasing(init: seq<Tag>, t: Tag)
    requires StrictlyIncreasing(init) && forall e :: e in init ==> e < t
    ensures StrictlyIncreasing(init + [t])
  {
    var s := init + [t];
    forall a, b | 0 <= a < b < |s|
      ensures s[a] < s[b]
    {
      assert s[a] == init[a] && init[a] in init;
      if b < |init| {
        assert s[b] == init[b];
      }
    }
  }

  // ---------------------------------------------------------------------
  // The culler's index tests, restated on coordinates.  In each lemma i is
  // the flat index of (x, y, z), n the number of cells and pr = W² the
  // number of cells per layer.

  lemma VolumeOrder(w: int, h: int)
    ensures w * h * w == w * w * h
  {
  }

  lemma RowForm(w: int, x: int, y: int, z: int)
    ensures Index(w, x, y, z) == (z + y * w) * w + x
  {
    assert y * (w * w) == (y * w) * w;
    assert (z + y * w) * w == z * w + (y * w) * w;
  }

  /** The +X test: i + 1 stays in the row exactly when x < W - 1; otherwise the mirrored cell is x = 0. */
  lemma PlusXTest(w: int, h: int, i: int, x: int, y: int, z: int)
    requires ValidDims(w, h) && InChunk(w, h, x, y, z) && i == Index(w, x, y, z)
    ensures var n := w * w * h;
      && ((i + 1 < n && (i + 1) % w != 0) <==> x < w - 1)
      && ((i + 1) % w == 0 <==> x == w - 1)
      && (x < w - 1 ==> i + 1 == Index(w, x + 1, y, z))
      && (x == w - 1 ==> i - w + 1 == Index(w, 0, y, z) && 0 <= i - w + 1 < n)
  {
    RowForm(w, x, y, z);
    if x < w - 1 {
      DivModUnique(i + 1, w, z + y * w, x + 1);
      IndexBounds(w, h, x + 1, y, z);
    } else {
      DivModUnique(i + 1, w, z + y * w + 1, 0);
      IndexBounds(w, h, 0, y, z);
    }
  }

  /** The -X test: i - 1 stays in the row exactly when x > 0; otherwise the mirrored cell is x = W - 1. */
  lemma MinusXTest(w: int, h: int, i: int, x: int, y: int, z: int)
    requires ValidDims(w, h) && InChunk(w, h, x, y, z) && i == Index(w, x, y, z)
    ensures var n := w * w * h;
      && ((i > 0 && i % w != 0) <==> x > 0)
      && (i % w == 0 <==> x == 0)
      && (x > 0 ==> i - 1 == Index(w, x - 1, y, z))
      && (x == 0 ==> i + w - 1 == Index(w, w - 1, y, z) && 0 <= i + w - 1 < n)
  {
    RowForm(w, x, y, z);
    DivModUnique(i, w, z + y * w, x);
    MulNonneg(z, w);
    MulNonneg(w, w);
    MulNonneg(y, w * w);
    IndexBounds(w, h, w - 1, y, z);
  }

  /** The +Y test: i + W² is a cell of the chunk exactly below the top layer. */
  lemma PlusYTest(w: int, h: int, i: int, x: int, y: int, z: int)
    requires ValidDims(w, h) && InChunk(w, h, x, y, z) && i == Index(w, x, y, z)
    ensures var pr, n := w * w, w * w * h;
      && (i + pr < n <==> y < h - 1)
      && (y < h - 1 ==> i + pr == Index(w, x, y + 1, z))
  {
    var pr, off := w * w, x + z * w;
    IndexBounds(w, h, x, y, z);
    assert (y + 1) * pr == y * pr + pr;
    assert w * w * h == h * pr;
    if y < h - 1 {
      MulMono(y + 2, h, pr);
    } else {
      MulMono(h, y + 1, pr);
    }
  }

  /** The -Y test: i - W² is a cell of the chunk exactly above the bottom layer. */
  lemma MinusYTest(w: int, h: int, i: int, x: int, y: int, z: int)
    requires ValidDims(w, h) && InChunk(w, h, x, y, z) && i == Index(w, x, y, z)
    ensures var pr := w * w;
      && (i - pr >= 0 <==> y > 0)
      && (y > 0 ==> i - pr == Index(w, x, y - 1, z))
  {
    var pr := w * w;
    IndexBounds(w, h, x, y, z);
    assert (y - 1) * pr == y * pr - pr;
    if y > 0 {
      MulNonneg(y - 1, pr);
    }
  }

  /** The +Z test: i + W stays in the layer exactly when z < W - 1; otherwise the mirrored cell is z = 0. */
  lemma PlusZTest(w: int, h: int, i: int, x: int, y: int, z: int)
    requires ValidDims(w, h) && InChunk(w, h, x, y, z) && i == Index(w, x, y, z)
    ensures var pr, n := w * w, w * w * h;
      && ((i + w < n && i / pr == (i + w) / pr) <==> z < w - 1)
      && (i / pr != (i + w) / pr <==> z == w - 1)
      && (z < w - 1 ==> i + w == Index(w, x, y, z + 1))
      && (z == w - 1 ==> i - w * (w - 1) == Index(w, x, y, 0) && 0 <= i - w * (w - 1) < n)
  {
    var pr := w * w;
    IndexBounds(w, h, x, y, z);
    DivModUnique(i, pr, y, x + z * w);
    MulSucc(z, w);
    if z < w - 1 {
      IndexBounds(w, h, x, y, z + 1);
      DivModUnique(i + w, pr, y, x + (z + 1) * w);
    } else {
      MulSucc(y, pr);
      assert z * w == w * (w - 1) && w * (w - 1) + w == pr;
      assert i + w == (y + 1) * pr + x;
      DivModUnique(i + w, pr, y + 1, x);
      IndexBounds(w, h, x, y, 0);
    }
  }

  /**
   * The -Z test, with Rust's truncating division of i - W: the first branch
   * holds exactly when z > 0, the second exactly when z = 0 and y > 0 (for
   * y = 0 both layers compare equal to 0); the mirrored cell is z = W - 1.
   */
  lemma MinusZTest(w: int, h: int, i: int, x: int, y: int, z: int)
    requires ValidDims(w, h) && InChunk(w, h, x, y, z) && i == Index(w, x, y, z)
    ensures var pr, n := w * w, w * w * h;
      && ((i - w >= 0 && i / pr == TruncDiv(i - w, pr)) <==> z > 0)
      && (i / pr != TruncDiv(i - w, pr) <==> z == 0 && y > 0)
      && (z > 0 ==> i - w == Index(w, x, y, z - 1))
      && (z == 0 ==> i + w * (w - 1) == Index(w, x, y, w - 1) && 0 <= i + w * (w - 1) < n)
  {
    var pr := w * w;
    IndexBounds(w, h, x, y, z);
    IndexBounds(w, h, x, y, w - 1);
    DivModUnique(i, pr, y, x + z * w);
    assert (z - 1) * w == z * w - w;
    assert (w - 1) * w == w * (w - 1) == pr - w;
    if z > 0 {
      IndexBounds(w, h, x, y, z - 1);
      DivModUnique(i - w, pr, y, x + (z - 1) * w);
    } else if y > 0 {
      IndexBounds(w, h, x, y - 1, w - 1);
      assert (y - 1) * pr == y * pr - pr;
      assert i - w == (y - 1) * pr + (x + (w - 1) * w);
      DivModUnique(i - w, pr, y - 1, x + (w - 1) * w);
    } else {
      assert i - w == x - w;
      MulMono(2, w, w);
    }
  }

  /** What every per-face test needs of a cell index: its coordinates and the block counts. */
  lemma CellFacts(c: Chunk, nb: map<Side, Chunk>, w: int, h: int, i: int)
    requires ValidDims(w, h) && WellFormed(c, w, h) && NeighborsFit(nb, w, h)
    requires 0 <= i < w * w * h
    ensures InChunk(w, h, CellX(w, i), CellY(w, i), CellZ(w, i))
    ensures i == Index(w, CellX(w, i), CellY(w, i), CellZ(w, i))
    ensures |c.blocks| == w * w * h
    ensures forall s :: s in nb ==> |nb[s].blocks| == w * w * h
  {
    EncodeCell(w, h, i);
    VolumeOrder(w, h);
  }

  /*
   * The six tests of the culling block (lines 186-258), one method each.
   * Each returns whether the source pushes that face for the solid cell at
   * flat index i.
   */

  /** The +X test (lines 187-198). */
  method TestPlusX(c: Chunk, nb: map<Side, Chunk>, w: int, h: int, i: int) returns (push: bool)
    requires ValidDims(w, h) && WellFormed(c, w, h) && NeighborsFit(nb, w, h)
    requires 0 <= i < w * w * h
    ensures InChunk(w, h, CellX(w, i), CellY(w, i), CellZ(w, i))
    ensures push == Visible(c, nb, w, h, CellX(w, i), CellY(w, i), CellZ(w, i), 0)
  {
    var numVoxels := w * w * h;
    CellFacts(c, nb, w, h, i);
    PlusXTest(w, h, i, CellX(w, i), CellY(w, i), CellZ(w, i));
    push := false;
    if (i + 1 < numVoxels && (i + 1) % w != 0) && c.blocks[i + 1].blockType == Air {
      push := true;
    } else if (i + 1) % w == 0 && Right in nb {
      if nb[Right].blocks[i - w + 1].blockType == Air {
        push := true;
      }
    }
  }

  /** The -X test (lines 201-212). */
  method TestMinusX(c: Chunk, nb: map<Side, Chunk>, w: int, h: int, i: int) returns (push: bool)
    requires ValidDims(w, h) && WellFormed(c, w, h) && NeighborsFit(nb, w, h)
    requires 0 <= i < w * w * h
    ensures InChunk(w, h, CellX(w, i), CellY(w, i), CellZ(w, i))
    ensures push == Visible(c, nb, w, h, CellX(w, i), CellY(w, i), CellZ(w, i), 1)
  {
    CellFacts(c, nb, w, h, i);
    MinusXTest(w, h, i, CellX(w, i), CellY(w, i), CellZ(w, i));
    push := false;
    if (i > 0 && i % w != 0) && c.blocks[i - 1].blockType == Air {
      push := true;
    } else if i % w == 0 && Left in nb {
      if nb[Left].blocks[i + w - 1].blockType == Air {
        push := true;
      }
    }
  }

  /** The +Y test (lines 218-221): no chunk lies above another, so the top layer always shows. */
  method TestPlusY(c: Chunk, nb: map<Side, Chunk>, w: int, h: int, i: int) returns (push: bool)
    requires ValidDims(w, h) && WellFormed(c, w, h) && NeighborsFit(nb, w, h)
    requires 0 <= i < w * w * h
    ensures InChunk(w, h, CellX(w, i), CellY(w, i), CellZ(w, i))
    ensures push == Visible(c, nb, w, h, CellX(w, i), CellY(w, i), CellZ(w, i), 2)
  {
    var numVoxels := w * w * h;
    var numVoxelPerRow := w * w;
    CellFacts(c, nb, w, h, i);
    PlusYTest(w, h, i, CellX(w, i), CellY(w, i), CellZ(w, i));
    push := false;
    if (i + numVoxelPerRow < numVoxels && c.blocks[i + numVoxelPerRow].blockType == Air)
      || i + numVoxelPerRow >= numVoxels
    {
      push := true;
    }
  }

  /** The -Y test (lines 224-226): the bottom layer never shows. */
  method TestMinusY(c: Chunk, nb: map<Side, Chunk>, w: int, h: int, i: int) returns (push: bool)
    requires ValidDims(w, h) && WellFormed(c, w, h) && NeighborsFit(nb, w, h)
    requires 0 <= i < w * w * h
    ensures InChunk(w, h, CellX(w, i), CellY(w, i), CellZ(w, i))
    ensures push == Visible(c, nb, w, h, CellX(w, i), CellY(w, i), CellZ(w, i), 3)
  {
    var numVoxelPerRow := w * w;
    CellFacts(c, nb, w, h, i);
    MinusYTest(w, h, i, CellX(w, i), CellY(w, i), CellZ(w, i));
    push := false;
    if i - numVoxelPerRow >= 0 && c.blocks[i - numVoxelPerRow].blockType == Air {
      push := true;
    }
  }

  /** The +Z test (lines 232-243). */
  method TestPlusZ(c: Chunk, nb: map<Side, Chunk>, w: int, h: int, i: int) returns (push: bool)
    requires ValidDims(w, h) && WellFormed(c, w, h) && NeighborsFit(nb, w, h)
    requires 0 <= i < w * w * h
    ensures InChunk(w, h, CellX(w, i), CellY(w, i), CellZ(w, i))
    ensures push == Visible(c, nb, w, h, CellX(w, i), CellY(w, i), CellZ(w, i), 4)
  {
    var numVoxels := w * w * h;
    var numVoxelPerRow := w * w;
    CellFacts(c, nb, w, h, i);
    PlusZTest(w, h, i, CellX(w, i), CellY(w, i), CellZ(w, i));
    push := false;
    if (i + w < numVoxels && i / numVoxelPerRow == (i + w) / numVoxelPerRow)
      && c.blocks[i + w].blockType == Air
    {
      push := true;
    } else if i / numVoxelPerRow != (i + w) / numVoxelPerRow && Down in nb {
      if nb[Down].blocks[i - w * (w - 1)].blockType == Air {
        push := true;
      }
    }
  }

  /** The -Z test (lines 247-258); i - W may be negative, and Rust's `/` truncates. */
  method TestMinusZ(c: Chunk, nb: map<Side, Chunk>, w: int, h: int, i: int) returns (push: bool)
    requires ValidDims(w, h) && WellFormed(c, w, h) && NeighborsFit(nb, w, h)
    requires 0 <= i < w * w * h
    ensures InChunk(w, h, CellX(w, i), CellY(w, i), CellZ(w, i))
    ensures push == Visible(c, nb, w, h, CellX(w, i), CellY(w, i), CellZ(w, i), 5)
  {
    var numVoxelPerRow := w * w;
    CellFacts(c, nb, w, h, i);
    MinusZTest(w, h, i, CellX(w, i), CellY(w, i), CellZ(w, i));
    push := false;
    if (i - w >= 0 && i / numVoxelPerRow == TruncDiv(i - w, numVoxelPerRow))
      && c.blocks[i - w].blockType == Air
    {
      push := true;
    } else if i / numVoxelPerRow != TruncDiv(i - w, numVoxelPerRow) && Top in nb {
      if nb[Top].blocks[i + w * (w - 1)].blockType == Air {
        push := true;
      }
    }
  }

  /**
   * The culling block of `create_cube_mesh` for the solid cell at flat index
   * i: it pushes exactly the visible faces of the cell's coordinates, in tag
   * order.  In particular -Y is never pushed for y = 0, and -Z never for a
   * cell with y = 0 and z = 0.
   */
  method CullCell(c: Chunk, nb: map<Side, Chunk>, w: int, h: int, i: int) returns (vfaces: seq<Tag>)
    requires ValidDims(w, h) && WellFormed(c, w, h) && NeighborsFit(nb, w, h)
    requires 0 <= i < w * w * h
    ensures InChunk(w, h, CellX(w, i), CellY(w, i), CellZ(w, i))
    ensures vfaces == VisibleFaces(c, nb, w, h, CellX(w, i), CellY(w, i), CellZ(w, i))
    ensures CellY(w, i) == 0 ==> 3 !in vfaces
    ensures CellY(w, i) == 0 && CellZ(w, i) == 0 ==> 5 !in vfaces
  {
    ghost var x, y, z := CellX(w, i), CellY(w, i), CellZ(w, i);
    vfaces := [];
    var push := TestPlusX(c, nb, w, h, i);
    BelowStep(c, nb, w, h, x, y, z, 0, vfaces, push);
    if push { vfaces := vfaces + [0]; }
    push := TestMinusX(c, nb, w, h, i);
    BelowStep(c, nb, w, h, x, y, z, 1, vfaces, push);
    if push { vfaces := vfaces + [1]; }
    push := TestPlusY(c, nb, w, h, i);
    BelowStep(c, nb, w, h, x, y, z, 2, vfaces, push);
    if push { vfaces := vfaces + [2]; }
    push := TestMinusY(c, nb, w, h, i);
    BelowStep(c, nb, w, h, x, y, z, 3, vfaces, push);
    if push { vfaces := vfaces + [3]; }
    push := TestPlusZ(c, nb, w, h, i);
    BelowStep(c, nb, w, h, x, y, z, 4, vfaces, push);
    if push { vfaces := vfaces + [4]; }
    push := TestMinusZ(c, nb, w, h, i);
    BelowStep(c, nb, w, h, x, y, z, 5, vfaces, push);
    if push { vfaces := vfaces + [5]; }
    VisibleFacesSpec(c, nb, w, h, x, y, z);
  }
}
