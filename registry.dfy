/**
 * The chunk list of `spawn_chunks` and its neighbour lookup.
 *
 * `spawn_chunks` generates render_distance × render_distance chunks, x
 * outer and z inner, the chunk at grid (gx, gz) sitting at world position
 * (gx·W, gz·W).  For each chunk it then scans the whole list and files
 * every other chunk whose offset matches one of four patterns under the
 * names "left", "right", "top" and "down"; `entry().or_insert` keeps the
 * first chunk filed under a name.
 */
module Registry {
  import opened Optional
  import opened GridIndex
  import opened Terrain

  /** The four keys of the neighbour map: "left" (-X), "right" (+X), "top" (-Z), "down" (+Z). */
  datatype Side = Left | Right | Top | Down

  /**
   * The key under which the scan files `other` for a chunk at `at`, if any:
   * the if-chain of lines 130-143 on the position difference.
   */
  function Classify(at: ChunkPos, other: ChunkPos, w: int): (r: Option<Side>)
    ensures at == other ==> r == None
  {
    var dx, dz := at.x - other.x, at.z - other.z;
    if dx == 0 && dz == 0 then None
    else if dx == w && dz == 0 then Some(Left)
    else if dx == 0 && dz == w then Some(Top)
    else if dx == -w && dz == 0 then Some(Right)
    else if dx == 0 && dz <= -w then Some(Down)
    else None
  }

  /**
   * nb is the map the scan builds for `chunk` over `chunks`: a side is a key
   * exactly when some chunk is classified under it, and then it maps to the
   * FIRST such chunk in list order.
   */
  ghost predicate IsNeighborMap(chunk: Chunk, chunks: seq<Chunk>, w: int, nb: map<Side, Chunk>) {
    ScannedUpTo(chunk, chunks, w, nb, |chunks|)
  }

  /** nb is what the scan has built after the first n chunks of the list. */
  ghost predicate ScannedUpTo(chunk: Chunk, chunks: seq<Chunk>, w: int, nb: map<Side, Chunk>, n: int)
    requires 0 <= n <= |chunks|
  {
    && (forall s :: s in nb <==>
          exists k :: 0 <= k < n && Classify(chunk.position, chunks[k].position, w) == Some(s))
    && (forall s :: s in nb ==>
          exists k :: 0 <= k < n && nb[s] == chunks[k] && FirstClassified(chunk, chunks, w, s, k))
  }

  /** chunks[k] is the first chunk of the list classified under s. */
  ghost predicate FirstClassified(chunk: Chunk, chunks: seq<Chunk>, w: int, s: Side, k: int)
    requires 0 <= k < |chunks|
  {
    && Classify(chunk.position, chunks[k].position, w) == Some(s)
    && forall k' :: 0 <= k' < k ==> Classify(chunk.position, chunks[k'].position, w) != Some(s)
  }

  /** Filing chunk n under its key unless the key is taken extends the scan by one chunk. */
  lemma ScanStep(chunk: Chunk, chunks: seq<Chunk>, w: int, nb: map<Side, Chunk>, n: int)
    requires 0 <= n < |chunks| && ScannedUpTo(chunk, chunks, w, nb, n)
    ensures var key := Classify(chunk.position, chunks[n].position, w);
      ScannedUpTo(chunk, chunks, w, if key.Some? && key.value !in nb then nb[key.value := chunks[n]] else nb, n + 1)
  {
  }

  /** The neighbour scan of lines 124-145. */
  method FindNeighbors(chunk: Chunk, chunks: seq<Chunk>, w: int) returns (nb: map<Side, Chunk>)
    ensures IsNeighborMap(chunk, chunks, w, nb)
    ensures forall s :: s in nb ==> nb[s] in chunks
  {
    nb := map[];
    for k := 0 to |chunks|
      invariant ScannedUpTo(chunk, chunks, w, nb, k)
    {
      var other := chunks[k];
      var distanceX := chunk.position.x - other.position.x;
      var distanceY := chunk.position.z - other.position.z;
      var key: Option<Side> := None;
      if !(distanceX == 0 && distanceY == 0) {
        if distanceX == w && distanceY == 0 {
          key := Some(Left);
        } else if distanceX == 0 && distanceY == w {
          key := Some(Top);
        } else if distanceX == -1 * w && distanceY == 0 {
          key := Some(Right);
        } else if distanceX == 0 && distanceY <= -1 * w {
          key := Some(Down);
        }
      }
      assert key == Classify(chunk.position, other.position, w);
      ScanStep(chunk, chunks, w, nb, k);
      if key.Some? && key.value !in nb {
        nb := nb[key.value := other];
      }
    }
  }

  /** The world position of the k-th chunk of a render_distance r grid. */
  function GridPos(w: int, r: int, k: int): ChunkPos
    requires r > 0
  {
    ChunkPos((k / r) * w, (k % r) * w)
  }

  /** chunks is the list `spawn_chunks` generates: r·r chunks in x-outer, z-inner order. */
  predicate IsGrid(chunks: seq<Chunk>, w: int, h: int, r: int, surface: (int, int) -> int)
    requires w > 0 && r > 0
  {
    && |chunks| == r * r
    && forall k :: 0 <= k < |chunks| ==>
         && chunks[k].id == k
         && chunks[k].position == GridPos(w, r, k)
         && Generated(chunks[k], w, h, surface)
  }

  /** The chunk generation loops of lines 111-120. */
  method GenerateChunks(w: int, h: int, r: int, surface: (int, int) -> int) returns (chunks: seq<Chunk>)
    requires w > 0 && h > 0 && r > 0
    ensures IsGrid(chunks, w, h, r, surface)
  {
    chunks := [];
    var chunkIds := 0;
    for x := 0 to r
      invariant |chunks| == x * r && chunkIds == |chunks|
      invariant forall k :: 0 <= k < |chunks| ==>
        chunks[k].id == k && chunks[k].position == GridPos(w, r, k) && Generated(chunks[k], w, h, surface)
    {
      for z := 0 to r
        invariant |chunks| == x * r + z && chunkIds == |chunks|
        invariant forall k :: 0 <= k < |chunks| ==>
          chunks[k].id == k && chunks[k].position == GridPos(w, r, k) && Generated(chunks[k], w, h, surface)
      {
        var position := ChunkPos(x * w, z * w);
        DivModUnique(x * r + z, r, x, z);
        var chunk := NewChunk(chunkIds, w, h, position, surface);
        chunkIds := chunkIds + 1;
        chunks := chunks + [chunk];
      }
    }
  }

  /** For a positive w: a·w equals w, 0 or -w, or lies at or below -w, exactly when a does so for 1, 0, -1. */
  lemma ScaledOffsets(a: int, w: int)
    requires w > 0
    ensures a * w == w <==> a == 1
    ensures a * w == 0 <==> a == 0
    ensures a * w == -w <==> a == -1
    ensures a * w <= -w <==> a <= -1
  {
    if a >= 2 { MulMono(2, a, w); }
    if a <= -2 { MulMono(a, -2, w); }
    if a <= -1 { MulMono(a, -1, w); }
    if a >= 0 { MulNonneg(a, w); }
  }

  /**
   * How grid chunk k is classified for the chunk at grid (gx, gz): "left" is
   * the chunk one column lower in x, "right" one higher, "top" one lower in
   * z in the same column, and "down" any chunk further along z in the same
   * column.
   */
  lemma GridClassify(w: int, r: int, gx: int, gz: int, k: int)
    requires w > 0 && r > 0 && 0 <= k
    ensures var c, kx, kz := Classify(ChunkPos(gx * w, gz * w), GridPos(w, r, k), w), k / r, k % r;
      && (c == Some(Left) <==> kx == gx - 1 && kz == gz)
      && (c == Some(Right) <==> kx == gx + 1 && kz == gz)
      && (c == Some(Top) <==> kx == gx && kz == gz - 1)
      && (c == Some(Down) <==> kx == gx && kz >= gz + 1)
  {
    var kx, kz := k / r, k % r;
    assert gx * w - kx * w == (gx - kx) * w;
    assert gz * w - kz * w == (gz - kz) * w;
    ScaledOffsets(gx - kx, w);
    ScaledOffsets(gz - kz, w);
  }

  /** Grid cell (a, b) is list entry a·r + b. */
  lemma GridCell(r: int, a: int, b: int)
    requires 0 <= a < r && 0 <= b < r
    ensures 0 <= a * r + b < r * r && (a * r + b) / r == a && (a * r + b) % r == b
  {
    DivModUnique(a * r + b, r, a, b);
    MulNonneg(a, r);
    MulMono(a, r - 1, r);
  }

  /** The grid cell a side looks at from (gx, gz). */
  function SideCell(s: Side, gx: int, gz: int): (int, int) {
    match s
    case Left => (gx - 1, gz)
    case Right => (gx + 1, gz)
    case Top => (gx, gz - 1)
    case Down => (gx, gz + 1)
  }

  /** Where list entry k lies in the grid when the scan from (gx, gz) files it under s. */
  lemma GridMatch(r: int, w: int, gx: int, gz: int, k: int, s: Side)
    requires w > 0 && r > 0 && 0 <= k < r * r
    requires Classify(ChunkPos(gx * w, gz * w), GridPos(w, r, k), w) == Some(s)
    ensures k == (k / r) * r + k % r && 0 <= k / r < r
    ensures s != Down ==> (k / r, k % r) == SideCell(s, gx, gz)
    ensures s == Down ==> k / r == gx && k % r >= gz + 1
  {
    GridClassify(w, r, gx, gz, k);
    if k / r >= r { MulMono(r, k / r, r); }
  }

  /**
   * The neighbour map of the chunk at grid (gx, gz) of a generated grid, one
   * side at a time: "left", "right" and "top" are the adjacent chunks at
   * x - W, x + W and z - W, and "down" — which the scan accepts for any z
   * offset of at least W — is the chunk at z + W, because the x-outer,
   * z-inner order puts it first.  Each side is present exactly when that
   * grid cell exists, and then maps to that cell's chunk.
   */
  lemma {:induction false} GridSide(chunks: seq<Chunk>, w: int, h: int, r: int,
      surface: (int, int) -> int, gx: int, gz: int, nb: map<Side, Chunk>, s: Side)
    requires w > 0 && r > 0 && IsGrid(chunks, w, h, r, surface)
    requires 0 <= gx < r && 0 <= gz < r
    requires 0 <= gx * r + gz < |chunks| && IsNeighborMap(chunks[gx * r + gz], chunks, w, nb)
    ensures var (a, b) := SideCell(s, gx, gz);
      && (s in nb <==> 0 <= a < r && 0 <= b < r)
      && (s in nb ==> 0 <= a * r + b < |chunks| && nb[s] == chunks[a * r + b])
  {
    assert GridPositions(chunks, w, r);
    var (a, b) := SideCell(s, gx, gz);
    if 0 <= a < r && 0 <= b < r {
      GridSidePresent(chunks, w, r, gx, gz, nb, s);
    } else {
      GridSideAbsent(chunks, w, r, gx, gz, nb, s);
    }
  }

  /** The positions of a generated grid, without the blocks. */
  ghost predicate GridPositions(chunks: seq<Chunk>, w: int, r: int)
    requires r > 0
  {
    && |chunks| == r * r
    && forall k :: 0 <= k < |chunks| ==> chunks[k].position == GridPos(w, r, k)
  }

  /** A side whose grid cell exists maps to that cell's chunk. */
  lemma GridSidePresent(chunks: seq<Chunk>, w: int, r: int, gx: int, gz: int, nb: map<Side, Chunk>, s: Side)
    requires w > 0 && r > 0 && GridPositions(chunks, w, r)
    requires 0 <= gx < r && 0 <= gz < r
    requires 0 <= gx * r + gz < |chunks| && IsNeighborMap(chunks[gx * r + gz], chunks, w, nb)
    requires 0 <= SideCell(s, gx, gz).0 < r && 0 <= SideCell(s, gx, gz).1 < r
    ensures var (a, b) := SideCell(s, gx, gz);
      s in nb && 0 <= a * r + b < |chunks| && nb[s] == chunks[a * r + b]
  {
    var self := gx * r + gz;
    var at := chunks[self].position;
    assert at == ChunkPos(gx * w, gz * w) by {
      GridCell(r, gx, gz);
    }
    var (a, b) := SideCell(s, gx, gz);
    var t := a * r + b;
    GridCell(r, a, b);
    GridClassify(w, r, gx, gz, t);
    assert Classify(at, chunks[t].position, w) == Some(s);
    var j :| 0 <= j < |chunks| && nb[s] == chunks[j] && FirstClassified(chunks[self], chunks, w, s, j);
    GridMatch(r, w, gx, gz, j, s);
    if s == Down {
      assert j >= t;
    }
    assert j == t;
  }

  /** A side whose grid cell lies outside the grid is not a key. */
  lemma GridSideAbsent(chunks: seq<Chunk>, w: int, r: int, gx: int, gz: int, nb: map<Side, Chunk>, s: Side)
    requires w > 0 && r > 0 && GridPositions(chunks, w, r)
    requires 0 <= gx < r && 0 <= gz < r
    requires 0 <= gx * r + gz < |chunks| && IsNeighborMap(chunks[gx * r + gz], chunks, w, nb)
    requires !(0 <= SideCell(s, gx, gz).0 < r && 0 <= SideCell(s, gx, gz).1 < r)
    ensures s !in nb
  {
    var self := gx * r + gz;
    var at := chunks[self].position;
    assert at == ChunkPos(gx * w, gz * w) by {
      GridCell(r, gx, gz);
    }
    if s in nb {
      var j :| 0 <= j < |chunks| && Classify(at, chunks[j].position, w) == Some(s);
      GridMatch(r, w, gx, gz, j, s);
      assert false;
    }
  }
}
