/**
 * Blocks and chunks, and the construction of a chunk's voxel grid
 * (`Chunk::new` and `get_block`).
 *
 * The terrain height is the sum of Perlin octaves scaled and cast to `i32`
 * in the source; here it is the parameter `surface`, any function from world
 * (x, z) to an integer height.  Only the decision `y < surface` is modelled.
 */
module Terrain {
  import opened GridIndex

  /** `BLOCK_AIR` (0) and `BLOCK_SOLID` (1). */
  datatype BlockType = Air | Solid

  datatype Block = Block(id: int, blockType: BlockType)

  /** A chunk's `position: IVec2`, in world units; its second component is the world z. */
  datatype ChunkPos = ChunkPos(x: int, z: int)

  datatype Chunk = Chunk(id: int, blocks: seq<Block>, position: ChunkPos)

  /** The hard-coded 3×3×3 cube of `Chunk::new` (line 68) that is solid in every chunk. */
  predicate InTestCube(x: int, y: int, z: int) {
    1 <= x <= 3 && 110 <= y <= 112 && 1 <= z <= 3
  }

  /** `get_block`'s threshold: solid strictly below the surface height at (x, z). */
  function GetBlock(x: int, y: int, z: int, surface: (int, int) -> int): BlockType {
    if y < surface(x, z) then Solid else Air
  }

  /** A chunk of size (w, h, w): exactly w·h·w blocks. */
  predicate WellFormed(c: Chunk, w: int, h: int) {
    |c.blocks| == w * h * w
  }

  /** c holds exactly the blocks `Chunk::new` generates for its position. */
  predicate Generated(c: Chunk, w: int, h: int, surface: (int, int) -> int)
    requires w > 0
  {
    && WellFormed(c, w, h)
    && forall i :: 0 <= i < |c.blocks| ==> c.blocks[i] == Block(i, DecodedType(w, i, c.position, surface))
  }

  /**
   * `Chunk::new`: walks the flat index i over all w·h·w cells, decodes it
   * into (x, y, z) and pushes the cell's block with id i.
   */
  method NewChunk(id: int, w: int, h: int, position: ChunkPos, surface: (int, int) -> int)
    returns (c: Chunk)
    requires w > 0 && h > 0
    ensures c.id == id && c.position == position && Generated(c, w, h, surface)
  {
    var numVoxels := w * h * w;
    var blocks: seq<Block> := [];
    var blockIds := 0;
    for i := 0 to numVoxels
      invariant |blocks| == i && blockIds == i
      invariant forall k :: 0 <= k < i ==> blocks[k] == Block(k, DecodedType(w, k, position, surface))
    {
      var x := i % w;
      var z := (i % (w * w)) / w;
      var y := i / (w * w);
      if 1 <= x && x <= 3 && 110 <= y && y <= 112 && 1 <= z && z <= 3 {
        blocks := blocks + [Block(blockIds, Solid)];
      } else {
        blocks := blocks + [Block(blockIds, GetBlock(x + position.x, y, z + position.z, surface))];
      }
      blockIds := blockIds + 1;
    }
    c := Chunk(id, blocks, position);
  }

  /**
   * A generated chunk, read per coordinate triple: the test cube is solid,
   * every other cell is solid exactly when y lies below the surface at the
   * cell's world position (x + position.x, z + position.z).
   */
  lemma GeneratedCell(c: Chunk, w: int, h: int, surface: (int, int) -> int, x: int, y: int, z: int)
    requires w > 0 && h > 0 && Generated(c, w, h, surface)
    requires 0 <= x < w && 0 <= y < h && 0 <= z < w
    ensures BlockAt(c, w, h, x, y, z) == Solid <==>
      InTestCube(x, y, z) || y < surface(x + c.position.x, z + c.position.z)
    ensures 0 <= Index(w, x, y, z) < |c.blocks| && c.blocks[Index(w, x, y, z)].id == Index(w, x, y, z)
  {
    var i := Index(w, x, y, z);
    IndexBounds(w, h, x, y, z);
    assert w * h * w == w * w * h;
    DecodeIndex(w, h, x, y, z);
    assert c.blocks[i] == Block(i, DecodedType(w, i, c.position, surface));
  }

  /**
   * `get_block` makes the terrain a height field: outside the test cube, a
   * solid cell has solid cells all the way down its column.
   */
  lemma GeneratedColumn(c: Chunk, w: int, h: int, surface: (int, int) -> int, x: int, y: int, y': int, z: int)
    requires w > 0 && h > 0 && Generated(c, w, h, surface)
    requires 0 <= x < w && 0 <= y' <= y < h && 0 <= z < w && !InTestCube(x, y, z)
    ensures BlockAt(c, w, h, x, y, z) == Solid ==> BlockAt(c, w, h, x, y', z) == Solid
  {
    GeneratedCell(c, w, h, surface, x, y, z);
    GeneratedCell(c, w, h, surface, x, y', z);
  }

  /** The block type `Chunk::new` gives flat cell i, from its decoded coordinates. */
  function DecodedType(w: int, i: int, position: ChunkPos, surface: (int, int) -> int): BlockType
    requires w > 0
  {
    var x, y, z := CellX(w, i), CellY(w, i), CellZ(w, i);
    if InTestCube(x, y, z) then Solid else GetBlock(x + position.x, y, z + position.z, surface)
  }

  /** The type of the block at (x, y, z) of a well-formed chunk. */
  function BlockAt(c: Chunk, w: int, h: int, x: int, y: int, z: int): BlockType
    requires w > 0 && h > 0 && WellFormed(c, w, h)
    requires 0 <= x < w && 0 <= y < h && 0 <= z < w
  {
    IndexBounds(w, h, x, y, z);
    c.blocks[Index(w, x, y, z)].blockType
  }
}
