/**
 * Vectors of the mesher on an integer lattice.
 *
 * Every corner position the mesher produces is an integer cell coordinate
 * plus or minus one half on each axis.  Positions are therefore stored
 * DOUBLED: the corner (x + 0.5, y - 0.5, z) of the source is the lattice
 * point (2x + 1, 2y - 1, 2z).  Normals are unit axis vectors and are stored
 * as they are.  The exact `==` on `Vec3` used by the merge passes is then
 * plain integer equality.
 */
module Lattice {

  datatype V3 = V3(x: int, y: int, z: int)

  function Add(a: V3, b: V3): V3 { V3(a.x + b.x, a.y + b.y, a.z + b.z) }

  function Sub(a: V3, b: V3): V3 { V3(a.x - b.x, a.y - b.y, a.z - b.z) }

  function Cross(a: V3, b: V3): V3 {
    var (ax, ay, az, bx, bY, bz) := (a.x, a.y, a.z, b.x, b.y, b.z);
    V3(ay * bz - az * bY, az * bx - ax * bz, ax * bY - ay * bx)
  }

  function Scale(k: int, a: V3): V3 { V3(k * a.x, k * a.y, k * a.z) }

  /** The doubled lattice point of the centre of cell (x, y, z). */
  function CellCentre(x: int, y: int, z: int): V3 { V3(2 * x, 2 * y, 2 * z) }

  datatype Ordering = Less | Equal | Greater

  function CmpInt(a: int, b: int): Ordering {
    if a < b then Less else if a == b then Equal else Greater
  }

  /**
   * The lexicographic comparison `partial_cmp` of world.rs: x first, then y,
   * then z.  On the lattice every component is an integer, so the source's
   * `Option<Ordering>` is never `None` and the `unwrap` in the sort never
   * fails; the result is therefore an `Ordering`.
   */
  function PartialCmp(a: V3, b: V3): (r: Ordering)
    ensures r == Equal <==> a == b
    ensures r == Less <==> (a.x < b.x || (a.x == b.x && (a.y < b.y || (a.y == b.y && a.z < b.z))))
  {
    match CmpInt(a.x, b.x)
    case Equal =>
      (match CmpInt(a.y, b.y)
       case Equal => CmpInt(a.z, b.z)
       case other => other)
    case other => other
  }

  /** `partial_cmp` is antisymmetric: swapping the arguments swaps Less and Greater. */
  lemma PartialCmpFlip(a: V3, b: V3)
    ensures PartialCmp(a, b) == Less <==> PartialCmp(b, a) == Greater
  {
  }

  /** `partial_cmp` orders transitively, so `sort_by` with it is a sort by a total order. */
  lemma PartialCmpTransitive(a: V3, b: V3, c: V3)
    requires PartialCmp(a, b) != Greater && PartialCmp(b, c) != Greater
    ensures PartialCmp(a, c) != Greater
    ensures PartialCmp(a, b) == Less || PartialCmp(b, c) == Less ==> PartialCmp(a, c) == Less
  {
  }
}
