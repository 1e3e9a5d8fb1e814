/**
 * The constant corner and normal tables of `generate_cube` and the geometry
 * they encode.  Direction tags follow the source: 0 = +X, 1 = -X, 2 = +Y,
 * 3 = -Y, 4 = +Z, 5 = -Z.
 */
module FaceTables {
  import opened Lattice

  /** A direction tag as pushed into `vfaces`. */
  type Tag = d: nat | d < 6

  /** Row d of the corner table: offsets of face d's corners from the cell centre, doubled (0.5 is 1). */
  function CornerTable(d: Tag): (r: seq<V3>)
    ensures |r| == 4
  {
    match d
    case 0 => [V3(1, -1, -1), V3(1, 1, -1), V3(1, 1, 1), V3(1, -1, 1)]
    case 1 => [V3(-1, 1, 1), V3(-1, 1, -1), V3(-1, -1, -1), V3(-1, -1, 1)]
    case 2 => [V3(1, 1, -1), V3(-1, 1, -1), V3(-1, 1, 1), V3(1, 1, 1)]
    case 3 => [V3(-1, -1, -1), V3(1, -1, -1), V3(1, -1, 1), V3(-1, -1, 1)]
    case 4 => [V3(-1, -1, 1), V3(1, -1, 1), V3(1, 1, 1), V3(-1, 1, 1)]
    case 5 => [V3(-1, 1, -1), V3(1, 1, -1), V3(1, -1, -1), V3(-1, -1, -1)]
  }

  /** Row d of the normal table: four copies of face d's unit normal. */
  function NormalTable(d: Tag): (r: seq<V3>)
    ensures |r| == 4
  {
    match d
    case 0 => [V3(1, 0, 0), V3(1, 0, 0), V3(1, 0, 0), V3(1, 0, 0)]
    case 1 => [V3(-1, 0, 0), V3(-1, 0, 0), V3(-1, 0, 0), V3(-1, 0, 0)]
    case 2 => [V3(0, 1, 0), V3(0, 1, 0), V3(0, 1, 0), V3(0, 1, 0)]
    case 3 => [V3(0, -1, 0), V3(0, -1, 0), V3(0, -1, 0), V3(0, -1, 0)]
    case 4 => [V3(0, 0, 1), V3(0, 0, 1), V3(0, 0, 1), V3(0, 0, 1)]
    case 5 => [V3(0, 0, -1), V3(0, 0, -1), V3(0, 0, -1), V3(0, 0, -1)]
  }

  /** The unit normal of direction d. */
  function UnitNormal(d: Tag): V3 {
    match d
    case 0 => V3(1, 0, 0)
    case 1 => V3(-1, 0, 0)
    case 2 => V3(0, 1, 0)
    case 3 => V3(0, -1, 0)
    case 4 => V3(0, 0, 1)
    case 5 => V3(0, 0, -1)
  }

  /** The six unit axis normals: the only normals the mesher ever stores. */
  predicate IsAxisNormal(n: V3) {
    n in {V3(1, 0, 0), V3(-1, 0, 0), V3(0, 1, 0), V3(0, -1, 0), V3(0, 0, 1), V3(0, 0, -1)}
  }

  /** The 4 corners of face d of cell (x, y, z), in table order, on the doubled lattice. */
  function FaceCorners(d: Tag, x: int, y: int, z: int): (r: seq<V3>)
    ensures |r| == 4
  {
    var c := CellCentre(x, y, z);
    [Add(CornerTable(d)[0], c), Add(CornerTable(d)[1], c),
     Add(CornerTable(d)[2], c), Add(CornerTable(d)[3], c)]
  }

  /** Distance on one axis, on the doubled lattice. */
  function AbsDiff(a: int, b: int): nat { if a < b then b - a else a - b }

  /**
   * Every row of the normal table is four copies of the direction's unit
   * normal, and that normal is an axis normal.
   */
  lemma NormalTableRows(d: Tag)
    ensures forall k :: 0 <= k < 4 ==> NormalTable(d)[k] == UnitNormal(d)
    ensures IsAxisNormal(UnitNormal(d))
  {
  }

  /** Distinct directions have distinct normals. */
  lemma UnitNormalInjective(d: Tag, e: Tag)
    ensures UnitNormal(d) == UnitNormal(e) <==> d == e
  {
  }

  /** p is a corner of a face with normal n around centre c (doubled lattice). */
  predicate OnFacePlane(p: V3, c: V3, n: V3) {
    && (if n.x != 0 then p.x == c.x + n.x else AbsDiff(p.x, c.x) == 1)
    && (if n.y != 0 then p.y == c.y + n.y else AbsDiff(p.y, c.y) == 1)
    && (if n.z != 0 then p.z == c.z + n.z else AbsDiff(p.z, c.z) == 1)
  }

  /** p and q differ on exactly one axis, by one whole cell. */
  predicate UnitEdge(p: V3, q: V3) {
    AbsDiff(p.x, q.x) + AbsDiff(p.y, q.y) + AbsDiff(p.z, q.z) == 2
  }

  /**
   * The geometry of one emitted face: every corner sits half a cell from the
   * centre along the face's normal axis, on the side the normal points to,
   * and half a cell either way on the two other axes; consecutive corners
   * (cyclically) differ on exactly one axis, by one whole cell.
   */
  lemma FaceIsUnitSquare(d: Tag, x: int, y: int, z: int)
    ensures var q, c, n := FaceCorners(d, x, y, z), CellCentre(x, y, z), UnitNormal(d);
      && OnFacePlane(q[0], c, n) && OnFacePlane(q[1], c, n)
      && OnFacePlane(q[2], c, n) && OnFacePlane(q[3], c, n)
      && UnitEdge(q[0], q[1]) && UnitEdge(q[1], q[2])
      && UnitEdge(q[2], q[3]) && UnitEdge(q[3], q[0])
  {
  }

  /**
   * The two triangles (0,1,2) and (2,3,0) that the assembler builds from a
   * quad q both turn counter-clockwise around n (their cross products are
   * positive multiples of n), so the quad's front side faces along n.
   */
  predicate WindsAround(q: seq<V3>, n: V3, k: int)
    requires |q| == 4
  {
    && Cross(Sub(q[1], q[0]), Sub(q[2], q[0])) == Scale(k, n)
    && Cross(Sub(q[3], q[2]), Sub(q[0], q[2])) == Scale(k, n)
  }

  /**
   * Every emitted face winds outwards around its stored normal.  Corners are
   * the table's offsets plus the cell centre, so the edge vectors are those
   * of the table row.
   */
  lemma FaceWindingOutward(d: Tag, x: int, y: int, z: int)
    ensures WindsAround(FaceCorners(d, x, y, z), UnitNormal(d), 4)
  {
    var q, t := FaceCorners(d, x, y, z), CornerTable(d);
    assert Sub(q[1], q[0]) == Sub(t[1], t[0]) && Sub(q[2], q[0]) == Sub(t[2], t[0]);
    assert Sub(q[3], q[2]) == Sub(t[3], t[2]) && Sub(q[0], q[2]) == Sub(t[0], t[2]);
    match d
    case 0 => RowWinding0();
    case 1 => RowWinding1();
    case 2 => RowWinding2();
    case 3 => RowWinding3();
    case 4 => RowWinding4();
    case 5 => RowWinding5();
  }

  // One lemma per table row keeps each product computation a separate proof.
  lemma RowWinding0() ensures WindsAround(CornerTable(0), UnitNormal(0), 4) {}
  lemma RowWinding1() ensures WindsAround(CornerTable(1), UnitNormal(1), 4) {}
  lemma RowWinding2() ensures WindsAround(CornerTable(2), UnitNormal(2), 4) {}
  lemma RowWinding3() ensures WindsAround(CornerTable(3), UnitNormal(3), 4) {}
  lemma RowWinding4() ensures WindsAround(CornerTable(4), UnitNormal(4), 4) {}
  lemma RowWinding5() ensures WindsAround(CornerTable(5), UnitNormal(5), 4) {}
}
