/**
 * The flat cell index of a chunk and its decoding, as `Chunk::new` and
 * `create_cube_mesh` compute it: x = i % W, z = (i % W²) / W, y = i / W²,
 * so that i = x + z·W + y·W².  Also Rust's truncating division, which the
 * face culler applies to a possibly negative index.
 */
module GridIndex {

  /** Rust's `/` on `i32` (for a positive divisor): rounds toward zero. */
  function TruncDiv(a: int, b: int): (q: int)
    requires b > 0
    ensures a >= 0 ==> q == a / b
    ensures a < 0 && -a < b ==> q == 0
  {
    if a >= 0 then a / b else -((-a) / b)
  }

  /** The x coordinate of cell i (line 65 of world.rs). */
  function CellX(w: int, i: int): int requires w > 0 { i % w }

  /** The z coordinate of cell i (line 66). */
  function CellZ(w: int, i: int): int requires w > 0 { (i % (w * w)) / w }

  /** The y coordinate (layer) of cell i (line 67). */
  function CellY(w: int, i: int): int requires w > 0 { i / (w * w) }

  /** The flat index of cell (x, y, z). */
  function Index(w: int, x: int, y: int, z: int): int { x + z * w + y * (w * w) }

  lemma MulNonneg(a: int, b: int)
    requires a >= 0 && b >= 0
    ensures a * b >= 0
  {
  }

  lemma MulMono(a: int, b: int, c: int)
    requires a <= b && c >= 0
    ensures a * c <= b * c
  {
    MulNonneg(b - a, c);
    assert (b - a) * c == b * c - a * c;
  }

  /** Division with remainder is unique. */
  lemma DivModUnique(a: int, b: int, q: int, r: int)
    requires b > 0 && 0 <= r < b && a == q * b + r
    ensures a / b == q && a % b == r
  {
    var q', r' := a / b, a % b;
    assert a == q' * b + r' && 0 <= r' < b;
    if q > q' {
      MulMono(q' + 1, q, b);
    } else if q < q' {
      MulMono(q + 1, q', b);
    }
  }

  /** Index(w, ·) covers exactly [0, w·w·h) when its arguments are in range. */
  lemma IndexBounds(w: int, h: int, x: int, y: int, z: int)
    requires w > 0 && h > 0
    requires 0 <= x < w && 0 <= y < h && 0 <= z < w
    ensures 0 <= x + z * w < w * w
    ensures 0 <= Index(w, x, y, z) < w * w * h
  {
    MulNonneg(z, w);
    MulMono(z, w - 1, w);
    MulNonneg(y, w * w);
    MulMono(y, h - 1, w * w);
    assert w * w * h == (h - 1) * (w * w) + w * w;
  }

  /** Encoding a coordinate triple and decoding it again gives the triple back. */
  lemma {:induction false} DecodeIndex(w: int, h: int, x: int, y: int, z: int)
    requires w > 0 && h > 0
    requires 0 <= x < w && 0 <= y < h && 0 <= z < w
    ensures var i := Index(w, x, y, z);
      CellX(w, i) == x && CellY(w, i) == y && CellZ(w, i) == z
  {
    var i := Index(w, x, y, z);
    IndexBounds(w, h, x, y, z);
    DivModUnique(i, w * w, y, x + z * w);
    DivModUnique(x + z * w, w, z, x);
    assert i == (z + y * w) * w + x;
    DivModUnique(i, w, z + y * w, x);
  }

  /** Splitting an in-layer offset m = x + z·w into its two coordinates. */
  lemma LayerOffset(w: int, m: int)
    requires w > 0 && 0 <= m < w * w
    ensures m == (m / w) * w + m % w
    ensures 0 <= m % w < w && 0 <= m / w < w
  {
    var z := m / w;
    if z >= w { MulMono(w, z, w); }
  }

  /** The layer of an index below w·w·h is below h. */
  lemma LayerBound(w: int, h: int, i: int)
    requires w > 0 && h > 0 && 0 <= i < w * w * h
    ensures 0 <= i / (w * w) < h
  {
    var y := i / (w * w);
    MulNonneg(w, w);
    if y >= h { MulMono(h, y, w * w); }
  }

  /** Every index of a W·H·W chunk decodes to an in-range triple that encodes back to it. */
  lemma {:induction false} EncodeCell(w: int, h: int, i: int)
    requires w > 0 && h > 0 && 0 <= i < w * w * h
    ensures 0 <= CellX(w, i) < w && 0 <= CellY(w, i) < h && 0 <= CellZ(w, i) < w
    ensures i == Index(w, CellX(w, i), CellY(w, i), CellZ(w, i))
  {
    var y, m := i / (w * w), i % (w * w);
    assert i == y * (w * w) + m;
    LayerBound(w, h, i);
    LayerOffset(w, m);
    var z, x := m / w, m % w;
    Distribute(z, y, w);
    DivModUnique(i, w, z + y * w, x);
  }

  lemma MulSucc(a: int, b: int)
    ensures (a + 1) * b == a * b + b
  {
  }

  lemma Distribute(z: int, y: int, w: int)
    ensures (z + y * w) * w == z * w + y * (w * w)
  {
  }
}
