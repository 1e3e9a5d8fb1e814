/**
 * The mesh buffers as runs of quads: `generate_cube` appends one face as
 * four consecutive corners with four copies of its normal, so entries
 * 4k .. 4k + 3 of the position and normal buffers form quad k.
 */
module Quads {
  import opened Lattice

  /** i is the first entry of a whole quad of a buffer of length len. */
  predicate QuadStart(len: int, i: int) {
    0 <= i && i % 4 == 0 && i + 4 <= len
  }

  /** Quad k of a buffer: entries 4k .. 4k + 3. */
  function Quad<T>(s: seq<T>, k: int): seq<T>
    requires 0 <= k && 4 * k + 4 <= |s|
  {
    s[4 * k..4 * k + 4]
  }

  /** The four entries of a quad are one and the same. */
  predicate Uniform4<T(==)>(q: seq<T>)
    requires |q| == 4
  {
    q[1] == q[0] && q[2] == q[0] && q[3] == q[0]
  }

  /** The four normals of every quad are one and the same. */
  predicate UniformQuads(n: seq<V3>) {
    forall k :: 0 <= k < |n| / 4 ==> Uniform4(Quad(n, k))
  }

  /** A whole quad fits below the end of a buffer whose length is a multiple of 4. */
  lemma QuadFits(len: int, i: int)
    requires 0 <= i < len && i % 4 == 0 && len % 4 == 0
    ensures QuadStart(len, i)
  {
    var a, b := i / 4, len / 4;
    assert i == 4 * a && len == 4 * b;
  }

  /** The entries of a quad of uniform normals. */
  lemma UniformAt(n: seq<V3>, i: int)
    requires UniformQuads(n) && QuadStart(|n|, i)
    ensures n[i + 1] == n[i] && n[i + 2] == n[i] && n[i + 3] == n[i]
  {
    var k := i / 4;
    assert i == 4 * k;
    assert Uniform4(Quad(n, k));
  }

  /** Two different quads are at least four entries apart. */
  lemma QuadGap(i: int, j: int)
    requires i % 4 == 0 && j % 4 == 0 && i != j
    ensures i < j ==> i + 4 <= j
    ensures j < i ==> j + 4 <= i
  {
    var a, b := i / 4, j / 4;
    assert i == 4 * a && j == 4 * b;
  }

  /** A quad inside the front part of a concatenation. */
  lemma QuadPrefix<T>(a: seq<T>, b: seq<T>, k: int)
    requires 0 <= k && 4 * k + 4 <= |a|
    ensures Quad(a + b, k) == Quad(a, k)
  {
    assert (a + b)[4 * k..4 * k + 4] == a[4 * k..4 * k + 4];
  }

  /** The four entries appended right after whole quads form the next quad. */
  lemma QuadLast<T>(a: seq<T>, b: seq<T>, k: int)
    requires |b| == 4 && 4 * k == |a|
    ensures Quad(a + b, k) == b
  {
    assert (a + b)[4 * k..4 * k + 4] == b;
  }

  /** Appending to a concatenation appends to its back part. */
  lemma AppendAssoc<T>(a: seq<T>, b: seq<T>, c: seq<T>)
    ensures (a + b) + c == a + (b + c)
  {
  }
}
