/**
 * The sort of `create_cube_mesh` (lines 273-282): the normals and corner
 * positions are zipped into pairs, the pairs are sorted with the stable
 * `sort_by` under `partial_cmp` on the normal, and the pairs are unzipped
 * again into `sorted_normals` and `sorted_vertices`.
 *
 * The library's stable sort is modelled by an insertion sort with the same
 * comparator.  Its result is sorted, a rearrangement of the pairs and
 * stable; because every face enters as four consecutive pairs with one
 * normal, every face leaves as four consecutive pairs, in its original
 * corner order, at an index divisible by 4.
 */
module NormalSort {
  import opened Lattice
  import opened Quads

  /** An entry of `combined`: a normal and the corner position it belongs to. */
  type Pair = (V3, V3)

  /** `normals.iter().zip(vertices.iter())`, which stops at the shorter of the two. */
  function Zip(ns: seq<V3>, vs: seq<V3>): (r: seq<Pair>)
    ensures |r| == if |ns| < |vs| then |ns| else |vs|
    ensures forall k :: 0 <= k < |r| ==> r[k] == (ns[k], vs[k])
  {
    if |ns| == 0 || |vs| == 0 then [] else [(ns[0], vs[0])] + Zip(ns[1..], vs[1..])
  }

  /** The normals of a run of pairs. */
  function Normals(ps: seq<Pair>): (ns: seq<V3>)
    ensures |ns| == |ps| && forall k :: 0 <= k < |ps| ==> ns[k] == ps[k].0
  {
    if |ps| == 0 then [] else [ps[0].0] + Normals(ps[1..])
  }

  /** `partial_cmp(a, b)` is not Greater. */
  predicate NotAfter(a: V3, b: V3) {
    PartialCmp(a, b) != Greater
  }

  /** The normals of ps never decrease under `partial_cmp`. */
  predicate Sorted(ps: seq<Pair>) {
    forall a, b :: 0 <= a < b < |ps| ==> NotAfter(ps[a].0, ps[b].0)
  }

  /** `partial_cmp` orders all normals: any two are ordered one way or the other, and transitively. */
  lemma NotAfterOrder(a: V3, b: V3, c: V3)
    ensures NotAfter(a, b) || NotAfter(b, a)
    ensures NotAfter(a, b) && NotAfter(b, c) ==> NotAfter(a, c)
  {
    if NotAfter(a, b) && NotAfter(b, c) {
      PartialCmpTransitive(a, b, c);
    }
  }

  /** x placed before the first pair whose normal it does not follow. */
  function InsertByNormal(x: Pair, ys: seq<Pair>): (r: seq<Pair>)
    ensures |r| == |ys| + 1
    ensures multiset(r) == multiset(ys) + multiset{x}
  {
    if |ys| == 0 || NotAfter(x.0, ys[0].0) then [x] + ys
    else
      assert ys == [ys[0]] + ys[1..];
      [ys[0]] + InsertByNormal(x, ys[1..])
  }

  /** Every pair of InsertByNormal(x, ys) is x or a pair of ys. */
  lemma {:induction false} InsertMembers(x: Pair, ys: seq<Pair>)
    ensures forall k :: 0 <= k < |ys| + 1 ==> InsertByNormal(x, ys)[k] == x || InsertByNormal(x, ys)[k] in ys
  {
    if |ys| > 0 && !NotAfter(x.0, ys[0].0) {
      InsertMembers(x, ys[1..]);
    }
  }

  /** Inserting into a sorted run keeps it sorted. */
  lemma {:induction false} InsertSorted(x: Pair, ys: seq<Pair>)
    requires Sorted(ys)
    ensures Sorted(InsertByNormal(x, ys))
  {
    var r := InsertByNormal(x, ys);
    if |ys| == 0 {
    } else if NotAfter(x.0, ys[0].0) {
      forall a, b | 0 <= a < b < |r|
        ensures NotAfter(r[a].0, r[b].0)
      {
        if a == 0 {
          NotAfterOrder(x.0, ys[0].0, r[b].0);
        }
      }
    } else {
      var rest := InsertByNormal(x, ys[1..]);
      InsertSorted(x, ys[1..]);
      InsertMembers(x, ys[1..]);
      NotAfterOrder(ys[0].0, x.0, x.0);
      forall b | 0 < b < |r|
        ensures NotAfter(r[0].0, r[b].0)
      {
        assert r[b] == rest[b - 1];
        if rest[b - 1] != x {
          var t :| 0 <= t < |ys[1..]| && ys[1..][t] == rest[b - 1];
          assert r[b] == ys[t + 1];
        }
      }
    }
  }

  /**
   * `combined.sort_by(|a, b| partial_cmp(a.0, b.0).unwrap())`: sorted by
   * normal and a rearrangement of the pairs.
   */
  function SortByNormal(xs: seq<Pair>): (r: seq<Pair>)
    ensures |r| == |xs|
    ensures multiset(r) == multiset(xs)
    ensures Sorted(r)
  {
    if |xs| == 0 then []
    else
      assert xs == [xs[0]] + xs[1..];
      var rest := SortByNormal(xs[1..]);
      InsertSorted(xs[0], rest);
      InsertByNormal(xs[0], rest)
  }

  // ---------------------------------------------------------------------
  // Counting and filtering by normal.

  /** The number of pairs whose normal comes strictly before d. */
  function CountBelow(s: seq<Pair>, d: V3): nat {
    if |s| == 0 then 0 else (if PartialCmp(s[0].0, d) == Less then 1 else 0) + CountBelow(s[1..], d)
  }

  /** The number of pairs whose normal is d. */
  function CountOf(s: seq<Pair>, d: V3): nat {
    if |s| == 0 then 0 else (if s[0].0 == d then 1 else 0) + CountOf(s[1..], d)
  }

  /** The pairs whose normal is d, in their order. */
  function Filter(s: seq<Pair>, d: V3): seq<Pair> {
    if |s| == 0 then [] else (if s[0].0 == d then [s[0]] else []) + Filter(s[1..], d)
  }

  lemma {:induction false} FilterLength(s: seq<Pair>, d: V3)
    ensures |Filter(s, d)| == CountOf(s, d)
    ensures CountBelow(s, d) + CountOf(s, d) <= |s|
  {
    if |s| > 0 {
      FilterLength(s[1..], d);
    }
  }

  /** Inserting x adds x to its own normal's count and filter, in front, and leaves the others alone. */
  lemma {:induction false} InsertCounts(x: Pair, ys: seq<Pair>, d: V3)
    ensures CountBelow(InsertByNormal(x, ys), d) == CountBelow(ys, d) + (if PartialCmp(x.0, d) == Less then 1 else 0)
    ensures CountOf(InsertByNormal(x, ys), d) == CountOf(ys, d) + (if x.0 == d then 1 else 0)
    ensures Filter(InsertByNormal(x, ys), d) == (if x.0 == d then [x] else []) + Filter(ys, d)
  {
    InsertTally(x, ys, d);
    InsertFilter(x, ys, d);
  }

  lemma {:induction false} InsertTally(x: Pair, ys: seq<Pair>, d: V3)
    ensures CountBelow(InsertByNormal(x, ys), d) == CountBelow(ys, d) + (if PartialCmp(x.0, d) == Less then 1 else 0)
    ensures CountOf(InsertByNormal(x, ys), d) == CountOf(ys, d) + (if x.0 == d then 1 else 0)
  {
    var r := InsertByNormal(x, ys);
    if |ys| == 0 || NotAfter(x.0, ys[0].0) {
      assert r[1..] == ys;
    } else {
      InsertTally(x, ys[1..], d);
      assert r[1..] == InsertByNormal(x, ys[1..]);
    }
  }

  lemma {:induction false} InsertFilter(x: Pair, ys: seq<Pair>, d: V3)
    ensures Filter(InsertByNormal(x, ys), d) == (if x.0 == d then [x] else []) + Filter(ys, d)
  {
    var r := InsertByNormal(x, ys);
    if |ys| == 0 || NotAfter(x.0, ys[0].0) {
      assert r[1..] == ys;
    } else {
      var rest := InsertByNormal(x, ys[1..]);
      InsertFilter(x, ys[1..], d);
      assert r == [ys[0]] + rest && r[1..] == rest;
      assert ys[0].0 != x.0;
      var head: seq<Pair> := if ys[0].0 == d then [ys[0]] else [];
      assert Filter(r, d) == head + Filter(rest, d);
      assert Filter(ys, d) == head + Filter(ys[1..], d);
    }
  }

  /** The sort keeps how many pairs each normal has and, for each normal, the order of its pairs. */
  lemma {:induction false} SortStable(xs: seq<Pair>, d: V3)
    ensures CountBelow(SortByNormal(xs), d) == CountBelow(xs, d)
    ensures CountOf(SortByNormal(xs), d) == CountOf(xs, d)
    ensures Filter(SortByNormal(xs), d) == Filter(xs, d)
  {
    if |xs| > 0 {
      var rest := SortByNormal(xs[1..]);
      assert SortByNormal(xs) == InsertByNormal(xs[0], rest);
      SortStable(xs[1..], d);
      InsertCounts(xs[0], rest, d);
    }
  }

  /** Nothing comes before d when every normal is at least d. */
  lemma {:induction false} NoneBelow(s: seq<Pair>, d: V3)
    requires forall k :: 0 <= k < |s| ==> NotAfter(d, s[k].0)
    ensures CountBelow(s, d) == 0
  {
    if |s| > 0 {
      NoneBelow(s[1..], d);
    }
  }

  /** Nothing has normal d when every normal comes after d. */
  lemma {:induction false} NoneOf(s: seq<Pair>, d: V3)
    requires forall k :: 0 <= k < |s| ==> PartialCmp(d, s[k].0) == Less
    ensures CountOf(s, d) == 0 && Filter(s, d) == []
  {
    if |s| > 0 {
      NoneOf(s[1..], d);
    }
  }

  /** r[b..b+c] holds exactly the pairs of r with normal d, and is d's filter of r. */
  ghost predicate NormalRun(r: seq<Pair>, d: V3, b: int, c: int) {
    && 0 <= b && 0 <= c && b + c <= |r|
    && (forall p :: 0 <= p < |r| ==> (r[p].0 == d <==> b <= p < b + c))
    && r[b..b + c] == Filter(r, d)
  }

  /** A pair of normal d in front of d's block at the start of the tail. */
  lemma BlockConsEqual(r: seq<Pair>, d: V3, c: int)
    requires |r| > 0 && r[0].0 == d && NormalRun(r[1..], d, 0, c)
    ensures NormalRun(r, d, 0, c + 1)
  {
    var t := r[1..];
    assert r[0..1 + c] == [r[0]] + t[0..c];
    forall p | 1 <= p < |r|
      ensures r[p].0 == d <==> p < c + 1
    {
      assert r[p] == t[p - 1];
    }
  }

  /** A pair of a smaller normal in front of the tail shifts d's block by one. */
  lemma BlockConsBelow(r: seq<Pair>, d: V3, b: int, c: int)
    requires |r| > 0 && r[0].0 != d && NormalRun(r[1..], d, b, c)
    ensures NormalRun(r, d, b + 1, c)
  {
    var t := r[1..];
    var rs, ts := r[1 + b..1 + b + c], t[b..b + c];
    forall q | 0 <= q < c
      ensures rs[q] == ts[q]
    {
      assert rs[q] == r[1 + b + q];
    }
    assert rs == ts;
    forall p | 1 <= p < |r|
      ensures r[p].0 == d <==> b + 1 <= p < b + 1 + c
    {
      assert r[p] == t[p - 1];
    }
  }

  /** When every normal comes after d, d's block is empty. */
  lemma BlockNone(r: seq<Pair>, d: V3)
    requires forall k :: 0 <= k < |r| ==> PartialCmp(d, r[k].0) == Less
    ensures NormalRun(r, d, 0, 0) && CountBelow(r, d) == 0 && CountOf(r, d) == 0
  {
    NoneOf(r, d);
    forall k | 0 <= k < |r|
      ensures NotAfter(d, r[k].0)
    {
    }
    NoneBelow(r, d);
  }

  /**
   * In a sorted run the pairs with normal d are exactly the block that
   * starts after the pairs with a smaller normal, and that block is the
   * filter of d.
   */
  lemma {:induction false} SortedBlock(r: seq<Pair>, d: V3)
    requires Sorted(r)
    ensures NormalRun(r, d, CountBelow(r, d), CountOf(r, d))
  {
    if |r| > 0 {
      var t := r[1..];
      assert Sorted(t);
      SortedBlock(t, d);
      var c := PartialCmp(r[0].0, d);
      if c == Equal {
        NoneBelow(t, d);
        BlockConsEqual(r, d, CountOf(t, d));
      } else if c == Greater {
        forall k | 0 <= k < |r|
          ensures PartialCmp(d, r[k].0) == Less
        {
          assert NotAfter(r[0].0, r[k].0);
          PartialCmpFlip(r[0].0, d);
          NotAfterOrder(d, r[0].0, r[k].0);
        }
        BlockNone(r, d);
      } else {
        BlockConsBelow(r, d, CountBelow(t, d), CountOf(t, d));
      }
    }
  }

  // ---------------------------------------------------------------------
  // Runs of whole faces.

  /** ps is a run of whole faces: a multiple of 4 pairs, each quad with one normal. */
  predicate Faces(ps: seq<Pair>) {
    |ps| % 4 == 0 && UniformQuads(Normals(ps))
  }

  lemma {:induction false} CountsAppend(a: seq<Pair>, b: seq<Pair>, d: V3)
    ensures CountBelow(a + b, d) == CountBelow(a, d) + CountBelow(b, d)
    ensures CountOf(a + b, d) == CountOf(a, d) + CountOf(b, d)
    ensures Filter(a + b, d) == Filter(a, d) + Filter(b, d)
  {
    if |a| > 0 {
      CountsAppend(a[1..], b, d);
      assert (a + b)[1..] == a[1..] + b;
    } else {
      assert a + b == b;
    }
  }

  /** The counts of a run of four pairs with one normal. */
  lemma OneFace(q: seq<Pair>, d: V3)
    requires |q| == 4 && q[1].0 == q[0].0 && q[2].0 == q[0].0 && q[3].0 == q[0].0
    ensures CountBelow(q, d) == (if PartialCmp(q[0].0, d) == Less then 4 else 0)
    ensures CountOf(q, d) == (if q[0].0 == d then 4 else 0)
    ensures Filter(q, d) == if q[0].0 == d then q else []
  {
    var a, b := [q[0], q[1]], [q[2], q[3]];
    assert q == a + b;
    assert a == [q[0]] + [q[1]] && b == [q[2]] + [q[3]];
    CountsAppend(a, b, d);
    CountsAppend([q[0]], [q[1]], d);
    CountsAppend([q[2]], [q[3]], d);
  }

  /** q is one of the faces of the run ps. */
  ghost predicate FaceOf(q: seq<Pair>, ps: seq<Pair>) {
    exists k :: 0 <= k && 4 * k + 4 <= |ps| && q == Quad(ps, k)
  }

  /** The runs of faces after the first face. */
  lemma FacesTail(ps: seq<Pair>)
    requires Faces(ps) && |ps| >= 4
    ensures Faces(ps[4..])
    ensures ps[1].0 == ps[0].0 && ps[2].0 == ps[0].0 && ps[3].0 == ps[0].0
    ensures forall k :: 0 <= k && 4 * k + 4 <= |ps| - 4 ==> Quad(ps[4..], k) == Quad(ps, k + 1)
  {
    var n := Normals(ps);
    assert Uniform4(Quad(n, 0));
    TailQuads(ps);
    TailUniform(n);
    assert Normals(ps[4..]) == n[4..];
  }

  /** Dropping the first quad of a buffer moves every other quad down by one. */
  lemma TailQuads<T>(s: seq<T>)
    requires |s| >= 4
    ensures forall k :: 0 <= k && 4 * k + 4 <= |s| - 4 ==> Quad(s[4..], k) == Quad(s, k + 1)
  {
    forall k | 0 <= k && 4 * k + 4 <= |s| - 4
      ensures Quad(s[4..], k) == Quad(s, k + 1)
    {
      ShiftQuad(s, k);
    }
  }

  /** Dropping the first quad of uniform normals leaves uniform normals. */
  lemma TailUniform(n: seq<V3>)
    requires UniformQuads(n) && |n| >= 4
    ensures UniformQuads(n[4..])
  {
    forall k | 0 <= k < |n[4..]| / 4
      ensures Uniform4(Quad(n[4..], k))
    {
      ShiftQuad(n, k);
      assert Uniform4(Quad(n, k + 1));
    }
  }

  /** Dropping the first quad of a buffer moves every other quad down by one. */
  lemma ShiftQuad<T>(s: seq<T>, k: int)
    requires 0 <= k && 4 * k + 8 <= |s|
    ensures Quad(s[4..], k) == Quad(s, k + 1)
  {
    assert s[4..][4 * k..4 * k + 4] == s[4 * k + 4..4 * k + 8];
  }

  /** In a run of faces, the pairs of each normal, and the pairs before it, come in whole faces. */
  lemma {:induction false} FacesCounts(ps: seq<Pair>, d: V3)
    requires Faces(ps)
    ensures CountBelow(ps, d) % 4 == 0 && CountOf(ps, d) % 4 == 0
  {
    if |ps| > 0 {
      var t := ps[4..];
      FacesTail(ps);
      FacesCounts(t, d);
      assert ps == ps[..4] + t;
      CountsAppend(ps[..4], t, d);
      OneFace(ps[..4], d);
    }
  }

  /** The filter of a run of faces splits after the first face. */
  lemma FilterFirstFace(ps: seq<Pair>, d: V3)
    requires Faces(ps) && |ps| >= 4
    ensures Faces(ps[4..])
    ensures Filter(ps, d) == (if ps[0].0 == d then ps[..4] else []) + Filter(ps[4..], d)
    ensures forall k :: 0 <= k && 4 * k + 4 <= |ps| - 4 ==> Quad(ps[4..], k) == Quad(ps, k + 1)
  {
    FacesTail(ps);
    assert ps == ps[..4] + ps[4..];
    CountsAppend(ps[..4], ps[4..], d);
    OneFace(ps[..4], d);
  }

  /** Each quad of the filter of a normal in a run of faces is a face of the run. */
  lemma {:induction false} FilterQuad(ps: seq<Pair>, d: V3, m: int)
    requires Faces(ps)
    requires 0 <= m && 4 * m + 4 <= |Filter(ps, d)|
    ensures FaceOf(Quad(Filter(ps, d), m), ps)
  {
    FilterLength(ps, d);
    var f := Filter(ps, d);
    var t := ps[4..];
    FilterFirstFace(ps, d);
    var ft := Filter(t, d);
    if ps[0].0 == d && m == 0 {
      assert Quad(f, 0) == Quad(ps, 0);
    } else {
      var m' := if ps[0].0 == d then m - 1 else m;
      assert Quad(f, m) == Quad(ft, m');
      FilterQuad(t, d, m');
      var k :| 0 <= k && 4 * k + 4 <= |t| && Quad(ft, m') == Quad(t, k);
      assert Quad(f, m) == Quad(ps, k + 1);
    }
  }

  /**
   * Sorting a run of faces keeps the faces whole: the result is again a run
   * of faces, and each of its quads is a face of the input, corners in the
   * same order.
   */
  lemma SortKeepsFaces(xs: seq<Pair>)
    requires Faces(xs)
    ensures Faces(SortByNormal(xs))
    ensures var r := SortByNormal(xs);
      forall m :: 0 <= m && 4 * m + 4 <= |r| ==> FaceOf(Quad(r, m), xs)
  {
    var r := SortByNormal(xs);
    forall m | 0 <= m && 4 * m + 4 <= |r|
      ensures r[4 * m + 1].0 == r[4 * m].0 && r[4 * m + 2].0 == r[4 * m].0 && r[4 * m + 3].0 == r[4 * m].0
      ensures FaceOf(Quad(r, m), xs)
    {
      FaceOfSorted(xs, m);
    }
    var n := Normals(r);
    forall m | 0 <= m < |n| / 4
      ensures Uniform4(Quad(n, m))
    {
      assert 4 * m + 4 <= |r|;
    }
  }

  /** A quad-aligned position inside an aligned block starts a whole quad of the block. */
  lemma QuadInBlock(r: seq<Pair>, f: seq<Pair>, b: int, c: int, p: int)
    requires 0 <= b && 0 <= c && b + c <= |r| && r[b..b + c] == f
    requires b % 4 == 0 && c % 4 == 0 && p % 4 == 0 && b <= p < b + c
    ensures p + 4 <= b + c && (p - b) % 4 == 0
    ensures Quad(r, p / 4) == Quad(f, (p - b) / 4)
  {
    var m, m', bb, cc := p / 4, (p - b) / 4, b / 4, c / 4;
    assert p == 4 * m && b == 4 * bb && c == 4 * cc;
    assert p - b == 4 * m';
    assert p + 4 <= b + c;
    forall u | p <= u < p + 4
      ensures r[u] == f[u - b]
    {
    }
    assert Quad(f, m') == f[p - b..p - b + 4];
    assert Quad(r, m) == r[p..p + 4];
  }

  /**
   * r[b..b+c] is the block of normal d: it starts and ends on quad
   * boundaries, holds d's filter of xs, and is where d occurs in r.
   */
  ghost predicate Block(r: seq<Pair>, xs: seq<Pair>, d: V3, b: int, c: int) {
    && 0 <= b && 0 <= c && b % 4 == 0 && c % 4 == 0 && b + c <= |r| && r[b..b + c] == Filter(xs, d)
    && forall p :: 0 <= p < |r| ==> (r[p].0 == d <==> b <= p < b + c)
  }

  /** Quad m of a run, starting with normal d, lies inside the block of d. */
  lemma BlockQuad(r: seq<Pair>, xs: seq<Pair>, d: V3, b: int, c: int, m: int)
    requires Faces(xs) && Block(r, xs, d, b, c)
    requires 0 <= m && 4 * m + 4 <= |r| && r[4 * m].0 == d
    ensures r[4 * m + 1].0 == d && r[4 * m + 2].0 == d && r[4 * m + 3].0 == d
    ensures FaceOf(Quad(r, m), xs)
  {
    var p := 4 * m;
    QuadInBlock(r, Filter(xs, d), b, c, p);
    assert p / 4 == m;
    FilterLength(xs, d);
    FilterQuad(xs, d, (p - b) / 4);
  }

  /**
   * In the sorted run of a run of faces, the pairs of normal d form one
   * block of whole faces, and the block is d's filter of the input.
   */
  lemma SortedFaceBlock(xs: seq<Pair>, d: V3)
    requires Faces(xs)
    ensures var r := SortByNormal(xs);
      Block(r, xs, d, CountBelow(r, d), CountOf(r, d))
  {
    SortStable(xs, d);
    SortedBlock(SortByNormal(xs), d);
    FacesCounts(xs, d);
  }

  /** Quad m of the sorted run lies inside the block of its normal, which is the filter of that normal. */
  lemma FaceOfSorted(xs: seq<Pair>, m: int)
    requires Faces(xs)
    requires 0 <= m && 4 * m + 4 <= |xs|
    ensures var r := SortByNormal(xs);
      && r[4 * m + 1].0 == r[4 * m].0 && r[4 * m + 2].0 == r[4 * m].0 && r[4 * m + 3].0 == r[4 * m].0
      && FaceOf(Quad(r, m), xs)
  {
    var r := SortByNormal(xs);
    var d := r[4 * m].0;
    SortedFaceBlock(xs, d);
    BlockQuad(r, xs, d, CountBelow(r, d), CountOf(r, d), m);
  }

  // ---------------------------------------------------------------------
  // The sort as the mesher runs it.

  /**
   * Zip, sort and the unzip loop of lines 279-282.  The two results are the
   * two halves of the sorted pairs.
   */
  method SortFaces(normals: seq<V3>, vertices: seq<V3>) returns (sortedNormals: seq<V3>, sortedVertices: seq<V3>)
    requires |normals| == |vertices|
    ensures |sortedNormals| == |sortedVertices| == |normals|
    ensures Zip(sortedNormals, sortedVertices) == SortByNormal(Zip(normals, vertices))
  {
    var combined := SortByNormal(Zip(normals, vertices));
    sortedNormals, sortedVertices := [], [];
    for k := 0 to |combined|
      invariant |sortedNormals| == |sortedVertices| == k
      invariant forall t :: 0 <= t < k ==> combined[t] == (sortedNormals[t], sortedVertices[t])
    {
      var (normal, vertex) := combined[k];
      sortedNormals := sortedNormals + [normal];
      sortedVertices := sortedVertices + [vertex];
    }
  }

  /** The normals of zipped buffers of one length. */
  lemma NormalsOfZip(ns: seq<V3>, vs: seq<V3>)
    requires |ns| == |vs|
    ensures Normals(Zip(ns, vs)) == ns
  {
  }
}
