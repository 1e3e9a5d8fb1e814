/**
 * The greedy quad merge of `create_cube_mesh` (lines 313-442).
 *
 * After the sort, `sorted_vertices` and `sorted_normals` hold one quad per
 * four entries.  Each pass scans all ordered pairs of quads (i, j) and, when
 * the pair passes the pass's edge test, replaces the two quads by one with a
 * short sequence of `remove_multiple`, `remove` and `insert` calls; it
 * repeats whole scans until a scan merges nothing.
 */
module Merge {
  import opened Optional
  import opened Lattice
  import opened VecOps
  import opened Quads

  /**
   * The buffer after merging the quads at i and j into q: q takes the place
   * of the quad at the lower of the two positions, the quad at the higher
   * one is dropped, and everything else keeps its order.
   */
  function Merged<T>(s: seq<T>, i: int, j: int, q: seq<T>): (r: seq<T>)
    requires |q| == 4 && i != j && QuadStart(|s|, i) && QuadStart(|s|, j)
    ensures |r| == |s| - 4
  {
    if i < j then s[..i] + q + s[i + 4..j] + s[j + 4..]
    else s[..j] + q + s[j + 4..i] + s[i + 4..]
  }

  /** Removing in the front part of a buffer leaves the back part alone. */
  lemma RemoveFront<T>(front: seq<T>, back: seq<T>, r: int)
    requires 0 <= r < |front|
    ensures Remove(front + back, r) == Remove(front, r) + back
  {
    assert Remove(front + back, r) == Remove(front, r) + back;
  }

  /** Removing position c of the prefix s[..d]. */
  lemma RemoveInPrefix<T>(s: seq<T>, c: int, d: int)
    requires 0 <= c < d <= |s|
    ensures Remove(s[..d], c) == s[..c] + s[c + 1..d]
  {
    assert s[..d][..c] == s[..c];
    assert s[..d][c + 1..] == s[c + 1..d];
  }

  /** Removing four distinct positions, one after the other from the highest. */
  lemma SurvivorsFourSteps<T>(s: seq<T>, a: int, b: int, c: int, d: int)
    requires 0 <= a < b < c < d < |s|
    ensures Survivors(s, {a, b, c, d}) == Remove(Remove(Remove(Remove(s, d), c), b), a)
  {
    SieveUntouched(s, {}, 0);
    StepDescending(s, {}, d);
    assert {} + {d} == {d};
    StepDescending(s, {d}, c);
    assert {d} + {c} == {c, d};
    StepDescending(s, {c, d}, b);
    assert {c, d} + {b} == {b, c, d};
    StepDescending(s, {b, c, d}, a);
    assert {b, c, d} + {a} == {a, b, c, d};
  }

  /** Removing position c of s[..d] + rest splits off the stretch between c and d. */
  lemma PeelOne<T>(s: seq<T>, c: int, d: int, rest: seq<T>)
    requires 0 <= c < d <= |s|
    ensures Remove(s[..d] + rest, c) == s[..c] + (s[c + 1..d] + rest)
  {
    RemoveFront(s[..d], rest, c);
    RemoveInPrefix(s, c, d);
  }

  /** Removing four distinct positions, written out as the five stretches left between them. */
  lemma SurvivorsFour<T>(s: seq<T>, a: int, b: int, c: int, d: int)
    requires 0 <= a < b < c < d < |s|
    ensures Survivors(s, {a, b, c, d}) == s[..a] + s[a + 1..b] + s[b + 1..c] + s[c + 1..d] + s[d + 1..]
  {
    SurvivorsFourSteps(s, a, b, c, d);
    var r3 := s[c + 1..d] + s[d + 1..];
    var r2 := s[b + 1..c] + r3;
    assert Remove(s, d) == s[..d] + s[d + 1..];
    PeelOne(s, c, d, s[d + 1..]);
    PeelOne(s, b, c, r3);
    PeelOne(s, a, b, r2);
    JoinFive(s[..a], s[a + 1..b], s[b + 1..c], s[c + 1..d], s[d + 1..]);
  }

  /** Five stretches joined from the right are the same as joined from the left. */
  lemma JoinFive<T>(p1: seq<T>, p2: seq<T>, p3: seq<T>, p4: seq<T>, p5: seq<T>)
    ensures p1 + (p2 + (p3 + (p4 + p5))) == p1 + p2 + p3 + p4 + p5
  {
    AppendAssoc(p1 + p2 + p3, p4, p5);
    AppendAssoc(p1 + p2, p3, p4 + p5);
    AppendAssoc(p1, p2, p3 + (p4 + p5));
  }

  lemma InsertAtSeam<T>(front: seq<T>, back: seq<T>, x: T)
    ensures Insert(front + back, |front|, x) == front + [x] + back
  {
    assert Insert(front + back, |front|, x) == front + [x] + back;
  }

  // ---------------------------------------------------------------------
  // The buffer surgery of one merge.

  /**
   * Lines 337-341 (i < j) and 353-357 (i > j), done the same way on
   * `sorted_normals` at lines 343-347 and 359-363: the first pass's merge of
   * the quads at i and j into [s[j], s[i+1], s[i+2], s[j+3]].
   */
  method Relocate1<T>(s: seq<T>, i: int, j: int) returns (t: seq<T>)
    requires i != j && QuadStart(|s|, i) && QuadStart(|s|, j)
    ensures t == Merged(s, i, j, [s[j], s[i + 1], s[i + 2], s[j + 3]])
  {
    QuadGap(i, j);
    if i < j {
      FourIndices(|s|, i, i + 3, j + 1, j + 2);
      t := RemoveMultiple(s, [i, i + 3, j + 1, j + 2]);
      Relocate1Lower(s, i, j);
      var copy := t[j - 2];
      t := Remove(t, j - 2);
      var copy2 := t[j - 2];
      t := Remove(t, j - 2);
      t := Insert(t, i, copy);
      t := Insert(t, i + 3, copy2);
    } else {
      FourIndices(|s|, i, i + 3, j + 1, j + 2);
      t := RemoveMultiple(s, [i, i + 3, j + 1, j + 2]);
      Relocate1Upper(s, i, j);
      var copy := t[i - 2];
      t := Remove(t, i - 2);
      var copy2 := t[i - 2];
      t := Remove(t, i - 2);
      t := Insert(t, j + 1, copy);
      t := Insert(t, j + 2, copy2);
    }
  }

  /** Four distinct positions of a buffer make a valid index list. */
  lemma FourIndices(n: int, a: int, b: int, c: int, d: int)
    requires 0 <= a < n && 0 <= b < n && 0 <= c < n && 0 <= d < n
    requires a != b && a != c && a != d && b != c && b != d && c != d
    ensures ValidIndices(n, [a, b, c, d])
  {
  }

  /** The two removals at the seam after `front`. */
  lemma RemoveTwoAtSeam<T>(front: seq<T>, x: T, y: T, back: seq<T>)
    ensures var t0 := front + [x, y] + back;
      && t0[|front|] == x
      && Remove(t0, |front|)[|front|] == y
      && Remove(Remove(t0, |front|), |front|) == front + back
  {
    var t0 := front + [x, y] + back;
    assert t0 == front + [x] + ([y] + back);
    RemoveAtSeam(front, x, [y] + back);
    RemoveAtSeam(front, y, back);
  }

  /** Inserting x before and y after a two-element middle. */
  lemma InsertAround<T>(front: seq<T>, mid: seq<T>, back: seq<T>, x: T, y: T)
    requires |mid| == 2
    ensures Insert(Insert(front + mid + back, |front|, x), |front| + 3, y) == front + [x] + mid + [y] + back
  {
    InsertAtSeam(front, mid + back, x);
    assert front + mid + back == front + (mid + back);
    InsertAtSeam(front + [x] + mid, back, y);
    assert front + [x] + (mid + back) == (front + [x] + mid) + back;
  }

  /** Inserting x and then y at two consecutive positions. */
  lemma InsertPair<T>(front: seq<T>, back: seq<T>, x: T, y: T)
    ensures Insert(Insert(front + back, |front|, x), |front| + 1, y) == front + [x, y] + back
  {
    InsertAtSeam(front, back, x);
    InsertAtSeam(front + [x], back, y);
  }

  /**
   * The moves every second-pass merge, and the first pass's for i > j, ends
   * with: the pair x, y lying after A + M is removed twice from position p
   * and put back, in order, at position q, right after A.
   */
  lemma MoveTwoDown<T>(A: seq<T>, M: seq<T>, x: T, y: T, B: seq<T>, q: int, p: int)
    requires q == |A| && p == |A| + |M|
    ensures var t0 := A + M + [x, y] + B;
      && p < |t0| && t0[p] == x
      && var t1 := Remove(t0, p);
      && p < |t1| && t1[p] == y
      && var t2 := Remove(t1, p);
      && Insert(Insert(t2, q, t0[p]), q + 1, t1[p]) == A + [x, y] + M + B
  {
    RemoveTwoAtSeam(A + M, x, y, B);
    AppendAssoc(A, M, B);
    InsertPair(A, M + B, x, y);
    AppendAssoc(A + [x, y], M, B);
  }

  /**
   * The first pass's moves for i < j: the pair x, y lying after A + N + M is
   * removed twice from position p, and x goes back before the two-element
   * N, y after it.
   */
  lemma MoveTwoAround<T>(A: seq<T>, N: seq<T>, M: seq<T>, x: T, y: T, B: seq<T>, q: int, p: int)
    requires |N| == 2 && q == |A| && p == |A| + |N| + |M|
    ensures var t0 := A + N + M + [x, y] + B;
      && p < |t0| && t0[p] == x
      && var t1 := Remove(t0, p);
      && p < |t1| && t1[p] == y
      && var t2 := Remove(t1, p);
      && Insert(Insert(t2, q, t0[p]), q + 3, t1[p]) == A + [x] + N + [y] + M + B
  {
    RemoveTwoAtSeam(A + N + M, x, y, B);
    AppendAssoc(A + N, M, B);
    InsertAround(A, N, M + B, x, y);
    AppendAssoc(A + [x] + N + [y], M, B);
  }

  lemma SurvivorsLower1<T>(s: seq<T>, i: int, j: int)
    requires 0 <= i && i + 4 <= j && j + 4 <= |s|
    ensures Survivors(s, Elems([i, i + 3, j + 1, j + 2])) ==
      s[..i] + s[i + 1..i + 3] + s[i + 4..j] + [s[j], s[j + 3]] + s[j + 4..]
  {
    assert Elems([i, i + 3, j + 1, j + 2]) == {i, i + 3, j + 1, j + 2};
    SurvivorsFour(s, i, i + 3, j + 1, j + 2);
    assert s[i + 4..j + 1] == s[i + 4..j] + [s[j]];
    assert s[j + 3..] == [s[j + 3]] + s[j + 4..];
  }

  lemma Relocate1Lower<T>(s: seq<T>, i: int, j: int)
    requires 0 <= i && i + 4 <= j && j + 4 <= |s|
    ensures var t0 := Survivors(s, Elems([i, i + 3, j + 1, j + 2]));
      && |t0| == |s| - 4
      && var t1 := Remove(t0, j - 2);
      && var t2 := Remove(t1, j - 2);
      && var t3 := Insert(t2, i, t0[j - 2]);
      Insert(t3, i + 3, t1[j - 2]) == s[..i] + [s[j], s[i + 1], s[i + 2], s[j + 3]] + s[i + 4..j] + s[j + 4..]
  {
    SurvivorsLower1(s, i, j);
    MoveTwoAround(s[..i], s[i + 1..i + 3], s[i + 4..j], s[j], s[j + 3], s[j + 4..], i, j - 2);
    assert s[i + 1..i + 3] == [s[i + 1], s[i + 2]];
    assert s[..i] + [s[j]] + [s[i + 1], s[i + 2]] + [s[j + 3]] == s[..i] + [s[j], s[i + 1], s[i + 2], s[j + 3]];
  }

  lemma SurvivorsUpper1<T>(s: seq<T>, i: int, j: int)
    requires 0 <= j && j + 4 <= i && i + 4 <= |s|
    ensures Survivors(s, Elems([i, i + 3, j + 1, j + 2])) ==
      s[..j + 1] + s[j + 3..i] + [s[i + 1], s[i + 2]] + s[i + 4..]
  {
    assert Elems([i, i + 3, j + 1, j + 2]) == {j + 1, j + 2, i, i + 3};
    SurvivorsFour(s, j + 1, j + 2, i, i + 3);
    assert s[j + 2..j + 2] == [];
    assert s[i + 1..i + 3] == [s[i + 1], s[i + 2]];
  }

  lemma Relocate1Upper<T>(s: seq<T>, i: int, j: int)
    requires 0 <= j && j + 4 <= i && i + 4 <= |s|
    ensures var t0 := Survivors(s, Elems([i, i + 3, j + 1, j + 2]));
      && |t0| == |s| - 4
      && var t1 := Remove(t0, i - 2);
      && var t2 := Remove(t1, i - 2);
      && var t3 := Insert(t2, j + 1, t0[i - 2]);
      Insert(t3, j + 2, t1[i - 2]) == s[..j] + [s[j], s[i + 1], s[i + 2], s[j + 3]] + s[j + 4..i] + s[i + 4..]
  {
    SurvivorsUpper1(s, i, j);
    MoveTwoDown(s[..j + 1], s[j + 3..i], s[i + 1], s[i + 2], s[i + 4..], j + 1, i - 2);
    assert s[..j + 1] == s[..j] + [s[j]];
    assert s[j + 3..i] == [s[j + 3]] + s[j + 4..i];
    assert s[..j + 1] + [s[i + 1], s[i + 2]] + s[j + 3..i] ==
      s[..j] + [s[j], s[i + 1], s[i + 2], s[j + 3]] + s[j + 4..i];
  }

  /** Removing the pairs at a and b, written out as the three stretches left. */
  lemma SurvivorsPairs<T>(s: seq<T>, a: int, b: int)
    requires 0 <= a && a + 2 <= b && b + 2 <= |s|
    ensures Survivors(s, {a, a + 1, b, b + 1}) == s[..a] + s[a + 2..b] + s[b + 2..]
  {
    SurvivorsFour(s, a, a + 1, b, b + 1);
    assert s[a + 1..a + 1] == [] && s[b + 1..b + 1] == [];
  }

  lemma SurvivorsLower2<T>(s: seq<T>, i: int, j: int)
    requires 0 <= i && i + 4 <= j && j + 4 <= |s|
    ensures Survivors(s, Elems([i + 2, i + 3, j, j + 1])) ==
      s[..i + 2] + s[i + 4..j] + [s[j + 2], s[j + 3]] + s[j + 4..]
  {
    assert Elems([i + 2, i + 3, j, j + 1]) == {i + 2, i + 3, j, j + 1};
    SurvivorsPairs(s, i + 2, j);
    assert s[j + 2..] == [s[j + 2], s[j + 3]] + s[j + 4..];
  }

  /**
   * Lines 401-405 (i < j) on `sorted_vertices`: pairs (i+2, i+3) and
   * (j, j+1) removed, the two entries now at j - 2 moved to i + 2.
   */
  lemma Relocate2Lower<T>(s: seq<T>, i: int, j: int)
    requires 0 <= i && i + 4 <= j && j + 4 <= |s|
    ensures var t0 := Survivors(s, Elems([i + 2, i + 3, j, j + 1]));
      && |t0| == |s| - 4
      && var t1 := Remove(t0, j + 2 - 4);
      && var t2 := Remove(t1, j + 2 - 4);
      && var t3 := Insert(t2, i + 2, t0[j + 2 - 4]);
      Insert(t3, i + 3, t1[j + 2 - 4]) == s[..i] + [s[i], s[i + 1], s[j + 2], s[j + 3]] + s[i + 4..j] + s[j + 4..]
  {
    SurvivorsLower2(s, i, j);
    MoveTwoDown(s[..i + 2], s[i + 4..j], s[j + 2], s[j + 3], s[j + 4..], i + 2, j + 2 - 4);
    assert s[..i + 2] == s[..i] + [s[i], s[i + 1]];
    assert s[..i + 2] + [s[j + 2], s[j + 3]] == s[..i] + [s[i], s[i + 1], s[j + 2], s[j + 3]];
  }

  lemma SurvivorsLower2Normals<T>(s: seq<T>, i: int, j: int)
    requires 0 <= i && i + 4 <= j && j + 4 <= |s|
    ensures Survivors(s, Elems([i + 2, i + 3, j + 2, j + 3])) ==
      s[..i + 2] + s[i + 4..j] + [s[j], s[j + 1]] + s[j + 4..]
  {
    assert Elems([i + 2, i + 3, j + 2, j + 3]) == {i + 2, i + 3, j + 2, j + 3};
    SurvivorsPairs(s, i + 2, j + 2);
    assert s[i + 4..j + 2] == s[i + 4..j] + [s[j], s[j + 1]];
  }

  /** Lines 407-411: the i < j branch on `sorted_normals`, which removes (j+2, j+3) instead of (j, j+1). */
  lemma Relocate2LowerNormals<T>(s: seq<T>, i: int, j: int)
    requires 0 <= i && i + 4 <= j && j + 4 <= |s|
    ensures var t0 := Survivors(s, Elems([i + 2, i + 3, j + 2, j + 3]));
      && |t0| == |s| - 4
      && var t1 := Remove(t0, j + 2 - 4);
      && var t2 := Remove(t1, j + 2 - 4);
      && var t3 := Insert(t2, i + 2, t0[j + 2 - 4]);
      Insert(t3, i + 3, t1[j + 2 - 4]) == s[..i] + [s[i], s[i + 1], s[j], s[j + 1]] + s[i + 4..j] + s[j + 4..]
  {
    SurvivorsLower2Normals(s, i, j);
    MoveTwoDown(s[..i + 2], s[i + 4..j], s[j], s[j + 1], s[j + 4..], i + 2, j + 2 - 4);
    assert s[..i + 2] == s[..i] + [s[i], s[i + 1]];
    assert s[..i + 2] + [s[j], s[j + 1]] == s[..i] + [s[i], s[i + 1], s[j], s[j + 1]];
  }

  lemma SurvivorsUpper2<T>(s: seq<T>, i: int, j: int)
    requires 0 <= j && j + 4 <= i && i + 4 <= |s|
    ensures Survivors(s, Elems([i + 2, i + 3, j, j + 1])) == s[..j] + s[j + 2..i] + [s[i], s[i + 1]] + s[i + 4..]
  {
    assert Elems([i + 2, i + 3, j, j + 1]) == {j, j + 1, i + 2, i + 3};
    SurvivorsPairs(s, j, i + 2);
    assert s[j + 2..i + 2] == s[j + 2..i] + [s[i], s[i + 1]];
  }

  /** Lines 418-428: the i > j branch, the same on both buffers. */
  lemma Relocate2Upper<T>(s: seq<T>, i: int, j: int)
    requires 0 <= j && j + 4 <= i && i + 4 <= |s|
    ensures var t0 := Survivors(s, Elems([i + 2, i + 3, j, j + 1]));
      && |t0| == |s| - 4
      && var t1 := Remove(t0, i - 2);
      && var t2 := Remove(t1, i - 2);
      && var t3 := Insert(t2, j, t0[i - 2]);
      Insert(t3, j + 1, t1[i - 2]) == s[..j] + [s[i], s[i + 1], s[j + 2], s[j + 3]] + s[j + 4..i] + s[i + 4..]
  {
    SurvivorsUpper2(s, i, j);
    MoveTwoDown(s[..j], s[j + 2..i], s[i], s[i + 1], s[i + 4..], j, i - 2);
    assert s[j + 2..i] == [s[j + 2], s[j + 3]] + s[j + 4..i];
    assert s[..j] + [s[i], s[i + 1]] + s[j + 2..i] == s[..j] + [s[i], s[i + 1], s[j + 2], s[j + 3]] + s[j + 4..i];
  }

  /**
   * Lines 401-405 and 418-422: the second pass's merge on `sorted_vertices`
   * of the quads at i and j into [s[i], s[i+1], s[j+2], s[j+3]].
   */
  method Relocate2Vertices<T>(s: seq<T>, i: int, j: int) returns (t: seq<T>)
    requires i != j && QuadStart(|s|, i) && QuadStart(|s|, j)
    ensures t == Merged(s, i, j, [s[i], s[i + 1], s[j + 2], s[j + 3]])
  {
    QuadGap(i, j);
    FourIndices(|s|, i + 2, i + 3, j, j + 1);
    t := RemoveMultiple(s, [i + 2, i + 3, j, j + 1]);
    if i < j {
      Relocate2Lower(s, i, j);
      var copy := t[j + 2 - 4];
      t := Remove(t, j + 2 - 4);
      var copy2 := t[j + 2 - 4];
      t := Remove(t, j + 2 - 4);
      t := Insert(t, i + 2, copy);
      t := Insert(t, i + 3, copy2);
    } else {
      Relocate2Upper(s, i, j);
      var copy := t[i - 2];
      t := Remove(t, i - 2);
      var copy2 := t[i - 2];
      t := Remove(t, i - 2);
      t := Insert(t, j, copy);
      t := Insert(t, j + 1, copy2);
    }
  }

  /**
   * Lines 407-411 and 424-428: the second pass's merge on `sorted_normals`.
   * For i < j it keeps s[j], s[j+1] of the second quad where the vertex
   * buffer keeps entries j+2, j+3; for i > j it does what the vertex
   * buffer does.
   */
  method Relocate2Normals<T>(s: seq<T>, i: int, j: int) returns (t: seq<T>)
    requires i != j && QuadStart(|s|, i) && QuadStart(|s|, j)
    ensures i < j ==> t == Merged(s, i, j, [s[i], s[i + 1], s[j], s[j + 1]])
    ensures j < i ==> t == Merged(s, i, j, [s[i], s[i + 1], s[j + 2], s[j + 3]])
  {
    QuadGap(i, j);
    if i < j {
      Relocate2LowerNormals(s, i, j);
      FourIndices(|s|, i + 2, i + 3, j + 2, j + 3);
      t := RemoveMultiple(s, [i + 2, i + 3, j + 2, j + 3]);
      var copy := t[j + 2 - 4];
      t := Remove(t, j + 2 - 4);
      var copy2 := t[j + 2 - 4];
      t := Remove(t, j + 2 - 4);
      t := Insert(t, i + 2, copy);
      t := Insert(t, i + 3, copy2);
      assert t == Merged(s, i, j, [s[i], s[i + 1], s[j], s[j + 1]]);
    } else {
      Relocate2Upper(s, i, j);
      FourIndices(|s|, i + 2, i + 3, j, j + 1);
      t := RemoveMultiple(s, [i + 2, i + 3, j, j + 1]);
      var copy := t[i - 2];
      t := Remove(t, i - 2);
      var copy2 := t[i - 2];
      t := Remove(t, i - 2);
      t := Insert(t, j, copy);
      t := Insert(t, j + 1, copy2);
      assert t == Merged(s, i, j, [s[i], s[i + 1], s[j + 2], s[j + 3]]);
    }
  }

  // ---------------------------------------------------------------------
  // What a merge does to the quads and to their normals.

  /**
   * Quad by quad, a merged buffer is the old one with q at the lower of the
   * two positions and the higher quad dropped: quads before the higher
   * position keep their index, quads after it move down by one.
   */
  lemma MergedQuads<T>(s: seq<T>, i: int, j: int, q: seq<T>)
    requires |q| == 4 && i != j && QuadStart(|s|, i) && QuadStart(|s|, j)
    ensures var r, lo, hi := Merged(s, i, j, q), (if i < j then i else j) / 4, (if i < j then j else i) / 4;
      && 4 * lo + 4 <= |r| && Quad(r, lo) == q
      && (forall k :: 0 <= k < hi && k != lo ==> Quad(r, k) == Quad(s, k))
      && (forall k :: hi <= k && 4 * k + 4 <= |r| ==> Quad(r, k) == Quad(s, k + 1))
  {
    QuadGap(i, j);
    var lo, hi := if i < j then i else j, if i < j then j else i;
    var a, b := lo / 4, hi / 4;
    assert lo == 4 * a && hi == 4 * b;
    assert Merged(s, i, j, q) == s[..4 * a] + q + s[4 * a + 4..4 * b] + s[4 * b + 4..];
    MergedQuadsBelow(s, a, b, q);
    MergedQuadsAbove(s, a, b, q);
  }

  /** Two buffers that agree on the four entries of quad k have the same quad k. */
  lemma SameQuad<T>(r: seq<T>, s: seq<T>, k: int)
    requires 0 <= k && 4 * k + 4 <= |r| && 4 * k + 4 <= |s|
    requires forall t :: 4 * k <= t < 4 * k + 4 ==> r[t] == s[t]
    ensures Quad(r, k) == Quad(s, k)
  {
    assert Quad(r, k) == [r[4 * k], r[4 * k + 1], r[4 * k + 2], r[4 * k + 3]];
    assert Quad(s, k) == [s[4 * k], s[4 * k + 1], s[4 * k + 2], s[4 * k + 3]];
  }

  /** The quads of s[..4a] + q + s[4a+4..4b] + s[4b+4..] up to quad b. */
  lemma MergedQuadsBelow<T>(s: seq<T>, a: int, b: int, q: seq<T>)
    requires |q| == 4 && 0 <= a < b && 4 * b + 4 <= |s|
    ensures var r := s[..4 * a] + q + s[4 * a + 4..4 * b] + s[4 * b + 4..];
      && Quad(r, a) == q
      && forall k :: 0 <= k < b && k != a ==> Quad(r, k) == Quad(s, k)
  {
    var front := s[..4 * a] + q + s[4 * a + 4..4 * b];
    var r := front + s[4 * b + 4..];
    assert |front| == 4 * b;
    assert r[4 * a..4 * a + 4] == q;
    forall t | 0 <= t < 4 * b && (t < 4 * a || 4 * a + 4 <= t)
      ensures r[t] == s[t]
    {
      assert r[t] == front[t];
    }
    forall k | 0 <= k < b && k != a
      ensures Quad(r, k) == Quad(s, k)
    {
      SameQuad(r, s, k);
    }
  }

  /** The quads of s[..4a] + q + s[4a+4..4b] + s[4b+4..] from quad b on. */
  lemma MergedQuadsAbove<T>(s: seq<T>, a: int, b: int, q: seq<T>)
    requires |q| == 4 && 0 <= a < b && 4 * b + 4 <= |s|
    ensures var r := s[..4 * a] + q + s[4 * a + 4..4 * b] + s[4 * b + 4..];
      forall k :: b <= k && 4 * k + 4 <= |r| ==> Quad(r, k) == Quad(s, k + 1)
  {
    var r := s[..4 * a] + q + s[4 * a + 4..4 * b] + s[4 * b + 4..];
    assert r[4 * b..] == s[4 * b + 4..];
    forall k | b <= k && 4 * k + 4 <= |r|
      ensures Quad(r, k) == Quad(s, k + 1)
    {
      var m := 4 * k;
      assert r[m..m + 4] == r[4 * b..][m - 4 * b..m - 4 * b + 4] == s[4 * b + 4..][m - 4 * b..m - 4 * b + 4];
    }
  }

  /** Merging in a quad of equal normals keeps every quad's normals equal. */
  lemma UniformMerged(n: seq<V3>, i: int, j: int, q: seq<V3>)
    requires |q| == 4 && i != j && QuadStart(|n|, i) && QuadStart(|n|, j)
    requires UniformQuads(n) && Uniform4(q)
    ensures UniformQuads(Merged(n, i, j, q))
  {
    MergedQuads(n, i, j, q);
    var r := Merged(n, i, j, q);
    forall k | 0 <= k < |r| / 4
      ensures Uniform4(Quad(r, k))
    {
      var lo, hi := (if i < j then i else j) / 4, (if i < j then j else i) / 4;
      if k != lo && k < hi {
        assert 4 * k + 4 <= |n|;
        assert Uniform4(Quad(n, k));
      } else if k != lo {
        assert 4 * k + 4 <= |r| && k + 1 < |n| / 4;
        assert Uniform4(Quad(n, k + 1));
      }
    }
  }

  // ---------------------------------------------------------------------
  // The two passes.

  /** The first pass (lines 313-375) and the second (lines 377-442). */
  datatype Pass = FirstPass | SecondPass

  /**
   * The edge test of a pass on the quads at i and j (lines 333 and 397),
   * read on the current buffers.  The test's leading `len > j + 2` always
   * holds for a whole quad at j.
   * First pass: A.c0 = B.c1, A.c3 = B.c2, and B.c2, A.c3 have A's and B's normals.
   * Second pass: A.c2 = B.c1, A.c3 = B.c0, and likewise for B.c3 and A.c2.
   */
  predicate Cond(p: Pass, v: seq<V3>, n: seq<V3>, i: int, j: int)
    requires |v| == |n| && QuadStart(|v|, i) && QuadStart(|v|, j)
  {
    match p
    case FirstPass => v[i] == v[j + 1] && v[i + 3] == v[j + 2] && n[j + 2] == n[i] && n[i + 3] == n[j + 1]
    case SecondPass => v[i + 2] == v[j + 1] && v[i + 3] == v[j] && n[j + 3] == n[i] && n[i + 2] == n[j + 1]
  }

  /** No two different quads pass the pass's test: the pass has nothing left to merge. */
  ghost predicate NoMerge(p: Pass, v: seq<V3>, n: seq<V3>)
    requires |v| == |n|
  {
    forall a, b :: QuadStart(|v|, a) && QuadStart(|v|, b) && a != b ==> !Cond(p, v, n, a, b)
  }

  /** Quad i fails the test against every other quad from position j on. */
  ghost predicate RowCleanFrom(p: Pass, v: seq<V3>, n: seq<V3>, i: int, j: int)
    requires |v| == |n| && QuadStart(|v|, i)
  {
    forall b :: QuadStart(|v|, b) && b != i && j <= b ==> !Cond(p, v, n, i, b)
  }

  /** Every quad from position i on fails the test against every other quad. */
  ghost predicate CleanFrom(p: Pass, v: seq<V3>, n: seq<V3>, i: int)
    requires |v| == |n|
  {
    forall a, b :: QuadStart(|v|, a) && QuadStart(|v|, b) && a != b && i <= a ==> !Cond(p, v, n, a, b)
  }

  /** A first-pass merge of quads whose test passed keeps the normals of every quad equal. */
  lemma FirstMergeUniform(n: seq<V3>, i: int, j: int)
    requires i != j && QuadStart(|n|, i) && QuadStart(|n|, j) && n[j + 2] == n[i]
    ensures UniformQuads(n) ==> UniformQuads(Merged(n, i, j, [n[j], n[i + 1], n[i + 2], n[j + 3]]))
  {
    if UniformQuads(n) {
      UniformAt(n, i);
      UniformAt(n, j);
      UniformMerged(n, i, j, [n[j], n[i + 1], n[i + 2], n[j + 3]]);
    }
  }

  /** The same for the second pass, whose two buffers differ when i < j. */
  lemma SecondMergeUniform(n: seq<V3>, i: int, j: int)
    requires i != j && QuadStart(|n|, i) && QuadStart(|n|, j) && n[j + 3] == n[i]
    ensures UniformQuads(n) && i < j ==> UniformQuads(Merged(n, i, j, [n[i], n[i + 1], n[j], n[j + 1]]))
    ensures UniformQuads(n) && j < i ==> UniformQuads(Merged(n, i, j, [n[i], n[i + 1], n[j + 2], n[j + 3]]))
  {
    if UniformQuads(n) {
      UniformAt(n, i);
      UniformAt(n, j);
      if i < j {
        UniformMerged(n, i, j, [n[i], n[i + 1], n[j], n[j + 1]]);
      } else {
        UniformMerged(n, i, j, [n[i], n[i + 1], n[j + 2], n[j + 3]]);
      }
    }
  }

  /** The pass's test, each half in the form the scan reads it. */
  predicate VertexTest(p: Pass, c: (V3, V3), v: seq<V3>, j: int)
    requires QuadStart(|v|, j)
  {
    match p
    case FirstPass => c.0 == v[j + 1] && c.1 == v[j + 2]
    case SecondPass => c.0 == v[j + 1] && c.1 == v[j]
  }

  predicate NormalTest(p: Pass, n: seq<V3>, i: int, j: int)
    requires QuadStart(|n|, i) && QuadStart(|n|, j)
  {
    match p
    case FirstPass => n[j + 2] == n[i] && n[i + 3] == n[j + 1]
    case SecondPass => n[j + 3] == n[i] && n[i + 2] == n[j + 1]
  }

  /** The two corners of quad i a scan copies out before its inner loop (lines 323-324, 387-388). */
  function ScanCorners(p: Pass, v: seq<V3>, i: int): (V3, V3)
    requires QuadStart(|v|, i)
  {
    match p
    case FirstPass => (v[i], v[i + 3])
    case SecondPass => (v[i + 2], v[i + 3])
  }

  /**
   * The quad a merge puts in place: [B.c0, A.c1, A.c2, B.c3] for the first
   * pass and [A.c0, A.c1, B.c2, B.c3] for the second, A at i and B at j.
   */
  function VertexQuad(p: Pass, v: seq<V3>, i: int, j: int): seq<V3>
    requires QuadStart(|v|, i) && QuadStart(|v|, j)
  {
    match p
    case FirstPass => [v[j], v[i + 1], v[i + 2], v[j + 3]]
    case SecondPass => [v[i], v[i + 1], v[j + 2], v[j + 3]]
  }

  /** The normals of the merged quad, which in the second pass come from other entries of B when i < j. */
  function NormalQuad(p: Pass, n: seq<V3>, i: int, j: int): seq<V3>
    requires QuadStart(|n|, i) && QuadStart(|n|, j)
  {
    match p
    case FirstPass => [n[j], n[i + 1], n[i + 2], n[j + 3]]
    case SecondPass => if i < j then [n[i], n[i + 1], n[j], n[j + 1]] else [n[i], n[i + 1], n[j + 2], n[j + 3]]
  }

  /** One merge on both buffers: lines 336-364 for the first pass, 400-428 for the second. */
  method MergeAt(p: Pass, v: seq<V3>, n: seq<V3>, i: int, j: int) returns (v': seq<V3>, n': seq<V3>)
    requires |v| == |n| && i != j && QuadStart(|v|, i) && QuadStart(|v|, j)
    ensures v' == Merged(v, i, j, VertexQuad(p, v, i, j))
    ensures n' == Merged(n, i, j, NormalQuad(p, n, i, j))
  {
    match p
    case FirstPass =>
      v' := Relocate1(v, i, j);
      n' := Relocate1(n, i, j);
    case SecondPass =>
      v' := Relocate2Vertices(v, i, j);
      n' := Relocate2Normals(n, i, j);
  }

  /** A merge of quads whose normals pass the test keeps the normals of every quad equal. */
  lemma MergeUniform(p: Pass, n: seq<V3>, i: int, j: int)
    requires i != j && QuadStart(|n|, i) && QuadStart(|n|, j) && NormalTest(p, n, i, j)
    ensures UniformQuads(n) ==> UniformQuads(Merged(n, i, j, NormalQuad(p, n, i, j)))
  {
    match p
    case FirstPass => FirstMergeUniform(n, i, j);
    case SecondPass => SecondMergeUniform(n, i, j);
  }

  /** The test of lines 329-335 and 393-399, split as the scan does it: the copied corners, then the normals. */
  lemma CondByTests(p: Pass, v: seq<V3>, n: seq<V3>, i: int, j: int, c: (V3, V3))
    requires |v| == |n| && QuadStart(|v|, i) && QuadStart(|v|, j) && c == ScanCorners(p, v, i)
    ensures Cond(p, v, n, i, j) <==> VertexTest(p, c, v, j) && NormalTest(p, n, i, j)
  {
  }

  // ---------------------------------------------------------------------
  // The merges a pass makes, replayed one by one.

  /** The two buffers a pass works on. */
  datatype Buffers = Buffers(v: seq<V3>, n: seq<V3>)

  /**
   * A scan merges quad j into quad i when both are quads of the buffers,
   * the corners c copied at the start of the row pass the vertex half of
   * the test against quad j, and the current normals pass the normal half.
   */
  predicate Mergeable(p: Pass, i: int, c: (V3, V3), b: Buffers, j: int) {
    |b.v| == |b.n| && i != j && QuadStart(|b.v|, i) && QuadStart(|b.v|, j)
      && VertexTest(p, c, b.v, j) && NormalTest(p, b.n, i, j)
  }

  /**
   * One merge as a scan makes it: quad j is merged into quad i when the
   * corners c copied at the start of the row pass the vertex half of the
   * test against quad j, and the current normals pass the normal half.
   * None when the scan would not merge the two.
   */
  function MergeStep(p: Pass, i: int, c: (V3, V3), b: Buffers, j: int): (r: Option<Buffers>)
    ensures r.Some? <==> Mergeable(p, i, c, b, j)
    ensures r.Some? ==> |r.value.v| == |b.v| - 4 && |r.value.n| == |b.n| - 4
  {
    if Mergeable(p, i, c, b, j)
    then Some(Buffers(Merged(b.v, i, j, VertexQuad(p, b.v, i, j)), Merged(b.n, i, j, NormalQuad(p, b.n, i, j))))
    else None
  }

  /** The merges of one row, quad i with the quads js in turn; None when one of them is not a scan's merge. */
  function RowReplay(p: Pass, i: int, c: (V3, V3), b: Buffers, js: seq<int>): Option<Buffers>
    decreases |js|
  {
    if |js| == 0 then Some(b)
    else match RowReplay(p, i, c, b, js[..|js| - 1])
      case None => None
      case Some(b') => MergeStep(p, i, c, b', js[|js| - 1])
  }

  /** A row of a scan that merged: quad i and the quads merged into it, in order. */
  datatype Row = Row(i: int, js: seq<int>)

  /** The merges of one scan, row after row; each row copies the corners of its quad i when it starts. */
  function RoundReplay(p: Pass, b: Buffers, rows: seq<Row>): Option<Buffers>
    decreases |rows|
  {
    if |rows| == 0 then Some(b)
    else match RoundReplay(p, b, rows[..|rows| - 1])
      case None => None
      case Some(b') =>
        var r := rows[|rows| - 1];
        if QuadStart(|b'.v|, r.i) then RowReplay(p, r.i, ScanCorners(p, b'.v, r.i), b', r.js) else None
  }

  /** The merges of several scans, one after the other. */
  function PassReplay(p: Pass, b: Buffers, rounds: seq<seq<Row>>): Option<Buffers>
    decreases |rounds|
  {
    if |rounds| == 0 then Some(b)
    else match PassReplay(p, b, rounds[..|rounds| - 1])
      case None => None
      case Some(b') => RoundReplay(p, b', rounds[|rounds| - 1])
  }

  /** v, n are what scans of pass p leave of v0, n0 after merges each of which passed the test. */
  ghost predicate Reaches(p: Pass, v0: seq<V3>, n0: seq<V3>, v: seq<V3>, n: seq<V3>) {
    exists rounds :: PassReplay(p, Buffers(v0, n0), rounds) == Some(Buffers(v, n))
  }

  /** A merge whose test passes is a step of the replay. */
  lemma MergeStepTaken(p: Pass, i: int, c: (V3, V3), v: seq<V3>, n: seq<V3>, j: int)
    requires |v| == |n| && i != j && QuadStart(|v|, i) && QuadStart(|v|, j)
    requires VertexTest(p, c, v, j) && NormalTest(p, n, i, j)
    ensures MergeStep(p, i, c, Buffers(v, n), j)
      == Some(Buffers(Merged(v, i, j, VertexQuad(p, v, i, j)), Merged(n, i, j, NormalQuad(p, n, i, j))))
  {
  }

  /** One more merge at the end of a row. */
  lemma RowSnoc(p: Pass, i: int, c: (V3, V3), b: Buffers, js: seq<int>, b1: Buffers, j: int, b2: Buffers)
    requires RowReplay(p, i, c, b, js) == Some(b1) && MergeStep(p, i, c, b1, j) == Some(b2)
    ensures RowReplay(p, i, c, b, js + [j]) == Some(b2)
  {
    assert (js + [j])[..|js|] == js;
  }

  /** One more row at the end of a scan. */
  lemma RoundSnoc(p: Pass, b: Buffers, rows: seq<Row>, b1: Buffers, r: Row, b2: Buffers)
    requires RoundReplay(p, b, rows) == Some(b1) && QuadStart(|b1.v|, r.i)
    requires RowReplay(p, r.i, ScanCorners(p, b1.v, r.i), b1, r.js) == Some(b2)
    ensures RoundReplay(p, b, rows + [r]) == Some(b2)
  {
    assert (rows + [r])[..|rows|] == rows;
  }

  /** One more scan at the end of a pass. */
  lemma PassSnoc(p: Pass, b: Buffers, rounds: seq<seq<Row>>, b1: Buffers, rows: seq<Row>, b2: Buffers)
    requires PassReplay(p, b, rounds) == Some(b1) && RoundReplay(p, b1, rows) == Some(b2)
    ensures PassReplay(p, b, rounds + [rows]) == Some(b2)
  {
    assert (rounds + [rows])[..|rounds|] == rounds;
  }

  /** The pass that merges nothing reaches the buffers it starts from. */
  lemma ReachesItself(p: Pass, v: seq<V3>, n: seq<V3>)
    ensures Reaches(p, v, n, v, n)
  {
    assert PassReplay(p, Buffers(v, n), []) == Some(Buffers(v, n));
  }

  /**
   * On buffers with nothing to merge, a row's first step already fails the
   * test, so a row that replays merges nothing.
   */
  lemma {:induction false} RowFromClean(p: Pass, b: Buffers, i: int, js: seq<int>)
    requires |b.v| == |b.n| && QuadStart(|b.v|, i) && NoMerge(p, b.v, b.n)
    ensures RowReplay(p, i, ScanCorners(p, b.v, i), b, js).Some? ==> js == []
  {
    var c := ScanCorners(p, b.v, i);
    if |js| > 0 && RowReplay(p, i, c, b, js).Some? {
      var front := js[..|js| - 1];
      RowFromClean(p, b, i, front);
      assert RowReplay(p, i, c, b, front) == Some(b);
      var j := js[|js| - 1];
      assert MergeStep(p, i, c, b, j).Some?;
      CondByTests(p, b.v, b.n, i, j, c);
      assert false;
    }
  }

  /** A scan of buffers with nothing to merge leaves them as they are. */
  lemma {:induction false} RoundFromClean(p: Pass, b: Buffers, rows: seq<Row>)
    requires |b.v| == |b.n| && NoMerge(p, b.v, b.n)
    ensures RoundReplay(p, b, rows).Some? ==> RoundReplay(p, b, rows) == Some(b)
  {
    if |rows| > 0 && RoundReplay(p, b, rows).Some? {
      RoundFromClean(p, b, rows[..|rows| - 1]);
      var r := rows[|rows| - 1];
      RowFromClean(p, b, r.i, r.js);
    }
  }

  /**
   * Buffers with nothing to merge are a fixed point of the pass: every
   * sequence of scans that replays leaves them unchanged.
   */
  lemma {:induction false} ReachesFromClean(p: Pass, v0: seq<V3>, n0: seq<V3>, v: seq<V3>, n: seq<V3>)
    requires |v0| == |n0| && NoMerge(p, v0, n0) && Reaches(p, v0, n0, v, n)
    ensures v == v0 && n == n0
  {
    var rounds :| PassReplay(p, Buffers(v0, n0), rounds) == Some(Buffers(v, n));
    PassFromClean(p, Buffers(v0, n0), rounds);
  }

  lemma {:induction false} PassFromClean(p: Pass, b: Buffers, rounds: seq<seq<Row>>)
    requires |b.v| == |b.n| && NoMerge(p, b.v, b.n)
    ensures PassReplay(p, b, rounds).Some? ==> PassReplay(p, b, rounds) == Some(b)
  {
    if |rounds| > 0 && PassReplay(p, b, rounds).Some? {
      PassFromClean(p, b, rounds[..|rounds| - 1]);
      RoundFromClean(p, b, rounds[|rounds| - 1]);
    }
  }

  // ---------------------------------------------------------------------
  // Where a scan stops: the read of `sorted_normals[i]` past the end.

  /**
   * The read past the end (lines 333 and 397): at the start j of a quad of
   * the current buffers, the corners c copied for quad i pass the vertex
   * half of the test, but merges have shrunk the buffers so that quad i is
   * no longer in them, and the normal half reads `sorted_normals[i]`.
   */
  predicate PanicStep(p: Pass, i: int, c: (V3, V3), v: seq<V3>, n: seq<V3>, j: int) {
    i != j && QuadStart(|v|, j) && VertexTest(p, c, v, j) && i >= |n|
  }

  /** The row of quad i, with the corners c, reaches a read past the end on buffers b. */
  ghost predicate RowPanics(p: Pass, i: int, c: (V3, V3), b: Buffers) {
    exists j :: PanicStep(p, i, c, b.v, b.n, j)
  }

  /**
   * The last row of a scan stops at a read past the end: the rows before it
   * replay, and so do its own merges, from the buffers it starts on.
   */
  ghost predicate RoundPanics(p: Pass, b: Buffers, rows: seq<Row>) {
    && |rows| > 0
    && match RoundReplay(p, b, rows[..|rows| - 1])
      case None => false
      case Some(b') =>
        var r := rows[|rows| - 1];
        && QuadStart(|b'.v|, r.i)
        && match RowReplay(p, r.i, ScanCorners(p, b'.v, r.i), b', r.js)
          case None => false
          case Some(b'') => RowPanics(p, r.i, ScanCorners(p, b'.v, r.i), b'')
  }

  /** The last scan of a pass stops at a read past the end, after the scans before it replay. */
  ghost predicate PassPanics(p: Pass, b: Buffers, rounds: seq<seq<Row>>) {
    && |rounds| > 0
    && match PassReplay(p, b, rounds[..|rounds| - 1])
      case None => false
      case Some(b') => RoundPanics(p, b', rounds[|rounds| - 1])
  }

  /** Scans of pass p merge v0, n0 into v, n and then stop at a read past the end. */
  ghost predicate ReachesPanic(p: Pass, v0: seq<V3>, n0: seq<V3>, v: seq<V3>, n: seq<V3>) {
    exists rounds :: PassReplay(p, Buffers(v0, n0), rounds) == Some(Buffers(v, n)) && PassPanics(p, Buffers(v0, n0), rounds)
  }

  /** A row that stops at a read past the end is the last row of its scan. */
  lemma RoundPanicSnoc(p: Pass, b: Buffers, rows: seq<Row>, b1: Buffers, r: Row, b2: Buffers)
    requires RoundReplay(p, b, rows) == Some(b1) && QuadStart(|b1.v|, r.i)
    requires RowReplay(p, r.i, ScanCorners(p, b1.v, r.i), b1, r.js) == Some(b2)
    requires RowPanics(p, r.i, ScanCorners(p, b1.v, r.i), b2)
    ensures RoundPanics(p, b, rows + [r])
  {
    assert (rows + [r])[..|rows|] == rows;
  }

  /** A scan that stops at a read past the end is the last scan of its pass. */
  lemma PassPanicSnoc(p: Pass, b: Buffers, rounds: seq<seq<Row>>, b1: Buffers, rows: seq<Row>)
    requires PassReplay(p, b, rounds) == Some(b1) && RoundPanics(p, b1, rows)
    ensures PassPanics(p, b, rounds + [rows])
  {
    assert (rounds + [rows])[..|rounds|] == rounds;
  }

  /** Merges only shrink the buffers, and keep one normal per vertex. */
  lemma {:induction false} RowShrinks(p: Pass, i: int, c: (V3, V3), b: Buffers, js: seq<int>)
    requires |b.v| == |b.n|
    ensures RowReplay(p, i, c, b, js).Some? ==>
      var b' := RowReplay(p, i, c, b, js).value; |b'.v| == |b'.n| && |b'.v| + 4 * |js| == |b.v|
  {
    if |js| > 0 && RowReplay(p, i, c, b, js).Some? {
      RowShrinks(p, i, c, b, js[..|js| - 1]);
      var b' := RowReplay(p, i, c, b, js[..|js| - 1]).value;
      var j := js[|js| - 1];
      assert MergeStep(p, i, c, b', j).Some?;
    }
  }

  lemma {:induction false} RoundShrinks(p: Pass, b: Buffers, rows: seq<Row>)
    requires |b.v| == |b.n|
    ensures RoundReplay(p, b, rows).Some? ==>
      var b' := RoundReplay(p, b, rows).value; |b'.v| == |b'.n| && |b'.v| <= |b.v|
  {
    if |rows| > 0 && RoundReplay(p, b, rows).Some? {
      RoundShrinks(p, b, rows[..|rows| - 1]);
      var b' := RoundReplay(p, b, rows[..|rows| - 1]).value;
      var r := rows[|rows| - 1];
      RowShrinks(p, r.i, ScanCorners(p, b'.v, r.i), b', r.js);
    }
  }

  lemma {:induction false} PassShrinks(p: Pass, b: Buffers, rounds: seq<seq<Row>>)
    requires |b.v| == |b.n|
    ensures PassReplay(p, b, rounds).Some? ==>
      var b' := PassReplay(p, b, rounds).value; |b'.v| == |b'.n| && |b'.v| <= |b.v|
  {
    if |rounds| > 0 && PassReplay(p, b, rounds).Some? {
      PassShrinks(p, b, rounds[..|rounds| - 1]);
      RoundShrinks(p, PassReplay(p, b, rounds[..|rounds| - 1]).value, rounds[|rounds| - 1]);
    }
  }

  /**
   * A scan can only read past the end after a merge has shrunk the buffers:
   * quad i was in them when its row started.  In particular buffers with
   * nothing to merge never stop a pass early.
   */
  lemma PanicNeedsMerge(p: Pass, v0: seq<V3>, n0: seq<V3>, v: seq<V3>, n: seq<V3>)
    requires |v0| == |n0| && ReachesPanic(p, v0, n0, v, n)
    ensures |v| < |v0|
  {
    var b0 := Buffers(v0, n0);
    var rounds: seq<seq<Row>> :| PassReplay(p, b0, rounds) == Some(Buffers(v, n)) && PassPanics(p, b0, rounds);
    var front := rounds[..|rounds| - 1];
    PassShrinks(p, b0, front);
    var b1 := PassReplay(p, b0, front).value;
    var rows := rounds[|rounds| - 1];
    var head := rows[..|rows| - 1];
    RoundShrinks(p, b1, head);
    var b2 := RoundReplay(p, b1, head).value;
    var r: Row := rows[|rows| - 1];
    var c := ScanCorners(p, b2.v, r.i);
    RowShrinks(p, r.i, c, b2, r.js);
    var b3 := RowReplay(p, r.i, c, b2, r.js).value;
    assert RoundReplay(p, b1, rows) == Some(b3);
    assert b3 == Buffers(v, n);
    var j :| PanicStep(p, r.i, c, b3.v, b3.n, j);
  }

  // ---------------------------------------------------------------------
  // The scans as the loops run them.

  /** What a scan leaves: the buffers, the merges counted, and false where it stopped at the read past the end. */
  datatype Scanned = Scanned(b: Buffers, merges: nat, ok: bool)

  /**
   * The inner loop of a row (lines 326-371, 390-438) from position j on,
   * with m merges counted so far: at each position the scan stops at a read
   * past the end, or merges quad j into quad i when the test passes, and
   * moves on to j + 1 either way.
   */
  function RowScan(p: Pass, i: int, c: (V3, V3), b: Buffers, m: nat, j: nat): (r: Scanned)
    requires |b.v| == |b.n|
    ensures |r.b.v| == |r.b.n| && |r.b.v| + 4 * r.merges == |b.v| + 4 * m && m <= r.merges
    decreases |b.v| - j, 1
  {
    if j >= |b.v| then Scanned(b, m, true) else RowScanAt(p, i, c, b, m, j)
  }

  /** RowScan at a position j inside the buffers. */
  function RowScanAt(p: Pass, i: int, c: (V3, V3), b: Buffers, m: nat, j: nat): (r: Scanned)
    requires |b.v| == |b.n| && j < |b.v|
    ensures |r.b.v| == |r.b.n| && |r.b.v| + 4 * r.merges == |b.v| + 4 * m && m <= r.merges
    decreases |b.v| - j, 0
  {
    if PanicStep(p, i, c, b.v, b.n, j) then Scanned(b, m, false)
    else match MergeStep(p, i, c, b, j)
      case Some(b') => RowScan(p, i, c, b', m + 1, j + 1)
      case None => RowScan(p, i, c, b, m, j + 1)
  }

  /** One position of RowScan, unfolded in terms of what ScanPair returns there. */
  lemma RowScanStep(p: Pass, i: int, c: (V3, V3), b: Buffers, m: nat, j: nat, b': Buffers, m': nat, ok: bool)
    requires |b.v| == |b.n| && j < |b.v|
    requires !ok <==> PanicStep(p, i, c, b.v, b.n, j)
    requires m' == m + 1 <==> MergeStep(p, i, c, b, j).Some?
    requires m' == m + 1 ==> MergeStep(p, i, c, b, j) == Some(b')
    requires m' == m || m' == m + 1
    requires m' == m ==> b' == b
    ensures !ok ==> RowScan(p, i, c, b, m, j) == Scanned(b', m', false)
    ensures ok ==> RowScan(p, i, c, b, m, j) == RowScan(p, i, c, b', m', j + 1)
  {
  }

  /** Taking whole quads off a buffer whose length is a multiple of 4 leaves a multiple of 4. */
  lemma ShrinkByQuads(len: int, len': int, k: int)
    requires len % 4 == 0 && len' + 4 * k == len
    ensures len' % 4 == 0
  {
    assert len' == 4 * (len / 4 - k);
  }

  /**
   * One scan (lines 318-374, 382-438) from quad position i on, with g merges
   * counted so far: each row copies the corners of its quad, runs the inner
   * loop from j = 0, and the scan stops with the row that reads past the end.
   */
  function RoundScan(p: Pass, b: Buffers, g: nat, i: nat): (r: Scanned)
    requires |b.v| == |b.n| && |b.v| % 4 == 0
    ensures |r.b.v| == |r.b.n| && |r.b.v| % 4 == 0 && |r.b.v| + 4 * r.merges == |b.v| + 4 * g && g <= r.merges
    decreases |b.v| - i, 1
  {
    if i >= |b.v| then Scanned(b, g, true)
    else if i % 4 != 0 then RoundScan(p, b, g, i + 1)
    else RoundScanAt(p, b, g, i)
  }

  /** RoundScan at the start i of a quad: the row of quad i, then the rest of the scan unless the row stopped it. */
  function RoundScanAt(p: Pass, b: Buffers, g: nat, i: nat): (r: Scanned)
    requires |b.v| == |b.n| && |b.v| % 4 == 0 && i < |b.v| && i % 4 == 0
    ensures |r.b.v| == |r.b.n| && |r.b.v| % 4 == 0 && |r.b.v| + 4 * r.merges == |b.v| + 4 * g && g <= r.merges
    decreases |b.v| - i, 0
  {
    QuadFits(|b.v|, i);
    var row := RowScan(p, i, ScanCorners(p, b.v, i), b, 0, 0);
    ShrinkByQuads(|b.v|, |row.b.v|, row.merges);
    if !row.ok then Scanned(row.b, g + row.merges, false)
    else RoundScan(p, row.b, g + row.merges, i + 1)
  }

  /** One row of RoundScan, unfolded: the row's scan, then the rest of the scan unless the row stopped it. */
  lemma RoundScanRow(p: Pass, b: Buffers, g: nat, i: nat, c: (V3, V3), b': Buffers, m: nat, ok: bool, g': nat)
    requires |b.v| == |b.n| && |b.v| % 4 == 0 && QuadStart(|b.v|, i) && c == ScanCorners(p, b.v, i)
    requires |b'.v| == |b'.n| && |b'.v| % 4 == 0
    requires Scanned(b', m, ok) == RowScan(p, i, c, b, 0, 0) && g' == g + m
    ensures !ok ==> RoundScan(p, b, g, i) == Scanned(b', g', false)
    ensures ok ==> RoundScan(p, b, g, i) == RoundScan(p, b', g', i + 1)
  {
  }

  /**
   * After the row of quad i: the scan's replay grows by that row, ends in a
   * panic when the row does, and RoundScan moves past the row.
   */
  lemma RoundRowDone(p: Pass, b0: Buffers, rows: seq<Row>, b: Buffers, g: nat, i: nat, c: (V3, V3),
      js: seq<int>, rows': seq<Row>, b': Buffers, m: nat, ok: bool, g': nat)
    requires |b.v| == |b.n| && |b.v| % 4 == 0 && QuadStart(|b.v|, i) && c == ScanCorners(p, b.v, i)
    requires RoundReplay(p, b0, rows) == Some(b) && RowReplay(p, i, c, b, js) == Some(b')
    requires !ok ==> RowPanics(p, i, c, b')
    requires |b'.v| == |b'.n| && |b'.v| % 4 == 0
    requires Scanned(b', m, ok) == RowScan(p, i, c, b, 0, 0) && g' == g + m && rows' == rows + [Row(i, js)]
    ensures RoundReplay(p, b0, rows') == Some(b')
    ensures !ok ==> RoundPanics(p, b0, rows')
    ensures !ok ==> RoundScan(p, b, g, i) == Scanned(b', g', false)
    ensures ok ==> RoundScan(p, b, g, i) == RoundScan(p, b', g', i + 1)
  {
    RoundSnoc(p, b0, rows, b, Row(i, js), b');
    if !ok {
      RoundPanicSnoc(p, b0, rows, b, Row(i, js), b');
    }
    RoundScanRow(p, b, g, i, c, b', m, ok, g');
  }

  /** RoundScan skips positions that do not start a quad, and ends at the end of the buffers. */
  lemma RoundScanMove(p: Pass, b: Buffers, g: nat, i: nat)
    requires |b.v| == |b.n| && |b.v| % 4 == 0
    ensures i >= |b.v| ==> RoundScan(p, b, g, i) == Scanned(b, g, true)
    ensures i < |b.v| && i % 4 != 0 ==> RoundScan(p, b, g, i) == RoundScan(p, b, g, i + 1)
  {
  }

  /** The positions RowScan merges into quad i, in the order it merges them, after those in js. */
  ghost function RowMerges(p: Pass, i: int, c: (V3, V3), b: Buffers, js: seq<int>, j: nat): seq<int>
    requires |b.v| == |b.n|
    decreases |b.v| - j
  {
    if j >= |b.v| || PanicStep(p, i, c, b.v, b.n, j) then js
    else match MergeStep(p, i, c, b, j)
      case Some(b') => RowMerges(p, i, c, b', js + [j], j + 1)
      case None => RowMerges(p, i, c, b, js, j + 1)
  }

  /** RowScan counts one merge per position RowMerges records. */
  lemma {:induction false} RowScanCounts(p: Pass, i: int, c: (V3, V3), js: seq<int>, b: Buffers, m: nat, j: nat)
    requires |b.v| == |b.n|
    ensures |RowMerges(p, i, c, b, js, j)| + m == |js| + RowScan(p, i, c, b, m, j).merges
    decreases |b.v| - j, 1
  {
    if j < |b.v| && !PanicStep(p, i, c, b.v, b.n, j) {
      var step := MergeStep(p, i, c, b, j);
      if step.Some? {
        RowScanCountsMerge(p, i, c, js, b, m, j, step.value);
      } else {
        RowScanCounts(p, i, c, js, b, m, j + 1);
      }
    }
  }

  /** The case of RowScanCounts where position j merges. */
  lemma {:induction false} RowScanCountsMerge(p: Pass, i: int, c: (V3, V3), js: seq<int>, b: Buffers, m: nat, j: nat, b': Buffers)
    requires |b.v| == |b.n|
    requires j < |b.v| && !PanicStep(p, i, c, b.v, b.n, j) && MergeStep(p, i, c, b, j) == Some(b')
    ensures |RowMerges(p, i, c, b, js, j)| + m == |js| + RowScan(p, i, c, b, m, j).merges
    decreases |b.v| - j, 0
  {
    RowScanCounts(p, i, c, js + [j], b', m + 1, j + 1);
  }

  /** RowScan performs exactly the merges RowMerges records. */
  lemma {:induction false} RowScanReplays(p: Pass, i: int, c: (V3, V3), b0: Buffers, js: seq<int>, b: Buffers, m: nat, j: nat)
    requires |b.v| == |b.n| && RowReplay(p, i, c, b0, js) == Some(b)
    ensures RowReplay(p, i, c, b0, RowMerges(p, i, c, b, js, j)) == Some(RowScan(p, i, c, b, m, j).b)
    decreases |b.v| - j, 1
  {
    if j < |b.v| && !PanicStep(p, i, c, b.v, b.n, j) {
      var step := MergeStep(p, i, c, b, j);
      if step.Some? {
        RowScanReplaysMerge(p, i, c, b0, js, b, m, j, step.value);
      } else {
        RowScanReplaysSkip(p, i, c, b0, js, b, m, j);
      }
    }
  }

  /** The case of RowScanReplays where position j does not merge. */
  lemma {:induction false} RowScanReplaysSkip(p: Pass, i: int, c: (V3, V3), b0: Buffers, js: seq<int>, b: Buffers, m: nat, j: nat)
    requires |b.v| == |b.n| && RowReplay(p, i, c, b0, js) == Some(b)
    requires j < |b.v| && !PanicStep(p, i, c, b.v, b.n, j) && MergeStep(p, i, c, b, j).None?
    ensures RowReplay(p, i, c, b0, RowMerges(p, i, c, b, js, j)) == Some(RowScan(p, i, c, b, m, j).b)
    decreases |b.v| - j, 0
  {
    RowScanReplays(p, i, c, b0, js, b, m, j + 1);
  }

  /** The case of RowScanReplays where position j merges. */
  lemma {:induction false} RowScanReplaysMerge(p: Pass, i: int, c: (V3, V3), b0: Buffers, js: seq<int>, b: Buffers, m: nat, j: nat, b': Buffers)
    requires |b.v| == |b.n| && RowReplay(p, i, c, b0, js) == Some(b)
    requires j < |b.v| && !PanicStep(p, i, c, b.v, b.n, j) && MergeStep(p, i, c, b, j) == Some(b')
    ensures RowReplay(p, i, c, b0, RowMerges(p, i, c, b, js, j)) == Some(RowScan(p, i, c, b, m, j).b)
    decreases |b.v| - j, 0
  {
    RowSnoc(p, i, c, b0, js, b, j, b');
    RowScanReplays(p, i, c, b0, js + [j], b', m + 1, j + 1);
  }

  /** RowScan stops early only at a read past the end, with quad i gone from the buffers. */
  lemma {:induction false} RowScanPanics(p: Pass, i: int, c: (V3, V3), b: Buffers, m: nat, j: nat)
    requires |b.v| == |b.n|
    ensures !RowScan(p, i, c, b, m, j).ok ==>
      i >= |RowScan(p, i, c, b, m, j).b.v| && RowPanics(p, i, c, RowScan(p, i, c, b, m, j).b)
    decreases |b.v| - j, 1
  {
    if j < |b.v| && !PanicStep(p, i, c, b.v, b.n, j) {
      var step := MergeStep(p, i, c, b, j);
      if step.Some? {
        RowScanPanicsMerge(p, i, c, b, m, j, step.value);
      } else {
        RowScanPanics(p, i, c, b, m, j + 1);
      }
    }
  }

  /** The case of RowScanPanics where position j merges. */
  lemma {:induction false} RowScanPanicsMerge(p: Pass, i: int, c: (V3, V3), b: Buffers, m: nat, j: nat, b': Buffers)
    requires |b.v| == |b.n|
    requires j < |b.v| && !PanicStep(p, i, c, b.v, b.n, j) && MergeStep(p, i, c, b, j) == Some(b')
    ensures !RowScan(p, i, c, b, m, j).ok ==>
      i >= |RowScan(p, i, c, b, m, j).b.v| && RowPanics(p, i, c, RowScan(p, i, c, b, m, j).b)
    decreases |b.v| - j, 0
  {
    RowScanPanics(p, i, c, b', m + 1, j + 1);
  }

  /** A row of a quad still in the buffers that merges nothing leaves them as they were. */
  lemma {:induction false} RowScanUnmerged(p: Pass, i: int, c: (V3, V3), b: Buffers, m: nat, j: nat)
    requires |b.v| == |b.n| && QuadStart(|b.v|, i)
    ensures RowScan(p, i, c, b, m, j).merges == m ==> RowScan(p, i, c, b, m, j) == Scanned(b, m, true)
    decreases |b.v| - j
  {
    if j < |b.v| {
      assert !PanicStep(p, i, c, b.v, b.n, j);
      if MergeStep(p, i, c, b, j).None? {
        RowScanUnmerged(p, i, c, b, m, j + 1);
      }
    }
  }

  /** On the buffers a row starts from, a step merges exactly when the pair passes the test. */
  lemma MergeStepCond(p: Pass, v0: seq<V3>, n0: seq<V3>, i: int, c: (V3, V3), j: int)
    requires |v0| == |n0| && QuadStart(|v0|, i) && c == ScanCorners(p, v0, i)
    ensures MergeStep(p, i, c, Buffers(v0, n0), j).Some? <==> QuadStart(|v0|, j) && j != i && Cond(p, v0, n0, i, j)
  {
    if QuadStart(|v0|, j) {
      CondByTests(p, v0, n0, i, j, c);
    }
  }

  /** On the buffers the row starts from, it merges exactly when quad i passes the test against a later quad. */
  lemma {:induction false} RowScanClean(p: Pass, v0: seq<V3>, n0: seq<V3>, i: int, c: (V3, V3), m: nat, j: nat)
    requires |v0| == |n0| && QuadStart(|v0|, i) && c == ScanCorners(p, v0, i)
    ensures RowScan(p, i, c, Buffers(v0, n0), m, j).merges == m <==> RowCleanFrom(p, v0, n0, i, j)
    decreases |v0| - j
  {
    var b := Buffers(v0, n0);
    if j < |v0| {
      assert !PanicStep(p, i, c, v0, n0, j);
      MergeStepCond(p, v0, n0, i, c, j);
      if MergeStep(p, i, c, b, j).Some? {
        assert Cond(p, v0, n0, i, j);
      } else {
        RowScanClean(p, v0, n0, i, c, m, j + 1);
        assert RowCleanFrom(p, v0, n0, i, j) <==>
          RowCleanFrom(p, v0, n0, i, j + 1) && (QuadStart(|v0|, j) && j != i ==> !Cond(p, v0, n0, i, j));
      }
    }
  }

  /** RowScan keeps the normals of every quad equal. */
  lemma {:induction false} RowScanUniform(p: Pass, i: int, c: (V3, V3), b: Buffers, m: nat, j: nat)
    requires |b.v| == |b.n|
    ensures UniformQuads(b.n) ==> UniformQuads(RowScan(p, i, c, b, m, j).b.n)
    decreases |b.v| - j
  {
    if j < |b.v| && !PanicStep(p, i, c, b.v, b.n, j) {
      match MergeStep(p, i, c, b, j)
      case Some(b') =>
        MergeUniform(p, b.n, i, j);
        RowScanUniform(p, i, c, b', m + 1, j + 1);
      case None =>
        RowScanUniform(p, i, c, b, m, j + 1);
    }
  }

  /** On the buffers it starts from, a scan from quad i on merges exactly when some quad from i on passes the test. */
  lemma {:induction false} RoundScanClean(p: Pass, v0: seq<V3>, n0: seq<V3>, g: nat, i: nat)
    requires |v0| == |n0| && |v0| % 4 == 0
    ensures RoundScan(p, Buffers(v0, n0), g, i).merges == g <==> CleanFrom(p, v0, n0, i)
    decreases |v0| - i, 1
  {
    if i < |v0| {
      if i % 4 != 0 {
        RoundScanClean(p, v0, n0, g, i + 1);
        assert CleanFrom(p, v0, n0, i) <==> CleanFrom(p, v0, n0, i + 1);
      } else {
        RoundScanCleanRow(p, v0, n0, g, i);
      }
    }
  }

  /** The case of RoundScanClean where the row of quad i runs. */
  lemma {:induction false} RoundScanCleanRow(p: Pass, v0: seq<V3>, n0: seq<V3>, g: nat, i: nat)
    requires |v0| == |n0| && |v0| % 4 == 0 && i < |v0| && i % 4 == 0
    ensures RoundScan(p, Buffers(v0, n0), g, i).merges == g <==> CleanFrom(p, v0, n0, i)
    decreases |v0| - i, 0
  {
    QuadFits(|v0|, i);
    var c := ScanCorners(p, v0, i);
    RowScanClean(p, v0, n0, i, c, 0, 0);
    RowScanUnmerged(p, i, c, Buffers(v0, n0), 0, 0);
    if RowScan(p, i, c, Buffers(v0, n0), 0, 0).merges == 0 {
      RoundScanClean(p, v0, n0, g, i + 1);
      assert CleanFrom(p, v0, n0, i) <==> RowCleanFrom(p, v0, n0, i, 0) && CleanFrom(p, v0, n0, i + 1);
    } else {
      assert !RowCleanFrom(p, v0, n0, i, 0);
    }
  }

  /** A scan that merges nothing leaves the buffers as they were. */
  lemma {:induction false} RoundScanUnmerged(p: Pass, b: Buffers, g: nat, i: nat)
    requires |b.v| == |b.n| && |b.v| % 4 == 0
    ensures RoundScan(p, b, g, i).merges == g ==> RoundScan(p, b, g, i) == Scanned(b, g, true)
    decreases |b.v| - i
  {
    if i < |b.v| {
      if i % 4 != 0 {
        RoundScanUnmerged(p, b, g, i + 1);
      } else {
        QuadFits(|b.v|, i);
        var c := ScanCorners(p, b.v, i);
        RowScanUnmerged(p, i, c, b, 0, 0);
        if RowScan(p, i, c, b, 0, 0).merges == 0 {
          RoundScanUnmerged(p, b, g, i + 1);
        }
      }
    }
  }

  /** RoundScan keeps the normals of every quad equal. */
  lemma {:induction false} RoundScanUniform(p: Pass, b: Buffers, g: nat, i: nat)
    requires |b.v| == |b.n| && |b.v| % 4 == 0
    ensures UniformQuads(b.n) ==> UniformQuads(RoundScan(p, b, g, i).b.n)
    decreases |b.v| - i
  {
    if i < |b.v| {
      if i % 4 != 0 {
        RoundScanUniform(p, b, g, i + 1);
      } else {
        QuadFits(|b.v|, i);
        var c := ScanCorners(p, b.v, i);
        var row := RowScan(p, i, c, b, 0, 0);
        ShrinkByQuads(|b.v|, |row.b.v|, row.merges);
        RowScanUniform(p, i, c, b, 0, 0);
        if row.ok {
          RoundScanUniform(p, row.b, g + row.merges, i + 1);
        }
      }
    }
  }

  /**
   * What one row promises, given the outcome (v, n, m, ok) of its scan from
   * the buffers (v0, n0): it merges exactly when quad i passes the test
   * against another quad, and leaves the buffers as they were when it merges
   * nothing; merging the positions RowMerges records, in order, gives the
   * buffers it leaves, one position per merge counted; a row that stops
   * early stops at a read past the end; and it keeps the normals of every
   * quad equal.
   */
  lemma RowScanFacts(p: Pass, v0: seq<V3>, n0: seq<V3>, i: int, c: (V3, V3), v: seq<V3>, n: seq<V3>, m: nat, ok: bool)
    requires |v0| == |n0| && QuadStart(|v0|, i) && c == ScanCorners(p, v0, i)
    requires Scanned(Buffers(v, n), m, ok) == RowScan(p, i, c, Buffers(v0, n0), 0, 0)
    ensures m == 0 ==> ok && v == v0 && n == n0
    ensures m == 0 <==> RowCleanFrom(p, v0, n0, i, 0)
    ensures |RowMerges(p, i, c, Buffers(v0, n0), [], 0)| == m
    ensures RowReplay(p, i, c, Buffers(v0, n0), RowMerges(p, i, c, Buffers(v0, n0), [], 0)) == Some(Buffers(v, n))
    ensures !ok ==> i >= |v| && RowPanics(p, i, c, Buffers(v, n))
    ensures UniformQuads(n0) ==> UniformQuads(n)
  {
    var b0 := Buffers(v0, n0);
    RowScanClean(p, v0, n0, i, c, 0, 0);
    RowScanUnmerged(p, i, c, b0, 0, 0);
    RowScanUniform(p, i, c, b0, 0, 0);
    RowScanReplays(p, i, c, b0, [], b0, 0, 0);
    RowScanCounts(p, i, c, [], b0, 0, 0);
    RowScanPanics(p, i, c, b0, 0, 0);
  }

  /**
   * What one scan promises: it merges exactly when some two quads pass the
   * test, leaves the buffers as they were when it merges nothing, and keeps
   * the normals of every quad equal.
   */
  lemma RoundScanFacts(p: Pass, v0: seq<V3>, n0: seq<V3>, v: seq<V3>, n: seq<V3>, g: nat, ok: bool)
    requires |v0| == |n0| && |v0| % 4 == 0
    requires Scanned(Buffers(v, n), g, ok) == RoundScan(p, Buffers(v0, n0), 0, 0)
    ensures g == 0 ==> ok && v == v0 && n == n0
    ensures g == 0 <==> NoMerge(p, v0, n0)
    ensures UniformQuads(n0) ==> UniformQuads(n)
  {
    RoundScanClean(p, v0, n0, 0, 0);
    assert CleanFrom(p, v0, n0, 0) <==> NoMerge(p, v0, n0);
    RoundScanUnmerged(p, Buffers(v0, n0), 0, 0);
    RoundScanUniform(p, Buffers(v0, n0), 0, 0);
  }

  /**
   * A whole pass (`while g != 0`, lines 313-375 and 377-439): scans repeat
   * while the last one merged something and none read past the end.
   */
  function PassScan(p: Pass, b: Buffers): (r: Scanned)
    requires |b.v| == |b.n| && |b.v| % 4 == 0
    ensures |r.b.v| == |r.b.n| && |r.b.v| % 4 == 0 && |r.b.v| + 4 * r.merges == |b.v|
    decreases |b.v|
  {
    var round := RoundScan(p, b, 0, 0);
    if round.ok && round.merges != 0 then
      var rest := PassScan(p, round.b);
      Scanned(rest.b, round.merges + rest.merges, rest.ok)
    else round
  }

  /**
   * One step of the inner loop of a scan: quad i, whose corners were copied
   * into c, against position j of the current buffers, merging when the
   * test passes.  ok is false where the scan reads `sorted_normals[i]` past
   * the end of the buffer, where Rust panics.  A step merges exactly when
   * the two quads are Mergeable in the current buffers, and then returns the
   * buffers MergeStep gives.
   */
  method ScanPair(p: Pass, v0: seq<V3>, n0: seq<V3>, i: int, c: (V3, V3),
      v: seq<V3>, n: seq<V3>, m: nat, j: int)
    returns (v': seq<V3>, n': seq<V3>, m': nat, ok: bool)
    requires |v0| == |n0| && |v0| % 4 == 0 && QuadStart(|v0|, i) && c == ScanCorners(p, v0, i)
    requires 0 <= j < |v| && |v| == |n| && |v| % 4 == 0 && |v| + 4 * m == |v0|
    requires m == 0 ==> v == v0 && n == n0
    ensures |v'| == |n'| && |v'| % 4 == 0 && |v'| + 4 * m' == |v0| && m <= m'
    ensures m' == 0 ==> ok && v' == v0 && n' == n0
    ensures m' == m || m' == m + 1
    ensures m' == m ==> v' == v && n' == n
    ensures m' == m + 1 ==> MergeStep(p, i, c, Buffers(v, n), j) == Some(Buffers(v', n'))
    ensures m' == m + 1 <==> Mergeable(p, i, c, Buffers(v, n), j)
    ensures !ok <==> PanicStep(p, i, c, v, n, j)
    ensures !ok ==> m' == m
    ensures !ok ==> RowScan(p, i, c, Buffers(v, n), m, j) == Scanned(Buffers(v', n'), m', false)
    ensures ok ==> RowScan(p, i, c, Buffers(v, n), m, j) == RowScan(p, i, c, Buffers(v', n'), m', j + 1)
    ensures UniformQuads(n) ==> UniformQuads(n')
  {
    v', n', m', ok := v, n, m, true;
    if j % 4 == 0 {
      QuadFits(|v|, j);
      if i != j && |v| > j + 2 && VertexTest(p, c, v, j) {
        if i >= |n| {
          ok := false;
        } else {
          QuadFits(|n|, i);
          if NormalTest(p, n, i, j) {
            MergeUniform(p, n, i, j);
            MergeStepTaken(p, i, c, v, n, j);
            v', n' := MergeAt(p, v, n, i, j);
            ShrinkByQuads(|v|, |v'|, 1);
            m' := m + 1;
          }
        }
      }
    }
    RowScanStep(p, i, c, Buffers(v, n), m, j, Buffers(v', n'), m', ok);
  }

  /**
   * The inner loop of a scan (lines 326-370 and 390-437): quad i, whose
   * corners were copied into c, against every quad j.  m counts the merges;
   * ok is false where a step panics.  A row merges exactly when quad i
   * passes the test against some other quad.
   */
  method ScanRow(p: Pass, v0: seq<V3>, n0: seq<V3>, i: int, c: (V3, V3))
    returns (v: seq<V3>, n: seq<V3>, m: nat, ok: bool, ghost js: seq<int>)
    requires |v0| == |n0| && |v0| % 4 == 0 && QuadStart(|v0|, i) && c == ScanCorners(p, v0, i)
    ensures |v| == |n| && |v| % 4 == 0 && |v| + 4 * m == |v0|
    ensures m == 0 ==> ok && v == v0 && n == n0
    ensures m == 0 <==> RowCleanFrom(p, v0, n0, i, 0)
    ensures |js| == m && RowReplay(p, i, c, Buffers(v0, n0), js) == Some(Buffers(v, n))
    ensures !ok ==> i >= |v| && RowPanics(p, i, c, Buffers(v, n))
    ensures Scanned(Buffers(v, n), m, ok) == RowScan(p, i, c, Buffers(v0, n0), 0, 0)
    ensures UniformQuads(n0) ==> UniformQuads(n)
  {
    ghost var b0 := Buffers(v0, n0);
    ghost var goal := RowScan(p, i, c, b0, 0, 0);
    v, n, m, ok := v0, n0, 0, true;
    var j: nat := 0;
    while j < |v| && ok
      invariant |v| == |n| && |v| % 4 == 0 && |v| + 4 * m == |v0|
      invariant m == 0 ==> v == v0 && n == n0
      invariant ok ==> RowScan(p, i, c, Buffers(v, n), m, j) == goal
      invariant !ok ==> Scanned(Buffers(v, n), m, false) == goal
      decreases |v0| - j
    {
      v, n, m, ok := ScanPair(p, v0, n0, i, c, v, n, m, j);
      j := j + 1;
    }
    js := RowMerges(p, i, c, b0, [], 0);
    RowScanFacts(p, v0, n0, i, c, v, n, m, ok);
  }

  /**
   * One row of a scan (lines 323-372 and 387-439): copies the corners of
   * quad i, runs the inner loop and extends the scan's replay by that row.
   */
  method ScanQuad(p: Pass, ghost b0: Buffers, ghost rows0: seq<Row>, v0: seq<V3>, n0: seq<V3>, g0: nat, i: nat)
    returns (v: seq<V3>, n: seq<V3>, g: nat, ok: bool, ghost rows: seq<Row>)
    requires |v0| == |n0| && |v0| % 4 == 0 && i < |v0| && i % 4 == 0
    requires RoundReplay(p, b0, rows0) == Some(Buffers(v0, n0))
    ensures |v| == |n| && |v| % 4 == 0 && |v| + 4 * g == |v0| + 4 * g0 && g0 <= g
    ensures RoundReplay(p, b0, rows) == Some(Buffers(v, n))
    ensures !ok ==> RoundPanics(p, b0, rows)
    ensures !ok ==> RoundScan(p, Buffers(v0, n0), g0, i) == Scanned(Buffers(v, n), g, false)
    ensures ok ==> RoundScan(p, Buffers(v0, n0), g0, i) == RoundScan(p, Buffers(v, n), g, i + 1)
  {
    QuadFits(|v0|, i);
    var c := if p == FirstPass then (v0[i], v0[i + 3]) else (v0[i + 2], v0[i + 3]);
    var m;
    ghost var js;
    v, n, m, ok, js := ScanRow(p, v0, n0, i, c);
    g := g0 + m;
    rows := rows0 + [Row(i, js)];
    RoundRowDone(p, b0, rows0, Buffers(v0, n0), g0, i, c, js, rows, Buffers(v, n), m, ok, g);
  }

  /**
   * One scan over all quads i (lines 318-374 and 382-441): g counts the
   * merges.  A scan merges nothing exactly when nothing can be merged, and
   * then leaves the buffers as they were.
   */
  method ScanRound(p: Pass, v0: seq<V3>, n0: seq<V3>)
    returns (v: seq<V3>, n: seq<V3>, g: nat, ok: bool, ghost rows: seq<Row>)
    requires |v0| == |n0| && |v0| % 4 == 0
    ensures |v| == |n| && |v| % 4 == 0 && |v| + 4 * g == |v0|
    ensures g == 0 ==> ok && v == v0 && n == n0
    ensures g == 0 <==> NoMerge(p, v0, n0)
    ensures RoundReplay(p, Buffers(v0, n0), rows) == Some(Buffers(v, n))
    ensures !ok ==> RoundPanics(p, Buffers(v0, n0), rows)
    ensures Scanned(Buffers(v, n), g, ok) == RoundScan(p, Buffers(v0, n0), 0, 0)
    ensures UniformQuads(n0) ==> UniformQuads(n)
  {
    ghost var b0 := Buffers(v0, n0);
    ghost var goal := RoundScan(p, b0, 0, 0);
    v, n, g, ok, rows := v0, n0, 0, true, [];
    var i: nat := 0;
    while i < |v| && ok
      invariant |v| == |n| && |v| % 4 == 0 && |v| + 4 * g == |v0|
      invariant RoundReplay(p, b0, rows) == Some(Buffers(v, n))
      invariant !ok ==> RoundPanics(p, b0, rows) && Scanned(Buffers(v, n), g, false) == goal
      invariant ok ==> RoundScan(p, Buffers(v, n), g, i) == goal
      decreases |v0| - i
    {
      if i % 4 == 0 {
        v, n, g, ok, rows := ScanQuad(p, b0, rows, v, n, g, i);
      } else {
        RoundScanMove(p, Buffers(v, n), g, i);
      }
      i := i + 1;
    }
    if ok {
      RoundScanMove(p, Buffers(v, n), g, i);
    }
    RoundScanFacts(p, v0, n0, v, n, g, ok);
  }

  /**
   * A whole pass: scans until one merges nothing (the `while g != 0` loops
   * at lines 313 and 377).  Each scan that merges removes at least one quad,
   * so the pass ends.  When it ends without a panic, no two quads pass the
   * pass's test; when nothing could be merged at the start, it changes
   * nothing; and it keeps the two buffers the same length, a multiple of 4,
   * and the normals of every quad equal.
   */
  method MergePass(p: Pass, v0: seq<V3>, n0: seq<V3>) returns (v: seq<V3>, n: seq<V3>, ok: bool)
    requires |v0| == |n0| && |v0| % 4 == 0
    ensures |v| == |n| && |v| % 4 == 0 && |v| <= |v0|
    ensures ok ==> NoMerge(p, v, n)
    ensures NoMerge(p, v0, n0) ==> ok && v == v0 && n == n0
    ensures Reaches(p, v0, n0, v, n)
    ensures !ok ==> ReachesPanic(p, v0, n0, v, n)
    ensures Buffers(v, n) == PassScan(p, Buffers(v0, n0)).b && ok == PassScan(p, Buffers(v0, n0)).ok
    ensures UniformQuads(n0) ==> UniformQuads(n)
  {
    v, n, ok := v0, n0, true;
    ghost var rounds: seq<seq<Row>> := [];
    ghost var goal := PassScan(p, Buffers(v0, n0));
    var g := 1;
    while g != 0
      invariant |v| == |n| && |v| % 4 == 0 && |v| <= |v0|
      invariant g == 0 ==> NoMerge(p, v, n)
      invariant NoMerge(p, v0, n0) ==> v == v0 && n == n0
      invariant PassReplay(p, Buffers(v0, n0), rounds) == Some(Buffers(v, n))
      invariant UniformQuads(n0) ==> UniformQuads(n)
      invariant ok
      invariant g != 0 ==> PassScan(p, Buffers(v, n)).b == goal.b && PassScan(p, Buffers(v, n)).ok == goal.ok
      invariant g == 0 ==> Buffers(v, n) == goal.b && goal.ok
      decreases |v| + (if g != 0 then 1 else 0)
    {
      var v', n', ok';
      ghost var rows;
      v', n', g, ok', rows := ScanRound(p, v, n);
      PassSnoc(p, Buffers(v0, n0), rounds, Buffers(v, n), rows, Buffers(v', n'));
      if !ok' {
        PassPanicSnoc(p, Buffers(v0, n0), rounds, Buffers(v, n), rows);
      }
      rounds := rounds + [rows];
      v, n := v', n';
      if !ok' {
        assert PassReplay(p, Buffers(v0, n0), rounds) == Some(Buffers(v, n));
        ok := false;
        return;
      }
    }
  }
}
