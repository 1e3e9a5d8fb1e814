/**
 * The `Vec` operations the mesher relies on, and the `RemoveMultiple`
 * extension trait of world.rs (lines 595-660).
 *
 * A `Vec<T>` changed through `&mut self` is modelled as a value: each
 * method takes the sequence before the call and returns the sequence
 * after it (and the removed elements, where the source returns them).
 * `Vec::remove` and `Vec::swap_remove` panic on an index out of range;
 * that is a precondition here.
 */
module VecOps {
  import opened Optional

  // ---------------------------------------------------------------------
  // Single-element operations of `Vec`.

  /** `Vec::remove(r)`: the element at r leaves, the ones after it move down by one. */
  function Remove<T>(s: seq<T>, r: int): (t: seq<T>)
    requires 0 <= r < |s|
    ensures |t| == |s| - 1
    ensures forall k :: 0 <= k < r ==> t[k] == s[k]
    ensures forall k :: r <= k < |t| ==> t[k] == s[k + 1]
  {
    s[..r] + s[r + 1..]
  }

  /** `Vec::insert(k, x)`: x lands at k, the elements from k on move up by one. */
  function Insert<T>(s: seq<T>, k: int, x: T): (t: seq<T>)
    requires 0 <= k <= |s|
    ensures |t| == |s| + 1 && t[k] == x
    ensures forall q :: 0 <= q < k ==> t[q] == s[q]
    ensures forall q :: k < q < |t| ==> t[q] == s[q - 1]
  {
    s[..k] + [x] + s[k..]
  }

  /** Removing what was inserted, and re-inserting what was removed, restore the vector. */
  lemma InsertRemoveInverse<T>(s: seq<T>, k: int, x: T)
    requires 0 <= k <= |s|
    ensures Remove(Insert(s, k, x), k) == s
    ensures k < |s| ==> Insert(Remove(s, k), k, s[k]) == s
  {
    assert Remove(Insert(s, k, x), k) == s;
    if k < |s| {
      assert Insert(Remove(s, k), k, s[k]) == s;
    }
  }

  /**
   * `Vec::swap_remove(r)`: the last element takes the place of the one at
   * r; nothing below r moves, and the elements are those of s less s[r].
   */
  function SwapRemove<T>(s: seq<T>, r: int): (t: seq<T>)
    requires 0 <= r < |s|
    ensures |t| == |s| - 1
    ensures forall k :: 0 <= k < r ==> t[k] == s[k]
    ensures r < |t| ==> t[r] == s[|s| - 1]
    ensures multiset(t) + multiset{s[r]} == multiset(s)
  {
    var last := |s| - 1;
    if r == last then
      assert s == s[..last] + [s[r]];
      s[..last]
    else
      assert s == s[..r] + [s[r]] + s[r + 1..last] + [s[last]];
      s[..r] + [s[last]] + s[r + 1..last]
  }

  /** `Vec::reverse`, as a value. */
  function Reverse<T>(s: seq<T>): (t: seq<T>)
    ensures |t| == |s|
    ensures forall k :: 0 <= k < |s| ==> t[k] == s[|s| - 1 - k]
  {
    if |s| == 0 then [] else Reverse(s[1..]) + [s[0]]
  }

  lemma {:induction false} ReverseSnoc<T>(s: seq<T>, x: T)
    ensures Reverse(s + [x]) == [x] + Reverse(s)
  {
    var l, r := Reverse(s + [x]), [x] + Reverse(s);
    assert |l| == |r|;
    forall k | 0 <= k < |l| ensures l[k] == r[k] {
      if k > 0 {
        assert l[k] == (s + [x])[|s| - k];
      }
    }
  }

  lemma ReverseInvolution<T>(s: seq<T>)
    ensures Reverse(Reverse(s)) == s
  {
    assert forall k :: 0 <= k < |s| ==> Reverse(Reverse(s))[k] == s[k];
  }

  lemma {:induction false} ReverseMultiset<T>(s: seq<T>)
    ensures multiset(Reverse(s)) == multiset(s)
  {
    if |s| > 0 {
      ReverseMultiset(s[1..]);
      assert s == [s[0]] + s[1..];
    }
  }

  // ---------------------------------------------------------------------
  // The library's stable sort (`sort`, `sort_by_key`), as insertion sort.

  predicate SortedBy<T>(xs: seq<T>, key: T -> int) {
    forall a, b :: 0 <= a < b < |xs| ==> key(xs[a]) <= key(xs[b])
  }

  /** No two elements share a key. */
  predicate DistinctKeys<T>(xs: seq<T>, key: T -> int) {
    forall a, b :: 0 <= a < b < |xs| ==> key(xs[a]) != key(xs[b])
  }

  /** x placed before the first element whose key is not smaller. */
  function InsertSorted<T>(x: T, ys: seq<T>, key: T -> int): (r: seq<T>)
    ensures |r| == |ys| + 1
    ensures multiset(r) == multiset(ys) + multiset{x}
  {
    if |ys| == 0 || key(x) <= key(ys[0]) then [x] + ys
    else
      assert ys == [ys[0]] + ys[1..];
      [ys[0]] + InsertSorted(x, ys[1..], key)
  }

  /** Inserting into a sorted sequence keeps it sorted, and only x or the old head can come first. */
  lemma {:induction false} InsertSortedSorted<T>(x: T, ys: seq<T>, key: T -> int)
    requires SortedBy(ys, key)
    ensures var r := InsertSorted(x, ys, key);
      && (r[0] == x || (|ys| > 0 && r[0] == ys[0]))
      && SortedBy(r, key)
  {
    if |ys| > 0 && key(x) > key(ys[0]) {
      var rest := InsertSorted(x, ys[1..], key);
      InsertSortedSorted(x, ys[1..], key);
      assert key(ys[0]) <= key(rest[0]);
      var r := [ys[0]] + rest;
      forall a, b | 0 <= a < b < |r| ensures key(r[a]) <= key(r[b]) {
        if a > 0 {
          assert r[a] == rest[a - 1] && r[b] == rest[b - 1];
        } else {
          assert r[b] == rest[b - 1];
        }
      }
    }
  }

  /** A sort by key: the result is sorted and a rearrangement of the input. */
  function SortBy<T>(xs: seq<T>, key: T -> int): (r: seq<T>)
    ensures |r| == |xs|
    ensures multiset(r) == multiset(xs)
    ensures SortedBy(r, key)
  {
    if |xs| == 0 then []
    else
      assert xs == [xs[0]] + xs[1..];
      var rest := SortBy(xs[1..], key);
      InsertSortedSorted(xs[0], rest, key);
      InsertSorted(xs[0], rest, key)
  }

  /** An element occurring at two positions occurs at least twice. */
  lemma {:induction false} DuplicateCount<T>(ys: seq<T>, a: int, b: int)
    requires 0 <= a < b < |ys| && ys[a] == ys[b]
    ensures multiset(ys)[ys[a]] >= 2
  {
    assert ys == ys[..b] + [ys[b]] + ys[b + 1..];
    assert ys[a] == ys[..b][a];
  }

  /** With distinct keys, no value occurs twice. */
  lemma {:induction false} DistinctCount<T>(xs: seq<T>, key: T -> int, v: T)
    requires DistinctKeys(xs, key)
    ensures multiset(xs)[v] <= 1
  {
    if |xs| > 0 {
      DistinctCount(xs[1..], key, v);
      assert xs == [xs[0]] + xs[1..];
      if xs[0] == v {
        assert forall k :: 0 <= k < |xs[1..]| ==> xs[1..][k] == xs[k + 1] != v;
      }
    }
  }

  /** Rearranging a sequence keeps its keys distinct. */
  lemma DistinctKeysPermutation<T>(xs: seq<T>, ys: seq<T>, key: T -> int)
    requires DistinctKeys(xs, key) && multiset(xs) == multiset(ys)
    ensures DistinctKeys(ys, key)
  {
    forall a, b | 0 <= a < b < |ys| ensures key(ys[a]) != key(ys[b]) {
      if key(ys[a]) == key(ys[b]) {
        assert ys[a] in multiset(xs) && ys[b] in multiset(xs);
        var a' :| 0 <= a' < |xs| && xs[a'] == ys[a];
        var b' :| 0 <= b' < |xs| && xs[b'] == ys[b];
        if a' == b' {
          DuplicateCount(ys, a, b);
          DistinctCount(xs, key, ys[a]);
        }
      }
    }
  }

  /** `to_remove.sort(); to_remove.reverse();` on distinct keys: strictly decreasing keys. */
  function SortedDescending<T>(xs: seq<T>, key: T -> int): (r: seq<T>)
    requires DistinctKeys(xs, key)
    ensures |r| == |xs| && multiset(r) == multiset(xs)
    ensures forall a, b :: 0 <= a < b < |r| ==> key(r[a]) > key(r[b])
  {
    var up := SortBy(xs, key);
    DistinctKeysPermutation(xs, up, key);
    ReverseMultiset(up);
    Reverse(up)
  }

  // ---------------------------------------------------------------------
  // Which elements survive the removal of a set of positions.

  /**
   * The elements of s whose position (counted from off) is in D when taken
   * holds, or not in D when it does not, in their original order.
   */
  function Sieve<T>(s: seq<T>, D: set<int>, off: int, taken: bool): seq<T>
  {
    if |s| == 0 then []
    else (if (off in D) == taken then [s[0]] else []) + Sieve(s[1..], D, off + 1, taken)
  }

  /** The elements left after removing the positions in D. */
  function Survivors<T>(s: seq<T>, D: set<int>): seq<T> { Sieve(s, D, 0, false) }

  /** The elements at the positions in D, in increasing position order. */
  function Picked<T>(s: seq<T>, D: set<int>): seq<T> { Sieve(s, D, 0, true) }

  lemma {:induction false} SieveSplit<T>(s: seq<T>, D: set<int>, off: int, m: int, taken: bool)
    requires 0 <= m <= |s|
    ensures Sieve(s, D, off, taken) == Sieve(s[..m], D, off, taken) + Sieve(s[m..], D, off + m, taken)
    decreases m
  {
    if m > 0 {
      SieveSplit(s[1..], D, off + 1, m - 1, taken);
      assert s[1..][..m - 1] == s[..m][1..];
      assert s[1..][m - 1..] == s[m..];
    }
  }

  /** A stretch holding no position of D: kept whole, nothing taken. */
  lemma {:induction false} SieveUntouched<T>(s: seq<T>, D: set<int>, off: int)
    requires forall k :: off <= k < off + |s| ==> k !in D
    ensures Sieve(s, D, off, false) == s && Sieve(s, D, off, true) == []
  {
    if |s| > 0 {
      SieveUntouched(s[1..], D, off + 1);
      assert s == [s[0]] + s[1..];
    }
  }

  /** Only the positions within the stretch matter. */
  lemma {:induction false} SieveAgree<T>(s: seq<T>, D: set<int>, E: set<int>, off: int, taken: bool)
    requires forall k :: off <= k < off + |s| ==> (k in D <==> k in E)
    ensures Sieve(s, D, off, taken) == Sieve(s, E, off, taken)
  {
    if |s| > 0 {
      SieveAgree(s[1..], D, E, off + 1, taken);
    }
  }

  /** Survivors and picked elements partition s. */
  lemma {:induction false} SieveParts<T>(s: seq<T>, D: set<int>, off: int)
    ensures |Sieve(s, D, off, false)| + |Sieve(s, D, off, true)| == |s|
    ensures multiset(Sieve(s, D, off, false)) + multiset(Sieve(s, D, off, true)) == multiset(s)
  {
    if |s| > 0 {
      SieveParts(s[1..], D, off + 1);
      assert s == [s[0]] + s[1..];
    }
  }

  /**
   * One step of a removal in decreasing position order: when every position
   * removed so far lies above r, position r of the current vector still
   * holds s[r], removing it there leaves the survivors of P ∪ {r}, and the
   * picked elements gain s[r] at the front.
   */
  lemma StepDescending<T>(s: seq<T>, P: set<int>, r: int)
    requires 0 <= r < |s| && forall p :: p in P ==> p > r
    ensures var cur := Survivors(s, P);
      && r < |cur| && cur[r] == s[r]
      && Remove(cur, r) == Survivors(s, P + {r})
      && Picked(s, P + {r}) == [s[r]] + Picked(s, P)
  {
    StepSurvivors(s, P, r);
    StepPicked(s, P, r);
  }

  /** The survivors half of `StepDescending`. */
  lemma StepSurvivors<T>(s: seq<T>, P: set<int>, r: int)
    requires 0 <= r < |s| && forall p :: p in P ==> p > r
    ensures var cur := Survivors(s, P);
      && r < |cur| && cur[r] == s[r]
      && Remove(cur, r) == Survivors(s, P + {r})
  {
    SurvivorsAround(s, P, r);
    SurvivorsAroundAdded(s, P, r);
    RemoveAtSeam(s[..r], s[r], Sieve(s[r + 1..], P, r + 1, false));
  }

  /** With P above r, everything up to r survives. */
  lemma SurvivorsAround<T>(s: seq<T>, P: set<int>, r: int)
    requires 0 <= r < |s| && forall p :: p in P ==> p > r
    ensures Survivors(s, P) == s[..r] + [s[r]] + Sieve(s[r + 1..], P, r + 1, false)
  {
    SieveAt(s, P, r, false);
    SieveUntouched(s[..r], P, 0);
  }

  /** With P above r, removing r as well keeps everything before it. */
  lemma SurvivorsAroundAdded<T>(s: seq<T>, P: set<int>, r: int)
    requires 0 <= r < |s| && forall p :: p in P ==> p > r
    ensures Survivors(s, P + {r}) == s[..r] + Sieve(s[r + 1..], P, r + 1, false)
  {
    var Q := P + {r};
    SieveAt(s, Q, r, false);
    SieveUntouched(s[..r], Q, 0);
    SieveAgree(s[r + 1..], P, Q, r + 1, false);
    assert s[..r] + [] == s[..r];
  }

  /** Removing the element at the seam between two stretches. */
  lemma RemoveAtSeam<T>(front: seq<T>, x: T, back: seq<T>)
    ensures Remove(front + [x] + back, |front|) == front + back
    ensures (front + [x] + back)[|front|] == x
  {
    assert Remove(front + [x] + back, |front|) == front + back;
  }

  /** The picked half of `StepDescending`. */
  lemma StepPicked<T>(s: seq<T>, P: set<int>, r: int)
    requires 0 <= r < |s| && forall p :: p in P ==> p > r
    ensures Picked(s, P + {r}) == [s[r]] + Picked(s, P)
  {
    var Q := P + {r};
    SieveAt(s, P, r, true);
    SieveAt(s, Q, r, true);
    SieveUntouched(s[..r], P, 0);
    SieveUntouched(s[..r], Q, 0);
    SieveAgree(s[r + 1..], P, Q, r + 1, true);
  }

  /** The sieve of s as the sieves of the stretch before r, of position r alone, and of the rest. */
  lemma SieveAt<T>(s: seq<T>, D: set<int>, r: int, taken: bool)
    requires 0 <= r < |s|
    ensures Sieve(s, D, 0, taken) ==
      Sieve(s[..r], D, 0, taken) + (if (r in D) == taken then [s[r]] else []) + Sieve(s[r + 1..], D, r + 1, taken)
  {
    SieveSplit(s, D, 0, r, taken);
    assert s[r..][1..] == s[r + 1..];
  }

  /** The positions listed in xs. */
  function Elems(xs: seq<int>): set<int> { set x | x in xs }

  lemma ElemsSnoc(xs: seq<int>, k: int)
    requires 0 <= k < |xs|
    ensures Elems(xs[..k + 1]) == Elems(xs[..k]) + {xs[k]}
  {
    assert xs[..k + 1] == xs[..k] + [xs[k]];
  }

  lemma ElemsPermutation(xs: seq<int>, ys: seq<int>)
    requires multiset(xs) == multiset(ys)
    ensures Elems(xs) == Elems(ys)
  {
    assert forall x :: x in xs <==> x in multiset(xs);
    assert forall x :: x in ys <==> x in multiset(ys);
  }

  /** What every method of the trait needs of its index list: distinct positions of s. */
  predicate ValidIndices(n: int, idx: seq<int>) {
    && (forall a, b :: 0 <= a < b < |idx| ==> idx[a] != idx[b])
    && (forall k :: 0 <= k < |idx| ==> 0 <= idx[k] < n)
  }

  function Id(x: int): int { x }

  /** The index list in the order the trait's loops visit it: sorted, then reversed. */
  function RemovalOrder(idx: seq<int>): (order: seq<int>)
    requires forall a, b :: 0 <= a < b < |idx| ==> idx[a] != idx[b]
    ensures |order| == |idx| && Elems(order) == Elems(idx)
    ensures forall a, b :: 0 <= a < b < |order| ==> order[a] > order[b]
  {
    assert DistinctKeys(idx, Id);
    var order := SortedDescending(idx, Id);
    ElemsPermutation(order, idx);
    order
  }

  // ---------------------------------------------------------------------
  // The trait's methods.

  /** Facts every loop of the trait starts from: nothing removed yet, positions in range. */
  lemma InRange<T>(s: seq<T>, toRemove: seq<int>, order: seq<int>)
    requires ValidIndices(|s|, toRemove) && Elems(order) == Elems(toRemove)
    ensures forall q :: 0 <= q < |order| ==> 0 <= order[q] < |s| && order[q] in toRemove
    ensures Survivors(s, Elems(order[..0])) == s && Picked(s, Elems(order[..0])) == []
  {
    assert forall q :: 0 <= q < |order| ==> order[q] in Elems(order);
    assert Elems(order[..0]) == {};
    SieveUntouched(s, {}, 0);
  }

  /**
   * `remove_multiple` (lines 613-619): the result is s without the listed
   * positions, the other elements in their original order.
   */
  method RemoveMultiple<T>(s: seq<T>, toRemove: seq<int>) returns (t: seq<T>)
    requires ValidIndices(|s|, toRemove)
    ensures t == Survivors(s, Elems(toRemove))
    ensures |t| == |s| - |toRemove|
  {
    var order := RemovalOrder(toRemove);
    InRange(s, toRemove, order);
    t := s;
    for k := 0 to |order|
      invariant t == Survivors(s, Elems(order[..k]))
      invariant |t| == |s| - k
    {
      var r := order[k];
      StepDescending(s, Elems(order[..k]), r);
      t := Remove(t, r);
      ElemsSnoc(order, k);
    }
    assert order[..|order|] == order;
  }

  /**
   * `take_multiple` (lines 629-638): removes the listed positions as
   * `remove_multiple` does and returns the removed elements in increasing
   * position order.
   */
  method TakeMultiple<T>(s: seq<T>, toRemove: seq<int>) returns (t: seq<T>, collected: seq<T>)
    requires ValidIndices(|s|, toRemove)
    ensures t == Survivors(s, Elems(toRemove))
    ensures collected == Picked(s, Elems(toRemove))
    ensures |collected| == |toRemove|
  {
    var order := RemovalOrder(toRemove);
    InRange(s, toRemove, order);
    t := s;
    collected := [];
    for k := 0 to |order|
      invariant t == Survivors(s, Elems(order[..k]))
      invariant Reverse(collected) == Picked(s, Elems(order[..k]))
      invariant |collected| == k
    {
      var r := order[k];
      StepDescending(s, Elems(order[..k]), r);
      var x := t[r];
      t := Remove(t, r);
      ReverseSnoc(collected, x);
      collected := collected + [x];
      ElemsSnoc(order, k);
    }
    assert order[..|order|] == order;
    ReverseInvolution(collected);
    collected := Reverse(collected);
  }

  /** `Iterator::filter_map(|x| x)`: the values of the `Some` entries, in order. */
  function Somes<T>(xs: seq<Option<T>>): (r: seq<T>)
    ensures |r| <= |xs|
    ensures (forall k :: 0 <= k < |xs| ==> xs[k].Some?) ==>
      |r| == |xs| && forall k :: 0 <= k < |xs| ==> r[k] == xs[k].value
  {
    if |xs| == 0 then []
    else (if xs[0].Some? then [xs[0].value] else []) + Somes(xs[1..])
  }

  function Second(pair: (int, int)): int { pair.1 }

  /** `iter().copied().enumerate()`: each position paired with its index. */
  function Enumerate(idx: seq<int>): (pairs: seq<(int, int)>)
    ensures |pairs| == |idx| && forall p :: 0 <= p < |idx| ==> pairs[p] == (p, idx[p])
  {
    seq(|idx|, p requires 0 <= p < |idx| => (p, idx[p]))
  }

  /** The indices of a list of pairs. */
  function Keys(pairs: seq<(int, int)>): (keys: seq<int>)
    ensures |keys| == |pairs| && forall q :: 0 <= q < |pairs| ==> keys[q] == pairs[q].1
  {
    seq(|pairs|, q requires 0 <= q < |pairs| => pairs[q].1)
  }

  /** Any rearrangement of the enumerated pairs lists every slot once, with its index. */
  lemma EnumeratedOrder(idx: seq<int>, order: seq<(int, int)>)
    requires multiset(order) == multiset(Enumerate(idx))
    ensures |order| == |idx|
    ensures forall q :: 0 <= q < |order| ==> 0 <= order[q].0 < |idx| && order[q].1 == idx[order[q].0]
    ensures forall p :: 0 <= p < |idx| ==> (p, idx[p]) in order
    ensures Elems(Keys(order)) == Elems(idx)
  {
    var pairs := Enumerate(idx);
    assert |order| == |multiset(order)| == |pairs|;
    forall q | 0 <= q < |order|
      ensures 0 <= order[q].0 < |idx| && order[q].1 == idx[order[q].0]
    {
      assert order[q] in multiset(pairs);
    }
    forall p | 0 <= p < |idx|
      ensures (p, idx[p]) in order
    {
      assert pairs[p] in multiset(order);
    }
    var keys := Keys(order);
    forall x | x in idx ensures x in keys {
      var p :| 0 <= p < |idx| && idx[p] == x;
      var q :| 0 <= q < |order| && order[q] == (p, x);
      assert keys[q] == x;
    }
  }

  /** Slot p of `collected` holds element idx[p] of s once p is done, and is empty before. */
  ghost predicate SlotsFilled<T>(s: seq<T>, idx: seq<int>, collected: seq<Option<T>>, done: set<int>) {
    && |collected| == |idx|
    && forall p :: 0 <= p < |idx| ==>
         0 <= idx[p] < |s| && collected[p] == if p in done then Some(s[idx[p]]) else None
  }

  lemma SlotsStep<T>(s: seq<T>, idx: seq<int>, collected: seq<Option<T>>, done: set<int>, i: int, x: T)
    requires SlotsFilled(s, idx, collected, done) && 0 <= i < |idx| && x == s[idx[i]]
    ensures SlotsFilled(s, idx, collected[i := Some(x)], done + {i})
  {
  }

  /** After the loop of `take_multiple_in_order` every slot of `collected` holds its element. */
  lemma EverySlotFilled<T>(s: seq<T>, idx: seq<int>, order: seq<(int, int)>,
      collected: seq<Option<T>>, done: set<int>)
    requires forall p :: 0 <= p < |idx| ==> (p, idx[p]) in order
    requires forall q :: 0 <= q < |order| ==> order[q].0 in done
    requires SlotsFilled(s, idx, collected, done)
    ensures |collected| == |idx| && forall p :: 0 <= p < |idx| ==> collected[p].Some?
    ensures forall p :: 0 <= p < |idx| ==> collected[p].value == s[idx[p]]
  {
    forall p | 0 <= p < |idx| ensures collected[p] == Some(s[idx[p]]) {
      var q :| 0 <= q < |order| && order[q] == (p, idx[p]);
      assert p in done;
    }
  }

  /**
   * `take_multiple_in_order` (lines 640-649): removes the listed positions
   * and returns the removed elements in the order the positions were
   * listed.
   */
  method TakeMultipleInOrder<T>(s: seq<T>, toRemove: seq<int>) returns (t: seq<T>, taken: seq<T>)
    requires ValidIndices(|s|, toRemove)
    ensures t == Survivors(s, Elems(toRemove))
    ensures |taken| == |toRemove|
    ensures forall p :: 0 <= p < |toRemove| ==> taken[p] == s[toRemove[p]]
  {
    var pairs := Enumerate(toRemove);
    assert DistinctKeys(pairs, Second);
    var order := SortedDescending(pairs, Second);
    EnumeratedOrder(toRemove, order);
    var collected;
    ghost var done;
    t, collected, done := TakeDescending(s, toRemove, order);
    EverySlotFilled(s, toRemove, order, collected, done);
    taken := Somes(collected);
  }

  /**
   * The loop of lines 645-647: for each (slot, position) pair, in strictly
   * decreasing position order, the element at the position is removed and
   * stored in its slot; done is the set of slots filled.
   */
  method TakeDescending<T>(s: seq<T>, idx: seq<int>, order: seq<(int, int)>)
    returns (t: seq<T>, collected: seq<Option<T>>, ghost done: set<int>)
    requires forall a, b :: 0 <= a < b < |order| ==> Second(order[a]) > Second(order[b])
    requires forall q :: 0 <= q < |order| ==> 0 <= order[q].0 < |idx| && order[q].1 == idx[order[q].0]
    requires ValidIndices(|s|, idx)
    ensures t == Survivors(s, Elems(Keys(order)))
    ensures forall q :: 0 <= q < |order| ==> order[q].0 in done
    ensures SlotsFilled(s, idx, collected, done)
  {
    ghost var keys := Keys(order);
    collected := seq(|idx|, _ => None);
    done := {};
    t := s;
    assert Elems(keys[..0]) == {};
    SieveUntouched(s, {}, 0);
    for k := 0 to |order|
      invariant t == Survivors(s, Elems(keys[..k]))
      invariant forall q :: 0 <= q < k ==> order[q].0 in done
      invariant SlotsFilled(s, idx, collected, done)
    {
      var (i, r) := order[k];
      StepDescending(s, Elems(keys[..k]), r);
      SlotsStep(s, idx, collected, done, i, t[r]);
      collected := collected[i := Some(t[r])];
      done := done + {i};
      t := Remove(t, r);
      ElemsSnoc(keys, k);
    }
    assert keys[..|order|] == keys;
  }

  /**
   * The state of the `swap_remove` loops after k of the positions in order
   * have been removed, the last of them being low: t has k fewer elements,
   * holds s unchanged below low, and t plus the elements removed so far are
   * the elements of s.
   */
  ghost predicate SwapState<T>(s: seq<T>, t: seq<T>, order: seq<int>, k: int, low: int)
    requires 0 <= k <= |order|
  {
    && |t| == |s| - k && 0 <= low <= |t|
    && (k == 0 ==> low == |s|)
    && (k > 0 ==> low == order[k - 1])
    && (forall q :: 0 <= q < low ==> t[q] == s[q])
    && multiset(t) + multiset(Picked(s, Elems(order[..k]))) == multiset(s)
  }

  /** One `swap_remove` at the next (lower) position keeps the loop state. */
  lemma SwapStep<T>(s: seq<T>, t: seq<T>, order: seq<int>, k: int, low: int)
    requires forall a, b :: 0 <= a < b < |order| ==> order[a] > order[b]
    requires forall q :: 0 <= q < |order| ==> 0 <= order[q] < |s|
    requires 0 <= k < |order| && SwapState(s, t, order, k, low)
    ensures order[k] < |t| && t[order[k]] == s[order[k]]
    ensures SwapState(s, SwapRemove(t, order[k]), order, k + 1, order[k])
    ensures Picked(s, Elems(order[..k + 1])) == [s[order[k]]] + Picked(s, Elems(order[..k]))
  {
    var r := order[k];
    assert r < low;
    StepDescending(s, Elems(order[..k]), r);
    ElemsSnoc(order, k);
    var t' := SwapRemove(t, r);
    assert multiset(t') + multiset{s[r]} == multiset(t);
    assert multiset([s[r]] + Picked(s, Elems(order[..k]))) == multiset{s[r]} + multiset(Picked(s, Elems(order[..k])));
  }

  /** At the end of a `swap_remove` loop: everything below the lowest removed position is in place. */
  lemma SwapDone<T>(s: seq<T>, t: seq<T>, toRemove: seq<int>, order: seq<int>, low: int)
    requires Elems(order) == Elems(toRemove) && |order| == |toRemove| && SwapState(s, t, order, |order|, low)
    ensures |t| == |s| - |toRemove|
    ensures multiset(t) + multiset(Picked(s, Elems(toRemove))) == multiset(s)
    ensures forall k :: 0 <= k < |t| && (forall r :: r in toRemove ==> k < r) ==> t[k] == s[k]
  {
    assert order[..|order|] == order;
    forall k | 0 <= k < |t| && (forall r :: r in toRemove ==> k < r) ensures t[k] == s[k] {
      if |order| > 0 {
        assert order[|order| - 1] in Elems(order);
      }
    }
  }

  /**
   * `swap_remove_multiple` (lines 621-627): removes the listed positions
   * with `swap_remove`.  The remaining elements are those of s less the
   * removed ones (order is not kept), and every element below the lowest
   * removed position stays where it was.
   */
  method SwapRemoveMultiple<T>(s: seq<T>, toRemove: seq<int>) returns (t: seq<T>)
    requires ValidIndices(|s|, toRemove)
    ensures |t| == |s| - |toRemove|
    ensures multiset(t) + multiset(Picked(s, Elems(toRemove))) == multiset(s)
    ensures forall k :: 0 <= k < |t| && (forall r :: r in toRemove ==> k < r) ==> t[k] == s[k]
  {
    var order := RemovalOrder(toRemove);
    InRange(s, toRemove, order);
    ghost var low;
    t, low := SwapRemoveDescending(s, order);
    SwapDone(s, t, toRemove, order, low);
  }

  /**
   * The loop of lines 624-626: `swap_remove` at each position of a strictly
   * decreasing index list; low is the last position removed.
   */
  method SwapRemoveDescending<T>(s: seq<T>, order: seq<int>) returns (t: seq<T>, ghost low: int)
    requires forall a, b :: 0 <= a < b < |order| ==> order[a] > order[b]
    requires forall q :: 0 <= q < |order| ==> 0 <= order[q] < |s|
    ensures SwapState(s, t, order, |order|, low)
  {
    t := s;
    low := |s|;
    assert Elems(order[..0]) == {};
    SieveUntouched(s, {}, 0);
    for k := 0 to |order|
      invariant SwapState(s, t, order, k, low)
    {
      SwapStep(s, t, order, k, low);
      t := SwapRemove(t, order[k]);
      low := order[k];
    }
  }

  /**
   * `swap_take_multiple` (lines 651-659): removes the listed positions as
   * `swap_remove_multiple` does and returns the removed elements in
   * decreasing position order — the reverse of `take_multiple`'s.
   */
  method SwapTakeMultiple<T>(s: seq<T>, toRemove: seq<int>) returns (t: seq<T>, collected: seq<T>)
    requires ValidIndices(|s|, toRemove)
    ensures |t| == |s| - |toRemove|
    ensures collected == Reverse(Picked(s, Elems(toRemove)))
    ensures multiset(t) + multiset(collected) == multiset(s)
    ensures forall k :: 0 <= k < |t| && (forall r :: r in toRemove ==> k < r) ==> t[k] == s[k]
  {
    var order := RemovalOrder(toRemove);
    InRange(s, toRemove, order);
    t := s;
    collected := [];
    ghost var low := |s|;
    for k := 0 to |order|
      invariant SwapState(s, t, order, k, low)
      invariant Reverse(collected) == Picked(s, Elems(order[..k]))
    {
      SwapStep(s, t, order, k, low);
      var x := t[order[k]];
      t := SwapRemove(t, order[k]);
      ReverseSnoc(collected, x);
      collected := collected + [x];
      low := order[k];
    }
    assert order[..|order|] == order;
    ReverseInvolution(collected);
    ReverseMultiset(collected);
    SwapDone(s, t, toRemove, order, low);
  }
}
