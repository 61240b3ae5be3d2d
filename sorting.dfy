/** Sorting by a numeric key in descending order, as `array.sort((a, b) => key(b) - key(a))` does.
    JavaScript's sort is stable; `SortDesc` is the stable insertion sort, and `SortInPlace` runs the
    same insertion sort on an array. */
module Sorting {

  /** Keys never increase from left to right. */
  ghost predicate SortedDesc<T>(s: seq<T>, key: T -> int) {
    forall i, j :: 0 <= i < j < |s| ==> key(s[i]) >= key(s[j])
  }

  /** Insert `x` into `s` after every element whose key is at least `x`'s, shifting from the right. */
  function Insert<T>(s: seq<T>, x: T, key: T -> int): (r: seq<T>)
    ensures |r| == |s| + 1
  {
    if s == [] then [x]
    else if key(s[|s| - 1]) < key(x) then Insert(s[..|s| - 1], x, key) + [s[|s| - 1]]
    else s + [x]
  }

  /** Insertion adds exactly `x` to the multiset of elements. */
  lemma {:induction false} InsertPermutes<T>(s: seq<T>, x: T, key: T -> int)
    ensures multiset(Insert(s, x, key)) == multiset(s) + multiset{x}
  {
    if s != [] && key(s[|s| - 1]) < key(x) {
      InsertPermutes(s[..|s| - 1], x, key);
      assert s == s[..|s| - 1] + [s[|s| - 1]];
    }
  }

  /** A lower bound on the keys of `s` and of `x` bounds the keys after insertion. */
  lemma {:induction false} InsertBounded<T>(s: seq<T>, x: T, key: T -> int, bound: int)
    requires forall k :: 0 <= k < |s| ==> key(s[k]) >= bound
    requires key(x) >= bound
    ensures forall k :: 0 <= k < |Insert(s, x, key)| ==> key(Insert(s, x, key)[k]) >= bound
  {
    if s != [] && key(s[|s| - 1]) < key(x) {
      InsertBounded(s[..|s| - 1], x, key, bound);
    }
  }

  /** Insertion into a descending sequence keeps it descending. */
  lemma {:induction false} InsertSorted<T>(s: seq<T>, x: T, key: T -> int)
    requires SortedDesc(s, key)
    ensures SortedDesc(Insert(s, x, key), key)
  {
    if s != [] && key(s[|s| - 1]) < key(x) {
      var init, last := s[..|s| - 1], s[|s| - 1];
      InsertSorted(init, x, key);
      InsertBounded(init, x, key, key(last));
      assert Insert(s, x, key) == Insert(init, x, key) + [last];
    }
  }

  /** The stable descending sort: insert the elements one by one, left to right. The result is a
      permutation of the input, descending by key. */
  function SortDesc<T>(s: seq<T>, key: T -> int): (r: seq<T>)
    ensures |r| == |s|
    ensures multiset(r) == multiset(s)
    ensures SortedDesc(r, key)
  {
    if s == [] then []
    else
      var init, last := s[..|s| - 1], s[|s| - 1];
      var sorted := SortDesc(init, key);
      InsertPermutes(sorted, last, key);
      InsertSorted(sorted, last, key);
      assert s == init + [last];
      Insert(sorted, last, key)
  }

  /** The elements of `s` whose key is `v`, in their order in `s`. */
  function WithKey<T>(s: seq<T>, key: T -> int, v: int): (r: seq<T>)
    ensures |r| <= |s|
  {
    if s == [] then []
    else WithKey(s[..|s| - 1], key, v) + (if key(s[|s| - 1]) == v then [s[|s| - 1]] else [])
  }

  lemma {:induction false} WithKeyAppend<T>(a: seq<T>, b: seq<T>, key: T -> int, v: int)
    ensures WithKey(a + b, key, v) == WithKey(a, key, v) + WithKey(b, key, v)
    decreases |b|
  {
    if b == [] {
      assert a + b == a;
    } else {
      assert (a + b)[..|a + b| - 1] == a + b[..|b| - 1];
      WithKeyAppend(a, b[..|b| - 1], key, v);
    }
  }

  /** `x` lands after every element of `s` with the same key. */
  lemma {:induction false} InsertWithKey<T>(s: seq<T>, x: T, key: T -> int, v: int)
    ensures WithKey(Insert(s, x, key), key, v) == WithKey(s, key, v) + WithKey([x], key, v)
  {
    if s == [] {
      assert [x][..0] == [];
    } else if key(s[|s| - 1]) < key(x) {
      var init, last := s[..|s| - 1], s[|s| - 1];
      InsertWithKey(init, x, key, v);
      WithKeyAppend(Insert(init, x, key), [last], key, v);
      WithKeyAppend(init, [last], key, v);
      assert [last][..0] == [] && [x][..0] == [];
      assert s == init + [last];
    } else {
      WithKeyAppend(s, [x], key, v);
    }
  }

  /** Stability: the elements sharing a key keep their input order. */
  lemma {:induction false} SortDescStable<T>(s: seq<T>, key: T -> int, v: int)
    ensures WithKey(SortDesc(s, key), key, v) == WithKey(s, key, v)
  {
    if s != [] {
      var init, last := s[..|s| - 1], s[|s| - 1];
      SortDescStable(init, key, v);
      InsertWithKey(SortDesc(init, key), last, key, v);
      assert [last][..0] == [];
    }
  }

  /** Where the insertion lands: after the prefix `s[..j]` when everything from `j` on has a smaller
      key than `x` and `s[j - 1]` (if any) does not. */
  lemma {:induction false} InsertSplit<T>(s: seq<T>, x: T, key: T -> int, j: nat)
    requires j <= |s|
    requires forall k :: j <= k < |s| ==> key(s[k]) < key(x)
    requires j == 0 || key(s[j - 1]) >= key(x)
    ensures Insert(s, x, key) == s[..j] + [x] + s[j..]
    decreases |s|
  {
    if j < |s| {
      var init := s[..|s| - 1];
      InsertSplit(init, x, key, j);
      assert init[..j] == s[..j];
      assert s[j..] == init[j..] + [s[|s| - 1]];
    } else {
      assert s[..j] == s;
    }
  }

  /** One step of the in-place sort: move `a[i]` left over the elements of the sorted prefix
      `a[..i]` whose key is smaller. */
  method InsertAt<T>(a: array<T>, i: nat, key: T -> int)
    requires i < a.Length
    modifies a
    ensures a[..i + 1] == Insert(old(a[..i]), old(a[i]), key)
    ensures a[i + 1..] == old(a[i + 1..])
  {
    var x := a[i];
    ghost var done := a[..i];
    var j := i;
    while j > 0 && key(a[j - 1]) < key(x)
      invariant 0 <= j <= i
      invariant forall k :: 0 <= k < j ==> a[k] == done[k]
      invariant forall k :: j < k <= i ==> a[k] == done[k - 1]
      invariant forall k :: i < k < a.Length ==> a[k] == old(a[k])
      invariant forall k :: j <= k < i ==> key(done[k]) < key(x)
    {
      a[j] := a[j - 1];
      j := j - 1;
    }
    a[j] := x;
    InsertSplit(done, x, key, j);
    Shifted(a[..i + 1], done, x, j);
  }

  /** The array contents after the shifting loop: `done` with `x` placed at position `j`. */
  lemma {:induction false} Shifted<T>(after: seq<T>, done: seq<T>, x: T, j: nat)
    requires j <= |done| && |after| == |done| + 1
    requires forall k :: 0 <= k < j ==> after[k] == done[k]
    requires after[j] == x
    requires forall k :: j < k < |after| ==> after[k] == done[k - 1]
    ensures after == done[..j] + [x] + done[j..]
  {
  }

  /** One round of the in-place sort: inserting the next element into the sorted prefix extends
      the prefix that equals the sort of the input's prefix by one. */
  lemma {:induction false} SortStep<T>(input: seq<T>, before: seq<T>, after: seq<T>, i: nat, key: T -> int)
    requires i < |input| == |before| == |after|
    requires before[..i] == SortDesc(input[..i], key) && before[i..] == input[i..]
    requires after[..i + 1] == Insert(before[..i], before[i], key) && after[i + 1..] == before[i + 1..]
    ensures after[..i + 1] == SortDesc(input[..i + 1], key) && after[i + 1..] == input[i + 1..]
  {
    assert before[i] == before[i..][0] == input[i..][0] == input[i];
    assert input[..i + 1][..i] == input[..i];
    assert before[i + 1..] == before[i..][1..];
    assert input[i + 1..] == input[i..][1..];
  }

  /** The in-place sort of an array; the result is the stable descending sort of the old contents. */
  method SortInPlace<T>(a: array<T>, key: T -> int)
    modifies a
    ensures a[..] == SortDesc(old(a[..]), key)
  {
    ghost var input := a[..];
    for i := 0 to a.Length
      invariant a[..i] == SortDesc(input[..i], key)
      invariant a[i..] == input[i..]
    {
      ghost var before := a[..];
      InsertAt(a, i, key);
      SortStep(input, before, a[..], i, key);
    }
    assert input[..a.Length] == input;
  }
}
