/** `array.filter(p).length`, the way every dashboard statistic is computed. */
module Counting {

  /** `Math.min` on counts. */
  function Min(a: nat, b: nat): nat { if a < b then a else b }

  /** The number of elements of `s` that satisfy `p`. */
  function CountIf<T>(s: seq<T>, p: T -> bool): (n: nat)
    ensures n <= |s|
  {
    if s == [] then 0 else (if p(s[0]) then 1 else 0) + CountIf(s[1..], p)
  }

  lemma {:induction false} CountIfAppend<T>(a: seq<T>, b: seq<T>, p: T -> bool)
    ensures CountIf(a + b, p) == CountIf(a, p) + CountIf(b, p)
  {
    if a != [] {
      assert (a + b)[1..] == a[1..] + b;
      CountIfAppend(a[1..], b, p);
    } else {
      assert a + b == b;
    }
  }

  /** A filter that keeps everything keeps `|s|` elements. */
  lemma {:induction false} CountIfAll<T>(s: seq<T>, p: T -> bool)
    requires forall x | x in s :: p(x)
    ensures CountIf(s, p) == |s|
  {
    if s != [] {
      CountIfAll(s[1..], p);
    }
  }

  /** Filters that agree on the elements give the same count. */
  lemma {:induction false} CountIfSame<T>(s: seq<T>, p: T -> bool, q: T -> bool)
    requires forall x | x in s :: p(x) == q(x)
    ensures CountIf(s, p) == CountIf(s, q)
  {
    if s != [] {
      CountIfSame(s[1..], p, q);
    }
  }

  lemma {:induction false} CountIfSingleton<T>(x: T, p: T -> bool)
    ensures CountIf([x], p) == if p(x) then 1 else 0
  {
    assert [x][1..] == [];
  }

  /** Counting a non-empty list is counting all but its last element, plus that element. */
  lemma {:induction false} CountIfLast<T>(s: seq<T>, p: T -> bool)
    requires s != []
    ensures CountIf(s, p) == CountIf(s[..|s| - 1], p) + (if p(s[|s| - 1]) then 1 else 0)
  {
    var init, x := s[..|s| - 1], s[|s| - 1];
    CountIfAppend(init, [x], p);
    CountIfSingleton(x, p);
    assert init + [x] == s;
  }

  /** A filter that implies another counts no more than it. */
  lemma {:induction false} CountIfMonotone<T>(s: seq<T>, p: T -> bool, q: T -> bool)
    requires forall x | x in s :: p(x) ==> q(x)
    ensures CountIf(s, p) <= CountIf(s, q)
  {
    if s != [] {
      CountIfMonotone(s[1..], p, q);
    }
  }

  /** Two disjoint filters that both imply `r` count no more together than `r` does. */
  lemma {:induction false} CountIfDisjoint<T>(s: seq<T>, p: T -> bool, q: T -> bool, r: T -> bool)
    requires forall x | x in s :: (p(x) ==> r(x)) && (q(x) ==> r(x)) && !(p(x) && q(x))
    ensures CountIf(s, p) + CountIf(s, q) <= CountIf(s, r)
  {
    if s != [] {
      CountIfDisjoint(s[1..], p, q, r);
    }
  }

  /** Counting `b` is counting `b` without its i-th element, plus that element. */
  lemma {:induction false} CountIfRemove<T>(b: seq<T>, i: nat, p: T -> bool)
    requires i < |b|
    ensures CountIf(b, p) == (if p(b[i]) then 1 else 0) + CountIf(b[..i] + b[i + 1..], p)
  {
    if i == 0 {
      assert b[..0] + b[1..] == b[1..];
    } else {
      var tail := b[1..];
      CountIfRemove(tail, i - 1, p);
      var r := b[..i] + b[i + 1..];
      assert r[0] == b[0];
      assert r[1..] == tail[..i - 1] + tail[i..];
      assert tail[i - 1] == b[i];
    }
  }

  lemma {:induction false} MultisetHead<T>(s: seq<T>)
    requires s != []
    ensures multiset(s) == multiset{s[0]} + multiset(s[1..])
  {
    assert s == [s[0]] + s[1..];
  }

  lemma {:induction false} MultisetRemove<T>(b: seq<T>, i: nat)
    requires i < |b|
    ensures multiset(b[..i] + b[i + 1..]) == multiset(b) - multiset{b[i]}
  {
    assert b == b[..i] + [b[i]] + b[i + 1..];
  }

  /** A count depends only on the multiset of elements, not on their order. */
  lemma {:induction false} CountIfPermutation<T>(a: seq<T>, b: seq<T>, p: T -> bool)
    requires multiset(a) == multiset(b)
    ensures CountIf(a, p) == CountIf(b, p)
  {
    if a == [] {
      assert |b| == |multiset(b)| == 0;
    } else {
      var x := a[0];
      assert x in multiset(b);
      var i :| 0 <= i < |b| && b[i] == x;
      MultisetRemove(b, i);
      assert a == [x] + a[1..];
      assert multiset(a[1..]) == multiset(a) - multiset{x};
      CountIfPermutation(a[1..], b[..i] + b[i + 1..], p);
      CountIfRemove(b, i, p);
    }
  }
}
