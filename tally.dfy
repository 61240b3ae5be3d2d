/** A JavaScript object used as a counter dictionary (`counts[key]++` / `counts[key] = 1`),
    as an association list in key-insertion order, which is the order `Object.keys` and
    `Object.entries` enumerate non-numeric keys in. */
module Tally {

  type Tally = seq<(string, nat)>

  /** The keys of an association list keyed by strings, in insertion order. */
  function Keys<V>(t: seq<(string, V)>): (r: seq<string>)
    ensures |r| == |t|
    ensures forall i :: 0 <= i < |t| ==> r[i] == t[i].0
  {
    if t == [] then [] else [t[0].0] + Keys(t[1..])
  }

  predicate DistinctKeys<V>(t: seq<(string, V)>) {
    forall i, j :: 0 <= i < j < |t| ==> t[i].0 != t[j].0
  }

  /** Every stored count is at least one. */
  predicate Positive(t: Tally) {
    forall i :: 0 <= i < |t| ==> t[i].1 >= 1
  }

  /** `counts[k]`, reading an absent key as 0. */
  function Get(t: Tally, k: string): (n: nat)
    ensures k !in Keys(t) ==> n == 0
  {
    if t == [] then 0 else if t[0].0 == k then t[0].1 else Get(t[1..], k)
  }

  /** The sum of all stored counts. */
  function Sum(t: Tally): nat {
    if t == [] then 0 else t[0].1 + Sum(t[1..])
  }

  /** `if (k in t) t[k]++; else t[k] = 1;` -- a new key is appended, an existing key keeps its place. */
  function Bump(t: Tally, k: string): (r: Tally)
    ensures Keys(r) == if k in Keys(t) then Keys(t) else Keys(t) + [k]
    ensures Sum(r) == Sum(t) + 1
    ensures Positive(t) ==> Positive(r)
  {
    if t == [] then [(k, 1)]
    else if t[0].0 == k then [(k, t[0].1 + 1)] + t[1..]
    else [t[0]] + Bump(t[1..], k)
  }

  /** A bumped key's count goes up by one (so a new key starts at 1) and no other count changes. */
  lemma {:induction false} BumpGet(t: Tally, k: string, j: string)
    ensures Get(Bump(t, k), j) == Get(t, j) + (if j == k then 1 else 0)
  {
    if t != [] && t[0].0 != k {
      BumpGet(t[1..], k, j);
    }
  }

  lemma {:induction false} BumpKeepsDistinct(t: Tally, k: string)
    requires DistinctKeys(t)
    ensures DistinctKeys(Bump(t, k))
  {
    var r := Bump(t, k);
    assert Keys(r) == if k in Keys(t) then Keys(t) else Keys(t) + [k];
    forall i, j | 0 <= i < j < |r| ensures r[i].0 != r[j].0 {
      assert Keys(r)[i] == r[i].0 && Keys(r)[j] == r[j].0;
      if j < |t| {
        assert Keys(t)[i] == t[i].0 && Keys(t)[j] == t[j].0;
      } else {
        assert k !in Keys(t) && Keys(r)[j] == k;
        assert Keys(t)[i] == t[i].0;
      }
    }
  }

  /** With distinct keys, `Get` at the i-th key is the i-th count. */
  lemma {:induction false} GetAt(t: Tally, i: nat)
    requires DistinctKeys(t) && i < |t|
    ensures Get(t, t[i].0) == t[i].1
  {
    if i > 0 {
      GetAt(t[1..], i - 1);
    }
  }
}
