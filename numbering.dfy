/** The `data.map((item, index) => ({ ...item, id: index + 1 }))` idiom used for every row set the
    dashboard displays: each row keeps all of its fields and gains a one-based `id`. */
module Numbering {

  datatype Numbered<T> = Numbered(item: T, id: nat)

  /** The rows of a numbered sequence with their ids dropped. */
  function Items<T>(s: seq<Numbered<T>>): (r: seq<T>)
    ensures |r| == |s|
    ensures forall i :: 0 <= i < |s| ==> r[i] == s[i].item
  {
    seq(|s|, i requires 0 <= i < |s| => s[i].item)
  }

  /** Attach `id = index + 1` to every row. */
  function Number<T>(s: seq<T>): (r: seq<Numbered<T>>)
    ensures Items(r) == s
    ensures forall i :: 0 <= i < |r| ==> r[i].id == i + 1
  {
    seq(|s|, i requires 0 <= i < |s| => Numbered(s[i], i + 1))
  }

  /** Ids are strictly increasing, hence pairwise distinct. */
  predicate IncreasingIds<T>(s: seq<Numbered<T>>) {
    forall i, j :: 0 <= i < j < |s| ==> s[i].id < s[j].id
  }

  /** Numbering gives the ids 1..n in order, so they are unique keys for a grid. */
  lemma {:induction false} NumberedIdsIncrease<T>(s: seq<T>)
    ensures IncreasingIds(Number(s))
    ensures forall i :: 0 <= i < |s| ==> 1 <= Number(s)[i].id <= |s|
  {
  }
}
