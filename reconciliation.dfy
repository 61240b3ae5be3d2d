/** Reconciliation of a DDIN export (file 1) against an Efashe export (file 2): every DDIN row is
    paired with the first Efashe row carrying the same transaction reference, and the rows of
    each side whose reference never occurs on the other side are listed as unmatched, with the
    totals of each bucket. */
module Reconciliation {
  import opened Wrappers
  import opened Numbering
  import JsText
  import Counting

  /** One parsed CSV row. `reference` is the `Transaction_reference` cell (`None` when the column is
      missing, which JavaScript reads as `undefined`); `amount` is `parseFloat(row.Amount || 0)` in
      minor units, so an empty or missing cell is 0; `fields` are the other columns, carried along. */
  datatype Row = Row(reference: Option<string>, amount: int, fields: map<string, string>)

  /** An uploaded row: the parsed row with `id = index + 1`. */
  type Record = Numbered<Row>

  /** The `file2_amount` of a comparison row: the counterpart's amount or the `'No Match'` sentinel. */
  datatype Counterpart = Amount(value: int) | NoMatch

  /** A comparison row, `{ ...row1, file2_amount, id }`. */
  datatype Compared = Compared(row: Row, id: nat, file2Amount: Counterpart)

  /** A matched row, `{ ...row1, file2_amount: match.Amount }`; `id` is the DDIN row's own id. */
  datatype MatchedRow = MatchedRow(row: Row, id: nat, file2Amount: int)

  datatype Source = DDIN | Efashe

  /** An unmatched row, `{ ...row, source, id: `${source}-${k}` }`. */
  datatype UnmatchedRow = UnmatchedRow(row: Row, source: Source, id: string)

  /** Which of the two upload boxes delivered a file. */
  datatype Slot = DdinFile | EfasheFile

  // ---------------------------------------------------------------------------------------------
  // Totals: `rows.reduce((sum, row) => sum + amount(row), 0)` in exact arithmetic.

  function Sum<T>(s: seq<T>, amount: T -> int): int {
    if s == [] then 0 else amount(s[0]) + Sum(s[1..], amount)
  }

  lemma {:induction false} SumAppend<T>(a: seq<T>, b: seq<T>, amount: T -> int)
    ensures Sum(a + b, amount) == Sum(a, amount) + Sum(b, amount)
  {
    if a == [] {
      assert a + b == b;
    } else {
      assert (a + b)[1..] == a[1..] + b;
      SumAppend(a[1..], b, amount);
    }
  }

  function RecordAmount(r: Record): int { r.item.amount }
  function MatchedAmount(m: MatchedRow): int { m.row.amount }
  function CounterpartAmount(m: MatchedRow): int { m.file2Amount }
  function UnmatchedAmount(u: UnmatchedRow): int { u.row.amount }

  // ---------------------------------------------------------------------------------------------
  // Matching.

  /** `rows.some(r => r.Transaction_reference === key)`. */
  predicate Occurs(rows: seq<Record>, key: Option<string>) {
    exists j :: 0 <= j < |rows| && rows[j].item.reference == key
  }

  /** The position of `rows.find(r => r.Transaction_reference === key)`: the first row with that
      reference, or `None` exactly when no row has it. */
  function FirstMatch(rows: seq<Record>, key: Option<string>): (r: Option<nat>)
    ensures r.Some? ==> r.value < |rows| && rows[r.value].item.reference == key
    ensures r.Some? ==> forall j :: 0 <= j < r.value ==> rows[j].item.reference != key
    ensures r.None? <==> !Occurs(rows, key)
  {
    if rows == [] then None
    else if rows[0].item.reference == key then Some(0)
    else match FirstMatch(rows[1..], key)
      case Some(j) => Some(j + 1)
      case None => None
  }

  /** `match ? match.Amount : 'No Match'`. */
  function CounterpartOf(file2: seq<Record>, key: Option<string>): Counterpart {
    match FirstMatch(file2, key)
    case Some(j) => Amount(file2[j].item.amount)
    case None => NoMatch
  }

  /** What one DDIN row contributes to `matched`: one entry if it has a counterpart, none otherwise. */
  function MatchOf(row1: Record, file2: seq<Record>): seq<MatchedRow> {
    match FirstMatch(file2, row1.item.reference)
    case Some(j) => [MatchedRow(row1.item, row1.id, file2[j].item.amount)]
    case None => []
  }

  /** The DDIN rows `find` succeeds for. */
  function HasCounterpart(file2: seq<Record>): Record -> bool {
    (row1: Record) => Occurs(file2, row1.item.reference)
  }

  /** The final contents of `matched`: one entry per DDIN row that has a counterpart. */
  function Matched(file1: seq<Record>, file2: seq<Record>): (r: seq<MatchedRow>)
    ensures |r| == Counting.CountIf(file1, HasCounterpart(file2)) <= |file1|
  {
    if file1 == [] then [] else MatchOf(file1[0], file2) + Matched(file1[1..], file2)
  }

  /** `results`: one comparison row per DDIN row, renumbered 1..n; the counterpart is
      `'No Match'` exactly when the row's reference occurs in no Efashe row. */
  function Results(file1: seq<Record>, file2: seq<Record>): (r: seq<Compared>)
    ensures |r| == |file1|
    ensures forall i :: 0 <= i < |r| ==> r[i].row == file1[i].item && r[i].id == i + 1
    ensures forall i :: 0 <= i < |r| ==> (r[i].file2Amount.NoMatch? <==> !Occurs(file2, file1[i].item.reference))
  {
    seq(|file1|, i requires 0 <= i < |file1| =>
      Compared(file1[i].item, i + 1, CounterpartOf(file2, file1[i].item.reference)))
  }

  /** `rows.filter(r => !other.some(o => o.Transaction_reference === r.Transaction_reference))`. */
  function Unpaired(rows: seq<Record>, other: seq<Record>): (r: seq<Record>)
    ensures |r| <= |rows|
    ensures forall x | x in r :: x in rows && !Occurs(other, x.item.reference)
  {
    if rows == [] then []
    else (if Occurs(other, rows[0].item.reference) then [] else [rows[0]]) + Unpaired(rows[1..], other)
  }

  function SourceName(source: Source): string {
    match source
    case DDIN => "DDIN"
    case Efashe => "Efashe"
  }

  /** The string id `${source}-${k}`. */
  function Label(source: Source, k: nat): string {
    SourceName(source) + "-" + JsText.NatToString(k)
  }

  /** `.map((row, index) => ({ ...row, source, id: `${source}-${index + 1}` }))`: every row is kept,
      in order, tagged with its source, and the string ids are pairwise distinct. */
  function Tag(rows: seq<Record>, source: Source): (r: seq<UnmatchedRow>)
    ensures |r| == |rows|
    ensures forall k :: 0 <= k < |r| ==> r[k].row == rows[k].item && r[k].source == source
    ensures forall i, j :: 0 <= i < j < |r| ==> r[i].id != r[j].id
  {
    var r := seq(|rows|, k requires 0 <= k < |rows| => UnmatchedRow(rows[k].item, source, Label(source, k + 1)));
    assert forall i, j :: 0 <= i < j < |r| ==> r[i].id != r[j].id by {
      forall i, j | 0 <= i < j < |r| ensures r[i].id != r[j].id {
        if r[i].id == r[j].id {
          LabelInjective(source, i + 1, source, j + 1);
        }
      }
    }
    r
  }

  /** `unmatched = [...unmatchedFile1, ...unmatchedFile2]`. */
  function Unmatched(file1: seq<Record>, file2: seq<Record>): seq<UnmatchedRow> {
    Tag(Unpaired(file1, file2), DDIN) + Tag(Unpaired(file2, file1), Efashe)
  }

  /** The DDIN side of the matched rows, as the records they came from. */
  function MatchedRecords(m: seq<MatchedRow>): (r: seq<Record>)
    ensures |r| == |m|
    ensures forall k :: 0 <= k < |m| ==> r[k] == Numbered(m[k].row, m[k].id)
  {
    seq(|m|, k requires 0 <= k < |m| => Numbered(m[k].row, m[k].id))
  }

  // ---------------------------------------------------------------------------------------------
  // The loop of `compareFiles`: `file1Data.map(row1 => { find; if (match) matched.push(...); ... })`
  // followed by the renumbering map.

  /** The callback of `file1Data.map`: `find` the first Efashe row with the same reference, `push`
      the DDIN row with its amount onto `matched` when there is one, and return the comparison row
      (still carrying the DDIN row's own id). */
  method CompareRow(row1: Record, file2: seq<Record>, matched: seq<MatchedRow>)
    returns (compared: Compared, matched': seq<MatchedRow>)
    ensures compared == Compared(row1.item, row1.id, CounterpartOf(file2, row1.item.reference))
    ensures matched' == matched + MatchOf(row1, file2)
  {
    var found := FirstMatch(file2, row1.item.reference);
    matched' := matched;
    if found.Some? {
      matched' := matched' + [MatchedRow(row1.item, row1.id, file2[found.value].item.amount)];
    }
    var counterpart := if found.Some? then Amount(file2[found.value].item.amount) else NoMatch;
    compared := Compared(row1.item, row1.id, counterpart);
  }

  /** `file1Data.map(callback)` followed by the renumbering map. */
  method CollectMatches(file1: seq<Record>, file2: seq<Record>) returns (results: seq<Compared>, matched: seq<MatchedRow>)
    ensures results == Results(file1, file2)
    ensures matched == Matched(file1, file2)
  {
    matched := [];
    var mapped: seq<Compared> := [];
    for i := 0 to |file1|
      invariant |mapped| == i
      invariant forall k :: 0 <= k < i ==>
        mapped[k] == Compared(file1[k].item, file1[k].id, CounterpartOf(file2, file1[k].item.reference))
      invariant matched == Matched(file1[..i], file2)
    {
      var compared;
      compared, matched := CompareRow(file1[i], file2, matched);
      MatchedPrefix(file1, i, file2);
      mapped := mapped + [compared];
    }
    assert file1[..|file1|] == file1;
    results := seq(|mapped|, k requires 0 <= k < |mapped| => Compared(mapped[k].row, k + 1, mapped[k].file2Amount));
  }

  /** One round of `compareFiles`' loop: `matched` of the rows so far, followed by what the next
      row pushes, is `matched` of one more row. */
  lemma {:induction false} MatchedSnoc(rows: seq<Record>, row1: Record, file2: seq<Record>)
    ensures Matched(rows + [row1], file2) == Matched(rows, file2) + MatchOf(row1, file2)
  {
    if rows == [] {
      assert [row1][1..] == [];
      assert rows + [row1] == [row1];
    } else {
      assert (rows + [row1])[1..] == rows[1..] + [row1];
      MatchedSnoc(rows[1..], row1, file2);
    }
  }

  /** `matched` after `i + 1` rows is `matched` after `i` rows plus what row `i` pushes. */
  lemma {:induction false} MatchedPrefix(file1: seq<Record>, i: nat, file2: seq<Record>)
    requires i < |file1|
    ensures Matched(file1[..i + 1], file2) == Matched(file1[..i], file2) + MatchOf(file1[i], file2)
  {
    assert file1[..i + 1] == file1[..i] + [file1[i]];
    MatchedSnoc(file1[..i], file1[i], file2);
  }

  // ---------------------------------------------------------------------------------------------
  // Properties.

  /** Every DDIN row gets exactly one comparison row, in order; its counterpart amount is the
      amount of the first Efashe row with the same reference, and 'No Match' exactly when the
      reference occurs nowhere in the Efashe file. */
  lemma {:induction false} ResultsDescribeEveryRow(file1: seq<Record>, file2: seq<Record>, i: nat)
    requires i < |file1|
    ensures |Results(file1, file2)| == |file1|
    ensures Results(file1, file2)[i].row == file1[i].item && Results(file1, file2)[i].id == i + 1
    ensures Results(file1, file2)[i].file2Amount == NoMatch <==> !Occurs(file2, file1[i].item.reference)
    ensures Results(file1, file2)[i].file2Amount.Amount? ==>
      exists j :: 0 <= j < |file2| && file2[j].item.reference == file1[i].item.reference
        && Results(file1, file2)[i].file2Amount.value == file2[j].item.amount
        && forall k :: 0 <= k < j ==> file2[k].item.reference != file1[i].item.reference
  {
    var key := file1[i].item.reference;
    match FirstMatch(file2, key)
    case Some(j) =>
      assert file2[j].item.reference == key;
    case None =>
  }

  /** Each matched row names a DDIN row whose reference occurs in the Efashe file, and carries the
      amount of the first Efashe row with that reference. */
  lemma {:induction false} MatchedCarryCounterparts(file1: seq<Record>, file2: seq<Record>)
    ensures forall m | m in Matched(file1, file2) ::
      Occurs(file2, m.row.reference) && CounterpartOf(file2, m.row.reference) == Amount(m.file2Amount)
  {
    if file1 != [] {
      MatchedCarryCounterparts(file1[1..], file2);
    }
  }

  lemma {:induction false} MatchedRecordsAppend(a: seq<MatchedRow>, b: seq<MatchedRow>)
    ensures MatchedRecords(a + b) == MatchedRecords(a) + MatchedRecords(b)
  {
    assert |MatchedRecords(a + b)| == |MatchedRecords(a) + MatchedRecords(b)|;
    forall k | 0 <= k < |a + b|
      ensures MatchedRecords(a + b)[k] == (MatchedRecords(a) + MatchedRecords(b))[k]
    {
      if k < |a| {
        assert (a + b)[k] == a[k];
      } else {
        assert (a + b)[k] == b[k - |a|];
      }
    }
  }

  /** The record a DDIN row contributes to `matched`, if any. */
  lemma {:induction false} MatchOfRecord(r: Record, file2: seq<Record>)
    ensures Occurs(file2, r.item.reference) ==> MatchedRecords(MatchOf(r, file2)) == [r]
    ensures !Occurs(file2, r.item.reference) ==> MatchOf(r, file2) == []
  {
  }

  lemma {:induction false} DdinPartitionCount(file1: seq<Record>, file2: seq<Record>)
    ensures |Matched(file1, file2)| + |Unpaired(file1, file2)| == |file1|
  {
    if file1 != [] {
      DdinPartitionCount(file1[1..], file2);
      MatchOfRecord(file1[0], file2);
    }
  }

  lemma {:induction false} DdinPartitionMultiset(file1: seq<Record>, file2: seq<Record>)
    ensures multiset(MatchedRecords(Matched(file1, file2))) + multiset(Unpaired(file1, file2)) == multiset(file1)
  {
    if file1 != [] {
      var r, rest := file1[0], file1[1..];
      DdinPartitionMultiset(rest, file2);
      MatchOfRecord(r, file2);
      var here := MatchedRecords(MatchOf(r, file2));
      var left := if Occurs(file2, r.item.reference) then [] else [r];
      var mr, ur := MatchedRecords(Matched(rest, file2)), Unpaired(rest, file2);
      MatchedRecordsAppend(MatchOf(r, file2), Matched(rest, file2));
      assert multiset(MatchedRecords(Matched(file1, file2))) == multiset(here) + multiset(mr);
      assert multiset(Unpaired(file1, file2)) == multiset(left) + multiset(ur);
      assert multiset(here) + multiset(left) == multiset{r};
      Counting.MultisetHead(file1);
    }
  }

  lemma {:induction false} DdinPartitionTotal(file1: seq<Record>, file2: seq<Record>)
    ensures Sum(Matched(file1, file2), MatchedAmount) + Sum(Unpaired(file1, file2), RecordAmount)
         == Sum(file1, RecordAmount)
  {
    if file1 != [] {
      var r, rest := file1[0], file1[1..];
      DdinPartitionTotal(rest, file2);
      var left := if Occurs(file2, r.item.reference) then [] else [r];
      SumAppend(MatchOf(r, file2), Matched(rest, file2), MatchedAmount);
      SumAppend(left, Unpaired(rest, file2), RecordAmount);
      MatchOfRecord(r, file2);
    }
  }

  /** Partition of the DDIN file: each row is either matched (keeping its own id) or unmatched,
      exactly as often as it occurs; so the counts and the totals of the two buckets add up to
      those of the file. */
  lemma {:induction false} DdinPartition(file1: seq<Record>, file2: seq<Record>)
    ensures |Matched(file1, file2)| + |Unpaired(file1, file2)| == |file1|
    ensures multiset(MatchedRecords(Matched(file1, file2))) + multiset(Unpaired(file1, file2)) == multiset(file1)
    ensures Sum(Matched(file1, file2), MatchedAmount) + Sum(Tag(Unpaired(file1, file2), DDIN), UnmatchedAmount)
         == Sum(file1, RecordAmount)
  {
    DdinPartitionCount(file1, file2);
    DdinPartitionMultiset(file1, file2);
    DdinPartitionTotal(file1, file2);
    var u := Unpaired(file1, file2);
    SumPointwise(Tag(u, DDIN), UnmatchedAmount, u, RecordAmount);
  }

  /** A DDIN row is matched exactly when its reference occurs in the Efashe file, and unmatched
      exactly when it does not. */
  lemma {:induction false} DdinMembership(file1: seq<Record>, file2: seq<Record>, r: Record)
    ensures r in MatchedRecords(Matched(file1, file2)) <==> r in file1 && Occurs(file2, r.item.reference)
    ensures r in Unpaired(file1, file2) <==> r in file1 && !Occurs(file2, r.item.reference)
  {
    UnpairedMembership(file1, file2, r);
    MatchedMembership(file1, file2, r);
  }

  lemma {:induction false} UnpairedMembership(rows: seq<Record>, other: seq<Record>, r: Record)
    ensures r in Unpaired(rows, other) <==> r in rows && !Occurs(other, r.item.reference)
  {
    if rows != [] {
      UnpairedMembership(rows[1..], other, r);
      assert rows == [rows[0]] + rows[1..];
    }
  }

  lemma {:induction false} MatchedMembership(file1: seq<Record>, file2: seq<Record>, r: Record)
    ensures r in MatchedRecords(Matched(file1, file2)) <==> r in file1 && Occurs(file2, r.item.reference)
  {
    if file1 != [] {
      MatchedMembership(file1[1..], file2, r);
      MatchOfRecord(file1[0], file2);
      MatchedRecordsAppend(MatchOf(file1[0], file2), Matched(file1[1..], file2));
      assert file1 == [file1[0]] + file1[1..];
    }
  }

  /** The unmatched list is the DDIN rows without counterpart followed by the Efashe rows whose
      reference occurs nowhere in the DDIN file, each in its own file order, tagged with its source
      and a per-source position label starting at 1. */
  lemma {:induction false} UnmatchedShape(file1: seq<Record>, file2: seq<Record>, k: nat)
    requires k < |Unpaired(file1, file2)| + |Unpaired(file2, file1)|
    ensures |Unmatched(file1, file2)| == |Unpaired(file1, file2)| + |Unpaired(file2, file1)|
    ensures Unmatched(file1, file2)[k] ==
      if k < |Unpaired(file1, file2)|
      then UnmatchedRow(Unpaired(file1, file2)[k].item, DDIN, Label(DDIN, k + 1))
      else UnmatchedRow(Unpaired(file2, file1)[k - |Unpaired(file1, file2)|].item, Efashe,
                        Label(Efashe, k - |Unpaired(file1, file2)| + 1))
  {
    TaggedAt(Unpaired(file1, file2), Unpaired(file2, file1), k);
  }

  /** The entry at position `k` of a DDIN-tagged list followed by an Efashe-tagged list. */
  lemma {:induction false} TaggedAt(a: seq<Record>, b: seq<Record>, k: nat)
    requires k < |a| + |b|
    ensures (Tag(a, DDIN) + Tag(b, Efashe))[k] ==
      if k < |a| then UnmatchedRow(a[k].item, DDIN, Label(DDIN, k + 1))
      else UnmatchedRow(b[k - |a|].item, Efashe, Label(Efashe, k - |a| + 1))
  {
    var t1, t2 := Tag(a, DDIN), Tag(b, Efashe);
    if k < |a| {
      assert (t1 + t2)[k] == t1[k];
    } else {
      assert (t1 + t2)[k] == t2[k - |a|];
    }
  }

  /** Labels differ whenever the source or the position differs. */
  lemma {:induction false} LabelInjective(s1: Source, k1: nat, s2: Source, k2: nat)
    requires Label(s1, k1) == Label(s2, k2)
    ensures s1 == s2 && k1 == k2
  {
    var p1, p2 := SourceName(s1) + "-", SourceName(s2) + "-";
    assert Label(s1, k1) == p1 + JsText.NatToString(k1);
    assert Label(s2, k2) == p2 + JsText.NatToString(k2);
    assert Label(s1, k1)[0] == p1[0] && Label(s2, k2)[0] == p2[0];
    assert s1 == s2;
    JsText.CancelPrefix(p1, JsText.NatToString(k1), JsText.NatToString(k2));
    JsText.NatToStringInjective(k1, k2);
  }

  /** The ids of the unmatched list, which the grid uses as row keys, are pairwise distinct. */
  lemma {:induction false} UnmatchedIdsDistinct(file1: seq<Record>, file2: seq<Record>)
    ensures forall i, j :: 0 <= i < j < |Unmatched(file1, file2)| ==>
      Unmatched(file1, file2)[i].id != Unmatched(file1, file2)[j].id
  {
    var a, b := Unpaired(file1, file2), Unpaired(file2, file1);
    var u := Unmatched(file1, file2);
    forall i, j | 0 <= i < j < |u| ensures u[i].id != u[j].id {
      TaggedAt(a, b, i);
      TaggedAt(a, b, j);
      if u[i].id == u[j].id {
        var si := if i < |a| then DDIN else Efashe;
        var sj := if j < |a| then DDIN else Efashe;
        var ki := if i < |a| then i + 1 else i - |a| + 1;
        var kj := if j < |a| then j + 1 else j - |a| + 1;
        LabelInjective(si, ki, sj, kj);
      }
    }
  }

  /** An Efashe row is unmatched exactly when its reference occurs in no DDIN row. */
  lemma {:induction false} EfasheMembership(file1: seq<Record>, file2: seq<Record>, r: Record)
    ensures r in Unpaired(file2, file1) <==> r in file2 && !Occurs(file1, r.item.reference)
  {
    UnpairedMembership(file2, file1, r);
  }

  /** With an empty DDIN file there are no comparison, matched or unmatched-DDIN rows, and every
      Efashe row is unmatched. */
  lemma {:induction false} EmptyDdinFile(file2: seq<Record>)
    ensures Results([], file2) == [] && Matched([], file2) == [] && Unpaired([], file2) == []
    ensures Unpaired(file2, []) == file2
  {
    if file2 != [] {
      EmptyDdinFile(file2[1..]);
      assert !Occurs([], file2[0].item.reference);
    }
  }

  /** There is no Efashe analogue of the partition: with one DDIN row `T1` and two Efashe rows `T1`,
      the second Efashe row is neither a counterpart nor unmatched, and the Efashe bucket totals
      fall short of the Efashe file total. */
  lemma EfasheTotalsDoNotPartition()
    ensures var a := [Numbered(Row(Some("T1"), 100, map[]), 1)];
            var b := [Numbered(Row(Some("T1"), 100, map[]), 1), Numbered(Row(Some("T1"), 70, map[]), 2)];
            Sum(Matched(a, b), CounterpartAmount) + Sum(Unpaired(b, a), RecordAmount) != Sum(b, RecordAmount)
  {
    var a := [Numbered(Row(Some("T1"), 100, map[]), 1)];
    var b := [Numbered(Row(Some("T1"), 100, map[]), 1), Numbered(Row(Some("T1"), 70, map[]), 2)];
    assert FirstMatch(b, Some("T1")) == Some(0);
    assert Matched(a, b) == [MatchedRow(a[0].item, 1, 100)];
    assert Occurs(a, b[0].item.reference) && Occurs(a, b[1].item.reference);
    assert Unpaired(b[1..], a) == [];
    assert Unpaired(b, a) == [];
  }

  /** One Efashe row can be the counterpart of several DDIN rows: two DDIN rows `T1` against one
      Efashe row `T1` count that Efashe amount twice. */
  lemma CounterpartNotConsumed()
    ensures var a := [Numbered(Row(Some("T1"), 100, map[]), 1), Numbered(Row(Some("T1"), 100, map[]), 2)];
            var b := [Numbered(Row(Some("T1"), 100, map[]), 1)];
            |Matched(a, b)| == 2 && Sum(Matched(a, b), CounterpartAmount) == 200 && Sum(b, RecordAmount) == 100
  {
    var a := [Numbered(Row(Some("T1"), 100, map[]), 1), Numbered(Row(Some("T1"), 100, map[]), 2)];
    var b := [Numbered(Row(Some("T1"), 100, map[]), 1)];
    assert FirstMatch(b, Some("T1")) == Some(0);
    assert a[1..][1..] == [] && b[1..] == [];
    assert Matched(a[1..], b) == [MatchedRow(a[1].item, 2, 100)];
    assert Matched(a, b) == [MatchedRow(a[0].item, 1, 100), MatchedRow(a[1].item, 2, 100)];
    var m := Matched(a, b);
    assert m[1..][1..] == [];
    assert Sum(m, CounterpartAmount) == 100 + Sum(m[1..], CounterpartAmount);
  }

  /** Everything `compareFiles` hands to its setters. */
  datatype Report = Report(results: seq<Compared>, unmatched: seq<UnmatchedRow>, matched: seq<MatchedRow>,
                           matchedFile1Total: int, matchedFile2Total: int,
                           unmatchedFile1Total: int, unmatchedFile2Total: int)

  /** The report of `compareFiles` for two stored files. The DDIN bucket totals add up to the DDIN
      file total. */
  function Reconcile(file1: seq<Record>, file2: seq<Record>): (r: Report)
    ensures r.matchedFile1Total + r.unmatchedFile1Total == Sum(file1, RecordAmount)
  {
    DdinPartition(file1, file2);
    var unmatchedFile1 := Tag(Unpaired(file1, file2), DDIN);
    var unmatchedFile2 := Tag(Unpaired(file2, file1), Efashe);
    var matched := Matched(file1, file2);
    Report(Results(file1, file2), unmatchedFile1 + unmatchedFile2, matched,
           Sum(matched, MatchedAmount), Sum(matched, CounterpartAmount),
           Sum(unmatchedFile1, UnmatchedAmount), Sum(unmatchedFile2, UnmatchedAmount))
  }

  /** The body of `compareFiles` up to its setters. */
  method Compare(file1: seq<Record>, file2: seq<Record>) returns (report: Report)
    ensures report == Reconcile(file1, file2)
  {
    var results, matched := CollectMatches(file1, file2);
    var unmatchedFile1 := Tag(Unpaired(file1, file2), DDIN);
    var unmatchedFile2 := Tag(Unpaired(file2, file1), Efashe);
    report := Report(results, unmatchedFile1 + unmatchedFile2, matched,
                     Sum(matched, MatchedAmount), Sum(matched, CounterpartAmount),
                     Sum(unmatchedFile1, UnmatchedAmount), Sum(unmatchedFile2, UnmatchedAmount));
  }

  // ---------------------------------------------------------------------------------------------
  // The page state and its two actions.

  class ReconciliationPage {
    var file1Data: seq<Record>
    var file2Data: seq<Record>
    var file1Total: int
    var file2Total: int
    var comparisonResults: seq<Compared>
    var unmatchedResults: seq<UnmatchedRow>
    var matchedResults: seq<MatchedRow>
    var matchedFile1Total: int
    var matchedFile2Total: int
    var unmatchedFile1Total: int
    var unmatchedFile2Total: int

    /** Each file total is the total of the rows stored for that file. */
    ghost predicate Valid()
      reads this
    {
      file1Total == Sum(file1Data, RecordAmount) && file2Total == Sum(file2Data, RecordAmount)
    }

    /** What the page currently shows: the buckets and totals of the last comparison. */
    function Shown(): Report
      reads this
    {
      Report(comparisonResults, unmatchedResults, matchedResults,
             matchedFile1Total, matchedFile2Total, unmatchedFile1Total, unmatchedFile2Total)
    }

    constructor ()
      ensures Valid()
      ensures file1Data == [] && file2Data == [] && file1Total == 0 && file2Total == 0
      ensures comparisonResults == [] && unmatchedResults == [] && matchedResults == []
      ensures matchedFile1Total == 0 && matchedFile2Total == 0
      ensures unmatchedFile1Total == 0 && unmatchedFile2Total == 0
    {
      file1Data, file2Data, file1Total, file2Total := [], [], 0, 0;
      comparisonResults, unmatchedResults, matchedResults := [], [], [];
      matchedFile1Total, matchedFile2Total, unmatchedFile1Total, unmatchedFile2Total := 0, 0, 0, 0;
    }

    /** The Compare button is enabled only when both files have rows. */
    function CompareEnabled(): (b: bool)
      reads this
      ensures b <==> file1Data != [] && file2Data != []
    {
      !(|file1Data| == 0 || |file2Data| == 0)
    }

    /** `handleFileUpload(file, setFileData, setFileTotal)`, for the upload box `slot`. Papa's
        `complete` callback stores the rows, numbered from 1, and their total in that file's slot.
        A `null` file, which the upload box sends after a rejected file, never reaches `complete`:
        `Papa.parse(null, ..)` fails first, so the page keeps its previous rows and totals. */
    method HandleFileUpload(slot: Slot, file: Option<seq<Row>>)
      requires Valid()
      modifies this`file1Data, this`file1Total, this`file2Data, this`file2Total
      ensures Valid()
      ensures file.None? ==> file1Data == old(file1Data) && file2Data == old(file2Data)
      ensures file.None? ==> file1Total == old(file1Total) && file2Total == old(file2Total)
      ensures file.Some? && slot == DdinFile ==> file1Data == Number(file.value) && file2Data == old(file2Data)
      ensures file.Some? && slot == EfasheFile ==> file2Data == Number(file.value) && file1Data == old(file1Data)
      ensures file.Some? && slot == DdinFile ==> (CompareEnabled() <==> file.value != [] && old(file2Data) != [])
      ensures file.Some? && slot == EfasheFile ==> (CompareEnabled() <==> file.value != [] && old(file1Data) != [])
      ensures file.None? ==> CompareEnabled() == old(CompareEnabled())
    {
      if file.Some? {
        var data := Number(file.value);
        if slot == DdinFile {
          file1Data := data;
          file1Total := Sum(data, RecordAmount);
        } else {
          file2Data := data;
          file2Total := Sum(data, RecordAmount);
        }
      }
    }

    /** The seven setters `compareFiles` ends with. */
    method Store(report: Report)
      modifies this`comparisonResults, this`unmatchedResults, this`matchedResults,
               this`matchedFile1Total, this`matchedFile2Total, this`unmatchedFile1Total, this`unmatchedFile2Total
      ensures Shown() == report
    {
      comparisonResults, unmatchedResults, matchedResults := report.results, report.unmatched, report.matched;
      matchedFile1Total, matchedFile2Total := report.matchedFile1Total, report.matchedFile2Total;
      unmatchedFile1Total, unmatchedFile2Total := report.unmatchedFile1Total, report.unmatchedFile2Total;
    }

    /** `compareFiles`: store every bucket and total of the report of the two stored files; the
        DDIN bucket totals then add up to the stored DDIN file total. */
    method CompareFiles()
      requires Valid()
      modifies this`comparisonResults, this`unmatchedResults, this`matchedResults,
               this`matchedFile1Total, this`matchedFile2Total, this`unmatchedFile1Total, this`unmatchedFile2Total
      ensures Valid()
      ensures Shown() == Reconcile(file1Data, file2Data)
      ensures matchedFile1Total + unmatchedFile1Total == file1Total
    {
      var report := Compare(file1Data, file2Data);
      Store(report);
    }
  }

  /** Two lists whose entries have equal amounts position by position have equal totals. */
  lemma {:induction false} SumPointwise<A, B>(a: seq<A>, fa: A -> int, b: seq<B>, fb: B -> int)
    requires |a| == |b|
    requires forall k :: 0 <= k < |a| ==> fa(a[k]) == fb(b[k])
    ensures Sum(a, fa) == Sum(b, fb)
  {
    if a != [] {
      assert forall k :: 0 <= k < |a| - 1 ==> a[1..][k] == a[k + 1] && b[1..][k] == b[k + 1];
      SumPointwise(a[1..], fa, b[1..], fb);
    }
  }
}
