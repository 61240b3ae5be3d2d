/** The per-service bar chart data (`processData` in src/components/BarChart.jsx): a counter
    dictionary filled by a `forEach` loop, then one chart entry per service. */
module BarChart {
  import opened Counting
  import opened Transactions
  import Tally

  /** The rows counted under `serviceCounts[s]`. */
  function OfService(s: string): Transaction -> bool {
    (t: Transaction) => ServiceKey(t.item) == s
  }

  /** `serviceCounts` after the loop has seen `data`. */
  function Counted(data: seq<Transaction>): Tally.Tally {
    if data == [] then [] else Tally.Bump(Counted(data[..|data| - 1]), ServiceKey(data[|data| - 1].item))
  }

  datatype Point = Point(x: string, y: nat)

  datatype Entry = Entry(id: string, data: seq<Point>)

  /** `Object.keys(serviceCounts).map(serviceName => ({ id: serviceName, data: [{ x: serviceName,
      y: serviceCounts[serviceName] }] }))`. */
  function ChartData(counts: Tally.Tally): (r: seq<Entry>)
    ensures |r| == |counts|
  {
    seq(|counts|, i requires 0 <= i < |counts| =>
      Entry(counts[i].0, [Point(counts[i].0, Tally.Get(counts, counts[i].0))]))
  }

  /** `processData`: the `forEach` loop increments the dictionary in place. */
  method ProcessData(data: seq<Transaction>) returns (chart: seq<Entry>)
    ensures chart == ChartData(Counted(data))
  {
    var serviceCounts: Tally.Tally := [];
    for i := 0 to |data|
      invariant serviceCounts == Counted(data[..i])
    {
      assert data[..i + 1][..i] == data[..i];
      serviceCounts := Tally.Bump(serviceCounts, ServiceKey(data[i].item));
    }
    assert data[..|data|] == data;
    chart := ChartData(serviceCounts);
  }

  // ---------------------------------------------------------------------------------------------
  // Properties.

  /** `serviceCounts[s]` is the number of rows of service `s`. */
  lemma {:induction false} CountedCounts(data: seq<Transaction>, s: string)
    ensures Tally.Get(Counted(data), s) == CountIf(data, OfService(s))
  {
    if data != [] {
      CountedCounts(data[..|data| - 1], s);
      Tally.BumpGet(Counted(data[..|data| - 1]), ServiceKey(data[|data| - 1].item), s);
      CountIfLast(data, OfService(s));
    }
  }

  /** The counts add up to the number of rows. */
  lemma {:induction false} CountedSum(data: seq<Transaction>)
    ensures Tally.Sum(Counted(data)) == |data|
  {
    if data != [] {
      CountedSum(data[..|data| - 1]);
    }
  }

  /** The keys are distinct and every count is at least one. */
  lemma {:induction false} CountedWellFormed(data: seq<Transaction>)
    ensures Tally.DistinctKeys(Counted(data)) && Tally.Positive(Counted(data))
  {
    if data != [] {
      var init := data[..|data| - 1];
      CountedWellFormed(init);
      Tally.BumpKeepsDistinct(Counted(init), ServiceKey(data[|data| - 1].item));
    }
  }

  /** The keys are the services of the rows. */
  lemma {:induction false} CountedKeys(data: seq<Transaction>)
    ensures forall s :: s in Tally.Keys(Counted(data)) <==> s in ServiceNames(data)
  {
    if data != [] {
      CountedKeys(data[..|data| - 1]);
      ServiceNamesLast(data);
    }
  }

  /** One entry per distinct service of the rows, in first-occurrence order, with that service as
      its id. */
  lemma {:induction false} ChartIdsAreServices(data: seq<Transaction>)
    ensures var chart := ChartData(Counted(data));
      (forall i, j :: 0 <= i < j < |chart| ==> chart[i].id != chart[j].id) &&
      (forall s :: (exists i :: 0 <= i < |chart| && chart[i].id == s) <==> s in ServiceNames(data))
  {
    var counts := Counted(data);
    var chart := ChartData(counts);
    CountedWellFormed(data);
    CountedKeys(data);
    forall s ensures (exists i :: 0 <= i < |chart| && chart[i].id == s) <==> s in Tally.Keys(counts) {
      KeyIndex(counts, chart, s);
    }
  }

  /** A key of the counter is the id of some entry and back. */
  lemma {:induction false} KeyIndex(counts: Tally.Tally, chart: seq<Entry>, s: string)
    requires chart == ChartData(counts)
    ensures (exists i :: 0 <= i < |chart| && chart[i].id == s) <==> s in Tally.Keys(counts)
  {
    var keys := Tally.Keys(counts);
    if s in keys {
      var i :| 0 <= i < |keys| && keys[i] == s;
      assert chart[i].id == counts[i].0;
    }
    if exists i :: 0 <= i < |chart| && chart[i].id == s {
      var i :| 0 <= i < |chart| && chart[i].id == s;
      assert keys[i] == s;
    }
  }

  /** No rows, no entries; some rows, some entries. */
  lemma {:induction false} ChartEmptyIff(data: seq<Transaction>)
    ensures |ChartData(Counted(data))| == 0 <==> |data| == 0
  {
    CountedKeys(data);
    if data != [] {
      assert ServiceKey(data[0].item) in ServiceNames(data);
      assert |Tally.Keys(Counted(data))| > 0;
    }
  }

  /** Each entry holds the single point `x = id`, `y` = the number of rows of that service, at
      least 1. */
  lemma {:induction false} ChartPointsAreCounts(data: seq<Transaction>)
    ensures var chart := ChartData(Counted(data));
      forall i :: 0 <= i < |chart| ==>
        |chart[i].data| == 1 && chart[i].data[0].x == chart[i].id &&
        1 <= chart[i].data[0].y == CountIf(data, OfService(chart[i].id))
  {
    var counts := Counted(data);
    var chart := ChartData(counts);
    CountedWellFormed(data);
    forall i | 0 <= i < |chart|
      ensures 1 <= chart[i].data[0].y == CountIf(data, OfService(chart[i].id))
    {
      Tally.GetAt(counts, i);
      CountedCounts(data, counts[i].0);
    }
  }
}
