/** The per-service, per-day transaction line chart (src/components/LineChart.jsx): the rows are
    sorted in place by day, latest first, then counted into `groupedData[service][day]`, and each
    service becomes one series of `{ x: day, y: count }` points. */
module LineChart {
  import opened Numbering
  import opened Counting
  import opened Sorting
  import opened Transactions
  import Tally
  import JsText

  /** `transaction.date.split("T")[0]`: the calendar day of the timestamp, the part of `date`
      before its first `T` (all of it when there is none). */
  function DayOf(t: Transaction): (d: string)
    ensures 'T' !in d && |d| <= |t.item.date| && d == t.item.date[..|d|]
    ensures |d| < |t.item.date| ==> t.item.date[|d|] == 'T'
  {
    JsText.BeforeFirst(t.item.date, 'T')
  }

  /** The sort key `new Date(day)`, with the date parser abstracted into `dayOf`. */
  function DayKey(dayOf: string -> int): Transaction -> int {
    (t: Transaction) => dayOf(DayOf(t))
  }

  /** The rows counted under `groupedData[s][d]`. */
  function At(s: string, d: string): Transaction -> bool {
    (t: Transaction) => ServiceKey(t.item) == s && DayOf(t) == d
  }

  /** `groupedData`: per service, in first-occurrence order, a counter of days. */
  type Groups = seq<(string, Tally.Tally)>

  /** `groupedData[s]`, reading an absent service as an empty counter. */
  function DatesOf(g: Groups, s: string): (r: Tally.Tally)
    ensures s !in Tally.Keys(g) ==> r == []
  {
    if g == [] then [] else if g[0].0 == s then g[0].1 else DatesOf(g[1..], s)
  }

  /** `groupedData[s][d]`, reading an absent entry as 0. */
  function CountAt(g: Groups, s: string, d: string): nat {
    Tally.Get(DatesOf(g, s), d)
  }

  function Total(g: Groups): nat {
    if g == [] then 0 else Tally.Sum(g[0].1) + Total(g[1..])
  }

  /** A day counter as the `reduce` leaves it: distinct days, every count at least 1. */
  predicate GoodCounter(t: Tally.Tally) {
    Tally.DistinctKeys(t) && Tally.Positive(t)
  }

  /** Distinct services, and per stored service a non-empty good day counter. */
  predicate WellFormed(g: Groups) {
    Tally.DistinctKeys(g) && forall s | s in Tally.Keys(g) :: DatesOf(g, s) != [] && GoodCounter(DatesOf(g, s))
  }

  /** One step of the `reduce`: create `acc[s] = {}` when missing, then set `acc[s][d]` to 1 or
      increment it. Only the counter of `s` changes, and only at `d`. */
  function BumpGroup(g: Groups, s: string, d: string): (r: Groups)
    ensures Tally.Keys(r) == if s in Tally.Keys(g) then Tally.Keys(g) else Tally.Keys(g) + [s]
    ensures Total(r) == Total(g) + 1
  {
    if g == [] then [(s, Tally.Bump([], d))]
    else if g[0].0 == s then [(s, Tally.Bump(g[0].1, d))] + g[1..]
    else [g[0]] + BumpGroup(g[1..], s, d)
  }

  /** Only the counter of `s` changes, by one increment at `d`. */
  lemma {:induction false} BumpGroupDates(g: Groups, s: string, d: string, s': string)
    ensures DatesOf(BumpGroup(g, s, d), s') == if s' == s then Tally.Bump(DatesOf(g, s'), d) else DatesOf(g, s')
  {
    if g != [] && g[0].0 != s {
      BumpGroupDates(g[1..], s, d, s');
    }
  }

  /** One step of the `reduce` adds one to exactly one count. */
  lemma {:induction false} CountAtBump(g: Groups, k: string, day: string, s: string, d: string)
    ensures CountAt(BumpGroup(g, k, day), s, d) == CountAt(g, s, d) + (if s == k && d == day then 1 else 0)
  {
    BumpGroupDates(g, k, day, s);
    Tally.BumpGet(DatesOf(g, s), day, d);
  }

  lemma {:induction false} BumpGroupKeepsWellFormed(g: Groups, s: string, d: string)
    requires WellFormed(g)
    ensures WellFormed(BumpGroup(g, s, d))
  {
    var r := BumpGroup(g, s, d);
    assert Tally.Keys(r) == if s in Tally.Keys(g) then Tally.Keys(g) else Tally.Keys(g) + [s];
    forall i, j | 0 <= i < j < |r| ensures r[i].0 != r[j].0 {
      assert Tally.Keys(r)[i] == r[i].0 && Tally.Keys(r)[j] == r[j].0;
      if j < |g| {
        assert Tally.Keys(g)[i] == g[i].0 && Tally.Keys(g)[j] == g[j].0;
      } else {
        assert s !in Tally.Keys(g) && Tally.Keys(r)[j] == s;
        assert Tally.Keys(g)[i] == g[i].0;
      }
    }
    forall s' | s' in Tally.Keys(r) ensures DatesOf(r, s') != [] && GoodCounter(DatesOf(r, s')) {
      BumpGroupDates(g, s, d, s');
      if s' == s {
        var t := DatesOf(g, s);
        Tally.BumpKeepsDistinct(t, d);
        assert |Tally.Keys(Tally.Bump(t, d))| >= 1;
      }
    }
  }

  /** `transactionData.reduce(step, {})`. */
  function Grouped(data: seq<Transaction>): Groups {
    if data == [] then []
    else
      var last := data[|data| - 1];
      BumpGroup(Grouped(data[..|data| - 1]), ServiceKey(last.item), DayOf(last))
  }

  /** The `reduce` as the loop it is: one in-place update of the accumulator per row. */
  method GroupTransactions(data: seq<Transaction>) returns (acc: Groups)
    ensures acc == Grouped(data)
  {
    acc := [];
    for i := 0 to |data|
      invariant acc == Grouped(data[..i])
    {
      assert data[..i + 1][..i] == data[..i];
      acc := BumpGroup(acc, ServiceKey(data[i].item), DayOf(data[i]));
    }
    assert data[..|data|] == data;
  }

  // ---------------------------------------------------------------------------------------------
  // Properties of the grouping.

  /** Each row increments exactly one counter: `groupedData[s][d]` is the number of rows of
      service `s` on day `d`. */
  lemma {:induction false} GroupedCounts(data: seq<Transaction>, s: string, d: string)
    ensures CountAt(Grouped(data), s, d) == CountIf(data, At(s, d))
  {
    if data != [] {
      var init, last := data[..|data| - 1], data[|data| - 1];
      GroupedCounts(init, s, d);
      CountAtBump(Grouped(init), ServiceKey(last.item), DayOf(last), s, d);
      CountIfLast(data, At(s, d));
    }
  }

  /** The counts add up to the number of rows. */
  lemma {:induction false} GroupedTotal(data: seq<Transaction>)
    ensures Total(Grouped(data)) == |data|
  {
    if data != [] {
      GroupedTotal(data[..|data| - 1]);
    }
  }

  lemma {:induction false} GroupedWellFormed(data: seq<Transaction>)
    ensures WellFormed(Grouped(data))
  {
    if data != [] {
      var init, last := data[..|data| - 1], data[|data| - 1];
      GroupedWellFormed(init);
      BumpGroupKeepsWellFormed(Grouped(init), ServiceKey(last.item), DayOf(last));
    }
  }

  /** A service has an entry exactly when some row has that service. */
  lemma {:induction false} GroupedServices(data: seq<Transaction>)
    ensures forall s :: s in Tally.Keys(Grouped(data)) <==> s in ServiceNames(data)
  {
    if data != [] {
      GroupedServices(data[..|data| - 1]);
      ServiceNamesLast(data);
    }
  }

  /** With distinct services, the counter of the i-th service is the i-th entry. */
  lemma {:induction false} DatesOfAt(g: Groups, i: nat)
    requires Tally.DistinctKeys(g) && i < |g|
    ensures DatesOf(g, g[i].0) == g[i].1
  {
    if i > 0 {
      assert Tally.DistinctKeys(g[1..]) by {
        forall a, b | 0 <= a < b < |g| - 1 ensures g[1..][a].0 != g[1..][b].0 {
          assert g[1..][a] == g[a + 1] && g[1..][b] == g[b + 1];
        }
      }
      DatesOfAt(g[1..], i - 1);
    }
  }

  /** Sorting the rows first changes no count. */
  lemma {:induction false} SortKeepsCounts(data: seq<Transaction>, dayOf: string -> int, s: string, d: string)
    ensures CountAt(Grouped(SortDesc(data, DayKey(dayOf))), s, d) == CountAt(Grouped(data), s, d)
  {
    var sorted := SortDesc(data, DayKey(dayOf));
    GroupedCounts(sorted, s, d);
    GroupedCounts(data, s, d);
    CountIfPermutation(sorted, data, At(s, d));
  }

  // ---------------------------------------------------------------------------------------------
  // Conversion to chart series.

  datatype Point = Point(x: string, y: nat)

  datatype Series = Series(id: string, data: seq<Point>)

  /** `Object.entries(dates).map(([date, count]) => ({ x: date, y: count }))`. */
  function Points(dates: Tally.Tally): (r: seq<Point>)
    ensures |r| == |dates|
  {
    seq(|dates|, j requires 0 <= j < |dates| => Point(dates[j].0, dates[j].1))
  }

  /** `Object.entries(groupedData).map(([serviceName, dates]) => ({ id: serviceName, data }))`. */
  function ToSeries(g: Groups): (r: seq<Series>)
    ensures |r| == |g|
  {
    seq(|g|, i requires 0 <= i < |g| => Series(g[i].0, Points(g[i].1)))
  }

  function Ids(chart: seq<Series>): (r: seq<string>)
    ensures |r| == |chart|
  {
    seq(|chart|, i requires 0 <= i < |chart| => chart[i].id)
  }

  /** The series of service `s` has a point at day `d`. */
  ghost predicate HasPoint(chart: seq<Series>, s: string, d: string) {
    exists i, j :: 0 <= i < |chart| && 0 <= j < |chart[i].data| && chart[i].id == s && chart[i].data[j].x == d
  }

  /** Every row shows up in the chart: the series of its service has a point at its day. */
  lemma {:induction false} RowPlotted(data: seq<Transaction>, t: Transaction)
    requires t in data
    ensures HasPoint(ToSeries(Grouped(data)), ServiceKey(t.item), DayOf(t))
  {
    var g := Grouped(data);
    var chart := ToSeries(g);
    var s, d := ServiceKey(t.item), DayOf(t);
    assert CountAt(g, s, d) >= 1 by {
      var k :| 0 <= k < |data| && data[k] == t;
      CountIfRemove(data, k, At(s, d));
      GroupedCounts(data, s, d);
    }
    assert s in Tally.Keys(g);
    var i :| 0 <= i < |g| && Tally.Keys(g)[i] == s;
    assert Tally.DistinctKeys(g) by {
      GroupedWellFormed(data);
    }
    DatesOfAt(g, i);
    assert d in Tally.Keys(g[i].1);
    var j :| 0 <= j < |g[i].1| && Tally.Keys(g[i].1)[j] == d;
    assert chart[i].id == s && chart[i].data[j].x == d;
  }

  /** What the chart shows is right: distinct series ids, exactly the services of the rows, and per
      series distinct days whose `y` is the number of rows of that service on that day. */
  lemma {:induction false} ChartSound(data: seq<Transaction>)
    ensures var chart := ToSeries(Grouped(data));
      (forall i, j :: 0 <= i < j < |chart| ==> chart[i].id != chart[j].id) &&
      (forall s :: s in Ids(chart) <==> s in ServiceNames(data)) &&
      (forall i :: 0 <= i < |chart| ==> chart[i].data != []) &&
      (forall i, j, k :: 0 <= i < |chart| && 0 <= j < k < |chart[i].data| ==> chart[i].data[j].x != chart[i].data[k].x) &&
      (forall i, j :: 0 <= i < |chart| && 0 <= j < |chart[i].data| ==>
         1 <= chart[i].data[j].y == CountIf(data, At(chart[i].id, chart[i].data[j].x)))
  {
    var g := Grouped(data);
    var chart := ToSeries(g);
    GroupedWellFormed(data);
    GroupedServices(data);
    assert Ids(chart) == Tally.Keys(g);
    forall i | 0 <= i < |chart| ensures chart[i].data != [] && GoodCounter(g[i].1) {
      DatesOfAt(g, i);
      assert Tally.Keys(g)[i] == g[i].0;
    }
    forall i, j | 0 <= i < |chart| && 0 <= j < |chart[i].data|
      ensures 1 <= chart[i].data[j].y == CountIf(data, At(chart[i].id, chart[i].data[j].x))
    {
      DatesOfAt(g, i);
      assert Tally.Keys(g)[i] == g[i].0;
      Tally.GetAt(g[i].1, j);
      GroupedCounts(data, g[i].0, g[i].1[j].0);
    }
  }

  /** Nothing is missing from the chart: every row is plotted. */
  lemma {:induction false} ChartCoversRows(data: seq<Transaction>)
    ensures forall t | t in data :: HasPoint(ToSeries(Grouped(data)), ServiceKey(t.item), DayOf(t))
  {
    forall t | t in data ensures HasPoint(ToSeries(Grouped(data)), ServiceKey(t.item), DayOf(t)) {
      RowPlotted(data, t);
    }
  }

  /** The chart has one series per distinct service of the rows, with that service as its id; each
      series has one point per distinct day of that service, with that day as `x` and the number of
      rows of that service on that day, at least 1, as `y`. */
  lemma {:induction false} ChartDescribesCounts(data: seq<Transaction>)
    ensures var chart := ToSeries(Grouped(data));
      (forall i, j :: 0 <= i < j < |chart| ==> chart[i].id != chart[j].id) &&
      (forall s :: s in Ids(chart) <==> s in ServiceNames(data)) &&
      (forall i :: 0 <= i < |chart| ==> chart[i].data != []) &&
      (forall i, j, k :: 0 <= i < |chart| && 0 <= j < k < |chart[i].data| ==> chart[i].data[j].x != chart[i].data[k].x) &&
      (forall i, j :: 0 <= i < |chart| && 0 <= j < |chart[i].data| ==>
         1 <= chart[i].data[j].y == CountIf(data, At(chart[i].id, chart[i].data[j].x))) &&
      (forall t | t in data :: HasPoint(chart, ServiceKey(t.item), DayOf(t)))
  {
    ChartSound(data);
    ChartCoversRows(data);
  }

  /** The component body: sort the state array in place by day, latest first, then group and
      convert. The series are those of the sorted rows. */
  method BuildChart(rows: array<Transaction>, dayOf: string -> int) returns (chart: seq<Series>)
    modifies rows
    ensures rows[..] == SortDesc(old(rows[..]), DayKey(dayOf))
    ensures chart == ToSeries(Grouped(rows[..]))
  {
    SortInPlace(rows, DayKey(dayOf));
    var grouped := GroupTransactions(rows[..]);
    chart := ToSeries(grouped);
  }
}
