/** The older dashboard page (src/scenes/dashboard/Home.jsx). Its status filters are written
    `status === 'Complete' || 'successful'`, which JavaScript reads as
    `(status === 'Complete') || 'successful'`; the model evaluates those expressions with
    JavaScript's truthiness and its `||` / `&&` operators, which return an operand. */
module Home {
  import opened Wrappers
  import opened Numbering
  import opened Counting
  import opened Transactions

  /** The values the filter expressions produce: booleans from `===` and string literals. */
  datatype JsValue = JsBool(b: bool) | JsString(s: string)

  predicate Truthy(v: JsValue) {
    match v
    case JsBool(b) => b
    case JsString(s) => s != ""
  }

  /** `a || b`: `a` when it is truthy, otherwise `b`. */
  function Or(a: JsValue, b: JsValue): (r: JsValue)
    ensures Truthy(r) <==> Truthy(a) || Truthy(b)
    ensures r == a || r == b
  {
    if Truthy(a) then a else b
  }

  /** `a && b`: `b` when `a` is truthy, otherwise `a`. */
  function And(a: JsValue, b: JsValue): (r: JsValue)
    ensures Truthy(r) <==> Truthy(a) && Truthy(b)
    ensures r == a || r == b
  {
    if Truthy(a) then b else a
  }

  /** `v === "lit"` for a property that may be missing. */
  function StrictEquals(v: Option<string>, lit: string): JsValue {
    JsBool(v == Some(lit))
  }

  // The five filter callbacks, as written (with `&&` binding tighter than `||`).

  function CompleteFilter(t: Transaction): JsValue {
    Or(StrictEquals(t.item.status, "Complete"), JsString("successful"))
  }

  function IncompleteFilter(t: Transaction): JsValue {
    Or(StrictEquals(t.item.status, "Incomplete"), JsString("failed"))
  }

  function TodayFilter(isToday: string -> bool): Transaction -> JsValue {
    (t: Transaction) => JsBool(isToday(t.item.date))
  }

  function CompletedTodayFilter(isToday: string -> bool): Transaction -> JsValue {
    (t: Transaction) =>
      Or(StrictEquals(t.item.status, "Complete"), And(JsString("successful"), JsBool(isToday(t.item.date))))
  }

  function FailedTodayFilter(isToday: string -> bool): Transaction -> JsValue {
    (t: Transaction) =>
      Or(StrictEquals(t.item.status, "Incomplete"),
         And(And(JsString("failed"), JsBool(isToday(t.item.date))), StrictEquals(t.item.thirdpartStatus, "failed")))
  }

  /** `Array.prototype.filter` keeps the rows whose callback result is truthy. */
  function Kept(f: Transaction -> JsValue): Transaction -> bool {
    (t: Transaction) => Truthy(f(t))
  }

  /** `progressValue` before `toFixed`: the exact quotient `numerator / denominator`
      (`NaN` when the denominator is 0). */
  datatype Quotient = Quotient(numerator: nat, denominator: nat)

  datatype HomeSummary = HomeSummary(complete: nat, incomplete: nat, today: nat, completedToday: nat,
                                     failedToday: nat, progress: Quotient, recent: seq<Transaction>,
                                     displayedTotal: nat)

  /** The two status filters keep every row: `(status === 'Complete') || 'successful'` and
      `(status === 'Incomplete') || 'failed'` are truthy whatever the status. */
  lemma {:induction false} StatusFiltersKeepEveryRow(data: seq<Transaction>)
    ensures CountIf(data, Kept(CompleteFilter)) == |data|
    ensures CountIf(data, Kept(IncompleteFilter)) == |data|
  {
    forall t | t in data ensures Kept(CompleteFilter)(t) && Kept(IncompleteFilter)(t) {
      assert Truthy(JsString("successful")) && Truthy(JsString("failed"));
      assert Truthy(CompleteFilter(t)) && Truthy(IncompleteFilter(t));
    }
    CountIfAll(data, Kept(CompleteFilter));
    CountIfAll(data, Kept(IncompleteFilter));
  }

  /** Everything the page derives from its rows. Both status counters are the row count, so the
      displayed total is twice the row count and the success rate is 50% for any non-empty data
      (and 0/0 for none). The recent list is the first rows in the order the server sent them,
      with no sorting. */
  function Counters(data: seq<Transaction>, isToday: string -> bool): (r: HomeSummary)
    ensures r.complete == |data| && r.incomplete == |data|
    ensures r.displayedTotal == r.complete + r.incomplete == 2 * |data|
    ensures data != [] ==> r.progress.numerator == 50 * r.progress.denominator
    ensures data == [] ==> r.progress.denominator == 0
    ensures r.completedToday <= |data| && r.failedToday <= |data| && r.today <= |data|
    ensures |r.recent| == Min(5, |data|) && r.recent == data[..|r.recent|]
  {
    StatusFiltersKeepEveryRow(data);
    var complete := CountIf(data, Kept(CompleteFilter));
    var incomplete := CountIf(data, Kept(IncompleteFilter));
    HomeSummary(complete, incomplete,
                CountIf(data, Kept(TodayFilter(isToday))),
                CountIf(data, Kept(CompletedTodayFilter(isToday))),
                CountIf(data, Kept(FailedTodayFilter(isToday))),
                Quotient(complete * 100, complete + incomplete),
                data[..Min(5, |data|)],
                complete + incomplete)
  }

  function CompleteOrToday(isToday: string -> bool): Transaction -> bool {
    (t: Transaction) => t.item.status == Some("Complete") || isToday(t.item.date)
  }

  function IncompleteOrFailedToday(isToday: string -> bool): Transaction -> bool {
    (t: Transaction) =>
      t.item.status == Some("Incomplete") || (isToday(t.item.date) && t.item.thirdpartStatus == Some("failed"))
  }

  /** Read with JavaScript's precedence, today's completed counter counts rows that are
      `'Complete'` or dated today, and today's failed counter counts rows that are `'Incomplete'`
      or dated today with third-party status `"failed"`. */
  lemma {:induction false} TodayFiltersByPrecedence(data: seq<Transaction>, isToday: string -> bool)
    ensures Counters(data, isToday).completedToday == CountIf(data, CompleteOrToday(isToday))
    ensures Counters(data, isToday).failedToday == CountIf(data, IncompleteOrFailedToday(isToday))
  {
    forall t | t in data
      ensures Kept(CompletedTodayFilter(isToday))(t) == CompleteOrToday(isToday)(t)
      ensures Kept(FailedTodayFilter(isToday))(t) == IncompleteOrFailedToday(isToday)(t)
    {
      assert Truthy(JsString("successful")) && Truthy(JsString("failed"));
      var today := JsBool(isToday(t.item.date));
      assert CompletedTodayFilter(isToday)(t) == Or(StrictEquals(t.item.status, "Complete"), And(JsString("successful"), today));
      assert FailedTodayFilter(isToday)(t) ==
        Or(StrictEquals(t.item.status, "Incomplete"), And(And(JsString("failed"), today), StrictEquals(t.item.thirdpartStatus, "failed")));
    }
    CountIfSame(data, Kept(CompletedTodayFilter(isToday)), CompleteOrToday(isToday));
    CountIfSame(data, Kept(FailedTodayFilter(isToday)), IncompleteOrFailedToday(isToday));
  }

  /** A single `'Complete'` row dated yesterday counts as completed today although nothing is
      dated today. */
  lemma CompletedTodayCanExceedToday()
    ensures var data := [Numbered(LogEntry(Some("Complete"), None, None, "2024-05-01", map[]), 1)];
            var r := Counters(data, (d: string) => false);
            r.completedToday == 1 && r.today == 0
  {
    var data := [Numbered(LogEntry(Some("Complete"), None, None, "2024-05-01", map[]), 1)];
    var isToday := (d: string) => false;
    assert data[1..] == [];
    assert Truthy(StrictEquals(data[0].item.status, "Complete"));
    assert CompletedTodayFilter(isToday)(data[0]) ==
      Or(StrictEquals(data[0].item.status, "Complete"), And(JsString("successful"), JsBool(isToday(data[0].item.date))));
    assert Kept(CompletedTodayFilter(isToday))(data[0]);
    assert !isToday(data[0].item.date);
    assert !Kept(TodayFilter(isToday))(data[0]);
  }

  class HomeState {
    var transactionData: seq<Transaction>

    constructor ()
      ensures transactionData == []
    {
      transactionData := [];
    }

    /** `fetchLogs`: the rows are replaced, numbered from 1, only on a 200 response. */
    method FetchLogs(response: Response)
      modifies this
      ensures Succeeded(response) ==> transactionData == Number(response.data)
      ensures !Succeeded(response) ==> transactionData == old(transactionData)
    {
      if Succeeded(response) {
        transactionData := Number(response.data);
      }
    }
  }
}
