/** The main dashboard (src/scenes/dashboard/index.jsx): status counters, today's counters, the
    success rate, the five most recent transactions, the status colour and the fetch state. */
module Dashboard {
  import opened Wrappers
  import opened Numbering
  import opened Counting
  import opened Sorting
  import opened Transactions
  import JsText

  /** Statuses counted as complete; the comparison is case-sensitive. */
  predicate IsComplete(status: Option<string>) {
    status == Some("Complete") || status == Some("successful")
  }

  /** Statuses counted as incomplete; the comparison is case-sensitive. */
  predicate IsIncomplete(status: Option<string>) {
    status == Some("Incomplete") || status == Some("failed")
  }

  predicate Completed(t: Transaction) { IsComplete(t.item.status) }
  predicate Failed(t: Transaction) { IsIncomplete(t.item.status) }
  predicate AnyRow(t: Transaction) { true }

  /** `new Date(t.date).toDateString() === currentDate.toDateString()`, with the clock and the date
      parser abstracted into `isToday`. */
  function DatedToday(isToday: string -> bool): Transaction -> bool {
    (t: Transaction) => isToday(t.item.date)
  }

  function CompletedToday(isToday: string -> bool): Transaction -> bool {
    (t: Transaction) => isToday(t.item.date) && IsComplete(t.item.status)
  }

  function FailedToday(isToday: string -> bool): Transaction -> bool {
    (t: Transaction) => isToday(t.item.date) && IsIncomplete(t.item.status)
  }

  /** The sort key of `new Date(b.date) - new Date(a.date)`, with the date parser abstracted into `timeOf`. */
  function DateKey(timeOf: string -> int): Transaction -> int {
    (t: Transaction) => timeOf(t.item.date)
  }

  /** `progressValue`: `"0"` when nothing is complete, otherwise the percentage
      `complete * 100 / total`, kept as the exact ratio. */
  datatype Progress = NoProgress | Rate(complete: nat, total: nat)

  datatype Summary = Summary(complete: nat, incomplete: nat, today: nat, completedToday: nat,
                             failedToday: nat, progress: Progress, recent: seq<Transaction>, total: nat)

  /** The defaults of the destructuring that receives `processTransactionData()`. */
  const Defaults := Summary(0, 0, 0, 0, 0, NoProgress, [], 0)

  /** The first at most five rows of a copy sorted by date, latest first: rows of the data, in
      descending date order. */
  function Recent(data: seq<Transaction>, timeOf: string -> int): (r: seq<Transaction>)
    ensures |r| == Min(5, |data|)
    ensures multiset(r) <= multiset(data)
    ensures SortedDesc(r, DateKey(timeOf))
  {
    var sorted := SortDesc(data, DateKey(timeOf));
    var k := Min(5, |data|);
    assert sorted == sorted[..k] + sorted[k..];
    sorted[..k]
  }

  /** `processTransactionData` followed by the defaulting destructuring. */
  function ProcessTransactionData(data: seq<Transaction>, isToday: string -> bool, timeOf: string -> int): (r: Summary)
    ensures data == [] ==> r == Defaults
    ensures r.total == r.complete + r.incomplete <= |data|
    ensures r.completedToday + r.failedToday <= r.today <= |data|
    ensures r.completedToday <= r.complete && r.failedToday <= r.incomplete
    ensures r.progress.NoProgress? <==> r.complete == 0
    ensures r.progress.Rate? ==> 0 < r.progress.complete == r.complete <= r.progress.total == r.total
    ensures |r.recent| <= 5 && |r.recent| <= |data|
  {
    if |data| == 0 then Defaults
    else
      var complete := CountIf(data, Completed);
      var incomplete := CountIf(data, Failed);
      var today := CountIf(data, DatedToday(isToday));
      var completedToday := CountIf(data, CompletedToday(isToday));
      var failedToday := CountIf(data, FailedToday(isToday));
      CountIfDisjoint(data, Completed, Failed, AnyRow);
      CountIfAll(data, AnyRow);
      CountIfDisjoint(data, CompletedToday(isToday), FailedToday(isToday), DatedToday(isToday));
      CountIfMonotone(data, CompletedToday(isToday), Completed);
      CountIfMonotone(data, FailedToday(isToday), Failed);
      var progress := if complete > 0 then Rate(complete, complete + incomplete) else NoProgress;
      Summary(complete, incomplete, today, completedToday, failedToday, progress,
              Recent(data, timeOf), complete + incomplete)
  }

  /** The recent list is the head of a permutation of the data sorted latest first: it has at most
      five rows, each taken from the data, in descending date order, and no row left out is later
      than a row shown. */
  lemma {:induction false} RecentAreLatest(data: seq<Transaction>, timeOf: string -> int)
    ensures var sorted, recent := SortDesc(data, DateKey(timeOf)), Recent(data, timeOf);
      multiset(sorted) == multiset(data) &&
      recent == sorted[..|recent|] &&
      multiset(recent) <= multiset(data) &&
      (|data| <= 5 ==> multiset(recent) == multiset(data)) &&
      SortedDesc(recent, DateKey(timeOf)) &&
      forall i, j :: 0 <= i < |recent| <= j < |sorted| ==> DateKey(timeOf)(sorted[j]) <= DateKey(timeOf)(recent[i])
  {
    var key := DateKey(timeOf);
    var sorted, recent := SortDesc(data, key), Recent(data, timeOf);
    assert sorted == recent + sorted[|recent|..];
    assert multiset(sorted) == multiset(recent) + multiset(sorted[|recent|..]);
    if |data| <= 5 {
      assert recent == sorted;
    }
  }

  /** Reordering the data changes none of the counters. */
  lemma {:induction false} CountsIgnoreOrder(a: seq<Transaction>, b: seq<Transaction>, isToday: string -> bool, timeOf: string -> int)
    requires multiset(a) == multiset(b)
    ensures var ra, rb := ProcessTransactionData(a, isToday, timeOf), ProcessTransactionData(b, isToday, timeOf);
      ra.complete == rb.complete && ra.incomplete == rb.incomplete && ra.today == rb.today &&
      ra.completedToday == rb.completedToday && ra.failedToday == rb.failedToday &&
      ra.progress == rb.progress && ra.total == rb.total
  {
    CountIfPermutation(a, b, Completed);
    CountIfPermutation(a, b, Failed);
    CountIfPermutation(a, b, DatedToday(isToday));
    CountIfPermutation(a, b, CompletedToday(isToday));
    CountIfPermutation(a, b, FailedToday(isToday));
    assert |a| == |multiset(a)| == |multiset(b)| == |b|;
  }

  // ---------------------------------------------------------------------------------------------
  // Status colour.

  datatype Color = Green | Red | Grey

  /** `switch (status?.toLowerCase())`. */
  function GetStatusColor(status: Option<string>): Color {
    match status
    case None => Grey
    case Some(s) =>
      var l := JsText.ToLower(s);
      if l == "complete" || l == "successful" then Green
      else if l == "incomplete" || l == "failed" then Red
      else Grey
  }

  /** Every status counted as complete is coloured green, every status counted as incomplete red. */
  lemma {:induction false} CountedStatusesColoured(status: Option<string>)
    ensures IsComplete(status) ==> GetStatusColor(status) == Green
    ensures IsIncomplete(status) ==> GetStatusColor(status) == Red
  {
    if status == Some("Complete") {
      assert JsText.ToLower("Complete") == "complete";
    } else if status == Some("Incomplete") {
      assert JsText.ToLower("Incomplete") == "incomplete";
    } else if status == Some("successful") {
      assert JsText.ToLower("successful") == "successful";
    } else if status == Some("failed") {
      assert JsText.ToLower("failed") == "failed";
    }
  }

  /** The colour ignores letter case: a status and its lower-cased form get the same colour. */
  lemma {:induction false} ColorIgnoresCase(s: string)
    ensures GetStatusColor(Some(s)) == GetStatusColor(Some(JsText.ToLower(s)))
  {
    JsText.ToLowerIdempotent(s);
  }

  /** Colouring is looser than counting: `"COMPLETE"` is green but not counted as complete, and a
      missing status is grey. */
  lemma ColourIsLooserThanCounting()
    ensures GetStatusColor(Some("COMPLETE")) == Green && !IsComplete(Some("COMPLETE"))
    ensures GetStatusColor(Some("FAILED")) == Red && !IsIncomplete(Some("FAILED"))
    ensures GetStatusColor(None) == Grey
  {
    assert JsText.ToLower("COMPLETE") == "complete";
    assert JsText.ToLower("FAILED") == "failed";
  }

  // ---------------------------------------------------------------------------------------------
  // Fetch state.

  /** The message `fetchLogs` stores on failure: the thrown `Error` carries `response.message` or
      its fallback, and the catch falls back again when the rejection has no message. */
  function FailureMessage(r: Response): (m: string)
    ensures m != ""
    ensures r.Responded? ==> m == OrDefault(r.message, "Failed to fetch transaction data")
    ensures r.Rejected? ==> m == OrDefault(r.reason, "An error occurred while fetching data")
  {
    match r
    case Responded(_, _, message) =>
      OrDefault(Some(OrDefault(message, "Failed to fetch transaction data")), "An error occurred while fetching data")
    case Rejected(reason) => OrDefault(reason, "An error occurred while fetching data")
  }

  class DashboardState {
    var transactionData: seq<Transaction>
    var loading: bool
    var error: Option<string>
    /** The clock reading taken at the last successful fetch. */
    var lastUpdated: Option<int>

    constructor ()
      ensures transactionData == [] && loading && error == None && lastUpdated == None
    {
      transactionData, loading, error, lastUpdated := [], true, None, None;
    }

    /** `fetchLogs` up to the `await`: loading on, error cleared, data kept. */
    method BeginFetch()
      modifies this`loading, this`error
      ensures loading && error == None
    {
      loading := true;
      error := None;
    }

    /** `fetchLogs` after the `await`, with `now` the clock reading of `new Date()`: on a 200
        response the rows are stored numbered from 1 and the time recorded; otherwise the failure
        message is stored and the data and time are kept. Loading always ends. */
    method FinishFetch(response: Response, now: int)
      modifies this`transactionData, this`lastUpdated, this`error, this`loading
      ensures !loading
      ensures Succeeded(response) ==>
        transactionData == Number(response.data) && lastUpdated == Some(now) && error == old(error)
      ensures !Succeeded(response) ==>
        transactionData == old(transactionData) && lastUpdated == old(lastUpdated) &&
        error == Some(FailureMessage(response)) && error.value != ""
    {
      if Succeeded(response) {
        transactionData := Number(response.data);
        lastUpdated := Some(now);
      } else {
        error := Some(FailureMessage(response));
      }
      loading := false;
    }

    /** What the dashboard renders from its current rows; reading it leaves the rows untouched. */
    function Displayed(isToday: string -> bool, timeOf: string -> int): (r: Summary)
      reads this
      ensures r.total <= |transactionData| && |r.recent| <= 5
    {
      ProcessTransactionData(transactionData, isToday, timeOf)
    }
  }
}
