# ddin-dashboard core, modelled in Dafny

ddin-dashboard is a React dashboard for DDIN payment transactions. This project models the logic
inside its components:

- **Reconciliation page** (`reconciliation.dfy`).
  - Uploaded CSV rows are numbered and totalled.
  - `compareFiles` pairs each DDIN row with the first Efashe row that has the same
    `Transaction_reference`. It builds the comparison list with its `'No Match'` sentinel, the
    `matched` list (accumulated by a loop), and the two source-tagged unmatched lists. It then
    computes the four bucket totals and stores everything in the page state.
- **Main dashboard** (`dashboard.dfy`).
  - Status counters and today's counters, the success rate, and the five latest transactions.
  - The status colour.
  - The success and failure branches of `fetchLogs`, which update the `loading`, `error`,
    `transactionData` and `lastUpdated` state.
- **Older dashboard page** (`home.dfy`). Its status filters are written
  `status === 'Complete' || 'successful'`. The model evaluates them with JavaScript truthiness
  and operator precedence, and shows what they really count.
- **Line chart** (`line_chart.dfy`). The state array is sorted in place, the `reduce` counts rows
  per service and per day, and the counts become `{id, data: [{x, y}]}` series.
- **Bar chart** (`bar_chart.dfy`). The `processData` loop counts rows per service and makes one
  chart entry per service.
- **CSV upload box** (`file_upload.dfy`). It checks the file extension and updates its
  accept/reject state.
- **Top bar** (`topbar.dfy`). The search box publishes only non-blank text to the search context.
  The two menus are open exactly while they hold an anchor element.

Shared modules:

- `numbering.dfy`: the `{...item, id: index + 1}` idiom.
- `counting.dfy`: `filter(p).length`.
- `tally.dfy`: a counter dictionary, as an insertion-ordered association list.
- `sorting.dfy`: the stable descending sort, both as a function and as an in-place array method.
- `jstext.dfy`: `trim`, ASCII `toLowerCase`, `split(..)[0]`, `split(..).pop()` and decimal
  rendering.
- `transactions.dfy`: the log row and the logs endpoint's response.
- `wrappers.dfy`: `Option`.

Modelling choices:

- **Amounts.** An amount is an integer, in minor units. A missing or empty `Amount` is 0, as
  `parseFloat(row.Amount || 0)` makes it.
- **References.** A missing `Transaction_reference` is `None`. `None` equals `None`, just as
  `undefined === undefined`.
- **Service names.** A missing `service_name` becomes the key `"undefined"`, as JavaScript's
  property-key conversion makes it.
- **Dates and the clock** are parameters:
  - `isToday` stands for the `toDateString()` comparison with today.
  - `timeOf` and `dayOf` stand for the `new Date(..)` sort keys.
  - `now` is the reading of `new Date()` in `fetchLogs`.
- **Network answers** are a `Response` value. The model takes it as a parameter and does not
  perform the fetch.
- **Rejected uploads.** After a rejected file the upload box calls `onFileUpload(null)`, and the
  reconciliation page hands that `null` to `Papa.parse`. Papa's `complete` callback never runs
  for it, so the page keeps the rows and total it had. The model writes the file as an `Option`.
- **Callbacks and sinks.** The values passed to the `onFileUpload` callback are recorded as a
  sequence field, and so are the values passed to `handleSearch`.

## Model

| member | source | states |
|---|---|---|
| Numbering.Number | src/scenes/reconciliation/index.jsx:31-34 | every parsed row is kept unchanged, in order, and gets `id = index + 1` |
| Numbering.NumberedIdsIncrease | src/scenes/reconciliation/index.jsx:31-34 | the ids are strictly increasing and lie in `1..n`, so they are unique grid keys |
| Reconciliation.ReconciliationPage.HandleFileUpload | src/scenes/reconciliation/index.jsx:26-40 | a parsed file is stored in its slot as the rows numbered from 1, with their amount total, and the other slot is left alone; Compare is then enabled exactly when both slots hold rows (line 222). A `null` file from a rejected upload (lines 214-215) changes nothing |
| Reconciliation.FirstMatch | src/scenes/reconciliation/index.jsx:45 | `find` returns the first file-2 row with an equal reference (no earlier row has it); it finds nothing exactly when `some` would be false |
| Reconciliation.Results | src/scenes/reconciliation/index.jsx:44-59 | one comparison row per DDIN row, in order, renumbered `1..n`; its `file2_amount` is `'No Match'` exactly when the row's reference occurs in no Efashe row |
| Reconciliation.Matched | src/scenes/reconciliation/index.jsx:43-51 | `matched` holds one entry per DDIN row whose reference occurs in file 2, so it is no longer than file 1 |
| Reconciliation.Unpaired | src/scenes/reconciliation/index.jsx:61-64 | the `!other.some(..)` filter keeps only rows of its own file whose reference occurs in no row of the other file, and is no longer than its file |
| Reconciliation.Tag | src/scenes/reconciliation/index.jsx:62-64 | the tagging `map` keeps every row, in order, sets its `source`, and gives pairwise distinct `${source}-${k}` ids |
| Reconciliation.CollectMatches | src/scenes/reconciliation/index.jsx:43-59 | the loop with its `push` yields exactly `Results` (one entry per DDIN row, renumbered `1..n`) and exactly `Matched` |
| Reconciliation.MatchedSnoc | src/scenes/reconciliation/index.jsx:46-51 | one `push` turns `matched` of the rows so far into `matched` of one more row |
| Reconciliation.ResultsDescribeEveryRow | src/scenes/reconciliation/index.jsx:44-59 | one comparison row per DDIN row, in order, with id `i + 1`; its amount is that of the first Efashe row with the same reference, and 'No Match' exactly when the reference occurs in no Efashe row |
| Reconciliation.MatchedCarryCounterparts | src/scenes/reconciliation/index.jsx:46-51 | every matched entry's reference occurs in file 2, and its `file2_amount` is the first such row's amount |
| Reconciliation.MatchedMembership | src/scenes/reconciliation/index.jsx:43-51 | a DDIN row, with its original id, is in `matched` exactly when its reference occurs in file 2 |
| Reconciliation.UnpairedMembership | src/scenes/reconciliation/index.jsx:61-64 | a row passes the `!other.some(..)` filter exactly when it is in its file and its reference occurs in no row of the other file |
| Reconciliation.DdinMembership | src/scenes/reconciliation/index.jsx:45-61 | a DDIN row is matched exactly when it is not unmatched, because `find` succeeds exactly when `some` does |
| Reconciliation.DdinPartitionCount | src/scenes/reconciliation/index.jsx:43-61 | the number of matched rows plus the number of unmatched DDIN rows is the number of DDIN rows |
| Reconciliation.DdinPartitionMultiset | src/scenes/reconciliation/index.jsx:43-61 | the matched DDIN records and the unmatched DDIN records together are file 1, as multisets |
| Reconciliation.DdinPartitionTotal | src/scenes/reconciliation/index.jsx:36-71 | matched DDIN amounts plus unmatched DDIN amounts equal the DDIN file total |
| Reconciliation.DdinPartition | src/scenes/reconciliation/index.jsx:61-71 | the count, multiset and total partition together, with the unmatched total taken over the tagged list |
| Reconciliation.EfasheMembership | src/scenes/reconciliation/index.jsx:63-64 | an Efashe row is unmatched exactly when its reference occurs in no DDIN row |
| Reconciliation.UnmatchedShape | src/scenes/reconciliation/index.jsx:61-66 | `unmatched` is the unmatched DDIN rows followed by the unmatched the Efashe rows, each in file order, tagged `DDIN`/`Efashe` with the id `DDIN-k`/`Efashe-k` |
| Reconciliation.TaggedAt | src/scenes/reconciliation/index.jsx:62-66 | the element at position `k` of the concatenation of a DDIN-tagged list and an Efashe-tagged list |
| Reconciliation.LabelInjective | src/scenes/reconciliation/index.jsx:62-64 | two labels `${source}-${k}` are equal only for the same source and position |
| Reconciliation.UnmatchedIdsDistinct | src/scenes/reconciliation/index.jsx:61-66 | the string ids of `unmatched` are pairwise distinct |
| Reconciliation.EmptyDdinFile | src/scenes/reconciliation/index.jsx:44-64 | with an empty file 1, `results`, `matched` and `unmatchedFile1` are empty and `unmatchedFile2` is all of file 2 |
| Reconciliation.CounterpartNotConsumed | src/scenes/reconciliation/index.jsx:45-51 | file-2 rows are not consumed: two DDIN rows pair with one Efashe row, so `matchedFile2Total` exceeds the Efashe file total |
| Reconciliation.EfasheTotalsDoNotPartition | src/scenes/reconciliation/index.jsx:63-72 | a second Efashe row with an already matched reference is in neither bucket, so the Efashe totals do not add up to its file total |
| Reconciliation.Reconcile | src/scenes/reconciliation/index.jsx:42-72 | the report of `compareFiles`; its DDIN bucket totals add up to the DDIN file total |
| Reconciliation.Compare | src/scenes/reconciliation/index.jsx:42-72 | the computing part of `compareFiles` produces exactly the report `Reconcile` describes |
| Reconciliation.ReconciliationPage.Store | src/scenes/reconciliation/index.jsx:74-80 | the seven setters store the report and touch nothing else |
| Reconciliation.ReconciliationPage.CompareFiles | src/scenes/reconciliation/index.jsx:42-81 | the page shows the report of the two stored files, and `matchedFile1Total + unmatchedFile1Total` equals the stored DDIN total |
| Dashboard.ProcessTransactionData | src/scenes/dashboard/index.jsx:72-153 | no data gives the defaults (all 0, progress "0", no recent rows); `total = complete + incomplete <= rows`; today's completed plus today's failed is at most today's count, which is at most the row count; the rate is "0" exactly when nothing is complete; at most 5 recent rows |
| Dashboard.CountsIgnoreOrder | src/scenes/dashboard/index.jsx:76-120 | the counters depend only on the multiset of rows, not on their order |
| Dashboard.Recent | src/scenes/dashboard/index.jsx:123-130 | at most five rows, `min(5, n)` of them, all taken from the data, in descending date order |
| Dashboard.RecentAreLatest | src/scenes/dashboard/index.jsx:123-130 | the recent rows are the head of a sorted permutation of a copy of the data; they are in descending date order, and no row left out is later than a row shown |
| Dashboard.GetStatusColor | src/scenes/dashboard/index.jsx:185-196 | the colour switch over the lower-cased status: complete/successful green, incomplete/failed red, anything else or a missing status grey (used by the three lemmas below) |
| Dashboard.CountedStatusesColoured | src/scenes/dashboard/index.jsx:76-82 | every status counted as complete is green, and every status counted as incomplete is red |
| Dashboard.ColorIgnoresCase | src/scenes/dashboard/index.jsx:186 | a status and its lower-cased form get the same colour |
| Dashboard.ColourIsLooserThanCounting | src/scenes/dashboard/index.jsx:185-196 | `"COMPLETE"` is green but not counted as complete, `"FAILED"` is red but not counted as incomplete, and a missing status is grey |
| Dashboard.FailureMessage | src/scenes/dashboard/index.jsx:57-61 | the stored error is never empty: `response.message` or its fallback, or the rejection's message or its fallback |
| Dashboard.DashboardState.BeginFetch | src/scenes/dashboard/index.jsx:44-45 | loading is on and the error is cleared |
| Dashboard.DashboardState.FinishFetch | src/scenes/dashboard/index.jsx:47-64 | on a 200 response the data becomes the rows numbered from 1 and the time is recorded; otherwise the error message is stored and the data and the time are kept; loading always ends |
| Dashboard.DashboardState.Displayed | src/scenes/dashboard/index.jsx:144-153 | what the page renders from its rows: a total at most the row count, and at most five recent rows |
| Home.Or | src/scenes/dashboard/Home.jsx:37 | `a \|\| b` is truthy exactly when one operand is, and returns one of its operands |
| Home.And | src/scenes/dashboard/Home.jsx:50 | `a && b` is truthy exactly when both operands are, and returns one of its operands |
| Home.Counters | src/scenes/dashboard/Home.jsx:36-59 | both status counters equal the row count, so the displayed total is twice the row count and the rate numerator is 50 times its denominator (0/0 with no rows); the today counters are at most the row count; the recent list is the first `min(5, n)` rows in API order, with no sorting |
| Home.StatusFiltersKeepEveryRow | src/scenes/dashboard/Home.jsx:36-42 | the filters `status === 'Complete' \|\| 'successful'` and `status === 'Incomplete' \|\| 'failed'` keep every row |
| Home.TodayFiltersByPrecedence | src/scenes/dashboard/Home.jsx:49-55 | today's completed counts rows that are `'Complete'` or dated today; today's failed counts rows that are `'Incomplete'` or dated today with third-party status `"failed"` |
| Home.CompletedTodayCanExceedToday | src/scenes/dashboard/Home.jsx:45-51 | one `'Complete'` row dated another day counts as completed today, while today's count is 0 |
| Home.HomeState.FetchLogs | src/scenes/dashboard/Home.jsx:21-30 | the data is replaced, numbered from 1, only on a 200 response |
| LineChart.DayOf | src/components/LineChart.jsx:33 | the day key is the prefix of `date` before its first `T`: it holds no `T`, and when it is shorter than `date` the next character is `T` |
| LineChart.BumpGroup | src/components/LineChart.jsx:36-44 | one reduce step adds its service at the end when it is new, and adds exactly 1 to the total |
| LineChart.BumpGroupDates | src/components/LineChart.jsx:36-44 | only the day counter of the row's service changes |
| LineChart.CountAtBump | src/components/LineChart.jsx:40-44 | exactly one counter `[service][day]` goes up by one; a new counter starts at 1 |
| LineChart.BumpGroupKeepsWellFormed | src/components/LineChart.jsx:36-44 | services stay distinct, and every service keeps a non-empty day counter with distinct days and counts of at least 1 |
| LineChart.GroupTransactions | src/components/LineChart.jsx:32-47 | the accumulating loop yields the reduce result `Grouped` |
| LineChart.GroupedCounts | src/components/LineChart.jsx:32-47 | `groupedData[s][d]` is the number of rows of service `s` on day `d` |
| LineChart.GroupedTotal | src/components/LineChart.jsx:32-47 | the counts add up to the number of rows |
| LineChart.GroupedWellFormed | src/components/LineChart.jsx:32-47 | every stored count is at least 1, and services and days are distinct |
| LineChart.GroupedServices | src/components/LineChart.jsx:34-38 | a service has an entry exactly when some row has that service |
| LineChart.DatesOfAt | src/components/LineChart.jsx:50-51 | with distinct services, the entry at position `i` is the counter that service's name selects |
| LineChart.SortKeepsCounts | src/components/LineChart.jsx:29-47 | the sort beforehand changes no count |
| LineChart.ChartDescribesCounts | src/components/LineChart.jsx:50-58 | one series per distinct service, with that name as its id; each series has one point per distinct day, with `x` the day and `y` that service's row count on that day, at least 1; and every row's service has a series with a point at the row's day |
| LineChart.ChartSound | src/components/LineChart.jsx:50-58 | one series per distinct service, named by it; one point per distinct day of that service, whose `y` is the row count of that service on that day, at least 1 |
| LineChart.ChartCoversRows | src/components/LineChart.jsx:32-58 | no row is missing from the chart: each row's service has a series with a point at the row's day |
| LineChart.RowPlotted | src/components/LineChart.jsx:32-58 | every row is plotted: the series of its service has a point whose `x` is its day |
| LineChart.BuildChart | src/components/LineChart.jsx:29-58 | the state array is left sorted in place by day, latest first (a stable permutation), and the series are those of the sorted rows |
| Sorting.SortDesc | src/components/LineChart.jsx:29 | the comparator sort `key(b) - key(a)` yields a permutation of its input in descending key order |
| Sorting.SortDescStable | src/components/LineChart.jsx:29 | the sort is stable: the rows sharing a key keep their input order |
| Sorting.SortInPlace | src/components/LineChart.jsx:29 | `transactionData.sort(..)` rearranges the array in place into exactly `SortDesc` of its old contents |
| BarChart.ProcessData | src/components/BarChart.jsx:28-46 | the `forEach` loop yields the counter `Counted`, and the result is its chart data |
| Tally.Bump | src/components/BarChart.jsx:32-36 | `counts[k]++` or `counts[k] = 1`: a new key is appended and an existing one keeps its place, the counts grow by exactly 1 in total, and counts of at least 1 stay so |
| BarChart.CountedCounts | src/components/BarChart.jsx:30-37 | `serviceCounts[s]` is the number of rows of service `s`: the first occurrence sets it to 1 and each later one adds 1 |
| BarChart.CountedSum | src/components/BarChart.jsx:29-37 | the counts add up to the number of rows |
| BarChart.CountedWellFormed | src/components/BarChart.jsx:29-37 | the keys are distinct and every count is at least 1 |
| BarChart.CountedKeys | src/components/BarChart.jsx:29-37 | the keys are exactly the services of the rows |
| BarChart.ChartIdsAreServices | src/components/BarChart.jsx:40-43 | one entry per distinct service of the rows, with that name as its id |
| BarChart.ChartEmptyIff | src/components/BarChart.jsx:29-45 | the chart data is empty exactly when there are no rows |
| BarChart.ChartPointsAreCounts | src/components/BarChart.jsx:42 | each entry holds one point, with `x = id` and `y` that service's row count, at least 1 |
| FileUpload.Extension | src/components/FileUploads.jsx:12 | the extension contains no dot and is no longer than the name |
| FileUpload.ExtensionAfterLastDot | src/components/FileUploads.jsx:12 | the extension of `base.ext`, for a dot-free `ext`, is `ext` lower-cased |
| FileUpload.ExtensionWithoutDot | src/components/FileUploads.jsx:12 | a name without a dot is its own extension, lower-cased |
| FileUpload.AcceptedIff | src/components/FileUploads.jsx:12-14 | `base.ext` is accepted exactly when `ext` is `csv` in some letter case |
| FileUpload.UpperCaseAccepted | src/components/FileUploads.jsx:12-14 | `X.CSV` is accepted |
| FileUpload.BareCsvAccepted | src/components/FileUploads.jsx:12-14 | a bare `csv`, with no dot, is accepted |
| FileUpload.InnerCsvRejected | src/components/FileUploads.jsx:12-14 | `a.csv.txt` is rejected |
| FileUpload.TrailingDotRejected | src/components/FileUploads.jsx:12-14 | `data.csv.` is rejected |
| FileUpload.FileUploadBox.HandleFileUpload | src/components/FileUploads.jsx:10-26 | on reject: the CSV error, no file, one `null` notification, and the input cleared when mounted. On accept: no error, the file kept, and one notification of that file. A kept file is always a CSV file |
| FileUpload.FileUploadBox.HandleRemoveFile | src/components/FileUploads.jsx:28-34 | no file, one `null` notification, the input cleared when mounted, and the error unchanged (the handler's only caller is commented out, lines 47-59) |
| Topbar.TopbarState.InputChange | src/scenes/global/Topbar.jsx:40-42 | the text is stored verbatim and nothing is published; the clear button then shows exactly when the text is non-empty, and search is disabled exactly when it is blank |
| JsText.Trim | src/scenes/global/Topbar.jsx:45 | `searchValue.trim()` is non-empty exactly when the text has a non-whitespace character, and then starts and ends with one |
| Topbar.TopbarState.SearchClick | src/scenes/global/Topbar.jsx:44-48 | the untrimmed text is published exactly when it has a non-whitespace character; otherwise nothing changes |
| Topbar.TopbarState.SearchDisabled | src/scenes/global/Topbar.jsx:173 | the search button is disabled exactly when the text is blank, the case in which a click does nothing |
| Topbar.TopbarState.KeyPress | src/scenes/global/Topbar.jsx:50-54 | publishes only on `Enter` with non-blank text |
| Topbar.TopbarState.ClearSearch | src/scenes/global/Topbar.jsx:72-75 | the text becomes `""` and `""` is published unconditionally, so the context holds `""`, the clear button hides and search is disabled |
| Topbar.TopbarState.ContextValue | src/context/searchContext.js:11-13 | the context holds the last published value, and that value is `""` or has a non-whitespace character, after any sequence of events |
| Topbar.TopbarState.OpenProfileMenu | src/scenes/global/Topbar.jsx:56-58 | the event target is stored as the profile anchor, so the profile menu is open (line 388); whether the notifications menu is open does not change |
| Topbar.TopbarState.CloseProfileMenu | src/scenes/global/Topbar.jsx:60-62 | the profile anchor is reset, so the profile menu is closed; the notifications menu is unaffected |
| Topbar.TopbarState.OpenNotificationsMenu | src/scenes/global/Topbar.jsx:64-66 | the event target is stored as the notifications anchor, so the notifications menu is open (line 263); whether the profile menu is open does not change |
| Topbar.TopbarState.CloseNotificationsMenu | src/scenes/global/Topbar.jsx:68-70 | the notifications anchor is reset, so the notifications menu is closed; the profile menu is unaffected |

## Left out

- CSV tokenisation by `Papa.parse` (header rows, `skipEmptyLines`). This is a foreign library, so the parsed rows are the input.
- `parseFloat` and float sums. Amounts are integers, where a missing or empty `Amount` is 0. A non-numeric amount, which gives `NaN` in the source, is not modelled.
- `toFixed`, `Intl.NumberFormat` and the percentage division. The success rate is kept as the exact pair `complete / total`.
- Date parsing and the clock. These are the `isToday`, `timeOf`, `dayOf` and `now` parameters. A row without `date` makes LineChart's `split` throw, and the model always has a date string.
- The `try`/`catch` around the date expressions in `processTransactionData`. These catches can only swallow exceptions from `new Date`, which is a parameter here.
- Sort comparators that return `NaN` for unparsable dates. The sort keys are integers.
- The axios client in `dataController.js`, the `useEffect` triggers, and the `fetchLogs` functions of LineChart and BarChart. Those functions have the same shape as `Home.HomeState.FetchLogs`, and the model passes each chart its rows.
- A `response.data` that is not an array. The response data is always a sequence of rows.
- JavaScript's prototype keys in the counting dictionaries (`'constructor' in {}`) and the reordering of integer-like keys by `Object.keys` and `Object.entries`. Dictionaries are insertion-ordered association lists.
- LineChart.BumpGroup: it reads the conditions `!acc[s]` and `!acc[s][d]` as "absent". They are the same because a stored counter is an object and every stored count is at least 1.
- React rendering and the MUI and Nivo configuration. This covers `Header.jsx`, the invoices, pie and login pages, column definitions and theming.
- BarChart's rendered chart, which plots mock data. Only `processData` is modelled.
- `toLowerCase` beyond ASCII letters. Statuses and file names are lower-cased letter by letter in A-Z only.
- Non-string statuses, such as a number in the `status` column.
- Sorting.SortInPlace: it is proved equal to the stable insertion sort. It does not prove that every other sort algorithm a JavaScript engine might use gives the same order for equal keys; the language requires stability, so they agree.
- `handleRemoveFile` in `FileUploads.jsx` has no live caller: the "Remove File" button that calls it is commented out. It is modelled as written but cannot happen in the running page.
- Reconciliation.ReconciliationPage.HandleFileUpload: a `null` file is modelled as leaving the page unchanged. Whether `Papa.parse(null, ..)` throws or just never calls `complete` is not distinguished.
- FileUpload.FileUploadBox.HandleFileUpload: an empty file list, which makes the source throw, is modelled as "nothing changes".

## Findings

| source | as written | input that shows it | evidently intended | confidence | as-written member | corrected member |
|---|---|---|---|---|---|---|
| src/scenes/dashboard/Home.jsx:36-42 | `status === 'Complete' \|\| 'successful'` is always truthy, and so is the `'Incomplete'` filter. Both counters equal the row count, and the rate is always 50% | any non-empty row list, e.g. one row with status `"failed"` | count rows whose status is `'Complete'` or `'successful'` (and `'Incomplete'` or `'failed'`) | not executed | Home.StatusFiltersKeepEveryRow | Dashboard.ProcessTransactionData |
| src/scenes/dashboard/Home.jsx:49-55 | `&&` binds tighter than `\|\|`, so today's completed counts every `'Complete'` row, whatever its date | one `'Complete'` row dated another day: completed today 1, today 0 | count rows dated today whose status is complete | not executed | Home.CompletedTodayCanExceedToday | Dashboard.ProcessTransactionData |
