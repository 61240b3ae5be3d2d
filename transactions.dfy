/** The transaction log row served by the logs endpoint, and the shape of that endpoint's answer. */
module Transactions {
  import opened Wrappers
  import opened Numbering

  /** One log row. Only the columns the dashboards read are named: `status`, `thirdpart_status`,
      `service_name` (each `None` when absent) and `date`, an ISO timestamp such as
      `2024-05-01T10:22:00Z`; `fields` carries the rest. */
  datatype LogEntry = LogEntry(status: Option<string>, thirdpartStatus: Option<string>,
                               serviceName: Option<string>, date: string, fields: map<string, string>)

  /** A row as stored in component state, `{ ...item, id: index + 1 }`. */
  type Transaction = Numbered<LogEntry>

  /** What `await getAllLogs()` yields: a response object, or a rejected promise with its message. */
  datatype Response =
    | Responded(responseCode: int, data: seq<LogEntry>, message: Option<string>)
    | Rejected(reason: Option<string>)

  predicate Succeeded(r: Response) {
    r.Responded? && r.responseCode == 200
  }

  /** The property key `service_name` becomes: JavaScript turns a missing name into `"undefined"`. */
  function ServiceKey(e: LogEntry): (k: string)
    ensures e.serviceName.Some? ==> k == e.serviceName.value
  {
    match e.serviceName
    case Some(name) => name
    case None => "undefined"
  }

  /** The service keys of a list of rows. */
  function ServiceNames(data: seq<Transaction>): set<string> {
    set t | t in data :: ServiceKey(t.item)
  }

  /** The services of a non-empty list are those of all but its last row, plus the last row's. */
  lemma {:induction false} ServiceNamesLast(data: seq<Transaction>)
    requires data != []
    ensures ServiceNames(data) == ServiceNames(data[..|data| - 1]) + {ServiceKey(data[|data| - 1].item)}
  {
    var init, last := data[..|data| - 1], data[|data| - 1];
    assert data == init + [last];
    forall s | s in ServiceNames(data) ensures s in ServiceNames(init) || s == ServiceKey(last.item) {
      var t :| t in data && ServiceKey(t.item) == s;
      if t != last {
        assert t in init;
      }
    }
    forall s | s in ServiceNames(init) ensures s in ServiceNames(data) {
      var t :| t in init && ServiceKey(t.item) == s;
      assert t in data;
    }
    assert last in data;
  }

  /** JavaScript's `m || fallback` for a string that may be missing: an empty string is falsy too. */
  function OrDefault(m: Option<string>, fallback: string): (r: string)
    ensures fallback != "" ==> r != ""
    ensures r == fallback || (m.Some? && r == m.value)
  {
    if m.Some? && m.value != "" then m.value else fallback
  }
}
