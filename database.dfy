/** The notification store's queries: the list of runs, and the search over stored
    notifications grouped by child process. The database is abstracted: each query's result
    (rows, or an error, with a per-row scan outcome) is a parameter, and the query issued is
    returned. */
module Database {
  import opened Wrappers
  import opened Notification
  import opened SqlQuery
  import opened Grouping

  /** The runs query: the newest hundred Startup notifications; its one positional argument
      is the Startup code. */
  const RunsSql: string := "SELECT * FROM notifs WHERE event_type = ? ORDER BY created_at DESC LIMIT 100;"

  /** The query resolving the newest run's child process id. */
  const LastRunSql: string := "SELECT child_process_id FROM notifs WHERE event_type = ? ORDER BY created_at DESC LIMIT 1;"

  /** The ordering of a search: by child process, then time, at most 1000 rows. */
  const NotifsOrder: string := " ORDER BY child_process_id ASC, created_at ASC limit 1000;"

  /** FindRuns: the Startup notifications the runs query returns, or its error. */
  method FindRuns(selected: Result<seq<Notification>>) returns (runs: seq<Notification>, err: Option<string>, sql: string, arg: int)
    ensures sql == RunsSql && arg == NotificationType.Startup.Code() && arg == 6
    ensures selected.Ok? ==> err.None? && runs == selected.value
    ensures selected.Err? ==> err == Some("getting runs: " + selected.error) && runs == []
  {
    sql, arg := RunsSql, NotificationType.Startup.Code();
    if selected.Err? {
      return [], Some("getting runs: " + selected.error), sql, arg;
    }
    return selected.value, None, sql, arg;
  }

  /** The notifications among the first n rows that name a child process. */
  function Kept(rows: seq<Result<Notification>>, n: nat): seq<Notification>
    requires n <= FirstScanError(rows)
  {
    if n == 0 then []
    else Kept(rows, n - 1) + (if rows[n - 1].value.childProcessId != "" then [rows[n - 1].value] else [])
  }

  function ChildId(n: Notification): string {
    n.childProcessId
  }

  /** The outcome of FindNotifications: the query issued, if any, and the groups or the error. */
  datatype Found = Found(issued: Option<Query>, groups: seq<seq<Notification>>, err: Option<string>)

  /** FindNotifications: an empty run id is first resolved to the newest run; a run id that
      is still empty yields no groups. Otherwise the search is issued and the rows naming a
      child process are grouped by it, in order. A failing query or row scan is an error. */
  method FindNotifications(runID: string, stm: string, filter: string, lastRun: Result<string>,
                           result: Result<seq<Result<Notification>>>) returns (f: Found)
    ensures runID == "" && lastRun.Err? ==> f == Found(None, [], Some("getting last run id: " + lastRun.error))
    ensures var id := if runID == "" && lastRun.Ok? then lastRun.value else runID;
      !(runID == "" && lastRun.Err?) ==>
        (id == "" ==> f == Found(None, [], None)) &&
        (id != "" ==> f.issued == Some(Query(SearchSql("notifs", "child_process_id", id, true, stm, filter, NotifsOrder),
                                             SearchParams("child_process_id", id, true, stm, filter)))) &&
        (id != "" && result.Err? ==> f.groups == [] && f.err == Some("querying notifications: " + result.error)) &&
        (id != "" && result.Ok? && FirstScanError(result.value) < |result.value| ==>
          f.groups == [] && f.err == Some("scanning notification: " + result.value[FirstScanError(result.value)].error)) &&
        (id != "" && result.Ok? && FirstScanError(result.value) == |result.value| ==>
          f.err.None? && f.groups == Group(Kept(result.value, |result.value|), ChildId))
  {
    var id := runID;
    if id == "" {
      if lastRun.Err? {
        return Found(None, [], Some("getting last run id: " + lastRun.error));
      }
      id := lastRun.value;
    }
    if id == "" {
      return Found(None, [], None);
    }
    var q := BuildSearch("notifs", "child_process_id", id, true, stm, filter, NotifsOrder);
    if result.Err? {
      return Found(Some(q), [], Some("querying notifications: " + result.error));
    }
    var groups, err := GroupRows(result.value);
    return Found(Some(q), groups, err);
  }

  /** The grouping loop: rows are scanned in order; rows without a child process id are
      skipped; a row whose id differs from the previous kept row's opens a new group. */
  method GroupRows(rows: seq<Result<Notification>>) returns (notifs: seq<seq<Notification>>, err: Option<string>)
    ensures FirstScanError(rows) < |rows| ==> notifs == [] && err == Some("scanning notification: " + rows[FirstScanError(rows)].error)
    ensures FirstScanError(rows) == |rows| ==> err.None? && notifs == Group(Kept(rows, |rows|), ChildId)
  {
    notifs := [];
    var lastRunID := "";
    var i := 0;
    while i < |rows|
      invariant i <= FirstScanError(rows)
      invariant notifs == Group(Kept(rows, i), ChildId)
      invariant LastSeen(notifs, lastRunID)
    {
      if rows[i].Err? {
        return [], Some("scanning notification: " + rows[i].error);
      }
      GroupKeptStep(rows, i);
      notifs, lastRunID := GroupRow(rows, i, notifs, lastRunID);
      i := i + 1;
    }
    return notifs, None;
  }

  /** One scanned row of the grouping loop: skipped without a child process id, otherwise
      added to the grouping. */
  method GroupRow(rows: seq<Result<Notification>>, i: nat, notifs: seq<seq<Notification>>, lastRunID: string)
    returns (notifs': seq<seq<Notification>>, lastRunID': string)
    requires i < FirstScanError(rows)
    requires notifs == Group(Kept(rows, i), ChildId) && LastSeen(notifs, lastRunID)
    ensures notifs' == Group(Kept(rows, i + 1), ChildId) && LastSeen(notifs', lastRunID')
  {
    GroupKeptStep(rows, i);
    notifs', lastRunID' := notifs, lastRunID;
    var ev := rows[i].value;
    if ev.childProcessId != "" {
      notifs', lastRunID' := AppendGrouped(notifs, lastRunID, ev, ChildId);
    }
  }

  /** The loop's last id: "" before any group, then the id of the last group's rows. */
  predicate LastSeen(groups: seq<seq<Notification>>, last: string) {
    if groups == [] then last == "" else |groups[|groups| - 1]| > 0 && last == groups[|groups| - 1][0].childProcessId
  }

  /** The grouping of the kept rows grows by one pushed row per kept row. */
  lemma GroupKeptStep(rows: seq<Result<Notification>>, i: nat)
    requires i < |rows| && i <= FirstScanError(rows) && rows[i].Ok?
    ensures i < FirstScanError(rows)
    ensures rows[i].value.childProcessId != "" ==>
      Group(Kept(rows, i + 1), ChildId) == Push(Group(Kept(rows, i), ChildId), rows[i].value, ChildId)
    ensures rows[i].value.childProcessId == "" ==> Kept(rows, i + 1) == Kept(rows, i)
  {
    var before := Kept(rows, i);
    var ev := rows[i].value;
    if ev.childProcessId != "" {
      assert Kept(rows, i + 1) == before + [ev];
      assert (before + [ev])[..|before|] == before;
    } else {
      assert Kept(rows, i + 1) == before + [];
    }
  }

  /** The groups a successful search returns split the kept rows into maximal runs of one
      child process each, and no group holds a row without a child process id. */
  lemma SearchGroups(rows: seq<Result<Notification>>)
    requires FirstScanError(rows) == |rows|
    ensures IsGrouping(Group(Kept(rows, |rows|), ChildId), Kept(rows, |rows|), ChildId)
    ensures forall i :: 0 <= i < |Kept(rows, |rows|)| ==> Kept(rows, |rows|)[i].childProcessId != ""
  {
    GroupIsGrouping(Kept(rows, |rows|), ChildId);
    KeptNamed(rows, |rows|);
  }

  lemma {:induction false} KeptNamed(rows: seq<Result<Notification>>, n: nat)
    requires n <= FirstScanError(rows)
    ensures forall i :: 0 <= i < |Kept(rows, n)| ==> Kept(rows, n)[i].childProcessId != ""
  {
    if n > 0 {
      KeptNamed(rows, n - 1);
    }
  }
}
