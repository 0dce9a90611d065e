/** The SQL the log views send: a query text built clause by clause, with named parameters
    (`:name`) bound in a map. The text is kept as a list of fragments, literal text and
    parameter references, so that the names it uses can be compared with the names bound. */
module SqlQuery {
  import opened Wrappers

  datatype Fragment = Text(text: string) | Param(name: string)

  datatype Query = Query(sql: seq<Fragment>, params: map<string, string>)

  /** The query text as the database receives it. */
  function Render(sql: seq<Fragment>): string {
    if sql == [] then ""
    else Render(sql[..|sql| - 1]) + match sql[|sql| - 1] { case Text(t) => t case Param(n) => ":" + n }
  }

  /** The parameter names the text refers to. */
  function Placeholders(sql: seq<Fragment>): (names: set<string>)
    ensures forall n :: n in names <==> Param(n) in sql
  {
    set i | 0 <= i < |sql| && sql[i].Param? :: sql[i].name
  }

  /** Every name the text refers to is bound, and every bound name is referred to. */
  predicate Consistent(q: Query) {
    Placeholders(q.sql) == q.params.Keys
  }

  /** A clause that binds one parameter: text, the reference, and a closing space. */
  function Clause(before: string, name: string): seq<Fragment> {
    [Text(before), Param(name), Text(" ")]
  }

  /** The event-type filter applies unless the stream is empty or "all". */
  predicate FiltersStream(stm: string) {
    !(stm == "" || stm == "all")
  }

  /** The text clauses narrowing a search by stream and by a substring of the data. */
  function Narrowing(stm: string, filter: string): seq<Fragment> {
    (if FiltersStream(stm) then Clause(" AND event_type = ", "event_type") else [])
    + (if filter != "" then Clause(" AND event_data LIKE ", "event_data") else [])
  }

  /** The parameters the narrowing clauses bind. */
  function NarrowingParams(params: map<string, string>, stm: string, filter: string): (r: map<string, string>)
    ensures r.Keys == params.Keys + (if FiltersStream(stm) then {"event_type"} else {})
      + (if filter != "" then {"event_data"} else {})
    ensures forall k :: k in params && k != "event_type" && k != "event_data" ==> r[k] == params[k]
    ensures "event_type" in r <==> "event_type" in params || FiltersStream(stm)
    ensures FiltersStream(stm) ==> r["event_type"] == stm
    ensures "event_data" in r <==> "event_data" in params || filter != ""
    ensures filter != "" ==> r["event_data"] == "%" + filter + "%"
  {
    var p := if FiltersStream(stm) then params["event_type" := stm] else params;
    if filter != "" then p["event_data" := "%" + filter + "%"] else p
  }

  /** The clauses shared by every search: the stream clause when a stream other than "all" is
      named, then the substring clause when a filter is given, each with its parameter. */
  method AddNarrowing(sql: seq<Fragment>, params: map<string, string>, stm: string, filter: string)
    returns (sql': seq<Fragment>, params': map<string, string>)
    ensures sql' == sql + Narrowing(stm, filter)
    ensures params' == NarrowingParams(params, stm, filter)
  {
    sql', params' := sql, params;
    if !(stm == "" || stm == "all") {
      sql' := sql' + Clause(" AND event_type = ", "event_type");
      params' := params'["event_type" := stm];
    }
    if filter != "" {
      sql' := sql' + Clause(" AND event_data LIKE ", "event_data");
      params' := params'["event_data" := "%" + filter + "%"];
    }
  }

  /** The narrowing clauses refer to exactly the names they bind. */
  lemma NarrowingNames(stm: string, filter: string)
    ensures Placeholders(Narrowing(stm, filter)) ==
      (if FiltersStream(stm) then {"event_type"} else {}) + (if filter != "" then {"event_data"} else {})
  {
    var a := if FiltersStream(stm) then Clause(" AND event_type = ", "event_type") else [];
    var b := if filter != "" then Clause(" AND event_data LIKE ", "event_data") else [];
    PlaceholdersAppend(a, b);
    if FiltersStream(stm) {
      ClauseNames(" AND event_type = ", "event_type");
    } else {
      assert Placeholders(a) == {};
    }
    if filter != "" {
      ClauseNames(" AND event_data LIKE ", "event_data");
    } else {
      assert Placeholders(b) == {};
    }
  }

  /** A clause refers to its one parameter. */
  lemma ClauseNames(before: string, name: string)
    ensures Placeholders(Clause(before, name)) == {name}
  {
    assert Clause(before, name)[1] == Param(name);
  }

  /** The run clause of a search: a clause that always holds when every run is asked for
      ("all", where the builder accepts it), otherwise the id column bound to the run id. */
  function RunFilter(column: string, runID: string, allowAll: bool): seq<Fragment> {
    if allowAll && runID == "all" then [Text("1 = 1 ")] else Clause(column + " = ", column)
  }

  /** A search's text: the select from the table, the run clause, the narrowing clauses and
      the ordering. */
  function SearchSql(table: string, column: string, runID: string, allowAll: bool,
                     stm: string, filter: string, order: string): (sql: seq<Fragment>)
    ensures |sql| >= 3 && sql[0] == Text("SELECT * FROM " + table + " WHERE ") && sql[|sql| - 1] == Text(order)
  {
    [Text("SELECT * FROM " + table + " WHERE ")] + RunFilter(column, runID, allowAll) + Narrowing(stm, filter) + [Text(order)]
  }

  /** The parameters a search binds: the run id under the id column unless every run is asked
      for, the stream unless it is empty or "all", and the filter, wrapped in `%`, when it is
      not empty. */
  function SearchParams(column: string, runID: string, allowAll: bool, stm: string, filter: string): (p: map<string, string>)
    requires column != "event_type" && column != "event_data"
    ensures column in p <==> !(allowAll && runID == "all")
    ensures column in p ==> p[column] == runID
    ensures "event_type" in p <==> FiltersStream(stm)
    ensures FiltersStream(stm) ==> p["event_type"] == stm
    ensures "event_data" in p <==> filter != ""
    ensures filter != "" ==> p["event_data"] == "%" + filter + "%"
    ensures p.Keys == (if allowAll && runID == "all" then {} else {column})
      + (if FiltersStream(stm) then {"event_type"} else {}) + (if filter != "" then {"event_data"} else {})
  {
    NarrowingParams(if allowAll && runID == "all" then map[] else map[column := runID], stm, filter)
  }

  /** The search builders of the log views: the text grows clause by clause while the
      parameters are bound. */
  method BuildSearch(table: string, column: string, runID: string, allowAll: bool,
                     stm: string, filter: string, order: string) returns (q: Query)
    requires column != "event_type" && column != "event_data"
    ensures q == Query(SearchSql(table, column, runID, allowAll, stm, filter, order),
                       SearchParams(column, runID, allowAll, stm, filter))
  {
    var params: map<string, string> := map[];
    var sql := [Text("SELECT * FROM " + table + " WHERE ")];
    if allowAll && runID == "all" {
      sql := sql + [Text("1 = 1 ")];
    } else {
      params := params[column := runID];
      sql := sql + Clause(column + " = ", column);
    }
    sql, params := AddNarrowing(sql, params, stm, filter);
    sql := sql + [Text(order)];
    q := Query(sql, params);
  }

  /** A search's text refers to exactly the names the search binds. */
  lemma SearchConsistent(table: string, column: string, runID: string, allowAll: bool,
                         stm: string, filter: string, order: string)
    requires column != "event_type" && column != "event_data"
    ensures Consistent(Query(SearchSql(table, column, runID, allowAll, stm, filter, order),
                             SearchParams(column, runID, allowAll, stm, filter)))
  {
    SearchNames(table, column, runID, allowAll, stm, filter, order);
  }

  /** The names a search's text refers to. */
  lemma SearchNames(table: string, column: string, runID: string, allowAll: bool,
                    stm: string, filter: string, order: string)
    ensures Placeholders(SearchSql(table, column, runID, allowAll, stm, filter, order)) ==
      (if allowAll && runID == "all" then {} else {column})
      + (if FiltersStream(stm) then {"event_type"} else {}) + (if filter != "" then {"event_data"} else {})
  {
    var run := RunFilter(column, runID, allowAll);
    if allowAll && runID == "all" {
      assert Placeholders(run) == {};
    } else {
      ClauseNames(column + " = ", column);
    }
    NarrowingNames(stm, filter);
    var head := [Text("SELECT * FROM " + table + " WHERE ")];
    assert Placeholders(head) == {};
    assert Placeholders([Text(order)]) == {};
    PlaceholdersAppend(head, run);
    PlaceholdersAppend(head + run, Narrowing(stm, filter));
    PlaceholdersAppend(head + run + Narrowing(stm, filter), [Text(order)]);
  }

  /** A clause renders as its text, the parameter's name after a colon, and a space. */
  lemma RenderClause(before: string, name: string)
    ensures Render(Clause(before, name)) == before + ":" + name + " "
  {
    var c := Clause(before, name);
    assert c[..2][..1] == [Text(before)];
    assert c[..|c| - 1] == c[..2];
    assert Render([Text(before)]) == before;
  }

  lemma PlaceholdersAppend(a: seq<Fragment>, b: seq<Fragment>)
    ensures Placeholders(a + b) == Placeholders(a) + Placeholders(b)
  {
    forall n ensures Param(n) in a + b <==> Param(n) in a || Param(n) in b {
    }
  }

  /** Rendering distributes over concatenation. */
  lemma RenderAppend(a: seq<Fragment>, b: seq<Fragment>)
    ensures Render(a + b) == Render(a) + Render(b)
    decreases |b|
  {
    if b == [] {
      assert a + b == a;
    } else {
      assert (a + b)[..|a + b| - 1] == a + b[..|b| - 1];
      RenderAppend(a, b[..|b| - 1]);
    }
  }

  /** Two optional clauses render as the clauses that are present, in order. */
  lemma OptionalClausesText(x: string, nx: string, p: bool, y: string, ny: string, q: bool)
    ensures Render((if p then Clause(x, nx) else []) + (if q then Clause(y, ny) else [])) ==
      (if p then x + ":" + nx + " " else "") + (if q then y + ":" + ny + " " else "")
  {
    var a := if p then Clause(x, nx) else [];
    var b := if q then Clause(y, ny) else [];
    if p {
      RenderClause(x, nx);
    }
    if q {
      RenderClause(y, ny);
    }
    RenderAppend(a, b);
  }

  /** The narrowing clauses render as ` AND event_type = :event_type ` when a stream is named,
      then ` AND event_data LIKE :event_data ` when a filter is given. */
  lemma NarrowingText(stm: string, filter: string)
    ensures Render(Narrowing(stm, filter)) ==
      (if FiltersStream(stm) then " AND event_type = :event_type " else "")
      + (if filter != "" then " AND event_data LIKE :event_data " else "")
  {
    assert " AND event_type = " + ":" + "event_type" + " " == " AND event_type = :event_type ";
    assert " AND event_data LIKE " + ":" + "event_data" + " " == " AND event_data LIKE :event_data ";
    OptionalClausesText(" AND event_type = ", "event_type", FiltersStream(stm),
                        " AND event_data LIKE ", "event_data", filter != "");
  }

  /** The run clause renders as the dummy clause `1 = 1 ` or as `column = :column `. */
  lemma RunFilterText(column: string, runID: string, allowAll: bool)
    ensures Render(RunFilter(column, runID, allowAll)) ==
      if allowAll && runID == "all" then "1 = 1 " else column + " = :" + column + " "
  {
    if allowAll && runID == "all" {
      assert [Text("1 = 1 ")][..0] == [];
    } else {
      RenderClause(column + " = ", column);
    }
  }

  /** A text between a head and a tail renders between their texts. */
  lemma FramedText(head: string, run: seq<Fragment>, nar: seq<Fragment>, tail: string)
    ensures Render([Text(head)] + run + nar + [Text(tail)]) == head + Render(run) + Render(nar) + tail
  {
    assert [Text(head)][..0] == [] && [Text(tail)][..0] == [];
    RenderAppend([Text(head)], run);
    RenderAppend([Text(head)] + run, nar);
    RenderAppend([Text(head)] + run + nar, [Text(tail)]);
  }

  /** The text the database receives for a search: the select, the dummy clause `1 = 1 ` or
      `column = :column `, the narrowing clauses and the ordering. */
  lemma {:induction false} SearchText(table: string, column: string, runID: string, allowAll: bool,
                                      stm: string, filter: string, order: string)
    ensures Render(SearchSql(table, column, runID, allowAll, stm, filter, order)) ==
      "SELECT * FROM " + table + " WHERE "
      + (if allowAll && runID == "all" then "1 = 1 " else column + " = :" + column + " ")
      + (if FiltersStream(stm) then " AND event_type = :event_type " else "")
      + (if filter != "" then " AND event_data LIKE :event_data " else "")
      + order
  {
    FramedText("SELECT * FROM " + table + " WHERE ", RunFilter(column, runID, allowAll), Narrowing(stm, filter), order);
    RunFilterText(column, runID, allowAll);
    NarrowingText(stm, filter);
  }

  // ---- scanning the rows of a query ----

  /** The number of rows scanned before the first one that fails to scan. */
  function FirstScanError<T>(rows: seq<Result<T>>): (k: nat)
    ensures k <= |rows|
    ensures forall i :: 0 <= i < k ==> rows[i].Ok?
    ensures k < |rows| ==> rows[k].Err?
  {
    if rows == [] || rows[0].Err? then 0 else 1 + FirstScanError(rows[1..])
  }

  /** The values of the first n rows. */
  function Scanned<T>(rows: seq<Result<T>>, n: nat): (vs: seq<T>)
    requires n <= FirstScanError(rows)
    ensures |vs| == n && forall i :: 0 <= i < n ==> vs[i] == rows[i].value
  {
    if n == 0 then [] else Scanned(rows, n - 1) + [rows[n - 1].value]
  }
}
