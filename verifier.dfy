/**
 * The read check run after an upgrade (verify_in_databricks.py): three probes against
 * `catalog.database.table` on a Databricks SQL warehouse, DESCRIBE, then a five-row SELECT,
 * then a COUNT, each stopping the check when it fails, except the last.
 */
module Verifier {
  import opened Wrappers
  import opened Strings
  import opened Configuration

  /** One element of the warehouse listing; `state` is None when the listing omits it. */
  datatype Warehouse = Warehouse(id: string, name: string, state: Option<string>)

  const RUNNING: string := "RUNNING"
  const SUCCEEDED: string := "SUCCEEDED"

  predicate IsRunning(w: Warehouse) {
    w.state == Some(RUNNING)
  }

  /** The warehouses whose state is RUNNING, in listing order. */
  function RunningWarehouses(ws: seq<Warehouse>): seq<Warehouse>
    decreases |ws|
  {
    if ws == [] then []
    else (if IsRunning(ws[0]) then [ws[0]] else []) + RunningWarehouses(ws[1..])
  }

  /** The warehouse a query runs on: the head of the running ones, None when none is running. */
  function SelectWarehouse(ws: seq<Warehouse>): (w: Option<Warehouse>)
    ensures w.Some? ==> w.value in ws && IsRunning(w.value)
  {
    var running := RunningWarehouses(ws);
    if running == [] then None
    else
      RunningMembership(ws, running[0]);
      Some(running[0])
  }

  /** A warehouse is among the running ones exactly when it is listed and RUNNING. */
  lemma {:induction false} RunningMembership(ws: seq<Warehouse>, w: Warehouse)
    ensures w in RunningWarehouses(ws) <==> w in ws && IsRunning(w)
    decreases |ws|
  {
    if ws != [] {
      assert ws == [ws[0]] + ws[1..];
      RunningMembership(ws[1..], w);
    }
  }

  /** Selection finds no warehouse exactly when none is RUNNING. */
  lemma SelectWarehouseNone(ws: seq<Warehouse>)
    ensures SelectWarehouse(ws).None? <==> forall i :: 0 <= i < |ws| ==> !IsRunning(ws[i])
  {
    var running := RunningWarehouses(ws);
    if running != [] {
      RunningMembership(ws, running[0]);
    }
    forall i | 0 <= i < |ws| && IsRunning(ws[i]) ensures running != [] {
      RunningMembership(ws, ws[i]);
    }
  }

  /** The warehouse selection finds is the first RUNNING one of the listing. */
  lemma {:induction false} SelectWarehouseFirstRunning(ws: seq<Warehouse>, i: nat)
    requires i < |ws| && IsRunning(ws[i])
    requires forall j :: 0 <= j < i ==> !IsRunning(ws[j])
    ensures SelectWarehouse(ws) == Some(ws[i])
    decreases i
  {
    if i > 0 {
      var rest := ws[1..];
      assert !IsRunning(ws[0]);
      assert RunningWarehouses(ws) == RunningWarehouses(rest);
      assert rest[i - 1] == ws[i];
      forall j | 0 <= j < i - 1 ensures !IsRunning(rest[j]) {
        assert rest[j] == ws[j + 1];
      }
      SelectWarehouseFirstRunning(rest, i - 1);
    }
  }

  /** `s.rstrip('/')`. */
  function TrimTrailingSlashes(s: string): (r: string)
    ensures |r| <= |s| && r == s[..|r|]
    ensures forall i :: |r| <= i < |s| ==> s[i] == '/'
    ensures r == [] || r[|r| - 1] != '/'
    decreases |s|
  {
    if s != [] && s[|s| - 1] == '/' then TrimTrailingSlashes(s[..|s| - 1]) else s
  }

  /** The workspace address and the access token the requests carry. */
  datatype Endpoint = Endpoint(host: string, token: string)

  const WAIT_TIMEOUT: string := "50s"

  /** The HTTP requests a query makes. */
  datatype Request =
    | ListWarehouses(url: string, authorization: string)
    | SubmitStatement(url: string, authorization: string, warehouseId: string, statement: string, waitTimeout: string)

  /** The `status` object of a statement response; `errorMessage` is None when `error` or its `message` is absent. */
  datatype StatementStatus = StatementStatus(state: Option<string>, errorMessage: Option<string>)

  /** A statement response: its `status` object and the `data_array` of its `result`, each None when absent. */
  datatype Response = Response(status: Option<StatementStatus>, dataArray: Option<seq<seq<string>>>)

  /**
   * The Databricks service as an oracle: `warehouses(n)` is the listing the n-th query of a
   * check receives (counting from 0), `execute(n, id, sql)` the response to its statement.
   */
  datatype Databricks = Databricks(warehouses: nat -> seq<Warehouse>, execute: (nat, string, string) -> Response)

  /** The record run_databricks_query returns. */
  datatype QueryResult = QueryResult(status: string, dataArray: Option<seq<seq<string>>>, errorMessage: Option<string>)

  /** The response reduced to that record, a missing state reading "UNKNOWN". */
  function Summarize(r: Response): QueryResult {
    QueryResult(
      if r.status.Some? && r.status.value.state.Some? then r.status.value.state.value else "UNKNOWN",
      r.dataArray,
      if r.status.Some? then r.status.value.errorMessage else None)
  }

  /** `error.get('message', 'Unknown error')`. */
  function ErrorText(q: QueryResult): string {
    q.errorMessage.GetOr("Unknown error")
  }

  /** The outcome of run_databricks_query: its return value (None for no running warehouse) and its requests. */
  datatype Query = Query(result: Option<QueryResult>, requests: seq<Request>)

  /** run_databricks_query as the n-th query of a check, which never names a warehouse itself. */
  function RunQuery(ep: Endpoint, db: Databricks, n: nat, sql: string): (q: Query)
    ensures |q.requests| == (if q.result.Some? then 2 else 1) && q.requests[0].ListWarehouses?
    ensures q.result.Some? ==> q.requests[1].SubmitStatement? && q.requests[1].statement == sql
  {
    var base := TrimTrailingSlashes(ep.host);
    var auth := "Bearer " + ep.token;
    var list := ListWarehouses(base + "/api/2.0/sql/warehouses", auth);
    match SelectWarehouse(db.warehouses(n))
    case None => Query(None, [list])
    case Some(w) =>
      Query(Some(Summarize(db.execute(n, w.id, sql))),
            [list, SubmitStatement(base + "/api/2.0/sql/statements", auth, w.id, sql, WAIT_TIMEOUT)])
  }

  /** The statements among `requests`, in order. */
  function Submitted(requests: seq<Request>): seq<string>
    decreases |requests|
  {
    if requests == [] then []
    else
      var last := requests[|requests| - 1];
      Submitted(requests[..|requests| - 1]) + (if last.SubmitStatement? then [last.statement] else [])
  }

  lemma {:induction false} SubmittedConcat(a: seq<Request>, b: seq<Request>)
    ensures Submitted(a + b) == Submitted(a) + Submitted(b)
    decreases |b|
  {
    if b == [] {
      assert a + b == a;
    } else {
      SubmittedConcat(a, b[..|b| - 1]);
      assert (a + b)[..|a + b| - 1] == a + b[..|b| - 1];
    }
  }

  /**
   * A query first lists the warehouses; it posts its statement, unchanged, to the first
   * running one exactly when there is one, and otherwise returns None having posted nothing.
   * The status is the service's state, "UNKNOWN" when the response has none.
   */
  lemma RunQueryContract(ep: Endpoint, db: Databricks, n: nat, sql: string)
    ensures var q := RunQuery(ep, db, n, sql);
            var w := SelectWarehouse(db.warehouses(n));
            q.requests[0].ListWarehouses?
            && (q.result.None? <==> w.None?)
            && Submitted(q.requests) == (if w.Some? then [sql] else [])
            && (w.Some? ==>
                  q.requests[1].warehouseId == w.value.id
                  && var r := db.execute(n, w.value.id, sql);
                     (q.result.value.status == SUCCEEDED <==> r.status.Some? && r.status.value.state == Some(SUCCEEDED))
                     && (r.status.None? || r.status.value.state.None? ==> q.result.value.status == "UNKNOWN")
                     && q.result.value.dataArray == r.dataArray)
  {
    var q := RunQuery(ep, db, n, sql);
    match SelectWarehouse(db.warehouses(n))
    case None =>
      assert q.requests[..0] == [];
    case Some(w) =>
      assert q.requests[..1] == [q.requests[0]];
      assert q.requests[..1][..0] == [];
      assert Submitted(q.requests[..1]) == [];
      assert q.requests[1].statement == sql;
  }

  /** A query posts its own statement exactly when it returns a result. */
  lemma QueryPostsOnlyItsStatement(ep: Endpoint, db: Databricks, n: nat, sql: string)
    ensures Submitted(RunQuery(ep, db, n, sql).requests) == (if RunQuery(ep, db, n, sql).result.Some? then [sql] else [])
  {
    RunQueryContract(ep, db, n, sql);
  }

  /** `f"{catalog}.{database}.{table}"`. */
  function FullName(catalog: string, database: string, table: string): string {
    catalog + "." + database + "." + table
  }

  function DescribeSql(full: string): string {
    "DESCRIBE TABLE " + full
  }

  function SelectSql(full: string): string {
    "SELECT * FROM " + full + " LIMIT 5"
  }

  function CountSql(full: string): string {
    "SELECT COUNT(*) as cnt FROM " + full
  }

  /** The three probes in the order they are issued. */
  function Probes(full: string): seq<string> {
    [DescribeSql(full), SelectSql(full), CountSql(full)]
  }

  /** What the check reports, in order. Printing itself is not modelled. */
  datatype Note =
    | DescribeSucceeded
    | DescribeFailed(message: string)
    | SelectSucceeded(rowCount: nat)
    | PreviewRow(row: seq<string>)
    | MoreRows(remaining: nat)
    | SelectFailed(message: string)
    | IcebergFormatHint
    | CountSucceeded(count: string)
    | CountFailed
    | FullyReadable(fullName: string)

  /** The errors that escape verify_table. */
  datatype VerifyCrash =
    | NoRunningWarehouse(probe: nat)  // run_databricks_query returned None and its result is indexed
    | MalformedCount                  // COUNT succeeded with an empty data_array or an empty first row

  function Min(a: nat, b: nat): nat {
    if a < b then a else b
  }

  /** The report of a successful SELECT: the row count, the first rows and how many more there are. */
  function PreviewNotes(rows: seq<seq<string>>): seq<Note> {
    [SelectSucceeded(|rows|)]
    + seq(Min(3, |rows|), i requires 0 <= i < Min(3, |rows|) => PreviewRow(rows[i]))
    + (if |rows| > 3 then [MoreRows(|rows| - 3)] else [])
  }

  /**
   * The preview: at most three rows, the first ones in order, and a line counting the rest
   * exactly when there are more than three.
   */
  lemma PreviewNotesShape(rows: seq<seq<string>>)
    ensures var p := PreviewNotes(rows);
            p[0] == SelectSucceeded(|rows|)
            && (forall i :: 0 <= i < |p| && p[i].PreviewRow? ==> 1 <= i <= 3 && p[i] == PreviewRow(rows[i - 1]))
            && (forall i :: 0 <= i < |rows| && i < 3 ==> p[i + 1] == PreviewRow(rows[i]))
            && ((exists i :: 0 <= i < |p| && p[i].MoreRows?) <==> |rows| > 3)
            && (forall i :: 0 <= i < |p| && p[i].MoreRows? ==> p[i].remaining == |rows| - 3)
  {
    var p := PreviewNotes(rows);
    var k := Min(3, |rows|);
    assert |p| == 1 + k + (if |rows| > 3 then 1 else 0);
    if |rows| > 3 {
      assert p[|p| - 1] == MoreRows(|rows| - 3);
    }
  }

  /** The classifier for a failed SELECT: its upper-cased message contains ICEBERG. */
  predicate MentionsIceberg(message: string) {
    Contains(Upper(message), "ICEBERG")
  }

  /** A probe that ran and whose status is SUCCEEDED. */
  predicate Succeeded(q: Option<QueryResult>) {
    q.Some? && q.value.status == SUCCEEDED
  }

  /** `result['result'].get('data_array', [[0]])[0][0]` fails on an empty array or an empty first row. */
  predicate CountMalformed(q: QueryResult) {
    q.dataArray.Some? && (|q.dataArray.value| == 0 || |q.dataArray.value[0]| == 0)
  }

  /** The count the COUNT probe reports: the first cell, 0 when the result has no data_array. */
  function CountText(q: QueryResult): string
    requires !CountMalformed(q)
  {
    if q.dataArray.None? then "0" else q.dataArray.value[0][0]
  }

  /** The COUNT probe escapes with an error: no running warehouse, or an unreadable count. */
  predicate CountCrashes(q: Option<QueryResult>) {
    q.None? || (q.value.status == SUCCEEDED && CountMalformed(q.value))
  }

  /** What a check comes to: its result or the error that escaped, the statements posted, the report. */
  datatype Check = Check(outcome: Result<bool, VerifyCrash>, issued: seq<string>, notes: seq<Note>)

  /** The check of table `full`, given what each of the three queries returned. */
  function CheckOf(full: string, q0: Option<QueryResult>, q1: Option<QueryResult>, q2: Option<QueryResult>): Check {
    if q0.None? then Check(Err(NoRunningWarehouse(0)), [], [])
    else if q0.value.status != SUCCEEDED then
      Check(Ok(false), [DescribeSql(full)], [DescribeFailed(Prefix(ErrorText(q0.value), 200))])
    else AfterDescribe(full, q1, q2)
  }

  /** The rest of the check once DESCRIBE has succeeded. */
  function AfterDescribe(full: string, q1: Option<QueryResult>, q2: Option<QueryResult>): Check {
    var d, s := DescribeSql(full), SelectSql(full);
    if q1.None? then Check(Err(NoRunningWarehouse(1)), [d], [DescribeSucceeded])
    else if q1.value.status != SUCCEEDED then
      var message := ErrorText(q1.value);
      Check(Ok(false), [d, s],
            [DescribeSucceeded, SelectFailed(Prefix(message, 300))]
            + (if MentionsIceberg(message) then [IcebergFormatHint] else []))
    else AfterSelect(full, [DescribeSucceeded] + PreviewNotes(q1.value.dataArray.GetOr([])), q2)
  }

  /** The rest of the check once SELECT has succeeded too, `seen` being the report so far. */
  function AfterSelect(full: string, seen: seq<Note>, q2: Option<QueryResult>): Check {
    var d, s, c := DescribeSql(full), SelectSql(full), CountSql(full);
    if q2.None? then Check(Err(NoRunningWarehouse(2)), [d, s], seen)
    else if q2.value.status == SUCCEEDED && CountMalformed(q2.value) then Check(Err(MalformedCount), [d, s, c], seen)
    else
      var count := if q2.value.status == SUCCEEDED then CountSucceeded(CountText(q2.value)) else CountFailed;
      Check(Ok(true), [d, s, c], seen + [count, FullyReadable(full)])
  }

  /**
   * The probe rules: the statements posted are always DESCRIBE, SELECT, COUNT or a prefix of
   * that; a DESCRIBE whose status is not SUCCEEDED ends the check with False after one
   * statement, and a failing SELECT after two, with the Iceberg hint exactly when its
   * upper-cased message mentions ICEBERG; once both succeeded COUNT is posted and the check
   * is True unless COUNT escapes with an error, whatever COUNT's status; a query that finds
   * no running warehouse escapes as an error.
   */
  lemma CheckRules(full: string, q0: Option<QueryResult>, q1: Option<QueryResult>, q2: Option<QueryResult>)
    ensures var ch := CheckOf(full, q0, q1, q2);
            ch.issued <= Probes(full)
            && (ch.outcome == Ok(true) <==> Succeeded(q0) && Succeeded(q1) && !CountCrashes(q2))
            && (q0.None? ==> ch.outcome == Err(NoRunningWarehouse(0)) && ch.issued == [])
            && (q0.Some? && !Succeeded(q0) ==>
                  ch.outcome == Ok(false) && ch.issued == Probes(full)[..1]
                  && ch.notes == [DescribeFailed(Prefix(ErrorText(q0.value), 200))])
            && (Succeeded(q0) && q1.None? ==> ch.outcome == Err(NoRunningWarehouse(1)) && ch.issued == Probes(full)[..1])
    ensures var ch := CheckOf(full, q0, q1, q2);
            Succeeded(q0) && q1.Some? && !Succeeded(q1) ==>
              ch.outcome == Ok(false) && ch.issued == Probes(full)[..2]
              && SelectFailed(Prefix(ErrorText(q1.value), 300)) in ch.notes
              && (IcebergFormatHint in ch.notes <==> MentionsIceberg(ErrorText(q1.value)))
    ensures var ch := CheckOf(full, q0, q1, q2);
            Succeeded(q0) && Succeeded(q1) ==>
              (q2.None? ==> ch.outcome == Err(NoRunningWarehouse(2)) && ch.issued == Probes(full)[..2])
              && (q2.Some? ==> ch.issued == Probes(full))
              && (q2.Some? && CountCrashes(q2) ==> ch.outcome == Err(MalformedCount))
              && (ch.outcome.Ok? ==> |ch.notes| > 0 && ch.notes[|ch.notes| - 1] == FullyReadable(full))
  {
    var p := Probes(full);
    assert p[..1] == [p[0]] && p[..2] == [p[0], p[1]];
  }

  /**
   * verify_table: DESCRIBE, SELECT and COUNT in that order, each run as the query of its own
   * position. `issued` are the statements posted, `requests` every HTTP request made.
   */
  method VerifyTable(ep: Endpoint, db: Databricks, catalog: string, database: string, table: string)
    returns (outcome: Result<bool, VerifyCrash>, requests: seq<Request>, issued: seq<string>, notes: seq<Note>)
    ensures var full := FullName(catalog, database, table);
            Check(outcome, issued, notes)
              == CheckOf(full, RunQuery(ep, db, 0, DescribeSql(full)).result,
                         RunQuery(ep, db, 1, SelectSql(full)).result,
                         RunQuery(ep, db, 2, CountSql(full)).result)
    ensures issued == Submitted(requests)
  {
    var full := FullName(catalog, database, table);
    var sql := DescribeSql(full);
    var q := RunQuery(ep, db, 0, sql);
    QueryPostsOnlyItsStatement(ep, db, 0, sql);
    requests := q.requests;
    if q.result.None? {
      return Err(NoRunningWarehouse(0)), requests, [], [];
    }
    if q.result.value.status != SUCCEEDED {
      return Ok(false), requests, [sql], [DescribeFailed(Prefix(ErrorText(q.result.value), 200))];
    }
    outcome, requests, issued, notes := SelectProbe(ep, db, full, requests);
  }

  /** The SELECT probe and what follows it, once DESCRIBE has succeeded with `before`. */
  method SelectProbe(ep: Endpoint, db: Databricks, full: string, before: seq<Request>)
    returns (outcome: Result<bool, VerifyCrash>, requests: seq<Request>, issued: seq<string>, notes: seq<Note>)
    requires Submitted(before) == [DescribeSql(full)]
    ensures Check(outcome, issued, notes)
              == AfterDescribe(full, RunQuery(ep, db, 1, SelectSql(full)).result,
                               RunQuery(ep, db, 2, CountSql(full)).result)
    ensures issued == Submitted(requests)
  {
    var sql := SelectSql(full);
    var q := RunQuery(ep, db, 1, sql);
    QueryPostsOnlyItsStatement(ep, db, 1, sql);
    SubmittedConcat(before, q.requests);
    requests := before + q.requests;
    if q.result.None? {
      return Err(NoRunningWarehouse(1)), requests, [DescribeSql(full)], [DescribeSucceeded];
    }
    issued := [DescribeSql(full), sql];
    if q.result.value.status != SUCCEEDED {
      var message := ErrorText(q.result.value);
      notes := [DescribeSucceeded, SelectFailed(Prefix(message, 300))];
      if MentionsIceberg(message) {
        notes := notes + [IcebergFormatHint];
      }
      return Ok(false), requests, issued, notes;
    }
    notes := [DescribeSucceeded] + PreviewNotes(q.result.value.dataArray.GetOr([]));
    sql := CountSql(full);
    q := RunQuery(ep, db, 2, sql);
    QueryPostsOnlyItsStatement(ep, db, 2, sql);
    outcome, requests, issued, notes := CountProbe(full, requests, notes, q);
  }

  /** The COUNT probe `q`, once DESCRIBE and SELECT have succeeded with `before` and reported `seen`. */
  method CountProbe(full: string, before: seq<Request>, seen: seq<Note>, q: Query)
    returns (outcome: Result<bool, VerifyCrash>, requests: seq<Request>, issued: seq<string>, notes: seq<Note>)
    requires Submitted(before) == [DescribeSql(full), SelectSql(full)]
    requires Submitted(q.requests) == (if q.result.Some? then [CountSql(full)] else [])
    ensures Check(outcome, issued, notes) == AfterSelect(full, seen, q.result)
    ensures issued == Submitted(requests)
  {
    SubmittedConcat(before, q.requests);
    requests := before + q.requests;
    issued := Submitted(before);
    notes := seen;
    if q.result.None? {
      return Err(NoRunningWarehouse(2)), requests, issued, notes;
    }
    issued := issued + [CountSql(full)];
    var count: Note;
    if q.result.value.status == SUCCEEDED {
      if CountMalformed(q.result.value) {
        return Err(MalformedCount), requests, issued, notes;
      }
      count := CountSucceeded(CountText(q.result.value));
    } else {
      count := CountFailed;
    }
    notes := notes + [count, FullyReadable(full)];
    outcome := Ok(true);
  }

  /** How a run of the verification tool ends. */
  datatype VerifyOutcome = CredentialsMissing | Passed | Failed | Crashed(crash: VerifyCrash)

  /**
   * main: refuse to start without a workspace address and a token, then check the table and
   * report whether it passed.
   */
  method VerifyMain(env: map<string, string>, uniqueId: string, db: Databricks,
                    catalog: string, database: string, table: string)
    returns (outcome: VerifyOutcome, issued: seq<string>)
    ensures var host, token := Getenv(env, "DATABRICKS_HOST"), Getenv(env, "DATABRICKS_TOKEN");
            (outcome.CredentialsMissing? <==> !Truthy(host) || !Truthy(token))
            && (outcome.CredentialsMissing? ==> issued == [])
            && (!outcome.CredentialsMissing? ==>
                  var ep := Endpoint(host.value, token.value);
                  var full := FullName(catalog, database, table);
                  var q0 := RunQuery(ep, db, 0, DescribeSql(full)).result;
                  var q1 := RunQuery(ep, db, 1, SelectSql(full)).result;
                  var q2 := RunQuery(ep, db, 2, CountSql(full)).result;
                  var ch := CheckOf(full, q0, q1, q2);
                  issued == ch.issued
                  && (outcome == Passed <==> ch.outcome == Ok(true))
                  && (outcome == Failed <==> ch.outcome == Ok(false))
                  && (outcome.Crashed? <==> ch.outcome.Err?))
  {
    var config := LoadConfig(env, uniqueId);
    LoadConfigPassThrough(env, uniqueId, "DATABRICKS_HOST");
    LoadConfigPassThrough(env, uniqueId, "DATABRICKS_TOKEN");
    var host, token := Lookup(config, "DATABRICKS_HOST"), Lookup(config, "DATABRICKS_TOKEN");
    if !Truthy(host) || !Truthy(token) {
      return CredentialsMissing, [];
    }
    var result, requests, notes;
    result, requests, issued, notes := VerifyTable(Endpoint(host.value, token.value), db, catalog, database, table);
    match result
    case Ok(success) => outcome := if success then Passed else Failed;
    case Err(e) => outcome := Crashed(e);
  }
}
