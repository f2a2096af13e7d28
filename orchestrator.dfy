/**
 * The per-table upgrade (upgrade_table_to_v3) and the command-line driver (main): resolve
 * which tables to upgrade, upgrade them one after another into a ledger of (name, success)
 * entries, and print a summary.
 */
module Orchestrator {
  import opened Wrappers
  import opened Strings
  import opened Configuration
  import opened Catalog
  import opened Planner
  import opened Executor

  /** What a per-table upgrade reads besides the table's name. */
  datatype Context = Context(
    settings: EmrSettings,
    tables: map<string, GlueTable>,
    emr: Emr,
    database: string,
    dryRun: bool)

  /**
   * The outcome of one upgrade_table_to_v3 call: its return value or the error it let
   * through, how many times it looked the cluster up, and the ssh processes it started.
   */
  datatype TableOutcome = TableOutcome(result: Result<bool, ClusterNotReady>, clusterLookups: nat, ssh: seq<seq<string>>)

  /** A table reaches the executor when the catalog has it and it is an Iceberg table. */
  predicate Eligible(ctx: Context, table: string) {
    var info := GetTableInfo(ctx.tables, ctx.database, table);
    info.Some? && PlanFor(info.value) != Skip
  }

  /** upgrade_table_to_v3 as the run's executor call number `n`. */
  function UpgradeTable(ctx: Context, n: nat, table: string): (o: TableOutcome)
    ensures o.clusterLookups <= 1 && |o.ssh| <= o.clusterLookups
    ensures o.result.Err? ==> o.clusterLookups == 1 && o.ssh == []
  {
    var info := GetTableInfo(ctx.tables, ctx.database, table);
    if info.None? then TableOutcome(Ok(false), 0, [])
    else
      var plan := PlanFor(info.value);
      if plan == Skip then TableOutcome(Ok(false), 0, [])
      else
        var x := RunSparkSql(ctx.settings, ctx.emr, n, Statement(plan, ctx.database, table), ctx.dryRun);
        TableOutcome(x.result, 1, x.ssh)
  }

  /**
   * A table the catalog lacks, or one that is not Iceberg whatever its version, yields False
   * without a cluster lookup and without ssh; only eligible tables reach the executor, once.
   */
  lemma UpgradeTableIneligible(ctx: Context, n: nat, table: string)
    ensures !Eligible(ctx, table) <==> UpgradeTable(ctx, n, table) == TableOutcome(Ok(false), 0, [])
    ensures table !in ctx.tables ==> !Eligible(ctx, table)
    ensures table in ctx.tables && Upper(Param(ctx.tables[table], "table_type", UNKNOWN)) != ICEBERG ==> !Eligible(ctx, table)
    ensures Eligible(ctx, table) ==> UpgradeTable(ctx, n, table).clusterLookups == 1
  {
  }

  /**
   * An eligible table sends exactly one statement, unless the cluster is not ready (the error
   * propagates) or the run is a dry run (True, no ssh): the compaction alone for a table
   * already on version 3, the alteration followed by the compaction otherwise; the table's
   * result is True exactly when ssh exits with 0.
   */
  lemma UpgradeTableEligible(ctx: Context, n: nat, table: string)
    requires Eligible(ctx, table)
    ensures var info := GetTableInfo(ctx.tables, ctx.database, table).value;
            var o := UpgradeTable(ctx, n, table);
            var status := ctx.emr.describe(n);
            var sql := Statement(PlanFor(info), ctx.database, table);
            (!IsReady(status.state) ==> o.result == Err(ClusterNotReady(ctx.settings.clusterId, status.state)) && o.ssh == [])
            && (IsReady(status.state) && ctx.dryRun ==> o.result == Ok(true) && o.ssh == [])
            && (IsReady(status.state) && !ctx.dryRun ==>
                  o.ssh == [SshArgv(ctx.settings, status.masterPublicDnsName, sql)]
                  && o.result == Ok(ctx.emr.exitCode(n, o.ssh[0]) == 0))
            && (info.formatVersion == "3" ==> sql == ReplaceNewlines(CompactionCall(ctx.database, table)))
            && (info.formatVersion != "3" ==> "ALTER TABLE " <= sql)
  {
    var info := GetTableInfo(ctx.tables, ctx.database, table).value;
    RunSparkSqlContract(ctx.settings, ctx.emr, n, Statement(PlanFor(info), ctx.database, table), ctx.dryRun);
    CompactOnlyStatement(ctx.database, table);
    AlterAndCompactStatement(ctx.database, table);
  }

  /** A dry run starts no ssh process, and a returned value is True exactly for an eligible table. */
  lemma UpgradeTableDryRun(ctx: Context, n: nat, table: string)
    requires ctx.dryRun
    ensures UpgradeTable(ctx, n, table).ssh == []
    ensures UpgradeTable(ctx, n, table).result.Ok? ==> UpgradeTable(ctx, n, table).result.value == Eligible(ctx, table)
  {
    if Eligible(ctx, table) {
      var info := GetTableInfo(ctx.tables, ctx.database, table).value;
      RunSparkSqlContract(ctx.settings, ctx.emr, n, Statement(PlanFor(info), ctx.database, table), true);
    } else {
      UpgradeTableIneligible(ctx, n, table);
    }
  }

  /** A table upgraded while the cluster is not ready starts no ssh process and does not succeed. */
  lemma UpgradeWhileNotReady(ctx: Context, n: nat, table: string)
    requires !IsReady(ctx.emr.describe(n).state)
    ensures UpgradeTable(ctx, n, table).ssh == []
    ensures UpgradeTable(ctx, n, table).result != Ok(true)
  {
    if Eligible(ctx, table) {
      var info := GetTableInfo(ctx.tables, ctx.database, table).value;
      RunSparkSqlContract(ctx.settings, ctx.emr, n, Statement(PlanFor(info), ctx.database, table), ctx.dryRun);
    } else {
      UpgradeTableIneligible(ctx, n, table);
    }
  }

  /**
   * What the loop needs of upgrade_table_to_v3: `up(n, t)` is its outcome for table `t` when
   * the run has made `n` executor calls so far.
   */
  type Upgrade = (nat, string) -> TableOutcome

  function Upgrader(ctx: Context): Upgrade {
    (n: nat, t: string) => UpgradeTable(ctx, n, t)
  }

  /** The state of the batch loop: the ledger so far, the error that ended it, lookups and ssh so far. */
  datatype BatchState = BatchState(
    ledger: seq<(string, bool)>,
    failure: Option<ClusterNotReady>,
    clusterLookups: nat,
    ssh: seq<seq<string>>)

  /** One iteration of the loop in main; nothing more happens once an error has escaped. */
  function Step(up: Upgrade, st: BatchState, table: string): BatchState {
    if st.failure.Some? then st
    else
      var o := up(st.clusterLookups, table);
      match o.result
      case Ok(ok) => BatchState(st.ledger + [(table, ok)], None, st.clusterLookups + o.clusterLookups, st.ssh + o.ssh)
      case Err(e) => BatchState(st.ledger, Some(e), st.clusterLookups + o.clusterLookups, st.ssh + o.ssh)
  }

  /** The loop over a list of tables, as a fold from the left. */
  function Batch(up: Upgrade, tables: seq<string>): BatchState
    decreases |tables|
  {
    if tables == [] then BatchState([], None, 0, [])
    else Step(up, Batch(up, tables[..|tables| - 1]), tables[|tables| - 1])
  }

  /** The loop in main as the upgrade tool runs it. */
  function RunBatch(ctx: Context, tables: seq<string>): BatchState {
    Batch(Upgrader(ctx), tables)
  }

  /** Appending a table to the list runs one more step of the loop. */
  lemma BatchSnoc(up: Upgrade, tables: seq<string>, t: string)
    ensures Batch(up, tables + [t]) == Step(up, Batch(up, tables), t)
  {
    assert (tables + [t])[..|tables|] == tables;
  }

  /** Once an error has escaped, the rest of the list changes nothing. */
  lemma {:induction false} FailureEndsBatch(up: Upgrade, tables: seq<string>, k: nat)
    requires k <= |tables|
    requires Batch(up, tables[..k]).failure.Some?
    ensures Batch(up, tables) == Batch(up, tables[..k])
    decreases |tables|
  {
    if k == |tables| {
      assert tables[..k] == tables;
    } else {
      var init := tables[..|tables| - 1];
      assert init[..k] == tables[..k];
      FailureEndsBatch(up, init, k);
    }
  }

  /** How many of `tables` reach the executor. */
  function CountEligible(ctx: Context, tables: seq<string>): nat
    decreases |tables|
  {
    if tables == [] then 0
    else CountEligible(ctx, tables[..|tables| - 1]) + (if Eligible(ctx, tables[|tables| - 1]) then 1 else 0)
  }

  /** How many tables the loop handed to upgrade_table_to_v3: the ledger, plus the one that raised. */
  function Attempted(st: BatchState): nat {
    |st.ledger| + (if st.failure.Some? then 1 else 0)
  }

  /** One step appends at most one entry, for its own table, and only while no error has escaped. */
  lemma StepShape(up: Upgrade, st: BatchState, table: string)
    ensures st.failure.Some? ==> Step(up, st, table) == st
    ensures st.failure.None? && Step(up, st, table).failure.None? ==>
              |Step(up, st, table).ledger| == |st.ledger| + 1
              && Step(up, st, table).ledger[..|st.ledger|] == st.ledger
              && Step(up, st, table).ledger[|st.ledger|].0 == table
    ensures st.failure.None? && Step(up, st, table).failure.Some? ==> Step(up, st, table).ledger == st.ledger
  {
    if st.failure.None? {
      var o := up(st.clusterLookups, table);
      if o.result.Ok? {
        assert Step(up, st, table).ledger == st.ledger + [(table, o.result.value)];
      }
    }
  }

  /**
   * The ledger has one entry per table handed to upgrade_table_to_v3, named after it, in
   * input order; the loop covers the whole list unless an error escaped.
   */
  lemma {:induction false} LedgerShape(up: Upgrade, tables: seq<string>)
    ensures Attempted(Batch(up, tables)) <= |tables|
    ensures Batch(up, tables).failure.None? ==> |Batch(up, tables).ledger| == |tables|
    ensures forall i :: 0 <= i < |Batch(up, tables).ledger| ==> Batch(up, tables).ledger[i].0 == tables[i]
    decreases |tables|
  {
    if tables != [] {
      var init := tables[..|tables| - 1];
      LedgerShape(up, init);
      StepShape(up, Batch(up, init), tables[|tables| - 1]);
    }
  }

  /** Each ledger entry holds the value its table's upgrade returned. */
  lemma {:induction false} LedgerValues(up: Upgrade, tables: seq<string>)
    ensures |Batch(up, tables).ledger| <= |tables|
    ensures forall i :: 0 <= i < |Batch(up, tables).ledger| ==>
              up(Batch(up, tables[..i]).clusterLookups, tables[i]).result == Ok(Batch(up, tables).ledger[i].1)
    decreases |tables|
  {
    LedgerShape(up, tables);
    if tables != [] {
      var init := tables[..|tables| - 1];
      LedgerShape(up, init);
      LedgerValues(up, init);
      var prev, st := Batch(up, init), Batch(up, tables);
      forall i | 0 <= i < |st.ledger|
        ensures up(Batch(up, tables[..i]).clusterLookups, tables[i]).result == Ok(st.ledger[i].1)
      {
        assert tables[..i] == init[..i];
        if i == |prev.ledger| {
          assert init[..i] == init;
        }
      }
    }
  }

  /** The loop stops only at a table whose upgrade raised, and what it keeps is that error. */
  lemma {:induction false} StopsAtRaise(up: Upgrade, tables: seq<string>)
    ensures |Batch(up, tables).ledger| < |tables| || Batch(up, tables).failure.None?
    ensures Batch(up, tables).failure.Some? ==>
              var st := Batch(up, tables);
              up(Batch(up, tables[..|st.ledger|]).clusterLookups, tables[|st.ledger|]).result == Err(st.failure.value)
    decreases |tables|
  {
    LedgerShape(up, tables);
    if tables != [] {
      var init := tables[..|tables| - 1];
      LedgerShape(up, init);
      StopsAtRaise(up, init);
      var prev := Batch(up, init);
      if prev.failure.Some? {
        assert tables[..|prev.ledger|] == init[..|prev.ledger|];
      } else {
        assert tables[..|prev.ledger|] == init;
      }
    }
  }

  /** A loop whose every upgrade looks the cluster up once exactly for an eligible table looks it up once per eligible table handed over. */
  lemma {:induction false} LookupCountOf(ctx: Context, up: Upgrade, tables: seq<string>)
    requires forall n: nat, t :: up(n, t).clusterLookups == (if Eligible(ctx, t) then 1 else 0)
    ensures Attempted(Batch(up, tables)) <= |tables|
    ensures Batch(up, tables).clusterLookups == CountEligible(ctx, tables[..Attempted(Batch(up, tables))])
    decreases |tables|
  {
    if tables == [] {
    } else {
      var init, last := tables[..|tables| - 1], tables[|tables| - 1];
      LookupCountOf(ctx, up, init);
      var prev := Batch(up, init);
      StepLookups(ctx, up, prev, last);
      if prev.failure.Some? {
        assert tables[..Attempted(prev)] == init[..Attempted(prev)];
      } else {
        LedgerShape(up, init);
        assert init[..|init|] == init;
        assert tables[..|tables|] == tables;
      }
    }
  }

  /** One step looks the cluster up once for an eligible table handed over, and otherwise not. */
  lemma StepLookups(ctx: Context, up: Upgrade, st: BatchState, table: string)
    requires forall n: nat, t :: up(n, t).clusterLookups == (if Eligible(ctx, t) then 1 else 0)
    ensures st.failure.Some? ==> Step(up, st, table) == st
    ensures st.failure.None? ==>
              Step(up, st, table).clusterLookups == st.clusterLookups + (if Eligible(ctx, table) then 1 else 0)
              && Attempted(Step(up, st, table)) == Attempted(st) + 1
  {
  }

  /** A loop whose every upgrade starts no ssh and returns True only for eligible tables. */
  lemma {:induction false} NoSshBatch(ctx: Context, up: Upgrade, tables: seq<string>, eligibleSucceed: bool)
    requires forall n: nat, t :: up(n, t).ssh == []
    requires forall n: nat, t :: up(n, t).result.Ok? ==>
               up(n, t).result.value == (eligibleSucceed && Eligible(ctx, t))
    ensures |Batch(up, tables).ledger| <= |tables|
    ensures Batch(up, tables).ssh == []
    ensures forall i :: 0 <= i < |Batch(up, tables).ledger| ==>
              Batch(up, tables).ledger[i].1 == (eligibleSucceed && Eligible(ctx, tables[i]))
    decreases |tables|
  {
    LedgerShape(up, tables);
    if tables != [] {
      var init := tables[..|tables| - 1];
      LedgerShape(up, init);
      NoSshBatch(ctx, up, init, eligibleSucceed);
    }
  }

  /**
   * The ledger: one entry per table handed to upgrade_table_to_v3, in input order, each
   * holding that call's return value, so a False entry never stops the loop; the loop covers
   * the whole list unless the executor raises, and then it stops at exactly that table.
   */
  lemma BatchLedger(ctx: Context, tables: seq<string>)
    ensures Attempted(RunBatch(ctx, tables)) <= |tables|
    ensures RunBatch(ctx, tables).failure.None? ==> |RunBatch(ctx, tables).ledger| == |tables|
    ensures forall i :: 0 <= i < |RunBatch(ctx, tables).ledger| ==>
              RunBatch(ctx, tables).ledger[i].0 == tables[i]
              && UpgradeTable(ctx, RunBatch(ctx, tables[..i]).clusterLookups, tables[i]).result
                   == Ok(RunBatch(ctx, tables).ledger[i].1)
    ensures RunBatch(ctx, tables).failure.Some? ==>
              var st := RunBatch(ctx, tables);
              UpgradeTable(ctx, RunBatch(ctx, tables[..|st.ledger|]).clusterLookups, tables[|st.ledger|]).result
                == Err(st.failure.value)
  {
    LedgerShape(Upgrader(ctx), tables);
    LedgerValues(Upgrader(ctx), tables);
    StopsAtRaise(Upgrader(ctx), tables);
  }

  /** The cluster is looked up once for every eligible table handed to upgrade_table_to_v3. */
  lemma LookupCount(ctx: Context, tables: seq<string>)
    ensures Attempted(RunBatch(ctx, tables)) <= |tables|
    ensures RunBatch(ctx, tables).clusterLookups == CountEligible(ctx, tables[..Attempted(RunBatch(ctx, tables))])
  {
    forall n: nat, t | true
      ensures Upgrader(ctx)(n, t).clusterLookups == (if Eligible(ctx, t) then 1 else 0)
    {
      UpgradeTableIneligible(ctx, n, t);
    }
    LookupCountOf(ctx, Upgrader(ctx), tables);
  }

  /** A dry run starts no ssh process, and each recorded table succeeded exactly when it was eligible. */
  lemma DryRunBatch(ctx: Context, tables: seq<string>)
    requires ctx.dryRun
    ensures |RunBatch(ctx, tables).ledger| <= |tables|
    ensures RunBatch(ctx, tables).ssh == []
    ensures forall i :: 0 <= i < |RunBatch(ctx, tables).ledger| ==>
              RunBatch(ctx, tables).ledger[i].1 == Eligible(ctx, tables[i])
  {
    forall n: nat, t | true
      ensures Upgrader(ctx)(n, t).ssh == []
      ensures Upgrader(ctx)(n, t).result.Ok? ==> Upgrader(ctx)(n, t).result.value == (true && Eligible(ctx, t))
    {
      UpgradeTableDryRun(ctx, n, t);
    }
    NoSshBatch(ctx, Upgrader(ctx), tables, true);
  }

  /** A cluster that is never ready: no ssh process is ever started and no table succeeds. */
  lemma NeverReadyBatch(ctx: Context, tables: seq<string>)
    requires forall n: nat :: !IsReady(ctx.emr.describe(n).state)
    ensures RunBatch(ctx, tables).ssh == []
    ensures forall i :: 0 <= i < |RunBatch(ctx, tables).ledger| ==> !RunBatch(ctx, tables).ledger[i].1
  {
    forall n: nat, t | true
      ensures Upgrader(ctx)(n, t).ssh == []
      ensures Upgrader(ctx)(n, t).result.Ok? ==> Upgrader(ctx)(n, t).result.value == (false && Eligible(ctx, t))
    {
      UpgradeWhileNotReady(ctx, n, t);
    }
    NoSshBatch(ctx, Upgrader(ctx), tables, false);
  }

  /**
   * The loop in main: upgrade each table in turn, appending (table, success) to the results;
   * an error raised by the executor ends it.
   */
  method UpgradeTables(ctx: Context, tables: seq<string>)
    returns (results: seq<(string, bool)>, failure: Option<ClusterNotReady>, ssh: seq<seq<string>>)
    ensures var st := RunBatch(ctx, tables);
            results == st.ledger && failure == st.failure && ssh == st.ssh
  {
    ghost var up := Upgrader(ctx);
    results, failure, ssh := [], None, [];
    var lookups: nat := 0;
    var i := 0;
    while i < |tables|
      invariant 0 <= i <= |tables|
      invariant Batch(up, tables[..i]) == BatchState(results, None, lookups, ssh)
    {
      assert tables[..i + 1] == tables[..i] + [tables[i]];
      BatchSnoc(up, tables[..i], tables[i]);
      var o := UpgradeTable(ctx, lookups, tables[i]);
      assert o == up(lookups, tables[i]);
      lookups := lookups + o.clusterLookups;
      ssh := ssh + o.ssh;
      if o.result.Err? {
        failure := Some(o.result.error);
        FailureEndsBatch(up, tables, i + 1);
        return;
      }
      results := results + [(tables[i], o.result.value)];
      i := i + 1;
    }
    assert tables[..i] == tables;
  }

  /** The command-line arguments of the upgrade tool. */
  datatype Args = Args(
    database: string,
    table: Option<string>,
    tables: Option<string>,
    all: bool,
    dryRun: bool,
    listOnly: bool)

  /** `[t.strip() for t in s.split(',')]`. */
  function SplitTableList(s: string): (names: seq<string>)
    ensures |names| == |Split(s, ',')|
    ensures forall i :: 0 <= i < |names| ==> names[i] == Strip(Split(s, ',')[i])
  {
    var parts := Split(s, ',');
    seq(|parts|, i requires 0 <= i < |parts| => Strip(parts[i]))
  }

  /**
   * A comma-joined list of names that need no stripping splits back into those names, in
   * order and with duplicates kept.
   */
  lemma SplitTableListRoundTrip(names: seq<string>)
    requires |names| >= 1
    requires forall p :: p in names ==> ',' !in p && Strip(p) == p
    ensures SplitTableList(Join(names, ",")) == names
  {
    SplitJoin(names, ',');
    assert Split(Join(names, ","), ',') == names;
    forall i | 0 <= i < |names| ensures SplitTableList(Join(names, ","))[i] == names[i] {
      assert names[i] in names;
    }
  }

  /** The pieces a list splits into, before stripping, join back into the list. */
  lemma SplitTableListCoversInput(s: string)
    ensures Join(Split(s, ','), ",") == s
  {
    JoinSplit(s, ',');
  }

  /** The names `--all` selects: those listed with a version other than "3", in listing order. */
  function PendingNames(listing: seq<ListedTable>): (names: seq<string>)
    ensures |names| <= |listing|
    decreases |listing|
  {
    if listing == [] then []
    else
      var last := listing[|listing| - 1];
      PendingNames(listing[..|listing| - 1]) + (if last.formatVersion != TARGET_VERSION then [last.name] else [])
  }

  /** Selecting from a concatenation selects from each part in turn: listing order and repeats are kept. */
  lemma {:induction false} PendingNamesConcat(a: seq<ListedTable>, b: seq<ListedTable>)
    ensures PendingNames(a + b) == PendingNames(a) + PendingNames(b)
    decreases |b|
  {
    if b == [] {
      assert a + b == a;
    } else {
      PendingNamesConcat(a, b[..|b| - 1]);
      assert (a + b)[..|a + b| - 1] == a + b[..|b| - 1];
    }
  }

  /** A name is selected by `--all` exactly when the listing has it with a version other than "3". */
  lemma {:induction false} PendingNamesExactly(listing: seq<ListedTable>, name: string)
    ensures name in PendingNames(listing) <==>
            exists i :: 0 <= i < |listing| && listing[i].name == name && listing[i].formatVersion != "3"
    decreases |listing|
  {
    if listing != [] {
      var init, last := listing[..|listing| - 1], listing[|listing| - 1];
      PendingNamesExactly(init, name);
      var tail := if last.formatVersion != TARGET_VERSION then [last.name] else [];
      assert PendingNames(listing) == PendingNames(init) + tail;
      assert name in PendingNames(listing) <==> name in PendingNames(init) || name in tail;
      if name in PendingNames(init) {
        var i :| 0 <= i < |init| && init[i].name == name && init[i].formatVersion != "3";
        assert listing[i] == init[i];
      }
      if exists i :: 0 <= i < |listing| && listing[i].name == name && listing[i].formatVersion != "3" {
        var i :| 0 <= i < |listing| && listing[i].name == name && listing[i].formatVersion != "3";
        if i < |init| {
          assert init[i] == listing[i];
        }
      }
    }
  }

  /** The selector: `-t`, else `--tables`, else `--all` over the listing, else none (a usage error). */
  function SelectTables(args: Args, listing: seq<ListedTable>): Option<seq<string>> {
    if Truthy(args.table) then Some([args.table.value])
    else if Truthy(args.tables) then Some(SplitTableList(args.tables.value))
    else if args.all then Some(PendingNames(listing))
    else None
  }

  /** `-t` wins over `--tables`, which wins over `--all`; with none of them there is no selection. */
  lemma SelectionPrecedence(args: Args, listing: seq<ListedTable>)
    ensures Truthy(args.table) ==> SelectTables(args, listing) == Some([args.table.value])
    ensures !Truthy(args.table) && Truthy(args.tables) ==>
              SelectTables(args, listing) == Some(SplitTableList(args.tables.value))
    ensures !Truthy(args.table) && !Truthy(args.tables) && args.all ==>
              SelectTables(args, listing) == Some(PendingNames(listing))
    ensures SelectTables(args, listing).None? <==> !Truthy(args.table) && !Truthy(args.tables) && !args.all
    ensures Truthy(args.tables) ==> SelectTables(args, listing).value != []
  {
  }

  /** One summary line: "[OK]" for a True entry, "[ERROR]" for a False one. */
  function SummaryLine(database: string, entry: (string, bool)): string {
    "  " + (if entry.1 then "[OK]" else "[ERROR]") + " " + database + "." + entry.0
  }

  /** The summary main prints after the loop, one line per ledger entry, in ledger order. */
  function Summary(database: string, ledger: seq<(string, bool)>): (lines: seq<string>)
    ensures |lines| == |ledger|
  {
    seq(|ledger|, i requires 0 <= i < |ledger| => SummaryLine(database, ledger[i]))
  }

  /** A summary line carries the "[OK]" marker exactly when its entry is True. */
  lemma SummaryMarker(database: string, ledger: seq<(string, bool)>, i: nat)
    requires i < |ledger|
    ensures "  [OK]" <= Summary(database, ledger)[i] <==> ledger[i].1
    ensures !ledger[i].1 ==> "  [ERROR]" <= Summary(database, ledger)[i]
  {
    var rest := " " + database + "." + ledger[i].0;
    var line := Summary(database, ledger)[i];
    if ledger[i].1 {
      assert line == "  [OK]" + rest;
    } else {
      assert line == "  [ERROR]" + rest;
      assert line[3] == 'E';
    }
  }

  /** The line `--list` prints for one listed table. */
  function ListLine(t: ListedTable): string {
    "  " + (if t.formatVersion == TARGET_VERSION then "[OK]" else "[WARN] V2") + " " + t.name
      + " (format-version: " + t.formatVersion + ")"
  }

  /** A `--list` line starts with "  [OK]" exactly for a table on version "3", and otherwise flags it as V2. */
  lemma ListMarker(t: ListedTable)
    ensures "  [OK]" <= ListLine(t) <==> t.formatVersion == "3"
    ensures t.formatVersion != "3" ==> "  [WARN] V2" <= ListLine(t)
  {
    var rest := " " + t.name + " (format-version: " + t.formatVersion + ")";
    if t.formatVersion == "3" {
      assert ListLine(t) == "  [OK]" + rest;
    } else {
      assert ListLine(t) == "  [WARN] V2" + rest;
      assert ListLine(t)[3] == 'W';
    }
  }

  function ListReport(listing: seq<ListedTable>): (lines: seq<string>)
    ensures |lines| == |listing|
  {
    seq(|listing|, i requires 0 <= i < |listing| => ListLine(listing[i]))
  }

  /** What one run of the upgrade tool ends in. */
  datatype CliOutcome =
    | ConfigRejected(error: ConfigError)
    | Listed(lines: seq<string>)
    | UsageError
    | NothingToUpgrade
    | Finished(ledger: seq<(string, bool)>, summary: seq<string>, ssh: seq<seq<string>>)
    | Aborted(ledger: seq<(string, bool)>, raised: ClusterNotReady, ssh: seq<seq<string>>)

  /** The executor settings main's configuration provides. */
  function SettingsOf(c: Config): EmrSettings {
    EmrSettings(PyStr(Lookup(c, "EMR_CLUSTER_ID")), PyStr(Lookup(c, "EMR_PEM_PATH")), LookupOr(c, "S3_BUCKET", "default"))
  }

  predicate ConfigComplete(c: Config) {
    forall k :: k in DEFAULT_REQUIRED_KEYS ==> Truthy(Lookup(c, k))
  }

  /**
   * main: load and validate the configuration, then list, or resolve the selection and
   * upgrade it. `tables` answers get_table, `pages` the paginated get_tables of the database.
   */
  method RunCli(args: Args, env: map<string, string>, uniqueId: string,
                tables: map<string, GlueTable>, pages: seq<seq<GlueTable>>, emr: Emr)
    returns (outcome: CliOutcome)
    ensures var config := LoadConfig(env, uniqueId);
            var ctx := Context(SettingsOf(config), tables, emr, args.database, args.dryRun);
            var selection := SelectTables(args, IcebergListing(AllEntries(pages)));
            (outcome.ConfigRejected? <==> !ConfigComplete(config))
            && (outcome.ConfigRejected? ==> outcome.error.keys == MissingKeys(config, DEFAULT_REQUIRED_KEYS))
            && (ConfigComplete(config) && args.listOnly ==> outcome == Listed(ListReport(IcebergListing(AllEntries(pages)))))
            && (outcome.UsageError? <==> ConfigComplete(config) && !args.listOnly && selection.None?)
            && (outcome.NothingToUpgrade? <==> ConfigComplete(config) && !args.listOnly && selection == Some([]))
            && (outcome.Finished? ==>
                  RunBatch(ctx, selection.value) == BatchState(outcome.ledger, None, RunBatch(ctx, selection.value).clusterLookups, outcome.ssh)
                  && outcome.summary == Summary(args.database, outcome.ledger))
            && (outcome.Aborted? ==>
                  RunBatch(ctx, selection.value) == BatchState(outcome.ledger, Some(outcome.raised), RunBatch(ctx, selection.value).clusterLookups, outcome.ssh))
            && (ConfigComplete(config) && !args.listOnly && selection.Some? && selection.value != [] ==>
                  outcome.Finished? || outcome.Aborted?)
  {
    var config := LoadConfig(env, uniqueId);
    var valid := ValidateConfig(config, None);
    if valid.Err? {
      return ConfigRejected(valid.error);
    }
    if args.listOnly {
      var listing := ListTablesInDatabase(pages);
      return Listed(ListReport(listing));
    }
    var selected: seq<string>;
    if Truthy(args.table) {
      selected := [args.table.value];
    } else if Truthy(args.tables) {
      selected := SplitTableList(args.tables.value);
    } else if args.all {
      var listing := ListTablesInDatabase(pages);
      selected := PendingNames(listing);
    } else {
      return UsageError;
    }
    if selected == [] {
      return NothingToUpgrade;
    }
    var ctx := Context(SettingsOf(config), tables, emr, args.database, args.dryRun);
    var results, failure, ssh := UpgradeTables(ctx, selected);
    if failure.Some? {
      return Aborted(results, failure.value, ssh);
    }
    return Finished(results, Summary(args.database, results), ssh);
  }
}
