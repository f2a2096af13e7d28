# Iceberg format-version 2 to 3 upgrade tool, modelled in Dafny

The tool upgrades Apache Iceberg tables registered in the AWS Glue catalog from table
format version 2 to version 3, then checks that Databricks can still read them.

For each selected table it works in four steps:

1. It looks the table up in the catalog.
2. It decides between three plans:
   - skip a table that is not Iceberg;
   - only compact a table already on version 3;
   - otherwise alter the format version and then compact.
3. It renders the plan as one line of Spark SQL.
4. It runs that line with `spark-sql` on the master node of an EMR cluster over ssh. Before
   doing so it checks that the cluster is `WAITING` or `RUNNING`.

The results form a ledger of `(table, success)` pairs, printed as a summary.

A separate check runs three probes on a Databricks SQL warehouse: `DESCRIBE TABLE`, a
five-row `SELECT` and a `COUNT(*)`. Both tools read their settings from an environment-backed
configuration that validates required keys and masks secrets when displayed.

The model has one module per component:

| file | module | models |
|---|---|---|
| strings.dfy | `Wrappers`, `Strings` | Python's `strip`, `upper`, `replace`, `split`, `join`, slicing, truthiness |
| configuration.dfy | `Configuration` | `load_config`, `validate_config`, `print_config` |
| catalog.dfy | `Catalog` | `get_table_info`, `list_tables_in_database` |
| planner.dfy | `Planner` | the decision and SQL rendering inside `upgrade_table_to_v3` |
| executor.dfy | `Executor` | `get_emr_master_dns`, `run_spark_sql_on_emr` |
| orchestrator.dfy | `Orchestrator` | `upgrade_table_to_v3`, and `main` of the upgrade tool: selection, the results loop, the summary |
| verifier.dfy | `Verifier` | `run_databricks_query`, `verify_table`, and `main` of the verification tool |

The services are oracles (values of function type):

- The Glue catalog is a map from table name to entry, plus the listing's pages.
- EMR is `describe(n)`, the cluster status the n-th `describe_cluster` call of a run sees, and
  `exitCode(n, argv)`, the exit status of the ssh process of the n-th executor call.
- Databricks is `warehouses(n)` and `execute(n, warehouseId, sql)` for the n-th query of a check.
- The process environment after `.env` has been loaded is a map. The random eight-hex-digit
  suffix is a parameter.

The three loops the source runs are methods proved against left-fold specification functions:

- the loop of `validate_config`;
- the paginated listing;
- the per-table loop of `main`.

`verify_table`'s straight-line sequence of effectful probes is a method proved equal to a
pure function of the three query results (`Verifier.CheckOf`).

### Behaviour worth knowing (the model follows the code)

- **Cluster readiness is checked on every executor call, not once per run.** The check happens
  inside `run_spark_sql_on_emr` (upgrade_table.py:61). A table that is not found or is not
  Iceberg never reaches it. So when the cluster is not ready, such tables are still recorded
  as `False` before the first eligible table raises. The error then ends the loop (no
  summary), but no ssh process is ever started (`Orchestrator.NeverReadyBatch`).
- **A table that is not Iceberg is recorded as `False`**, the same as a failure, not as a
  distinct skip (upgrade_table.py:117-119).
- **A failed `SELECT` probe does stop the check.** `COUNT` is never issued in that case
  (verify_in_databricks.py:89-98).
- **The probe reuses no warehouse.** Every probe lists the warehouses again and posts to the
  first `RUNNING` one. The `-w/--warehouse` argument is parsed but never used
  (verify_in_databricks.py:68, 120, 129).
- **If no warehouse is running, `verify_table` crashes.** It indexes the `None` that
  `run_databricks_query` returns. A successful `COUNT` with an empty `data_array` or an empty
  first row also crashes, because `[0][0]` raises. Both are explicit error outcomes
  (`Verifier.VerifyCrash`).

## Model

| member | source | states |
|---|---|---|
| Strings.TrimLeft | internal/upgrade_table.py:137 | the result is a suffix of the input; what was removed is all whitespace in Python's `isspace` sense; the result does not start with whitespace |
| Strings.TrimRight | internal/upgrade_table.py:137 | the result is a prefix of the input; what was removed is all whitespace; the result does not end with whitespace |
| Strings.Strip | internal/upgrade_table.py:137 | `strip()` is `lstrip()` then `rstrip()`, so by the two rows above its result sits between an all-whitespace head and tail of the input and neither starts nor ends with whitespace |
| Strings.StripPadded | internal/upgrade_table.py:137 | `strip` of whitespace + x + whitespace is x when x neither starts nor ends with whitespace |
| Strings.ReplaceNewlines | internal/upgrade_table.py:137 | `replace('\n', ' ')` keeps the length and leaves no newline |
| Strings.ReplaceNewlinesConcat | internal/upgrade_table.py:137 | replacing newlines distributes over concatenation |
| Strings.ReplaceNewlinesKeepsPrefix | internal/upgrade_table.py:137 | a newline-free prefix survives the replacement |
| Strings.Upper | internal/upgrade_table.py:117 | `upper` keeps the length |
| Strings.Prefix | internal/verify_in_databricks.py:74 | `s[:n]` is a prefix of s of length min(n, len s) |
| Strings.LastChars | internal/config.py:77 | for n > 0, `s[-n:]` is the suffix of s of length min(n, len s) |
| Strings.Split | internal/upgrade_table.py:202 | `split(sep)` yields at least one piece and no piece contains the separator |
| Strings.JoinSplit | internal/upgrade_table.py:202 | joining the pieces of a split with the separator gives back the input |
| Strings.SplitJoin | internal/upgrade_table.py:202 | splitting a join of separator-free pieces gives back the pieces |
| Configuration.LoadConfig | internal/config.py:18-40 | the configuration is a well-formed dictionary (each key once) with exactly the ten keys, in the order `load_config` inserts them |
| Configuration.LoadConfigRegion | internal/config.py:26 | AWS_REGION is AWS_DEFAULT_REGION from the environment, us-west-2 when unset |
| Configuration.LoadConfigDemoDefaults | internal/config.py:33-34 | S3_BUCKET and GLUE_DATABASE are the environment variables of those names, else "iceberg-v3-upgrade-demo-" and "iceberg_v3_demo_" followed by the unique suffix |
| Configuration.LoadConfigPassThrough | internal/config.py:20-37 | every other key without a default holds the environment variable of its own name, None when unset |
| Configuration.MissingKeysExactly | internal/config.py:54-57 | a key is reported missing exactly when it is required and its value is absent or empty |
| Configuration.MissingKeysConcat | internal/config.py:54-57 | missing keys are collected in the order the keys are required |
| Configuration.ValidateConfig | internal/config.py:43-62 | with no key list, the five default keys are required; validation succeeds (returning True) exactly when every required key is truthy; otherwise the error lists exactly the falsy keys, in order, and is non-empty |
| Configuration.Display | internal/config.py:74-79 | the text shown for one setting; its masking rule is stated by DisplayRule |
| Configuration.DisplayRule | internal/config.py:71-79 | an unset value shows "(not set)"; a masked secret shows eight `*` and the last min(4, len) characters, at most 12 in all, or "(not set)" when empty; every other value is shown unchanged |
| Configuration.ConfigLines | internal/config.py:73-80 | one display line per configuration key |
| Catalog.GetTableInfo | internal/upgrade_table.py:33-56 | None exactly when the catalog has no entry for the table; otherwise the record carries the given database and the entry's name |
| Catalog.GetTableInfoDefaults | internal/upgrade_table.py:46-53 | a missing `table_type` or `format-version` reads "UNKNOWN"; a present one is taken as is |
| Catalog.IcebergListingConcat | internal/upgrade_table.py:158-168 | listing a concatenation lists each part in turn, so catalog order is kept |
| Catalog.IcebergListingExactly | internal/upgrade_table.py:161-168 | an entry is listed exactly when some catalog entry's upper-cased `table_type` (empty when absent) is ICEBERG and it yields that name and version ("UNKNOWN" when absent) |
| Catalog.IcebergListingLength | internal/upgrade_table.py:158-168 | the listing is never longer than the catalog |
| Catalog.IcebergListingSnoc | internal/upgrade_table.py:161-168 | an appended entry is listed after the others exactly when it is an Iceberg entry |
| Catalog.ListTablesInDatabase | internal/upgrade_table.py:149-170 | the nested page/entry loop returns exactly the Iceberg listing of all pages' entries in order |
| Planner.PlanFor | internal/upgrade_table.py:116-131 | the plan for a catalogued table, tested in the source's order (type, then version); its three cases are stated by PlanDecision |
| Planner.PlanDecision | internal/upgrade_table.py:116-131 | skip exactly when the upper-cased type is not ICEBERG, whatever the version; compact-only exactly for Iceberg on "3"; alter-and-compact for any other version, "UNKNOWN" included |
| Planner.UnknownTypeIsSkipped | internal/upgrade_table.py:117-119 | a table whose `table_type` was absent, and so read "UNKNOWN", is skipped |
| Planner.IcebergAnyCase | internal/upgrade_table.py:117 | a seven-letter type spelling "iceberg" with each letter in either case is eligible |
| Planner.PlanSql | internal/upgrade_table.py:121-131 | the SQL text of a non-skip plan, line breaks included, as the source writes it; its shape after flattening is stated by the Statement lemmas below |
| Planner.Statement | internal/upgrade_table.py:137 | the statement handed to the executor (the SQL stripped, newlines made spaces) contains no newline |
| Planner.CompactOnlyStatement | internal/upgrade_table.py:122-137 | the compact-only statement is the `rewrite_data_files` call alone and starts with "CALL " |
| Planner.AlterAndCompactStatement | internal/upgrade_table.py:125-137 | the other statement is the ALTER, the CALL, then the status SELECT, joined by single spaces, and it starts with "ALTER TABLE " |
| Planner.FlattenedLines | internal/upgrade_table.py:127-137 | a newline-framed three-line script strips and flattens to its three lines joined by single spaces |
| Planner.StatementShape | internal/upgrade_table.py:122-137 | the submitted statement has no newline; it starts with "ALTER TABLE " exactly for alter-and-compact and with "CALL " exactly for compact-only |
| Planner.CompactionSharedByPlans | internal/upgrade_table.py:122-131 | the alter-and-compact statement contains the compact-only statement verbatim between the ALTER and the status query |
| Executor.MasterDns | internal/upgrade_table.py:14-30 | the master's DNS name exactly when the state is WAITING or RUNNING; otherwise the not-ready error carrying the cluster id and the state |
| Executor.SparkSqlCommandCarriesStatement | internal/upgrade_table.py:65-72 | the spark-sql command line carries the statement verbatim right after its fixed options |
| Executor.ClusterNotReady.Message | internal/upgrade_table.py:27-28 | the RuntimeError's message names the cluster right after "EMR cluster " and ends with the cluster state |
| Executor.RunSparkSql | internal/upgrade_table.py:59-97 | one executor call starts at most one ssh process, and none when it raises or in a dry run |
| Executor.RunSparkSqlContract | internal/upgrade_table.py:59-97 | a not-ready cluster raises before anything else, dry run included; a dry run returns True without ssh; otherwise one ssh process runs the command as `hadoop@<master>`, and the result is True exactly when it exits with 0 |
| Executor.DryRunStartsNoSsh | internal/upgrade_table.py:74-78 | a dry run never starts ssh and never returns False |
| Orchestrator.UpgradeTable | internal/upgrade_table.py:100-146 | one table looks the cluster up at most once, starts ssh only after that lookup, and raises only after looking the cluster up and before any ssh |
| Orchestrator.UpgradeTableIneligible | internal/upgrade_table.py:106-119 | a table that is missing or not Iceberg gives False with no cluster lookup and no ssh, and only such tables do; an eligible one looks the cluster up once |
| Orchestrator.UpgradeTableEligible | internal/upgrade_table.py:121-146 | an eligible table's result is the executor's on its statement: the compaction alone for version "3", a statement starting with ALTER TABLE otherwise |
| Orchestrator.UpgradeTableDryRun | internal/upgrade_table.py:106-146 | in a dry run a table starts no ssh process, and a returned value is True exactly for an eligible table |
| Orchestrator.UpgradeWhileNotReady | internal/upgrade_table.py:106-146 | while the cluster is not ready a table starts no ssh process and never returns True |
| Orchestrator.BatchSnoc | internal/upgrade_table.py:216-219 | one more table in the list runs one more iteration of the loop |
| Orchestrator.StepShape | internal/upgrade_table.py:217-219 | for any per-table upgrade, one iteration appends at most one entry, for its own table, and only while no error has escaped |
| Orchestrator.FailureEndsBatch | internal/upgrade_table.py:216-219 | once an error escapes, the rest of the list changes nothing |
| Orchestrator.LedgerShape | internal/upgrade_table.py:216-219 | for any per-table upgrade, one ledger entry per table handed over, named after it, in input order; the whole list when no error escapes |
| Orchestrator.LedgerValues | internal/upgrade_table.py:218-219 | for any per-table upgrade, each entry holds the value that table's call returned, so a False entry never stops the loop |
| Orchestrator.StopsAtRaise | internal/upgrade_table.py:216-219 | for any per-table upgrade, the loop stops only at the table whose call raised, keeping that error |
| Orchestrator.BatchLedger | internal/upgrade_table.py:216-219 | the same three facts for the tool's own upgrade_table_to_v3 |
| Orchestrator.StepLookups | internal/upgrade_table.py:217-219 | an iteration after an escaped error does nothing; otherwise it hands over one table and adds its cluster lookups |
| Orchestrator.LookupCountOf | internal/upgrade_table.py:216-219 | if each call looks the cluster up exactly when its table is eligible, the loop looks it up once per eligible table handed over |
| Orchestrator.LookupCount | internal/upgrade_table.py:216-219 | the cluster is looked up once per eligible table handed over |
| Orchestrator.NoSshBatch | internal/upgrade_table.py:216-219 | if no call starts ssh and each returned value is fixed by eligibility, the whole loop starts no ssh and every entry has that value |
| Orchestrator.DryRunBatch | internal/upgrade_table.py:216-219 | a dry run starts no ssh process, and each entry is True exactly when its table is eligible |
| Orchestrator.NeverReadyBatch | internal/upgrade_table.py:216-219 | with a cluster that is never ready, no ssh process is started and no entry is True |
| Orchestrator.UpgradeTables | internal/upgrade_table.py:215-219 | the loop's results, escaped error and ssh processes are those of the left-fold specification |
| Orchestrator.SplitTableList | internal/upgrade_table.py:202 | one name per comma-separated piece, each piece stripped, in order |
| Orchestrator.SplitTableListRoundTrip | internal/upgrade_table.py:202 | a comma-joined list of comma-free, already-stripped names selects exactly those names, order and duplicates kept |
| Orchestrator.SplitTableListCoversInput | internal/upgrade_table.py:202 | the unstripped pieces join back into the argument |
| Orchestrator.PendingNames | internal/upgrade_table.py:203-205 | `--all` selects at most one name per listed table |
| Orchestrator.PendingNamesConcat | internal/upgrade_table.py:203-205 | selecting from a concatenated listing selects from each part in turn, so listing order and repeated names are kept |
| Orchestrator.PendingNamesExactly | internal/upgrade_table.py:203-205 | `--all` selects a name exactly when the listing has it with a version other than "3" |
| Orchestrator.SelectTables | internal/upgrade_table.py:199-209 | the selection from `-t`, `--tables` or `--all`; its precedence is stated by SelectionPrecedence |
| Orchestrator.SelectionPrecedence | internal/upgrade_table.py:199-209 | `-t` wins over `--tables`, which wins over `--all`; with none of them there is no selection |
| Orchestrator.Summary | internal/upgrade_table.py:226-228 | one summary line per ledger entry |
| Orchestrator.SummaryMarker | internal/upgrade_table.py:226-228 | a summary line carries "[OK]" exactly when its entry is True, "[ERROR]" otherwise |
| Orchestrator.ListReport | internal/upgrade_table.py:190-193 | one line per listed table |
| Orchestrator.ListMarker | internal/upgrade_table.py:191-193 | a `--list` line starts with "  [OK]" exactly when the table is on version "3", and with "  [WARN] V2" otherwise |
| Orchestrator.RunCli | internal/upgrade_table.py:173-228 | an invalid configuration is rejected with its missing keys; `--list` prints the listing; no selector is a usage error; an empty selection upgrades nothing; otherwise the ledger, escaped error and ssh processes are the batch specification's, and the summary follows the ledger |
| Verifier.SelectWarehouse | internal/verify_in_databricks.py:29-33 | a chosen warehouse is one of the listed ones and is RUNNING |
| Verifier.RunningMembership | internal/verify_in_databricks.py:29 | a warehouse is among the running ones exactly when it is listed with state RUNNING |
| Verifier.SelectWarehouseNone | internal/verify_in_databricks.py:29-32 | no warehouse is chosen exactly when none is RUNNING |
| Verifier.SelectWarehouseFirstRunning | internal/verify_in_databricks.py:29-33 | the chosen warehouse is the first RUNNING one in the listing |
| Verifier.TrimTrailingSlashes | internal/verify_in_databricks.py:14 | `rstrip('/')` removes exactly the trailing slashes |
| Verifier.SubmittedConcat | internal/verify_in_databricks.py:37-45 | the statements posted by consecutive queries are posted in order |
| Verifier.RunQuery | internal/verify_in_databricks.py:12-54 | a query makes one listing request, then one statement request carrying its own statement exactly when it returns a result |
| Verifier.RunQueryContract | internal/verify_in_databricks.py:12-54 | a query lists warehouses first; it posts its statement exactly when some warehouse is RUNNING, to the first such warehouse; the status is SUCCEEDED exactly when the service says so, and "UNKNOWN" when the response has none |
| Verifier.QueryPostsOnlyItsStatement | internal/verify_in_databricks.py:23-45 | a query posts its own statement and nothing else, and only when it returns a result |
| Verifier.PreviewNotesShape | internal/verify_in_databricks.py:83-88 | a successful SELECT shows at most three rows, the first ones in order, and an "and n-3 more" line exactly when there are more than three |
| Verifier.CheckOf | internal/verify_in_databricks.py:57-112 | the check as a function of the three query results, staged as DESCRIBE, then SELECT, then COUNT; its rules are stated by CheckRules |
| Verifier.CheckRules | internal/verify_in_databricks.py:57-112 | statements are posted as a prefix of DESCRIBE, SELECT, COUNT; a failed DESCRIBE gives False after one statement, its message cut to 200 characters; a failed SELECT gives False after two, its message cut to 300, with the Iceberg hint exactly when the upper-cased message contains ICEBERG; once both succeed the check is True whatever COUNT's status, unless COUNT escapes with an error; no running warehouse escapes as an error |
| Verifier.VerifyTable | internal/verify_in_databricks.py:57-112 | the probe sequence's result, posted statements and report are those of `CheckOf`, and the posted statements are exactly the statements of its HTTP requests |
| Verifier.SelectProbe | internal/verify_in_databricks.py:77-112 | after a successful DESCRIBE, the SELECT probe and what follows give the result, posted statements and report of `AfterDescribe` |
| Verifier.CountProbe | internal/verify_in_databricks.py:100-112 | after DESCRIBE and SELECT succeeded, the COUNT probe gives the result, posted statements and report of `AfterSelect` |
| Verifier.VerifyMain | internal/verify_in_databricks.py:115-134 | the check is refused, with nothing posted, exactly when DATABRICKS_HOST or DATABRICKS_TOKEN is unset or empty; otherwise it passes, fails or crashes as `verify_table` does |

## Left out

- boto3 (Glue, EMR), `subprocess`/ssh and `requests` HTTP are foreign calls. They are
  oracles: a catalog map and pages, `describe(n)`/`exitCode(n, argv)`, and
  `warehouses(n)`/`execute(n, id, sql)`. Glue exceptions other than EntityNotFoundException,
  network failures and malformed responses are not modelled.
- `load_dotenv` and `uuid.uuid4().hex[:8]` are not modelled. The environment after `.env` is
  loaded is a map parameter, and the eight-digit suffix is a string parameter.
- Console output is not modelled, except for these parts:
  - the summary and `--list` lines, modelled whole (`Orchestrator.SummaryLine`,
    `Orchestrator.ListLine`);
  - the per-setting lines of `print_config` (`Configuration.ConfigLines`);
  - the DESCRIBE/SELECT/COUNT report, as `Verifier.Note` values (a preview row is the row
    itself, not its Python `repr`).
  The banners, the printed SQL and the captured stdout/stderr of ssh are left out.
- The text of the `ValueError` that `validate_config` raises is not modelled. The error
  carries the missing keys themselves (`Configuration.ConfigError`).
- argparse mechanics are not modelled (required options, `--help`, parse errors). `sys.exit(1)`
  for a missing selector is the `UsageError` outcome. The unused `-w/--warehouse` option of
  the verification tool is not modelled.
- The `__main__` block of config.py (print, then validate) is left out. It only composes
  `Configuration.ConfigLines` and `Configuration.ValidateConfig`.
- Strings.Upper: folds only ASCII letters. Python's `str.upper` also changes non-ASCII
  letters, which can matter in `table_type`, in secret-key names and in error messages.
- Verifier.CountText: the count is a string. The source's default `[[0]]` yields the integer
  0, which the model renders as "0". `data_array` cells are strings, and JSON `null` or
  non-string cells are not modelled.
- The source does not update the catalog after an ALTER, so nothing is claimed about a second
  run. Idempotence across runs would need a model of the catalog's reaction to the statement.
- internal/create_demo_table.py, internal/lake_formation_setup.py and
  internal/test_v3_mor_deletes.py are not part of this model. They are provisioning, grant
  wrappers and a one-off probe, with no decision logic beyond what is modelled here.
