/**
 * The upgrade decision and the SQL it renders (upgrade_table_to_v3 before execution):
 * a table that is not Iceberg is skipped, a table already on format version 3 is only
 * compacted, and any other table has its format version set to 3 and is then compacted.
 */
module Planner {
  import opened Strings
  import opened Catalog

  const TARGET_VERSION: string := "3"

  /** The three outcomes of the decision. */
  datatype Plan = Skip | CompactOnly | AlterAndCompact

  /** The decision for a table the catalog has. */
  function PlanFor(info: TableInfo): Plan {
    if Upper(info.tableType) != ICEBERG then Skip
    else if info.formatVersion == TARGET_VERSION then CompactOnly
    else AlterAndCompact
  }

  /** `database.table`, the name the statements use. */
  function Qualified(database: string, table: string): string {
    database + "." + table
  }

  // The fixed text around the qualified name in each statement. The leading keyword and the
  // closing ';' are written as literals of their own, which is what the proofs below look at.
  const CALL_HEAD: string := "CALL " + "glue_catalog.system.rewrite_data_files(table => '"
  const CALL_TAIL: string := "', options => map('rewrite-all', 'true'))" + ";"
  const ALTER_HEAD: string := "ALTER TABLE " + "glue_catalog."
  const ALTER_TAIL: string := " SET TBLPROPERTIES ('format-version' = '3')" + ";"
  const STATUS_HEAD: string := "SELECT " + "'Upgrade complete for "
  const STATUS_TAIL: string := "' as status" + ";"

  /** The full rewrite of every data file, the compaction both non-skip plans run. */
  function CompactionCall(database: string, table: string): string {
    CALL_HEAD + Qualified(database, table) + CALL_TAIL
  }

  /** The property change that pins the table to format version 3. */
  function AlterClause(database: string, table: string): string {
    ALTER_HEAD + Qualified(database, table) + ALTER_TAIL
  }

  /** The closing query that reports the upgrade as complete. */
  function StatusQuery(database: string, table: string): string {
    STATUS_HEAD + Qualified(database, table) + STATUS_TAIL
  }

  /** The SQL text of a plan as it is written out, line breaks included. */
  function PlanSql(plan: Plan, database: string, table: string): string
    requires plan != Skip
  {
    if plan == CompactOnly then
      CompactionCall(database, table)
    else
      "\n" + AlterClause(database, table) + "\n" + CompactionCall(database, table)
      + "\n" + StatusQuery(database, table) + "\n"
  }

  /** The statement handed to the executor: the SQL stripped, then each newline made a space. */
  function Statement(plan: Plan, database: string, table: string): (r: string)
    requires plan != Skip
    ensures '\n' !in r
  {
    ReplaceNewlines(Strip(PlanSql(plan, database, table)))
  }

  /**
   * The decision: a table whose upper-cased type is not ICEBERG is skipped whatever its
   * version; an Iceberg table already on "3" is compacted only; every other Iceberg table,
   * "UNKNOWN" version included, is altered and compacted.
   */
  lemma PlanDecision(info: TableInfo)
    ensures PlanFor(info) == Skip <==> Upper(info.tableType) != ICEBERG
    ensures PlanFor(info) == CompactOnly <==> Upper(info.tableType) == ICEBERG && info.formatVersion == "3"
    ensures PlanFor(info) == AlterAndCompact <==> Upper(info.tableType) == ICEBERG && info.formatVersion != "3"
  {
  }

  /** A table with no `table_type` reads as "UNKNOWN" and is therefore skipped. */
  lemma UnknownTypeIsSkipped(info: TableInfo)
    requires info.tableType == UNKNOWN
    ensures PlanFor(info) == Skip
  {
    assert Upper(UNKNOWN)[0] == 'U';
  }

  /** Every capitalisation of "iceberg", each letter upper or lower case, is eligible. */
  lemma IcebergAnyCase(info: TableInfo)
    requires |info.tableType| == 7
    requires forall i :: 0 <= i < 7 ==> info.tableType[i] == "ICEBERG"[i] || info.tableType[i] == "iceberg"[i]
    ensures PlanFor(info) != Skip
  {
    forall i | 0 <= i < 7 ensures Upper(info.tableType)[i] == ICEBERG[i] {
      assert UpperChar("iceberg"[i]) == "ICEBERG"[i];
    }
    assert Upper(info.tableType) == ICEBERG;
  }

  /** What the templates begin and end with. */
  lemma TemplateEnds()
    ensures "CALL " <= CALL_HEAD && '\n' !in "CALL "
    ensures "ALTER TABLE " <= ALTER_HEAD && '\n' !in "ALTER TABLE "
    ensures CALL_TAIL[|CALL_TAIL| - 1] == ';' && STATUS_TAIL[|STATUS_TAIL| - 1] == ';'
  {
  }

  /** A string that starts with `p` still does after something is appended. */
  lemma PrefixExtends(p: string, a: string, b: string)
    requires p <= a
    ensures p <= a + b
  {
    assert (a + b)[..|p|] == a[..|p|];
  }

  /** Three lines framed by line breaks flatten to the three lines joined by single spaces. */
  lemma FlattenedLines(a: string, c: string, s: string)
    requires |a| > 0 && !IsSpace(a[0])
    requires |s| > 0 && !IsSpace(s[|s| - 1])
    ensures ReplaceNewlines(Strip("\n" + a + "\n" + c + "\n" + s + "\n"))
         == ReplaceNewlines(a) + " " + ReplaceNewlines(c) + " " + ReplaceNewlines(s)
  {
    var nl := "\n";
    var x := a + nl + c + nl + s;
    assert x == a + (nl + c + nl + s);
    assert x[0] == a[0];
    assert x == (a + nl + c + nl) + s;
    assert x[|x| - 1] == s[|s| - 1];
    assert AllSpace(nl);
    assert nl + a + nl + c + nl + s + nl == nl + x + nl;
    StripPadded(nl, x, nl);
    ReplaceNewlinesConcat(a + nl + c + nl, s);
    ReplaceNewlinesConcat(a + nl + c, nl);
    ReplaceNewlinesConcat(a + nl, c);
    ReplaceNewlinesConcat(a, nl);
    assert ReplaceNewlines(nl) == " ";
  }

  /** The compact-only statement is the compaction call alone, flattened: no ALTER precedes it. */
  lemma CompactOnlyStatement(database: string, table: string)
    ensures Statement(CompactOnly, database, table) == ReplaceNewlines(CompactionCall(database, table))
    ensures "CALL " <= Statement(CompactOnly, database, table)
  {
    var q := Qualified(database, table);
    var c := CompactionCall(database, table);
    TemplateEnds();
    PrefixExtends("CALL ", CALL_HEAD, q + CALL_TAIL);
    assert c == CALL_HEAD + (q + CALL_TAIL);
    assert c == (CALL_HEAD + q) + CALL_TAIL;
    assert c[|c| - 1] == CALL_TAIL[|CALL_TAIL| - 1];
    assert "" + c + "" == c;
    StripPadded("", c, "");
    ReplaceNewlinesKeepsPrefix("CALL ", c);
  }

  /**
   * The alter-and-compact statement is the flattened ALTER, then the same flattened
   * compaction call, then the status query, separated by single spaces, in that order.
   */
  lemma AlterAndCompactStatement(database: string, table: string)
    ensures Statement(AlterAndCompact, database, table)
         == ReplaceNewlines(AlterClause(database, table)) + " "
          + ReplaceNewlines(CompactionCall(database, table)) + " "
          + ReplaceNewlines(StatusQuery(database, table))
    ensures "ALTER TABLE " <= Statement(AlterAndCompact, database, table)
  {
    var a, c, s := AlterClause(database, table), CompactionCall(database, table), StatusQuery(database, table);
    AlterClauseShape(database, table);
    StatusQueryShape(database, table);
    FlattenedLines(a, c, s);
    FlattenedPrefix("ALTER TABLE ", a, ReplaceNewlines(c), ReplaceNewlines(s));
  }

  /** A newline-free prefix of the first line is a prefix of the flattened whole. */
  lemma FlattenedPrefix(p: string, a: string, x: string, y: string)
    requires p <= a && '\n' !in p
    ensures p <= ReplaceNewlines(a) + " " + x + " " + y
  {
    ReplaceNewlinesKeepsPrefix(p, a);
    PrefixExtends(p, ReplaceNewlines(a), " " + x + " " + y);
    assert ReplaceNewlines(a) + " " + x + " " + y == ReplaceNewlines(a) + (" " + x + " " + y);
  }

  lemma AlterClauseShape(database: string, table: string)
    ensures "ALTER TABLE " <= AlterClause(database, table) && '\n' !in "ALTER TABLE "
  {
    TemplateEnds();
    var q := Qualified(database, table);
    assert AlterClause(database, table) == ALTER_HEAD + (q + ALTER_TAIL);
    PrefixExtends("ALTER TABLE ", ALTER_HEAD, q + ALTER_TAIL);
  }

  lemma StatusQueryShape(database: string, table: string)
    ensures |StatusQuery(database, table)| > 0
    ensures StatusQuery(database, table)[|StatusQuery(database, table)| - 1] == ';'
  {
    TemplateEnds();
    var s := StatusQuery(database, table);
    assert s == (STATUS_HEAD + Qualified(database, table)) + STATUS_TAIL;
    assert s[|s| - 1] == STATUS_TAIL[|STATUS_TAIL| - 1];
  }

  /**
   * Whatever the plan, the submitted statement is one line and starts with "ALTER TABLE "
   * exactly for the alter-and-compact plan and with "CALL " exactly for the compact-only plan.
   */
  lemma StatementShape(plan: Plan, database: string, table: string)
    requires plan != Skip
    ensures '\n' !in Statement(plan, database, table)
    ensures "ALTER TABLE " <= Statement(plan, database, table) <==> plan == AlterAndCompact
    ensures "CALL " <= Statement(plan, database, table) <==> plan == CompactOnly
  {
    CompactOnlyStatement(database, table);
    AlterAndCompactStatement(database, table);
    assert Statement(AlterAndCompact, database, table)[0] == "ALTER TABLE "[0];
    assert Statement(CompactOnly, database, table)[0] == "CALL "[0];
  }

  /**
   * Both plans run the same compaction: the compact-only statement appears verbatim in the
   * alter-and-compact one, between the flattened alteration and the status query.
   */
  lemma CompactionSharedByPlans(database: string, table: string)
    ensures Statement(AlterAndCompact, database, table)
         == ReplaceNewlines(AlterClause(database, table)) + " "
          + Statement(CompactOnly, database, table) + " "
          + ReplaceNewlines(StatusQuery(database, table))
  {
    CompactOnlyStatement(database, table);
    AlterAndCompactStatement(database, table);
  }
}
