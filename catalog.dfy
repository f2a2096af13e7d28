/**
 * The Glue catalog as the upgrade tool reads it: a lookup by table name (get_table_info)
 * and a paginated listing of one database filtered to Iceberg tables
 * (list_tables_in_database).
 */
module Catalog {
  import opened Wrappers
  import opened Strings

  /** One catalog entry: its name, its `Parameters` (empty when absent) and its storage location. */
  datatype GlueTable = GlueTable(name: string, parameters: map<string, string>, location: Option<string>)

  /** The record get_table_info builds for a table that exists. */
  datatype TableInfo = TableInfo(
    name: string,
    database: string,
    location: Option<string>,
    tableType: string,
    formatVersion: string,
    metadataLocation: Option<string>)

  const UNKNOWN: string := "UNKNOWN"
  const ICEBERG: string := "ICEBERG"

  /** `params.get(key, default)`. */
  function Param(t: GlueTable, key: string, default: string): string {
    if key in t.parameters then t.parameters[key] else default
  }

  /**
   * get_table_info: None when the catalog has no entry for the table (EntityNotFound),
   * otherwise its type and format version with "UNKNOWN" standing in for a missing one.
   */
  function GetTableInfo(tables: map<string, GlueTable>, database: string, table: string): (r: Option<TableInfo>)
    ensures r.None? <==> table !in tables
    ensures r.Some? ==> r.value.database == database && r.value.name == tables[table].name
  {
    if table !in tables then None
    else
      var t := tables[table];
      Some(TableInfo(
        t.name,
        database,
        t.location,
        Param(t, "table_type", UNKNOWN),
        Param(t, "format-version", UNKNOWN),
        if "metadata_location" in t.parameters then Some(t.parameters["metadata_location"]) else None))
  }

  /** A table whose entry lacks `table_type` or `format-version` reads as "UNKNOWN" for it. */
  lemma GetTableInfoDefaults(tables: map<string, GlueTable>, database: string, table: string)
    requires table in tables
    ensures "table_type" !in tables[table].parameters ==> GetTableInfo(tables, database, table).value.tableType == UNKNOWN
    ensures "format-version" !in tables[table].parameters ==> GetTableInfo(tables, database, table).value.formatVersion == UNKNOWN
    ensures "table_type" in tables[table].parameters ==>
              GetTableInfo(tables, database, table).value.tableType == tables[table].parameters["table_type"]
    ensures "format-version" in tables[table].parameters ==>
              GetTableInfo(tables, database, table).value.formatVersion == tables[table].parameters["format-version"]
  {
  }

  /** One element of the listing: a name and its format version. */
  datatype ListedTable = ListedTable(name: string, formatVersion: string)

  /** The listing keeps an entry whose upper-cased `table_type` (empty when absent) is ICEBERG. */
  predicate IsIcebergEntry(t: GlueTable) {
    Upper(Param(t, "table_type", "")) == ICEBERG
  }

  function ListedOf(t: GlueTable): ListedTable {
    ListedTable(t.name, Param(t, "format-version", UNKNOWN))
  }

  /** The catalog entries of all pages, in page order. */
  function AllEntries(pages: seq<seq<GlueTable>>): seq<GlueTable>
    decreases |pages|
  {
    if pages == [] then [] else AllEntries(pages[..|pages| - 1]) + pages[|pages| - 1]
  }

  /** The Iceberg entries of `ts`, in order, as the listing records them. */
  function IcebergListing(ts: seq<GlueTable>): seq<ListedTable>
    decreases |ts|
  {
    if ts == [] then []
    else
      var last := ts[|ts| - 1];
      IcebergListing(ts[..|ts| - 1]) + (if IsIcebergEntry(last) then [ListedOf(last)] else [])
  }

  /** Listing a concatenation lists each part in turn: the filter keeps catalog order. */
  lemma {:induction false} IcebergListingConcat(a: seq<GlueTable>, b: seq<GlueTable>)
    ensures IcebergListing(a + b) == IcebergListing(a) + IcebergListing(b)
    decreases |b|
  {
    if b == [] {
      assert a + b == a;
    } else {
      IcebergListingConcat(a, b[..|b| - 1]);
      assert (a + b)[..|a + b| - 1] == a + b[..|b| - 1];
    }
  }

  /** An element is listed exactly when some Iceberg entry of the catalog produces it. */
  lemma {:induction false} IcebergListingExactly(ts: seq<GlueTable>, e: ListedTable)
    ensures e in IcebergListing(ts) <==> exists i :: 0 <= i < |ts| && IsIcebergEntry(ts[i]) && ListedOf(ts[i]) == e
    decreases |ts|
  {
    if ts != [] {
      var init := ts[..|ts| - 1];
      IcebergListingExactly(init, e);
      if e in IcebergListing(init) {
        var i :| 0 <= i < |init| && IsIcebergEntry(init[i]) && ListedOf(init[i]) == e;
        assert ts[i] == init[i];
      }
      if exists i :: 0 <= i < |ts| && IsIcebergEntry(ts[i]) && ListedOf(ts[i]) == e {
        var i :| 0 <= i < |ts| && IsIcebergEntry(ts[i]) && ListedOf(ts[i]) == e;
        if i < |init| {
          assert init[i] == ts[i];
        }
      }
    }
  }

  /** The listing is never longer than the catalog. */
  lemma {:induction false} IcebergListingLength(ts: seq<GlueTable>)
    ensures |IcebergListing(ts)| <= |ts|
    decreases |ts|
  {
    if ts != [] {
      IcebergListingLength(ts[..|ts| - 1]);
    }
  }

  /** Appending an entry lists it after the rest exactly when it is an Iceberg entry. */
  lemma IcebergListingSnoc(ts: seq<GlueTable>, t: GlueTable)
    ensures IcebergListing(ts + [t]) == IcebergListing(ts) + (if IsIcebergEntry(t) then [ListedOf(t)] else [])
  {
    assert (ts + [t])[..|ts|] == ts;
  }

  /** list_tables_in_database: walk every page and every entry, keeping the Iceberg ones. */
  method ListTablesInDatabase(pages: seq<seq<GlueTable>>) returns (tables: seq<ListedTable>)
    ensures tables == IcebergListing(AllEntries(pages))
  {
    tables := [];
    for p := 0 to |pages|
      invariant tables == IcebergListing(AllEntries(pages[..p]))
    {
      var page := pages[p];
      ghost var before := AllEntries(pages[..p]);
      assert before + page[..0] == before;
      for j := 0 to |page|
        invariant tables == IcebergListing(before + page[..j])
      {
        var t := page[j];
        assert before + page[..j + 1] == (before + page[..j]) + [t];
        IcebergListingSnoc(before + page[..j], t);
        if Upper(Param(t, "table_type", "")) == ICEBERG {
          tables := tables + [ListedTable(t.name, Param(t, "format-version", UNKNOWN))];
        }
      }
      assert page[..|page|] == page;
      assert pages[..p + 1][..p] == pages[..p];
    }
    assert pages[..|pages|] == pages;
  }
}
