/** The schema catalog built once at start-up: the rows of the metadata query
    (already restricted to tables and views whose names do not start with
    `sqlite_`) are split into a sorted list of table names and a sorted list
    of view names. Reads may target either; writes only tables. */
module Catalog {
  import opened Strings

  /** One row of the metadata query: `name` and `type` of a schema object. */
  datatype SchemaRow = SchemaRow(name: string, kind: string)

  datatype Catalog = Catalog(tablesInDb: seq<string>, viewsInDb: seq<string>, tablesAndViewsInDb: seq<string>)

  /** The names of the rows whose type is `kind`, in row order. */
  function NamesOfKind(rows: seq<SchemaRow>, kind: string): (names: seq<string>)
    ensures forall x :: x in names <==> SchemaRow(x, kind) in rows
    ensures |names| <= |rows|
  {
    if rows == [] then []
    else
      assert rows == [rows[0]] + rows[1..];
      (if rows[0].kind == kind then [rows[0].name] else []) + NamesOfKind(rows[1..], kind)
  }

  /** The partition computed from the metadata rows. */
  function Load(rows: seq<SchemaRow>): (c: Catalog)
    ensures Sorted(c.tablesInDb) && multiset(c.tablesInDb) == multiset(NamesOfKind(rows, "table"))
    ensures Sorted(c.viewsInDb) && multiset(c.viewsInDb) == multiset(NamesOfKind(rows, "view"))
    ensures c.tablesAndViewsInDb == c.tablesInDb + c.viewsInDb
  {
    var tables := Sort(NamesOfKind(rows, "table"));
    var views := Sort(NamesOfKind(rows, "view"));
    Catalog(tables, views, tables + views)
  }

  /** A GET may target the name. */
  predicate IsQueryable(c: Catalog, name: string) {
    name in c.tablesAndViewsInDb
  }

  /** A POST, PUT, PATCH or DELETE may target the name. */
  predicate IsMutable(c: Catalog, name: string) {
    name in c.tablesInDb
  }

  lemma SameMembers(a: seq<string>, b: seq<string>, x: string)
    requires multiset(a) == multiset(b)
    ensures x in a <==> x in b
  {
    assert x in a <==> x in multiset(a);
    assert x in b <==> x in multiset(b);
  }

  /** Membership in the loaded catalog is exactly the metadata rows' kinds:
      a name is mutable iff some row lists it as a table, and queryable iff
      some row lists it as a table or as a view. */
  lemma LoadMembership(rows: seq<SchemaRow>, name: string)
    ensures IsMutable(Load(rows), name) <==> SchemaRow(name, "table") in rows
    ensures IsQueryable(Load(rows), name) <==>
              SchemaRow(name, "table") in rows || SchemaRow(name, "view") in rows
  {
    var c := Load(rows);
    SameMembers(c.tablesInDb, NamesOfKind(rows, "table"), name);
    SameMembers(c.viewsInDb, NamesOfKind(rows, "view"), name);
  }

  /** Every table can be read as well as written. */
  lemma MutableIsQueryable(rows: seq<SchemaRow>, name: string)
    requires IsMutable(Load(rows), name)
    ensures IsQueryable(Load(rows), name)
  {
  }

  /** A name the metadata lists only as a view can be read but not written. */
  lemma {:induction false} ViewIsReadOnly(rows: seq<SchemaRow>, name: string)
    requires SchemaRow(name, "view") in rows && SchemaRow(name, "table") !in rows
    ensures IsQueryable(Load(rows), name) && !IsMutable(Load(rows), name)
  {
    LoadMembership(rows, name);
  }

  /** The readable list holds one entry per table row and one per view row. */
  lemma LoadIsPartition(rows: seq<SchemaRow>)
    ensures |Load(rows).tablesAndViewsInDb| ==
              |NamesOfKind(rows, "table")| + |NamesOfKind(rows, "view")|
  {
    var c := Load(rows);
    assert |c.tablesInDb| == |multiset(c.tablesInDb)|;
    assert |NamesOfKind(rows, "table")| == |multiset(NamesOfKind(rows, "table"))|;
    assert |c.viewsInDb| == |multiset(c.viewsInDb)|;
    assert |NamesOfKind(rows, "view")| == |multiset(NamesOfKind(rows, "view"))|;
  }
}
