/** Shaping of the introspection query results: flat column rows are
    grouped into tables, and foreign-key rows become relationships. */
module Introspection {
  import opened Schema

  /** One row of the tables query. `columnName` is absent for a table
      without columns (the query's left join yields NULL); `isNullable` is
      the catalogue's text, "YES" or "NO". */
  datatype TableRow = TableRow(
    tableName: string,
    columnName: Option<string>,
    dataType: string,
    isNullable: string,
    isPrimaryKey: bool,
    isForeignKey: bool)

  /** One row of the foreign-key query. */
  datatype RelationshipRow = RelationshipRow(
    fromTable: string,
    fromColumn: string,
    toTable: string,
    toColumn: string,
    constraintName: string)

  /** The row names a column: its column name is neither NULL nor empty
      (both are falsy). */
  predicate HasColumn(row: TableRow)
  {
    row.columnName.Some? && row.columnName.value != ""
  }

  /** The column a row contributes: nullable exactly when the catalogue says
      "YES"; name, type and key flags are taken over as they are. */
  function ToColumn(row: TableRow): (c: Column)
    requires HasColumn(row)
    ensures c.isNullable <==> row.isNullable == "YES"
    ensures c.name == row.columnName.value && c.dataType == row.dataType
    ensures c.isPrimaryKey == row.isPrimaryKey && c.isForeignKey == row.isForeignKey
  {
    Column(row.columnName.value, row.dataType, row.isNullable == "YES", row.isPrimaryKey, row.isForeignKey)
  }

  // ----- specification of the grouping -----

  /** The distinct table names of the rows, in order of first appearance. */
  function TableNames(rows: seq<TableRow>): (names: seq<string>)
    ensures forall i, j :: 0 <= i < j < |names| ==> names[i] != names[j]
    ensures forall n :: n in names <==> exists p :: 0 <= p < |rows| && rows[p].tableName == n
    decreases |rows|
  {
    if rows == [] then
      []
    else
      var init := rows[..|rows| - 1];
      var last := rows[|rows| - 1];
      var names := TableNames(init);
      assert forall p :: 0 <= p < |init| ==> init[p] == rows[p];
      if last.tableName in names then names else names + [last.tableName]
  }

  /** The columns the rows give table `name`, in row order. */
  function ColumnsOf(rows: seq<TableRow>, name: string): seq<Column>
  {
    if rows == [] then
      []
    else
      var last := rows[|rows| - 1];
      var prior := ColumnsOf(rows[..|rows| - 1], name);
      if last.tableName == name && HasColumn(last) then prior + [ToColumn(last)] else prior
  }

  /** The tables the handler reports: one per distinct table name, in order
      of first appearance, each with the columns its rows contribute. */
  function GroupedTables(rows: seq<TableRow>): (ts: seq<Table>)
    ensures |ts| == |TableNames(rows)|
  {
    var names := TableNames(rows);
    seq(|names|, i requires 0 <= i < |names| => Table(names[i], ColumnsOf(rows, names[i])))
  }

  // ----- the grouping loop -----

  lemma ColumnsOfStep(rows: seq<TableRow>, i: nat, name: string)
    requires i < |rows|
    ensures ColumnsOf(rows[..i + 1], name)
            == if rows[i].tableName == name && HasColumn(rows[i])
               then ColumnsOf(rows[..i], name) + [ToColumn(rows[i])]
               else ColumnsOf(rows[..i], name)
  {
    assert rows[..i + 1][..i] == rows[..i];
  }

  lemma TableNamesStep(rows: seq<TableRow>, i: nat)
    requires i < |rows|
    ensures TableNames(rows[..i + 1])
            == if rows[i].tableName in TableNames(rows[..i]) then TableNames(rows[..i])
               else TableNames(rows[..i]) + [rows[i].tableName]
  {
    assert rows[..i + 1][..i] == rows[..i];
  }

  /** A table name no row carries has no columns. */
  lemma {:induction false} ColumnsOfAbsent(rows: seq<TableRow>, name: string)
    requires name !in TableNames(rows)
    ensures ColumnsOf(rows, name) == []
    decreases |rows|
  {
    if rows != [] {
      var init := rows[..|rows| - 1];
      assert forall p :: 0 <= p < |init| ==> init[p] == rows[p];
      ColumnsOfAbsent(init, name);
    }
  }

  /** The grouping step of the introspection handler: a map from table name
      to its growing column list, together with the order in which names
      entered the map (a JavaScript Map iterates in insertion order). */
  method GroupRows(rows: seq<TableRow>) returns (tables: seq<Table>)
    ensures tables == GroupedTables(rows)
  {
    var order: seq<string> := [];
    var tablesMap: map<string, seq<Column>> := map[];
    for i := 0 to |rows|
      invariant order == TableNames(rows[..i])
      invariant forall n :: n in tablesMap <==> n in order
      invariant forall n :: n in tablesMap ==> tablesMap[n] == ColumnsOf(rows[..i], n)
    {
      var row := rows[i];
      ghost var before := tablesMap;
      TableNamesStep(rows, i);
      if row.tableName !in tablesMap {
        ColumnsOfAbsent(rows[..i], row.tableName);
        order := order + [row.tableName];
        tablesMap := tablesMap[row.tableName := []];
      }
      assert tablesMap[row.tableName] == ColumnsOf(rows[..i], row.tableName);
      if HasColumn(row) {
        tablesMap := tablesMap[row.tableName := tablesMap[row.tableName] + [ToColumn(row)]];
      }
      forall n | n in tablesMap
        ensures tablesMap[n] == ColumnsOf(rows[..i + 1], n)
      {
        ColumnsOfStep(rows, i, n);
        if n != row.tableName {
          assert tablesMap[n] == before[n];
        }
      }
    }
    assert rows[..|rows|] == rows;
    tables := TablesInOrder(order, tablesMap);
  }

  /** `Array.from(tablesMap.values())`: the tables in the order their names
      entered the map. */
  method TablesInOrder(order: seq<string>, tablesMap: map<string, seq<Column>>) returns (tables: seq<Table>)
    requires forall n :: n in order ==> n in tablesMap
    ensures |tables| == |order|
    ensures forall k :: 0 <= k < |order| ==> tables[k] == Table(order[k], tablesMap[order[k]])
  {
    tables := [];
    for k := 0 to |order|
      invariant |tables| == k
      invariant forall l :: 0 <= l < k ==> tables[l] == Table(order[l], tablesMap[order[l]])
    {
      tables := tables + [Table(order[k], tablesMap[order[k]])];
    }
  }

  // ----- properties of the grouping -----

  /** Position of the first row that names table `name`. */
  function FirstRow(rows: seq<TableRow>, name: string): (p: nat)
    requires name in TableNames(rows)
    ensures p < |rows| && rows[p].tableName == name
    ensures forall q :: 0 <= q < p ==> rows[q].tableName != name
    decreases |rows|
  {
    var init := rows[..|rows| - 1];
    assert forall q :: 0 <= q < |init| ==> init[q] == rows[q];
    if name in TableNames(init) then FirstRow(init, name) else |rows| - 1
  }

  /** Each distinct table name gives exactly one table, every row's table is
      among them, and the tables come in the order their first rows do. */
  lemma {:induction false} TablesInFirstAppearanceOrder(rows: seq<TableRow>)
    ensures forall i, j :: 0 <= i < j < |GroupedTables(rows)| ==>
              GroupedTables(rows)[i].name != GroupedTables(rows)[j].name
    ensures forall p :: 0 <= p < |rows| ==>
              exists i :: 0 <= i < |GroupedTables(rows)| && GroupedTables(rows)[i].name == rows[p].tableName
    ensures forall i, j :: 0 <= i < j < |TableNames(rows)| ==>
              FirstRow(rows, TableNames(rows)[i]) < FirstRow(rows, TableNames(rows)[j])
    decreases |rows|
  {
    var ts := GroupedTables(rows);
    var names := TableNames(rows);
    assert forall i :: 0 <= i < |ts| ==> ts[i].name == names[i];
    forall p | 0 <= p < |rows|
      ensures exists i :: 0 <= i < |ts| && ts[i].name == rows[p].tableName
    {
      var n := rows[p].tableName;
      assert n in names;
      var i :| 0 <= i < |names| && names[i] == n;
      assert ts[i].name == n;
    }
    if rows != [] {
      var init := rows[..|rows| - 1];
      TablesInFirstAppearanceOrder(init);
      var prior := TableNames(init);
      forall n | n in prior
        ensures FirstRow(rows, n) == FirstRow(init, n)
      {
      }
      forall n | n in prior
        ensures FirstRow(init, n) < |init|
      {
      }
    }
  }

  /** Positions of the rows that give table `name` a column, increasing. */
  function ColumnRows(rows: seq<TableRow>, name: string): (ps: seq<nat>)
    ensures forall k :: 0 <= k < |ps| ==> ps[k] < |rows| && rows[ps[k]].tableName == name && HasColumn(rows[ps[k]])
    ensures forall k, l :: 0 <= k < l < |ps| ==> ps[k] < ps[l]
    ensures forall p :: 0 <= p < |rows| && rows[p].tableName == name && HasColumn(rows[p]) ==> p in ps
    decreases |rows|
  {
    if rows == [] then
      []
    else
      var init := rows[..|rows| - 1];
      assert forall q :: 0 <= q < |init| ==> init[q] == rows[q];
      var last := rows[|rows| - 1];
      var prior := ColumnRows(init, name);
      if last.tableName == name && HasColumn(last) then prior + [|rows| - 1] else prior
  }

  /** A table's columns are exactly those of its rows that name a column,
      one column per such row, in the rows' relative order; rows without a
      column name add nothing. */
  lemma {:induction false} ColumnsFollowRows(rows: seq<TableRow>, name: string)
    ensures |ColumnsOf(rows, name)| == |ColumnRows(rows, name)|
    ensures forall k :: 0 <= k < |ColumnRows(rows, name)| ==>
              ColumnsOf(rows, name)[k] == ToColumn(rows[ColumnRows(rows, name)[k]])
    decreases |rows|
  {
    if rows != [] {
      var init := rows[..|rows| - 1];
      ColumnsFollowRows(init, name);
      assert forall q :: 0 <= q < |init| ==> init[q] == rows[q];
    }
  }

  /** The number of rows that name a column. */
  function CountColumnRows(rows: seq<TableRow>): nat
  {
    if rows == [] then 0
    else CountColumnRows(rows[..|rows| - 1]) + (if HasColumn(rows[|rows| - 1]) then 1 else 0)
  }

  /** The number of columns over all tables. */
  function TotalColumns(ts: seq<Table>): nat
  {
    if ts == [] then 0 else TotalColumns(ts[..|ts| - 1]) + |ts[|ts| - 1].columns|
  }

  /** Sum of |ColumnsOf(rows, n)| over the names `ns`. */
  function ColumnsOver(rows: seq<TableRow>, ns: seq<string>): nat
  {
    if ns == [] then 0 else ColumnsOver(rows, ns[..|ns| - 1]) + |ColumnsOf(rows, ns[|ns| - 1])|
  }

  lemma {:induction false} ColumnsOverGrouped(rows: seq<TableRow>, k: nat)
    requires k <= |TableNames(rows)|
    ensures TotalColumns(GroupedTables(rows)[..k]) == ColumnsOver(rows, TableNames(rows)[..k])
  {
    if k > 0 {
      ColumnsOverGrouped(rows, k - 1);
      assert GroupedTables(rows)[..k][..k - 1] == GroupedTables(rows)[..k - 1];
      assert TableNames(rows)[..k][..k - 1] == TableNames(rows)[..k - 1];
    }
  }

  /** Adding a row to the rows raises the column sum over distinct names
      that include its table by one exactly when the row names a column. */
  lemma {:induction false} ColumnsOverStep(rows: seq<TableRow>, row: TableRow, ns: seq<string>)
    requires forall i, j :: 0 <= i < j < |ns| ==> ns[i] != ns[j]
    ensures ColumnsOver(rows + [row], ns)
            == ColumnsOver(rows, ns) + (if row.tableName in ns && HasColumn(row) then 1 else 0)
    decreases |ns|
  {
    if ns != [] {
      var init := ns[..|ns| - 1];
      ColumnsOverStep(rows, row, init);
      assert (rows + [row])[..|rows|] == rows;
      assert row.tableName in ns <==> row.tableName in init || row.tableName == ns[|ns| - 1];
      assert ns[|ns| - 1] !in init;
    }
  }

  lemma ColumnsOverAppendName(rows: seq<TableRow>, ns: seq<string>, n: string)
    requires n !in TableNames(rows)
    ensures ColumnsOver(rows, ns + [n]) == ColumnsOver(rows, ns)
  {
    assert (ns + [n])[..|ns|] == ns;
    ColumnsOfAbsent(rows, n);
  }

  lemma {:induction false} ColumnsOverAll(rows: seq<TableRow>)
    ensures ColumnsOver(rows, TableNames(rows)) == CountColumnRows(rows)
    decreases |rows|
  {
    if rows != [] {
      var init := rows[..|rows| - 1];
      var row := rows[|rows| - 1];
      assert rows == init + [row];
      ColumnsOverAll(init);
      var names := TableNames(init);
      if row.tableName in names {
        ColumnsOverStep(init, row, names);
      } else {
        ColumnsOverAppendName(init, names, row.tableName);
        ColumnsOverStep(init, row, names + [row.tableName]);
      }
    }
  }

  /** Every row that names a column contributes exactly one column to the
      result, and no other row contributes one. */
  lemma EveryColumnRowCounted(rows: seq<TableRow>)
    ensures TotalColumns(GroupedTables(rows)) == CountColumnRows(rows)
  {
    ColumnsOverGrouped(rows, |TableNames(rows)|);
    assert GroupedTables(rows)[..|TableNames(rows)|] == GroupedTables(rows);
    assert TableNames(rows)[..|TableNames(rows)|] == TableNames(rows);
    ColumnsOverAll(rows);
  }

  // ----- relationships -----

  /** The relationships the handler reports: one per foreign-key row, in
      row order, keeping both table names and the constraint name; every
      one is reported as one-to-many. */
  function ShapeRelationships(rows: seq<RelationshipRow>): (rs: seq<Relationship>)
    ensures |rs| == |rows|
    ensures forall k :: 0 <= k < |rows| ==>
              && rs[k].fromTable == rows[k].fromTable
              && rs[k].toTable == rows[k].toTable
              && rs[k].constraintName == rows[k].constraintName
              && rs[k].relationshipType == "one-to-many"
  {
    seq(|rows|, k requires 0 <= k < |rows| =>
      Relationship(rows[k].fromTable, rows[k].toTable, rows[k].constraintName, "one-to-many"))
  }
}
