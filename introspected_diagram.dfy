/** What the diagram serialiser makes of a schema the introspection handler
    reported: how its relationships are drawn and how many lines the
    diagram has. */
module IntrospectedDiagram {
  import opened Schema
  import opened Introspection
  import opened Mermaid

  /** Every relationship the handler reports is drawn with the one-to-many
      glyph, the referenced table first, the referencing table second and
      the constraint name as the label. */
  lemma IntrospectedRelationshipLine(relRows: seq<RelationshipRow>, k: nat)
    requires k < |relRows|
    ensures RelationshipLine(ShapeRelationships(relRows)[k])
            == "    " + relRows[k].toTable + " }o--|| " + relRows[k].fromTable
               + " : \"" + relRows[k].constraintName + "\""
    ensures KindOfGlyph(Glyph(ShapeRelationships(relRows)[k].relationshipType)) == Some("one-to-many")
  {
    GlyphTable("one-to-many");
  }

  /** Each table block takes its columns plus three lines. */
  lemma {:induction false} BlockLinesAreColumnsPlusThree(ts: seq<Table>)
    ensures BlockLineCount(ts) == TotalColumns(ts) + 3 * |ts|
    decreases |ts|
  {
    if ts != [] {
      BlockLinesAreColumnsPlusThree(ts[..|ts| - 1]);
    }
  }

  /** No text of the query rows that reaches the diagram holds a line
      break. */
  predicate SingleLineRows(rows: seq<TableRow>, relRows: seq<RelationshipRow>)
  {
    && (forall p :: 0 <= p < |rows| ==> '\n' !in rows[p].tableName)
    && (forall p :: 0 <= p < |rows| && HasColumn(rows[p]) ==>
          '\n' !in rows[p].columnName.value && '\n' !in rows[p].dataType)
    && (forall k :: 0 <= k < |relRows| ==>
          '\n' !in relRows[k].fromTable && '\n' !in relRows[k].toTable && '\n' !in relRows[k].constraintName)
  }

  /** The grouped tables and shaped relationships keep the rows' texts, so
      they hold no line break when the rows hold none. */
  lemma GroupedSingleLine(rows: seq<TableRow>, relRows: seq<RelationshipRow>)
    requires SingleLineRows(rows, relRows)
    ensures SingleLineNames(GroupedTables(rows), ShapeRelationships(relRows))
  {
    var ts := GroupedTables(rows);
    var names := TableNames(rows);
    forall i | 0 <= i < |ts|
      ensures '\n' !in ts[i].name
    {
      assert ts[i].name == names[i] && names[i] in names;
    }
    forall i, j | 0 <= i < |ts| && 0 <= j < |ts[i].columns|
      ensures '\n' !in ts[i].columns[j].name && '\n' !in ts[i].columns[j].dataType
    {
      ColumnsFollowRows(rows, names[i]);
      var p := ColumnRows(rows, names[i])[j];
      assert ts[i].columns[j] == ToColumn(rows[p]);
    }
  }

  /** For an introspected schema whose names hold no line break, the
      diagram has one line break for the header, one per column row, three
      more per table and one per foreign-key row. */
  lemma IntrospectedDiagramLineCount(rows: seq<TableRow>, relRows: seq<RelationshipRow>)
    requires SingleLineRows(rows, relRows)
    ensures CountNewlines(Diagram(GroupedTables(rows), ShapeRelationships(relRows)))
            == 1 + CountColumnRows(rows) + 3 * |TableNames(rows)| + |relRows|
  {
    GroupedSingleLine(rows, relRows);
    DiagramLineCount(GroupedTables(rows), ShapeRelationships(relRows));
    BlockLinesAreColumnsPlusThree(GroupedTables(rows));
    EveryColumnRowCounted(rows);
  }
}
