/** The Mermaid `erDiagram` serialiser: tables with their typed, flagged
    columns and the relationships between them become diagram text. */
module Mermaid {
  import opened Schema

  const Header: string := "erDiagram\n"

  const ManyToOneGlyph: string := "||--o{"
  const OneToManyGlyph: string := "}o--||"
  const OneToOneGlyph: string := "||--||"
  const ManyToManyGlyph: string := "}o--o{"

  /** The four relationship kinds the serialiser knows by name. */
  const KnownKinds: seq<string> := ["many-to-one", "one-to-many", "one-to-one", "many-to-many"]

  /** The cardinality glyph drawn for a relationship kind. The mapping is
      total: a kind that is not one of the four named ones is drawn like
      many-to-one. */
  function Glyph(kind: string): (g: string)
    ensures g in {ManyToOneGlyph, OneToManyGlyph, OneToOneGlyph, ManyToManyGlyph}
    ensures g == ManyToOneGlyph <==> kind !in {"one-to-many", "one-to-one", "many-to-many"}
  {
    if kind == "many-to-one" then ManyToOneGlyph
    else if kind == "one-to-many" then OneToManyGlyph
    else if kind == "one-to-one" then OneToOneGlyph
    else if kind == "many-to-many" then ManyToManyGlyph
    else ManyToOneGlyph
  }

  /** Reads a glyph back as the named kind it stands for. */
  function KindOfGlyph(g: string): Option<string>
  {
    if g == ManyToOneGlyph then Some("many-to-one")
    else if g == OneToManyGlyph then Some("one-to-many")
    else if g == OneToOneGlyph then Some("one-to-one")
    else if g == ManyToManyGlyph then Some("many-to-many")
    else None
  }

  /** The glyph table is a bijection between the four named kinds and the
      four glyphs, and every other kind shares many-to-one's glyph. */
  lemma GlyphTable(kind: string)
    ensures kind in KnownKinds ==> KindOfGlyph(Glyph(kind)) == Some(kind)
    ensures kind !in KnownKinds ==> Glyph(kind) == Glyph("many-to-one")
    ensures KindOfGlyph(Glyph(kind)).Some?
  {
  }

  // ----- one column line -----

  /** The suffixes after a column's type and name, always in the order
      PK, FK, NOT NULL. */
  function ColumnSuffix(c: Column): string
  {
    (if c.isPrimaryKey then " PK" else "")
    + (if c.isForeignKey then " FK" else "")
    + (if !c.isNullable then " \"NOT NULL\"" else "")
  }

  /** The three flags a column line can carry. */
  datatype Flags = Flags(primaryKey: bool, foreignKey: bool, notNull: bool)

  /** Strips `p` from the front of `s` when it is there. */
  function StripPrefix(s: string, p: string): (bool, string)
  {
    if |p| <= |s| && s[..|p|] == p then (true, s[|p|..]) else (false, s)
  }

  /** Reads a column-line suffix back into its flags; any other text, or
      the suffixes in another order, is rejected. */
  function ParseSuffix(s: string): Option<Flags>
  {
    var (pk, s1) := StripPrefix(s, " PK");
    var (fk, s2) := StripPrefix(s1, " FK");
    var (nn, s3) := StripPrefix(s2, " \"NOT NULL\"");
    if s3 == "" then Some(Flags(pk, fk, nn)) else None
  }

  lemma StripPresent(p: string, rest: string)
    ensures StripPrefix(p + rest, p) == (true, rest)
  {
    assert (p + rest)[..|p|] == p;
    assert (p + rest)[|p|..] == rest;
  }

  lemma StripAbsent(s: string, p: string)
    requires |p| >= 2
    requires s == [] || (|s| >= 2 && s[1] != p[1])
    ensures StripPrefix(s, p) == (false, s)
  {
    if |p| <= |s| {
      assert s[..|p|][1] != p[1];
    }
  }

  /** A column's suffix carries exactly its primary-key, foreign-key and
      not-null flags: reading it back gives them all, so no flag is dropped
      or invented and the order is fixed. */
  lemma ColumnSuffixRoundTrip(c: Column)
    ensures ParseSuffix(ColumnSuffix(c)) == Some(Flags(c.isPrimaryKey, c.isForeignKey, !c.isNullable))
  {
    var nnPart := if !c.isNullable then " \"NOT NULL\"" else "";
    var s1 := (if c.isForeignKey then " FK" else "") + nnPart;
    var s := (if c.isPrimaryKey then " PK" else "") + s1;
    assert ColumnSuffix(c) == s;
    if c.isPrimaryKey {
      StripPresent(" PK", s1);
    } else {
      assert s == s1;
      StripAbsent(s, " PK");
    }
    if c.isForeignKey {
      StripPresent(" FK", nnPart);
    } else {
      assert s1 == nnPart;
      StripAbsent(s1, " FK");
    }
    if !c.isNullable {
      StripPresent(" \"NOT NULL\"", "");
      assert nnPart + "" == nnPart;
    } else {
      StripAbsent(nnPart, " \"NOT NULL\"");
    }
  }

  /** `        <data_type> <name><suffixes>`, without its line break. */
  function ColumnLine(c: Column): string
  {
    "        " + c.dataType + " " + c.name + ColumnSuffix(c)
  }

  /** `    <to_table> <glyph> <from_table> : "<constraint_name>"`, without
      its line break: the target table comes first. */
  function RelationshipLine(r: Relationship): string
  {
    "    " + r.toTable + " " + Glyph(r.relationshipType) + " " + r.fromTable + " : \"" + r.constraintName + "\""
  }

  // ----- the diagram text, built in the order the serialiser emits it -----

  function ColumnsText(cs: seq<Column>): string
  {
    if cs == [] then "" else ColumnsText(cs[..|cs| - 1]) + ColumnLine(cs[|cs| - 1]) + "\n"
  }

  function TableBlock(t: Table): string
  {
    "    " + t.name + " {\n" + ColumnsText(t.columns) + "    }\n\n"
  }

  function TablesText(ts: seq<Table>): string
  {
    if ts == [] then "" else TablesText(ts[..|ts| - 1]) + TableBlock(ts[|ts| - 1])
  }

  function RelationshipsText(rs: seq<Relationship>): string
  {
    if rs == [] then "" else RelationshipsText(rs[..|rs| - 1]) + RelationshipLine(rs[|rs| - 1]) + "\n"
  }

  /** The whole diagram: header, then every table block, then every
      relationship line. */
  function Diagram(ts: seq<Table>, rs: seq<Relationship>): string
  {
    Header + TablesText(ts) + RelationshipsText(rs)
  }

  lemma ColumnsTextStep(cs: seq<Column>, j: nat)
    requires j < |cs|
    ensures ColumnsText(cs[..j + 1]) == ColumnsText(cs[..j]) + ColumnLine(cs[j]) + "\n"
  {
    assert cs[..j + 1][..j] == cs[..j];
  }

  lemma TablesTextStep(ts: seq<Table>, i: nat)
    requires i < |ts|
    ensures TablesText(ts[..i + 1]) == TablesText(ts[..i]) + TableBlock(ts[i])
  {
    assert ts[..i + 1][..i] == ts[..i];
  }

  lemma RelationshipsTextStep(rs: seq<Relationship>, k: nat)
    requires k < |rs|
    ensures RelationshipsText(rs[..k + 1]) == RelationshipsText(rs[..k]) + RelationshipLine(rs[k]) + "\n"
  {
    assert rs[..k + 1][..k] == rs[..k];
  }

  lemma Assoc(a: string, b: string, c: string)
    ensures a + b + c == a + (b + c)
  {
  }

  lemma Regroup(a: string, b: string, c: string, d: string)
    ensures a + b + c + d == a + (b + c + d)
  {
  }

  /** Builds one column's line the way the serialiser does: type and name,
      then each suffix whose flag is set. */
  method ColumnDefinition(column: Column) returns (columnDef: string)
    ensures columnDef == ColumnLine(column)
  {
    columnDef := "        " + column.dataType + " " + column.name;
    if column.isPrimaryKey {
      columnDef := columnDef + " PK";
    }
    if column.isForeignKey {
      columnDef := columnDef + " FK";
    }
    if !column.isNullable {
      columnDef := columnDef + " \"NOT NULL\"";
    }
  }

  /** One table's callback: the opening line, one line per column, the
      closing brace and a blank line. */
  method AppendTable(diagram: string, table: Table) returns (extended: string)
    ensures extended == diagram + TableBlock(table)
  {
    var opening := "    " + table.name + " {\n";
    extended := diagram + opening;
    for j := 0 to |table.columns|
      invariant extended == diagram + opening + ColumnsText(table.columns[..j])
    {
      var columnDef := ColumnDefinition(table.columns[j]);
      ColumnsTextStep(table.columns, j);
      Regroup(diagram + opening, ColumnsText(table.columns[..j]), columnDef, "\n");
      extended := extended + columnDef + "\n";
    }
    assert table.columns[..|table.columns|] == table.columns;
    Regroup(diagram, opening, ColumnsText(table.columns), "    }\n\n");
    extended := extended + "    }\n\n";
  }

  /** One relationship's callback: its line and a line break. */
  method AppendRelationship(diagram: string, rel: Relationship) returns (extended: string)
    ensures extended == diagram + RelationshipLine(rel) + "\n"
  {
    var relationshipType := Glyph(rel.relationshipType);
    extended := diagram + ("    " + rel.toTable + " " + relationshipType + " " + rel.fromTable
                           + " : \"" + rel.constraintName + "\"\n");
  }

  /** `generateERDiagram`: grows the diagram text table by table, column by
      column and relationship by relationship. */
  method GenerateERDiagram(tables: seq<Table>, relationships: seq<Relationship>) returns (diagram: string)
    ensures diagram == Diagram(tables, relationships)
  {
    diagram := Header;
    for i := 0 to |tables|
      invariant diagram == Header + TablesText(tables[..i])
    {
      diagram := AppendTable(diagram, tables[i]);
      TablesTextStep(tables, i);
      Assoc(Header, TablesText(tables[..i]), TableBlock(tables[i]));
    }
    assert tables[..|tables|] == tables;
    ghost var prefix := diagram;
    for k := 0 to |relationships|
      invariant diagram == prefix + RelationshipsText(relationships[..k])
    {
      diagram := AppendRelationship(diagram, relationships[k]);
      RelationshipsTextStep(relationships, k);
      Regroup(prefix, RelationshipsText(relationships[..k]), RelationshipLine(relationships[k]), "\n");
    }
    assert relationships[..|relationships|] == relationships;
  }

  // ----- the same diagram seen as a list of lines -----

  /** Joins lines, each followed by a line break. */
  function Unlines(ls: seq<string>): string
  {
    if ls == [] then "" else Unlines(ls[..|ls| - 1]) + ls[|ls| - 1] + "\n"
  }

  function ColumnLines(cs: seq<Column>): (ls: seq<string>)
    ensures |ls| == |cs|
  {
    seq(|cs|, i requires 0 <= i < |cs| => ColumnLine(cs[i]))
  }

  /** A table's block: its opening line, one line per column, the closing
      brace and an empty separator line. */
  function TableLines(t: Table): seq<string>
  {
    ["    " + t.name + " {"] + ColumnLines(t.columns) + ["    }", ""]
  }

  function TablesLines(ts: seq<Table>): seq<string>
  {
    if ts == [] then [] else TablesLines(ts[..|ts| - 1]) + TableLines(ts[|ts| - 1])
  }

  function RelationshipLines(rs: seq<Relationship>): (ls: seq<string>)
    ensures |ls| == |rs|
  {
    seq(|rs|, i requires 0 <= i < |rs| => RelationshipLine(rs[i]))
  }

  function DiagramLines(ts: seq<Table>, rs: seq<Relationship>): seq<string>
  {
    ["erDiagram"] + TablesLines(ts) + RelationshipLines(rs)
  }

  /** Lines taken by the table blocks: each table takes its columns plus three. */
  function BlockLineCount(ts: seq<Table>): nat
  {
    if ts == [] then 0 else BlockLineCount(ts[..|ts| - 1]) + |ts[|ts| - 1].columns| + 3
  }

  lemma {:induction false} UnlinesAppend(a: seq<string>, b: seq<string>)
    ensures Unlines(a + b) == Unlines(a) + Unlines(b)
    decreases |b|
  {
    if b == [] {
      assert a + b == a;
    } else {
      var b' := b[..|b| - 1];
      assert (a + b)[..|a + b| - 1] == a + b';
      UnlinesAppend(a, b');
    }
  }

  lemma {:induction false} ColumnsTextLines(cs: seq<Column>)
    ensures ColumnsText(cs) == Unlines(ColumnLines(cs))
    decreases |cs|
  {
    if cs != [] {
      var init := cs[..|cs| - 1];
      ColumnsTextLines(init);
      assert ColumnLines(cs)[..|cs| - 1] == ColumnLines(init);
    }
  }

  lemma {:induction false} RelationshipsTextLines(rs: seq<Relationship>)
    ensures RelationshipsText(rs) == Unlines(RelationshipLines(rs))
    decreases |rs|
  {
    if rs != [] {
      var init := rs[..|rs| - 1];
      RelationshipsTextLines(init);
      assert RelationshipLines(rs)[..|rs| - 1] == RelationshipLines(init);
    }
  }

  lemma TableBlockLines(t: Table)
    ensures TableBlock(t) == Unlines(TableLines(t))
  {
    var open := ["    " + t.name + " {"];
    var cols := ColumnLines(t.columns);
    var close := ["    }", ""];
    UnlinesAppend(open + cols, close);
    UnlinesAppend(open, cols);
    ColumnsTextLines(t.columns);
    assert Unlines(close) == "    }\n\n" by {
      assert close[..1] == ["    }"];
      assert Unlines(["    }"]) == "    }\n" by {
        assert ["    }"][..0] == [];
      }
    }
    assert Unlines(open) == "    " + t.name + " {\n" by {
      assert open[..0] == [];
    }
  }

  lemma {:induction false} TablesLinesCount(ts: seq<Table>)
    ensures |TablesLines(ts)| == BlockLineCount(ts)
    decreases |ts|
  {
    if ts != [] {
      TablesLinesCount(ts[..|ts| - 1]);
    }
  }

  lemma {:induction false} TablesTextLines(ts: seq<Table>)
    ensures TablesText(ts) == Unlines(TablesLines(ts))
    decreases |ts|
  {
    if ts != [] {
      var init := ts[..|ts| - 1];
      TablesTextLines(init);
      UnlinesAppend(TablesLines(init), TableLines(ts[|ts| - 1]));
      TableBlockLines(ts[|ts| - 1]);
    }
  }

  /** The diagram text is exactly its lines, each ended by a line break;
      there are 1 + sum(columns + 3) + |relationships| of them; the first
      is the header. */
  lemma DiagramIsLines(ts: seq<Table>, rs: seq<Relationship>)
    ensures Diagram(ts, rs) == Unlines(DiagramLines(ts, rs))
    ensures |DiagramLines(ts, rs)| == 1 + BlockLineCount(ts) + |rs|
    ensures DiagramLines(ts, rs)[0] == "erDiagram"
  {
    TablesTextLines(ts);
    TablesLinesCount(ts);
    RelationshipsTextLines(rs);
    UnlinesAppend(["erDiagram"] + TablesLines(ts), RelationshipLines(rs));
    UnlinesAppend(["erDiagram"], TablesLines(ts));
    assert Unlines(["erDiagram"]) == Header by {
      assert ["erDiagram"][..0] == [];
    }
  }

  /** No tables and no relationships give the header alone; any diagram
      starts with it. */
  lemma EmptyDiagram(ts: seq<Table>, rs: seq<Relationship>)
    ensures Diagram([], []) == "erDiagram\n"
    ensures |Diagram(ts, rs)| >= |Header| && Diagram(ts, rs)[..|Header|] == "erDiagram\n"
  {
  }

  lemma {:induction false} TablesLinesPrefix(ts: seq<Table>, n: nat)
    requires n <= |ts|
    ensures TablesLines(ts[..n]) <= TablesLines(ts)
    decreases |ts|
  {
    if n < |ts| {
      var init := ts[..|ts| - 1];
      assert ts[..n] == init[..n];
      TablesLinesPrefix(init, n);
    } else {
      assert ts[..n] == ts;
    }
  }

  lemma {:induction false} TableBlockInLines(ts: seq<Table>, i: nat)
    requires i < |ts|
    ensures |TableLines(ts[i])| == |ts[i].columns| + 3
    ensures BlockLineCount(ts[..i]) + |TableLines(ts[i])| <= |TablesLines(ts)|
    ensures TablesLines(ts)[BlockLineCount(ts[..i])..BlockLineCount(ts[..i]) + |TableLines(ts[i])|] == TableLines(ts[i])
  {
    TablesLinesPrefix(ts, i + 1);
    TablesLinesCount(ts[..i]);
    assert ts[..i + 1][..i] == ts[..i];
    var pre := TablesLines(ts[..i]);
    var block := TableLines(ts[i]);
    var upto := TablesLines(ts[..i + 1]);
    assert upto == pre + block;
    var all := TablesLines(ts);
    assert all[..|upto|] == upto;
    assert all[|pre|..|pre| + |block|] == upto[|pre|..] == block;
  }

  /** Table `i`'s block sits, whole and in input order, right after the
      header and the blocks of the tables before it, and ends before the
      first relationship line. */
  lemma TableBlockLayout(ts: seq<Table>, rs: seq<Relationship>, i: nat)
    requires i < |ts|
    ensures |DiagramLines(ts, rs)| == 1 + BlockLineCount(ts) + |rs|
    ensures BlockLineCount(ts[..i]) + |ts[i].columns| + 3 <= BlockLineCount(ts)
    ensures var start := 1 + BlockLineCount(ts[..i]);
            DiagramLines(ts, rs)[start..start + |ts[i].columns| + 3] == TableLines(ts[i])
  {
    TablesLinesCount(ts);
    TableBlockInLines(ts, i);
    var tl := TablesLines(ts);
    var lines := ["erDiagram"] + tl + RelationshipLines(rs);
    var start := BlockLineCount(ts[..i]);
    var end := start + |ts[i].columns| + 3;
    assert lines[1..1 + |tl|] == tl;
    assert lines[1 + start..1 + end] == lines[1..1 + |tl|][start..end];
  }

  /** Every relationship line comes after all table blocks, one line per
      relationship, in input order. */
  lemma RelationshipLayout(ts: seq<Table>, rs: seq<Relationship>, k: nat)
    requires k < |rs|
    ensures |DiagramLines(ts, rs)| == 1 + BlockLineCount(ts) + |rs|
    ensures DiagramLines(ts, rs)[1 + BlockLineCount(ts) + k] == RelationshipLine(rs[k])
  {
    TablesLinesCount(ts);
  }

  // ----- counting line breaks -----

  function CountNewlines(s: string): nat
  {
    if s == [] then 0 else CountNewlines(s[..|s| - 1]) + (if s[|s| - 1] == '\n' then 1 else 0)
  }

  lemma {:induction false} CountNewlinesAppend(a: string, b: string)
    ensures CountNewlines(a + b) == CountNewlines(a) + CountNewlines(b)
    decreases |b|
  {
    if b == [] {
      assert a + b == a;
    } else {
      assert (a + b)[..|a + b| - 1] == a + b[..|b| - 1];
      CountNewlinesAppend(a, b[..|b| - 1]);
    }
  }

  lemma {:induction false} NoNewlineCount(s: string)
    requires '\n' !in s
    ensures CountNewlines(s) == 0
    decreases |s|
  {
    if s != [] {
      NoNewlineCount(s[..|s| - 1]);
    }
  }

  /** Joined lines that hold no line break of their own contain exactly one
      line break per line. */
  lemma {:induction false} UnlinesCount(ls: seq<string>)
    requires forall i :: 0 <= i < |ls| ==> '\n' !in ls[i]
    ensures CountNewlines(Unlines(ls)) == |ls|
    decreases |ls|
  {
    if ls != [] {
      var init := ls[..|ls| - 1];
      UnlinesCount(init);
      NoNewlineCount(ls[|ls| - 1]);
      CountNewlinesAppend(Unlines(init), ls[|ls| - 1]);
      CountNewlinesAppend(Unlines(init) + ls[|ls| - 1], "\n");
      assert CountNewlines("\n") == 1 by {
        assert "\n"[..0] == [];
      }
    }
  }

  /** No table name, column name, column type, table reference or
      constraint name holds a line break. */
  predicate SingleLineNames(ts: seq<Table>, rs: seq<Relationship>)
  {
    && (forall i :: 0 <= i < |ts| ==> '\n' !in ts[i].name)
    && (forall i, j :: 0 <= i < |ts| && 0 <= j < |ts[i].columns| ==>
          '\n' !in ts[i].columns[j].name && '\n' !in ts[i].columns[j].dataType)
    && (forall k :: 0 <= k < |rs| ==>
          '\n' !in rs[k].fromTable && '\n' !in rs[k].toTable && '\n' !in rs[k].constraintName)
  }

  lemma {:induction false} TablesLinesSingle(ts: seq<Table>)
    requires SingleLineNames(ts, [])
    ensures forall m :: 0 <= m < |TablesLines(ts)| ==> '\n' !in TablesLines(ts)[m]
    decreases |ts|
  {
    if ts != [] {
      var init := ts[..|ts| - 1];
      var t := ts[|ts| - 1];
      TablesLinesSingle(init);
      var block := TableLines(t);
      forall m | 0 <= m < |block|
        ensures '\n' !in block[m]
      {
        if 1 <= m <= |t.columns| {
          var c := t.columns[m - 1];
          assert block[m] == ColumnLine(c);
          assert '\n' !in ColumnSuffix(c);
        }
      }
    }
  }

  lemma DiagramLinesSingle(ts: seq<Table>, rs: seq<Relationship>)
    requires SingleLineNames(ts, rs)
    ensures forall m :: 0 <= m < |DiagramLines(ts, rs)| ==> '\n' !in DiagramLines(ts, rs)[m]
  {
    TablesLinesSingle(ts);
    var tl := TablesLines(ts);
    var rl := RelationshipLines(rs);
    var lines := ["erDiagram"] + tl + rl;
    forall m | 0 <= m < |lines|
      ensures '\n' !in lines[m]
    {
      if 1 <= m <= |tl| {
        assert lines[m] == tl[m - 1];
      } else if m > |tl| {
        var r := rs[m - 1 - |tl|];
        assert lines[m] == RelationshipLine(r);
        assert '\n' !in Glyph(r.relationshipType);
      }
    }
  }

  /** When no name holds a line break, the diagram has exactly
      1 + sum(columns + 3) + |relationships| line breaks: the header, each
      table's opening, column, closing and blank lines, and one line per
      relationship. */
  lemma DiagramLineCount(ts: seq<Table>, rs: seq<Relationship>)
    requires SingleLineNames(ts, rs)
    ensures CountNewlines(Diagram(ts, rs)) == 1 + BlockLineCount(ts) + |rs|
  {
    DiagramIsLines(ts, rs);
    DiagramLinesSingle(ts, rs);
    UnlinesCount(DiagramLines(ts, rs));
  }
}
