# dataplay schema processing, modelled in Dafny

dataplay is a schema playground. This project models its three
deterministic schema-processing pieces and proves what they promise.

- **The Mermaid ER-diagram serialiser** (`generateERDiagram`). It turns
  tables with typed, flagged columns, plus relationships, into `erDiagram`
  text. The method `Mermaid.GenerateERDiagram` grows the text the way the
  source does: table by table, column by column, then relationship by
  relationship. It is proved equal to the reference function
  `Mermaid.Diagram`. Lemmas about that function give:
  - the glyph table;
  - the round trip of the column suffixes;
  - the line layout: header first, table blocks in input order, then
    relationship lines;
  - the exact line count.
- **The introspection result shaping** of the database-introspection
  handler:
  - `Introspection.GroupRows` keeps a map from table name to a growing
    column list, together with the map's insertion order;
  - `Introspection.ShapeRelationships` turns foreign-key rows into
    one-to-many relationships.
  Lemmas prove that tables come out once each, in first-appearance order,
  and that columns follow their rows. `IntrospectedDiagram` connects the two
  halves and counts the lines of the diagram drawn from an introspected
  schema.
- **The transformation shortcut generator** (`generateContextualShortcuts`,
  `getGenericShortcuts`). It suggests example prompts in five categories:
  add, remove and modify columns, create tables, and indexes. The method
  `Shortcuts.GenerateContextualShortcuts` runs the five passes with their
  loops and pushes. It is proved equal to `Shortcuts.ContextualShortcuts`,
  which is built from per-table and per-column rule functions. Lemmas state
  when each prompt is offered, the caps, the category order, the dropping of
  empty categories and the generic fallback.

A prompt is kept as the template it comes from, with the names filled in:
the `Prompts.Prompt` datatype. `Prompts.Render` gives the exact text shown.
A category holds its `Shortcuts.Kind`; `Shortcuts.Title` gives the title it
is shown under. The rules are stated about prompts; the texts shown are
their renderings, in the same order.

Files:
- `schema.dfy`: the shared entities (column, table, relationship).
- `text.dfy`: ASCII lower-casing, substring search and first-occurrence
  removal.
- `mermaid.dfy`, `introspection.dfy`, `prompts.dfy`, `shortcuts.dfy`: the
  three pieces.
- `introspected_diagram.dfy`: facts that span introspection and the
  diagram.

## Model

| member | source | states |
|---|---|---|
| Text.LowerSpec | src/components/TransformationShortcuts.tsx:38 | lower-casing keeps the length, maps each character on its own and leaves no upper-case ASCII letter |
| Text.IncludesSpec | src/components/TransformationShortcuts.tsx:37-48 | the substring test holds exactly when some window of the string equals the needle |
| Text.IndexOf | src/components/TransformationShortcuts.tsx:138 | the first position of a character, or -1 exactly when it is absent; no earlier occurrence |
| Text.RemoveFirst | src/components/TransformationShortcuts.tsx:138 | replacing `_` by nothing removes only the first underscore, one character shorter, everything else kept; a name without one is unchanged |
| Mermaid.Glyph | src/lib/mermaid.ts:29-33 | the glyph is one of the four, and it is many-to-one's exactly when the kind is not one-to-many, one-to-one or many-to-many |
| Mermaid.GlyphTable | src/lib/mermaid.ts:29-33 | the four named kinds map one-to-one onto the four glyphs and read back; any other kind is drawn like many-to-one |
| Mermaid.ColumnSuffixRoundTrip | src/lib/mermaid.ts:11-19 | a column line's suffix reads back as exactly its PK, FK and NOT NULL flags, in that fixed order, with nothing else added |
| Mermaid.ColumnDefinition | src/lib/mermaid.ts:9-19 | the column definition is type, name, then the suffix of each set flag |
| Mermaid.AppendTable | src/lib/mermaid.ts:5-25 | one table's callback appends its opening line, its column lines in order, the closing brace and a blank line |
| Mermaid.AppendRelationship | src/lib/mermaid.ts:28-35 | one relationship's callback appends its line: target table, glyph, source table, quoted constraint name |
| Mermaid.GenerateERDiagram | src/lib/mermaid.ts:1-39 | the grown text equals the header, every table block in order, then every relationship line in order |
| Mermaid.DiagramIsLines | src/lib/mermaid.ts:2-37 | the diagram is its lines, each ended by a line break; there are 1 + sum(columns + 3) + relationships of them, the first being the header |
| Mermaid.EmptyDiagram | src/lib/mermaid.ts:2-38 | no tables and no relationships give exactly the header; every diagram starts with it |
| Mermaid.TableBlockLayout | src/lib/mermaid.ts:5-25 | table i's block, with its column lines in order, sits right after the header and the earlier blocks, and before any relationship line |
| Mermaid.RelationshipLayout | src/lib/mermaid.ts:28-36 | relationship k's line comes after all table blocks, at position k among the relationship lines |
| Mermaid.DiagramLinesSingle | src/lib/mermaid.ts:2-37 | when no name holds a line break, no line of the diagram does |
| Mermaid.DiagramLineCount | src/lib/mermaid.ts:2-37 | when no name holds a line break, the text has exactly 1 + sum(columns + 3) + relationships line breaks |
| Introspection.ToColumn | functions/introspect-database.ts:80-86 | a row's column is nullable exactly when the catalogue says "YES"; name, type and key flags are copied |
| Introspection.TableNames | functions/introspect-database.ts:71-76 | the distinct table names, no repeats, exactly those some row carries |
| Introspection.GroupRows | functions/introspect-database.ts:68-89 | the map-and-insertion-order loop yields one table per distinct name, in first-appearance order, each with the columns its rows give |
| Introspection.TablesInOrder | functions/introspect-database.ts:89 | the map's values are listed in insertion order, each table holding its map entry |
| Introspection.TablesInFirstAppearanceOrder | functions/introspect-database.ts:68-89 | table names are distinct, every row's table is present, and tables come in the order of their first rows |
| Introspection.ColumnsFollowRows | functions/introspect-database.ts:78-86 | a table's columns are exactly its rows that name a column, one each, in row order; rows without a column name add nothing |
| Introspection.EveryColumnRowCounted | functions/introspect-database.ts:68-87 | the columns over all tables number exactly the rows that name a column |
| Introspection.ShapeRelationships | functions/introspect-database.ts:91-96 | one relationship per row, in order, keeping both tables and the constraint name, always one-to-many |
| IntrospectedDiagram.IntrospectedRelationshipLine | functions/introspect-database.ts:91-96 | every introspected relationship is drawn with the one-to-many glyph, the referenced table first |
| IntrospectedDiagram.BlockLinesAreColumnsPlusThree | src/lib/mermaid.ts:5-25 | the table blocks take the total number of columns plus three lines per table |
| IntrospectedDiagram.GroupedSingleLine | functions/introspect-database.ts:68-96 | grouping and shaping keep the rows' texts, so they bring no line break when the rows hold none |
| IntrospectedDiagram.IntrospectedDiagramLineCount | functions/introspect-database.ts:68-96 | the diagram of an introspected schema has 1 + column rows + 3 per table + foreign-key rows line breaks |
| Prompts.RenderAll | src/components/TransformationShortcuts.tsx:51-200 | each example prompt is shown as its template's text, in order |
| Prompts.RenderTag | src/components/TransformationShortcuts.tsx:51-89 | each Add Columns text carries, at characters 6 to 8, a tag that tells its template apart from the other eight |
| Prompts.AddColumnRenderInjective | src/components/TransformationShortcuts.tsx:51-89 | two Add Columns prompts that show the same text are the same prompt, table name included |
| Shortcuts.SuggestionsAreAddColumnPrompts | src/components/TransformationShortcuts.tsx:33-92 | everything the Add Columns checks push for a table is one of the nine Add Columns templates |
| Shortcuts.AddColumnTextShown | src/components/TransformationShortcuts.tsx:33-96 | an Add Columns text appears among the texts of the pass exactly when its prompt was generated, so the rules about prompts hold for the texts shown |
| Shortcuts.TitleInjective | src/components/TransformationShortcuts.tsx:27-184 | the five category titles are pairwise different, so a title names its kind |
| Shortcuts.GenericShortcuts | src/components/TransformationShortcuts.tsx:215-250 | the generic list is Add Columns (4 prompts), Create Tables (4), Indexes & Performance (3) |
| Shortcuts.Take | src/components/TransformationShortcuts.tsx:118 | slicing keeps the first n examples, or all when there are fewer |
| Shortcuts.CommonRules | src/components/TransformationShortcuts.tsx:37-61 | created_at, updated_at, deleted_at and status are offered exactly when no column name mentions them, ignoring case; never deleted_at for audit_log, never status for categories |
| Shortcuts.SpecificRules | src/components/TransformationShortcuts.tsx:63-91 | phone and avatar only for users, description and sku only for products, notes only for orders, each when no column name mentions it |
| Shortcuts.AddColumnMembership | src/components/TransformationShortcuts.tsx:33-92 | a prompt is in the Add Columns pass exactly when it is suggested for some table |
| Shortcuts.PassMembership | src/components/TransformationShortcuts.tsx:106-113 | a prompt is in a column pass exactly when some column of some table contributes it |
| Shortcuts.RemoveExamplesAreNonKeyColumns | src/components/TransformationShortcuts.tsx:106-113 | the remove prompts name exactly the columns that are neither primary nor foreign keys |
| Shortcuts.ModifyColumnRule | src/components/TransformationShortcuts.tsx:132-141 | a non-key column gives a text-type change when it is varchar and a rename when its name has an underscore; a key column gives nothing |
| Shortcuts.ModifyExamplesAreNonKeyColumns | src/components/TransformationShortcuts.tsx:130-143 | the modify prompts are exactly the type changes and renames of the non-key columns |
| Shortcuts.IndexColumnRule | src/components/TransformationShortcuts.tsx:192-202 | a column gives an index prompt when its lower-cased name mentions email, a foreign-key prompt when it is a foreign key, a date prompt when it mentions created_at |
| Shortcuts.IndexExamplesFromColumns | src/components/TransformationShortcuts.tsx:190-203 | the index prompts are exactly those the three column rules give |
| Shortcuts.LowerNamesMembership | src/components/TransformationShortcuts.tsx:160 | a name is among the lower-cased table names exactly when some table's lower-cased name equals it |
| Shortcuts.CreateTableRules | src/components/TransformationShortcuts.tsx:160-176 | each of the five new tables is offered exactly when no existing table has that name, ignoring case |
| Shortcuts.RenameDropsFirstUnderscore | src/components/TransformationShortcuts.tsx:137-140 | a rename prompt's old name has an underscore and its new name is the old one without its first underscore |
| Shortcuts.KeptNonEmpty | src/components/TransformationShortcuts.tsx:115-119 | capping a non-empty pass leaves a non-empty category |
| Shortcuts.CategoryCaps | src/components/TransformationShortcuts.tsx:115-209 | a category keeps the first examples of its pass: up to 4 for Remove Columns, up to 3 for Modify Columns and Indexes, all for the other two |
| Shortcuts.AssembleProperties | src/components/TransformationShortcuts.tsx:94-212 | the categories are those whose pass generated something, in the fixed order, each capped and non-empty; when none did, the generic list |
| Shortcuts.CategoryShownIffGenerated | src/components/TransformationShortcuts.tsx:94-212 | when some pass generated something, a kind's category is shown exactly when its pass generated something |
| Shortcuts.ShortcutsFollowSchema | src/components/TransformationShortcuts.tsx:17-213 | without tables the result is the generic list; there is always a category, and none is empty |
| Shortcuts.CollectRemoveColumnExamples | src/components/TransformationShortcuts.tsx:106-113 | the nested loops push exactly the Remove Columns pass's prompts, in table and column order |
| Shortcuts.ModifyColumnStep | src/components/TransformationShortcuts.tsx:132-141 | one column's step appends exactly that column's modify prompts |
| Shortcuts.CollectModifyColumnExamples | src/components/TransformationShortcuts.tsx:130-143 | the nested loops push exactly the Modify Columns pass's prompts, in order |
| Shortcuts.IndexColumnStep | src/components/TransformationShortcuts.tsx:192-202 | one column's step appends exactly that column's index prompts |
| Shortcuts.CollectIndexExamples | src/components/TransformationShortcuts.tsx:190-203 | the nested loops push exactly the index pass's prompts, in order |
| Shortcuts.PushCommonSuggestions | src/components/TransformationShortcuts.tsx:37-61 | the four checks push exactly the table's common suggestions |
| Shortcuts.PushSpecificSuggestions | src/components/TransformationShortcuts.tsx:63-91 | the name tests push exactly the table's specific suggestions |
| Shortcuts.CollectAddColumnExamples | src/components/TransformationShortcuts.tsx:33-92 | the loop over tables pushes exactly the Add Columns pass's prompts, table by table |
| Shortcuts.CollectCreateTableExamples | src/components/TransformationShortcuts.tsx:160-176 | the five checks push exactly the Create Tables prompts |
| Shortcuts.CollectPasses | src/components/TransformationShortcuts.tsx:33-203 | the five passes produce what the rule functions define, in category order |
| Shortcuts.PushCategory | src/components/TransformationShortcuts.tsx:94-120 | a pass's category, capped, is pushed exactly when it generated something |
| Shortcuts.PushPass | src/components/TransformationShortcuts.tsx:94-210 | pushing the k-th pass extends the categories of the passes before it |
| Shortcuts.PushCategories | src/components/TransformationShortcuts.tsx:94-210 | the pushes leave the non-empty categories, capped, in the fixed order |
| Shortcuts.GenerateContextualShortcuts | src/components/TransformationShortcuts.tsx:17-213 | the generator's result equals the specification: generic without tables, else the pushed categories or the generic list when none was pushed |

## Left out

- Executing SQL: `functions/execute-sql-transformation.ts` hands the text
  to the database driver, and `src/hooks/useDatabase.tsx` waits on timers,
  draws random outcomes, calls a language model, writes connection,
  snapshot and transformation records, and draws a fixed mock schema with
  `generateERDiagram` (line 122); none of it applies SQL to a schema, so
  none of that is modelled beyond the diagram function itself.
- Database access, SQL text, HTTP responses and JSON encoding in the
  introspection handler; only the shaping of the query rows (lines 68-96)
  is modelled. The rows are values of a fixed shape, not the untyped JSON
  rows of the driver.
- `src/hooks/useDatabase.tsx`, `src/components/SampleDataViewer.tsx` and
  the other React components: UI, timers, randomness and calls to a
  language model.
- The icons, colours and JSX of the shortcut component, and the further
  `slice(0, 3)` applied when the categories are rendered (line 283), which
  belongs to the view.
- Text.Lower: `toLowerCase` is modelled for the ASCII letters A-Z only;
  other Unicode case mappings are not modelled.
- Shortcuts.GenerateContextualShortcuts: the source computes each pass and
  pushes its category before starting the next pass; the model runs the
  five passes first (`CollectPasses`) and pushes afterwards. The passes
  only read the tables, so the result is the same.
- Shortcuts.GenerateContextualShortcuts: the examples arrays and the
  category objects the source mutates are modelled as sequence values, so
  aliasing between them is not captured. The Add Columns and Create Tables
  objects are pushed by reference (lines 95 and 179); nothing mutates them
  afterwards, so the sharing cannot be observed.
- Mermaid.GenerateERDiagram and Shortcuts.GenerateContextualShortcuts: the
  source takes untyped (`any`) arguments; the model assumes well-typed
  inputs. Missing fields are not modelled: the diagram would print
  `undefined` for a missing name and treat a missing nullability flag as
  NOT NULL, a missing `columns` list or (in the generator) a missing name
  throws, and an undefined key flag counts as false.
- Shortcuts.GenerateContextualShortcuts: "no tables" covers both a missing
  schema and a schema without a `tables` field, as the optional argument
  `None`; an empty table list is `Some([])`, which is truthy in the source
  and runs the passes.
- Prompts.RenderAll: titles and prompts are kept as templates and
  `Render` gives their exact texts; injectivity of `Render` is proved for
  the Add Columns prompts only, where the rules are stated about texts.
