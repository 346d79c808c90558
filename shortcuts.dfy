/** The transformation shortcut generator: from the current schema it
    derives ordered categories of example prompts (add, remove and modify
    columns, create tables, add indexes), falling back to a fixed generic
    list. */
module Shortcuts {
  import opened Schema
  import opened Text
  import opened Prompts

  /** A suggestion category: its kind, shown as `Title(kind)`, and its
      example prompts, shown as `RenderAll(examples)`. */
  datatype Category = Category(kind: Kind, examples: seq<Prompt>)

  /** The five kinds of suggestion, one per pass of the generator. */
  datatype Kind = AddColumns | RemoveColumns | ModifyColumns | CreateTables | IndexesAndPerformance

  /** The title a category of each kind is shown under. */
  function Title(kind: Kind): string
  {
    match kind
    case AddColumns => "Add Columns"
    case RemoveColumns => "Remove Columns"
    case ModifyColumns => "Modify Columns"
    case CreateTables => "Create Tables"
    case IndexesAndPerformance => "Indexes & Performance"
  }

  /** Different kinds are shown under different titles, so a title names
      its category's kind. */
  lemma TitleInjective(a: Kind, b: Kind)
    requires Title(a) == Title(b)
    ensures a == b
  {
    match a
    case AddColumns => assert Title(a)[0] == 'A';
    case RemoveColumns => assert Title(a)[0] == 'R';
    case ModifyColumns => assert Title(a)[0] == 'M';
    case CreateTables => assert Title(a)[0] == 'C';
    case IndexesAndPerformance => assert Title(a)[0] == 'I';
  }

  /** The order in which categories are emitted. */
  const CategoryOrder: seq<Kind> := [AddColumns, RemoveColumns, ModifyColumns, CreateTables, IndexesAndPerformance]

  /** `getGenericShortcuts`: the fixed list shown when the schema gives
      nothing to go on. */
  function GenericShortcuts(): (cs: seq<Category>)
    ensures |cs| == 3
    ensures cs[0].kind == AddColumns && cs[1].kind == CreateTables && cs[2].kind == IndexesAndPerformance
    ensures |cs[0].examples| == 4 && |cs[1].examples| == 4 && |cs[2].examples| == 3
  {
    [
      Category(AddColumns, [AddPhoneNumber, GenericDescription, AddCreatedAt("orders"), GenericIsActive]),
      Category(CreateTables, [CreateCategories, GenericOrderItems, GenericUserProfiles, GenericAuditLog]),
      Category(IndexesAndPerformance, [IndexColumn("email", "users"), GenericCategoryIndex, GenericCompositeIndex])
    ]
  }

  /** `examples.slice(0, n)`: the first `n` examples, or all of them. */
  function Take(s: seq<Prompt>, n: nat): (r: seq<Prompt>)
    ensures |r| == if |s| < n then |s| else n
    ensures r == s[..|r|]
  {
    if |s| <= n then s else s[..n]
  }

  /** The one-prompt list `[p]` when `c` holds, nothing otherwise: one
      conditional push. */
  function When(c: bool, p: Prompt): (r: seq<Prompt>)
    ensures p in r <==> c
    ensures |r| <= 1
  {
    if c then [p] else []
  }

  lemma ConcatRegroup(a: seq<Prompt>, b: seq<Prompt>, c: seq<Prompt>)
    ensures a + b + c == a + (b + c)
  {
  }

  lemma Regroup(a: seq<Prompt>, b: seq<Prompt>, c: seq<Prompt>, d: seq<Prompt>, e: seq<Prompt>)
    ensures a + b + c + d + e == a + (b + c + d + e)
  {
  }

  /** The parts joined in order: what a loop that pushes each part in turn
      leaves behind. */
  function Flatten(parts: seq<seq<Prompt>>): seq<Prompt>
  {
    if parts == [] then [] else Flatten(parts[..|parts| - 1]) + parts[|parts| - 1]
  }

  lemma FlattenStep(parts: seq<seq<Prompt>>, n: nat)
    requires n < |parts|
    ensures Flatten(parts[..n + 1]) == Flatten(parts[..n]) + parts[n]
  {
    assert parts[..n + 1][..n] == parts[..n];
  }

  /** A prompt is in the joined parts exactly when some part holds it. */
  lemma {:induction false} FlattenMembership(parts: seq<seq<Prompt>>, x: Prompt)
    ensures x in Flatten(parts) <==> exists k :: 0 <= k < |parts| && x in parts[k]
    decreases |parts|
  {
    if parts != [] {
      var n := |parts| - 1;
      var init := parts[..n];
      FlattenMembership(init, x);
      assert Flatten(parts) == Flatten(init) + parts[n];
      if x in Flatten(init) {
        var k :| 0 <= k < n && x in init[k];
        assert init[k] == parts[k];
      }
      if exists k :: 0 <= k < n && x in parts[k] {
        var k :| 0 <= k < n && x in parts[k];
        assert init[k] == parts[k];
      }
    }
  }

  // ----- Add Columns: suggestions per table -----

  /** Some column's lower-cased name includes `needle`. */
  predicate AnyColumnIncludes(t: Table, needle: string)
  {
    exists j :: 0 <= j < |t.columns| && Includes(Lower(t.columns[j].name), needle)
  }

  /** Some column's lower-cased name mentions "created" or "timestamp". */
  predicate HasCreatedAt(t: Table)
  {
    exists j :: 0 <= j < |t.columns| &&
      (Includes(Lower(t.columns[j].name), "created") || Includes(Lower(t.columns[j].name), "timestamp"))
  }

  /** The four columns any table may lack, in the generator's order. */
  function CommonSuggestions(t: Table): seq<Prompt>
  {
    var name := t.name;
    When(!HasCreatedAt(t), AddCreatedAt(name))
    + When(!AnyColumnIncludes(t, "updated"), AddUpdatedAt(name))
    + When(!AnyColumnIncludes(t, "deleted") && name != "audit_log", AddDeletedAt(name))
    + When(!AnyColumnIncludes(t, "status") && name != "categories", AddStatus(name))
  }

  /** The columns suggested only for `users`, `products` and `orders`. */
  function SpecificSuggestions(t: Table): seq<Prompt>
  {
    var name := t.name;
    When(name == "users" && !AnyColumnIncludes(t, "phone"), AddPhoneNumber)
    + When(name == "users" && !AnyColumnIncludes(t, "avatar"), AddAvatarUrl)
    + When(name == "products" && !AnyColumnIncludes(t, "description"), AddDescription)
    + When(name == "products" && !AnyColumnIncludes(t, "sku"), AddSku)
    + When(name == "orders" && !AnyColumnIncludes(t, "notes"), AddNotes)
  }

  /** The columns one table is suggested to gain. */
  function AddColumnSuggestions(t: Table): seq<Prompt>
  {
    CommonSuggestions(t) + SpecificSuggestions(t)
  }

  /** The suggestions of each table, in table order. */
  function AddColumnParts(ts: seq<Table>): (parts: seq<seq<Prompt>>)
    ensures |parts| == |ts|
    ensures forall i :: 0 <= i < |ts| ==> parts[i] == AddColumnSuggestions(ts[i])
  {
    seq(|ts|, i requires 0 <= i < |ts| => AddColumnSuggestions(ts[i]))
  }

  /** Everything the Add Columns pass generates, table by table. */
  function AddColumnExamples(ts: seq<Table>): seq<Prompt>
  {
    Flatten(AddColumnParts(ts))
  }

  /** The common add-column suggestions for one table: each is offered
      exactly when no column name mentions it (ignoring case), except that
      `audit_log` is never offered `deleted_at` and `categories` never
      `status`. */
  lemma CommonRules(t: Table)
    ensures AddCreatedAt(t.name) in CommonSuggestions(t) <==> !HasCreatedAt(t)
    ensures AddUpdatedAt(t.name) in CommonSuggestions(t) <==> !AnyColumnIncludes(t, "updated")
    ensures AddDeletedAt(t.name) in CommonSuggestions(t)
            <==> !AnyColumnIncludes(t, "deleted") && t.name != "audit_log"
    ensures AddStatus(t.name) in CommonSuggestions(t)
            <==> !AnyColumnIncludes(t, "status") && t.name != "categories"
    ensures |CommonSuggestions(t)| <= 4
  {
  }

  /** The table-specific suggestions: each is offered exactly to its table,
      when no column name mentions it (ignoring case). */
  lemma SpecificRules(t: Table)
    ensures AddPhoneNumber in SpecificSuggestions(t) <==> t.name == "users" && !AnyColumnIncludes(t, "phone")
    ensures AddAvatarUrl in SpecificSuggestions(t) <==> t.name == "users" && !AnyColumnIncludes(t, "avatar")
    ensures AddDescription in SpecificSuggestions(t)
            <==> t.name == "products" && !AnyColumnIncludes(t, "description")
    ensures AddSku in SpecificSuggestions(t) <==> t.name == "products" && !AnyColumnIncludes(t, "sku")
    ensures AddNotes in SpecificSuggestions(t) <==> t.name == "orders" && !AnyColumnIncludes(t, "notes")
    ensures |SpecificSuggestions(t)| <= 2
  {
  }

  /** A prompt is generated by the Add Columns pass exactly when it is
      suggested for some table. */
  lemma AddColumnMembership(ts: seq<Table>, p: Prompt)
    ensures p in AddColumnExamples(ts) <==> exists i :: 0 <= i < |ts| && p in AddColumnSuggestions(ts[i])
  {
    FlattenMembership(AddColumnParts(ts), p);
  }

  /** A prompt in `When(c, p)` is `p`. */
  lemma WhenOnly(c: bool, p: Prompt, x: Prompt)
    requires x in When(c, p)
    ensures x == p
  {
  }

  /** A prompt in a run of conditional pushes is one of the pushed
      prompts. */
  lemma InWhens(cs: seq<bool>, ps: seq<Prompt>, x: Prompt)
    requires |cs| == |ps| == 5
    requires x in When(cs[0], ps[0]) + When(cs[1], ps[1]) + When(cs[2], ps[2]) + When(cs[3], ps[3]) + When(cs[4], ps[4])
    ensures x in ps
  {
    if x in When(cs[0], ps[0]) { WhenOnly(cs[0], ps[0], x); }
    else if x in When(cs[1], ps[1]) { WhenOnly(cs[1], ps[1], x); }
    else if x in When(cs[2], ps[2]) { WhenOnly(cs[2], ps[2], x); }
    else if x in When(cs[3], ps[3]) { WhenOnly(cs[3], ps[3], x); }
    else { WhenOnly(cs[4], ps[4], x); }
  }

  /** The common checks push only the four table-naming templates. */
  lemma CommonAreAddColumnPrompts(t: Table, x: Prompt)
    requires x in CommonSuggestions(t)
    ensures x.AddCreatedAt? || x.AddUpdatedAt? || x.AddDeletedAt? || x.AddStatus?
  {
    var name := t.name;
    var cs := [!HasCreatedAt(t), !AnyColumnIncludes(t, "updated"),
               !AnyColumnIncludes(t, "deleted") && name != "audit_log",
               !AnyColumnIncludes(t, "status") && name != "categories", false];
    var ps := [AddCreatedAt(name), AddUpdatedAt(name), AddDeletedAt(name), AddStatus(name), AddNotes];
    assert CommonSuggestions(t) + When(cs[4], ps[4]) == CommonSuggestions(t);
    InWhens(cs, ps, x);
  }

  /** The name tests push only the five fixed-table templates. */
  lemma SpecificAreAddColumnPrompts(t: Table, x: Prompt)
    requires x in SpecificSuggestions(t)
    ensures x.AddPhoneNumber? || x.AddAvatarUrl? || x.AddDescription? || x.AddSku? || x.AddNotes?
  {
    var name := t.name;
    var cs := [name == "users" && !AnyColumnIncludes(t, "phone"),
               name == "users" && !AnyColumnIncludes(t, "avatar"),
               name == "products" && !AnyColumnIncludes(t, "description"),
               name == "products" && !AnyColumnIncludes(t, "sku"),
               name == "orders" && !AnyColumnIncludes(t, "notes")];
    var ps := [AddPhoneNumber, AddAvatarUrl, AddDescription, AddSku, AddNotes];
    InWhens(cs, ps, x);
  }

  /** Everything suggested to a table is an Add Columns prompt. */
  lemma SuggestionsAreAddColumnPrompts(t: Table)
    ensures forall x | x in AddColumnSuggestions(t) :: IsAddColumnPrompt(x)
  {
    forall x | x in AddColumnSuggestions(t)
      ensures IsAddColumnPrompt(x)
    {
      if x in CommonSuggestions(t) {
        CommonAreAddColumnPrompts(t, x);
      } else {
        SpecificAreAddColumnPrompts(t, x);
      }
    }
  }

  /** The Add Columns category shows an Add Columns text exactly when the
      pass generated that prompt: different prompts never show the same
      text, so the rules about prompts are rules about the texts shown. */
  lemma AddColumnTextShown(ts: seq<Table>, p: Prompt)
    requires IsAddColumnPrompt(p)
    ensures Render(p) in RenderAll(AddColumnExamples(ts)) <==> p in AddColumnExamples(ts)
  {
    var examples := AddColumnExamples(ts);
    var texts := RenderAll(examples);
    if Render(p) in texts {
      var i :| 0 <= i < |texts| && texts[i] == Render(p);
      var x := examples[i];
      AddColumnMembership(ts, x);
      var k :| 0 <= k < |ts| && x in AddColumnSuggestions(ts[k]);
      SuggestionsAreAddColumnPrompts(ts[k]);
      AddColumnRenderInjective(x, p);
    }
    if p in examples {
      var i :| 0 <= i < |examples| && examples[i] == p;
      assert texts[i] == Render(p);
    }
  }

  // ----- Remove, Modify and Indexes: suggestions per column -----

  /** The three passes that visit every column of every table. */
  datatype ColumnPass = RemovePass | ModifyPass | IndexPass

  predicate IsKey(c: Column)
  {
    c.isPrimaryKey || c.isForeignKey
  }

  /** What one column of table `table` contributes to a pass. */
  function ColumnExamples(pass: ColumnPass, table: string, c: Column): seq<Prompt>
  {
    match pass
    case RemovePass =>
      When(!IsKey(c), RemoveColumn(c.name, table))
    case ModifyPass =>
      When(!IsKey(c) && c.dataType == "varchar", ChangeToText(c.name, table))
      + When(!IsKey(c) && '_' in c.name, RenameColumn(c.name, RemoveFirst(c.name, '_'), table))
    case IndexPass =>
      When(Includes(Lower(c.name), "email"), IndexColumn(c.name, table))
      + When(c.isForeignKey, IndexForeignKey(c.name, table))
      + When(Includes(Lower(c.name), "created_at"), IndexForDates(c.name, table))
  }

  /** What each column of table `table` contributes to a pass. */
  function ColumnParts(pass: ColumnPass, table: string, cs: seq<Column>): (parts: seq<seq<Prompt>>)
    ensures |parts| == |cs|
    ensures forall j :: 0 <= j < |cs| ==> parts[j] == ColumnExamples(pass, table, cs[j])
  {
    seq(|cs|, j requires 0 <= j < |cs| => ColumnExamples(pass, table, cs[j]))
  }

  /** What the columns of one table contribute to a pass, in column order. */
  function TablePassExamples(pass: ColumnPass, table: string, cs: seq<Column>): seq<Prompt>
  {
    Flatten(ColumnParts(pass, table, cs))
  }

  /** What each table contributes to a pass. */
  function TableParts(pass: ColumnPass, ts: seq<Table>): (parts: seq<seq<Prompt>>)
    ensures |parts| == |ts|
    ensures forall i :: 0 <= i < |ts| ==> parts[i] == TablePassExamples(pass, ts[i].name, ts[i].columns)
  {
    seq(|ts|, i requires 0 <= i < |ts| => TablePassExamples(pass, ts[i].name, ts[i].columns))
  }

  /** Everything a pass generates, in table order and column order. */
  function PassExamples(pass: ColumnPass, ts: seq<Table>): seq<Prompt>
  {
    Flatten(TableParts(pass, ts))
  }

  lemma TablePassMembership(pass: ColumnPass, table: string, cs: seq<Column>, x: Prompt)
    ensures x in TablePassExamples(pass, table, cs)
            <==> exists j :: 0 <= j < |cs| && x in ColumnExamples(pass, table, cs[j])
  {
    FlattenMembership(ColumnParts(pass, table, cs), x);
  }

  /** A prompt is generated by a pass exactly when some column of some
      table contributes it. */
  lemma PassMembership(pass: ColumnPass, ts: seq<Table>, x: Prompt)
    ensures x in PassExamples(pass, ts)
            <==> exists i, j :: 0 <= i < |ts| && 0 <= j < |ts[i].columns|
                                && x in ColumnExamples(pass, ts[i].name, ts[i].columns[j])
  {
    FlattenMembership(TableParts(pass, ts), x);
    forall i | 0 <= i < |ts|
      ensures x in TablePassExamples(pass, ts[i].name, ts[i].columns)
              <==> exists j :: 0 <= j < |ts[i].columns| && x in ColumnExamples(pass, ts[i].name, ts[i].columns[j])
    {
      TablePassMembership(pass, ts[i].name, ts[i].columns, x);
    }
  }

  /** What one column contributes to the Modify Columns pass. */
  lemma ModifyColumnRule(table: string, c: Column, x: Prompt)
    ensures x in ColumnExamples(ModifyPass, table, c)
            <==> !IsKey(c)
                 && ((c.dataType == "varchar" && x == ChangeToText(c.name, table))
                     || ('_' in c.name && x == RenameColumn(c.name, RemoveFirst(c.name, '_'), table)))
  {
  }

  /** What one column contributes to the Indexes & Performance pass. */
  lemma IndexColumnRule(table: string, c: Column, x: Prompt)
    ensures x in ColumnExamples(IndexPass, table, c)
            <==> ((Includes(Lower(c.name), "email") && x == IndexColumn(c.name, table))
                  || (c.isForeignKey && x == IndexForeignKey(c.name, table))
                  || (Includes(Lower(c.name), "created_at") && x == IndexForDates(c.name, table)))
  {
  }

  /** Remove-column prompts name exactly the columns that are neither
      primary nor foreign keys. */
  lemma RemoveExamplesAreNonKeyColumns(ts: seq<Table>, x: Prompt)
    ensures x in PassExamples(RemovePass, ts)
            <==> exists i, j :: 0 <= i < |ts| && 0 <= j < |ts[i].columns|
                                && !IsKey(ts[i].columns[j])
                                && x == RemoveColumn(ts[i].columns[j].name, ts[i].name)
  {
    PassMembership(RemovePass, ts, x);
  }

  /** Modify-column prompts come only from non-key columns: a type change
      for each varchar column and a rename, dropping the first underscore,
      for each name that has one. */
  lemma ModifyExamplesAreNonKeyColumns(ts: seq<Table>, x: Prompt)
    ensures x in PassExamples(ModifyPass, ts)
            <==> exists i, j :: 0 <= i < |ts| && 0 <= j < |ts[i].columns|
                                && !IsKey(ts[i].columns[j])
                                && ((ts[i].columns[j].dataType == "varchar"
                                     && x == ChangeToText(ts[i].columns[j].name, ts[i].name))
                                    || ('_' in ts[i].columns[j].name
                                        && x == RenameColumn(ts[i].columns[j].name,
                                                             RemoveFirst(ts[i].columns[j].name, '_'),
                                                             ts[i].name)))
  {
    PassMembership(ModifyPass, ts, x);
    forall i, j | 0 <= i < |ts| && 0 <= j < |ts[i].columns|
      ensures x in ColumnExamples(ModifyPass, ts[i].name, ts[i].columns[j])
              <==> !IsKey(ts[i].columns[j])
                   && ((ts[i].columns[j].dataType == "varchar" && x == ChangeToText(ts[i].columns[j].name, ts[i].name))
                       || ('_' in ts[i].columns[j].name
                           && x == RenameColumn(ts[i].columns[j].name, RemoveFirst(ts[i].columns[j].name, '_'), ts[i].name)))
    {
      ModifyColumnRule(ts[i].name, ts[i].columns[j], x);
    }
  }

  /** Index prompts come from columns whose lower-cased name mentions
      "email" or "created_at", and from foreign-key columns. */
  lemma IndexExamplesFromColumns(ts: seq<Table>, x: Prompt)
    ensures x in PassExamples(IndexPass, ts)
            <==> exists i, j :: 0 <= i < |ts| && 0 <= j < |ts[i].columns|
                                && var c := ts[i].columns[j];
                                   ((Includes(Lower(c.name), "email") && x == IndexColumn(c.name, ts[i].name))
                                    || (c.isForeignKey && x == IndexForeignKey(c.name, ts[i].name))
                                    || (Includes(Lower(c.name), "created_at") && x == IndexForDates(c.name, ts[i].name)))
  {
    PassMembership(IndexPass, ts, x);
    forall i, j | 0 <= i < |ts| && 0 <= j < |ts[i].columns|
      ensures x in ColumnExamples(IndexPass, ts[i].name, ts[i].columns[j])
              <==> var c := ts[i].columns[j];
                   ((Includes(Lower(c.name), "email") && x == IndexColumn(c.name, ts[i].name))
                    || (c.isForeignKey && x == IndexForeignKey(c.name, ts[i].name))
                    || (Includes(Lower(c.name), "created_at") && x == IndexForDates(c.name, ts[i].name)))
    {
      IndexColumnRule(ts[i].name, ts[i].columns[j], x);
    }
  }

  // ----- Create Tables -----

  /** The lower-cased names of the existing tables. */
  function LowerNames(ts: seq<Table>): (ns: seq<string>)
    ensures |ns| == |ts|
    ensures forall i :: 0 <= i < |ts| ==> ns[i] == Lower(ts[i].name)
  {
    seq(|ts|, i requires 0 <= i < |ts| => Lower(ts[i].name))
  }

  /** One prompt per well-known table that no existing table is named
      after. */
  function CreateTableExamples(ts: seq<Table>): seq<Prompt>
  {
    var existing := LowerNames(ts);
    When("categories" !in existing, CreateCategories)
    + When("order_items" !in existing, CreateOrderItems)
    + When("user_profiles" !in existing, CreateUserProfiles)
    + When("audit_log" !in existing, CreateAuditLog)
    + When("reviews" !in existing, CreateReviews)
  }

  /** A lower-cased name is among the existing ones exactly when some table
      has it. */
  lemma LowerNamesMembership(ts: seq<Table>, n: string)
    ensures n in LowerNames(ts) <==> exists i :: 0 <= i < |ts| && Lower(ts[i].name) == n
  {
    var existing := LowerNames(ts);
    if n in existing {
      var i :| 0 <= i < |existing| && existing[i] == n;
    }
    forall i | 0 <= i < |ts|
      ensures Lower(ts[i].name) in existing
    {
      assert existing[i] == Lower(ts[i].name);
    }
  }

  /** Each new-table prompt is offered exactly when no existing table has
      that name, ignoring case. */
  lemma CreateTableRules(ts: seq<Table>)
    ensures CreateCategories in CreateTableExamples(ts)
            <==> forall i :: 0 <= i < |ts| ==> Lower(ts[i].name) != "categories"
    ensures CreateOrderItems in CreateTableExamples(ts)
            <==> forall i :: 0 <= i < |ts| ==> Lower(ts[i].name) != "order_items"
    ensures CreateUserProfiles in CreateTableExamples(ts)
            <==> forall i :: 0 <= i < |ts| ==> Lower(ts[i].name) != "user_profiles"
    ensures CreateAuditLog in CreateTableExamples(ts)
            <==> forall i :: 0 <= i < |ts| ==> Lower(ts[i].name) != "audit_log"
    ensures CreateReviews in CreateTableExamples(ts)
            <==> forall i :: 0 <= i < |ts| ==> Lower(ts[i].name) != "reviews"
  {
    LowerNamesMembership(ts, "categories");
    LowerNamesMembership(ts, "order_items");
    LowerNamesMembership(ts, "user_profiles");
    LowerNamesMembership(ts, "audit_log");
    LowerNamesMembership(ts, "reviews");
  }

  // ----- the whole generator -----

  /** What a category keeps of what its pass generated: at most four
      remove-column prompts, at most three modify-column and index prompts,
      everything otherwise. */
  function Kept(kind: Kind, examples: seq<Prompt>): seq<Prompt>
  {
    match kind
    case RemoveColumns => Take(examples, 4)
    case ModifyColumns | IndexesAndPerformance => Take(examples, 3)
    case _ => examples
  }

  /** The category, capped, if it has anything to show. */
  function Emit(kind: Kind, generated: seq<Prompt>): seq<Category>
  {
    if |generated| > 0 then [Category(kind, Kept(kind, generated))] else []
  }

  /** Emits the categories one after the other, `kinds[k]` for `gs[k]`. */
  function Emitted(kinds: seq<Kind>, gs: seq<seq<Prompt>>): seq<Category>
    requires |kinds| == |gs|
  {
    if gs == [] then []
    else Emitted(kinds[..|gs| - 1], gs[..|gs| - 1]) + Emit(kinds[|gs| - 1], gs[|gs| - 1])
  }

  /** The passes that generated something, in increasing order. */
  function Positions(gs: seq<seq<Prompt>>): (ps: seq<nat>)
    ensures forall i :: 0 <= i < |ps| ==> ps[i] < |gs| && gs[ps[i]] != []
    ensures forall k :: 0 <= k < |gs| && gs[k] != [] ==> k in ps
    ensures forall i, j :: 0 <= i < j < |ps| ==> ps[i] < ps[j]
  {
    if gs == [] then []
    else
      var n := |gs| - 1;
      var prior := Positions(gs[..n]);
      assert forall k :: 0 <= k < n ==> gs[..n][k] == gs[k];
      if gs[n] != [] then prior + [n] else prior
  }

  /** When no pass generated anything, there are no positions. */
  lemma {:induction false} NoPositions(gs: seq<seq<Prompt>>)
    requires forall k :: 0 <= k < |gs| ==> gs[k] == []
    ensures Positions(gs) == []
    decreases |gs|
  {
    if gs != [] {
      var n := |gs| - 1;
      NoPositions(gs[..n]);
    }
  }

  /** The `i`-th emitted category is the one of the `i`-th pass that
      generated something, holding what it kept of that pass's output. */
  lemma {:induction false} EmittedAtPositions(kinds: seq<Kind>, gs: seq<seq<Prompt>>)
    requires |kinds| == |gs|
    ensures |Emitted(kinds, gs)| == |Positions(gs)|
    ensures forall i :: 0 <= i < |Positions(gs)| ==>
              Emitted(kinds, gs)[i]
              == Category(kinds[Positions(gs)[i]], Kept(kinds[Positions(gs)[i]], gs[Positions(gs)[i]]))
  {
    if gs != [] {
      var n := |gs| - 1;
      var ks, hs := kinds[..n], gs[..n];
      EmittedAtPositions(ks, hs);
      var prior := Positions(hs);
      assert Emitted(kinds, gs) == Emitted(ks, hs) + Emit(kinds[n], gs[n]);
      assert Positions(gs) == if gs[n] != [] then prior + [n] else prior;
      forall i | 0 <= i < |Positions(gs)|
        ensures Emitted(kinds, gs)[i]
                == Category(kinds[Positions(gs)[i]], Kept(kinds[Positions(gs)[i]], gs[Positions(gs)[i]]))
      {
        if i < |prior| {
          var k := prior[i];
          assert Positions(gs)[i] == k && kinds[k] == ks[k] && gs[k] == hs[k];
          assert Emitted(kinds, gs)[i] == Emitted(ks, hs)[i];
        } else {
          assert Positions(gs)[i] == n;
        }
      }
    }
  }

  lemma EmittedStep(kinds: seq<Kind>, gs: seq<seq<Prompt>>, n: nat)
    requires |kinds| == |gs| && n < |gs|
    ensures Emitted(kinds[..n + 1], gs[..n + 1]) == Emitted(kinds[..n], gs[..n]) + Emit(kinds[n], gs[n])
  {
    assert kinds[..n + 1][..n] == kinds[..n];
    assert gs[..n + 1][..n] == gs[..n];
  }

  /** Gathers the categories from what the five passes generated, listed in
      `CategoryOrder`; the generic list stands in when all are empty. */
  function Assemble(generated: seq<seq<Prompt>>): seq<Category>
    requires |generated| == 5
  {
    var shortcuts := Emitted(CategoryOrder, generated);
    if |shortcuts| > 0 then shortcuts else GenericShortcuts()
  }

  /** What each pass generates for the tables, in `CategoryOrder`. */
  function Generated(ts: seq<Table>): (gs: seq<seq<Prompt>>)
    ensures |gs| == 5
  {
    [AddColumnExamples(ts), PassExamples(RemovePass, ts), PassExamples(ModifyPass, ts),
     CreateTableExamples(ts), PassExamples(IndexPass, ts)]
  }

  /** The shortcuts shown for the current schema, if there is one. */
  function ContextualShortcuts(currentSchema: Option<seq<Table>>): seq<Category>
  {
    match currentSchema
    case None => GenericShortcuts()
    case Some(ts) => Assemble(Generated(ts))
  }

  /** Kept examples of a pass that generated something are never empty. */
  lemma KeptNonEmpty(kind: Kind, generated: seq<Prompt>)
    requires generated != []
    ensures Kept(kind, generated) != []
  {
  }

  /** When some pass generated something, the result lists, in
      `CategoryOrder`, exactly the categories whose pass generated
      something, each with the first prompts of that pass up to its cap,
      and never an empty category; when none did, it is the generic list. */
  lemma AssembleProperties(gs: seq<seq<Prompt>>)
    requires |gs| == 5
    ensures (forall k :: 0 <= k < 5 ==> gs[k] == []) ==> Assemble(gs) == GenericShortcuts()
    ensures (exists k :: 0 <= k < 5 && gs[k] != []) ==>
              && |Assemble(gs)| == |Positions(gs)|
              && (forall i :: 0 <= i < |Positions(gs)| ==>
                    Assemble(gs)[i]
                    == Category(CategoryOrder[Positions(gs)[i]], Kept(CategoryOrder[Positions(gs)[i]], gs[Positions(gs)[i]]))
                    && Assemble(gs)[i].examples != [])
    ensures |Assemble(gs)| > 0
  {
    EmittedAtPositions(CategoryOrder, gs);
    var ps := Positions(gs);
    if exists k :: 0 <= k < 5 && gs[k] != [] {
      var k :| 0 <= k < 5 && gs[k] != [];
      assert k in ps;
      forall i | 0 <= i < |ps|
        ensures Assemble(gs)[i].examples != []
      {
        KeptNonEmpty(CategoryOrder[ps[i]], gs[ps[i]]);
      }
    } else {
      NoPositions(gs);
    }
  }

  /** Without a schema the generic list is returned; with one, every
      category shown has examples, and there is always something to show. */
  lemma ShortcutsFollowSchema(currentSchema: Option<seq<Table>>)
    ensures currentSchema.None? ==> ContextualShortcuts(currentSchema) == GenericShortcuts()
    ensures |ContextualShortcuts(currentSchema)| > 0
    ensures forall i :: 0 <= i < |ContextualShortcuts(currentSchema)| ==>
              |ContextualShortcuts(currentSchema)[i].examples| > 0
  {
    if currentSchema.Some? {
      AssembleProperties(Generated(currentSchema.value));
    }
  }

  /** The caps: a category keeps the first prompts its pass generated, up
      to four remove-column prompts and up to three modify-column or index
      prompts; the other two kinds keep everything. */
  lemma CategoryCaps(kind: Kind, generated: seq<Prompt>)
    ensures Kept(kind, generated) <= generated
    ensures kind == RemoveColumns ==> |Kept(kind, generated)| == if |generated| < 4 then |generated| else 4
    ensures kind == ModifyColumns || kind == IndexesAndPerformance
            ==> |Kept(kind, generated)| == if |generated| < 3 then |generated| else 3
    ensures kind == AddColumns || kind == CreateTables ==> Kept(kind, generated) == generated
  {
  }

  /** When some pass generated something, the category of a kind is shown
      exactly when its pass generated something. */
  lemma CategoryShownIffGenerated(gs: seq<seq<Prompt>>, k: nat)
    requires |gs| == 5 && k < 5
    requires exists m :: 0 <= m < 5 && gs[m] != []
    ensures (exists i :: 0 <= i < |Assemble(gs)| && Assemble(gs)[i].kind == CategoryOrder[k]) <==> gs[k] != []
  {
    AssembleProperties(gs);
    var ps := Positions(gs);
    var cs := Assemble(gs);
    if gs[k] != [] {
      assert k in ps;
      var i :| 0 <= i < |ps| && ps[i] == k;
      assert cs[i].kind == CategoryOrder[k];
    }
    if exists i :: 0 <= i < |cs| && cs[i].kind == CategoryOrder[k] {
      var i :| 0 <= i < |cs| && cs[i].kind == CategoryOrder[k];
      assert cs[i].kind == CategoryOrder[ps[i]];
      OrderIsInjective(ps[i], k);
    }
  }

  /** Each kind has one place in `CategoryOrder`. */
  lemma OrderIsInjective(a: nat, b: nat)
    requires a < 5 && b < 5 && CategoryOrder[a] == CategoryOrder[b]
    ensures a == b
  {
  }

  /** A rename prompt's new name is the old one with its first underscore
      removed: one character shorter, keeping everything before and after
      that underscore. */
  lemma RenameDropsFirstUnderscore(ts: seq<Table>, x: Prompt)
    requires x in PassExamples(ModifyPass, ts) && x.RenameColumn?
    ensures '_' in x.column && |x.newName| == |x.column| - 1
    ensures exists k :: 0 <= k < |x.column| && x.column[k] == '_' && '_' !in x.column[..k]
                        && x.newName == x.column[..k] + x.column[k + 1..]
  {
    ModifyExamplesAreNonKeyColumns(ts, x);
  }

  // ----- the imperative generator -----

  /** The Remove Columns pass: one prompt per column that is neither a
      primary nor a foreign key. */
  method CollectRemoveColumnExamples(tables: seq<Table>) returns (examples: seq<Prompt>)
    ensures examples == PassExamples(RemovePass, tables)
  {
    examples := [];
    ghost var tableParts := TableParts(RemovePass, tables);
    for i := 0 to |tables|
      invariant examples == Flatten(tableParts[..i])
    {
      var table := tables[i];
      var tableName := table.name;
      ghost var done := examples;
      ghost var parts := ColumnParts(RemovePass, tableName, table.columns);
      for j := 0 to |table.columns|
        invariant examples == done + Flatten(parts[..j])
      {
        var col := table.columns[j];
        if !col.isPrimaryKey && !col.isForeignKey {
          examples := examples + [RemoveColumn(col.name, tableName)];
        }
        FlattenStep(parts, j);
        ConcatRegroup(done, Flatten(parts[..j]), parts[j]);
      }
      assert parts[..|parts|] == parts;
      FlattenStep(tableParts, i);
    }
    assert tableParts[..|tables|] == tableParts;
  }

  /** One column's step of the Modify Columns pass. */
  method ModifyColumnStep(examples: seq<Prompt>, tableName: string, col: Column) returns (extended: seq<Prompt>)
    ensures extended == examples + ColumnExamples(ModifyPass, tableName, col)
  {
    ghost var w1 := When(!IsKey(col) && col.dataType == "varchar", ChangeToText(col.name, tableName));
    ghost var w2 := When(!IsKey(col) && '_' in col.name, RenameColumn(col.name, RemoveFirst(col.name, '_'), tableName));
    extended := examples;
    if !col.isPrimaryKey && !col.isForeignKey {
      if col.dataType == "varchar" {
        extended := extended + [ChangeToText(col.name, tableName)];
      }
      assert extended == examples + w1;
      if '_' in col.name {
        var newName := RemoveFirst(col.name, '_');
        extended := extended + [RenameColumn(col.name, newName, tableName)];
      }
    }
    assert extended == examples + w1 + w2;
    ConcatRegroup(examples, w1, w2);
  }

  /** The Modify Columns pass: for each non-key column, a type change when
      it is varchar and a rename when its name has an underscore. */
  method CollectModifyColumnExamples(tables: seq<Table>) returns (examples: seq<Prompt>)
    ensures examples == PassExamples(ModifyPass, tables)
  {
    examples := [];
    ghost var tableParts := TableParts(ModifyPass, tables);
    for i := 0 to |tables|
      invariant examples == Flatten(tableParts[..i])
    {
      var table := tables[i];
      var tableName := table.name;
      ghost var done := examples;
      ghost var parts := ColumnParts(ModifyPass, tableName, table.columns);
      for j := 0 to |table.columns|
        invariant examples == done + Flatten(parts[..j])
      {
        var col := table.columns[j];
        examples := ModifyColumnStep(examples, tableName, col);
        FlattenStep(parts, j);
        ConcatRegroup(done, Flatten(parts[..j]), parts[j]);
      }
      assert parts[..|parts|] == parts;
      FlattenStep(tableParts, i);
    }
    assert tableParts[..|tables|] == tableParts;
  }

  /** One column's step of the Indexes & Performance pass. */
  method IndexColumnStep(examples: seq<Prompt>, tableName: string, col: Column) returns (extended: seq<Prompt>)
    ensures extended == examples + ColumnExamples(IndexPass, tableName, col)
  {
    ghost var w1 := When(Includes(Lower(col.name), "email"), IndexColumn(col.name, tableName));
    ghost var w2 := When(col.isForeignKey, IndexForeignKey(col.name, tableName));
    ghost var w3 := When(Includes(Lower(col.name), "created_at"), IndexForDates(col.name, tableName));
    extended := examples;
    if Includes(Lower(col.name), "email") {
      extended := extended + [IndexColumn(col.name, tableName)];
    }
    assert extended == examples + w1;
    if col.isForeignKey {
      extended := extended + [IndexForeignKey(col.name, tableName)];
    }
    assert extended == examples + w1 + w2;
    if Includes(Lower(col.name), "created_at") {
      extended := extended + [IndexForDates(col.name, tableName)];
    }
    assert extended == examples + w1 + w2 + w3;
    Regroup(examples, w1, w2, w3, []);
  }

  /** The Indexes & Performance pass: prompts for e-mail columns, foreign
      keys and creation timestamps. */
  method CollectIndexExamples(tables: seq<Table>) returns (examples: seq<Prompt>)
    ensures examples == PassExamples(IndexPass, tables)
  {
    examples := [];
    ghost var tableParts := TableParts(IndexPass, tables);
    for i := 0 to |tables|
      invariant examples == Flatten(tableParts[..i])
    {
      var table := tables[i];
      var tableName := table.name;
      ghost var done := examples;
      ghost var parts := ColumnParts(IndexPass, tableName, table.columns);
      for j := 0 to |table.columns|
        invariant examples == done + Flatten(parts[..j])
      {
        var col := table.columns[j];
        examples := IndexColumnStep(examples, tableName, col);
        FlattenStep(parts, j);
        ConcatRegroup(done, Flatten(parts[..j]), parts[j]);
      }
      assert parts[..|parts|] == parts;
      FlattenStep(tableParts, i);
    }
    assert tableParts[..|tables|] == tableParts;
  }

  /** Pushes the common columns `table` lacks onto `examples`. */
  method PushCommonSuggestions(examples: seq<Prompt>, table: Table) returns (extended: seq<Prompt>)
    ensures extended == examples + CommonSuggestions(table)
  {
    var tableName := table.name;
    var hasCreatedAt := HasCreatedAt(table);
    var hasUpdatedAt := AnyColumnIncludes(table, "updated");
    var hasDeletedAt := AnyColumnIncludes(table, "deleted");
    var hasStatus := AnyColumnIncludes(table, "status");
    ghost var w1 := When(!hasCreatedAt, AddCreatedAt(tableName));
    ghost var w2 := When(!hasUpdatedAt, AddUpdatedAt(tableName));
    ghost var w3 := When(!hasDeletedAt && tableName != "audit_log", AddDeletedAt(tableName));
    ghost var w4 := When(!hasStatus && tableName != "categories", AddStatus(tableName));
    extended := examples;
    if !hasCreatedAt {
      extended := extended + [AddCreatedAt(tableName)];
    }
    assert extended == examples + w1;
    if !hasUpdatedAt {
      extended := extended + [AddUpdatedAt(tableName)];
    }
    assert extended == examples + w1 + w2;
    if !hasDeletedAt && tableName != "audit_log" {
      extended := extended + [AddDeletedAt(tableName)];
    }
    assert extended == examples + w1 + w2 + w3;
    if !hasStatus && tableName != "categories" {
      extended := extended + [AddStatus(tableName)];
    }
    assert extended == examples + w1 + w2 + w3 + w4;
    Regroup(examples, w1, w2, w3, w4);
  }

  /** Pushes the columns particular to `users`, `products` and `orders`. */
  method PushSpecificSuggestions(examples: seq<Prompt>, table: Table) returns (extended: seq<Prompt>)
    ensures extended == examples + SpecificSuggestions(table)
  {
    var tableName := table.name;
    ghost var w1 := When(tableName == "users" && !AnyColumnIncludes(table, "phone"), AddPhoneNumber);
    ghost var w2 := When(tableName == "users" && !AnyColumnIncludes(table, "avatar"), AddAvatarUrl);
    ghost var w3 := When(tableName == "products" && !AnyColumnIncludes(table, "description"), AddDescription);
    ghost var w4 := When(tableName == "products" && !AnyColumnIncludes(table, "sku"), AddSku);
    ghost var w5 := When(tableName == "orders" && !AnyColumnIncludes(table, "notes"), AddNotes);
    extended := examples;
    if tableName == "users" {
      var hasPhone := AnyColumnIncludes(table, "phone");
      var hasAvatar := AnyColumnIncludes(table, "avatar");
      if !hasPhone {
        extended := extended + [AddPhoneNumber];
      }
      if !hasAvatar {
        extended := extended + [AddAvatarUrl];
      }
    }
    assert extended == examples + w1 + w2;
    if tableName == "products" {
      var hasDescription := AnyColumnIncludes(table, "description");
      var hasSku := AnyColumnIncludes(table, "sku");
      if !hasDescription {
        extended := extended + [AddDescription];
      }
      if !hasSku {
        extended := extended + [AddSku];
      }
    }
    assert extended == examples + w1 + w2 + w3 + w4;
    if tableName == "orders" {
      var hasNotes := AnyColumnIncludes(table, "notes");
      if !hasNotes {
        extended := extended + [AddNotes];
      }
    }
    assert extended == examples + w1 + w2 + w3 + w4 + w5;
    Regroup(examples, w1, w2, w3, w4);
    ConcatRegroup(examples, w1 + w2 + w3 + w4, w5);
  }

  /** The Add Columns pass: for each table in order, the common columns it
      lacks, then those particular to its name. */
  method CollectAddColumnExamples(tables: seq<Table>) returns (examples: seq<Prompt>)
    ensures examples == AddColumnExamples(tables)
  {
    examples := [];
    ghost var parts := AddColumnParts(tables);
    for i := 0 to |tables|
      invariant examples == Flatten(parts[..i])
    {
      var table := tables[i];
      ghost var before := examples;
      examples := PushCommonSuggestions(examples, table);
      examples := PushSpecificSuggestions(examples, table);
      ConcatRegroup(before, CommonSuggestions(table), SpecificSuggestions(table));
      FlattenStep(parts, i);
    }
    assert parts[..|tables|] == parts;
  }


  /** The Create Tables step: one prompt per well-known table name that no
      existing table has, ignoring case. */
  method CollectCreateTableExamples(tables: seq<Table>) returns (examples: seq<Prompt>)
    ensures examples == CreateTableExamples(tables)
  {
    var existingTableNames := LowerNames(tables);
    ghost var w1 := When("categories" !in existingTableNames, CreateCategories);
    ghost var w2 := When("order_items" !in existingTableNames, CreateOrderItems);
    ghost var w3 := When("user_profiles" !in existingTableNames, CreateUserProfiles);
    ghost var w4 := When("audit_log" !in existingTableNames, CreateAuditLog);
    ghost var w5 := When("reviews" !in existingTableNames, CreateReviews);
    examples := [];
    if "categories" !in existingTableNames {
      examples := examples + [CreateCategories];
    }
    assert examples == w1;
    if "order_items" !in existingTableNames {
      examples := examples + [CreateOrderItems];
    }
    assert examples == w1 + w2;
    if "user_profiles" !in existingTableNames {
      examples := examples + [CreateUserProfiles];
    }
    assert examples == w1 + w2 + w3;
    if "audit_log" !in existingTableNames {
      examples := examples + [CreateAuditLog];
    }
    assert examples == w1 + w2 + w3 + w4;
    if "reviews" !in existingTableNames {
      examples := examples + [CreateReviews];
    }
    assert examples == w1 + w2 + w3 + w4 + w5;
  }


  /** Pushes the category of `kind`, capped as the generator caps it and
      rendered, when its pass generated anything. */
  method PushCategory(shortcuts: seq<Category>, kind: Kind, examples: seq<Prompt>)
    returns (extended: seq<Category>)
    ensures extended == shortcuts + Emit(kind, examples)
  {
    extended := shortcuts;
    if |examples| > 0 {
      match kind {
        case RemoveColumns =>
          extended := extended + [Category(kind, Take(examples, 4))];
        case ModifyColumns | IndexesAndPerformance =>
          extended := extended + [Category(kind, Take(examples, 3))];
        case _ =>
          extended := extended + [Category(kind, examples)];
      }
    }
  }

  /** Runs the five passes over the tables, in `CategoryOrder`. */
  method CollectPasses(tables: seq<Table>) returns (generated: seq<seq<Prompt>>)
    ensures generated == Generated(tables)
  {
    var addColumnExamples := CollectAddColumnExamples(tables);
    var removeColumnExamples := CollectRemoveColumnExamples(tables);
    var modifyColumnExamples := CollectModifyColumnExamples(tables);
    var createTableExamples := CollectCreateTableExamples(tables);
    var indexExamples := CollectIndexExamples(tables);
    generated := [addColumnExamples, removeColumnExamples, modifyColumnExamples,
                  createTableExamples, indexExamples];
  }

  /** Pushes the category of the `k`-th pass after those of the passes
      before it. */
  method PushPass(shortcuts: seq<Category>, generated: seq<seq<Prompt>>, k: nat)
    returns (extended: seq<Category>)
    requires |generated| == |CategoryOrder| && k < |generated|
    requires shortcuts == Emitted(CategoryOrder[..k], generated[..k])
    ensures extended == Emitted(CategoryOrder[..k + 1], generated[..k + 1])
  {
    extended := PushCategory(shortcuts, CategoryOrder[k], generated[k]);
    EmittedStep(CategoryOrder, generated, k);
  }

  /** Pushes, pass by pass, each category that has examples, capped where
      the generator caps them. */
  method PushCategories(generated: seq<seq<Prompt>>) returns (shortcuts: seq<Category>)
    requires |generated| == |CategoryOrder|
    ensures shortcuts == Emitted(CategoryOrder, generated)
  {
    shortcuts := [];
    assert CategoryOrder[..0] == [] && generated[..0] == [];
    shortcuts := PushPass(shortcuts, generated, 0);
    shortcuts := PushPass(shortcuts, generated, 1);
    shortcuts := PushPass(shortcuts, generated, 2);
    shortcuts := PushPass(shortcuts, generated, 3);
    shortcuts := PushPass(shortcuts, generated, 4);
    assert CategoryOrder[..5] == CategoryOrder && generated[..5] == generated;
  }

  /** `generateContextualShortcuts`: the generic list when there is no
      schema; otherwise the categories the passes fill, or the generic list
      when none has anything to show. */
  method GenerateContextualShortcuts(currentSchema: Option<seq<Table>>) returns (shortcuts: seq<Category>)
    ensures shortcuts == ContextualShortcuts(currentSchema)
  {
    if currentSchema.None? {
      return GenericShortcuts();
    }
    var generated := CollectPasses(currentSchema.value);
    shortcuts := PushCategories(generated);
    if |shortcuts| == 0 {
      shortcuts := GenericShortcuts();
    }
  }
}
