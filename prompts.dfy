/** The example prompts the shortcut generator offers. Each prompt is kept
    as the template it was made from and the names filled into it; `Render`
    gives the exact text shown to the user. */
module Prompts {

  datatype Prompt =
    // Add Columns
    | AddCreatedAt(table: string)
    | AddUpdatedAt(table: string)
    | AddDeletedAt(table: string)
    | AddStatus(table: string)
    | AddPhoneNumber
    | AddAvatarUrl
    | AddDescription
    | AddSku
    | AddNotes
    // Remove Columns
    | RemoveColumn(column: string, table: string)
    // Modify Columns
    | ChangeToText(column: string, table: string)
    | RenameColumn(column: string, newName: string, table: string)
    // Create Tables
    | CreateCategories
    | CreateOrderItems
    | CreateUserProfiles
    | CreateAuditLog
    | CreateReviews
    // Indexes & Performance
    | IndexColumn(column: string, table: string)
    | IndexForeignKey(column: string, table: string)
    | IndexForDates(column: string, table: string)
    // the rest of the fixed list shown when there is no schema (it also
    // offers AddPhoneNumber, AddCreatedAt("orders"), CreateCategories and
    // IndexColumn("email", "users"))
    | GenericDescription
    | GenericIsActive
    | GenericOrderItems
    | GenericUserProfiles
    | GenericAuditLog
    | GenericCategoryIndex
    | GenericCompositeIndex

  /** The text of a prompt, with its names filled in. */
  function Render(p: Prompt): string
  {
    match p
    case AddCreatedAt(t) => "Add a created_at timestamp column to the " + t + " table"
    case AddUpdatedAt(t) => "Add an updated_at timestamp column to the " + t + " table"
    case AddDeletedAt(t) => "Add a deleted_at timestamp column to the " + t + " table for soft deletes"
    case AddStatus(t) => "Add a status column to the " + t + " table"
    case AddPhoneNumber => "Add a phone_number column to the " + "users" + " table"
    case AddAvatarUrl => "Add an avatar_url column to the " + "users" + " table"
    case AddDescription => "Add a description text column to the " + "products" + " table"
    case AddSku => "Add a sku varchar column to the " + "products" + " table"
    case AddNotes => "Add a notes text column to the " + "orders" + " table"
    case RemoveColumn(c, t) => "Remove the " + c + " column from the " + t + " table"
    case ChangeToText(c, t) => "Change the " + c + " column in " + t + " table to text type"
    case RenameColumn(c, n, t) => "Rename the " + c + " column to " + n + " in the " + t + " table"
    case CreateCategories => "Create a categories table with id, name, and description columns"
    case CreateOrderItems => "Create an order_items table to link orders and products with quantity"
    case CreateUserProfiles => "Create a user_profiles table with user_id, bio, and avatar_url columns"
    case CreateAuditLog => "Create an audit_log table for tracking database changes"
    case CreateReviews => "Create a reviews table with user_id, product_id, rating, and comment columns"
    case IndexColumn(c, t) => "Create an index on the " + c + " column in the " + t + " table"
    case IndexForeignKey(c, t) => "Create an index on the " + c + " foreign key in the " + t + " table"
    case IndexForDates(c, t) => "Create an index on the " + c + " column in the " + t + " table for date queries"
    case GenericDescription => "Add a description column to the products table"
    case GenericIsActive => "Add an is_active boolean column to the users table"
    case GenericOrderItems => "Create an order_items table to link orders and products"
    case GenericUserProfiles => "Create a user_profiles table with user_id, bio, and avatar_url"
    case GenericAuditLog => "Create an audit_log table for tracking changes"
    case GenericCategoryIndex => "Add an index on the category_id column in the products table"
    case GenericCompositeIndex => "Create a composite index on user_id and created_at in the orders table"
  }

  /** The texts of a list of prompts, in order. */
  function RenderAll(ps: seq<Prompt>): (texts: seq<string>)
    ensures |texts| == |ps|
    ensures forall i :: 0 <= i < |ps| ==> texts[i] == Render(ps[i])
  {
    seq(|ps|, i requires 0 <= i < |ps| => Render(ps[i]))
  }

  /** The prompts the Add Columns pass can produce. */
  predicate IsAddColumnPrompt(p: Prompt)
  {
    || p.AddCreatedAt? || p.AddUpdatedAt? || p.AddDeletedAt? || p.AddStatus?
    || p.AddPhoneNumber? || p.AddAvatarUrl? || p.AddDescription? || p.AddSku? || p.AddNotes?
  }

  /** Characters 6 to 8 of an Add Columns text, which tell its template
      apart from the others. */
  function AddColumnTag(p: Prompt): string
    requires IsAddColumnPrompt(p)
  {
    match p
    case AddCreatedAt(_) => "cre"
    case AddUpdatedAt(_) => " up"
    case AddDeletedAt(_) => "del"
    case AddStatus(_) => "sta"
    case AddPhoneNumber => "pho"
    case AddAvatarUrl => " av"
    case AddDescription => "des"
    case AddSku => "sku"
    case AddNotes => "not"
  }

  function Tag(s: string): string
    requires |s| >= 9
  {
    [s[6], s[7], s[8]]
  }

  lemma TagOf(front: string, middle: string, back: string)
    requires |front| >= 9
    ensures Tag(front + middle + back) == Tag(front)
  {
  }

  lemma RenderTag(p: Prompt)
    requires IsAddColumnPrompt(p)
    ensures |Render(p)| >= 9 && Tag(Render(p)) == AddColumnTag(p)
  {
    if p.AddCreatedAt? || p.AddUpdatedAt? || p.AddDeletedAt? || p.AddStatus? {
      TableNamingTag(p);
    } else {
      FixedTag(p);
    }
  }

  /** The tag of a text that names the table it was suggested for. */
  lemma TableNamingTag(p: Prompt)
    requires p.AddCreatedAt? || p.AddUpdatedAt? || p.AddDeletedAt? || p.AddStatus?
    ensures |Render(p)| >= 9 && Tag(Render(p)) == AddColumnTag(p)
  {
    match p
    case AddCreatedAt(t) => TagOf("Add a created_at timestamp column to the ", t, " table");
    case AddUpdatedAt(t) => TagOf("Add an updated_at timestamp column to the ", t, " table");
    case AddDeletedAt(t) => TagOf("Add a deleted_at timestamp column to the ", t, " table for soft deletes");
    case AddStatus(t) => TagOf("Add a status column to the ", t, " table");
  }

  /** The tag of a text suggested to one fixed table. */
  lemma FixedTag(p: Prompt)
    requires p.AddPhoneNumber? || p.AddAvatarUrl? || p.AddDescription? || p.AddSku? || p.AddNotes?
    ensures |Render(p)| >= 9 && Tag(Render(p)) == AddColumnTag(p)
  {
    match p
    case AddPhoneNumber => TagOf("Add a phone_number column to the ", "users", " table");
    case AddAvatarUrl => TagOf("Add an avatar_url column to the ", "users", " table");
    case AddDescription => TagOf("Add a description text column to the ", "products", " table");
    case AddSku => TagOf("Add a sku varchar column to the ", "products", " table");
    case AddNotes => TagOf("Add a notes text column to the ", "orders", " table");
  }

  /** Cancels a common front and back around two middles. */
  lemma CancelAround(front: string, a: string, b: string, back: string)
    requires front + a + back == front + b + back
    ensures a == b
  {
    var s := front + a + back;
    assert a == s[|front|..|front| + |a|];
    assert b == (front + b + back)[|front|..|front| + |b|];
  }

  /** Different Add Columns prompts show different texts: the text shown
      determines the template and the table it names. */
  lemma AddColumnRenderInjective(p: Prompt, q: Prompt)
    requires IsAddColumnPrompt(p) && IsAddColumnPrompt(q)
    requires Render(p) == Render(q)
    ensures p == q
  {
    RenderTag(p);
    RenderTag(q);
    match p
    case AddCreatedAt(a) =>
      CancelAround("Add a created_at timestamp column to the ", a, q.table, " table");
    case AddUpdatedAt(a) =>
      CancelAround("Add an updated_at timestamp column to the ", a, q.table, " table");
    case AddDeletedAt(a) =>
      CancelAround("Add a deleted_at timestamp column to the ", a, q.table, " table for soft deletes");
    case AddStatus(a) =>
      CancelAround("Add a status column to the ", a, q.table, " table");
    case _ =>
  }
}
