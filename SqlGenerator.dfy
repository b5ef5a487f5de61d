/**
 * The SQL generator: the schema text and prompt sent to the model, the
 * clean-up of the model's reply, and the keyword denylist that guards the
 * generated statement.
 */
module SqlGenerator {
  import opened Wrappers
  import opened Text
  import opened ModelOutput

  /**
   * One entry of a table's column list. The introspection query returns
   * records (a dictionary per column); any other value is rendered as text.
   */
  datatype Column = Record(fields: map<string, string>) | Scalar(text: string)

  /**
   * Table name to column list, in insertion order. A table whose schema
   * lookup failed is stored with None.
   */
  type SchemaInfo = seq<(string, Option<seq<Column>>)>

  /* ------------------------------------------------------ schema rendering */

  /** `f.get(key, default)`. */
  function Get(f: map<string, string>, key: string, default: string): string {
    if key in f then f[key] else default
  }

  /**
   * The line for one column: SQLite records carry `name`/`type`, MySQL and
   * PostgreSQL records `column_name`/`data_type` (the type defaults to TEXT);
   * `name` wins when a record carries both; a record with neither key renders
   * as nothing. After the four-character bullet the line reads back the
   * column's name, then its type in parentheses.
   */
  function ColumnLine(col: Column): (r: string)
    ensures r == "" <==> col.Record? && "name" !in col.fields && "column_name" !in col.fields
    ensures r != "" ==> StartsWith(r, "  - ") && r[|r| - 1] == '\n'
    ensures col.Record? && "name" in col.fields ==>
      var n := col.fields["name"];
      && 4 + |n| <= |r| && r[4..4 + |n|] == n
      && r[4 + |n|..] == " (" + Get(col.fields, "type", "TEXT") + ")\n"
    ensures col.Record? && "name" !in col.fields && "column_name" in col.fields ==>
      var n := col.fields["column_name"];
      && 4 + |n| <= |r| && r[4..4 + |n|] == n
      && r[4 + |n|..] == " (" + Get(col.fields, "data_type", "TEXT") + ")\n"
    ensures col.Scalar? ==> |r| == |col.text| + 5 && r[4..|r| - 1] == col.text
  {
    match col
    case Record(f) =>
      if "name" in f then
        "  - " + f["name"] + " (" + Get(f, "type", "TEXT") + ")\n"
      else if "column_name" in f then
        "  - " + f["column_name"] + " (" + Get(f, "data_type", "TEXT") + ")\n"
      else
        ""
    case Scalar(t) =>
      "  - " + t + "\n"
  }

  function ColumnsText(cols: seq<Column>): string {
    if cols == [] then "" else ColumnsText(cols[..|cols| - 1]) + ColumnLine(cols[|cols| - 1])
  }

  lemma ColumnsTextStep(cols: seq<Column>, j: nat)
    requires j < |cols|
    ensures ColumnsText(cols[..j + 1]) == ColumnsText(cols[..j]) + ColumnLine(cols[j])
  {
    assert cols[..j + 1][..j] == cols[..j];
  }

  function TableHeader(name: string): string {
    "\nTable: " + name + "\n"
  }

  /** Every table has a column list (iterating over a missing one raises). */
  predicate Complete(schema: SchemaInfo) {
    forall i :: 0 <= i < |schema| ==> schema[i].1.Some?
  }

  /**
   * The schema text: per table its header, then one line per column.
   * None when some table's column list is None.
   */
  function SchemaText(schema: SchemaInfo): (r: Option<string>)
    ensures r.Some? <==> Complete(schema)
  {
    if schema == [] then Some("")
    else
      var init := schema[..|schema| - 1];
      assert forall i :: 0 <= i < |init| ==> init[i] == schema[i];
      match SchemaText(init)
      case None => None
      case Some(prefix) =>
        match schema[|schema| - 1].1
        case None => None
        case Some(cols) => Some(prefix + TableHeader(schema[|schema| - 1].0) + ColumnsText(cols))
  }

  /** Rendering one more table appends its header and its column lines. */
  lemma SchemaTextStep(schema: SchemaInfo, i: nat, text: string)
    requires i < |schema| && schema[i].1.Some?
    requires SchemaText(schema[..i]) == Some(text)
    ensures SchemaText(schema[..i + 1]) == Some(text + TableHeader(schema[i].0) + ColumnsText(schema[i].1.value))
  {
    assert schema[..i + 1][..i] == schema[..i];
  }

  /** Every table of a complete schema has its header line in the schema text. */
  lemma {:induction false} SchemaTextMentionsTables(schema: SchemaInfo)
    requires Complete(schema)
    ensures forall i :: 0 <= i < |schema| ==> Contains(SchemaText(schema).value, TableHeader(schema[i].0))
  {
    if schema != [] {
      var init := schema[..|schema| - 1];
      assert Complete(init) by {
        assert forall i :: 0 <= i < |init| ==> init[i] == schema[i];
      }
      SchemaTextMentionsTables(init);
      var prefix := SchemaText(init).value;
      var name := schema[|schema| - 1].0;
      var tail := TableHeader(name) + ColumnsText(schema[|schema| - 1].1.value);
      var r := SchemaText(schema).value;
      assert r == prefix + tail;
      forall i | 0 <= i < |schema| ensures Contains(r, TableHeader(schema[i].0)) {
        if i < |init| {
          assert init[i] == schema[i];
          ContainsConcat(prefix, tail, TableHeader(schema[i].0));
        } else {
          ContainsAt(TableHeader(name), TableHeader(name), 0);
          ContainsConcat(TableHeader(name), ColumnsText(schema[|schema| - 1].1.value), TableHeader(name));
          ContainsConcat(prefix, tail, TableHeader(name));
        }
      }
    }
  }

  /* ---------------------------------------------------------------- prompt */

  const PromptIntro := "\nYou are an expert SQL query generator. Convert the following natural language request into a valid SQL query.\n\nDatabase Schema:\n"
  const RequestLabel := "User Request: "
  const PromptInstructions := "\n\nInstructions:\n1. Generate ONLY the SQL query, no explanations\n2. Use proper SQL syntax\n3. Include appropriate WHERE clauses, JOINs, GROUP BY, ORDER BY as needed\n4. For aggregations, use appropriate functions (COUNT, SUM, AVG, etc.)\n5. Use LIMIT if the request implies limiting results\n6. Ensure the query is safe and doesn't include any destructive operations\n7. Use table and column names exactly as shown in the schema\n\nSQL Query:\n"

  /** Everything in the prompt before the question. */
  function RequestPrefix(schemaText: string): string {
    PromptIntro + schemaText + "\n\n" + RequestLabel
  }

  /**
   * The prompt: the schema text after the introduction, the question after
   * "User Request: ", and the instructions at the end; each reads back from
   * its place.
   */
  function SqlPrompt(userQuery: string, schemaText: string): (r: string)
    ensures |r| == |PromptIntro| + |schemaText| + 2 + |RequestLabel| + |userQuery| + |PromptInstructions|
    ensures r[|PromptIntro|..|PromptIntro| + |schemaText|] == schemaText
    ensures r[|RequestPrefix(schemaText)|..|RequestPrefix(schemaText)| + |userQuery|] == userQuery
    ensures r[|r| - |PromptInstructions|..] == PromptInstructions
  {
    ContainsMiddle(PromptIntro, schemaText, "\n\n" + RequestLabel);
    ContainsMiddle(RequestPrefix(schemaText), userQuery, PromptInstructions);
    RequestPrefix(schemaText) + userQuery + PromptInstructions
  }

  /** The question stands verbatim right after "User Request: " in the prompt. */
  lemma PromptQuotesRequest(userQuery: string, schemaText: string)
    ensures Contains(SqlPrompt(userQuery, schemaText), RequestLabel + userQuery)
  {
    var head := PromptIntro + schemaText + "\n\n";
    ConcatAssoc(head, RequestLabel, userQuery);
    ContainsMiddle(head, RequestLabel + userQuery, PromptInstructions);
  }

  /**
   * generate_sql_prompt: renders the schema by accumulating text over the
   * tables and their columns, then fills the prompt template.
   */
  method GenerateSqlPrompt(userQuery: string, schema: SchemaInfo) returns (prompt: Option<string>)
    ensures prompt.Some? <==> Complete(schema)
    ensures prompt.Some? ==> prompt.value == SqlPrompt(userQuery, SchemaText(schema).value)
  {
    var schemaText := "";
    var i := 0;
    while i < |schema|
      invariant 0 <= i <= |schema|
      invariant SchemaText(schema[..i]) == Some(schemaText)
    {
      var (name, columns) := schema[i];
      if columns.None? {
        assert !Complete(schema);
        return None;
      }
      var start := schemaText;
      schemaText := AppendColumns(schemaText + TableHeader(name), columns.value);
      SchemaTextStep(schema, i, start);
      i := i + 1;
    }
    assert schema[..i] == schema;
    prompt := Some(SqlPrompt(userQuery, schemaText));
  }

  /** The inner loop of the rendering: one line per column, appended in order. */
  method AppendColumns(text: string, cols: seq<Column>) returns (r: string)
    ensures r == text + ColumnsText(cols)
  {
    r := text;
    var j := 0;
    while j < |cols|
      invariant 0 <= j <= |cols|
      invariant r == text + ColumnsText(cols[..j])
    {
      ColumnsTextStep(cols, j);
      ConcatAssoc(text, ColumnsText(cols[..j]), ColumnLine(cols[j]));
      r := r + ColumnLine(cols[j]);
      j := j + 1;
    }
    assert cols[..j] == cols;
  }

  /* ------------------------------------------------------------ validation */

  const DangerousKeywords: seq<string> := ["DROP", "DELETE", "TRUNCATE", "ALTER", "CREATE", "INSERT", "UPDATE"]

  /** No keyword of the denylist occurs in the upper-cased statement. */
  predicate IsSafe(sql: string) {
    forall i :: 0 <= i < |DangerousKeywords| ==> !Contains(Upper(sql), DangerousKeywords[i])
  }

  /** The keyword reported for an unsafe statement: the first of the list, from index `from` on, that occurs. */
  function FirstDangerous(sql: string, from: nat): (r: Option<string>)
    requires from <= |DangerousKeywords|
    ensures r.None? <==> forall i :: from <= i < |DangerousKeywords| ==> !Contains(Upper(sql), DangerousKeywords[i])
    ensures r.Some? ==> exists i :: (from <= i < |DangerousKeywords| && r.value == DangerousKeywords[i]
      && Contains(Upper(sql), DangerousKeywords[i])
      && forall j :: from <= j < i ==> !Contains(Upper(sql), DangerousKeywords[j]))
    decreases |DangerousKeywords| - from
  {
    if from == |DangerousKeywords| then None
    else if Contains(Upper(sql), DangerousKeywords[from]) then Some(DangerousKeywords[from])
    else FirstDangerous(sql, from + 1)
  }

  /**
   * validate_sql: scans the denylist in order and stops at the first keyword
   * found in the upper-cased statement; `warning` is the keyword it reports.
   */
  method ValidateSql(sql: string) returns (ok: bool, warning: Option<string>)
    ensures ok <==> IsSafe(sql)
    ensures ok <==> warning.None?
    ensures warning == FirstDangerous(sql, 0)
  {
    var upper := Upper(sql);
    var i := 0;
    while i < |DangerousKeywords|
      invariant 0 <= i <= |DangerousKeywords|
      invariant forall j :: 0 <= j < i ==> !Contains(upper, DangerousKeywords[j])
      invariant FirstDangerous(sql, 0) == FirstDangerous(sql, i)
    {
      if Contains(upper, DangerousKeywords[i]) {
        return false, Some(DangerousKeywords[i]);
      }
      i := i + 1;
    }
    return true, None;
  }

  /**
   * A word that upper-cases to a denylisted keyword makes any statement
   * around it unsafe, whatever its case and whatever surrounds it (inside an
   * identifier, a string literal or a comment).
   */
  lemma EmbeddedKeywordRejected(pre: string, word: string, post: string, i: nat)
    requires i < |DangerousKeywords| && Upper(word) == DangerousKeywords[i]
    ensures Contains(Upper(pre + word + post), DangerousKeywords[i])
    ensures !IsSafe(pre + word + post)
  {
    UpperConcat(pre + word, post);
    UpperConcat(pre, word);
    var u := Upper(pre + word + post);
    assert u == Upper(pre) + DangerousKeywords[i] + Upper(post);
    assert u[|pre|..|pre| + |DangerousKeywords[i]|] == DangerousKeywords[i];
    ContainsAt(u, DangerousKeywords[i], |pre|);
  }

  /** The check is case-insensitive: a lower-case `drop table x` is rejected. */
  lemma LowerCaseDropRejected(sql: string)
    requires sql == "drop table x"
    ensures !IsSafe(sql)
  {
    assert Upper("drop") == DangerousKeywords[0];
    assert sql == "" + "drop" + " table x";
    EmbeddedKeywordRejected("", "drop", " table x", 0);
  }

  /** It over-blocks: the column name created_at contains CREATE. */
  lemma CreatedAtRejected(sql: string)
    requires sql == "SELECT created_at FROM t"
    ensures !IsSafe(sql)
  {
    assert Upper("create") == DangerousKeywords[4];
    assert sql == "SELECT " + "create" + "d_at FROM t";
    EmbeddedKeywordRejected("SELECT ", "create", "d_at FROM t", 4);
  }

  /**
   * With several keywords present the report follows list order, not text
   * order: UPDATE comes first in the text but DROP is reported.
   */
  lemma ReportsFirstInListOrder(sql: string)
    requires sql == "UPDATE t SET a = 1; DROP TABLE t"
    ensures FirstDangerous(sql, 0) == Some("DROP")
  {
    assert Upper("DROP") == DangerousKeywords[0];
    assert sql == "UPDATE t SET a = 1; " + "DROP" + " TABLE t";
    EmbeddedKeywordRejected("UPDATE t SET a = 1; ", "DROP", " TABLE t", 0);
  }

  /* ------------------------------------------------------------- generator */

  /**
   * The generator object. The OpenAI client is created on first use; `sent`
   * records the prompts handed to the model, in order.
   */
  /**
   * What generate_sql returns once the key check and the client construction
   * are settled (`ready`): the cleaned reply to the prompt for this schema,
   * or None.
   */
  function GenerationResult(ready: bool, userQuery: string, schema: SchemaInfo, complete: string -> Option<string>)
    : (r: Option<string>)
    ensures r.Some? ==> ready && Complete(schema) && IsClean(r.value)
    ensures ready && Complete(schema) && complete(SqlPrompt(userQuery, SchemaText(schema).value)).Some? ==> r.Some?
  {
    if !ready || !Complete(schema) then None
    else match complete(SqlPrompt(userQuery, SchemaText(schema).value))
      case None => None
      case Some(reply) => Some(Clean(reply))
  }

  /**
   * The prompts generate_sql sends once the key check and the client
   * construction are settled (`ready`): the prompt for this schema when its
   * text can be rendered, and nothing otherwise.
   */
  function PromptsSent(ready: bool, userQuery: string, schema: SchemaInfo): (r: seq<string>)
    ensures |r| <= 1
    ensures r != [] <==> ready && Complete(schema)
    ensures r != [] ==> r[0] == SqlPrompt(userQuery, SchemaText(schema).value)
  {
    if ready && Complete(schema) then [SqlPrompt(userQuery, SchemaText(schema).value)] else []
  }

  class Generator {
    const apiKey: Option<string>
    var hasClient: bool
    ghost var sent: seq<string>

    constructor (apiKey: Option<string>)
      ensures this.apiKey == apiKey && !hasClient && sent == []
    {
      this.apiKey := apiKey;
      hasClient := false;
      sent := [];
    }

    /** Python truthiness of the configured key: set and not empty. */
    predicate KeyConfigured() {
      apiKey.Some? && apiKey.value != ""
    }

    /**
     * generate_sql. Without a key it stops before creating a client or
     * calling the model. Otherwise the client is created if missing
     * (`clientBuilds` says whether its construction succeeds), the prompt
     * built (which raises on a missing column list) and sent; `complete` is
     * the model call, None when it raises.
     */
    method GenerateSql(userQuery: string, schema: SchemaInfo, clientBuilds: bool, complete: string -> Option<string>)
      returns (sql: Option<string>)
      modifies this
      ensures hasClient == (old(hasClient) || (KeyConfigured() && clientBuilds))
      ensures !(KeyConfigured() && hasClient) ==> sql.None? && sent == old(sent)
      ensures KeyConfigured() && hasClient && !Complete(schema) ==> sql.None? && sent == old(sent)
      ensures KeyConfigured() && hasClient && Complete(schema) ==>
        var prompt := SqlPrompt(userQuery, SchemaText(schema).value);
        && sent == old(sent) + [prompt]
        && sql == (if complete(prompt).Some? then Some(Clean(complete(prompt).value)) else None)
      ensures sql.Some? ==> IsClean(sql.value)
      ensures sql == GenerationResult(KeyConfigured() && hasClient, userQuery, schema, complete)
      ensures sent == old(sent) + PromptsSent(KeyConfigured() && hasClient, userQuery, schema)
    {
      if !KeyConfigured() {
        return None;
      }
      if !hasClient {
        if !clientBuilds {
          return None;
        }
        hasClient := true;
      }
      var prompt := GenerateSqlPrompt(userQuery, schema);
      if prompt.None? {
        return None;
      }
      sent := sent + [prompt.value];
      var reply := complete(prompt.value);
      if reply.None? {
        return None;
      }
      sql := Some(Clean(reply.value));
    }
  }
}
