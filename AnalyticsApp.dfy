/**
 * The analytics front end: a question becomes a statement through the
 * generator, passes the keyword denylist, gets a LIMIT clause when it has
 * none, and runs against the database; a non-empty result is charted and
 * recorded in the history.
 */
module AnalyticsApp {
  import opened Wrappers
  import opened Text
  import opened Clock
  import SqlGenerator
  import Database

  /* ---------------------------------------------------------------- charts */

  /** The column labels of a result by kind, as the data frame's type inference reports them. */
  datatype ColumnKinds = ColumnKinds(numeric: seq<string>, categorical: seq<string>, dates: seq<string>)

  /** A chart: its axes and title. A bar chart plots the first rows only; a line chart plots rows sorted by x. */
  datatype Chart =
    | Bar(x: string, y: string, title: string, firstRows: nat)
    | Scatter(x: string, y: string, title: string)
    | Histogram(x: string, title: string)
    | Line(x: string, y: string, title: string)

  const BarRows := 20

  /** The position of a chart's kind in the page. */
  function Rank(c: Chart): nat {
    match c
    case Bar(_, _, _, _) => 0
    case Scatter(_, _, _) => 1
    case Histogram(_, _) => 2
    case Line(_, _, _) => 3
  }

  /** The chart is the one its kind calls for: the first columns of the right kinds, and its title. */
  predicate Fits(c: Chart, k: ColumnKinds) {
    match c
    case Bar(x, y, title, n) =>
      |k.categorical| >= 1 && |k.numeric| >= 1 && x == k.categorical[0] && y == k.numeric[0]
      && title == y + " by " + x && n == BarRows
    case Scatter(x, y, title) =>
      |k.numeric| >= 2 && x == k.numeric[0] && y == k.numeric[1] && title == y + " vs " + x
    case Histogram(x, title) =>
      |k.numeric| >= 1 && x == k.numeric[0] && title == "Distribution of " + x
    case Line(x, y, title) =>
      |k.dates| >= 1 && |k.numeric| >= 1 && x == k.dates[0] && y == k.numeric[0] && title == y + " over time"
  }

  /**
   * generate_visualizations: a bar chart when there is a numeric and a
   * categorical column, a scatter plot for two numeric columns, a histogram
   * for one, and a line chart for a date column with a numeric one.
   */
  function ChooseCharts(k: ColumnKinds): (r: seq<Chart>)
    ensures forall i :: 0 <= i < |r| ==> Fits(r[i], k)
    ensures forall i, j :: 0 <= i < j < |r| ==> Rank(r[i]) < Rank(r[j])
  {
    var bar := if |k.numeric| >= 1 && |k.categorical| >= 1
      then [Bar(k.categorical[0], k.numeric[0], k.numeric[0] + " by " + k.categorical[0], BarRows)] else [];
    var scatter := if |k.numeric| >= 2
      then [Scatter(k.numeric[0], k.numeric[1], k.numeric[1] + " vs " + k.numeric[0])] else [];
    var histogram := if |k.numeric| >= 1
      then [Histogram(k.numeric[0], "Distribution of " + k.numeric[0])] else [];
    var line := if |k.dates| >= 1 && |k.numeric| >= 1
      then [Line(k.dates[0], k.numeric[0], k.numeric[0] + " over time")] else [];
    bar + scatter + histogram + line
  }

  /** Each kind of chart is drawn exactly when its columns are there. */
  lemma ChooseChartsComplete(k: ColumnKinds)
    ensures var r := ChooseCharts(k);
      && ((exists i :: 0 <= i < |r| && r[i].Bar?) <==> |k.numeric| >= 1 && |k.categorical| >= 1)
      && ((exists i :: 0 <= i < |r| && r[i].Scatter?) <==> |k.numeric| >= 2)
      && ((exists i :: 0 <= i < |r| && r[i].Histogram?) <==> |k.numeric| >= 1)
      && ((exists i :: 0 <= i < |r| && r[i].Line?) <==> |k.dates| >= 1 && |k.numeric| >= 1)
  {
    var r := ChooseCharts(k);
    var bar := if |k.numeric| >= 1 && |k.categorical| >= 1 then 1 else 0;
    var scatter := if |k.numeric| >= 2 then 1 else 0;
    if bar == 1 {
      assert r[0].Bar?;
    }
    if scatter == 1 {
      assert r[bar].Scatter?;
    }
    if |k.numeric| >= 1 {
      assert r[bar + scatter].Histogram?;
      if |k.dates| >= 1 {
        assert r[bar + scatter + 1].Line?;
      }
    }
  }

  /* ----------------------------------------------------------------- limit */

  const LimitKeyword := "LIMIT"

  /** The clause appended to a statement without a limit. */
  function LimitSuffix(limit: nat): string {
    " " + LimitKeyword + " " + NatToString(limit)
  }

  /** The clause has no lower-case letters. */
  lemma LimitSuffixUpper(limit: nat)
    ensures Upper(LimitSuffix(limit)) == LimitSuffix(limit)
  {
    var s := LimitSuffix(limit);
    forall i | 0 <= i < |s| ensures Upper(s)[i] == s[i] {
      if i >= 7 {
        assert s[i] == NatToString(limit)[i - 7];
      }
    }
  }

  /** A character that is not in the clause's fixed text and not a digit. */
  predicate Foreign(c: char) {
    c != ' ' && c != 'L' && c != 'I' && c != 'M' && c != 'T' && !IsDigit(c)
  }

  lemma LimitSuffixLacks(limit: nat, c: char)
    requires Foreign(c)
    ensures Lacks(LimitSuffix(limit), c)
  {
    var s := LimitSuffix(limit);
    forall i | 0 <= i < |s| ensures s[i] != c {
      if i >= 7 {
        assert s[i] == NatToString(limit)[i - 7];
      }
    }
  }

  /** "LIMIT" not in sql.upper(): append the limit clause; the result always carries a LIMIT. */
  function InjectLimit(sql: string, limit: nat): (r: string)
    ensures Contains(Upper(r), LimitKeyword)
    ensures Contains(Upper(sql), LimitKeyword) ==> r == sql
    ensures !Contains(Upper(sql), LimitKeyword) ==> r == sql + LimitSuffix(limit)
  {
    if Contains(Upper(sql), LimitKeyword) then sql
    else
      var tail := " " + NatToString(limit);
      UpperConcat(sql, LimitSuffix(limit));
      LimitSuffixUpper(limit);
      assert Upper(sql + LimitSuffix(limit)) == (Upper(sql) + " ") + LimitKeyword + tail;
      ContainsMiddle(Upper(sql) + " ", LimitKeyword, tail);
      sql + LimitSuffix(limit)
  }

  /** Appending the limit clause never makes a validated statement fail the denylist. */
  lemma LimitKeepsSafe(sql: string, limit: nat)
    requires SqlGenerator.IsSafe(sql)
    ensures SqlGenerator.IsSafe(InjectLimit(sql, limit))
  {
    if !Contains(Upper(sql), LimitKeyword) {
      var suffix := LimitSuffix(limit);
      UpperConcat(sql, suffix);
      LimitSuffixUpper(limit);
      forall i | 0 <= i < |SqlGenerator.DangerousKeywords|
        ensures !Contains(Upper(sql + suffix), SqlGenerator.DangerousKeywords[i])
      {
        var k := SqlGenerator.DangerousKeywords[i];
        var j := if i == 2 || i == 5 then 1 else 0;
        assert Foreign(k[j]);
        LimitSuffixLacks(limit, k[j]);
        LacksNotContains(suffix, k, j);
        assert Lacks(k, ' ');
        NotContainsAcross(Upper(sql), suffix, k);
      }
    }
  }

  /* ---------------------------------------------------------------- schema */

  function Names(schema: SqlGenerator.SchemaInfo): (r: seq<string>)
    ensures |r| == |schema|
    ensures forall i :: 0 <= i < |r| ==> r[i] == schema[i].0
  {
    seq(|schema|, i requires 0 <= i < |schema| => schema[i].0)
  }

  predicate Distinct(names: seq<string>) {
    forall i, j :: 0 <= i < j < |names| ==> names[i] != names[j]
  }

  /** The names in order of first appearance, each once. */
  function Dedup(names: seq<string>): (r: seq<string>)
    ensures Distinct(r)
    ensures forall t :: t in r <==> t in names
    ensures |r| == 0 <==> |names| == 0
    decreases |names|
  {
    if names == [] then []
    else
      var d := Dedup(names[..|names| - 1]);
      var last := names[|names| - 1];
      assert names == names[..|names| - 1] + [last];
      if last in d then d else d + [last]
  }

  /** The position of `name` in `names`, or |names| when it is absent. */
  function IndexOf(names: seq<string>, name: string): (r: nat)
    ensures r <= |names|
    ensures r < |names| ==> names[r] == name
    ensures forall i :: 0 <= i < r ==> names[i] != name
    decreases |names|
  {
    if names == [] then 0
    else if names[0] == name then 0
    else 1 + IndexOf(names[1..], name)
  }

  /**
   * `schema[name] = columns` on an insertion-ordered dictionary: an existing
   * key keeps its place and takes the new value, a new key goes at the end.
   */
  function Put(schema: SqlGenerator.SchemaInfo, name: string, columns: Option<seq<SqlGenerator.Column>>)
    : (r: SqlGenerator.SchemaInfo)
    requires Distinct(Names(schema))
    ensures Distinct(Names(r))
    ensures Names(r) == if name in Names(schema) then Names(schema) else Names(schema) + [name]
    ensures forall i :: 0 <= i < |r| && r[i].0 == name ==> r[i].1 == columns
    ensures forall i :: 0 <= i < |r| && r[i].0 != name ==> r[i] == schema[i]
  {
    var k := IndexOf(Names(schema), name);
    if k < |schema| then
      assert Names(schema[k := (name, columns)]) == Names(schema);
      schema[k := (name, columns)]
    else
      var r := schema + [(name, columns)];
      assert Names(r) == Names(schema) + [name];
      r
  }

  /**
   * The `schema_info` built from a table listing when every lookup's
   * statement does (`live`) or does not reach the driver: one entry per
   * distinct name, in order of first listing, holding that table's lookup.
   */
  function SchemaOf(databaseType: string, live: bool, run: string -> Option<Database.Frame>, tables: seq<string>)
    : (r: SqlGenerator.SchemaInfo)
    ensures Distinct(Names(r))
    decreases |tables|
  {
    if tables == [] then []
    else
      var name := tables[|tables| - 1];
      Put(SchemaOf(databaseType, live, run, tables[..|tables| - 1]), name,
          Database.TableColumns(databaseType, live, run, name))
  }

  /**
   * The built `schema_info` names each listed table once, in order of first
   * listing, and holds under each name that table's column lookup.
   */
  lemma {:induction false} SchemaOfContents(databaseType: string, live: bool, run: string -> Option<Database.Frame>,
                                            tables: seq<string>)
    ensures Names(SchemaOf(databaseType, live, run, tables)) == Dedup(tables)
    ensures var r := SchemaOf(databaseType, live, run, tables);
      forall i :: 0 <= i < |r| ==> r[i].1 == Database.TableColumns(databaseType, live, run, r[i].0)
    decreases |tables|
  {
    if tables != [] {
      var prefix := tables[..|tables| - 1];
      var name := tables[|tables| - 1];
      var before := SchemaOf(databaseType, live, run, prefix);
      var r := SchemaOf(databaseType, live, run, tables);
      SchemaOfContents(databaseType, live, run, prefix);
      assert r == Put(before, name, Database.TableColumns(databaseType, live, run, name));
      assert Dedup(tables) == if name in Dedup(prefix) then Dedup(prefix) else Dedup(prefix) + [name];
      forall i | 0 <= i < |r| ensures r[i].1 == Database.TableColumns(databaseType, live, run, r[i].0) {
        if r[i].0 != name {
          assert r[i] == before[i];
        }
      }
    }
  }

  /** The schema a submission reads: the lookups for the listed tables. */
  function SchemaRead(databaseType: string, live: bool, run: string -> Option<Database.Frame>)
    : SqlGenerator.SchemaInfo
  {
    SchemaOf(databaseType, live, run, Database.ListedTables(databaseType, live, run))
  }

  /** A schema is read only from a supported dialect over a connection. */
  lemma SchemaReadNeedsConnection(databaseType: string, live: bool, run: string -> Option<Database.Frame>)
    ensures SchemaRead(databaseType, live, run) != [] ==> Database.Supported(databaseType) && live
  {
    var r := SchemaRead(databaseType, live, run);
    SchemaOfContents(databaseType, live, run, Database.ListedTables(databaseType, live, run));
    assert |Names(r)| == |r|;
  }

  /** A statement that lists the tables or the columns of some table. */
  ghost predicate Introspection(databaseType: string, statement: string) {
    Database.TablesQuery(databaseType) == Some(statement)
    || exists t :: Database.SchemaQuery(databaseType, t) == Some(statement)
  }

  /** The column queries for the listed tables, in order. */
  function ColumnQueries(databaseType: string, tables: seq<string>): (r: seq<string>)
    ensures |r| == |tables|
  {
    seq(|tables|, i requires 0 <= i < |tables| => Database.SchemaQuery(databaseType, tables[i]).GetOr(""))
  }

  /** The statements reading the schema hands to the driver. */
  function ReadLog(databaseType: string, live: bool, run: string -> Option<Database.Frame>): seq<string> {
    if Database.Supported(databaseType) && live then
      [Database.TablesQuery(databaseType).value] + ColumnQueries(databaseType, Database.ListedTables(databaseType, live, run))
    else []
  }

  /** Reading the schema sends nothing but introspection queries. */
  lemma ReadLogIsIntrospection(databaseType: string, live: bool, run: string -> Option<Database.Frame>)
    ensures forall s :: s in ReadLog(databaseType, live, run) ==> Introspection(databaseType, s)
  {
    var log := ReadLog(databaseType, live, run);
    forall s | s in log ensures Introspection(databaseType, s) {
      var tables := Database.ListedTables(databaseType, live, run);
      var k :| 0 <= k < |log| && log[k] == s;
      if k > 0 {
        assert s == ColumnQueries(databaseType, tables)[k - 1];
        assert Database.SchemaQuery(databaseType, tables[k - 1]) == Some(s);
      }
    }
  }

  lemma SchemaOfStep(databaseType: string, live: bool, run: string -> Option<Database.Frame>, tables: seq<string>, i: nat)
    requires i < |tables|
    ensures SchemaOf(databaseType, live, run, tables[..i + 1])
         == Put(SchemaOf(databaseType, live, run, tables[..i]), tables[i], Database.TableColumns(databaseType, live, run, tables[i]))
  {
    assert tables[..i + 1][..i] == tables[..i];
  }

  lemma ColumnQueriesStep(databaseType: string, tables: seq<string>, i: nat)
    requires i < |tables|
    ensures ColumnQueries(databaseType, tables[..i + 1])
         == ColumnQueries(databaseType, tables[..i]) + [Database.SchemaQuery(databaseType, tables[i]).GetOr("")]
  {
  }

  /**
   * Where the loop filling `schema_info` stands after `i` tables, for a
   * manager that started out with `wasConnected`, `hadEngine` and the log
   * `start`: the dictionary so far, the column queries sent so far, and the
   * connection attempted once a lookup has run.
   */
  ghost predicate Collecting(db: Database.DatabaseManager, schema: SqlGenerator.SchemaInfo, tables: seq<string>, i: nat,
                             start: seq<string>, wasConnected: bool, hadEngine: bool,
                             outcome: Database.ConnectOutcome, run: string -> Option<Database.Frame>)
    reads db
  {
    var live := Database.Connects(wasConnected, outcome);
    var supported := Database.Supported(db.databaseType);
    && i <= |tables|
    && schema == SchemaOf(db.databaseType, live, run, tables[..i])
    && db.executed == start + (if supported && live then ColumnQueries(db.databaseType, tables[..i]) else [])
    && db.connected == (wasConnected || (supported && i > 0 && outcome == Database.Succeeds))
    && db.hasEngine == (hadEngine || (supported && i > 0 && !wasConnected && outcome != Database.EngineFails))
  }

  /** One pass of the loop filling `schema_info`: look up `tables[i]` and store it under its name. */
  method CollectOne(db: Database.DatabaseManager, schema: SqlGenerator.SchemaInfo, tables: seq<string>, i: nat,
                    ghost start: seq<string>, ghost wasConnected: bool, ghost hadEngine: bool,
                    outcome: Database.ConnectOutcome, run: string -> Option<Database.Frame>)
    returns (next: SqlGenerator.SchemaInfo)
    requires i < |tables|
    requires Collecting(db, schema, tables, i, start, wasConnected, hadEngine, outcome, run)
    modifies db
    ensures Collecting(db, next, tables, i + 1, start, wasConnected, hadEngine, outcome, run)
  {
    ghost var live := Database.Connects(wasConnected, outcome);
    ghost var done := ColumnQueries(db.databaseType, tables[..i]);
    ghost var query := Database.SchemaQuery(db.databaseType, tables[i]).GetOr("");
    assert Database.Connects(db.connected, outcome) == live;
    var columns := db.GetTableSchema(tables[i], outcome, run);
    SchemaOfStep(db.databaseType, live, run, tables, i);
    ColumnQueriesStep(db.databaseType, tables, i);
    if Database.Supported(db.databaseType) && live {
      AppendAssoc(start, done, [query]);
    }
    next := Put(schema, tables[i], columns);
  }

  /**
   * The loop filling `schema_info`: one schema lookup per listed table,
   * each stored under its name, later lookups of a name replacing earlier ones.
   */
  method CollectSchema(db: Database.DatabaseManager, tables: seq<string>, outcome: Database.ConnectOutcome,
                       run: string -> Option<Database.Frame>) returns (schema: SqlGenerator.SchemaInfo)
    modifies db
    ensures schema == SchemaOf(db.databaseType, Database.Connects(old(db.connected), outcome), run, tables)
    ensures db.executed == old(db.executed)
      + if Database.Supported(db.databaseType) && Database.Connects(old(db.connected), outcome)
        then ColumnQueries(db.databaseType, tables) else []
    ensures db.connected
      == (old(db.connected) || (Database.Supported(db.databaseType) && |tables| > 0 && outcome == Database.Succeeds))
    ensures db.hasEngine == (old(db.hasEngine) ||
      (Database.Supported(db.databaseType) && |tables| > 0 && !old(db.connected) && outcome != Database.EngineFails))
  {
    ghost var start, wasConnected, hadEngine := db.executed, db.connected, db.hasEngine;
    schema := [];
    var i := 0;
    while i < |tables|
      invariant Collecting(db, schema, tables, i, start, wasConnected, hadEngine, outcome, run)
      decreases |tables| - i
    {
      schema := CollectOne(db, schema, tables, i, start, wasConnected, hadEngine, outcome, run);
      i := i + 1;
    }
    assert tables[..i] == tables;
  }

  /**
   * The schema-gathering step of a submission: the table listing, then one
   * column lookup per listed table.
   */
  method ReadSchema(db: Database.DatabaseManager, outcome: Database.ConnectOutcome,
                    run: string -> Option<Database.Frame>) returns (schema: SqlGenerator.SchemaInfo)
    modifies db
    ensures schema == SchemaRead(db.databaseType, Database.Connects(old(db.connected), outcome), run)
    ensures db.executed == old(db.executed) + ReadLog(db.databaseType, Database.Connects(old(db.connected), outcome), run)
    ensures db.connected == (old(db.connected) || (Database.Supported(db.databaseType) && outcome == Database.Succeeds))
    ensures db.hasEngine == (old(db.hasEngine) ||
      (Database.Supported(db.databaseType) && !old(db.connected) && outcome != Database.EngineFails))
  {
    var tables := db.GetAllTables(outcome, run);
    schema := CollectSchema(db, tables, outcome, run);
    if Database.Supported(db.databaseType) && Database.Connects(old(db.connected), outcome) {
      AppendAssoc(old(db.executed), [Database.TablesQuery(db.databaseType).value], ColumnQueries(db.databaseType, tables));
    }
  }

  lemma AppendAssoc(a: seq<string>, b: seq<string>, c: seq<string>)
    ensures a + b + c == a + (b + c)
  {
  }

  /* --------------------------------------------------------------- session */

  /** The bounds of the "Limit results" field. */
  const MinLimit := 10
  const MaxLimit := 1000

  /** A statement the database may see: an introspection query, or one that passes the denylist. */
  ghost predicate Allowed(databaseType: string, statement: string) {
    Introspection(databaseType, statement) || SqlGenerator.IsSafe(statement)
  }

  /**
   * What a submission appends to the statement log, the schema lookups and
   * then statements that pass the denylist, is all allowed.
   */
  lemma {:induction false} ReadLogAllowed(databaseType: string, live: bool, run: string -> Option<Database.Frame>,
                                          before: seq<string>, extra: seq<string>, after: seq<string>)
    requires forall s :: s in extra ==> SqlGenerator.IsSafe(s)
    requires after == before + ReadLog(databaseType, live, run) + extra
    ensures forall k :: |before| <= k < |after| ==> Allowed(databaseType, after[k])
  {
    var log := ReadLog(databaseType, live, run);
    ReadLogIsIntrospection(databaseType, live, run);
    forall k | |before| <= k < |after| ensures Allowed(databaseType, after[k]) {
      if k < |before| + |log| {
        assert after[k] == log[k - |before|];
      } else {
        assert after[k] == extra[k - |before| - |log|];
      }
    }
  }

  /** A history row: when, the question, the statement run, and how many rows it returned. */
  datatype QueryRecord = QueryRecord(timestamp: Timestamp, naturalQuery: string, sqlQuery: string, resultCount: nat)

  /** Where a submission stops. */
  datatype Outcome =
    | EmptyQuery
    | NoSchema
    | GenerationFailed
    | Unsafe(keyword: string)
    | ExecutionFailed(sql: string)
    | NoRows(sql: string)
    | Executed(sql: string, resultCount: nat, charts: seq<Chart>)
  {
    /** The statement passed every gate and was handed to execution. */
    predicate Reached() {
      ExecutionFailed? || NoRows? || Executed?
    }
  }

  /**
   * The gates of a submission before anything is executed, in the order of
   * the button's handler: no tables, no (or an empty) statement, a
   * denylisted keyword. `None` means the statement goes on to execution.
   */
  function Gate(schema: SqlGenerator.SchemaInfo, generated: Option<string>): (r: Option<Outcome>)
    ensures r.None? <==> schema != [] && Truthy(generated) && SqlGenerator.IsSafe(generated.value)
    ensures r.Some? ==> !r.value.Reached() && r.value != EmptyQuery
    ensures r == Some(NoSchema) <==> schema == []
  {
    if schema == [] then Some(NoSchema)
    else if !Truthy(generated) then Some(GenerationFailed)
    else if !SqlGenerator.IsSafe(generated.value) then Some(Unsafe(SqlGenerator.FirstDangerous(generated.value, 0).value))
    else None
  }

  /**
   * What the page shows once `statement` was handed to the driver and the
   * driver answered `frame`: an error, an empty-result warning, or the rows
   * with the charts chosen for them.
   */
  function Execution(statement: string, frame: Option<Database.Frame>, autoVisualize: bool,
                     kinds: Database.Frame -> ColumnKinds): (r: Outcome)
    ensures r.Reached() && r.sql == statement
  {
    match frame
    case None => ExecutionFailed(statement)
    case Some(f) =>
      if Database.IsEmpty(f) then NoRows(statement)
      else Executed(statement, |f.rows|, if autoVisualize && |f.columns| >= 2 then ChooseCharts(kinds(f)) else [])
  }

  /**
   * The outcome of a submission, given the schema the lookups produced, the
   * statement the generator produced, and what the driver returns for a
   * statement.
   */
  function Decide(userQuery: string, limit: nat, autoVisualize: bool, schema: SqlGenerator.SchemaInfo,
                  generated: Option<string>, run: string -> Option<Database.Frame>,
                  kinds: Database.Frame -> ColumnKinds): Outcome
  {
    if userQuery == "" then EmptyQuery
    else match Gate(schema, generated)
      case Some(stop) => stop
      case None =>
        var statement := InjectLimit(generated.value, limit);
        Execution(statement, run(statement), autoVisualize, kinds)
  }

  /**
   * The steps of a submission before anything is executed: read the schema,
   * generate a statement, check it against the denylist and add the limit
   * clause. `stop` is the outcome when a gate ends the submission; otherwise
   * `statement` is the statement to execute. `schema` and `generated` are
   * what the schema lookups and the generator produced.
   */
  method PrepareStatement(userQuery: string, limit: nat, db: Database.DatabaseManager, gen: SqlGenerator.Generator,
                          outcome: Database.ConnectOutcome, run: string -> Option<Database.Frame>,
                          clientBuilds: bool, complete: string -> Option<string>)
    returns (stop: Option<Outcome>, statement: string, schema: SqlGenerator.SchemaInfo,
             ghost generated: Option<string>)
    modifies db, gen
    ensures schema == SchemaRead(db.databaseType, Database.Connects(old(db.connected), outcome), run)
    ensures db.executed == old(db.executed) + ReadLog(db.databaseType, Database.Connects(old(db.connected), outcome), run)
    ensures db.connected == (old(db.connected) || (Database.Supported(db.databaseType) && outcome == Database.Succeeds))
    ensures schema == [] ==> generated.None? && gen.sent == old(gen.sent) && gen.hasClient == old(gen.hasClient)
    ensures schema != [] ==>
      && gen.hasClient == (old(gen.hasClient) || (gen.KeyConfigured() && clientBuilds))
      && generated == SqlGenerator.GenerationResult(gen.KeyConfigured() && gen.hasClient, userQuery, schema, complete)
    ensures db.hasEngine == (old(db.hasEngine) ||
      (Database.Supported(db.databaseType) && !old(db.connected) && outcome != Database.EngineFails))
    ensures gen.sent == old(gen.sent)
      + if schema == [] then [] else SqlGenerator.PromptsSent(gen.KeyConfigured() && gen.hasClient, userQuery, schema)
    ensures |gen.sent| <= |old(gen.sent)| + 1
    ensures stop == Gate(schema, generated)
    ensures stop.None? ==> statement == InjectLimit(generated.value, limit)
  {
    statement := "";
    generated := None;
    schema := ReadSchema(db, outcome, run);
    if schema == [] {
      return Some(NoSchema), statement, schema, generated;
    }
    var sql := gen.GenerateSql(userQuery, schema, clientBuilds, complete);
    generated := sql;
    if sql.None? || sql.value == "" {
      return Some(GenerationFailed), statement, schema, generated;
    }
    var ok, keyword := SqlGenerator.ValidateSql(sql.value);
    if !ok {
      return Some(Unsafe(keyword.value)), statement, schema, generated;
    }
    statement := InjectLimit(sql.value, limit);
    stop := None;
  }

  /**
   * Each outcome of a submission, and what it guarantees: an executed
   * statement passed the denylist, carries a LIMIT, and returned rows.
   */
  lemma DecideGates(userQuery: string, limit: nat, autoVisualize: bool, schema: SqlGenerator.SchemaInfo,
                    generated: Option<string>, run: string -> Option<Database.Frame>,
                    kinds: Database.Frame -> ColumnKinds)
    ensures var r := Decide(userQuery, limit, autoVisualize, schema, generated, run, kinds);
      && (r == EmptyQuery <==> userQuery == "")
      && (r == NoSchema <==> userQuery != "" && schema == [])
      && (r == GenerationFailed <==> userQuery != "" && schema != [] && !Truthy(generated))
      && (r.Unsafe? <==> userQuery != "" && schema != [] && Truthy(generated) && !SqlGenerator.IsSafe(generated.value))
      && (r.Unsafe? ==> r.keyword in SqlGenerator.DangerousKeywords
                        && r.keyword == SqlGenerator.FirstDangerous(generated.value, 0).value)
      && (r.Reached() <==> userQuery != "" && schema != [] && Truthy(generated) && SqlGenerator.IsSafe(generated.value))
      && (r.Reached() ==> r.sql == InjectLimit(generated.value, limit)
                          && SqlGenerator.IsSafe(r.sql) && Contains(Upper(r.sql), LimitKeyword))
      && (r.ExecutionFailed? <==> r.Reached() && run(r.sql).None?)
      && (r.NoRows? <==> r.Reached() && run(r.sql).Some? && Database.IsEmpty(run(r.sql).value))
      && (r.Executed? <==> r.Reached() && run(r.sql).Some? && !Database.IsEmpty(run(r.sql).value))
      && (r.Executed? ==>
            && r.resultCount == |run(r.sql).value.rows| > 0
            && r.charts == (if autoVisualize && |run(r.sql).value.columns| >= 2
                            then ChooseCharts(kinds(run(r.sql).value)) else []))
  {
    var r := Decide(userQuery, limit, autoVisualize, schema, generated, run, kinds);
    if r.Unsafe? {
      var k := SqlGenerator.FirstDangerous(generated.value, 0);
      var i :| 0 <= i < |SqlGenerator.DangerousKeywords| && k.value == SqlGenerator.DangerousKeywords[i];
    }
    if r.Reached() {
      LimitKeepsSafe(generated.value, limit);
    }
  }

  /** `Decide` once a non-empty question has been through the gates. */
  lemma DecideAfterGate(userQuery: string, limit: nat, autoVisualize: bool, schema: SqlGenerator.SchemaInfo,
                        generated: Option<string>, run: string -> Option<Database.Frame>,
                        kinds: Database.Frame -> ColumnKinds, stop: Option<Outcome>, statement: string)
    requires userQuery != "" && stop == Gate(schema, generated)
    requires stop.None? ==> statement == InjectLimit(generated.value, limit)
    ensures stop.Some? ==> Decide(userQuery, limit, autoVisualize, schema, generated, run, kinds) == stop.value
    ensures stop.None? ==>
      Decide(userQuery, limit, autoVisualize, schema, generated, run, kinds)
      == Execution(statement, run(statement), autoVisualize, kinds)
  {
  }

  class AnalyticsSession {
    var history: seq<QueryRecord>

    constructor ()
      ensures history == []
    {
      history := [];
    }

    /**
     * The "Generate & Execute Query" button. The steps run in order and the
     * first failing one ends the submission: an empty question, no tables,
     * no (or an empty) statement, a denylisted keyword, a failed execution,
     * an empty result. A statement that passes the gates is executed; only a
     * non-empty result is charted and recorded. `kinds` stands for the data
     * frame's type inference. `schema` and `generated` are what the schema
     * lookups and the generator produced; the outcome is `Decide` of them and
     * of the driver's answer, whose cases `DecideGates` spells out.
     */
    method Submit(userQuery: string, limit: nat, autoVisualize: bool, now: Timestamp,
                  db: Database.DatabaseManager, gen: SqlGenerator.Generator,
                  outcome: Database.ConnectOutcome, run: string -> Option<Database.Frame>,
                  clientBuilds: bool, complete: string -> Option<string>, kinds: Database.Frame -> ColumnKinds)
      returns (result: Outcome, ghost schema: SqlGenerator.SchemaInfo, ghost generated: Option<string>)
      requires MinLimit <= limit <= MaxLimit
      modifies this, db, gen
      ensures userQuery == "" ==> result == EmptyQuery && unchanged(db) && unchanged(gen)
      ensures userQuery != "" ==> schema == SchemaRead(db.databaseType, Database.Connects(old(db.connected), outcome), run)
      ensures userQuery != "" && schema != [] ==>
        generated == SqlGenerator.GenerationResult(gen.KeyConfigured() && gen.hasClient, userQuery, schema, complete)
      ensures userQuery != "" ==>
        && db.connected == (old(db.connected) || (Database.Supported(db.databaseType) && outcome == Database.Succeeds))
        && db.hasEngine == (old(db.hasEngine) ||
             (Database.Supported(db.databaseType) && !old(db.connected) && outcome != Database.EngineFails))
      ensures userQuery != "" ==>
        gen.hasClient == (old(gen.hasClient) || (schema != [] && gen.KeyConfigured() && clientBuilds))
      ensures userQuery != "" ==>
        gen.sent == old(gen.sent)
          + if schema == [] then [] else SqlGenerator.PromptsSent(gen.KeyConfigured() && gen.hasClient, userQuery, schema)
      ensures result == Decide(userQuery, limit, autoVisualize, schema, generated, run, kinds)
      ensures userQuery != "" ==>
        db.executed == old(db.executed) + ReadLog(db.databaseType, Database.Connects(old(db.connected), outcome), run)
                       + if result.Reached() then [result.sql] else []
      ensures result.Executed? ==> history == old(history) + [QueryRecord(now, userQuery, result.sql, result.resultCount)]
      ensures !result.Executed? ==> history == old(history)
      ensures |gen.sent| <= |old(gen.sent)| + 1
      ensures result == NoSchema ==> gen.sent == old(gen.sent)
      ensures forall k :: |old(db.executed)| <= k < |db.executed| ==> Allowed(db.databaseType, db.executed[k])
    {
      if userQuery == "" {
        return EmptyQuery, [], None;
      }
      result, schema, generated := Answer(userQuery, limit, autoVisualize, now, db, gen, outcome, run, clientBuilds, complete, kinds);
      ghost var live := Database.Connects(old(db.connected), outcome);
      ReadLogAllowed(db.databaseType, live, run, old(db.executed), if result.Reached() then [result.sql] else [], db.executed);
    }

    /** A submission of a non-empty question: everything after the first gate. */
    method Answer(userQuery: string, limit: nat, autoVisualize: bool, now: Timestamp,
                  db: Database.DatabaseManager, gen: SqlGenerator.Generator,
                  outcome: Database.ConnectOutcome, run: string -> Option<Database.Frame>,
                  clientBuilds: bool, complete: string -> Option<string>, kinds: Database.Frame -> ColumnKinds)
      returns (result: Outcome, ghost schema: SqlGenerator.SchemaInfo, ghost generated: Option<string>)
      requires userQuery != "" && MinLimit <= limit <= MaxLimit
      modifies this, db, gen
      ensures schema == SchemaRead(db.databaseType, Database.Connects(old(db.connected), outcome), run)
      ensures schema != [] ==>
        generated == SqlGenerator.GenerationResult(gen.KeyConfigured() && gen.hasClient, userQuery, schema, complete)
      ensures db.connected == (old(db.connected) || (Database.Supported(db.databaseType) && outcome == Database.Succeeds))
      ensures db.hasEngine == (old(db.hasEngine) ||
        (Database.Supported(db.databaseType) && !old(db.connected) && outcome != Database.EngineFails))
      ensures gen.hasClient == (old(gen.hasClient) || (schema != [] && gen.KeyConfigured() && clientBuilds))
      ensures gen.sent == old(gen.sent)
        + if schema == [] then [] else SqlGenerator.PromptsSent(gen.KeyConfigured() && gen.hasClient, userQuery, schema)
      ensures result == Decide(userQuery, limit, autoVisualize, schema, generated, run, kinds)
      ensures db.executed == old(db.executed) + ReadLog(db.databaseType, Database.Connects(old(db.connected), outcome), run)
                             + if result.Reached() then [result.sql] else []
      ensures result.Reached() ==> SqlGenerator.IsSafe(result.sql)
      ensures result == NoSchema <==> schema == []
      ensures history == if result.Executed?
        then old(history) + [QueryRecord(now, userQuery, result.sql, result.resultCount)]
        else old(history)
    {
      var stop, statement;
      ghost var live := Database.Connects(db.connected, outcome);
      stop, statement, schema, generated := PrepareStatement(userQuery, limit, db, gen, outcome, run, clientBuilds, complete);
      DecideAfterGate(userQuery, limit, autoVisualize, schema, generated, run, kinds, stop, statement);
      if stop.None? {
        SchemaReadNeedsConnection(db.databaseType, live, run);
        LimitKeepsSafe(generated.value, limit);
      }
      result := Conclude(userQuery, stop, statement, autoVisualize, now, db, outcome, run, kinds);
    }

    /**
     * The end of a submission: the outcome a gate stopped it with, or else,
     * on a live connection, the statement is executed and a non-empty result
     * is charted and recorded.
     */
    method Conclude(userQuery: string, stop: Option<Outcome>, statement: string, autoVisualize: bool, now: Timestamp,
                    db: Database.DatabaseManager, outcome: Database.ConnectOutcome,
                    run: string -> Option<Database.Frame>, kinds: Database.Frame -> ColumnKinds)
      returns (result: Outcome)
      requires stop.None? ==> db.connected
      modifies this, db
      ensures result == if stop.Some? then stop.value else Execution(statement, run(statement), autoVisualize, kinds)
      ensures db.connected == old(db.connected) && db.hasEngine == old(db.hasEngine)
      ensures db.executed == old(db.executed) + if stop.None? then [statement] else []
      ensures history == if stop.None? && result.Executed?
        then old(history) + [QueryRecord(now, userQuery, statement, result.resultCount)]
        else old(history)
    {
      if stop.Some? {
        return stop.value;
      }
      var frame := db.ExecuteQuery(statement, outcome, run);
      result := Execution(statement, frame, autoVisualize, kinds);
      if result.Executed? {
        history := history + [QueryRecord(now, userQuery, statement, result.resultCount)];
      }
    }
  }
}
