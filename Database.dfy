/**
 * The database manager: a lazily opened connection, query execution, and the
 * dialect-specific introspection queries for table lists and column lists.
 * The driver itself is a parameter: whether connecting succeeds, and what a
 * statement returns (None when executing it raises).
 */
module Database {
  import opened Wrappers
  import opened Text
  import SqlGenerator

  /** A result set: column labels and rows of rendered cells. */
  datatype Table = Table(columns: seq<string>, rows: seq<seq<string>>)

  predicate WellFormed(t: Table) {
    forall i :: 0 <= i < |t.rows| ==> |t.rows[i]| == |t.columns|
  }

  type Frame = t: Table | WellFormed(t) witness Table([], [])

  /** A data frame is empty when it has no rows or no columns. */
  predicate IsEmpty(t: Table) {
    |t.rows| == 0 || |t.columns| == 0
  }

  /** A frame is non-empty exactly when some row has a cell. */
  lemma NonEmptyHasCell(t: Frame)
    ensures !IsEmpty(t) <==> exists i :: 0 <= i < |t.rows| && t.rows[i] != []
  {
    if !IsEmpty(t) {
      assert t.rows[0] != [];
    }
  }

  /** How an attempt to connect ends: creating the engine raises, opening the connection raises, or both succeed. */
  datatype ConnectOutcome = EngineFails | ConnectFails | Succeeds

  /** The dialects with introspection queries. */
  predicate Supported(databaseType: string) {
    databaseType == "sqlite" || databaseType == "mysql" || databaseType == "postgresql"
  }

  /** The statement that lists a table's columns, per dialect; the table name is interpolated verbatim. */
  function SchemaQuery(databaseType: string, table: string): (r: Option<string>)
    ensures r.Some? <==> Supported(databaseType)
    ensures r.Some? ==> Contains(r.value, table)
  {
    if databaseType == "sqlite" then
      ContainsMiddle("PRAGMA table_info(", table, ")");
      Some("PRAGMA table_info(" + table + ")")
    else if databaseType == "mysql" then
      ContainsMiddle("DESCRIBE ", table, "");
      Some("DESCRIBE " + table + "")
    else if databaseType == "postgresql" then
      var head := "\n                SELECT column_name, data_type, is_nullable \n                FROM information_schema.columns \n                WHERE table_name = '";
      var tail := "'\n                ";
      ContainsMiddle(head, table, tail);
      Some(head + table + tail)
    else
      None
  }

  /** The statement that lists the tables, per dialect. */
  function TablesQuery(databaseType: string): (r: Option<string>)
    ensures r.Some? <==> Supported(databaseType)
  {
    if databaseType == "sqlite" then Some("SELECT name FROM sqlite_master WHERE type='table'")
    else if databaseType == "mysql" then Some("SHOW TABLES")
    else if databaseType == "postgresql" then Some("SELECT tablename FROM pg_tables WHERE schemaname = 'public'")
    else None
  }

  /** Column `i` is the last one with its label. */
  predicate LastOfLabel(columns: seq<string>, i: int) {
    0 <= i < |columns| && forall j :: i < j < |columns| ==> columns[j] != columns[i]
  }

  /**
   * One row as a record: a key per column label; where labels repeat, the
   * cell of the last such column is kept.
   */
  function RowRecord(columns: seq<string>, row: seq<string>): (r: map<string, string>)
    requires |row| == |columns|
    ensures forall c :: c in r <==> c in columns
  {
    if columns == [] then map[]
    else
      var n := |columns| - 1;
      assert columns == columns[..n] + [columns[n]];
      RowRecord(columns[..n], row[..n])[columns[n] := row[n]]
  }

  /** Each label maps to the cell of the last column carrying it. */
  lemma {:induction false} RowRecordLastWins(columns: seq<string>, row: seq<string>, i: nat)
    requires |row| == |columns| && LastOfLabel(columns, i)
    ensures RowRecord(columns, row)[columns[i]] == row[i]
  {
    var n := |columns| - 1;
    if i < n {
      assert columns[n] != columns[i];
      assert LastOfLabel(columns[..n], i);
      RowRecordLastWins(columns[..n], row[..n], i);
    }
  }

  /** to_dict('records'): one record per row, in row order. */
  function Records(t: Frame): (r: seq<map<string, string>>)
    ensures |r| == |t.rows|
    ensures forall k, c :: 0 <= k < |r| ==> (c in r[k] <==> c in t.columns)
  {
    seq(|t.rows|, k requires 0 <= k < |t.rows| => RowRecord(t.columns, t.rows[k]))
  }

  /** The records as column entries for the prompt's schema text. */
  function AsColumns(records: seq<map<string, string>>): seq<SqlGenerator.Column> {
    seq(|records|, k requires 0 <= k < |records| => SqlGenerator.Record(records[k]))
  }

  /** The first column's cells; a frame without columns yields nothing (the IndexError is caught). */
  function FirstColumn(t: Frame): (r: seq<string>)
    ensures |t.columns| == 0 ==> r == []
    ensures |t.columns| > 0 ==> |r| == |t.rows| && forall k :: 0 <= k < |r| ==> r[k] == t.rows[k][0]
  {
    if |t.columns| == 0 then []
    else seq(|t.rows|, k requires 0 <= k < |t.rows| => t.rows[k][0])
  }

  /**
   * Whether a statement reaches the driver: the connection is open, or
   * opening it succeeds.
   */
  predicate Connects(connected: bool, outcome: ConnectOutcome) {
    connected || outcome == Succeeds
  }

  /**
   * What get_all_tables returns when a statement does (`live`) or does not
   * reach the driver: the first column of the listing, or nothing.
   */
  function ListedTables(databaseType: string, live: bool, run: string -> Option<Frame>): (r: seq<string>)
    ensures !Supported(databaseType) || !live ==> r == []
    ensures Supported(databaseType) && live && run(TablesQuery(databaseType).value).Some? ==>
      r == FirstColumn(run(TablesQuery(databaseType).value).value)
  {
    if !live then []
    else match TablesQuery(databaseType)
      case None => []
      case Some(query) =>
        match run(query)
        case None => []
        case Some(frame) => FirstColumn(frame)
  }

  /**
   * What get_table_schema returns for `table` when a statement does (`live`)
   * or does not reach the driver: the rows of the column query as records,
   * or None.
   */
  function TableColumns(databaseType: string, live: bool, run: string -> Option<Frame>, table: string)
    : (r: Option<seq<SqlGenerator.Column>>)
    ensures r.Some? <==> Supported(databaseType) && live && run(SchemaQuery(databaseType, table).value).Some?
  {
    if !live then None
    else match SchemaQuery(databaseType, table)
      case None => None
      case Some(query) =>
        match run(query)
        case None => None
        case Some(frame) => Some(AsColumns(Records(frame)))
  }

  /**
   * The manager. `executed` records every statement handed to the driver,
   * in order.
   */
  class DatabaseManager {
    const databaseType: string
    var hasEngine: bool
    var connected: bool
    ghost var executed: seq<string>

    constructor (databaseType: string)
      ensures this.databaseType == databaseType
      ensures !hasEngine && !connected && executed == []
    {
      this.databaseType := databaseType;
      hasEngine := false;
      connected := false;
      executed := [];
    }

    /**
     * connect: the engine is replaced once it has been created, the
     * connection only when opening it succeeds.
     */
    method Connect(outcome: ConnectOutcome) returns (ok: bool)
      modifies this
      ensures ok <==> outcome == Succeeds
      ensures hasEngine == (old(hasEngine) || outcome != EngineFails)
      ensures connected == (old(connected) || outcome == Succeeds)
      ensures executed == old(executed)
    {
      if outcome == EngineFails {
        return false;
      }
      hasEngine := true;
      if outcome == ConnectFails {
        return false;
      }
      connected := true;
      return true;
    }

    /**
     * execute_query: connects first when there is no connection, and gives
     * up if that fails; otherwise hands the statement to the driver.
     * `outcome` is consulted only when a connection is needed.
     */
    method ExecuteQuery(query: string, outcome: ConnectOutcome, run: string -> Option<Frame>)
      returns (result: Option<Frame>)
      modifies this
      ensures connected == (old(connected) || outcome == Succeeds)
      ensures hasEngine == (old(hasEngine) || (!old(connected) && outcome != EngineFails))
      ensures connected ==> executed == old(executed) + [query] && result == run(query)
      ensures !connected ==> executed == old(executed) && result.None?
    {
      if !connected {
        var ok := Connect(outcome);
        if !ok {
          return None;
        }
      }
      executed := executed + [query];
      result := run(query);
    }

    /**
     * get_table_schema: None for an unknown dialect, before anything is
     * executed; otherwise the dialect's column query, and its rows as
     * records when it succeeds.
     */
    method GetTableSchema(table: string, outcome: ConnectOutcome, run: string -> Option<Frame>)
      returns (schema: Option<seq<SqlGenerator.Column>>)
      modifies this
      ensures !Supported(databaseType) ==>
        schema.None? && connected == old(connected) && hasEngine == old(hasEngine) && executed == old(executed)
      ensures Supported(databaseType) ==>
        var query := SchemaQuery(databaseType, table).value;
        && connected == (old(connected) || outcome == Succeeds)
        && hasEngine == (old(hasEngine) || (!old(connected) && outcome != EngineFails))
        && (connected ==>
              executed == old(executed) + [query]
              && schema == (if run(query).Some? then Some(AsColumns(Records(run(query).value))) else None))
        && (!connected ==> executed == old(executed) && schema.None?)
      ensures schema == TableColumns(databaseType, Connects(old(connected), outcome), run, table)
    {
      var query := SchemaQuery(databaseType, table);
      if query.None? {
        return None;
      }
      var frame := ExecuteQuery(query.value, outcome, run);
      if frame.None? {
        return None;
      }
      schema := Some(AsColumns(Records(frame.value)));
    }

    /**
     * get_all_tables: the empty list for an unknown dialect or a failed
     * statement; otherwise the first column of the dialect's table listing.
     */
    method GetAllTables(outcome: ConnectOutcome, run: string -> Option<Frame>) returns (tables: seq<string>)
      modifies this
      ensures !Supported(databaseType) ==>
        tables == [] && connected == old(connected) && hasEngine == old(hasEngine) && executed == old(executed)
      ensures Supported(databaseType) ==>
        var query := TablesQuery(databaseType).value;
        && connected == (old(connected) || outcome == Succeeds)
        && hasEngine == (old(hasEngine) || (!old(connected) && outcome != EngineFails))
        && (connected ==>
              executed == old(executed) + [query]
              && tables == (if run(query).Some? then FirstColumn(run(query).value) else []))
        && (!connected ==> executed == old(executed) && tables == [])
      ensures tables == ListedTables(databaseType, Connects(old(connected), outcome), run)
    {
      var query := TablesQuery(databaseType);
      if query.None? {
        return [];
      }
      var frame := ExecuteQuery(query.value, outcome, run);
      if frame.None? {
        return [];
      }
      tables := FirstColumn(frame.value);
    }
  }
}
