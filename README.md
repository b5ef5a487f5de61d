# Casino AI assistant: a Dafny model of its deterministic core

The casino AI assistant turns a natural-language analytics question into SQL
with a chat-completion model, and (in the analytics front end) runs the
statement against a SQL database and charts the result. Four Streamlit front
ends share a small layer of sequential logic around the two external calls.
This project models that layer and proves its properties:

- **Schema rendering and prompt assembly** for the database-backed generator
  (`SQLGenerator.generate_sql_prompt`): one `Table:` header per table, one
  line per column in each of the three column-record shapes, then the fixed
  template quoting the question after `User Request: `.
- **The keyword denylist** (`validate_sql`): a statement is refused when its
  upper-cased text contains DROP, DELETE, TRUNCATE, ALTER, CREATE, INSERT or
  UPDATE anywhere, and the keyword reported is the first one in list order.
- **Model-output clean-up**, the expression
  `strip().replace("```sql", "").replace("```", "").strip()` shared by every
  generator. It is modelled once, with Python's `str.strip`, left-to-right
  non-overlapping `str.replace`, and `str.upper` on ASCII letters.
- **The database manager**: the dialect-specific introspection queries, the
  lazy connection in `execute_query`, records and the first-column extraction.
- **The analytics submission pipeline** (`app.py`). Its gates run in order:
  an empty question, no tables, a failed generation, a denylisted keyword.
  Then a ` LIMIT n` clause is added when the statement has none, the
  statement is executed, and a non-empty result is charted and recorded. The
  chart-kind rule of `generate_visualizations` is modelled with it.
- **The GSN generator** (`generate_sql_query`, textually the same in
  `modern_app.py` and `simple_app.py`): the key in use, the custom prompt's
  `{user_query}` substitution versus the fixed template, and the clean-up.
- **Session histories**:
  - the modern app inserts newest-first and keeps ten entries, with a
    five-entry recent view;
  - the simple app appends without bound, shows the last five newest-first,
    and can be cleared;
  - the conversational app appends, keeps the last ten, and feeds the last
    three exchanges back into the prompt as numbered context.

## How external effects are modelled

- The chat-completion call is a function parameter `complete`. It takes the
  prompt (and, for the front ends, the key in use) and returns
  `Option<string>`; `None` stands for a call that raises.
- Statement execution is a parameter `run: string -> Option<Frame>`.
- Whether connecting succeeds is a `ConnectOutcome` parameter (the engine
  cannot be created, the connection cannot be opened, or both succeed).
- Whether the lazily built client can be constructed is a `clientBuilds`
  parameter.
- The data frame's column-type inference is a parameter
  `kinds: Frame -> ColumnKinds`.
- Environment variables (`OPENAI_API_KEY`) are `Option<string>` parameters,
  and timestamps are opaque `Timestamp` values.
- Ghost logs record what reaches the outside: `Generator.sent` holds the
  generation prompts sent to the model (the explanation prompt is not
  modelled, see below) and `DatabaseManager.executed` holds the statements
  handed to the driver. "No call is made" is stated as "the log
  is unchanged".

## Notable behaviour of the code

The model keeps these behaviours as the code has them:

- The simple app's prompt preview is a one-line stand-in
  ("Convert this to SQL: ...") unless a non-empty custom prompt is in use. It
  is not the prompt that is sent (`SimpleApp.PreviewMatchesSentPrompt`).
- The modern app's key field (in the configuration card of the right-hand
  column) never reaches the generator: generation uses only the environment's
  key.
- The denylist is a substring test, so it refuses harmless statements such
  as `SELECT created_at FROM t` (`CREATED_AT` contains `CREATE`).
- The conversational app records every reply, an empty one included.
- `generate_sql` builds the client before it renders the prompt, so a schema
  with a missing column list still builds the client and then returns None.

## Model

| member | source | states |
|---|---|---|
| ModelOutput.Clean | sql_generator.py:76-79 | the cleaned reply contains no ``` fence and has no leading or trailing whitespace |
| ModelOutput.FenceFree | sql_generator.py:79 | after every ``` is replaced by nothing, no ``` remains (a new one cannot form across a removal) |
| ModelOutput.CleanIdempotent | sql_generator.py:76-79 | cleaning an already cleaned reply changes nothing |
| ModelOutput.CleanFencedReply | sql_generator.py:76-79 | a reply ```sql, then whitespace, a trimmed statement holding no ``` (backtick-quoted identifiers allowed), whitespace and ``` cleans to exactly that statement |
| ModelOutput.CleanUntaggedReply | sql_generator.py:76-79 | the same for an untagged fence ``` … ```, when whitespace opens the fenced text |
| ModelOutput.CleanExample | sql_generator.py:76-79 | "```sql\nSELECT 1\n```" cleans to "SELECT 1" |
| SqlGenerator.ColumnLine | sql_generator.py:20-29 | a column yields no line exactly when it is a record with neither a name nor a column_name key; any line starts with "  - " and ends with a newline; after the bullet a record's line reads back its `name` (preferred over `column_name`) and then " (" + its type, TEXT when the type key is missing, + ")\n"; a non-record reads back as its own text |
| SqlGenerator.SchemaText | sql_generator.py:16-29 | the schema text exists exactly when every table has a column list (iterating a missing list raises inside generate_sql) |
| SqlGenerator.SchemaTextMentionsTables | sql_generator.py:18-19 | the schema text carries a "\nTable: <name>\n" header for every table |
| SqlGenerator.SqlPrompt | sql_generator.py:31-49 | the schema text reads back right after the introduction, the question right after "User Request: ", and the prompt ends with the instructions; its length is the sum of the pieces |
| SqlGenerator.PromptQuotesRequest | sql_generator.py:37 | the prompt contains "User Request: " followed by the question verbatim |
| SqlGenerator.GenerateSqlPrompt | sql_generator.py:13-50 | the prompt loop returns a prompt exactly when the schema text exists, and that prompt is the template around that schema text and the question |
| SqlGenerator.AppendColumns | sql_generator.py:20-29 | the inner loop appends the rendered lines of all columns, in order, to the text so far |
| SqlGenerator.FirstDangerous | sql_generator.py:89-95 | no keyword is reported exactly when none of the keywords from the given position on occurs in the upper-cased text; a reported keyword occurs and every keyword before it in the list does not |
| SqlGenerator.ValidateSql | sql_generator.py:87-97 | the statement passes exactly when no keyword occurs in its upper-cased text, a warning is given exactly when it fails, and the warning names the first offending keyword in list order |
| SqlGenerator.EmbeddedKeywordRejected | sql_generator.py:89-95 | any text containing a keyword in any letter case, even inside a longer word, is refused |
| SqlGenerator.LowerCaseDropRejected | sql_generator.py:91-93 | "drop table x" is refused: the test ignores case |
| SqlGenerator.CreatedAtRejected | sql_generator.py:89-95 | "SELECT created_at FROM t" is refused because CREATED_AT contains CREATE |
| SqlGenerator.ReportsFirstInListOrder | sql_generator.py:89-94 | "UPDATE t SET a = 1; DROP TABLE t" reports DROP, earlier in the list though later in the text |
| SqlGenerator.GenerationResult | sql_generator.py:52-85 | a statement comes back only when a key and a client are there and the schema has every column list, and it is clean; under those conditions a reply to the prompt for this schema and question always yields one |
| SqlGenerator.PromptsSent | sql_generator.py:55-74 | a generation call sends at most one prompt; it sends one exactly when the key and client are ready and every table has a column list, and that prompt is the template for this schema and question |
| SqlGenerator.Generator.GenerateSql | sql_generator.py:52-85 | without a configured key, or when the client cannot be built, the result is None and no prompt is sent; a schema with a missing column list gives None with nothing sent; otherwise exactly one prompt (the template for this schema and question) is sent and the reply, when there is one, comes back cleaned; the prompts sent are `PromptsSent` for the key and client state; the result is `GenerationResult` for that state; a client once built is kept |
| Database.SchemaQuery | database.py:46-58 | a column query exists exactly for sqlite, mysql and postgresql, and it quotes the table name verbatim |
| Database.TablesQuery | database.py:68-76 | a table-listing query exists exactly for sqlite, mysql and postgresql |
| Database.RowRecord | database.py:61 | a row's record has exactly the frame's column labels as keys |
| Database.RowRecordLastWins | database.py:61 | where column labels repeat, the record keeps the cell of the last column with that label |
| Database.Records | database.py:61 | one record per row, each keyed by the column labels |
| Database.FirstColumn | database.py:79 | the table names are the first cell of every row in order; a frame without columns yields none |
| Database.NonEmptyHasCell | app.py:168 | a result frame is non-empty (neither rows nor columns missing) exactly when some row has a cell |
| Database.ListedTables | database.py:66-82 | when no statement reaches the driver or the dialect is unknown the listing is empty; otherwise it is the first column of what the dialect's listing query returns |
| Database.TableColumns | database.py:44-64 | a table has a column list exactly when the dialect is known, a statement reaches the driver and the dialect's column query succeeds |
| Database.DatabaseManager.constructor | database.py:9-12 | a new manager has no engine, no connection and has executed nothing |
| Database.DatabaseManager.Connect | database.py:14-22 | connecting succeeds exactly when both steps succeed; the engine is kept once created, the connection only when opened; nothing is executed |
| Database.DatabaseManager.ExecuteQuery | database.py:31-42 | a connection is attempted only when there is none; if that fails the result is None and nothing is executed; otherwise the statement is executed and its result returned |
| Database.DatabaseManager.GetTableSchema | database.py:44-64 | an unknown dialect yields None with no connection attempt and nothing executed; otherwise the dialect's column query is executed and its rows are returned as records, or None when it fails; the result is `TableColumns` of whether the connection was open or could be opened |
| Database.DatabaseManager.GetAllTables | database.py:66-82 | an unknown dialect yields [] with no connection attempt and nothing executed; otherwise the dialect's listing query is executed and its first column returned, or [] when it fails; the result is `ListedTables` of whether the connection was open or could be opened |
| AnalyticsApp.ChooseCharts | app.py:206-250 | every chart drawn uses the first columns of the kinds it needs and the source's title; the charts come in bar, scatter, histogram, line order |
| AnalyticsApp.ChooseChartsComplete | app.py:212-249 | a bar chart iff a numeric and a categorical column exist; a scatter plot iff two numeric columns; a histogram iff one numeric column; a line chart iff a date and a numeric column |
| AnalyticsApp.InjectLimit | app.py:149-151 | a statement whose upper-cased text lacks LIMIT gets " LIMIT n" appended, any other is unchanged, and the result always carries LIMIT, so a second application changes nothing |
| AnalyticsApp.LimitKeepsSafe | app.py:145-151 | appending the limit clause never makes a statement that passed the denylist fail it |
| AnalyticsApp.Put | app.py:131 | assigning schema_info[table]: an existing table keeps its place and takes the new value, a new table goes at the end, every other entry is unchanged |
| AnalyticsApp.Dedup | app.py:129-131 | the keys of the dictionary built from a listing: each listed name once, nothing else, and empty exactly when the listing is |
| AnalyticsApp.SchemaOfContents | app.py:128-131 | the dictionary built from a listing holds the de-duplicated listing as its keys, in order of first listing, and under each key that table's column lookup (the last lookup for a repeated name) |
| AnalyticsApp.SchemaReadNeedsConnection | app.py:128-135 | a non-empty schema needs a known dialect and a statement reaching the driver |
| AnalyticsApp.ReadLogIsIntrospection | app.py:127-131 | reading the schema hands the driver nothing but the table listing and column queries |
| AnalyticsApp.CollectOne | app.py:130-131 | one pass keeps the loop's invariant `Collecting` one table further: the dictionary is the one built from one more listed table, exactly that table's column query is added to what the driver saw when the connection is live, and after the first lookup the connection and engine are in the state one lazy attempt leaves them in |
| AnalyticsApp.CollectSchema | app.py:128-131 | the schema is the dictionary built from the listing with each table's own lookup (see `SchemaOfContents`); exactly the listed tables' column queries reach the database, in listing order, when a statement reaches the driver, and none otherwise; the connection and the engine change only when some table was looked up, and then as one lazy connection attempt changes them |
| AnalyticsApp.ReadSchema | app.py:127-131 | the schema is that built from the table listing the database returns (empty exactly when nothing is listed, by `Dedup`); the driver sees the listing query and then the column queries; the connection is open afterwards exactly when it was before or a supported dialect connects, and an engine exists exactly when one did before or one was created on the first attempt |
| AnalyticsApp.PrepareStatement | app.py:126-151 | the schema is the one the database gives; no prompt is sent without a schema; otherwise the generated statement is `GenerationResult` for this schema and question; the submission stops exactly at the gate `Gate` names for that schema and statement, and otherwise hands on the statement with the limit clause; the connection, the engine and the client end in the state the lazy initialisations leave them in; the prompts sent are exactly `PromptsSent` (none without a schema), so at most one |
| AnalyticsApp.Gate | app.py:133-147 | a submission goes on to execution exactly when there is a schema, a non-empty statement and that statement passes the denylist; it stops for a missing schema exactly when the schema is empty; a stop is never an execution outcome |
| AnalyticsApp.Execution | app.py:166-198 | once a statement is handed to the driver, the outcome is an execution outcome for that very statement |
| AnalyticsApp.DecideGates | app.py:121-198 | an empty question, no schema, no statement, a denylisted statement (reporting the first keyword in list order), a failed execution, an empty result and a result with rows each happen exactly under their own condition; an executed statement passed the denylist, carries LIMIT and returned rows; charts only with auto-visualise on and two columns or more |
| AnalyticsApp.ReadLogAllowed | app.py:127-131 | every statement a submission appends to the driver's log, the schema reads followed by statements that pass the denylist, is introspection or passes the denylist |
| AnalyticsApp.DecideAfterGate | app.py:133-151 | once a non-empty question reaches the gates, the outcome is the gate's stop, or else what executing the statement with its limit clause gives |
| AnalyticsApp.AnalyticsSession.Answer | app.py:126-198 | for a non-empty question: the same schema, statement, outcome, log, history, connection, engine, client and prompts as `Submit`; an outcome past the gates carries a statement that passes the denylist; it is `NoSchema` exactly when the schema is empty |
| AnalyticsApp.AnalyticsSession.Conclude | app.py:164-198 | a stopped submission keeps the log and history; otherwise the statement is executed on the open connection, the outcome is `Execution` of the driver's answer, and a record is appended exactly for a result with rows; the connection and engine are left as they were |
| AnalyticsApp.AnalyticsSession.Submit | app.py:121-198 | an empty question touches nothing; otherwise the schema is the one the database gives, the statement is `GenerationResult` for it, and the outcome is `Decide` of the schema, the statement and the driver's answer (its cases in `DecideGates`); the driver sees the schema reads and then, exactly when the gates pass, the statement itself, so every statement it sees is introspection or passes the denylist; one history record (question, statement, row count) is appended exactly for a result with rows; afterwards the connection is open exactly when it was before or a supported dialect connected, an engine exists exactly when one did before or the first attempt created one, and the client exists exactly when it did before or a schema was found, the key is configured and the client could be built; the prompts sent are exactly `PromptsSent` for that state (none without a schema), so at most one |
| GsnGenerator.UsedKey | modern_app.py:205-212 | a key is used exactly when the given key or the environment's is truthy; the given key wins; the key used is never empty |
| GsnGenerator.DefaultPrompt | modern_app.py:218-248 | the question reads back right after the fixed introduction, and the prompt ends with the fixed closing |
| GsnGenerator.PromptFor | modern_app.py:215-248 | without a truthy custom prompt the default prompt is sent; a custom prompt without a placeholder is sent as it is, so the question is dropped |
| GsnGenerator.GenerateSqlQuery | modern_app.py:201-269 | without a truthy key the result is None; with one, a successful call under the key in use with the chosen prompt gives its reply cleaned, and any result comes from such a call and is clean |
| GsnGenerator.DefaultPromptQuotesRequest | modern_app.py:245 | the default prompt holds "User Request: " followed by the question verbatim |
| GsnGenerator.CustomPromptFillsPlaceholders | modern_app.py:215-217 | a custom prompt made of parts that do not themselves hold {user_query}, joined by {user_query}, becomes those parts joined by the question, whatever the question contains |
| GsnGenerator.CustomPromptSent | simple_app.py:36-37 | with a custom prompt holding placeholders, the prompt sent is that prompt filled in and the fixed template is not used |
| ModernApp.Recorded | modern_app.py:372-380 | recording puts the new entry first, shifts the others by one, and keeps at most ten |
| ModernApp.ReplayNewestFirst | modern_app.py:372-380 | after any sequence of recordings from empty, the history is the ten newest entries, newest first |
| ModernApp.RecentView | modern_app.py:434 | the recent view is the first five entries of the history (fewer when it is shorter) |
| ModernApp.RecentViewNewest | modern_app.py:430-435 | after any sequence of recordings from empty, the recent view is the five newest entries, newest first |
| ModernApp.ModernSession.Record | modern_app.py:372-380 | inserting at the front and truncating gives the recorded history and keeps it within ten entries |
| ModernApp.ModernSession.Submit | modern_app.py:348-383 | a question blank after stripping records nothing; otherwise the environment key and the default prompt are used, a truthy statement is recorded at the front with the history kept to ten, and nothing else is recorded |
| SimpleApp.CustomArgument | simple_app.py:196 | the custom prompt reaches the generator exactly when the checkbox is ticked, as typed, and it is truthy exactly when it is also not empty |
| SimpleApp.DisplayPrompt | simple_app.py:184-188 | with a non-empty custom prompt in use the preview is the very prompt sent; otherwise it is "Convert this to SQL: " followed by the question |
| SimpleApp.PreviewMatchesSentPrompt | simple_app.py:184-198 | the preview equals the prompt sent exactly when a non-empty custom prompt is in use |
| SimpleApp.SidebarView | simple_app.py:127-132 | the sidebar lists five entries, or all of them when there are fewer |
| SimpleApp.SidebarNumbersByPosition | simple_app.py:129-130 | sidebar row i shows the i-th newest entry labelled "Query k", k being its 1-based position in the history |
| SimpleApp.SimpleSession.Submit | simple_app.py:173-218 | a blank question or an empty key field stops before any preview or generation; otherwise the preview is shown when asked for, the key field's key and the chosen prompt are used, and a truthy statement is appended at the end |
| SimpleApp.SimpleSession.ClearHistory | simple_app.py:247-248 | the history is empty afterwards |
| Conversational.Context | conversational_example.py:23-29 | the context is empty exactly when the conversation is; otherwise it starts with the history header and ends with the current-question footer |
| Conversational.ContextQuotesRecent | conversational_example.py:26-28 | the context quotes each of the last three exchanges as "Qn: question" and "SQLn: sql", numbered from 1 for the oldest |
| Conversational.ContextIgnoresOlder | conversational_example.py:26 | exchanges older than the last three do not change the context |
| Conversational.BuildContext | conversational_example.py:23-29 | the loop builds the context of the history |
| Conversational.ConversationalPrompt | conversational_example.py:31-55 | the context reads back right after the fixed introduction, then a line break, then the question, then the fixed closing |
| Conversational.PromptCarriesContext | conversational_example.py:31-55 | the prompt holds the context followed by the question on a line of its own |
| Conversational.ClientKey | conversational_example.py:20 | the client takes the given key when truthy, else the environment's |
| Conversational.Recorded | conversational_example.py:71-78 | the new exchange ends the history, which keeps at most ten; the entries before it are the newest earlier exchanges, in order |
| Conversational.ReplayKeepsLastTen | conversational_example.py:71-78 | after any sequence of exchanges from empty, the history is the ten most recent, oldest first |
| Conversational.ConversationSession.Record | conversational_example.py:71-78 | appending and re-slicing gives the recorded history and keeps it within ten entries |
| Conversational.ConversationSession.GenerateConversationalSql | conversational_example.py:17-84 | without any key, None; otherwise the prompt built from the previous history's context and the question is sent, and the cleaned reply is returned and recorded (keeping ten); a failed call returns None and leaves the history alone |

## Left out

- The Streamlit user interface is not modelled: page layout, styling, buttons, expanders, spinners, `st.rerun`, the example pickers, download and copy buttons, `time.sleep`, and the analytics app's login screen (app.py:31-45). It is presentation only.
- The history tables rendered in the main area (simple_app.py:230-244, app.py:200-204) and the `[:50]` truncation of labels in the modern app's recent view are not modelled; they only display the modelled histories.
- `explain_sql` (sql_generator.py:99-133) is not modelled. With "Show SQL explanation" ticked, which is the default (app.py:117, 158-162), it sends a second prompt through the same client before the statement is executed. The explanation does not affect what is executed.
- `AnalyticsApp.AnalyticsSession.Submit`: `sent` records only the generation prompt. Its bound of one prompt per submission therefore leaves out the explanation prompt above.
- `create_sample_data` (database.py:84-113) only seeds demo data, and `disconnect` (database.py:24-29) only releases driver resources; neither is modelled.
- The OpenAI client, httpx, SQLAlchemy and pandas are foreign code. They are parameters that may fail, and the model name, system message, token limit and temperature they receive are not modelled.
- Pandas column-type inference (`select_dtypes`) is a parameter, and cells are their rendered text. Plotly rendering, and the sorting of rows for the line chart, are not modelled: only which charts and which columns are chosen.
- `AnalyticsApp.AnalyticsSession.Submit`: the connection outcome is one parameter for the whole submission, so every lazy connection attempt within it ends the same way.
- `AnalyticsApp.AnalyticsSession.Submit`: the exception handler in `generate_visualizations` (app.py:252-253) is not modelled, because charts are chosen by a total function.
- `Text.Upper`: `str.upper` is modelled on ASCII letters only. Unicode case mapping, such as the dotless i, is not modelled.
- config.py and run.py (environment lookup and the launcher) are not part of this model. Keys are parameters, and the database dialect is the manager's `databaseType`.
- `datetime.now()` is an opaque timestamp parameter.
- The modern app's selected query is not modelled as state. An example button (modern_app.py:405) or "Use Again" (modern_app.py:449) stores a selection, and until it is cleared that selection is submitted in place of a typed question (modern_app.py:318-320). `ModernApp.ModernSession.Submit` takes the submitted question as a parameter, so it covers either source of the question.
- `show_conversation_examples` (conversational_example.py:86-108) only displays three fixed example exchanges; it is not modelled.
