/**
 * The conversational generator: the prompt carries the last three
 * exchanges as numbered context, and every answered question is appended
 * to a history that keeps the ten most recent exchanges.
 */
module Conversational {
  import opened Wrappers
  import opened Text
  import opened Seqs
  import opened ModelOutput

  /** One answered question. */
  datatype Exchange = Exchange(question: string, sql: string)

  const HistoryLimit := 10
  /** How many of the latest exchanges the prompt quotes. */
  const ContextSize := 3

  const ContextHeader := "\nCONVERSATION HISTORY:\n"
  const ContextFooter := "CURRENT QUESTION (consider the above context):\n"
  const ConversationIntro := "\n" + "You are a GSN Casino BigQuery SQL expert. Generate optimized SQL queries for GSN Casino data.\n\nRULES:\n- Always reference: dwh-prod-gsn-casino.gsn_agg.user_days\n- Always filter by event_day_pst to limit scanned data\n- Use clear BigQuery syntax\n- If the user refers to \"previous query\" or \"that\", use the conversation history\n- For follow-up questions like \"average of it\" or \"median\", modify the previous SQL\n\nTABLE SCHEMA (dwh-prod-gsn-casino.gsn_agg.user_days):\n- event_day_pst: Date\n- user_id: Unique user id\n- bookings: User's revenue\n- transactions: Number of transactions\n- payer_type: Type of payer\n- slot_spins: Number of spins in a day\n- platform: ios, android, amazon (mobile), others (web/webstore)\n- engagement_7d: Days active in last 7 days\n\n"
  const ConversationOutro := "\n\nSQL Query:\n"

  function QuestionLine(n: nat, question: string): string {
    "Q" + NatToString(n) + ": " + question + "\n"
  }

  function SqlLine(n: nat, sql: string): string {
    "SQL" + NatToString(n) + ": " + sql + "\n\n"
  }

  /** Exchange number n (counting from 1) as quoted in the context. */
  function ExchangeText(n: nat, e: Exchange): string {
    QuestionLine(n, e.question) + SqlLine(n, e.sql)
  }

  /** The quoted exchanges, numbered from 1 in history order. */
  function Block(exchanges: seq<Exchange>): string
    decreases |exchanges|
  {
    if exchanges == [] then ""
    else Block(exchanges[..|exchanges| - 1]) + ExchangeText(|exchanges|, exchanges[|exchanges| - 1])
  }

  /** The context block: nothing for a fresh conversation, else the last three exchanges between header and footer. */
  function Context(history: seq<Exchange>): (r: string)
    ensures r == "" <==> history == []
    ensures history != [] ==>
      && StartsWith(r, ContextHeader)
      && |ContextHeader| + |ContextFooter| <= |r| && r[|r| - |ContextFooter|..] == ContextFooter
  {
    if history == [] then ""
    else
      ContainsMiddle(ContextHeader, Block(Last(history, ContextSize)), ContextFooter);
      ContextHeader + Block(Last(history, ContextSize)) + ContextFooter
  }

  lemma BlockStep(exchanges: seq<Exchange>, i: nat)
    requires i < |exchanges|
    ensures Block(exchanges[..i + 1]) == Block(exchanges[..i]) + ExchangeText(i + 1, exchanges[i])
  {
    assert exchanges[..i + 1][..i] == exchanges[..i];
  }

  /** Every exchange of the block is quoted with its number: its question line and its SQL line. */
  lemma {:induction false} BlockQuotes(exchanges: seq<Exchange>, j: nat)
    requires j < |exchanges|
    ensures Contains(Block(exchanges), QuestionLine(j + 1, exchanges[j].question))
    ensures Contains(Block(exchanges), SqlLine(j + 1, exchanges[j].sql))
    decreases |exchanges|
  {
    var n := |exchanges| - 1;
    var init := exchanges[..n];
    var q := QuestionLine(j + 1, exchanges[j].question);
    var s := SqlLine(j + 1, exchanges[j].sql);
    if j == n {
      ContainsMiddle([], q, s);
      assert [] + q + s == ExchangeText(j + 1, exchanges[j]);
      ContainsMiddle(q, s, []);
      assert q + s + [] == ExchangeText(j + 1, exchanges[j]);
      ContainsConcat(Block(init), ExchangeText(j + 1, exchanges[j]), q);
      ContainsConcat(Block(init), ExchangeText(j + 1, exchanges[j]), s);
    } else {
      assert init[j] == exchanges[j];
      BlockQuotes(init, j);
      ContainsConcat(Block(init), ExchangeText(|exchanges|, exchanges[n]), q);
      ContainsConcat(Block(init), ExchangeText(|exchanges|, exchanges[n]), s);
    }
  }

  /** The context quotes each of the last three exchanges, numbered 1 to 3 from the oldest. */
  lemma ContextQuotesRecent(history: seq<Exchange>, j: nat)
    requires j < |Last(history, ContextSize)|
    ensures var e := Last(history, ContextSize)[j];
      Contains(Context(history), QuestionLine(j + 1, e.question))
      && Contains(Context(history), SqlLine(j + 1, e.sql))
  {
    var recent := Last(history, ContextSize);
    var e := recent[j];
    BlockQuotes(recent, j);
    ContainsConcat(ContextHeader, Block(recent), QuestionLine(j + 1, e.question));
    ContainsConcat(ContextHeader, Block(recent), SqlLine(j + 1, e.sql));
    ContainsConcat(ContextHeader + Block(recent), ContextFooter, QuestionLine(j + 1, e.question));
    ContainsConcat(ContextHeader + Block(recent), ContextFooter, SqlLine(j + 1, e.sql));
  }

  /** Exchanges older than the last three do not reach the prompt. */
  lemma ContextIgnoresOlder(older: seq<Exchange>, recent: seq<Exchange>)
    requires |recent| >= ContextSize
    ensures Context(older + recent) == Context(recent)
  {
    LastOfSuffix(older, recent, ContextSize);
    assert older + recent != [];
  }

  /** Builds the context the way the source does: a loop appending one exchange at a time. */
  method BuildContext(history: seq<Exchange>) returns (context: string)
    ensures context == Context(history)
  {
    context := "";
    if history != [] {
      context := ContextHeader;
      var recent := Last(history, ContextSize);
      var i := 0;
      while i < |recent|
        invariant 0 <= i <= |recent|
        invariant context == ContextHeader + Block(recent[..i])
      {
        BlockStep(recent, i);
        ConcatAssoc(ContextHeader, Block(recent[..i]), ExchangeText(i + 1, recent[i]));
        context := context + ExchangeText(i + 1, recent[i]);
        i := i + 1;
      }
      assert recent[..i] == recent;
      context := context + ContextFooter;
    }
  }

  /**
   * The prompt: the fixed introduction, the context, then the question on a
   * line of its own before the fixed closing; context and question read back
   * from their places.
   */
  function ConversationalPrompt(context: string, userQuery: string): (r: string)
    ensures |r| == |ConversationIntro| + |context| + 1 + |userQuery| + |ConversationOutro|
    ensures r[|ConversationIntro|..|ConversationIntro| + |context|] == context
    ensures r[|ConversationIntro| + |context|] == '\n'
    ensures r[|ConversationIntro| + |context| + 1..|r| - |ConversationOutro|] == userQuery
    ensures r[|r| - |ConversationOutro|..] == ConversationOutro
  {
    ContainsMiddle(ConversationIntro, context, "\n" + userQuery + ConversationOutro);
    ContainsMiddle(ConversationIntro + context + "\n", userQuery, ConversationOutro);
    ConversationIntro + context + "\n" + userQuery + ConversationOutro
  }

  /** Two pieces joined by a line break, followed by text that starts a new line, occur as two lines. */
  lemma LinesBetween(a: string, b: string, c: string, d: string)
    requires |d| > 0 && d[0] == '\n'
    ensures Contains(a + b + "\n" + c + d, b + "\n" + c + "\n")
  {
    var lines := b + "\n" + c + "\n";
    assert a + b + "\n" + c + d == a + lines + d[1..];
    ContainsMiddle(a, lines, d[1..]);
  }

  /** The prompt carries the context, then the question on a line of its own. */
  lemma PromptCarriesContext(context: string, userQuery: string)
    ensures Contains(ConversationalPrompt(context, userQuery), context + "\n" + userQuery + "\n")
  {
    LinesBetween(ConversationIntro, context, userQuery, ConversationOutro);
  }

  /** The key the client is built with: the given key when truthy, else the environment's (None makes the constructor raise). */
  function ClientKey(apiKey: Option<string>, envKey: Option<string>): (r: Option<string>)
    ensures Truthy(apiKey) ==> r == apiKey
    ensures !Truthy(apiKey) ==> r == envKey
  {
    if Truthy(apiKey) then apiKey else envKey
  }

  /**
   * The history after appending `e`: the ten most recent exchanges, oldest
   * first. The exchanges before `e` are the newest of the old history, in
   * their old order.
   */
  function Recorded(history: seq<Exchange>, e: Exchange): (r: seq<Exchange>)
    ensures |r| == if |history| < HistoryLimit then |history| + 1 else HistoryLimit
    ensures r[|r| - 1] == e
    ensures forall i :: 0 <= i < |r| - 1 ==> r[i] == history[|history| - (|r| - 1) + i]
  {
    Last(history + [e], HistoryLimit)
  }

  function Replay(history: seq<Exchange>, events: seq<Exchange>): seq<Exchange>
    decreases |events|
  {
    if events == [] then history
    else Recorded(Replay(history, events[..|events| - 1]), events[|events| - 1])
  }

  /** From an empty history, the history holds the ten most recent exchanges in order. */
  lemma {:induction false} ReplayKeepsLastTen(events: seq<Exchange>)
    ensures Replay([], events) == Last(events, HistoryLimit)
    decreases |events|
  {
    if events != [] {
      var init := events[..|events| - 1];
      var e := events[|events| - 1];
      ReplayKeepsLastTen(init);
      LastAppend(init, e, HistoryLimit);
      assert init + [e] == events;
    }
  }

  class ConversationSession {
    var history: seq<Exchange>

    constructor ()
      ensures history == []
    {
      history := [];
    }

    /** The history never exceeds the limit. */
    predicate Valid()
      reads this
    {
      |history| <= HistoryLimit
    }

    /**
     * generate_conversational_sql. Without a key the client constructor
     * raises; a call that raises leaves the history alone. Every reply is
     * recorded, an empty one included.
     */
    method GenerateConversationalSql(userQuery: string, apiKey: Option<string>, envKey: Option<string>,
                                     complete: (string, string) -> Option<string>) returns (sql: Option<string>)
      requires Valid()
      modifies this
      ensures Valid()
      ensures ClientKey(apiKey, envKey).None? ==> sql.None?
      ensures ClientKey(apiKey, envKey).Some? ==>
        var reply := complete(ClientKey(apiKey, envKey).value, ConversationalPrompt(Context(old(history)), userQuery));
        sql == (if reply.Some? then Some(Clean(reply.value)) else None)
      ensures sql.Some? ==> history == Recorded(old(history), Exchange(userQuery, sql.value))
      ensures sql.None? ==> history == old(history)
    {
      var key := ClientKey(apiKey, envKey);
      if key.None? {
        return None;
      }
      var context := BuildContext(history);
      var reply := complete(key.value, ConversationalPrompt(context, userQuery));
      if reply.None? {
        return None;
      }
      var cleaned := Clean(reply.value);
      Record(Exchange(userQuery, cleaned));
      sql := Some(cleaned);
    }

    /** Saving to the conversation: append, then keep the last ten. */
    method Record(e: Exchange)
      requires Valid()
      modifies this
      ensures Valid()
      ensures history == Recorded(old(history), e)
    {
      history := history + [e];
      if |history| > HistoryLimit {
        history := history[|history| - HistoryLimit..];
      }
    }
  }
}
