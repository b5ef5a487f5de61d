/**
 * generate_sql_query, shared by the simple and the modern front ends: the
 * GSN Casino BigQuery prompt (or a custom prompt with the question filled
 * in), one model call, and the clean-up of the reply. The model call is a
 * parameter taking the API key and the prompt; None stands for a call that
 * raises.
 */
module GsnGenerator {
  import opened Wrappers
  import opened Text
  import opened ModelOutput

  /** The placeholder a custom prompt marks the question with. */
  const Placeholder := "{user_query}"

  /** The default prompt around the question. */
  const GsnIntro := "\n" + "You are a GSN Casino BigQuery SQL expert. Generate optimized SQL queries for GSN Casino data stored in Google BigQuery.\n\nRULES:\n- Always reference: dwh-prod-gsn-casino.gsn_agg.user_days\n- Always filter by event_day_pst to limit scanned data\n- Add LIMIT 100 only at final display step, not during intermediate aggregations\n- Use clear BigQuery syntax\n- Provide ONLY the SQL query, no explanations or commentary\n\nTABLE SCHEMA (dwh-prod-gsn-casino.gsn_agg.user_days):\n- event_day_pst: Date\n- user_id: Unique user id\n- bookings: User's revenue\n- transactions: Number of transactions\n- payer_type: Type of payer (payer_type, DolphinLapse, WhaleLapse, BassLapse, Whale, Bass, MinnowLapse, Dolphin, Blue, Minnow, OrcaLapse, BlueLapse, NULL for Non-Payer)\n- slot_spins: Number of spins in a day\n- slot_coins_used: Tokens/coins used in a day\n- slot_coins_gained: Tokens/coins gained in a day\n- platform: ios, android, amazon (mobile), others (web/webstore)\n- engagement_7d: Days active in last 7 days (7 = regular users)\n\nPAYER GROUPS:\n- High Payer: Blue, BlueLapse, Orca, OrcaLapse, Whale, WhaleLapse\n- Low Payer: Bass, BassLapse, Dolphin, DolphinLapse, Minnow, MinnowLapse\n- Non-Payer: NULL\n\nUser Request: "
  const GsnOutro := "\n\nSQL Query:\n"

  /**
   * The key the client ends up with when generation goes ahead: the key
   * passed in when truthy, else the environment's. None when neither is
   * truthy: then the client constructor raises or the key check returns
   * early, and no call is made either way.
   */
  function UsedKey(apiKey: Option<string>, envKey: Option<string>): (r: Option<string>)
    ensures r.Some? <==> Truthy(apiKey) || Truthy(envKey)
    ensures r.Some? ==> r.value != ""
    ensures Truthy(apiKey) ==> r == apiKey
  {
    if Truthy(apiKey) then apiKey
    else if Truthy(envKey) then envKey
    else None
  }

  /** The default prompt: the question, read back right after the fixed introduction, then the fixed closing. */
  function DefaultPrompt(userQuery: string): (r: string)
    ensures |r| == |GsnIntro| + |userQuery| + |GsnOutro|
    ensures r[|GsnIntro|..|GsnIntro| + |userQuery|] == userQuery
    ensures r[|r| - |GsnOutro|..] == GsnOutro
  {
    ContainsMiddle(GsnIntro, userQuery, GsnOutro);
    GsnIntro + userQuery + GsnOutro
  }

  /**
   * The prompt sent: a truthy custom prompt with every placeholder replaced
   * by the question (sent as it is when it has no placeholder); otherwise
   * the default prompt.
   */
  function PromptFor(userQuery: string, customPrompt: Option<string>): (r: string)
    ensures !Truthy(customPrompt) ==> r == DefaultPrompt(userQuery)
    ensures Truthy(customPrompt) && !Contains(customPrompt.value, Placeholder) ==> r == customPrompt.value
  {
    if !Truthy(customPrompt) then DefaultPrompt(userQuery)
    else if Contains(customPrompt.value, Placeholder) then Replace(customPrompt.value, Placeholder, userQuery)
    else
      ReplaceAbsent(customPrompt.value, Placeholder, userQuery);
      Replace(customPrompt.value, Placeholder, userQuery)
  }

  /**
   * generate_sql_query. Without a truthy key the result is None before any
   * call; otherwise the prompt goes to the model under the key in use, and a
   * reply comes back cleaned.
   */
  function GenerateSqlQuery(userQuery: string, customPrompt: Option<string>, apiKey: Option<string>,
                            envKey: Option<string>, complete: (string, string) -> Option<string>): (r: Option<string>)
    ensures !Truthy(apiKey) && !Truthy(envKey) ==> r.None?
    ensures r.Some? ==> IsClean(r.value)
    ensures r.Some? ==> complete(UsedKey(apiKey, envKey).value, PromptFor(userQuery, customPrompt)).Some?
    ensures (Truthy(apiKey) || Truthy(envKey)) &&
            complete(UsedKey(apiKey, envKey).value, PromptFor(userQuery, customPrompt)).Some? ==>
      r == Some(Clean(complete(UsedKey(apiKey, envKey).value, PromptFor(userQuery, customPrompt)).value))
  {
    match UsedKey(apiKey, envKey)
    case None => None
    case Some(key) =>
      match complete(key, PromptFor(userQuery, customPrompt))
      case None => None
      case Some(reply) => Some(Clean(reply))
  }

  /** The question stands verbatim right after "User Request: " in the default prompt. */
  lemma DefaultPromptQuotesRequest(userQuery: string)
    ensures Contains(DefaultPrompt(userQuery), "User Request: " + userQuery)
  {
    var head := GsnIntro[..|GsnIntro| - |"User Request: "|];
    assert GsnIntro == head + "User Request: ";
    ConcatAssoc(head, "User Request: ", userQuery);
    ContainsMiddle(head, "User Request: " + userQuery, GsnOutro);
  }

  /** The parts of a text separated by `sep`. */
  function Join(parts: seq<string>, sep: string): string
    requires |parts| > 0
  {
    if |parts| == 1 then parts[0] else parts[0] + sep + Join(parts[1..], sep)
  }

  /**
   * A custom prompt built from parts that do not themselves hold the
   * placeholder gets every placeholder replaced by the question, and nothing
   * else changed.
   */
  lemma {:induction false} CustomPromptFillsPlaceholders(parts: seq<string>, userQuery: string)
    requires |parts| > 0
    requires forall i :: 0 <= i < |parts| ==> !Contains(parts[i], Placeholder)
    ensures Replace(Join(parts, Placeholder), Placeholder, userQuery) == Join(parts, userQuery)
  {
    if |parts| == 1 {
      ReplaceAbsent(parts[0], Placeholder, userQuery);
    } else {
      var rest := Join(parts[1..], Placeholder);
      CustomPromptFillsPlaceholders(parts[1..], userQuery);
      assert Lacks(Placeholder[1..], Placeholder[0]);
      ReplaceBeforeOccurrence(parts[0], Placeholder, rest, userQuery);
      ReplaceAtFront(rest, Placeholder, userQuery);
      ConcatAssoc(parts[0], userQuery, Join(parts[1..], userQuery));
    }
  }

  /** With such a custom prompt in use, the prompt sent is the template with the question in every slot. */
  lemma CustomPromptSent(parts: seq<string>, userQuery: string)
    requires |parts| > 1
    requires forall i :: 0 <= i < |parts| ==> !Contains(parts[i], Placeholder)
    ensures PromptFor(userQuery, Some(Join(parts, Placeholder))) == Join(parts, userQuery)
  {
    assert |Join(parts, Placeholder)| >= |Placeholder|;
    CustomPromptFillsPlaceholders(parts, userQuery);
  }
}
