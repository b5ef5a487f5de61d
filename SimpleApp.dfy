/**
 * The simple front end: a key field (pre-filled from the environment), an
 * optional custom prompt, a preview of the prompt, and a history that grows
 * at the end until it is cleared. The sidebar lists the five newest entries,
 * numbered by their position in the history.
 */
module SimpleApp {
  import opened Wrappers
  import opened Text
  import opened Seqs
  import opened Clock
  import GsnGenerator

  datatype Entry = Entry(timestamp: Timestamp, input: string, sql: string)

  const RecentCount := 5

  /**
   * What the custom prompt field contributes: nothing unless the checkbox is
   * ticked, and a truthy prompt only when the field is not empty as well.
   */
  function CustomArgument(useCustomPrompt: bool, customPrompt: string): (r: Option<string>)
    ensures r.Some? <==> useCustomPrompt
    ensures r.Some? ==> r.value == customPrompt
    ensures Truthy(r) <==> useCustomPrompt && customPrompt != ""
  {
    if useCustomPrompt then Some(customPrompt) else None
  }

  /** The stand-in the preview shows in front of the question when the default prompt is in use. */
  const PreviewLabel := "Convert this to SQL: "

  /**
   * The prompt shown when the preview is on: with a non-empty custom prompt
   * in use, the very prompt sent to the model; otherwise the stand-in label
   * followed by the question.
   */
  function DisplayPrompt(userQuery: string, useCustomPrompt: bool, customPrompt: string): (r: string)
    ensures useCustomPrompt && customPrompt != "" ==>
      r == GsnGenerator.PromptFor(userQuery, CustomArgument(useCustomPrompt, customPrompt))
    ensures !(useCustomPrompt && customPrompt != "") ==>
      |r| == |PreviewLabel| + |userQuery| && r[..|PreviewLabel|] == PreviewLabel && r[|PreviewLabel|..] == userQuery
  {
    if useCustomPrompt && customPrompt != "" then Replace(customPrompt, GsnGenerator.Placeholder, userQuery)
    else PreviewLabel + userQuery
  }

  /**
   * The preview is the prompt actually sent exactly when a non-empty custom
   * prompt is in use; with the default prompt it shows a one-line stand-in.
   */
  lemma PreviewMatchesSentPrompt(userQuery: string, useCustomPrompt: bool, customPrompt: string)
    ensures DisplayPrompt(userQuery, useCustomPrompt, customPrompt)
              == GsnGenerator.PromptFor(userQuery, CustomArgument(useCustomPrompt, customPrompt))
            <==> useCustomPrompt && customPrompt != ""
  {
    if !(useCustomPrompt && customPrompt != "") {
      var shown := DisplayPrompt(userQuery, useCustomPrompt, customPrompt);
      var sent := GsnGenerator.DefaultPrompt(userQuery);
      assert shown[0] == 'C';
      assert sent[0] == '\n';
    }
  }

  /** The sidebar: the last five entries, newest first, each labelled "Query n". */
  function SidebarView(history: seq<Entry>): (r: seq<(string, Entry)>)
    ensures |r| == if |history| < RecentCount then |history| else RecentCount
  {
    var recent := Reversed(Last(history, RecentCount));
    seq(|recent|, i requires 0 <= i < |recent| => ("Query " + NatToString(|history| - i), recent[i]))
  }

  /** Row i of the sidebar shows entry |history| - 1 - i, labelled with that entry's 1-based position. */
  lemma SidebarNumbersByPosition(history: seq<Entry>, i: nat)
    requires i < |SidebarView(history)|
    ensures var k := |history| - 1 - i;
      0 <= k < |history| && SidebarView(history)[i] == ("Query " + NatToString(k + 1), history[k])
  {
    var last := Last(history, RecentCount);
    ReversedAt(last, i);
  }

  class SimpleSession {
    var history: seq<Entry>

    constructor ()
      ensures history == []
    {
      history := [];
    }

    /**
     * The Generate button. A blank question or an empty key field stops
     * before anything else. Otherwise the preview is produced when asked
     * for, the key field's key is used, and a truthy statement is appended.
     */
    method Submit(userQuery: string, now: Timestamp, apiKey: string, useCustomPrompt: bool, customPrompt: string,
                  showPrompt: bool, envKey: Option<string>, complete: (string, string) -> Option<string>)
      returns (sql: Option<string>, shown: Option<string>)
      modifies this
      ensures Strip(userQuery) == "" || apiKey == "" ==> sql.None? && shown.None? && history == old(history)
      ensures Strip(userQuery) != "" && apiKey != "" ==>
        && sql == GsnGenerator.GenerateSqlQuery(userQuery, CustomArgument(useCustomPrompt, customPrompt),
                                                Some(apiKey), envKey, complete)
        && shown == (if showPrompt then Some(DisplayPrompt(userQuery, useCustomPrompt, customPrompt)) else None)
      ensures Truthy(sql) ==> history == old(history) + [Entry(now, userQuery, sql.value)]
      ensures !Truthy(sql) ==> history == old(history)
    {
      if Strip(userQuery) == "" || apiKey == "" {
        return None, None;
      }
      shown := None;
      if showPrompt {
        shown := Some(DisplayPrompt(userQuery, useCustomPrompt, customPrompt));
      }
      sql := GsnGenerator.GenerateSqlQuery(userQuery, CustomArgument(useCustomPrompt, customPrompt),
                                           Some(apiKey), envKey, complete);
      if Truthy(sql) {
        history := history + [Entry(now, userQuery, sql.value)];
      }
    }

    /** The Clear History button. */
    method ClearHistory()
      modifies this
      ensures history == []
    {
      history := [];
    }
  }
}
