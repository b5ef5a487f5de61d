/**
 * The modern front end: a question goes to the GSN generator with the
 * environment's key and the default prompt; a generated statement is put at
 * the front of the history, which keeps the ten most recent entries, and the
 * Recent Queries list below the page lists the first five.
 */
module ModernApp {
  import opened Wrappers
  import opened Text
  import opened Seqs
  import opened Clock
  import GsnGenerator

  datatype Entry = Entry(timestamp: Timestamp, question: string, sql: string)

  const HistoryLimit := 10
  const RecentCount := 5

  /** The history after recording `e`: newest first, cut to the limit. */
  function Recorded(history: seq<Entry>, e: Entry): (r: seq<Entry>)
    ensures |r| == if |history| < HistoryLimit then |history| + 1 else HistoryLimit
    ensures r[0] == e
    ensures forall i :: 1 <= i < |r| ==> r[i] == history[i - 1]
  {
    Take([e] + history, HistoryLimit)
  }

  /** The history after recording each of `events` in turn. */
  function Replay(history: seq<Entry>, events: seq<Entry>): seq<Entry>
    decreases |events|
  {
    if events == [] then history
    else Recorded(Replay(history, events[..|events| - 1]), events[|events| - 1])
  }

  /** From an empty history, the history holds the ten newest entries, newest first. */
  lemma {:induction false} ReplayNewestFirst(events: seq<Entry>)
    ensures Replay([], events) == Take(Reversed(events), HistoryLimit)
    decreases |events|
  {
    if events != [] {
      var init := events[..|events| - 1];
      var e := events[|events| - 1];
      ReplayNewestFirst(init);
      TakePush(e, Reversed(init), HistoryLimit);
      assert events == init + [e];
      ReversedAppend(init, e);
    }
  }

  /** The Recent Queries list: the first five entries, i.e. the five newest. */
  function RecentView(history: seq<Entry>): (r: seq<Entry>)
    ensures |r| == if |history| < RecentCount then |history| else RecentCount
    ensures r == history[..|r|]
  {
    Take(history, RecentCount)
  }

  /** Replayed from empty, the Recent Queries list shows the five newest entries, newest first. */
  lemma RecentViewNewest(events: seq<Entry>)
    ensures RecentView(Replay([], events)) == Take(Reversed(events), RecentCount)
  {
    ReplayNewestFirst(events);
  }

  class ModernSession {
    var history: seq<Entry>

    constructor ()
      ensures history == []
    {
      history := [];
    }

    /** The history never exceeds the limit. */
    predicate Valid()
      reads this
    {
      |history| <= HistoryLimit
    }

    /**
     * The Generate button: a blank question only warns. Otherwise the
     * environment's key and the default prompt are used (the key field in the
     * configuration card does not reach the generator), and a truthy
     * statement is recorded.
     */
    method Submit(userQuery: string, now: Timestamp, envKey: Option<string>,
                  complete: (string, string) -> Option<string>) returns (sql: Option<string>)
      requires Valid()
      modifies this
      ensures Valid()
      ensures Strip(userQuery) == "" ==> sql.None? && history == old(history)
      ensures Strip(userQuery) != "" ==> sql == GsnGenerator.GenerateSqlQuery(userQuery, None, None, envKey, complete)
      ensures Truthy(sql) ==> history == Recorded(old(history), Entry(now, userQuery, sql.value))
      ensures !Truthy(sql) ==> history == old(history)
    {
      if Strip(userQuery) == "" {
        return None;
      }
      sql := GsnGenerator.GenerateSqlQuery(userQuery, None, None, envKey, complete);
      if Truthy(sql) {
        Record(Entry(now, userQuery, sql.value));
      }
    }

    /** Saving to the history: insert at the front, then keep the first ten. */
    method Record(e: Entry)
      requires Valid()
      modifies this
      ensures Valid()
      ensures history == Recorded(old(history), e)
    {
      history := [e] + history;
      if |history| > HistoryLimit {
        history := history[..HistoryLimit];
      }
    }
  }
}
