/**
 * Clean-up of a chat-completion reply before it is used as SQL:
 * `reply.strip().replace("```sql", "").replace("```", "").strip()`.
 * The same expression appears in every generator of the system, so it is
 * defined once here.
 */
module ModelOutput {
  import opened Text

  const Fence := "```"
  const SqlFence := "```sql"

  /** What the clean-up promises: no code fence left and no surrounding whitespace. */
  predicate IsClean(s: string) {
    !Contains(s, Fence) && Trimmed(s)
  }

  function Clean(reply: string): (r: string)
    ensures IsClean(r)
  {
    var unfenced := Replace(Replace(Strip(reply), SqlFence, ""), Fence, "");
    FenceFree(Replace(Strip(reply), SqlFence, ""));
    StripKeepsAbsence(unfenced, Fence);
    Strip(unfenced)
  }

  /** Removing "```" cannot leave a text that starts with "``" unless the input did. */
  lemma {:induction false} NoDoubleTickAfterRemoval(t: string)
    requires !StartsWith(t, "``")
    ensures !StartsWith(Replace(t, Fence, ""), "``")
  {
    if t != [] && t[0] == '`' && |t| >= 2 {
      assert t[1] != '`';
      assert !StartsWith(t, Fence) && !StartsWith(t[1..], Fence);
      assert Replace(t, Fence, "") == [t[0]] + ([t[1]] + Replace(t[2..], Fence, ""));
    }
  }

  /** Every "```" is removed: `s.replace("```", "")` holds no "```". */
  lemma {:induction false} FenceFree(s: string)
    ensures !Contains(Replace(s, Fence, ""), Fence)
    decreases |s|
  {
    if s == [] {
    } else if StartsWith(s, Fence) {
      FenceFree(s[3..]);
      assert Replace(s, Fence, "") == Replace(s[3..], Fence, "");
    } else {
      var rest := Replace(s[1..], Fence, "");
      FenceFree(s[1..]);
      assert Replace(s, Fence, "") == [s[0]] + rest;
      assert ([s[0]] + rest)[1..] == rest;
      if s[0] == '`' {
        assert !StartsWith(s[1..], "``");
        NoDoubleTickAfterRemoval(s[1..]);
      }
    }
  }

  /** Cleaning twice is cleaning once. */
  lemma CleanIdempotent(reply: string)
    ensures Clean(Clean(reply)) == Clean(reply)
  {
    var c := Clean(reply);
    assert !Contains(c, Fence) && Trimmed(c);
    assert SqlFence[..3] == Fence;
    if Contains(c, SqlFence) {
      ContainsPrefix(c, SqlFence, 3);
    }
    ReplaceAbsent(c, SqlFence, "");
    ReplaceAbsent(c, Fence, "");
    StripTrimmed(c);
  }

  /**
   * Removing "```" from a text that holds none, followed by a closing fence,
   * gives the text back, even when the text ends in one or two backticks
   * that the scan joins to the fence.
   */
  lemma {:induction false} RemoveClosingFence(inner: string)
    requires !Contains(inner, Fence)
    ensures Replace(inner + Fence, Fence, "") == inner
    decreases |inner|
  {
    var s := inner + Fence;
    if inner == [] {
      assert s == Fence + [];
      ReplaceAtFront([], Fence, "");
    } else if StartsWith(s, Fence) {
      TicksBeforeFence(inner);
      ReplaceShort(s[3..], Fence, "");
    } else {
      assert !Contains(inner[1..], Fence);
      RemoveClosingFence(inner[1..]);
      assert s[1..] == inner[1..] + Fence;
      assert [inner[0]] + inner[1..] == inner;
    }
  }

  /**
   * A text without "```" that the scan joins to the closing fence is one or
   * two backticks, and what follows the joined fence is the text again.
   */
  lemma TicksBeforeFence(inner: string)
    requires !Contains(inner, Fence) && StartsWith(inner + Fence, Fence)
    ensures |inner| < 3 && (inner + Fence)[3..] == inner
  {
    var s := inner + Fence;
    assert |inner| < 3;
    forall k | 0 <= k < |inner| ensures inner[k] == '`' {
      assert inner[k] == s[..3][k];
    }
  }

  /** A text without "```" followed by a closing fence holds no "```sql". */
  lemma NoTagBeforeClosingFence(inner: string)
    requires !Contains(inner, Fence)
    ensures !Contains(inner + Fence, SqlFence)
  {
    var s := inner + Fence;
    if Contains(s, SqlFence) {
      var k := ContainsWitness(s, SqlFence);
      assert s[k + 5] == SqlFence[5] == 'l';
      assert k + 5 < |inner|;
      assert inner[k..k + 3] == s[k..k + 3] == SqlFence[..3] == Fence;
      ContainsAt(inner, Fence, k);
    }
  }

  /** Whitespace around a statement without "```" adds no "```". */
  lemma NoFenceAround(lead: string, stmt: string, trail: string)
    requires AllSpace(lead)
    requires AllSpace(trail)
    requires !Contains(stmt, Fence)
    ensures !Contains(lead + stmt + trail, Fence)
  {
    assert Lacks(lead, '`') && Lacks(trail, '`');
    LacksNotContains(trail, Fence, 0);
    if trail != [] {
      NotContainsAcross(stmt, trail, Fence);
    } else {
      assert stmt + trail == stmt;
    }
    NotContainsAfterLacking(lead, stmt + trail, Fence);
    assert lead + stmt + trail == lead + (stmt + trail);
  }

  /** The tagged opening fence is removed, and no other "```sql" is found. */
  lemma RemoveTaggedFence(inner: string)
    requires !Contains(inner, Fence)
    ensures Replace(SqlFence + inner + Fence, SqlFence, "") == inner + Fence
  {
    assert SqlFence + inner + Fence == SqlFence + (inner + Fence);
    ReplaceAtFront(inner + Fence, SqlFence, "");
    NoTagBeforeClosingFence(inner);
    ReplaceAbsent(inner + Fence, SqlFence, "");
  }

  /** A text that starts and ends with a backtick is left alone by `strip()`. */
  lemma StripBetweenTicks(reply: string)
    requires |reply| >= 2 && reply[0] == '`' && reply[|reply| - 1] == '`'
    ensures Strip(reply) == reply
  {
    assert !IsSpace(reply[0]) && !IsSpace(reply[|reply| - 1]);
    assert TrimLeft(reply) == reply;
  }

  /** Clean as the composition of its four steps, each known separately. */
  lemma CleanBySteps(reply: string, inner: string, stmt: string)
    requires Strip(reply) == reply
    requires Replace(reply, SqlFence, "") == inner + Fence
    requires Replace(inner + Fence, Fence, "") == inner
    requires Strip(inner) == stmt
    ensures Clean(reply) == stmt
  {
  }

  /**
   * A reply that wraps a statement in a fence tagged `sql`, with whitespace
   * around the statement, is reduced to the statement, whatever backticks
   * (quoted identifiers) the statement holds short of a fence.
   */
  lemma CleanFencedReply(lead: string, stmt: string, trail: string)
    requires AllSpace(lead)
    requires AllSpace(trail)
    requires Trimmed(stmt) && !Contains(stmt, Fence)
    ensures Clean(SqlFence + (lead + stmt + trail) + Fence) == stmt
  {
    var inner := lead + stmt + trail;
    NoFenceAround(lead, stmt, trail);
    StripBetweenTicks(SqlFence + inner + Fence);
    RemoveTaggedFence(inner);
    RemoveClosingFence(inner);
    StripAround(lead, stmt, trail);
    CleanBySteps(SqlFence + inner + Fence, inner, stmt);
  }

  /**
   * A reply that wraps a statement in an untagged fence is reduced to the
   * statement as well, provided whitespace opens the fenced text (otherwise a
   * statement starting with "sql" would lose that word to the tag removal).
   */
  lemma CleanUntaggedReply(lead: string, stmt: string, trail: string)
    requires lead != [] && AllSpace(lead)
    requires AllSpace(trail)
    requires Trimmed(stmt) && !Contains(stmt, Fence)
    ensures Clean(Fence + (lead + stmt + trail) + Fence) == stmt
  {
    var inner := lead + stmt + trail;
    var reply := Fence + inner + Fence;
    NoFenceAround(lead, stmt, trail);
    StripBetweenTicks(reply);
    NoTagInUntagged(inner);
    ReplaceAbsent(reply, SqlFence, "");
    RemoveUntaggedFence(inner);
    StripAround(lead, stmt, trail);
  }

  /** An untagged fence around a text that starts with whitespace holds no "```sql". */
  lemma NoTagInUntagged(inner: string)
    requires inner != [] && IsSpace(inner[0]) && !Contains(inner, Fence)
    ensures !Contains(Fence + inner + Fence, SqlFence)
  {
    assert Fence + inner + Fence == Fence + (inner + Fence);
    NoTagBeforeClosingFence(inner);
    LacksNotContains(Fence, SqlFence, 3);
    NotContainsAcross(Fence, inner + Fence, SqlFence);
  }

  /** Both fences of an untagged fence around a text without "```" are removed. */
  lemma RemoveUntaggedFence(inner: string)
    requires !Contains(inner, Fence)
    ensures Replace(Fence + inner + Fence, Fence, "") == inner
  {
    assert Fence + inner + Fence == Fence + (inner + Fence);
    ReplaceAtFront(inner + Fence, Fence, "");
    RemoveClosingFence(inner);
  }

  /** The reply "```sql\nSELECT 1\n```" is reduced to "SELECT 1". */
  lemma CleanExample(reply: string)
    requires reply == "```sql\nSELECT 1\n```"
    ensures Clean(reply) == "SELECT 1"
  {
    assert reply == SqlFence + ("\n" + "SELECT 1" + "\n") + Fence;
    assert AllSpace("\n");
    LacksNotContains("SELECT 1", Fence, 0);
    CleanFencedReply("\n", "SELECT 1", "\n");
  }
}
