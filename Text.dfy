/**
 * The Python `str` operations the system applies to SQL text and prompts:
 * `in` (substring test), `upper()`, `strip()`, `replace(old, new)` and
 * `str(n)` for a natural number.
 */
module Text {
  import opened Wrappers

  /** Python truthiness of an optional string: present and not empty. */
  predicate Truthy(s: Option<string>) {
    s.Some? && s.value != ""
  }

  /* ------------------------------------------------------------------- in */

  predicate StartsWith(s: string, p: string) {
    |p| <= |s| && s[..|p|] == p
  }

  /** Python's `p in s`: p occurs in s as a contiguous block (the empty string occurs everywhere). */
  predicate Contains(s: string, p: string)
    decreases |s|
  {
    StartsWith(s, p) || (|s| > 0 && Contains(s[1..], p))
  }

  lemma {:induction false} ContainsAt(s: string, p: string, k: nat)
    requires k + |p| <= |s| && s[k..k + |p|] == p
    ensures Contains(s, p)
    decreases k
  {
    if k > 0 {
      assert s[1..][k - 1..k - 1 + |p|] == s[k..k + |p|];
      ContainsAt(s[1..], p, k - 1);
    }
  }

  lemma {:induction false} ContainsWitness(s: string, p: string) returns (k: nat)
    requires Contains(s, p)
    ensures k + |p| <= |s| && s[k..k + |p|] == p
    decreases |s|
  {
    if StartsWith(s, p) {
      k := 0;
    } else {
      var j := ContainsWitness(s[1..], p);
      k := j + 1;
      assert s[k..k + |p|] == s[1..][j..j + |p|];
    }
  }

  /** An occurrence inside a slice is an occurrence in the whole string. */
  lemma ContainsSlice(s: string, i: nat, j: nat, p: string)
    requires i <= j <= |s| && Contains(s[i..j], p)
    ensures Contains(s, p)
  {
    var t := s[i..j];
    var k := ContainsWitness(t, p);
    forall m | 0 <= m < |p|
      ensures s[i + k..i + k + |p|][m] == p[m]
    {
      assert t[k..k + |p|][m] == p[m];
    }
    ContainsAt(s, p, i + k);
  }

  /** A text that contains p contains every prefix of p. */
  lemma ContainsPrefix(s: string, p: string, m: nat)
    requires Contains(s, p) && m <= |p|
    ensures Contains(s, p[..m])
  {
    var k := ContainsWitness(s, p);
    assert s[k..k + m] == s[k..k + |p|][..m];
    ContainsAt(s, p[..m], k);
  }

  lemma ContainsConcat(a: string, b: string, p: string)
    requires Contains(a, p) || Contains(b, p)
    ensures Contains(a + b, p)
  {
    if Contains(a, p) {
      assert (a + b)[0..|a|] == a;
      ContainsSlice(a + b, 0, |a|, p);
    } else {
      assert (a + b)[|a|..|a + b|] == b;
      ContainsSlice(a + b, |a|, |a + b|, p);
    }
  }

  lemma ConcatAssoc(a: string, b: string, c: string)
    ensures a + b + c == a + (b + c)
  {
  }

  /** A piece between a prefix and a suffix occurs in the whole, at the prefix's length. */
  lemma ContainsMiddle(a: string, b: string, c: string)
    ensures Contains(a + b + c, b)
    ensures (a + b + c)[|a|..|a| + |b|] == b
  {
    ContainsAt(a + b + c, b, |a|);
  }

  /** The character c does not occur in s. */
  predicate Lacks(s: string, c: char) {
    forall i :: 0 <= i < |s| ==> s[i] != c
  }

  /** A pattern holding a character the text lacks does not occur in it. */
  lemma {:induction false} LacksNotContains(s: string, p: string, j: nat)
    requires j < |p| && Lacks(s, p[j])
    ensures !Contains(s, p)
    decreases |s|
  {
    if |p| <= |s| {
      assert s[..|p|][j] != p[j];
    }
    if s != [] {
      LacksNotContains(s[1..], p, j);
    }
  }

  /**
   * A pattern that occurs in neither part, and lacks the second part's first
   * character, cannot occur across the seam either.
   */
  lemma {:induction false} NotContainsAcross(a: string, b: string, p: string)
    requires b != [] && Lacks(p, b[0])
    requires !Contains(a, p) && !Contains(b, p)
    ensures !Contains(a + b, p)
    decreases |a|
  {
    if a == [] {
      assert a + b == b;
    } else {
      if |p| <= |a| {
        assert (a + b)[..|p|] == a[..|p|];
      } else if |p| <= |a + b| {
        assert (a + b)[..|p|][|a|] == b[0] != p[|a|];
      }
      assert (a + b)[1..] == a[1..] + b;
      NotContainsAcross(a[1..], b, p);
    }
  }

  /** Characters that cannot start `p` add no occurrence of `p` in front of `b`. */
  lemma {:induction false} NotContainsAfterLacking(a: string, b: string, p: string)
    requires |p| > 0 && Lacks(a, p[0]) && !Contains(b, p)
    ensures !Contains(a + b, p)
    decreases |a|
  {
    if a == [] {
      assert a + b == b;
    } else {
      if |p| <= |a + b| {
        assert (a + b)[..|p|][0] == a[0] != p[0];
      }
      assert (a + b)[1..] == a[1..] + b;
      NotContainsAfterLacking(a[1..], b, p);
    }
  }

  /* ---------------------------------------------------------------- upper() */

  /** Upper-casing of one character; only ASCII letters are mapped. */
  function UpperChar(c: char): char {
    if 'a' <= c <= 'z' then (c as int - 'a' as int + 'A' as int) as char else c
  }

  function Upper(s: string): (r: string)
    ensures |r| == |s|
    ensures forall i :: 0 <= i < |s| ==> r[i] == UpperChar(s[i])
  {
    seq(|s|, i requires 0 <= i < |s| => UpperChar(s[i]))
  }

  lemma UpperConcat(a: string, b: string)
    ensures Upper(a + b) == Upper(a) + Upper(b)
  {
  }

  /* ---------------------------------------------------------------- strip() */

  /** Python's `str.isspace()` for one character: the characters `strip()` removes. */
  predicate IsSpace(c: char) {
    c == ' ' || c == '\t' || c == '\n' || c == '\r' || c == '\U{0B}' || c == '\U{0C}'
    || ('\U{1C}' <= c <= '\U{1F}') || c == '\U{85}' || c == '\U{A0}' || c == '\U{1680}'
    || ('\U{2000}' <= c <= '\U{200A}') || c == '\U{2028}' || c == '\U{2029}'
    || c == '\U{202F}' || c == '\U{205F}' || c == '\U{3000}'
  }

  predicate AllSpace(s: string) {
    forall i :: 0 <= i < |s| ==> IsSpace(s[i])
  }

  /** No whitespace at either end. */
  predicate Trimmed(s: string) {
    s != [] ==> !IsSpace(s[0]) && !IsSpace(s[|s| - 1])
  }

  /** `s.lstrip()` */
  function TrimLeft(s: string): (r: string)
    ensures |r| <= |s| && r == s[|s| - |r|..]
    ensures r != [] ==> !IsSpace(r[0])
    decreases |s|
  {
    if s != [] && IsSpace(s[0]) then TrimLeft(s[1..]) else s
  }

  /** `s.rstrip()` */
  function TrimRight(s: string): (r: string)
    ensures |r| <= |s| && r == s[..|r|]
    ensures r != [] ==> !IsSpace(r[|r| - 1])
    decreases |s|
  {
    if s != [] && IsSpace(s[|s| - 1]) then TrimRight(s[..|s| - 1]) else s
  }

  /** The number of characters `lstrip()` removes. */
  function LeadingSpaces(s: string): nat {
    |s| - |TrimLeft(s)|
  }

  /** `s.strip()`: the longest slice of s that neither starts nor ends with whitespace. */
  function Strip(s: string): (r: string)
    ensures Trimmed(r)
    ensures LeadingSpaces(s) + |r| <= |s| && r == s[LeadingSpaces(s)..LeadingSpaces(s) + |r|]
  {
    var l := TrimLeft(s);
    var r := TrimRight(l);
    assert r == s[|s| - |l|..|s| - |l| + |r|];
    r
  }

  /** Leading whitespace in front of a text that does not start with whitespace is removed. */
  lemma {:induction false} TrimLeftSpaces(lead: string, rest: string)
    requires AllSpace(lead)
    requires rest == [] || !IsSpace(rest[0])
    ensures TrimLeft(lead + rest) == rest
    decreases |lead|
  {
    if lead == [] {
      assert lead + rest == rest;
    } else {
      assert (lead + rest)[1..] == lead[1..] + rest;
      TrimLeftSpaces(lead[1..], rest);
    }
  }

  /** Trailing whitespace after a text that does not end with whitespace is removed. */
  lemma {:induction false} TrimRightSpaces(rest: string, trail: string)
    requires AllSpace(trail)
    requires rest == [] || !IsSpace(rest[|rest| - 1])
    ensures TrimRight(rest + trail) == rest
    decreases |trail|
  {
    if trail == [] {
      assert rest + trail == rest;
    } else {
      var n := |trail| - 1;
      assert (rest + trail)[..|rest + trail| - 1] == rest + trail[..n];
      TrimRightSpaces(rest, trail[..n]);
    }
  }

  /** `(lead + s + trail).strip() == s` when lead and trail are whitespace and s is already stripped. */
  lemma StripAround(lead: string, s: string, trail: string)
    requires AllSpace(lead)
    requires AllSpace(trail)
    requires Trimmed(s)
    ensures Strip(lead + s + trail) == s
  {
    if s == [] {
      assert lead + s + trail == (lead + trail) + [];
      TrimLeftSpaces(lead + trail, []);
    } else {
      assert lead + s + trail == lead + (s + trail);
      TrimLeftSpaces(lead, s + trail);
      TrimRightSpaces(s, trail);
    }
  }

  lemma StripTrimmed(s: string)
    requires Trimmed(s)
    ensures Strip(s) == s
  {
  }

  /** Stripping never creates an occurrence of a pattern. */
  lemma StripKeepsAbsence(s: string, p: string)
    requires !Contains(s, p)
    ensures !Contains(Strip(s), p)
  {
    var r := Strip(s);
    var i := LeadingSpaces(s);
    if Contains(r, p) {
      ContainsSlice(s, i, i + |r|, p);
    }
  }

  /* -------------------------------------------------------------- replace() */

  /**
   * `s.replace(p, q)` for a non-empty p: occurrences of p are found from the
   * left and do not overlap; each one is replaced by q.
   */
  function Replace(s: string, p: string, q: string): string
    requires |p| > 0
    decreases |s|
  {
    if s == [] then []
    else if StartsWith(s, p) then q + Replace(s[|p|..], p, q)
    else [s[0]] + Replace(s[1..], p, q)
  }

  lemma {:induction false} ReplaceAbsent(s: string, p: string, q: string)
    requires |p| > 0 && !Contains(s, p)
    ensures Replace(s, p, q) == s
    decreases |s|
  {
    if s != [] {
      ReplaceAbsent(s[1..], p, q);
    }
  }

  /** An occurrence at the front is replaced and scanning resumes after it. */
  lemma ReplaceAtFront(s: string, p: string, q: string)
    requires |p| > 0
    ensures Replace(p + s, p, q) == q + Replace(s, p, q)
  {
    assert StartsWith(p + s, p);
    assert (p + s)[|p|..] == s;
  }

  /** A prefix holding no first character of the pattern is copied unchanged. */
  lemma {:induction false} ReplaceSkipsPrefix(a: string, b: string, p: string, q: string)
    requires |p| > 0 && Lacks(a, p[0])
    ensures Replace(a + b, p, q) == a + Replace(b, p, q)
    decreases |a|
  {
    if a == [] {
      assert a + b == b;
    } else {
      assert (a + b)[0] == a[0] != p[0];
      assert !StartsWith(a + b, p);
      assert (a + b)[1..] == a[1..] + b;
      ReplaceSkipsPrefix(a[1..], b, p, q);
    }
  }

  /**
   * Text before the first occurrence of a pattern is copied unchanged, as
   * long as the pattern's first character does not recur inside it (so no
   * occurrence can start in the text and end in the pattern).
   */
  lemma {:induction false} ReplaceBeforeOccurrence(a: string, p: string, rest: string, q: string)
    requires |p| > 0 && Lacks(p[1..], p[0]) && !Contains(a, p)
    ensures Replace(a + p + rest, p, q) == a + Replace(p + rest, p, q)
    decreases |a|
  {
    if a == [] {
      assert a + p + rest == p + rest;
    } else {
      var s := a + p + rest;
      if |p| <= |a| {
        assert s[..|p|] == a[..|p|];
      } else {
        assert s[..|p|][|a|] == p[0];
        assert p[1..][|a| - 1] == p[|a|];
      }
      assert !StartsWith(s, p);
      assert s[1..] == a[1..] + p + rest;
      ReplaceBeforeOccurrence(a[1..], p, rest, q);
    }
  }

  /** A text shorter than the pattern is copied unchanged. */
  lemma {:induction false} ReplaceShort(s: string, p: string, q: string)
    requires 0 < |p| && |s| < |p|
    ensures Replace(s, p, q) == s
    decreases |s|
  {
    if s != [] {
      ReplaceShort(s[1..], p, q);
    }
  }

  /* ------------------------------------------------------------------ str() */

  function DigitChar(d: nat): char
    requires d < 10
  {
    "0123456789"[d]
  }

  predicate IsDigit(c: char) {
    '0' <= c <= '9'
  }

  /** `str(n)`: the decimal digits of n, without leading zeros. */
  function NatToString(n: nat): (r: string)
    ensures r != []
    ensures forall i :: 0 <= i < |r| ==> IsDigit(r[i])
    decreases n
  {
    if n < 10 then [DigitChar(n)] else NatToString(n / 10) + [DigitChar(n % 10)]
  }
}
