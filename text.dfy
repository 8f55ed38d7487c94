/** String operations the dashboards rely on: case mapping, `includes`, and the
    e-mail check of the shipment form (src/features/sender/OverviewTab.jsx). */
module Text {
  import opened Wrappers

  /** ASCII `toLowerCase` of one character. */
  function LowerChar(c: char): char {
    if 'A' <= c <= 'Z' then (c as int + 32) as char else c
  }

  /** ASCII `toUpperCase` of one character. */
  function UpperChar(c: char): char {
    if 'a' <= c <= 'z' then (c as int - 32) as char else c
  }

  function Lower(s: string): (r: string)
    ensures |r| == |s|
  {
    seq(|s|, i requires 0 <= i < |s| => LowerChar(s[i]))
  }

  function Upper(s: string): (r: string)
    ensures |r| == |s|
  {
    seq(|s|, i requires 0 <= i < |s| => UpperChar(s[i]))
  }

  /** `hay.includes(needle)`. */
  predicate Contains(hay: string, needle: string) {
    exists i :: 0 <= i <= |hay| && needle <= hay[i..]
  }

  /** The characters the regular-expression class `\s` matches. */
  predicate IsWhitespace(c: char) {
    c == ' ' || c == '\t' || c == '\n' || c == '\r' || c == '\U{B}' || c == '\U{C}'
    || c == '\U{A0}' || c == '\U{1680}' || ('\U{2000}' <= c <= '\U{200A}')
    || c == '\U{2028}' || c == '\U{2029}' || c == '\U{202F}' || c == '\U{205F}'
    || c == '\U{3000}' || c == '\U{FEFF}'
  }

  /** `s.trim()` is empty. */
  predicate IsBlank(s: string) {
    forall i :: 0 <= i < |s| ==> IsWhitespace(s[i])
  }

  /** No character of `s` is white space. */
  predicate NoWhitespace(s: string) {
    forall i :: 0 <= i < |s| ==> !IsWhitespace(s[i])
  }

  /** No character of `s` is `@`. */
  predicate NoAt(s: string) {
    forall i :: 0 <= i < |s| ==> s[i] != '@'
  }

  /** Every character of `s` is of the class `[^\s@]`. */
  predicate AllPlain(s: string) {
    NoWhitespace(s) && NoAt(s)
  }

  lemma NoWhitespaceSlice(s: string, a: int, b: int)
    requires 0 <= a <= b <= |s| && NoWhitespace(s)
    ensures NoWhitespace(s[a..b])
  {
    forall i | 0 <= i < b - a ensures !IsWhitespace(s[a..b][i]) {
      assert s[a..b][i] == s[a + i];
    }
  }

  lemma NoAtSlice(s: string, a: int, b: int)
    requires 0 <= a <= b <= |s| && NoAt(s)
    ensures NoAt(s[a..b])
  {
    forall i | 0 <= i < b - a ensures s[a..b][i] != '@' {
      assert s[a..b][i] == s[a + i];
    }
  }

  /** The position of the first `c` in `s`. */
  function IndexOf(s: string, c: char): (r: Option<nat>)
    ensures r.Some? ==> r.value < |s| && s[r.value] == c && forall i :: 0 <= i < r.value ==> s[i] != c
    ensures r.None? ==> forall i :: 0 <= i < |s| ==> s[i] != c
  {
    if s == [] then None
    else if s[0] == c then Some(0)
    else match IndexOf(s[1..], c)
      case None => None
      case Some(k) => Some(k + 1)
  }

  /** What the pattern `^[^\s@]+@[^\s@]+\.[^\s@]+$` accepts: three non-empty runs
      of characters that are neither white space nor `@`, joined by `@` and `.`. */
  ghost predicate MatchesEmailPattern(s: string) {
    exists k, j :: 0 < k && k + 1 < j && j + 1 < |s| && s[k] == '@' && s[j] == '.'
      && AllPlain(s[..k]) && AllPlain(s[k + 1..j]) && AllPlain(s[j + 1..])
  }

  /** What an address must satisfy once its first `@` is found at `k`: something before
      it, no white space anywhere, no second `@`, and a `.` after it that is neither right
      after the `@` nor last. */
  predicate ValidFrom(email: string, k: nat)
    requires k < |email|
  {
    && k > 0
    && NoWhitespace(email)
    && NoAt(email[k + 1..])
    && |email| >= k + 4
    && '.' in email[k + 2..|email| - 1]
  }

  /** `isValidEmail`: false for an empty address; otherwise the pattern test, computed
      by locating the first `@` (EmailCheckMatchesPattern shows the two agree). */
  function IsValidEmail(email: string): bool {
    if email == "" then false
    else match IndexOf(email, '@')
      case None => false
      case Some(k) => ValidFrom(email, k)
  }

  /** Every address the check accepts matches the regular expression. */
  lemma EmailCheckSound(s: string)
    requires IsValidEmail(s)
    ensures MatchesEmailPattern(s)
  {
    var k := IndexOf(s, '@').value;
    var rest := s[k + 1..];
    var inner := s[k + 2..|s| - 1];
    var d :| 0 <= d < |inner| && inner[d] == '.';
    var j := k + 2 + d;
    assert s[j] == inner[d];
    NoWhitespaceSlice(s, 0, k);
    NoWhitespaceSlice(s, k + 1, j);
    NoWhitespaceSlice(s, j + 1, |s|);
    assert NoAt(s[..k]) by {
      forall i | 0 <= i < k ensures s[..k][i] != '@' {
        assert s[..k][i] == s[i];
      }
    }
    NoAtSlice(rest, 0, j - k - 1);
    assert rest[0..j - k - 1] == s[k + 1..j];
    NoAtSlice(rest, j - k, |rest|);
    assert rest[j - k..|rest|] == s[j + 1..];
    assert 0 < k && k + 1 < j && j + 1 < |s| && s[k] == '@' && s[j] == '.'
      && AllPlain(s[..k]) && AllPlain(s[k + 1..j]) && AllPlain(s[j + 1..]);
  }

  /** `indexOf` finds the first occurrence. */
  lemma {:induction false} IndexOfFirst(s: string, c: char, k: nat)
    requires k < |s| && s[k] == c && forall i :: 0 <= i < k ==> s[i] != c
    ensures IndexOf(s, c) == Some(k)
  {
    if k > 0 {
      IndexOfFirst(s[1..], c, k - 1);
    }
  }

  /** Three runs of `[^\s@]` joined by `@` at `k` and `.` at `j`: the only `@` is at `k`
      and there is no white space. */
  lemma JoinedRuns(s: string, k: int, j: int)
    requires 0 < k && k + 1 < j && j + 1 < |s| && s[k] == '@' && s[j] == '.'
    requires AllPlain(s[..k]) && AllPlain(s[k + 1..j]) && AllPlain(s[j + 1..])
    ensures NoWhitespace(s)
    ensures forall i :: 0 <= i < |s| && i != k ==> s[i] != '@'
  {
    var local, mid, tld := s[..k], s[k + 1..j], s[j + 1..];
    forall i | 0 <= i < |s| ensures !IsWhitespace(s[i]) && (i != k ==> s[i] != '@') {
      if i < k { assert s[i] == local[i]; }
      else if k < i < j { assert s[i] == mid[i - k - 1]; }
      else if i > j { assert s[i] == tld[i - j - 1]; }
    }
  }

  lemma NoAtAfter(s: string, k: int)
    requires 0 <= k < |s| && forall i :: k < i < |s| ==> s[i] != '@'
    ensures NoAt(s[k + 1..])
  {
    var rest := s[k + 1..];
    forall i | 0 <= i < |rest| ensures rest[i] != '@' {
      assert rest[i] == s[k + 1 + i];
    }
  }

  /** Every address the regular expression matches passes the check. */
  lemma EmailCheckComplete(s: string)
    requires MatchesEmailPattern(s)
    ensures IsValidEmail(s)
  {
    var k, j :| 0 < k && k + 1 < j && j + 1 < |s| && s[k] == '@' && s[j] == '.'
      && AllPlain(s[..k]) && AllPlain(s[k + 1..j]) && AllPlain(s[j + 1..]);
    JoinedRuns(s, k, j);
    IndexOfFirst(s, '@', k);
    NoAtAfter(s, k);
    assert s[k + 2..|s| - 1][j - k - 2] == '.';
    assert ValidFrom(s, k);
  }

  /** The check accepts exactly what the regular expression accepts. */
  lemma EmailCheckMatchesPattern(s: string)
    ensures IsValidEmail(s) <==> MatchesEmailPattern(s)
  {
    if IsValidEmail(s) { EmailCheckSound(s); }
    if MatchesEmailPattern(s) { EmailCheckComplete(s); }
  }

  /** A valid address has exactly one `@`, not at the start, and a `.` after it. */
  lemma ValidEmailShape(s: string)
    requires IsValidEmail(s)
    ensures exists k :: && 0 < k < |s| && s[k] == '@'
                        && (forall i :: 0 <= i < |s| && i != k ==> s[i] != '@')
                        && (exists j :: k + 1 < j < |s| - 1 && s[j] == '.')
  {
    var k := IndexOf(s, '@').value;
    forall i | 0 <= i < |s| && i != k ensures s[i] != '@' {
      if i > k { assert s[i] == s[k + 1..][i - k - 1]; }
    }
    var inner := s[k + 2..|s| - 1];
    var d :| 0 <= d < |inner| && inner[d] == '.';
    assert s[k + 2 + d] == inner[d];
  }
}
