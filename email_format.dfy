/** The email recogniser shared, character for character, by
    agents/greeting_agent.py and tools/auth_tools.py:
    `re.match(r'^[a-zA-Z0-9._%+-]+@[a-zA-Z0-9.-]+\.[a-zA-Z]{2,}$', email)`.

    `Pattern` states what the regular expression accepts; `Matches` is a
    scanner that computes it, and its contract proves the two agree. */
module EmailFormat {

  predicate IsAsciiLetter(c: char) {
    ('a' <= c <= 'z') || ('A' <= c <= 'Z')
  }

  predicate IsAsciiDigit(c: char) {
    '0' <= c <= '9'
  }

  /** `[a-zA-Z0-9._%+-]` */
  predicate IsLocalChar(c: char) {
    IsAsciiLetter(c) || IsAsciiDigit(c) || c == '.' || c == '_' || c == '%' || c == '+' || c == '-'
  }

  /** `[a-zA-Z0-9.-]` */
  predicate IsDomainChar(c: char) {
    IsAsciiLetter(c) || IsAsciiDigit(c) || c == '.' || c == '-'
  }

  /** The whole of `s` is local part `s[..at]`, `@` at `at`, domain
      `s[at+1..dot]`, `.` at `dot` and a top-level label `s[dot+1..]` of at
      least two letters. */
  ghost predicate SplitAt(s: string, at: int, dot: int) {
    && 1 <= at && at + 2 <= dot && dot + 3 <= |s|
    && s[at] == '@' && s[dot] == '.'
    && (forall k :: 0 <= k < at ==> IsLocalChar(s[k]))
    && (forall k :: at < k < dot ==> IsDomainChar(s[k]))
    && (forall k :: dot < k < |s| ==> IsAsciiLetter(s[k]))
  }

  /** The regular expression without its `$`, matched against all of `s`. */
  ghost predicate Body(s: string) {
    exists at, dot :: SplitAt(s, at, dot)
  }

  /** What `re.match` accepts: Python's `$` matches at the end of the string
      and also just before a single final newline. */
  ghost predicate Pattern(s: string) {
    Body(s) || (|s| > 0 && s[|s| - 1] == '\n' && Body(s[..|s| - 1]))
  }

  /** End of the run of local-part characters that starts at `i`. */
  function LocalSpanFrom(s: string, i: nat): (n: nat)
    requires i <= |s|
    ensures i <= n <= |s|
    ensures forall k :: i <= k < n ==> IsLocalChar(s[k])
    ensures n == |s| || !IsLocalChar(s[n])
    decreases |s| - i
  {
    if i == |s| || !IsLocalChar(s[i]) then i else LocalSpanFrom(s, i + 1)
  }

  /** Length of the longest prefix of local-part characters. */
  function LocalSpan(s: string): (n: nat)
    ensures n <= |s|
    ensures forall k :: 0 <= k < n ==> IsLocalChar(s[k])
    ensures n == |s| || !IsLocalChar(s[n])
  {
    LocalSpanFrom(s, 0)
  }

  /** Index of the last `.` in `s[..j]`, or -1 when there is none. */
  function LastDotBefore(s: string, j: nat): (d: int)
    requires j <= |s|
    ensures -1 <= d < j
    ensures d >= 0 ==> s[d] == '.'
    ensures forall k :: d < k < j ==> s[k] != '.'
  {
    if j == 0 then -1
    else if s[j - 1] == '.' then j - 1
    else LastDotBefore(s, j - 1)
  }

  /** Index of the last `.` in `s`, or -1 when there is none. */
  function LastDot(s: string): (d: int)
    ensures -1 <= d < |s|
    ensures d >= 0 ==> s[d] == '.'
    ensures forall k :: d < k < |s| ==> s[k] != '.'
  {
    LastDotBefore(s, |s|)
  }

  /** Scanner for `Body`: the local part must run up to the first
      non-local character, which must be `@`; the domain must split at its
      last `.`, since the top-level label holds no `.`. */
  predicate BodyScan(s: string) {
    var at := LocalSpan(s);
    && 1 <= at < |s| && s[at] == '@'
    && var rest := s[at + 1..];
    && (forall k :: 0 <= k < |rest| ==> IsDomainChar(rest[k]))
    && var d := LastDot(rest);
    && 1 <= d && d + 3 <= |rest|
    && (forall k :: d < k < |rest| ==> IsAsciiLetter(rest[k]))
  }

  lemma BodyScanIsBody(s: string)
    ensures BodyScan(s) <==> Body(s)
  {
    var at := LocalSpan(s);
    if BodyScan(s) {
      var rest := s[at + 1..];
      var d := LastDot(rest);
      assert SplitAt(s, at, at + 1 + d) by {
        forall k | at < k < at + 1 + d ensures IsDomainChar(s[k]) {
          assert s[k] == rest[k - at - 1];
        }
        forall k | at + 1 + d < k < |s| ensures IsAsciiLetter(s[k]) {
          assert s[k] == rest[k - at - 1];
        }
      }
    }
    if Body(s) {
      var at', dot :| SplitAt(s, at', dot);
      // `@` is not a local character, so the local part ends exactly at at'
      assert at == at';
      var rest := s[at + 1..];
      assert forall k :: 0 <= k < |rest| ==> IsDomainChar(rest[k]) by {
        forall k | 0 <= k < |rest| ensures IsDomainChar(rest[k]) {
          assert rest[k] == s[at + 1 + k];
        }
      }
      var d := LastDot(rest);
      // the top-level label is all letters, so the last dot is the one at `dot`
      assert rest[dot - at - 1] == '.';
      assert d == dot - at - 1;
      assert forall k :: d < k < |rest| ==> IsAsciiLetter(rest[k]) by {
        forall k | d < k < |rest| ensures IsAsciiLetter(rest[k]) {
          assert rest[k] == s[at + 1 + k];
        }
      }
    }
  }

  /** `validate_email_format`: true exactly when the pattern matches. */
  function Matches(s: string): (ok: bool)
    ensures ok <==> Pattern(s)
  {
    BodyScanIsBody(s);
    BodyScanIsBody(s[..if |s| > 0 then |s| - 1 else 0]);
    BodyScan(s) || (|s| > 0 && s[|s| - 1] == '\n' && BodyScan(s[..|s| - 1]))
  }

  /** The documented examples, and the single trailing newline that `$` admits. */
  /** A well-formed address is never empty, so `if not email` lets it
      through. */
  lemma MatchedIsNonEmpty(s: string)
    requires Pattern(s)
    ensures |s| >= 5
  {
    if Body(s) {
      var at, dot :| SplitAt(s, at, dot);
    } else {
      var at, dot :| SplitAt(s[..|s| - 1], at, dot);
    }
  }

  lemma AcceptsPlainAddress()
    ensures Pattern("user@example.com")
  {
    assert SplitAt("user@example.com", 4, 12);
  }

  lemma AcceptsTrailingNewline()
    ensures Pattern("user@example.com\n")
  {
    var s := "user@example.com\n";
    assert s[..|s| - 1] == "user@example.com";
    assert SplitAt(s[..|s| - 1], 4, 12);
  }

  lemma RejectsMissingAt()
    ensures !Pattern("not-an-email")
  {
    var s := "not-an-email";
    assert LocalSpan(s) == 12;
    assert !BodyScan(s);
    assert !Matches(s);
  }

  lemma RejectsMissingDomain()
    ensures !Pattern("user@")
  {
    var s := "user@";
    assert LocalSpan(s) == 4;
    assert !BodyScan(s);
    assert !Matches(s);
  }
}
