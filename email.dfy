/** `EMAIL_RE = re.compile(r"(?:^|\s).*\S@\S+(?:\s|$)", re.IGNORECASE)`,
    applied with `match`, i.e. anchored at the start of the value.
    `EmailMatches` is the test the facade runs; `RegexMatch` spells the
    pattern out piece by piece, and `EmailMatchesIsRegexMatch` shows that
    the two agree on every string. Case folding changes nothing here: the
    pattern has no letters. */
module Email {
  import opened Text

  /** The simple reading of the pattern: an `@` at index i >= 1 with a
      non-space character on each side, and no line break strictly between
      index 1 and the character before the `@` (`.` does not cross a line
      break; the very first character may be one, taken by `\s`). */
  predicate AtCandidate(s: string, i: nat)
    requires 1 <= i < |s| - 1
  {
    s[i] == '@' && !IsSpace(s[i - 1]) && !IsSpace(s[i + 1])
    && forall m | 1 <= m < i - 1 :: s[m] != '\n'
  }

  /** `EMAIL_RE.match(s)` succeeds. */
  predicate EmailMatches(s: string)
    ensures EmailMatches(s) ==> |s| >= 3
  {
    exists i | 1 <= i < |s| - 1 :: AtCandidate(s, i)
  }

  /** The pattern spelled out: the leading group consumes `p` characters
      (`^`: none; `\s`: one whitespace), `.*` runs over `[p, j)` without a
      line break, `\S` is at `j`, `@` at `j + 1`, `\S+` covers
      `[j + 2, k)` and the final group sees whitespace at `k` or the end of
      the string. (`$` may also match before a final `\n`, which `\s`
      covers already.) */
  ghost predicate MatchesAt(s: string, p: nat, j: nat, k: nat) {
    p <= j && j + 3 <= k <= |s|
    && (p == 0 || (p == 1 && IsSpace(s[0])))
    && (forall m | p <= m < j :: s[m] != '\n')
    && !IsSpace(s[j]) && s[j + 1] == '@'
    && (forall m | j + 2 <= m < k :: !IsSpace(s[m]))
    && (k == |s| || IsSpace(s[k]))
  }

  ghost predicate RegexMatch(s: string) {
    exists p: nat, j: nat, k: nat :: MatchesAt(s, p, j, k)
  }

  /** Where the greedy `\S+` starting at `from` stops. */
  function RunEnd(s: string, from: nat): (k: nat)
    requires from <= |s|
    ensures from <= k <= |s|
    ensures forall m | from <= m < k :: !IsSpace(s[m])
    ensures k == |s| || IsSpace(s[k])
    decreases |s| - from
  {
    if from == |s| || IsSpace(s[from]) then from else RunEnd(s, from + 1)
  }

  /** The test the facade runs accepts exactly the strings the pattern
      matches. */
  lemma EmailMatchesIsRegexMatch(s: string)
    ensures EmailMatches(s) <==> RegexMatch(s)
  {
    if EmailMatches(s) {
      var i :| 1 <= i < |s| - 1 && AtCandidate(s, i);
      var j := i - 1;
      var k := RunEnd(s, i + 1);
      var p := if j >= 1 && s[0] == '\n' then 1 else 0;
      assert MatchesAt(s, p, j, k);
    }
    if RegexMatch(s) {
      var p: nat, j: nat, k: nat :| MatchesAt(s, p, j, k);
      assert AtCandidate(s, j + 1);
    }
  }

  /** Every accepted value holds an `@` with something on both sides. */
  lemma AcceptedHasAt(s: string)
    requires EmailMatches(s)
    ensures '@' in s && |s| >= 3
  {
    var i :| 1 <= i < |s| - 1 && AtCandidate(s, i);
    assert s[i] == '@';
  }

  /** Values the pattern accepts and rejects, among them the permissive
      cases: surrounding whitespace, and text after a space. */
  lemma EmailExamples()
    ensures EmailMatches("user@example.com")
    ensures EmailMatches(" user@example.com ")
    ensures EmailMatches("a@b c")
    ensures !EmailMatches("")
    ensures !EmailMatches("user.example.com")
    ensures !EmailMatches("@example.com")
    ensures !EmailMatches("user@")
    ensures !EmailMatches("user @example.com")
  {
    var a := "user@example.com";
    assert AtCandidate(a, 4);
    var b := " user@example.com ";
    assert AtCandidate(b, 5);
    var c := "a@b c";
    assert AtCandidate(c, 1);
    var d := "user.example.com";
    assert forall i | 0 <= i < |d| :: d[i] != '@';
    var e := "@example.com";
    assert forall i | 1 <= i < |e| :: e[i] != '@';
    var f := "user@";
    assert forall i | 1 <= i < |f| - 1 :: f[i] != '@';
    var g := "user @example.com";
    assert forall i | 1 <= i < |g| - 1 && g[i] == '@' :: i == 5 && IsSpace(g[i - 1]);
  }
}
