/**
 * The payload classifier `SecurityFilter.is_malicious` (mafia/security.py).
 *
 * Two case-insensitive regular expressions are searched for anywhere in the
 * payload. The XSS family is `<script>` or `<.*onerror=.*?>`; the SQL
 * injection family is one of UNION, SELECT, DROP, INSERT, UPDATE, DELETE,
 * `--` or a double quote. A regular-expression search succeeds when the
 * pattern matches at some position, so each family is stated here as "there
 * is a position where ...".
 */
module Security {

  /**
   * Case folding as Python's `re.IGNORECASE` applies it to the lower-case ASCII
   * letters of the patterns: the 26 upper-case ASCII letters fold to lower
   * case, and so do four non-ASCII letters that Python treats as case variants
   * of `i`, `s` and `k`. Every other character only matches itself.
   */
  function Fold(c: char): char {
    if 'A' <= c <= 'Z' then (c as int + 32) as char
    else if c == '\U{0130}' || c == '\U{0131}' then 'i'  // dotted capital I, dotless small i
    else if c == '\U{017F}' then 's'                       // long s
    else if c == '\U{212A}' then 'k'                       // Kelvin sign
    else c
  }

  /** The lower-case pattern `pat` matches `s` at position `i`, ignoring case. */
  predicate MatchesAt(s: string, pat: string, i: int) {
    0 <= i && i + |pat| <= |s| &&
    forall k | 0 <= k < |pat| :: Fold(s[i + k]) == pat[k]
  }

  /** A case-insensitive search for the literal pattern `pat` succeeds. */
  predicate ContainsFolded(s: string, pat: string) {
    exists i | 0 <= i <= |s| - |pat| :: MatchesAt(s, pat, i)
  }

  /** `.` without DOTALL: every character of s[lo..hi] matches it. */
  predicate NoNewline(s: string, lo: int, hi: int) {
    forall m | lo <= m < hi && 0 <= m < |s| :: s[m] != '\n'
  }

  const OnerrorAttr := "onerror="

  /**
   * A search for `<.*onerror=.*?>` succeeds: a `<` at i, `onerror=` at some
   * j > i and a `>` at some k at or after the end of `onerror=`, all on one
   * line. The attribute text itself holds no newline, so "no newline from
   * i up to k" is the same as "no newline in either `.*`".
   */
  predicate OnerrorTag(s: string) {
    exists i, j, k | 0 <= i < j && j + |OnerrorAttr| <= k < |s| ::
      s[i] == '<' && MatchesAt(s, OnerrorAttr, j) && s[k] == '>' && NoNewline(s, i, k)
  }

  const ScriptTag := "<script>"

  /** The alternatives of the SQL injection pattern, folded to lower case. */
  const SqlTokens: seq<string> := ["union", "select", "drop", "insert", "update", "delete", "--", "\""]

  predicate IsXss(s: string) {
    ContainsFolded(s, ScriptTag) || OnerrorTag(s)
  }

  predicate IsSqlInjection(s: string) {
    exists t | 0 <= t < |SqlTokens| :: ContainsFolded(s, SqlTokens[t])
  }

  /** `SecurityFilter.is_malicious`. */
  predicate IsMalicious(payload: string) {
    IsXss(payload) || IsSqlInjection(payload)
  }

  /** `w` spells the lower-case pattern `pat` in some mixture of letter cases. */
  predicate SpellsFolded(w: string, pat: string) {
    |w| == |pat| && MatchesAt(w, pat, 0)
  }

  lemma InfixMatches(pre: string, w: string, post: string, pat: string)
    requires SpellsFolded(w, pat)
    ensures MatchesAt(pre + w + post, pat, |pre|)
  {
    var s := pre + w + post;
    forall k | 0 <= k < |pat| ensures Fold(s[|pre| + k]) == pat[k] {
      assert s[|pre| + k] == w[k];
    }
  }

  lemma MatchesAtShift(s: string, pre: string, post: string, pat: string, i: int)
    requires MatchesAt(s, pat, i)
    ensures MatchesAt(pre + s + post, pat, |pre| + i)
  {
    var t := pre + s + post;
    forall k | 0 <= k < |pat| ensures Fold(t[|pre| + i + k]) == pat[k] {
      assert t[|pre| + i + k] == s[i + k];
    }
  }

  lemma ContainsFoldedShift(s: string, pre: string, post: string, pat: string)
    requires ContainsFolded(s, pat)
    ensures ContainsFolded(pre + s + post, pat)
  {
    var i :| 0 <= i <= |s| - |pat| && MatchesAt(s, pat, i);
    MatchesAtShift(s, pre, post, pat, i);
  }

  /** Any letter-case spelling of `<script>`, anywhere in a payload, is malicious. */
  lemma ScriptTagAnyCase(pre: string, tag: string, post: string)
    requires SpellsFolded(tag, ScriptTag)
    ensures IsMalicious(pre + tag + post)
  {
    InfixMatches(pre, tag, post, ScriptTag);
  }

  /**
   * Any letter-case spelling of UNION, SELECT, DROP, INSERT, UPDATE or DELETE
   * is malicious wherever it occurs, even inside a longer word. The index `t`
   * picks one of the six keyword entries of `SqlTokens`: 0 union, 1 select,
   * 2 drop, 3 insert, 4 update, 5 delete.
   */
  lemma SqlKeywordAnyCase(pre: string, word: string, post: string, t: int)
    requires 0 <= t < 6
    requires SpellsFolded(word, SqlTokens[t])
    ensures IsMalicious(pre + word + post)
  {
    InfixMatches(pre, word, post, SqlTokens[t]);
  }

  /** A `--` comment marker or a double quote anywhere makes a payload malicious. */
  lemma CommentOrDoubleQuote(pre: string, post: string)
    ensures IsMalicious(pre + "--" + post)
    ensures IsMalicious(pre + "\"" + post)
  {
    InfixMatches(pre, "--", post, SqlTokens[6]);
    InfixMatches(pre, "\"", post, SqlTokens[7]);
  }

  /**
   * A `<`, then on the same line `onerror=` in any letter case, then a `>`
   * is malicious.
   */
  lemma OnerrorAnyCase(pre: string, gap1: string, attr: string, gap2: string, post: string)
    requires SpellsFolded(attr, OnerrorAttr)
    requires forall m | 0 <= m < |gap1| :: gap1[m] != '\n'
    requires forall m | 0 <= m < |gap2| :: gap2[m] != '\n'
    ensures IsMalicious(pre + "<" + gap1 + attr + gap2 + ">" + post)
  {
    var s := pre + "<" + gap1 + attr + gap2 + ">" + post;
    var i := |pre|;
    var j := i + 1 + |gap1|;
    var k := j + |attr| + |gap2|;
    assert s == (pre + "<" + gap1) + attr + (gap2 + ">" + post);
    InfixMatches(pre + "<" + gap1, attr, gap2 + ">" + post, OnerrorAttr);
    assert s[i] == '<';
    assert s[k] == '>';
    forall m | i <= m < k && 0 <= m < |s| ensures s[m] != '\n' {
      if m == i {
      } else if m < j {
        assert s[m] == gap1[m - i - 1];
      } else if m < j + |attr| {
        assert Fold(s[m]) == OnerrorAttr[m - j];
      } else {
        assert s[m] == gap2[m - j - |attr|];
      }
    }
    assert OnerrorTag(s);
  }

  /**
   * The search is unanchored, so a malicious payload stays malicious inside
   * any longer payload.
   */
  lemma MaliciousMonotone(s: string, pre: string, post: string)
    requires IsMalicious(s)
    ensures IsMalicious(pre + s + post)
  {
    var t := pre + s + post;
    if ContainsFolded(s, ScriptTag) {
      ContainsFoldedShift(s, pre, post, ScriptTag);
    } else if OnerrorTag(s) {
      var i, j, k :| 0 <= i < j && j + |OnerrorAttr| <= k < |s| &&
        s[i] == '<' && MatchesAt(s, OnerrorAttr, j) && s[k] == '>' && NoNewline(s, i, k);
      var d := |pre|;
      MatchesAtShift(s, pre, post, OnerrorAttr, j);
      assert t[d + i] == s[i] && t[d + k] == s[k];
      forall m | d + i <= m < d + k && 0 <= m < |t| ensures t[m] != '\n' {
        assert t[m] == s[m - d];
      }
      assert NoNewline(t, d + i, d + k);
      assert OnerrorTag(t);
    } else {
      var x :| 0 <= x < |SqlTokens| && ContainsFolded(s, SqlTokens[x]);
      ContainsFoldedShift(s, pre, post, SqlTokens[x]);
    }
  }

  /** A payload in which no character folds to `c` cannot contain a pattern that has `c`. */
  lemma LacksChar(s: string, pat: string, c: char)
    requires c in pat
    requires forall m | 0 <= m < |s| :: Fold(s[m]) != c
    ensures !ContainsFolded(s, pat)
  {
    var p :| 0 <= p < |pat| && pat[p] == c;
    forall i | 0 <= i <= |s| - |pat| ensures !MatchesAt(s, pat, i) {
      assert Fold(s[i + p]) != pat[p];
    }
  }

  /** Without a `<`, or without a character folding to `c` of `onerror=`, there is no tag. */
  lemma LacksTagChar(s: string, c: char)
    requires c == '<' || c in OnerrorAttr
    requires forall m | 0 <= m < |s| :: Fold(s[m]) != c
    ensures !OnerrorTag(s)
  {
    if c != '<' {
      LacksChar(s, OnerrorAttr, c);
    }
  }

  /** The XSS examples of tests/test_security.py are flagged. */
  lemma XssExamples()
    ensures IsMalicious("<script>alert(1)</script>")
    ensures IsMalicious("<img onerror=alert(1)>")
  {
    assert MatchesAt("<script>alert(1)</script>", ScriptTag, 0);
    OnerrorAnyCase("", "img ", "onerror=", "alert(1)", "");
    assert "" + "<" + "img " + "onerror=" + "alert(1)" + ">" + "" == "<img onerror=alert(1)>";
  }

  /** The SQL injection examples of tests/test_security.py are flagged. */
  lemma SqlInjectionExamples()
    ensures IsMalicious("' UNION SELECT * FROM users --")
    ensures IsMalicious("'; DROP TABLE users;--")
    ensures IsMalicious("admin'--")
  {
    assert MatchesAt("' UNION SELECT * FROM users --", SqlTokens[0], 2);
    assert MatchesAt("'; DROP TABLE users;--", SqlTokens[2], 3);
    assert MatchesAt("admin'--", SqlTokens[6], 6);
  }

  /** The clean examples of tests/test_security.py are not flagged. */
  lemma BenignExamples()
    ensures !IsMalicious("")
    ensures !IsMalicious("john_doe")
    ensures !IsMalicious("user@example.com")
    ensures !IsMalicious("123456")
    ensures !IsMalicious("<b>hello</b>")
  {
    // one letter per pattern, absent from the payload: <script> '<', tag '<', union u, select t, drop r, insert t, update u, delete t, -- '-', quote '"'
    BenignWhenLacking("", "<<utrtut-\"");
    // same letters as for ""
    BenignWhenLacking("123456", "<<utrtut-\"");
    CleanUsername();
    CleanEmail();
    CleanHtml();
  }

  lemma CleanUsername()
    ensures !IsMalicious("john_doe")
  {
    // one letter per pattern, absent from the payload: <script> '<', tag '<', union u, select t, drop r, insert t, update u, delete t, -- '-', quote '"'
    BenignWhenLacking("john_doe", "<<utrtut-\"");
  }

  lemma CleanEmail()
    ensures !IsMalicious("user@example.com")
  {
    // one letter per pattern, absent from the payload: <script> '<', tag '<', union n, select t, drop d, insert n, update d, delete d, -- '-', quote '"'
    BenignWhenLacking("user@example.com", "<<ntdndd-\"");
  }

  lemma CleanHtml()
    ensures !IsMalicious("<b>hello</b>")
  {
    // one letter per pattern, absent from the payload: <script> s, tag '=', union u, select s, drop r, insert s, update u, delete d, -- '-', quote '"'
    BenignWhenLacking("<b>hello</b>", "s=usrsud-\"");
  }

  /**
   * `missing[t]` is a character of the t-th SQL alternative; if no character
   * of `s` folds to any of them, the SQL injection pattern finds nothing.
   */
  lemma NoSqlInjectionWhenLacking(s: string, missing: string)
    requires |missing| == |SqlTokens|
    requires forall t | 0 <= t < |SqlTokens| :: missing[t] in SqlTokens[t]
    requires forall m, x | 0 <= m < |s| && 0 <= x < |missing| :: Fold(s[m]) != missing[x]
    ensures !IsSqlInjection(s)
  {
    forall t | 0 <= t < |SqlTokens| ensures !ContainsFolded(s, SqlTokens[t]) {
      LacksChar(s, SqlTokens[t], missing[t]);
    }
  }

  /**
   * `missing[0]` is a character of `<script>`, `missing[1]` one of the onerror
   * tag, and the rest one per SQL alternative; if no character of `s` folds
   * to any of them, `s` is not malicious.
   */
  lemma BenignWhenLacking(s: string, missing: string)
    requires |missing| == 2 + |SqlTokens|
    requires missing[0] in ScriptTag
    requires missing[1] == '<' || missing[1] in OnerrorAttr
    requires forall t | 0 <= t < |SqlTokens| :: missing[2 + t] in SqlTokens[t]
    requires forall m, x | 0 <= m < |s| && 0 <= x < |missing| :: Fold(s[m]) != missing[x]
    ensures !IsMalicious(s)
  {
    LacksChar(s, ScriptTag, missing[0]);
    LacksTagChar(s, missing[1]);
    NoSqlInjectionWhenLacking(s, missing[2..]);
  }

  /**
   * Only the double quote is listed: a single quote alone is not flagged, and
   * `admin'` becomes malicious only through the `--` that follows it.
   */
  lemma SingleQuoteNotListed()
    ensures !IsMalicious("'")
    ensures !IsMalicious("admin'")
    ensures IsMalicious("admin'--")
  {
    // one letter per pattern, absent from the payload: <script> '<', tag '<', union u, select t, drop r, insert t, update u, delete t, -- '-', quote '"'
    BenignWhenLacking("'", "<<utrtut-\"");
    // one letter per pattern, absent from the payload: <script> '<', tag '<', union u, select s, drop r, insert s, update u, delete l, -- '-', quote '"'
    BenignWhenLacking("admin'", "<<usrsul-\"");
    SqlInjectionExamples();
  }

  /** A newline between `<` and `onerror=` breaks the tag pattern. */
  lemma NewlineBreaksOnerrorTag()
    ensures !IsMalicious("<img\nonerror=x>")
  {
    var s := "<img\nonerror=x>";
    forall i, j, k | 0 <= i < j && j + |OnerrorAttr| <= k < |s| &&
      s[i] == '<' && MatchesAt(s, OnerrorAttr, j) && s[k] == '>'
      ensures !NoNewline(s, i, k)
    {
      assert j <= 6;
      assert i != 5 by { assert s[5] == 'o'; }
      assert s[4] == '\n';
    }
    LacksChar(s, ScriptTag, 's');
    // one letter per pattern, absent from the payload: union u, select t, drop d, insert t, update u, delete t, -- '-', quote '"'
    NoSqlInjectionWhenLacking(s, "utdtut-\"");
  }
}
