/**
 * `formatClassifiedResponse` of the game screen: eight global regular-expression
 * replacements that insert line breaks around headers, numbered steps and
 * bullets, then `/\n{3,}/g -> "\n\n"`, then `trim()`.
 *
 * Each global replacement is a left-to-right scan: where the pattern matches at
 * the current position the match is rewritten and the scan resumes after it,
 * otherwise one character is copied. None of the patterns matches the empty
 * string.
 */
module ResponseFormat {
  import opened Text

  /** The replacements, in the order they are applied. */
  datatype Rule =
    | ClassifiedHeader          // /(\[CLASSIFIED[^\]]*\])/g  ->  '$1\n'
    | LabelBreak(heading: string) // /(<heading>)/g            ->  '\n$1'
    | NumberedItem              // /(\d+\.\s)/g               ->  '\n$1'
    | BulletItem                // /(•\s)/g                   ->  '\n$1'

  const FormatRules: seq<Rule> := [
    ClassifiedHeader,
    LabelBreak("Decision Assessment:"),
    LabelBreak("Threat Level:"),
    LabelBreak("Intelligence Picture:"),
    LabelBreak("Next Phase:"),
    LabelBreak("OPSEC Reminders:"),
    NumberedItem,
    BulletItem
  ]

  /** Index of the first `c` in `s` at or after `from`, or `|s|` when there is none. */
  function FirstIndexFrom(s: string, c: char, from: nat): (r: nat)
    requires from <= |s|
    ensures from <= r <= |s|
    ensures r < |s| ==> s[r] == c
    decreases |s| - from
  {
    if from == |s| || s[from] == c then from else FirstIndexFrom(s, c, from + 1)
  }

  predicate IsDigit(c: char) {
    '0' <= c <= '9'
  }

  /** Number of leading ASCII digits of `s` (what a greedy `\d+` takes). */
  function DigitRun(s: string): (r: nat)
    ensures r <= |s|
    ensures r < |s| ==> !IsDigit(s[r])
    decreases |s|
  {
    if s != [] && IsDigit(s[0]) then 1 + DigitRun(s[1..]) else 0
  }

  /** Length of the match of `rule` at the start of `s`, or 0 when it does not match there. */
  function MatchLength(rule: Rule, s: string): (n: nat)
    ensures n <= |s|
  {
    match rule
    case ClassifiedHeader =>
      if StartsWith(s, "[CLASSIFIED") then
        var close := FirstIndexFrom(s, ']', 11);
        if close < |s| then close + 1 else 0
      else 0
    case LabelBreak(heading) =>
      if StartsWith(s, heading) then |heading| else 0
    case NumberedItem =>
      var d := DigitRun(s);
      if 0 < d && d + 1 < |s| && s[d] == '.' && IsSpace(s[d + 1]) then d + 2 else 0
    case BulletItem =>
      if 2 <= |s| && s[0] == '•' && IsSpace(s[1]) then 2 else 0
  }

  /** `[^\]]*\]` stops at the first `]`: no character the scan skips is one. */
  lemma {:induction false} FirstIndexFromIsFirst(s: string, c: char, from: nat)
    requires from <= |s|
    ensures forall i :: from <= i < FirstIndexFrom(s, c, from) ==> s[i] != c
    decreases |s| - from
  {
    if from < |s| && s[from] != c {
      FirstIndexFromIsFirst(s, c, from + 1);
    }
  }

  /** A greedy `\d+` takes only digits, and stops before the first non-digit. */
  lemma {:induction false} DigitRunIsDigits(s: string)
    ensures forall i :: 0 <= i < DigitRun(s) ==> IsDigit(s[i])
    decreases |s|
  {
    if s != [] && IsDigit(s[0]) {
      DigitRunIsDigits(s[1..]);
    }
  }

  /** The text a match is replaced with: the match plus one newline after or before it. */
  function Replacement(rule: Rule, matched: string): string {
    if rule.ClassifiedHeader? then matched + "\n" else "\n" + matched
  }

  /** `s.replace(<rule>, ...)` with the global flag. */
  function Rewrite(rule: Rule, s: string): string
    decreases |s|
  {
    if s == [] then []
    else
      var n := MatchLength(rule, s);
      if n > 0 then Replacement(rule, s[..n]) + Rewrite(rule, s[n..])
      else [s[0]] + Rewrite(rule, s[1..])
  }

  /** Number of leading newlines of `s`. */
  function NewlineRun(s: string): (r: nat)
    ensures r <= |s|
    ensures forall i :: 0 <= i < r ==> s[i] == '\n'
    ensures r < |s| ==> s[r] != '\n'
    decreases |s|
  {
    if s != [] && s[0] == '\n' then 1 + NewlineRun(s[1..]) else 0
  }

  /** `s.replace(/\n{3,}/g, '\n\n')`: every run of three or more newlines becomes two. */
  function CollapseNewlines(s: string): string
    decreases |s|
  {
    if s == [] then []
    else
      var k := NewlineRun(s);
      if k >= 3 then "\n\n" + CollapseNewlines(s[k..])
      else [s[0]] + CollapseNewlines(s[1..])
  }

  /** The replacements `rules` applied one after the other, then the newline collapse and `trim()`. */
  function FormatWith(rules: seq<Rule>, s: string): string
    decreases |rules|
  {
    if rules == [] then Trim(CollapseNewlines(s))
    else FormatWith(rules[1..], Rewrite(rules[0], s))
  }

  /** `formatClassifiedResponse(content)`. */
  function FormatClassifiedResponse(content: string): string {
    FormatWith(FormatRules, content)
  }

  // ---------------------------------------------------------------------------
  // Only whitespace is added or removed

  /** One match and its replacement differ by whitespace only. */
  lemma ReplacementKeepsText(rule: Rule, m: string, rest: string, rewritten: string)
    requires NonSpace(rewritten) == NonSpace(rest)
    ensures NonSpace(Replacement(rule, m) + rewritten) == NonSpace(m + rest)
  {
    if rule.ClassifiedHeader? {
      NonSpaceAppend(m, "\n");
    } else {
      NonSpaceAppend("\n", m);
    }
    NonSpaceAppend(Replacement(rule, m), rewritten);
    NonSpaceAppend(m, rest);
  }

  /** Rewriting a match keeps the text when rewriting what follows it does. */
  lemma RewriteMatchStep(rule: Rule, s: string)
    requires s != [] && MatchLength(rule, s) > 0
    requires NonSpace(Rewrite(rule, s[MatchLength(rule, s)..])) == NonSpace(s[MatchLength(rule, s)..])
    ensures NonSpace(Rewrite(rule, s)) == NonSpace(s)
  {
    var n := MatchLength(rule, s);
    var rest := Rewrite(rule, s[n..]);
    assert Rewrite(rule, s) == Replacement(rule, s[..n]) + rest;
    ReplacementKeepsText(rule, s[..n], s[n..], rest);
    assert s == s[..n] + s[n..];
  }

  /** Copying a character keeps the text when rewriting what follows it does. */
  lemma RewriteCopyStep(rule: Rule, s: string)
    requires s != [] && MatchLength(rule, s) == 0
    requires NonSpace(Rewrite(rule, s[1..])) == NonSpace(s[1..])
    ensures NonSpace(Rewrite(rule, s)) == NonSpace(s)
  {
    var rest := Rewrite(rule, s[1..]);
    assert Rewrite(rule, s) == [s[0]] + rest;
    NonSpaceAppend([s[0]], rest);
    NonSpaceAppend([s[0]], s[1..]);
    assert [s[0]] + s[1..] == s;
  }

  lemma {:induction false} RewriteKeepsText(rule: Rule, s: string)
    ensures NonSpace(Rewrite(rule, s)) == NonSpace(s)
    decreases |s|
  {
    if s != [] {
      var n := MatchLength(rule, s);
      if n > 0 {
        RewriteKeepsText(rule, s[n..]);
        RewriteMatchStep(rule, s);
      } else {
        RewriteKeepsText(rule, s[1..]);
        RewriteCopyStep(rule, s);
      }
    }
  }

  lemma {:induction false} DropNewlinesKeepsText(s: string, k: nat)
    requires k <= NewlineRun(s)
    ensures NonSpace(s[k..]) == NonSpace(s)
    decreases k
  {
    if k > 0 {
      DropNewlinesKeepsText(s[1..], k - 1);
      assert s[1..][k - 1..] == s[k..];
    }
  }

  lemma {:induction false} CollapseKeepsText(s: string)
    ensures NonSpace(CollapseNewlines(s)) == NonSpace(s)
    decreases |s|
  {
    if s != [] {
      var k := NewlineRun(s);
      if k >= 3 {
        CollapseKeepsText(s[k..]);
        NonSpaceAppend("\n\n", CollapseNewlines(s[k..]));
        DropNewlinesKeepsText(s, k);
      } else {
        CollapseKeepsText(s[1..]);
      }
    }
  }

  lemma {:induction false} FormatWithKeepsText(rules: seq<Rule>, s: string)
    ensures NonSpace(FormatWith(rules, s)) == NonSpace(s)
    decreases |rules|
  {
    if rules == [] {
      CollapseKeepsText(s);
      TrimKeepsText(CollapseNewlines(s));
    } else {
      RewriteKeepsText(rules[0], s);
      FormatWithKeepsText(rules[1..], Rewrite(rules[0], s));
    }
  }

  /** Formatting changes whitespace only: the visible characters are those of the input, in order. */
  lemma FormatKeepsText(content: string)
    ensures NonSpace(FormatClassifiedResponse(content)) == NonSpace(content)
  {
    FormatWithKeepsText(FormatRules, content);
  }

  // ---------------------------------------------------------------------------
  // Shape of the result

  const TripleNewline: string := "\n\n\n"

  /** Prepending one character creates a triple newline only on top of a leading double one. */
  lemma PrependNoTriple(c: char, x: string)
    requires !Contains(x, TripleNewline)
    requires c == '\n' ==> NewlineRun(x) <= 1
    ensures !Contains([c] + x, TripleNewline)
  {
    var s := [c] + x;
    assert s[1..] == x;
    assert !StartsWith(s, TripleNewline) by {
      if |s| >= 3 {
        if c != '\n' {
          assert s[..3][0] != TripleNewline[0];
        } else if x[0] != '\n' {
          assert s[..3][1] != TripleNewline[1];
        } else {
          assert NewlineRun(x) == 1 + NewlineRun(x[1..]);
          assert x[1..][0] != '\n';
          assert s[..3][2] != TripleNewline[2];
        }
      }
    }
  }

  /**
   * Collapsing leaves no run of three newlines, and the result starts with the
   * input's leading newlines, cut down to two.
   */
  lemma {:induction false} CollapseShape(s: string)
    ensures !Contains(CollapseNewlines(s), TripleNewline)
    ensures NewlineRun(CollapseNewlines(s)) == if NewlineRun(s) >= 3 then 2 else NewlineRun(s)
    decreases |s|
  {
    if s == [] {
    } else {
      var k := NewlineRun(s);
      if k >= 3 {
        var rest := CollapseNewlines(s[k..]);
        CollapseShape(s[k..]);
        assert NewlineRun(s[k..]) == 0;
        PrependNoTriple('\n', rest);
        PrependNoTriple('\n', "\n" + rest);
        assert "\n\n" + rest == ['\n'] + (['\n'] + rest);
        assert NewlineRun(['\n'] + rest) == 1 by {
          assert (['\n'] + rest)[1..] == rest;
        }
        assert NewlineRun(['\n'] + (['\n'] + rest)) == 2 by {
          assert (['\n'] + (['\n'] + rest))[1..] == ['\n'] + rest;
        }
      } else {
        var rest := CollapseNewlines(s[1..]);
        CollapseShape(s[1..]);
        if s[0] == '\n' {
          assert NewlineRun(s) == 1 + NewlineRun(s[1..]);
        }
        PrependNoTriple(s[0], rest);
        assert ([s[0]] + rest)[1..] == rest;
      }
    }
  }

  /** The collapse and the trim that end the formatting leave no edge whitespace and no triple newline. */
  lemma FinishShape(s: string)
    ensures var r := Trim(CollapseNewlines(s));
      (r == [] || (!IsSpace(r[0]) && !IsSpace(r[|r| - 1])))
      && !Contains(r, TripleNewline)
  {
    var c := CollapseNewlines(s);
    CollapseShape(s);
    if Contains(Trim(c), TripleNewline) {
      TrimmedContains(c, TripleNewline);
    }
    var t := TrimStart(c);
    var r := TrimEnd(t);
    if r != [] {
      assert r[0] == t[0];
    }
  }

  lemma {:induction false} FormatWithShape(rules: seq<Rule>, s: string)
    ensures var r := FormatWith(rules, s);
      (r == [] || (!IsSpace(r[0]) && !IsSpace(r[|r| - 1])))
      && !Contains(r, TripleNewline)
    decreases |rules|
  {
    if rules == [] {
      assert FormatWith(rules, s) == Trim(CollapseNewlines(s));
      FinishShape(s);
    } else {
      assert FormatWith(rules, s) == FormatWith(rules[1..], Rewrite(rules[0], s));
      FormatWithShape(rules[1..], Rewrite(rules[0], s));
    }
  }

  /**
   * The formatted response has no leading or trailing whitespace and never holds
   * three newlines in a row.
   */
  lemma FormatShape(content: string)
    ensures var r := FormatClassifiedResponse(content);
      (r == [] || (!IsSpace(r[0]) && !IsSpace(r[|r| - 1])))
      && !Contains(r, TripleNewline)
  {
    FormatWithShape(FormatRules, content);
  }
}
