/**
 * The contact form's e-mail pattern `^[^\s@]+@[^\s@]+\.[^\s@]+$`.
 *
 * `MatchesEmailRegex` reads the regular expression literally: the whole string
 * is three non-empty runs of characters that are neither white space nor `@`,
 * joined by one `@` and one `.`. `IsEmailShape` is the executable check the
 * form uses: no white space anywhere, exactly one `@`, something before it, and
 * a `.` in the domain with text on both sides. `ShapeIffRegex` proves the two
 * agree on every string.
 */
module EmailPattern {
  import opened Text

  /** A character of the class `[^\s@]`. */
  predicate PatternChar(c: char)
  {
    !IsSpace(c) && c != '@'
  }

  /** The run `s[lo..hi]` matches `[^\s@]*`. */
  predicate PatternRun(s: string, lo: int, hi: int)
    requires 0 <= lo <= hi <= |s|
  {
    forall i :: lo <= i < hi ==> PatternChar(s[i])
  }

  /**
   * The anchored regular expression, read literally: an `@` at `at` and a `.`
   * at `dot` split `s` into three non-empty runs of pattern characters.
   */
  ghost predicate MatchesEmailRegex(s: string)
    ensures MatchesEmailRegex(s) ==> 5 <= |s| && '@' in s && s[0] != '@'
  {
    exists at, dot ::
      && 0 < at && at + 1 < dot && dot + 1 < |s|
      && s[at] == '@' && s[dot] == '.'
      && PatternRun(s, 0, at) && PatternRun(s, at + 1, dot) && PatternRun(s, dot + 1, |s|)
  }

  /** Index of the first `c` in `s`, or `|s|` when there is none. */
  function IndexOf(s: string, c: char): (r: nat)
    ensures r <= |s|
    ensures r < |s| ==> s[r] == c
    ensures forall i :: 0 <= i < r ==> s[i] != c
  {
    if s == [] then 0
    else if s[0] == c then 0
    else 1 + IndexOf(s[1..], c)
  }

  /** The domain `d` has a `.` with at least one character on each side of it. */
  predicate HasInnerDot(d: string)
  {
    exists k :: 0 < k < |d| - 1 && d[k] == '.'
  }

  /** The check the form applies to the trimmed e-mail value. */
  predicate IsEmailShape(s: string)
    ensures IsEmailShape(s) ==> 5 <= |s| && '@' in s && s[0] != '@'
  {
    var at := IndexOf(s, '@');
    && !(exists i :: 0 <= i < |s| && IsSpace(s[i]))
    && 0 < at < |s|
    && !(exists i :: at < i < |s| && s[i] == '@')
    && HasInnerDot(s[at + 1..])
  }

  /** Every string the executable check accepts matches the regular expression. */
  lemma ShapeMatchesRegex(s: string)
    requires IsEmailShape(s)
    ensures MatchesEmailRegex(s)
  {
    var at := IndexOf(s, '@');
    var d := s[at + 1..];
    var k :| 0 < k < |d| - 1 && d[k] == '.';
    var dot := at + 1 + k;
    assert s[dot] == '.';
    assert PatternRun(s, 0, at) && PatternRun(s, at + 1, dot) && PatternRun(s, dot + 1, |s|);
  }

  /** In a match, no character is white space and the only `@` is the one at `at`. */
  lemma MatchCharacters(s: string, at: int, dot: int)
    requires 0 < at && at + 1 < dot && dot + 1 < |s|
    requires s[at] == '@' && s[dot] == '.'
    requires PatternRun(s, 0, at) && PatternRun(s, at + 1, dot) && PatternRun(s, dot + 1, |s|)
    ensures forall i :: 0 <= i < |s| ==> !IsSpace(s[i]) && (i != at ==> s[i] != '@')
  {
    forall i | 0 <= i < |s| ensures !IsSpace(s[i]) && (i != at ==> s[i] != '@') {
      if i < at {
        assert PatternRun(s, 0, at);
      } else if at < i < dot {
        assert PatternRun(s, at + 1, dot);
      } else if dot < i {
        assert PatternRun(s, dot + 1, |s|);
      }
    }
  }

  /** Every string the regular expression matches passes the executable check. */
  lemma RegexMatchesShape(s: string)
    requires MatchesEmailRegex(s)
    ensures IsEmailShape(s)
  {
    var at, dot :|
      && 0 < at && at + 1 < dot && dot + 1 < |s|
      && s[at] == '@' && s[dot] == '.'
      && PatternRun(s, 0, at) && PatternRun(s, at + 1, dot) && PatternRun(s, dot + 1, |s|);
    MatchCharacters(s, at, dot);
    var found := IndexOf(s, '@');
    assert found == at;
    assert s[at + 1..][dot - at - 1] == '.';
  }

  /** The executable check accepts exactly the strings the regular expression matches. */
  lemma ShapeIffRegex(s: string)
    ensures IsEmailShape(s) <==> MatchesEmailRegex(s)
  {
    if IsEmailShape(s) {
      ShapeMatchesRegex(s);
    }
    if MatchesEmailRegex(s) {
      RegexMatchesShape(s);
    }
  }

  /** "a@b.com" matches the pattern. */
  lemma AcceptsExample()
    ensures MatchesEmailRegex("a@b.com")
  {
    var s := "a@b.com";
    assert PatternRun(s, 0, 1) && PatternRun(s, 2, 3) && PatternRun(s, 4, 7);
    assert s[1] == '@' && s[3] == '.';
  }

  /** "bad" does not match the pattern: it has no `@`. */
  lemma RejectsExample()
    ensures !MatchesEmailRegex("bad")
  {
    var s := "bad";
    assert forall i :: 0 <= i < |s| ==> s[i] != '@';
  }
}
