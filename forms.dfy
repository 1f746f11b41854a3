/** The field rules the signup and login screens share or state as regular
    expressions, written as explicit predicates over characters. `\s` is
    JavaScript's whitespace class (`Text.IsJsSpace`); `\d` is the ASCII
    digits; `.` is any character but a line terminator. */
module FormRules {
  import opened Text

  // ---------------------------------------------------------------------
  // The email pattern /^[^\s@]+@[^\s@]+\.[^\s@]+$/
  // ---------------------------------------------------------------------

  /** A character of the class `[^\s@]`. */
  predicate EmailChar(c: char) {
    !IsJsSpace(c) && c != '@'
  }

  /** `[^\s@]+`: one or more such characters. */
  predicate EmailRun(s: string) {
    |s| >= 1 && forall i | 0 <= i < |s| :: EmailChar(s[i])
  }

  /** The pattern matched with its `@` at `at` and its `.` at `dot`. */
  predicate EmailSplit(s: string, at: int, dot: int)
    requires 0 <= at < dot < |s|
  {
    EmailRun(s[..at]) && s[at] == '@' && EmailRun(s[at + 1..dot]) && s[dot] == '.' && EmailRun(s[dot + 1..])
  }

  /** The regular expression's verdict: some way of placing the `@` and the
      `.` makes every run match. */
  predicate MatchesEmailPattern(s: string) {
    exists at, dot | 0 <= at < dot < |s| :: EmailSplit(s, at, dot)
  }

  /** `s[at]` is the one `@` in `s`. */
  predicate OnlyAt(s: string, at: int)
    requires 0 <= at < |s|
  {
    s[at] == '@' && forall i | 0 <= i < |s| && i != at :: s[i] != '@'
  }

  /** A domain holding a `.` with text on both sides. */
  predicate HasInnerDot(d: string) {
    exists k | 0 < k < |d| - 1 :: d[k] == '.'
  }

  /** The email shape in words: no whitespace, exactly one `@`, a non-empty
      part before it, and a domain after it holding a `.` with text on both
      sides. */
  predicate IsEmailShape(s: string) {
    (forall i | 0 <= i < |s| :: !IsJsSpace(s[i]))
    && exists at | 0 < at < |s| :: OnlyAt(s, at) && HasInnerDot(s[at + 1..])
  }

  /** The regular expression accepts exactly the strings of that shape. */
  lemma EmailPatternShape(s: string)
    ensures MatchesEmailPattern(s) <==> IsEmailShape(s)
  {
    if MatchesEmailPattern(s) {
      var at, dot :| 0 <= at < dot < |s| && EmailSplit(s, at, dot);
      PatternGivesShape(s, at, dot);
    }
    if IsEmailShape(s) {
      var at :| 0 < at < |s| && OnlyAt(s, at) && HasInnerDot(s[at + 1..]);
      var d := s[at + 1..];
      var k :| 0 < k < |d| - 1 && d[k] == '.';
      assert d[k] == s[at + 1 + k];
      ShapeGivesPattern(s, at, at + 1 + k);
    }
  }

  lemma PatternGivesShape(s: string, at: int, dot: int)
    requires 0 <= at < dot < |s| && EmailSplit(s, at, dot)
    ensures IsEmailShape(s)
  {
    forall i | 0 <= i < |s| && i != at ensures EmailChar(s[i]) || i == dot {
      if i < at {
        assert s[i] == s[..at][i];
      } else if at < i < dot {
        assert s[i] == s[at + 1..dot][i - at - 1];
      } else if dot < i {
        assert s[i] == s[dot + 1..][i - dot - 1];
      }
    }
    assert !IsJsSpace('@') && !IsJsSpace('.');
    assert OnlyAt(s, at);
    assert s[at + 1..][dot - at - 1] == '.';
  }

  lemma ShapeGivesPattern(s: string, at: int, dot: int)
    requires 0 < at < dot < |s| - 1 && OnlyAt(s, at) && s[dot] == '.' && at + 1 < dot
    requires forall i | 0 <= i < |s| :: !IsJsSpace(s[i])
    ensures MatchesEmailPattern(s)
  {
    assert EmailSplit(s, at, dot);
  }

  // ---------------------------------------------------------------------
  // The password pattern
  // /^(?=.*[a-z])(?=.*[A-Z])(?=.*\d)(?=.*[@$!%*?&])[A-Za-z\d@$!%*?&]{8,}$/
  // ---------------------------------------------------------------------

  predicate IsLower(c: char) { 'a' <= c <= 'z' }
  predicate IsUpper(c: char) { 'A' <= c <= 'Z' }
  predicate IsSpecial(c: char) {
    c == '@' || c == '$' || c == '!' || c == '%' || c == '*' || c == '?' || c == '&'
  }

  /** `[A-Za-z\d@$!%*?&]` */
  predicate PasswordChar(c: char) {
    IsLower(c) || IsUpper(c) || IsDigit(c) || IsSpecial(c)
  }

  /** The characters `.` does not match. */
  predicate IsLineTerminator(c: char) {
    c == '\n' || c == '\r' || c as int == 0x2028 || c as int == 0x2029
  }

  datatype CharClass = Lower | Upper | Digit | Special

  predicate InClass(cls: CharClass, c: char) {
    match cls
    case Lower => IsLower(c)
    case Upper => IsUpper(c)
    case Digit => IsDigit(c)
    case Special => IsSpecial(c)
  }

  /** The lookahead `(?=.*[cls])` at the start: a character of the class
      that `.*` can reach, no line terminator before it. */
  predicate Lookahead(s: string, cls: CharClass) {
    exists i | 0 <= i < |s| :: InClass(cls, s[i]) && forall j | 0 <= j < i :: !IsLineTerminator(s[j])
  }

  /** The regular expression's verdict. The `{8,}` counts UTF-16 code units. */
  predicate MatchesPasswordPattern(s: string) {
    Lookahead(s, Lower) && Lookahead(s, Upper) && Lookahead(s, Digit) && Lookahead(s, Special)
    && Utf16Length(s) >= 8 && forall i | 0 <= i < |s| :: PasswordChar(s[i])
  }

  predicate Has(s: string, cls: CharClass) {
    exists i | 0 <= i < |s| :: InClass(cls, s[i])
  }

  /** The password rule in words: at least 8 characters, all from
      `A-Za-z0-9@$!%*?&`, with a lowercase letter, an uppercase letter, a
      digit and one of `@$!%*?&` among them. */
  predicate IsStrongPassword(s: string) {
    |s| >= 8 && (forall i | 0 <= i < |s| :: PasswordChar(s[i]))
    && Has(s, Lower) && Has(s, Upper) && Has(s, Digit) && Has(s, Special)
  }

  /** The regular expression accepts exactly the passwords of that rule:
      no allowed character is a line terminator, and every allowed
      character is one UTF-16 code unit. */
  lemma PasswordPatternRule(s: string)
    ensures MatchesPasswordPattern(s) <==> IsStrongPassword(s)
  {
    if forall i | 0 <= i < |s| :: PasswordChar(s[i]) {
      forall cls: CharClass ensures Lookahead(s, cls) <==> Has(s, cls) {
        if Has(s, cls) {
          var i :| 0 <= i < |s| && InClass(cls, s[i]);
          assert forall j | 0 <= j < i :: PasswordChar(s[j]);
        }
      }
      AsciiLength(s);
    }
  }

  lemma {:induction false} AsciiLength(s: string)
    requires forall i | 0 <= i < |s| :: PasswordChar(s[i])
    ensures Utf16Length(s) == |s|
  {
    if |s| > 0 {
      var init := s[..|s| - 1];
      assert forall i | 0 <= i < |init| :: init[i] == s[i];
      AsciiLength(init);
    }
  }
}
