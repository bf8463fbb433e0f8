/** Properties of the scanner specification in module Lexing: position
    tracking, the sticky end of input, identifier, number, string and
    comment scanning, and the operator lookahead. */
module LexingProperties {
  import opened Wrappers
  import opened Lexing

  // ---------------------------------------------------------------------
  // Position tracking
  // ---------------------------------------------------------------------

  /** The number of newlines in s. */
  function Newlines(s: string): nat {
    if s == [] then 0 else Newlines(s[..|s| - 1]) + (if s[|s| - 1] == '\n' then 1 else 0)
  }

  /** The position just after the last newline before p (0 when none). */
  function LineStart(text: string, p: nat): (r: nat)
    requires p <= |text|
    ensures r <= p
  {
    if p == 0 then 0 else if text[p - 1] == '\n' then p else LineStart(text, p - 1)
  }

  /** The line is one more than the number of newlines passed. */
  lemma {:induction false} LineCountsNewlines(text: string, p: nat)
    requires p <= |text|
    ensures LineAt(text, p) == 1 + Newlines(text[..p])
  {
    if p > 0 {
      LineCountsNewlines(text, p - 1);
      assert text[..p][..p - 1] == text[..p - 1];
    }
  }

  /** On a character, the column counts the characters since the start of
      its line, from 1; at the end of the text it is one less, because the
      final advance finds no character and does not count. */
  lemma {:induction false} ColumnCountsFromLineStart(text: string, p: nat)
    requires p <= |text|
    ensures p < |text| ==> ColumnAt(text, p) == p - LineStart(text, p) + 1
    ensures 0 < p == |text| ==> ColumnAt(text, p) == p - LineStart(text, p)
  {
    if p > 0 {
      ColumnCountsFromLineStart(text, p - 1);
    }
  }

  /** Advancing past a newline onto a character: next line, column 1. */
  lemma NewlineStartsLine(text: string, p: nat)
    requires p + 1 < |text| && text[p] == '\n'
    ensures LineAt(text, p + 1) == LineAt(text, p) + 1
    ensures ColumnAt(text, p + 1) == 1
  {
  }

  /** Advancing past any other character onto a character: same line, next
      column. */
  lemma OtherCharAdvancesColumn(text: string, p: nat)
    requires p + 1 < |text| && text[p] != '\n'
    ensures LineAt(text, p + 1) == LineAt(text, p)
    ensures ColumnAt(text, p + 1) == ColumnAt(text, p) + 1
  {
  }

  // ---------------------------------------------------------------------
  // End of input
  // ---------------------------------------------------------------------

  /** The EOF token: it carries the position at the end of the text. */
  function EofToken(text: string): Token {
    Token(EOF, NoValue, LineAt(text, |text|), ColumnAt(text, |text|))
  }

  lemma LineColumnPastEnd(text: string, p: nat)
    requires p >= |text|
    ensures LineAt(text, p) == LineAt(text, |text|) && ColumnAt(text, p) == ColumnAt(text, |text|)
  {
  }

  /** Whenever the scanner yields EOF, it is the EOF token of the text and
      the scanner stands at (or beyond) the end. */
  lemma {:induction false} EofIsEndOfText(text: string, p: nat)
    requires Scan(text, p).Success? && Scan(text, p).value.token.kind == EOF
    ensures Scan(text, p).value.token == EofToken(text)
    ensures Scan(text, p).value.next == Max(p, |text|) >= |text|
    decreases |text| - p
  {
    if p >= |text| {
      LineColumnPastEnd(text, p);
    } else if IsSpace(text[p]) {
      ScanSkipsSpaces(text, p);
      EofIsEndOfText(text, RunEnd(text, p, Spaces));
    } else if text[p] == '{' {
      ScanSkipsComment(text, p);
      var q := FindChar(text, p + 1, '}');
      EofIsEndOfText(text, q.value + 1);
    }
  }

  /** Once EOF has been returned, every later call returns the same EOF
      token again (get_next_token at the end, lexer.py:206, 268). */
  lemma EofIsSticky(text: string, p: nat)
    requires Scan(text, p).Success? && Scan(text, p).value.token.kind == EOF
    ensures Scan(text, Scan(text, p).value.next) == Scan(text, p)
  {
    EofIsEndOfText(text, p);
    var n := Scan(text, p).value.next;
    LineColumnPastEnd(text, n);
  }

  // ---------------------------------------------------------------------
  // Identifiers and keywords
  // ---------------------------------------------------------------------

  lemma UpperIdempotent(s: string)
    ensures Upper(Upper(s)) == Upper(s)
  {
  }

  /** An identifier is the maximal run of letters, digits and '_'; its
      token is the keyword of its upper-cased spelling with the upper-cased
      value, or else an ID keeping the original spelling. */
  lemma IdentifierScan(text: string, p: nat)
    requires p < |text| && (IsAlpha(text[p]) || text[p] == '_')
    ensures var s := ScanIdentifier(text, p);
      var lexeme := text[p..s.next];
      p < s.next <= |text| &&
      (forall i :: p <= i < s.next ==> IsIdChar(text[i])) &&
      (s.next < |text| ==> !IsIdChar(text[s.next])) &&
      (Upper(lexeme) in Keywords ==> s.token.kind == Keywords[Upper(lexeme)] && s.token.value == Text(Upper(lexeme))) &&
      (Upper(lexeme) !in Keywords ==> s.token.kind == ID && s.token.value == Text(lexeme))
  {
  }

  /** Keywords are matched without regard to case. */
  lemma KeywordsIgnoreCase(a: string, b: string, line: int, column: int)
    requires Upper(a) == Upper(b) && Upper(a) in Keywords
    ensures IdentifierToken(a, line, column) == IdentifierToken(b, line, column)
  {
  }

  /** A keyword spelled in any case is never an ID, and its value is the
      upper-case spelling, itself a key of the keyword table. */
  lemma KeywordTokenIsNotId(lexeme: string, line: int, column: int)
    requires Upper(lexeme) in Keywords
    ensures IdentifierToken(lexeme, line, column).kind != ID
    ensures IdentifierToken(lexeme, line, column).value.Text?
    ensures Upper(IdentifierToken(lexeme, line, column).value.text) in Keywords
  {
    UpperIdempotent(lexeme);
  }

  // ---------------------------------------------------------------------
  // Numbers
  // ---------------------------------------------------------------------

  /** A digit run is an INT_CONST exactly when no '.' follows it, and then
      its value is the run's decimal value; with a '.' the result is a
      FLOAT_CONST or an invalid-literal error, never an INT_CONST. */
  lemma NumberKinds(text: string, p: nat)
    requires p < |text| && IsDigit(text[p])
    ensures var d := RunEnd(text, p, Digits);
      (CharAt(text, d) != Some('.') ==>
        ScanNumber(text, p) == Success(Scanned(Token(INT_CONST, IntValue(DigitsValue(text[p..d])), LineAt(text, p), ColumnAt(text, p)), d))) &&
      (CharAt(text, d) == Some('.') ==>
        (ScanNumber(text, p).Success? ==> ScanNumber(text, p).value.token.kind == FLOAT_CONST) &&
        (ScanNumber(text, p).Failure? ==> ScanNumber(text, p).error.kind.InvalidFloatLiteral?))
  {
  }

  /** A run is determined by where it stops: any e that bounds a run of
      class cls from p and is followed by a character outside cls (or by
      the end) is RunEnd. */
  lemma {:induction false} RunEndUnique(text: string, p: nat, cls: CharClass, e: nat)
    requires p <= e <= |text|
    requires forall i :: p <= i < e ==> InClass(text[i], cls)
    requires e < |text| ==> !InClass(text[e], cls)
    ensures RunEnd(text, p, cls) == e
    decreases e - p
  {
    if p < e {
      RunEndUnique(text, p + 1, cls, e);
    }
  }

  /** Python's float() of digits followed by a lone '.' is the digits'
      value. */
  lemma FloatOfDigitsDot(s: string)
    requires |s| > 0 && forall i :: 0 <= i < |s| ==> IsDigit(s[i])
    ensures FloatOf(s + ".") == Some(DigitsValue(s) as real)
  {
    var t := s + ".";
    DigitsDotShape(s);
    assert FloatOf(t) == Some(Mantissa(t, |s|, |s| + 1));
    assert Mantissa(t, |s|, |s| + 1) == DigitsValue(s) as real / 1.0;
  }

  /** How the number scanner's runs split digits followed by '.'. */
  lemma DigitsDotShape(s: string)
    requires |s| > 0 && forall i :: 0 <= i < |s| ==> IsDigit(s[i])
    ensures RunEnd(s + ".", 0, Digits) == |s|
    ensures RunEnd(s + ".", |s| + 1, Digits) == |s| + 1
    ensures CharAt(s + ".", |s|) == Some('.')
    ensures (s + ".")[..|s|] + (s + ".")[|s| + 1..|s| + 1] == s
    ensures Pow10(0) == 1
  {
    var t := s + ".";
    assert forall i :: 0 <= i < |s| ==> InClass(t[i], Digits) by {
      forall i | 0 <= i < |s| ensures InClass(t[i], Digits) {
        assert t[i] == s[i];
      }
    }
    RunEndUnique(t, 0, Digits, |s|);
    RunEndUnique(t, |s| + 1, Digits, |s| + 1);
    assert t[..|s|] + t[|s| + 1..|s| + 1] == s;
  }

  /** A '.' right after a digit run always makes a FLOAT_CONST, even when
      another '.' follows: "1..5" starts with the float 1.0 (one character
      after the digits), not with 1 and "..". */
  lemma DotAfterDigitsMakesFloat(text: string, p: nat, d: nat)
    requires p < |text| && IsDigit(text[p]) && d == RunEnd(text, p, Digits)
    requires d + 1 < |text| && text[d] == '.' && text[d + 1] == '.'
    ensures ScanNumber(text, p) == Success(Scanned(
      Token(FLOAT_CONST, FloatValue(DigitsValue(text[p..d]) as real), LineAt(text, p), ColumnAt(text, p)), d + 1))
  {
    assert RunEnd(text, d + 1, Digits) == d + 1;
    assert NumberEnd(text, p) == d + 1;
    var digits := text[p..d];
    assert forall i :: 0 <= i < |digits| ==> IsDigit(digits[i]) by {
      forall i | 0 <= i < |digits| ensures IsDigit(digits[i]) {
        assert digits[i] == text[p + i];
      }
    }
    assert text[p..d + 1] == digits + ".";
    FloatOfDigitsDot(digits);
  }

  // ---------------------------------------------------------------------
  // Strings and comments
  // ---------------------------------------------------------------------

  /** A string's value is exactly the characters between the quotes (no
      escapes); without a closing quote scanning fails at the end of the
      text. */
  lemma StringScan(text: string, p: nat)
    requires p < |text| && text[p] == '\''
    ensures match ScanString(text, p)
      case Success(s) =>
        p + 1 < s.next <= |text| && text[s.next - 1] == '\'' &&
        s.token == Token(STRING, Text(text[p + 1..s.next - 1]), LineAt(text, p), ColumnAt(text, p)) &&
        (forall i :: p < i < s.next - 1 ==> text[i] != '\'')
      case Failure(e) =>
        e == LexError(UnterminatedString, LineAt(text, |text|), ColumnAt(text, |text|)) &&
        (forall i :: p < i < |text| ==> text[i] != '\'')
  {
  }

  /** A closed comment yields no token: scanning resumes after its '}'. An
      unclosed one fails at the end of the text. */
  lemma CommentScan(text: string, p: nat)
    requires p < |text| && text[p] == '{'
    ensures match FindChar(text, p + 1, '}')
      case Some(q) => q < |text| && text[q] == '}' && Scan(text, p) == Scan(text, q + 1)
      case None => Scan(text, p) == Failure(LexError(UnterminatedComment, LineAt(text, |text|), ColumnAt(text, |text|)))
  {
  }

  // ---------------------------------------------------------------------
  // Operators
  // ---------------------------------------------------------------------

  /** The characters that start an operator or delimiter. */
  predicate IsOperatorStart(c: char) {
    c in {'+', '-', '*', '/', '%', '=', '<', '>', ';', ',', ':', '.', '(', ')', '[', ']'}
  }

  /** Scanning an operator fails exactly on a character that starts none
      ("Unexpected character"), and the failure names that character. */
  lemma UnexpectedCharacterExactly(text: string, p: nat)
    requires p < |text|
    ensures ScanOperator(text, p).Failure? <==> !IsOperatorStart(text[p])
    ensures ScanOperator(text, p).Failure? ==>
      ScanOperator(text, p).error == LexError(UnexpectedCharacter(text[p]), LineAt(text, p), ColumnAt(text, p))
  {
  }

  /** The two-character operators win over their one-character prefixes:
      with the second character seen by lookahead, the scanner consumes both. */
  lemma TwoCharacterOperators(text: string, p: nat)
    requires p + 1 < |text|
    ensures var two := text[p..p + 2];
      var kind := if two == ":=" then Some(ASSIGN) else if two == "<>" then Some(NOT_EQUAL)
        else if two == "<=" then Some(LESS_EQUAL) else if two == ">=" then Some(GREATER_EQUAL)
        else if two == ".." then Some(DOTDOT) else None;
      kind.Some? ==>
        ScanOperator(text, p) == Success(Scanned(Token(kind.value, Text(two), LineAt(text, p + 2), ColumnAt(text, p + 2) - 1), p + 2))
  {
    assert text[p..p + 2] == [text[p], text[p + 1]];
  }

  /** Lines are numbered from 1 at every position, and the column of every
      character of the text is at least 1. */
  lemma {:induction false} PositionsArePositive(text: string, p: nat)
    ensures LineAt(text, p) >= 1
    ensures p < |text| ==> ColumnAt(text, p) >= 1
    decreases p
  {
    if p > |text| {
      PositionsArePositive(text, |text|);
    } else if p > 0 {
      PositionsArePositive(text, p - 1);
    }
  }
}
