/** The scanner of src/lexer.py: token kinds, tokens, and a character-level
    state machine (class Lexer) whose methods are proved against pure
    specification functions over the source text (Scan, ScanNumber, ...). */
module Lexing {
  import opened Wrappers

  /** The token kinds. COMMA is its own kind here; see README for the alias
      the enumeration in the code creates. */
  datatype TokenType =
    // keywords
    | PROGRAM | VAR | INTEGER | FLOAT | ARRAY | OF | BEGIN | END | IF | THEN | ELSE
    | WHILE | DO | READ | WRITE | AND | OR | NOT
    // operators
    | PLUS | MINUS | MULTIPLY | DIVIDE | MOD | ASSIGN | EQUAL | NOT_EQUAL
    | LESS | LESS_EQUAL | GREATER | GREATER_EQUAL
    // delimiters
    | SEMI | COMMA | COLON | DOT | LPAREN | RPAREN | LBRACK | RBRACK | DOTDOT
    // literals
    | ID | INT_CONST | FLOAT_CONST | STRING
    // end of input
    | EOF

  /** A token's value: text for names, operators and strings, the number for
      numeric literals (floats as exact reals), nothing for EOF. */
  datatype TokenValue = NoValue | Text(text: string) | IntValue(i: int) | FloatValue(r: real)

  datatype Token = Token(kind: TokenType, value: TokenValue, line: int, column: int)

  datatype LexErrorKind =
    | UnterminatedComment
    | UnterminatedString
    | UnexpectedCharacter(c: char)
    | InvalidFloatLiteral(lexeme: string)

  /** A lexical error and the scanner position at which it was raised. */
  datatype LexError = LexError(kind: LexErrorKind, line: int, column: int)

  const Keywords: map<string, TokenType> := map[
    "PROGRAM" := PROGRAM, "VAR" := VAR, "INTEGER" := INTEGER, "FLOAT" := FLOAT,
    "ARRAY" := ARRAY, "OF" := OF, "BEGIN" := BEGIN, "END" := END, "IF" := IF,
    "THEN" := THEN, "ELSE" := ELSE, "WHILE" := WHILE, "DO" := DO, "READ" := READ,
    "WRITE" := WRITE, "AND" := AND, "OR" := OR, "NOT" := NOT]

  // ---------------------------------------------------------------------
  // Character classes (the ASCII part of Python's str predicates)
  // ---------------------------------------------------------------------

  predicate IsSpace(c: char) { c == ' ' || 9 <= c as int <= 13 || 28 <= c as int <= 31 }
  predicate IsDigit(c: char) { '0' <= c <= '9' }
  predicate IsAlpha(c: char) { 'a' <= c <= 'z' || 'A' <= c <= 'Z' }
  predicate IsIdChar(c: char) { IsAlpha(c) || IsDigit(c) || c == '_' }

  function UpperChar(c: char): char {
    if 'a' <= c <= 'z' then (c as int - 32) as char else c
  }

  function Upper(s: string): string {
    seq(|s|, i requires 0 <= i < |s| => UpperChar(s[i]))
  }

  datatype CharClass = Spaces | Digits | IdChars

  predicate InClass(c: char, cls: CharClass) {
    match cls
    case Spaces => IsSpace(c)
    case Digits => IsDigit(c)
    case IdChars => IsIdChar(c)
  }

  function CharAt(text: string, p: nat): Option<char> {
    if p < |text| then Some(text[p]) else None
  }

  function Max(a: nat, b: nat): nat { if a < b then b else a }

  /** End of the maximal run of characters of class cls that starts at p. */
  function RunEnd(text: string, p: nat, cls: CharClass): (e: nat)
    decreases |text| - p
    ensures p <= e && (p < e ==> e <= |text|)
    ensures forall i :: p <= i < e ==> InClass(text[i], cls)
    ensures e < |text| ==> !InClass(text[e], cls)
  {
    if p < |text| && InClass(text[p], cls) then RunEnd(text, p + 1, cls) else p
  }

  /** Index of the first ch at or after p, if there is one. */
  function FindChar(text: string, p: nat, ch: char): (r: Option<nat>)
    decreases |text| - p
    ensures r.Some? ==> p <= r.value < |text| && text[r.value] == ch
    ensures r.Some? ==> forall i :: p <= i < r.value ==> text[i] != ch
    ensures r.None? ==> forall i :: p <= i < |text| ==> text[i] != ch
  {
    if p >= |text| then None else if text[p] == ch then Some(p) else FindChar(text, p + 1, ch)
  }

  // ---------------------------------------------------------------------
  // Position tracking: the line and column the scanner holds at each pos
  // ---------------------------------------------------------------------

  /** The line held when the scanner stands at p (advance, lexer.py:112-122). */
  function LineAt(text: string, p: nat): int
    decreases p
  {
    if p == 0 then 1
    else if p > |text| then LineAt(text, |text|)
    else LineAt(text, p - 1) + (if text[p - 1] == '\n' then 1 else 0)
  }

  /** The column held when the scanner stands at p: it is reset to 0 by a
      newline and incremented only when a next character exists. */
  function ColumnAt(text: string, p: nat): int
    decreases p
  {
    if p == 0 then 1
    else if p > |text| then ColumnAt(text, |text|)
    else (if text[p - 1] == '\n' then 0 else ColumnAt(text, p - 1)) + (if p < |text| then 1 else 0)
  }

  // ---------------------------------------------------------------------
  // Specification of the scanning routines
  // ---------------------------------------------------------------------

  datatype Scanned = Scanned(token: Token, next: nat)

  /** The value of a run of decimal digits. */
  function DigitsValue(s: string): nat
    requires forall i :: 0 <= i < |s| ==> IsDigit(s[i])
  {
    if s == [] then 0
    else
      var d := s[|s| - 1] as int - '0' as int;
      assert IsDigit(s[|s| - 1]);
      10 * DigitsValue(s[..|s| - 1]) + d
  }

  function Pow10(n: nat): (r: nat)
    ensures r > 0
  {
    if n == 0 then 1 else 10 * Pow10(n - 1)
  }

  /** Python's float() on the lexemes the number scanner builds
      (digits '.' digits, optionally 'e'/'E', a sign and digits), as an exact
      real; None where float() raises ValueError. */
  function FloatOf(s: string): Option<real> {
    var i := RunEnd(s, 0, Digits);
    if CharAt(s, i) != Some('.') then None
    else
      var j := RunEnd(s, i + 1, Digits);
      if i == 0 && j == i + 1 then None
      else if j == |s| then Some(Mantissa(s, i, j))
      else if s[j] != 'e' && s[j] != 'E' then None
      else
        var k := if j + 1 < |s| && (s[j + 1] == '+' || s[j + 1] == '-') then j + 2 else j + 1;
        var m := RunEnd(s, k, Digits);
        if m == k || m != |s| then None
        else
          assert forall n :: 0 <= n < m - k ==> IsDigit(s[k..m][n]) by {
            forall n | 0 <= n < m - k ensures IsDigit(s[k..m][n]) {
              assert s[k..m][n] == s[k + n];
            }
          }
          Some(Scaled(Mantissa(s, i, j), DigitsValue(s[k..m]), k == j + 2 && s[j + 1] == '-'))
  }

  /** The value of the digits before and after the '.' at i, up to j. */
  function Mantissa(s: string, i: nat, j: nat): real
    requires i < j <= |s|
    requires forall k :: 0 <= k < i ==> IsDigit(s[k])
    requires forall k :: i < k < j ==> IsDigit(s[k])
  {
    var digits := s[..i] + s[i + 1..j];
    assert forall k :: 0 <= k < |digits| ==> IsDigit(digits[k]) by {
      forall k | 0 <= k < |digits| ensures IsDigit(digits[k]) {
        if k >= i {
          assert digits[k] == s[k + 1];
        }
      }
    }
    DigitsValue(digits) as real / Pow10(j - i - 1) as real
  }

  /** A mantissa scaled by ten to the power of a signed exponent. */
  function Scaled(mantissa: real, e: nat, negative: bool): real {
    if negative then mantissa / Pow10(e) as real else mantissa * Pow10(e) as real
  }

  /** Where the exponent part stops, from the 'e' or 'E' at q. */
  function ExponentEnd(text: string, q: nat): (e: nat)
    requires q < |text|
    ensures q < e <= |text|
  {
    var s := if CharAt(text, q + 1) == Some('+') || CharAt(text, q + 1) == Some('-') then q + 2 else q + 1;
    RunEnd(text, s, Digits)
  }

  /** Where the fraction (and any exponent) stops, from the '.' at d. */
  function FractionEnd(text: string, d: nat): (e: nat)
    requires d < |text|
    ensures d < e <= |text|
  {
    var d2 := RunEnd(text, d + 1, Digits);
    if CharAt(text, d2) == Some('e') || CharAt(text, d2) == Some('E') then ExponentEnd(text, d2)
    else d2
  }

  /** Where the number scanner stops (number, lexer.py:142-170). */
  function NumberEnd(text: string, p: nat): (e: nat)
    requires p < |text| && IsDigit(text[p])
    ensures p < e <= |text|
  {
    var d1 := RunEnd(text, p, Digits);
    if CharAt(text, d1) == Some('.') then FractionEnd(text, d1) else d1
  }

  /** Two adjacent slices make one. */
  lemma SliceJoin(text: string, a: nat, b: nat, c: nat)
    requires a <= b <= c <= |text|
    ensures text[a..b] + text[b..c] == text[a..c]
  {
  }

  /** Appending two adjacent slices appends the slice they make. */
  lemma AppendJoin(acc: string, text: string, a: nat, b: nat, c: nat)
    requires a <= b <= c <= |text|
    ensures acc + text[a..b] + text[b..c] == acc + text[a..c]
  {
    SliceJoin(text, a, b, c);
    assert acc + text[a..b] + text[b..c] == acc + (text[a..b] + text[b..c]);
  }

  /** A slice grows by the character at its end. */
  lemma SliceStep(text: string, a: nat, b: nat)
    requires a <= b < |text|
    ensures text[a..b] + [text[b]] == text[a..b + 1]
  {
    assert text[b..b + 1] == [text[b]];
    SliceJoin(text, a, b, b + 1);
  }

  /** Appending a slice and then the character at its end appends the
      longer slice. */
  lemma AppendStep(acc: string, text: string, a: nat, b: nat)
    requires a <= b < |text|
    ensures acc + text[a..b] + [text[b]] == acc + text[a..b + 1]
  {
    assert text[b..b + 1] == [text[b]];
    AppendJoin(acc, text, a, b, b + 1);
  }

  /** A scanning method's result and final position agree with a
      specification result. */
  predicate Agrees(spec: Result<Scanned, LexError>, r: Result<Token, LexError>, next: nat) {
    match spec
    case Success(s) => r == Success(s.token) && next == s.next
    case Failure(e) => r == Failure(e)
  }

  function ScanNumber(text: string, p: nat): Result<Scanned, LexError>
    requires p < |text| && IsDigit(text[p])
  {
    var e := NumberEnd(text, p);
    var lexeme := text[p..e];
    var line, col := LineAt(text, p), ColumnAt(text, p);
    if CharAt(text, RunEnd(text, p, Digits)) != Some('.') then
      Success(Scanned(Token(INT_CONST, IntValue(DigitsValue(lexeme)), line, col), e))
    else
      match FloatOf(lexeme)
      case None => Failure(LexError(InvalidFloatLiteral(lexeme), line, col))
      case Some(v) => Success(Scanned(Token(FLOAT_CONST, FloatValue(v), line, col), e))
  }

  /** A scanned name: a keyword token (value upper-cased) or an ID token that
      keeps the original spelling (_id, lexer.py:200-203). */
  function IdentifierToken(lexeme: string, line: int, column: int): Token {
    var upper := Upper(lexeme);
    if upper in Keywords then Token(Keywords[upper], Text(upper), line, column)
    else Token(ID, Text(lexeme), line, column)
  }

  function ScanIdentifier(text: string, p: nat): Scanned
    requires p < |text|
  {
    var e := RunEnd(text, p, IdChars);
    Scanned(IdentifierToken(text[p..e], LineAt(text, p), ColumnAt(text, p)), e)
  }

  function ScanString(text: string, p: nat): Result<Scanned, LexError>
    requires p < |text| && text[p] == '\''
  {
    match FindChar(text, p + 1, '\'')
    case None => Failure(LexError(UnterminatedString, LineAt(text, |text|), ColumnAt(text, |text|)))
    case Some(q) => Success(Scanned(Token(STRING, Text(text[p + 1..q]), LineAt(text, p), ColumnAt(text, p)), q + 1))
  }

  /** The single-character tokens: the evident intent of lexer.py:259-266. */
  function SingleCharKind(c: char): Option<TokenType> {
    match c
    case '+' => Some(PLUS)
    case '-' => Some(MINUS)
    case '*' => Some(MULTIPLY)
    case '=' => Some(EQUAL)
    case '<' => Some(LESS)
    case '>' => Some(GREATER)
    case ';' => Some(SEMI)
    case ',' => Some(COMMA)
    case ':' => Some(COLON)
    case '.' => Some(DOT)
    case '(' => Some(LPAREN)
    case ')' => Some(RPAREN)
    case '[' => Some(LBRACK)
    case ']' => Some(RBRACK)
    case _ => None
  }

  /** An operator token built after the scanner has advanced to `next`: its
      column is the scanner's column there minus one. */
  function OperatorAfter(text: string, kind: TokenType, lexeme: string, next: nat): Scanned {
    Scanned(Token(kind, Text(lexeme), LineAt(text, next), ColumnAt(text, next) - 1), next)
  }

  /** Operators and delimiters (lexer.py:225-266). */
  function ScanOperator(text: string, p: nat): Result<Scanned, LexError>
    requires p < |text|
  {
    var c, next := text[p], CharAt(text, p + 1);
    if c == ':' && next == Some('=') then Success(OperatorAfter(text, ASSIGN, ":=", p + 2))
    else if c == '/' then Success(OperatorAfter(text, DIVIDE, "/", p + 1))
    else if c == '%' then Success(OperatorAfter(text, MOD, "%", p + 1))
    else if c == '<' && next == Some('>') then Success(OperatorAfter(text, NOT_EQUAL, "<>", p + 2))
    else if c == '<' && next == Some('=') then Success(OperatorAfter(text, LESS_EQUAL, "<=", p + 2))
    else if c == '>' && next == Some('=') then Success(OperatorAfter(text, GREATER_EQUAL, ">=", p + 2))
    else if c == '.' && next == Some('.') then Success(OperatorAfter(text, DOTDOT, "..", p + 2))
    else
      match SingleCharKind(c)
      case Some(k) => Success(Scanned(Token(k, Text([c]), LineAt(text, p), ColumnAt(text, p)), p + 1))
      case None => Failure(LexError(UnexpectedCharacter(c), LineAt(text, p), ColumnAt(text, p)))
  }

  /** The token that starts at p, on a character that starts neither
      whitespace nor a comment (the token-building branches of
      get_next_token, lexer.py:216-266). */
  function ScanToken(text: string, p: nat): (r: Result<Scanned, LexError>)
    requires p < |text|
    ensures r.Success? ==> r.value.token.kind != EOF && p < r.value.next <= |text|
  {
    var c := text[p];
    if c == '\'' then ScanString(text, p)
    else if IsAlpha(c) || c == '_' then Success(ScanIdentifier(text, p))
    else if IsDigit(c) then ScanNumber(text, p)
    else ScanOperator(text, p)
  }

  /** The next token from position p (get_next_token, lexer.py:205-268). */
  function Scan(text: string, p: nat): (r: Result<Scanned, LexError>)
    decreases |text| - p
    ensures r.Success? && r.value.token.kind != EOF ==> p < r.value.next <= |text|
    ensures r.Success? && r.value.token.kind == EOF ==> r.value.next == Max(p, |text|)
  {
    if p >= |text| then Success(Scanned(Token(EOF, NoValue, LineAt(text, p), ColumnAt(text, p)), p))
    else
      var c := text[p];
      if IsSpace(c) then Scan(text, RunEnd(text, p, Spaces))
      else if c == '{' then
        match FindChar(text, p + 1, '}')
        case None => Failure(LexError(UnterminatedComment, LineAt(text, |text|), ColumnAt(text, |text|)))
        case Some(q) => Scan(text, q + 1)
      else ScanToken(text, p)
  }

  /** Scanning from whitespace is scanning from the end of the run. */
  lemma ScanSkipsSpaces(text: string, p: nat)
    requires p < |text| && IsSpace(text[p])
    ensures Scan(text, p) == Scan(text, RunEnd(text, p, Spaces))
  {
  }

  /** Scanning from an opening brace skips the comment, or fails at the end
      of the text when it is never closed. */
  lemma ScanSkipsComment(text: string, p: nat)
    requires p < |text| && text[p] == '{'
    ensures FindChar(text, p + 1, '}').Some? ==> Scan(text, p) == Scan(text, FindChar(text, p + 1, '}').value + 1)
    ensures FindChar(text, p + 1, '}').None? ==>
      Scan(text, p) == Failure(LexError(UnterminatedComment, LineAt(text, |text|), ColumnAt(text, |text|)))
  {
  }

  /** At the end of the text the scanner yields EOF and stays put. */
  lemma ScanAtEnd(text: string, p: nat)
    requires p >= |text|
    ensures Scan(text, p) == Success(Scanned(Token(EOF, NoValue, LineAt(text, p), ColumnAt(text, p)), p))
  {
  }

  function Prepend(acc: seq<Token>, r: Result<seq<Token>, LexError>): Result<seq<Token>, LexError> {
    match r
    case Success(rest) => Success(acc + rest)
    case Failure(e) => Failure(e)
  }

  lemma PrependNothing(r: Result<seq<Token>, LexError>)
    ensures Prepend([], r) == r
  {
    if r.Success? {
      assert [] + r.value == r.value;
    }
  }

  lemma PrependTwice(a: seq<Token>, b: seq<Token>, r: Result<seq<Token>, LexError>)
    ensures Prepend(a, Prepend(b, r)) == Prepend(a + b, r)
  {
    if r.Success? {
      assert a + (b + r.value) == (a + b) + r.value;
    }
  }

  /** The whole token list from position p (lex, lexer.py:270-278): it ends
      with the one and only EOF token. */
  function TokensFrom(text: string, p: nat): (r: Result<seq<Token>, LexError>)
    decreases |text| - p
    ensures r.Success? ==> |r.value| > 0 && r.value[|r.value| - 1].kind == EOF
    ensures r.Success? ==> forall i :: 0 <= i < |r.value| - 1 ==> r.value[i].kind != EOF
  {
    match Scan(text, p)
    case Failure(e) => Failure(e)
    case Success(s) =>
      if s.token.kind == EOF then Success([s.token])
      else Prepend([s.token], TokensFrom(text, s.next))
  }

  // ---------------------------------------------------------------------
  // The scanner as a state machine
  // ---------------------------------------------------------------------

  class Lexer {
    const text: string
    var pos: nat
    var currentChar: Option<char>
    var line: int
    var column: int

    /** currentChar, line and column are those of position pos. */
    ghost predicate Valid()
      reads this
    {
      currentChar == CharAt(text, pos) && line == LineAt(text, pos) && column == ColumnAt(text, pos)
    }

    constructor (text: string)
      ensures Valid() && this.text == text && pos == 0
      ensures line == 1 && column == 1
    {
      this.text := text;
      pos := 0;
      currentChar := if |text| > 0 then Some(text[0]) else None;
      line := 1;
      column := 1;
    }

    method Advance()
      requires Valid()
      modifies this
      ensures Valid() && pos == old(pos) + 1
    {
      if currentChar == Some('\n') {
        line := line + 1;
        column := 0;
      }
      pos := pos + 1;
      if pos < |text| {
        currentChar := Some(text[pos]);
        column := column + 1;
      } else {
        currentChar := None;
      }
    }

    function Peek(): (c: Option<char>)
      reads this
      ensures c == CharAt(text, pos + 1)
    {
      if pos + 1 >= |text| then None else Some(text[pos + 1])
    }

    method SkipWhitespace()
      requires Valid()
      modifies this
      ensures Valid() && pos == RunEnd(text, old(pos), Spaces)
    {
      while currentChar.Some? && IsSpace(currentChar.value)
        invariant Valid() && old(pos) <= pos
        invariant RunEnd(text, old(pos), Spaces) == RunEnd(text, pos, Spaces)
        decreases |text| - pos
      {
        Advance();
      }
    }

    /** Called just after an opening '{'. */
    method SkipComment() returns (r: Outcome<LexError>)
      requires Valid()
      modifies this
      ensures Valid()
      ensures match FindChar(text, old(pos), '}')
              case Some(q) => r == Pass && pos == q + 1
              case None =>
                pos == Max(old(pos), |text|) &&
                r == Fail(LexError(UnterminatedComment, LineAt(text, pos), ColumnAt(text, pos)))
    {
      while currentChar != Some('}') && currentChar.Some?
        invariant Valid() && old(pos) <= pos
        invariant pos > old(pos) ==> pos <= |text|
        invariant FindChar(text, old(pos), '}') == FindChar(text, pos, '}')
        decreases |text| - pos
      {
        Advance();
      }
      if currentChar == Some('}') {
        Advance();
        r := Pass;
      } else {
        r := Fail(LexError(UnterminatedComment, line, column));
      }
    }

    /** The digit loops of number(): append the maximal digit run to result. */
    method DigitRun(result: string) returns (result': string)
      requires Valid() && pos <= |text|
      modifies this
      ensures Valid() && pos == RunEnd(text, old(pos), Digits) && pos <= |text|
      ensures result' == result + text[old(pos)..pos]
    {
      result' := result;
      while currentChar.Some? && IsDigit(currentChar.value)
        invariant Valid() && old(pos) <= pos <= |text|
        invariant result' == result + text[old(pos)..pos]
        invariant RunEnd(text, old(pos), Digits) == RunEnd(text, pos, Digits)
        decreases |text| - pos
      {
        AppendStep(result, text, old(pos), pos);
        result' := result' + [currentChar.value];
        Advance();
      }
    }

    /** The exponent part of number(), called on 'e' or 'E'. */
    method Exponent(result: string) returns (result': string)
      requires Valid() && pos < |text| && (currentChar == Some('e') || currentChar == Some('E'))
      modifies this
      ensures Valid() && pos == ExponentEnd(text, old(pos))
      ensures result' == result + text[old(pos)..pos]
    {
      ghost var q := pos;
      ghost var sign := CharAt(text, q + 1);
      assert [currentChar.value] == text[q..q + 1];
      result' := result + [currentChar.value];
      Advance();
      assert currentChar == sign;
      if currentChar == Some('+') || currentChar == Some('-') {
        assert [currentChar.value] == text[q + 1..q + 2];
        AppendJoin(result, text, q, q + 1, q + 2);
        result' := result' + [currentChar.value];
        Advance();
      }
      ghost var s := pos;
      assert s == if sign == Some('+') || sign == Some('-') then q + 2 else q + 1;
      result' := DigitRun(result');
      AppendJoin(result, text, q, s, pos);
    }

    /** The fraction part of number(), called on '.'. */
    method Fraction(result: string) returns (result': string)
      requires Valid() && pos < |text| && currentChar == Some('.')
      modifies this
      ensures Valid() && pos == FractionEnd(text, old(pos))
      ensures result' == result + text[old(pos)..pos]
    {
      ghost var d := pos;
      assert ['.'] == text[d..d + 1];
      result' := result + ['.'];
      Advance();
      result' := DigitRun(result');
      ghost var d2 := pos;
      AppendJoin(result, text, d, d + 1, d2);
      if currentChar == Some('e') || currentChar == Some('E') {
        result' := Exponent(result');
        AppendJoin(result, text, d, d2, pos);
      }
    }

    /** Called on a digit. */
    method Number() returns (r: Result<Token, LexError>)
      requires Valid() && currentChar.Some? && IsDigit(currentChar.value)
      modifies this
      ensures Valid()
      ensures Agrees(ScanNumber(text, old(pos)), r, pos)
    {
      var isFloat := false;
      var startLine, startColumn := line, column;
      var result := DigitRun([]);
      ghost var d1 := pos;
      if currentChar == Some('.') {
        isFloat := true;
        result := Fraction(result);
        SliceJoin(text, old(pos), d1, pos);
      }
      assert pos == NumberEnd(text, old(pos)) && result == text[old(pos)..pos];
      assert isFloat <==> CharAt(text, d1) == Some('.');
      assert startLine == LineAt(text, old(pos)) && startColumn == ColumnAt(text, old(pos));
      if isFloat {
        var v := FloatOf(result);
        if v.None? {
          r := Failure(LexError(InvalidFloatLiteral(result), startLine, startColumn));
        } else {
          r := Success(Token(FLOAT_CONST, FloatValue(v.value), startLine, startColumn));
        }
      } else {
        r := Success(Token(INT_CONST, IntValue(DigitsValue(result)), startLine, startColumn));
      }
    }

    /** Called on the opening quote. */
    method StringLiteral() returns (r: Result<Token, LexError>)
      requires Valid() && currentChar == Some('\'')
      modifies this
      ensures Valid()
      ensures Agrees(ScanString(text, old(pos)), r, pos)
    {
      var result: string := [];
      var startLine, startColumn := line, column;
      Advance();
      while currentChar.Some? && currentChar != Some('\'')
        invariant Valid() && old(pos) < pos <= |text|
        invariant result == text[old(pos) + 1..pos]
        invariant FindChar(text, old(pos) + 1, '\'') == FindChar(text, pos, '\'')
        decreases |text| - pos
      {
        SliceStep(text, old(pos) + 1, pos);
        result := result + [currentChar.value];
        Advance();
      }
      if currentChar != Some('\'') {
        return Failure(LexError(UnterminatedString, line, column));
      }
      Advance();
      r := Success(Token(STRING, Text(result), startLine, startColumn));
    }

    /** Called on a letter or '_'. */
    method Identifier() returns (t: Token)
      requires Valid() && currentChar.Some? && (IsAlpha(currentChar.value) || currentChar.value == '_')
      modifies this
      ensures Valid()
      ensures Scanned(t, pos) == ScanIdentifier(text, old(pos))
    {
      var result: string := [];
      var startLine, startColumn := line, column;
      while currentChar.Some? && IsIdChar(currentChar.value)
        invariant Valid() && old(pos) <= pos <= |text|
        invariant result == text[old(pos)..pos]
        invariant RunEnd(text, old(pos), IdChars) == RunEnd(text, pos, IdChars)
        decreases |text| - pos
      {
        SliceStep(text, old(pos), pos);
        result := result + [currentChar.value];
        Advance();
      }
      t := IdentifierToken(result, startLine, startColumn);
    }

    /** The operator and delimiter branches of get_next_token. */
    method Operator() returns (r: Result<Token, LexError>)
      requires Valid() && pos < |text|
      modifies this
      ensures Valid()
      ensures Agrees(ScanOperator(text, old(pos)), r, pos)
    {
      var c := currentChar.value;
      if c == ':' && Peek() == Some('=') {
        Advance();
        Advance();
        return Success(Token(ASSIGN, Text(":="), line, column - 1));
      }
      if c == '/' {
        Advance();
        return Success(Token(DIVIDE, Text("/"), line, column - 1));
      }
      if c == '%' {
        Advance();
        return Success(Token(MOD, Text("%"), line, column - 1));
      }
      if c == '<' && Peek() == Some('>') {
        Advance();
        Advance();
        return Success(Token(NOT_EQUAL, Text("<>"), line, column - 1));
      }
      if c == '<' && Peek() == Some('=') {
        Advance();
        Advance();
        return Success(Token(LESS_EQUAL, Text("<="), line, column - 1));
      }
      if c == '>' && Peek() == Some('=') {
        Advance();
        Advance();
        return Success(Token(GREATER_EQUAL, Text(">="), line, column - 1));
      }
      if c == '.' && Peek() == Some('.') {
        Advance();
        Advance();
        return Success(Token(DOTDOT, Text(".."), line, column - 1));
      }
      var kind := SingleCharKind(c);
      if kind.Some? {
        var token := Token(kind.value, Text([c]), line, column);
        Advance();
        return Success(token);
      }
      return Failure(LexError(UnexpectedCharacter(c), line, column));
    }

    /** The branches of get_next_token that build a token, called on a
        character that starts neither whitespace nor a comment. */
    method TokenHere() returns (r: Result<Token, LexError>)
      requires Valid() && pos < |text| && !IsSpace(text[pos]) && text[pos] != '{'
      modifies this
      ensures Valid()
      ensures Agrees(ScanToken(text, old(pos)), r, pos)
    {
      var c := currentChar.value;
      if c == '\'' {
        r := StringLiteral();
      } else if IsAlpha(c) || c == '_' {
        var t := Identifier();
        r := Success(t);
      } else if IsDigit(c) {
        r := Number();
      } else {
        r := Operator();
      }
    }

    /** The branches of get_next_token that skip whitespace or a comment,
        called on a blank or an opening brace. */
    method SkipBlank() returns (o: Outcome<LexError>)
      requires Valid() && pos < |text| && (IsSpace(text[pos]) || text[pos] == '{')
      modifies this
      ensures Valid() && old(pos) < pos
      ensures o.Pass? ==> pos <= |text| && Scan(text, old(pos)) == Scan(text, pos)
      ensures o.Fail? ==> Scan(text, old(pos)) == Failure(o.error)
    {
      if IsSpace(currentChar.value) {
        ScanSkipsSpaces(text, pos);
        SkipWhitespace();
        o := Pass;
      } else {
        ScanSkipsComment(text, pos);
        Advance();
        o := SkipComment();
      }
    }

    method GetNextToken() returns (r: Result<Token, LexError>)
      requires Valid()
      modifies this
      ensures Valid()
      ensures Agrees(Scan(text, old(pos)), r, pos)
    {
      while currentChar.Some?
        invariant Valid()
        invariant Scan(text, old(pos)) == Scan(text, pos)
        decreases |text| - pos
      {
        var c := currentChar.value;
        if IsSpace(c) || c == '{' {
          var o := SkipBlank();
          if o.Fail? {
            return Failure(o.error);
          }
        } else {
          assert Scan(text, pos) == ScanToken(text, pos);
          r := TokenHere();
          return;
        }
      }
      ScanAtEnd(text, pos);
      r := Success(Token(EOF, NoValue, line, column));
    }
  }

  /** lex (lexer.py:270-278): pull tokens until the EOF token. */
  method Lex(text: string) returns (r: Result<seq<Token>, LexError>)
    ensures r == TokensFrom(text, 0)
    ensures r.Success? ==> |r.value| > 0 && r.value[|r.value| - 1].kind == EOF
    ensures r.Success? ==> forall i :: 0 <= i < |r.value| - 1 ==> r.value[i].kind != EOF
  {
    var lexer := new Lexer(text);
    var tokens: seq<Token> := [];
    PrependNothing(TokensFrom(text, 0));
    while true
      invariant lexer.Valid() && lexer.text == text && lexer.pos <= |text|
      invariant TokensFrom(text, 0) == Prepend(tokens, TokensFrom(text, lexer.pos))
      decreases |text| - lexer.pos
    {
      var t := lexer.GetNextToken();
      if t.Failure? {
        return Failure(t.error);
      }
      PrependTwice(tokens, [t.value], TokensFrom(text, lexer.pos));
      tokens := tokens + [t.value];
      if t.value.kind == EOF {
        return Success(tokens);
      }
    }
  }
}
