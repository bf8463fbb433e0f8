/** Properties of the parser's productions (src/parser.py): how eat moves,
    what the grammar's precedence and associativity come to, where an ELSE
    belongs, what the empty statement is, how declarations share their
    type, and how the token stream relates to the lexer. */
module ParsingProperties {
  import opened Wrappers
  import opened Lexing
  import opened Ast
  import opened Parsing

  // ---------------------------------------------------------------------
  // eat
  // ---------------------------------------------------------------------

  /** eat succeeds exactly on a token of the expected kind that is not
      followed by a lexical error; a mismatch reports both kinds at the
      current token, and a match moves to the next token. */
  lemma EatMatchesKind(ts: TokenStream, p: nat, k: TokenType)
    requires Position(ts, p)
    ensures EatAt(ts, p, k).Success? <==> ts.toks[p].kind == k && (p + 1 < |ts.toks| || ts.failure.None?)
    ensures ts.toks[p].kind != k ==>
      EatAt(ts, p, k) == Failure(SyntaxError(Expected(k, ts.toks[p].kind), ts.toks[p].line, ts.toks[p].column))
    ensures ts.toks[p].kind == k && p + 1 < |ts.toks| ==> EatAt(ts, p, k) == Success(p + 1)
  {
  }

  /** Past the last token of a stream without lexical error the parser
      stays on EOF; in a stream that stops at a lexical error, advancing
      past the last token raises that error. */
  lemma EatAtLastToken(ts: TokenStream)
    requires WellFormed(ts) && |ts.toks| > 0
    ensures var last := |ts.toks| - 1;
      EatAt(ts, last, ts.toks[last].kind) ==
        if ts.failure.None? then Success(last) else Failure(LexicalError(ts.failure.value))
  {
  }

  // ---------------------------------------------------------------------
  // parse: the whole input must be one program
  // ---------------------------------------------------------------------

  /** A stream parses exactly when it starts with a program that is
      followed by EOF; tokens after the final DOT are an error reported at
      the first of them. */
  lemma ParseNeedsEofAfterProgram(ts: TokenStream)
    requires WellFormed(ts) && |ts.toks| > 0
    ensures ParseStream(ts).Success? <==>
      ProgramAt(ts, 0).Success? && ts.toks[ProgramAt(ts, 0).value.next].kind == EOF
    ensures ParseStream(ts).Success? ==> ParseStream(ts).value == ProgramAt(ts, 0).value.node
    ensures ProgramAt(ts, 0).Success? && ts.toks[ProgramAt(ts, 0).value.next].kind != EOF ==>
      var q := ProgramAt(ts, 0).value.next;
      ParseStream(ts) == Failure(SyntaxError(UnexpectedTokenAfterEnd, ts.toks[q].line, ts.toks[q].column))
  {
  }

  /** A program must start with PROGRAM. */
  lemma ProgramStartsWithKeyword(ts: TokenStream)
    requires WellFormed(ts) && |ts.toks| > 0 && ts.toks[0].kind != PROGRAM
    ensures ParseStream(ts) == Failure(SyntaxError(Expected(PROGRAM, ts.toks[0].kind), ts.toks[0].line, ts.toks[0].column))
  {
  }

  // ---------------------------------------------------------------------
  // Precedence and associativity
  // ---------------------------------------------------------------------

  /** k is not an operator of level lv or of any tighter level. */
  predicate NotOperatorFrom(k: TokenType, lv: nat) {
    forall j :: lv <= j <= 5 ==> k !in Ops(j)
  }

  /** Precedence: an expression of level lv ends only before a token that
      is not an operator of level lv or tighter, so every tighter operator
      has been taken into an operand. */
  lemma {:induction false} LevelEndsBeforeLooserToken(ts: TokenStream, lv: nat, p: nat)
    requires Position(ts, p) && lv <= 5
    decreases Remaining(ts, p), 8 - lv, 1
    ensures LevelAt(ts, lv, p).Success? ==> NotOperatorFrom(ts.toks[LevelAt(ts, lv, p).value.next].kind, lv)
  {
    if lv == 5 {
      var left := FactorAt(ts, p);
      if left.Success? {
        LevelTailEndsBeforeLooserToken(ts, lv, left.value.node, left.value.next);
      }
    } else {
      var left := LevelAt(ts, lv + 1, p);
      if left.Success? {
        LevelEndsBeforeLooserToken(ts, lv + 1, p);
        LevelTailEndsBeforeLooserToken(ts, lv, left.value.node, left.value.next);
      }
    }
  }

  lemma {:induction false} LevelTailEndsBeforeLooserToken(ts: TokenStream, lv: nat, node: Expr, p: nat)
    requires Position(ts, p) && lv <= 5
    requires NotOperatorFrom(ts.toks[p].kind, lv + 1)
    decreases Remaining(ts, p), 0
    ensures LevelTailAt(ts, lv, node, p).Success? ==>
      NotOperatorFrom(ts.toks[LevelTailAt(ts, lv, node, p).value.next].kind, lv)
  {
    var t := ts.toks[p];
    if t.kind in Ops(lv) {
      var p1 := EatAt(ts, p, t.kind);
      if p1.Success? {
        var right := if lv == 5 then FactorAt(ts, p1.value) else LevelAt(ts, lv + 1, p1.value);
        if right.Success? {
          if lv < 5 {
            LevelEndsBeforeLooserToken(ts, lv + 1, p1.value);
          }
          LevelTailEndsBeforeLooserToken(ts, lv, BinOp(node, t, right.value.node, None), right.value.next);
        }
      }
    }
  }

  /** Associativity: two operators of the same level fold to the left,
      a op b op' c being (a op b) op' c. */
  lemma SameLevelFoldsLeft(ts: TokenStream, lv: nat, a: Expr, p: nat, b: Expr, q: nat, c: Expr, s: nat)
    requires Position(ts, p) && lv <= 5 && p + 1 < |ts.toks|
    requires ts.toks[p].kind in Ops(lv)
    requires OperandAt(ts, lv + 1, p + 1) == Success(Parsed(b, q))
    requires q + 1 < |ts.toks| && ts.toks[q].kind in Ops(lv)
    requires OperandAt(ts, lv + 1, q + 1) == Success(Parsed(c, s))
    requires s < |ts.toks| && ts.toks[s].kind !in Ops(lv)
    ensures LevelTailAt(ts, lv, a, p) ==
      Success(Parsed(BinOp(BinOp(a, ts.toks[p], b, None), ts.toks[q], c, None), s))
  {
    assert LevelTailAt(ts, lv, BinOp(BinOp(a, ts.toks[p], b, None), ts.toks[q], c, None), s)
      == Success(Parsed(BinOp(BinOp(a, ts.toks[p], b, None), ts.toks[q], c, None), s));
  }

  /** A level with no operator of its own is its operand unchanged. */
  lemma LevelWithoutOperatorIsOperand(ts: TokenStream, lv: nat, p: nat)
    requires Position(ts, p) && lv <= 5
    requires OperandAt(ts, lv + 1, p).Success?
    requires ts.toks[OperandAt(ts, lv + 1, p).value.next].kind !in Ops(lv)
    ensures LevelAt(ts, lv, p) == OperandAt(ts, lv + 1, p)
  {
  }

  // ---------------------------------------------------------------------
  // Factors and variables
  // ---------------------------------------------------------------------

  /** Unary operators bind tightest: the operand of + - NOT is the next
      factor alone, so `-a * b` is `(-a) * b`. */
  lemma UnaryOperandIsFactor(ts: TokenStream, p: nat)
    requires Position(ts, p) && p + 1 < |ts.toks|
    requires ts.toks[p].kind in {PLUS, MINUS, NOT}
    ensures FactorAt(ts, p).Success? <==> FactorAt(ts, p + 1).Success?
    ensures FactorAt(ts, p).Success? ==>
      FactorAt(ts, p) == Success(Parsed(UnaryOp(ts.toks[p], FactorAt(ts, p + 1).value.node, None), FactorAt(ts, p + 1).value.next))
  {
  }

  /** Parentheses leave no node of their own: ( e ) is the node of e. */
  lemma ParenthesesAreTransparent(ts: TokenStream, p: nat)
    requires Position(ts, p) && p + 1 < |ts.toks| && ts.toks[p].kind == LPAREN
    requires ExprAt(ts, p + 1).Success?
    ensures FactorAt(ts, p).Success? ==> FactorAt(ts, p).value.node == ExprAt(ts, p + 1).value.node
  {
  }

  /** A number literal is typed by its token kind. */
  lemma NumbersAreTypedByKind(ts: TokenStream, p: nat)
    requires Position(ts, p) && p + 1 < |ts.toks|
    requires ts.toks[p].kind == INT_CONST || ts.toks[p].kind == FLOAT_CONST
    ensures FactorAt(ts, p) == Success(Parsed(
      Num(ts.toks[p], ts.toks[p].value, if ts.toks[p].kind == INT_CONST then Type.INTEGER else Type.FLOAT), p + 1))
  {
  }

  /** A variable has an index exactly when its name is followed by LBRACK. */
  lemma IndexIffBracket(ts: TokenStream, p: nat)
    requires Position(ts, p) && p + 1 < |ts.toks|
    requires VariableAt(ts, p).Success?
    ensures VariableAt(ts, p).value.node.index.Some? <==> ts.toks[p + 1].kind == LBRACK
    ensures VariableAt(ts, p).value.node.name == TextOf(ts.toks[p].value) && ts.toks[p].kind == ID
  {
  }

  // ---------------------------------------------------------------------
  // Statements
  // ---------------------------------------------------------------------

  /** The statement a token starts. */
  predicate StartsStatement(k: TokenType) {
    k == BEGIN || k == IF || k == WHILE || k == READ || k == WRITE || k == ID
  }

  /** The empty statement is what is parsed, consuming nothing, exactly
      when the current token starts no other statement. */
  lemma EmptyStatementIffNoStarter(ts: TokenStream, p: nat)
    requires Position(ts, p)
    ensures StatementAt(ts, p) == Success(Parsed(NoOp, p)) <==> !StartsStatement(ts.toks[p].kind)
    ensures StatementAt(ts, p).Success? && StatementAt(ts, p).value.node == NoOp ==> !StartsStatement(ts.toks[p].kind)
  {
  }

  /** A statement parsed as an IF node is an if_statement starting here. */
  lemma IfNodeComesFromIf(ts: TokenStream, p: nat)
    requires Position(ts, p)
    requires StatementAt(ts, p).Success? && StatementAt(ts, p).value.node.If?
    ensures ts.toks[p].kind == IF && StatementAt(ts, p) == IfAt(ts, p)
  {
  }

  /** BEGIN END is a compound statement holding one empty statement. */
  lemma EmptyCompound(ts: TokenStream, p: nat)
    requires Position(ts, p) && p + 2 < |ts.toks|
    requires ts.toks[p].kind == BEGIN && ts.toks[p + 1].kind == END
    ensures CompoundAt(ts, p) == Success(Parsed(Compound(ts.toks[p], [NoOp]), p + 2))
  {
    assert StatementAt(ts, p + 1) == Success(Parsed(NoOp, p + 1));
    assert StatementTailAt(ts, p + 1) == Success(Parsed([], p + 1));
    assert [NoOp] + [] == [NoOp];
    assert StatementListAt(ts, p + 1) == Success(Parsed([NoOp], p + 1));
  }

  /** Dangling ELSE: an IF is left without an ELSE only when no ELSE
      follows its true branch. */
  lemma IfWithoutElseIsNotFollowedByElse(ts: TokenStream, p: nat)
    requires Position(ts, p)
    requires IfAt(ts, p).Success? && IfAt(ts, p).value.node.falseBranch.None?
    ensures ts.toks[IfAt(ts, p).value.next].kind != ELSE
  {
  }

  /** Dangling ELSE: an ELSE belongs to the nearest IF, so when the true
      branch of an IF is an IF without ELSE, the outer IF has none either. */
  lemma ElseBindsToNearestIf(ts: TokenStream, p: nat)
    requires Position(ts, p)
    requires IfAt(ts, p).Success?
    requires IfAt(ts, p).value.node.trueBranch.If? && IfAt(ts, p).value.node.trueBranch.falseBranch.None?
    ensures IfAt(ts, p).value.node.falseBranch.None?
  {
    var p1 := EatAt(ts, p, IF).value;
    var c := ExprAt(ts, p1).value;
    var p2 := EatAt(ts, c.next, THEN).value;
    var tb := StatementAt(ts, p2).value;
    IfNodeComesFromIf(ts, p2);
    IfWithoutElseIsNotFollowedByElse(ts, p2);
  }

  /** WRITE takes a string literal argument exactly when the argument
      starts with a STRING token. */
  lemma WriteStringIffStringToken(ts: TokenStream, p: nat)
    requires Position(ts, p)
    requires WriteArgAt(ts, p).Success?
    ensures WriteArgAt(ts, p).value.node.StringArg? <==> ts.toks[p].kind == STRING
  {
  }

  // ---------------------------------------------------------------------
  // Declarations
  // ---------------------------------------------------------------------

  /** The names after the first of a declaration are the ID tokens after
      each COMMA, at every second position. */
  lemma {:induction false} MoreNamesAreEverySecondToken(ts: TokenStream, p: nat)
    requires Position(ts, p)
    decreases Remaining(ts, p)
    ensures MoreNamesAt(ts, p).Success? ==>
      var m := MoreNamesAt(ts, p).value;
      m.next == p + 2 * |m.node| &&
      (forall i :: 0 <= i < |m.node| ==>
        ts.toks[p + 2 * i].kind == COMMA && ts.toks[p + 2 * i + 1].kind == ID &&
        m.node[i] == NameVar(ts.toks[p + 2 * i + 1]))
  {
    if ts.toks[p].kind == COMMA {
      var p1 := EatAt(ts, p, COMMA);
      if p1.Success? {
        var p2 := EatAt(ts, p1.value, ID);
        if p2.Success? && MoreNamesAt(ts, p2.value).Success? {
          MoreNamesAreEverySecondToken(ts, p2.value);
          var rest := MoreNamesAt(ts, p2.value).value;
          var m := MoreNamesAt(ts, p).value;
          assert m.node == [NameVar(ts.toks[p + 1])] + rest.node;
          forall i | 0 <= i < |m.node|
            ensures ts.toks[p + 2 * i].kind == COMMA && ts.toks[p + 2 * i + 1].kind == ID &&
              m.node[i] == NameVar(ts.toks[p + 2 * i + 1])
          {
            if i > 0 {
              assert p + 2 * i == p2.value + 2 * (i - 1);
            }
          }
        }
      }
    }
  }

  /** One variable_declaration declares the names at p, p + 2, p + 4, ...,
      one declaration per name, in order. */
  lemma DeclaredNamesAreEverySecondToken(ts: TokenStream, p: nat)
    requires Position(ts, p)
    requires VariableDeclarationAt(ts, p).Success?
    ensures var ds := VariableDeclarationAt(ts, p).value.node;
      p + 2 * |ds| - 2 < |ts.toks| &&
      (forall i :: 0 <= i < |ds| ==>
        ts.toks[p + 2 * i].kind == ID && ds[i].varNode == NameVar(ts.toks[p + 2 * i]))
  {
    var p1 := EatAt(ts, p, ID).value;
    MoreNamesAreEverySecondToken(ts, p1);
    var more := MoreNamesAt(ts, p1).value;
    var p2 := EatAt(ts, more.next, COLON).value;
    var tn := TypeSpecAt(ts, p2).value;
    var vars := [NameVar(ts.toks[p])] + more.node;
    var ds := VariableDeclarationAt(ts, p).value.node;
    assert ds == DeclsOf(vars, tn.node);
    forall i | 0 <= i < |ds|
      ensures ts.toks[p + 2 * i].kind == ID && ds[i].varNode == NameVar(ts.toks[p + 2 * i])
    {
      if i > 0 {
        assert vars[i] == more.node[i - 1];
        assert p + 2 * i == p1 + 2 * (i - 1) + 1;
      }
    }
  }

  /** All declarations of one variable_declaration share its type node,
      a well-shaped one, carry its type, and are reported at their name. */
  lemma DeclarationSharesTypeNode(ts: TokenStream, p: nat)
    requires Position(ts, p)
    requires VariableDeclarationAt(ts, p).Success?
    ensures var ds := VariableDeclarationAt(ts, p).value.node;
      |ds| > 0 && WellShapedType(ds[0].typeNode) &&
      (forall i :: 0 <= i < |ds| ==>
        ds[i].typeNode == ds[0].typeNode && ds[i].ty == Some(ds[i].typeNode.ty) &&
        ds[i].token == ds[i].varNode.token)
  {
  }

  /** Without VAR there are no declarations and nothing is consumed. */
  lemma NoVarNoDeclarations(ts: TokenStream, p: nat)
    requires Position(ts, p) && ts.toks[p].kind != VAR
    ensures DeclarationsAt(ts, p) == Success(Parsed([], p))
  {
  }

  /** The grammar comment of declarations asks for at least one
      declaration after VAR, but its loop accepts none: VAR followed by
      anything but an ID declares nothing. */
  lemma VarWithoutNames(ts: TokenStream, p: nat)
    requires Position(ts, p) && p + 1 < |ts.toks|
    requires ts.toks[p].kind == VAR && ts.toks[p + 1].kind != ID
    ensures DeclarationsAt(ts, p) == Success(Parsed([], p + 1))
  {
  }

  // ---------------------------------------------------------------------
  // The stream from the lexer
  // ---------------------------------------------------------------------

  /** The stream holds the lexer's whole token list when the lexer
      succeeds, and stops at its error otherwise. */
  lemma {:induction false} StreamAgreesWithLexer(text: string, p: nat)
    decreases |text| - p
    ensures StreamFrom(text, p).failure.None? <==> TokensFrom(text, p).Success?
    ensures TokensFrom(text, p).Success? ==> StreamFrom(text, p).toks == TokensFrom(text, p).value
    ensures TokensFrom(text, p).Failure? ==> StreamFrom(text, p).failure == Some(TokensFrom(text, p).error)
  {
    match Scan(text, p)
    case Failure(e) =>
    case Success(s) =>
      if s.token.kind != EOF {
        StreamAgreesWithLexer(text, s.next);
      }
  }

  /** A scan result that is an ID token does not spell a keyword. */
  predicate IdIsNoKeyword(r: Result<Scanned, LexError>) {
    r.Success? && r.value.token.kind == ID ==> Upper(TextOf(r.value.token.value)) !in Keywords
  }

  /** The identifier rule makes an ID only of a lexeme that is no keyword. */
  lemma IdentifierIdIsNotKeyword(lexeme: string, line: int, column: int)
    ensures IdentifierToken(lexeme, line, column).kind == ID ==>
      Upper(TextOf(IdentifierToken(lexeme, line, column).value)) !in Keywords
  {
    assert forall k | k in Keywords :: Keywords[k] != ID;
  }

  /** The same for the token that starts at a non-blank character. */
  lemma ScannedTokenIdIsNotKeyword(text: string, p: nat)
    requires p < |text|
    ensures IdIsNoKeyword(ScanToken(text, p))
  {
    var c := text[p];
    if IsAlpha(c) || c == '_' {
      var e := RunEnd(text, p, IdChars);
      IdentifierIdIsNotKeyword(text[p..e], LineAt(text, p), ColumnAt(text, p));
    }
  }

  /** A scanned ID token never spells a keyword. */
  lemma {:induction false} ScannedIdIsNotKeyword(text: string, p: nat)
    decreases |text| - p, 1
    ensures IdIsNoKeyword(Scan(text, p))
  {
    if p < |text| {
      if IsSpace(text[p]) {
        SpacesKeepIdsNoKeyword(text, p);
      } else if text[p] == '{' {
        CommentKeepsIdsNoKeyword(text, p);
      } else {
        ScannedTokenIdIsNotKeyword(text, p);
      }
    }
  }

  lemma {:induction false} SpacesKeepIdsNoKeyword(text: string, p: nat)
    requires p < |text| && IsSpace(text[p])
    decreases |text| - p, 0
    ensures IdIsNoKeyword(Scan(text, p))
  {
    ScanSkipsSpaces(text, p);
    ScannedIdIsNotKeyword(text, RunEnd(text, p, Spaces));
  }

  lemma {:induction false} CommentKeepsIdsNoKeyword(text: string, p: nat)
    requires p < |text| && text[p] == '{'
    decreases |text| - p, 0
    ensures IdIsNoKeyword(Scan(text, p))
  {
    var close := FindChar(text, p + 1, '}');
    ScanSkipsComment(text, p);
    if close.Some? {
      ScannedIdIsNotKeyword(text, close.value + 1);
    } else {
      assert Scan(text, p).Failure?;
    }
  }

  /** So the FloatCast branch of factor is never taken on lexed input:
      every spelling of "float" is the FLOAT keyword, never an ID. */
  lemma {:induction false} LexedIdsAreNotKeywords(text: string, p: nat)
    decreases |text| - p
    ensures forall i :: 0 <= i < |StreamFrom(text, p).toks| && StreamFrom(text, p).toks[i].kind == ID ==>
      Upper(TextOf(StreamFrom(text, p).toks[i].value)) !in Keywords &&
      Upper(TextOf(StreamFrom(text, p).toks[i].value)) != "FLOAT"
  {
    ScannedIdIsNotKeyword(text, p);
    match Scan(text, p)
    case Failure(e) =>
    case Success(s) =>
      if s.token.kind != EOF {
        LexedIdsAreNotKeywords(text, s.next);
        var ts := StreamFrom(text, p);
        assert ts.toks == [s.token] + StreamFrom(text, s.next).toks;
      }
  }
}
