/** Recursive-descent parser with one token of lookahead (src/parser.py).
    Each production is specified by a pure function over the token stream
    (`ProgramAt`, ..., `FactorAt`) that yields the node and the position
    after it; the class Parser implements the productions as methods over
    the current token and is proved to agree with them. */
module Parsing {
  import opened Wrappers
  import opened Lexing
  import opened Ast

  // ---------------------------------------------------------------------
  // The token stream the parser pulls from
  // ---------------------------------------------------------------------

  /** The tokens the lexer yields, in order, and the lexical error that
      stops it, if any. The parser pulls tokens one at a time, so a lexical
      error surfaces only when the parser advances onto it. */
  datatype TokenStream = TokenStream(toks: seq<Token>, failure: Option<LexError>)

  /** Without a lexical error the stream ends with the EOF token. */
  predicate WellFormed(ts: TokenStream) {
    ts.failure.None? ==> |ts.toks| > 0 && ts.toks[|ts.toks| - 1].kind == EOF
  }

  /** The stream the lexer yields from position p of the text. */
  function StreamFrom(text: string, p: nat): (r: TokenStream)
    decreases |text| - p
    ensures WellFormed(r)
  {
    match Scan(text, p)
    case Failure(e) => TokenStream([], Some(e))
    case Success(s) =>
      if s.token.kind == EOF then TokenStream([s.token], None)
      else
        var rest := StreamFrom(text, s.next);
        TokenStream([s.token] + rest.toks, rest.failure)
  }

  // ---------------------------------------------------------------------
  // Results and errors
  // ---------------------------------------------------------------------

  datatype SyntaxErrorKind =
    | Expected(expected: TokenType, got: TokenType)
    | ExpectedTypeSpec(got: TokenType)
    | UnexpectedTokenAfterEnd
    | UndefinedNode(name: string)

  /** A parse error at the position of the current token, or the lexical
      error met while fetching the next token. */
  datatype ParseError = SyntaxError(kind: SyntaxErrorKind, line: int, column: int) | LexicalError(error: LexError)

  /** A node and the position of the token after it. */
  datatype Parsed<T> = Parsed(node: T, next: nat)

  /** p is the position of a current token. */
  predicate Position(ts: TokenStream, p: nat) {
    WellFormed(ts) && p < |ts.toks|
  }

  function Remaining(ts: TokenStream, p: nat): nat {
    if p < |ts.toks| then |ts.toks| - p else 0
  }

  function ErrorAt(ts: TokenStream, p: nat, kind: SyntaxErrorKind): ParseError
    requires p < |ts.toks|
  {
    SyntaxError(kind, ts.toks[p].line, ts.toks[p].column)
  }

  /** The text of a name or string token. */
  function TextOf(v: TokenValue): string {
    if v.Text? then v.text else []
  }

  /** The integer of an INT_CONST token. */
  function IntOf(v: TokenValue): int {
    if v.IntValue? then v.i else 0
  }

  // ---------------------------------------------------------------------
  // eat (parser.py:25-31)
  // ---------------------------------------------------------------------

  /** eat(k) at p: on a token of kind k the parser moves to the next token
      (the EOF token repeats at the end); otherwise it reports the expected
      and the actual kind. */
  function EatAt(ts: TokenStream, p: nat, k: TokenType): (r: Result<nat, ParseError>)
    requires Position(ts, p)
    ensures r.Success? ==> r.value < |ts.toks| && ts.toks[p].kind == k
    ensures r.Success? && k != EOF ==> r.value == p + 1
  {
    if ts.toks[p].kind != k then Failure(ErrorAt(ts, p, Expected(k, ts.toks[p].kind)))
    else if p + 1 < |ts.toks| then Success(p + 1)
    else if ts.failure.Some? then Failure(LexicalError(ts.failure.value))
    else Success(p)
  }

  // ---------------------------------------------------------------------
  // Expressions (parser.py:257-427)
  // ---------------------------------------------------------------------

  /** The operators of the six binary levels, loosest first. */
  function Ops(lv: nat): set<TokenType> {
    if lv == 0 then {OR}
    else if lv == 1 then {AND}
    else if lv == 2 then {EQUAL, NOT_EQUAL}
    else if lv == 3 then {LESS, LESS_EQUAL, GREATER, GREATER_EQUAL}
    else if lv == 4 then {PLUS, MINUS}
    else if lv == 5 then {MULTIPLY, DIVIDE, MOD}
    else {}
  }

  /** expr: the loosest level (parser.py:275-279). */
  function ExprAt(ts: TokenStream, p: nat): (r: Result<Parsed<Expr>, ParseError>)
    requires Position(ts, p)
    decreases Remaining(ts, p), 9
    ensures r.Success? ==> p < r.value.next < |ts.toks| && UnannotatedExpr(r.value.node)
  {
    LevelAt(ts, 0, p)
  }

  /** One binary level: an operand of the next tighter level, then the
      operators of this level folded to the left. */
  function LevelAt(ts: TokenStream, lv: nat, p: nat): (r: Result<Parsed<Expr>, ParseError>)
    requires Position(ts, p) && lv <= 5
    decreases Remaining(ts, p), 8 - lv
    ensures r.Success? ==> p < r.value.next < |ts.toks| && UnannotatedExpr(r.value.node)
  {
    var left :- if lv == 5 then FactorAt(ts, p) else LevelAt(ts, lv + 1, p);
    LevelTailAt(ts, lv, left.node, left.next)
  }

  /** The loop of a binary level, with the node built so far. */
  function LevelTailAt(ts: TokenStream, lv: nat, node: Expr, p: nat): (r: Result<Parsed<Expr>, ParseError>)
    requires Position(ts, p) && lv <= 5
    decreases Remaining(ts, p), 0
    ensures r.Success? ==> p <= r.value.next < |ts.toks|
    ensures r.Success? && UnannotatedExpr(node) ==> UnannotatedExpr(r.value.node)
  {
    var t := ts.toks[p];
    if t.kind in Ops(lv) then
      var p1 :- EatAt(ts, p, t.kind);
      var right :- if lv == 5 then FactorAt(ts, p1) else LevelAt(ts, lv + 1, p1);
      LevelTailAt(ts, lv, BinOp(node, t, right.node, None), right.next)
    else
      Success(Parsed(node, p))
  }

  /** An operand of level lv - 1: level lv, or a factor past the last. */
  function OperandAt(ts: TokenStream, lv: nat, p: nat): (r: Result<Parsed<Expr>, ParseError>)
    requires Position(ts, p) && 1 <= lv <= 6
    ensures r.Success? ==> p < r.value.next < |ts.toks| && UnannotatedExpr(r.value.node)
  {
    if lv == 6 then FactorAt(ts, p) else LevelAt(ts, lv, p)
  }

  /** factor (parser.py:380-427). The cast forms name node classes that are
      defined nowhere, so they fail once their tokens have been consumed. */
  function FactorAt(ts: TokenStream, p: nat): (r: Result<Parsed<Expr>, ParseError>)
    requires Position(ts, p)
    decreases Remaining(ts, p), 1
    ensures r.Success? ==> p < r.value.next < |ts.toks| && UnannotatedExpr(r.value.node)
  {
    var t := ts.toks[p];
    if t.kind == PLUS || t.kind == MINUS || t.kind == NOT then
      var p1 :- EatAt(ts, p, t.kind);
      var f :- FactorAt(ts, p1);
      Success(Parsed(UnaryOp(t, f.node, None), f.next))
    else if t.kind == INT_CONST then
      var p1 :- EatAt(ts, p, INT_CONST);
      Success(Parsed(Num(t, t.value, Type.INTEGER), p1))
    else if t.kind == FLOAT_CONST then
      var p1 :- EatAt(ts, p, FLOAT_CONST);
      Success(Parsed(Num(t, t.value, Type.FLOAT), p1))
    else if t.kind == LPAREN then
      var p1 :- EatAt(ts, p, LPAREN);
      var e :- ExprAt(ts, p1);
      var p2 :- EatAt(ts, e.next, RPAREN);
      Success(Parsed(e.node, p2))
    else if t.kind == ID && (Upper(TextOf(t.value)) == "FLOAT" || Upper(TextOf(t.value)) == "INT") then
      var p1 :- EatAt(ts, p, ID);
      var p2 :- EatAt(ts, p1, LPAREN);
      var e :- ExprAt(ts, p2);
      var p3 :- EatAt(ts, e.next, RPAREN);
      Failure(ErrorAt(ts, p, UndefinedNode(if Upper(TextOf(t.value)) == "FLOAT" then "FloatCast" else "IntCast")))
    else
      var v :- VariableAt(ts, p);
      Success(Parsed(VarRef(v.node), v.next))
  }

  /** variable: a name with an optional index (parser.py:257-269). */
  function VariableAt(ts: TokenStream, p: nat): (r: Result<Parsed<Var>, ParseError>)
    requires Position(ts, p)
    decreases Remaining(ts, p), 0
    ensures r.Success? ==> p < r.value.next < |ts.toks| && UnannotatedExpr(VarRef(r.value.node))
  {
    var t := ts.toks[p];
    var p1 :- EatAt(ts, p, ID);
    if ts.toks[p1].kind == LBRACK then
      var p2 :- EatAt(ts, p1, LBRACK);
      var e :- ExprAt(ts, p2);
      var p3 :- EatAt(ts, e.next, RBRACK);
      Success(Parsed(Var(t, TextOf(t.value), Some(e.node), None), p3))
    else
      Success(Parsed(Var(t, TextOf(t.value), None, None), p1))
  }

  // ---------------------------------------------------------------------
  // Statements (parser.py:137-273)
  // ---------------------------------------------------------------------

  /** compound_statement: BEGIN statement_list END. */
  function CompoundAt(ts: TokenStream, p: nat): (r: Result<Parsed<Stmt>, ParseError>)
    requires Position(ts, p)
    decreases Remaining(ts, p), 0
    ensures r.Success? ==> p < r.value.next < |ts.toks| && r.value.node.Compound?
    ensures r.Success? ==> UnannotatedStmt(r.value.node)
  {
    var t := ts.toks[p];
    var p1 :- EatAt(ts, p, BEGIN);
    var l :- StatementListAt(ts, p1);
    var p2 :- EatAt(ts, l.next, END);
    Success(Parsed(Compound(t, l.node), p2))
  }

  /** statement_list: a statement, then more after each SEMI. */
  function StatementListAt(ts: TokenStream, p: nat): (r: Result<Parsed<seq<Stmt>>, ParseError>)
    requires Position(ts, p)
    decreases Remaining(ts, p), 2
    ensures r.Success? ==> p <= r.value.next < |ts.toks| && |r.value.node| > 0
    ensures r.Success? ==> forall i :: 0 <= i < |r.value.node| ==> UnannotatedStmt(r.value.node[i])
  {
    var s :- StatementAt(ts, p);
    var rest :- StatementTailAt(ts, s.next);
    Success(Parsed([s.node] + rest.node, rest.next))
  }

  /** The loop of statement_list. */
  function StatementTailAt(ts: TokenStream, p: nat): (r: Result<Parsed<seq<Stmt>>, ParseError>)
    requires Position(ts, p)
    decreases Remaining(ts, p), 0
    ensures r.Success? ==> p <= r.value.next < |ts.toks|
    ensures r.Success? ==> forall i :: 0 <= i < |r.value.node| ==> UnannotatedStmt(r.value.node[i])
  {
    if ts.toks[p].kind == SEMI then
      var p1 :- EatAt(ts, p, SEMI);
      var s :- StatementAt(ts, p1);
      var rest :- StatementTailAt(ts, s.next);
      Success(Parsed([s.node] + rest.node, rest.next))
    else
      Success(Parsed([], p))
  }

  /** statement: chosen by the current token, or empty (parser.py:163-188). */
  function StatementAt(ts: TokenStream, p: nat): (r: Result<Parsed<Stmt>, ParseError>)
    requires Position(ts, p)
    decreases Remaining(ts, p), 1
    ensures r.Success? ==> p <= r.value.next < |ts.toks| && UnannotatedStmt(r.value.node)
  {
    var k := ts.toks[p].kind;
    if k == BEGIN then CompoundAt(ts, p)
    else if k == IF then IfAt(ts, p)
    else if k == WHILE then WhileAt(ts, p)
    else if k == READ then ReadAt(ts, p)
    else if k == WRITE then WriteAt(ts, p)
    else if k == ID then AssignmentAt(ts, p)
    else Success(Parsed(NoOp, p))
  }

  /** assignment_statement: variable ASSIGN expr. */
  function AssignmentAt(ts: TokenStream, p: nat): (r: Result<Parsed<Stmt>, ParseError>)
    requires Position(ts, p)
    decreases Remaining(ts, p), 0
    ensures r.Success? ==> p < r.value.next < |ts.toks| && UnannotatedStmt(r.value.node)
  {
    var v :- VariableAt(ts, p);
    var t := ts.toks[v.next];
    var p1 :- EatAt(ts, v.next, ASSIGN);
    var e :- ExprAt(ts, p1);
    Success(Parsed(Assign(v.node, t, e.node), e.next))
  }

  /** if_statement: an ELSE right after the true branch belongs to this IF. */
  function IfAt(ts: TokenStream, p: nat): (r: Result<Parsed<Stmt>, ParseError>)
    requires Position(ts, p)
    decreases Remaining(ts, p), 0
    ensures r.Success? ==> p < r.value.next < |ts.toks| && UnannotatedStmt(r.value.node)
  {
    var t := ts.toks[p];
    var p1 :- EatAt(ts, p, IF);
    var c :- ExprAt(ts, p1);
    var p2 :- EatAt(ts, c.next, THEN);
    var tb :- StatementAt(ts, p2);
    if ts.toks[tb.next].kind == ELSE then
      var p3 :- EatAt(ts, tb.next, ELSE);
      var fb :- StatementAt(ts, p3);
      Success(Parsed(If(t, c.node, tb.node, Some(fb.node)), fb.next))
    else
      Success(Parsed(If(t, c.node, tb.node, None), tb.next))
  }

  /** while_statement: WHILE expr DO statement. */
  function WhileAt(ts: TokenStream, p: nat): (r: Result<Parsed<Stmt>, ParseError>)
    requires Position(ts, p)
    decreases Remaining(ts, p), 0
    ensures r.Success? ==> p < r.value.next < |ts.toks| && UnannotatedStmt(r.value.node)
  {
    var t := ts.toks[p];
    var p1 :- EatAt(ts, p, WHILE);
    var c :- ExprAt(ts, p1);
    var p2 :- EatAt(ts, c.next, DO);
    var b :- StatementAt(ts, p2);
    Success(Parsed(While(t, c.node, b.node), b.next))
  }

  /** read_statement: READ LPAREN variable RPAREN. */
  function ReadAt(ts: TokenStream, p: nat): (r: Result<Parsed<Stmt>, ParseError>)
    requires Position(ts, p)
    decreases Remaining(ts, p), 0
    ensures r.Success? ==> p < r.value.next < |ts.toks| && UnannotatedStmt(r.value.node)
  {
    var t := ts.toks[p];
    var p1 :- EatAt(ts, p, READ);
    var p2 :- EatAt(ts, p1, LPAREN);
    var v :- VariableAt(ts, p2);
    var p3 :- EatAt(ts, v.next, RPAREN);
    Success(Parsed(Read(t, v.node), p3))
  }

  /** The argument of write_statement: a string literal, or else an
      expression. */
  function WriteArgAt(ts: TokenStream, p: nat): (r: Result<Parsed<WriteArg>, ParseError>)
    requires Position(ts, p)
    ensures r.Success? ==> p < r.value.next < |ts.toks| && UnannotatedArg(r.value.node)
  {
    if ts.toks[p].kind == STRING then
      var s := ts.toks[p];
      var p1 :- EatAt(ts, p, STRING);
      Success(Parsed(StringArg(s, TextOf(s.value)), p1))
    else
      var e :- ExprAt(ts, p);
      Success(Parsed(ExprArg(e.node), e.next))
  }

  /** write_statement: WRITE LPAREN argument RPAREN. */
  function WriteAt(ts: TokenStream, p: nat): (r: Result<Parsed<Stmt>, ParseError>)
    requires Position(ts, p)
    decreases Remaining(ts, p), 0
    ensures r.Success? ==> p < r.value.next < |ts.toks| && UnannotatedStmt(r.value.node)
  {
    var t := ts.toks[p];
    var p1 :- EatAt(ts, p, WRITE);
    var p2 :- EatAt(ts, p1, LPAREN);
    var a :- WriteArgAt(ts, p2);
    var p3 :- EatAt(ts, a.next, RPAREN);
    Success(Parsed(Write(t, a.node), p3))
  }

  // ---------------------------------------------------------------------
  // Declarations and the program (parser.py:33-135)
  // ---------------------------------------------------------------------

  /** type_spec: INTEGER, FLOAT or an array type. */
  function TypeSpecAt(ts: TokenStream, p: nat): (r: Result<Parsed<TypeNode>, ParseError>)
    requires Position(ts, p)
    decreases Remaining(ts, p), 1
    ensures r.Success? ==> p < r.value.next < |ts.toks| && WellShapedType(r.value.node)
  {
    var t := ts.toks[p];
    if t.kind == TokenType.ARRAY then ArrayTypeAt(ts, p)
    else if t.kind == TokenType.INTEGER then
      var p1 :- EatAt(ts, p, TokenType.INTEGER);
      Success(Parsed(TypeNode(t, Type.INTEGER, None, None, None), p1))
    else if t.kind == TokenType.FLOAT then
      var p1 :- EatAt(ts, p, TokenType.FLOAT);
      Success(Parsed(TypeNode(t, Type.FLOAT, None, None, None), p1))
    else
      Failure(ErrorAt(ts, p, ExpectedTypeSpec(t.kind)))
  }

  /** An array bound: the value of an INT_CONST token. */
  function IntConstAt(ts: TokenStream, p: nat): (r: Result<Parsed<int>, ParseError>)
    requires Position(ts, p)
    ensures r.Success? ==> r.value.next == p + 1 < |ts.toks| && ts.toks[p].kind == INT_CONST
  {
    var v := IntOf(ts.toks[p].value);
    var p1 :- EatAt(ts, p, INT_CONST);
    Success(Parsed(v, p1))
  }

  /** The start and end index of an array type. */
  type IndexRange = (int, int)

  /** The bounds of array_type: LBRACK INT_CONST DOTDOT INT_CONST RBRACK. */
  function BoundsAt(ts: TokenStream, p: nat): (r: Result<Parsed<IndexRange>, ParseError>)
    requires Position(ts, p)
    ensures r.Success? ==> r.value.next == p + 5 < |ts.toks|
  {
    var p1 :- EatAt(ts, p, LBRACK);
    var lo :- IntConstAt(ts, p1);
    var p2 :- EatAt(ts, lo.next, DOTDOT);
    var hi :- IntConstAt(ts, p2);
    var p3 :- EatAt(ts, hi.next, RBRACK);
    Success(Parsed((lo.node, hi.node), p3))
  }

  /** array_type: ARRAY bounds OF type_spec (parser.py:110-135). */
  function ArrayTypeAt(ts: TokenStream, p: nat): (r: Result<Parsed<TypeNode>, ParseError>)
    requires Position(ts, p)
    decreases Remaining(ts, p), 0
    ensures r.Success? ==> p < r.value.next < |ts.toks| && WellShapedType(r.value.node)
  {
    var t := ts.toks[p];
    var p1 :- EatAt(ts, p, TokenType.ARRAY);
    var b :- BoundsAt(ts, p1);
    var p2 :- EatAt(ts, b.next, OF);
    var elem :- TypeSpecAt(ts, p2);
    Success(Parsed(TypeNode(t, Type.ARRAY, Some(b.node.0), Some(b.node.1), Some(elem.node)), elem.next))
  }

  /** The variable node of a declared name. */
  function NameVar(t: Token): Var {
    Var(t, TextOf(t.value), None, None)
  }

  /** The loop of variable_declaration: further names after each COMMA. */
  function MoreNamesAt(ts: TokenStream, p: nat): (r: Result<Parsed<seq<Var>>, ParseError>)
    requires Position(ts, p)
    decreases Remaining(ts, p)
    ensures r.Success? ==> p <= r.value.next < |ts.toks|
  {
    if ts.toks[p].kind == COMMA then
      var p1 :- EatAt(ts, p, COMMA);
      var v := NameVar(ts.toks[p1]);
      var p2 :- EatAt(ts, p1, ID);
      var rest :- MoreNamesAt(ts, p2);
      Success(Parsed([v] + rest.node, rest.next))
    else
      Success(Parsed([], p))
  }

  /** One VarDecl per name, all sharing the type node. */
  function DeclsOf(vars: seq<Var>, tn: TypeNode): (ds: seq<VarDecl>)
    ensures |ds| == |vars|
    ensures forall i :: 0 <= i < |ds| ==> ds[i] == VarDecl(vars[i].token, vars[i], tn, Some(tn.ty))
  {
    seq(|vars|, i requires 0 <= i < |vars| => VarDecl(vars[i].token, vars[i], tn, Some(tn.ty)))
  }

  /** variable_declaration: ID (COMMA ID)* COLON type_spec. */
  function VariableDeclarationAt(ts: TokenStream, p: nat): (r: Result<Parsed<seq<VarDecl>>, ParseError>)
    requires Position(ts, p)
    ensures r.Success? ==> p < r.value.next < |ts.toks| && |r.value.node| > 0
  {
    var first := NameVar(ts.toks[p]);
    var p1 :- EatAt(ts, p, ID);
    var more :- MoreNamesAt(ts, p1);
    var p2 :- EatAt(ts, more.next, COLON);
    var tn :- TypeSpecAt(ts, p2);
    Success(Parsed(DeclsOf([first] + more.node, tn.node), tn.next))
  }

  /** One round of the loop of declarations: variable_declaration SEMI. */
  function DeclarationGroupAt(ts: TokenStream, p: nat): (r: Result<Parsed<seq<VarDecl>>, ParseError>)
    requires Position(ts, p)
    ensures r.Success? ==> p < r.value.next < |ts.toks|
  {
    var d :- VariableDeclarationAt(ts, p);
    var p1 :- EatAt(ts, d.next, SEMI);
    Success(Parsed(d.node, p1))
  }

  /** The loop of declarations: one variable_declaration and SEMI per
      leading ID. */
  function DeclarationListAt(ts: TokenStream, p: nat): (r: Result<Parsed<seq<VarDecl>>, ParseError>)
    requires Position(ts, p)
    decreases Remaining(ts, p)
    ensures r.Success? ==> p <= r.value.next < |ts.toks|
  {
    if ts.toks[p].kind == ID then
      var d :- DeclarationGroupAt(ts, p);
      var rest :- DeclarationListAt(ts, d.next);
      Success(Parsed(d.node + rest.node, rest.next))
    else
      Success(Parsed([], p))
  }

  /** declarations: VAR and its declarations, or nothing. */
  function DeclarationsAt(ts: TokenStream, p: nat): (r: Result<Parsed<seq<VarDecl>>, ParseError>)
    requires Position(ts, p)
    ensures r.Success? ==> p <= r.value.next < |ts.toks|
  {
    if ts.toks[p].kind == VAR then
      var p1 :- EatAt(ts, p, VAR);
      DeclarationListAt(ts, p1)
    else
      Success(Parsed([], p))
  }

  /** block: declarations compound_statement. */
  function BlockAt(ts: TokenStream, p: nat): (r: Result<Parsed<Block>, ParseError>)
    requires Position(ts, p)
    ensures r.Success? ==> p < r.value.next < |ts.toks| && r.value.node.compound.Compound?
  {
    var ds :- DeclarationsAt(ts, p);
    var c :- CompoundAt(ts, ds.next);
    Success(Parsed(Block(ds.node, c.node), c.next))
  }

  /** program: PROGRAM variable SEMI block DOT; the name is the variable's. */
  function ProgramAt(ts: TokenStream, p: nat): (r: Result<Parsed<Program>, ParseError>)
    requires Position(ts, p)
    ensures r.Success? ==> p < r.value.next < |ts.toks|
  {
    var t := ts.toks[p];
    var p1 :- EatAt(ts, p, PROGRAM);
    var v :- VariableAt(ts, p1);
    var p2 :- EatAt(ts, v.next, SEMI);
    var b :- BlockAt(ts, p2);
    var p3 :- EatAt(ts, b.next, DOT);
    Success(Parsed(Program(t, v.node.name, b.node), p3))
  }

  /** parse (parser.py:429-436, with the first token fetched when the
      parser is built, parser.py:13-16): a program followed by EOF. */
  function ParseStream(ts: TokenStream): (r: Result<Program, ParseError>)
    requires WellFormed(ts)
  {
    if |ts.toks| == 0 then Failure(LexicalError(ts.failure.value))
    else
      var prog :- ProgramAt(ts, 0);
      if ts.toks[prog.next].kind != EOF then Failure(ErrorAt(ts, prog.next, UnexpectedTokenAfterEnd))
      else Success(prog.node)
  }

  // ---------------------------------------------------------------------
  // The parser as a state machine
  // ---------------------------------------------------------------------

  /** A method's result and the parser's new position agree with a
      production's specification. */
  predicate Yields<T(==)>(spec: Result<Parsed<T>, ParseError>, r: Result<T, ParseError>, pos: nat) {
    match spec
    case Success(s) => r == Success(s.node) && pos == s.next
    case Failure(e) => r == Failure(e)
  }

  /** acc followed by the list a specification yields. */
  function PrependParsed<T>(acc: seq<T>, r: Result<Parsed<seq<T>>, ParseError>): Result<Parsed<seq<T>>, ParseError> {
    match r
    case Success(s) => Success(Parsed(acc + s.node, s.next))
    case Failure(e) => Failure(e)
  }

  lemma PrependParsedNothing<T>(r: Result<Parsed<seq<T>>, ParseError>)
    ensures PrependParsed([], r) == r
  {
    if r.Success? {
      assert [] + r.value.node == r.value.node;
    }
  }

  lemma PrependParsedTwice<T>(a: seq<T>, b: seq<T>, r: Result<Parsed<seq<T>>, ParseError>)
    ensures PrependParsed(a, PrependParsed(b, r)) == PrependParsed(a + b, r)
  {
    if r.Success? {
      assert a + (b + r.value.node) == (a + b) + r.value.node;
    }
  }

  class Parser {
    const ts: TokenStream
    var pos: nat
    var currentToken: Token
    var prevToken: Option<Token>

    /** The current token is the one at pos. */
    ghost predicate Valid()
      reads this
    {
      Position(ts, pos) && currentToken == ts.toks[pos]
    }

    /** Building the parser fetches the first token (parser.py:13-16). */
    constructor (ts: TokenStream)
      requires WellFormed(ts) && |ts.toks| > 0
      ensures Valid() && this.ts == ts && pos == 0 && prevToken == None
    {
      this.ts := ts;
      pos := 0;
      currentToken := ts.toks[0];
      prevToken := None;
    }

    /** eat (parser.py:25-31). */
    method Eat(k: TokenType) returns (r: Outcome<ParseError>)
      requires Valid()
      modifies this
      ensures Valid()
      ensures match EatAt(ts, old(pos), k)
              case Success(n) => r == Pass && pos == n && prevToken == Some(old(currentToken))
              case Failure(e) => r == Fail(e) && pos == old(pos)
    {
      if currentToken.kind != k {
        return Fail(SyntaxError(Expected(k, currentToken.kind), currentToken.line, currentToken.column));
      }
      if pos + 1 < |ts.toks| {
        prevToken := Some(currentToken);
        pos := pos + 1;
        currentToken := ts.toks[pos];
      } else if ts.failure.Some? {
        return Fail(LexicalError(ts.failure.value));
      } else {
        prevToken := Some(currentToken);
      }
      r := Pass;
    }

    // -------------------------------------------------------------------
    // Expressions
    // -------------------------------------------------------------------

    /** expr (parser.py:275-279). */
    method ParseExpr() returns (r: Result<Expr, ParseError>)
      requires Valid()
      modifies this
      decreases Remaining(ts, pos), 17
      ensures Valid()
      ensures Yields(ExprAt(ts, old(pos)), r, pos)
    {
      r := ParseLevel(0);
    }

    /** logical_or_expr, logical_and_expr, equality_expr, relational_expr,
        add_expr and mul_expr (parser.py:281-378), one level each. */
    method ParseLevel(lv: nat) returns (r: Result<Expr, ParseError>)
      requires Valid() && lv <= 5
      modifies this
      decreases Remaining(ts, pos), 16 - 2 * lv
      ensures Valid()
      ensures Yields(LevelAt(ts, lv, old(pos)), r, pos)
    {
      var node :- ParseOperand(lv + 1);
      ghost var start, first := pos, node;
      while currentToken.kind in Ops(lv)
        invariant Valid() && start <= pos
        invariant LevelTailAt(ts, lv, first, start) == LevelTailAt(ts, lv, node, pos)
        decreases Remaining(ts, pos)
      {
        var token := currentToken;
        :- Eat(token.kind);
        var right :- ParseOperand(lv + 1);
        node := BinOp(node, token, right, None);
      }
      r := Success(node);
    }

    /** An operand of a binary level: the next tighter level, or a factor
        below the tightest one. */
    method ParseOperand(lv: nat) returns (r: Result<Expr, ParseError>)
      requires Valid() && 1 <= lv <= 6
      modifies this
      decreases Remaining(ts, pos), 17 - 2 * lv
      ensures Valid()
      ensures Yields(OperandAt(ts, lv, old(pos)), r, pos)
    {
      if lv == 6 {
        r := ParseFactor();
      } else {
        r := ParseLevel(lv);
      }
    }

    /** factor (parser.py:380-427). */
    method ParseFactor() returns (r: Result<Expr, ParseError>)
      requires Valid()
      modifies this
      decreases Remaining(ts, pos), 2
      ensures Valid()
      ensures Yields(FactorAt(ts, old(pos)), r, pos)
    {
      var token := currentToken;
      if token.kind == PLUS || token.kind == MINUS || token.kind == NOT {
        :- Eat(token.kind);
        var f :- ParseFactor();
        r := Success(UnaryOp(token, f, None));
      } else if token.kind == INT_CONST {
        :- Eat(INT_CONST);
        r := Success(Num(token, token.value, Type.INTEGER));
      } else if token.kind == FLOAT_CONST {
        :- Eat(FLOAT_CONST);
        r := Success(Num(token, token.value, Type.FLOAT));
      } else if token.kind == LPAREN {
        :- Eat(LPAREN);
        var node :- ParseExpr();
        :- Eat(RPAREN);
        r := Success(node);
      } else if token.kind == ID && (Upper(TextOf(token.value)) == "FLOAT" || Upper(TextOf(token.value)) == "INT") {
        :- Eat(ID);
        :- Eat(LPAREN);
        var _ :- ParseExpr();
        :- Eat(RPAREN);
        var name := if Upper(TextOf(token.value)) == "FLOAT" then "FloatCast" else "IntCast";
        r := Failure(SyntaxError(UndefinedNode(name), token.line, token.column));
      } else {
        var v :- ParseVariable();
        r := Success(VarRef(v));
      }
    }

    /** variable (parser.py:257-269). */
    method ParseVariable() returns (r: Result<Var, ParseError>)
      requires Valid()
      modifies this
      decreases Remaining(ts, pos), 1
      ensures Valid()
      ensures Yields(VariableAt(ts, old(pos)), r, pos)
    {
      var token := currentToken;
      :- Eat(ID);
      var index: Option<Expr> := None;
      if currentToken.kind == LBRACK {
        :- Eat(LBRACK);
        var e :- ParseExpr();
        :- Eat(RBRACK);
        index := Some(e);
      }
      r := Success(Var(token, TextOf(token.value), index, None));
    }

    // -------------------------------------------------------------------
    // Statements
    // -------------------------------------------------------------------

    /** compound_statement (parser.py:137-149). */
    method ParseCompoundStatement() returns (r: Result<Stmt, ParseError>)
      requires Valid()
      modifies this
      decreases Remaining(ts, pos), 0
      ensures Valid()
      ensures Yields(CompoundAt(ts, old(pos)), r, pos)
    {
      var token := currentToken;
      :- Eat(BEGIN);
      var nodes :- ParseStatementList();
      :- Eat(END);
      r := Success(Compound(token, nodes));
    }

    /** statement_list (parser.py:151-161). */
    method ParseStatementList() returns (r: Result<seq<Stmt>, ParseError>)
      requires Valid()
      modifies this
      decreases Remaining(ts, pos), 2
      ensures Valid()
      ensures Yields(StatementListAt(ts, old(pos)), r, pos)
    {
      var node :- ParseStatement();
      var rest: seq<Stmt> := [];
      ghost var start := pos;
      PrependParsedNothing(StatementTailAt(ts, pos));
      while currentToken.kind == SEMI
        invariant Valid() && old(pos) <= start <= pos
        invariant StatementTailAt(ts, start) == PrependParsed(rest, StatementTailAt(ts, pos))
        decreases Remaining(ts, pos)
      {
        :- Eat(SEMI);
        var s :- ParseStatement();
        PrependParsedTwice(rest, [s], StatementTailAt(ts, pos));
        rest := rest + [s];
      }
      assert rest + [] == rest;
      r := Success([node] + rest);
    }

    /** statement (parser.py:163-188); the empty statement consumes nothing
        (parser.py:271-273). */
    method ParseStatement() returns (r: Result<Stmt, ParseError>)
      requires Valid()
      modifies this
      decreases Remaining(ts, pos), 1
      ensures Valid()
      ensures Yields(StatementAt(ts, old(pos)), r, pos)
    {
      var k := currentToken.kind;
      if k == BEGIN {
        r := ParseCompoundStatement();
      } else if k == IF {
        r := ParseIf();
      } else if k == WHILE {
        r := ParseWhile();
      } else if k == READ {
        r := ParseRead();
      } else if k == WRITE {
        r := ParseWrite();
      } else if k == ID {
        r := ParseAssignment();
      } else {
        r := Success(NoOp);
      }
    }

    /** assignment_statement (parser.py:190-197). */
    method ParseAssignment() returns (r: Result<Stmt, ParseError>)
      requires Valid()
      modifies this
      decreases Remaining(ts, pos), 0
      ensures Valid()
      ensures Yields(AssignmentAt(ts, old(pos)), r, pos)
    {
      var left :- ParseVariable();
      var token := currentToken;
      :- Eat(ASSIGN);
      var right :- ParseExpr();
      r := Success(Assign(left, token, right));
    }

    /** if_statement (parser.py:199-214). */
    method ParseIf() returns (r: Result<Stmt, ParseError>)
      requires Valid()
      modifies this
      decreases Remaining(ts, pos), 0
      ensures Valid()
      ensures Yields(IfAt(ts, old(pos)), r, pos)
    {
      var token := currentToken;
      :- Eat(IF);
      var condition :- ParseExpr();
      :- Eat(THEN);
      var trueBranch :- ParseStatement();
      var falseBranch: Option<Stmt> := None;
      if currentToken.kind == ELSE {
        :- Eat(ELSE);
        var s :- ParseStatement();
        falseBranch := Some(s);
      }
      r := Success(If(token, condition, trueBranch, falseBranch));
    }

    /** while_statement (parser.py:216-226). */
    method ParseWhile() returns (r: Result<Stmt, ParseError>)
      requires Valid()
      modifies this
      decreases Remaining(ts, pos), 0
      ensures Valid()
      ensures Yields(WhileAt(ts, old(pos)), r, pos)
    {
      var token := currentToken;
      :- Eat(WHILE);
      var condition :- ParseExpr();
      :- Eat(DO);
      var body :- ParseStatement();
      r := Success(While(token, condition, body));
    }

    /** read_statement (parser.py:228-237). */
    method ParseRead() returns (r: Result<Stmt, ParseError>)
      requires Valid()
      modifies this
      decreases Remaining(ts, pos), 0
      ensures Valid()
      ensures Yields(ReadAt(ts, old(pos)), r, pos)
    {
      var token := currentToken;
      :- Eat(READ);
      :- Eat(LPAREN);
      var v :- ParseVariable();
      :- Eat(RPAREN);
      r := Success(Read(token, v));
    }

    /** The argument of write_statement (parser.py:246-251). */
    method ParseWriteArg() returns (r: Result<WriteArg, ParseError>)
      requires Valid()
      modifies this
      ensures Valid()
      ensures Yields(WriteArgAt(ts, old(pos)), r, pos)
    {
      if currentToken.kind == STRING {
        var s := currentToken;
        :- Eat(STRING);
        r := Success(StringArg(s, TextOf(s.value)));
      } else {
        var e :- ParseExpr();
        r := Success(ExprArg(e));
      }
    }

    /** write_statement (parser.py:239-255). */
    method ParseWrite() returns (r: Result<Stmt, ParseError>)
      requires Valid()
      modifies this
      decreases Remaining(ts, pos), 0
      ensures Valid()
      ensures Yields(WriteAt(ts, old(pos)), r, pos)
    {
      var token := currentToken;
      :- Eat(WRITE);
      :- Eat(LPAREN);
      var arg :- ParseWriteArg();
      :- Eat(RPAREN);
      r := Success(Write(token, arg));
    }

    // -------------------------------------------------------------------
    // Declarations and the program
    // -------------------------------------------------------------------

    /** type_spec (parser.py:95-108). */
    method ParseTypeSpec() returns (r: Result<TypeNode, ParseError>)
      requires Valid()
      modifies this
      decreases Remaining(ts, pos), 1
      ensures Valid()
      ensures Yields(TypeSpecAt(ts, old(pos)), r, pos)
    {
      var token := currentToken;
      if token.kind == TokenType.ARRAY {
        r := ParseArrayType();
      } else if token.kind == TokenType.INTEGER {
        :- Eat(TokenType.INTEGER);
        r := Success(TypeNode(token, Type.INTEGER, None, None, None));
      } else if token.kind == TokenType.FLOAT {
        :- Eat(TokenType.FLOAT);
        r := Success(TypeNode(token, Type.FLOAT, None, None, None));
      } else {
        r := Failure(SyntaxError(ExpectedTypeSpec(token.kind), token.line, token.column));
      }
    }

    /** An array bound (parser.py:116-117 and 121-122). */
    method ParseIntConst() returns (r: Result<int, ParseError>)
      requires Valid()
      modifies this
      ensures Valid()
      ensures Yields(IntConstAt(ts, old(pos)), r, pos)
    {
      var value := IntOf(currentToken.value);
      :- Eat(INT_CONST);
      r := Success(value);
    }

    /** The bounds of array_type (parser.py:114-124). */
    method ParseBounds() returns (r: Result<IndexRange, ParseError>)
      requires Valid()
      modifies this
      ensures Valid()
      ensures Yields(BoundsAt(ts, old(pos)), r, pos)
    {
      var startIndex, endIndex;
      :- Eat(LBRACK);
      startIndex :- ParseIntConst();
      :- Eat(DOTDOT);
      endIndex :- ParseIntConst();
      :- Eat(RBRACK);
      r := Success((startIndex, endIndex));
    }

    /** array_type (parser.py:110-135). */
    method ParseArrayType() returns (r: Result<TypeNode, ParseError>)
      requires Valid()
      modifies this
      decreases Remaining(ts, pos), 0
      ensures Valid()
      ensures Yields(ArrayTypeAt(ts, old(pos)), r, pos)
    {
      var token := currentToken;
      :- Eat(TokenType.ARRAY);
      var bounds :- ParseBounds();
      :- Eat(OF);
      var elementType :- ParseTypeSpec();
      r := Success(TypeNode(token, Type.ARRAY, Some(bounds.0), Some(bounds.1), Some(elementType)));
    }

    /** The loop of variable_declaration (parser.py:75-78). */
    method ParseMoreNames() returns (r: Result<seq<Var>, ParseError>)
      requires Valid()
      modifies this
      ensures Valid()
      ensures Yields(MoreNamesAt(ts, old(pos)), r, pos)
    {
      var more: seq<Var> := [];
      PrependParsedNothing(MoreNamesAt(ts, pos));
      while currentToken.kind == COMMA
        invariant Valid() && old(pos) <= pos
        invariant MoreNamesAt(ts, old(pos)) == PrependParsed(more, MoreNamesAt(ts, pos))
        decreases Remaining(ts, pos)
      {
        :- Eat(COMMA);
        var v := NameVar(currentToken);
        :- Eat(ID);
        PrependParsedTwice(more, [v], MoreNamesAt(ts, pos));
        more := more + [v];
      }
      assert more + [] == more;
      r := Success(more);
    }

    /** variable_declaration (parser.py:68-93). */
    method ParseVariableDeclaration() returns (r: Result<seq<VarDecl>, ParseError>)
      requires Valid()
      modifies this
      ensures Valid()
      ensures Yields(VariableDeclarationAt(ts, old(pos)), r, pos)
    {
      var first := NameVar(currentToken);
      :- Eat(ID);
      var more :- ParseMoreNames();
      :- Eat(COLON);
      var typeNode :- ParseTypeSpec();
      r := Success(DeclsOf([first] + more, typeNode));
    }

    /** One round of the loop of declarations (parser.py:62-64). */
    method ParseDeclarationGroup() returns (r: Result<seq<VarDecl>, ParseError>)
      requires Valid()
      modifies this
      ensures Valid()
      ensures Yields(DeclarationGroupAt(ts, old(pos)), r, pos)
    {
      var d :- ParseVariableDeclaration();
      :- Eat(SEMI);
      r := Success(d);
    }

    /** The loop of declarations (parser.py:61-64). */
    method ParseDeclarationList() returns (r: Result<seq<VarDecl>, ParseError>)
      requires Valid()
      modifies this
      ensures Valid()
      ensures Yields(DeclarationListAt(ts, old(pos)), r, pos)
    {
      var declarations: seq<VarDecl> := [];
      PrependParsedNothing(DeclarationListAt(ts, pos));
      while currentToken.kind == ID
        invariant Valid() && old(pos) <= pos
        invariant DeclarationListAt(ts, old(pos)) == PrependParsed(declarations, DeclarationListAt(ts, pos))
        decreases Remaining(ts, pos)
      {
        var d :- ParseDeclarationGroup();
        PrependParsedTwice(declarations, d, DeclarationListAt(ts, pos));
        declarations := declarations + d;
      }
      assert declarations + [] == declarations;
      r := Success(declarations);
    }

    /** declarations (parser.py:54-66). */
    method ParseDeclarations() returns (r: Result<seq<VarDecl>, ParseError>)
      requires Valid()
      modifies this
      ensures Valid()
      ensures Yields(DeclarationsAt(ts, old(pos)), r, pos)
    {
      if currentToken.kind == VAR {
        :- Eat(VAR);
        r := ParseDeclarationList();
      } else {
        r := Success([]);
      }
    }

    /** block (parser.py:47-52). */
    method ParseBlock() returns (r: Result<Block, ParseError>)
      requires Valid()
      modifies this
      ensures Valid()
      ensures Yields(BlockAt(ts, old(pos)), r, pos)
    {
      var declarations :- ParseDeclarations();
      var compound :- ParseCompoundStatement();
      r := Success(Block(declarations, compound));
    }

    /** program (parser.py:33-45). */
    method ParseProgram() returns (r: Result<Program, ParseError>)
      requires Valid()
      modifies this
      ensures Valid()
      ensures Yields(ProgramAt(ts, old(pos)), r, pos)
    {
      var token := currentToken;
      :- Eat(PROGRAM);
      var name :- ParseVariable();
      :- Eat(SEMI);
      var block :- ParseBlock();
      :- Eat(DOT);
      r := Success(Program(token, name.name, block));
    }

    /** parse (parser.py:429-436): the program, then nothing but EOF. */
    method Parse() returns (r: Result<Program, ParseError>)
      requires Valid() && pos == 0
      modifies this
      ensures r == ParseStream(ts)
    {
      var node :- ParseProgram();
      if currentToken.kind != EOF {
        return Failure(SyntaxError(UnexpectedTokenAfterEnd, currentToken.line, currentToken.column));
      }
      r := Success(node);
    }
  }

  /** A parser over a token stream; a lexical error on the very first token
      is raised while the parser is built. */
  method ParseTokens(ts: TokenStream) returns (r: Result<Program, ParseError>)
    requires WellFormed(ts)
    ensures r == ParseStream(ts)
  {
    if |ts.toks| == 0 {
      return Failure(LexicalError(ts.failure.value));
    }
    var parser := new Parser(ts);
    r := parser.Parse();
  }

  /** acc followed by a stream. */
  function Join(acc: seq<Token>, s: TokenStream): TokenStream {
    TokenStream(acc + s.toks, s.failure)
  }

  lemma JoinNothing(s: TokenStream)
    ensures Join([], s) == s
  {
    assert [] + s.toks == s.toks;
  }

  lemma JoinTwice(a: seq<Token>, b: seq<Token>, s: TokenStream)
    ensures Join(a, Join(b, s)) == Join(a + b, s)
  {
    assert a + (b + s.toks) == (a + b) + s.toks;
  }

  /** The tokens the parser pulls from the lexer, until EOF or the first
      lexical error. */
  method Tokenize(text: string) returns (ts: TokenStream)
    ensures ts == StreamFrom(text, 0)
  {
    var lexer := new Lexer(text);
    var toks: seq<Token> := [];
    JoinNothing(StreamFrom(text, 0));
    while true
      invariant lexer.Valid() && lexer.text == text && lexer.pos <= |text|
      invariant StreamFrom(text, 0) == Join(toks, StreamFrom(text, lexer.pos))
      decreases |text| - lexer.pos
    {
      var t := lexer.GetNextToken();
      if t.Failure? {
        return TokenStream(toks, Some(t.error));
      }
      JoinTwice(toks, [t.value], StreamFrom(text, lexer.pos));
      toks := toks + [t.value];
      if t.value.kind == EOF {
        return TokenStream(toks, None);
      }
    }
  }

  /** parse(text) (parser.py:438-441). */
  method ParseText(text: string) returns (r: Result<Program, ParseError>)
    ensures r == ParseStream(StreamFrom(text, 0))
  {
    var ts := Tokenize(text);
    r := ParseTokens(ts);
  }
}
