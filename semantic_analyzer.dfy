/** Scoped symbol tables and the type checker (src/semantic_analyzer.py).
    The tables are objects whose symbol maps are updated in place; the
    type rules are pure functions from a tree and a chain of scopes to the
    tree with its resolved-type slots filled in, which is what the
    analyzer's visits write into the nodes. */
module Analysis {
  import opened Wrappers
  import opened Lexing
  import opened Ast

  // ---------------------------------------------------------------------
  // Symbols and errors
  // ---------------------------------------------------------------------

  /** A declared variable, or a type name; both record the level of the
      scope they were inserted into (semantic_analyzer.py:5-25). */
  datatype Symbol =
    | VarSymbol(name: string, ty: Option<Type>, scopeLevel: int, indexStart: Option<int>, indexEnd: Option<int>)
    | BuiltinTypeSymbol(name: string, ty: Option<Type>, scopeLevel: int)

  datatype SemanticErrorKind =
    | TypeNotDeclared(typeName: string)
    | DuplicateIdentifier(name: string)
    | SymbolNotFound(name: string)
    | TypeMismatch(op: TokenType)
    | CannotCompare(op: TokenType)
    | LogicalNeedsIntegers(op: TokenType)
    | UnaryNeedsNumber(op: TokenType)
    | NotNeedsInteger
    | ConditionNotInteger

  /** An error and the position of the token it is reported at. */
  datatype SemanticError = SemanticError(kind: SemanticErrorKind, line: int, column: int)

  function ErrorAt(kind: SemanticErrorKind, t: Token): SemanticError {
    SemanticError(kind, t.line, t.column)
  }

  /** The symbols of a chain of scopes, innermost first. */
  type Chain = seq<map<string, Symbol>>

  /** The innermost binding of a name along a chain of scopes. */
  function FirstBinding(chain: Chain, name: string): Option<Symbol> {
    if |chain| == 0 then None
    else if name in chain[0] then Some(chain[0][name])
    else FirstBinding(chain[1..], name)
  }

  // ---------------------------------------------------------------------
  // ScopedSymbolTable (semantic_analyzer.py:33-70)
  // ---------------------------------------------------------------------

  class ScopedSymbolTable {
    var symbols: map<string, Symbol>
    const scopeName: string
    const scopeLevel: int
    const enclosingScope: ScopedSymbolTable?
    /** This table and every table it encloses in. */
    ghost const Repr: set<ScopedSymbolTable>

    ghost predicate Valid()
      decreases Repr
    {
      this in Repr &&
      (enclosingScope != null ==>
        enclosingScope in Repr && enclosingScope.Repr < Repr && this !in enclosingScope.Repr &&
        enclosingScope.Valid())
    }

    constructor(name: string, level: int, enclosing: ScopedSymbolTable?)
      requires enclosing != null ==> enclosing.Valid()
      ensures Valid()
      ensures symbols == map[] && scopeName == name && scopeLevel == level && enclosingScope == enclosing
      ensures Repr == {this} + (if enclosing != null then enclosing.Repr else {})
    {
      symbols := map[];
      scopeName := name;
      scopeLevel := level;
      enclosingScope := enclosing;
      Repr := {this} + (if enclosing != null then enclosing.Repr else {});
    }

    /** The symbol maps from this table outwards. */
    function Chain(): (c: Chain)
      requires Valid()
      reads Repr
      decreases Repr
      ensures |c| > 0 && c[0] == symbols
    {
      [symbols] + (if enclosingScope == null then [] else enclosingScope.Chain())
    }

    /** insert: the symbol is stored under its name with this table's
        level. */
    method Insert(symbol: Symbol)
      requires Valid()
      modifies this
      ensures symbols == old(symbols)[symbol.name := symbol.(scopeLevel := scopeLevel)]
    {
      symbols := symbols[symbol.name := symbol.(scopeLevel := scopeLevel)];
    }

    /** lookup: this table first, then (unless only the current scope is
        asked for) the enclosing tables; the result is the innermost
        binding along the chain. */
    function Lookup(name: string, currentOnly: bool): (r: Option<Symbol>)
      requires Valid()
      reads Repr
      decreases Repr
      ensures r == FirstBinding(if currentOnly then [symbols] else Chain(), name)
    {
      if name in symbols then Some(symbols[name])
      else if currentOnly || enclosingScope == null then None
      else enclosingScope.Lookup(name, false)
    }
  }

  // ---------------------------------------------------------------------
  // Declarations (semantic_analyzer.py:84-132)
  // ---------------------------------------------------------------------

  /** The builtin_types table, in insertion order. */
  const BuiltinTypes: seq<(string, Type)> := [("INTEGER", Type.INTEGER), ("FLOAT", Type.FLOAT)]

  /** The global scope's symbols after the builtin type names are inserted,
      each type symbol carrying its type. */
  function BuiltinScope(types: seq<(string, Type)>, level: int): (m: map<string, Symbol>)
    ensures forall name :: name in m <==> exists i :: 0 <= i < |types| && types[i].0 == name
  {
    if |types| == 0 then map[]
    else
      var last := types[|types| - 1];
      BuiltinScope(types[..|types| - 1], level)[last.0 := BuiltinTypeSymbol(last.0, Some(last.1), level)]
  }

  /** The global scope's symbols as the source builds them: the type
      symbol is constructed from its name alone (semantic_analyzer.py:23-25,
      101-102), so it carries no type. */
  function BuiltinScopeAsWritten(types: seq<(string, Type)>, level: int): (m: map<string, Symbol>)
    ensures forall name :: name in m ==> m[name] == BuiltinTypeSymbol(name, None, level)
  {
    if |types| == 0 then map[]
    else
      var last := types[|types| - 1];
      BuiltinScopeAsWritten(types[..|types| - 1], level)[last.0 := BuiltinTypeSymbol(last.0, None, level)]
  }

  /** visit_VarDecl against a chain whose first map is the current scope:
      the type name must be bound somewhere, then the variable's name must
      not be bound in the current scope; the variable gets the type of the
      type symbol. */
  function DeclareIn(d: VarDecl, chain: Chain, level: int): (r: Result<map<string, Symbol>, SemanticError>)
    requires |chain| > 0
  {
    var typeName := TypeName(d.typeNode.ty);
    match FirstBinding(chain, typeName)
    case None => Failure(ErrorAt(TypeNotDeclared(typeName), d.typeNode.token))
    case Some(typeSymbol) =>
      var name := d.varNode.name;
      if name in chain[0] then Failure(ErrorAt(DuplicateIdentifier(name), d.varNode.token))
      else Success(chain[0][name := VarSymbol(name, typeSymbol.ty, level, None, None)])
  }

  /** The declarations of a block, in order, into the current scope. */
  function DeclareAll(ds: seq<VarDecl>, chain: Chain, level: int): (r: Result<map<string, Symbol>, SemanticError>)
    requires |chain| > 0
    decreases |ds|
  {
    if |ds| == 0 then Success(chain[0])
    else
      var m :- DeclareIn(ds[0], chain, level);
      DeclareAll(ds[1..], [m] + chain[1..], level)
  }

  // ---------------------------------------------------------------------
  // Type rules (semantic_analyzer.py:137-245)
  // ---------------------------------------------------------------------

  predicate IsArithmetic(k: TokenType) { k == PLUS || k == MINUS || k == MULTIPLY || k == DIVIDE }

  predicate IsComparison(k: TokenType) {
    k == EQUAL || k == NOT_EQUAL || k == LESS || k == LESS_EQUAL || k == GREATER || k == GREATER_EQUAL
  }

  predicate IsLogical(k: TokenType) { k == AND || k == OR }

  /** The type a binary operation is given from its operands' types; an
      operator with no rule (MOD) leaves the slot as it was. */
  function BinaryType(op: Token, lt: Option<Type>, rt: Option<Type>, t: Option<Type>): Result<Option<Type>, SemanticError> {
    if IsArithmetic(op.kind) then
      if lt != rt then Failure(ErrorAt(TypeMismatch(op.kind), op)) else Success(lt)
    else if IsComparison(op.kind) then
      if lt != rt then Failure(ErrorAt(CannotCompare(op.kind), op)) else Success(Some(Type.INTEGER))
    else if IsLogical(op.kind) then
      if lt != Some(Type.INTEGER) || rt != Some(Type.INTEGER) then Failure(ErrorAt(LogicalNeedsIntegers(op.kind), op))
      else Success(Some(Type.INTEGER))
    else Success(t)
  }

  /** The type a unary operation is given from its operand's type. */
  function UnaryType(op: Token, xt: Option<Type>, t: Option<Type>): Result<Option<Type>, SemanticError> {
    if op.kind == PLUS || op.kind == MINUS then
      if xt != Some(Type.INTEGER) && xt != Some(Type.FLOAT) then Failure(ErrorAt(UnaryNeedsNumber(op.kind), op))
      else Success(xt)
    else if op.kind == NOT then
      if xt != Some(Type.INTEGER) then Failure(ErrorAt(NotNeedsInteger, op)) else Success(Some(Type.INTEGER))
    else Success(t)
  }

  /** visit_Var: the name must be bound; the node takes the symbol's type.
      The index expression is not visited. */
  function AnalyzeVar(v: Var, chain: Chain): Result<Var, SemanticError> {
    match FirstBinding(chain, v.name)
    case None => Failure(ErrorAt(SymbolNotFound(v.name), v.token))
    case Some(symbol) => Success(v.(ty := symbol.ty))
  }

  /** The visits of expressions: operands first, then the node's rule. */
  function AnalyzeExpr(e: Expr, chain: Chain): Result<Expr, SemanticError> {
    match e
    case VarRef(v) =>
      var v' :- AnalyzeVar(v, chain);
      Success(VarRef(v'))
    case BinOp(l, op, r, t) =>
      var l' :- AnalyzeExpr(l, chain);
      var r' :- AnalyzeExpr(r, chain);
      var ty :- BinaryType(op, TypeOf(l'), TypeOf(r'), t);
      Success(BinOp(l', op, r', ty))
    case UnaryOp(op, x, t) =>
      var x' :- AnalyzeExpr(x, chain);
      var ty :- UnaryType(op, TypeOf(x'), t);
      Success(UnaryOp(op, x', ty))
    case Num(_, _, _) => Success(e)
  }

  /** A condition must have type INTEGER; it is reported at its token. */
  function AnalyzeCondition(c: Expr, chain: Chain): Result<Expr, SemanticError> {
    var c' :- AnalyzeExpr(c, chain);
    if TypeOf(c') != Some(Type.INTEGER) then Failure(ErrorAt(ConditionNotInteger, ExprToken(c')))
    else Success(c')
  }

  function AnalyzeArg(a: WriteArg, chain: Chain): Result<WriteArg, SemanticError> {
    match a
    case StringArg(_, _) => Success(a)
    case ExprArg(e) =>
      var e' :- AnalyzeExpr(e, chain);
      Success(ExprArg(e'))
  }

  /** The visits of statements. An assignment visits its value, then its
      target, and never compares their types. */
  function AnalyzeStmt(s: Stmt, chain: Chain): Result<Stmt, SemanticError>
    decreases s
  {
    match s
    case Compound(t, cs) =>
      var cs' :- AnalyzeStmts(cs, chain);
      Success(Compound(t, cs'))
    case Assign(l, op, r) =>
      var r' :- AnalyzeExpr(r, chain);
      var l' :- AnalyzeVar(l, chain);
      Success(Assign(l', op, r'))
    case NoOp => Success(NoOp)
    case If(t, c, tb, fb) =>
      var c' :- AnalyzeCondition(c, chain);
      var tb' :- AnalyzeStmt(tb, chain);
      if fb.None? then Success(If(t, c', tb', None))
      else
        var fb' :- AnalyzeStmt(fb.value, chain);
        Success(If(t, c', tb', Some(fb')))
    case While(t, c, b) =>
      var c' :- AnalyzeCondition(c, chain);
      var b' :- AnalyzeStmt(b, chain);
      Success(While(t, c', b'))
    case Read(t, v) =>
      var v' :- AnalyzeVar(v, chain);
      Success(Read(t, v'))
    case Write(t, a) =>
      var a' :- AnalyzeArg(a, chain);
      Success(Write(t, a'))
  }

  function AnalyzeStmts(cs: seq<Stmt>, chain: Chain): (r: Result<seq<Stmt>, SemanticError>)
    decreases cs
    ensures r.Success? ==> |r.value| == |cs|
  {
    if |cs| == 0 then Success([])
    else
      var c :- AnalyzeStmt(cs[0], chain);
      var rest :- AnalyzeStmts(cs[1..], chain);
      Success([c] + rest)
  }

  /** visit_Block: the declarations into the current scope, then the
      compound statement against the extended chain. */
  function AnalyzeBlock(b: Block, chain: Chain, level: int): Result<Block, SemanticError>
    requires |chain| > 0
  {
    var symbols :- DeclareAll(b.declarations, chain, level);
    var c :- AnalyzeStmt(b.compound, [symbols] + chain[1..]);
    Success(Block(b.declarations, c))
  }

  /** visit_Program: a global scope of level 1 holding the builtin type
      names, enclosed by whatever scope was current. */
  function AnalyzeProgram(p: Program, enclosing: Chain): Result<Program, SemanticError> {
    var b :- AnalyzeBlock(p.block, [BuiltinScope(BuiltinTypes, 1)] + enclosing, 1);
    Success(Program(p.token, p.name, b))
  }

  // ---------------------------------------------------------------------
  // SemanticAnalyzer (semantic_analyzer.py:81-245)
  // ---------------------------------------------------------------------

  class SemanticAnalyzer {
    var currentScope: ScopedSymbolTable?
    const builtinTypes: seq<(string, Type)>

    ghost predicate Valid()
      reads this
    {
      (currentScope != null ==> currentScope.Valid()) && builtinTypes == BuiltinTypes
    }

    /** The chain of the current scope; empty before any scope is entered. */
    function ScopeChain(): Chain
      requires Valid()
      reads this, if currentScope != null then currentScope.Repr else {}
    {
      if currentScope == null then [] else currentScope.Chain()
    }

    constructor()
      ensures Valid() && currentScope == null
    {
      currentScope := null;
      builtinTypes := BuiltinTypes;
    }

    /** visit_VarDecl (semantic_analyzer.py:118-132): on an error nothing
        is inserted. */
    method VisitVarDecl(d: VarDecl) returns (o: Outcome<SemanticError>)
      requires Valid() && currentScope != null
      modifies currentScope
      ensures Valid()
      ensures DeclareIn(d, old(currentScope.Chain()), currentScope.scopeLevel) ==
        if o.Pass? then Success(currentScope.symbols) else Failure(o.error)
      ensures o.Fail? ==> currentScope.symbols == old(currentScope.symbols)
    {
      var typeName := TypeName(d.typeNode.ty);
      var typeSymbol := currentScope.Lookup(typeName, false);
      if typeSymbol.None? {
        return Fail(ErrorAt(TypeNotDeclared(typeName), d.typeNode.token));
      }
      var name := d.varNode.name;
      var symbol := VarSymbol(name, typeSymbol.value.ty, 0, None, None);
      if currentScope.Lookup(name, true).Some? {
        return Fail(ErrorAt(DuplicateIdentifier(name), d.varNode.token));
      }
      currentScope.Insert(symbol);
      o := Pass;
    }

    /** visit_Block (semantic_analyzer.py:113-116). */
    method VisitBlock(b: Block) returns (r: Result<Block, SemanticError>)
      requires Valid() && currentScope != null
      modifies currentScope
      ensures Valid()
      ensures r == AnalyzeBlock(b, old(currentScope.Chain()), currentScope.scopeLevel)
      ensures DeclareAll(b.declarations, old(currentScope.Chain()), currentScope.scopeLevel).Success? ==>
        currentScope.symbols == DeclareAll(b.declarations, old(currentScope.Chain()), currentScope.scopeLevel).value
    {
      ghost var chain := currentScope.Chain();
      ghost var tail := chain[1..];
      var ds := b.declarations;
      var i := 0;
      while i < |ds|
        invariant 0 <= i <= |ds| && Valid()
        invariant currentScope.Chain() == [currentScope.symbols] + tail
        invariant DeclareAll(ds, chain, currentScope.scopeLevel) ==
          DeclareAll(ds[i..], [currentScope.symbols] + tail, currentScope.scopeLevel)
      {
        ghost var before := [currentScope.symbols] + tail;
        var o := VisitVarDecl(ds[i]);
        if o.Fail? {
          assert DeclareAll(ds[i..], before, currentScope.scopeLevel) == Failure(o.error);
          return Failure(o.error);
        }
        assert ds[i..][1..] == ds[i + 1..];
        i := i + 1;
      }
      assert ds[i..] == [];
      var c := AnalyzeStmt(b.compound, currentScope.Chain());
      if c.Failure? {
        return Failure(c.error);
      }
      r := Success(Block(ds, c.value));
    }

    /** visit_Program (semantic_analyzer.py:92-111): after the block the
        enclosing scope is current again; after an error the global scope
        stays current. */
    method VisitProgram(p: Program) returns (r: Result<Program, SemanticError>)
      requires Valid()
      modifies this
      ensures Valid()
      ensures r == AnalyzeProgram(p, old(ScopeChain()))
      ensures r.Success? ==> currentScope == old(currentScope)
      ensures r.Failure? ==> currentScope != null && currentScope.enclosingScope == old(currentScope)
    {
      var globalScope := new ScopedSymbolTable("global", 1, currentScope);
      var i := 0;
      while i < |builtinTypes|
        invariant 0 <= i <= |builtinTypes| && Valid() && globalScope.Valid() && currentScope == old(currentScope)
        invariant globalScope.enclosingScope == currentScope && globalScope.scopeLevel == 1
        invariant fresh(globalScope) && fresh(globalScope.Repr - (if currentScope != null then currentScope.Repr else {}))
        invariant globalScope.Repr == {globalScope} + (if currentScope != null then currentScope.Repr else {})
        invariant globalScope.symbols == BuiltinScope(builtinTypes[..i], 1)
      {
        var entry := builtinTypes[i];
        globalScope.Insert(BuiltinTypeSymbol(entry.0, Some(entry.1), 0));
        assert builtinTypes[..i + 1][..i] == builtinTypes[..i];
        i := i + 1;
      }
      assert builtinTypes[..i] == BuiltinTypes;
      ghost var enclosing := ScopeChain();
      assert enclosing == old(ScopeChain());
      assert globalScope.Chain() == [BuiltinScope(BuiltinTypes, 1)] + enclosing;
      currentScope := globalScope;
      var b := VisitBlock(p.block);
      assert b == AnalyzeBlock(p.block, [BuiltinScope(BuiltinTypes, 1)] + enclosing, 1);
      if b.Failure? {
        return Failure(b.error);
      }
      currentScope := currentScope.enclosingScope;
      r := Success(Program(p.token, p.name, b.value));
    }
  }

  /** analyze (semantic_analyzer.py:247-249): a fresh analyzer, so the
      global scope encloses nothing. */
  method Analyze(p: Program) returns (r: Result<Program, SemanticError>)
    ensures r == AnalyzeProgram(p, [])
  {
    var analyzer := new SemanticAnalyzer();
    r := analyzer.VisitProgram(p);
  }
}
