/** Properties of the scoped symbol tables and the type rules
    (src/semantic_analyzer.py). */
module AnalysisProperties {
  import opened Wrappers
  import opened Lexing
  import opened Ast
  import opened Analysis

  // ---------------------------------------------------------------------
  // Lookup along the chain of scopes
  // ---------------------------------------------------------------------

  /** lookup returns the binding of the innermost scope that binds the
      name, and nothing exactly when no scope binds it. */
  lemma {:induction false} FirstBindingIsInnermost(chain: Chain, name: string)
    ensures FirstBinding(chain, name).Some? ==>
      exists i :: 0 <= i < |chain| && name in chain[i] && FirstBinding(chain, name) == Some(chain[i][name]) &&
        forall j :: 0 <= j < i ==> name !in chain[j]
    ensures FirstBinding(chain, name).None? <==> forall i :: 0 <= i < |chain| ==> name !in chain[i]
  {
    if |chain| > 0 && name !in chain[0] {
      FirstBindingIsInnermost(chain[1..], name);
      if FirstBinding(chain, name).Some? {
        var i :| 0 <= i < |chain[1..]| && name in chain[1..][i] && FirstBinding(chain[1..], name) == Some(chain[1..][i][name]) &&
          forall j :: 0 <= j < i ==> name !in chain[1..][j];
        assert forall j :: 0 <= j < i + 1 ==> name !in chain[j] by {
          forall j | 0 <= j < i + 1 ensures name !in chain[j] {
            if j > 0 { assert chain[j] == chain[1..][j - 1]; }
          }
        }
      }
      if FirstBinding(chain, name).None? {
        forall i | 0 <= i < |chain| ensures name !in chain[i] {
          if i > 0 { assert chain[i] == chain[1..][i - 1]; }
        }
      }
    }
  }

  /** Any binding of the innermost scope hides the enclosing ones, and a
      current-scope-only lookup sees nothing else. */
  lemma CurrentScopeHides(chain: Chain, name: string)
    requires |chain| > 0
    ensures name in chain[0] ==> FirstBinding(chain, name) == Some(chain[0][name])
    ensures FirstBinding([chain[0]], name) == if name in chain[0] then Some(chain[0][name]) else None
  {
  }

  /** After insert, looking the name up finds the symbol, now carrying the
      table's level. */
  lemma InsertedSymbolIsFound(m: map<string, Symbol>, rest: Chain, s: Symbol, level: int)
    ensures var found := FirstBinding([m[s.name := s.(scopeLevel := level)]] + rest, s.name);
      found == Some(s.(scopeLevel := level)) && found.value.scopeLevel == level
  {
  }

  // ---------------------------------------------------------------------
  // Declarations
  // ---------------------------------------------------------------------

  /** An unknown type is reported first, at the type node, whether or not
      the name is also a duplicate. */
  lemma UnknownTypeIsReportedFirst(d: VarDecl, chain: Chain, level: int)
    requires |chain| > 0 && forall i :: 0 <= i < |chain| ==> TypeName(d.typeNode.ty) !in chain[i]
    ensures DeclareIn(d, chain, level) == Failure(ErrorAt(TypeNotDeclared(TypeName(d.typeNode.ty)), d.typeNode.token))
  {
    FirstBindingIsInnermost(chain, TypeName(d.typeNode.ty));
  }

  /** A name already bound in the current scope is rejected, at the
      variable, and nothing is inserted. */
  lemma DuplicateIsRejected(d: VarDecl, chain: Chain, level: int)
    requires |chain| > 0 && FirstBinding(chain, TypeName(d.typeNode.ty)).Some?
    requires d.varNode.name in chain[0]
    ensures DeclareIn(d, chain, level) == Failure(ErrorAt(DuplicateIdentifier(d.varNode.name), d.varNode.token))
  {
  }

  /** A name bound only in an enclosing scope may be declared again; the
      new binding hides the enclosing one, which is left as it was. */
  lemma EnclosingNameMayBeShadowed(d: VarDecl, chain: Chain, level: int)
    requires |chain| > 0 && FirstBinding(chain, TypeName(d.typeNode.ty)).Some?
    requires d.varNode.name !in chain[0]
    ensures DeclareIn(d, chain, level).Success?
    ensures var m := DeclareIn(d, chain, level).value;
      FirstBinding([m] + chain[1..], d.varNode.name) ==
        Some(VarSymbol(d.varNode.name, FirstBinding(chain, TypeName(d.typeNode.ty)).value.ty, level, None, None)) &&
      (forall k :: k in chain[0] ==> k in m && m[k] == chain[0][k])
  {
  }

  /** The global scope holds exactly the two builtin type names, each with
      its type. */
  lemma GlobalScopeHoldsBuiltins(level: int)
    ensures var m := BuiltinScope(BuiltinTypes, level);
      m.Keys == {"INTEGER", "FLOAT"} &&
      m["INTEGER"] == BuiltinTypeSymbol("INTEGER", Some(Type.INTEGER), level) &&
      m["FLOAT"] == BuiltinTypeSymbol("FLOAT", Some(Type.FLOAT), level)
  {
    assert BuiltinTypes[..1] == [("INTEGER", Type.INTEGER)];
    assert BuiltinTypes[..1][..0] == [];
  }

  /** Only INTEGER and FLOAT are registered, so a program whose first
      declaration is an array is rejected at that declaration's type. */
  lemma ArrayDeclarationIsRejected(p: Program)
    requires |p.block.declarations| > 0 && p.block.declarations[0].typeNode.ty == Type.ARRAY
    ensures AnalyzeProgram(p, []) ==
      Failure(ErrorAt(TypeNotDeclared("ARRAY"), p.block.declarations[0].typeNode.token))
  {
    GlobalScopeHoldsBuiltins(1);
    var chain := [BuiltinScope(BuiltinTypes, 1)];
    assert FirstBinding(chain, "ARRAY") == None by {
      assert FirstBinding(chain[1..], "ARRAY") == None;
    }
  }

  /** Declaring never changes an earlier binding of the current scope. */
  lemma {:induction false} DeclareAllKeepsBindings(ds: seq<VarDecl>, m: map<string, Symbol>, level: int)
    decreases |ds|
    ensures DeclareAll(ds, [m], level).Success? ==>
      forall k :: k in m ==> k in DeclareAll(ds, [m], level).value && DeclareAll(ds, [m], level).value[k] == m[k]
  {
    if |ds| > 0 {
      var m1 := DeclareIn(ds[0], [m], level);
      if m1.Success? {
        assert [m1.value] + [m][1..] == [m1.value];
        DeclareAllKeepsBindings(ds[1..], m1.value, level);
      }
    }
  }

  /** The type names a declaration can refer to. */
  predicate IsTypeName(name: string) {
    name == "INTEGER" || name == "FLOAT" || name == "ARRAY" || name == "VOID"
  }

  /** In a scope holding the builtin types, a block's declarations succeed
      only when each declares a new name of type INTEGER or FLOAT, and each
      variable then carries its declared type. */
  lemma {:induction false} DeclaredVariablesCarryTheirType(ds: seq<VarDecl>, m: map<string, Symbol>)
    requires "INTEGER" in m && m["INTEGER"] == BuiltinTypeSymbol("INTEGER", Some(Type.INTEGER), 1)
    requires "FLOAT" in m && m["FLOAT"] == BuiltinTypeSymbol("FLOAT", Some(Type.FLOAT), 1)
    requires "ARRAY" !in m && "VOID" !in m
    requires forall i :: 0 <= i < |ds| ==> !IsTypeName(ds[i].varNode.name)
    decreases |ds|
    ensures var r := DeclareAll(ds, [m], 1);
      r.Success? ==>
        forall i :: 0 <= i < |ds| ==>
          (ds[i].typeNode.ty == Type.INTEGER || ds[i].typeNode.ty == Type.FLOAT) &&
          ds[i].varNode.name in r.value &&
          r.value[ds[i].varNode.name] == VarSymbol(ds[i].varNode.name, Some(ds[i].typeNode.ty), 1, None, None)
  {
    if |ds| > 0 {
      var d := ds[0];
      var m1 := DeclareIn(d, [m], 1);
      if m1.Success? {
        assert [m1.value] + [m][1..] == [m1.value];
        var name := d.varNode.name;
        assert FirstBinding([m], "ARRAY") == None && FirstBinding([m], "VOID") == None by {
          assert FirstBinding([m][1..], "ARRAY") == None && FirstBinding([m][1..], "VOID") == None;
        }
        assert m1.value == m[name := VarSymbol(name, Some(d.typeNode.ty), 1, None, None)];
        DeclaredVariablesCarryTheirType(ds[1..], m1.value);
        DeclareAllKeepsBindings(ds[1..], m1.value, 1);
        var r := DeclareAll(ds, [m], 1);
        if r.Success? {
          forall i | 0 <= i < |ds|
            ensures (ds[i].typeNode.ty == Type.INTEGER || ds[i].typeNode.ty == Type.FLOAT) &&
              ds[i].varNode.name in r.value &&
              r.value[ds[i].varNode.name] == VarSymbol(ds[i].varNode.name, Some(ds[i].typeNode.ty), 1, None, None)
          {
            if i > 0 {
              assert ds[i] == ds[1..][i - 1];
            }
          }
        }
      }
    }
  }

  /** Conversely, declarations of pairwise distinct new names, each of type
      INTEGER or FLOAT, always succeed in a scope holding those types. */
  lemma {:induction false} FreshIntegerOrFloatDeclarationsSucceed(ds: seq<VarDecl>, m: map<string, Symbol>, level: int)
    requires "INTEGER" in m && "FLOAT" in m
    requires forall i :: 0 <= i < |ds| ==> ds[i].typeNode.ty == Type.INTEGER || ds[i].typeNode.ty == Type.FLOAT
    requires forall i :: 0 <= i < |ds| ==> ds[i].varNode.name !in m
    requires forall i, j :: 0 <= i < j < |ds| ==> ds[i].varNode.name != ds[j].varNode.name
    decreases |ds|
    ensures DeclareAll(ds, [m], level).Success?
  {
    if |ds| > 0 {
      var d := ds[0];
      assert FirstBinding([m], TypeName(d.typeNode.ty)).Some?;
      var m1 := m[d.varNode.name := VarSymbol(d.varNode.name, m[TypeName(d.typeNode.ty)].ty, level, None, None)];
      assert DeclareIn(d, [m], level) == Success(m1);
      assert [m1] + [m][1..] == [m1];
      forall i | 0 <= i < |ds[1..]|
        ensures ds[1..][i].varNode.name !in m1
      {
        assert ds[1..][i] == ds[i + 1];
      }
      FreshIntegerOrFloatDeclarationsSucceed(ds[1..], m1, level);
    }
  }

  // ---------------------------------------------------------------------
  // Type rules
  // ---------------------------------------------------------------------

  /** + - * / need operands of equal types and take the left one's type;
      comparisons need equal types and give INTEGER; AND and OR need two
      INTEGERs and give INTEGER; any other operator (MOD) leaves the slot
      as the parser left it. */
  lemma BinaryRules(l: Expr, op: Token, r: Expr, t: Option<Type>, chain: Chain)
    requires AnalyzeExpr(l, chain).Success? && AnalyzeExpr(r, chain).Success?
    ensures var lt := TypeOf(AnalyzeExpr(l, chain).value);
      var rt := TypeOf(AnalyzeExpr(r, chain).value);
      var a := AnalyzeExpr(BinOp(l, op, r, t), chain);
      (IsArithmetic(op.kind) ==> (a.Success? <==> lt == rt) && (a.Success? ==> TypeOf(a.value) == lt)) &&
      (IsComparison(op.kind) ==> (a.Success? <==> lt == rt) && (a.Success? ==> TypeOf(a.value) == Some(Type.INTEGER))) &&
      (IsLogical(op.kind) ==>
        (a.Success? <==> lt == Some(Type.INTEGER) && rt == Some(Type.INTEGER)) &&
        (a.Success? ==> TypeOf(a.value) == Some(Type.INTEGER))) &&
      (!IsArithmetic(op.kind) && !IsComparison(op.kind) && !IsLogical(op.kind) ==>
        a.Success? && TypeOf(a.value) == t) &&
      (a.Failure? ==> a.error.line == op.line && a.error.column == op.column)
  {
  }

  /** There is no promotion between INTEGER and FLOAT: mixing them in an
      arithmetic operation or a comparison is an error at the operator. */
  lemma NoImplicitPromotion(l: Expr, op: Token, r: Expr, t: Option<Type>, chain: Chain)
    requires IsArithmetic(op.kind) || IsComparison(op.kind)
    requires AnalyzeExpr(l, chain).Success? && TypeOf(AnalyzeExpr(l, chain).value) == Some(Type.INTEGER)
    requires AnalyzeExpr(r, chain).Success? && TypeOf(AnalyzeExpr(r, chain).value) == Some(Type.FLOAT)
    ensures AnalyzeExpr(BinOp(l, op, r, t), chain).Failure?
    ensures AnalyzeExpr(BinOp(l, op, r, t), chain).error ==
      ErrorAt(if IsArithmetic(op.kind) then TypeMismatch(op.kind) else CannotCompare(op.kind), op)
  {
  }

  /** Operands are checked left before right. */
  lemma LeftOperandFirst(l: Expr, op: Token, r: Expr, t: Option<Type>, chain: Chain)
    requires AnalyzeExpr(l, chain).Failure?
    ensures AnalyzeExpr(BinOp(l, op, r, t), chain) == Failure(AnalyzeExpr(l, chain).error)
  {
  }

  /** Unary + and - need a number and keep its type; NOT needs an INTEGER. */
  lemma UnaryRules(op: Token, x: Expr, t: Option<Type>, chain: Chain)
    requires AnalyzeExpr(x, chain).Success?
    ensures var xt := TypeOf(AnalyzeExpr(x, chain).value);
      var a := AnalyzeExpr(UnaryOp(op, x, t), chain);
      ((op.kind == PLUS || op.kind == MINUS) ==>
        (a.Success? <==> xt == Some(Type.INTEGER) || xt == Some(Type.FLOAT)) && (a.Success? ==> TypeOf(a.value) == xt)) &&
      (op.kind == NOT ==> (a.Success? <==> xt == Some(Type.INTEGER)) && (a.Success? ==> TypeOf(a.value) == Some(Type.INTEGER)))
  {
  }

  /** The condition of IF and WHILE must be an INTEGER expression; anything
      else is an error at the condition's token. */
  lemma ConditionsMustBeInteger(t: Token, c: Expr, body: Stmt, chain: Chain)
    requires AnalyzeExpr(c, chain).Success? && TypeOf(AnalyzeExpr(c, chain).value) != Some(Type.INTEGER)
    ensures AnalyzeStmt(While(t, c, body), chain) ==
      Failure(ErrorAt(ConditionNotInteger, ExprToken(AnalyzeExpr(c, chain).value)))
    ensures forall fb: Option<Stmt> :: (AnalyzeStmt(If(t, c, body, fb), chain) ==
      Failure(ErrorAt(ConditionNotInteger, ExprToken(AnalyzeExpr(c, chain).value))))
  {
  }

  /** An assignment checks that its value and its target are well formed,
      value first, and never compares their types. */
  lemma AssignmentIgnoresTypes(v: Var, op: Token, e: Expr, chain: Chain)
    ensures AnalyzeStmt(Assign(v, op, e), chain).Success? <==>
      AnalyzeExpr(e, chain).Success? && FirstBinding(chain, v.name).Some?
    ensures AnalyzeExpr(e, chain).Failure? ==> AnalyzeStmt(Assign(v, op, e), chain) == Failure(AnalyzeExpr(e, chain).error)
  {
  }

  /** The index expression of a variable is never visited: it may name
      anything, and it is left as it was. */
  lemma IndexIsNotVisited(v: Var, chain: Chain)
    ensures AnalyzeVar(v, chain).Success? <==> FirstBinding(chain, v.name).Some?
    ensures AnalyzeVar(v, chain).Success? ==>
      AnalyzeVar(v, chain).value.index == v.index && AnalyzeVar(v, chain).value.ty == FirstBinding(chain, v.name).value.ty
  {
  }

  // ---------------------------------------------------------------------
  // What the analysis changes in the tree
  // ---------------------------------------------------------------------

  /** The analysis only fills in resolved-type slots: the tree it returns
      has the same erasure as the tree it was given. */
  lemma {:induction false} AnalysisOnlyFillsTypes(e: Expr, chain: Chain)
    ensures AnalyzeExpr(e, chain).Success? ==> EraseExpr(AnalyzeExpr(e, chain).value) == EraseExpr(e)
  {
    match e
    case VarRef(v) =>
    case BinOp(l, op, r, t) =>
      AnalysisOnlyFillsTypes(l, chain);
      AnalysisOnlyFillsTypes(r, chain);
    case UnaryOp(op, x, t) =>
      AnalysisOnlyFillsTypes(x, chain);
    case Num(_, _, _) =>
  }

  lemma {:induction false} StatementAnalysisOnlyFillsTypes(s: Stmt, chain: Chain)
    decreases s
    ensures AnalyzeStmt(s, chain).Success? ==> EraseStmt(AnalyzeStmt(s, chain).value) == EraseStmt(s)
  {
    match s
    case Compound(t, cs) =>
      if AnalyzeStmt(s, chain).Success? {
        StatementsAnalysisOnlyFillsTypes(cs, chain);
        var cs' := AnalyzeStmts(cs, chain).value;
        assert seq(|cs'|, i requires 0 <= i < |cs'| => EraseStmt(cs'[i])) ==
          seq(|cs|, i requires 0 <= i < |cs| => EraseStmt(cs[i]));
      }
    case Assign(l, op, r) =>
      AnalysisOnlyFillsTypes(r, chain);
    case NoOp =>
    case If(t, c, tb, fb) =>
      AnalysisOnlyFillsTypes(c, chain);
      StatementAnalysisOnlyFillsTypes(tb, chain);
      if fb.Some? {
        StatementAnalysisOnlyFillsTypes(fb.value, chain);
      }
    case While(t, c, b) =>
      AnalysisOnlyFillsTypes(c, chain);
      StatementAnalysisOnlyFillsTypes(b, chain);
    case Read(t, v) =>
    case Write(t, a) =>
      if a.ExprArg? {
        AnalysisOnlyFillsTypes(a.e, chain);
      }
  }

  lemma {:induction false} StatementsAnalysisOnlyFillsTypes(cs: seq<Stmt>, chain: Chain)
    decreases cs
    ensures AnalyzeStmts(cs, chain).Success? ==>
      forall i :: 0 <= i < |cs| ==> EraseStmt(AnalyzeStmts(cs, chain).value[i]) == EraseStmt(cs[i])
  {
    if |cs| > 0 && AnalyzeStmts(cs, chain).Success? {
      StatementAnalysisOnlyFillsTypes(cs[0], chain);
      StatementsAnalysisOnlyFillsTypes(cs[1..], chain);
      var r := AnalyzeStmts(cs, chain).value;
      forall i | 0 <= i < |cs| ensures EraseStmt(r[i]) == EraseStmt(cs[i]) {
        if i > 0 {
          assert r[i] == AnalyzeStmts(cs[1..], chain).value[i - 1];
          assert cs[i] == cs[1..][i - 1];
        }
      }
    }
  }

  /** Analysing an analysed tree again changes nothing. */
  lemma {:induction false} AnalysisIsIdempotent(e: Expr, chain: Chain)
    ensures AnalyzeExpr(e, chain).Success? ==>
      AnalyzeExpr(AnalyzeExpr(e, chain).value, chain) == AnalyzeExpr(e, chain)
  {
    match e
    case VarRef(v) =>
    case BinOp(l, op, r, t) =>
      AnalysisIsIdempotent(l, chain);
      AnalysisIsIdempotent(r, chain);
    case UnaryOp(op, x, t) =>
      AnalysisIsIdempotent(x, chain);
    case Num(_, _, _) =>
  }

  // ---------------------------------------------------------------------
  // The builtin type symbols
  // ---------------------------------------------------------------------

  /** A variable of type INTEGER used with an integer literal. */
  function PlusLiteral(v: Var, op: Token, n: Token): Expr {
    BinOp(VarRef(v), op, Num(n, n.value, Type.INTEGER), None)
  }

  /** As the source builds the global scope, a declared variable takes the
      type of a type symbol that has none, so it has no type at all. */
  lemma AsWrittenVariablesAreUntyped(d: VarDecl)
    requires DeclareIn(d, [BuiltinScopeAsWritten(BuiltinTypes, 1)], 1).Success?
    ensures var m := DeclareIn(d, [BuiltinScopeAsWritten(BuiltinTypes, 1)], 1).value;
      d.varNode.name in m && m[d.varNode.name].ty == None
  {
    var m0 := BuiltinScopeAsWritten(BuiltinTypes, 1);
    var typeName := TypeName(d.typeNode.ty);
    assert FirstBinding([m0], typeName).Some? ==> FirstBinding([m0], typeName).value.ty == None;
  }

  /** ... and so x + 1 for a variable x declared INTEGER is rejected as a
      type mismatch: the as-written analysis fails on ordinary arithmetic. */
  lemma AsWrittenRejectsArithmetic(d: VarDecl, v: Var, op: Token, n: Token)
    requires DeclareIn(d, [BuiltinScopeAsWritten(BuiltinTypes, 1)], 1).Success?
    requires v.name == d.varNode.name && op.kind == PLUS
    ensures var m := DeclareIn(d, [BuiltinScopeAsWritten(BuiltinTypes, 1)], 1).value;
      AnalyzeExpr(PlusLiteral(v, op, n), [m]) == Failure(ErrorAt(TypeMismatch(PLUS), op))
  {
    AsWrittenVariablesAreUntyped(d);
  }

  /** With type symbols that carry their type, a variable declared INTEGER
      has type INTEGER and x + 1 is an INTEGER expression. */
  lemma CorrectedAcceptsArithmetic(d: VarDecl, v: Var, op: Token, n: Token)
    requires d.typeNode.ty == Type.INTEGER && !IsTypeName(d.varNode.name)
    requires v.name == d.varNode.name && op.kind == PLUS
    ensures DeclareIn(d, [BuiltinScope(BuiltinTypes, 1)], 1).Success?
    ensures var m := DeclareIn(d, [BuiltinScope(BuiltinTypes, 1)], 1).value;
      m[d.varNode.name].ty == Some(Type.INTEGER) &&
      AnalyzeExpr(PlusLiteral(v, op, n), [m]).Success? &&
      TypeOf(AnalyzeExpr(PlusLiteral(v, op, n), [m]).value) == Some(Type.INTEGER)
  {
    GlobalScopeHoldsBuiltins(1);
  }
}
