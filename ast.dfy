/** The abstract syntax tree shared by the parser, the semantic analyzer
    and the interpreter (src/ast.py). Node kinds are datatype constructors;
    name-based visitor dispatch becomes a `match`. */
module Ast {
  import opened Wrappers
  import opened Lexing

  /** The language's types (ast.py:5-9). */
  datatype Type = INTEGER | FLOAT | ARRAY | VOID

  /** The name a type is looked up under in the symbol table. */
  function TypeName(t: Type): string {
    match t
    case INTEGER => "INTEGER"
    case FLOAT => "FLOAT"
    case ARRAY => "ARRAY"
    case VOID => "VOID"
  }

  /** A type specification: start, end and element type are present only
      for arrays, and the element type is itself a type node (ast.py:37-44). */
  datatype TypeNode = TypeNode(token: Token, ty: Type, startIndex: Option<int>, endIndex: Option<int>,
                               elementType: Option<TypeNode>)

  /** Variables, with an optional index expression and a resolved-type slot
      that starts out unset (ast.py:64-69). */
  datatype Var = Var(token: Token, name: string, index: Option<Expr>, ty: Option<Type>)

  /** Expressions: variables, binary and unary operations (each with a
      resolved-type slot) and number literals (typed at parse time). */
  datatype Expr =
    | VarRef(v: Var)
    | BinOp(left: Expr, op: Token, right: Expr, ty: Option<Type>)
    | UnaryOp(op: Token, operand: Expr, ty: Option<Type>)
    | Num(token: Token, value: TokenValue, numType: Type)

  /** The argument of WRITE: a string literal node or an expression. */
  datatype WriteArg = StringArg(token: Token, value: string) | ExprArg(e: Expr)

  /** Statements (ast.py:52-123). */
  datatype Stmt =
    | Compound(token: Token, children: seq<Stmt>)
    | Assign(left: Var, op: Token, right: Expr)
    | NoOp
    | If(token: Token, condition: Expr, trueBranch: Stmt, falseBranch: Option<Stmt>)
    | While(token: Token, condition: Expr, body: Stmt)
    | Read(token: Token, target: Var)
    | Write(token: Token, arg: WriteArg)

  /** A declaration of one variable; its type slot is set by the parser from
      the type node. */
  datatype VarDecl = VarDecl(token: Token, varNode: Var, typeNode: TypeNode, ty: Option<Type>)

  datatype Block = Block(declarations: seq<VarDecl>, compound: Stmt)

  datatype Program = Program(token: Token, name: string, block: Block)

  // ---------------------------------------------------------------------
  // Reading node attributes
  // ---------------------------------------------------------------------

  /** The `type` attribute of an expression node. */
  function TypeOf(e: Expr): Option<Type> {
    match e
    case VarRef(v) => v.ty
    case BinOp(_, _, _, t) => t
    case UnaryOp(_, _, t) => t
    case Num(_, _, t) => Some(t)
  }

  /** The token an expression node is reported at: its own token, or its
      operator for an operation. */
  function ExprToken(e: Expr): Token {
    match e
    case VarRef(v) => v.token
    case BinOp(_, op, _, _) => op
    case UnaryOp(op, _, _) => op
    case Num(t, _, _) => t
  }

  // ---------------------------------------------------------------------
  // Shape invariants
  // ---------------------------------------------------------------------

  /** Index bounds and element type are present exactly for arrays, all the
      way down the element types. */
  predicate WellShapedType(tn: TypeNode) {
    (tn.ty == Type.ARRAY <==> tn.startIndex.Some?) &&
    (tn.ty == Type.ARRAY <==> tn.endIndex.Some?) &&
    (tn.ty == Type.ARRAY <==> tn.elementType.Some?) &&
    (tn.elementType.Some? ==> WellShapedType(tn.elementType.value))
  }

  /** The nesting depth of array types. */
  function ArrayDepth(tn: TypeNode): nat {
    match tn.elementType
    case None => 0
    case Some(e) => 1 + ArrayDepth(e)
  }

  /** No resolved-type slot of a variable or an operation is set. */
  predicate UnannotatedVar(v: Var) {
    v.ty.None? && (v.index.Some? ==> UnannotatedExpr(v.index.value))
  }

  predicate UnannotatedExpr(e: Expr) {
    match e
    case VarRef(v) => UnannotatedVar(v)
    case BinOp(l, _, r, t) => t.None? && UnannotatedExpr(l) && UnannotatedExpr(r)
    case UnaryOp(_, x, t) => t.None? && UnannotatedExpr(x)
    case Num(_, _, _) => true
  }

  predicate UnannotatedArg(a: WriteArg) {
    a.ExprArg? ==> UnannotatedExpr(a.e)
  }

  predicate UnannotatedStmt(s: Stmt) {
    match s
    case Compound(_, cs) => forall i :: 0 <= i < |cs| ==> UnannotatedStmt(cs[i])
    case Assign(l, _, r) => UnannotatedVar(l) && UnannotatedExpr(r)
    case NoOp => true
    case If(_, c, t, f) => UnannotatedExpr(c) && UnannotatedStmt(t) && (f.Some? ==> UnannotatedStmt(f.value))
    case While(_, c, b) => UnannotatedExpr(c) && UnannotatedStmt(b)
    case Read(_, v) => UnannotatedVar(v)
    case Write(_, a) => UnannotatedArg(a)
  }

  // ---------------------------------------------------------------------
  // Erasing the resolved types
  // ---------------------------------------------------------------------

  /** The tree with every resolved-type slot of variables and operations
      reset to unset: two trees with the same erasure differ only in what
      the semantic analyzer writes. */
  function EraseVar(v: Var): (r: Var)
    ensures UnannotatedVar(r)
  {
    Var(v.token, v.name, if v.index.Some? then Some(EraseExpr(v.index.value)) else None, None)
  }

  function EraseExpr(e: Expr): (r: Expr)
    ensures UnannotatedExpr(r)
  {
    match e
    case VarRef(v) => VarRef(EraseVar(v))
    case BinOp(l, op, r, _) => BinOp(EraseExpr(l), op, EraseExpr(r), None)
    case UnaryOp(op, x, _) => UnaryOp(op, EraseExpr(x), None)
    case Num(t, v, nt) => Num(t, v, nt)
  }

  function EraseArg(a: WriteArg): (r: WriteArg)
    ensures UnannotatedArg(r)
  {
    match a
    case StringArg(t, s) => StringArg(t, s)
    case ExprArg(e) => ExprArg(EraseExpr(e))
  }

  function EraseStmt(s: Stmt): (r: Stmt)
    ensures UnannotatedStmt(r)
  {
    match s
    case Compound(t, cs) => Compound(t, seq(|cs|, i requires 0 <= i < |cs| => EraseStmt(cs[i])))
    case Assign(l, op, r) => Assign(EraseVar(l), op, EraseExpr(r))
    case NoOp => NoOp
    case If(t, c, tb, fb) => If(t, EraseExpr(c), EraseStmt(tb), if fb.Some? then Some(EraseStmt(fb.value)) else None)
    case While(t, c, b) => While(t, EraseExpr(c), EraseStmt(b))
    case Read(t, v) => Read(t, EraseVar(v))
    case Write(t, a) => Write(t, EraseArg(a))
  }
}
