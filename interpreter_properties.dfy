/** Properties of the interpreter's semantics (src/interpreter.py). */
module InterpretingProperties {
  import opened Wrappers
  import opened Lexing
  import opened Ast
  import opened Interpreting

  // ---------------------------------------------------------------------
  // The call stack
  // ---------------------------------------------------------------------

  /** A read finds a value exactly when some frame binds the name, and it is
      the value in the innermost such frame (interpreter.py:56-64). */
  lemma LookupIsInnermost(stack: seq<Frame>, name: string)
    ensures Lookup(stack, name).None? <==> forall j :: 0 <= j < |stack| ==> name !in stack[j]
    ensures forall i :: 0 <= i < |stack| && name in stack[i] &&
                        (forall j :: i < j < |stack| ==> name !in stack[j]) ==>
                        Lookup(stack, name) == Some(stack[i][name])
  {
  }

  /** Two stacks of the same height whose frames bind the same names have
      their innermost bindings in the same frames. */
  lemma {:induction false} InnermostDependsOnNamesOnly(s1: seq<Frame>, s2: seq<Frame>, name: string)
    requires |s1| == |s2|
    requires forall j :: 0 <= j < |s1| ==> (name in s1[j] <==> name in s2[j])
    ensures Innermost(s1, name) == Innermost(s2, name)
  {
    if |s1| > 0 && name !in s1[|s1| - 1] {
      InnermostDependsOnNamesOnly(s1[..|s1| - 1], s2[..|s2| - 1], name);
    }
  }

  /** An assignment fails exactly when no frame binds the name. Otherwise
      it overwrites the innermost binding and nothing else: every other
      frame and every other name keeps its value, and reading the name
      back gives the new value (interpreter.py:43-54). */
  lemma AssignmentOverwritesInnermostOnly(stack: seq<Frame>, name: string, v: Value)
    ensures Assigned(stack, name, v).None? <==> forall j :: 0 <= j < |stack| ==> name !in stack[j]
    ensures Assigned(stack, name, v).Some? ==>
      var s := Assigned(stack, name, v).value;
      |s| == |stack| && Lookup(s, name) == Some(v) &&
      (forall y :: y != name ==> Lookup(s, y) == Lookup(stack, y)) &&
      forall i :: 0 <= i < |stack| && name in stack[i] &&
                  (forall j :: i < j < |stack| ==> name !in stack[j]) ==>
                  s[i] == stack[i][name := v] &&
                  forall j :: 0 <= j < |stack| && j != i ==> s[j] == stack[j]
  {
    if Assigned(stack, name, v).Some? {
      var s := Assigned(stack, name, v).value;
      var k := Innermost(stack, name).value;
      InnermostDependsOnNamesOnly(s, stack, name);
      forall y | y != name
        ensures Lookup(s, y) == Lookup(stack, y)
      {
        InnermostDependsOnNamesOnly(s, stack, y);
      }
    }
  }

  // ---------------------------------------------------------------------
  // The store as written: declarations do nothing
  // ---------------------------------------------------------------------

  /** Every frame is empty. */
  predicate Unbound(stack: seq<Frame>) {
    forall j :: 0 <= j < |stack| ==> |stack[j]| == 0
  }

  /** A run starts with exactly one, empty, global frame, and as written the
      declarations leave it so (interpreter.py:15-18, 31-33). */
  lemma {:induction false} AsWrittenDeclarationsChangeNothing(ds: seq<VarDecl>, stack: seq<Frame>)
    ensures DeclaredAll(ds, stack, AsWritten) == stack
    ensures forall input, fuel :: InitialState(input, fuel).stack == [map[]]
  {
    if |ds| > 0 {
      AsWrittenDeclarationsChangeNothing(ds[..|ds| - 1], stack);
    }
  }

  /** On a stack that binds nothing, no statement changes the stack: every
      assignment and every READ fails with 'not declared'. */
  lemma {:induction false} UnboundStackStaysUnbound(s: Stmt, st: State)
    requires Unbound(st.stack)
    ensures Final(Exec(s, st)).stack == st.stack
    decreases st.fuel, s, 1, 0
  {
    match s
    case Compound(_, _) => UnboundChildrenKeepStack(s, 0, st);
    case Assign(l, _, _) =>
      assert Assigned(st.stack, l.name, Value.IntV(0)).None?;
    case NoOp =>
    case If(_, c, tb, fb) =>
      if Eval(c, st.stack).Success? {
        UnboundStackStaysUnbound(tb, st);
        if fb.Some? {
          UnboundStackStaysUnbound(fb.value, st);
        }
      }
    case While(_, c, b) =>
      if Eval(c, st.stack).Success? && IsTrue(Eval(c, st.stack).value) && st.fuel > 0 {
        var st0 := st.(fuel := st.fuel - 1);
        UnboundStackStaysUnbound(b, st0);
        if Exec(b, st0).Success? {
          UnboundStackStaysUnbound(s, Exec(b, st0).value);
        }
      }
    case Read(_, x) =>
    case Write(_, _) =>
  }

  lemma {:induction false} UnboundChildrenKeepStack(s: Stmt, i: nat, st: State)
    requires s.Compound? && i <= |s.children| && Unbound(st.stack)
    ensures Final(ExecFrom(s, i, st)).stack == st.stack
    decreases st.fuel, s, 0, |s.children| - i
  {
    if i < |s.children| {
      UnboundStackStaysUnbound(s.children[i], st);
      if Exec(s.children[i], st).Success? {
        UnboundChildrenKeepStack(s, i + 1, Exec(s.children[i], st).value);
      }
    }
  }

  /** As written, a program ends with the global frame it started with,
      empty, however it ends: no variable ever gets a value. */
  lemma AsWrittenGlobalMemoryStaysEmpty(p: Program, input: seq<Option<Value>>, fuel: nat)
    ensures Final(Run(p, input, fuel, AsWritten)).stack == [map[]]
  {
    var st := InitialState(input, fuel);
    AsWrittenDeclarationsChangeNothing(p.block.declarations, st.stack);
    UnboundStackStaysUnbound(p.block.compound, st);
  }

  /** As written, a program whose first statement assigns a literal halts
      there with 'not declared', whatever it declares. */
  lemma AsWrittenAssignmentFails(p: Program, input: seq<Option<Value>>, fuel: nat,
                                 t: Token, rest: seq<Stmt>, l: Var, op: Token, n: Expr)
    requires p.block.compound == Compound(t, [Assign(l, op, n)] + rest) && n.Num?
    ensures Run(p, input, fuel, AsWritten) ==
            Failure(Halt(ErrorAt(NotDeclared(l.name), l.token), InitialState(input, fuel)))
  {
    var st := InitialState(input, fuel);
    AsWrittenDeclarationsChangeNothing(p.block.declarations, st.stack);
    var c := p.block.compound;
    assert c.children[0] == Assign(l, op, n);
    assert st.(stack := DeclaredAll(p.block.declarations, st.stack, AsWritten)) == st;
    assert Assigned(st.stack, l.name, NumberValue(n.value)).None?;
    assert Exec(c.children[0], st) == Failure(Halt(ErrorAt(NotDeclared(l.name), l.token), st));
    assert Exec(c, st) == ExecFrom(c, 0, st);
  }

  /** With default slots, every declared name is bound in the innermost
      frame, and nothing else is touched. */
  lemma {:induction false} DefaultSlotsBindDeclaredNames(ds: seq<VarDecl>, stack: seq<Frame>)
    requires |stack| > 0
    ensures var s := DeclaredAll(ds, stack, DefaultSlots);
      |s| == |stack| && s[..|s| - 1] == stack[..|stack| - 1] &&
      forall i :: 0 <= i < |ds| ==> ds[i].varNode.name in s[|s| - 1]
  {
    if |ds| > 0 {
      DefaultSlotsBindDeclaredNames(ds[..|ds| - 1], stack);
      var s := DeclaredAll(ds[..|ds| - 1], stack, DefaultSlots);
      forall i | 0 <= i < |ds|
        ensures ds[i].varNode.name in DeclaredAll(ds, stack, DefaultSlots)[|stack| - 1]
      {
        if i < |ds| - 1 {
          assert ds[..|ds| - 1][i] == ds[i];
        }
      }
    }
  }

  /** With default slots, a program whose first statement assigns a literal
      to a declared variable gets past it, and the variable then holds the
      literal's value. */
  lemma DeclaredVariableIsAssignable(p: Program, input: seq<Option<Value>>, fuel: nat,
                                     t: Token, rest: seq<Stmt>, l: Var, op: Token, n: Expr, k: nat)
    requires p.block.compound == Compound(t, [Assign(l, op, n)] + rest) && n.Num?
    requires k < |p.block.declarations| && p.block.declarations[k].varNode.name == l.name
    ensures var st := InitialState(input, fuel).(stack := DeclaredAll(p.block.declarations, [map[]], DefaultSlots));
      var after := Exec(Assign(l, op, n), st);
      after.Success? && Lookup(after.value.stack, l.name) == Some(NumberValue(n.value)) &&
      Run(p, input, fuel, DefaultSlots) == ExecFrom(p.block.compound, 1, after.value)
  {
    var st := InitialState(input, fuel).(stack := DeclaredAll(p.block.declarations, [map[]], DefaultSlots));
    DefaultSlotsBindDeclaredNames(p.block.declarations, [map[]]);
    AssignmentOverwritesInnermostOnly(st.stack, l.name, NumberValue(n.value));
    var c := p.block.compound;
    assert c.children[0] == Assign(l, op, n);
    assert Exec(c, st) == ExecFrom(c, 0, st);
  }

  // ---------------------------------------------------------------------
  // Expressions
  // ---------------------------------------------------------------------

  /** `/` by an operand equal to 0 (integer or float) is an error at the
      operator; otherwise it is true division (interpreter.py:79-82). */
  lemma DivisionByZeroIsReported(l: Expr, op: Token, r: Expr, ty: Option<Type>, stack: seq<Frame>)
    requires op.kind == DIVIDE && Eval(l, stack).Success? && Eval(r, stack).Success?
    ensures var b := Eval(r, stack).value;
      Eval(BinOp(l, op, r, ty), stack) ==
      if AsReal(b) == 0.0 then Failure(ErrorAt(DivisionByZero, op))
      else Success(FloatV(AsReal(Eval(l, stack).value) / AsReal(b)))
  {
  }

  /** Comparisons, AND and OR yield exactly 0 or 1 (interpreter.py:83-98). */
  lemma ComparisonsYieldZeroOrOne(op: Token, a: Value, b: Value)
    requires op.kind in {EQUAL, NOT_EQUAL, LESS, LESS_EQUAL, GREATER, GREATER_EQUAL, AND, OR}
    ensures ApplyBinary(op, a, b) == Success(IntV(0)) || ApplyBinary(op, a, b) == Success(IntV(1))
    ensures op.kind == AND ==> (ApplyBinary(op, a, b) == Success(IntV(1)) <==> IsTrue(a) && IsTrue(b))
    ensures op.kind == OR ==> (ApplyBinary(op, a, b) == Success(IntV(1)) <==> IsTrue(a) || IsTrue(b))
  {
  }

  /** Both operands are always evaluated, the left first: an error in the
      left operand is reported, and otherwise one in the right operand is,
      even when the left operand of AND is 0 or that of OR is nonzero
      (interpreter.py:70-71). */
  lemma NoShortCircuit(l: Expr, op: Token, r: Expr, ty: Option<Type>, stack: seq<Frame>)
    ensures Eval(l, stack).Failure? ==> Eval(BinOp(l, op, r, ty), stack) == Failure(Eval(l, stack).error)
    ensures Eval(l, stack).Success? && Eval(r, stack).Failure? ==>
            Eval(BinOp(l, op, r, ty), stack) == Failure(Eval(r, stack).error)
  {
  }

  /** `%` evaluates both operands and then reaches the unknown-operator
      error (interpreter.py:99-100). */
  lemma ModIsUnknownOperator(l: Expr, op: Token, r: Expr, ty: Option<Type>, stack: seq<Frame>)
    requires op.kind == MOD && Eval(l, stack).Success? && Eval(r, stack).Success?
    ensures Eval(BinOp(l, op, r, ty), stack) == Failure(ErrorAt(UnknownOperator(MOD), op))
  {
  }

  /** NOT maps 0 to 1 and every nonzero value to 0 (interpreter.py:107-109). */
  lemma NotMapsZeroToOne(op: Token, x: Expr, ty: Option<Type>, stack: seq<Frame>)
    requires op.kind == NOT && Eval(x, stack).Success?
    ensures Eval(UnaryOp(op, x, ty), stack) == Success(IntV(if AsReal(Eval(x, stack).value) == 0.0 then 1 else 0))
  {
  }

  /** Integer arithmetic stays integer, and mixing in a float gives a
      float; `/` always gives a float. */
  lemma ArithmeticPromotesToFloat(op: Token, a: Value, b: Value)
    requires op.kind in {PLUS, MINUS, MULTIPLY, DIVIDE} && ApplyBinary(op, a, b).Success?
    ensures ApplyBinary(op, a, b).value.IntV? <==> op.kind != DIVIDE && a.IntV? && b.IntV?
    ensures op.kind == PLUS ==> AsReal(ApplyBinary(op, a, b).value) == AsReal(a) + AsReal(b)
    ensures op.kind == MINUS ==> AsReal(ApplyBinary(op, a, b).value) == AsReal(a) - AsReal(b)
    ensures op.kind == MULTIPLY ==> AsReal(ApplyBinary(op, a, b).value) == AsReal(a) * AsReal(b)
  {
  }

  // ---------------------------------------------------------------------
  // Statements
  // ---------------------------------------------------------------------

  /** IF runs the true branch iff the condition is nonzero, else the false
      branch if there is one, else nothing (interpreter.py:119-124). */
  lemma IfBranchesOnNonzero(t: Token, c: Expr, tb: Stmt, fb: Option<Stmt>, st: State)
    requires Eval(c, st.stack).Success?
    ensures Exec(If(t, c, tb, fb), st) ==
            if AsReal(Eval(c, st.stack).value) != 0.0 then Exec(tb, st)
            else if fb.Some? then Exec(fb.value, st)
            else Success(st)
  {
  }

  /** A WHILE that finishes leaves a state in which its condition evaluates
      to 0: it repeats its body until then (interpreter.py:126-128). */
  lemma {:induction false} WhileEndsOnZero(s: Stmt, st: State)
    requires s.While? && Exec(s, st).Success?
    ensures var e := Eval(s.condition, Exec(s, st).value.stack);
      e.Success? && AsReal(e.value) == 0.0
    decreases st.fuel
  {
    var c := Eval(s.condition, st.stack);
    if IsTrue(c.value) {
      WhileRepeats(s, st);
      var st1 := Exec(s.body, st.(fuel := st.fuel - 1)).value;
      WhileEndsOnZero(s, st1);
    }
  }

  /** A WHILE whose condition is 0 changes nothing. */
  lemma WhileOnZeroChangesNothing(s: Stmt, st: State)
    requires s.While? && Eval(s.condition, st.stack) == Success(IntV(0))
    ensures Exec(s, st) == Success(st)
  {
  }

  /** WRITE appends the raw string, or the value of the expression, as one
      item: nothing else, not even a newline (interpreter.py:156-161). */
  lemma WriteAppendsOneItem(t: Token, a: WriteArg, st: State)
    requires a.ExprArg? ==> Eval(a.e, st.stack).Success?
    ensures Exec(Write(t, a), st) ==
            Success(st.(output := st.output + [if a.StringArg? then TextOut(a.value) else ValueOut(Eval(a.e, st.stack).value)]))
  {
  }

  /** READ prints its prompt, consumes exactly one line of input and stores
      it like an assignment; with no line left it reports the end of input
      (interpreter.py:130-154). */
  lemma ReadConsumesOneLine(t: Token, x: Var, st: State)
    ensures |st.input| == 0 ==>
      (Exec(Read(t, x), st) ==
       Failure(Halt(ErrorAt(UnexpectedEndOfInput, t), st.(output := st.output + [TextOut(Prompt(x.name))]))))
    ensures |st.input| > 0 ==>
      Final(Exec(Read(t, x), st)).input == st.input[1..] &&
      Final(Exec(Read(t, x), st)).output == st.output + [TextOut(Prompt(x.name))] &&
      (Exec(Read(t, x), st).Success? <==> st.input[0].Some? && Assigned(st.stack, x.name, st.input[0].value).Some?)
  {
  }

  /** Output only grows and input is only consumed from the front, however
      a statement ends. */
  lemma {:induction false} OutputIsAppendOnly(s: Stmt, st: State)
    ensures var f := Final(Exec(s, st));
      st.output <= f.output && |f.input| <= |st.input| && f.input == st.input[|st.input| - |f.input|..]
    decreases st.fuel, s, 1, 0
  {
    match s
    case Compound(_, _) => OutputIsAppendOnlyFrom(s, 0, st);
    case Assign(_, _, _) =>
    case NoOp =>
    case If(_, c, tb, fb) =>
      if Eval(c, st.stack).Success? {
        OutputIsAppendOnly(tb, st);
        if fb.Some? {
          OutputIsAppendOnly(fb.value, st);
        }
      }
    case While(_, _, _) => OutputIsAppendOnlyLoop(s, st);
    case Read(_, _) =>
    case Write(_, _) =>
  }

  lemma {:induction false} OutputIsAppendOnlyLoop(s: Stmt, st: State)
    requires s.While?
    ensures var f := Final(Exec(s, st));
      st.output <= f.output && |f.input| <= |st.input| && f.input == st.input[|st.input| - |f.input|..]
    decreases st.fuel, s, 0, 0
  {
    var c := Eval(s.condition, st.stack);
    if c.Success? && IsTrue(c.value) && st.fuel > 0 {
      var st0 := st.(fuel := st.fuel - 1);
      WhileRepeats(s, st);
      OutputIsAppendOnly(s.body, st0);
      if Exec(s.body, st0).Success? {
        var st1 := Exec(s.body, st0).value;
        OutputIsAppendOnly(s, st1);
        SuffixOfSuffix(st.input, st1.input, Final(Exec(s, st1)).input);
      }
    }
  }

  lemma {:induction false} OutputIsAppendOnlyFrom(s: Stmt, i: nat, st: State)
    requires s.Compound? && i <= |s.children|
    ensures var f := Final(ExecFrom(s, i, st));
      st.output <= f.output && |f.input| <= |st.input| && f.input == st.input[|st.input| - |f.input|..]
    decreases st.fuel, s, 0, |s.children| - i
  {
    if i < |s.children| {
      OutputIsAppendOnly(s.children[i], st);
      if Exec(s.children[i], st).Success? {
        var st1 := Exec(s.children[i], st).value;
        OutputIsAppendOnlyFrom(s, i + 1, st1);
        SuffixOfSuffix(st.input, st1.input, Final(ExecFrom(s, i + 1, st1)).input);
      }
    }
  }

  lemma SuffixOfSuffix<T>(a: seq<T>, b: seq<T>, c: seq<T>)
    requires |b| <= |a| && b == a[|a| - |b|..]
    requires |c| <= |b| && c == b[|b| - |c|..]
    ensures c == a[|a| - |c|..]
  {
    assert b[|b| - |c|..] == a[|a| - |c|..];
  }
}
