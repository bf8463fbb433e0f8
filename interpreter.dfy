/** The tree-walking interpreter (src/interpreter.py). Expression evaluation
    only reads the store and is a pure function; statements change the call
    stack, the output and the remaining input, and are methods of the class
    `Interpreter`, each proved against the pure statement semantics `Exec`. */
module Interpreting {
  import opened Wrappers
  import opened Lexing
  import opened Ast

  // ---------------------------------------------------------------------
  // Values, frames and errors
  // ---------------------------------------------------------------------

  /** A run-time value: a Python int or float (floats as exact reals). */
  datatype Value = IntV(i: int) | FloatV(r: real)

  /** The numeric value, as Python compares mixed int/float operands. */
  function AsReal(v: Value): real {
    match v
    case IntV(i) => i as real
    case FloatV(r) => r
  }

  /** Python truthiness of a number, which is also the `!= 0` test of IF
      and WHILE (interpreter.py:121, 127). */
  predicate IsTrue(v: Value) {
    AsReal(v) != 0.0
  }

  /** One frame of the call stack: variable name to current value. */
  type Frame = map<string, Value>

  /** What the program prints: raw text (strings, READ prompts) or the
      textual form of a value. Nothing adds a newline. */
  datatype OutputItem = TextOut(text: string) | ValueOut(value: Value)

  datatype RuntimeErrorKind =
    | NotDeclared(name: string)
    | NotFound(name: string)
    | DivisionByZero
    | UnknownOperator(op: TokenType)
    | UnknownUnaryOperator(op: TokenType)
    | InvalidNumber
    | UnexpectedEndOfInput
    | OutOfFuel

  /** An interpreter error with the position of the token it is raised at
      (interpreter.py:5-12). */
  datatype RuntimeError = RuntimeError(kind: RuntimeErrorKind, line: int, column: int)

  function ErrorAt(kind: RuntimeErrorKind, t: Token): RuntimeError {
    RuntimeError(kind, t.line, t.column)
  }

  // ---------------------------------------------------------------------
  // The call stack (innermost frame last)
  // ---------------------------------------------------------------------

  /** The index of the innermost frame that binds `name`: frames are
      searched from the top of the stack down (interpreter.py:47, 59). */
  function Innermost(stack: seq<Frame>, name: string): (r: Option<nat>)
    ensures r.Some? ==> r.value < |stack| && name in stack[r.value] &&
                        forall j :: r.value < j < |stack| ==> name !in stack[j]
    ensures r.None? <==> forall j :: 0 <= j < |stack| ==> name !in stack[j]
  {
    if |stack| == 0 then None
    else if name in stack[|stack| - 1] then Some(|stack| - 1)
    else Innermost(stack[..|stack| - 1], name)
  }

  /** Reading a variable (interpreter.py:56-64). */
  function Lookup(stack: seq<Frame>, name: string): Option<Value> {
    match Innermost(stack, name)
    case None => None
    case Some(i) => Some(stack[i][name])
  }

  /** The stack after writing `v` to the innermost binding of `name`, or
      None when no frame binds it (interpreter.py:47-54, 146-152). */
  function Assigned(stack: seq<Frame>, name: string, v: Value): Option<seq<Frame>> {
    match Innermost(stack, name)
    case None => None
    case Some(i) => Some(stack[i := stack[i][name := v]])
  }

  // ---------------------------------------------------------------------
  // Expressions
  // ---------------------------------------------------------------------

  /** The value of a number literal. The lexer gives INT_CONST an integer
      and FLOAT_CONST a float value; no other token becomes a Num. */
  function NumberValue(v: TokenValue): Value {
    match v
    case IntValue(i) => IntV(i)
    case FloatValue(r) => FloatV(r)
    case _ => IntV(0)
  }

  /** 1 for true and 0 for false, as comparisons and logic return. */
  function Flag(b: bool): Value {
    IntV(if b then 1 else 0)
  }

  /** `+`, `-` and `*`: integer when both operands are integers, float
      otherwise (Python's numeric promotion). */
  function Arithmetic(op: TokenType, a: Value, b: Value): Value
    requires op == PLUS || op == MINUS || op == MULTIPLY
  {
    if a.IntV? && b.IntV? then
      IntV(if op == PLUS then a.i + b.i else if op == MINUS then a.i - b.i else a.i * b.i)
    else
      var x, y := AsReal(a), AsReal(b);
      FloatV(if op == PLUS then x + y else if op == MINUS then x - y else x * y)
  }

  /** A binary operator applied to its two already evaluated operands
      (interpreter.py:73-100). `/` is true division and always gives a
      float; MOD has no case and is an unknown operator. */
  function ApplyBinary(op: Token, a: Value, b: Value): Result<Value, RuntimeError> {
    match op.kind
    case PLUS => Success(Arithmetic(PLUS, a, b))
    case MINUS => Success(Arithmetic(MINUS, a, b))
    case MULTIPLY => Success(Arithmetic(MULTIPLY, a, b))
    case DIVIDE =>
      if AsReal(b) == 0.0 then Failure(ErrorAt(DivisionByZero, op))
      else Success(FloatV(AsReal(a) / AsReal(b)))
    case EQUAL => Success(Flag(AsReal(a) == AsReal(b)))
    case NOT_EQUAL => Success(Flag(AsReal(a) != AsReal(b)))
    case LESS => Success(Flag(AsReal(a) < AsReal(b)))
    case LESS_EQUAL => Success(Flag(AsReal(a) <= AsReal(b)))
    case GREATER => Success(Flag(AsReal(a) > AsReal(b)))
    case GREATER_EQUAL => Success(Flag(AsReal(a) >= AsReal(b)))
    case AND => Success(Flag(IsTrue(a) && IsTrue(b)))
    case OR => Success(Flag(IsTrue(a) || IsTrue(b)))
    case _ => Failure(ErrorAt(UnknownOperator(op.kind), op))
  }

  function Negate(v: Value): Value {
    match v
    case IntV(i) => IntV(-i)
    case FloatV(r) => FloatV(-r)
  }

  /** Evaluating an expression against the call stack
      (interpreter.py:56-64, 69-114). Both operands of a binary operator are
      evaluated, left first, before the operator is looked at; an index
      expression on a variable is ignored. */
  function Eval(e: Expr, stack: seq<Frame>): Result<Value, RuntimeError> {
    match e
    case VarRef(v) =>
      (match Lookup(stack, v.name)
       case None => Failure(ErrorAt(NotFound(v.name), v.token))
       case Some(x) => Success(x))
    case Num(_, value, _) => Success(NumberValue(value))
    case BinOp(l, op, r, _) =>
      var a :- Eval(l, stack);
      var b :- Eval(r, stack);
      ApplyBinary(op, a, b)
    case UnaryOp(op, x, _) =>
      if op.kind == PLUS then Eval(x, stack)
      else if op.kind == MINUS then
        var a :- Eval(x, stack);
        Success(Negate(a))
      else if op.kind == NOT then
        var a :- Eval(x, stack);
        Success(Flag(!IsTrue(a)))
      else Failure(ErrorAt(UnknownUnaryOperator(op.kind), op))
  }

  // ---------------------------------------------------------------------
  // Statements
  // ---------------------------------------------------------------------

  /** The interpreter's state: the call stack, everything printed so far,
      the console lines still to be read (each already converted: None is a
      line that is neither an int nor a float) and the number of WHILE
      iterations still allowed. */
  datatype State = State(stack: seq<Frame>, output: seq<OutputItem>, input: seq<Option<Value>>, fuel: nat)

  /** A run stopped by an error, with the state reached when it was raised:
      output printed before the error is kept. */
  datatype Halt = Halt(error: RuntimeError, state: State)

  /** How VarDecl runs: as written it does nothing (interpreter.py:31-33);
      DefaultSlots is the corrected behaviour, which binds the name to a
      zero of its type in the innermost frame. */
  datatype Mode = AsWritten | DefaultSlots

  /** The state a run ends in, whether it finished or halted. */
  function Final(r: Result<State, Halt>): State {
    match r
    case Success(st) => st
    case Failure(h) => h.state
  }

  function Lift<T>(r: Result<T, RuntimeError>, st: State): Result<T, Halt> {
    match r
    case Success(v) => Success(v)
    case Failure(e) => Failure(Halt(e, st))
  }

  /** The prompt `input` prints before reading (interpreter.py:133). */
  function Prompt(name: string): string {
    "Enter value for " + name + ": "
  }

  /** Executing a statement (interpreter.py:39-54, 66-67, 119-161). A WHILE
      iteration costs one unit of fuel; with none left the run halts with
      OutOfFuel, so `Exec` is total. */
  function Exec(s: Stmt, st: State): (r: Result<State, Halt>)
    decreases st.fuel, s, 1, 0
    ensures Final(r).fuel <= st.fuel
  {
    match s
    case Compound(_, _) => ExecFrom(s, 0, st)
    case Assign(l, _, e) =>
      var v :- Lift(Eval(e, st.stack), st);
      (match Assigned(st.stack, l.name, v)
       case None => Failure(Halt(ErrorAt(NotDeclared(l.name), l.token), st))
       case Some(stack) => Success(st.(stack := stack)))
    case NoOp => Success(st)
    case If(_, c, tb, fb) =>
      var v :- Lift(Eval(c, st.stack), st);
      if IsTrue(v) then Exec(tb, st)
      else if fb.Some? then Exec(fb.value, st)
      else Success(st)
    case While(t, c, b) =>
      var v :- Lift(Eval(c, st.stack), st);
      if !IsTrue(v) then Success(st)
      else if st.fuel == 0 then Failure(Halt(ErrorAt(OutOfFuel, t), st))
      else
        var st1 :- Exec(b, st.(fuel := st.fuel - 1));
        Exec(s, st1)
    case Read(t, x) =>
      var prompted := st.(output := st.output + [TextOut(Prompt(x.name))]);
      if |st.input| == 0 then Failure(Halt(ErrorAt(UnexpectedEndOfInput, t), prompted))
      else
        var st1 := prompted.(input := st.input[1..]);
        (match st.input[0]
         case None => Failure(Halt(ErrorAt(InvalidNumber, t), st1))
         case Some(v) =>
           (match Assigned(st1.stack, x.name, v)
            case None => Failure(Halt(ErrorAt(NotDeclared(x.name), t), st1))
            case Some(stack) => Success(st1.(stack := stack))))
    case Write(_, a) =>
      (match a
       case StringArg(_, text) => Success(st.(output := st.output + [TextOut(text)]))
       case ExprArg(e) =>
         var v :- Lift(Eval(e, st.stack), st);
         Success(st.(output := st.output + [ValueOut(v)])))
  }

  /** A WHILE whose condition holds and that has fuel left runs its body
      on one unit less and then starts over from the state the body left. */
  lemma WhileRepeats(s: Stmt, st: State)
    requires s.While? && st.fuel > 0
    requires Eval(s.condition, st.stack).Success? && IsTrue(Eval(s.condition, st.stack).value)
    ensures Exec(s, st) == match Exec(s.body, st.(fuel := st.fuel - 1))
                           case Failure(h) => Failure(h)
                           case Success(st1) => Exec(s, st1)
  {
  }

  /** The children of a compound statement from the i-th on, in order,
      stopping at the first error (interpreter.py:39-41). */
  function ExecFrom(s: Stmt, i: nat, st: State): (r: Result<State, Halt>)
    requires s.Compound? && i <= |s.children|
    decreases st.fuel, s, 0, |s.children| - i
    ensures Final(r).fuel <= st.fuel
  {
    if i == |s.children| then Success(st)
    else
      var st1 :- Exec(s.children[i], st);
      ExecFrom(s, i + 1, st1)
  }

  /** The zero a declaration's slot starts with under DefaultSlots. */
  function ZeroOf(ty: Option<Type>): Value {
    if ty == Some(Type.FLOAT) then FloatV(0.0) else IntV(0)
  }

  /** Running one declaration (interpreter.py:31-33): as written the stack
      is unchanged; under DefaultSlots a name not yet bound in the innermost
      frame gets the zero of its type there. */
  function Declared(d: VarDecl, stack: seq<Frame>, mode: Mode): seq<Frame> {
    if mode == AsWritten || |stack| == 0 || d.varNode.name in stack[|stack| - 1] then stack
    else stack[|stack| - 1 := stack[|stack| - 1][d.varNode.name := ZeroOf(d.ty)]]
  }

  /** Running the declarations in order. */
  function DeclaredAll(ds: seq<VarDecl>, stack: seq<Frame>, mode: Mode): seq<Frame> {
    if |ds| == 0 then stack
    else Declared(ds[|ds| - 1], DeclaredAll(ds[..|ds| - 1], stack, mode), mode)
  }

  /** A block: its declarations, then its compound statement
      (interpreter.py:26-29). */
  function ExecBlock(b: Block, st: State, mode: Mode): Result<State, Halt> {
    Exec(b.compound, st.(stack := DeclaredAll(b.declarations, st.stack, mode)))
  }

  /** The state a run starts in: the call stack holds exactly the global
      frame, which is empty (interpreter.py:15-18). */
  function InitialState(input: seq<Option<Value>>, fuel: nat): State {
    State([map[]], [], input, fuel)
  }

  /** A whole run from the initial state (interpreter.py:23-24, 163-166);
      the global memory the source returns is the first frame of the final
      stack. */
  function Run(p: Program, input: seq<Option<Value>>, fuel: nat, mode: Mode): Result<State, Halt> {
    ExecBlock(p.block, InitialState(input, fuel), mode)
  }

  /** The run result of a method that ended in state `st`. */
  function Finish(o: Outcome<RuntimeError>, st: State): Result<State, Halt> {
    match o
    case Pass => Success(st)
    case Fail(e) => Failure(Halt(e, st))
  }

  // ---------------------------------------------------------------------
  // The interpreter object
  // ---------------------------------------------------------------------

  class Interpreter {
    var callStack: seq<Frame>
    var output: seq<OutputItem>
    var input: seq<Option<Value>>
    var fuel: nat
    const mode: Mode

    function Snapshot(): State
      reads this
    {
      State(callStack, output, input, fuel)
    }

    /** A fresh interpreter: one empty global frame (interpreter.py:15-18). */
    constructor (input: seq<Option<Value>>, fuel: nat, mode: Mode)
      ensures Snapshot() == InitialState(input, fuel) && this.mode == mode
    {
      callStack := [map[]];
      output := [];
      this.input := input;
      this.fuel := fuel;
      this.mode := mode;
    }

    /** Overwrites the innermost binding of `name`, searching the frames
      from the top of the stack down; `found` is false when no frame binds
      it (interpreter.py:47-50, 146-149). */
    method Store(name: string, value: Value) returns (found: bool)
      modifies this
      ensures Assigned(old(callStack), name, value) == (if found then Some(callStack) else None)
      ensures !found ==> callStack == old(callStack)
      ensures output == old(output) && input == old(input) && fuel == old(fuel)
    {
      var i := |callStack|;
      while i > 0
        invariant 0 <= i <= |callStack| && callStack == old(callStack)
        invariant forall j :: i <= j < |callStack| ==> name !in callStack[j]
      {
        i := i - 1;
        if name in callStack[i] {
          callStack := callStack[i := callStack[i][name := value]];
          return true;
        }
      }
      return false;
    }

    /** Dispatch on the statement kind (the `visit` of ast.py:127-130). */
    method Visit(s: Stmt) returns (o: Outcome<RuntimeError>)
      modifies this
      decreases fuel, s, 1
      ensures Finish(o, Snapshot()) == Exec(s, old(Snapshot()))
      ensures fuel <= old(fuel)
    {
      match s
      case Compound(_, _) => o := VisitCompound(s);
      case Assign(_, _, _) => o := VisitAssign(s);
      case NoOp => o := Pass;
      case If(_, _, _, _) => o := VisitIf(s);
      case While(_, _, _) => o := VisitWhile(s);
      case Read(_, _) => o := VisitRead(s);
      case Write(_, _) => o := VisitWrite(s);
    }

    /** interpreter.py:39-41 */
    method VisitCompound(s: Stmt) returns (o: Outcome<RuntimeError>)
      requires s.Compound?
      modifies this
      decreases fuel, s, 0
      ensures Finish(o, Snapshot()) == Exec(s, old(Snapshot()))
      ensures fuel <= old(fuel)
    {
      var i := 0;
      while i < |s.children|
        invariant i <= |s.children| && fuel <= old(fuel)
        invariant ExecFrom(s, i, Snapshot()) == Exec(s, old(Snapshot()))
      {
        o := Visit(s.children[i]);
        if o.Fail? {
          return;
        }
        i := i + 1;
      }
      o := Pass;
    }

    /** interpreter.py:43-54: the value first, then the frame search. */
    method VisitAssign(s: Stmt) returns (o: Outcome<RuntimeError>)
      requires s.Assign?
      modifies this
      ensures Finish(o, Snapshot()) == Exec(s, old(Snapshot()))
      ensures fuel == old(fuel)
    {
      var v := Eval(s.right, callStack);
      if v.Failure? {
        return Fail(v.error);
      }
      var found := Store(s.left.name, v.value);
      if !found {
        return Fail(ErrorAt(NotDeclared(s.left.name), s.left.token));
      }
      o := Pass;
    }

    /** interpreter.py:119-124 */
    method VisitIf(s: Stmt) returns (o: Outcome<RuntimeError>)
      requires s.If?
      modifies this
      decreases fuel, s, 0
      ensures Finish(o, Snapshot()) == Exec(s, old(Snapshot()))
      ensures fuel <= old(fuel)
    {
      var c := Eval(s.condition, callStack);
      if c.Failure? {
        return Fail(c.error);
      }
      if IsTrue(c.value) {
        o := Visit(s.trueBranch);
      } else if s.falseBranch.Some? {
        o := Visit(s.falseBranch.value);
      } else {
        o := Pass;
      }
    }

    /** interpreter.py:126-128, with one unit of fuel per iteration. */
    method VisitWhile(s: Stmt) returns (o: Outcome<RuntimeError>)
      requires s.While?
      modifies this
      decreases fuel, s, 0
      ensures Finish(o, Snapshot()) == Exec(s, old(Snapshot()))
      ensures fuel <= old(fuel)
    {
      while true
        invariant fuel <= old(fuel)
        invariant Exec(s, Snapshot()) == Exec(s, old(Snapshot()))
        decreases fuel
      {
        ghost var before := Snapshot();
        var c := Eval(s.condition, callStack);
        if c.Failure? {
          return Fail(c.error);
        }
        if !IsTrue(c.value) {
          return Pass;
        }
        if fuel == 0 {
          return Fail(ErrorAt(OutOfFuel, s.token));
        }
        WhileRepeats(s, before);
        fuel := fuel - 1;
        o := Visit(s.body);
        if o.Fail? {
          return;
        }
      }
    }

    /** interpreter.py:130-154: prompt, take one line, then the frame
      search. */
    method VisitRead(s: Stmt) returns (o: Outcome<RuntimeError>)
      requires s.Read?
      modifies this
      ensures Finish(o, Snapshot()) == Exec(s, old(Snapshot()))
      ensures fuel == old(fuel)
    {
      output := output + [TextOut(Prompt(s.target.name))];
      if |input| == 0 {
        return Fail(ErrorAt(UnexpectedEndOfInput, s.token));
      }
      var line := input[0];
      input := input[1..];
      if line.None? {
        return Fail(ErrorAt(InvalidNumber, s.token));
      }
      var found := Store(s.target.name, line.value);
      if !found {
        return Fail(ErrorAt(NotDeclared(s.target.name), s.token));
      }
      o := Pass;
    }

    /** interpreter.py:156-161 */
    method VisitWrite(s: Stmt) returns (o: Outcome<RuntimeError>)
      requires s.Write?
      modifies this
      ensures Finish(o, Snapshot()) == Exec(s, old(Snapshot()))
      ensures fuel == old(fuel)
    {
      match s.arg
      case StringArg(_, text) =>
        output := output + [TextOut(text)];
        o := Pass;
      case ExprArg(e) =>
        var v := Eval(e, callStack);
        if v.Failure? {
          return Fail(v.error);
        }
        output := output + [ValueOut(v.value)];
        o := Pass;
    }

    /** interpreter.py:31-33, or a default slot under DefaultSlots. */
    method VisitVarDecl(d: VarDecl)
      modifies this
      ensures callStack == Declared(d, old(callStack), mode)
      ensures output == old(output) && input == old(input) && fuel == old(fuel)
    {
      if mode == DefaultSlots && |callStack| > 0 {
        var top := |callStack| - 1;
        if d.varNode.name !in callStack[top] {
          callStack := callStack[top := callStack[top][d.varNode.name := ZeroOf(d.ty)]];
        }
      }
    }

    /** interpreter.py:26-29 */
    method VisitBlock(b: Block) returns (o: Outcome<RuntimeError>)
      modifies this
      ensures Finish(o, Snapshot()) == ExecBlock(b, old(Snapshot()), mode)
    {
      var ds := b.declarations;
      for i := 0 to |ds|
        invariant callStack == DeclaredAll(ds[..i], old(callStack), mode)
        invariant output == old(output) && input == old(input) && fuel == old(fuel)
      {
        VisitVarDecl(ds[i]);
        assert ds[..i + 1][..i] == ds[..i];
      }
      assert ds[..|ds|] == ds;
      o := Visit(b.compound);
    }

    /** interpreter.py:23-24 */
    method VisitProgram(p: Program) returns (o: Outcome<RuntimeError>)
      modifies this
      ensures Finish(o, Snapshot()) == ExecBlock(p.block, old(Snapshot()), mode)
    {
      o := VisitBlock(p.block);
    }
  }

  /** Runs a program on a fresh interpreter (interpreter.py:163-166). */
  method Interpret(p: Program, input: seq<Option<Value>>, fuel: nat, mode: Mode) returns (r: Result<State, Halt>)
    ensures r == Run(p, input, fuel, mode)
  {
    var interpreter := new Interpreter(input, fuel, mode);
    var o := interpreter.VisitProgram(p);
    r := Finish(o, interpreter.Snapshot());
  }
}
