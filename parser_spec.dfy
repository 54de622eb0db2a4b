/** What `SetParser.parse` (conjuntos/parser/parser.py) computes, as functions
    over the machine state: a token stack and an operand stack (both with the
    top at the end of the sequence) and the variable table. The class in
    parser.dfy is proved to compute exactly this. */
module ParserSpec {
  import opened Failures
  import opened Values
  import opened Tokenizer
  import opened Evaluator

  /** `ParseState`: whether an operand or an operator is expected next. The
      third state of the source is never entered. */
  datatype State = OperandState | OperatorState

  /** `ParseResult`: kind NONE, VALUE with the value, or EXIT. */
  datatype ParseResult = NoneResult | ValueResult(value: Value) | ExitResult

  /** The functions a parser can call by name; the shell installs `power_set` as "P". */
  datatype Builtin = PowerSetFn

  function Call(f: Builtin, args: seq<Value>): Result<Value> {
    match f
    case PowerSetFn => PowerSetSpec(args)
  }

  datatype Machine = Machine(stack: seq<Token>, operands: seq<Value>, vars: map<string, Value>)

  /** A stage of the parse either goes on with a machine or stops with a
      failure; the variables are kept on failure, because a DEFINE that was
      already reduced stays committed. */
  datatype Outcome = Continue(m: Machine) | Halt(failure: Failure, vars: map<string, Value>)

  /** One token processed: go on in a state, stop after END, or fail. */
  datatype StepResult =
    | Next(state: State, next: Machine)
    | Finished(last: Machine)
    | Halted(reason: Failure, finalVars: map<string, Value>)

  /** What `parse` returns, with the variable table it leaves. */
  datatype Final = Final(result: Result<ParseResult>, vars: map<string, Value>)

  function Top<T>(s: seq<T>): T
    requires s != []
  {
    s[|s| - 1]
  }

  function Pop<T>(s: seq<T>): (r: seq<T>)
    requires s != []
    ensures |r| == |s| - 1
  {
    s[..|s| - 1]
  }

  function PushToken(m: Machine, t: Token): Machine {
    m.(stack := m.stack + [t])
  }

  /** A VAR resolves to its value, or to its own name when it is not defined. */
  function Resolve(name: string, vars: map<string, Value>): (v: Value)
    ensures name !in vars ==> v == Text(name)
    ensures name in vars ==> v == vars[name]
  {
    if name in vars then vars[name] else Text(name)
  }

  /** COMPLEMENT of a target: it must be a set and "S" must be defined; the
      result is DIFFERENCE of "S" and the target. */
  function ApplyComplement(target: Value, vars: map<string, Value>): Result<Value> {
    if !target.SetV? then Fail(ParseError(ComplementExpectsSet))
    else if "S" !in vars then Fail(ParseError(UniversalSetUndefined))
    else Evaluate(Difference, vars["S"], target)
  }

  /** One pass of a stack loop: it either leaves the loop with an outcome, or
      goes round again with a machine and the loop's accumulator (nothing,
      the argument count, the set being built). */
  datatype Move<A> = Done(outcome: Outcome) | More(next: Machine, acc: A)

  /** A binary operator popped from the stack: the right operand is popped,
      then the left one, and the result of `evaluate` is pushed. */
  function ApplyBinary(op: Kind, operands: seq<Value>): (r: Result<seq<Value>>)
    ensures |operands| < 2 ==> r == Fail(PyError(IndexError))
    ensures r.Ok? ==> |r.value| == |operands| - 1
  {
    if |operands| < 2 then Fail(PyError(IndexError))
    else
      var n := |operands|;
      match Evaluate(op, operands[n - 2], operands[n - 1])
      case Fail(f) => Fail(f)
      case Ok(v) => Ok(operands[..n - 2] + [v])
  }

  /** COMPLEMENT popped from the stack: the target operand is popped and its
      complement pushed. */
  function ApplyUnary(operands: seq<Value>, vars: map<string, Value>): (r: Result<seq<Value>>)
    ensures operands == [] ==> r == Fail(PyError(IndexError))
    ensures r.Ok? ==> |r.value| == |operands|
  {
    if operands == [] then Fail(PyError(IndexError))
    else
      match ApplyComplement(Top(operands), vars)
      case Fail(f) => Fail(f)
      case Ok(v) => Ok(Pop(operands) + [v])
  }

  /** Goes round again with the new operands, or stops with the failure. */
  function Resume<A>(r: Result<seq<Value>>, stack: seq<Token>, vars: map<string, Value>, acc: A): (mv: Move<A>)
    ensures mv.More? ==> mv.next.stack == stack
  {
    match r
    case Fail(f) => Done(Halt(f, vars))
    case Ok(ops) => More(Machine(stack, ops, vars), acc)
  }

  /** DEFINE popped from the stack: the item beneath must be a VAR; the top
      operand is popped and stored under its name. */
  function DefineStep(below: seq<Token>, m: Machine): (r: Move<()>)
    ensures r.More? ==> |r.next.stack| < |below|
  {
    if below == [] then Done(Halt(PyError(IndexError), m.vars))
    else if Top(below).kind != Var then Done(Halt(ParseError(ExpectedVariableName), m.vars))
    else if m.operands == [] then Done(Halt(PyError(IndexError), m.vars))
    else More(Machine(Pop(below), Pop(m.operands), m.vars[Top(below).text := Top(m.operands)]), ())
  }

  /** A VAR on top of the stack during reduction: it stays when `t` is DEFINE;
      otherwise it is resolved, and a defined one ends the loop unless `t` is END. */
  function VarStep(t: Token, name: string, below: seq<Token>, m: Machine): (r: Move<()>)
    ensures r.More? ==> r.next.stack == below
  {
    if t.kind == Define then Done(Continue(m))
    else
      var m1 := Machine(below, m.operands + [Resolve(name, m.vars)], m.vars);
      if name in m.vars && t.kind != End then Done(Continue(m1)) else More(m1, ())
  }

  /** One pass of the reduction loop run when the operator `t` arrives: OPEN
      or a top item that binds less than `t` ends it. A top item no branch
      handles (SEP, SET_OPEN) leaves the state as it is, so the source's loop
      repeats forever: `Diverges`. */
  function ReduceStep(t: Token, m: Machine): (r: Move<()>)
    requires m.stack != []
    ensures r.More? ==> |r.next.stack| < |m.stack|
  {
    var temp := Top(m.stack);
    var below := Pop(m.stack);
    if temp.kind == Open || Priority(temp.kind) < Priority(t.kind) then Done(Continue(m))
    else if temp.kind == Var then VarStep(t, temp.text, below, m)
    else if temp.kind == Define then DefineStep(below, m)
    else if temp.kind in UnaryOperators then Resume(ApplyUnary(m.operands, m.vars), below, m.vars, ())
    else if temp.kind in Operators then Resume(ApplyBinary(temp.kind, m.operands), below, m.vars, ())
    else Done(Halt(Diverges, m.vars))
  }

  /** The reduction loop: passes until the loop is left or the stack is empty. */
  function Reduce(t: Token, m: Machine): Outcome
    decreases |m.stack|
  {
    if m.stack == [] then Continue(m)
    else
      match ReduceStep(t, m)
      case Done(o) => o
      case More(m1, _) => Reduce(t, m1)
  }

  /** The arguments of a call: the top operand when no argument was counted,
      otherwise the top `count` operands in their original order. */
  function CallArguments(operands: seq<Value>, count: nat): Option<(seq<Value>, seq<Value>)> {
    if count == 0 && operands != [] then Some(([Top(operands)], Pop(operands)))
    else if |operands| < count then None
    else Some((operands[|operands| - count..], operands[..|operands| - count]))
  }

  /** OPEN reached by the loop run at CLOSE, with `below` beneath it: a VAR
      beneath names the function to call with the arguments; an operator
      beneath stays and ends the loop; a SEP beneath is dropped. */
  function OpenStep(below: seq<Token>, m: Machine, functions: map<string, Builtin>, count: nat): (r: Move<nat>)
    ensures r.More? ==> |r.next.stack| < |below|
  {
    if below == [] then Done(Continue(m.(stack := below)))
    else
      var sv := Top(below);
      if sv.kind == Var then
        match CallArguments(m.operands, count)
        case None => Done(Halt(PyError(IndexError), m.vars))
        case Some(split) =>
          if sv.text !in functions then Done(Halt(PyError(KeyError), m.vars))
          else
            match Call(functions[sv.text], split.0)
            case Fail(f) => Done(Halt(f, m.vars))
            case Ok(v) => More(Machine(Pop(below), split.1 + [v], m.vars), count)
      else if sv.kind in Operators then Done(Continue(m.(stack := below)))
      else if sv.kind == Sep then More(m.(stack := Pop(below)), count)
      else Done(Halt(ParseError(ExpectedFunction), m.vars))
  }

  /** One pass of the loop run at CLOSE: it pops one item, resolving a
      variable or applying an operator on the way. `count` counts the
      variables and binary results met, which become a call's arguments. */
  function CloseGroupStep(m: Machine, functions: map<string, Builtin>, count: nat): (r: Move<nat>)
    requires m.stack != []
    ensures r.More? ==> |r.next.stack| < |m.stack|
  {
    var arg := Top(m.stack);
    var below := Pop(m.stack);
    if arg.kind == Open then OpenStep(below, m, functions, count)
    else if arg.kind == Var then
      More(Machine(below, m.operands + [Resolve(arg.text, m.vars)], m.vars), count + 1)
    else if arg.kind in UnaryOperators then Resume(ApplyUnary(m.operands, m.vars), below, m.vars, count)
    else if arg.kind in Operators then Resume(ApplyBinary(arg.kind, m.operands), below, m.vars, count + 1)
    else More(m.(stack := below), count)
  }

  /** The loop run at CLOSE in operator position, back to the matching OPEN. */
  function CloseGroup(m: Machine, functions: map<string, Builtin>, count: nat): Outcome
    decreases |m.stack|
  {
    if m.stack == [] then Continue(m)
    else
      match CloseGroupStep(m, functions, count)
      case Done(o) => o
      case More(m1, c) => CloseGroup(m1, functions, c)
  }

  /** One pass of the loop run at SET_CLOSE in operator position: a SEP moves
      the top operand into the set being built; SET_OPEN ends the loop and
      pushes the set. */
  function CloseSetStep(m: Machine, group: set<Value>): (r: Move<set<Value>>)
    requires m.stack != []
    ensures r.More? ==> |r.next.stack| < |m.stack|
  {
    var st := Top(m.stack);
    var below := Pop(m.stack);
    if st.kind == SetOpen then Done(Continue(Machine(below, m.operands + [SetV(group)], m.vars)))
    else if st.kind == Var then More(Machine(below, m.operands + [Resolve(st.text, m.vars)], m.vars), group)
    else if st.kind == Sep then
      if m.operands == [] then Done(Halt(PyError(IndexError), m.vars))
      else More(Machine(below, Pop(m.operands), m.vars), group + {Top(m.operands)})
    else More(m.(stack := below), group)
  }

  /** The loop run at SET_CLOSE in operator position. */
  function CloseSet(m: Machine, group: set<Value>): Outcome
    decreases |m.stack|
  {
    if m.stack == [] then Continue(m.(operands := m.operands + [SetV(group)]))
    else
      match CloseSetStep(m, group)
      case Done(o) => o
      case More(m1, g) => CloseSet(m1, g)
  }

  /** The variable table an outcome leaves. */
  function VarsOf(o: Outcome): map<string, Value> {
    match o
    case Continue(m) => m.vars
    case Halt(_, vars) => vars
  }

  /** The variable table after one pass of a stack loop. */
  function VarsAfter<A>(mv: Move<A>): map<string, Value> {
    match mv
    case Done(o) => VarsOf(o)
    case More(m, _) => m.vars
  }

  /** The variable table after one token. */
  function VarsAfterStep(r: StepResult): map<string, Value> {
    match r
    case Next(_, m) => m.vars
    case Finished(m) => m.vars
    case Halted(_, vars) => vars
  }

  /** A token in operand position. */
  function OperandStep(t: Token, m: Machine): StepResult {
    match t.kind
    case Number => Next(OperatorState, m.(operands := m.operands + [Num(t.value)]))
    case Var => Next(OperatorState, PushToken(m, t))
    case Open => Next(OperandState, PushToken(m, t))
    case SetOpen => Next(OperandState, m.(stack := m.stack + [t, Token(Sep, 0.0, ",")]))
    case SetClose =>
      if |m.stack| < 2 then Halted(PyError(IndexError), m.vars)
      else if m.stack[|m.stack| - 2].kind != SetOpen then Halted(ParseError(MissingElement), m.vars)
      else Next(OperatorState, Machine(m.stack[..|m.stack| - 2], m.operands + [SetV({})], m.vars))
    case _ => Halted(ParseError(UnexpectedToken), m.vars)
  }

  function FromOutcome(o: Outcome, state: State): StepResult {
    match o
    case Halt(f, vars) => Halted(f, vars)
    case Continue(m) => Next(state, m)
  }

  /** After the reduction loop for operator `t`: `t` is pushed; a unary
      operator keeps the operator state, END finishes the token loop, any
      other operator expects an operand next. */
  function AfterReduce(t: Token, o: Outcome): StepResult {
    match o
    case Halt(f, vars) => Halted(f, vars)
    case Continue(m1) =>
      var m2 := PushToken(m1, t);
      if t.kind in UnaryOperators then Next(OperatorState, m2)
      else if t.kind == End then Finished(m2)
      else Next(OperandState, m2)
  }

  /** A token in operator position. */
  function OperatorStep(t: Token, m: Machine, functions: map<string, Builtin>): StepResult {
    if t.kind in Operators then AfterReduce(t, Reduce(t, m))
    else if t.kind == Sep || t.kind == Open then Next(OperandState, PushToken(m, t))
    else if t.kind == Close then FromOutcome(CloseGroup(m, functions, 0), OperatorState)
    else if t.kind == SetClose then FromOutcome(CloseSet(m, {}), OperatorState)
    else Halted(ParseError(UndefinedBehavior), m.vars)
  }

  function Step(state: State, t: Token, m: Machine, functions: map<string, Builtin>): StepResult {
    match state
    case OperandState => OperandStep(t, m)
    case OperatorState => OperatorStep(t, m, functions)
  }

  /** After the token loop: the top of the stack must be END; the result is
      the top operand, or NONE when there is none. */
  function Finish(m: Machine): Final {
    if m.stack == [] then Final(Fail(PyError(IndexError)), m.vars)
    else if Top(m.stack).kind != End then Final(Fail(PyError(AssertionError)), m.vars)
    else if m.operands != [] then Final(Ok(ValueResult(Top(m.operands))), m.vars)
    else Final(Ok(NoneResult), m.vars)
  }

  /** The token loop, from the given state and machine. */
  function Run(tokens: seq<Token>, state: State, m: Machine, functions: map<string, Builtin>): Final
    decreases |tokens|
  {
    if tokens == [] then Finish(m)
    else
      match Step(state, tokens[0], m, functions)
      case Halted(f, vars) => Final(Fail(f), vars)
      case Finished(m1) => Finish(m1)
      case Next(st, m1) => Run(tokens[1..], st, m1, functions)
  }

  function LowerChar(c: char): char {
    if 'A' <= c <= 'Z' then (c as int + 32) as char else c
  }

  /** `str.lower` on ASCII letters. */
  function Lower(s: string): (r: string)
    ensures |r| == |s| && forall k :: 0 <= k < |s| ==> r[k] == LowerChar(s[k])
  {
    if s == [] then [] else [LowerChar(s[0])] + Lower(s[1..])
  }

  const ExitWords: set<string> := {"sair", "quit", "exit"}

  /** `parse(expression)` with the given symbol table, variables and
      functions: the result and the variable table afterwards. */
  function ParseSpec(table: map<string, Kind>, vars: map<string, Value>, functions: map<string, Builtin>, expression: string): Final {
    var stripped := Strip(expression);
    if Lower(stripped) in ExitWords then Final(Ok(ExitResult), vars)
    else if stripped == [] then Final(Ok(NoneResult), vars)
    else Run(TokenizeSpec(table, stripped), OperandState, Machine([], [], vars), functions)
  }
}
