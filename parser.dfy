/** `SetParser` (conjuntos/parser/parser.py): the single-pass, two-stack
    evaluator. The variable table is a field that `Parse` updates in place;
    the token stack and the operand stack are the method's locals, with the
    top at the end of the sequence. Each loop of the source is a loop here,
    proved to compute what the functions of `ParserSpec` define. */
module Parser {
  import opened Failures
  import opened Values
  import opened Tokenizer
  import opened Evaluator
  import opened ParserSpec
  import opened ParserFacts

  /** A binary operator taken off the stack: pop the right operand, pop the
      left one, push what `evaluate` gives. */
  method PopAndEvaluate(op: Kind, operands: seq<Value>) returns (r: Result<seq<Value>>)
    ensures r == ApplyBinary(op, operands)
  {
    var ops := operands;
    if ops == [] {
      return Fail(PyError(IndexError));
    }
    var right := ops[|ops| - 1];
    ops := ops[..|ops| - 1];
    if ops == [] {
      return Fail(PyError(IndexError));
    }
    var left := ops[|ops| - 1];
    ops := ops[..|ops| - 1];
    var v := Evaluate(op, left, right);
    if v.Fail? {
      return Fail(v.failure);
    }
    assert ops == operands[..|operands| - 2];
    return Ok(ops + [v.value]);
  }

  class SetParser {
    const tokenizer: SetTokenizer
    var variables: map<string, Value>
    const functions: map<string, Builtin>

    constructor (tokenizer: SetTokenizer, variables: map<string, Value>, functions: map<string, Builtin>)
      ensures this.tokenizer == tokenizer && this.variables == variables && this.functions == functions
    {
      this.tokenizer := tokenizer;
      this.variables := variables;
      this.functions := functions;
    }

    /** COMPLEMENT taken off the stack: pop the target; it must be a set and
        "S" must be defined; push DIFFERENCE of "S" and the target. */
    method PopAndComplement(operands: seq<Value>) returns (r: Result<seq<Value>>)
      ensures r == ApplyUnary(operands, variables)
    {
      if operands == [] {
        return Fail(PyError(IndexError));
      }
      var target := operands[|operands| - 1];
      var ops := operands[..|operands| - 1];
      if !target.SetV? {
        return Fail(ParseError(ComplementExpectsSet));
      }
      if "S" !in variables {
        return Fail(ParseError(UniversalSetUndefined));
      }
      var v := Evaluate(Difference, variables["S"], target);
      if v.Fail? {
        return Fail(v.failure);
      }
      return Ok(ops + [v.value]);
    }

    /** DEFINE taken off the stack, with `below` beneath it: the next item must
        be a VAR; the top operand is popped and stored under its name. */
    method Assign(below: seq<Token>, operands: seq<Value>) returns (mv: Move<()>)
      modifies this`variables
      ensures mv == DefineStep(below, Machine([], operands, old(variables)))
      ensures variables == VarsAfter(mv)
    {
      if below == [] {
        return Done(Halt(PyError(IndexError), variables));
      }
      var name := below[|below| - 1];
      var st := below[..|below| - 1];
      if name.kind != Var {
        return Done(Halt(ParseError(ExpectedVariableName), variables));
      }
      if operands == [] {
        return Done(Halt(PyError(IndexError), variables));
      }
      var value := operands[|operands| - 1];
      variables := variables[name.text := value];
      return More(Machine(st, operands[..|operands| - 1], variables), ());
    }

    /** One pass of the reduction loop run when operator `t` arrives. */
    method ReducePass(t: Token, st: seq<Token>, ops: seq<Value>) returns (mv: Move<()>)
      requires st != []
      modifies this`variables
      ensures mv == ReduceStep(t, Machine(st, ops, old(variables)))
      ensures variables == VarsAfter(mv)
    {
      var temp := st[|st| - 1];
      var below := st[..|st| - 1];
      if temp.kind == Open || Priority(temp.kind) < Priority(t.kind) {
        return Done(Continue(Machine(st, ops, variables)));
      }
      if temp.kind == Var {
        if t.kind == Define {
          return Done(Continue(Machine(st, ops, variables)));
        }
        if temp.text !in variables {
          return More(Machine(below, ops + [Text(temp.text)], variables), ());
        }
        var m1 := Machine(below, ops + [variables[temp.text]], variables);
        if t.kind != End {
          return Done(Continue(m1));
        }
        return More(m1, ());
      } else if temp.kind == Define {
        mv := Assign(below, ops);
      } else if temp.kind in UnaryOperators {
        var r := PopAndComplement(ops);
        mv := Resume(r, below, variables, ());
      } else if temp.kind in Operators {
        var r := PopAndEvaluate(temp.kind, ops);
        mv := Resume(r, below, variables, ());
      } else {
        mv := Done(Halt(Diverges, variables));
      }
    }

    /** The reduction loop run when operator `t` arrives in operator position.
        Where the source's loop would spin forever (a top item that no branch
        handles), this method stops and reports `Diverges`. */
    method ReduceStack(t: Token, stack: seq<Token>, operands: seq<Value>) returns (res: Outcome)
      modifies this`variables
      ensures res == Reduce(t, Machine(stack, operands, old(variables)))
      ensures variables == VarsOf(res)
    {
      var st, ops := stack, operands;
      while st != []
        invariant Reduce(t, Machine(st, ops, variables)) == Reduce(t, Machine(stack, operands, old(variables)))
        decreases |st|
      {
        var mv := ReducePass(t, st, ops);
        match mv
        case Done(o) =>
          return o;
        case More(m1, _) =>
          st, ops := m1.stack, m1.operands;
      }
      return Continue(Machine(st, ops, variables));
    }

    /** OPEN reached by the loop run at CLOSE, with `below` beneath it. */
    method AtOpen(below: seq<Token>, ops: seq<Value>, argsCount: nat) returns (mv: Move<nat>)
      ensures mv == OpenStep(below, Machine([], ops, variables), functions, argsCount)
    {
      if below == [] {
        return Done(Continue(Machine(below, ops, variables)));
      }
      var shouldVar := below[|below| - 1];
      var st := below[..|below| - 1];
      if shouldVar.kind == Var {
        var args, rest := PopArguments(ops, argsCount);
        if args.None? {
          return Done(Halt(PyError(IndexError), variables));
        }
        if shouldVar.text !in functions {
          return Done(Halt(PyError(KeyError), variables));
        }
        var v;
        match functions[shouldVar.text]
        case PowerSetFn =>
          v := PowerSet(args.value);
        if v.Fail? {
          return Done(Halt(v.failure, variables));
        }
        return More(Machine(st, rest + [v.value], variables), argsCount);
      } else if shouldVar.kind in Operators {
        return Done(Continue(Machine(below, ops, variables)));
      } else if shouldVar.kind == Sep {
        return More(Machine(st, ops, variables), argsCount);
      }
      return Done(Halt(ParseError(ExpectedFunction), variables));
    }

    /** One pass of the loop run at CLOSE. */
    method GroupPass(st: seq<Token>, ops: seq<Value>, argsCount: nat) returns (mv: Move<nat>)
      requires st != []
      ensures mv == CloseGroupStep(Machine(st, ops, variables), functions, argsCount)
    {
      var argToken := st[|st| - 1];
      var below := st[..|st| - 1];
      if argToken.kind == Open {
        mv := AtOpen(below, ops, argsCount);
      } else if argToken.kind == Var {
        if argToken.text !in variables {
          mv := More(Machine(below, ops + [Text(argToken.text)], variables), argsCount + 1);
        } else {
          mv := More(Machine(below, ops + [variables[argToken.text]], variables), argsCount + 1);
        }
      } else if argToken.kind in UnaryOperators {
        var r := PopAndComplement(ops);
        mv := Resume(r, below, variables, argsCount);
      } else if argToken.kind in Operators {
        var r := PopAndEvaluate(argToken.kind, ops);
        mv := Resume(r, below, variables, argsCount + 1);
      } else {
        mv := More(Machine(below, ops, variables), argsCount);
      }
    }

    /** The loop run at CLOSE in operator position: back to the matching OPEN,
        with a function call when a VAR precedes it. */
    method PopGroup(stack: seq<Token>, operands: seq<Value>) returns (res: Outcome)
      ensures res == CloseGroup(Machine(stack, operands, variables), functions, 0)
    {
      var argsCount: nat := 0;
      var st, ops := stack, operands;
      while st != []
        invariant CloseGroup(Machine(st, ops, variables), functions, argsCount)
          == CloseGroup(Machine(stack, operands, variables), functions, 0)
        decreases |st|
      {
        var mv := GroupPass(st, ops, argsCount);
        CloseGroupUnroll(Machine(st, ops, variables), functions, argsCount, mv);
        match mv
        case Done(o) =>
          return o;
        case More(m1, c) =>
          st, ops, argsCount := m1.stack, m1.operands, c;
      }
      return Continue(Machine(st, ops, variables));
    }

    /** The arguments of a call, popped from the operand stack: the top operand
        when no argument was counted, otherwise `count` operands. Prepending
        each popped operand gives the order the source restores with `[::-1]`. */
    method PopArguments(operands: seq<Value>, count: nat) returns (args: Option<seq<Value>>, rest: seq<Value>)
      ensures match CallArguments(operands, count)
        case None => args.None?
        case Some(split) => args == Some(split.0) && rest == split.1
    {
      if count == 0 && operands != [] {
        return Some([operands[|operands| - 1]]), operands[..|operands| - 1];
      }
      var popped: seq<Value> := [];
      rest := operands;
      var k := 0;
      while k < count
        invariant 0 <= k <= count && k <= |operands|
        invariant rest == operands[..|operands| - k] && popped == operands[|operands| - k..]
      {
        if rest == [] {
          return None, rest;
        }
        popped := [rest[|rest| - 1]] + popped;
        rest := rest[..|rest| - 1];
        k := k + 1;
      }
      args := Some(popped);
    }

    /** The loop run at SET_CLOSE in operator position: each SEP moves one
        operand into a new set, which is pushed once SET_OPEN is reached. */
    method PopSet(stack: seq<Token>, operands: seq<Value>) returns (res: Outcome)
      ensures res == CloseSet(Machine(stack, operands, variables), {})
    {
      var groupSet: set<Value> := {};
      var st, ops := stack, operands;
      while st != []
        invariant CloseSet(Machine(st, ops, variables), groupSet) == CloseSet(Machine(stack, operands, variables), {})
        decreases |st|
      {
        var setToken := st[|st| - 1];
        st := st[..|st| - 1];
        if setToken.kind == SetOpen {
          break;
        } else if setToken.kind == Var {
          if setToken.text !in variables {
            ops := ops + [Text(setToken.text)];
          } else {
            ops := ops + [variables[setToken.text]];
          }
        } else if setToken.kind == Sep {
          if ops == [] {
            return Halt(PyError(IndexError), variables);
          }
          groupSet := groupSet + {ops[|ops| - 1]};
          ops := ops[..|ops| - 1];
        }
      }
      return Continue(Machine(st, ops + [SetV(groupSet)], variables));
    }

    /** A token in operand position. */
    method OperandToken(t: Token, stack: seq<Token>, operands: seq<Value>) returns (r: StepResult)
      ensures r == OperandStep(t, Machine(stack, operands, variables))
    {
      if t.kind == Number {
        return Next(OperatorState, Machine(stack, operands + [Num(t.value)], variables));
      } else if t.kind == Var {
        return Next(OperatorState, Machine(stack + [t], operands, variables));
      } else if t.kind == Open {
        return Next(OperandState, Machine(stack + [t], operands, variables));
      } else if t.kind == SetOpen {
        return Next(OperandState, Machine(stack + [t] + [Token(Sep, 0.0, ",")], operands, variables));
      } else if t.kind == SetClose {
        if stack == [] {
          return Halted(PyError(IndexError), variables);
        }
        var st := stack[..|stack| - 1];
        if st == [] {
          return Halted(PyError(IndexError), variables);
        }
        var shouldOpen := st[|st| - 1];
        st := st[..|st| - 1];
        if shouldOpen.kind != SetOpen {
          return Halted(ParseError(MissingElement), variables);
        }
        assert st == stack[..|stack| - 2];
        return Next(OperatorState, Machine(st, operands + [SetV({})], variables));
      }
      return Halted(ParseError(UnexpectedToken), variables);
    }

    /** An operator in operator position: the reduction loop, then `t` is
        pushed and the next state chosen. */
    method Arrive(t: Token, stack: seq<Token>, operands: seq<Value>) returns (r: StepResult)
      modifies this`variables
      ensures r == AfterReduce(t, Reduce(t, Machine(stack, operands, old(variables))))
      ensures variables == VarsAfterStep(r)
    {
      var o := ReduceStack(t, stack, operands);
      if o.Halt? {
        return Halted(o.failure, o.vars);
      }
      var m2 := Machine(o.m.stack + [t], o.m.operands, variables);
      if t.kind in UnaryOperators {
        return Next(OperatorState, m2);
      }
      if t.kind == End {
        return Finished(m2);
      }
      return Next(OperandState, m2);
    }

    /** A token in operator position. */
    method OperatorToken(t: Token, stack: seq<Token>, operands: seq<Value>) returns (r: StepResult)
      modifies this`variables
      ensures r == OperatorStep(t, Machine(stack, operands, old(variables)), functions)
      ensures variables == VarsAfterStep(r)
    {
      if t.kind in Operators {
        r := Arrive(t, stack, operands);
      } else if t.kind == Sep || t.kind == Open {
        r := Next(OperandState, Machine(stack + [t], operands, variables));
      } else if t.kind == Close {
        var o := PopGroup(stack, operands);
        CloseGroupKeepsVars(Machine(stack, operands, variables), functions, 0);
        r := FromOutcome(o, OperatorState);
      } else if t.kind == SetClose {
        var o := PopSet(stack, operands);
        CloseSetKeepsVars(Machine(stack, operands, variables), {});
        r := FromOutcome(o, OperatorState);
      } else {
        r := Halted(ParseError(UndefinedBehavior), variables);
      }
    }

    /** One token, in the state the loop is in. */
    method TokenStep(state: State, t: Token, stack: seq<Token>, operands: seq<Value>) returns (r: StepResult)
      modifies this`variables
      ensures r == Step(state, t, Machine(stack, operands, old(variables)), functions)
      ensures variables == VarsAfterStep(r)
    {
      if state == OperandState {
        r := OperandToken(t, stack, operands);
        assert variables == VarsAfterStep(r) by {
          OperandStepKeepsVars(t, Machine(stack, operands, variables));
        }
      } else {
        r := OperatorToken(t, stack, operands);
      }
    }

    /** The token loop: each token in the current state, until END has been
        pushed or a token fails; then the END check and the result. */
    method RunTokens(tokens: seq<Token>) returns (r: Result<ParseResult>)
      modifies this`variables
      ensures Final(r, variables) == Run(tokens, OperandState, Machine([], [], old(variables)), functions)
    {
      ghost var all := Run(tokens, OperandState, Machine([], [], variables), functions);
      var state := OperandState;
      var stack: seq<Token> := [];
      var operands: seq<Value> := [];
      var i := 0;
      while i < |tokens|
        invariant i <= |tokens|
        invariant Run(tokens[i..], state, Machine(stack, operands, variables), functions) == all
        decreases |tokens| - i
      {
        var t := tokens[i];
        assert tokens[i..][0] == t && tokens[i..][1..] == tokens[i + 1..];
        var step := TokenStep(state, t, stack, operands);
        if step.Halted? {
          return Fail(step.reason);
        }
        if step.Finished? {
          stack, operands := step.last.stack, step.last.operands;
          break;
        }
        state, stack, operands := step.state, step.next.stack, step.next.operands;
        i := i + 1;
      }
      r := Conclude(stack, operands);
    }

    /** After the token loop: the popped top must be END; the result is the
        top operand, or NONE when no operand is left. */
    method Conclude(stack: seq<Token>, operands: seq<Value>) returns (r: Result<ParseResult>)
      ensures Final(r, variables) == Finish(Machine(stack, operands, variables))
    {
      if stack == [] {
        return Fail(PyError(IndexError));
      }
      var shouldEnd := stack[|stack| - 1];
      if shouldEnd.kind != End {
        return Fail(PyError(AssertionError));
      }
      if operands != [] {
        return Ok(ValueResult(operands[|operands| - 1]));
      }
      return Ok(NoneResult);
    }

    /** `parse`: exit words and blank input first, and neither tokenizes nor
        touches the variables; otherwise the tokens are run. */
    method Parse(expression: string) returns (r: Result<ParseResult>)
      modifies this`variables, tokenizer`stream
      ensures Final(r, variables) == ParseSpec(tokenizer.tokenKind, old(variables), functions, expression)
    {
      var stripped := Strip(expression);
      if Lower(stripped) in ExitWords {
        return Ok(ExitResult);
      }
      if stripped == [] {
        return Ok(NoneResult);
      }
      var tokens := tokenizer.Tokenize(expression);
      r := RunTokens(tokens);
    }
  }
}
