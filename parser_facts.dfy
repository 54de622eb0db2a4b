/** Properties of the parser's reference semantics (`ParserSpec`): which
    stages may write the variable table, what the stack loops leave on the
    stack, and the rules for DEFINE, COMPLEMENT, set literals and the
    operand state. */
module ParserFacts {
  import opened Failures
  import opened Values
  import opened Tokenizer
  import opened Evaluator
  import opened ParserSpec
  import EvaluatorFacts

  // ---------------------------------------------------------------------------
  // The stack loops only pop.

  /** A pass of a stack loop that only pops: it keeps the variable table and
      leaves a prefix of the stack it found. */
  predicate PopsOnly<A>(m: Machine, mv: Move<A>) {
    VarsAfter(mv) == m.vars
    && (mv.More? ==> mv.next.stack <= m.stack)
    && (mv.Done? && mv.outcome.Continue? ==> mv.outcome.m.stack <= m.stack)
  }

  /** A pass of the loop at CLOSE only pops. */
  lemma CloseGroupStepPops(m: Machine, functions: map<string, Builtin>, count: nat)
    requires m.stack != []
    ensures PopsOnly(m, CloseGroupStep(m, functions, count))
  {
    var arg := Top(m.stack);
    var below := Pop(m.stack);
    assert below <= m.stack;
    if arg.kind == Open {
      OpenStepPops(below, m, functions, count);
    }
  }

  /** The OPEN pass of the loop at CLOSE pops at most one more item. */
  lemma OpenStepPops(below: seq<Token>, m: Machine, functions: map<string, Builtin>, count: nat)
    requires below <= m.stack
    ensures PopsOnly(m, OpenStep(below, m, functions, count))
  {
    if below != [] {
      assert Pop(below) <= below;
    }
  }

  /** A pass of the loop at SET_CLOSE only pops. */
  lemma CloseSetStepPops(m: Machine, group: set<Value>)
    requires m.stack != []
    ensures PopsOnly(m, CloseSetStep(m, group))
  {
  }

  /** A pass of the reduction loop with no DEFINE on top only pops. */
  lemma ReduceStepPops(t: Token, m: Machine)
    requires m.stack != [] && Top(m.stack).kind != Define
    ensures PopsOnly(m, ReduceStep(t, m))
  {
  }

  /** The loop at CLOSE never writes the variable table, and what it leaves on
      the stack is a prefix of what it found there. */
  lemma {:induction false} CloseGroupKeepsVars(m: Machine, functions: map<string, Builtin>, count: nat)
    ensures VarsOf(CloseGroup(m, functions, count)) == m.vars
    ensures CloseGroup(m, functions, count).Continue? ==>
      CloseGroup(m, functions, count).m.vars == m.vars
      && CloseGroup(m, functions, count).m.stack <= m.stack
    decreases |m.stack|
  {
    if m.stack != [] {
      var mv := CloseGroupStep(m, functions, count);
      CloseGroupStepPops(m, functions, count);
      if mv.More? {
        CloseGroupKeepsVars(mv.next, functions, mv.acc);
      }
    }
  }

  /** One pass of the loop at CLOSE, then the rest of the loop: a pass that
      ends the loop gives its outcome, any other leaves the variable table. */
  lemma CloseGroupUnroll(m: Machine, functions: map<string, Builtin>, count: nat, mv: Move<nat>)
    requires m.stack != [] && mv == CloseGroupStep(m, functions, count)
    ensures mv.Done? ==> CloseGroup(m, functions, count) == mv.outcome
    ensures mv.More? ==> mv.next.vars == m.vars
    ensures mv.More? ==> CloseGroup(mv.next, functions, mv.acc) == CloseGroup(m, functions, count)
  {
  }

  // ---------------------------------------------------------------------------
  // What the loop at CLOSE computes: groups and calls.

  /** A VAR met by the loop at CLOSE is resolved onto the operand stack and
      counted as an argument. */
  lemma GroupVarPass(s: seq<Token>, v: Token, ps: seq<Value>, vars: map<string, Value>,
                     functions: map<string, Builtin>, count: nat)
    requires v.kind == Var
    ensures CloseGroup(Machine(s + [v], ps, vars), functions, count)
      == CloseGroup(Machine(s, ps + [Resolve(v.text, vars)], vars), functions, count + 1)
  {
    var m := Machine(s + [v], ps, vars);
    assert Top(m.stack) == v && Pop(m.stack) == s;
  }

  /** `( x op y )`: the operator on top of the stack is applied to the two
      top operands, and the OPEN beneath it ends the loop when nothing is
      beneath the OPEN or an operator is, which then stays on the stack. */
  lemma GroupApplies(s: seq<Token>, open: Token, op: Token, ps: seq<Value>, x: Value, y: Value,
                     vars: map<string, Value>, functions: map<string, Builtin>, count: nat)
    requires open.kind == Open && op.kind in Evaluations
    requires s == [] || Top(s).kind in Operators
    ensures CloseGroup(Machine(s + [open, op], ps + [x, y], vars), functions, count)
      == (var e := Evaluate(op.kind, x, y);
          if e.Fail? then Halt(e.failure, vars) else Continue(Machine(s, ps + [e.value], vars)))
  {
    var e := Evaluate(op.kind, x, y);
    var m := Machine(s + [open, op], ps + [x, y], vars);
    assert s + [open, op] == (s + [open]) + [op];
    GroupOperatorPass(s + [open], op, ps, x, y, vars, functions, count);
    CloseGroupUnroll(m, functions, count, CloseGroupStep(m, functions, count));
    if e.Ok? {
      var m1 := Machine(s + [open], ps + [e.value], vars);
      GroupOpenStops(s, open, ps + [e.value], vars, functions, count + 1);
      CloseGroupUnroll(m1, functions, count + 1, CloseGroupStep(m1, functions, count + 1));
    }
  }

  lemma GroupOperatorPass(s: seq<Token>, op: Token, ps: seq<Value>, x: Value, y: Value,
                          vars: map<string, Value>, functions: map<string, Builtin>, count: nat)
    requires op.kind in Evaluations
    ensures CloseGroupStep(Machine(s + [op], ps + [x, y], vars), functions, count)
      == (var e := Evaluate(op.kind, x, y);
          if e.Fail? then Done(Halt(e.failure, vars)) else More(Machine(s, ps + [e.value], vars), count + 1))
  {
    var m := Machine(s + [op], ps + [x, y], vars);
    assert Top(m.stack) == op && Pop(m.stack) == s;
    BinaryApplied(op.kind, ps, x, y);
  }

  lemma GroupOpenStops(s: seq<Token>, open: Token, ps: seq<Value>, vars: map<string, Value>,
                       functions: map<string, Builtin>, count: nat)
    requires open.kind == Open
    requires s == [] || Top(s).kind in Operators
    ensures CloseGroupStep(Machine(s + [open], ps, vars), functions, count) == Done(Continue(Machine(s, ps, vars)))
  {
    var m := Machine(s + [open], ps, vars);
    assert Top(m.stack) == open && Pop(m.stack) == s;
  }

  /** `f(a)`: the argument is resolved and counted, the OPEN finds the VAR `f`
      beneath it, and the function is called with that one argument; its
      result is pushed and the loop goes on with the rest of the stack. */
  lemma CallOneArgument(s: seq<Token>, fn: Token, open: Token, a: Token, ps: seq<Value>,
                        vars: map<string, Value>, functions: map<string, Builtin>)
    requires fn.kind == Var && open.kind == Open && a.kind == Var && fn.text in functions
    ensures CloseGroup(Machine(s + [fn, open, a], ps, vars), functions, 0)
      == (var c := Call(functions[fn.text], [Resolve(a.text, vars)]);
          if c.Fail? then Halt(c.failure, vars) else CloseGroup(Machine(s, ps + [c.value], vars), functions, 1))
  {
    var x := Resolve(a.text, vars);
    GroupVarPass(s + [fn, open], a, ps, vars, functions, 0);
    assert s + [fn, open, a] == (s + [fn, open]) + [a];
    var m1 := Machine(s + [fn, open], ps + [x], vars);
    assert Top(m1.stack) == open && Pop(m1.stack) == s + [fn];
    assert Top(s + [fn]) == fn && Pop(s + [fn]) == s;
    assert CallArguments(ps + [x], 1) == Some(([x], ps));
  }

  /** The loop at SET_CLOSE never writes the variable table, and what it
      leaves on the stack is a prefix of what it found there. */
  lemma {:induction false} CloseSetKeepsVars(m: Machine, group: set<Value>)
    ensures VarsOf(CloseSet(m, group)) == m.vars
    ensures CloseSet(m, group).Continue? ==>
      CloseSet(m, group).m.vars == m.vars && CloseSet(m, group).m.stack <= m.stack
    decreases |m.stack|
  {
    if m.stack != [] {
      var mv := CloseSetStep(m, group);
      CloseSetStepPops(m, group);
      if mv.More? {
        CloseSetKeepsVars(mv.next, mv.acc);
      }
    }
  }

  /** A token in operand position never writes the variable table. */
  lemma OperandStepKeepsVars(t: Token, m: Machine)
    ensures VarsAfterStep(OperandStep(t, m)) == m.vars
  {
  }

  // ---------------------------------------------------------------------------
  // The token loop.

  /** The token loop goes on after a token that leaves it running. */
  lemma RunAt(tokens: seq<Token>, k: nat, state: State, m: Machine, functions: map<string, Builtin>, state': State, m': Machine)
    requires k < |tokens| && Step(state, tokens[k], m, functions) == Next(state', m')
    ensures Run(tokens[k..], state, m, functions) == Run(tokens[k + 1..], state', m', functions)
  {
    assert tokens[k..][0] == tokens[k] && tokens[k..][1..] == tokens[k + 1..];
  }

  /** The token loop stops after END and finishes. */
  lemma RunEndAt(tokens: seq<Token>, k: nat, state: State, m: Machine, functions: map<string, Builtin>, m': Machine)
    requires k < |tokens| && Step(state, tokens[k], m, functions) == Finished(m')
    ensures Run(tokens[k..], state, m, functions) == Finish(m')
  {
    assert tokens[k..][0] == tokens[k];
  }

  /** The token loop stops at a token that fails, keeping the variable table
      as the failure left it. */
  lemma RunHaltAt(tokens: seq<Token>, k: nat, state: State, m: Machine, functions: map<string, Builtin>, f: Failure, vars: map<string, Value>)
    requires k < |tokens| && Step(state, tokens[k], m, functions) == Halted(f, vars)
    ensures Run(tokens[k..], state, m, functions) == Final(Fail(f), vars)
  {
    assert tokens[k..][0] == tokens[k];
  }

  // ---------------------------------------------------------------------------
  // One token at a time.

  /** A number in operand position is pushed on the operand stack. */
  lemma NumberOperand(t: Token, m: Machine, functions: map<string, Builtin>)
    requires t.kind == Number
    ensures Step(OperandState, t, m, functions) == Next(OperatorState, m.(operands := m.operands + [Num(t.value)]))
  {
  }

  /** A VAR in operand position is pushed on the stack, unresolved. */
  lemma VarOperand(t: Token, m: Machine, functions: map<string, Builtin>)
    requires t.kind == Var
    ensures Step(OperandState, t, m, functions) == Next(OperatorState, PushToken(m, t))
  {
  }

  /** SET_OPEN in operand position pushes itself and a SEP for the first element. */
  lemma SetOpenOperand(t: Token, m: Machine, functions: map<string, Builtin>)
    requires t.kind == SetOpen
    ensures Step(OperandState, t, m, functions) == Next(OperandState, m.(stack := m.stack + [t, Token(Sep, 0.0, ",")]))
  {
  }

  /** SEP and OPEN in operator position are pushed without reduction. */
  lemma SepOperator(t: Token, m: Machine, functions: map<string, Builtin>)
    requires t.kind == Sep || t.kind == Open
    ensures Step(OperatorState, t, m, functions) == Next(OperandState, PushToken(m, t))
  {
  }

  /** SET_CLOSE in operator position runs the set loop with an empty group. */
  lemma SetCloseOperator(t: Token, m: Machine, functions: map<string, Builtin>)
    requires t.kind == SetClose
    ensures Step(OperatorState, t, m, functions) == FromOutcome(CloseSet(m, {}), OperatorState)
  {
  }

  /** A binary operator in operator position: after the reduction loop it is
      pushed and an operand is expected. */
  lemma BinaryArrives(t: Token, m: Machine, functions: map<string, Builtin>, m1: Machine)
    requires t.kind in Operators && t.kind !in UnaryOperators && t.kind != End
    requires Reduce(t, m) == Continue(m1)
    ensures Step(OperatorState, t, m, functions) == Next(OperandState, PushToken(m1, t))
  {
  }

  /** COMPLEMENT in operator position: after the reduction loop it is pushed
      and another operator is expected, as after an operand. */
  lemma ComplementArrives(t: Token, m: Machine, functions: map<string, Builtin>, m1: Machine)
    requires t.kind == Complement
    requires Reduce(t, m) == Continue(m1)
    ensures Step(OperatorState, t, m, functions) == Next(OperatorState, PushToken(m1, t))
  {
  }

  /** END in operator position: after the reduction loop it is pushed and the
      token loop stops. */
  lemma EndArrives(t: Token, m: Machine, functions: map<string, Builtin>, m1: Machine)
    requires t.kind == End
    requires Reduce(t, m) == Continue(m1)
    ensures Step(OperatorState, t, m, functions) == Finished(PushToken(m1, t))
  {
  }

  // ---------------------------------------------------------------------------
  // Set literals.

  predicate AllSep(seps: seq<Token>) {
    forall k :: 0 <= k < |seps| ==> seps[k].kind == Sep
  }

  /** `{a, b, …}`: with SET_OPEN and one SEP per element on the stack (the
      first pushed by SET_OPEN itself) and the elements on the operand stack,
      SET_CLOSE pops them all into one set, each distinct element once, and
      pushes it. */
  lemma {:induction false} CloseSetCollects(s: seq<Token>, open: Token, seps: seq<Token>, ops: seq<Value>, xs: seq<Value>,
                                            vars: map<string, Value>, group: set<Value>)
    requires open.kind == SetOpen && AllSep(seps) && |seps| == |xs|
    ensures CloseSet(Machine(s + [open] + seps, ops + xs, vars), group)
      == Continue(Machine(s, ops + [SetV(group + set x | x in xs)], vars))
    decreases |xs|
  {
    if xs == [] {
      assert s + [open] + seps == s + [open] && ops + xs == ops;
      OpenPass(s, open, ops, vars, group);
      assert group + (set x | x in xs) == group;
    } else {
      var n := |xs| - 1;
      var below, rest := s + [open] + seps[..n], ops + xs[..n];
      SplitLast(s + [open], seps, ops, xs);
      SepPass(below, seps[n], rest, xs[n], vars, group);
      CloseSetCollects(s, open, seps[..n], ops, xs[..n], vars, group + {xs[n]});
      CollectLast(xs[..n], xs[n], group);
    }
  }

  /** The last SEP and the last element, split off their stacks. */
  lemma SplitLast(s: seq<Token>, seps: seq<Token>, ops: seq<Value>, xs: seq<Value>)
    requires AllSep(seps) && |seps| == |xs| > 0
    ensures var n := |xs| - 1;
      s + seps == (s + seps[..n]) + [seps[n]] && ops + xs == (ops + xs[..n]) + [xs[n]]
      && xs == xs[..n] + [xs[n]] && seps[n].kind == Sep && AllSep(seps[..n])
  {
    var n := |xs| - 1;
    assert seps == seps[..n] + [seps[n]];
    assert xs == xs[..n] + [xs[n]];
  }

  /** One pass at SET_CLOSE over a SEP: the top operand joins the set. */
  lemma SepPass(below: seq<Token>, sep: Token, ops: seq<Value>, x: Value, vars: map<string, Value>, group: set<Value>)
    requires sep.kind == Sep
    ensures CloseSet(Machine(below + [sep], ops + [x], vars), group) == CloseSet(Machine(below, ops, vars), group + {x})
  {
    assert Top(below + [sep]) == sep && Pop(below + [sep]) == below;
    assert Top(ops + [x]) == x && Pop(ops + [x]) == ops;
    assert CloseSetStep(Machine(below + [sep], ops + [x], vars), group) == More(Machine(below, ops, vars), group + {x});
  }

  lemma CollectLast(init: seq<Value>, last: Value, group: set<Value>)
    ensures group + {last} + (set x | x in init) == group + (set y | y in init + [last])
  {
  }

  /** The pass at SET_CLOSE that meets SET_OPEN pushes the collected set. */
  lemma OpenPass(below: seq<Token>, open: Token, ops: seq<Value>, vars: map<string, Value>, group: set<Value>)
    requires open.kind == SetOpen
    ensures CloseSet(Machine(below + [open], ops, vars), group) == Continue(Machine(below, ops + [SetV(group)], vars))
  {
    assert Top(below + [open]) == open && Pop(below + [open]) == below;
  }

  /** `{}`: SET_CLOSE in operand position right after SET_OPEN (and the SEP
      it pushed) pushes the empty set. */
  lemma EmptySetLiteral(t: Token, s: seq<Token>, open: Token, sep: Token, ops: seq<Value>, vars: map<string, Value>)
    requires t.kind == SetClose && open.kind == SetOpen
    ensures OperandStep(t, Machine(s + [open, sep], ops, vars))
      == Next(OperatorState, Machine(s, ops + [SetV({})], vars))
  {
    assert (s + [open, sep])[..|s|] == s;
  }


  /** In operand state only NUMBER, VAR, OPEN, SET_OPEN and SET_CLOSE are
      accepted; any other token, END included, is an unexpected token. */
  lemma OperandRules(t: Token, m: Machine)
    ensures OperandStep(t, m) == Halted(ParseError(UnexpectedToken), m.vars)
      <==> t.kind !in {Number, Var, Open, SetOpen, SetClose}
  {
  }

  // ---------------------------------------------------------------------------
  // The rules of the reduction loop.

  /** The loop stops, leaving the machine as it is, at OPEN or at a top item
      that binds less tightly than the arriving operator. */
  lemma ReduceStops(t: Token, m: Machine)
    requires m.stack != []
    requires Top(m.stack).kind == Open || Priority(Top(m.stack).kind) < Priority(t.kind)
    ensures Reduce(t, m) == Continue(m)
  {
  }

  /** One pass over an operator that has an evaluation: the top two operands
      are replaced by its result, or the loop fails with the error. */
  lemma BinaryStep(t: Token, s: seq<Token>, op: Token, operands: seq<Value>, vars: map<string, Value>)
    requires op.kind in Evaluations && Priority(t.kind) <= 0
    ensures Reduce(t, Machine(s + [op], operands, vars))
      == (var r := ApplyBinary(op.kind, operands);
          if r.Fail? then Halt(r.failure, vars) else Reduce(t, Machine(s, r.value, vars)))
  {
    BinaryPass(t, s, op, operands, vars);
  }

  lemma BinaryPass(t: Token, s: seq<Token>, op: Token, operands: seq<Value>, vars: map<string, Value>)
    requires op.kind in Evaluations && Priority(t.kind) <= 0
    ensures ReduceStep(t, Machine(s + [op], operands, vars)) == Resume(ApplyBinary(op.kind, operands), s, vars, ())
  {
    assert Top(s + [op]) == op && Pop(s + [op]) == s;
    assert op.kind != Open && op.kind != Var && op.kind != Define && op.kind !in UnaryOperators && op.kind in Operators;
  }

  /** COMPLEMENT binds tightest, so on top of the stack it is always reduced:
      a missing operand is an IndexError, a target that is not a set or an
      undefined "S" a ParseError. Otherwise the target is replaced by the
      difference of "S" and the target when "S" is a set, and by False when
      it is not, since `evaluate` answers False for a set operation on a
      non-set. */
  lemma ComplementReduces(t: Token, s: seq<Token>, c: Token, ps: seq<Value>, x: Value, vars: map<string, Value>)
    requires c.kind == Complement && t.kind in Operators
    ensures Reduce(t, Machine(s + [c], [], vars)) == Halt(PyError(IndexError), vars)
    ensures !x.SetV? ==> Reduce(t, Machine(s + [c], ps + [x], vars)) == Halt(ParseError(ComplementExpectsSet), vars)
    ensures x.SetV? && "S" !in vars ==>
      Reduce(t, Machine(s + [c], ps + [x], vars)) == Halt(ParseError(UniversalSetUndefined), vars)
    ensures x.SetV? && "S" in vars && vars["S"].SetV? ==>
      Reduce(t, Machine(s + [c], ps + [x], vars)) == Reduce(t, Machine(s, ps + [SetV(vars["S"].elems - x.elems)], vars))
    ensures x.SetV? && "S" in vars && !vars["S"].SetV? ==>
      Reduce(t, Machine(s + [c], ps + [x], vars)) == Reduce(t, Machine(s, ps + [Bool(false)], vars))
  {
    UnaryStep(t, s, c, [], vars);
    UnaryStep(t, s, c, ps + [x], vars);
    ComplementOperand(ps, x, vars);
  }

  /** COMPLEMENT applied to the operand stack `ps + [x]`. */
  lemma ComplementOperand(ps: seq<Value>, x: Value, vars: map<string, Value>)
    ensures !x.SetV? ==> ApplyUnary(ps + [x], vars) == Fail(ParseError(ComplementExpectsSet))
    ensures x.SetV? && "S" !in vars ==> ApplyUnary(ps + [x], vars) == Fail(ParseError(UniversalSetUndefined))
    ensures x.SetV? && "S" in vars && vars["S"].SetV? ==>
      ApplyUnary(ps + [x], vars) == Ok(ps + [SetV(vars["S"].elems - x.elems)])
    ensures x.SetV? && "S" in vars && !vars["S"].SetV? ==> ApplyUnary(ps + [x], vars) == Ok(ps + [Bool(false)])
  {
    assert Top(ps + [x]) == x && Pop(ps + [x]) == ps;
  }

  /** One pass over COMPLEMENT: the top operand is replaced by its
      complement, or the loop fails with the error. */
  lemma UnaryStep(t: Token, s: seq<Token>, c: Token, operands: seq<Value>, vars: map<string, Value>)
    requires c.kind == Complement && t.kind in Operators
    ensures Reduce(t, Machine(s + [c], operands, vars))
      == (var r := ApplyUnary(operands, vars);
          if r.Fail? then Halt(r.failure, vars) else Reduce(t, Machine(s, r.value, vars)))
  {
    assert Top(s + [c]) == c && Pop(s + [c]) == s;
    assert ReduceStep(t, Machine(s + [c], operands, vars)) == Resume(ApplyUnary(operands, vars), s, vars, ());
  }

  /** DEFINE reduced with a VAR beneath it stores the top operand under the
      VAR's name; both tokens and the operand leave the stacks. */
  lemma DefineBinds(t: Token, s: seq<Token>, v: Token, d: Token, ps: seq<Value>, x: Value, vars: map<string, Value>)
    requires v.kind == Var && d.kind == Define && Priority(t.kind) <= 0
    ensures Reduce(t, Machine(s + [v, d], ps + [x], vars)) == Reduce(t, Machine(s, ps, vars[v.text := x]))
  {
    var below := s + [v];
    assert Top(s + [v, d]) == d && Pop(s + [v, d]) == below;
    assert Top(below) == v && Pop(below) == s;
    assert Top(ps + [x]) == x && Pop(ps + [x]) == ps;
    assert ReduceStep(t, Machine(s + [v, d], ps + [x], vars)) == More(Machine(s, ps, vars[v.text := x]), ());
  }

  /** DEFINE reduced with anything but a VAR beneath it fails with a
      ParseError; with nothing beneath it, with an IndexError. */
  lemma DefineNeedsName(t: Token, s: seq<Token>, v: Token, d: Token, ops: seq<Value>, vars: map<string, Value>)
    requires v.kind != Var && d.kind == Define && Priority(t.kind) <= 0
    ensures Reduce(t, Machine(s + [v, d], ops, vars)) == Halt(ParseError(ExpectedVariableName), vars)
    ensures Reduce(t, Machine([d], ops, vars)) == Halt(PyError(IndexError), vars)
  {
    assert Top(s + [v, d]) == d && Pop(s + [v, d]) == s + [v];
    assert Top(s + [v]) == v;
    assert Top([d]) == d && Pop([d]) == [];
  }

  /** A VAR on top of the stack: it stays for an arriving DEFINE; otherwise
      an undefined one becomes its own name as text and the loop goes on,
      while a defined one becomes its value and ends the loop, unless the
      arriving token is END. */
  lemma VarReduces(t: Token, s: seq<Token>, v: Token, ops: seq<Value>, vars: map<string, Value>)
    requires v.kind == Var && Priority(t.kind) <= 1
    ensures t.kind == Define ==> Reduce(t, Machine(s + [v], ops, vars)) == Continue(Machine(s + [v], ops, vars))
    ensures t.kind != Define && v.text !in vars ==>
      Reduce(t, Machine(s + [v], ops, vars)) == Reduce(t, Machine(s, ops + [Text(v.text)], vars))
    ensures t.kind != Define && v.text in vars && t.kind != End ==>
      Reduce(t, Machine(s + [v], ops, vars)) == Continue(Machine(s, ops + [vars[v.text]], vars))
    ensures t.kind == End && v.text in vars ==>
      Reduce(t, Machine(s + [v], ops, vars)) == Reduce(t, Machine(s, ops + [vars[v.text]], vars))
  {
    assert Top(s + [v]) == v && Pop(s + [v]) == s;
    assert ReduceStep(t, Machine(s + [v], ops, vars)) == VarStep(t, v.text, s, Machine(s + [v], ops, vars));
  }

  /** A stack top no branch of the loop handles (SEP, SET_OPEN, …) leaves the
      state unchanged, so the loop never ends. */
  lemma ReduceSpins(t: Token, s: seq<Token>, top: Token, ops: seq<Value>, vars: map<string, Value>)
    requires top.kind !in Operators && top.kind !in {Open, Var} && Priority(top.kind) >= Priority(t.kind)
    ensures Reduce(t, Machine(s + [top], ops, vars)) == Halt(Diverges, vars)
  {
    assert Top(s + [top]) == top;
  }

  // ---------------------------------------------------------------------------
  // END drains pending binary operators, from the top of the stack down.

  predicate BinaryOnly(s: seq<Token>) {
    forall k :: 0 <= k < |s| ==> s[k].kind in Evaluations
  }

  function KindsOf(s: seq<Token>): (r: seq<Kind>)
    ensures |r| == |s| && forall k :: 0 <= k < |s| ==> r[k] == s[k].kind
  {
    if s == [] then [] else KindsOf(s[..|s| - 1]) + [s[|s| - 1].kind]
  }

  /** Evaluation that groups to the right: `x0 op1 (x1 op2 (… (xk-1 opk xk)))`,
      the innermost operation first, the first failure ending it; `eval`
      applies one operator. */
  function RightFold(eval: (Kind, Value, Value) -> Result<Value>, kinds: seq<Kind>, xs: seq<Value>): Result<Value>
    requires |xs| == |kinds| + 1
  {
    if kinds == [] then Ok(xs[0])
    else
      match RightFold(eval, kinds[1..], xs[1..])
      case Fail(f) => Fail(f)
      case Ok(v) => eval(kinds[0], xs[0], v)
  }

  /** The innermost operation of a right fold is the last one. */
  lemma {:induction false} RightFoldLast(eval: (Kind, Value, Value) -> Result<Value>, kinds: seq<Kind>, k: Kind, xs: seq<Value>, a: Value, b: Value)
    requires |xs| == |kinds|
    ensures RightFold(eval, kinds + [k], xs + [a, b])
      == (var e := eval(k, a, b);
          if e.Fail? then Fail(e.failure) else RightFold(eval, kinds, xs + [e.value]))
  {
    if kinds != [] {
      assert (kinds + [k])[1..] == kinds[1..] + [k];
      assert (xs + [a, b])[1..] == xs[1..] + [a, b];
      RightFoldLast(eval, kinds[1..], k, xs[1..], a, b);
      match eval(k, a, b)
      case Fail(f) =>
      case Ok(v) =>
        assert (xs + [v])[1..] == xs[1..] + [v];
    } else {
      assert xs == [];
    }
  }

  /** The right fold, unfolded at its innermost operation. */
  lemma RightFoldOnce(eval: (Kind, Value, Value) -> Result<Value>, kinds: seq<Kind>, xs: seq<Value>)
    requires kinds != [] && |xs| == |kinds| + 1
    ensures var n := |kinds| - 1;
      RightFold(eval, kinds, xs)
      == (var e := eval(kinds[n], xs[n], xs[n + 1]);
          if e.Fail? then Fail(e.failure) else RightFold(eval, kinds[..n], xs[..n] + [e.value]))
  {
    var n := |kinds| - 1;
    var init, a, b := xs[..n], xs[n], xs[n + 1];
    assert kinds == kinds[..n] + [kinds[n]];
    assert xs == init + [a, b];
    RightFoldLast(eval, kinds[..n], kinds[n], init, a, b);
  }

  /** END on a stack of binary operators reduces them all, the topmost
      first: the result is their right fold over the top operands. */
  lemma {:induction false} EndDrains(s: seq<Token>, ps: seq<Value>, xs: seq<Value>, vars: map<string, Value>)
    requires BinaryOnly(s) && |xs| == |s| + 1
    ensures Reduce(EndToken, Machine(s, ps + xs, vars))
      == (var r := RightFold(Evaluate, KindsOf(s), xs);
          if r.Fail? then Halt(r.failure, vars) else Continue(Machine([], ps + [r.value], vars)))
    decreases |s|
  {
    if s == [] {
      assert xs == [xs[0]];
    } else {
      var n := |s| - 1;
      EndDrainsOnce(s, ps, xs, vars);
      RightFoldOnce(Evaluate, KindsOf(s), xs);
      KindsOfInit(s);
      var e := Evaluate(s[n].kind, xs[n], xs[n + 1]);
      if e.Ok? {
        assert BinaryOnly(s[..n]);
        EndDrains(s[..n], ps, xs[..n] + [e.value], vars);
      }
    }
  }

  /** One turn of the reduction loop under END applies the topmost operator. */
  lemma EndDrainsOnce(s: seq<Token>, ps: seq<Value>, xs: seq<Value>, vars: map<string, Value>)
    requires BinaryOnly(s) && s != [] && |xs| == |s| + 1
    ensures var n := |s| - 1;
      Reduce(EndToken, Machine(s, ps + xs, vars))
      == (var e := Evaluate(s[n].kind, xs[n], xs[n + 1]);
          if e.Fail? then Halt(e.failure, vars)
          else Reduce(EndToken, Machine(s[..n], ps + (xs[..n] + [e.value]), vars)))
  {
    var n := |s| - 1;
    var below, op := s[..n], s[n];
    var rest, a, b := xs[..n], xs[n], xs[n + 1];
    var e := Evaluate(op.kind, a, b);
    assert xs == rest + [a, b];
    assert ps + xs == (ps + rest) + [a, b];
    if e.Ok? {
      assert (ps + rest) + [e.value] == ps + (rest + [e.value]);
    }
    assert s == below + [op];
    BinaryApplied(op.kind, ps + rest, a, b);
    BinaryStep(EndToken, below, op, ps + xs, vars);
  }

  lemma KindsOfInit(s: seq<Token>)
    requires s != []
    ensures KindsOf(s)[..|s| - 1] == KindsOf(s[..|s| - 1])
  {
  }

  lemma BinaryApplied(op: Kind, init: seq<Value>, a: Value, b: Value)
    ensures ApplyBinary(op, init + [a, b])
      == (var e := Evaluate(op, a, b);
          if e.Fail? then Fail(e.failure) else Ok(init + [e.value]))
  {
    var n := |init + [a, b]|;
    assert (init + [a, b])[n - 2] == a && (init + [a, b])[n - 1] == b && (init + [a, b])[..n - 2] == init;
  }

  // ---------------------------------------------------------------------------
  // Only DEFINE writes the variable table.

  predicate NoDefine(s: seq<Token>) {
    forall k :: 0 <= k < |s| ==> s[k].kind != Define
  }

  /** A prefix of a stack without DEFINE, with a token other than DEFINE
      pushed or not, has no DEFINE either. */
  lemma NoDefinePushed(s: seq<Token>, p: seq<Token>, t: Token)
    requires NoDefine(s) && p <= s && t.kind != Define
    ensures NoDefine(p) && NoDefine(p + [t])
  {
    assert forall k :: 0 <= k < |p| ==> p[k] == s[k];
  }

  /** Without DEFINE on the stack, the reduction loop keeps the variable
      table, and what it leaves on the stack is a prefix of what it found. */
  lemma {:induction false} ReduceKeepsVars(t: Token, m: Machine)
    requires NoDefine(m.stack)
    ensures VarsOf(Reduce(t, m)) == m.vars
    ensures Reduce(t, m).Continue? ==> Reduce(t, m).m.vars == m.vars && Reduce(t, m).m.stack <= m.stack
    decreases |m.stack|
  {
    if m.stack != [] {
      assert Top(m.stack).kind != Define;
      var mv := ReduceStep(t, m);
      ReduceStepPops(t, m);
      if mv.More? {
        ReduceKeepsVars(t, mv.next);
      }
    }
  }

  /** A token other than DEFINE, with no DEFINE on the stack, keeps the
      variable table and pushes no DEFINE. */
  lemma StepKeepsVars(state: State, t: Token, m: Machine, functions: map<string, Builtin>)
    requires NoDefine(m.stack) && t.kind != Define
    ensures VarsAfterStep(Step(state, t, m, functions)) == m.vars
    ensures Step(state, t, m, functions).Next? ==> NoDefine(Step(state, t, m, functions).next.stack)
  {
    if state == OperandState {
      OperandStepKeepsVars(t, m);
      var sep := Token(Sep, 0.0, ",");
      NoDefinePushed(m.stack, m.stack, t);
      NoDefinePushed(m.stack + [t], m.stack + [t], sep);
      assert m.stack + [t] + [sep] == m.stack + [t, sep];
    } else if t.kind in Operators {
      ReduceKeepsVars(t, m);
      var o := Reduce(t, m);
      if o.Continue? {
        NoDefinePushed(m.stack, o.m.stack, t);
      }
    } else if t.kind == Sep || t.kind == Open {
      NoDefinePushed(m.stack, m.stack, t);
    } else if t.kind == Close {
      CloseGroupKeepsVars(m, functions, 0);
      var o := CloseGroup(m, functions, 0);
      if o.Continue? {
        NoDefinePushed(m.stack, o.m.stack, t);
      }
    } else if t.kind == SetClose {
      CloseSetKeepsVars(m, {});
      var o := CloseSet(m, {});
      if o.Continue? {
        NoDefinePushed(m.stack, o.m.stack, t);
      }
    }
  }

  /** A run over tokens without DEFINE ends with the variable table it
      started with, whether it succeeds or fails. */
  lemma {:induction false} RunKeepsVars(tokens: seq<Token>, state: State, m: Machine, functions: map<string, Builtin>)
    requires NoDefine(tokens) && NoDefine(m.stack)
    ensures Run(tokens, state, m, functions).vars == m.vars
    decreases |tokens|
  {
    if tokens != [] {
      StepKeepsVars(state, tokens[0], m, functions);
      var r := Step(state, tokens[0], m, functions);
      if r.Next? {
        RunKeepsVars(tokens[1..], r.state, r.next, functions);
      } else if r.Finished? {
        assert Finish(r.last).vars == r.last.vars;
      }
    }
  }

  /** `parse` leaves the variable table alone unless the input holds DEFINE. */
  lemma ParseKeepsVars(table: map<string, Kind>, vars: map<string, Value>, functions: map<string, Builtin>, expression: string)
    requires NoDefine(TokenizeSpec(table, Strip(expression)))
    ensures ParseSpec(table, vars, functions, expression).vars == vars
  {
    var stripped := Strip(expression);
    var r := ParseSpec(table, vars, functions, expression);
    if Lower(stripped) in ExitWords {
      assert r == Final(Ok(ExitResult), vars);
    } else if stripped == [] {
      assert r == Final(Ok(NoneResult), vars);
    } else {
      var tokens := TokenizeSpec(table, stripped);
      RunKeepsVars(tokens, OperandState, Machine([], [], vars), functions);
      assert r == Run(tokens, OperandState, Machine([], [], vars), functions);
    }
  }
}
