/** Worked runs of the token loop on the tokens the configured tokenizer
    produces for small inputs. */
module ParserExamples {
  import opened Failures
  import opened Values
  import opened Tokenizer
  import opened Evaluator
  import opened ParserSpec
  import opened ParserFacts
  import EvaluatorFacts
  import TokenizerExamples

  // Tokens as the configured tokenizer makes them.

  function NumberTok(n: int): Token {
    Token(Number, n as real, "")
  }

  function VarTok(name: string): Token {
    Token(Var, 0.0, name)
  }

  const SetOpenTok: Token := Token(SetOpen, 0.0, "{")
  const SetCloseTok: Token := Token(SetClose, 0.0, "}")
  const SepTok: Token := Token(Sep, 0.0, ",")
  const DefineTok: Token := Token(Define, 0.0, "=")
  const BelongTok: Token := Token(Belong, 0.0, "∈")
  const UnionTok: Token := Token(Union, 0.0, "∪")
  const DifferenceTok: Token := Token(Difference, 0.0, "-")
  const ComplementTok: Token := Token(Complement, 0.0, "'")
  const OpenTok: Token := Token(Open, 0.0, "(")

  const Set12: Value := SetV({Num(1.0), Num(2.0)})

  // ---------------------------------------------------------------------------
  // `{1, 2}` in operand position.

  /** The tokens of `{1, 2}`, found at position `k`, leave the set {1, 2} on
      the operand stack and the stack as it was. */
  lemma SetLiteralRun(toks: seq<Token>, k: nat, s: seq<Token>, ps: seq<Value>, vars: map<string, Value>, functions: map<string, Builtin>)
    requires k + 5 <= |toks|
    requires toks[k] == SetOpenTok && toks[k + 1] == NumberTok(1) && toks[k + 2] == SepTok
    requires toks[k + 3] == NumberTok(2) && toks[k + 4] == SetCloseTok
    ensures Run(toks[k..], OperandState, Machine(s, ps, vars), functions)
      == Run(toks[k + 5..], OperatorState, Machine(s, ps + [Set12], vars), functions)
  {
    SetLiteralOpens(toks, k, s, ps, vars, functions);
    var m := Machine(s + [SetOpenTok, SepTok, SepTok], ps + [Num(1.0), Num(2.0)], vars);
    SetLiteral12(s, ps, vars);
    SetCloseOperator(toks[k + 4], m, functions);
    RunAt(toks, k + 4, OperatorState, m, functions, OperatorState, Machine(s, ps + [Set12], vars));
  }

  lemma SetLiteralOpens(toks: seq<Token>, k: nat, s: seq<Token>, ps: seq<Value>, vars: map<string, Value>, functions: map<string, Builtin>)
    requires k + 5 <= |toks|
    requires toks[k] == SetOpenTok && toks[k + 1] == NumberTok(1) && toks[k + 2] == SepTok
    requires toks[k + 3] == NumberTok(2)
    ensures Run(toks[k..], OperandState, Machine(s, ps, vars), functions)
      == Run(toks[k + 4..], OperatorState, Machine(s + [SetOpenTok, SepTok, SepTok], ps + [Num(1.0), Num(2.0)], vars), functions)
  {
    var f := functions;
    var s1 := s + [SetOpenTok, SepTok];
    var s2 := s + [SetOpenTok, SepTok, SepTok];
    SetOpenOperand(toks[k], Machine(s, ps, vars), f);
    RunAt(toks, k, OperandState, Machine(s, ps, vars), f, OperandState, Machine(s1, ps, vars));
    NumberOperand(toks[k + 1], Machine(s1, ps, vars), f);
    RunAt(toks, k + 1, OperandState, Machine(s1, ps, vars), f, OperatorState, Machine(s1, ps + [Num(1.0)], vars));
    SepOperator(toks[k + 2], Machine(s1, ps + [Num(1.0)], vars), f);
    assert s1 + [SepTok] == s2;
    RunAt(toks, k + 2, OperatorState, Machine(s1, ps + [Num(1.0)], vars), f, OperandState, Machine(s2, ps + [Num(1.0)], vars));
    NumberOperand(toks[k + 3], Machine(s2, ps + [Num(1.0)], vars), f);
    assert ps + [Num(1.0)] + [Num(2.0)] == ps + [Num(1.0), Num(2.0)];
    RunAt(toks, k + 3, OperandState, Machine(s2, ps + [Num(1.0)], vars), f, OperatorState, Machine(s2, ps + [Num(1.0), Num(2.0)], vars));
  }

  /** SET_CLOSE after `{1, 2` collects the set {1, 2}. */
  lemma SetLiteral12(s: seq<Token>, ps: seq<Value>, vars: map<string, Value>)
    ensures CloseSet(Machine(s + [SetOpenTok, SepTok, SepTok], ps + [Num(1.0), Num(2.0)], vars), {})
      == Continue(Machine(s, ps + [Set12], vars))
  {
    CloseSetCollects(s, SetOpenTok, [SepTok, SepTok], ps, [Num(1.0), Num(2.0)], vars, {});
    assert s + [SetOpenTok] + [SepTok, SepTok] == s + [SetOpenTok, SepTok, SepTok];
    assert {} + (set y | y in [Num(1.0), Num(2.0)]) == {Num(1.0), Num(2.0)};
  }

  // ---------------------------------------------------------------------------
  // `x ∈ {1,2}`.

  /** `x ∈ {1,2}` for a number `x`: the set literal is built, END reduces the
      membership test, and its value is the result. */
  lemma MembershipRun(x: int, vars: map<string, Value>, functions: map<string, Builtin>)
    ensures Run([NumberTok(x), BelongTok, SetOpenTok, NumberTok(1), SepTok, NumberTok(2), SetCloseTok, EndToken],
                OperandState, Machine([], [], vars), functions)
      == Final(Ok(ValueResult(Bool(x == 1 || x == 2))), vars)
  {
    var toks := [NumberTok(x), BelongTok, SetOpenTok, NumberTok(1), SepTok, NumberTok(2), SetCloseTok, EndToken];
    assert toks[0..] == toks;
    MembershipStarts(toks, x, vars, functions);
    SetLiteralRun(toks, 2, [BelongTok], [Num(x as real)], vars, functions);
    MembershipEnds(toks, x, vars, functions);
  }

  lemma MembershipStarts(toks: seq<Token>, x: int, vars: map<string, Value>, functions: map<string, Builtin>)
    requires |toks| == 8 && toks[0] == NumberTok(x) && toks[1] == BelongTok
    ensures Run(toks[0..], OperandState, Machine([], [], vars), functions)
      == Run(toks[2..], OperandState, Machine([BelongTok], [Num(x as real)], vars), functions)
  {
    var f := functions;
    var vx := Num(x as real);
    NumberOperand(toks[0], Machine([], [], vars), f);
    RunAt(toks, 0, OperandState, Machine([], [], vars), f, OperatorState, Machine([], [vx], vars));
    BinaryArrives(toks[1], Machine([], [vx], vars), f, Machine([], [vx], vars));
    RunAt(toks, 1, OperatorState, Machine([], [vx], vars), f, OperandState, Machine([BelongTok], [vx], vars));
  }

  lemma MembershipEnds(toks: seq<Token>, x: int, vars: map<string, Value>, functions: map<string, Builtin>)
    requires |toks| == 8 && toks[7] == EndToken
    ensures Run(toks[7..], OperatorState, Machine([BelongTok], [Num(x as real)] + [Set12], vars), functions)
      == Final(Ok(ValueResult(Bool(x == 1 || x == 2))), vars)
  {
    var vx := Num(x as real);
    var b := Bool(x == 1 || x == 2);
    var m1 := Machine([BelongTok], [vx, Set12], vars);
    assert [vx] + [Set12] == [vx, Set12];
    MembershipReduces(vx, x, vars);
    EndArrives(toks[7], m1, functions, Machine([], [b], vars));
    RunEndAt(toks, 7, OperatorState, m1, functions, Machine([EndToken], [b], vars));
  }

  lemma MembershipReduces(vx: Value, x: int, vars: map<string, Value>)
    requires vx == Num(x as real)
    ensures Reduce(EndToken, Machine([BelongTok], [vx, Set12], vars)) == Continue(Machine([], [Bool(x == 1 || x == 2)], vars))
  {
    EvaluatorFacts.BelongLaws(vx, Set12);
    BinaryStep(EndToken, [], BelongTok, [vx, Set12], vars);
    BinaryApplied(Belong, [], vx, Set12);
    assert [] + [BelongTok] == [BelongTok] && [] + [vx, Set12] == [vx, Set12];
  }

  /** The token sequences of `1 ∈ {1,2}` and `3 ∈ {1,2}` run to True and to
      False; `ParseMembership` below starts from the strings themselves. */
  lemma MembershipExamples(vars: map<string, Value>, functions: map<string, Builtin>)
    ensures Run([NumberTok(1), BelongTok, SetOpenTok, NumberTok(1), SepTok, NumberTok(2), SetCloseTok, EndToken],
                OperandState, Machine([], [], vars), functions)
      == Final(Ok(ValueResult(Bool(true))), vars)
    ensures Run([NumberTok(3), BelongTok, SetOpenTok, NumberTok(1), SepTok, NumberTok(2), SetCloseTok, EndToken],
                OperandState, Machine([], [], vars), functions)
      == Final(Ok(ValueResult(Bool(false))), vars)
  {
    MembershipRun(1, vars, functions);
    MembershipRun(3, vars, functions);
  }

  // ---------------------------------------------------------------------------
  // `A = {1, 2}`.

  /** `A = {1, 2}` binds A to {1, 2} and returns NONE. */
  lemma DefineRun(vars: map<string, Value>, functions: map<string, Builtin>)
    ensures Run([VarTok("A"), DefineTok, SetOpenTok, NumberTok(1), SepTok, NumberTok(2), SetCloseTok, EndToken],
                OperandState, Machine([], [], vars), functions)
      == Final(Ok(NoneResult), vars["A" := Set12])
  {
    var toks := [VarTok("A"), DefineTok, SetOpenTok, NumberTok(1), SepTok, NumberTok(2), SetCloseTok, EndToken];
    var f := functions;
    var a := VarTok("A");
    assert toks[0..] == toks;
    VarOperand(toks[0], Machine([], [], vars), f);
    assert [] + [a] == [a];
    RunAt(toks, 0, OperandState, Machine([], [], vars), f, OperatorState, Machine([a], [], vars));
    VarReduces(DefineTok, [], a, [], vars);
    BinaryArrives(toks[1], Machine([a], [], vars), f, Machine([a], [], vars));
    RunAt(toks, 1, OperatorState, Machine([a], [], vars), f, OperandState, Machine([a, DefineTok], [], vars));
    SetLiteralRun(toks, 2, [a, DefineTok], [], vars, f);
    DefineEnds(toks, vars, f);
  }

  lemma DefineEnds(toks: seq<Token>, vars: map<string, Value>, functions: map<string, Builtin>)
    requires |toks| == 8 && toks[7] == EndToken
    ensures Run(toks[7..], OperatorState, Machine([VarTok("A"), DefineTok], [] + [Set12], vars), functions)
      == Final(Ok(NoneResult), vars["A" := Set12])
  {
    var a := VarTok("A");
    var m1 := Machine([a, DefineTok], [Set12], vars);
    assert [] + [Set12] == [Set12];
    DefineReduces(EndToken, Set12, vars);
    EndArrives(toks[7], m1, functions, Machine([], [], vars["A" := Set12]));
    RunEndAt(toks, 7, OperatorState, m1, functions, Machine([EndToken], [], vars["A" := Set12]));
  }

  /** DEFINE over `A`, with `x` on top of the operand stack, reduced by an
      arriving operator that binds no tighter than it: A is bound to x. */
  lemma DefineReduces(t: Token, x: Value, vars: map<string, Value>)
    requires Priority(t.kind) <= 0
    ensures Reduce(t, Machine([VarTok("A"), DefineTok], [x], vars)) == Continue(Machine([], [], vars["A" := x]))
  {
    var a := VarTok("A");
    DefineBinds(t, [], a, DefineTok, [], x, vars);
    assert [] + [a, DefineTok] == [a, DefineTok] && [] + [x] == [x];
  }

  // ---------------------------------------------------------------------------
  // Runs that fail.

  /** `1, 2`: at END the reduction loop meets the SEP and never ends. */
  lemma SeparatedPairDiverges(vars: map<string, Value>, functions: map<string, Builtin>)
    ensures Run([NumberTok(1), SepTok, NumberTok(2), EndToken], OperandState, Machine([], [], vars), functions)
      == Final(Fail(Diverges), vars)
  {
    var toks := [NumberTok(1), SepTok, NumberTok(2), EndToken];
    var one, two := Num(1.0), Num(2.0);
    assert toks[0..] == toks;
    SeparatedPairStarts(toks, vars, functions);
    ReduceSpins(EndToken, [], SepTok, [one, two], vars);
    assert [] + [SepTok] == [SepTok];
    RunHaltAt(toks, 3, OperatorState, Machine([SepTok], [one, two], vars), functions, Diverges, vars);
  }

  lemma SeparatedPairStarts(toks: seq<Token>, vars: map<string, Value>, functions: map<string, Builtin>)
    requires toks == [NumberTok(1), SepTok, NumberTok(2), EndToken]
    ensures Run(toks[0..], OperandState, Machine([], [], vars), functions)
      == Run(toks[3..], OperatorState, Machine([SepTok], [Num(1.0), Num(2.0)], vars), functions)
  {
    var f := functions;
    var one, two := Num(1.0), Num(2.0);
    NumberOperand(toks[0], Machine([], [], vars), f);
    RunAt(toks, 0, OperandState, Machine([], [], vars), f, OperatorState, Machine([], [one], vars));
    SepOperator(toks[1], Machine([], [one], vars), f);
    RunAt(toks, 1, OperatorState, Machine([], [one], vars), f, OperandState, Machine([SepTok], [one], vars));
    NumberOperand(toks[2], Machine([SepTok], [one], vars), f);
    RunAt(toks, 2, OperandState, Machine([SepTok], [one], vars), f, OperatorState, Machine([SepTok], [one, two], vars));
  }

  /** `A'`: COMPLEMENT arrives while A is still an unresolved VAR on the
      stack, so at END it finds no operand: an IndexError, whether or not A
      is defined. */
  lemma ComplementOfVariable(vars: map<string, Value>, functions: map<string, Builtin>)
    ensures Run([VarTok("A"), ComplementTok, EndToken], OperandState, Machine([], [], vars), functions)
      == Final(Fail(PyError(IndexError)), vars)
  {
    var toks := [VarTok("A"), ComplementTok, EndToken];
    var f := functions;
    var a := VarTok("A");
    assert toks[0..] == toks;
    VarOperand(toks[0], Machine([], [], vars), f);
    assert [] + [a] == [a];
    RunAt(toks, 0, OperandState, Machine([], [], vars), f, OperatorState, Machine([a], [], vars));
    ReduceStops(ComplementTok, Machine([a], [], vars));
    ComplementArrives(toks[1], Machine([a], [], vars), f, Machine([a], [], vars));
    RunAt(toks, 1, OperatorState, Machine([a], [], vars), f, OperatorState, Machine([a, ComplementTok], [], vars));
    ComplementReduces(EndToken, [a], ComplementTok, [], Num(0.0), vars);
    RunHaltAt(toks, 2, OperatorState, Machine([a, ComplementTok], [], vars), f, PyError(IndexError), vars);
  }

  /** `A = 1 ∪ 2`: the arriving UNION reduces DEFINE, so A is bound to 1
      before UNION finds a single operand; the failure does not undo it. */
  lemma DefineCommitsEarly(vars: map<string, Value>, functions: map<string, Builtin>)
    ensures Run([VarTok("A"), DefineTok, NumberTok(1), UnionTok, NumberTok(2), EndToken], OperandState, Machine([], [], vars), functions)
      == Final(Fail(PyError(IndexError)), vars["A" := Num(1.0)])
  {
    var toks := [VarTok("A"), DefineTok, NumberTok(1), UnionTok, NumberTok(2), EndToken];
    var f := functions;
    var a := VarTok("A");
    var one := Num(1.0);
    assert toks[0..] == toks;
    VarOperand(toks[0], Machine([], [], vars), f);
    assert [] + [a] == [a];
    RunAt(toks, 0, OperandState, Machine([], [], vars), f, OperatorState, Machine([a], [], vars));
    VarReduces(DefineTok, [], a, [], vars);
    BinaryArrives(toks[1], Machine([a], [], vars), f, Machine([a], [], vars));
    RunAt(toks, 1, OperatorState, Machine([a], [], vars), f, OperandState, Machine([a, DefineTok], [], vars));
    NumberOperand(toks[2], Machine([a, DefineTok], [], vars), f);
    RunAt(toks, 2, OperandState, Machine([a, DefineTok], [], vars), f, OperatorState, Machine([a, DefineTok], [one], vars));
    DefineCommitsEnds(toks, vars, f);
  }

  lemma DefineCommitsEnds(toks: seq<Token>, vars: map<string, Value>, functions: map<string, Builtin>)
    requires toks == [VarTok("A"), DefineTok, NumberTok(1), UnionTok, NumberTok(2), EndToken]
    ensures Run(toks[3..], OperatorState, Machine([VarTok("A"), DefineTok], [Num(1.0)], vars), functions)
      == Final(Fail(PyError(IndexError)), vars["A" := Num(1.0)])
  {
    var f := functions;
    var a := VarTok("A");
    var vars' := vars["A" := Num(1.0)];
    DefineReduces(UnionTok, Num(1.0), vars);
    BinaryArrives(toks[3], Machine([a, DefineTok], [Num(1.0)], vars), f, Machine([], [], vars'));
    RunAt(toks, 3, OperatorState, Machine([a, DefineTok], [Num(1.0)], vars), f, OperandState, Machine([UnionTok], [], vars'));
    UnionLacksOperand(toks, vars', f);
  }

  lemma UnionLacksOperand(toks: seq<Token>, vars: map<string, Value>, functions: map<string, Builtin>)
    requires |toks| == 6 && toks[4] == NumberTok(2) && toks[5] == EndToken
    ensures Run(toks[4..], OperandState, Machine([UnionTok], [], vars), functions) == Final(Fail(PyError(IndexError)), vars)
  {
    var f := functions;
    NumberOperand(toks[4], Machine([UnionTok], [], vars), f);
    RunAt(toks, 4, OperandState, Machine([UnionTok], [], vars), f, OperatorState, Machine([UnionTok], [Num(2.0)], vars));
    BinaryStep(EndToken, [], UnionTok, [Num(2.0)], vars);
    assert [] + [UnionTok] == [UnionTok];
    RunHaltAt(toks, 5, OperatorState, Machine([UnionTok], [Num(2.0)], vars), f, PyError(IndexError), vars);
  }

  // ---------------------------------------------------------------------------
  // Groups and calls, at CLOSE.

  /** `P(A)`, with "P" bound to `power_set` and A a set: the loop at CLOSE
      leaves the set of all subsets of A. */
  lemma PowerSetOfVariable(ps: seq<Value>, vars: map<string, Value>, functions: map<string, Builtin>)
    requires "P" in functions && functions["P"] == PowerSetFn
    requires "A" in vars && vars["A"].SetV?
    ensures CloseGroup(Machine([VarTok("P"), OpenTok, VarTok("A")], ps, vars), functions, 0)
      == Continue(Machine([], ps + [SetV(set t | t <= vars["A"].elems :: SetV(t))], vars))
  {
    CallOneArgument([], VarTok("P"), OpenTok, VarTok("A"), ps, vars, functions);
    assert [] + [VarTok("P"), OpenTok, VarTok("A")] == [VarTok("P"), OpenTok, VarTok("A")];
  }

  /** `(A ∪ B)` with B defined: at CLOSE the stack holds OPEN, UNION and the
      VAR B, and the value of A is already an operand; the group leaves the
      union. */
  lemma UnionGroup(a: set<Value>, b: set<Value>, vars: map<string, Value>, functions: map<string, Builtin>)
    requires "B" in vars && vars["B"] == SetV(b)
    ensures CloseGroup(Machine([OpenTok, UnionTok, VarTok("B")], [SetV(a)], vars), functions, 0)
      == Continue(Machine([], [SetV(a + b)], vars))
  {
    UnionGroupResolves(a, b, vars, functions);
    UnionGroupApplies(a, b, vars, functions);
  }

  lemma UnionGroupResolves(a: set<Value>, b: set<Value>, vars: map<string, Value>, functions: map<string, Builtin>)
    requires "B" in vars && vars["B"] == SetV(b)
    ensures CloseGroup(Machine([OpenTok, UnionTok, VarTok("B")], [SetV(a)], vars), functions, 0)
      == CloseGroup(Machine([OpenTok, UnionTok], [SetV(a), SetV(b)], vars), functions, 1)
  {
    GroupVarPass([OpenTok, UnionTok], VarTok("B"), [SetV(a)], vars, functions, 0);
    assert [OpenTok, UnionTok] + [VarTok("B")] == [OpenTok, UnionTok, VarTok("B")];
    assert [SetV(a)] + [SetV(b)] == [SetV(a), SetV(b)];
  }

  lemma UnionGroupApplies(a: set<Value>, b: set<Value>, vars: map<string, Value>, functions: map<string, Builtin>)
    ensures CloseGroup(Machine([OpenTok, UnionTok], [SetV(a), SetV(b)], vars), functions, 1)
      == Continue(Machine([], [SetV(a + b)], vars))
  {
    assert Evaluate(Union, SetV(a), SetV(b)) == Ok(SetV(a + b));
    GroupApplies([], OpenTok, UnionTok, [], SetV(a), SetV(b), vars, functions, 1);
    assert [] + [OpenTok, UnionTok] == [OpenTok, UnionTok];
    assert [] + [SetV(a), SetV(b)] == [SetV(a), SetV(b)];
    assert [] + [SetV(a + b)] == [SetV(a + b)];
  }

  // ---------------------------------------------------------------------------
  // Whole inputs, with the shell's table.

  /** `parse("A = {1, 2}")` binds A to {1, 2} and returns NONE. */
  lemma ParseDefinition(vars: map<string, Value>, functions: map<string, Builtin>)
    ensures ParseSpec(Table, vars, functions, "A = {1, 2}") == Final(Ok(NoneResult), vars["A" := Set12])
  {
    DefinitionInput("A = {1, 2}");
    TokenizerExamples.DefinitionTokens();
    DefineRun(vars, functions);
  }

  lemma DefinitionInput(e: string)
    requires e == "A = {1, 2}"
    ensures Strip(e) == e && e != [] && Lower(e) !in ExitWords
  {
    TokenizerExamples.StripDefinition(e);
    LongWordsDoNotExit(Lower(e));
  }

  /** `parse("x ∈ {1,2}")`, for a natural number `x` written in decimal whose
      first digit is not itself a table entry, is the truth of `x ∈ {1, 2}`
      and leaves the variable table alone. */
  lemma ParseMembershipWith(table: map<string, Kind>, x: nat, vars: map<string, Value>, functions: map<string, Builtin>)
    requires TokenizerExamples.KnowsMembership(table) && [NatText(x)[0]] !in table
    ensures ParseSpec(table, vars, functions, NatText(x) + " ∈ {1,2}")
      == Final(Ok(ValueResult(Bool(x == 1 || x == 2))), vars)
  {
    var e := NatText(x) + " ∈ {1,2}";
    TokenizerExamples.MembershipTokensWith(table, x, e);
    LongWordsDoNotExit(Lower(e));
    MembershipRun(x, vars, functions);
  }

  /** `parse("1 ∈ {1,2}")` returns True and `parse("3 ∈ {1,2}")` returns False. */
  lemma ParseMembership(vars: map<string, Value>, functions: map<string, Builtin>)
    ensures ParseSpec(Table, vars, functions, "1 ∈ {1,2}") == Final(Ok(ValueResult(Bool(true))), vars)
    ensures ParseSpec(Table, vars, functions, "3 ∈ {1,2}") == Final(Ok(ValueResult(Bool(false))), vars)
  {
    TokenizerExamples.TableKnowsMembership();
    MembershipTexts();
    ParseMembershipWith(Table, 1, vars, functions);
    ParseMembershipWith(Table, 3, vars, functions);
  }

  lemma MembershipTexts()
    ensures "1 ∈ {1,2}" == NatText(1) + " ∈ {1,2}" && [NatText(1)[0]] == "1"
    ensures "3 ∈ {1,2}" == NatText(3) + " ∈ {1,2}" && [NatText(3)[0]] == "3"
  {
    TokenizerExamples.DigitTexts();
    assert NatText(3) == "3";
  }

  lemma LongWordsDoNotExit(w: string)
    requires |w| > 4
    ensures w !in ExitWords
  {
  }

  /** Exit words are recognised after stripping and lower-casing, and the
      variable table is left alone. */
  lemma ParseExit(table: map<string, Kind>, vars: map<string, Value>, functions: map<string, Builtin>)
    ensures ParseSpec(table, vars, functions, " Exit ") == Final(Ok(ExitResult), vars)
  {
    ExitInput(" Exit ");
  }

  lemma ExitInput(e: string)
    requires e == " Exit "
    ensures Lower(Strip(e)) == "exit"
  {
    assert SkipSpaces(e) == e[1..];
    assert TrimRight(e[1..]) == e[1..5];
    assert e[1..5] == "Exit";
    assert Lower("Exit") == "exit";
  }

  /** Blank input returns NONE and leaves the variable table alone. */
  lemma ParseBlank(table: map<string, Kind>, vars: map<string, Value>, functions: map<string, Builtin>, e: string)
    requires forall k :: 0 <= k < |e| ==> IsSpace(e[k])
    ensures ParseSpec(table, vars, functions, e) == Final(Ok(NoneResult), vars)
  {
    StripEmpty(e);
  }
}
