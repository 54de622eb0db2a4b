# set-parser in Dafny

A model of the core of *conjuntos*, an interactive calculator for finite sets. The user types expressions such as `A = {1, 2}`, `1 ∈ A`, `A ∪ {3}`, `A'` or `P(A)`. The calculator:

- **tokenizes** the line with a table from symbol to token kind (`SetTokenizer`);
- **parses and evaluates** it in one pass with a two-stack operator-precedence machine (`SetParser.parse`);
- keeps the variables defined so far in a table.

The values are numbers, booleans, strings (the names of undefined variables), sets and pairs. Each is wrapped in Python classes that compare by content (`Set`, `Number`). The set operations, the subset tests, `power_set` and the cartesian product live in the evaluator.

The model has one Dafny module per source file, plus modules of properties:

| module | file | models |
|---|---|---|
| `Failures` | failures.dfy | the ways a parse stops without a value: ParseError (with its reason), EvaluateError, the plain Python errors that escape (IndexError, KeyError, TypeError, AssertionError), and a reduction loop that never ends |
| `Values` | values.dfy | `wrapper.py`. The values are a datatype. Python's type-checked equality is written out and proved to be the datatype's equality. Also truthiness, `len`, `in`, display and `Set.to_set` (a loop) |
| `Tokenizer`, `TokenizerFacts`, `TokenizerExamples` | tokenizer.dfy, tokenizer_examples.dfy | `tokenizer.py`. The class `SetTokenizer` has a `stream` field that its methods pop and push back, as the source does with its deque. `GetSpec` and `TokenizeSpec` are the functions the methods are proved against. The symbol table of `main.py` is a constant |
| `Evaluator`, `EvaluatorFacts`, `PowerSetFacts` | evaluator.dfy | `evaluator.py`. `evaluate` is a function. `is_proper_subset`, `cartesian_product` and `power_set` are methods with their loops, each proved against a reference definition |
| `ParserSpec`, `ParserFacts`, `ParserExamples` | parser_spec.dfy, parser_facts.dfy, parser_examples.dfy | the meaning of `SetParser.parse` as functions over a machine state (token stack, operand stack, variable table), with its properties and worked runs |
| `Parser` | parser.dfy | the class `SetParser`. Its `variables` field is updated in place by `Parse`. The token loop, the reduction loop, the loop at `)` and the loop at `}` are `while` loops over the two stacks, each proved to compute the `ParserSpec` function |

Numbers are exact reals. Whitespace and digits are ASCII only. The functions a parser can call form a table of built-ins, of which the shell installs only `power_set`.

## Model

| member | source | states |
|---|---|---|
| Values.PyEqIsEquality | conjuntos/model/wrapper.py:18-21 | Python's `==` between two values (a type check first, then sets by content, nested sets included) holds exactly when the values are equal. So content-equal sets are one element of an enclosing set, as the content-only hash intends |
| Values.PyEqSound | conjuntos/model/wrapper.py:48-51 | values equal under Python's `==` are identical. A `Number` equals only a `Number` of the same magnitude, never a bool, a string or a set |
| Values.PyEqReflexive | conjuntos/model/wrapper.py:15-21 | every value is `==` to itself, nested sets included |
| Values.Truthy | conjuntos/model/evaluator.py:48 | a set is true exactly when non-empty, a string exactly when non-empty, and a pair always; a number or boolean is true exactly when it is a number or `True` |
| Values.Len | conjuntos/model/evaluator.py:48 | `len` raises exactly for numbers and booleans, and gives the number of elements of a set |
| Values.Contains | conjuntos/model/evaluator.py:76-77 | `x in c` is set membership for a set, raises for a number or a boolean, and tests the two components of a pair. For a string it is the substring test when x is a string and raises otherwise |
| Values.Items | conjuntos/model/evaluator.py:49-50 | iterating a string gives its one-character strings in order; iterating a pair gives its two components |
| Values.NatText | conjuntos/model/wrapper.py:37-40 | `str(int(x))` of a natural number: at least one decimal digit and no leading zero |
| Values.NumberText | conjuntos/model/wrapper.py:37-40 | a `Number` has an integer rendering exactly when it is integral, and that rendering has no "." |
| Values.SetDisplay | conjuntos/model/wrapper.py:10-13 | the empty set displays as "∅". Under an iteration order that lists each element exactly once, any other set displays as "{", the `str` of its elements in that order joined by ", ", and "}" |
| Values.ToSet | conjuntos/model/wrapper.py:23-29 | the loop of `to_set` gives a set holding every element (ints and floats wrapped as `Number`) and nothing else |
| Values.ToSetSize | conjuntos/model/wrapper.py:23-29 | `to_set` has no more elements than its input, because duplicates collapse |
| Tokenizer.FractionValue | conjuntos/parser/tokenizer.py:6-11 | the digits after the point denote a value in [0, 1) |
| Tokenizer.SkipSpaces | conjuntos/parser/tokenizer.py:50-54 | what is left after the leading whitespace is no longer than the input, ends where the input ends, and is empty or starts with a non-space |
| Tokenizer.SkippedAreSpaces | conjuntos/parser/tokenizer.py:52-53 | everything `next_char` skips is whitespace |
| Tokenizer.SkipSpacesNonEmpty | conjuntos/parser/tokenizer.py:50-54 | a stream with a non-space character keeps one after the skipped whitespace, so `next_char` never pops an empty deque |
| Tokenizer.TrimRight | conjuntos/parser/tokenizer.py:29 | with the trailing whitespace removed, the text is no longer than the input, starts where the input starts, and is empty or ends with a non-space |
| Tokenizer.TrimmedAreSpaces | conjuntos/parser/tokenizer.py:29 | everything removed from the right is whitespace |
| Tokenizer.Strip | conjuntos/parser/tokenizer.py:29 | `strip()` leaves nothing, or something that starts and ends with a non-space |
| Tokenizer.StripEmpty | conjuntos/parser/tokenizer.py:29 | `strip()` gives "" if and only if the input is all whitespace |
| Tokenizer.StrippedHasNonSpace | conjuntos/parser/tokenizer.py:31-32 | the non-empty stream inside the loop of `tokenize` has a non-space character |
| Tokenizer.ScanNumber | conjuntos/parser/tokenizer.py:66-74 | the digit loop splits the stream into a run and a rest whose lengths add up to the stream's, and the rest does not start with a digit or "." (the run is maximal) |
| Tokenizer.ScanNumberSplits | conjuntos/parser/tokenizer.py:66-74 | the run followed by the rest is the stream (the non-digit is put back, not consumed), and the run holds only digits and dots |
| Tokenizer.ScanWord | conjuntos/parser/tokenizer.py:79-91 | the word loop returns a VAR whose text has no whitespace and no single-character symbol and is not itself a symbol, or else a symbol token from the table. It consumes a character whenever the first one is a word character |
| Tokenizer.ScanWordSpace | conjuntos/parser/tokenizer.py:82-83 | whitespace ends the word and is consumed |
| Tokenizer.ScanWordSymbol | conjuntos/parser/tokenizer.py:84-86 | a single-character symbol ends the word and is pushed back |
| Tokenizer.ScanWordAppend | conjuntos/parser/tokenizer.py:87-89 | any other character joins the word; once the word is a symbol, that symbol is returned at once |
| Tokenizer.GetSpec | conjuntos/parser/tokenizer.py:60-91 | one `get` consumes at least one character and keeps the end of the stream. Its token is a symbol of the table, a word, or a NUMBER |
| Tokenizer.GetAt | conjuntos/parser/tokenizer.py:63-64 | the same, once `next_char` has found the first character |
| Tokenizer.NumberOrWord | conjuntos/parser/tokenizer.py:66-91 | the same, for the digit loop followed (when `is_float` fails) by the word loop |
| Tokenizer.WordAfterNumber | conjuntos/parser/tokenizer.py:76-91 | the word loop after a digit run that is not a float still consumes a character |
| Tokenizer.TokenizeStep | conjuntos/parser/tokenizer.py:31-33 | one turn of the loop of `tokenize`: the token of `get`, then the tokens of what it leaves, which is still stripped |
| Tokenizer.TokenizeAdvance | conjuntos/parser/tokenizer.py:31-33 | the tokens collected so far plus the tokens of what is left stay the tokens of the whole input |
| Tokenizer.SetTokenizer.constructor | conjuntos/parser/tokenizer.py:46-48 | the tokenizer holds the given table and an empty stream |
| Tokenizer.SetTokenizer.NextChar | conjuntos/parser/tokenizer.py:50-54 | pops the whitespace and the first other character, and returns that character |
| Tokenizer.SetTokenizer.Get | conjuntos/parser/tokenizer.py:60-91 | returns the token of `GetSpec` and leaves exactly the stream `GetSpec` leaves |
| Tokenizer.SetTokenizer.ReadNumber | conjuntos/parser/tokenizer.py:66-74 | the digit loop returns the run of `ScanNumber` and leaves its rest |
| Tokenizer.SetTokenizer.ReadWord | conjuntos/parser/tokenizer.py:79-91 | the word loop returns the token of `ScanWord` and leaves its rest |
| Tokenizer.SetTokenizer.Tokenize | conjuntos/parser/tokenizer.py:27-37 | returns `TokenizeSpec` of the stripped expression, whose properties are below, and empties the stream |
| TokenizerFacts.ConfiguredTableIsOperatorTable | conjuntos/main.py:25-42 | the shell's table maps no symbol to END, VAR or NUMBER |
| TokenizerFacts.EndsWithEnd | conjuntos/parser/tokenizer.py:35-37 | every result of `tokenize` ends with the END token |
| TokenizerFacts.EndOnlyAtEnd | conjuntos/parser/tokenizer.py:27-37 | with such a table, END appears nowhere but last |
| TokenizerFacts.GetIsNotEnd | conjuntos/parser/tokenizer.py:60-91 | with such a table, `get` never returns END |
| TokenizerFacts.BlankInput | conjuntos/parser/tokenizer.py:27-37 | empty or whitespace-only input gives exactly `[END]` |
| TokenizerFacts.VarTokensAreWords | conjuntos/parser/tokenizer.py:79-91 | every VAR token of `tokenize` has no whitespace and no single-character symbol, and is not a symbol itself |
| TokenizerFacts.ScanDigits | conjuntos/parser/tokenizer.py:66-74 | the digit loop reads exactly a run of digits and dots, up to the first character that is neither |
| TokenizerFacts.NatTextValue | conjuntos/model/wrapper.py:37-40 | the printed digits of a natural number denote that number |
| TokenizerFacts.DigitsDecimal | conjuntos/parser/tokenizer.py:76-77 | `float()` of a string of digits is the number the digits denote |
| TokenizerFacts.ReadDigitsSnoc | conjuntos/parser/tokenizer.py:76-77 | one more digit multiplies the value read so far by ten and adds the digit |
| TokenizerFacts.NumberRoundTrip | conjuntos/parser/tokenizer.py:66-77 | a printed natural number reads back as one NUMBER token with that value. The character after it stays in the stream, and the printed form is what `Number.__str__` gives |
| TokenizerFacts.FloatRunIsNumber | conjuntos/parser/tokenizer.py:66-78 | any maximal run of digits and dots that `is_float` accepts, at a character that is no symbol, reads as one NUMBER token whose value is the run's decimal value; the next character stays in the stream |
| TokenizerFacts.FloatRunValues | conjuntos/parser/tokenizer.py:77-78 | "1.5", ".5" and "2." are floats worth 1.5, 0.5 and 2.0 |
| TokenizerFacts.ScanWordRun | conjuntos/parser/tokenizer.py:79-91 | word characters that spell no symbol on the way are read without stopping |
| TokenizerFacts.GetWord | conjuntos/parser/tokenizer.py:79-91 | `get` on a word that starts with no digit, dot or symbol continues in the word loop with that word read |
| TokenizerFacts.GetSymbol | conjuntos/parser/tokenizer.py:61-64 | a key of the table after whitespace gives `Token(table[c], c)` and consumes only up to it |
| TokenizerFacts.WordCutShort | conjuntos/parser/tokenizer.py:88-89 | as soon as the word read is a multi-character symbol, that operator is returned, even mid-word |
| TokenizerFacts.WordThenBreak | conjuntos/parser/tokenizer.py:80-91 | a word before whitespace (consumed), a symbol (kept) or the end of input is one VAR token |
| TokenizerFacts.ConfiguredNames | conjuntos/main.py:15-42 | in the reversed table "UNION", "INTERSECT" and "SYMMETRIC_DIFFERENCE" map to their kinds, and "^" maps to SYMMETRIC_DIFFERENCE because the later entry wins |
| TokenizerExamples.GetSkipsSpaces | conjuntos/parser/tokenizer.py:50-54 | whitespace before a token does not change what `get` returns |
| TokenizerExamples.TableKnowsDefinition | conjuntos/main.py:25-42 | the shell's table has "=", "{", "," and "}" with their kinds, and not "A", "1" or "2" |
| TokenizerExamples.DefinitionTokens | conjuntos/parser/tokenizer.py:27-91 | with the shell's table, `"A = {1, 2}"` gives VAR "A", DEFINE, SET_OPEN, NUMBER 1, SEP, NUMBER 2, SET_CLOSE, END |
| TokenizerExamples.DefinitionTokensWith | conjuntos/parser/tokenizer.py:27-91 | the same tokens for any table with those entries |
| TokenizerExamples.TableKnowsMembership | conjuntos/main.py:25-42 | the shell's table has "∈", "{", "," and "}" with their kinds, and not "1", "2" or "3" |
| TokenizerExamples.StripKeeps | conjuntos/parser/parser.py:45-48 | a line that starts and ends with a non-space is its own `strip()` |
| TokenizerExamples.MembershipTokensWith | conjuntos/parser/tokenizer.py:27-91 | for any table with those entries and without x's first digit, `"x ∈ {1,2}"` gives NUMBER x, BELONG, SET_OPEN, NUMBER 1, SEP, NUMBER 2, SET_CLOSE, END |
| TokenizerExamples.TokenizeWord | conjuntos/parser/tokenizer.py:80-83 | a word followed by whitespace is one VAR token, and the whitespace goes |
| TokenizerExamples.TokenizeSymbol | conjuntos/parser/tokenizer.py:61-64 | a symbol character after optional whitespace is one token |
| TokenizerExamples.TokenizeNumber | conjuntos/parser/tokenizer.py:66-77 | the digits of a number after optional whitespace are one NUMBER token with that value |
| Evaluator.Priority | conjuntos/model/evaluator.py:21-26 | END gives −1, VAR and NUMBER give 1, COMPLEMENT gives 2, and any other kind gives 0. Each holds in both directions |
| Evaluator.CartesianOf | conjuntos/model/evaluator.py:58-64 | every member of the product is a pair with its first component from the left set and its second from the right |
| Evaluator.Row | conjuntos/model/evaluator.py:60-62 | one turn of the outer loop adds exactly the pairs `(x, y)` for every `y` of the right set |
| Evaluator.CartesianSplit | conjuntos/model/evaluator.py:60-62 | the product is the row of one `x` plus the product of the rest, and the two are disjoint |
| Evaluator.CartesianProduct | conjuntos/model/evaluator.py:58-64 | the nested loops give exactly the set of all pairs `(x, y)` with `x` from the left set and `y` from the right |
| Evaluator.SeqAllIn | conjuntos/model/evaluator.py:49-50 | the loop over an ordered operand answers True exactly when every item is `in right` |
| Evaluator.SetAllIn | conjuntos/model/evaluator.py:49-50 | the same over a set. Against a set it is plain inclusion |
| Evaluator.IsProperSubset | conjuntos/model/evaluator.py:47-51 | the early-return loop gives the reference result, except that it may give False where Python's iteration order decides between False and a TypeError |
| Evaluator.SetLoop | conjuntos/model/evaluator.py:49-51 | the loop over a set gives the reference result, or False when some element is missing and another raises |
| Evaluator.SetAllInRaises | conjuntos/model/evaluator.py:49-50 | an element that raises against `right` makes the reference result a TypeError |
| Evaluator.SetAllInMisses | conjuntos/model/evaluator.py:49-51 | an element missing from `right` makes the reference result False or a TypeError, never True |
| Evaluator.SeqLoop | conjuntos/model/evaluator.py:49-51 | the loop over a string or a pair, in order, gives exactly the reference result |
| Evaluator.AllSubsets | conjuntos/model/evaluator.py:32-43 | the empty set, the singletons, the combinations of sizes 2 to n−1 and the set itself are exactly all its subsets |
| Evaluator.PowerSet | conjuntos/model/evaluator.py:29-44 | the loops of `power_set` compute `PowerSetSpec`: IndexError with no argument, TypeError for a number or a boolean, all subsets of a set, and for a string or pair the sets its `combinations` give |
| Evaluator.AddSetSingletons | conjuntos/model/evaluator.py:36-37 | the singleton loop adds exactly `{e}` for every element |
| Evaluator.AddSetCombinations | conjuntos/model/evaluator.py:41-42 | the combinations of size `i` of a set are exactly its subsets of size `i` |
| Evaluator.AddItemSingletons | conjuntos/model/evaluator.py:36-37 | over a string or a pair, one singleton per item |
| Evaluator.AddItemCombinations | conjuntos/model/evaluator.py:41-42 | over a string or a pair, one set per choice of `i` positions |
| EvaluatorFacts.SoftFailures | conjuntos/model/evaluator.py:86-94 | each of the three guards (a set operator with a non-set operand, a boolean operator on two numbers/booleans, a subset test with no set) answers False |
| EvaluatorFacts.EvaluateErrorExactly | conjuntos/model/evaluator.py:97-99 | EvaluateError is raised if and only if the operator is not in the evaluation table and the guards let it through (COMPLEMENT on two sets, for one). Any other failure of an operator in the table is a TypeError |
| EvaluatorFacts.SeqAllInFailure | conjuntos/model/evaluator.py:49-50 | the loop over an ordered operand fails only with a TypeError |
| EvaluatorFacts.ComplementOfTwoSets | conjuntos/model/evaluator.py:97-99 | `evaluate("COMPLEMENT", A, B)` on two sets raises EvaluateError |
| EvaluatorFacts.ProperSubsetFailure | conjuntos/model/evaluator.py:47-51 | `is_proper_subset` fails only with a TypeError |
| EvaluatorFacts.UnionIntersectCommute | conjuntos/model/evaluator.py:69-70 | UNION and INTERSECT are commutative on all operands |
| EvaluatorFacts.SymmetricDifferenceLaws | conjuntos/model/evaluator.py:69-72 | SYMMETRIC_DIFFERENCE(A, B) is UNION minus INTERSECT, and SYMMETRIC_DIFFERENCE(A, A) is ∅ |
| EvaluatorFacts.BelongLaws | conjuntos/model/evaluator.py:76-77 | BELONG with a set on the right is structural membership. NOT_BELONG is its exact negation, failures included, except that both are False on two numbers/booleans |
| EvaluatorFacts.ProperSubsetOfSets | conjuntos/model/evaluator.py:47-51 | on two sets `is_proper_subset` is strict inclusion |
| EvaluatorFacts.OrderMattersOnlyForStrings | conjuntos/model/evaluator.py:49-50 | iteration order can only matter when the right operand is a string |
| EvaluatorFacts.ProperSubsetAgree | conjuntos/model/evaluator.py:54-55 | `is_proper_subset2` is strict inclusion and agrees with `is_proper_subset` on all pairs of sets |
| EvaluatorFacts.SubsetOperators | conjuntos/model/evaluator.py:78-80 | PROPER_SUBSET is strict inclusion, NOT_SUBSET its negation and IMPROPER_SUBSET equality. So PROPER_SUBSET(A, A) is False and NOT_SUBSET(A, A) is True |
| EvaluatorFacts.ImproperSubsetIsEquality | conjuntos/model/evaluator.py:79 | IMPROPER_SUBSET is `l == r` whenever a set is involved, and False on two non-sets |
| EvaluatorFacts.CartesianSize | conjuntos/model/evaluator.py:58-64 | the product has \|A\|·\|B\| pairs |
| EvaluatorFacts.CartesianLaws | conjuntos/model/evaluator.py:73 | CARTESIAN on two sets holds `(x, y)` exactly when `x ∈ A` and `y ∈ B`, and has \|A\|·\|B\| members |
| PowerSetFacts.SubsetsCount | conjuntos/model/evaluator.py:29-44 | a set of n elements has 2^n subsets |
| PowerSetFacts.PowerSetOfSet | conjuntos/model/evaluator.py:29-44 | `power_set([s])` contains ∅ and s, holds exactly the subsets of s, and has 2^\|s\| members |
| PowerSetFacts.PowerSetArguments | conjuntos/model/evaluator.py:29-30 | with no argument IndexError. Otherwise only the first argument matters, and a number or a boolean raises TypeError |
| ParserSpec.Resolve | conjuntos/parser/parser.py:92-95 | a defined VAR resolves to its value; an undefined VAR resolves to its own name as text instead of failing |
| ParserSpec.ApplyBinary | conjuntos/parser/parser.py:116-119 | a binary reduction with fewer than two operands is an IndexError. A successful one replaces two operands by one |
| ParserSpec.ApplyUnary | conjuntos/parser/parser.py:108-113 | COMPLEMENT with no operand is an IndexError. A successful one replaces the operand in place |
| ParserSpec.DefineStep | conjuntos/parser/parser.py:99-105 | a DEFINE pass that lets the loop go round again leaves a stack shorter than the one beneath the DEFINE |
| ParserSpec.VarStep | conjuntos/parser/parser.py:87-97 | a VAR that is not kept for DEFINE is popped |
| ParserSpec.ReduceStep | conjuntos/parser/parser.py:80-119 | every pass of the reduction loop that goes round again pops the stack |
| ParserSpec.OpenStep | conjuntos/parser/parser.py:135-153 | a call or a dropped SEP beneath OPEN pops the stack |
| ParserSpec.CloseGroupStep | conjuntos/parser/parser.py:133-174 | every pass of the loop at CLOSE that goes round again pops the stack |
| ParserSpec.CloseSetStep | conjuntos/parser/parser.py:178-188 | every pass of the loop at SET_CLOSE that goes round again pops the stack |
| ParserSpec.Lower | conjuntos/parser/parser.py:45 | `lower()` maps each character and keeps the length |
| Parser.PopAndEvaluate | conjuntos/parser/parser.py:116-119 | pops right, then left, and pushes `evaluate`. It fails with IndexError on underflow |
| Parser.SetParser.constructor | conjuntos/parser/parser.py:38-41 | the parser holds the given tokenizer, variables and functions |
| Parser.SetParser.PopAndComplement | conjuntos/parser/parser.py:108-113 | pops the target. It must be a set and "S" must be defined; the result is DIFFERENCE(S, target) |
| Parser.SetParser.Assign | conjuntos/parser/parser.py:99-105 | the DEFINE pass computes `DefineStep`: with a VAR beneath and an operand, `variables` gains the binding of the VAR's name to the top operand; otherwise IndexError or "Expected Variable Name", and `variables` is unchanged |
| Parser.SetParser.ReducePass | conjuntos/parser/parser.py:81-119 | one pass of the reduction loop computes `ReduceStep` and updates `variables` as it says |
| Parser.SetParser.ReduceStack | conjuntos/parser/parser.py:80-119 | the reduction loop computes `Reduce` and leaves `variables` as its outcome says |
| Parser.SetParser.AtOpen | conjuntos/parser/parser.py:135-153 | OPEN reached at CLOSE: a function call, keeping an operator, dropping a SEP, or the ExpectedFunction error, as `OpenStep` says |
| Parser.SetParser.GroupPass | conjuntos/parser/parser.py:133-174 | one pass of the loop at CLOSE computes `CloseGroupStep` |
| Parser.SetParser.PopGroup | conjuntos/parser/parser.py:131-174 | the loop at CLOSE computes `CloseGroup` |
| Parser.SetParser.PopArguments | conjuntos/parser/parser.py:139-144 | the arguments of a call: the top operand when none was counted, otherwise the top `count` operands in their original order (the `[::-1]`). IndexError when there are too few |
| Parser.SetParser.PopSet | conjuntos/parser/parser.py:176-189 | the loop at SET_CLOSE computes `CloseSet` |
| Parser.SetParser.OperandToken | conjuntos/parser/parser.py:57-76 | a token in operand position computes `OperandStep` |
| Parser.SetParser.Arrive | conjuntos/parser/parser.py:79-125 | an operator runs the reduction loop, is pushed, and selects the next state; `variables` follows the outcome |
| Parser.SetParser.OperatorToken | conjuntos/parser/parser.py:78-191 | a token in operator position computes `OperatorStep`; only a reduced DEFINE changes `variables` |
| Parser.SetParser.TokenStep | conjuntos/parser/parser.py:56-191 | one token, in the current state, computes `Step` |
| Parser.SetParser.RunTokens | conjuntos/parser/parser.py:56-198 | the token loop and the END check compute `Run`: the result together with the final `variables` |
| Parser.SetParser.Conclude | conjuntos/parser/parser.py:193-198 | an empty stack is an IndexError and a top that is not END an AssertionError. Otherwise VALUE of the top operand, or NONE |
| Parser.SetParser.Parse | conjuntos/parser/parser.py:43-198 | `parse` gives the result and the new `variables` that `ParseSpec` defines: EXIT for an exit word, NONE for a blank line, otherwise the token loop over the tokens of the stripped line |
| ParserFacts.CloseGroupStepPops | conjuntos/parser/parser.py:133-174 | a pass of the loop at CLOSE keeps the variable table and only pops the stack |
| ParserFacts.CloseSetStepPops | conjuntos/parser/parser.py:178-188 | a pass of the loop at SET_CLOSE keeps the variable table and only pops the stack |
| ParserFacts.ReduceStepPops | conjuntos/parser/parser.py:80-119 | a reduction pass with no DEFINE on top keeps the variable table and only pops the stack |
| ParserFacts.GroupVarPass | conjuntos/parser/parser.py:155-160 | at CLOSE, a VAR on top is resolved onto the operand stack and counts as one argument |
| ParserFacts.GroupApplies | conjuntos/parser/parser.py:133-174 | at CLOSE, `( x op y )` with a binary operator leaves `evaluate(op, x, y)` or its failure, and an operator beneath the OPEN stays on the stack |
| ParserFacts.CallOneArgument | conjuntos/parser/parser.py:135-144 | at CLOSE, `f(a)` with f a known function calls it on the list holding a's resolved value. A failed call stops the parse; otherwise the loop goes on with the result as one argument |
| ParserFacts.CloseGroupKeepsVars | conjuntos/parser/parser.py:131-174 | the loop at CLOSE never writes `variables`, and leaves a prefix of the stack |
| ParserFacts.CloseGroupUnroll | conjuntos/parser/parser.py:133-174 | a pass that leaves the loop at CLOSE gives its outcome. Any other pass keeps the variables and the rest of the loop |
| ParserFacts.CloseSetKeepsVars | conjuntos/parser/parser.py:176-189 | the loop at SET_CLOSE never writes `variables`, and leaves a prefix of the stack |
| ParserFacts.OperandStepKeepsVars | conjuntos/parser/parser.py:57-76 | a token in operand position never writes `variables` |
| ParserFacts.ReduceKeepsVars | conjuntos/parser/parser.py:80-119 | without DEFINE on the stack the reduction loop never writes `variables` |
| ParserFacts.StepKeepsVars | conjuntos/parser/parser.py:56-191 | a non-DEFINE token, with no DEFINE on the stack, keeps `variables` and pushes no DEFINE |
| ParserFacts.RunKeepsVars | conjuntos/parser/parser.py:56-198 | a token sequence without DEFINE leaves `variables` as it was, on success and on failure |
| ParserFacts.ParseKeepsVars | conjuntos/parser/parser.py:43-198 | `parse` of an input without DEFINE leaves `variables` unchanged |
| ParserFacts.RunAt | conjuntos/parser/parser.py:56-129 | the token loop goes on with the next token after a token that leaves it running |
| ParserFacts.RunEndAt | conjuntos/parser/parser.py:124-125 | the token loop stops right after pushing END |
| ParserFacts.RunHaltAt | conjuntos/parser/parser.py:56-191 | a token that fails ends `parse` with that failure and the variable table as the failure left it |
| ParserFacts.NumberOperand | conjuntos/parser/parser.py:58-60 | a NUMBER in operand position is pushed as a `Number`, and an operator is expected next |
| ParserFacts.VarOperand | conjuntos/parser/parser.py:61-63 | a VAR in operand position is pushed on the token stack unresolved |
| ParserFacts.SetOpenOperand | conjuntos/parser/parser.py:66-68 | SET_OPEN pushes itself and a SEP |
| ParserFacts.SepOperator | conjuntos/parser/parser.py:127-129 | SEP and OPEN in operator position are pushed without reduction |
| ParserFacts.SetCloseOperator | conjuntos/parser/parser.py:176-189 | SET_CLOSE in operator position runs the set loop with an empty set |
| ParserFacts.BinaryArrives | conjuntos/parser/parser.py:121-123 | a binary operator, after reduction, is pushed and an operand is expected |
| ParserFacts.ComplementArrives | conjuntos/parser/parser.py:121-122 | COMPLEMENT, after reduction, is pushed and the state stays OPERATOR |
| ParserFacts.EndArrives | conjuntos/parser/parser.py:121-125 | END, after reduction, is pushed and the token loop finishes |
| ParserFacts.CloseSetCollects | conjuntos/parser/parser.py:176-189 | `{a, b, …}`: one operand per SEP is collected into one new deduplicating set, which is pushed once SET_OPEN is reached |
| ParserFacts.SepPass | conjuntos/parser/parser.py:187-188 | a SEP moves the top operand into the set |
| ParserFacts.OpenPass | conjuntos/parser/parser.py:180-181 | SET_OPEN ends the loop and the set is pushed |
| ParserFacts.EmptySetLiteral | conjuntos/parser/parser.py:69-74 | `{}` pushes the empty set |
| ParserFacts.OperandRules | conjuntos/parser/parser.py:57-76 | in operand position the "Unexpected Token" error arises exactly for the tokens other than NUMBER, VAR, OPEN, SET_OPEN and SET_CLOSE, END included |
| ParserFacts.ReduceStops | conjuntos/parser/parser.py:84-85 | reduction stops at OPEN or at a top item of lower priority than the arriving token |
| ParserFacts.BinaryStep | conjuntos/parser/parser.py:115-119 | a pass over a binary operator replaces the top two operands by `evaluate`, or stops with its failure |
| ParserFacts.ComplementReduces | conjuntos/parser/parser.py:107-113 | COMPLEMENT on top is always reduced. No operand gives IndexError; a non-set target, or an undefined "S", gives a ParseError. Otherwise the target becomes S minus the target when S is a set, and False when S is not a set (the guard of `evaluate`) |
| ParserFacts.UnaryStep | conjuntos/parser/parser.py:107-113 | a pass over COMPLEMENT replaces the top operand, or stops with the failure |
| ParserFacts.ComplementOperand | conjuntos/parser/parser.py:110-113 | the four outcomes of COMPLEMENT on a given target: ParseError for a non-set target or an undefined "S", S minus the target when S is a set, False when S is not a set |
| ParserFacts.DefineBinds | conjuntos/parser/parser.py:99-105 | DEFINE above a VAR stores the top operand under the VAR's name and removes both tokens and the operand |
| ParserFacts.DefineNeedsName | conjuntos/parser/parser.py:101-103 | DEFINE above a non-VAR raises "Expected Variable Name"; with nothing beneath it, IndexError |
| ParserFacts.VarReduces | conjuntos/parser/parser.py:87-97 | a VAR stays for DEFINE. An undefined VAR becomes its name and the loop goes on; a defined VAR becomes its value and stops the loop, except at END |
| ParserFacts.ReduceSpins | conjuntos/parser/parser.py:80-119 | a top item no branch handles (SEP, SET_OPEN) leaves everything unchanged, so the loop never ends: `Diverges` |
| ParserFacts.EndDrains | conjuntos/parser/parser.py:80-121 | END on a stack of binary operators reduces them all, topmost first. The result is their right-grouped fold over the top operands, or the first failure |
| ParserFacts.EndDrainsOnce | conjuntos/parser/parser.py:115-119 | one pass under END applies the topmost operator to the top two operands |
| ParserExamples.PowerSetOfVariable | conjuntos/parser/parser.py:131-160 | at CLOSE, `P(A)` with P bound to `power_set` and A a defined set replaces the call by the set of all subsets of A |
| ParserExamples.UnionGroup | conjuntos/parser/parser.py:131-174 | at CLOSE, `(a ∪ B)` with B defined leaves the union of the two sets and an empty stack |
| ParserExamples.SetLiteralRun | conjuntos/parser/parser.py:56-189 | the tokens of `{1, 2}` in operand position leave the set {1, 2} on the operand stack |
| ParserExamples.SetLiteral12 | conjuntos/parser/parser.py:176-189 | SET_CLOSE after `{1, 2` pushes {1, 2} |
| ParserExamples.MembershipRun | conjuntos/parser/parser.py:56-198 | `x ∈ {1,2}` gives VALUE True exactly when x is 1 or 2 |
| ParserExamples.MembershipExamples | conjuntos/parser/parser.py:193-198 | the token sequences of `1 ∈ {1,2}` and `3 ∈ {1,2}` give True and False |
| ParserExamples.DefineRun | conjuntos/parser/parser.py:99-105 | `A = {1, 2}` binds A to {1, 2} and returns NONE |
| ParserExamples.DefineReduces | conjuntos/parser/parser.py:99-105 | DEFINE over A with one operand binds A and empties both stacks |
| ParserExamples.SeparatedPairDiverges | conjuntos/parser/parser.py:80-119 | `1, 2` never finishes: the reduction loop at END spins on the SEP |
| ParserExamples.ComplementOfVariable | conjuntos/parser/parser.py:107-109 | `A'` is an IndexError whether or not A is defined, because A is still unresolved when COMPLEMENT is reduced |
| ParserExamples.DefineCommitsEarly | conjuntos/parser/parser.py:99-105 | `A = 1 ∪ 2` binds A to 1, then fails with IndexError, and the binding stays |
| ParserExamples.UnionLacksOperand | conjuntos/parser/parser.py:116-118 | UNION on the stack with no operand, reduced at END after one more number, is an IndexError |
| ParserExamples.ParseMembershipWith | conjuntos/parser/parser.py:43-198 | `parse("x ∈ {1,2}")`, for a natural number x in decimal and any table with the symbols it meets, returns True exactly when x is 1 or 2 and keeps the variables |
| ParserExamples.ParseMembership | conjuntos/parser/parser.py:43-198 | with the shell's table, `parse("1 ∈ {1,2}")` returns True and `parse("3 ∈ {1,2}")` returns False |
| ParserExamples.ParseDefinition | conjuntos/parser/parser.py:43-198 | `parse("A = {1, 2}")` with the shell's table binds A to {1, 2} and returns NONE |
| ParserExamples.LongWordsDoNotExit | conjuntos/parser/parser.py:45-46 | a word of more than four characters is never one of the exit words |
| ParserExamples.ParseExit | conjuntos/parser/parser.py:45-46 | `" Exit "` returns EXIT and leaves the variables alone |
| ParserExamples.ParseBlank | conjuntos/parser/parser.py:47-48 | blank input returns NONE and leaves the variables alone |

## Behaviour of the code worth knowing

Each point below is what the code does, and the model does the same.

- **DEFINE commits early.** The value is stored as soon as DEFINE is reduced (`parser.py:105`). A later failure in the same line does not undo it (`ParserExamples.DefineCommitsEarly`).
- **IMPROPER_SUBSET is equality.** `⊆` evaluates `l == r` (`evaluator.py:79`), so `{1} ⊆ {1, 2}` is False although {1} is included in {1, 2}.
- **Binary operators do not always group left to right.** They do when the operands are literals. A defined VAR stops reduction (`parser.py:96-97`), so a chain of defined variables is reduced only at END, from the top of the stack down (`ParserFacts.EndDrains`, `ParserFacts.VarReduces`).
- **`A'` fails.** The VAR is still unresolved when COMPLEMENT arrives (priority 1 < 2), and COMPLEMENT then finds no operand (`ParserExamples.ComplementOfVariable`).
- **Some failures are not ParseErrors.** An operand underflow or an empty stack is an IndexError. A call of an unknown name is a KeyError (`parser.py:144`). A final stack top other than END is an AssertionError.
- **Some inputs never finish.** For `1, 2` and `{1 ∪ {2}}` the reduction loop spins forever on a SEP or SET_OPEN (`ParserExamples.SeparatedPairDiverges`).
- **"^" is listed under two kinds.** The symbol table of `main.py` lists "^" under both INTERSECT and SYMMETRIC_DIFFERENCE. The later entry wins, so "^" is SYMMETRIC_DIFFERENCE (`TokenizerFacts.ConfiguredNames`).

## Left out

- The shell in `conjuntos/main.py` is not part of this model: the REPL loop, printing, and the seeding of variables and functions. Only its symbol table is kept, as `Tokenizer.Table`.
- `conjuntos/parser/resolve.py` and `conjuntos/model/resolver.py` are not part of this model. They only dispatch to callbacks.
- `SetTokenizer.find_match` is an unused identity placeholder. The default field values of `Token` play no part in the logic.
- Floating point is not modelled: numbers are exact reals. `float()` is modelled only on runs of ASCII digits and dots, the only strings the tokenizer hands it.
- Values.NumberText: it gives no text for a non-integral number, because Python's shortest-repr float printing is not modelled.
- Values.SetDisplay: Python's set iteration order is a parameter of `Render`, assumed only to list each element once, because no particular order is modelled.
- Unicode is out of scope. `isspace`, `isdigit`, `strip()` and `lower()` are modelled on ASCII only.
- Exception messages are not modelled. A failure records only its kind: the ParseError reason, EvaluateError, or the Python error class.
- Parser.SetParser.ReduceStack: where the source's reduction loop would repeat forever, the method stops and returns `Diverges`. Non-termination is thus an outcome, and the model does not loop.
- Evaluator.IsProperSubset: when a set's elements both raise and miss against a string, the result depends on Python's set iteration order. The contract allows the reference result or False.
- Evaluator.SetLoop: same reason as `Evaluator.IsProperSubset`.
- The function table holds built-ins only, of which `power_set` is the one the shell installs. Arbitrary Python callables are not modelled.
- The parse state END of `ParseState` is never entered by the code and is not modelled.
- The tokenizer object's own state after `parse` (its drained stream) is modelled, but aliasing between parsers sharing a tokenizer is not.
