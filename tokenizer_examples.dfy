/** `tokenize` with the shell's table on a small definition. */
module TokenizerExamples {
  import opened Tokenizer
  import opened TokenizerFacts
  import opened Values

  /** One `get` at the front of a stripped string. */
  lemma TokenizeVia(table: map<string, Kind>, s: seq<char>, t: Token, rest: seq<char>)
    requires s != [] && !IsSpace(s[|s| - 1])
    requires HasNonSpace(s) && GetSpec(table, s) == (t, rest)
    ensures rest == [] || !IsSpace(rest[|rest| - 1])
    ensures TokenizeSpec(table, s) == [t] + TokenizeSpec(table, rest)
  {
    TokenizeStep(table, s);
  }

  /** `get` skips leading whitespace. */
  lemma GetSkipsSpaces(table: map<string, Kind>, spaces: string, s: seq<char>)
    requires forall k :: 0 <= k < |spaces| ==> IsSpace(spaces[k])
    requires s != [] && !IsSpace(s[0])
    ensures HasNonSpace(s) && HasNonSpace(spaces + s)
    ensures GetSpec(table, spaces + s) == GetSpec(table, s)
  {
    assert !IsSpace(s[0]);
    assert (spaces + s)[|spaces|] == s[0];
    SkipSpacesPrefix(spaces, s);
  }

  lemma {:induction false} SkipSpacesPrefix(spaces: string, s: seq<char>)
    requires forall k :: 0 <= k < |spaces| ==> IsSpace(spaces[k])
    requires s != [] && !IsSpace(s[0])
    ensures SkipSpaces(spaces + s) == s
    decreases |spaces|
  {
    if spaces == [] {
      assert spaces + s == s;
    } else {
      assert (spaces + s)[0] == spaces[0];
      assert (spaces + s)[1..] == spaces[1..] + s;
      SkipSpacesPrefix(spaces[1..], s);
    }
  }

  /** The table entries the definition below meets. */
  predicate KnowsDefinition(table: map<string, Kind>) {
    "A" !in table && "1" !in table && "2" !in table
    && "=" in table && table["="] == Define && "{" in table && table["{"] == SetOpen
    && "," in table && table[","] == Sep && "}" in table && table["}"] == SetClose
  }

  lemma TableKnowsDefinition()
    ensures KnowsDefinition(Table)
  {
    WordFacts();
    SymbolFacts();
  }

  lemma WordFacts()
    ensures "A" !in Table && "1" !in Table && "2" !in Table
  {
  }

  lemma SymbolFacts()
    ensures "=" in Table && Table["="] == Define && "{" in Table && Table["{"] == SetOpen
    ensures "," in Table && Table[","] == Sep && "}" in Table && Table["}"] == SetClose
  {
  }

  /** `A = {1, 2}` with the shell's table reads as VAR "A", DEFINE, SET_OPEN,
      NUMBER 1, SEP, NUMBER 2, SET_CLOSE, END. */
  lemma DefinitionTokens()
    ensures TokenizeSpec(Table, Strip("A = {1, 2}")) ==
      [Token(Var, 0.0, "A"), Token(Define, 0.0, "="), Token(SetOpen, 0.0, "{"), Token(Number, 1.0, ""),
       Token(Sep, 0.0, ","), Token(Number, 2.0, ""), Token(SetClose, 0.0, "}"), EndToken]
  {
    TableKnowsDefinition();
    StripDefinition("A = {1, 2}");
    DefinitionTokensWith(Table, "A = {1, 2}");
  }

  lemma StripDefinition(e: string)
    requires e == "A = {1, 2}"
    ensures Strip(e) == e
  {
    assert SkipSpaces(e) == e;
    assert TrimRight(e) == e;
  }

  /** The same, for any table with the entries the input meets. */
  lemma DefinitionTokensWith(table: map<string, Kind>, e: string)
    requires KnowsDefinition(table) && e == "A = {1, 2}"
    ensures !IsSpace(e[|e| - 1])
    ensures TokenizeSpec(table, e) ==
      [Token(Var, 0.0, "A"), Token(Define, 0.0, "="), Token(SetOpen, 0.0, "{"), Token(Number, 1.0, ""),
       Token(Sep, 0.0, ","), Token(Number, 2.0, ""), Token(SetClose, 0.0, "}"), EndToken]
  {
    assert !IsSpace(e[|e| - 1]);
    var s1 := e[2..];
    var s2 := s1[1..];
    var s3 := s2[2..];
    var s4 := s3[1..];
    var s45 := s4[1..];
    var s5 := s45[2..];
    assert s1 == "= {1, 2}" && s2 == " {1, 2}" && s3 == "1, 2}" && s4 == ", 2}" && s45 == " 2}" && s5 == "}";
    FirstWord(table, e, s1);
    Symbols(table, s1, s2, s3);
    Numbers(table, s3, s4, s45);
    LastNumber(table, s45, s5);
    Assemble(TokenizeSpec(table, e), TokenizeSpec(table, s1), TokenizeSpec(table, s2), TokenizeSpec(table, s3),
             TokenizeSpec(table, s4), TokenizeSpec(table, s45), TokenizeSpec(table, s5), TokenizeSpec(table, []));
  }

  lemma Assemble(x0: seq<Token>, x1: seq<Token>, x2: seq<Token>, x3: seq<Token>,
                 x4: seq<Token>, x5: seq<Token>, x6: seq<Token>, x7: seq<Token>)
    requires x0 == [Token(Var, 0.0, "A")] + x1 && x1 == [Token(Define, 0.0, "=")] + x2
    requires x2 == [Token(SetOpen, 0.0, "{")] + x3 && x3 == [Token(Number, 1.0, "")] + x4
    requires x4 == [Token(Sep, 0.0, ",")] + x5 && x5 == [Token(Number, 2.0, "")] + x6
    requires x6 == [Token(SetClose, 0.0, "}")] + x7 && x7 == [EndToken]
    ensures x0 ==
      [Token(Var, 0.0, "A"), Token(Define, 0.0, "="), Token(SetOpen, 0.0, "{"), Token(Number, 1.0, ""),
       Token(Sep, 0.0, ","), Token(Number, 2.0, ""), Token(SetClose, 0.0, "}"), EndToken]
  {
  }

  lemma FirstWord(table: map<string, Kind>, e: string, s1: string)
    requires KnowsDefinition(table) && e == "A = {1, 2}" && s1 == "= {1, 2}"
    ensures TokenizeSpec(table, e) == [Token(Var, 0.0, "A")] + TokenizeSpec(table, s1)
  {
    assert !IsSpace(e[|e| - 1]);
    var rest := " " + s1;
    assert e == "A" + rest && rest[1..] == s1;
    assert WordChars(table, "A");
    assert NoSymbolPrefix(table, "", "A") by { assert "" + "A"[..1] == "A"; }
    TokenizeWord(table, "A", rest, e);
  }

  /** A word followed by whitespace is one VAR token; the whitespace goes. */
  lemma TokenizeWord(table: map<string, Kind>, w: string, rest: seq<char>, s: seq<char>)
    requires w != [] && !IsNumChar(w[0])
    requires WordChars(table, w) && NoSymbolPrefix(table, "", w)
    requires rest != [] && IsSpace(rest[0])
    requires s == w + rest && !IsSpace(s[|s| - 1])
    ensures rest[1..] == [] || !IsSpace(rest[1..][|rest[1..]| - 1])
    ensures TokenizeSpec(table, s) == [Token(Var, 0.0, w)] + TokenizeSpec(table, rest[1..])
  {
    WordThenBreak(table, w, rest);
    TokenizeVia(table, s, Token(Var, 0.0, w), rest[1..]);
  }

  /** A symbol character after optional whitespace is one token. */
  lemma TokenizeSymbol(table: map<string, Kind>, spaces: string, c: char, rest: seq<char>, s: seq<char>)
    requires forall k :: 0 <= k < |spaces| ==> IsSpace(spaces[k])
    requires !IsSpace(c) && [c] in table
    requires s == spaces + [c] + rest && !IsSpace(s[|s| - 1])
    ensures rest == [] || !IsSpace(rest[|rest| - 1])
    ensures TokenizeSpec(table, s) == [Token(table[[c]], 0.0, [c])] + TokenizeSpec(table, rest)
  {
    GetSymbol(table, spaces, c, rest);
    TokenizeVia(table, s, Token(table[[c]], 0.0, [c]), rest);
  }

  /** The digits of a number after optional whitespace are one token. */
  lemma TokenizeNumber(table: map<string, Kind>, spaces: string, n: nat, rest: seq<char>, s: seq<char>)
    requires forall k :: 0 <= k < |spaces| ==> IsSpace(spaces[k])
    requires rest == [] || !IsNumChar(rest[0])
    requires [NatText(n)[0]] !in table
    requires s == spaces + (NatText(n) + rest) && !IsSpace(s[|s| - 1])
    ensures rest == [] || !IsSpace(rest[|rest| - 1])
    ensures TokenizeSpec(table, s) == [Token(Number, n as real, "")] + TokenizeSpec(table, rest)
  {
    NumberRoundTrip(table, n, rest);
    NatTextValue(n);
    GetSkipsSpaces(table, spaces, NatText(n) + rest);
    TokenizeVia(table, s, Token(Number, n as real, ""), rest);
  }

  lemma Symbols(table: map<string, Kind>, s1: string, s2: string, s3: string)
    requires KnowsDefinition(table) && s1 == "= {1, 2}" && s2 == " {1, 2}" && s3 == "1, 2}"
    ensures TokenizeSpec(table, s1) == [Token(Define, 0.0, "=")] + TokenizeSpec(table, s2)
    ensures TokenizeSpec(table, s2) == [Token(SetOpen, 0.0, "{")] + TokenizeSpec(table, s3)
  {
    DefineSymbol(table, s1, s2);
    OpenSymbol(table, s2, s3);
  }

  lemma DefineSymbol(table: map<string, Kind>, s1: string, s2: string)
    requires KnowsDefinition(table) && s1 == "= {1, 2}" && s2 == " {1, 2}"
    ensures TokenizeSpec(table, s1) == [Token(Define, 0.0, "=")] + TokenizeSpec(table, s2)
  {
    assert !IsSpace(s1[|s1| - 1]);
    assert s1 == "" + ['='] + s2;
    TokenizeSymbol(table, "", '=', s2, s1);
  }

  lemma OpenSymbol(table: map<string, Kind>, s2: string, s3: string)
    requires KnowsDefinition(table) && s2 == " {1, 2}" && s3 == "1, 2}"
    ensures TokenizeSpec(table, s2) == [Token(SetOpen, 0.0, "{")] + TokenizeSpec(table, s3)
  {
    assert !IsSpace(s2[|s2| - 1]);
    assert s2 == " " + ['{'] + s3;
    TokenizeSymbol(table, " ", '{', s3, s2);
  }

  lemma Numbers(table: map<string, Kind>, s3: string, s4: string, s45: string)
    requires KnowsDefinition(table) && s3 == "1, 2}" && s4 == ", 2}" && s45 == " 2}"
    ensures TokenizeSpec(table, s3) == [Token(Number, 1.0, "")] + TokenizeSpec(table, s4)
    ensures TokenizeSpec(table, s4) == [Token(Sep, 0.0, ",")] + TokenizeSpec(table, s45)
  {
    FirstNumber(table, s3, s4);
    SepSymbol(table, s4, s45);
  }

  lemma DigitTexts()
    ensures NatText(1) == "1" && NatText(2) == "2"
  {
  }

  lemma FirstNumber(table: map<string, Kind>, s3: string, s4: string)
    requires KnowsDefinition(table) && s3 == "1, 2}" && s4 == ", 2}"
    ensures TokenizeSpec(table, s3) == [Token(Number, 1.0, "")] + TokenizeSpec(table, s4)
  {
    assert !IsSpace(s3[|s3| - 1]);
    DigitTexts();
    assert s3 == "" + (NatText(1) + s4);
    TokenizeNumber(table, "", 1, s4, s3);
  }

  lemma SepSymbol(table: map<string, Kind>, s4: string, s45: string)
    requires KnowsDefinition(table) && s4 == ", 2}" && s45 == " 2}"
    ensures TokenizeSpec(table, s4) == [Token(Sep, 0.0, ",")] + TokenizeSpec(table, s45)
  {
    assert !IsSpace(s4[|s4| - 1]);
    assert s4 == "" + [','] + s45;
    TokenizeSymbol(table, "", ',', s45, s4);
  }

  lemma LastNumber(table: map<string, Kind>, s45: string, s5: string)
    requires KnowsDefinition(table) && s45 == " 2}" && s5 == "}"
    ensures TokenizeSpec(table, s45) == [Token(Number, 2.0, "")] + TokenizeSpec(table, s5)
    ensures TokenizeSpec(table, s5) == [Token(SetClose, 0.0, "}")] + TokenizeSpec(table, [])
  {
    SecondNumber(table, s45, s5);
    CloseSymbol(table, s5);
  }

  lemma SecondNumber(table: map<string, Kind>, s45: string, s5: string)
    requires KnowsDefinition(table) && s45 == " 2}" && s5 == "}"
    ensures TokenizeSpec(table, s45) == [Token(Number, 2.0, "")] + TokenizeSpec(table, s5)
  {
    assert !IsSpace(s45[|s45| - 1]);
    DigitTexts();
    assert s45 == " " + (NatText(2) + s5);
    TokenizeNumber(table, " ", 2, s5, s45);
  }

  lemma CloseSymbol(table: map<string, Kind>, s5: string)
    requires KnowsDefinition(table) && s5 == "}"
    ensures TokenizeSpec(table, s5) == [Token(SetClose, 0.0, "}")] + TokenizeSpec(table, [])
  {
    assert !IsSpace(s5[|s5| - 1]);
    assert s5 == "" + ['}'] + [];
    TokenizeSymbol(table, "", '}', [], s5);
  }

  // ---------------------------------------------------------------------------
  // `x ∈ {1,2}`.

  /** The table entries the membership test below meets. */
  predicate KnowsMembership(table: map<string, Kind>) {
    "1" !in table && "2" !in table
    && "∈" in table && table["∈"] == Belong && "{" in table && table["{"] == SetOpen
    && "," in table && table[","] == Sep && "}" in table && table["}"] == SetClose
  }

  lemma TableKnowsMembership()
    ensures KnowsMembership(Table) && "3" !in Table
  {
    WordFacts();
    SymbolFacts();
    BelongFacts();
  }

  lemma BelongFacts()
    ensures "∈" in Table && Table["∈"] == Belong && "3" !in Table
  {
  }

  /** A line that starts and ends with a non-space is its own `strip()`. */
  lemma StripKeeps(s: seq<char>)
    requires s != [] && !IsSpace(s[0]) && !IsSpace(s[|s| - 1])
    ensures Strip(s) == s
  {
    assert SkipSpaces(s) == s;
  }

  /** `x ∈ {1,2}`, for a natural number `x` printed in decimal, reads as
      NUMBER x, BELONG, SET_OPEN, NUMBER 1, SEP, NUMBER 2, SET_CLOSE, END with
      any table that has the symbols the input meets and no digit. */
  lemma MembershipTokensWith(table: map<string, Kind>, x: nat, e: string)
    requires KnowsMembership(table) && [NatText(x)[0]] !in table
    requires e == NatText(x) + " ∈ {1,2}"
    ensures Strip(e) == e
    ensures TokenizeSpec(table, e) ==
      [Token(Number, x as real, ""), Token(Belong, 0.0, "∈"), Token(SetOpen, 0.0, "{"), Token(Number, 1.0, ""),
       Token(Sep, 0.0, ","), Token(Number, 2.0, ""), Token(SetClose, 0.0, "}"), EndToken]
  {
    var m1 := e[|NatText(x)|..];
    assert m1 == " ∈ {1,2}";
    var m2 := m1[2..];
    var m3 := m2[2..];
    var m4 := m3[1..];
    var m5 := m4[1..];
    var m6 := m5[1..];
    assert m2 == " {1,2}" && m3 == "1,2}" && m4 == ",2}" && m5 == "2}" && m6 == "}";
    assert !IsDigit(' ') && IsDigit(NatText(x)[0]);
    StripKeeps(e);
    MemberNumber(table, x, e, m1);
    MemberSymbols(table, m1, m2, m3);
    MemberElements(table, m3, m4, m5);
    MemberLast(table, m5, m6);
    AssembleMembership(x, TokenizeSpec(table, e), TokenizeSpec(table, m1), TokenizeSpec(table, m2),
                       TokenizeSpec(table, m3), TokenizeSpec(table, m4), TokenizeSpec(table, m5),
                       TokenizeSpec(table, m6), TokenizeSpec(table, []));
  }

  lemma AssembleMembership(x: nat, x0: seq<Token>, x1: seq<Token>, x2: seq<Token>, x3: seq<Token>,
                           x4: seq<Token>, x5: seq<Token>, x6: seq<Token>, x7: seq<Token>)
    requires x0 == [Token(Number, x as real, "")] + x1 && x1 == [Token(Belong, 0.0, "∈")] + x2
    requires x2 == [Token(SetOpen, 0.0, "{")] + x3 && x3 == [Token(Number, 1.0, "")] + x4
    requires x4 == [Token(Sep, 0.0, ",")] + x5 && x5 == [Token(Number, 2.0, "")] + x6
    requires x6 == [Token(SetClose, 0.0, "}")] + x7 && x7 == [EndToken]
    ensures x0 ==
      [Token(Number, x as real, ""), Token(Belong, 0.0, "∈"), Token(SetOpen, 0.0, "{"), Token(Number, 1.0, ""),
       Token(Sep, 0.0, ","), Token(Number, 2.0, ""), Token(SetClose, 0.0, "}"), EndToken]
  {
  }

  lemma MemberNumber(table: map<string, Kind>, x: nat, e: string, m1: string)
    requires [NatText(x)[0]] !in table && m1 == " ∈ {1,2}" && e == NatText(x) + m1
    ensures TokenizeSpec(table, e) == [Token(Number, x as real, "")] + TokenizeSpec(table, m1)
  {
    assert !IsSpace(e[|e| - 1]);
    assert e == "" + (NatText(x) + m1);
    TokenizeNumber(table, "", x, m1, e);
  }

  lemma MemberSymbols(table: map<string, Kind>, m1: string, m2: string, m3: string)
    requires KnowsMembership(table) && m1 == " ∈ {1,2}" && m2 == " {1,2}" && m3 == "1,2}"
    ensures TokenizeSpec(table, m1) == [Token(Belong, 0.0, "∈")] + TokenizeSpec(table, m2)
    ensures TokenizeSpec(table, m2) == [Token(SetOpen, 0.0, "{")] + TokenizeSpec(table, m3)
  {
    BelongSymbol(table, m1, m2);
    SetOpenSymbol(table, m2, m3);
  }

  lemma BelongSymbol(table: map<string, Kind>, m1: string, m2: string)
    requires KnowsMembership(table) && m1 == " ∈ {1,2}" && m2 == " {1,2}"
    ensures TokenizeSpec(table, m1) == [Token(Belong, 0.0, "∈")] + TokenizeSpec(table, m2)
  {
    assert !IsSpace(m1[|m1| - 1]);
    assert m1 == " " + ['∈'] + m2;
    TokenizeSymbol(table, " ", '∈', m2, m1);
  }

  lemma SetOpenSymbol(table: map<string, Kind>, m2: string, m3: string)
    requires KnowsMembership(table) && m2 == " {1,2}" && m3 == "1,2}"
    ensures TokenizeSpec(table, m2) == [Token(SetOpen, 0.0, "{")] + TokenizeSpec(table, m3)
  {
    assert !IsSpace(m2[|m2| - 1]);
    assert m2 == " " + ['{'] + m3;
    TokenizeSymbol(table, " ", '{', m3, m2);
  }

  lemma MemberElements(table: map<string, Kind>, m3: string, m4: string, m5: string)
    requires KnowsMembership(table) && m3 == "1,2}" && m4 == ",2}" && m5 == "2}"
    ensures TokenizeSpec(table, m3) == [Token(Number, 1.0, "")] + TokenizeSpec(table, m4)
    ensures TokenizeSpec(table, m4) == [Token(Sep, 0.0, ",")] + TokenizeSpec(table, m5)
  {
    ElementOne(table, m3, m4);
    ElementSep(table, m4, m5);
  }

  lemma ElementOne(table: map<string, Kind>, m3: string, m4: string)
    requires KnowsMembership(table) && m3 == "1,2}" && m4 == ",2}"
    ensures TokenizeSpec(table, m3) == [Token(Number, 1.0, "")] + TokenizeSpec(table, m4)
  {
    assert !IsSpace(m3[|m3| - 1]);
    DigitTexts();
    assert m3 == "" + (NatText(1) + m4);
    TokenizeNumber(table, "", 1, m4, m3);
  }

  lemma ElementSep(table: map<string, Kind>, m4: string, m5: string)
    requires KnowsMembership(table) && m4 == ",2}" && m5 == "2}"
    ensures TokenizeSpec(table, m4) == [Token(Sep, 0.0, ",")] + TokenizeSpec(table, m5)
  {
    assert !IsSpace(m4[|m4| - 1]);
    assert m4 == "" + [','] + m5;
    TokenizeSymbol(table, "", ',', m5, m4);
  }

  lemma MemberLast(table: map<string, Kind>, m5: string, m6: string)
    requires KnowsMembership(table) && m5 == "2}" && m6 == "}"
    ensures TokenizeSpec(table, m5) == [Token(Number, 2.0, "")] + TokenizeSpec(table, m6)
    ensures TokenizeSpec(table, m6) == [Token(SetClose, 0.0, "}")] + TokenizeSpec(table, [])
  {
    ElementTwo(table, m5, m6);
    SetCloseSymbol(table, m6);
  }

  lemma ElementTwo(table: map<string, Kind>, m5: string, m6: string)
    requires KnowsMembership(table) && m5 == "2}" && m6 == "}"
    ensures TokenizeSpec(table, m5) == [Token(Number, 2.0, "")] + TokenizeSpec(table, m6)
  {
    assert !IsSpace(m5[|m5| - 1]);
    DigitTexts();
    assert m5 == "" + (NatText(2) + m6);
    TokenizeNumber(table, "", 2, m6, m5);
  }

  lemma SetCloseSymbol(table: map<string, Kind>, m6: string)
    requires KnowsMembership(table) && m6 == "}"
    ensures TokenizeSpec(table, m6) == [Token(SetClose, 0.0, "}")] + TokenizeSpec(table, [])
  {
    assert !IsSpace(m6[|m6| - 1]);
    assert m6 == "" + ['}'] + [];
    TokenizeSymbol(table, "", '}', [], m6);
  }
}
