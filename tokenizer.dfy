/** The tokenizer (conjuntos/parser/tokenizer.py): turns an expression into
    tokens using a table from symbol to token kind. `SetTokenizer` keeps the
    unread characters in `stream`, as the source keeps them in a deque; the
    functions `GetSpec` and `TokenizeSpec` say what its methods compute. */
module Tokenizer {
  import opened Values

  /** The token kinds named by the grammar table, plus END, VAR and NUMBER. */
  datatype Kind =
    | SetOpen | SetClose | Open | Close | Sep | Define
    | Union | Intersect | Difference | SymmetricDifference | Cartesian | Complement
    | Belong | NotBelong | ProperSubset | ImproperSubset | NotSubset
    | End | Var | Number

  /** `Token(kind, value, text)`; `value` is 0 except for NUMBER tokens. */
  datatype Token = Token(kind: Kind, value: real, text: string)

  const EndToken: Token := Token(End, 0.0, "")

  /** The symbol table the calculator is configured with: the kind-to-symbols
      table of the shell, reversed. "^" is listed under both INTERSECT and
      SYMMETRIC_DIFFERENCE; the later entry wins. */
  const Table: map<string, Kind> := map[
    "{" := SetOpen, "}" := SetClose, "(" := Open, ")" := Close,
    "," := Sep, "=" := Define,
    "⋃" := Union, "∪" := Union, "UNION" := Union,
    "⋂" := Intersect, "∩" := Intersect, "INTERSECT" := Intersect, "INTERSECTION" := Intersect,
    "-" := Difference, "DIFFERENCE" := Difference,
    "∈" := Belong, "e" := Belong,
    "∉" := NotBelong,
    "⊆" := ImproperSubset,
    "⊂" := ProperSubset,
    "⊄" := NotSubset,
    "⊖" := SymmetricDifference, "⊕" := SymmetricDifference, "^" := SymmetricDifference,
    "SYMMETRIC_DIFFERENCE" := SymmetricDifference,
    "X" := Cartesian, "x" := Cartesian,
    "'" := Complement
  ]

  // ---------------------------------------------------------------------------
  // Character classes (ASCII only).

  /** `str.isspace` on ASCII: space, \t \n \v \f \r and the separators 0x1C-0x1F. */
  predicate IsSpace(c: char) {
    c == ' ' || (9 <= c as int <= 13) || (28 <= c as int <= 31)
  }

  predicate IsDigit(c: char) {
    '0' <= c <= '9'
  }

  predicate IsNumChar(c: char) {
    IsDigit(c) || c == '.'
  }

  function CountDots(s: string): nat {
    if s == [] then 0 else (if s[0] == '.' then 1 else 0) + CountDots(s[1..])
  }

  /** `is_float` on a run of digits and dots: `float()` accepts it exactly
      when it has at least one digit and at most one dot. */
  predicate IsFloat(s: string) {
    (forall k :: 0 <= k < |s| ==> IsNumChar(s[k]))
    && CountDots(s) <= 1
    && exists k :: 0 <= k < |s| && IsDigit(s[k])
  }

  function DigitValue(c: char): nat
    requires IsDigit(c)
  {
    c as int - '0' as int
  }

  /** The natural number a string of decimal digits denotes. */
  function DigitsValue(d: string): nat
    requires forall k :: 0 <= k < |d| ==> IsDigit(d[k])
  {
    if d == [] then 0 else DigitsValue(d[..|d| - 1]) * 10 + DigitValue(d[|d| - 1])
  }

  /** The value of the digits after the point: `0.d1d2…` is `(d1 + 0.d2…) / 10`. */
  function FractionValue(d: string): (r: real)
    requires forall k :: 0 <= k < |d| ==> IsDigit(d[k])
    ensures 0.0 <= r < 1.0
  {
    if d == [] then 0.0 else (DigitValue(d[0]) as real + FractionValue(d[1..])) / 10.0
  }

  lemma {:induction false} NoDotsCounted(s: string)
    requires CountDots(s) == 0
    ensures '.' !in s
  {
    if s != [] {
      NoDotsCounted(s[1..]);
    }
  }

  /** The rest of a run of digits and dots is one too; after its only dot
      it holds digits alone. */
  lemma NumCharsRest(s: string)
    requires s != [] && forall k :: 0 <= k < |s| ==> IsNumChar(s[k])
    requires CountDots(s) <= 1
    ensures forall k :: 0 <= k < |s| - 1 ==> IsNumChar(s[1..][k])
    ensures CountDots(s[1..]) <= 1
    ensures s[0] == '.' ==> forall k :: 0 <= k < |s| - 1 ==> IsDigit(s[1..][k])
  {
    if s[0] == '.' {
      NoDotsCounted(s[1..]);
    }
  }

  /** `float(s)` read from the left: `acc` is the integer part read so far;
      after the dot come only digits, scaled down. */
  function ReadDecimal(s: string, acc: nat): real
    requires forall k :: 0 <= k < |s| ==> IsNumChar(s[k])
    requires CountDots(s) <= 1
  {
    if s == [] then acc as real
    else
      NumCharsRest(s);
      if s[0] == '.' then acc as real + FractionValue(s[1..])
      else ReadDecimal(s[1..], acc * 10 + DigitValue(s[0]))
  }

  /** The exact value of `float(s)`. */
  function DecimalValue(s: string): real
    requires IsFloat(s)
  {
    ReadDecimal(s, 0)
  }

  // ---------------------------------------------------------------------------
  // Whitespace.

  /** The input with its leading whitespace removed. */
  function SkipSpaces(s: seq<char>): (r: seq<char>)
    ensures |r| <= |s|
    ensures r != [] ==> r[0] == s[|s| - |r|] && r[|r| - 1] == s[|s| - 1]
    ensures r == [] || !IsSpace(r[0])
  {
    if s != [] && IsSpace(s[0]) then SkipSpaces(s[1..]) else s
  }

  function TrimRight(s: seq<char>): (r: seq<char>)
    ensures |r| <= |s|
    ensures r != [] ==> r[0] == s[0]
    ensures r == [] || !IsSpace(r[|r| - 1])
  {
    if s != [] && IsSpace(s[|s| - 1]) then TrimRight(s[..|s| - 1]) else s
  }

  /** `str.strip()`. */
  function Strip(s: seq<char>): (r: seq<char>)
    ensures r == [] || (!IsSpace(r[0]) && !IsSpace(r[|r| - 1]))
  {
    TrimRight(SkipSpaces(s))
  }

  /** An input made only of whitespace strips to nothing, and only such an input. */
  lemma StripEmpty(s: seq<char>)
    ensures Strip(s) == [] <==> forall k :: 0 <= k < |s| ==> IsSpace(s[k])
  {
    var l := SkipSpaces(s);
    if Strip(s) == [] {
      TrimmedAreSpaces(l);
      assert l == [];
      SkippedAreSpaces(s);
    } else {
      var r := Strip(s);
      assert r[0] == l[0];
    }
  }

  /** What `SkipSpaces` drops is whitespace. */
  lemma {:induction false} SkippedAreSpaces(s: seq<char>)
    ensures forall k :: 0 <= k < |s| - |SkipSpaces(s)| ==> IsSpace(s[k])
  {
    if s != [] && IsSpace(s[0]) {
      SkippedAreSpaces(s[1..]);
    }
  }

  /** What `TrimRight` drops is whitespace. */
  lemma {:induction false} TrimmedAreSpaces(s: seq<char>)
    ensures forall k :: |TrimRight(s)| <= k < |s| ==> IsSpace(s[k])
  {
    if s != [] && IsSpace(s[|s| - 1]) {
      TrimmedAreSpaces(s[..|s| - 1]);
    }
  }

  predicate HasNonSpace(s: seq<char>) {
    exists k :: 0 <= k < |s| && !IsSpace(s[k])
  }

  lemma {:induction false} SkipSpacesNonEmpty(s: seq<char>)
    requires HasNonSpace(s)
    ensures SkipSpaces(s) != []
  {
    if IsSpace(s[0]) {
      var k :| 0 <= k < |s| && !IsSpace(s[k]);
      assert s[1..][k - 1] == s[k];
      SkipSpacesNonEmpty(s[1..]);
    }
  }

  /** A non-empty suffix of a stripped string still has a non-space character. */
  lemma StrippedHasNonSpace(s: seq<char>)
    requires s != [] && !IsSpace(s[|s| - 1])
    ensures HasNonSpace(s)
  {
    assert 0 <= |s| - 1 < |s| && !IsSpace(s[|s| - 1]);
  }

  // ---------------------------------------------------------------------------
  // What one call of `get` reads.

  /** The maximal run of digits and dots at the front of `s`, and what follows it. */
  function ScanNumber(s: seq<char>): (r: (string, seq<char>))
    ensures |r.0| + |r.1| == |s|
    ensures r.1 == [] || !IsNumChar(r.1[0])
  {
    if s != [] && IsNumChar(s[0]) then
      var (num, rest) := ScanNumber(s[1..]);
      ([s[0]] + num, rest)
    else
      ("", s)
  }

  /** The digit loop splits the stream into a run of digits and dots and the rest. */
  lemma {:induction false} ScanNumberSplits(s: seq<char>)
    ensures var r := ScanNumber(s); r.0 + r.1 == s
    ensures var r := ScanNumber(s); forall k :: 0 <= k < |r.0| ==> IsNumChar(r.0[k])
  {
    if s != [] && IsNumChar(s[0]) {
      ScanNumberSplits(s[1..]);
      PushBack(s);
    }
  }

  /** A VAR text as the word loop builds it: no whitespace, no single-character symbol. */
  predicate WordChars(table: map<string, Kind>, w: string) {
    forall k :: 0 <= k < |w| ==> !IsSpace(w[k]) && [w[k]] !in table
  }

  /** A VAR token built by the word loop. */
  predicate IsWord(table: map<string, Kind>, t: Token) {
    t.kind == Var && t.value == 0.0 && WordChars(table, t.text) && (t.text == "" || t.text !in table)
  }

  /** An operator token for a symbol of the table. */
  predicate IsSymbol(table: map<string, Kind>, t: Token) {
    t.text in table && t.kind == table[t.text] && t.value == 0.0
  }

  /** The word loop, with `acc` read so far: it stops at whitespace (consumed)
      or at a single-character symbol (left in the stream), and returns the
      operator as soon as the word read is itself a symbol. */
  function ScanWord(table: map<string, Kind>, s: seq<char>, acc: string): (r: (Token, seq<char>))
    requires WordChars(table, acc) && (acc == "" || acc !in table)
    ensures |r.1| <= |s| && (r.1 != [] ==> r.1[|r.1| - 1] == s[|s| - 1])
    ensures s != [] && !IsSpace(s[0]) && [s[0]] !in table ==> |r.1| < |s|
    ensures IsWord(table, r.0) || IsSymbol(table, r.0)
    decreases |s|
  {
    if s == [] then (Token(Var, 0.0, acc), [])
    else
      var c := s[0];
      if IsSpace(c) then (Token(Var, 0.0, acc), s[1..])
      else if [c] in table then (Token(Var, 0.0, acc), s)
      else if acc + [c] in table then (Token(table[acc + [c]], 0.0, acc + [c]), s[1..])
      else ScanWord(table, s[1..], acc + [c])
  }

  /** Popping the first character and pushing it back restores the stream. */
  lemma PushBack(s: seq<char>)
    requires s != []
    ensures [s[0]] + s[1..] == s
  {
  }

  /** The word loop stops at whitespace, consuming it. */
  lemma ScanWordSpace(table: map<string, Kind>, s: seq<char>, acc: string)
    requires s != [] && WordChars(table, acc) && (acc == "" || acc !in table)
    requires IsSpace(s[0])
    ensures ScanWord(table, s, acc) == (Token(Var, 0.0, acc), s[1..])
  {
  }

  /** The word loop stops before a one-character symbol, leaving it. */
  lemma ScanWordSymbol(table: map<string, Kind>, s: seq<char>, acc: string)
    requires s != [] && WordChars(table, acc) && (acc == "" || acc !in table)
    requires !IsSpace(s[0]) && [s[0]] in table
    ensures ScanWord(table, s, acc) == (Token(Var, 0.0, acc), s)
  {
  }

  /** Otherwise the character joins the word, which is returned if it is a symbol. */
  lemma ScanWordAppend(table: map<string, Kind>, s: seq<char>, acc: string)
    requires s != [] && WordChars(table, acc) && (acc == "" || acc !in table)
    requires !IsSpace(s[0]) && [s[0]] !in table
    ensures WordChars(table, acc + [s[0]])
    ensures acc + [s[0]] in table
      ==> ScanWord(table, s, acc) == (Token(table[acc + [s[0]]], 0.0, acc + [s[0]]), s[1..])
    ensures acc + [s[0]] !in table
      ==> ScanWord(table, s, acc) == ScanWord(table, s[1..], acc + [s[0]])
  {
  }

  /** One call of `SetTokenizer.get` on the stream `s`: the token it returns
      and the stream it leaves. At least one character is always consumed. */
  function GetSpec(table: map<string, Kind>, s: seq<char>): (r: (Token, seq<char>))
    requires HasNonSpace(s)
    ensures |r.1| < |s| && (r.1 != [] ==> r.1[|r.1| - 1] == s[|s| - 1])
    ensures IsSymbol(table, r.0) || IsWord(table, r.0) || (r.0.kind == Number && r.0.text == "")
  {
    SkipSpacesNonEmpty(s);
    GetAt(table, SkipSpaces(s))
  }

  /** `get` once `next_char` has skipped the whitespace: `s` starts with the
      character it returned. A symbol of one character is returned at once. */
  function GetAt(table: map<string, Kind>, s: seq<char>): (r: (Token, seq<char>))
    requires s != [] && !IsSpace(s[0])
    ensures |r.1| < |s| && (r.1 != [] ==> r.1[|r.1| - 1] == s[|s| - 1])
    ensures IsSymbol(table, r.0) || IsWord(table, r.0) || (r.0.kind == Number && r.0.text == "")
  {
    if [s[0]] in table then (Token(table[[s[0]]], 0.0, [s[0]]), s[1..])
    else NumberOrWord(table, s)
  }

  /** The character is pushed back; the digit loop runs, and if what it read
      is not a float, the word loop runs on what follows. */
  function NumberOrWord(table: map<string, Kind>, s: seq<char>): (r: (Token, seq<char>))
    requires s != [] && !IsSpace(s[0]) && [s[0]] !in table
    ensures |r.1| < |s| && (r.1 != [] ==> r.1[|r.1| - 1] == s[|s| - 1])
    ensures IsSymbol(table, r.0) || IsWord(table, r.0) || (r.0.kind == Number && r.0.text == "")
  {
    var p := ScanNumber(s);
    ScanNumberSplits(s);
    KeepsLast(s, p.0, p.1);
    if IsFloat(p.0) then
      FloatNotEmpty(p.0);
      (Token(Number, DecimalValue(p.0), ""), p.1)
    else
      var w := ScanWord(table, p.1, "");
      WordAfterNumber(table, s, p.0, p.1, w);
      w
  }

  /** The word loop, run after the digit loop, still consumes a character. */
  lemma WordAfterNumber(table: map<string, Kind>, s: seq<char>, num: string, rest: seq<char>, w: (Token, seq<char>))
    requires s != [] && !IsSpace(s[0]) && [s[0]] !in table && num + rest == s
    requires w == ScanWord(table, rest, "")
    ensures |w.1| < |s| && (w.1 != [] ==> w.1[|w.1| - 1] == s[|s| - 1])
  {
    KeepsLast(s, num, rest);
    if num == [] {
      assert rest == s;
    }
  }

  lemma FloatNotEmpty(num: string)
    requires IsFloat(num)
    ensures num != []
  {
  }

  /** The end of a split string is what follows its front part. */
  lemma KeepsLast(s: seq<char>, front: seq<char>, rest: seq<char>)
    requires front + rest == s
    ensures |rest| <= |s| && (rest != [] ==> rest[|rest| - 1] == s[|s| - 1])
    ensures front == [] ==> rest == s
  {
    if rest != [] {
      assert s[|s| - 1] == (front + rest)[|front| + |rest| - 1];
    }
  }

  /** `Tokenizer.tokenize` on an already stripped expression. */
  function TokenizeSpec(table: map<string, Kind>, s: seq<char>): (r: seq<Token>)
    requires s == [] || !IsSpace(s[|s| - 1])
    decreases |s|
  {
    if s == [] then [EndToken]
    else
      StrippedHasNonSpace(s);
      var next := GetSpec(table, s);
      [next.0] + TokenizeSpec(table, next.1)
  }

  /** One step of `TokenizeSpec`: the first token, then the tokens of what
      `get` leaves, which is again a stripped string. */
  lemma TokenizeStep(table: map<string, Kind>, s: seq<char>)
    requires s != [] && !IsSpace(s[|s| - 1])
    ensures HasNonSpace(s)
    ensures var next := GetSpec(table, s);
      (next.1 == [] || !IsSpace(next.1[|next.1| - 1]))
      && TokenizeSpec(table, s) == [next.0] + TokenizeSpec(table, next.1)
  {
    StrippedHasNonSpace(s);
  }

  /** The loop of `tokenize` after one call of `get`: the token read, then
      the tokens of what is left, are still the tokens of the whole input. */
  lemma TokenizeAdvance(table: map<string, Kind>, before: seq<char>, t: Token, after: seq<char>,
                        tokens: seq<Token>, all: seq<Token>)
    requires before != [] && !IsSpace(before[|before| - 1])
    requires HasNonSpace(before) && (t, after) == GetSpec(table, before)
    requires tokens + TokenizeSpec(table, before) == all
    ensures after == [] || !IsSpace(after[|after| - 1])
    ensures (tokens + [t]) + TokenizeSpec(table, after) == all
  {
    TokenizeStep(table, before);
    var rest := TokenizeSpec(table, after);
    assert (tokens + [t]) + rest == tokens + ([t] + rest);
  }

  // ---------------------------------------------------------------------------
  // The tokenizer object.

  class SetTokenizer {
    var stream: seq<char>
    const tokenKind: map<string, Kind>

    constructor (tokenKind: map<string, Kind>)
      ensures this.tokenKind == tokenKind && stream == []
    {
      this.tokenKind := tokenKind;
      stream := [];
    }

    /** `next_char`: pops whitespace, then pops and returns the first other character. */
    method NextChar() returns (c: char)
      requires HasNonSpace(stream)
      modifies this`stream
      ensures var r := SkipSpaces(old(stream)); r != [] && c == r[0] && stream == r[1..]
    {
      ghost var s0 := stream;
      c := ' ';
      while IsSpace(c)
        invariant IsSpace(c) ==> HasNonSpace(stream) && SkipSpaces(stream) == SkipSpaces(s0)
        invariant !IsSpace(c) ==> var r := SkipSpaces(s0); r != [] && c == r[0] && stream == r[1..]
        decreases |stream|, if IsSpace(c) then 1 else 0
      {
        c := stream[0];
        stream := stream[1..];
      }
    }

    /** `SetTokenizer.get`. */
    method Get() returns (t: Token)
      requires HasNonSpace(stream)
      modifies this`stream
      ensures (t, stream) == GetSpec(tokenKind, old(stream))
    {
      ghost var s1 := SkipSpaces(stream);
      var c := NextChar();
      if [c] in tokenKind {
        return Token(tokenKind[[c]], 0.0, [c]);
      }
      PushBack(s1);
      stream := [c] + stream;
      var numStr := ReadNumber();
      if IsFloat(numStr) {
        return Token(Number, DecimalValue(numStr), "");
      }
      t := ReadWord();
    }

    /** The digit loop of `get`: pops digits and dots, puts back the first
        other character. */
    method ReadNumber() returns (numStr: string)
      modifies this`stream
      ensures (numStr, stream) == ScanNumber(old(stream))
    {
      ghost var s1 := stream;
      numStr := "";
      assert numStr + ScanNumber(stream).0 == ScanNumber(stream).0;
      while stream != []
        invariant ScanNumber(s1) == (numStr + ScanNumber(stream).0, ScanNumber(stream).1)
        decreases |stream|
      {
        ghost var before := stream;
        var c := stream[0];
        stream := stream[1..];
        if IsNumChar(c) {
          assert ScanNumber(before).0 == [c] + ScanNumber(stream).0;
          assert (numStr + [c]) + ScanNumber(stream).0 == numStr + ([c] + ScanNumber(stream).0);
          numStr := numStr + [c];
        } else {
          stream := [c] + stream;
          assert stream == before && ScanNumber(stream) == ("", stream);
          break;
        }
      }
      assert ScanNumber(stream).0 == "" by {
        if stream == [] {
          assert ScanNumber(stream) == ("", []);
        }
      }
      assert numStr + ScanNumber(stream).0 == numStr;
    }

    /** The word loop of `get`. */
    method ReadWord() returns (t: Token)
      modifies this`stream
      ensures (t, stream) == ScanWord(tokenKind, old(stream), "")
    {
      ghost var goal := ScanWord(tokenKind, stream, "");
      var varStr := "";
      while stream != []
        invariant WordChars(tokenKind, varStr) && (varStr == "" || varStr !in tokenKind)
        invariant ScanWord(tokenKind, stream, varStr) == goal
        decreases |stream|
      {
        ghost var before := stream;
        var c := stream[0];
        stream := stream[1..];
        if IsSpace(c) {
          ScanWordSpace(tokenKind, before, varStr);
          return Token(Var, 0.0, varStr);
        }
        if [c] in tokenKind {
          ScanWordSymbol(tokenKind, before, varStr);
          PushBack(before);
          stream := [c] + stream;
          return Token(Var, 0.0, varStr);
        }
        ScanWordAppend(tokenKind, before, varStr);
        varStr := varStr + [c];
        if varStr in tokenKind {
          return Token(tokenKind[varStr], 0.0, varStr);
        }
      }
      return Token(Var, 0.0, varStr);
    }

    /** `Tokenizer.tokenize`: the tokens of the stripped expression, then END. */
    method Tokenize(expression: string) returns (tokens: seq<Token>)
      modifies this`stream
      ensures tokens == TokenizeSpec(tokenKind, Strip(expression))
      ensures stream == []
    {
      tokens := [];
      stream := Strip(expression);
      ghost var all := TokenizeSpec(tokenKind, stream);
      while stream != []
        invariant stream == [] || !IsSpace(stream[|stream| - 1])
        invariant tokens + TokenizeSpec(tokenKind, stream) == all
        decreases |stream|
      {
        ghost var before := stream;
        StrippedHasNonSpace(before);
        var t := Get();
        TokenizeAdvance(tokenKind, before, t, stream, tokens, all);
        tokens := tokens + [t];
      }
      tokens := tokens + [EndToken];
    }
  }
}

/** Properties of the tokenizer. */
module TokenizerFacts {
  import opened Failures
  import opened Values
  import opened Tokenizer

  /** No symbol of a table maps to a kind the tokenizer makes by itself. */
  predicate OperatorTable(table: map<string, Kind>) {
    End !in table.Values && Var !in table.Values && Number !in table.Values
  }

  lemma ConfiguredTableIsOperatorTable()
    ensures OperatorTable(Table)
  {
  }

  /** `tokenize` always ends with END. */
  lemma {:induction false} EndsWithEnd(table: map<string, Kind>, s: seq<char>)
    requires s == [] || !IsSpace(s[|s| - 1])
    ensures var r := TokenizeSpec(table, s); |r| >= 1 && r[|r| - 1] == EndToken
    decreases |s|
  {
    if s != [] {
      TokenizeStep(table, s);
      var next := GetSpec(table, s);
      EndsWithEnd(table, next.1);
      var tail := TokenizeSpec(table, next.1);
      assert TokenizeSpec(table, s) == [next.0] + tail;
      assert ([next.0] + tail)[|tail|] == tail[|tail| - 1];
    }
  }

  /** No END before the last token. */
  predicate EndOnlyLast(r: seq<Token>) {
    forall k :: 0 <= k < |r| - 1 ==> r[k].kind != End
  }

  lemma EndOnlyLastCons(t: Token, tail: seq<Token>)
    requires t.kind != End && EndOnlyLast(tail)
    ensures EndOnlyLast([t] + tail)
  {
    forall k | 1 <= k < |tail|
      ensures ([t] + tail)[k].kind != End
    {
      assert ([t] + tail)[k] == tail[k - 1];
    }
  }

  /** With an operator table, END appears only at the end of `tokenize`'s result. */
  lemma {:induction false} EndOnlyAtEnd(table: map<string, Kind>, s: seq<char>)
    requires OperatorTable(table)
    requires s == [] || !IsSpace(s[|s| - 1])
    ensures EndOnlyLast(TokenizeSpec(table, s))
    decreases |s|
  {
    if s != [] {
      TokenizeStep(table, s);
      var next := GetSpec(table, s);
      EndOnlyAtEnd(table, next.1);
      GetIsNotEnd(table, s);
      EndOnlyLastCons(next.0, TokenizeSpec(table, next.1));
    }
  }

  lemma GetIsNotEnd(table: map<string, Kind>, s: seq<char>)
    requires OperatorTable(table) && HasNonSpace(s)
    ensures GetSpec(table, s).0.kind != End
  {
    var t := GetSpec(table, s).0;
    if IsSymbol(table, t) {
      assert table[t.text] != End;
    }
  }

  /** Empty or whitespace-only input gives exactly `[END]`. */
  lemma BlankInput(table: map<string, Kind>, e: string)
    requires forall k :: 0 <= k < |e| ==> IsSpace(e[k])
    ensures TokenizeSpec(table, Strip(e)) == [EndToken]
  {
    StripEmpty(e);
  }

  /** With an operator table every VAR token is a word: no whitespace, no
      single-character symbol, and not itself a symbol. */
  lemma {:induction false} VarTokensAreWords(table: map<string, Kind>, s: seq<char>)
    requires OperatorTable(table)
    requires s == [] || !IsSpace(s[|s| - 1])
    ensures forall t :: t in TokenizeSpec(table, s) && t.kind == Var ==>
      WordChars(table, t.text) && (t.text == "" || t.text !in table)
    decreases |s|
  {
    if s != [] {
      TokenizeStep(table, s);
      var next := GetSpec(table, s);
      VarTokensAreWords(table, next.1);
    }
  }

  lemma {:induction false} ScanDigits(d: string, rest: seq<char>)
    requires forall k :: 0 <= k < |d| ==> IsNumChar(d[k])
    requires rest == [] || !IsNumChar(rest[0])
    ensures ScanNumber(d + rest) == (d, rest)
  {
    if d != [] {
      assert (d + rest)[1..] == d[1..] + rest;
      ScanDigits(d[1..], rest);
      assert [d[0]] + d[1..] == d;
    } else {
      assert d + rest == rest;
    }
  }

  lemma DigitRoundTrip(d: nat)
    requires d < 10
    ensures IsDigit(DigitChar(d)) && DigitValue(DigitChar(d)) == d
  {
  }

  lemma {:induction false} NatTextValue(n: nat)
    ensures forall k :: 0 <= k < |NatText(n)| ==> IsDigit(NatText(n)[k])
    ensures DigitsValue(NatText(n)) == n
  {
    if n < 10 {
      DigitRoundTrip(n);
    } else {
      NatTextValue(n / 10);
      DigitRoundTrip(n % 10);
      var t := NatText(n);
      assert t[..|t| - 1] == NatText(n / 10);
    }
  }

  lemma {:induction false} NoDotsInDigits(d: string)
    requires forall k :: 0 <= k < |d| ==> IsDigit(d[k])
    ensures CountDots(d) == 0 && '.' !in d
  {
    if d != [] {
      NoDotsInDigits(d[1..]);
    }
  }

  /** Reading one more digit shifts the value read so far by one place. */
  lemma {:induction false} ReadDigitsSnoc(d: string, c: char, acc: nat)
    requires forall k :: 0 <= k < |d| ==> IsDigit(d[k])
    requires IsDigit(c)
    ensures CountDots(d) == 0 && CountDots(d + [c]) == 0
    ensures ReadDecimal(d + [c], acc) == ReadDecimal(d, acc) * 10.0 + DigitValue(c) as real
  {
    NoDotsInDigits(d);
    NoDotsInDigits(d + [c]);
    if d == [] {
      assert d + [c] == [c];
    } else {
      assert (d + [c])[1..] == d[1..] + [c];
      ReadDigitsSnoc(d[1..], c, acc * 10 + DigitValue(d[0]));
    }
  }

  /** A string of digits reads as the number it denotes. */
  lemma {:induction false} DigitsDecimal(d: string)
    requires forall k :: 0 <= k < |d| ==> IsDigit(d[k])
    ensures CountDots(d) == 0
    ensures ReadDecimal(d, 0) == DigitsValue(d) as real
  {
    NoDotsInDigits(d);
    if d != [] {
      var front := d[..|d| - 1];
      DigitsDecimal(front);
      ReadDigitsSnoc(front, d[|d| - 1], 0);
      assert front + [d[|d| - 1]] == d;
    }
  }

  /** The digits `str(Number(n))` prints for a natural number read back as
      that same number: one NUMBER token, and the character after the digits
      is left in the stream. */
  lemma NumberRoundTrip(table: map<string, Kind>, n: nat, rest: seq<char>)
    requires rest == [] || !IsNumChar(rest[0])
    requires [NatText(n)[0]] !in table
    ensures HasNonSpace(NatText(n) + rest)
    ensures GetSpec(table, NatText(n) + rest) == (Token(Number, n as real, ""), rest)
    ensures NumberText(n as real) == Some(NatText(n))
  {
    var d := NatText(n);
    NatTextValue(n);
    DigitsDecimal(d);
    var s := d + rest;
    assert s[0] == d[0] && !IsSpace(s[0]);
    assert SkipSpaces(s) == s;
    ScanDigits(d, rest);
    assert IsDigit(d[0]);
    assert IsFloat(d);
  }

  /** A maximal run of digits and dots that `is_float` accepts, at a
      character that is no symbol, reads as one NUMBER token whose value is
      the run's decimal value; the character after the run stays in the
      stream. */
  lemma FloatRunIsNumber(table: map<string, Kind>, d: string, rest: seq<char>)
    requires IsFloat(d) && (rest == [] || !IsNumChar(rest[0])) && [d[0]] !in table
    ensures HasNonSpace(d + rest)
    ensures GetSpec(table, d + rest) == (Token(Number, DecimalValue(d), ""), rest)
  {
    FloatNotEmpty(d);
    var s := d + rest;
    assert s[0] == d[0] && IsNumChar(d[0]) && !IsSpace(s[0]);
    assert SkipSpaces(s) == s;
    ScanDigits(d, rest);
  }

  /** The runs "1.5", ".5" and "2." are floats with the values `float()`
      gives them. */
  lemma FloatRunValues()
    ensures IsFloat("1.5") && DecimalValue("1.5") == 1.5
    ensures IsFloat(".5") && DecimalValue(".5") == 0.5
    ensures IsFloat("2.") && DecimalValue("2.") == 2.0
  {
    assert IsDigit("1.5"[0]) && IsDigit(".5"[1]) && IsDigit("2."[0]);
    assert "1.5"[1..] == ".5" && ".5"[1..] == "5" && "2."[1..] == ".";
    assert FractionValue("5") == 0.5 by {
      assert "5"[1..] == [];
    }
  }

  /** No non-empty prefix of `w`, appended to `acc`, is a symbol. */
  predicate NoSymbolPrefix(table: map<string, Kind>, acc: string, w: string) {
    forall i :: 1 <= i <= |w| ==> acc + w[..i] !in table
  }

  /** The word loop reads a run of word characters that spells no symbol
      along the way without stopping. */
  lemma {:induction false} ScanWordRun(table: map<string, Kind>, acc: string, w: string, rest: seq<char>)
    requires WordChars(table, acc) && (acc == "" || acc !in table)
    requires WordChars(table, w) && NoSymbolPrefix(table, acc, w)
    ensures WordChars(table, acc + w) && (acc + w == "" || acc + w !in table)
    ensures ScanWord(table, w + rest, acc) == ScanWord(table, rest, acc + w)
    decreases |w|
  {
    if w == [] {
      assert acc + w == acc && w + rest == rest;
    } else {
      var c := w[0];
      assert acc + w[..1] == acc + [c];
      assert (w + rest)[0] == c && (w + rest)[1..] == w[1..] + rest;
      forall i | 1 <= i <= |w[1..]|
        ensures (acc + [c]) + w[1..][..i] !in table
      {
        assert (acc + [c]) + w[1..][..i] == acc + w[..i + 1];
      }
      assert WordChars(table, acc + [c]);
      ScanWordRun(table, acc + [c], w[1..], rest);
      assert (acc + [c]) + w[1..] == acc + w;
    }
  }

  /** One call of `get` on a word that starts with no digit, dot or symbol. */
  lemma GetWord(table: map<string, Kind>, w: string, rest: seq<char>)
    requires w != [] && !IsNumChar(w[0])
    requires WordChars(table, w) && NoSymbolPrefix(table, "", w)
    ensures w !in table && HasNonSpace(w + rest)
    ensures GetSpec(table, w + rest) == ScanWord(table, rest, w)
  {
    assert "" + w[..|w|] == w;
    var s := w + rest;
    assert s[0] == w[0] && !IsSpace(s[0]);
    assert SkipSpaces(s) == s;
    assert [s[0]] !in table;
    assert ScanNumber(s) == ("", s);
    ScanWordRun(table, "", w, rest);
    assert "" + w == w;
  }

  /** One call of `get` on a single-character symbol, after optional whitespace. */
  lemma GetSymbol(table: map<string, Kind>, spaces: string, c: char, rest: seq<char>)
    requires forall k :: 0 <= k < |spaces| ==> IsSpace(spaces[k])
    requires !IsSpace(c) && [c] in table
    ensures HasNonSpace(spaces + [c] + rest)
    ensures GetSpec(table, spaces + [c] + rest) == (Token(table[[c]], 0.0, [c]), rest)
    decreases |spaces|
  {
    var s := spaces + [c] + rest;
    assert s[|spaces|] == c;
    if spaces == [] {
      assert s == [c] + rest && SkipSpaces(s) == s;
    } else {
      assert s[1..] == spaces[1..] + [c] + rest;
      GetSymbol(table, spaces[1..], c, rest);
      assert SkipSpaces(s) == SkipSpaces(s[1..]);
    }
  }

  /** A word is cut as soon as it spells a symbol: when no shorter prefix of
      `w + [c]` is a symbol but `w + [c]` is, `get` returns that symbol and
      leaves the rest of the word in the stream. With the configured table this
      is why "INTERSECTION" reads as INTERSECT followed by the variable "ION". */
  lemma WordCutShort(table: map<string, Kind>, w: string, c: char, rest: seq<char>)
    requires w != [] && !IsNumChar(w[0])
    requires WordChars(table, w) && NoSymbolPrefix(table, "", w)
    requires !IsSpace(c) && [c] !in table && w + [c] in table
    ensures HasNonSpace(w + [c] + rest)
    ensures GetSpec(table, w + [c] + rest) == (Token(table[w + [c]], 0.0, w + [c]), rest)
  {
    assert w + [c] + rest == w + ([c] + rest);
    GetWord(table, w, [c] + rest);
    assert ([c] + rest)[0] == c && ([c] + rest)[1..] == rest;
  }

  /** A whole word followed by whitespace or the end of the input is one VAR token. */
  lemma WordThenBreak(table: map<string, Kind>, w: string, rest: seq<char>)
    requires w != [] && !IsNumChar(w[0])
    requires WordChars(table, w) && NoSymbolPrefix(table, "", w)
    requires rest == [] || IsSpace(rest[0]) || [rest[0]] in table
    ensures HasNonSpace(w + rest)
    ensures GetSpec(table, w + rest) ==
      (Token(Var, 0.0, w), if rest != [] && IsSpace(rest[0]) then rest[1..] else rest)
  {
    GetWord(table, w, rest);
  }

  /** The configured table has the names the shell's grammar lists. */
  lemma ConfiguredNames()
    ensures "INTERSECT" in Table && Table["INTERSECT"] == Intersect
    ensures "UNION" in Table && Table["UNION"] == Union
    ensures "SYMMETRIC_DIFFERENCE" in Table && Table["SYMMETRIC_DIFFERENCE"] == SymmetricDifference
    ensures ['^'] in Table && Table[['^']] == SymmetricDifference
  {
  }
}
