/** The values the calculator computes with (conjuntos/model/wrapper.py):
    numbers, booleans, strings (names of undefined variables), sets and pairs.
    Python compares `Set` and `Number` structurally, with a type check first;
    a Dafny datatype has exactly that equality, which `PyEqIsEquality` proves. */
module Values {
  import opened Failures

  /** `Number` wraps a float; here the magnitude is an exact real.
      `SetV` is the `Set` wrapper, `Pair` the tuple made by the cartesian product. */
  datatype Value =
    | Num(n: real)
    | Bool(b: bool)
    | Text(s: string)
    | SetV(elems: set<Value>)
    | Pair(fst: Value, snd: Value)

  /** Python's `==` between two values, written out the way `Set.__eq__`,
      `Number.__eq__`, `bool`, `str` and `tuple` define it: different types are
      never equal, sets are equal when each element of one has an equal element
      in the other. */
  predicate PyEq(a: Value, b: Value)
    decreases a
  {
    match a
    case Num(x) => b.Num? && b.n == x
    case Bool(p) => b.Bool? && b.b == p
    case Text(s) => b.Text? && b.s == s
    case Pair(x, y) => b.Pair? && PyEq(x, b.fst) && PyEq(y, b.snd)
    case SetV(e) =>
      b.SetV?
      && (forall x :: x in e ==> exists y :: y in b.elems && PyEq(x, y))
      && (forall y :: y in b.elems ==> exists x :: x in e && PyEq(x, y))
  }

  lemma {:induction false} PyEqReflexive(a: Value)
    ensures PyEq(a, a)
    decreases a
  {
    match a
    case Num(_) =>
    case Bool(_) =>
    case Text(_) =>
    case Pair(x, y) =>
      PyEqReflexive(x);
      PyEqReflexive(y);
    case SetV(e) =>
      forall x | x in e
        ensures PyEq(x, x)
      {
        PyEqReflexive(x);
      }
  }

  lemma {:induction false} PyEqSound(a: Value, b: Value)
    requires PyEq(a, b)
    ensures a == b
    decreases a, 1
  {
    match a
    case Num(_) =>
    case Bool(_) =>
    case Text(_) =>
    case Pair(x, y) =>
      PyEqSound(x, b.fst);
      PyEqSound(y, b.snd);
    case SetV(e) =>
      PyEqSoundSet(e, b);
  }

  lemma {:induction false} PyEqSoundSet(e: set<Value>, b: Value)
    requires PyEq(SetV(e), b)
    ensures SetV(e) == b
    decreases SetV(e), 0
  {
    forall x, y | x in e && PyEq(x, y)
      ensures x == y
    {
      PyEqSound(x, y);
    }
    SameElements(e, b.elems);
  }

  /** The set case of `PyEqSound`, once the elements are known to satisfy it. */
  lemma SameElements(e: set<Value>, f: set<Value>)
    requires forall x :: x in e ==> exists y :: y in f && PyEq(x, y)
    requires forall y :: y in f ==> exists x :: x in e && PyEq(x, y)
    requires forall x, y :: x in e && PyEq(x, y) ==> x == y
    ensures e == f
  {
    forall x | x in e
      ensures x in f
    {
      var y :| y in f && PyEq(x, y);
    }
    forall y | y in f
      ensures y in e
    {
      var x :| x in e && PyEq(x, y);
    }
  }

  /** Python's equality on these values is exactly the datatype's equality:
      a `Set` equals only a `Set` with the same elements (nested sets compared
      by content), a `Number` only a `Number` of the same magnitude, never a
      bool, a string or a set. Content-equal sets are therefore one element of
      an enclosing set, which is what the content-only `Set.__hash__` achieves. */
  lemma PyEqIsEquality(a: Value, b: Value)
    ensures PyEq(a, b) <==> a == b
  {
    if PyEq(a, b) {
      PyEqSound(a, b);
    } else {
      PyEqReflexive(a);
    }
  }

  /** `type(x) in (Number, bool)`. */
  predicate IsScalar(v: Value) {
    v.Num? || v.Bool?
  }

  // ---------------------------------------------------------------------------
  // The parts of Python's object protocol that the evaluator relies on.

  /** Python truthiness: `Number` defines neither `__bool__` nor `__len__`,
      so every number is true; a tuple of two is always true. */
  function Truthy(v: Value): (r: bool)
    ensures v.SetV? ==> (r <==> v.elems != {})
    ensures IsScalar(v) ==> (r <==> v.Num? || v.b)
    ensures v.Text? ==> (r <==> v.s != "")
    ensures v.Pair? ==> r
  {
    match v
    case Num(_) => true
    case Bool(b) => b
    case Text(s) => s != ""
    case SetV(e) => e != {}
    case Pair(_, _) => true
  }

  /** `len(v)`; `None` stands for the TypeError that numbers and booleans raise. */
  function Len(v: Value): (r: Option<nat>)
    ensures r.None? <==> IsScalar(v)
    ensures v.SetV? ==> r == Some(|v.elems|)
  {
    match v
    case Num(_) => None
    case Bool(_) => None
    case Text(s) => Some(|s|)
    case SetV(e) => Some(|e|)
    case Pair(_, _) => Some(2)
  }

  predicate IsSubstring(t: string, s: string) {
    exists i :: 0 <= i <= |s| && t <= s[i..]
  }

  /** `x in container`: set membership, substring test on strings, component
      test on tuples; `None` is the TypeError raised for a number or a boolean
      container, and for a non-string tested against a string. */
  function Contains(container: Value, x: Value): (r: Option<bool>)
    ensures container.SetV? ==> r == Some(x in container.elems)
    ensures IsScalar(container) ==> r.None?
    ensures container.Pair? ==> r == Some(x == container.fst || x == container.snd)
    ensures container.Text? ==> (r.Some? <==> x.Text?)
    ensures container.Text? && x.Text? ==> r == Some(IsSubstring(x.s, container.s))
  {
    match container
    case Num(_) => None
    case Bool(_) => None
    case Text(s) => if x.Text? then Some(IsSubstring(x.s, s)) else None
    case SetV(e) => Some(x in e)
    case Pair(a, b) => Some(x == a || x == b)
  }

  /** The items `for i in v` visits, in order, for the ordered iterables:
      one-character strings for a string, the two components of a pair. */
  function Items(v: Value): (r: seq<Value>)
    requires v.Text? || v.Pair?
    ensures v.Text? ==> |r| == |v.s| && forall k :: 0 <= k < |r| ==> r[k] == Text([v.s[k]])
    ensures v.Pair? ==> r == [v.fst, v.snd]
  {
    if v.Pair? then [v.fst, v.snd] else CharTexts(v.s)
  }

  function CharTexts(s: string): (r: seq<Value>)
    ensures |r| == |s| && forall k :: 0 <= k < |r| ==> r[k] == Text([s[k]])
  {
    if s == [] then [] else [Text([s[0]])] + CharTexts(s[1..])
  }

  // ---------------------------------------------------------------------------
  // Display (`Set.__str__`, `Number.__str__`).

  function DigitChar(d: nat): char
    requires d < 10
  {
    "0123456789"[d]
  }

  /** Decimal digits of a natural number, most significant first. */
  function NatText(n: nat): (r: string)
    ensures |r| >= 1
    ensures forall k :: 0 <= k < |r| ==> '0' <= r[k] <= '9'
    ensures n >= 10 ==> r[0] != '0'
  {
    if n < 10 then [DigitChar(n)] else NatText(n / 10) + [DigitChar(n % 10)]
  }

  /** `str(int(x))`. */
  function IntText(i: int): string {
    if i < 0 then "-" + NatText(-i) else NatText(i)
  }

  /** `Number.__str__`: an integral magnitude prints as the integer, without
      ".0". Python's rendering of other floats is not part of the model (`None`). */
  function NumberText(x: real): (r: Option<string>)
    ensures r.Some? <==> x == x.Floor as real
    ensures r.Some? ==> '.' !in r.value
  {
    if x == x.Floor as real then Some(IntText(x.Floor)) else None
  }

  /** The elements of `xs` that belong to `e`, in order. */
  function Members(xs: seq<Value>, e: set<Value>): (r: seq<Value>)
    ensures forall x :: x in r ==> x in e
    ensures forall x :: x in r ==> x in xs
  {
    if xs == [] then []
    else if xs[0] in e then [xs[0]] + Members(xs[1..], e)
    else Members(xs[1..], e)
  }

  /** `str(v)` (when `quoted` is false) or `repr(v)` (when it is true).
      `order(e)` is the order in which Python happens to iterate the set `e`;
      only its members of `e` are shown. A set prints as "{a, b}" or "∅", its
      repr as "Set({a, b})" or "Set()"; a pair prints as a tuple of reprs. */
  function Render(v: Value, order: set<Value> -> seq<Value>, quoted: bool): Option<string>
    decreases v, 1, 0
  {
    match v
    case Num(x) => NumberText(x)
    case Bool(b) => Some(if b then "True" else "False")
    case Text(s) => Some(if quoted then "'" + s + "'" else s)
    case SetV(e) =>
      if e == {} then Some(if quoted then "Set()" else "∅")
      else
        (match RenderAll(Members(order(e), e), order, quoted, v)
         case None => None
         case Some(body) => Some(if quoted then "Set({" + body + "})" else "{" + body + "}"))
    case Pair(a, b) =>
      match (Render(a, order, true), Render(b, order, true))
      case (Some(ra), Some(rb)) => Some("(" + ra + ", " + rb + ")")
      case _ => None
  }

  /** The renderings of `xs` joined by ", ". */
  function RenderAll(xs: seq<Value>, order: set<Value> -> seq<Value>, quoted: bool, ghost parent: Value): Option<string>
    requires forall x :: x in xs ==> x < parent
    decreases parent, 0, |xs|
  {
    if xs == [] then Some("")
    else
      assert xs[0] in xs;
      assert forall x :: x in xs[1..] ==> x in xs;
      match Render(xs[0], order, quoted)
      case None => None
      case Some(first) =>
        if |xs| == 1 then Some(first)
        else
          match RenderAll(xs[1..], order, quoted, parent)
          case None => None
          case Some(rest) => Some(first + ", " + rest)
  }

  /** An iteration order that lists every set it is given: each element
      exactly once, and nothing else. */
  ghost predicate Listing(order: set<Value> -> seq<Value>) {
    forall e :: |order(e)| == |e| && forall x :: x in order(e) <==> x in e
  }

  /** `", ".join(parts)`. */
  function JoinComma(parts: seq<string>): string {
    if parts == [] then ""
    else if |parts| == 1 then parts[0]
    else parts[0] + ", " + JoinComma(parts[1..])
  }

  /** `str(i)` for each `i` of `xs`, when every one of them has a rendering. */
  function Strs(xs: seq<Value>, order: set<Value> -> seq<Value>): (r: seq<string>)
    requires forall x :: x in xs ==> Render(x, order, false).Some?
    ensures |r| == |xs|
    ensures forall k :: 0 <= k < |xs| ==> Some(r[k]) == Render(xs[k], order, false)
  {
    if xs == [] then []
    else
      assert xs[0] in xs;
      [Render(xs[0], order, false).value] + Strs(xs[1..], order)
  }

  lemma {:induction false} MembersAll(xs: seq<Value>, e: set<Value>)
    requires forall x :: x in xs ==> x in e
    ensures Members(xs, e) == xs
  {
    if xs != [] {
      assert xs[0] in xs;
      MembersAll(xs[1..], e);
    }
  }

  lemma {:induction false} RenderAllJoins(xs: seq<Value>, order: set<Value> -> seq<Value>, parent: Value)
    requires forall x :: x in xs ==> x < parent
    requires forall x :: x in xs ==> Render(x, order, false).Some?
    ensures RenderAll(xs, order, false, parent) == Some(JoinComma(Strs(xs, order)))
  {
    if xs != [] {
      assert xs[0] in xs;
      if |xs| > 1 {
        assert forall x :: x in xs[1..] ==> x in xs;
        RenderAllJoins(xs[1..], order, parent);
      }
    }
  }

  /** `Set.__str__`: the empty set displays as "∅"; any other set as "{",
      the `str` of its elements in iteration order joined by ", ", and "}".
      With an order that lists the set, every element is shown exactly once. */
  lemma SetDisplay(e: set<Value>, order: set<Value> -> seq<Value>)
    requires Listing(order)
    ensures e == {} ==> Render(SetV(e), order, false) == Some("∅")
    ensures e != {} && (forall x :: x in e ==> Render(x, order, false).Some?) ==>
      |order(e)| == |e| && (forall x :: x in order(e) <==> x in e)
      && Render(SetV(e), order, false) == Some("{" + JoinComma(Strs(order(e), order)) + "}")
  {
    if e != {} && (forall x :: x in e ==> Render(x, order, false).Some?) {
      var xs := order(e);
      assert forall x :: x in xs <==> x in e;
      MembersAll(xs, e);
      RenderAllJoins(xs, order, SetV(e));
    }
  }

  // ---------------------------------------------------------------------------
  // `Set.to_set`.

  /** An element handed to `Set.to_set`: a raw Python int or float, or an
      object that is already a value of the calculator (a bool is not an int
      here, because `type(True)` is `bool`). */
  datatype PyObject = PyInt(i: int) | PyFloat(x: real) | PyValue(v: Value)

  function Wrap(o: PyObject): Value {
    match o
    case PyInt(i) => Num(i as real)
    case PyFloat(x) => Num(x)
    case PyValue(v) => v
  }

  /** `Set.to_set`: every int or float becomes a `Number`, other elements are
      kept, and the result has each distinct element once. */
  method ToSet(s: seq<PyObject>) returns (r: Value)
    ensures r.SetV?
    ensures forall k :: 0 <= k < |s| ==> Wrap(s[k]) in r.elems
    ensures forall v :: v in r.elems ==> exists k :: 0 <= k < |s| && Wrap(s[k]) == v
  {
    var newSet: set<Value> := {};
    var k := 0;
    while k < |s|
      invariant 0 <= k <= |s|
      invariant forall j :: 0 <= j < k ==> Wrap(s[j]) in newSet
      invariant forall v :: v in newSet ==> exists j :: 0 <= j < k && Wrap(s[j]) == v
    {
      newSet := newSet + {Wrap(s[k])};
      k := k + 1;
    }
    r := SetV(newSet);
  }

  /** `to_set` never produces more elements than it was given. */
  lemma {:induction false} ToSetSize(s: seq<PyObject>)
    ensures |set k | 0 <= k < |s| :: Wrap(s[k])| <= |s|
  {
    if s != [] {
      var last := |s| - 1;
      ToSetSize(s[..last]);
      assert (set k | 0 <= k < |s| :: Wrap(s[k]))
          == (set k | 0 <= k < last :: Wrap(s[..last][k])) + {Wrap(s[last])};
    }
  }
}
