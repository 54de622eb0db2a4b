/** The evaluator (conjuntos/model/evaluator.py): operator classes, priorities,
    the binary operations on values, and the loops of `is_proper_subset`,
    `cartesian_product` and `power_set`. */
module Evaluator {
  import opened Failures
  import opened Values
  import opened Tokenizer

  const UnaryOperators: set<Kind> := {Complement}
  const SetOperators: set<Kind> := {Union, Intersect, Difference, SymmetricDifference, Cartesian} + UnaryOperators
  const BoolOperators: set<Kind> := {Belong, NotBelong, ProperSubset, ImproperSubset, NotSubset}
  const Operators: set<Kind> := {End, Define} + SetOperators + BoolOperators

  /** The operators that have an entry in the table of evaluations. */
  const Evaluations: set<Kind> :=
    {Union, Intersect, Difference, SymmetricDifference, Cartesian,
     Belong, NotBelong, ProperSubset, ImproperSubset, NotSubset}

  /** `get_priority`: a default of 0, overridden for END, VAR, NUMBER and COMPLEMENT. */
  function Priority(k: Kind): (p: int)
    ensures p == -1 <==> k == End
    ensures p == 1 <==> k == Var || k == Number
    ensures p == 2 <==> k == Complement
    ensures p == 0 <==> k !in {End, Var, Number, Complement}
  {
    match k
    case End => -1
    case Var => 1
    case Number => 1
    case Complement => 2
    case _ => 0
  }

  // ---------------------------------------------------------------------------
  // Reference definitions of the set operations.

  /** All pairs `(x, y)` with `x` from `l` and `y` from `r`. */
  function CartesianOf(l: set<Value>, r: set<Value>): (p: set<Value>)
    ensures forall v :: v in p ==> v.Pair? && v.fst in l && v.snd in r
  {
    set x, y | x in l && y in r :: Pair(x, y)
  }

  /** `i in right` for each item `i`, in order, stopping at the first false. */
  function SeqAllIn(items: seq<Value>, right: Value): (r: Result<bool>)
    ensures r == Ok(true) <==> forall k :: 0 <= k < |items| ==> Contains(right, items[k]) == Some(true)
  {
    if items == [] then Ok(true)
    else match Contains(right, items[0])
      case None => Fail(PyError(TypeError))
      case Some(false) => Ok(false)
      case Some(true) =>
        assert forall k :: 1 <= k < |items| ==> items[1..][k - 1] == items[k];
        SeqAllIn(items[1..], right)
  }

  /** The loop of `is_proper_subset` over a set. Python visits the elements in
      an order this model does not fix, so when one element raises and another
      is missing, whichever comes first decides; this definition reports the
      TypeError, and `IsProperSubset` below states both outcomes. */
  function SetAllIn(e: set<Value>, right: Value): (r: Result<bool>)
    ensures r == Ok(true) <==> forall x :: x in e ==> Contains(right, x) == Some(true)
    ensures right.SetV? ==> r == Ok(e <= right.elems)
  {
    if exists x :: x in e && Contains(right, x).None? then Fail(PyError(TypeError))
    else Ok(forall x :: x in e ==> Contains(right, x) == Some(true))
  }

  /** `is_proper_subset(left, right)` on any two values: falsy `right` gives
      False, `len` of a number or boolean raises, equal lengths give False,
      otherwise every item of `left` must be `in right`. */
  function ProperSubsetOf(l: Value, r: Value): Result<bool> {
    if !Truthy(r) then Ok(false)
    else if Len(l).None? || Len(r).None? then Fail(PyError(TypeError))
    else if Len(l) == Len(r) then Ok(false)
    else if l.SetV? then SetAllIn(l.elems, r)
    else SeqAllIn(Items(l), r)
  }

  /** `is_proper_subset2`: different sizes, and intersecting with `left` loses nothing. */
  function ProperSubset2(l: set<Value>, r: set<Value>): bool {
    |l| != |r| && |r * l| == |l|
  }

  /** The soft failures: operand types for which `evaluate` answers False
      without looking at the operation. */
  predicate SoftFalse(op: Kind, l: Value, r: Value) {
    (op in SetOperators && (!l.SetV? || !r.SetV?))
    || (op in BoolOperators && IsScalar(l) && IsScalar(r))
    || ((op == ProperSubset || op == ImproperSubset) && !l.SetV? && !r.SetV?)
  }

  /** Turns the outcome of a Python boolean test into a value. */
  function BoolResult(b: Result<bool>, negate: bool): Result<Value> {
    match b
    case Ok(v) => Ok(Bool(if negate then !v else v))
    case Fail(f) => Fail(f)
  }

  /** Turns the outcome of `in` (None for a TypeError) into a result. */
  function Membership(b: Option<bool>): Result<bool> {
    match b
    case None => Fail(PyError(TypeError))
    case Some(v) => Ok(v)
  }

  /** `evaluate(op, left, right)`. */
  function Evaluate(op: Kind, l: Value, r: Value): Result<Value> {
    if SoftFalse(op, l, r) then Ok(Bool(false))
    else
      match op
      case Union => Ok(SetV(l.elems + r.elems))
      case Intersect => Ok(SetV(l.elems * r.elems))
      case Difference => Ok(SetV(l.elems - r.elems))
      case SymmetricDifference => Ok(SetV((l.elems - r.elems) + (r.elems - l.elems)))
      case Cartesian => Ok(SetV(CartesianOf(l.elems, r.elems)))
      case Belong => BoolResult(Membership(Contains(r, l)), false)
      case NotBelong => BoolResult(Membership(Contains(r, l)), true)
      case ProperSubset => BoolResult(ProperSubsetOf(l, r), false)
      case ImproperSubset => Ok(Bool(l == r))
      case NotSubset => BoolResult(ProperSubsetOf(l, r), true)
      case _ => Fail(EvaluateError)
  }

  // ---------------------------------------------------------------------------
  // The loops.

  /** The pairs with first component `x`. */
  function Row(x: Value, r: set<Value>): (p: set<Value>)
    ensures forall y :: y in r ==> Pair(x, y) in p
    ensures forall v :: v in p ==> v.Pair? && v.fst == x && v.snd in r
  {
    set y | y in r :: Pair(x, y)
  }

  lemma CartesianSplit(l: set<Value>, r: set<Value>, x: Value)
    requires x in l
    ensures CartesianOf(l, r) == Row(x, r) + CartesianOf(l - {x}, r)
    ensures Row(x, r) !! CartesianOf(l - {x}, r)
  {
    var row := Row(x, r);
    var rest := CartesianOf(l - {x}, r);
    forall v | v in CartesianOf(l, r)
      ensures v in row + rest
    {
      var a, b :| a in l && b in r && v == Pair(a, b);
      if a == x {
        assert v in row;
      } else {
        assert v in rest;
      }
    }
    forall v | v in row + rest
      ensures v in CartesianOf(l, r)
    {
      assert v.fst in l && v.snd in r;
    }
    assert forall v :: v in row ==> v.fst == x;
    assert forall v :: v in rest ==> v.fst in l - {x};
  }

  /** The inner loop adds one pair to the row. */
  lemma RowGrows(x: Value, right: set<Value>, ys: set<Value>, y: Value)
    requires y in ys && ys <= right
    ensures Row(x, right - (ys - {y})) == Row(x, right - ys) + {Pair(x, y)}
  {
  }

  /** The outer loop adds the row of `x`. */
  lemma CartesianAddRow(done: set<Value>, x: Value, right: set<Value>)
    requires x !in done
    ensures CartesianOf(done + {x}, right) == CartesianOf(done, right) + Row(x, right)
  {
    CartesianSplit(done + {x}, right, x);
    assert (done + {x}) - {x} == done;
  }

  /** Taking one element out of what is left adds it to what is done. */
  lemma TakeOne<T>(all: set<T>, left: set<T>, x: T)
    requires x in left && left <= all
    ensures all - (left - {x}) == (all - left) + {x} && x !in all - left
  {
  }

  /** `cartesian_product`: one pass of the inner loop adds the row of each `x`. */
  method CartesianProduct(left: set<Value>, right: set<Value>) returns (result: set<Value>)
    ensures result == CartesianOf(left, right)
  {
    result := {};
    var xs := left;
    while xs != {}
      invariant xs <= left
      invariant result == CartesianOf(left - xs, right)
      decreases |xs|
    {
      var x :| x in xs;
      ghost var done := left - xs;
      var ys := right;
      while ys != {}
        invariant ys <= right
        invariant result == CartesianOf(done, right) + Row(x, right - ys)
        decreases |ys|
      {
        var y :| y in ys;
        RowGrows(x, right, ys, y);
        result := result + {Pair(x, y)};
        ys := ys - {y};
      }
      assert right - ys == right;
      CartesianAddRow(done, x, right);
      TakeOne(left, xs, x);
      xs := xs - {x};
    }
    assert left - xs == left;
  }

  /** `is_proper_subset` as the loop it is. When `left` is a set and some of
      its elements raise a TypeError against `right` while others are missing
      from it, Python's iteration order decides which is met first; the loop
      here may meet either, so it returns the reference result or, in that
      case only, False. */
  method IsProperSubset(left: Value, right: Value) returns (res: Result<bool>)
    ensures res == ProperSubsetOf(left, right) || (OrderDependent(left, right) && res == Ok(false))
  {
    if !Truthy(right) {
      return Ok(false);
    }
    if Len(left).None? || Len(right).None? {
      return Fail(PyError(TypeError));
    }
    if Len(left) == Len(right) {
      return Ok(false);
    }
    if left.SetV? {
      res := SetLoop(left.elems, right);
    } else {
      res := SeqLoop(Items(left), right);
    }
  }

  /** When the reference result of the set loop and the loop itself can differ. */
  predicate OrderDependent(l: Value, r: Value) {
    l.SetV?
    && (exists x :: x in l.elems && Contains(r, x).None?)
    && (exists x :: x in l.elems && Contains(r, x) == Some(false))
  }

  /** `for i in left: if i not in right: return False` over a set. */
  method SetLoop(e: set<Value>, right: Value) returns (res: Result<bool>)
    ensures res == SetAllIn(e, right)
      || (res == Ok(false) && SetAllIn(e, right).Fail? && exists x :: x in e && Contains(right, x) == Some(false))
  {
    var rest := e;
    while rest != {}
      invariant rest <= e
      invariant forall x :: x in e - rest ==> Contains(right, x) == Some(true)
      decreases |rest|
    {
      var i :| i in rest;
      var c := Contains(right, i);
      if c.None? {
        SetAllInRaises(e, right, i);
        return Fail(PyError(TypeError));
      }
      if !c.value {
        SetAllInMisses(e, right, i);
        return Ok(false);
      }
      rest := rest - {i};
    }
    assert e - rest == e;
    return Ok(true);
  }

  lemma SetAllInRaises(e: set<Value>, right: Value, i: Value)
    requires i in e && Contains(right, i).None?
    ensures SetAllIn(e, right) == Fail(PyError(TypeError))
  {
  }

  lemma SetAllInMisses(e: set<Value>, right: Value, i: Value)
    requires i in e && Contains(right, i) == Some(false)
    ensures SetAllIn(e, right) == Ok(false) || SetAllIn(e, right) == Fail(PyError(TypeError))
  {
  }

  /** The same loop over the items of a string or a pair, in order. */
  method SeqLoop(items: seq<Value>, right: Value) returns (res: Result<bool>)
    ensures res == SeqAllIn(items, right)
  {
    var k := 0;
    while k < |items|
      invariant 0 <= k <= |items|
      invariant SeqAllIn(items[k..], right) == SeqAllIn(items, right)
    {
      assert items[k..][0] == items[k];
      var c := Contains(right, items[k]);
      if c.None? {
        return Fail(PyError(TypeError));
      }
      if !c.value {
        return Ok(false);
      }
      assert items[k..][1..] == items[k + 1..];
      k := k + 1;
    }
    assert items[k..] == [];
    res := Ok(true);
  }

  // ---------------------------------------------------------------------------
  // `power_set`.

  /** The one-element sets of the members of `e`. */
  function SetSingletons(e: set<Value>): set<Value> {
    set x | x in e :: SetV({x})
  }

  /** The subsets of `e` whose size is at least `lo` and below `hi`. */
  function SubsetsSized(e: set<Value>, lo: nat, hi: nat): set<Value> {
    set t | t <= e && lo <= |t| < hi :: SetV(t)
  }

  /** The positions of a sequence of length `n`. */
  function Positions(n: nat): (r: set<int>)
    ensures forall k :: k in r <==> 0 <= k < n
  {
    if n == 0 then {} else Positions(n - 1) + {n - 1}
  }

  /** The items at the positions `J`. */
  function Pick(items: seq<Value>, J: set<int>): set<Value>
    requires J <= Positions(|items|)
  {
    set j | j in J :: items[j]
  }

  /** The one-element sets of the items, position by position. */
  function ItemSingletons(items: seq<Value>): set<Value> {
    set k | 0 <= k < |items| :: SetV({items[k]})
  }

  /** What `combinations` yields, turned into sets: the items at each choice of
      positions whose number is at least `lo` and below `hi`. */
  function ItemCombinations(items: seq<Value>, lo: nat, hi: nat): set<Value> {
    set J | J <= Positions(|items|) && lo <= |J| < hi :: SetV(Pick(items, J))
  }

  /** `power_set(args)`: an empty argument list raises IndexError, a number or
      boolean raises TypeError, a set gives the set of all its subsets; a
      string or a pair gives the empty set, the sets of one item, the sets of
      the items at 2 to n-1 positions, and the argument itself. */
  function PowerSetSpec(args: seq<Value>): Result<Value> {
    if args == [] then Fail(PyError(IndexError))
    else
      var s := args[0];
      match s
      case Num(_) => Fail(PyError(TypeError))
      case Bool(_) => Fail(PyError(TypeError))
      case SetV(e) => Ok(SetV(set t | t <= e :: SetV(t)))
      case _ =>
        var items := Items(s);
        Ok(SetV({SetV({})} + ItemSingletons(items) + ItemCombinations(items, 2, |items|) + {s}))
  }

  /** A subset of the same size is the whole set. */
  lemma SameSizeSubset(s: set<Value>, t: set<Value>)
    requires s <= t && |s| == |t|
    ensures s == t
  {
    assert t * s == s;
    assert |t - s| + |t * s| == |t|;
    assert t - s == {};
    assert forall y :: y in t ==> y in s || y in t - s;
  }

  /** A set of size one is a singleton. */
  lemma SizeOne(t: set<Value>) returns (x: Value)
    requires |t| == 1
    ensures t == {x}
  {
    x :| x in t;
    assert |t - {x}| == 0;
    assert t - {x} == {};
    assert forall y :: y in t ==> y == x || y in t - {x};
  }

  /** A subset is no larger than its superset. */
  lemma SubsetNoLarger(t: set<Value>, e: set<Value>)
    requires t <= e
    ensures |t| <= |e|
  {
    assert e * t == t;
    assert |e - t| + |e * t| == |e|;
  }

  /** Empty set, singletons, the middle sizes and the set itself are all its subsets. */
  lemma AllSubsets(e: set<Value>, i: nat)
    requires i >= |e|
    ensures {SetV({})} + SetSingletons(e) + SubsetsSized(e, 2, i) + {SetV(e)} == set t | t <= e :: SetV(t)
  {
    var lhs := {SetV({})} + SetSingletons(e) + SubsetsSized(e, 2, i) + {SetV(e)};
    forall v | v in set t | t <= e :: SetV(t)
      ensures v in lhs
    {
      var t :| t <= e && v == SetV(t);
      SubsetNoLarger(t, e);
      if |t| == 0 {
        assert t == {};
      } else if |t| == 1 {
        var x := SizeOne(t);
        assert v in SetSingletons(e);
      } else if |t| < i {
        assert v in SubsetsSized(e, 2, i);
      } else {
        SameSizeSubset(t, e);
      }
    }
  }

  lemma NoCombinations(items: seq<Value>, lo: nat, hi: nat)
    requires hi <= lo
    ensures ItemCombinations(items, lo, hi) == {}
  {
  }

  /** `power_set`, with the singleton loop and the combination loops spelled out. */
  method PowerSet(args: seq<Value>) returns (r: Result<Value>)
    ensures r == PowerSetSpec(args)
  {
    if |args| == 0 {
      return Fail(PyError(IndexError));
    }
    var s := args[0];
    if s.Num? || s.Bool? {
      return Fail(PyError(TypeError));
    }
    var ps: set<Value> := {SetV({})};
    if s.SetV? {
      var e := s.elems;
      var singles := AddSetSingletons(e);
      ps := ps + singles;
      var i := 2;
      while i < |e|
        invariant 2 <= i
        invariant ps == {SetV({})} + SetSingletons(e) + SubsetsSized(e, 2, i)
        decreases |e| - i
      {
        var combs := AddSetCombinations(e, i);
        assert SubsetsSized(e, 2, i + 1) == SubsetsSized(e, 2, i) + SubsetsSized(e, i, i + 1);
        ps := ps + combs;
        i := i + 1;
      }
      ps := ps + {s};
      AllSubsets(e, i);
    } else {
      var items := Items(s);
      var singles := AddItemSingletons(items);
      ps := ps + singles;
      var i := 2;
      while i < |items|
        invariant 2 <= i && (i <= |items| || i == 2)
        invariant ps == {SetV({})} + ItemSingletons(items) + ItemCombinations(items, 2, i)
        decreases |items| - i
      {
        var combs := AddItemCombinations(items, i);
        assert ItemCombinations(items, 2, i + 1) == ItemCombinations(items, 2, i) + ItemCombinations(items, i, i + 1);
        ps := ps + combs;
        i := i + 1;
      }
      if |items| >= 2 {
        assert i == |items|;
      } else {
        NoCombinations(items, 2, i);
        NoCombinations(items, 2, |items|);
      }
      ps := ps + {s};
    }
    r := Ok(SetV(ps));
  }

  /** `for e in s: ps.add(Set({e}))` over a set. */
  method AddSetSingletons(e: set<Value>) returns (singles: set<Value>)
    ensures singles == SetSingletons(e)
  {
    singles := {};
    var rest := e;
    while rest != {}
      invariant rest <= e
      invariant singles == SetSingletons(e - rest)
      decreases |rest|
    {
      var x :| x in rest;
      assert SetSingletons(e - (rest - {x})) == SetSingletons(e - rest) + {SetV({x})};
      singles := singles + {SetV({x})};
      rest := rest - {x};
    }
    assert e - rest == e;
  }

  /** `for comb in combinations(s, r=i): ps.add(Set(comb))` over a set. */
  method AddSetCombinations(e: set<Value>, i: nat) returns (combs: set<Value>)
    ensures combs == SubsetsSized(e, i, i + 1)
  {
    combs := {};
    var todo := set t | t <= e && |t| == i;
    ghost var all := todo;
    while todo != {}
      invariant todo <= all
      invariant combs == set t | t in all - todo :: SetV(t)
      decreases |todo|
    {
      var c :| c in todo;
      assert (set t | t in all - (todo - {c}) :: SetV(t)) == (set t | t in all - todo :: SetV(t)) + {SetV(c)};
      combs := combs + {SetV(c)};
      todo := todo - {c};
    }
    assert all - todo == all;
  }

  /** `for e in s: ps.add(Set({e}))` over a string or a pair, item by item. */
  method AddItemSingletons(items: seq<Value>) returns (singles: set<Value>)
    ensures singles == ItemSingletons(items)
  {
    singles := {};
    var k := 0;
    while k < |items|
      invariant 0 <= k <= |items|
      invariant singles == set j | 0 <= j < k :: SetV({items[j]})
    {
      assert (set j | 0 <= j < k + 1 :: SetV({items[j]})) == (set j | 0 <= j < k :: SetV({items[j]})) + {SetV({items[k]})};
      singles := singles + {SetV({items[k]})};
      k := k + 1;
    }
  }

  /** `for comb in combinations(s, r=i): ps.add(Set(comb))` over a string or a
      pair: one set per choice of `i` positions. */
  method AddItemCombinations(items: seq<Value>, i: nat) returns (combs: set<Value>)
    ensures combs == ItemCombinations(items, i, i + 1)
  {
    combs := {};
    var todo := set J | J <= Positions(|items|) && |J| == i;
    ghost var all := todo;
    while todo != {}
      invariant todo <= all
      invariant combs == set J | J in all - todo :: SetV(Pick(items, J))
      decreases |todo|
    {
      var c :| c in todo;
      assert (set J | J in all - (todo - {c}) :: SetV(Pick(items, J)))
        == (set J | J in all - todo :: SetV(Pick(items, J))) + {SetV(Pick(items, c))};
      combs := combs + {SetV(Pick(items, c))};
      todo := todo - {c};
    }
    assert all - todo == all;
  }
}

/** Properties of `evaluate` and of the operations behind it. */
module EvaluatorFacts {
  import opened Failures
  import opened Values
  import opened Tokenizer
  import opened Evaluator

  /** The three soft failures answer False, whatever the operation would do. */
  lemma SoftFailures(op: Kind, l: Value, r: Value)
    ensures op in SetOperators && (!l.SetV? || !r.SetV?) ==> Evaluate(op, l, r) == Ok(Bool(false))
    ensures op in BoolOperators && IsScalar(l) && IsScalar(r) ==> Evaluate(op, l, r) == Ok(Bool(false))
    ensures (op == ProperSubset || op == ImproperSubset) && !l.SetV? && !r.SetV? ==>
      Evaluate(op, l, r) == Ok(Bool(false))
  {
  }

  /** `EvaluateError` is raised exactly for an operation without an entry in
      the table of evaluations whose operands pass the type guards: END,
      DEFINE, or COMPLEMENT applied to two sets. Every other failure is a
      TypeError from `in` or `len`. */
  lemma EvaluateErrorExactly(op: Kind, l: Value, r: Value)
    ensures Evaluate(op, l, r) == Fail(EvaluateError) <==> op !in Evaluations && !SoftFalse(op, l, r)
    ensures Evaluate(op, l, r).Fail? && op in Evaluations ==> Evaluate(op, l, r) == Fail(PyError(TypeError))
  {
    if op in Evaluations && !SoftFalse(op, l, r) {
      match op
      case ProperSubset => ProperSubsetFailure(l, r);
      case NotSubset => ProperSubsetFailure(l, r);
      case _ =>
    }
  }

  /** `is_proper_subset` fails only with a TypeError. */
  lemma ProperSubsetFailure(l: Value, r: Value)
    ensures ProperSubsetOf(l, r).Fail? ==> ProperSubsetOf(l, r) == Fail(PyError(TypeError))
  {
    if Truthy(r) && Len(l).Some? && Len(r).Some? && Len(l) != Len(r) && !l.SetV? {
      SeqAllInFailure(Items(l), r);
    }
  }

  lemma {:induction false} SeqAllInFailure(items: seq<Value>, right: Value)
    ensures SeqAllIn(items, right).Fail? ==> SeqAllIn(items, right) == Fail(PyError(TypeError))
  {
    if items != [] && Contains(right, items[0]) == Some(true) {
      SeqAllInFailure(items[1..], right);
    }
  }

  lemma ComplementOfTwoSets(a: set<Value>, b: set<Value>)
    ensures Evaluate(Complement, SetV(a), SetV(b)) == Fail(EvaluateError)
  {
    EvaluateErrorExactly(Complement, SetV(a), SetV(b));
  }

  /** UNION and INTERSECT are commutative on all operands. */
  lemma UnionIntersectCommute(a: Value, b: Value)
    ensures Evaluate(Union, a, b) == Evaluate(Union, b, a)
    ensures Evaluate(Intersect, a, b) == Evaluate(Intersect, b, a)
  {
    if a.SetV? && b.SetV? {
      assert a.elems + b.elems == b.elems + a.elems;
      assert a.elems * b.elems == b.elems * a.elems;
    }
  }

  /** A symmetric difference is the union minus the intersection, and a set's
      symmetric difference with itself is empty. */
  lemma SymmetricDifferenceLaws(a: set<Value>, b: set<Value>)
    ensures Evaluate(SymmetricDifference, SetV(a), SetV(b))
      == Ok(SetV(Evaluate(Union, SetV(a), SetV(b)).value.elems - Evaluate(Intersect, SetV(a), SetV(b)).value.elems))
    ensures Evaluate(SymmetricDifference, SetV(a), SetV(a)) == Ok(SetV({}))
  {
    assert (a - b) + (b - a) == (a + b) - (a * b);
    assert (a - a) + (a - a) == {};
  }

  /** BELONG with a set on the right is membership; NOT_BELONG is its exact
      negation, including the TypeError, except when both operands are
      numbers or booleans: then both answer False. */
  lemma BelongLaws(x: Value, r: Value)
    ensures r.SetV? ==> Evaluate(Belong, x, r) == Ok(Bool(x in r.elems))
    ensures !(IsScalar(x) && IsScalar(r)) ==>
      (Evaluate(Belong, x, r).Fail? <==> Evaluate(NotBelong, x, r).Fail?)
      && (Evaluate(Belong, x, r).Ok? ==>
          Evaluate(Belong, x, r).value.Bool?
          && Evaluate(NotBelong, x, r) == Ok(Bool(!Evaluate(Belong, x, r).value.b)))
    ensures IsScalar(x) && IsScalar(r) ==>
      Evaluate(Belong, x, r) == Ok(Bool(false)) && Evaluate(NotBelong, x, r) == Ok(Bool(false))
  {
  }

  /** On two sets `is_proper_subset` is strict inclusion. */
  lemma ProperSubsetOfSets(a: set<Value>, b: set<Value>)
    ensures ProperSubsetOf(SetV(a), SetV(b)) == Ok(a < b)
  {
    if b != {} && |a| != |b| && a <= b {
      assert a != b;
    }
    if a < b {
      SubsetSize(a, b);
    }
  }

  lemma SubsetSize(a: set<Value>, b: set<Value>)
    requires a < b
    ensures |a| < |b|
  {
    assert b * a == a;
    var y :| y in b && y !in a;
    assert y in b - a;
    assert |b - a| + |b * a| == |b|;
  }

  /** The iteration order of `is_proper_subset` can only matter when the right
      operand is a string: only a string answers `in` for some items and raises
      for others. */
  lemma OrderMattersOnlyForStrings(l: Value, r: Value)
    ensures OrderDependent(l, r) ==> r.Text?
  {
  }

  /** `is_proper_subset2` agrees with `is_proper_subset` on sets. */
  lemma ProperSubsetAgree(a: set<Value>, b: set<Value>)
    ensures ProperSubset2(a, b) <==> a < b
    ensures ProperSubsetOf(SetV(a), SetV(b)) == Ok(ProperSubset2(a, b))
  {
    ProperSubsetOfSets(a, b);
    if |a| != |b| && |b * a| == |a| {
      SameSizeSubset(b * a, a);
    }
    if a < b {
      SubsetSize(a, b);
      assert b * a == a;
    }
  }

  /** The subset operators on sets: PROPER_SUBSET is strict inclusion,
      NOT_SUBSET its negation, IMPROPER_SUBSET equality. So a set is not a
      proper subset of itself, and "not a subset" of itself. */
  lemma SubsetOperators(a: set<Value>, b: set<Value>)
    ensures Evaluate(ProperSubset, SetV(a), SetV(b)) == Ok(Bool(a < b))
    ensures Evaluate(NotSubset, SetV(a), SetV(b)) == Ok(Bool(!(a < b)))
    ensures Evaluate(ImproperSubset, SetV(a), SetV(b)) == Ok(Bool(a == b))
    ensures Evaluate(ProperSubset, SetV(a), SetV(a)) == Ok(Bool(false))
    ensures Evaluate(NotSubset, SetV(a), SetV(a)) == Ok(Bool(true))
  {
    ProperSubsetOfSets(a, b);
    ProperSubsetOfSets(a, a);
  }

  /** IMPROPER_SUBSET is equality whenever a set is involved; between two
      numbers or booleans it is False even when they are equal. */
  lemma ImproperSubsetIsEquality(l: Value, r: Value)
    ensures l.SetV? || r.SetV? ==> Evaluate(ImproperSubset, l, r) == Ok(Bool(l == r))
    ensures !l.SetV? && !r.SetV? ==> Evaluate(ImproperSubset, l, r) == Ok(Bool(false))
  {
  }

  /** All pairs with first component `x`. */
  lemma {:induction false} RowSize(x: Value, r: set<Value>)
    ensures |set y | y in r :: Pair(x, y)| == |r|
  {
    if r != {} {
      var y :| y in r;
      RowSize(x, r - {y});
      assert (set z | z in r :: Pair(x, z)) == (set z | z in r - {y} :: Pair(x, z)) + {Pair(x, y)};
    }
  }

  /** The cartesian product has |l|·|r| pairs. */
  lemma {:induction false} CartesianSize(l: set<Value>, r: set<Value>)
    ensures |CartesianOf(l, r)| == |l| * |r|
  {
    if l != {} {
      var x :| x in l;
      CartesianSize(l - {x}, r);
      RowSize(x, r);
      CartesianSplit(l, r, x);
      assert Row(x, r) == set y | y in r :: Pair(x, y);
      var m := |l - {x}|;
      assert m + 1 == |l|;
      SumOfRows(m, |r|);
    }
  }

  lemma SumOfRows(m: nat, n: nat)
    ensures n + m * n == (m + 1) * n
  {
  }

  /** CARTESIAN on two sets is the set of all their pairs. */
  lemma CartesianLaws(a: set<Value>, b: set<Value>)
    ensures Evaluate(Cartesian, SetV(a), SetV(b)).Ok?
    ensures var p := Evaluate(Cartesian, SetV(a), SetV(b)).value;
      p.SetV? && |p.elems| == |a| * |b|
      && forall x, y :: Pair(x, y) in p.elems <==> x in a && y in b
  {
    CartesianSize(a, b);
  }
}

/** Properties of `power_set`. */
module PowerSetFacts {
  import opened Failures
  import opened Values
  import opened Evaluator

  function Pow2(n: nat): nat {
    if n == 0 then 1 else 2 * Pow2(n - 1)
  }

  function Subsets(e: set<Value>): set<set<Value>> {
    set t | t <= e
  }

  function AddToEach(p: set<set<Value>>, x: Value): set<set<Value>> {
    set t | t in p :: t + {x}
  }

  function WrapAll(p: set<set<Value>>): set<Value> {
    set t | t in p :: SetV(t)
  }

  /** Adding an element that no member has is one-to-one. */
  lemma {:induction false} AddElementCount(p: set<set<Value>>, x: Value)
    requires forall t :: t in p ==> x !in t
    ensures |AddToEach(p, x)| == |p|
  {
    if p != {} {
      var u :| u in p;
      AddElementCount(p - {u}, x);
      AddOneMore(p, u, x);
    }
  }

  lemma AddOneMore(p: set<set<Value>>, u: set<Value>, x: Value)
    requires u in p
    requires forall t :: t in p ==> x !in t
    ensures AddToEach(p, x) == AddToEach(p - {u}, x) + {u + {x}}
    ensures u + {x} !in AddToEach(p - {u}, x)
  {
    forall t | t in p - {u}
      ensures t + {x} != u + {x}
    {
      assert t != u;
      assert t == (t + {x}) - {x} && u == (u + {x}) - {x};
    }
  }

  /** Wrapping sets as values is one-to-one. */
  lemma {:induction false} WrapCount(p: set<set<Value>>)
    ensures |WrapAll(p)| == |p|
  {
    if p != {} {
      var u :| u in p;
      WrapCount(p - {u});
      assert WrapAll(p) == WrapAll(p - {u}) + {SetV(u)};
    }
  }

  /** The subsets of `e` that contain `x` are those of `e - {x}` with `x` added. */
  lemma SubsetsSplit(e: set<Value>, x: Value)
    requires x in e
    ensures Subsets(e) == Subsets(e - {x}) + AddToEach(Subsets(e - {x}), x)
    ensures Subsets(e - {x}) !! AddToEach(Subsets(e - {x}), x)
    ensures forall t :: t in Subsets(e - {x}) ==> x !in t
  {
    var without := Subsets(e - {x});
    var with := AddToEach(without, x);
    forall t | t in Subsets(e)
      ensures t in without + with
    {
      if x in t {
        assert t - {x} in without;
        assert t == (t - {x}) + {x};
      } else {
        assert t in without;
      }
    }
    assert forall t :: t in with ==> x in t;
  }

  lemma DisjointUnionSize(a: set<set<Value>>, b: set<set<Value>>)
    requires a !! b
    ensures |a + b| == |a| + |b|
  {
    assert a * b == {};
  }

  /** A set of n elements has 2^n subsets. */
  lemma {:induction false} SubsetsCount(e: set<Value>)
    ensures |Subsets(e)| == Pow2(|e|)
  {
    if e == {} {
      SubsetsOfEmpty();
    } else {
      var x :| x in e;
      SubsetsCount(e - {x});
      SubsetsDouble(e, x);
    }
  }

  /** Each element doubles the number of subsets. */
  lemma SubsetsDouble(e: set<Value>, x: Value)
    requires x in e
    ensures |Subsets(e)| == 2 * |Subsets(e - {x})|
    ensures |e| == |e - {x}| + 1
  {
    var without := Subsets(e - {x});
    SubsetsSplit(e, x);
    AddElementCount(without, x);
    DisjointUnionSize(without, AddToEach(without, x));
  }

  lemma SubsetsOfEmpty()
    ensures Subsets({}) == {{}}
  {
    assert forall t :: t in Subsets({}) ==> t == {};
  }

  /** `P(s)` for a set `s` holds exactly the subsets of `s`, among them the
      empty set and `s` itself, and there are 2^|s| of them. */
  lemma PowerSetOfSet(e: set<Value>)
    ensures PowerSetSpec([SetV(e)]).Ok? && PowerSetSpec([SetV(e)]).value.SetV?
    ensures var ps := PowerSetSpec([SetV(e)]).value.elems;
      SetV({}) in ps && SetV(e) in ps
      && (forall v :: v in ps <==> v.SetV? && v.elems <= e)
      && |ps| == Pow2(|e|)
  {
    SubsetsCount(e);
    WrapCount(Subsets(e));
    assert PowerSetSpec([SetV(e)]).value.elems == WrapAll(Subsets(e));
  }

  /** Only the first argument matters; with none, IndexError. */
  lemma PowerSetArguments(args: seq<Value>)
    ensures args == [] ==> PowerSetSpec(args) == Fail(PyError(IndexError))
    ensures args != [] ==> PowerSetSpec(args) == PowerSetSpec([args[0]])
    ensures args != [] && IsScalar(args[0]) ==> PowerSetSpec(args) == Fail(PyError(TypeError))
  {
  }
}
