/**
  What a folded constant is: integer arithmetic is exact modulo 2^64 however deep it nests;
  over the reals the other operators are what their symbols say.
*/
module FoldingValues {
  import opened Machine
  import opened Folding

  // --- nested integer arithmetic --------------------------------------------------------------------

  predicate Ring(name: Name) {
    name.AddAll? || name.MulAll? || name.Plus? || name.Minus? || name.Times? || name.UnaryPlus? || name.UnaryMinus?
  }

  /** Integers under sums, differences, products and signs. */
  predicate Integral(t: Tree) {
    match t
    case Literal(v) => v.Int?
    case Leaf(_, _) => false
    case Apply(name, args) => Ring(name) && IntegralAll(args)
  }

  predicate IntegralAll(ts: Trees) { ts.NoTrees? || (Integral(ts.first) && IntegralAll(ts.rest)) }

  /** Its value, without any bound. */
  function Worth(t: Tree): int
    requires Integral(t)
    decreases t
  {
    match t
    case Literal(v) => v.i
    case Apply(name, args) =>
      assert IntegralAll(args);
      if args.NoTrees? then 0
      else if name.MulAll? || name.Times? then Worth(args.first) * WorthAll(true, args.rest)
      else if name.Minus? then Worth(args.first) - WorthAll(false, args.rest)
      else if name.UnaryMinus? then -Worth(args.first)
      else Worth(args.first) + WorthAll(false, args.rest)
  }

  function WorthAll(product: bool, ts: Trees): int
    requires IntegralAll(ts)
    decreases ts
  {
    if ts.NoTrees? then (if product then 1 else 0)
    else if product then Worth(ts.first) * WorthAll(true, ts.rest) else Worth(ts.first) + WorthAll(false, ts.rest)
  }

  lemma CongruentAdd(a: int, b: int, c: int, d: int)
    requires Congruent(a, b) && Congruent(c, d)
    ensures Congruent(a + c, b + d) && Congruent(a - c, b - d)
  {
    var j: int :| a == b + j * WIDTH;
    var k: int :| c == d + k * WIDTH;
    assert a + c == b + d + (j + k) * WIDTH && a - c == b - d + (j - k) * WIDTH;
  }

  lemma CongruentMul(a: int, b: int, c: int, d: int)
    requires Congruent(a, b) && Congruent(c, d)
    ensures Congruent(a * c, b * d)
  {
    var j: int :| a == b + j * WIDTH;
    var k: int :| c == d + k * WIDTH;
    Expand(b, d, j, k, WIDTH);
    assert a * c == b * d + (b * k + j * d + j * k * WIDTH) * WIDTH;
  }

  lemma CongruentSelf(a: int)
    ensures Congruent(a, a)
  {
    assert a == a + 0 * WIDTH;
  }

  /** The values are integers, each the exact one modulo 2^64. */
  ghost predicate Near(vs: seq<Value>, ts: Trees)
    requires IntegralAll(ts)
  {
    if ts.NoTrees? then vs == []
    else vs != [] && vs[0].Int? && Congruent(vs[0].i, Worth(ts.first)) && Near(vs[1..], ts.rest)
  }

  lemma {:induction false} NearInts(vs: seq<Value>, ts: Trees)
    requires IntegralAll(ts) && Near(vs, ts)
    ensures AllOf(vs, TInt)
    decreases ts
  {
    if ts.Trees? {
      NearInts(vs[1..], ts.rest);
      assert vs == [vs[0]] + vs[1..];
    }
  }

  lemma {:induction false} FoldsNear(product: bool, acc: int, exact: int, vs: seq<Value>, ts: Trees)
    requires IntegralAll(ts) && Near(vs, ts) && AllOf(vs, TInt) && Congruent(acc, exact)
    ensures Congruent(FoldInts(product, acc, vs), if product then exact * WorthAll(true, ts) else exact + WorthAll(false, ts))
    decreases ts
  {
    hide Congruent, WrapAdd, WrapMul, Worth;
    if ts.Trees? {
      var v, x := vs[0].i, Worth(ts.first);
      WrapsAround(acc, v);
      if product {
        CongruentMul(acc, exact, v, x);
        CongruentTrans(WrapMul(acc, v), acc * v, exact * x);
        FoldsNear(product, WrapMul(acc, v), exact * x, vs[1..], ts.rest);
        Associates(exact, x, WorthAll(true, ts.rest));
      } else {
        CongruentAdd(acc, exact, v, x);
        CongruentTrans(WrapAdd(acc, v), acc + v, exact + x);
        FoldsNear(product, WrapAdd(acc, v), exact + x, vs[1..], ts.rest);
      }
    } else if product {
      assert exact * 1 == exact;
    }
  }

  lemma Associates(a: int, b: int, c: int)
    ensures a * b * c == a * (b * c)
  {}

  lemma {:induction false} IntegerTree(sys: Sys, fl: Floats, t: Tree)
    requires Integral(t) && Fold(sys, fl, t).Some?
    ensures Fold(sys, fl, t).value.Int? && Congruent(Fold(sys, fl, t).value.i, Worth(t))
    decreases t
  {
    hide Congruent, FoldCall;
    match t
    case Literal(v) => CongruentSelf(v.i);
    case Apply(name, args) =>
      IntegerTrees(sys, fl, args);
      var vs := FoldAll(sys, fl, args).value;
      NearInts(vs, args);
      IntegerCall(fl, name, vs, args);
  }

  lemma {:induction false} IntegerTrees(sys: Sys, fl: Floats, ts: Trees)
    requires IntegralAll(ts) && FoldAll(sys, fl, ts).Some?
    ensures Near(FoldAll(sys, fl, ts).value, ts)
    decreases ts
  {
    hide Congruent, Worth, Fold;
    if ts.Trees? {
      IntegerTree(sys, fl, ts.first);
      IntegerTrees(sys, fl, ts.rest);
      var vs := FoldAll(sys, fl, ts).value;
      assert vs[1..] == FoldAll(sys, fl, ts.rest).value;
    }
  }

  /** What the folder does with one operand, and with two. */
  lemma CallOfOne(fl: Floats, name: Name, v: Value)
    requires !name.AddAll? && !name.MulAll? && !name.AndAll? && !name.OrAll? && !name.NandAll? && !name.NorAll?
    ensures FoldCall(fl, name, [v]) == FoldOne(fl, name, v)
  {
    hide FoldOne;
  }

  lemma CallOfTwo(fl: Floats, name: Name, v: Value, u: Value)
    requires !name.AddAll? && !name.MulAll? && !name.AndAll? && !name.OrAll? && !name.NandAll? && !name.NorAll?
    ensures FoldCall(fl, name, [v, u]) ==
      if v.Int? && u.Int? && name != Slash then FoldIntPair(name, v.i, u.i)
      else if (v.Int? || v.Float?) && (u.Int? || u.Float?) then FoldRealPair(fl, name, AsReal(fl, v), AsReal(fl, u))
      else if v.Bool? && u.Bool? then FoldBoolPair(name, v.b, u.b) else None
  {
    hide FoldIntPair, FoldRealPair, FoldBoolPair, AsReal;
    assert [v, u][0] == v && [v, u][1] == u;
  }

  lemma CallOfMany(fl: Floats, name: Name, vs: seq<Value>)
    requires vs != []
    ensures name.AddAll? || name.MulAll? ==>
      FoldCall(fl, name, vs) ==
        if AllOf(vs, TInt) then Some(Int(FoldInts(name.MulAll?, vs[0].i, vs[1..])))
        else if AllNumeric(vs) then Some(Float(FoldReals(fl, name.MulAll?, AsReal(fl, vs[0]), vs[1..]))) else None
    ensures (name.AndAll? || name.OrAll? || name.NandAll? || name.NorAll?) && AllOf(vs, TBool) ==>
      FoldCall(fl, name, vs) == Some(Bool(FoldBools(name.OrAll? || name.NorAll?, vs[0].b, vs[1..]) != (name.NandAll? || name.NorAll?)))
  {
    hide FoldInts, FoldReals, FoldBools, AsReal;
  }

  /** One operator over integers that are exact modulo 2^64. */
  lemma IntegerCall(fl: Floats, name: Name, vs: seq<Value>, ts: Trees)
    requires Ring(name) && IntegralAll(ts) && Near(vs, ts) && AllOf(vs, TInt) && FoldCall(fl, name, vs).Some?
    ensures FoldCall(fl, name, vs).value.Int? && Congruent(FoldCall(fl, name, vs).value.i, Worth(Apply(name, ts)))
  {
    hide Congruent, WrapAdd, WrapSub, WrapMul, FoldCall, FoldInts, Near, Worth, WorthAll;
    if vs == [] { NoCall(fl, name); }
    CallOfMany(fl, name, vs);
    if name.AddAll? || name.MulAll? {
      NearFirst(vs, ts);
      WorthIs(name, ts);
      FoldsNear(name.MulAll?, vs[0].i, Worth(ts.first), vs[1..], ts.rest);
    } else if |vs| == 1 {
      OneTree(vs, ts);
      CallOfOne(fl, name, vs[0]);
      assert vs == [vs[0]];
      WorthIs(name, ts);
      SignNear(vs[0].i, Worth(ts.first));
    } else if |vs| == 2 {
      TwoTrees(vs, ts);
      CallOfTwo(fl, name, vs[0], vs[1]);
      assert vs == [vs[0], vs[1]];
      PairNear(vs[0].i, Worth(ts.first), vs[1].i, Worth(ts.rest.first));
      WorthIs(name, ts);
    } else {
      ManyNone(fl, name, vs);
    }
  }

  lemma WorthIs(name: Name, ts: Trees)
    requires Ring(name) && IntegralAll(ts) && ts.Trees? && IntegralAll(ts.rest) && (ts.rest.Trees? ==> Integral(ts.rest.first))
    ensures name.AddAll? ==> Worth(Apply(name, ts)) == Worth(ts.first) + WorthAll(false, ts.rest)
    ensures name.MulAll? ==> Worth(Apply(name, ts)) == Worth(ts.first) * WorthAll(true, ts.rest)
    ensures ts.rest.NoTrees? && !name.AddAll? && !name.MulAll? ==>
      Worth(Apply(name, ts)) == if name.UnaryMinus? then -Worth(ts.first) else Worth(ts.first)
    ensures ts.rest.Trees? && ts.rest.rest.NoTrees? && (name.Plus? || name.Minus? || name.Times?) ==>
      Worth(Apply(name, ts)) ==
        if name.Plus? then Worth(ts.first) + Worth(ts.rest.first)
        else if name.Minus? then Worth(ts.first) - Worth(ts.rest.first) else Worth(ts.first) * Worth(ts.rest.first)
  {
    assert WorthAll(true, NoTrees) == 1 && WorthAll(false, NoTrees) == 0;
    assert Worth(ts.first) * 1 == Worth(ts.first);
    if ts.rest.Trees? {
      assert IntegralAll(ts.rest);
      assert Worth(ts.rest.first) * 1 == Worth(ts.rest.first);
    }
  }

  lemma NoCall(fl: Floats, name: Name)
    ensures FoldCall(fl, name, []) == None
  {}

  lemma ManyNone(fl: Floats, name: Name, vs: seq<Value>)
    requires |vs| > 2 && Ring(name) && !name.AddAll? && !name.MulAll?
    ensures FoldCall(fl, name, vs) == None
  {}

  lemma NearFirst(vs: seq<Value>, ts: Trees)
    requires IntegralAll(ts) && Near(vs, ts) && vs != []
    ensures ts.Trees? && vs[0].Int? && Congruent(vs[0].i, Worth(ts.first)) && Near(vs[1..], ts.rest) && AllOf(vs[1..], TInt)
  {
    NearInts(vs[1..], ts.rest);
  }

  lemma SignNear(v: int, x: int)
    requires Congruent(v, x)
    ensures Congruent(WrapSub(0, v), -x)
  {
    hide Congruent, WrapSub;
    WrapsAround(0, v);
    CongruentSelf(0);
    CongruentAdd(0, 0, v, x);
    CongruentTrans(WrapSub(0, v), 0 - v, 0 - x);
  }

  lemma PairNear(v: int, x: int, u: int, y: int)
    requires Congruent(v, x) && Congruent(u, y)
    ensures Congruent(WrapAdd(v, u), x + y) && Congruent(WrapSub(v, u), x - y) && Congruent(WrapMul(v, u), x * y)
  {
    hide Congruent, WrapAdd, WrapSub, WrapMul;
    WrapsAround(v, u);
    CongruentAdd(v, x, u, y);
    CongruentMul(v, x, u, y);
    CongruentTrans(WrapAdd(v, u), v + u, x + y);
    CongruentTrans(WrapSub(v, u), v - u, x - y);
    CongruentTrans(WrapMul(v, u), v * u, x * y);
  }

  lemma OneTree(vs: seq<Value>, ts: Trees)
    requires IntegralAll(ts) && Near(vs, ts) && |vs| == 1
    ensures ts.Trees? && ts.rest.NoTrees? && vs[0].Int? && Congruent(vs[0].i, Worth(ts.first))
  {}

  lemma TwoTrees(vs: seq<Value>, ts: Trees)
    requires IntegralAll(ts) && Near(vs, ts) && |vs| == 2
    ensures ts.Trees? && Integral(ts.first) && vs[0].Int? && Congruent(vs[0].i, Worth(ts.first))
    ensures ts.rest.Trees? && ts.rest.rest.NoTrees? && Integral(ts.rest.first) && vs[1].Int? && Congruent(vs[1].i, Worth(ts.rest.first))
  {
    hide Congruent, Worth;
    assert IntegralAll(ts.rest) && Near(vs[1..], ts.rest) && vs[1..][1..] == [];
    assert Near([], ts.rest.rest);
    assert vs[1..][0] == vs[1];
  }

  // --- two operands --------------------------------------------------------------------------------------

  /** Integers compare as they are. */
  lemma IntegersCompare(fl: Floats, a: int, b: int)
    ensures var vs := [Int(a), Int(b)];
      && FoldCall(fl, More, vs) == Some(Bool(a > b)) && FoldCall(fl, Less, vs) == Some(Bool(a < b))
      && FoldCall(fl, MoreEq, vs) == Some(Bool(!(a < b))) && FoldCall(fl, LessEq, vs) == Some(Bool(!(a > b)))
      && FoldCall(fl, Equals, vs) == Some(Bool(a == b)) && FoldCall(fl, Differs, vs) == Some(Bool(a != b))
  {
    hide FoldCall;
    forall name | name in {More, Less, MoreEq, LessEq, Equals, Differs} ensures FoldCall(fl, name, [Int(a), Int(b)]) == FoldIntPair(name, a, b) {
      CallOfTwo(fl, name, Int(a), Int(b));
    }
  }

  /** An integer remainder belongs to a truncating division; by zero there is none. */
  lemma Remainders(fl: Floats, a: int, b: int) returns (q: int, m: int)
    ensures b == 0 ==> FoldCall(fl, Percent, [Int(a), Int(b)]) == None
    ensures b != 0 ==> FoldCall(fl, Percent, [Int(a), Int(b)]) == Some(Int(m)) && a == q * b + m && (if b < 0 then b < m < -b else -b < m < b)
    ensures b != 0 ==> if a < 0 then m <= 0 else m >= 0
  {
    hide FoldCall;
    CallOfTwo(fl, Percent, Int(a), Int(b));
    q, m := 0, 0;
    if b != 0 {
      RemainderIs(a, b);
      q :| a == q * b + Remainder(a, b);
      m := Remainder(a, b);
    }
  }

  const EPSILON: real := 0.000001

  /** Arithmetic without rounding. */
  ghost predicate Unrounded(fl: Floats) {
    && (forall a, b {:trigger fl.add(a, b)} :: fl.add(a, b) == a + b) && (forall a, b {:trigger fl.sub(a, b)} :: fl.sub(a, b) == a - b)
    && (forall a, b {:trigger fl.mul(a, b)} :: fl.mul(a, b) == a * b) && (forall a, b {:trigger fl.div(a, b)} :: b != 0.0 ==> fl.div(a, b) == a / b)
    && (forall a :: fl.plus(a) == a) && (forall a :: fl.minus(a) == -a) && (forall n: int :: fl.ofInt(n) == n as real)
  }

  /** Comparison without surprises; equality leaves a margin. */
  ghost predicate Ordered(fl: Floats) {
    && (forall a, b {:trigger fl.more(a, b)} :: fl.more(a, b) <==> a > b) && (forall a, b {:trigger fl.less(a, b)} :: fl.less(a, b) <==> a < b)
    && (forall a, b {:trigger fl.moreEq(a, b)} :: fl.moreEq(a, b) <==> a >= b) && (forall a, b {:trigger fl.lessEq(a, b)} :: fl.lessEq(a, b) <==> a <= b)
    && (forall a, b {:trigger fl.near(a, b)} :: fl.near(a, b) <==> -EPSILON < a - b < EPSILON)
  }

  /** The value stands for the number. */
  predicate Is(v: Value, x: real) { v == Float(x) || (v.Int? && v.i as real == x) }

  lemma RealArithmetic(fl: Floats, x: real, y: real)
    requires Unrounded(fl)
    ensures FoldRealPair(fl, Plus, x, y) == Some(Float(x + y)) && FoldRealPair(fl, Minus, x, y) == Some(Float(x - y)) && FoldRealPair(fl, Times, x, y) == Some(Float(x * y))
  {
    assert fl.mul(x, y) == x * y;
  }

  lemma RealOrder(fl: Floats, x: real, y: real)
    requires Ordered(fl)
    ensures FoldRealPair(fl, More, x, y) == Some(Bool(x > y)) && FoldRealPair(fl, Less, x, y) == Some(Bool(x < y))
    ensures FoldRealPair(fl, MoreEq, x, y) == Some(Bool(x >= y)) && FoldRealPair(fl, LessEq, x, y) == Some(Bool(x <= y))
  {}

  lemma RealEquality(fl: Floats, x: real, y: real)
    requires Ordered(fl)
    ensures FoldRealPair(fl, Equals, x, y) == Some(Bool(-EPSILON < x - y < EPSILON)) && FoldRealPair(fl, Differs, x, y) == Some(Bool(!(-EPSILON < x - y < EPSILON)))
  {}

  lemma Reads(fl: Floats, v: Value, x: real)
    requires Unrounded(fl) && Is(v, x)
    ensures AsReal(fl, v) == x && (v.Int? || v.Float?)
  {}

  /** A number and a double: arithmetic on doubles, comparison, and equality within the epsilon. */
  lemma RealsCombine(fl: Floats, v: Value, u: Value, x: real, y: real)
    requires Unrounded(fl) && Ordered(fl) && Is(v, x) && Is(u, y) && (v.Float? || u.Float?)
    ensures var vs := [v, u];
      && FoldCall(fl, Plus, vs) == Some(Float(x + y)) && FoldCall(fl, Minus, vs) == Some(Float(x - y)) && FoldCall(fl, Times, vs) == Some(Float(x * y))
      && FoldCall(fl, More, vs) == Some(Bool(x > y)) && FoldCall(fl, Less, vs) == Some(Bool(x < y))
      && FoldCall(fl, MoreEq, vs) == Some(Bool(x >= y)) && FoldCall(fl, LessEq, vs) == Some(Bool(x <= y))
      && FoldCall(fl, Equals, vs) == Some(Bool(-EPSILON < x - y < EPSILON)) && FoldCall(fl, Differs, vs) == Some(Bool(!(-EPSILON < x - y < EPSILON)))
  {
    hide FoldCall, Unrounded, Ordered, Is, AsReal, FoldRealPair;
    RealArithmetic(fl, x, y);
    RealOrder(fl, x, y);
    RealEquality(fl, x, y);
    Reads(fl, v, x);
    Reads(fl, u, y);
    forall name | name in {Plus, Minus, Times, More, Less, MoreEq, LessEq, Equals, Differs} ensures FoldCall(fl, name, [v, u]) == FoldRealPair(fl, name, x, y) {
      CallOfTwo(fl, name, v, u);
    }
  }

  /** Division is of doubles, even of integers. */
  lemma Quotients(fl: Floats, v: Value, u: Value, x: real, y: real)
    requires Unrounded(fl) && Is(v, x) && Is(u, y) && y != 0.0
    ensures exists q: real :: FoldCall(fl, Slash, [v, u]) == Some(Float(q)) && q * y == x
  {
    hide FoldCall;
    CallOfTwo(fl, Slash, v, u);
    Reads(fl, v, x);
    Reads(fl, u, y);
    assert FoldCall(fl, Slash, [v, u]) == Some(Float(x / y));
    assert x / y * y == x;
  }

  function SumOf(xs: seq<real>): real { if xs == [] then 0.0 else xs[0] + SumOf(xs[1..]) }

  function ProductOf(xs: seq<real>): real { if xs == [] then 1.0 else xs[0] * ProductOf(xs[1..]) }

  predicate Are(vs: seq<Value>, xs: seq<real>) { |vs| == |xs| && forall i :: 0 <= i < |vs| ==> Is(vs[i], xs[i]) }

  lemma {:induction false} RealsAddUp(fl: Floats, product: bool, acc: real, vs: seq<Value>, xs: seq<real>)
    requires Unrounded(fl) && Are(vs, xs)
    ensures FoldReals(fl, product, acc, vs) == if product then acc * ProductOf(xs) else acc + SumOf(xs)
    decreases |vs|
  {
    if vs != [] {
      var next := if product then acc * xs[0] else acc + xs[0];
      assert AsReal(fl, vs[0]) == xs[0];
      RealsAddUp(fl, product, next, vs[1..], xs[1..]);
      if product { RealAssociates(acc, xs[0], ProductOf(xs[1..])); }
    } else if product {
      assert acc * 1.0 == acc;
    }
  }

  lemma RealAssociates(a: real, b: real, c: real)
    ensures a * b * c == a * (b * c)
  {}

  /** A block with a double among its numbers is their sum or product. */
  lemma BlocksAddUp(fl: Floats, vs: seq<Value>, xs: seq<real>)
    requires Unrounded(fl) && Are(vs, xs) && exists i :: 0 <= i < |vs| && vs[i].Float?
    ensures FoldCall(fl, AddAll, vs) == Some(Float(SumOf(xs))) && FoldCall(fl, MulAll, vs) == Some(Float(ProductOf(xs)))
  {
    hide FoldReals, FoldCall, Unrounded, AsReal, Is;
    CallOfMany(fl, AddAll, vs);
    CallOfMany(fl, MulAll, vs);
    var v := vs[0];
    Reads(fl, v, xs[0]);
    RealsAddUp(fl, false, xs[0], vs[1..], xs[1..]);
    RealsAddUp(fl, true, xs[0], vs[1..], xs[1..]);
    assert ProductOf(xs) == xs[0] * ProductOf(xs[1..]);
    assert FoldReals(fl, true, xs[0], vs[1..]) == ProductOf(xs);
    assert !AllOf(vs, TInt) by {
      var i :| 0 <= i < |vs| && vs[i].Float?;
      assert TypeOf(vs[i]) == TFloat;
    }
    assert AllNumeric(vs) by {
      forall i | 0 <= i < |vs| ensures vs[i].Int? || vs[i].Float? { Reads(fl, vs[i], xs[i]); }
    }
  }

  lemma Signs(fl: Floats, r: real, b: bool)
    requires Unrounded(fl)
    ensures FoldCall(fl, UnaryPlus, [Float(r)]) == Some(Float(r)) && FoldCall(fl, UnaryMinus, [Float(r)]) == Some(Float(-r))
    ensures FoldCall(fl, NotOf, [Bool(b)]) == Some(Bool(!b))
  {
    hide FoldCall;
    CallOfOne(fl, UnaryPlus, Float(r));
    CallOfOne(fl, UnaryMinus, Float(r));
    CallOfOne(fl, NotOf, Bool(b));
  }

  lemma {:induction false} FoldsBools(any: bool, acc: bool, vs: seq<Value>)
    requires AllOf(vs, TBool)
    ensures FoldBools(any, acc, vs) <==> if any then acc || Bool(true) in vs else acc && Bool(false) !in vs
    decreases |vs|
  {
    if vs != [] {
      FoldsBools(any, if any then acc || vs[0].b else acc && vs[0].b, vs[1..]);
      assert vs == [vs[0]] + vs[1..];
    }
  }

  /** Truth values: all, some, not all, none. */
  lemma TruthsCombine(fl: Floats, vs: seq<Value>)
    requires vs != [] && AllOf(vs, TBool)
    ensures FoldCall(fl, AndAll, vs) == Some(Bool(Bool(false) !in vs)) && FoldCall(fl, OrAll, vs) == Some(Bool(Bool(true) in vs))
    ensures FoldCall(fl, NandAll, vs) == Some(Bool(Bool(false) in vs)) && FoldCall(fl, NorAll, vs) == Some(Bool(Bool(true) !in vs))
  {
    hide FoldBools, FoldCall;
    forall name | name in {AndAll, OrAll, NandAll, NorAll}
      ensures FoldCall(fl, name, vs) == Some(Bool(FoldBools(name.OrAll? || name.NorAll?, vs[0].b, vs[1..]) != (name.NandAll? || name.NorAll?)))
    {
      CallOfMany(fl, name, vs);
    }
    FoldsBools(false, vs[0].b, vs[1..]);
    FoldsBools(true, vs[0].b, vs[1..]);
    assert vs == [vs[0]] + vs[1..];
  }

  /** Two of them: both, one, the same. */
  lemma TruthPairs(fl: Floats, a: bool, b: bool)
    ensures var vs := [Bool(a), Bool(b)];
      && FoldCall(fl, BothOf, vs) == Some(Bool(a && b)) && FoldCall(fl, EitherOf, vs) == Some(Bool(a || b))
      && FoldCall(fl, Equals, vs) == Some(Bool(a == b)) && FoldCall(fl, Differs, vs) == Some(Bool(a != b))
  {
    hide FoldCall;
    forall name | name in {BothOf, EitherOf, Equals, Differs} ensures FoldCall(fl, name, [Bool(a), Bool(b)]) == FoldBoolPair(name, a, b) {
      CallOfTwo(fl, name, Bool(a), Bool(b));
    }
  }
}
