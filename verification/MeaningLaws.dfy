/**
  What expressions mean, on values, without the machine: which case of a `switch` runs, what
  truth values count as, and what is left where nothing is.
*/
module MeaningLaws {
  import opened Machine
  import opened Lowering

  // --- switch -------------------------------------------------------------------------------------

  /** The k-th part. */
  function Nth(p: Parts, k: nat): Parts { if k == 0 || p.End? then p else Nth(p.rest, k - 1) }

  /** The values of the cases, in order, and the environment before each and behind the last. */
  ghost predicate CasesGive(w: World, p: Parts, sc: seq<Value>, cs: seq<Value>, es: seq<Env>)
    decreases p
  {
    && |es| == |cs| + 1
    && if p.Part? && p.test.When?
       then cs != [] && Meaning(w, p.test.cond, sc, es[0]) == Gives([cs[0]], es[1]) && CasesGive(w, p.rest, sc, cs[1..], es[1..])
       else cs == []
  }

  /** What runs when the k-th case does, or the part behind all cases. */
  function CaseRuns(w: World, exp: seq<Ty>, p: Parts, k: nat, sc: seq<Value>, e: Env): Answer {
    match Nth(p, k)
    case Part(_, body, _) => Converted(w, exp, Meaning(w, body, sc, e))
    case End => if exp == [] then Gives([], e) else Raises(NoMatchingCase)
  }

  /** The environment once the k-th case value was computed, or all of them. */
  function Behind(cs: seq<Value>, es: seq<Env>, k: nat): Env
    requires |es| == |cs| + 1 && k <= |cs|
  {
    if k < |cs| then es[k + 1] else es[k]
  }

  /** The first case that compares equal runs, or what stands behind the cases. */
  lemma {:induction false} FirstRuns(w: World, exp: seq<Ty>, p: Parts, v: Value, sc: seq<Value>, cs: seq<Value>, es: seq<Env>, k: nat)
    requires CasesGive(w, p, sc, cs, es) && k <= |cs|
    requires forall i :: 0 <= i < k ==> !SameValue(w, v, cs[i])
    requires k < |cs| ==> SameValue(w, v, cs[k])
    ensures CaseOf(w, exp, p, v, sc, es[0]) == CaseRuns(w, exp, p, k, sc, Behind(cs, es, k))
    decreases p
  {
    hide Meaning, Converted, SameValue;
    if p.Part? && p.test.When? && k > 0 {
      assert !SameValue(w, v, cs[0]);
      FirstRuns(w, exp, p.rest, v, sc, cs[1..], es[1..], k - 1);
    }
  }

  /**
    `switch` on anything but a double: the first case that is the same value runs, and only
    then; without one, the default or, where a value is needed, an error.
  */
  lemma SwitchRuns(w: World, x: Expr, sc: seq<Value>, e: Env, v: Value, cs: seq<Value>, es: seq<Env>, k: nat)
    requires x.Switch? && !v.Float? && |es| == |cs| + 1 && Meaning(w, x.value, sc, e) == Gives([v], es[0])
    requires CasesGive(w, x.cases, sc + [v], cs, es)
    requires k <= |cs| && v !in cs[..k] && (k < |cs| ==> cs[k] == v)
    ensures Meaning(w, x, sc, e) == CaseRuns(w, x.exp, x.cases, k, sc + [v], Behind(cs, es, k))
  {
    hide CaseOf, Converted;
    forall i | 0 <= i < k ensures !SameValue(w, v, cs[i]) { assert cs[i] in cs[..k]; }
    FirstRuns(w, x.exp, x.cases, v, sc + [v], cs, es, k);
  }

  const EPSILON: real := 0.000001

  /** Doubles compare without rounding. */
  ghost predicate RealComparison(w: World) { forall a: real, b: real :: w.close(a, b) <==> -EPSILON < a - b < EPSILON }

  predicate Within(v: real, c: Value) { c.Float? && -EPSILON < v - c.r < EPSILON }

  /** `switch` on a double: the first case that is a double within the epsilon. */
  lemma SwitchRunsFloat(w: World, x: Expr, sc: seq<Value>, e: Env, v: real, cs: seq<Value>, es: seq<Env>, k: nat)
    requires x.Switch? && RealComparison(w) && |es| == |cs| + 1 && Meaning(w, x.value, sc, e) == Gives([Float(v)], es[0])
    requires CasesGive(w, x.cases, sc + [Float(v)], cs, es)
    requires k <= |cs| && (forall i :: 0 <= i < k ==> !Within(v, cs[i])) && (k < |cs| ==> Within(v, cs[k]))
    ensures Meaning(w, x, sc, e) == CaseRuns(w, x.exp, x.cases, k, sc + [Float(v)], Behind(cs, es, k))
  {
    hide CaseOf, Converted;
    FirstRuns(w, x.exp, x.cases, Float(v), sc + [Float(v)], cs, es, k);
  }

  // --- truth values as numbers ------------------------------------------------------------------------

  /** Children without conditions that give truth values. */
  ghost predicate TruthsGive(w: World, p: Parts, sc: seq<Value>, bs: seq<bool>, es: seq<Env>)
    decreases p
  {
    && |es| == |bs| + 1
    && if p.Part?
       then bs != [] && p.test.Always? && Meaning(w, p.body, sc, es[0]) == Gives([Bool(bs[0])], es[1]) && TruthsGive(w, p.rest, sc, bs[1..], es[1..])
       else bs == []
  }

  function CountTrue(bs: seq<bool>): nat { if bs == [] then 0 else (if bs[0] then 1 else 0) + CountTrue(bs[1..]) }

  lemma {:induction false} CountsOn(w: World, p: Parts, sc: seq<Value>, bs: seq<bool>, es: seq<Env>, n: nat)
    requires TruthsGive(w, p, sc, bs, es) && (forall a: real, b: real :: w.add(a, b) == a + b)
    ensures Accumulate(w, Sum, TFloat, p, [Float(n as real)], sc, es[0]) == Gives([Float((n + CountTrue(bs)) as real)], es[|bs|])
    decreases p
  {
    hide Meaning;
    if p.Part? {
      var m: nat := n + if bs[0] then 1 else 0;
      CountsOn(w, p.rest, sc, bs[1..], es[1..], m);
    }
  }

  /** Adding up truth values counts those that hold. */
  lemma AddCounts(w: World, p: Parts, sc: seq<Value>, bs: seq<bool>, es: seq<Env>)
    requires TruthsGive(w, p, sc, bs, es) && bs != [] && (forall a: real, b: real :: w.add(a, b) == a + b)
    ensures Meaning(w, Total(false, Sum, TFloat, p), sc, es[0]) == Gives([Float(CountTrue(bs) as real)], es[|bs|])
  {
    hide Accumulate;
    NoConditions(w, p, sc, bs, es);
    CountsOn(w, p.rest, sc, bs[1..], es[1..], if bs[0] then 1 else 0);
    FirstTerm(w, p, sc, bs[0], es[0], es[1]);
  }

  lemma FirstTerm(w: World, p: Parts, sc: seq<Value>, b: bool, e: Env, e': Env)
    requires p.Part? && p.test.Always? && Meaning(w, p.body, sc, e) == Gives([Bool(b)], e')
    ensures Accumulate(w, Sum, TFloat, p, [], sc, e) == Accumulate(w, Sum, TFloat, p.rest, [Float((if b then 1 else 0) as real)], sc, e')
  {
    hide Meaning;
  }

  lemma {:induction false} NoConditions(w: World, p: Parts, sc: seq<Value>, bs: seq<bool>, es: seq<Env>)
    requires TruthsGive(w, p, sc, bs, es)
    ensures !Conditional(p)
    decreases p
  {
    if p.Part? { NoConditions(w, p.rest, sc, bs[1..], es[1..]); }
  }

  /** A single term is converted to the type of the fold: a truth value counts 0 or 1, an integer as the same double. */
  lemma LoneTerm(w: World, product: bool, op: Prim, body: Expr, sc: seq<Value>, e: Env, e': Env, b: bool, n: int)
    ensures var p := Part(Always, body, End);
      && (Meaning(w, body, sc, e) == Gives([Bool(b)], e') ==> Meaning(w, Total(product, op, TInt, p), sc, e) == Gives([Int(if b then 1 else 0)], e'))
      && (Meaning(w, body, sc, e) == Gives([Int(n)], e') ==> Meaning(w, Total(product, op, TFloat, p), sc, e) == Gives([Float(w.toFloat(n))], e'))
  {
    hide Meaning;
    var p := Part(Always, body, End);
    TotalIs(w, product, op, TInt, p, sc, e);
    TotalIs(w, product, op, TFloat, p, sc, e);
  }

  lemma TotalIs(w: World, product: bool, op: Prim, ty: Ty, p: Parts, sc: seq<Value>, e: Env)
    requires !Conditional(p)
    ensures Meaning(w, Total(product, op, ty, p), sc, e) == Accumulate(w, op, ty, p, [], sc, e)
  {}

  /** A number that a sequence collects as a truth value holds unless it is 0. */
  lemma StageHolds(w: World, c: Expr, body: Expr, sc: seq<Value>, e: Env, e1: Env, e2: Env, v: Value)
    requires Meaning(w, c, sc, e) == Gives([Bool(true)], e1) && Meaning(w, body, sc, e1) == Gives([v], e2) && (v.Int? || v.Float?)
    ensures Meaning(w, Sequence([TBool], Part(When(c), body, End)), sc, e) == Gives([Bool(v != Int(0) && v != Float(0.0))], e2)
  {
    hide Meaning;
    var all := Part(When(c), body, End);
    SequenceIs(w, [TBool], all, sc, e);
    assert WhileTrue(w, [TBool], End, [Bool(v != Int(0) && v != Float(0.0))], sc, e2) == Gives([Bool(v != Int(0) && v != Float(0.0))], e2);
  }

  lemma SequenceIs(w: World, exp: seq<Ty>, p: Parts, sc: seq<Value>, e: Env)
    ensures Meaning(w, Sequence(exp, p), sc, e) == WhileTrue(w, exp, p, Start(w, exp), sc, e)
  {}

  // --- children in order ------------------------------------------------------------------------------

  /** The first children give these truth values, one after the other. */
  ghost predicate FirstGive(w: World, p: Parts, sc: seq<Value>, bs: seq<bool>, es: seq<Env>)
    decreases p
  {
    && |es| == |bs| + 1
    && (bs != [] ==> p.Part? && Meaning(w, p.body, sc, es[0]) == Gives([Bool(bs[0])], es[1]) && FirstGive(w, p.rest, sc, bs[1..], es[1..]))
  }

  lemma {:induction false} LastDecides(w: World, any: bool, p: Parts, sc: seq<Value>, bs: seq<bool>, es: seq<Env>)
    requires FirstGive(w, p, sc, bs, es) && bs != [] && (forall i :: 0 <= i < |bs| - 1 ==> bs[i] != any)
    requires bs[|bs| - 1] == any || Nth(p, |bs|).End?
    ensures Decide(w, any, p, sc, es[0]) == Gives([Bool(bs[|bs| - 1])], es[|bs|])
    decreases p
  {
    hide Meaning;
    if |bs| > 1 {
      assert bs[0] != any;
      LastDecides(w, any, p.rest, sc, bs[1..], es[1..]);
    } else if bs[0] != any {
      assert p.rest.End?;
    }
  }

  /** OR runs its children until one holds, AND until one fails, and the last one run decides; NOR and NAND say the opposite. */
  lemma LogicDecides(w: World, any: bool, negated: bool, p: Parts, sc: seq<Value>, bs: seq<bool>, es: seq<Env>)
    requires FirstGive(w, p, sc, bs, es) && bs != [] && (forall i :: 0 <= i < |bs| - 1 ==> bs[i] != any)
    requires bs[|bs| - 1] == any || Nth(p, |bs|).End?
    ensures Meaning(w, Logic(any, negated, p), sc, es[0]) == Gives([Bool(bs[|bs| - 1] != negated)], es[|bs|])
  {
    hide Decide, FirstGive;
    LastDecides(w, any, p, sc, bs, es);
  }

  /** The conditions of the first clauses do not hold. */
  ghost predicate FirstFail(w: World, p: Parts, sc: seq<Value>, es: seq<Env>)
    decreases p
  {
    && es != []
    && (|es| > 1 ==> p.Part? && p.test.When? && Meaning(w, p.test.cond, sc, es[0]) == Gives([Bool(false)], es[1]) && FirstFail(w, p.rest, sc, es[1..]))
  }

  /** The clause runs: it has no condition, or one that holds and leaves `e'`. */
  ghost predicate Applies(w: World, p: Parts, sc: seq<Value>, e: Env, e': Env)
  {
    p.Part? && match p.test case Always => e' == e case When(c) => Meaning(w, c, sc, e) == Gives([Bool(true)], e')
  }

  lemma {:induction false} FirstApplies(w: World, exp: seq<Ty>, p: Parts, sc: seq<Value>, es: seq<Env>, e': Env)
    requires FirstFail(w, p, sc, es)
    ensures var q, e := Nth(p, |es| - 1), es[|es| - 1];
      && (q.End? ==> FirstOf(w, exp, p, sc, es[0]) == Gives([], e))
      && (Applies(w, q, sc, e, e') ==> FirstOf(w, exp, p, sc, es[0]) == Converted(w, exp, Meaning(w, q.body, sc, e')))
    decreases p
  {
    hide Meaning, Converted;
    if |es| > 1 { FirstApplies(w, exp, p.rest, sc, es[1..], e'); }
  }

  /** `select` runs the first clause whose condition holds, and that one alone. */
  lemma SelectRuns(w: World, exp: seq<Ty>, p: Parts, sc: seq<Value>, es: seq<Env>, e': Env)
    requires FirstFail(w, p, sc, es)
    ensures var q, e := Nth(p, |es| - 1), es[|es| - 1];
      && (q.End? ==> Meaning(w, Select(exp, p), sc, es[0]) == Gives([], e))
      && (Applies(w, q, sc, e, e') ==> Meaning(w, Select(exp, p), sc, es[0]) == Converted(w, exp, Meaning(w, q.body, sc, e')))
  {
    hide FirstOf, FirstFail, Applies, Converted;
    FirstApplies(w, exp, p, sc, es, e');
  }

  /** The arguments give one value each, in order. */
  ghost predicate ArgsGive(w: World, p: Parts, sc: seq<Value>, vs: seq<Value>, es: seq<Env>)
    decreases p
  {
    && |es| == |vs| + 1
    && if p.Part? then vs != [] && Meaning(w, p.body, sc, es[0]) == Gives([vs[0]], es[1]) && ArgsGive(w, p.rest, sc, vs[1..], es[1..]) else vs == []
  }

  lemma {:induction false} ArgsAre(w: World, p: Parts, sc: seq<Value>, vs: seq<Value>, es: seq<Env>)
    requires ArgsGive(w, p, sc, vs, es)
    ensures Args(w, p, sc, es[0]) == Gives(vs, es[|vs|])
    decreases p
  {
    hide Meaning;
    if p.Part? {
      ArgsAre(w, p.rest, sc, vs[1..], es[1..]);
      assert [vs[0]] + vs[1..] == vs;
    }
  }

  /** A native function gets the innermost scope and its arguments in the order they are written. */
  lemma NativeCalled(w: World, sig: Signature, p: Parts, sc: seq<Value>, vs: seq<Value>, es: seq<Env>, v: Value, e: Env)
    requires ArgsGive(w, p, sc, vs, es) && sig.ret == Some(TypeOf(v))
    ensures sig.scope == None && w.call(sig.id, None, vs, es[|vs|]) == Returned(v, e) ==> Meaning(w, Expr.Native(sig, p), sc, es[0]) == Gives([v], e)
    ensures sig.scope.Some? && sc != [] && w.valid(sc[|sc| - 1]) && w.call(sig.id, Some(sc[|sc| - 1]), vs, es[|vs|]) == Returned(v, e) ==>
      Meaning(w, Expr.Native(sig, p), sc, es[0]) == Gives([v], e)
    ensures sig.scope.Some? && sc != [] && !w.valid(sc[|sc| - 1]) ==> Meaning(w, Expr.Native(sig, p), sc, es[0]) == Raises(InvalidScope)
  {
    hide Args, ArgsGive;
    ArgsAre(w, p, sc, vs, es);
  }

  // --- where nothing is -------------------------------------------------------------------------------

  /** A guarded scope that is not valid leaves false, 0 or no object, as its context expects. */
  lemma GuardLeaves(w: World, exp: Ty, scope: Expr, body: Expr, sc: seq<Value>, e: Env, v: Value, e': Env)
    requires Meaning(w, scope, sc, e) == Gives([v], e') && !w.valid(v)
    ensures Meaning(w, WithinValid(exp, scope, body), sc, e) ==
      Gives([match exp case TBool => Bool(false) case TInt => Int(0) case TFloat => Float(0.0) case _ => Invalid], e')
  {}

  function Power2(n: nat): (r: real)
    ensures r > 0.0
  {
    if n == 0 then 1.0 else 2.0 * Power2(n - 1)
  }

  const MANTISSA: int := 0x10_0000_0000_0000

  /** The number a 64-bit pattern without a sign stands for in the binary64 format of IEEE 754. */
  ghost function Binary64(bits: int): real
    requires 0 <= bits < 0x7FF0_0000_0000_0000
  {
    var exponent, fraction := bits / MANTISSA, (bits % MANTISSA) as real / MANTISSA as real;
    if exponent == 0 then fraction / Power2(1022)
    else if exponent >= 1023 then (1.0 + fraction) * Power2(exponent - 1023)
    else (1.0 + fraction) / Power2(1023 - exponent)
  }

  /** The world reads the bits of a double as the standard does. */
  ghost predicate ReadsBinary64(w: World) { forall bits | 0 <= bits < 0x7FF0_0000_0000_0000 :: w.unpack(bits) == Binary64(bits) }

  lemma BitsOfZeroAndOne(w: World)
    requires ReadsBinary64(w)
    ensures w.unpack(ZERO_BITS) == 0.0 && w.unpack(ONE_BITS) == 1.0
  {
    hide Power2;
    assert 0x3FF0_0000_0000_0000 == 1023 * MANTISSA;
    assert Power2(0) == 1.0 by { PowerZero(); }
    assert w.unpack(ZERO_BITS) == Binary64(ZERO_BITS) && w.unpack(ONE_BITS) == Binary64(ONE_BITS);
  }

  lemma PowerZero()
    ensures Power2(0) == 1.0
  {}

  /** Every term has a condition, and none holds. */
  ghost predicate NoneHolds(w: World, p: Parts, sc: seq<Value>, es: seq<Env>)
    decreases p
  {
    && es != []
    && if p.Part?
       then p.test.When? && |es| > 1 && Meaning(w, p.test.cond, sc, es[0]) == Gives([Bool(false)], es[1]) && NoneHolds(w, p.rest, sc, es[1..])
       else |es| == 1
  }

  lemma {:induction false} NothingAdds(w: World, op: Prim, ty: Ty, p: Parts, acc: seq<Value>, sc: seq<Value>, es: seq<Env>)
    requires NoneHolds(w, p, sc, es)
    ensures Accumulate(w, op, ty, p, acc, sc, es[0]) == Gives(acc, es[|es| - 1])
    decreases p
  {
    hide Meaning;
    if p.Part? { NothingAdds(w, op, ty, p.rest, acc, sc, es[1..]); }
  }

  /** A sum none of whose terms applies is 0, a product 1. */
  lemma EmptyTotals(w: World, product: bool, op: Prim, p: Parts, sc: seq<Value>, es: seq<Env>)
    requires ReadsBinary64(w) && NoneHolds(w, p, sc, es) && p.Part?
    ensures Meaning(w, Total(product, op, TFloat, p), sc, es[0]) == Gives([Float(if product then 1.0 else 0.0)], es[|es| - 1])
    ensures Meaning(w, Total(product, op, TInt, p), sc, es[0]) == Gives([Int(if product then 1 else 0)], es[|es| - 1])
    ensures Meaning(w, Sequence([TFloat], End), sc, es[0]) == Gives([Float(0.0)], es[0])
  {
    hide Accumulate;
    BitsOfZeroAndOne(w);
    NothingAdds(w, op, TFloat, p, [Identity(w, product, TFloat)], sc, es);
    NothingAdds(w, op, TInt, p, [Identity(w, product, TInt)], sc, es);
  }

  // --- what is taken where ------------------------------------------------------------------------------

  predicate Elementary(ty: Ty) { ty == TBool || ty == TInt || ty == TFloat }

  /** Clauses of `select` and branches of `value_or` take an integer where a double is expected, and else what is expected. */
  lemma TakenByClauses(w: World, cond: Expr, body: Expr, tys: seq<Ty>, from: Ty, exp: Ty)
    requires Check(w, body, tys) && ResultOf(body, tys) == [from] && Elementary(from) && Elementary(exp)
    requires Check(w, cond, tys) && ResultOf(cond, tys) == [TBool]
    ensures Check(w, Select([exp], Part(Always, body, End)), tys) <==> from == exp || (from == TInt && exp == TFloat)
    ensures Check(w, ValueOr([exp], cond, body, body), tys) <==> from == exp || (from == TInt && exp == TFloat)
  {
    hide ResultOf, CheckParts;
    OnePart(w, Alternative([exp]), Part(Always, body, End), tys);
  }

  /** Stages of a sequence take numbers as truth values, and integers and truth values as doubles. */
  lemma TakenByStages(w: World, cond: Expr, body: Expr, tys: seq<Ty>, from: Ty, exp: Ty)
    requires Check(w, body, tys) && ResultOf(body, tys) == [from] && Elementary(from) && Elementary(exp)
    requires Check(w, cond, tys) && ResultOf(cond, tys) == [TBool]
    ensures Check(w, Sequence([exp], Part(When(cond), body, End)), tys) <==> from == exp || exp == TFloat || (exp == TBool && from != TBool)
  {
    hide ResultOf, CheckParts;
    OnePart(w, Stage([exp]), Part(When(cond), body, End), tys);
  }

  /** A sum or product takes truth values as numbers and integers as doubles. */
  lemma TakenByTotals(w: World, product: bool, body: Expr, tys: seq<Ty>, from: Ty, exp: Ty, sig: Signature)
    requires Check(w, body, tys) && ResultOf(body, tys) == [from] && Elementary(from) && (exp == TInt || exp == TFloat)
    requires sig.scope == None && sig.args == [exp, exp] && sig.ret == Some(exp)
    ensures Check(w, Total(product, Call(sig), exp, Part(Always, body, End)), tys) <==> from == exp || exp == TFloat || from == TBool
  {
    hide ResultOf, CheckParts;
    OnePart(w, Term([exp]), Part(Always, body, End), tys);
  }

  lemma OnePart(w: World, role: Role, p: Parts, tys: seq<Ty>)
    requires p.Part? && p.rest == End && !role.Argument?
    ensures CheckParts(w, role, p, tys) <==> TestOk(w, role, p, tys) && Check(w, p.body, tys) && Admits(role, ResultOf(p.body, tys))
  {
    hide Check, ResultOf, TestOk, Admits;
    assert CheckParts(w, role, End, tys);
  }
}
