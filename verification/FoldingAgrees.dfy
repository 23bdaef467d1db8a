/**
  When folding constants goes unnoticed. Where operators have only their built-in candidates
  and every name of a consumer has at most one, an expression compiles folded if and only if
  it compiles unfolded, to the same type and to code that computes the same.

  What folding may change is the cost an overload is chosen by. Between an integer candidate
  and its floating-point twin only two things matter: that the second never costs less, and
  whether it costs more. Both are read off the expression, folded or not.
*/
module FoldingAgrees {
  import opened Machine
  import opened Overloads
  import opened Folding

  // --- the condition --------------------------------------------------------------------------------

  /** Operators are not overloaded by consumers, and consumers' names not overloaded at all. */
  predicate Plain(sys: Sys, t: Tree) {
    match t
    case Literal(_) => true
    case Leaf(_, _) => true
    case Apply(name, args) => |sys.extra(name)| <= (if name.Named? then 1 else 0) && AllPlain(sys, args)
  }

  predicate AllPlain(sys: Sys, ts: Trees) { ts.NoTrees? || (Plain(sys, ts.first) && AllPlain(sys, ts.rest)) }

  // --- the same code --------------------------------------------------------------------------------

  ghost predicate Same(fl: Floats, x: Option<Out>, y: Option<Out>) {
    (x == None <==> y == None) && (x.Some? ==> x.value.ty == y.value.ty && Eval(fl, x.value.code) == Eval(fl, y.value.code))
  }

  /** The same, or folded to the double that is expected where the unfolded code is still an integer. */
  ghost predicate SameBut(fl: Floats, exp: Option<Ty>, x: Option<Out>, y: Option<Out>) {
    Same(fl, x, y)
    || (exp == Some(TFloat) && x.Some? && y.Some? && x.value.ty == TFloat && y.value.ty == TInt
        && Eval(fl, x.value.code) == Eval(fl, Convert(TFloat, y.value.code)))
  }

  ghost predicate SameCodes(fl: Floats, a: Codes, b: Codes) {
    if a.NoCodes? then b.NoCodes? else b.Codes? && Eval(fl, a.first) == Eval(fl, b.first) && SameCodes(fl, a.rest, b.rest)
  }

  ghost predicate SameOuts(fl: Floats, x: Option<Outs>, y: Option<Outs>) {
    (x == None <==> y == None) && (x.Some? ==> SameCodes(fl, x.value.codes, y.value.codes))
  }

  lemma {:induction false} SameEvaluates(fl: Floats, a: Codes, b: Codes, op: Operation, any: bool, acc: Value)
    requires SameCodes(fl, a, b)
    ensures EvalAll(fl, a) == EvalAll(fl, b) && EvalUntil(fl, any, a) == EvalUntil(fl, any, b)
    ensures EvalChain(fl, op, acc, a) == EvalChain(fl, op, acc, b)
    decreases a
  {
    hide Operate, Eval;
    if a.Codes? {
      SameEvaluates(fl, a.rest, b.rest, op, any, acc);
      var v := Eval(fl, a.first);
      if v.Some? {
        var u := Operate(fl, op, [acc, v.value]);
        if u.Some? { SameEvaluates(fl, a.rest, b.rest, op, any, u.value); }
      }
    }
  }

  lemma SameChained(fl: Floats, a: Codes, b: Codes, op: Operation)
    requires SameCodes(fl, a, b)
    ensures Eval(fl, Chained(op, a)) == Eval(fl, Chained(op, b))
  {
    if a.Codes? {
      var v := Eval(fl, a.first);
      if v.Some? { SameEvaluates(fl, a.rest, b.rest, op, false, v.value); }
    }
  }

  lemma SameCalled(fl: Floats, a: Codes, b: Codes, op: Operation)
    requires SameCodes(fl, a, b)
    ensures Eval(fl, Called(op, a)) == Eval(fl, Called(op, b))
  {
    SameEvaluates(fl, a, b, op, false, Invalid);
  }

  lemma SameShort(fl: Floats, a: Codes, b: Codes, any: bool, negated: bool)
    requires SameCodes(fl, a, b)
    ensures Eval(fl, ShortCircuit(any, negated, a)) == Eval(fl, ShortCircuit(any, negated, b))
  {
    SameEvaluates(fl, a, b, IntAdd, any, Invalid);
  }

  // --- one candidate ----------------------------------------------------------------------------------

  lemma ResolveSingle(sys: Sys, fl: Floats, folding: bool, f: Form, args: Trees, exp: Option<Ty>)
    ensures Resolve(sys, fl, folding, [f], args, exp) == Attempt(sys, fl, folding, f, args, exp)
  {
    hide Attempt;
    if Attempt(sys, fl, folding, f, args, exp).Some? { ResolveOnly(sys, fl, folding, [f], args, exp, 0); }
    else { ResolveNone(sys, fl, folding, [f], args, exp); }
  }

  lemma {:induction false} VariousUniform(sys: Sys, fl: Floats, folding: bool, ts: Trees, tys: seq<Ty>, ty: Ty, cost: nat)
    requires forall i :: 0 <= i < |tys| ==> tys[i] == ty
    ensures Various(sys, fl, folding, ts, tys, cost) == if Count(ts) == |tys| then Uniform(sys, fl, folding, ts, ty, cost) else None
    decreases ts
  {
    hide Operand;
    if ts.Trees? && tys != [] {
      var o := Operand(sys, fl, folding, ts.first, ty, cost);
      if o.Some? { VariousUniform(sys, fl, folding, ts.rest, tys[1..], ty, o.value.cost); }
    }
  }

  /** A candidate over operands of one type. */
  predicate Over(f: Form, ty: Ty) { (f.Chain? && f.param == ty) || (f.Exact? && forall i :: 0 <= i < |f.params| ==> f.params[i] == ty) }

  lemma AttemptOver(sys: Sys, fl: Floats, folding: bool, f: Form, ty: Ty, args: Trees, exp: Option<Ty>)
    requires Over(f, ty)
    ensures var r, us := Attempt(sys, fl, folding, f, args, exp), Uniform(sys, fl, folding, args, ty, 0);
      && (r.Some? <==> Allows(f, exp) && us.Some? && Takes(f, ty, Count(args)))
      && (r.Some? ==> r.value == Out(if f.Chain? then Chained(f.op, us.value.codes) else Called(f.op, us.value.codes), Folding.Returned(f), us.value.cost))
  {
    hide Operand, Various;
    if f.Exact? { VariousUniform(sys, fl, folding, args, f.params, ty, 0); }
  }

  // --- twins --------------------------------------------------------------------------------------------

  /** Whether converting the operands to floating point costs more than leaving them integers, and did so `before`. */
  predicate Dearer(sys: Sys, t: Tree, before: bool) {
    match t
    case Literal(v) => before || v.Int?
    case Leaf(_, ty) => before || ty == TInt
    case Apply(name, args) =>
      if Arithmetical(name) then AllDearer(sys, args, false) else !(Forms(sys, name) != [] && Forms(sys, name)[0].Logic?)
  }

  predicate AllDearer(sys: Sys, ts: Trees, before: bool) {
    if ts.NoTrees? then before else AllDearer(sys, ts.rest, Dearer(sys, ts.first, before))
  }

  lemma {:induction false} IntegerDearer(sys: Sys, fl: Floats, t: Tree, before: bool)
    requires Scalars(t) && Fold(sys, fl, t).Some? && Fold(sys, fl, t).value.Int?
    ensures Dearer(sys, t, before)
  {
    hide FoldCall;
    match t
    case Literal(_) =>
    case Apply(name, args) =>
      var vs := FoldAll(sys, fl, args).value;
      IntegerCalls(fl, name, vs);
      ArithmeticTakes(fl, name, vs);
      IntegersDearer(sys, fl, args, vs, false);
  }

  lemma {:induction false} IntegersDearer(sys: Sys, fl: Floats, ts: Trees, vs: seq<Value>, before: bool)
    requires AllScalars(ts) && FoldAll(sys, fl, ts) == Some(vs) && AllOf(vs, TInt) && (vs != [] || before)
    ensures AllDearer(sys, ts, before)
  {
    hide Fold, Dearer;
    if ts.Trees? {
      var v, rest := Fold(sys, fl, ts.first).value, FoldAll(sys, fl, ts.rest).value;
      assert vs == [v] + rest && v == vs[0] && forall i :: 0 <= i < |rest| ==> rest[i] == vs[i + 1];
      IntegerDearer(sys, fl, ts.first, before);
      IntegersDearer(sys, fl, ts.rest, rest, true);
    }
  }

  lemma IntegerCalls(fl: Floats, name: Name, vs: seq<Value>)
    requires FoldCall(fl, name, vs).Some? && FoldCall(fl, name, vs).value.Int?
    ensures Arithmetical(name)
  {}

  /** The two candidates of an arithmetic name differ in nothing but their type. */
  lemma TwinIs(name: Name, n: nat)
    requires Arithmetical(name)
    ensures |Builtin(name)| == 2
    ensures var i, f := Builtin(name)[0], Builtin(name)[1];
      && Over(i, TInt) && Over(f, TFloat) && Rank(i) < Rank(f) && (Takes(i, TInt, n) <==> Takes(f, TFloat, n))
      && ((Folding.Returned(i) == TInt && Folding.Returned(f) == TFloat) || (Folding.Returned(i) == TBool && Folding.Returned(f) == TBool))
  {
    assert [TInt, TInt][1..] == [TInt] && [TFloat, TFloat][1..] == [TFloat] && [TInt][1..] == [] && [TFloat][1..] == [];
    assert RankOf([TInt]) == 10 && RankOf([TFloat]) == 20;
    assert RankOf([TInt, TInt]) == 20 && RankOf([TFloat, TFloat]) == 40;
  }

  /** The choice between twins: the integer one, unless a double is expected and floating point costs no more. */
  lemma {:induction false} TwinChosen(sys: Sys, fl: Floats, folding: bool, name: Name, args: Trees, exp: Option<Ty>)
    requires Arithmetical(name) && AllScalars(args) && AllPlain(sys, args) && |Builtin(name)| == 2
    ensures var i, f := Builtin(name)[0], Builtin(name)[1];
      var x, y := Attempt(sys, fl, folding, i, args, exp), Attempt(sys, fl, folding, f, args, exp);
      Resolve(sys, fl, folding, Builtin(name), args, exp) ==
        if x == None then y
        else if y == None then x
        else if exp == Some(TFloat) && Folding.Returned(i) == TInt && !AllDearer(sys, args, false) then y
        else x
    decreases args, 3
  {
    hide Attempt, Resolve, Uniform, Takes, Over, Rank, AllDearer;
    var i, f := Builtin(name)[0], Builtin(name)[1];
    var x, y := Attempt(sys, fl, folding, i, args, exp), Attempt(sys, fl, folding, f, args, exp);
    assert Builtin(name) == [i, f];
    TwinIs(name, Count(args));
    if x.Some? && y.Some? {
      GapUniform(sys, fl, folding, args, 0, 0);
      AttemptOver(sys, fl, folding, i, TInt, args, exp);
      AttemptOver(sys, fl, folding, f, TFloat, args, exp);
      TwinWinner(sys, fl, folding, i, f, args, exp);
    } else if x.Some? {
      ResolveOnly(sys, fl, folding, [i, f], args, exp, 0);
    } else if y.Some? {
      ResolveOnly(sys, fl, folding, [i, f], args, exp, 1);
    } else {
      ResolveNone(sys, fl, folding, [i, f], args, exp);
    }
  }

  lemma TwinWinner(sys: Sys, fl: Floats, folding: bool, i: Form, f: Form, args: Trees, exp: Option<Ty>)
    requires Rank(i) < Rank(f) && !i.Logic? && !f.Logic? && Allows(i, exp) && Allows(f, exp)
    requires (Folding.Returned(i) == TInt && Folding.Returned(f) == TFloat) || (Folding.Returned(i) == TBool && Folding.Returned(f) == TBool)
    requires Attempt(sys, fl, folding, i, args, exp).Some? && Attempt(sys, fl, folding, f, args, exp).Some?
    requires Attempt(sys, fl, folding, i, args, exp).value.cost <= Attempt(sys, fl, folding, f, args, exp).value.cost
    ensures var x, y := Attempt(sys, fl, folding, i, args, exp), Attempt(sys, fl, folding, f, args, exp);
      Resolve(sys, fl, folding, [i, f], args, exp) ==
        if exp == Some(TFloat) && Folding.Returned(i) == TInt && x.value.cost == y.value.cost then y else x
  {
    hide Attempt, Rank;
    var x, y := Attempt(sys, fl, folding, i, args, exp), Attempt(sys, fl, folding, f, args, exp);
    var judged := Judged([i, f], Outcomes(sys, fl, folding, [i, f], args, exp), exp);
    assert judged == [Judge(i, x, exp), Judge(f, y, exp)];
    if exp == Some(TFloat) && Folding.Returned(i) == TInt && x.value.cost == y.value.cost {
      assert Winner(judged, 1);
      ResolveIs(sys, fl, folding, [i, f], args, exp, 1);
    } else {
      assert Winner(judged, 0);
      ResolveIs(sys, fl, folding, [i, f], args, exp, 0);
    }
  }

  // --- what floating point costs more -----------------------------------------------------------------------

  lemma {:induction false} GapUniform(sys: Sys, fl: Floats, folding: bool, ts: Trees, a: nat, b: nat)
    requires AllScalars(ts) && AllPlain(sys, ts) && a <= b
    ensures var x, y := Uniform(sys, fl, folding, ts, TInt, a), Uniform(sys, fl, folding, ts, TFloat, b);
      x.Some? ==> y.Some? && x.value.cost <= y.value.cost && (x.value.cost < y.value.cost <==> AllDearer(sys, ts, a < b))
    decreases ts, 1
  {
    hide Operand, Dearer;
    if ts.Trees? {
      GapOperand(sys, fl, folding, ts.first, a, b);
      var x, y := Operand(sys, fl, folding, ts.first, TInt, a), Operand(sys, fl, folding, ts.first, TFloat, b);
      if x.Some? { GapUniform(sys, fl, folding, ts.rest, x.value.cost, y.value.cost); }
    }
  }

  ghost predicate Gap(x: Option<Out>, y: Option<Out>, dearer: bool) {
    x.Some? ==> y.Some? && x.value.cost <= y.value.cost && (x.value.cost < y.value.cost <==> dearer)
  }

  /** Floating point never costs less than integers, and whether it costs more does not depend on folding. */
  lemma {:induction false} GapOperand(sys: Sys, fl: Floats, folding: bool, t: Tree, a: nat, b: nat)
    requires Scalars(t) && Plain(sys, t) && a <= b
    ensures Gap(Operand(sys, fl, folding, t, TInt, a), Operand(sys, fl, folding, t, TFloat, b), Dearer(sys, t, a < b))
    decreases t, 5
  {
    hide Resolve, Fold, Forms, Eval, AllDearer;
    var v := Fold(sys, fl, t);
    if folding && v.Some? && v.value.Int? {
      IntegerDearer(sys, fl, t, a < b);
    } else if folding && v.Some? && v.value.Float? {
      AgreeOperand(sys, fl, t, TInt, a, 0);
      FoldRefused(sys, fl, t, 0);
    } else {
      match t
      case Literal(_) =>
      case Leaf(_, _) =>
      case Apply(name, args) => GapCall(sys, fl, folding, name, args);
    }
  }

  function Converted(o: Option<Out>, ty: Ty): Option<Out> {
    match o
    case None => None
    case Some(x) =>
      if x.ty == ty then Some(x) else if Accepts(x.ty, ty) then Some(Out(Convert(ty, x.code), ty, x.cost + 1)) else None
  }

  lemma {:induction false} GapCall(sys: Sys, fl: Floats, folding: bool, name: Name, args: Trees)
    requires Plain(sys, Apply(name, args)) && AllScalars(args)
    ensures var forms := Forms(sys, name);
      var x, y := Resolve(sys, fl, folding, forms, args, Some(TInt)), Resolve(sys, fl, folding, forms, args, Some(TFloat));
      Gap(Converted(x, TInt), Converted(y, TFloat), Dearer(sys, Apply(name, args), false))
    decreases args, 5
  {
    hide Resolve, Attempt, AllDearer, Builtin;
    var forms := Forms(sys, name);
    assert sys.extra(name) == [] ==> forms == Builtin(name);
    if Arithmetical(name) {
      TwinIs(name, Count(args));
      GapTwin(sys, fl, folding, name, args);
    } else if |forms| == 1 {
      GapSingle(sys, fl, folding, forms[0], args);
      assert forms == [forms[0]];
    } else {
      FewForms(sys, name);
      ResolveNone(sys, fl, folding, forms, args, Some(TInt));
    }
  }

  lemma FewForms(sys: Sys, name: Name)
    requires !Arithmetical(name) && |sys.extra(name)| <= (if name.Named? then 1 else 0)
    ensures |Forms(sys, name)| <= 1
  {}

  lemma {:induction false} GapTwin(sys: Sys, fl: Floats, folding: bool, name: Name, args: Trees)
    requires Arithmetical(name) && AllScalars(args) && AllPlain(sys, args)
    ensures var x, y := Resolve(sys, fl, folding, Builtin(name), args, Some(TInt)), Resolve(sys, fl, folding, Builtin(name), args, Some(TFloat));
      Gap(Converted(x, TInt), Converted(y, TFloat), AllDearer(sys, args, false))
    decreases args, 4
  {
    hide Resolve, Attempt, AllDearer, Builtin, Uniform, Over, Takes;
    TwinIs(name, Count(args));
    var i, f := Builtin(name)[0], Builtin(name)[1];
    TwinChosen(sys, fl, folding, name, args, Some(TInt));
    TwinChosen(sys, fl, folding, name, args, Some(TFloat));
    GapUniform(sys, fl, folding, args, 0, 0);
    AttemptOver(sys, fl, folding, i, TInt, args, Some(TInt));
    AttemptOver(sys, fl, folding, f, TFloat, args, Some(TInt));
    AttemptOver(sys, fl, folding, i, TInt, args, Some(TFloat));
    AttemptOver(sys, fl, folding, f, TFloat, args, Some(TFloat));
  }

  /** A single candidate is the same for both; its integer result is converted, a truth value either way. */
  lemma GapSingle(sys: Sys, fl: Floats, folding: bool, f: Form, args: Trees)
    ensures var x, y := Resolve(sys, fl, folding, [f], args, Some(TInt)), Resolve(sys, fl, folding, [f], args, Some(TFloat));
      Gap(Converted(x, TInt), Converted(y, TFloat), !f.Logic?)
  {
    hide Uniform, Various, Truths, Compile;
    ResolveSingle(sys, fl, folding, f, args, Some(TInt));
    ResolveSingle(sys, fl, folding, f, args, Some(TFloat));
  }

  // --- folded and unfolded ------------------------------------------------------------------------------------

  lemma {:induction false} AgreeOperand(sys: Sys, fl: Floats, t: Tree, ty: Ty, c: nat, d: nat)
    requires Scalars(t) && Plain(sys, t)
    ensures Same(fl, Operand(sys, fl, true, t, ty, c), Operand(sys, fl, false, t, ty, d))
    decreases t, 4
  {
    hide Compile;
    AgreeCompile(sys, fl, t, Some(ty), c, d);
  }

  lemma {:induction false} AgreeUniform(sys: Sys, fl: Floats, ts: Trees, ty: Ty, c: nat, d: nat)
    requires AllScalars(ts) && AllPlain(sys, ts)
    ensures SameOuts(fl, Uniform(sys, fl, true, ts, ty, c), Uniform(sys, fl, false, ts, ty, d))
    decreases ts, 1
  {
    hide Operand, Eval;
    if ts.Trees? {
      AgreeOperand(sys, fl, ts.first, ty, c, d);
      var x, y := Operand(sys, fl, true, ts.first, ty, c), Operand(sys, fl, false, ts.first, ty, d);
      if x.Some? { AgreeUniform(sys, fl, ts.rest, ty, x.value.cost, y.value.cost); }
    }
  }

  lemma {:induction false} AgreeVarious(sys: Sys, fl: Floats, ts: Trees, tys: seq<Ty>, c: nat, d: nat)
    requires AllScalars(ts) && AllPlain(sys, ts)
    ensures SameOuts(fl, Various(sys, fl, true, ts, tys, c), Various(sys, fl, false, ts, tys, d))
    decreases ts, 1
  {
    hide Operand, Eval;
    if ts.Trees? && tys != [] {
      AgreeOperand(sys, fl, ts.first, tys[0], c, d);
      var x, y := Operand(sys, fl, true, ts.first, tys[0], c), Operand(sys, fl, false, ts.first, tys[0], d);
      if x.Some? { AgreeVarious(sys, fl, ts.rest, tys[1..], x.value.cost, y.value.cost); }
    }
  }

  lemma {:induction false} AgreeTruths(sys: Sys, fl: Floats, ts: Trees, c: nat, d: nat)
    requires AllScalars(ts) && AllPlain(sys, ts)
    ensures SameOuts(fl, Truths(sys, fl, true, ts, c), Truths(sys, fl, false, ts, d))
    decreases ts, 1
  {
    hide Compile, Eval;
    if ts.Trees? {
      AgreeCompile(sys, fl, ts.first, Some(TBool), c, d);
      var x, y := Compile(sys, fl, true, ts.first, Some(TBool), c), Compile(sys, fl, false, ts.first, Some(TBool), d);
      if x.Some? { AgreeTruths(sys, fl, ts.rest, x.value.cost, y.value.cost); }
    }
  }

  lemma {:induction false} AgreeAttempt(sys: Sys, fl: Floats, f: Form, args: Trees, exp: Option<Ty>)
    requires AllScalars(args) && AllPlain(sys, args)
    ensures Same(fl, Attempt(sys, fl, true, f, args, exp), Attempt(sys, fl, false, f, args, exp))
    decreases args, 2
  {
    hide Uniform, Various, Truths, Compile, Eval, SameCodes;
    match f
    case Chain(param, op, least) =>
      AgreeUniform(sys, fl, args, param, 0, 0);
      var x, y := Uniform(sys, fl, true, args, param, 0), Uniform(sys, fl, false, args, param, 0);
      if x.Some? { SameChained(fl, x.value.codes, y.value.codes, op); SameSize(fl, x.value.codes, y.value.codes); }
    case Exact(params, ret, op) =>
      AgreeVarious(sys, fl, args, params, 0, 0);
      var x, y := Various(sys, fl, true, args, params, 0), Various(sys, fl, false, args, params, 0);
      if x.Some? { SameCalled(fl, x.value.codes, y.value.codes, op); }
    case Logic(any, negated) =>
      AgreeTruths(sys, fl, args, 0, 0);
      var x, y := Truths(sys, fl, true, args, 0), Truths(sys, fl, false, args, 0);
      if x.Some? { SameShort(fl, x.value.codes, y.value.codes, any, negated); SameSize(fl, x.value.codes, y.value.codes); }
    case Equality(negated) =>
      if args.Trees? && args.rest.Trees? && args.rest.rest.NoTrees? { AgreeEquality(sys, fl, negated, args, exp); }
  }

  lemma SameSize(fl: Floats, a: Codes, b: Codes)
    requires SameCodes(fl, a, b)
    ensures a.NoCodes? <==> b.NoCodes?
  {}

  lemma {:induction false} AgreeEquality(sys: Sys, fl: Floats, negated: bool, args: Trees, exp: Option<Ty>)
    requires AllScalars(args) && AllPlain(sys, args) && args.Trees? && args.rest.Trees? && args.rest.rest.NoTrees?
    ensures Same(fl, Attempt(sys, fl, true, Equality(negated), args, exp), Attempt(sys, fl, false, Equality(negated), args, exp))
    decreases args, 1
  {
    hide Compile, Eval;
    AgreeCompile(sys, fl, args.first, None, 0, 0);
    var a, b := Compile(sys, fl, true, args.first, None, 0), Compile(sys, fl, false, args.first, None, 0);
    if a.Some? {
      AgreeCompile(sys, fl, args.rest.first, None, a.value.cost, b.value.cost);
      var x, y := Compile(sys, fl, true, args.rest.first, None, a.value.cost), Compile(sys, fl, false, args.rest.first, None, b.value.cost);
      if x.Some? {
        SameCompared(fl, negated, a.value.code, x.value.code, b.value.code, y.value.code);
        SameConverted(fl, TFloat, x.value.code, y.value.code);
        SameCompared(fl, negated, a.value.code, Convert(TFloat, x.value.code), b.value.code, Convert(TFloat, y.value.code));
      }
    }
  }

  lemma SameCompared(fl: Floats, negated: bool, a: Folding.Code, b: Folding.Code, c: Folding.Code, d: Folding.Code)
    ensures Eval(fl, a) == Eval(fl, c) && Eval(fl, b) == Eval(fl, d) ==> Eval(fl, Compared(negated, a, b)) == Eval(fl, Compared(negated, c, d))
  {}

  lemma SameConverted(fl: Floats, ty: Ty, a: Folding.Code, b: Folding.Code)
    requires Eval(fl, a) == Eval(fl, b)
    ensures Eval(fl, Convert(ty, a)) == Eval(fl, Convert(ty, b))
  {}

  lemma {:induction false} AgreeResolve(sys: Sys, fl: Floats, name: Name, args: Trees, exp: Option<Ty>)
    requires Plain(sys, Apply(name, args)) && AllScalars(args)
    ensures Same(fl, Resolve(sys, fl, true, Forms(sys, name), args, exp), Resolve(sys, fl, false, Forms(sys, name), args, exp))
    decreases args, 4
  {
    hide Resolve, Attempt, AllDearer, Builtin, Eval;
    var forms := Forms(sys, name);
    assert sys.extra(name) == [] ==> forms == Builtin(name);
    if Arithmetical(name) {
      TwinIs(name, Count(args));
      TwinChosen(sys, fl, true, name, args, exp);
      TwinChosen(sys, fl, false, name, args, exp);
      AgreeAttempt(sys, fl, forms[0], args, exp);
      AgreeAttempt(sys, fl, forms[1], args, exp);
    } else {
      FewForms(sys, name);
      if |forms| == 1 {
        assert forms == [forms[0]];
        ResolveSingle(sys, fl, true, forms[0], args, exp);
        ResolveSingle(sys, fl, false, forms[0], args, exp);
        AgreeAttempt(sys, fl, forms[0], args, exp);
      } else {
        ResolveNone(sys, fl, true, forms, args, exp);
        ResolveNone(sys, fl, false, forms, args, exp);
      }
    }
  }

  lemma {:induction false} AgreeCompile(sys: Sys, fl: Floats, t: Tree, exp: Option<Ty>, c: nat, d: nat)
    requires Scalars(t) && Plain(sys, t)
    ensures SameBut(fl, exp, Compile(sys, fl, true, t, exp, c), Compile(sys, fl, false, t, exp, d))
    decreases t, 3
  {
    hide Resolve, Fold;
    var v := Fold(sys, fl, t);
    if v.Some? && Fits(v.value, exp) {
      FoldCompiles(sys, fl, t, exp, d);
    } else if t.Apply? {
      AgreeResolve(sys, fl, t.name, t.args, exp);
    }
  }

  /**
    Folding goes unnoticed: folded and unfolded the expression compiles or is rejected, and
    if it compiles, to the same type and to code that computes the same or raises. The same
    of it as an operand of any type.
  */
  lemma FoldingUnnoticed(sys: Sys, fl: Floats, t: Tree, ty: Ty, c: nat, d: nat)
    requires Scalars(t) && Plain(sys, t)
    ensures Same(fl, Compile(sys, fl, true, t, None, c), Compile(sys, fl, false, t, None, d))
    ensures Same(fl, Operand(sys, fl, true, t, ty, c), Operand(sys, fl, false, t, ty, d))
  {
    hide Compile, Operand;
    AgreeCompile(sys, fl, t, None, c, d);
    AgreeOperand(sys, fl, t, ty, c, d);
  }
}
