/**
  Over the reals every expression the generator accepts has an answer: it yields values of
  its type or raises. The only way to get neither is a rounding error in `random`.
*/
module Answers {
  import opened Machine
  import opened Lowering
  import opened LoweringMeans
  import opened RandomChoice

  /** An answer of this type, or an error. */
  ghost predicate Proper(a: Answer, t: seq<Ty>) { a != NoAnswer && Tagged(a, t) }

  lemma ConvertedProper(w: World, from: seq<Ty>, exp: seq<Ty>, a: Answer)
    requires Proper(a, from) && Convertible(from, exp)
    ensures Proper(Converted(w, exp, a), exp)
  {}

  lemma TagsConcat(vs: seq<Value>, t: seq<Ty>, us: seq<Value>, u: seq<Ty>)
    requires TagsMatch(vs, t) && TagsMatch(us, u)
    ensures TagsMatch(vs + us, t + u)
  {}

  /** The test and the body of a part, and the parts behind it. */
  lemma PartChecked(w: World, role: Role, p: Parts, tys: seq<Ty>)
    requires p.Part? && CheckParts(w, role, p, tys)
    ensures Check(w, p.body, tys) && Convertible(ResultOf(p.body, tys), ExpOf(role))
    ensures CheckParts(w, Onward(role), p.rest, tys) && TestOk(w, role, p, tys)
    ensures p.test.When? ==> Check(w, p.test.cond, tys)
  {}

  lemma {:induction false} TestAnswers(w: World, t: Test, tys: seq<Ty>, sc: seq<Value>, e: Env)
    requires RealArithmetic(w) && TagsMatch(sc, tys)
    requires t.When? ==> Check(w, t.cond, tys) && ResultOf(t.cond, tys) == [TBool]
    ensures Proper(Holds(w, t, sc, e), [TBool])
    decreases t, 1
  {
    hide Meaning, Check, RealArithmetic, ResultOf;
    if t.When? { MeaningAnswers(w, t.cond, tys, sc, e); }
  }

  lemma {:induction false} BodyAnswers(w: World, role: Role, p: Parts, tys: seq<Ty>, sc: seq<Value>, e: Env)
    requires RealArithmetic(w) && TagsMatch(sc, tys) && p.Part? && CheckParts(w, role, p, tys)
    ensures Proper(Converted(w, ExpOf(role), Meaning(w, p.body, sc, e)), ExpOf(role))
    decreases p, 1
  {
    hide Meaning, Check, RealArithmetic, ResultOf, CheckParts, Converted, Convertible;
    PartChecked(w, role, p, tys);
    MeaningAnswers(w, p.body, tys, sc, e);
    ConvertedProper(w, ResultOf(p.body, tys), ExpOf(role), Meaning(w, p.body, sc, e));
  }

  lemma {:induction false} ArgsAnswer(w: World, p: Parts, types: seq<Ty>, tys: seq<Ty>, sc: seq<Value>, e: Env)
    requires RealArithmetic(w) && TagsMatch(sc, tys) && CheckParts(w, Argument(types), p, tys)
    ensures Proper(Args(w, p, sc, e), types)
    decreases p, 0
  {
    hide Meaning, Check, RealArithmetic, ResultOf;
    if p.Part? {
      MeaningAnswers(w, p.body, tys, sc, e);
      var a := Meaning(w, p.body, sc, e);
      if a.Gives? {
        ArgsAnswer(w, p.rest, types[1..], tys, sc, a.env);
        var b := Args(w, p.rest, sc, a.env);
        if b.Gives? {
          TagsConcat(a.values, types[..1], b.values, types[1..]);
          assert types[..1] + types[1..] == types;
        }
      }
    }
  }

  lemma {:induction false} DecideAnswers(w: World, any: bool, p: Parts, tys: seq<Ty>, sc: seq<Value>, e: Env)
    requires RealArithmetic(w) && TagsMatch(sc, tys) && CheckParts(w, Operand, p, tys)
    ensures Proper(Decide(w, any, p, sc, e), [TBool])
    decreases p, 0
  {
    hide Meaning, Check, RealArithmetic, ResultOf;
    if p.Part? {
      MeaningAnswers(w, p.body, tys, sc, e);
      var a := Meaning(w, p.body, sc, e);
      if a.Gives? { DecideAnswers(w, any, p.rest, tys, sc, a.env); }
    }
  }

  lemma ApplyAnswers(w: World, product: bool, op: Prim, ty: Ty, a: Value, b: Value, e: Env)
    requires TotalOk(product, op, ty) && TypeOf(a) == ty && TypeOf(b) == ty
    ensures Proper(Apply(w, op, a, b, e), [ty])
  {}

  lemma {:induction false} AccumulateAnswers(w: World, product: bool, op: Prim, ty: Ty, p: Parts, acc: seq<Value>, tys: seq<Ty>, sc: seq<Value>, e: Env)
    requires RealArithmetic(w) && TagsMatch(sc, tys) && TotalOk(product, op, ty) && CheckParts(w, Term([ty]), p, tys)
    requires if acc == [] then p != End && !Conditional(p) else TagsMatch(acc, [ty])
    ensures Proper(Accumulate(w, op, ty, p, acc, sc, e), [ty])
    decreases p, 2
  {
    hide Meaning, Check, RealArithmetic, ResultOf, TotalOk, Apply, Converted, Holds, CheckParts;
    if p.Part? {
      PartChecked(w, Term([ty]), p, tys);
      TestAnswers(w, p.test, tys, sc, e);
      var c := Holds(w, p.test, sc, e);
      if c.Gives? {
        if c.values == [Bool(false)] {
          assert acc != [] by { if acc == [] { AlwaysHolds(w, p.test, sc, e); } }
          AccumulateAnswers(w, product, op, ty, p.rest, acc, tys, sc, c.env);
        } else {
          BodyAnswers(w, Term([ty]), p, tys, sc, c.env);
          var v := Converted(w, [ty], Meaning(w, p.body, sc, c.env));
          if v.Gives? {
            if acc == [] {
              AccumulateAnswers(w, product, op, ty, p.rest, v.values, tys, sc, v.env);
            } else {
              ApplyAnswers(w, product, op, ty, acc[0], v.values[0], v.env);
              var r := Apply(w, op, acc[0], v.values[0], v.env);
              if r.Gives? { AccumulateAnswers(w, product, op, ty, p.rest, r.values, tys, sc, r.env); }
            }
          }
        }
      }
    }
  }

  lemma AlwaysHolds(w: World, t: Test, sc: seq<Value>, e: Env)
    requires t.Always?
    ensures Holds(w, t, sc, e) == Gives([Bool(true)], e)
  {}

  lemma {:induction false} FirstOfAnswers(w: World, exp: seq<Ty>, p: Parts, tys: seq<Ty>, sc: seq<Value>, e: Env)
    requires RealArithmetic(w) && TagsMatch(sc, tys) && CheckParts(w, Alternative(exp), p, tys) && (exp != [] ==> p != End)
    ensures Proper(FirstOf(w, exp, p, sc, e), exp)
    decreases p, 2
  {
    hide Meaning, Check, RealArithmetic, ResultOf, Converted, Holds, CheckParts;
    if p.Part? {
      PartChecked(w, Alternative(exp), p, tys);
      TestAnswers(w, p.test, tys, sc, e);
      var c := Holds(w, p.test, sc, e);
      if c.Gives? {
        if c.values == [Bool(true)] { BodyAnswers(w, Alternative(exp), p, tys, sc, c.env); }
        else {
          if p.test.Always? { AlwaysHolds(w, p.test, sc, e); }
          FirstOfAnswers(w, exp, p.rest, tys, sc, c.env);
        }
      }
    }
  }

  lemma CollectTags(w: World, exp: seq<Ty>, acc: seq<Value>, vs: seq<Value>)
    requires Scalar(exp) && TagsMatch(acc, exp) && TagsMatch(vs, exp)
    ensures TagsMatch(Collect(w, exp, acc, vs), exp)
  {}

  lemma {:induction false} WhileAnswers(w: World, exp: seq<Ty>, p: Parts, acc: seq<Value>, tys: seq<Ty>, sc: seq<Value>, e: Env)
    requires RealArithmetic(w) && TagsMatch(sc, tys) && CheckParts(w, Stage(exp), p, tys) && Scalar(exp) && TagsMatch(acc, exp)
    ensures Proper(WhileTrue(w, exp, p, acc, sc, e), exp)
    decreases p, 2
  {
    hide Meaning, Check, RealArithmetic, ResultOf, Converted, Holds, CheckParts, Collect, Scalar;
    if p.Part? {
      PartChecked(w, Stage(exp), p, tys);
      TestAnswers(w, p.test, tys, sc, e);
      var c := Holds(w, p.test, sc, e);
      if c.Gives? && c.values == [Bool(true)] {
        BodyAnswers(w, Stage(exp), p, tys, sc, c.env);
        var v := Converted(w, exp, Meaning(w, p.body, sc, c.env));
        if v.Gives? {
          CollectTags(w, exp, acc, v.values);
          WhileAnswers(w, exp, p.rest, Collect(w, exp, acc, v.values), tys, sc, v.env);
        }
      }
    }
  }

  lemma {:induction false} CaseAnswers(w: World, value: seq<Ty>, exp: seq<Ty>, p: Parts, v: Value, tys: seq<Ty>, sc: seq<Value>, e: Env)
    requires RealArithmetic(w) && TagsMatch(sc, tys) && CheckParts(w, Case(value, exp), p, tys) && |value| == 1
    ensures Proper(CaseOf(w, exp, p, v, sc, e), exp)
    decreases p, 2
  {
    hide Meaning, Check, RealArithmetic, ResultOf, Converted, CheckParts;
    if p.Part? {
      PartChecked(w, Case(value, exp), p, tys);
      if p.test.Always? {
        BodyAnswers(w, Case(value, exp), p, tys, sc, e);
      } else {
        MeaningAnswers(w, p.test.cond, tys, sc, e);
        var c := Meaning(w, p.test.cond, sc, e);
        if c.Gives? {
          BodyAnswers(w, Case(value, exp), p, tys, sc, c.env);
          CaseAnswers(w, value, exp, p.rest, v, tys, sc, c.env);
        }
      }
    }
  }

  lemma {:induction false} PerformAnswers(w: World, p: Parts, tys: seq<Ty>, sc: seq<Value>, e: Env)
    requires RealArithmetic(w) && TagsMatch(sc, tys) && CheckParts(w, Term([]), p, tys)
    ensures Proper(Perform(w, p, sc, e), [])
    decreases p, 2
  {
    hide Meaning, Check, RealArithmetic, ResultOf, Holds, CheckParts;
    if p.Part? {
      PartChecked(w, Term([]), p, tys);
      TestAnswers(w, p.test, tys, sc, e);
      var c := Holds(w, p.test, sc, e);
      if c.Gives? && c.values != [Bool(false)] {
        MeaningAnswers(w, p.body, tys, sc, c.env);
        var a := Meaning(w, p.body, sc, c.env);
        if a.Gives? { PerformAnswers(w, p.rest, tys, sc, a.env); }
      }
    }
  }

  lemma {:induction false} WeighAnswers(w: World, exp: seq<Ty>, p: Parts, tys: seq<Ty>, sc: seq<Value>, e: Env, ws: seq<real>)
    requires RealArithmetic(w) && TagsMatch(sc, tys) && CheckParts(w, Weighted(exp), p, tys)
    ensures Weigh(w, p, sc, e, ws).Unweighed? ==> Weigh(w, p, sc, e, ws).why.Raises?
    decreases p, 2
  {
    hide Meaning, Check, RealArithmetic, ResultOf, Converted, CheckParts;
    if p.Part? {
      PartChecked(w, Weighted(exp), p, tys);
      MeaningAnswers(w, p.test.cond, tys, sc, e);
      ConvertedProper(w, ResultOf(p.test.cond, tys), [TFloat], Meaning(w, p.test.cond, sc, e));
      var a := Converted(w, [TFloat], Meaning(w, p.test.cond, sc, e));
      if a.Gives? { WeighAnswers(w, exp, p.rest, tys, sc, a.env, ws + [a.values[0].r]); }
    }
  }

  /** The i-th branch of a checked `random` answers in its type. */
  lemma {:induction false} BranchAnswers(w: World, exp: seq<Ty>, p: Parts, i: nat, tys: seq<Ty>, sc: seq<Value>, e: Env)
    requires RealArithmetic(w) && TagsMatch(sc, tys) && CheckParts(w, Weighted(exp), p, tys) && i < CountParts(p)
    ensures Proper(Converted(w, exp, Meaning(w, BodyAt(p, i), sc, e)), exp)
    decreases p, 2
  {
    hide Meaning, Check, RealArithmetic, ResultOf, Converted, CheckParts;
    PartChecked(w, Weighted(exp), p, tys);
    if i == 0 { BodyAnswers(w, Weighted(exp), p, tys, sc, e); }
    else { BranchAnswers(w, exp, p.rest, i - 1, tys, sc, e); }
  }

  lemma {:induction false} RandomAnswers(w: World, x: Expr, tys: seq<Ty>, sc: seq<Value>, e: Env)
    requires RealArithmetic(w) && x.Random? && Check(w, x, tys) && TagsMatch(sc, tys)
    ensures Proper(Meaning(w, x, sc, e), x.exp)
    decreases x, 0
  {
    hide RealArithmetic, CheckParts, Weigh, Converted, BodyAt, Proper;
    WeighAnswers(w, x.exp, x.branches, tys, sc, e, []);
    var r := Weigh(w, x.branches, sc, e, []);
    if r.Weighed? {
      var i := RandomRunsFirst(w, x, sc, e);
      BranchAnswers(w, x.exp, x.branches, i, tys, sc, r.env);
    } else {
      RaisesProper(r.why, x.exp);
    }
  }

  lemma RaisesProper(a: Answer, t: seq<Ty>)
    requires a.Raises?
    ensures Proper(a, t)
  {}

  lemma {:induction false} ScopeAnswers(w: World, x: Expr, tys: seq<Ty>, sc: seq<Value>, e: Env)
    requires RealArithmetic(w) && (x.Within? || x.WithinValid?) && Check(w, x, tys) && TagsMatch(sc, tys)
    ensures Proper(Meaning(w, x, sc, e), ResultOf(x, tys))
    decreases x, 0
  {
    hide RealArithmetic;
    MeaningAnswers(w, x.scope, tys, sc, e);
    var a := Meaning(w, x.scope, sc, e);
    if a.Gives? {
      TagsConcat(sc, tys, a.values, ResultOf(x.scope, tys));
      MeaningAnswers(w, x.body, tys + ResultOf(x.scope, tys), sc + a.values, a.env);
    }
  }

  lemma {:induction false} SwitchAnswers(w: World, x: Expr, tys: seq<Ty>, sc: seq<Value>, e: Env)
    requires RealArithmetic(w) && x.Switch? && Check(w, x, tys) && TagsMatch(sc, tys)
    ensures Proper(Meaning(w, x, sc, e), x.exp)
    decreases x, 0
  {
    hide RealArithmetic, CheckParts, CaseOf;
    var t := ResultOf(x.value, tys);
    MeaningAnswers(w, x.value, tys, sc, e);
    var a := Meaning(w, x.value, sc, e);
    if a.Gives? {
      TagsConcat(sc, tys, a.values, t);
      CaseAnswers(w, t, x.exp, x.cases, a.values[0], tys + t, sc + a.values, a.env);
    }
  }

  lemma {:induction false} ValueOrAnswers(w: World, x: Expr, tys: seq<Ty>, sc: seq<Value>, e: Env)
    requires RealArithmetic(w) && x.ValueOr? && Check(w, x, tys) && TagsMatch(sc, tys)
    ensures Proper(Meaning(w, x, sc, e), x.exp)
    decreases x, 0
  {
    hide RealArithmetic, Converted, ResultOf, Convertible;
    MeaningAnswers(w, x.cond, tys, sc, e);
    var a := Meaning(w, x.cond, sc, e);
    CoercibleConvertible(ResultOf(x.value, tys), x.exp);
    CoercibleConvertible(ResultOf(x.default, tys), x.exp);
    if a.Gives? {
      MeaningAnswers(w, x.value, tys, sc, a.env);
      MeaningAnswers(w, x.default, tys, sc, a.env);
      ConvertedProper(w, ResultOf(x.value, tys), x.exp, Meaning(w, x.value, sc, a.env));
      ConvertedProper(w, ResultOf(x.default, tys), x.exp, Meaning(w, x.default, sc, a.env));
    }
  }

  lemma CallProper(w: World, sig: Signature, sc: seq<Value>, vs: seq<Value>, e: Env)
    ensures Proper(CallAnswer(w, sig, sc, vs, e), if sig.ret.Some? then [sig.ret.value] else [])
  {}

  lemma LeafAnswers(w: World, x: Expr, tys: seq<Ty>, sc: seq<Value>, e: Env)
    requires (x.Literal? || x.Outer? || x.Saved?) && Check(w, x, tys) && TagsMatch(sc, tys)
    ensures Proper(Meaning(w, x, sc, e), ResultOf(x, tys))
  {
    hide Args, Decide, Accumulate, FirstOf, WhileTrue, CaseOf, Weigh, Chosen, Perform, CheckParts;
  }

  /** Every accepted expression answers. */
  lemma {:induction false} MeaningAnswers(w: World, x: Expr, tys: seq<Ty>, sc: seq<Value>, e: Env)
    requires RealArithmetic(w) && Check(w, x, tys) && TagsMatch(sc, tys)
    ensures Proper(Meaning(w, x, sc, e), ResultOf(x, tys))
    decreases x, 1
  {
    hide RealArithmetic, CheckParts, Args, Decide, Accumulate, FirstOf, WhileTrue, CaseOf, Weigh, Chosen, Perform, CallAnswer, TotalOk;
    match x
    case Native(sig, args) =>
      ArgsAnswer(w, args, sig.args, tys, sc, e);
      var a := Args(w, args, sc, e);
      if a.Gives? { CallProper(w, sig, sc, a.values, a.env); }
    case Logic(any, _, kids) => DecideAnswers(w, any, kids, tys, sc, e);
    case Total(product, op, ty, terms) =>
      assert TotalOk(product, op, ty) ==> TypeOf(Identity(w, product, ty)) == ty by { IdentityTags(w, product, op, ty); }
      AccumulateAnswers(w, product, op, ty, terms, if Conditional(terms) then [Identity(w, product, ty)] else [], tys, sc, e);
    case Select(exp, clauses) => FirstOfAnswers(w, exp, clauses, tys, sc, e);
    case Sequence(exp, clauses) => WhileAnswers(w, exp, clauses, Start(w, exp), tys, sc, e);
    case Switch(_, _, _) => SwitchAnswers(w, x, tys, sc, e);
    case ValueOr(_, _, _, _) => ValueOrAnswers(w, x, tys, sc, e);
    case Random(_, _, _) => RandomAnswers(w, x, tys, sc, e);
    case Within(_, _) => ScopeAnswers(w, x, tys, sc, e);
    case WithinValid(_, _, _) => ScopeAnswers(w, x, tys, sc, e);
    case Effects(children) => PerformAnswers(w, children, tys, sc, e);
    case _ => LeafAnswers(w, x, tys, sc, e);
  }

  lemma IdentityTags(w: World, product: bool, op: Prim, ty: Ty)
    ensures TotalOk(product, op, ty) ==> TypeOf(Identity(w, product, ty)) == ty
  {}
}
