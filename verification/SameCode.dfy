/**
  The generator numbers slots; it does not look at what lies in them. Lowered on two
  compile-time stacks of the same height, an expression gives the same commands, the same
  heights and the same run, whatever types the two stacks hold.
*/
module SameCode {
  import opened Machine
  import opened Blocks
  import opened Lowering
  import opened LoweringTyped

  /** The same code, but for the types predicted behind its blocks. */
  predicate Alike(a: Node, b: Node) {
    match a
    case Seq(x, y) => b.Seq? && Alike(x, b.first) && Alike(y, b.rest)
    case Block(x, out) => b.Block? && |out| == |b.out| && Alike(x, b.body)
    case _ => a == b
  }

  lemma {:induction false} AlikeSelf(a: Node)
    ensures Alike(a, a)
  {
    match a
    case Seq(x, y) => AlikeSelf(x); AlikeSelf(y);
    case Block(x, _) => AlikeSelf(x);
    case _ =>
  }

  lemma AlikeSeq(a: Node, a': Node, b: Node, b': Node)
    requires Alike(a, a') && Alike(b, b')
    ensures Alike(Seq(a, b), Seq(a', b'))
  {}

  lemma AlikeBlock(a: Node, a': Node, out: seq<Ty>, out': seq<Ty>)
    requires Alike(a, a') && |out| == |out'|
    ensures Alike(Block(a, out), Block(a', out'))
  {}

  lemma {:induction false} AlikeFlat(a: Node, b: Node, at: nat, labels: seq<int>)
    requires Alike(a, b)
    ensures Size(a) == Size(b) && Flatten(a, at, labels) == Flatten(b, at, labels)
    decreases a
  {
    match a
    case Seq(x, y) =>
      AlikeFlat(x, b.first, at, labels);
      AlikeFlat(y, b.rest, at + Size(x), labels);
    case Block(x, _) =>
      AlikeFlat(x, b.body, at, []);
      AlikeFlat(x, b.body, at, [at + Size(x)] + labels);
    case _ =>
  }

  lemma {:induction false} AlikeRuns(w: World, a: Node, b: Node, s: seq<Value>, e: Env)
    requires Alike(a, b)
    ensures Exec(w, a, s, e) == Exec(w, b, s, e)
    decreases a
  {
    hide ExecDo, ExecUnread, ExecExit;
    match a
    case Seq(x, y) =>
      AlikeRuns(w, x, b.first, s, e);
      var r := Exec(w, x, s, e);
      if r.Fell? { AlikeRuns(w, y, b.rest, r.stack, r.env); }
    case Block(x, _) => AlikeRuns(w, x, b.body, s, e);
    case _ =>
  }

  lemma DoHeight(cmd: Command, m: seq<Ty>, m': seq<Ty>)
    requires |m| == |m'|
    ensures |DoOut(cmd, m)| == |DoOut(cmd, m')|
  {
    match cmd.op
    case Basic(p) => PrimHeight(p, cmd.arg, m, m');
    case _ =>
  }

  lemma InitHeight(m: seq<Ty>, m': seq<Ty>, n: nat)
    requires |m| == |m'|
    ensures |Init(m, n)| == |Init(m', n)|
  {}

  lemma PrimHeight(p: Prim, arg: int, m: seq<Ty>, m': seq<Ty>)
    requires |m| == |m'|
    ensures |PrimOut(p, arg, m)| == |PrimOut(p, arg, m')|
  {
    hide Init;
    InitHeight(m, m', 1);
    InitHeight(m, m', 2);
    if p.Call? { InitHeight(m, m', |p.sig.args|); }
  }

  lemma {:induction false} AlikeHeights(a: Node, b: Node, m: seq<Ty>, m': seq<Ty>)
    requires Alike(a, b) && |m| == |m'|
    ensures |OutOf(a, m)| == |OutOf(b, m')| && PeakOf(a, m) == PeakOf(b, m')
    decreases a
  {
    hide DoOut;
    match a
    case Do(cmd) => DoHeight(cmd, m, m');
    case Seq(x, y) =>
      AlikeHeights(x, b.first, m, m');
      AlikeHeights(y, b.rest, OutOf(x, m), OutOf(b.first, m'));
    case Block(x, _) => AlikeHeights(x, b.body, m, m');
    case _ =>
  }

  // --- lowering, construct by construct ------------------------------------------------------------

  lemma {:induction false} ValuedAlike(x: Expr, exp: seq<Ty>, m: seq<Ty>, m': seq<Ty>, sl: seq<nat>, tys: seq<Ty>)
    requires |m| == |m'|
    ensures Alike(Valued(x, exp, m, sl, tys), Valued(x, exp, m', sl, tys))
    decreases x, 2
  {
    hide Lower, Alike;
    var coerce := Coerce(ResultOf(x, tys), exp);
    LowerAlike(x, m, m', sl, tys);
    AlikeSelf(coerce);
    AlikeSeq(Lower(x, m, sl, tys), Lower(x, m', sl, tys), coerce, coerce);
  }

  lemma ClauseAlike(test: Node, test': Node, body: Node, body': Node, m: seq<Ty>, m': seq<Ty>)
    requires Alike(test, test') && Alike(body, body') && |m| == |m'|
    ensures Alike(Clause(test, body, m), Clause(test', body', m'))
  {
    hide Alike;
    var skip, leave := Exit(CondJump, 0, 0), Exit(Jump, 0, 1);
    AlikeSelf(skip);
    AlikeSelf(leave);
    AlikeSeq(body, body', leave, leave);
    AlikeSeq(skip, skip, Seq(body, leave), Seq(body', leave));
    AlikeSeq(test, test', Seq(skip, Seq(body, leave)), Seq(skip, Seq(body', leave)));
    AlikeBlock(Seq(test, Seq(skip, Seq(body, leave))), Seq(test', Seq(skip, Seq(body', leave))), m, m');
  }

  /** Code behind a conditional jump. */
  lemma GuardedAlike(test: Node, test': Node, body: Node, body': Node)
    requires Alike(test, test') && Alike(body, body')
    ensures Alike(Seq(test, Seq(Exit(CondJump, 0, 0), body)), Seq(test', Seq(Exit(CondJump, 0, 0), body')))
  {
    hide Alike;
    var skip := Exit(CondJump, 0, 0);
    AlikeSelf(skip);
    AlikeSeq(skip, skip, body, body');
    AlikeSeq(test, test', Seq(skip, body), Seq(skip, body'));
  }

  lemma {:induction false} ArgsAlike(p: Parts, m: seq<Ty>, m': seq<Ty>, sl: seq<nat>, tys: seq<Ty>)
    requires |m| == |m'|
    ensures Alike(LowerArgs(p, m, sl, tys), LowerArgs(p, m', sl, tys))
    decreases p, 0
  {
    hide Lower;
    if p.Part? {
      LowerAlike(p.body, m, m', sl, tys);
      ArgsAlike(p.rest, m + ResultOf(p.body, tys), m' + ResultOf(p.body, tys), sl, tys);
    }
  }

  lemma {:induction false} LogicAlike(any: bool, p: Parts, first: bool, m: seq<Ty>, m': seq<Ty>, sl: seq<nat>, tys: seq<Ty>)
    requires |m| == |m'|
    ensures Alike(LowerLogic(any, p, first, m, sl, tys), LowerLogic(any, p, first, m', sl, tys))
    decreases p, 0
  {
    hide Lower;
    if p.Part? {
      LowerAlike(p.body, if first then m else m + [TBool], if first then m' else m' + [TBool], sl, tys);
      LogicAlike(any, p.rest, false, m, m', sl, tys);
      var jump := Exit(ShortOp(any, first), 0, 0);
      var rest, rest' := LowerLogic(any, p.rest, false, m, sl, tys), LowerLogic(any, p.rest, false, m', sl, tys);
      assert Alike(Seq(jump, rest), Seq(jump, rest'));
    }
  }

  lemma TermAlike(op: Prim, value: Node, value': Node, first: bool)
    requires Alike(value, value')
    ensures Alike(TermCode(op, value, first), TermCode(op, value', first))
  {
    hide Alike;
    AlikeSelf(Op1(op, 0));
    AlikeSeq(value, value', Op1(op, 0), Op1(op, 0));
  }

  lemma {:induction false} TermsAlike(op: Prim, ty: Ty, p: Parts, first: bool, m: seq<Ty>, m': seq<Ty>, sl: seq<nat>, tys: seq<Ty>)
    requires |m| == |m'|
    ensures Alike(LowerTerms(op, ty, p, first, m, sl, tys), LowerTerms(op, ty, p, first, m', sl, tys))
    decreases p, 0
  {
    hide Lower, Valued, TermCode, Alike;
    if p.End? {
      AlikeSelf(Nop);
    } else {
      var here, here' := if first then m else m + [ty], if first then m' else m' + [ty];
      var code, code' := TermCode(op, Valued(p.body, [ty], here, sl, tys), first), TermCode(op, Valued(p.body, [ty], here', sl, tys), first);
      ValuedAlike(p.body, [ty], here, here', sl, tys);
      TermAlike(op, Valued(p.body, [ty], here, sl, tys), Valued(p.body, [ty], here', sl, tys), first);
      TermsAlike(op, ty, p.rest, false, m, m', sl, tys);
      var rest, rest' := LowerTerms(op, ty, p.rest, false, m, sl, tys), LowerTerms(op, ty, p.rest, false, m', sl, tys);
      match p.test
      case Always => AlikeSeq(code, code', rest, rest');
      case When(c) =>
        var guarded, guarded' := Seq(Lower(c, here, sl, tys), Seq(Exit(CondJump, 0, 0), code)), Seq(Lower(c, here', sl, tys), Seq(Exit(CondJump, 0, 0), code'));
        LowerAlike(c, here, here', sl, tys);
        GuardedAlike(Lower(c, here, sl, tys), Lower(c, here', sl, tys), code, code');
        AlikeBlock(guarded, guarded', here, here');
        AlikeSeq(Block(guarded, here), Block(guarded', here'), rest, rest');
    }
  }

  lemma {:induction false} SelectAlike(exp: seq<Ty>, p: Parts, m: seq<Ty>, m': seq<Ty>, sl: seq<nat>, tys: seq<Ty>)
    requires |m| == |m'|
    ensures Alike(LowerSelect(exp, p, m, sl, tys), LowerSelect(exp, p, m', sl, tys))
    decreases p, 0
  {
    hide Lower, Valued, Clause;
    if p.Part? {
      ValuedAlike(p.body, exp, m, m', sl, tys);
      var leave := Exit(Jump, 0, 0);
      assert Alike(Seq(Valued(p.body, exp, m, sl, tys), leave), Seq(Valued(p.body, exp, m', sl, tys), leave));
      if p.test.When? {
        LowerAlike(p.test.cond, m, m', sl, tys);
        ClauseAlike(Lower(p.test.cond, m, sl, tys), Lower(p.test.cond, m', sl, tys), Valued(p.body, exp, m, sl, tys), Valued(p.body, exp, m', sl, tys), m, m');
      }
      SelectAlike(exp, p.rest, m, m', sl, tys);
    }
  }

  lemma {:induction false} StagesAlike(exp: seq<Ty>, p: Parts, m: seq<Ty>, m': seq<Ty>, sl: seq<nat>, tys: seq<Ty>)
    requires |m| == |m'|
    ensures Alike(LowerStages(exp, p, m, sl, tys), LowerStages(exp, p, m', sl, tys))
    decreases p, 0
  {
    hide Lower, Valued;
    if p.Part? && p.test.When? {
      LowerAlike(p.test.cond, m + exp, m' + exp, sl, tys);
      ValuedAlike(p.body, exp, m + exp, m' + exp, sl, tys);
      AlikeSelf(CollectOp(exp));
      StagesAlike(exp, p.rest, m, m', sl, tys);
      var value, value' := Valued(p.body, exp, m + exp, sl, tys), Valued(p.body, exp, m' + exp, sl, tys);
      AlikeSeq(value, value', CollectOp(exp), CollectOp(exp));
      var rest, rest' := LowerStages(exp, p.rest, m, sl, tys), LowerStages(exp, p.rest, m', sl, tys);
      AlikeSeq(Seq(value, CollectOp(exp)), Seq(value', CollectOp(exp)), rest, rest');
      GuardedAlike(Lower(p.test.cond, m + exp, sl, tys), Lower(p.test.cond, m' + exp, sl, tys), Seq(Seq(value, CollectOp(exp)), rest), Seq(Seq(value', CollectOp(exp)), rest'));
    }
  }

  lemma {:induction false} CasesAlike(exp: seq<Ty>, p: Parts, slot: nat, m: seq<Ty>, m': seq<Ty>, sl: seq<nat>, tys: seq<Ty>)
    requires |m| == |m'|
    ensures Alike(LowerCases(exp, p, slot, m, sl, tys), LowerCases(exp, p, slot, m', sl, tys))
    decreases p, 0
  {
    hide Lower, Valued, Clause, Pack2;
    if p.Part? {
      ValuedAlike(p.body, exp, m, m', sl, tys);
      if p.test.When? {
        var t := ResultOf(p.test.cond, tys);
        LowerAlike(p.test.cond, m, m', sl, tys);
        var compare := Op1(CompareEqual, Pack2(slot, |m|));
        assert Alike(Seq(Lower(p.test.cond, m, sl, tys), compare), Seq(Lower(p.test.cond, m', sl, tys), compare));
        ClauseAlike(Seq(Lower(p.test.cond, m, sl, tys), compare), Seq(Lower(p.test.cond, m', sl, tys), compare),
          Seq(EraseSlot(|m|), Valued(p.body, exp, m, sl, tys)), Seq(EraseSlot(|m|), Valued(p.body, exp, m', sl, tys)), m + t, m' + t);
        CasesAlike(exp, p.rest, slot, m, m', sl, tys);
        assert Alike(Seq(EraseSlot(|m|), LowerCases(exp, p.rest, slot, m, sl, tys)), Seq(EraseSlot(|m'|), LowerCases(exp, p.rest, slot, m', sl, tys)));
      }
    }
  }

  lemma {:induction false} WeightsAlike(p: Parts, k: nat, m: seq<Ty>, m': seq<Ty>, sl: seq<nat>, tys: seq<Ty>)
    requires |m| == |m'|
    ensures Alike(LowerWeights(p, k, m, sl, tys), LowerWeights(p, k, m', sl, tys))
    decreases p, 0
  {
    hide Lower, Valued, Pack2;
    if p.Part? && p.test.When? {
      ValuedAlike(p.test.cond, [TFloat], m + Floats(1 + k), m' + Floats(1 + k), sl, tys);
      AlikeSelf(if k == 0 then Nop else Op1(AddToSlot, Pack2(|m| + 1 + k, |m| + k)));
      WeightsAlike(p.rest, k + 1, m, m', sl, tys);
      var add := if k == 0 then Nop else Op1(AddToSlot, Pack2(|m| + 1 + k, |m| + k));
      var rest, rest' := LowerWeights(p.rest, k + 1, m, sl, tys), LowerWeights(p.rest, k + 1, m', sl, tys);
      AlikeSeq(add, add, rest, rest');
      AlikeSelf(Op1(CheckWeight, 0));
      AlikeSeq(Op1(CheckWeight, 0), Op1(CheckWeight, 0), Seq(add, rest), Seq(add, rest'));
    }
  }

  lemma {:induction false} BranchesAlike(exp: seq<Ty>, p: Parts, k: nat, n: nat, m: seq<Ty>, m': seq<Ty>, sl: seq<nat>, tys: seq<Ty>)
    requires |m| == |m'|
    ensures Alike(LowerBranches(exp, p, k, n, m, sl, tys), LowerBranches(exp, p, k, n, m', sl, tys))
    decreases p, 0
  {
    hide Lower, Valued, Clause, Pack2;
    if p.Part? {
      var here, here' := m + Floats(1 + n), m' + Floats(1 + n);
      var compare := Op1(CompareLessEq, Pack2(|m|, |m| + 1 + k));
      ValuedAlike(p.body, exp, here, here', sl, tys);
      ClauseAlike(compare, compare, Valued(p.body, exp, here, sl, tys), Valued(p.body, exp, here', sl, tys), here, here');
      BranchesAlike(exp, p.rest, k + 1, n, m, m', sl, tys);
    }
  }

  lemma {:induction false} EffectsAlike(p: Parts, m: seq<Ty>, m': seq<Ty>, sl: seq<nat>, tys: seq<Ty>)
    requires |m| == |m'|
    ensures Alike(LowerEffects(p, m, sl, tys), LowerEffects(p, m', sl, tys))
    decreases p, 0
  {
    hide Lower;
    if p.Part? {
      LowerAlike(p.body, m, m', sl, tys);
      EffectsAlike(p.rest, m, m', sl, tys);
      var rest, rest' := LowerEffects(p.rest, m, sl, tys), LowerEffects(p.rest, m', sl, tys);
      AlikeSeq(Lower(p.body, m, sl, tys), Lower(p.body, m', sl, tys), rest, rest');
      if p.test.When? {
        LowerAlike(p.test.cond, m, m', sl, tys);
        GuardedAlike(Lower(p.test.cond, m, sl, tys), Lower(p.test.cond, m', sl, tys), Seq(Lower(p.body, m, sl, tys), rest), Seq(Lower(p.body, m', sl, tys), rest'));
      }
    }
  }

  lemma {:induction false} ScopeAlike(body: Expr, t: seq<Ty>, m: seq<Ty>, m': seq<Ty>, sl: seq<nat>, tys: seq<Ty>)
    requires |m| == |m'|
    ensures Alike(Seq(Lower(body, m + t, sl + [|m|], tys + t), EraseSlot(|m|)), Seq(Lower(body, m' + t, sl + [|m'|], tys + t), EraseSlot(|m'|)))
    decreases body, 2
  {
    hide Lower;
    LowerAlike(body, m + t, m' + t, sl + [|m|], tys + t);
  }

  /** The commands of an expression depend on the height it is lowered at, not on the types below. */
  lemma {:induction false} LowerAlike(x: Expr, m: seq<Ty>, m': seq<Ty>, sl: seq<nat>, tys: seq<Ty>)
    requires |m| == |m'|
    ensures Alike(Lower(x, m, sl, tys), Lower(x, m', sl, tys))
    decreases x, 1
  {
    hide LowerArgs, LowerLogic, LowerTerms, LowerSelect, LowerStages, LowerCases, LowerWeights, LowerBranches, LowerEffects, Valued, Clause, Pack2, ResultOf;
    match x
    case Native(_, args) => ArgsAlike(args, m, m', sl, tys);
    case Logic(any, _, kids) => LogicAlike(any, kids, true, m, m', sl, tys);
    case Total(_, op, ty, terms) => TermsAlike(op, ty, terms, !Conditional(terms), m, m', sl, tys);
    case Select(exp, clauses) => SelectAlike(exp, clauses, m, m', sl, tys);
    case Sequence(exp, clauses) =>
      StagesAlike(exp, clauses, m, m', sl, tys);
      AlikeSelf(StartPush(exp));
    case Switch(_, _, _) => SwitchAlike(x, m, m', sl, tys);
    case ValueOr(_, _, _, _) => ValueOrAlike(x, m, m', sl, tys);
    case Random(exp, _, branches) => RandomAlike(x, m, m', sl, tys);
    case Within(scope, body) =>
      LowerAlike(scope, m, m', sl, tys);
      ScopeAlike(body, ResultOf(scope, tys), m, m', sl, tys);
    case WithinValid(_, scope, body) =>
      LowerAlike(scope, m, m', sl, tys);
      ScopeAlike(body, ResultOf(scope, tys), m, m', sl, tys);
      var t, guard := ResultOf(scope, tys), Exit(ScopeGuard, ModeOf(x.ty), 0);
      AlikeSelf(guard);
      AlikeSeq(guard, guard, Seq(Lower(body, m + t, sl + [|m|], tys + t), EraseSlot(|m|)), Seq(Lower(body, m' + t, sl + [|m'|], tys + t), EraseSlot(|m'|)));
    case Effects(children) => EffectsAlike(children, m, m', sl, tys);
    case _ =>
  }

  lemma {:induction false} SwitchAlike(x: Expr, m: seq<Ty>, m': seq<Ty>, sl: seq<nat>, tys: seq<Ty>)
    requires x.Switch? && |m| == |m'|
    ensures Alike(Lower(x, m, sl, tys), Lower(x, m', sl, tys))
    decreases x, 0
  {
    hide LowerCases, ResultOf;
    var exp, value, cases := x.exp, x.value, x.cases;
    var t := ResultOf(value, tys);
    LowerAlike(value, m, m', sl, tys);
    CasesAlike(exp, cases, |m|, m + t, m' + t, sl + [|m|], tys + t);
    var all, all' := LowerCases(exp, cases, |m|, m + t, sl + [|m|], tys + t), LowerCases(exp, cases, |m|, m' + t, sl + [|m|], tys + t);
    AlikeBlock(all, all', m + t + exp, m' + t + exp);
    AlikeSelf(EraseSlot(|m|));
    AlikeSeq(Block(all, m + t + exp), Block(all', m' + t + exp), EraseSlot(|m|), EraseSlot(|m|));
  }

  lemma {:induction false} ValueOrAlike(x: Expr, m: seq<Ty>, m': seq<Ty>, sl: seq<nat>, tys: seq<Ty>)
    requires x.ValueOr? && |m| == |m'|
    ensures Alike(Lower(x, m, sl, tys), Lower(x, m', sl, tys))
    decreases x, 0
  {
    hide Valued, Clause, ResultOf;
    var exp, cond, value, default := x.exp, x.cond, x.value, x.default;
    LowerAlike(cond, m, m', sl, tys);
    ValuedAlike(value, exp, m, m', sl, tys);
    ValuedAlike(default, exp, m, m', sl, tys);
    ClauseAlike(Lower(cond, m, sl, tys), Lower(cond, m', sl, tys), Valued(value, exp, m, sl, tys), Valued(value, exp, m', sl, tys), m, m');
    AlikeSeq(Clause(Lower(cond, m, sl, tys), Valued(value, exp, m, sl, tys), m), Clause(Lower(cond, m', sl, tys), Valued(value, exp, m', sl, tys), m'),
      Valued(default, exp, m, sl, tys), Valued(default, exp, m', sl, tys));
  }

  lemma {:induction false} RandomAlike(x: Expr, m: seq<Ty>, m': seq<Ty>, sl: seq<nat>, tys: seq<Ty>)
    requires x.Random? && |m| == |m'|
    ensures Alike(Lower(x, m, sl, tys), Lower(x, m', sl, tys))
    decreases x, 0
  {
    hide LowerWeights, LowerBranches, Pack2;
    var n := CountParts(x.branches);
    WeightsAlike(x.branches, 0, m, m', sl, tys);
    BranchesAlike(x.exp, x.branches, 0, n, m, m', sl, tys);
    hide Alike;
    var here, here', erase := m + Floats(1 + n) + x.exp, m' + Floats(1 + n) + x.exp, EraseDown(|m|, n);
    var pick, pick' := LowerBranches(x.exp, x.branches, 0, n, m, sl, tys), LowerBranches(x.exp, x.branches, 0, n, m', sl, tys);
    var scale, chance := Op1(MulIntoSlot, Pack2(|m|, |m| + n)), Op1(Chance, x.seed);
    AlikeSelf(erase);
    AlikeSelf(scale);
    AlikeSelf(chance);
    AlikeBlock(pick, pick', here, here');
    AlikeSeq(Block(pick, here), Block(pick', here'), erase, erase);
    AlikeSeq(scale, scale, Seq(Block(pick, here), erase), Seq(Block(pick', here'), erase));
    AlikeSeq(LowerWeights(x.branches, 0, m, sl, tys), LowerWeights(x.branches, 0, m', sl, tys),
      Seq(scale, Seq(Block(pick, here), erase)), Seq(scale, Seq(Block(pick', here'), erase)));
    AlikeSeq(chance, chance, Seq(LowerWeights(x.branches, 0, m, sl, tys), Seq(scale, Seq(Block(pick, here), erase))),
      Seq(LowerWeights(x.branches, 0, m', sl, tys), Seq(scale, Seq(Block(pick', here'), erase))));
  }
}
