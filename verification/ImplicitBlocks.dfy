/**
  Blocks without a name where a number is expected: `{ a b c }`. The generator folds their
  children with the floating-point `sum` or `mul` and checks no type on the way. What type
  it takes the block for, what the safe machine makes of the code, and exactly when the two
  agree.
*/
module ImplicitBlocks {
  import opened Machine
  import opened Blocks
  import opened Lowering
  import opened LoweringTyped
  import opened LoweringMeans
  import opened SameCode
  import Conversions

  // --- the code of the fold -----------------------------------------------------------------------

  predicate ScalarTy(t: seq<Ty>) { t == [TBool] || t == [TInt] || t == [TFloat] }

  /** All that is asked of the children: each yields a scalar, and a condition a truth value. */
  predicate Children(w: World, p: Parts, tys: seq<Ty>) {
    p.Part? ==>
      && Check(w, p.body, tys) && ScalarTy(ResultOf(p.body, tys))
      && (p.test.When? ==> Check(w, p.test.cond, tys) && ResultOf(p.test.cond, tys) == [TBool])
      && Children(w, p.rest, tys)
  }

  predicate Folds(op: Prim, exp: Ty) { (op.Sum? || op.Mul?) && (exp == TInt || exp == TFloat) }

  /** An integer is converted in a floating-point block, a truth value anywhere but in front. */
  function Brought(exp: Ty, first: bool, t: seq<Ty>): seq<Ty> {
    if t == [TInt] && exp == TFloat then [TFloat] else if !first && t == [TBool] then [TFloat] else t
  }

  function FoldValue(op: Prim, exp: Ty, body: Expr, first: bool, m: seq<Ty>, sl: seq<nat>, tys: seq<Ty>): Node {
    TermCode(op, Valued(body, Brought(exp, first, ResultOf(body, tys)), m, sl, tys), first)
  }

  /** A child with a condition is skipped when it fails; behind it the generator sees the result of the fold. */
  function FoldTerm(op: Prim, exp: Ty, test: Test, body: Expr, first: bool, m: seq<Ty>, out: seq<Ty>, sl: seq<nat>, tys: seq<Ty>): Node {
    match test
    case Always => FoldValue(op, exp, body, first, m, sl, tys)
    case When(c) => Block(Seq(Lower(c, m, sl, tys), Seq(Exit(CondJump, 0, 0), FoldValue(op, exp, body, first, m, sl, tys))), out)
  }

  /** The type the generator sees behind one more child. */
  function Folded(exp: Ty, below: seq<Ty>, t: seq<Ty>): seq<Ty> { if below == [] then Brought(exp, true, t) else [TFloat] }

  /** The fold over the types `below` of what was folded so far. */
  function FoldCode(op: Prim, exp: Ty, p: Parts, below: seq<Ty>, m: seq<Ty>, sl: seq<nat>, tys: seq<Ty>): Node
    decreases p
  {
    match p
    case End => Nop
    case Part(test, body, rest) =>
      var next := Folded(exp, below, ResultOf(body, tys));
      Seq(FoldTerm(op, exp, test, body, below == [], m + below, m + next, sl, tys), FoldCode(op, exp, rest, next, m, sl, tys))
  }

  /** With a condition anywhere the fold starts on 0 or 1, of the expected type. */
  function FoldStart(exp: Ty, p: Parts): seq<Ty> { if Conditional(p) then [exp] else [] }

  function FoldBlock(op: Prim, exp: Ty, p: Parts, m: seq<Ty>, sl: seq<nat>, tys: seq<Ty>): Node {
    var folds := FoldCode(op, exp, p, FoldStart(exp, p), m, sl, tys);
    if Conditional(p) then Seq(IdentityPush(op.Mul?, exp), folds) else folds
  }

  // --- the type the generator takes it for ------------------------------------------------------------

  predicate Lone(p: Parts) { p.Part? && p.rest == End && !Conditional(p) }

  function Believed(exp: Ty, p: Parts, below: seq<Ty>, tys: seq<Ty>): seq<Ty>
    decreases p
  {
    if p.End? then below else Believed(exp, p.rest, Folded(exp, below, ResultOf(p.body, tys)), tys)
  }

  lemma {:induction false} BelievedOnce(exp: Ty, p: Parts, tys: seq<Ty>)
    ensures Believed(exp, p, [TFloat], tys) == [TFloat]
  {
    if p.Part? { BelievedOnce(exp, p.rest, tys); }
  }

  /** A lone child keeps its own type, converted if it is an integer in a floating-point block; anything else is a double. */
  lemma BelievedIs(exp: Ty, p: Parts, tys: seq<Ty>)
    requires p.Part? && ScalarTy(ResultOf(p.body, tys))
    ensures Believed(exp, p, FoldStart(exp, p), tys) == if Lone(p) then Brought(exp, true, ResultOf(p.body, tys)) else [TFloat]
  {
    hide ResultOf;
    if p.rest.Part? { BelievedOnce(exp, p.rest.rest, tys); }
    if Conditional(p) { BelievedOnce(exp, p.rest, tys); }
  }

  lemma BroughtConvertible(exp: Ty, first: bool, t: seq<Ty>)
    requires ScalarTy(t)
    ensures Convertible(t, Brought(exp, first, t)) && ScalarTy(Brought(exp, first, t))
  {}

  lemma FoldOpOut(op: Prim, m: seq<Ty>, a: Ty, b: Ty)
    requires op.Sum? || op.Mul?
    ensures OutOf(Op1(op, 0), m + [a] + [b]) == m + [TFloat]
  {
    hide OutOf;
    OpOut(op, m + [a] + [b]);
    assert (m + [a] + [b])[..|m|] == m;
  }

  lemma OpOut(op: Prim, m: seq<Ty>)
    ensures OutOf(Op1(op, 0), m) == PrimOut(op, 0, m)
  {
    hide PrimOut;
  }

  lemma PairOut(x: Node, y: Node, m: seq<Ty>)
    ensures OutOf(Seq(x, y), m) == OutOf(y, OutOf(x, m))
  {
    hide DoOut, ExitOut;
  }

  /** The types behind the code of one child. */
  lemma FoldValueOut(w: World, op: Prim, exp: Ty, body: Expr, below: seq<Ty>, m: seq<Ty>, sl: seq<nat>, tys: seq<Ty>)
    requires Folds(op, exp) && Check(w, body, tys) && ScalarTy(ResultOf(body, tys)) && |below| <= 1 && ScopesOk(m, sl, tys)
    requires Room(w, FoldValue(op, exp, body, below == [], m + below, sl, tys), m + below)
    ensures OutOf(FoldValue(op, exp, body, below == [], m + below, sl, tys), m + below) == m + Folded(exp, below, ResultOf(body, tys))
    ensures Room(w, Valued(body, Brought(exp, below == [], ResultOf(body, tys)), m + below, sl, tys), m + below)
  {
    hide Room, ResultOf, Lower, Check, Valued, Leads, OutOf;
    var here, b := m + below, Brought(exp, below == [], ResultOf(body, tys));
    var value := Valued(body, b, here, sl, tys);
    BroughtConvertible(exp, below == [], ResultOf(body, tys));
    ScopesUnder(m, below, sl, tys);
    if below == [] {
      ValuedTyped(w, body, b, here, sl, tys);
      LeadsHere(w, value, here, here + b, []);
      assert m + [] == m;
    } else {
      RoomSeq(w, value, Op1(op, 0), here);
      ValuedTyped(w, body, b, here, sl, tys);
      LeadsHere(w, value, here, here + b, []);
      PairOut(value, Op1(op, 0), here);
      assert below == [below[0]] && b == [b[0]];
      FoldOpOut(op, m, below[0], b[0]);
    }
  }

  lemma FoldTermOut(w: World, op: Prim, exp: Ty, p: Parts, below: seq<Ty>, m: seq<Ty>, sl: seq<nat>, tys: seq<Ty>)
    requires Folds(op, exp) && p.Part? && Children(w, p, tys) && |below| <= 1 && ScopesOk(m, sl, tys)
    requires var next := m + Folded(exp, below, ResultOf(p.body, tys)); Room(w, FoldTerm(op, exp, p.test, p.body, below == [], m + below, next, sl, tys), m + below)
    ensures var next := m + Folded(exp, below, ResultOf(p.body, tys)); OutOf(FoldTerm(op, exp, p.test, p.body, below == [], m + below, next, sl, tys), m + below) == next
  {
    hide Room, ResultOf, Lower, Check, Valued, FoldValue;
    if p.test.Always? { FoldValueOut(w, op, exp, p.body, below, m, sl, tys); }
  }

  lemma {:induction false} FoldCodeOut(w: World, op: Prim, exp: Ty, p: Parts, below: seq<Ty>, m: seq<Ty>, sl: seq<nat>, tys: seq<Ty>)
    requires Folds(op, exp) && Children(w, p, tys) && |below| <= 1 && ScopesOk(m, sl, tys)
    requires Room(w, FoldCode(op, exp, p, below, m, sl, tys), m + below)
    ensures OutOf(FoldCode(op, exp, p, below, m, sl, tys), m + below) == m + Believed(exp, p, below, tys)
    decreases p
  {
    hide Room, ResultOf, Lower, Check, Valued, FoldTerm, OutOf;
    if p.End? {
      NopOut(m + below);
    } else {
      var next := Folded(exp, below, ResultOf(p.body, tys));
      var term, rest := FoldTerm(op, exp, p.test, p.body, below == [], m + below, m + next, sl, tys), FoldCode(op, exp, p.rest, next, m, sl, tys);
      BroughtConvertible(exp, true, ResultOf(p.body, tys));
      RoomSeq(w, term, rest, m + below);
      FoldTermOut(w, op, exp, p, below, m, sl, tys);
      PairOut(term, rest, m + below);
      FoldCodeOut(w, op, exp, p.rest, next, m, sl, tys);
    }
  }

  lemma NopOut(m: seq<Ty>)
    ensures OutOf(Nop, m) == m
  {}

  lemma IdentityOut(product: bool, exp: Ty, m: seq<Ty>)
    requires exp == TInt || exp == TFloat
    ensures OutOf(IdentityPush(product, exp), m) == m + [exp]
  {}

  lemma FoldBlockOut(w: World, op: Prim, exp: Ty, p: Parts, m: seq<Ty>, sl: seq<nat>, tys: seq<Ty>)
    requires Folds(op, exp) && p.Part? && Children(w, p, tys) && ScopesOk(m, sl, tys) && Room(w, FoldBlock(op, exp, p, m, sl, tys), m)
    ensures OutOf(FoldBlock(op, exp, p, m, sl, tys), m) == m + if Lone(p) then Brought(exp, true, ResultOf(p.body, tys)) else [TFloat]
    ensures Room(w, FoldCode(op, exp, p, FoldStart(exp, p), m, sl, tys), m + FoldStart(exp, p))
  {
    hide Room, ResultOf, Check, FoldCode, OutOf, Believed;
    var folds := FoldCode(op, exp, p, FoldStart(exp, p), m, sl, tys);
    if Conditional(p) {
      RoomSeq(w, IdentityPush(op.Mul?, exp), folds, m);
      IdentityOut(op.Mul?, exp, m);
      PairOut(IdentityPush(op.Mul?, exp), folds, m);
    } else {
      assert m + [] == m;
    }
    FoldCodeOut(w, op, exp, p, FoldStart(exp, p), m, sl, tys);
    BelievedIs(exp, p, tys);
  }

  // --- what the code does -----------------------------------------------------------------------------

  /** Folding one more value in the safe machine: only two doubles can be. */
  function Joined(w: World, op: Prim, acc: seq<Value>, vs: seq<Value>, e: Env): Answer {
    if acc == [] then Gives(vs, e)
    else if |acc| == 1 && |vs| == 1 && acc[0].Float? && vs[0].Float? then Apply(w, op, acc[0], vs[0], e)
    else Raises(TypeMismatch)
  }

  function JoinedAnswer(w: World, op: Prim, acc: seq<Value>, a: Answer): Answer { if a.Gives? then Joined(w, op, acc, a.values, a.env) else a }

  function FoldMeaning(w: World, op: Prim, exp: Ty, p: Parts, acc: seq<Value>, sc: seq<Value>, tys: seq<Ty>, e: Env): Answer
    decreases p
  {
    match p
    case End => Gives(acc, e)
    case Part(test, body, rest) =>
      match Holds(w, test, sc, e)
      case Gives(c, e1) =>
        if c == [Bool(false)] then FoldMeaning(w, op, exp, rest, acc, sc, tys, e1)
        else
          (match JoinedAnswer(w, op, acc, Converted(w, Brought(exp, acc == [], ResultOf(body, tys)), Meaning(w, body, sc, e1)))
           case Gives(vs, e2) => FoldMeaning(w, op, exp, rest, vs, sc, tys, e2)
           case other => other)
      case other => other
  }

  function StartValue(w: World, op: Prim, exp: Ty, p: Parts): seq<Value> { if Conditional(p) then [Identity(w, op.Mul?, exp)] else [] }

  function TypesOf(vs: seq<Value>): (r: seq<Ty>)
    ensures TagsMatch(vs, r)
  {
    seq(|vs|, i requires 0 <= i < |vs| => TypeOf(vs[i]))
  }

  /** Code lowered for one stack, run on another of the same height. */
  lemma RoomAlike(w: World, a: Node, b: Node, m: seq<Ty>, m': seq<Ty>)
    requires Alike(a, b) && |m| == |m'| && Room(w, a, m)
    ensures Room(w, b, m')
  {
    AlikeHeights(a, b, m, m');
  }

  lemma LowerAnyway(w: World, x: Expr, m: seq<Ty>, found: seq<Ty>, sl: seq<nat>, tys: seq<Ty>, sc: seq<Value>, s: seq<Value>, e: Env)
    requires Check(w, x, tys) && |m| == |found| && Ready(w, found, sl, tys, s, sc) && Room(w, Lower(x, m, sl, tys), m)
    ensures Yields(Exec(w, Lower(x, m, sl, tys), s, e), s, Meaning(w, x, sc, e)) && Tagged(Meaning(w, x, sc, e), ResultOf(x, tys))
  {
    hide Check, Room, Ready, Exec, Meaning, Lower, ResultOf, Alike;
    LowerAlike(x, m, found, sl, tys);
    RoomAlike(w, Lower(x, m, sl, tys), Lower(x, found, sl, tys), m, found);
    AlikeRuns(w, Lower(x, m, sl, tys), Lower(x, found, sl, tys), s, e);
    LowerMeans(w, x, found, sl, tys, sc, s, e);
  }

  lemma ValuedAnyway(w: World, x: Expr, exp: seq<Ty>, m: seq<Ty>, found: seq<Ty>, sl: seq<nat>, tys: seq<Ty>, sc: seq<Value>, s: seq<Value>, e: Env)
    requires Check(w, x, tys) && Convertible(ResultOf(x, tys), exp) && |m| == |found| && Ready(w, found, sl, tys, s, sc) && Room(w, Valued(x, exp, m, sl, tys), m)
    ensures var a := Converted(w, exp, Meaning(w, x, sc, e)); Yields(Exec(w, Valued(x, exp, m, sl, tys), s, e), s, a) && Tagged(a, exp)
  {
    hide Check, Room, Ready, Exec, Meaning, Valued, ResultOf, Alike, Convertible, Converted;
    ValuedAlike(x, exp, m, found, sl, tys);
    RoomAlike(w, Valued(x, exp, m, sl, tys), Valued(x, exp, found, sl, tys), m, found);
    AlikeRuns(w, Valued(x, exp, m, sl, tys), Valued(x, exp, found, sl, tys), s, e);
    ValuedMeans(w, x, exp, found, sl, tys, sc, s, e);
  }

  lemma FoldOpRuns(w: World, op: Prim, s: seq<Value>, a: Value, b: Value, e: Env)
    requires w.safe && (op.Sum? || op.Mul?) && |s| < w.capacity
    ensures Yields(Exec(w, Op1(op, 0), s + [a] + [b], e), s, Joined(w, op, [a], [b], e))
  {
    if a.Float? && b.Float? { ExecFoldFloat(w, op, s, a, b, e); } else { TwoOnTop(s, a, b); }
  }

  lemma JoinsOne(w: World, op: Prim, acc: seq<Value>, a: Answer)
    requires (op.Sum? || op.Mul?) && acc != []
    ensures var r := JoinedAnswer(w, op, acc, a); r.Gives? ==> |r.values| == 1
  {}

  /** One child that is not skipped. */
  lemma FoldValueRuns(w: World, op: Prim, exp: Ty, body: Expr, acc: seq<Value>, below: seq<Ty>, m: seq<Ty>, sl: seq<nat>, tys: seq<Ty>,
                      sc: seq<Value>, s: seq<Value>, e: Env)
    requires w.safe && Folds(op, exp) && Check(w, body, tys) && ScalarTy(ResultOf(body, tys)) && |acc| == |below| <= 1 && Ready(w, m, sl, tys, s, sc)
    requires Room(w, FoldValue(op, exp, body, below == [], m + below, sl, tys), m + below)
    ensures Yields(Exec(w, FoldValue(op, exp, body, below == [], m + below, sl, tys), s + acc, e), s,
      JoinedAnswer(w, op, acc, Converted(w, Brought(exp, acc == [], ResultOf(body, tys)), Meaning(w, body, sc, e))))
    ensures var a := JoinedAnswer(w, op, acc, Converted(w, Brought(exp, acc == [], ResultOf(body, tys)), Meaning(w, body, sc, e))); a.Gives? ==> |a.values| == 1
  {
    hide Check, Room, Ready, Exec, Meaning, Valued, ResultOf, Convertible, Converted, Apply;
    var here, b := m + below, Brought(exp, below == [], ResultOf(body, tys));
    ReadyIs(w, m, sl, tys, s, sc);
    BroughtConvertible(exp, below == [], ResultOf(body, tys));
    FoldValueOut(w, op, exp, body, below, m, sl, tys);
    ReadyMore(w, m, sl, tys, s, sc, acc, TypesOf(acc));
    ValuedAnyway(w, body, b, here, m + TypesOf(acc), sl, tys, sc, s + acc, e);
    var a := Converted(w, b, Meaning(w, body, sc, e));
    assert a.Gives? ==> |a.values| == 1;
    if below == [] {
      EmptyOnTop(s);
    } else {
      JoinsOne(w, op, acc, a);
      RoomSeq(w, Valued(body, b, here, sl, tys), Op1(op, 0), here);
      RoomSize(w, Valued(body, b, here, sl, tys), here);
      ExecSeq(w, Valued(body, b, here, sl, tys), Op1(op, 0), s + acc, e);
      if a.Gives? {
        assert acc == [acc[0]] && a.values == [a.values[0]];
        FoldOpRuns(w, op, s, acc[0], a.values[0], a.env);
      }
    }
  }

  /** One child, skipped or not: what is on top of `s` behind it. */
  lemma FoldTermRuns(w: World, op: Prim, exp: Ty, p: Parts, acc: seq<Value>, below: seq<Ty>, m: seq<Ty>, sl: seq<nat>, tys: seq<Ty>,
                     sc: seq<Value>, s: seq<Value>, e: Env) returns (a: Answer)
    requires w.safe && Folds(op, exp) && p.Part? && Children(w, p, tys) && |acc| == |below| <= 1 && Ready(w, m, sl, tys, s, sc)
    requires below == [] ==> p.test.Always?
    requires var next := m + Folded(exp, below, ResultOf(p.body, tys)); Room(w, FoldTerm(op, exp, p.test, p.body, below == [], m + below, next, sl, tys), m + below)
    ensures var next := m + Folded(exp, below, ResultOf(p.body, tys));
      Yields(Exec(w, FoldTerm(op, exp, p.test, p.body, below == [], m + below, next, sl, tys), s + acc, e), s, a)
    ensures a.Gives? ==> |a.values| == 1
    ensures FoldMeaning(w, op, exp, p, acc, sc, tys, e) == if a.Gives? then FoldMeaning(w, op, exp, p.rest, a.values, sc, tys, a.env) else a
  {
    hide Check, Room, Ready, Exec, Meaning, FoldValue, ResultOf, Converted, JoinedAnswer, Lower, Brought;
    var here, next := m + below, m + Folded(exp, below, ResultOf(p.body, tys));
    if p.test.Always? {
      FoldValueRuns(w, op, exp, p.body, acc, below, m, sl, tys, sc, s, e);
      a := JoinedAnswer(w, op, acc, Converted(w, Brought(exp, acc == [], ResultOf(p.body, tys)), Meaning(w, p.body, sc, e)));
    } else {
      var test, code := Lower(p.test.cond, here, sl, tys), FoldValue(op, exp, p.body, below == [], here, sl, tys);
      RoomBlock(w, Seq(test, Seq(Exit(CondJump, 0, 0), code)), next, here);
      RoomSeq(w, test, Seq(Exit(CondJump, 0, 0), code), here);
      ReadyIs(w, m, sl, tys, s, sc);
      ScopesUnder(m, below, sl, tys);
      LowerTyped(w, p.test.cond, here, sl, tys);
      LeadsHere(w, test, here, here + [TBool], []);
      RoomSkip(w, test, code, here, here);
      ReadyMore(w, m, sl, tys, s, sc, acc, TypesOf(acc));
      LowerAnyway(w, p.test.cond, here, m + TypesOf(acc), sl, tys, sc, s + acc, e);
      ExecSeq(w, test, Seq(Exit(CondJump, 0, 0), code), s + acc, e);
      ExecBlock(w, Seq(test, Seq(Exit(CondJump, 0, 0), code)), next, s + acc, e);
      a := Meaning(w, p.test.cond, sc, e);
      if a.Gives? {
        var b, e1 := a.values[0].b, a.env;
        assert a.values == [Bool(b)];
        ExecTest(w, code, s + acc, b, e1);
        if b {
          FoldValueRuns(w, op, exp, p.body, acc, below, m, sl, tys, sc, s, e1);
          a := JoinedAnswer(w, op, acc, Converted(w, Brought(exp, acc == [], ResultOf(p.body, tys)), Meaning(w, p.body, sc, e1)));
        } else {
          a := Gives(acc, e1);
        }
      }
    }
  }

  lemma {:induction false} FoldCodeRuns(w: World, op: Prim, exp: Ty, p: Parts, acc: seq<Value>, below: seq<Ty>, m: seq<Ty>, sl: seq<nat>, tys: seq<Ty>,
                                        sc: seq<Value>, s: seq<Value>, e: Env)
    requires w.safe && Folds(op, exp) && Children(w, p, tys) && |acc| == |below| <= 1 && Ready(w, m, sl, tys, s, sc)
    requires below == [] ==> !Conditional(p)
    requires Room(w, FoldCode(op, exp, p, below, m, sl, tys), m + below)
    ensures Yields(Exec(w, FoldCode(op, exp, p, below, m, sl, tys), s + acc, e), s, FoldMeaning(w, op, exp, p, acc, sc, tys, e))
    decreases p
  {
    hide Check, Room, Ready, Exec, FoldTerm, ResultOf, FoldMeaning;
    if p.End? {
      ExecNop(w, s + acc, e);
      FoldMeansNone(w, op, exp, acc, sc, tys, e);
    } else {
      var next := Folded(exp, below, ResultOf(p.body, tys));
      var term, rest := FoldTerm(op, exp, p.test, p.body, below == [], m + below, m + next, sl, tys), FoldCode(op, exp, p.rest, next, m, sl, tys);
      BroughtConvertible(exp, true, ResultOf(p.body, tys));
      ReadyIs(w, m, sl, tys, s, sc);
      RoomSeq(w, term, rest, m + below);
      FoldTermOut(w, op, exp, p, below, m, sl, tys);
      ExecSeq(w, term, rest, s + acc, e);
      var a := FoldTermRuns(w, op, exp, p, acc, below, m, sl, tys, sc, s, e);
      if a.Gives? { FoldCodeRuns(w, op, exp, p.rest, a.values, next, m, sl, tys, sc, s, a.env); }
    }
  }

  lemma FoldMeansNone(w: World, op: Prim, exp: Ty, acc: seq<Value>, sc: seq<Value>, tys: seq<Ty>, e: Env)
    ensures FoldMeaning(w, op, exp, End, acc, sc, tys, e) == Gives(acc, e)
  {}

  lemma IdentityRuns(w: World, product: bool, exp: Ty, s: seq<Value>, e: Env)
    requires |s| < w.capacity && (exp == TInt || exp == TFloat)
    ensures Exec(w, IdentityPush(product, exp), s, e) == Fell(s + [Identity(w, product, exp)], e)
  {}

  /** The whole block in the safe machine, whatever the types of its children: `FoldMeaning`. */
  lemma FoldBlockRuns(w: World, op: Prim, exp: Ty, p: Parts, m: seq<Ty>, sl: seq<nat>, tys: seq<Ty>, sc: seq<Value>, s: seq<Value>, e: Env)
    requires w.safe && Folds(op, exp) && p.Part? && Children(w, p, tys) && Ready(w, m, sl, tys, s, sc) && Room(w, FoldBlock(op, exp, p, m, sl, tys), m)
    ensures Yields(Exec(w, FoldBlock(op, exp, p, m, sl, tys), s, e), s, FoldMeaning(w, op, exp, p, StartValue(w, op, exp, p), sc, tys, e))
  {
    hide Check, Room, Ready, Exec, FoldCode, ResultOf, FoldMeaning, Children, Identity;
    ReadyIs(w, m, sl, tys, s, sc);
    FoldBlockOut(w, op, exp, p, m, sl, tys);
    var start, folds := StartValue(w, op, exp, p), FoldCode(op, exp, p, FoldStart(exp, p), m, sl, tys);
    FoldCodeRuns(w, op, exp, p, start, FoldStart(exp, p), m, sl, tys, sc, s, e);
    if Conditional(p) {
      RoomSize(w, folds, m + [exp]);
      IdentityRuns(w, op.Mul?, exp, s, e);
      ExecSeq(w, IdentityPush(op.Mul?, exp), folds, s, e);
    } else {
      EmptyOnTop(s);
    }
  }

  // --- where an integer is expected -----------------------------------------------------------------------

  function TypeId(ty: Ty): nat {
    match ty
    case TBool => 0
    case TInt => 1
    case TFloat => 2
    case TString => 3
    case TContext => 4
    case TNone => 5
    case TObject(k) => 6 + k
  }

  /** A value of one type is taken where another is expected if the registry has a chain of conversions. */
  ghost predicate Registered(g: Conversions.Graph, from: Ty, ty: Ty) {
    from == ty || exists p :: Conversions.Chain(g, TypeId(from), p, TypeId(ty)) && Conversions.Cost(p) <= INT32_MAX
  }

  /** The one conversion every system has: from integers to floating point. */
  const DEFAULT_REGISTRY: Conversions.Graph := map[1 := [Conversions.Edge(1, 2, 1, 0)]]

  /** A consumer's registry that also narrows. */
  const NARROWING_REGISTRY: Conversions.Graph := map[1 := [Conversions.Edge(1, 2, 1, 0)], 2 := [Conversions.Edge(2, 1, 1, 1)]]

  /** By default doubles are no integers, and truth values are no numbers. */
  lemma DefaultRegisters()
    ensures !Registered(DEFAULT_REGISTRY, TFloat, TInt) && !Registered(DEFAULT_REGISTRY, TBool, TInt) && !Registered(DEFAULT_REGISTRY, TBool, TFloat)
  {
    forall p: seq<Conversions.Edge> ensures !Conversions.Chain(DEFAULT_REGISTRY, 2, p, 1) && !Conversions.Chain(DEFAULT_REGISTRY, 0, p, 1) {
      if p != [] && p[|p| - 1] in Conversions.EdgesOf(DEFAULT_REGISTRY, p[|p| - 1].source) { assert p[|p| - 1].target == 2; }
    }
    forall p: seq<Conversions.Edge> ensures !Conversions.Chain(DEFAULT_REGISTRY, 0, p, 2) {
      if Conversions.Chain(DEFAULT_REGISTRY, 0, p, 2) { FromBool(p, 2); }
    }
  }

  /** No conversion starts at truth values. */
  lemma {:induction false} FromBool(p: seq<Conversions.Edge>, t: nat)
    requires Conversions.Chain(DEFAULT_REGISTRY, 0, p, t)
    ensures p == []
    decreases |p|
  {
    if p != [] {
      FromBool(p[..|p| - 1], p[|p| - 1].source);
      assert false;
    }
  }

  lemma NarrowingNarrows()
    ensures Registered(NARROWING_REGISTRY, TFloat, TInt)
  {
    var e := Conversions.Edge(2, 1, 1, 1);
    assert [e][..0] == [];
    assert Conversions.Chain(NARROWING_REGISTRY, 2, [], 2);
    assert Conversions.Chain(NARROWING_REGISTRY, 2, [e], 1) && Conversions.Cost([e]) == 1;
  }

  /** The children are integers. */
  predicate Integers(p: Parts, tys: seq<Ty>) { p.Part? ==> ResultOf(p.body, tys) == [TInt] && Integers(p.rest, tys) }

  /**
    Where an integer is expected, a lone child without a condition is taken as what it is, and
    any other block exactly when the registry narrows doubles, which the default one does not.
    Of integers, then, one alone is taken, and nothing else is by default.
  */
  lemma IntegerFoldTaken(w: World, g: Conversions.Graph, op: Prim, p: Parts, m: seq<Ty>, sl: seq<nat>, tys: seq<Ty>)
    requires (op.Sum? || op.Mul?) && p.Part? && Children(w, p, tys) && ScopesOk(m, sl, tys) && Room(w, FoldBlock(op, TInt, p, m, sl, tys), m)
    ensures var t := if Lone(p) then ResultOf(p.body, tys) else [TFloat];
      && OutOf(FoldBlock(op, TInt, p, m, sl, tys), m) == m + t && |t| == 1
      && (Integers(p, tys) ==> (Registered(g, t[0], TInt) <==> Lone(p) || Registered(g, TFloat, TInt)))
    ensures !Registered(DEFAULT_REGISTRY, TFloat, TInt)
  {
    hide Room, ResultOf, Check, FoldBlock, OutOf;
    FoldBlockOut(w, op, TInt, p, m, sl, tys);
    DefaultRegisters();
  }

  /** The conditions in order: a mismatch at the first child that holds, the identity when none does. */
  function FirstHolding(w: World, p: Parts, start: Value, sc: seq<Value>, e: Env): Answer
    decreases p
  {
    match p
    case End => Gives([start], e)
    case Part(test, body, rest) =>
      match Holds(w, test, sc, e)
      case Gives(c, e1) =>
        if c == [Bool(false)] then FirstHolding(w, rest, start, sc, e1)
        else (match Meaning(w, body, sc, e1) case Gives(_, e2) => Raises(TypeMismatch) case other => other)
      case other => other
  }

  lemma NothingJoins(w: World, op: Prim, start: Value, a: Answer)
    requires start.Int?
    ensures JoinedAnswer(w, op, [start], a) == if a.Gives? then Raises(TypeMismatch) else a
  {}

  lemma {:induction false} IntegerUnder(w: World, op: Prim, p: Parts, start: Value, sc: seq<Value>, tys: seq<Ty>, e: Env)
    requires start.Int?
    ensures FoldMeaning(w, op, TInt, p, [start], sc, tys, e) == FirstHolding(w, p, start, sc, e)
    decreases p
  {
    hide Meaning, Holds, Convert, ResultOf, JoinedAnswer;
    if p.Part? {
      var t := Holds(w, p.test, sc, e);
      if t.Gives? {
        if t.values == [Bool(false)] { IntegerUnder(w, op, p.rest, start, sc, tys, t.env); }
        else { NothingJoins(w, op, start, Converted(w, Brought(TInt, false, ResultOf(p.body, tys)), Meaning(w, p.body, sc, t.env))); }
      }
    }
  }

  /**
    What an integer block does when it runs. With a condition on some child: a type mismatch at
    the first child whose condition holds; when none holds, the integer it started on is left
    where the generator believes a double. Without: one child is its value; with more the
    first two children fail with a type mismatch unless the first is a double and the second
    no integer.
  */
  lemma IntegerFoldEnds(w: World, op: Prim, p: Parts, m: seq<Ty>, sl: seq<nat>, tys: seq<Ty>, sc: seq<Value>, s: seq<Value>, e: Env)
    requires w.safe && (op.Sum? || op.Mul?) && p.Part? && Children(w, p, tys)
    requires Ready(w, m, sl, tys, s, sc) && Room(w, FoldBlock(op, TInt, p, m, sl, tys), m)
    ensures Conditional(p) ==> Yields(Exec(w, FoldBlock(op, TInt, p, m, sl, tys), s, e), s, FirstHolding(w, p, Int(if op.Mul? then 1 else 0), sc, e))
    ensures Lone(p) ==> Yields(Exec(w, FoldBlock(op, TInt, p, m, sl, tys), s, e), s, Meaning(w, p.body, sc, e))
    ensures !Conditional(p) && p.rest.Part? ==>
      var a := Meaning(w, p.body, sc, e);
      a.Gives? && Meaning(w, p.rest.body, sc, a.env).Gives? && !(ResultOf(p.body, tys) == [TFloat] && ResultOf(p.rest.body, tys) != [TInt]) ==>
        Exec(w, FoldBlock(op, TInt, p, m, sl, tys), s, e) == Threw(TypeMismatch)
  {
    hide Room, Exec, Ready, ResultOf, Check, Meaning, FoldBlock, FirstHolding, FoldMeaning;
    FoldBlockRuns(w, op, TInt, p, m, sl, tys, sc, s, e);
    if Conditional(p) {
      IntegerUnder(w, op, p, Int(if op.Mul? then 1 else 0), sc, tys, e);
    } else {
      FoldFirst(w, op, TInt, p, m, sl, tys, sc, s, e);
    }
  }

  /** A lone child: its value, converted if it is an integer in a floating-point block. */
  lemma FoldLone(w: World, op: Prim, exp: Ty, p: Parts, sc: seq<Value>, tys: seq<Ty>, e: Env)
    requires Lone(p)
    ensures FoldMeaning(w, op, exp, p, [], sc, tys, e) == Converted(w, Brought(exp, true, ResultOf(p.body, tys)), Meaning(w, p.body, sc, e))
  {
    hide Meaning, ResultOf, Converted;
  }

  /** The values of the first two children of a fold without conditions meet. */
  lemma FoldPair(w: World, op: Prim, exp: Ty, p: Parts, sc: seq<Value>, tys: seq<Ty>, e: Env)
    requires p.Part? && p.rest.Part? && !Conditional(p)
    ensures var a := Converted(w, Brought(exp, true, ResultOf(p.body, tys)), Meaning(w, p.body, sc, e));
      a.Gives? && |a.values| == 1 ==>
        var b := Converted(w, Brought(exp, false, ResultOf(p.rest.body, tys)), Meaning(w, p.rest.body, sc, a.env));
        b.Gives? && |b.values| == 1 && !(a.values[0].Float? && b.values[0].Float?) ==> FoldMeaning(w, op, exp, p, [], sc, tys, e) == Raises(TypeMismatch)
  {
    hide Meaning, ResultOf, Converted;
  }

  /** The room of the first two children. */
  lemma FoldRooms(w: World, op: Prim, exp: Ty, p: Parts, m: seq<Ty>, sl: seq<nat>, tys: seq<Ty>)
    requires Folds(op, exp) && p.Part? && Children(w, p, tys) && !Conditional(p) && ScopesOk(m, sl, tys) && Room(w, FoldBlock(op, exp, p, m, sl, tys), m)
    ensures Room(w, Valued(p.body, Brought(exp, true, ResultOf(p.body, tys)), m, sl, tys), m)
    ensures p.rest.Part? ==>
      var next := m + Brought(exp, true, ResultOf(p.body, tys));
      Room(w, Valued(p.rest.body, Brought(exp, false, ResultOf(p.rest.body, tys)), next, sl, tys), next)
  {
    hide Room, ResultOf, Check, Valued, OutOf;
    var next := Brought(exp, true, ResultOf(p.body, tys));
    assert m + [] == m;
    RoomSeq(w, FoldTerm(op, exp, p.test, p.body, true, m, m + next, sl, tys), FoldCode(op, exp, p.rest, next, m, sl, tys), m);
    if p.rest.Part? {
      FoldTermOut(w, op, exp, p, [], m, sl, tys);
      var t := ResultOf(p.rest.body, tys);
      RoomSeq(w, FoldTerm(op, exp, Always, p.rest.body, false, m + next, m + [TFloat], sl, tys), FoldCode(op, exp, p.rest.rest, [TFloat], m, sl, tys), m + next);
      RoomSeq(w, Valued(p.rest.body, Brought(exp, false, t), m + next, sl, tys), Op1(op, 0), m + next);
    }
  }

  lemma FoldFirst(w: World, op: Prim, exp: Ty, p: Parts, m: seq<Ty>, sl: seq<nat>, tys: seq<Ty>, sc: seq<Value>, s: seq<Value>, e: Env)
    requires w.safe && Folds(op, exp) && p.Part? && Children(w, p, tys) && !Conditional(p)
    requires Ready(w, m, sl, tys, s, sc) && Room(w, FoldBlock(op, exp, p, m, sl, tys), m)
    ensures Lone(p) && Brought(exp, true, ResultOf(p.body, tys)) == ResultOf(p.body, tys) ==> FoldMeaning(w, op, exp, p, [], sc, tys, e) == Meaning(w, p.body, sc, e)
    ensures p.rest.Part? ==>
      var a := Meaning(w, p.body, sc, e);
      a.Gives? && Meaning(w, p.rest.body, sc, a.env).Gives?
      && !(Brought(exp, true, ResultOf(p.body, tys)) == [TFloat] && Brought(exp, false, ResultOf(p.rest.body, tys)) == [TFloat]) ==>
        FoldMeaning(w, op, exp, p, [], sc, tys, e) == Raises(TypeMismatch)
  {
    hide Room, Exec, Ready, ResultOf, Check, Meaning, FoldBlock, FoldMeaning, Convert, Valued, Brought;
    ReadyIs(w, m, sl, tys, s, sc);
    FoldRooms(w, op, exp, p, m, sl, tys);
    var t, b := ResultOf(p.body, tys), Brought(exp, true, ResultOf(p.body, tys));
    BroughtConvertible(exp, true, t);
    ValuedMeans(w, p.body, b, m, sl, tys, sc, s, e);
    var a := Converted(w, b, Meaning(w, p.body, sc, e));
    if p.rest.End? {
      FoldLone(w, op, exp, p, sc, tys, e);
      PlainMeans(w, p.body, m, sl, tys, sc, s, e, b);
    } else if a.Gives? {
      var t2, b2 := ResultOf(p.rest.body, tys), Brought(exp, false, ResultOf(p.rest.body, tys));
      BroughtConvertible(exp, false, t2);
      ReadyMore(w, m, sl, tys, s, sc, a.values, b);
      ValuedMeans(w, p.rest.body, b2, m + b, sl, tys, sc, s + a.values, a.env);
      FoldPair(w, op, exp, p, sc, tys, e);
    }
  }

  /** A value that needs no conversion is the meaning itself. */
  lemma PlainMeans(w: World, x: Expr, m: seq<Ty>, sl: seq<nat>, tys: seq<Ty>, sc: seq<Value>, s: seq<Value>, e: Env, b: seq<Ty>)
    requires Check(w, x, tys) && ScalarTy(ResultOf(x, tys)) && Ready(w, m, sl, tys, s, sc) && Room(w, Valued(x, b, m, sl, tys), m)
    ensures b == ResultOf(x, tys) ==> Converted(w, b, Meaning(w, x, sc, e)) == Meaning(w, x, sc, e)
  {
    hide Room, Exec, Ready, ResultOf, Check, Meaning, Lower;
    RoomSeq(w, Lower(x, m, sl, tys), Coerce(ResultOf(x, tys), b), m);
    LowerMeans(w, x, m, sl, tys, sc, s, e);
    var a := Meaning(w, x, sc, e);
    if b == ResultOf(x, tys) && a.Gives? {
      CastSame(w, a.values[0]);
      assert a.values == [a.values[0]] && b == [TypeOf(a.values[0])];
    }
  }

  // --- where a double is expected --------------------------------------------------------------------------

  lemma {:induction false} TermsChecked(w: World, p: Parts, tys: seq<Ty>)
    requires Children(w, p, tys)
    ensures CheckParts(w, Term([TFloat]), p, tys)
    decreases p
  {
    hide Check, ResultOf;
    if p.Part? { TermsChecked(w, p.rest, tys); }
  }

  /** From a double on, the fold of the block is the fold of ADD and MUL. */
  lemma {:induction false} FoldIsTerms(op: Prim, p: Parts, w: World, m: seq<Ty>, sl: seq<nat>, tys: seq<Ty>)
    requires Children(w, p, tys)
    ensures FoldCode(op, TFloat, p, [TFloat], m, sl, tys) == LowerTerms(op, TFloat, p, false, m, sl, tys)
    decreases p
  {
    hide Check, ResultOf, Lower, Valued, TermCode;
    if p.Part? { FoldIsTerms(op, p.rest, w, m, sl, tys); }
  }

  /** The block is `ADD` or `MUL` of its children unless a truth value stands in front of an unconditional fold. */
  lemma FoldIsTotal(w: World, op: Prim, p: Parts, m: seq<Ty>, sl: seq<nat>, tys: seq<Ty>)
    requires Folds(op, TFloat) && p.Part? && Children(w, p, tys) && FirstOk(op, p, tys)
    ensures FoldBlock(op, TFloat, p, m, sl, tys) == Lower(Total(op.Mul?, op, TFloat, p), m, sl, tys)
    ensures Check(w, Total(op.Mul?, op, TFloat, p), tys)
  {
    hide ResultOf, Valued, TermCode;
    TermsChecked(w, p, tys);
    if Conditional(p) {
      FoldIsTerms(op, p, w, m, sl, tys);
    } else {
      FoldIsTerms(op, p.rest, w, m, sl, tys);
      assert m + [] == m;
    }
  }

  /** What the children of a fold without conditions must have given for the fold to give a value. */
  lemma TotalGives(w: World, op: Prim, p: Parts, sc: seq<Value>, e: Env)
    requires (op.Sum? || op.Mul?) && p.Part? && !Conditional(p) && Meaning(w, Total(op.Mul?, op, TFloat, p), sc, e).Gives?
    ensures var a := Meaning(w, p.body, sc, e); a.Gives? && (p.rest.Part? ==> Meaning(w, p.rest.body, sc, a.env).Gives?)
    ensures p.rest.End? ==> Meaning(w, Total(op.Mul?, op, TFloat, p), sc, e) == Converted(w, [TFloat], Meaning(w, p.body, sc, e))
  {
    hide Convert, Apply;
    var a := Converted(w, [TFloat], Meaning(w, p.body, sc, e));
    assert Accumulate(w, op, TFloat, p, [], sc, e) == if a.Gives? then Accumulate(w, op, TFloat, p.rest, a.values, sc, a.env) else a;
  }

  /**
    A floating-point block does what adding up or multiplying its children means exactly when
    no truth value stands in front of a fold without conditions.
  */
  lemma FirstOkExactly(w: World, op: Prim, p: Parts, m: seq<Ty>, sl: seq<nat>, tys: seq<Ty>, sc: seq<Value>, s: seq<Value>, e: Env)
    requires w.safe && Folds(op, TFloat) && p.Part? && Children(w, p, tys)
    requires Ready(w, m, sl, tys, s, sc) && Room(w, FoldBlock(op, TFloat, p, m, sl, tys), m)
    requires Meaning(w, Total(op.Mul?, op, TFloat, p), sc, e).Gives?
    ensures Yields(Exec(w, FoldBlock(op, TFloat, p, m, sl, tys), s, e), s, Meaning(w, Total(op.Mul?, op, TFloat, p), sc, e)) <==> FirstOk(op, p, tys)
  {
    hide Room, Exec, Ready, ResultOf, Check, Meaning, FoldBlock, FoldMeaning, Lower;
    if FirstOk(op, p, tys) {
      FoldIsTotal(w, op, p, m, sl, tys);
      LowerMeans(w, Total(op.Mul?, op, TFloat, p), m, sl, tys, sc, s, e);
    } else {
      TotalGives(w, op, p, sc, e);
      FoldBlockRuns(w, op, TFloat, p, m, sl, tys, sc, s, e);
      FoldFirst(w, op, TFloat, p, m, sl, tys, sc, s, e);
      if p.rest.End? {
        BoolAlone(w, op, p, m, sl, tys, sc, s, e);
        SameTop(s, Meaning(w, p.body, sc, e).values, Converted(w, [TFloat], Meaning(w, p.body, sc, e)).values);
      }
    }
  }

  lemma SameTop(s: seq<Value>, a: seq<Value>, b: seq<Value>)
    ensures s + a == s + b ==> a == b
  {
    assert (s + a)[|s|..] == a && (s + b)[|s|..] == b;
  }

  /**
    A lone truth value is left one. The generator knows: the block is typed as a truth value.
    As an argument it is converted and counts as the number the block means; where only the
    registry converts, as for the value of a row, it is rejected by default.
  */
  lemma BoolAlone(w: World, op: Prim, p: Parts, m: seq<Ty>, sl: seq<nat>, tys: seq<Ty>, sc: seq<Value>, s: seq<Value>, e: Env)
    requires w.safe && Folds(op, TFloat) && Lone(p) && Children(w, p, tys) && ResultOf(p.body, tys) == [TBool]
    requires Ready(w, m, sl, tys, s, sc) && Room(w, FoldBlock(op, TFloat, p, m, sl, tys), m)
    ensures OutOf(FoldBlock(op, TFloat, p, m, sl, tys), m) == m + [TBool]
    ensures var a := Meaning(w, p.body, sc, e); Yields(Exec(w, FoldBlock(op, TFloat, p, m, sl, tys), s, e), s, a) && Tagged(a, [TBool])
    ensures Widens([TBool], [TFloat]) && !Registered(DEFAULT_REGISTRY, TBool, TFloat)
    ensures Yields(Exec(w, Seq(FoldBlock(op, TFloat, p, m, sl, tys), Coerce([TBool], [TFloat])), s, e), s, Converted(w, [TFloat], Meaning(w, p.body, sc, e)))
    ensures Meaning(w, p.body, sc, e).Gives? ==> Converted(w, [TFloat], Meaning(w, p.body, sc, e)) != Meaning(w, p.body, sc, e)
  {
    hide Room, Exec, Ready, ResultOf, Check, Meaning, FoldMeaning, Lower, Registered;
    DefaultRegisters();
    ReadyIs(w, m, sl, tys, s, sc);
    FoldBlockOut(w, op, TFloat, p, m, sl, tys);
    FoldBlockRuns(w, op, TFloat, p, m, sl, tys, sc, s, e);
    FoldFirst(w, op, TFloat, p, m, sl, tys, sc, s, e);
    FoldRooms(w, op, TFloat, p, m, sl, tys);
    RoomSeq(w, Lower(p.body, m, sl, tys), Nop, m);
    LowerMeans(w, p.body, m, sl, tys, sc, s, e);
    LowerTyped(w, p.body, m, sl, tys);
    LeadsHere(w, Lower(p.body, m, sl, tys), m, m + [TBool], []);
    RoomSize(w, Nop, m + [TBool]);
    var a := Meaning(w, p.body, sc, e);
    ExecSeq(w, FoldBlock(op, TFloat, p, m, sl, tys), Coerce([TBool], [TFloat]), s, e);
    if a.Gives? {
      ExecConvert(w, [TBool], [TFloat], m, s, a.values, a.env);
      assert a.values == [a.values[0]] && a.values[0].Bool?;
    }
  }

  /** With a second child the generator takes the block for a double; once the first two have given their values it fails. */
  lemma BoolFirstFails(w: World, op: Prim, p: Parts, m: seq<Ty>, sl: seq<nat>, tys: seq<Ty>, sc: seq<Value>, s: seq<Value>, e: Env)
    requires w.safe && Folds(op, TFloat) && p.Part? && p.rest.Part? && Children(w, p, tys) && !FirstOk(op, p, tys)
    requires Ready(w, m, sl, tys, s, sc) && Room(w, FoldBlock(op, TFloat, p, m, sl, tys), m)
    ensures OutOf(FoldBlock(op, TFloat, p, m, sl, tys), m) == m + [TFloat]
    ensures var a := Meaning(w, p.body, sc, e);
      a.Gives? && Meaning(w, p.rest.body, sc, a.env).Gives? ==> Exec(w, FoldBlock(op, TFloat, p, m, sl, tys), s, e) == Threw(TypeMismatch)
  {
    hide Room, Exec, Ready, ResultOf, Check, Meaning, FoldBlock, FoldMeaning;
    ReadyIs(w, m, sl, tys, s, sc);
    FoldBlockOut(w, op, TFloat, p, m, sl, tys);
    FoldBlockRuns(w, op, TFloat, p, m, sl, tys, sc, s, e);
    FoldFirst(w, op, TFloat, p, m, sl, tys, sc, s, e);
  }

  // --- such blocks, at an input ---------------------------------------------------------------------------

  /** One child more, or none. */
  lemma PartIs(w: World, p: Parts, tys: seq<Ty>)
    ensures p.End? ==> !Conditional(p) && Children(w, p, tys) && Integers(p, tys)
    ensures p.Part? ==>
      && (Conditional(p) <==> p.test.When? || Conditional(p.rest))
      && (Integers(p, tys) <==> ResultOf(p.body, tys) == [TInt] && Integers(p.rest, tys))
      && (Children(w, p, tys) <==>
            Check(w, p.body, tys) && ScalarTy(ResultOf(p.body, tys))
            && (p.test.When? ==> Check(w, p.test.cond, tys) && ResultOf(p.test.cond, tys) == [TBool]) && Children(w, p.rest, tys))
  {
    hide Check, ResultOf;
  }

  lemma FoldStep(op: Prim, exp: Ty, p: Parts, below: seq<Ty>, m: seq<Ty>)
    ensures p.End? ==> FoldCode(op, exp, p, below, m, [], []) == Nop
    ensures p.Part? ==>
      var next := Folded(exp, below, ResultOf(p.body, []));
      FoldCode(op, exp, p, below, m, [], []) ==
        Seq(FoldTerm(op, exp, p.test, p.body, below == [], m + below, m + next, [], []), FoldCode(op, exp, p.rest, next, m, [], []))
  {
    hide FoldTerm, ResultOf;
  }

  /** A literal as a child. */
  lemma LiteralChild(w: World, push: Prim, arg: int, exp: seq<Ty>, m: seq<Ty>)
    requires push.PushBool? || push.PushInt? || push.PushFloat?
    ensures Check(w, Literal(push, arg), []) && ResultOf(Literal(push, arg), []) == [if push.PushBool? then TBool else if push.PushInt? then TInt else TFloat]
  {}

  lemma LiteralCode(push: Prim, arg: int, exp: seq<Ty>, m: seq<Ty>)
    requires push.PushBool? || push.PushInt? || push.PushFloat?
    ensures ResultOf(Literal(push, arg), []) == [if push.PushBool? then TBool else if push.PushInt? then TInt else TFloat]
    ensures Lower(Literal(push, arg), m, [], []) == Op1(push, arg)
    ensures exp == ResultOf(Literal(push, arg), []) ==> Valued(Literal(push, arg), exp, m, [], []) == Seq(Op1(push, arg), Nop)
  {}

  lemma PairPeak(x: Node, y: Node, m: seq<Ty>)
    ensures PeakOf(Seq(x, y), m) == Max(PeakOf(x, m), PeakOf(y, OutOf(x, m))) && OutOf(Seq(x, y), m) == OutOf(y, OutOf(x, m))
  {
    hide DoOut, ExitOut;
  }

  lemma PushPeak(p: Prim, arg: int, m: seq<Ty>)
    requires p.PushBool? || p.PushInt? || p.PushFloat?
    ensures var t := if p.PushBool? then TBool else if p.PushInt? then TInt else TFloat; OutOf(Op1(p, arg), m) == m + [t] && PeakOf(Op1(p, arg), m) == |m| + 1
  {
    hide OutOf, PeakOf;
    OpPeak(p, arg, m);
  }

  lemma OpPeak(p: Prim, arg: int, m: seq<Ty>)
    ensures OutOf(Op1(p, arg), m) == PrimOut(p, arg, m) && PeakOf(Op1(p, arg), m) == Max(|m|, |PrimOut(p, arg, m)|)
  {
    hide PrimOut;
  }

  lemma FoldPeak(op: Prim, m: seq<Ty>, a: Ty, b: Ty)
    requires op.Sum? || op.Mul?
    ensures PeakOf(Op1(op, 0), m + [a, b]) == |m| + 2 && OutOf(Op1(op, 0), m + [a, b]) == m + [TFloat]
  {
    hide OutOf, PeakOf;
    assert (m + [a, b])[..|m|] == m && m + [a] + [b] == m + [a, b];
    OpPeak(op, 0, m + [a, b]);
  }

  lemma BranchPeak(op: Op, m: seq<Ty>)
    requires op.CondJump? || op.CondJumpGet? || op.AndJump?
    ensures PeakOf(Exit(op, 0, 0), m) == |m| && OutOf(Exit(op, 0, 0), m) == if op.CondJumpGet? then m else Init(m, 1)
  {}

  lemma NopPeak(m: seq<Ty>)
    ensures PeakOf(Nop, m) == |m| && OutOf(Nop, m) == m
  {}

  lemma BlockPeak(x: Node, out: seq<Ty>, m: seq<Ty>)
    ensures PeakOf(Block(x, out), m) == PeakOf(x, m) && OutOf(Block(x, out), m) == out
  {}

  /** The children of `{ 1 2 }`. */
  const ONE_TWO: Parts := Part(Always, Literal(PushInt, 1), Part(Always, Literal(PushInt, 2), End))

  function OneTwoCode(): Node { Seq(Seq(Op1(PushInt, 1), Nop), Seq(Seq(Seq(Op1(PushInt, 2), Nop), Op1(Sum, 0)), Nop)) }

  lemma OneTwoFolded()
    ensures FoldBlock(Sum, TInt, ONE_TWO, [], [], []) == OneTwoCode()
  {
    hide FoldCode, Conditional, Valued, ResultOf, Lower;
    var second := Part(Always, Literal(PushInt, 2), End);
    AllIntegers();
    LiteralCode(PushInt, 1, [TInt], []);
    LiteralCode(PushInt, 2, [TInt], [TInt]);
    assert [] + [TInt] == [TInt] && [] + [TFloat] == [TFloat];
    Empty();
    FoldStep(Sum, TInt, ONE_TWO, [], []);
    FoldStep(Sum, TInt, second, [TInt], []);
    FoldStep(Sum, TInt, End, [TFloat], []);
  }

  lemma Empty()
    ensures var none: seq<Ty> := []; none + none == none
  {}

  lemma AllIntegers()
    ensures !Conditional(ONE_TWO) && Integers(ONE_TWO, [])
  {
    var second := Part(Always, Literal(PushInt, 2), End);
    assert !Conditional(second) && Integers(second, []);
  }

  lemma OneTwoPeak()
    ensures PeakOf(OneTwoCode(), []) == 2
  {
    hide PeakOf, OutOf;
    var one, two := Seq(Op1(PushInt, 1), Nop), Seq(Op1(PushInt, 2), Nop);
    PushPeak(PushInt, 1, []);
    NopPeak([TInt]);
    PairPeak(Op1(PushInt, 1), Nop, []);
    PushPeak(PushInt, 2, [TInt]);
    NopPeak([TInt] + [TInt]);
    PairPeak(Op1(PushInt, 2), Nop, [TInt]);
    assert [TInt] + [TInt] == [] + [TInt, TInt] && [] + [TInt] == [TInt] && [] + [TFloat] == [TFloat];
    FoldPeak(Sum, [], TInt, TInt);
    PairPeak(two, Op1(Sum, 0), [TInt]);
    NopPeak([TFloat]);
    PairPeak(Seq(two, Op1(Sum, 0)), Nop, [TInt]);
    PairPeak(one, Seq(Seq(two, Op1(Sum, 0)), Nop), []);
  }

  lemma OneTwoReady(w: World, s: seq<Value>)
    requires w.base == |s| && |s| + 2 <= w.capacity
    ensures Children(w, ONE_TWO, []) && Integers(ONE_TWO, []) && !Conditional(ONE_TWO) && Ready(w, [], [], [], s, [])
    ensures Room(w, FoldBlock(Sum, TInt, ONE_TWO, [], [], []), [])
  {
    hide PeakOf, OutOf, FoldBlock, Conditional, Children, Integers, Check, ResultOf;
    AllIntegers();
    LiteralChild(w, PushInt, 1, [TInt], []);
    LiteralChild(w, PushInt, 2, [TInt], []);
    PartIs(w, ONE_TWO, []);
    PartIs(w, ONE_TWO.rest, []);
    PartIs(w, End, []);
    OneTwoFolded();
    OneTwoPeak();
  }

  /** `{ 1 2 }` where an integer is expected: rejected by default, and taken with a registry that narrows, when it fails as it runs. */
  lemma NarrowedBlockFails(w: World, s: seq<Value>, e: Env)
    requires w.safe && w.base == |s| && |s| + 2 <= w.capacity
    ensures var out := OutOf(FoldBlock(Sum, TInt, ONE_TWO, [], [], []), []);
      out == [TFloat] && !Registered(DEFAULT_REGISTRY, TFloat, TInt) && Registered(NARROWING_REGISTRY, TFloat, TInt)
    ensures Exec(w, FoldBlock(Sum, TInt, ONE_TWO, [], [], []), s, e) == Threw(TypeMismatch)
  {
    hide Exec, Registered, Conditional, Children, FoldBlock, OutOf, Room, Ready;
    OneTwoReady(w, s);
    ReadyIs(w, [], [], [], s, []);
    NarrowingNarrows();
    IntegerFoldTaken(w, NARROWING_REGISTRY, Sum, ONE_TWO, [], [], []);
    IntegerFoldEnds(w, Sum, ONE_TWO, [], [], [], [], s, e);
  }

  /** The one child of `{ { condition = c 5 } }`. */
  function GuardedFive(c: bool): Parts { Part(When(Literal(PushBool, if c then 1 else 0)), Literal(PushInt, 5), End) }

  function GuardedCode(c: bool): Node {
    var fold := Seq(Seq(Op1(PushInt, 5), Nop), Op1(Sum, 0));
    Seq(Op1(PushInt, 0), Seq(Block(Seq(Op1(PushBool, if c then 1 else 0), Seq(Exit(CondJump, 0, 0), fold)), [TFloat]), Nop))
  }

  lemma GuardedFolded(c: bool)
    ensures FoldBlock(Sum, TInt, GuardedFive(c), [], [], []) == GuardedCode(c)
  {
    hide FoldCode, Conditional, Valued, ResultOf, Lower;
    assert Conditional(GuardedFive(c)) by { GuardedConditional(c); }
    LiteralCode(PushInt, 5, [TInt], [TInt]);
    LiteralCode(PushBool, if c then 1 else 0, [TBool], [TInt]);
    assert [] + [TInt] == [TInt] && [] + [TFloat] == [TFloat];
    FoldStep(Sum, TInt, GuardedFive(c), [TInt], []);
    FoldStep(Sum, TInt, End, [TFloat], []);
  }

  lemma GuardedConditional(c: bool)
    ensures Conditional(GuardedFive(c))
  {}

  lemma GuardedPeak(c: bool)
    ensures PeakOf(GuardedCode(c), []) == 2
  {
    hide PeakOf, OutOf;
    var start, test, five := Op1(PushInt, 0), Op1(PushBool, if c then 1 else 0), Seq(Op1(PushInt, 5), Nop);
    var skip, fold := Exit(CondJump, 0, 0), Seq(five, Op1(Sum, 0));
    var inner := Seq(test, Seq(skip, fold));
    PushPeak(PushInt, 0, []);
    PushPeak(PushBool, if c then 1 else 0, [TInt]);
    BranchPeak(CondJump, [TInt] + [TBool]);
    TopIs([TInt], TBool);
    PushPeak(PushInt, 5, [TInt]);
    NopPeak([TInt] + [TInt]);
    PairPeak(Op1(PushInt, 5), Nop, [TInt]);
    assert [TInt] + [TInt] == [] + [TInt, TInt] && [] + [TInt] == [TInt] && [] + [TFloat] == [TFloat];
    FoldPeak(Sum, [], TInt, TInt);
    PairPeak(five, Op1(Sum, 0), [TInt]);
    PairPeak(skip, fold, [TInt] + [TBool]);
    PairPeak(test, Seq(skip, fold), [TInt]);
    BlockPeak(inner, [TFloat], [TInt]);
    NopPeak([TFloat]);
    PairPeak(Block(inner, [TFloat]), Nop, [TInt]);
    PairPeak(start, Seq(Block(inner, [TFloat]), Nop), []);
  }

  lemma GuardedReady(w: World, c: bool, s: seq<Value>)
    requires w.base == |s| && |s| + 2 <= w.capacity
    ensures Children(w, GuardedFive(c), []) && Conditional(GuardedFive(c)) && Ready(w, [], [], [], s, [])
    ensures Room(w, FoldBlock(Sum, TInt, GuardedFive(c), [], [], []), [])
  {
    hide PeakOf, OutOf, FoldBlock, Conditional, Children, Check, ResultOf;
    GuardedConditional(c);
    LiteralChild(w, PushInt, 5, [TInt], []);
    LiteralChild(w, PushBool, if c then 1 else 0, [TBool], []);
    PartIs(w, GuardedFive(c), []);
    PartIs(w, End, []);
    GuardedFolded(c);
    GuardedPeak(c);
  }

  /** One child, but with a condition: a double to the generator, a mismatch or an integer when it runs. */
  lemma GuardedBlockFails(w: World, c: bool, s: seq<Value>, e: Env)
    requires w.safe && w.base == |s| && |s| + 2 <= w.capacity
    ensures OutOf(FoldBlock(Sum, TInt, GuardedFive(c), [], [], []), []) == [TFloat]
    ensures Exec(w, FoldBlock(Sum, TInt, GuardedFive(c), [], [], []), s, e) == if c then Threw(TypeMismatch) else Fell(s + [Int(0)], e)
  {
    hide Exec, FoldBlock, OutOf, Room, Ready, Children, Registered;
    GuardedReady(w, c, s);
    ReadyIs(w, [], [], [], s, []);
    assert !Lone(GuardedFive(c));
    IntegerFoldTaken(w, DEFAULT_REGISTRY, Sum, GuardedFive(c), [], [], []);
    IntegerFoldEnds(w, Sum, GuardedFive(c), [], [], [], [], s, e);
    assert FirstHolding(w, GuardedFive(c), Int(0), [], e) == if c then Raises(TypeMismatch) else Gives([Int(0)], e);
  }

  const TWO_BITS: int := 0x4000_0000_0000_0000

  function BothOf(): Expr { Logic(false, false, Part(Always, Literal(PushBool, 1), Part(Always, Literal(PushBool, 1), End))) }

  /** The children of `{ AND = { true true } 2.0 }`. */
  function BoolAndTwo(): Parts { Part(Always, BothOf(), Part(Always, Literal(PushFloat, TWO_BITS), End)) }

  lemma BothCode()
    ensures var n := Lower(BothOf(), [], [], []); PeakOf(n, []) == 2 && OutOf(n, []) == [TBool]
  {
    var push, first, second := Op1(PushBool, 1), Exit(CondJumpGet, 0, 0), Exit(AndJump, 0, 0);
    var inner := Seq(push, Seq(first, Seq(push, Seq(second, Nop))));
    assert Lower(BothOf(), [], [], []) == Block(inner, [TBool]) by { assert [] + [TBool] == [TBool]; }
    hide PeakOf, OutOf, Lower;
    PushPeak(PushBool, 1, []);
    BranchPeak(CondJumpGet, [TBool]);
    PushPeak(PushBool, 1, [TBool]);
    BranchPeak(AndJump, [TBool] + [TBool]);
    TopIs([TBool], TBool);
    NopPeak([TBool]);
    PairPeak(second, Nop, [TBool] + [TBool]);
    PairPeak(push, Seq(second, Nop), [TBool]);
    PairPeak(first, Seq(push, Seq(second, Nop)), [TBool]);
    PairPeak(push, Seq(first, Seq(push, Seq(second, Nop))), []);
    BlockPeak(inner, [TBool], []);
  }

  function BoolAndTwoCode(): Node {
    Seq(Seq(Lower(BothOf(), [], [], []), Nop), Seq(Seq(Seq(Op1(PushFloat, TWO_BITS), Nop), Op1(Sum, 0)), Nop))
  }

  lemma BoolAndTwoFolded()
    ensures FoldBlock(Sum, TFloat, BoolAndTwo(), [], [], []) == BoolAndTwoCode()
  {
    hide FoldCode, Conditional, Lower, ResultOf;
    var second := Part(Always, Literal(PushFloat, TWO_BITS), End);
    NoConditions();
    LiteralCode(PushFloat, TWO_BITS, [TFloat], [TBool]);
    assert [] + [TBool] == [TBool] && [] + [TFloat] == [TFloat];
    Empty();
    FoldStep(Sum, TFloat, BoolAndTwo(), [], []);
    FoldStep(Sum, TFloat, second, [TBool], []);
    FoldStep(Sum, TFloat, End, [TFloat], []);
  }

  lemma NoConditions()
    ensures !Conditional(BoolAndTwo()) && ResultOf(BothOf(), []) == [TBool]
  {
    assert !Conditional(Part(Always, Literal(PushFloat, TWO_BITS), End));
  }

  /** `AND = { true true }` is accepted. */
  lemma BothChecked(w: World)
    ensures Check(w, BothOf(), [])
  {
    var second := Part(Always, Literal(PushBool, 1), End);
    assert CheckParts(w, Operand, End, []);
    assert CheckParts(w, Operand, second, []);
  }

  lemma BoolAndTwoPeak()
    ensures PeakOf(BoolAndTwoCode(), []) == 2
  {
    hide PeakOf, OutOf, Lower;
    var both, two := Lower(BothOf(), [], [], []), Seq(Op1(PushFloat, TWO_BITS), Nop);
    BothCode();
    NopPeak([TBool]);
    PairPeak(both, Nop, []);
    PushPeak(PushFloat, TWO_BITS, [TBool]);
    NopPeak([TBool] + [TFloat]);
    PairPeak(Op1(PushFloat, TWO_BITS), Nop, [TBool]);
    assert [TBool] + [TFloat] == [] + [TBool, TFloat] && [] + [TFloat] == [TFloat];
    FoldPeak(Sum, [], TBool, TFloat);
    PairPeak(two, Op1(Sum, 0), [TBool]);
    NopPeak([TFloat]);
    PairPeak(Seq(two, Op1(Sum, 0)), Nop, [TBool]);
    PairPeak(Seq(both, Nop), Seq(Seq(two, Op1(Sum, 0)), Nop), []);
  }

  lemma BoolAndTwoReady(w: World, s: seq<Value>)
    requires w.base == |s| && |s| + 2 <= w.capacity
    ensures Children(w, BoolAndTwo(), []) && !FirstOk(Sum, BoolAndTwo(), []) && Ready(w, [], [], [], s, [])
    ensures Room(w, FoldBlock(Sum, TFloat, BoolAndTwo(), [], [], []), [])
  {
    hide PeakOf, OutOf, FoldBlock, Lower, Check, Children, Conditional, ResultOf;
    BothChecked(w);
    NoConditions();
    LiteralChild(w, PushFloat, TWO_BITS, [TFloat], []);
    PartIs(w, BoolAndTwo(), []);
    PartIs(w, BoolAndTwo().rest, []);
    PartIs(w, End, []);
    BoolAndTwoFolded();
    BoolAndTwoPeak();
  }

  /** `{ AND = { true true } 2.0 }` where a double is expected: taken, and it fails when it runs. */
  lemma BoolAndTwoFails(w: World, s: seq<Value>, e: Env)
    requires w.safe && w.base == |s| && |s| + 2 <= w.capacity
    ensures OutOf(FoldBlock(Sum, TFloat, BoolAndTwo(), [], [], []), []) == [TFloat]
    ensures Exec(w, FoldBlock(Sum, TFloat, BoolAndTwo(), [], [], []), s, e) == Threw(TypeMismatch)
  {
    hide Exec, FoldBlock, OutOf, Room, Ready, Children, FirstOk;
    BoolAndTwoReady(w, s);
    BoolFirstFails(w, Sum, BoolAndTwo(), [], [], [], [], s, e);
    assert Decide(w, false, BothOf().kids.rest, [], e) == Gives([Bool(true)], e);
    assert Meaning(w, BothOf(), [], e) == Gives([Bool(true)], e);
  }
}
