/**
  Codegen correctness: running the code an expression was lowered to pushes the values
  the expression means, leaves everything below untouched, and evaluates exactly the
  children the meaning evaluates.
*/
module LoweringMeans {
  import opened Machine
  import opened Blocks
  import opened Lowering
  import opened LoweringTyped

  /** The stack is the predicted one, and the scope slots hold the scopes' values. */
  ghost predicate Ready(w: World, m: seq<Ty>, sl: seq<nat>, tys: seq<Ty>, s: seq<Value>, sc: seq<Value>) {
    && ScopesOk(m, sl, tys) && Matches(w, s, m)
    && |sc| == |sl| && forall i :: 0 <= i < |sl| ==> s[w.base + sl[i]] == sc[i]
  }

  lemma MatchesMore(w: World, s: seq<Value>, m: seq<Ty>, vs: seq<Value>, t: seq<Ty>)
    requires Matches(w, s, m) && TagsMatch(vs, t)
    ensures Matches(w, s + vs, m + t)
  {
    forall k: nat | k < |m + t| ensures TypeOf((s + vs)[w.base + k]) == (m + t)[k] {
      if k < |m| { MatchesAt(w, s, m, k); } else { assert TypeOf(vs[k - |m|]) == t[k - |m|]; }
    }
    MatchesByIndex(w, s + vs, m + t);
  }

  lemma ReadyMore(w: World, m: seq<Ty>, sl: seq<nat>, tys: seq<Ty>, s: seq<Value>, sc: seq<Value>, vs: seq<Value>, t: seq<Ty>)
    requires Ready(w, m, sl, tys, s, sc) && TagsMatch(vs, t)
    ensures Ready(w, m + t, sl, tys, s + vs, sc)
  {
    MatchesMore(w, s, m, vs, t);
  }

  lemma ReadyOpen(w: World, m: seq<Ty>, sl: seq<nat>, tys: seq<Ty>, s: seq<Value>, sc: seq<Value>, vs: seq<Value>, t: seq<Ty>)
    requires Ready(w, m, sl, tys, s, sc) && TagsMatch(vs, t) && |t| == 1
    ensures Ready(w, m + t, sl + [|m|], tys + t, s + vs, sc + vs)
  {
    MatchesMore(w, s, m, vs, t);
    ScopesOpen(m, t, sl, tys);
    MatchesLength(w, s, m);
  }

  /** The code fell through with the answer's values on top of `s`, or failed as the answer says. */
  ghost predicate Yields(x: Signal, s: seq<Value>, a: Answer) {
    match a
    case Gives(vs, e) => x == Fell(s + vs, e)
    case Raises(err) => x == Threw(err)
    case NoAnswer => x == Undefined
  }

  /** The same, but the code may also have left its block early with those values. */
  ghost predicate Reaches(x: Signal, s: seq<Value>, a: Answer) {
    match a
    case Gives(vs, e) => x == Fell(s + vs, e) || x == Left(0, s + vs, e)
    case Raises(err) => x == Threw(err)
    case NoAnswer => x == Undefined
  }

  predicate Tagged(a: Answer, t: seq<Ty>) { a.Gives? ==> TagsMatch(a.values, t) }

  lemma Blocked(w: World, n: Node, out: seq<Ty>, s0: seq<Value>, e: Env, s: seq<Value>, a: Answer)
    requires Reaches(Exec(w, n, s0, e), s, a)
    ensures Yields(Exec(w, Block(n, out), s0, e), s, a)
  {}

  /** Structured code in sequence. */
  lemma ExecSeq(w: World, x: Node, y: Node, s: seq<Value>, e: Env)
    ensures var r := Exec(w, x, s, e);
      Exec(w, Seq(x, y), s, e) == if r.Fell? then Exec(w, y, r.stack, r.env) else r
  {}

  lemma EmptyOnTop(s: seq<Value>)
    ensures s + [] == s
  {}

  /** What a conditional jump does with the test's value. */
  lemma ExecTest(w: World, code: Node, s: seq<Value>, b: bool, e: Env)
    ensures Exec(w, Seq(Exit(CondJump, 0, 0), code), s + [Bool(b)], e) == if b then Exec(w, code, s, e) else Left(0, s, e)
  {
    var s' := s + [Bool(b)];
    PopBoolTyped(w, s');
    assert s'[..|s'| - 1] == s;
    ExecSeq(w, Exit(CondJump, 0, 0), code, s', e);
  }

  lemma ExecLeave(w: World, body: Node, s: seq<Value>, e: Env)
    ensures var r := Exec(w, body, s, e);
      Exec(w, Seq(body, Exit(Jump, 0, 1)), s, e) == if r.Fell? then Left(1, r.stack, r.env) else r
  {
    ExecSeq(w, body, Exit(Jump, 0, 1), s, e);
  }

  /** A guarded clause whose test came out as `b`: its body, then out of the enclosing block, or nothing. */
  lemma ExecClause(w: World, test: Node, body: Node, mid: seq<Ty>, s0: seq<Value>, e0: Env, s: seq<Value>, b: bool, e: Env)
    requires Exec(w, test, s0, e0) == Fell(s + [Bool(b)], e)
    ensures var r := Exec(w, body, s, e);
      Exec(w, Clause(test, body, mid), s0, e0) ==
        if !b then Fell(s, e) else if r.Fell? then Left(0, r.stack, r.env) else Caught(r)
  {
    hide Exec;
    var tail := Seq(body, Exit(Jump, 0, 1));
    ExecSeq(w, test, Seq(Exit(CondJump, 0, 0), tail), s0, e0);
    ExecTest(w, tail, s, b, e);
    ExecLeave(w, body, s, e);
    ExecBlock(w, Seq(test, Seq(Exit(CondJump, 0, 0), tail)), mid, s0, e0);
  }

  lemma ExecBlock(w: World, n: Node, out: seq<Ty>, s: seq<Value>, e: Env)
    ensures Exec(w, Block(n, out), s, e) == Caught(Exec(w, n, s, e))
  {}

  /** A clause whose test does not produce a value fails as the test does. */
  lemma ExecClauseStops(w: World, test: Node, body: Node, mid: seq<Ty>, s: seq<Value>, e: Env)
    requires Exec(w, test, s, e).Threw? || Exec(w, test, s, e).Undefined?
    ensures Exec(w, Clause(test, body, mid), s, e) == Exec(w, test, s, e)
  {
    hide Exec;
    ExecSeq(w, test, Seq(Exit(CondJump, 0, 0), Seq(body, Exit(Jump, 0, 1))), s, e);
    ExecBlock(w, Seq(test, Seq(Exit(CondJump, 0, 0), Seq(body, Exit(Jump, 0, 1)))), mid, s, e);
  }

  // --- single operations ------------------------------------------------------------------------

  lemma CastTags(w: World, from: Ty, to: Ty, v: Value)
    requires TypeOf(v) == from && Castable(from, to)
    ensures TypeOf(CastTo(w, to, v)) == to
  {}

  lemma CastSame(w: World, v: Value)
    ensures CastTo(w, TypeOf(v), v) == v
  {}

  lemma ExecConvert(w: World, from: seq<Ty>, exp: seq<Ty>, m: seq<Ty>, s: seq<Value>, vs: seq<Value>, e: Env)
    requires Convertible(from, exp) && TagsMatch(vs, from) && Matches(w, s, m) && w.base + |m + from| <= w.capacity
    ensures Exec(w, Coerce(from, exp), s + vs, e) == Fell(s + Convert(w, exp, vs), e)
    ensures TagsMatch(Convert(w, exp, vs), exp)
  {
    hide Matches, PrimStep, CastTo, Castable;
    MatchesLength(w, s, m);
    if from != exp {
      var s' := s + vs;
      CastTags(w, from[0], exp[0], vs[0]);
      assert from == [from[0]] && exp == [exp[0]] && vs == [vs[0]];
      assert s'[..|s'| - 1] == s;
      MatchesMore(w, s, m, vs, from);
      TopIs(m, from[0]);
      CastTyped(w, from[0], exp[0], s', e, m + from);
    } else if |exp| == 1 {
      CastSame(w, vs[0]);
      assert vs == [vs[0]];
    }
  }

  lemma ExecErase(w: World, s: seq<Value>, m: seq<Ty>, v: seq<Value>, vs: seq<Value>, e: Env)
    requires Matches(w, s, m) && |v| == 1
    ensures Exec(w, EraseSlot(|m|), s + v + vs, e) == Fell(s + vs, e)
  {
    MatchesLength(w, s, m);
    var all := s + v + vs;
    assert all[..|s|] + all[|s| + 1..] == s + vs;
  }

  lemma {:induction false} ValuedMeans(w: World, x: Expr, exp: seq<Ty>, m: seq<Ty>, sl: seq<nat>, tys: seq<Ty>, sc: seq<Value>, s: seq<Value>, e: Env)
    requires Check(w, x, tys) && Convertible(ResultOf(x, tys), exp) && Ready(w, m, sl, tys, s, sc)
    requires Room(w, Valued(x, exp, m, sl, tys), m)
    ensures Yields(Exec(w, Valued(x, exp, m, sl, tys), s, e), s, Converted(w, exp, Meaning(w, x, sc, e)))
    ensures Tagged(Converted(w, exp, Meaning(w, x, sc, e)), exp)
    decreases x, 3
  {
    hide Check, Lower, Coerce, Room, Exec, Meaning, Ready, ResultOf;
    var t := ResultOf(x, tys);
    var code := Lower(x, m, sl, tys);
    RoomSeq(w, code, Coerce(t, exp), m);
    LowerMeans(w, x, m, sl, tys, sc, s, e);
    ExecSeq(w, code, Coerce(t, exp), s, e);
    var a := Meaning(w, x, sc, e);
    if a.Gives? {
      ReadyIs(w, m, sl, tys, s, sc);
      LowerTyped(w, x, m, sl, tys);
      LeadsHere(w, code, m, m + t, []);
      RoomSize(w, Coerce(t, exp), m + t);
      ExecConvert(w, t, exp, m, s, a.values, a.env);
    }
  }

  lemma ReadyIs(w: World, m: seq<Ty>, sl: seq<nat>, tys: seq<Ty>, s: seq<Value>, sc: seq<Value>)
    requires Ready(w, m, sl, tys, s, sc)
    ensures ScopesOk(m, sl, tys) && Matches(w, s, m) && |s| == w.base + |m| && |sc| == |sl| == |tys|
  {}

  /** A child lowered in place: what it yields, and the stack and the room behind it. */
  lemma {:induction false} ChildMeans(w: World, x: Expr, t: seq<Ty>, more: Node, m: seq<Ty>, sl: seq<nat>, tys: seq<Ty>,
                                      sc: seq<Value>, s: seq<Value>, e: Env)
    requires Check(w, x, tys) && ResultOf(x, tys) == t && Ready(w, m, sl, tys, s, sc)
    requires Room(w, Seq(Lower(x, m, sl, tys), more), m)
    ensures Yields(Exec(w, Lower(x, m, sl, tys), s, e), s, Meaning(w, x, sc, e))
    ensures Tagged(Meaning(w, x, sc, e), t) && Room(w, more, m + t)
    ensures OutOf(Lower(x, m, sl, tys), m) == m + t
    ensures var a := Meaning(w, x, sc, e); a.Gives? ==> Ready(w, m + t, sl, tys, s + a.values, sc)
    decreases x, 3
  {
    hide Check, Lower, Room, Exec, Meaning, Ready, ResultOf;
    ReadyIs(w, m, sl, tys, s, sc);
    TestTyped(w, x, t, more, m, sl, tys);
    RoomSeq(w, Lower(x, m, sl, tys), more, m);
    LowerMeans(w, x, m, sl, tys, sc, s, e);
    var a := Meaning(w, x, sc, e);
    if a.Gives? { ReadyMore(w, m, sl, tys, s, sc, a.values, t); }
  }

  lemma {:induction false} ArgsMeans(w: World, p: Parts, types: seq<Ty>, m: seq<Ty>, sl: seq<nat>, tys: seq<Ty>, sc: seq<Value>, s: seq<Value>, e: Env)
    requires CheckParts(w, Argument(types), p, tys) && Ready(w, m, sl, tys, s, sc)
    requires Room(w, LowerArgs(p, m, sl, tys), m)
    ensures Yields(Exec(w, LowerArgs(p, m, sl, tys), s, e), s, Args(w, p, sc, e))
    ensures Tagged(Args(w, p, sc, e), types)
    decreases p, 0
  {
    hide Check, Lower, Room, Exec, Meaning, Ready, ResultOf;
    if p.End? {
      ExecNop(w, s, e);
      EmptyOnTop(s);
    } else {
      var t := ResultOf(p.body, tys);
      var head, rest := Lower(p.body, m, sl, tys), LowerArgs(p.rest, m + t, sl, tys);
      ChildMeans(w, p.body, t, rest, m, sl, tys, sc, s, e);
      ExecSeq(w, head, rest, s, e);
      var a := Meaning(w, p.body, sc, e);
      if a.Gives? {
        ArgsMeans(w, p.rest, types[1..], m + t, sl, tys, sc, s + a.values, a.env);
        var b := Args(w, p.rest, sc, a.env);
        if b.Gives? { assert s + a.values + b.values == s + (a.values + b.values); }
      }
    }
  }

  lemma ExecNop(w: World, s: seq<Value>, e: Env)
    ensures Exec(w, Nop, s, e) == Fell(s, e)
  {}

  // --- AND, OR ----------------------------------------------------------------------------------

  /** The short-circuit branch behind an operand: leave with `any`, or go on with its opposite. */
  lemma ExecShort(w: World, any: bool, first: bool, s: seq<Value>, b: bool, e: Env)
    requires |s| < w.capacity
    ensures Exec(w, Exit(ShortOp(any, first), 0, 0), (if first then s else s + [Bool(!any)]) + [Bool(b)], e) ==
            if b == any then Left(0, s + [Bool(any)], e) else Fell(s + [Bool(!any)], e)
  {
    var s1 := (if first then s else s + [Bool(!any)]) + [Bool(b)];
    PopBoolTyped(w, s1);
    if !first {
      assert s1[..|s1| - 1] == s + [Bool(!any)];
      PopBoolTyped(w, s + [Bool(!any)]);
      assert (s + [Bool(!any)])[..|s|] == s;
    }
  }

  lemma {:induction false} LogicMeans(w: World, any: bool, p: Parts, first: bool, m: seq<Ty>, sl: seq<nat>, tys: seq<Ty>,
                                      sc: seq<Value>, s: seq<Value>, e: Env)
    requires CheckParts(w, Operand, p, tys) && Ready(w, m, sl, tys, s, sc) && (first ==> p != End)
    requires Room(w, LowerLogic(any, p, first, m, sl, tys), if first then m else m + [TBool])
    ensures Reaches(Exec(w, LowerLogic(any, p, first, m, sl, tys), if first then s else s + [Bool(!any)], e), s, Decide(w, any, p, sc, e))
    ensures Tagged(Decide(w, any, p, sc, e), [TBool])
    decreases p, 0
  {
    hide Check, Lower, Room, Exec, Meaning, Ready, ResultOf;
    var here, top := if first then m else m + [TBool], if first then s else s + [Bool(!any)];
    if p.End? {
      ExecNop(w, top, e);
    } else {
      var kid, rest := Lower(p.body, here, sl, tys), LowerLogic(any, p.rest, false, m, sl, tys);
      var exit := Exit(ShortOp(any, first), 0, 0);
      if !first { ReadyMore(w, m, sl, tys, s, sc, [Bool(!any)], [TBool]); }
      ChildMeans(w, p.body, [TBool], Seq(exit, rest), here, sl, tys, sc, top, e);
      ExecSeq(w, kid, Seq(exit, rest), top, e);
      var a := Meaning(w, p.body, sc, e);
      if a.Gives? {
        var b := a.values[0].b;
        assert a.values == [Bool(b)];
        RoomSeq(w, exit, rest, here + [TBool]);
        RoomSize(w, exit, here + [TBool]);
        ReadyIs(w, m, sl, tys, s, sc);
        ExecShort(w, any, first, s, b, a.env);
        ExecSeq(w, exit, rest, top + a.values, a.env);
        if b != any {
          ExitOutIs(ShortOp(any, first), 0, 0, here + [TBool]);
          ShortTyped(any, first, m);
          LogicMeans(w, any, p.rest, false, m, sl, tys, sc, s, a.env);
        }
      }
    }
  }

  // --- ADD, MUL ---------------------------------------------------------------------------------

  /** The two operands of a fold, and what is under them. */
  lemma TwoOnTop(s: seq<Value>, a: Value, b: Value)
    ensures var s2 := s + [a] + [b]; s2[..|s2| - 1] == s + [a] && (s + [a])[..|s|] == s && s2[|s2| - 2..] == [a, b] && s2[..|s2| - 2] == s
  {}

  lemma ExecFoldFloat(w: World, op: Prim, s: seq<Value>, a: Value, b: Value, e: Env)
    requires (op.Sum? || op.Mul?) && a.Float? && b.Float? && |s| < w.capacity
    ensures Yields(Exec(w, Op1(op, 0), s + [a] + [b], e), s, Apply(w, op, a, b, e)) && Tagged(Apply(w, op, a, b, e), [TFloat])
  {
    hide PopFloat;
    TwoOnTop(s, a, b);
    PopFloatTyped(w, s + [a] + [b]);
    PopFloatTyped(w, s + [a]);
  }

  lemma ExecFoldCall(w: World, sig: Signature, ty: Ty, s: seq<Value>, a: Value, b: Value, e: Env)
    requires TotalOk(false, Call(sig), ty) && TypeOf(a) == ty && TypeOf(b) == ty && |s| < w.capacity
    ensures Yields(Exec(w, Op1(Call(sig), 0), s + [a] + [b], e), s, Apply(w, Call(sig), a, b, e)) && Tagged(Apply(w, Call(sig), a, b, e), [ty])
  {
    TwoOnTop(s, a, b);
  }

  lemma ExecFold(w: World, product: bool, op: Prim, ty: Ty, s: seq<Value>, a: Value, b: Value, e: Env)
    requires TotalOk(product, op, ty) && TypeOf(a) == ty && TypeOf(b) == ty && |s| < w.capacity
    ensures Yields(Exec(w, Op1(op, 0), s + [a] + [b], e), s, Apply(w, op, a, b, e))
    ensures Tagged(Apply(w, op, a, b, e), [ty])
  {
    hide Exec, Apply, Yields, Tagged;
    if op.Call? { ExecFoldCall(w, op.sig, ty, s, a, b, e); } else { ExecFoldFloat(w, op, s, a, b, e); }
  }

  lemma {:induction false} TermMeans(w: World, product: bool, op: Prim, ty: Ty, body: Expr, acc: seq<Value>, m: seq<Ty>, sl: seq<nat>, tys: seq<Ty>,
                                     sc: seq<Value>, s: seq<Value>, e: Env)
    requires TotalOk(product, op, ty) && Check(w, body, tys) && Convertible(ResultOf(body, tys), [ty])
    requires Ready(w, m, sl, tys, s, sc) && (acc == [] || TagsMatch(acc, [ty]))
    requires var here := if acc == [] then m else m + [ty];
      Room(w, TermCode(op, Valued(body, [ty], here, sl, tys), acc == []), here)
    ensures var here := if acc == [] then m else m + [ty];
      Yields(Exec(w, TermCode(op, Valued(body, [ty], here, sl, tys), acc == []), s + acc, e), s, AddTerm(w, op, acc, Converted(w, [ty], Meaning(w, body, sc, e))))
    ensures Tagged(AddTerm(w, op, acc, Converted(w, [ty], Meaning(w, body, sc, e))), [ty])
    decreases body, 4
  {
    hide Check, Room, Exec, Meaning, Ready, ResultOf, Valued, TotalOk, Apply;
    var first, here := acc == [], if acc == [] then m else m + [ty];
    var value := Valued(body, [ty], here, sl, tys);
    if first { EmptyOnTop(s); } else {
      ReadyMore(w, m, sl, tys, s, sc, acc, [ty]);
      RoomSeq(w, value, Op1(op, 0), here);
      ExecSeq(w, value, Op1(op, 0), s + acc, e);
    }
    ValuedMeans(w, body, [ty], here, sl, tys, sc, s + acc, e);
    var a := Converted(w, [ty], Meaning(w, body, sc, e));
    if a.Gives? && !first {
      RoomSize(w, value, here);
      ReadyIs(w, m, sl, tys, s, sc);
      assert acc == [acc[0]] && a.values == [a.values[0]];
      ExecFold(w, product, op, ty, s, acc[0], a.values[0], a.env);
    }
  }

  /** A running result taken one part further. */
  lemma AccumulateStep(w: World, op: Prim, ty: Ty, p: Parts, acc: seq<Value>, sc: seq<Value>, e: Env)
    requires p.Part?
    ensures var c := Holds(w, p.test, sc, e);
      Accumulate(w, op, ty, p, acc, sc, e) ==
      if !c.Gives? then c
      else if c.values == [Bool(false)] then Accumulate(w, op, ty, p.rest, acc, sc, c.env)
      else
        var a := AddTerm(w, op, acc, Converted(w, [ty], Meaning(w, p.body, sc, c.env)));
        if a.Gives? then Accumulate(w, op, ty, p.rest, a.values, sc, a.env) else a
  {
    hide Meaning, Converted, Apply;
  }

  lemma {:induction false} TermsMeans(w: World, product: bool, op: Prim, ty: Ty, p: Parts, acc: seq<Value>, m: seq<Ty>, sl: seq<nat>, tys: seq<Ty>,
                                      sc: seq<Value>, s: seq<Value>, e: Env)
    requires TotalOk(product, op, ty) && CheckParts(w, Term([ty]), p, tys) && Ready(w, m, sl, tys, s, sc)
    requires if acc == [] then p != End && !Conditional(p) else TagsMatch(acc, [ty])
    requires Room(w, LowerTerms(op, ty, p, acc == [], m, sl, tys), if acc == [] then m else m + [ty])
    ensures Yields(Exec(w, LowerTerms(op, ty, p, acc == [], m, sl, tys), s + acc, e), s, Accumulate(w, op, ty, p, acc, sc, e))
    ensures Tagged(Accumulate(w, op, ty, p, acc, sc, e), [ty])
    decreases p, 1
  {
    hide Check, Room, Exec, Meaning, Ready, ResultOf, Valued, TotalOk, Apply, Lower, Converted;
    if p.End? {
      ExecNop(w, s + acc, e);
    } else {
      var first, here := acc == [], if acc == [] then m else m + [ty];
      var code := TermCode(op, Valued(p.body, [ty], here, sl, tys), first);
      var rest := LowerTerms(op, ty, p.rest, false, m, sl, tys);
      var term := match p.test
        case Always => code
        case When(c) => Block(Seq(Lower(c, here, sl, tys), Seq(Exit(CondJump, 0, 0), code)), here);
      RoomSeq(w, term, rest, here);
      ExecSeq(w, term, rest, s + acc, e);
      if p.test.Always? {
        ReadyIs(w, m, sl, tys, s, sc);
        TermTyped(w, product, op, ty, p.body, first, m, sl, tys);
        LeadsHere(w, code, here, m + [ty], []);
        TermMeans(w, product, op, ty, p.body, acc, m, sl, tys, sc, s, e);
        var a := AddTerm(w, op, acc, Converted(w, [ty], Meaning(w, p.body, sc, e)));
        if a.Gives? { TermsMeans(w, product, op, ty, p.rest, a.values, m, sl, tys, sc, s, a.env); }
      } else {
        assert here == m + [ty] && OutOf(term, here) == here;
        var a := TermUnder(w, product, op, ty, p, acc, m, sl, tys, sc, s, e);
        if a.Gives? { TermsMeans(w, product, op, ty, p.rest, a.values, m, sl, tys, sc, s, a.env); }
      }
    }
  }

  /** A term with a condition: skipped, it leaves the running result as it was. */
  lemma {:induction false} TermUnder(w: World, product: bool, op: Prim, ty: Ty, p: Parts, acc: seq<Value>, m: seq<Ty>, sl: seq<nat>, tys: seq<Ty>,
                                     sc: seq<Value>, s: seq<Value>, e: Env) returns (a: Answer)
    requires TotalOk(product, op, ty) && CheckParts(w, Term([ty]), p, tys) && Ready(w, m, sl, tys, s, sc)
    requires p.Part? && p.test.When? && TagsMatch(acc, [ty])
    requires var here := m + [ty];
      Room(w, Block(Seq(Lower(p.test.cond, here, sl, tys), Seq(Exit(CondJump, 0, 0), TermCode(op, Valued(p.body, [ty], here, sl, tys), false))), here), here)
    ensures var here := m + [ty];
      Yields(Exec(w, Block(Seq(Lower(p.test.cond, here, sl, tys), Seq(Exit(CondJump, 0, 0), TermCode(op, Valued(p.body, [ty], here, sl, tys), false))), here), s + acc, e), s, a)
    ensures Tagged(a, [ty])
    ensures Accumulate(w, op, ty, p, acc, sc, e) == if a.Gives? then Accumulate(w, op, ty, p.rest, a.values, sc, a.env) else a
    decreases p, 0
  {
    hide Check, Room, Exec, Meaning, Ready, ResultOf, Valued, TotalOk, Lower, Converted, TermCode, Accumulate, AddTerm;
    AccumulateStep(w, op, ty, p, acc, sc, e);
    var here := m + [ty];
    var test, code := Lower(p.test.cond, here, sl, tys), TermCode(op, Valued(p.body, [ty], here, sl, tys), false);
    ReadyMore(w, m, sl, tys, s, sc, acc, [ty]);
    RoomBlock(w, Seq(test, Seq(Exit(CondJump, 0, 0), code)), here, here);
    ChildMeans(w, p.test.cond, [TBool], Seq(Exit(CondJump, 0, 0), code), here, sl, tys, sc, s + acc, e);
    RoomSkip(w, test, code, here, here);
    ExecSeq(w, test, Seq(Exit(CondJump, 0, 0), code), s + acc, e);
    ExecBlock(w, Seq(test, Seq(Exit(CondJump, 0, 0), code)), here, s + acc, e);
    a := Meaning(w, p.test.cond, sc, e);
    if a.Gives? {
      var b, e1 := a.values[0].b, a.env;
      assert a.values == [Bool(b)];
      ExecTest(w, code, s + acc, b, e1);
      if b {
        TermMeans(w, product, op, ty, p.body, acc, m, sl, tys, sc, s, e1);
        a := AddTerm(w, op, acc, Converted(w, [ty], Meaning(w, p.body, sc, e1)));
      } else {
        a := Gives(acc, e1);
      }
    }
  }

  // --- select, sequence, effect blocks --------------------------------------------------------

  lemma ExecJump(w: World, body: Node, rest: Node, s: seq<Value>, e: Env)
    ensures var r := Exec(w, body, s, e);
      Exec(w, Seq(Seq(body, Exit(Jump, 0, 0)), rest), s, e) == if r.Fell? then Left(0, r.stack, r.env) else r
  {
    var r := Exec(w, body, s, e);
    ExecSeq(w, body, Exit(Jump, 0, 0), s, e);
    ExecSeq(w, Seq(body, Exit(Jump, 0, 0)), rest, s, e);
  }

  /** A guarded clause with a boolean test, lowered on the spot. */
  lemma {:induction false} ClauseMeans(w: World, c: Expr, body: Node, m: seq<Ty>, sl: seq<nat>, tys: seq<Ty>, sc: seq<Value>, s: seq<Value>, e: Env)
    requires Check(w, c, tys) && ResultOf(c, tys) == [TBool] && Ready(w, m, sl, tys, s, sc)
    requires Room(w, Clause(Lower(c, m, sl, tys), body, m), m)
    ensures Room(w, body, m) && Tagged(Meaning(w, c, sc, e), [TBool])
    ensures var x := Exec(w, Clause(Lower(c, m, sl, tys), body, m), s, e);
      match Meaning(w, c, sc, e)
      case Gives(vs, e1) =>
        if vs == [Bool(true)] then x == Leaving(Exec(w, body, s, e1)) else vs == [Bool(false)] && x == Fell(s, e1)
      case Raises(err) => x == Threw(err)
      case NoAnswer => x == Undefined
    decreases c, 4
  {
    hide Check, Room, Exec, Meaning, Ready, ResultOf, Lower;
    var test, tail := Lower(c, m, sl, tys), Seq(Exit(CondJump, 0, 0), Seq(body, Exit(Jump, 0, 1)));
    RoomBlock(w, Seq(test, tail), m, m);
    ChildMeans(w, c, [TBool], tail, m, sl, tys, sc, s, e);
    RoomClause(w, test, body, m, m);
    var a := Meaning(w, c, sc, e);
    if a.Gives? {
      assert a.values == [Bool(a.values[0].b)];
      ExecClause(w, test, body, m, s, e, s, a.values[0].b, a.env);
    } else {
      ExecClauseStops(w, test, body, m, s, e);
    }
  }

  /** A finished body leaves the enclosing block. */
  function Leaving(r: Signal): Signal { if r.Fell? then Left(0, r.stack, r.env) else Caught(r) }

  lemma {:induction false} SelectMeans(w: World, exp: seq<Ty>, p: Parts, m: seq<Ty>, sl: seq<nat>, tys: seq<Ty>, sc: seq<Value>, s: seq<Value>, e: Env)
    requires CheckParts(w, Alternative(exp), p, tys) && Ready(w, m, sl, tys, s, sc) && (exp != [] ==> p != End)
    requires Room(w, LowerSelect(exp, p, m, sl, tys), m)
    ensures Reaches(Exec(w, LowerSelect(exp, p, m, sl, tys), s, e), s, FirstOf(w, exp, p, sc, e))
    ensures Tagged(FirstOf(w, exp, p, sc, e), exp)
    decreases p, 0
  {
    hide Check, Room, Exec, Meaning, Ready, ResultOf, Lower, Valued, Converted, Clause;
    EmptyOnTop(s);
    if p.End? {
      ExecNop(w, s, e);
    } else {
      var body, rest := Valued(p.body, exp, m, sl, tys), LowerSelect(exp, p.rest, m, sl, tys);
      match p.test
      case Always =>
        RoomSeq(w, Seq(body, Exit(Jump, 0, 0)), rest, m);
        RoomSeq(w, body, Exit(Jump, 0, 0), m);
        ValuedMeans(w, p.body, exp, m, sl, tys, sc, s, e);
        ExecJump(w, body, rest, s, e);
      case When(c) =>
        var clause := Clause(Lower(c, m, sl, tys), body, m);
        RoomSeq(w, clause, rest, m);
        ClauseMeans(w, c, body, m, sl, tys, sc, s, e);
        ExecSeq(w, clause, rest, s, e);
        var a := Meaning(w, c, sc, e);
        if a.Gives? && a.values == [Bool(true)] {
          ValuedMeans(w, p.body, exp, m, sl, tys, sc, s, a.env);
        } else if a.Gives? {
          ClauseLeadsOn(w, c, body, m, sl, tys);
          SelectMeans(w, exp, p.rest, m, sl, tys, sc, s, a.env);
        }
    }
  }

  lemma ClauseLeadsOn(w: World, c: Expr, body: Node, m: seq<Ty>, sl: seq<nat>, tys: seq<Ty>)
    ensures OutOf(Clause(Lower(c, m, sl, tys), body, m), m) == m
  {}

  lemma ExecPair(w: World, exp: seq<Ty>, s: seq<Value>, x: Value, y: Value, e: Env)
    requires exp != [] && Scalar(exp) && TypeOf(x) == exp[0] && TypeOf(y) == exp[0] && |s| < w.capacity
    ensures Exec(w, CollectOp(exp), s + [x] + [y], e) == Fell(s + Collect(w, exp, [x], [y]), e)
  {
    hide PopBool, PopInt, PopFloat, WrapInt;
    var two, one := s + [x] + [y], s + [x];
    assert two[..|two| - 1] == one && one[..|one| - 1] == s;
    match exp[0]
    case TBool => PopBoolTyped(w, two); PopBoolTyped(w, one);
    case TInt => PopIntTyped(w, two); PopIntTyped(w, one);
    case TFloat => PopFloatTyped(w, two); PopFloatTyped(w, one);
  }

  lemma ExecCollect(w: World, exp: seq<Ty>, s: seq<Value>, acc: seq<Value>, vs: seq<Value>, e: Env)
    requires Scalar(exp) && TagsMatch(acc, exp) && TagsMatch(vs, exp) && (exp != [] ==> |s| < w.capacity)
    ensures Exec(w, CollectOp(exp), s + acc + vs, e) == Fell(s + Collect(w, exp, acc, vs), e)
    ensures TagsMatch(Collect(w, exp, acc, vs), exp)
  {
    if exp == [] {
      assert s + acc + vs == s && s + [] == s;
    } else {
      hide Exec, CollectOp;
      assert acc == [acc[0]] && vs == [vs[0]];
      ExecPair(w, exp, s, acc[0], vs[0], e);
    }
  }

  lemma {:induction false} StagesMeans(w: World, exp: seq<Ty>, p: Parts, acc: seq<Value>, m: seq<Ty>, sl: seq<nat>, tys: seq<Ty>,
                                       sc: seq<Value>, s: seq<Value>, e: Env)
    requires CheckParts(w, Stage(exp), p, tys) && Scalar(exp) && Ready(w, m, sl, tys, s, sc) && TagsMatch(acc, exp)
    requires Room(w, LowerStages(exp, p, m, sl, tys), m + exp)
    ensures Reaches(Exec(w, LowerStages(exp, p, m, sl, tys), s + acc, e), s, WhileTrue(w, exp, p, acc, sc, e))
    ensures Tagged(WhileTrue(w, exp, p, acc, sc, e), exp)
    decreases p, 1
  {
    hide Check, Room, Exec, Meaning, Ready, ResultOf, Lower, Valued, Converted, CollectOp, Collect, Scalar;
    var here, top := m + exp, s + acc;
    if p.End? {
      ExecNop(w, top, e);
    } else {
      ReadyMore(w, m, sl, tys, s, sc, acc, exp);
      var c := p.test.cond;
      var test, value := Lower(c, here, sl, tys), Valued(p.body, exp, here, sl, tys);
      var body, rest := Seq(value, CollectOp(exp)), LowerStages(exp, p.rest, m, sl, tys);
      ChildMeans(w, c, [TBool], Seq(Exit(CondJump, 0, 0), Seq(body, rest)), here, sl, tys, sc, top, e);
      ExecSeq(w, test, Seq(Exit(CondJump, 0, 0), Seq(body, rest)), top, e);
      var a := Meaning(w, c, sc, e);
      if a.Gives? {
        assert a.values == [Bool(a.values[0].b)];
        ExecTest(w, Seq(body, rest), top, a.values[0].b, a.env);
        if a.values[0].b { StageMeans(w, exp, p, acc, m, sl, tys, sc, s, a.env); }
      }
    }
  }

  /** A stage whose condition held, and the stages behind it. */
  lemma {:induction false} StageMeans(w: World, exp: seq<Ty>, p: Parts, acc: seq<Value>, m: seq<Ty>, sl: seq<nat>, tys: seq<Ty>,
                                      sc: seq<Value>, s: seq<Value>, e: Env)
    requires p.Part? && CheckParts(w, Stage(exp), p, tys) && Scalar(exp) && Ready(w, m, sl, tys, s, sc) && TagsMatch(acc, exp)
    requires Room(w, LowerStages(exp, p, m, sl, tys), m + exp)
    ensures var here := m + exp;
      var code := Seq(Seq(Valued(p.body, exp, here, sl, tys), CollectOp(exp)), LowerStages(exp, p.rest, m, sl, tys));
      var v := Converted(w, exp, Meaning(w, p.body, sc, e));
      var a := if v.Gives? then WhileTrue(w, exp, p.rest, Collect(w, exp, acc, v.values), sc, v.env) else v;
      Reaches(Exec(w, code, s + acc, e), s, a) && Tagged(a, exp)
    decreases p, 0
  {
    hide Check, Room, Exec, Meaning, Ready, ResultOf, Lower, Valued, Converted, CollectOp, Collect, Scalar;
    var here, top := m + exp, s + acc;
    var test, value := Lower(p.test.cond, here, sl, tys), Valued(p.body, exp, here, sl, tys);
    var body, rest := Seq(value, CollectOp(exp)), LowerStages(exp, p.rest, m, sl, tys);
    ReadyIs(w, m, sl, tys, s, sc);
    ScopesUnder(m, exp, sl, tys);
    BranchTest(w, p.test.cond, Seq(Exit(CondJump, 0, 0), Seq(body, rest)), here, sl, tys);
    RoomSkip(w, test, Seq(body, rest), here, here);
    RoomSeq(w, body, rest, here);
    RoomSeq(w, value, CollectOp(exp), here);
    ReadyMore(w, m, sl, tys, s, sc, acc, exp);
    ValuedMeans(w, p.body, exp, here, sl, tys, sc, top, e);
    ValuedTyped(w, p.body, exp, here, sl, tys);
    CollectTyped(w, exp, m);
    LeadsSeq(w, value, CollectOp(exp), here, here + exp, here);
    LeadsHere(w, body, here, here, []);
    ExecSeq(w, body, rest, top, e);
    ExecSeq(w, value, CollectOp(exp), top, e);
    var v := Converted(w, exp, Meaning(w, p.body, sc, e));
    if v.Gives? {
      ReadyIs(w, m, sl, tys, s, sc);
      ScalarSize(exp);
      CollectRoom(w, exp, value, here, m, s, acc);
      ExecCollect(w, exp, s, acc, v.values, v.env);
      StagesMeans(w, exp, p.rest, Collect(w, exp, acc, v.values), m, sl, tys, sc, s, v.env);
    }
  }

  lemma BranchTest(w: World, c: Expr, more: Node, m: seq<Ty>, sl: seq<nat>, tys: seq<Ty>)
    requires Check(w, c, tys) && ResultOf(c, tys) == [TBool] && ScopesOk(m, sl, tys)
    requires Room(w, Seq(Lower(c, m, sl, tys), more), m)
    ensures OutOf(Lower(c, m, sl, tys), m) == m + [TBool]
  {
    hide Check, Room, ResultOf, Lower;
    TestTyped(w, c, [TBool], more, m, sl, tys);
  }

  lemma {:induction false} EffectsMeans(w: World, p: Parts, m: seq<Ty>, sl: seq<nat>, tys: seq<Ty>, sc: seq<Value>, s: seq<Value>, e: Env)
    requires CheckParts(w, Term([]), p, tys) && Ready(w, m, sl, tys, s, sc)
    requires Room(w, LowerEffects(p, m, sl, tys), m)
    ensures Reaches(Exec(w, LowerEffects(p, m, sl, tys), s, e), s, Perform(w, p, sc, e))
    ensures Tagged(Perform(w, p, sc, e), [])
    decreases p, 1
  {
    hide Check, Room, Exec, Meaning, Ready, ResultOf, Lower;
    EmptyOnTop(s);
    if p.End? {
      ExecNop(w, s, e);
    } else {
      var body, rest := Lower(p.body, m, sl, tys), LowerEffects(p.rest, m, sl, tys);
      match p.test
      case Always => EffectMeans(w, p, m, sl, tys, sc, s, e);
      case When(c) =>
        var test := Lower(c, m, sl, tys);
        ChildMeans(w, c, [TBool], Seq(Exit(CondJump, 0, 0), Seq(body, rest)), m, sl, tys, sc, s, e);
        RoomSkip(w, test, Seq(body, rest), m, m);
        ExecSeq(w, test, Seq(Exit(CondJump, 0, 0), Seq(body, rest)), s, e);
        var a := Meaning(w, c, sc, e);
        if a.Gives? {
          assert a.values == [Bool(a.values[0].b)];
          ExecTest(w, Seq(body, rest), s, a.values[0].b, a.env);
          if a.values[0].b { EffectMeans(w, p, m, sl, tys, sc, s, a.env); }
        }
    }
  }

  lemma {:induction false} EffectMeans(w: World, p: Parts, m: seq<Ty>, sl: seq<nat>, tys: seq<Ty>, sc: seq<Value>, s: seq<Value>, e: Env)
    requires p.Part? && CheckParts(w, Term([]), p, tys) && Ready(w, m, sl, tys, s, sc)
    requires Room(w, Seq(Lower(p.body, m, sl, tys), LowerEffects(p.rest, m, sl, tys)), m)
    ensures var v := Meaning(w, p.body, sc, e);
      var a := if v.Gives? then Perform(w, p.rest, sc, v.env) else v;
      Reaches(Exec(w, Seq(Lower(p.body, m, sl, tys), LowerEffects(p.rest, m, sl, tys)), s, e), s, a) && Tagged(a, [])
    decreases p, 0
  {
    hide Check, Room, Exec, Meaning, Ready, ResultOf, Lower;
    var body, rest := Lower(p.body, m, sl, tys), LowerEffects(p.rest, m, sl, tys);
    ChildMeans(w, p.body, [], rest, m, sl, tys, sc, s, e);
    ExecSeq(w, body, rest, s, e);
    var v := Meaning(w, p.body, sc, e);
    if v.Gives? {
      EmptyOnTop(s);
      assert m + [] == m && v.values == [];
      EffectsMeans(w, p.rest, m, sl, tys, sc, s, v.env);
    }
  }

  lemma ScalarSize(exp: seq<Ty>)
    requires Scalar(exp)
    ensures exp == [] || |exp| == 1
  {}

  lemma CollectRoom(w: World, exp: seq<Ty>, value: Node, here: seq<Ty>, m: seq<Ty>, s: seq<Value>, acc: seq<Value>)
    requires Room(w, value, here) && here == m + exp && Matches(w, s, m) && (exp == [] || |exp| == 1)
    ensures |s| <= w.capacity && (exp != [] ==> |s| < w.capacity)
  {
    RoomSize(w, value, here);
  }

  // --- switch -----------------------------------------------------------------------------------

  lemma ExecCompare(w: World, slot: nat, m: seq<Ty>, s: seq<Value>, c: seq<Value>, t: seq<Ty>, e: Env)
    requires Matches(w, s, m) && slot < |m| <= INT32_MAX && TagsMatch(c, t) && |t| == 1 && |s| + 1 < w.capacity
    ensures Exec(w, Op1(CompareEqual, Pack2(slot, |m|)), s + c, e) == Fell(s + c + [Bool(SameValue(w, s[w.base + slot], c[0]))], e)
  {
    MatchesLength(w, s, m);
    Unpack2(slot, |m|);
  }

  /** One case: its value is compared and erased; on equality the body runs and leaves. */
  lemma {:induction false} CaseMeans(w: World, exp: seq<Ty>, p: Parts, c: Expr, slot: nat, m: seq<Ty>, sl: seq<nat>, tys: seq<Ty>,
                                     sc: seq<Value>, s: seq<Value>, e: Env)
    requires p.Part? && p.test == When(c)
    requires Check(w, c, tys) && |ResultOf(c, tys)| == 1 && Ready(w, m, sl, tys, s, sc) && slot < |m|
    requires Check(w, p.body, tys) && Convertible(ResultOf(p.body, tys), exp)
    requires Room(w, CaseClause(exp, c, p.body, slot, m, sl, tys), m)
    ensures Tagged(Meaning(w, c, sc, e), ResultOf(c, tys))
    ensures var x := Exec(w, CaseClause(exp, c, p.body, slot, m, sl, tys), s, e);
      match Meaning(w, c, sc, e)
      case Gives(vs, e1) =>
        |vs| == 1 && if SameValue(w, s[w.base + slot], vs[0])
                     then var v := Converted(w, exp, Meaning(w, p.body, sc, e1)); Reaches(x, s, v) && Tagged(v, exp) && !x.Fell?
                     else x == Fell(s + vs, e1)
      case Raises(err) => x == Threw(err)
      case NoAnswer => x == Undefined
    decreases p, 0
  {
    hide Check, Room, Exec, Meaning, Ready, ResultOf, Lower, Valued, Converted, Clause, Pack2;
    var t := ResultOf(c, tys);
    var value, compare := Lower(c, m, sl, tys), Op1(CompareEqual, Pack2(slot, |m|));
    var erase, then_ := EraseSlot(|m|), Valued(p.body, exp, m, sl, tys);
    ReadyIs(w, m, sl, tys, s, sc);
    CaseRooms(w, exp, c, p.body, slot, m, sl, tys);
    LowerMeans(w, c, m, sl, tys, sc, s, e);
    ExecSeq(w, value, compare, s, e);
    var a := Meaning(w, c, sc, e);
    if a.Gives? {
      ExecCompare(w, slot, m, s, a.values, t, a.env);
      ExecClause(w, Seq(value, compare), Seq(erase, then_), m + t, s, e, s + a.values, SameValue(w, s[w.base + slot], a.values[0]), a.env);
      if SameValue(w, s[w.base + slot], a.values[0]) {
        ExecSeq(w, erase, then_, s + a.values, a.env);
        ExecErase(w, s, m, a.values, [], a.env);
        EmptyOnTop(s + a.values);
        EmptyOnTop(s);
        ValuedMeans(w, p.body, exp, m, sl, tys, sc, s, a.env);
      }
    } else {
      ExecClauseStops(w, Seq(value, compare), Seq(erase, then_), m + t, s, e);
    }
  }

  function CaseClause(exp: seq<Ty>, c: Expr, body: Expr, slot: nat, m: seq<Ty>, sl: seq<nat>, tys: seq<Ty>): Node {
    Clause(Seq(Lower(c, m, sl, tys), Op1(CompareEqual, Pack2(slot, |m|))),
           Seq(EraseSlot(|m|), Valued(body, exp, m, sl, tys)), m + ResultOf(c, tys))
  }

  lemma CaseRooms(w: World, exp: seq<Ty>, c: Expr, body: Expr, slot: nat, m: seq<Ty>, sl: seq<nat>, tys: seq<Ty>)
    requires Check(w, c, tys) && |ResultOf(c, tys)| == 1 && ScopesOk(m, sl, tys) && slot < |m|
    requires Room(w, CaseClause(exp, c, body, slot, m, sl, tys), m)
    ensures Room(w, Lower(c, m, sl, tys), m) && Room(w, Valued(body, exp, m, sl, tys), m)
    ensures |m| <= INT32_MAX && w.base + |m| + 1 < w.capacity
  {
    hide Check, Room, ResultOf, Lower, Valued, Clause, Pack2, Leads;
    var t := ResultOf(c, tys);
    var value, compare := Lower(c, m, sl, tys), Op1(CompareEqual, Pack2(slot, |m|));
    var erase, then_ := EraseSlot(|m|), Valued(body, exp, m, sl, tys);
    RoomTest(w, value, compare, Seq(erase, then_), m, m + t);
    RoomSize(w, value, m);
    LowerTyped(w, c, m, sl, tys);
    LeadsHere(w, value, m, m + t, []);
    CompareTyped(w, slot, m, t);
    LeadsSeq(w, value, compare, m, m + t, m + t + [TBool]);
    LeadsHere(w, Seq(value, compare), m, m + t + [TBool], []);
    RoomClause(w, Seq(value, compare), Seq(erase, then_), m, m + t);
    RoomSeq(w, erase, then_, m + t);
    DropsLast(w, m, t, []);
    assert m + t + [] == m + t && m + [] == m;
    LeadsHere(w, erase, m + t, m, []);
    ComparePeak(w, value, compare, Seq(erase, then_), m, m + t);
  }

  lemma ComparePeak(w: World, value: Node, compare: Node, body: Node, m: seq<Ty>, mid: seq<Ty>)
    requires Room(w, Clause(Seq(value, compare), body, mid), m) && OutOf(Seq(value, compare), m) == mid + [TBool]
    ensures w.base + |mid| + 1 <= w.capacity
  {
    hide OutOf, Room, PeakOf;
    var rest := Seq(Exit(CondJump, 0, 0), Seq(body, Exit(Jump, 0, 1)));
    RoomBlock(w, Seq(Seq(value, compare), rest), mid, m);
    RoomSeq(w, Seq(value, compare), rest, m);
    RoomSize(w, rest, mid + [TBool]);
  }

  lemma {:induction false} CasesMeans(w: World, exp: seq<Ty>, p: Parts, slot: nat, t: seq<Ty>, m: seq<Ty>, sl: seq<nat>, tys: seq<Ty>,
                                      sc: seq<Value>, s: seq<Value>, e: Env)
    requires CheckParts(w, Case(t, exp), p, tys) && |t| == 1 && Ready(w, m, sl, tys, s, sc) && slot < |m|
    requires Room(w, LowerCases(exp, p, slot, m, sl, tys), m)
    ensures Reaches(Exec(w, LowerCases(exp, p, slot, m, sl, tys), s, e), s, CaseOf(w, exp, p, s[w.base + slot], sc, e))
    ensures Tagged(CaseOf(w, exp, p, s[w.base + slot], sc, e), exp)
    decreases p, 1
  {
    hide Check, Room, Exec, Meaning, Ready, ResultOf, Lower, Valued, Converted, Clause, Pack2;
    match p
    case End => ExecNoCase(w, exp, s, e);
    case Part(test, body, rest) =>
      match test
      case Always => ValuedMeans(w, body, exp, m, sl, tys, sc, s, e);
      case When(c) =>
        var clause, more := CaseClause(exp, c, body, slot, m, sl, tys), LowerCases(exp, rest, slot, m, sl, tys);
        RoomSeq(w, clause, Seq(EraseSlot(|m|), more), m);
        ReadyIs(w, m, sl, tys, s, sc);
        CaseMeans(w, exp, p, c, slot, m, sl, tys, sc, s, e);
        ExecSeq(w, clause, Seq(EraseSlot(|m|), more), s, e);
        var a := Meaning(w, c, sc, e);
        if a.Gives? && !SameValue(w, s[w.base + slot], a.values[0]) {
          ExecSeq(w, EraseSlot(|m|), more, s + a.values, a.env);
          ExecErase(w, s, m, a.values, [], a.env);
          EmptyOnTop(s + a.values);
          EmptyOnTop(s);
          CaseLeadsOn(w, exp, c, body, more, slot, m, sl, tys);
          CasesMeans(w, exp, rest, slot, t, m, sl, tys, sc, s, a.env);
        }
  }

  lemma CaseLeadsOn(w: World, exp: seq<Ty>, c: Expr, body: Expr, more: Node, slot: nat, m: seq<Ty>, sl: seq<nat>, tys: seq<Ty>)
    requires |ResultOf(c, tys)| == 1
    requires Room(w, Seq(CaseClause(exp, c, body, slot, m, sl, tys), Seq(EraseSlot(|m|), more)), m)
    ensures Room(w, more, m)
  {
    hide Room, Lower, Valued, Pack2, Leads;
    var t, clause := ResultOf(c, tys), CaseClause(exp, c, body, slot, m, sl, tys);
    RoomSeq(w, clause, Seq(EraseSlot(|m|), more), m);
    assert OutOf(clause, m) == m + t;
    RoomSeq(w, EraseSlot(|m|), more, m + t);
    DropsLast(w, m, t, []);
    assert m + t + [] == m + t && m + [] == m;
    LeadsHere(w, EraseSlot(|m|), m + t, m, []);
  }

  lemma ExecNoCase(w: World, exp: seq<Ty>, s: seq<Value>, e: Env)
    ensures Yields(Exec(w, if exp == [] then Nop else Op1(NoMatch, 0), s, e), s, if exp == [] then Gives([], e) else Raises(NoMatchingCase))
  {
    EmptyOnTop(s);
  }

  // --- random -----------------------------------------------------------------------------------

  function FloatVals(rs: seq<real>): (r: seq<Value>)
    ensures |r| == |rs|
  {
    seq(|rs|, i requires 0 <= i < |rs| => Float(rs[i]))
  }

  lemma FloatTags(rs: seq<real>)
    ensures TagsMatch(FloatVals(rs), Floats(|rs|))
  {}

  /** The stack while weights are being computed: the roll, then the running totals. */
  function WeightStack(w: World, s: seq<Value>, roll: real, ws: seq<real>): seq<Value> {
    s + FloatVals([roll] + Cumulative(w, ws))
  }

  /** Stores into a float slot what the operation makes of two float slots. */
  lemma ExecStore(w: World, p: Prim, a: nat, b: nat, s: seq<Value>, e: Env)
    requires p.AddToSlot? || p.MulIntoSlot?
    requires a <= INT32_MAX && w.base + a < |s| && w.base + b < |s| && s[w.base + a].Float? && s[w.base + b].Float?
    ensures var x, y := s[w.base + a].r, s[w.base + b].r;
      Exec(w, Op1(p, Pack2(a, b)), s, e) == Fell(s[w.base + a := Float(if p.AddToSlot? then w.add(x, y) else w.mul(x, y))], e)
  {
    hide LowHalf, HighHalf, Pack2, BranchStep, CallStep;
    Unpack2(a, b);
  }

  lemma CumulativeStep(w: World, ws: seq<real>, x: real)
    ensures Cumulative(w, ws + [x]) == Cumulative(w, ws) + [if ws == [] then x else w.add(x, Last(Cumulative(w, ws)))]
  {
    assert (ws + [x])[..|ws|] == ws;
  }

  lemma WeightStackPush(w: World, s: seq<Value>, m: seq<Ty>, roll: real, ws: seq<real>, x: real, e: Env)
    requires Matches(w, s, m) && |m| + 2 + |ws| <= INT32_MAX
    ensures var k := |ws|;
      Exec(w, if k == 0 then Nop else Op1(AddToSlot, Pack2(|m| + 1 + k, |m| + k)), WeightStack(w, s, roll, ws) + [Float(x)], e) ==
      Fell(WeightStack(w, s, roll, ws + [x]), e)
  {
    hide Cumulative, Pack2, Exec, WeightStack;
    MatchesLength(w, s, m);
    var k, cums, under := |ws|, Cumulative(w, ws), WeightStack(w, s, roll, ws);
    WeightStackIs(w, s, roll, ws);
    WeightStackGrows(w, s, roll, ws, x);
    if k == 0 {
      ExecNop(w, under + [Float(x)], e);
    } else {
      var top := under + [Float(x)];
      assert top[|s| + k] == Float(Last(cums)) && top[|s| + 1 + k] == Float(x);
      ExecStore(w, AddToSlot, |m| + 1 + k, |m| + k, top, e);
      assert top[|s| + 1 + k := Float(w.add(x, Last(cums)))] == under + [Float(w.add(x, Last(cums)))];
    }
  }

  lemma WeightStackIs(w: World, s: seq<Value>, roll: real, ws: seq<real>)
    ensures |WeightStack(w, s, roll, ws)| == |s| + 1 + |ws|
    ensures ws != [] ==> WeightStack(w, s, roll, ws)[|s| + |ws|] == Float(Last(Cumulative(w, ws)))
  {
    hide Cumulative;
  }

  lemma WeightStackGrows(w: World, s: seq<Value>, roll: real, ws: seq<real>, x: real)
    ensures WeightStack(w, s, roll, ws + [x]) ==
            WeightStack(w, s, roll, ws) + [Float(if ws == [] then x else w.add(x, Last(Cumulative(w, ws))))]
  {
    hide Cumulative;
    CumulativeStep(w, ws, x);
    var cums, last := Cumulative(w, ws), if ws == [] then x else w.add(x, Last(Cumulative(w, ws)));
    assert FloatVals([roll] + (cums + [last])) == FloatVals([roll] + cums) + [Float(last)];
  }

  lemma ExecCheckWeight(w: World, s: seq<Value>, x: real, e: Env)
    ensures Exec(w, Op1(CheckWeight, 0), s + [Float(x)], e) == if w.lessEq(0.0, x) then Fell(s + [Float(x)], e) else Threw(BadWeight)
  {}

  lemma {:induction false} WeightsMeans(w: World, exp: seq<Ty>, p: Parts, ws: seq<real>, roll: real, m: seq<Ty>, sl: seq<nat>, tys: seq<Ty>,
                                        sc: seq<Value>, s: seq<Value>, e: Env)
    requires CheckParts(w, Weighted(exp), p, tys) && Ready(w, m, sl, tys, s, sc)
    requires Room(w, LowerWeights(p, |ws|, m, sl, tys), m + Floats(1 + |ws|))
    ensures var x := Exec(w, LowerWeights(p, |ws|, m, sl, tys), WeightStack(w, s, roll, ws), e);
      match Weigh(w, p, sc, e, ws)
      case Weighed(all, e') => |all| == |ws| + CountParts(p) && x == Fell(WeightStack(w, s, roll, all), e')
      case Unweighed(a) => (a.Raises? && x == Threw(a.error)) || (a.NoAnswer? && x == Undefined)
    decreases p, 0
  {
    hide Check, Room, Exec, Meaning, Ready, ResultOf, Lower, Valued, Pack2, WeightStack, Leads;
    var k, here, top := |ws|, m + Floats(1 + |ws|), WeightStack(w, s, roll, ws);
    if p.End? {
      ExecNop(w, top, e);
    } else {
      var c, next := p.test.cond, m + Floats(2 + k);
      var weight, check, add := Valued(c, [TFloat], here, sl, tys), Op1(CheckWeight, 0), if k == 0 then Nop else Op1(AddToSlot, Pack2(|m| + 1 + k, |m| + k));
      var rest := LowerWeights(p.rest, k + 1, m, sl, tys);
      RoomSeq(w, weight, Seq(check, Seq(add, rest)), here);
      ReadyWeights(w, m, sl, tys, s, sc, roll, ws);
      ReadyIs(w, m, sl, tys, s, sc);
      ValuedMeans(w, c, [TFloat], here, sl, tys, sc, top, e);
      ExecSeq(w, weight, Seq(check, Seq(add, rest)), top, e);
      var a := Converted(w, [TFloat], Meaning(w, c, sc, e));
      if a.Gives? {
        var x := a.values[0].r;
        assert a.values == [Float(x)];
        ExecCheckWeight(w, top, x, a.env);
        ExecSeq(w, check, Seq(add, rest), top + [Float(x)], a.env);
        if w.lessEq(0.0, x) {
          WeightRest(w, c, k, rest, m, sl, tys);
          WeightStackPush(w, s, m, roll, ws, x, a.env);
          ExecSeq(w, add, rest, top + [Float(x)], a.env);
          WeightsMeans(w, exp, p.rest, ws + [x], roll, m, sl, tys, sc, s, a.env);
        }
      }
    }
  }

  /** Room for what lies behind one weight. */
  lemma WeightRest(w: World, c: Expr, k: nat, rest: Node, m: seq<Ty>, sl: seq<nat>, tys: seq<Ty>)
    requires Check(w, c, tys) && Convertible(ResultOf(c, tys), [TFloat]) && ScopesOk(m, sl, tys)
    requires var add := if k == 0 then Nop else Op1(AddToSlot, Pack2(|m| + 1 + k, |m| + k));
      Room(w, Seq(Valued(c, [TFloat], m + Floats(1 + k), sl, tys), Seq(Op1(CheckWeight, 0), Seq(add, rest))), m + Floats(1 + k))
    ensures Room(w, rest, m + Floats(2 + k)) && |m| + 2 + k <= INT32_MAX
  {
    hide Check, Room, ResultOf, Valued, Pack2, Leads, Convertible, OutOf;
    var here, next := m + Floats(1 + k), m + Floats(2 + k);
    var weight, check, add := Valued(c, [TFloat], here, sl, tys), Op1(CheckWeight, 0), if k == 0 then Nop else Op1(AddToSlot, Pack2(|m| + 1 + k, |m| + k));
    RoomSeq(w, weight, Seq(check, Seq(add, rest)), here);
    ScopesUnder(m, Floats(1 + k), sl, tys);
    ValuedTyped(w, c, [TFloat], here, sl, tys);
    FloatAbove(m, 1 + k);
    LeadsHere(w, weight, here, next, []);
    RoomSize(w, Seq(check, Seq(add, rest)), next);
    WeightOps(w, m, k);
    LeadsHere(w, check, next, next, []);
    LeadsHere(w, add, next, next, []);
    RoomSeq(w, check, Seq(add, rest), next);
    RoomSeq(w, add, rest, next);
  }

  lemma ReadyWeights(w: World, m: seq<Ty>, sl: seq<nat>, tys: seq<Ty>, s: seq<Value>, sc: seq<Value>, roll: real, ws: seq<real>)
    requires Ready(w, m, sl, tys, s, sc)
    ensures Ready(w, m + Floats(1 + |ws|), sl, tys, WeightStack(w, s, roll, ws), sc)
  {
    hide Ready;
    FloatTags([roll] + Cumulative(w, ws));
    ReadyMore(w, m, sl, tys, s, sc, FloatVals([roll] + Cumulative(w, ws)), Floats(1 + |ws|));
  }

  lemma ExecScale(w: World, m: seq<Ty>, s: seq<Value>, roll: real, ws: seq<real>, e: Env)
    requires Matches(w, s, m) && ws != [] && |m| + 1 + |ws| <= INT32_MAX
    ensures Exec(w, Op1(MulIntoSlot, Pack2(|m|, |m| + |ws|)), WeightStack(w, s, roll, ws), e) ==
            Fell(WeightStack(w, s, w.mul(roll, Last(Cumulative(w, ws))), ws), e)
  {
    hide Cumulative, Exec, Pack2;
    MatchesLength(w, s, m);
    var cums, st := Cumulative(w, ws), WeightStack(w, s, roll, ws);
    assert st[|s|] == Float(roll) && st[|s| + |ws|] == Float(Last(cums));
    ExecStore(w, MulIntoSlot, |m|, |m| + |ws|, st, e);
    assert st[|s| := Float(w.mul(roll, Last(cums)))] == WeightStack(w, s, w.mul(roll, Last(cums)), ws);
  }

  lemma ExecCompareLess(w: World, a: nat, b: nat, s: seq<Value>, e: Env)
    requires a <= INT32_MAX && w.base + a < |s| < w.capacity && w.base + b < |s| && s[w.base + a].Float? && s[w.base + b].Float?
    ensures Exec(w, Op1(CompareLessEq, Pack2(a, b)), s, e) == Fell(s + [Bool(w.lessEq(s[w.base + a].r, s[w.base + b].r))], e)
  {
    hide LowHalf, HighHalf, Pack2, BranchStep, CallStep;
    Unpack2(a, b);
  }

  lemma ExecLess(w: World, m: seq<Ty>, s: seq<Value>, roll: real, ws: seq<real>, k: nat, e: Env)
    requires Matches(w, s, m) && k < |ws| && |m| + 1 + |ws| <= INT32_MAX && w.base + |m| + 1 + |ws| < w.capacity
    ensures Exec(w, Op1(CompareLessEq, Pack2(|m|, |m| + 1 + k)), WeightStack(w, s, roll, ws), e) ==
            Fell(WeightStack(w, s, roll, ws) + [Bool(w.lessEq(roll, Cumulative(w, ws)[k]))], e)
  {
    hide Cumulative, Exec, Pack2;
    MatchesLength(w, s, m);
    var cums, st := Cumulative(w, ws), WeightStack(w, s, roll, ws);
    assert st[|s|] == Float(roll) && st[|s| + 1 + k] == Float(cums[k]);
    ExecCompareLess(w, |m|, |m| + 1 + k, st, e);
  }

  lemma {:induction false} BranchesMeans(w: World, exp: seq<Ty>, p: Parts, k: nat, ws: seq<real>, roll: real, m: seq<Ty>, sl: seq<nat>, tys: seq<Ty>,
                                         sc: seq<Value>, s: seq<Value>, e: Env)
    requires CheckParts(w, Weighted(exp), p, tys) && Ready(w, m, sl, tys, s, sc) && k + CountParts(p) == |ws|
    requires Room(w, LowerBranches(exp, p, k, |ws|, m, sl, tys), m + Floats(1 + |ws|))
    ensures Reaches(Exec(w, LowerBranches(exp, p, k, |ws|, m, sl, tys), WeightStack(w, s, roll, ws), e), WeightStack(w, s, roll, ws),
                    Chosen(w, exp, p, Cumulative(w, ws), k, roll, sc, e))
    ensures Tagged(Chosen(w, exp, p, Cumulative(w, ws), k, roll, sc, e), exp)
    decreases p, 0
  {
    hide Check, Room, Exec, Meaning, Ready, ResultOf, Lower, Valued, Pack2, WeightStack, Leads, Clause, Converted;
    var n, here, top := |ws|, m + Floats(1 + |ws|), WeightStack(w, s, roll, ws);
    EmptyOnTop(top);
    match p
    case End => ExecNoBranch(w, exp, top, e);
    case Part(_, body, rest) =>
      var test, value := Op1(CompareLessEq, Pack2(|m|, |m| + 1 + k)), Valued(body, exp, here, sl, tys);
      var more := LowerBranches(exp, rest, k + 1, n, m, sl, tys);
      RoomSeq(w, Clause(test, value, here), more, here);
      RoomSize(w, Clause(test, value, here), here);
      LessTyped(w, m, n, k);
      LeadsHere(w, test, here, here + [TBool], []);
      RoomClause(w, test, value, here, here);
      LessPeak(w, test, value, here);
      ReadyIs(w, m, sl, tys, s, sc);
      ReadyWeights(w, m, sl, tys, s, sc, roll, ws);
      ExecLess(w, m, s, roll, ws, k, e);
      var b := w.lessEq(roll, Cumulative(w, ws)[k]);
      ExecClause(w, test, value, here, top, e, top, b, e);
      ExecSeq(w, Clause(test, value, here), more, top, e);
      if b {
        ValuedMeans(w, body, exp, here, sl, tys, sc, top, e);
      } else {
        ClauseOut(test, value, here, here);
        BranchesMeans(w, exp, rest, k + 1, ws, roll, m, sl, tys, sc, s, e);
      }
  }

  lemma ClauseOut(test: Node, body: Node, mid: seq<Ty>, m: seq<Ty>)
    ensures OutOf(Clause(test, body, mid), m) == mid
  {}

  lemma LessPeak(w: World, test: Node, body: Node, m: seq<Ty>)
    requires Room(w, Clause(test, body, m), m) && OutOf(test, m) == m + [TBool]
    ensures w.base + |m| + 1 <= w.capacity
  {
    hide OutOf, Room, PeakOf;
    var rest := Seq(Exit(CondJump, 0, 0), Seq(body, Exit(Jump, 0, 1)));
    RoomBlock(w, Seq(test, rest), m, m);
    RoomSeq(w, test, rest, m);
    RoomSize(w, rest, m + [TBool]);
  }

  lemma ExecNoBranch(w: World, exp: seq<Ty>, s: seq<Value>, e: Env)
    ensures Yields(Exec(w, if exp == [] then Nop else Stuck, s, e), s, if exp == [] then Gives([], e) else NoAnswer)
  {
    EmptyOnTop(s);
  }

  lemma {:induction false} ExecEraseDown(w: World, m: seq<Ty>, s: seq<Value>, fs: seq<Value>, vs: seq<Value>, e: Env)
    requires Matches(w, s, m) && |fs| > 0
    ensures Exec(w, EraseDown(|m|, |fs| - 1), s + fs + vs, e) == Fell(s + vs, e)
    decreases |fs|
  {
    hide Exec;
    MatchesLength(w, s, m);
    var n := |fs| - 1;
    if n == 0 {
      ExecErase(w, s, m, fs, vs, e);
    } else {
      ExecEraseAt(w, s + fs[..n], |m| + n, fs[n..], vs, e);
      assert s + fs[..n] + fs[n..] + vs == s + fs + vs;
      ExecSeq(w, EraseSlot(|m| + n), EraseDown(|m|, n - 1), s + fs + vs, e);
      ExecEraseDown(w, m, s, fs[..n], vs, e);
    }
  }

  lemma ExecEraseAt(w: World, s: seq<Value>, slot: nat, v: seq<Value>, vs: seq<Value>, e: Env)
    requires |s| == w.base + slot && |v| == 1
    ensures Exec(w, EraseSlot(slot), s + v + vs, e) == Fell(s + vs, e)
  {
    var all := s + v + vs;
    assert all[..|s|] + all[|s| + 1..] == s + vs;
  }

  // --- expressions --------------------------------------------------------------------------

  lemma SimpleMeans(w: World, x: Expr, m: seq<Ty>, sl: seq<nat>, tys: seq<Ty>, sc: seq<Value>, s: seq<Value>, e: Env)
    requires (x.Literal? || x.Outer?) && Check(w, x, tys) && Ready(w, m, sl, tys, s, sc) && Room(w, Lower(x, m, sl, tys), m)
    ensures Yields(Exec(w, Lower(x, m, sl, tys), s, e), s, Meaning(w, x, sc, e))
    ensures Tagged(Meaning(w, x, sc, e), ResultOf(x, tys))
  {
    hide Matches, BranchStep, Args, Decide, Accumulate, FirstOf, WhileTrue, CaseOf, Weigh, Chosen, Perform, LowerArgs, LowerLogic, LowerTerms,
      LowerSelect, LowerStages, LowerCases, LowerWeights, LowerBranches, LowerEffects, CallStep;
    MatchesLength(w, s, m);
    if x.Outer? { MatchesAt(w, s, m, sl[|sl| - 1 - x.up]); }
  }

  lemma SavedMeans(w: World, x: Expr, m: seq<Ty>, sl: seq<nat>, tys: seq<Ty>, sc: seq<Value>, s: seq<Value>, e: Env)
    requires x.Saved? && Check(w, x, tys) && Ready(w, m, sl, tys, s, sc) && Room(w, Lower(x, m, sl, tys), m)
    ensures Yields(Exec(w, Lower(x, m, sl, tys), s, e), s, Meaning(w, x, sc, e))
    ensures Tagged(Meaning(w, x, sc, e), ResultOf(x, tys))
  {
    hide Matches, BranchStep, PrimStep, Args, Decide, Accumulate, FirstOf, WhileTrue, CaseOf, Weigh, Chosen, Perform, LowerArgs, LowerLogic, LowerTerms,
      LowerSelect, LowerStages, LowerCases, LowerWeights, LowerBranches, LowerEffects;
    MatchesLength(w, s, m);
    var r := w.read(x.kind, x.slot, e);
    if r.Got? && TypeOf(r.value) == x.ty {
      var all := s + [Context] + [r.value];
      assert all[..|s|] + all[|s| + 1..] == s + [r.value];
    }
  }

  lemma ExecCall(w: World, sig: Signature, m: seq<Ty>, sl: seq<nat>, tys: seq<Ty>, sc: seq<Value>, s: seq<Value>, vs: seq<Value>, e: Env)
    requires Ready(w, m, sl, tys, s, sc) && TagsMatch(vs, sig.args)
    requires sig.scope.Some? ==> tys != [] && Last(tys) == sig.scope.value
    requires |s| + (if sig.ret.Some? then 1 else 0) <= w.capacity
    ensures Yields(Exec(w, Op1(Call(sig), ScopeSlot(sl)), s + vs, e), s, CallAnswer(w, sig, sc, vs, e))
    ensures Tagged(CallAnswer(w, sig, sc, vs, e), if sig.ret.Some? then [sig.ret.value] else [])
  {
    hide TagsMatch, Matches;
    MatchesLength(w, s, m);
    TagsLength(vs, sig.args);
    var all, n := s + vs, |vs|;
    assert all[|all| - n..] == vs && all[..|all| - n] == s;
    if sig.scope.Some? { MatchesAt(w, s, m, Last(sl)); }
    EmptyOnTop(s);
    var a := CallAnswer(w, sig, sc, vs, e);
    if a.Gives? { TagsOf(a.values, sig.ret); }
  }

  lemma TagsLength(vs: seq<Value>, t: seq<Ty>)
    requires TagsMatch(vs, t)
    ensures |vs| == |t|
  {}

  lemma TagsOf(vs: seq<Value>, ret: Option<Ty>)
    requires if ret.Some? then |vs| == 1 && TypeOf(vs[0]) == ret.value else vs == []
    ensures TagsMatch(vs, if ret.Some? then [ret.value] else [])
  {}

  lemma {:induction false} NativeMeans(w: World, x: Expr, m: seq<Ty>, sl: seq<nat>, tys: seq<Ty>, sc: seq<Value>, s: seq<Value>, e: Env)
    requires x.Native? && Check(w, x, tys) && Ready(w, m, sl, tys, s, sc) && Room(w, Lower(x, m, sl, tys), m)
    ensures Yields(Exec(w, Lower(x, m, sl, tys), s, e), s, Meaning(w, x, sc, e))
    ensures Tagged(Meaning(w, x, sc, e), ResultOf(x, tys))
    decreases x, 0
  {
    hide Room, Exec, Ready, CheckParts, LowerArgs, Leads, CallAnswer, TagsMatch;
    var args, call := LowerArgs(x.args, m, sl, tys), Op1(Call(x.sig), ScopeSlot(sl));
    RoomSeq(w, args, call, m);
    ReadyIs(w, m, sl, tys, s, sc);
    ArgsTyped(w, x.args, x.sig.args, m, sl, tys);
    LeadsHere(w, args, m, m + x.sig.args, []);
    ArgsMeans(w, x.args, x.sig.args, m, sl, tys, sc, s, e);
    ExecSeq(w, args, call, s, e);
    var a := Args(w, x.args, sc, e);
    if a.Gives? {
      CallRoom(w, x.sig, ScopeSlot(sl), m);
      ExecCall(w, x.sig, m, sl, tys, sc, s, a.values, a.env);
    }
  }

  lemma CallRoom(w: World, sig: Signature, slot: nat, m: seq<Ty>)
    requires Room(w, Op1(Call(sig), slot), m + sig.args)
    ensures w.base + |m| + (if sig.ret.Some? then 1 else 0) <= w.capacity
  {
    assert Init(m + sig.args, |sig.args|) == m;
  }

  lemma {:induction false} LogicBlockMeans(w: World, x: Expr, m: seq<Ty>, sl: seq<nat>, tys: seq<Ty>, sc: seq<Value>, s: seq<Value>, e: Env)
    requires x.Logic? && Check(w, x, tys) && Ready(w, m, sl, tys, s, sc) && Room(w, Lower(x, m, sl, tys), m)
    ensures Yields(Exec(w, Lower(x, m, sl, tys), s, e), s, Meaning(w, x, sc, e))
    ensures Tagged(Meaning(w, x, sc, e), [TBool])
    decreases x, 0
  {
    hide Room, Exec, Ready, CheckParts, LowerLogic, Decide;
    var out, code := m + [TBool], LowerLogic(x.any, x.kids, true, m, sl, tys);
    if x.negated {
      RoomSeq(w, Block(code, out), Op1(Not, 0), m);
      ExecSeq(w, Block(code, out), Op1(Not, 0), s, e);
      assert OutOf(Block(code, out), m) == out;
      RoomSize(w, Op1(Not, 0), out);
      ReadyIs(w, m, sl, tys, s, sc);
    }
    RoomBlock(w, code, out, m);
    LogicMeans(w, x.any, x.kids, true, m, sl, tys, sc, s, e);
    Blocked(w, code, out, s, e, s, Decide(w, x.any, x.kids, sc, e));
    var a := Decide(w, x.any, x.kids, sc, e);
    if a.Gives? {
      assert a.values == [Bool(a.values[0].b)];
      if x.negated { ExecNot(w, s, a.values[0].b, a.env); }
    }
  }

  lemma ExecNot(w: World, s: seq<Value>, b: bool, e: Env)
    requires |s| < w.capacity
    ensures Exec(w, Op1(Not, 0), s + [Bool(b)], e) == Fell(s + [Bool(!b)], e)
  {
    var s' := s + [Bool(b)];
    PopBoolTyped(w, s');
    assert s'[..|s|] == s;
  }

  lemma ExecIdentity(w: World, product: bool, op: Prim, ty: Ty, m: seq<Ty>, s: seq<Value>, e: Env)
    requires TotalOk(product, op, ty) && |s| < w.capacity
    ensures Exec(w, IdentityPush(product, ty), s, e) == Fell(s + [Identity(w, product, ty)], e)
    ensures TypeOf(Identity(w, product, ty)) == ty
  {}

  lemma {:induction false} TotalMeans(w: World, x: Expr, m: seq<Ty>, sl: seq<nat>, tys: seq<Ty>, sc: seq<Value>, s: seq<Value>, e: Env)
    requires x.Total? && Check(w, x, tys) && Ready(w, m, sl, tys, s, sc) && Room(w, Lower(x, m, sl, tys), m)
    ensures Yields(Exec(w, Lower(x, m, sl, tys), s, e), s, Meaning(w, x, sc, e))
    ensures Tagged(Meaning(w, x, sc, e), [x.ty])
    decreases x, 0
  {
    hide Room, Exec, Ready, CheckParts, LowerTerms, Accumulate, TotalOk, Leads, IdentityPush, Identity;
    if Conditional(x.terms) {
      var push, terms := IdentityPush(x.product, x.ty), LowerTerms(x.op, x.ty, x.terms, false, m, sl, tys);
      RoomSeq(w, push, terms, m);
      IdentityTyped(w, x.product, x.op, x.ty, m);
      LeadsHere(w, push, m, m + [x.ty], []);
      RoomSize(w, terms, m + [x.ty]);
      ReadyIs(w, m, sl, tys, s, sc);
      ExecIdentity(w, x.product, x.op, x.ty, m, s, e);
      ExecSeq(w, push, terms, s, e);
      TermsMeans(w, x.product, x.op, x.ty, x.terms, [Identity(w, x.product, x.ty)], m, sl, tys, sc, s, e);
    } else {
      EmptyOnTop(s);
      TermsMeans(w, x.product, x.op, x.ty, x.terms, [], m, sl, tys, sc, s, e);
    }
  }

  lemma {:induction false} SequenceMeans(w: World, x: Expr, m: seq<Ty>, sl: seq<nat>, tys: seq<Ty>, sc: seq<Value>, s: seq<Value>, e: Env)
    requires x.Sequence? && Check(w, x, tys) && Ready(w, m, sl, tys, s, sc) && Room(w, Lower(x, m, sl, tys), m)
    ensures Yields(Exec(w, Lower(x, m, sl, tys), s, e), s, Meaning(w, x, sc, e))
    ensures Tagged(Meaning(w, x, sc, e), x.exp)
    decreases x, 0
  {
    hide Room, Exec, Ready, CheckParts, LowerStages, WhileTrue, Leads, StartPush, Start, Scalar;
    var out, push, stages := m + x.exp, StartPush(x.exp), LowerStages(x.exp, x.clauses, m, sl, tys);
    RoomSeq(w, push, Block(stages, out), m);
    CollectTyped(w, x.exp, m);
    LeadsHere(w, push, m, out, []);
    RoomBlock(w, stages, out, out);
    RoomSize(w, stages, out);
    ReadyIs(w, m, sl, tys, s, sc);
    ScalarSize(x.exp);
    ExecStart(w, x.exp, s, e);
    ExecSeq(w, push, Block(stages, out), s, e);
    StagesMeans(w, x.exp, x.clauses, Start(w, x.exp), m, sl, tys, sc, s, e);
    Blocked(w, stages, out, s + Start(w, x.exp), e, s, WhileTrue(w, x.exp, x.clauses, Start(w, x.exp), sc, e));
  }

  lemma ExecStart(w: World, exp: seq<Ty>, s: seq<Value>, e: Env)
    requires Scalar(exp) && |s| + |exp| <= w.capacity
    ensures Exec(w, StartPush(exp), s, e) == Fell(s + Start(w, exp), e) && TagsMatch(Start(w, exp), exp)
  {
    EmptyOnTop(s);
  }

  lemma {:induction false} SwitchMeans(w: World, x: Expr, m: seq<Ty>, sl: seq<nat>, tys: seq<Ty>, sc: seq<Value>, s: seq<Value>, e: Env)
    requires x.Switch? && Check(w, x, tys) && Ready(w, m, sl, tys, s, sc) && Room(w, Lower(x, m, sl, tys), m)
    ensures Yields(Exec(w, Lower(x, m, sl, tys), s, e), s, Meaning(w, x, sc, e))
    ensures Tagged(Meaning(w, x, sc, e), x.exp)
    decreases x, 0
  {
    hide Room, Exec, Ready, CheckParts, LowerCases, CaseOf, Leads, ResultOf;
    var t, exp := ResultOf(x.value, tys), x.exp;
    var value, cases := Lower(x.value, m, sl, tys), LowerCases(exp, x.cases, |m|, m + t, sl + [|m|], tys + t);
    var block, erase := Block(cases, m + t + exp), EraseSlot(|m|);
    ChildMeans(w, x.value, t, Seq(block, erase), m, sl, tys, sc, s, e);
    ExecSeq(w, value, Seq(block, erase), s, e);
    var a := Meaning(w, x.value, sc, e);
    if a.Gives? {
      RoomSeq(w, block, erase, m + t);
      RoomBlock(w, cases, m + t + exp, m + t);
      ReadyIs(w, m, sl, tys, s, sc);
      ReadyOpen(w, m, sl, tys, s, sc, a.values, t);
      var top := s + a.values;
      assert top[w.base + |m|] == a.values[0];
      CasesMeans(w, exp, x.cases, |m|, t, m + t, sl + [|m|], tys + t, sc + a.values, top, a.env);
      var b := CaseOf(w, exp, x.cases, a.values[0], sc + a.values, a.env);
      Blocked(w, cases, m + t + exp, top, a.env, top, b);
      ExecSeq(w, block, erase, top, a.env);
      if b.Gives? { ExecErase(w, s, m, a.values, b.values, b.env); }
    }
  }

  lemma {:induction false} ValueOrMeans(w: World, x: Expr, m: seq<Ty>, sl: seq<nat>, tys: seq<Ty>, sc: seq<Value>, s: seq<Value>, e: Env)
    requires x.ValueOr? && Check(w, x, tys) && Ready(w, m, sl, tys, s, sc) && Room(w, Lower(x, m, sl, tys), m)
    ensures Yields(Exec(w, Lower(x, m, sl, tys), s, e), s, Meaning(w, x, sc, e))
    ensures Tagged(Meaning(w, x, sc, e), x.exp)
    decreases x, 0
  {
    hide Room, Exec, Ready, ResultOf, Valued, Clause, Converted;
    var exp, out := x.exp, m + x.exp;
    var value, other := Valued(x.value, exp, m, sl, tys), Valued(x.default, exp, m, sl, tys);
    var clause := Clause(Lower(x.cond, m, sl, tys), value, m);
    RoomBlock(w, Seq(clause, other), out, m);
    RoomSeq(w, clause, other, m);
    ClauseMeans(w, x.cond, value, m, sl, tys, sc, s, e);
    ExecSeq(w, clause, other, s, e);
    ExecBlock(w, Seq(clause, other), out, s, e);
    ClauseLeadsOn(w, x.cond, value, m, sl, tys);
    var a := Meaning(w, x.cond, sc, e);
    if a.Gives? {
      if a.values == [Bool(true)] { ValuedMeans(w, x.value, exp, m, sl, tys, sc, s, a.env); }
      else { ValuedMeans(w, x.default, exp, m, sl, tys, sc, s, a.env); }
    }
  }

  lemma {:induction false} RandomMeans(w: World, x: Expr, m: seq<Ty>, sl: seq<nat>, tys: seq<Ty>, sc: seq<Value>, s: seq<Value>, e: Env)
    requires x.Random? && Check(w, x, tys) && Ready(w, m, sl, tys, s, sc) && Room(w, Lower(x, m, sl, tys), m)
    ensures Yields(Exec(w, Lower(x, m, sl, tys), s, e), s, Meaning(w, x, sc, e))
    ensures Tagged(Meaning(w, x, sc, e), x.exp)
    decreases x, 0
  {
    hide Room, Exec, Ready, ResultOf, CheckParts, Floats, RandomTail, WeightStack, Weigh, Chosen, Cumulative, Leads;
    var roll, m1, chance, tail := w.chance(x.seed, e), m + Floats(1), Op1(Chance, x.seed), RandomTail(x, m, sl, tys);
    assert Lower(x, m, sl, tys) == Seq(chance, tail) by { LowerRandom(x, m, sl, tys); }
    ReadyIs(w, m, sl, tys, s, sc);
    RoomSeq(w, chance, tail, m);
    ChanceTyped(w, m, x.seed);
    LeadsHere(w, chance, m, m1, []);
    RoomSize(w, tail, m1);
    assert |Floats(1)| == 1;
    ExecChance(w, x.seed, s, e);
    ExecSeq(w, chance, tail, s, e);
    WeighsAll(w, x.branches, sc, e, []);
    RandomWeighs(w, x, roll, m, sl, tys, sc, s, e);
  }

  lemma LowerRandom(x: Expr, m: seq<Ty>, sl: seq<nat>, tys: seq<Ty>)
    requires x.Random?
    ensures Lower(x, m, sl, tys) == Seq(Op1(Chance, x.seed), RandomTail(x, m, sl, tys))
  {}

  lemma {:induction false} WeighsAll(w: World, p: Parts, sc: seq<Value>, e: Env, ws: seq<real>)
    ensures Weigh(w, p, sc, e, ws).Weighed? ==> |Weigh(w, p, sc, e, ws).ws| == |ws| + CountParts(p)
    decreases p
  {
    hide Holds;
    if p.Part? {
      var a := Converted(w, [TFloat], Holds(w, p.test, sc, e));
      if a.Gives? && |a.values| == 1 && a.values[0].Float? { WeighsAll(w, p.rest, sc, a.env, ws + [a.values[0].r]); }
    }
  }

  /** The weights in turn, the roll scaled to their total, then the choice. */
  lemma {:induction false} RandomWeighs(w: World, x: Expr, roll: real, m: seq<Ty>, sl: seq<nat>, tys: seq<Ty>, sc: seq<Value>, s: seq<Value>, e: Env)
    requires x.Random? && Check(w, x, tys) && Ready(w, m, sl, tys, s, sc)
    requires Room(w, RandomTail(x, m, sl, tys), m + Floats(1))
    ensures var a := match Weigh(w, x.branches, sc, e, [])
        case Weighed(ws, e') => Chosen(w, x.exp, x.branches, Cumulative(w, ws), 0, w.mul(roll, if ws == [] then 0.0 else Last(Cumulative(w, ws))), sc, e')
        case Unweighed(a) => a;
      Yields(Exec(w, RandomTail(x, m, sl, tys), WeightStack(w, s, roll, []), e), s, a) && Tagged(a, x.exp)
    decreases x.branches, 2
  {
    hide Room, Exec, Ready, ResultOf, CheckParts, LowerWeights, LowerBranches, Floats, EraseDown, Pack2, WeightStack, Weigh, Chosen, Cumulative, Leads;
    var exp, n := x.exp, CountParts(x.branches);
    var m1, mw := m + Floats(1), m + Floats(1 + n);
    var weights, scale := LowerWeights(x.branches, 0, m, sl, tys), Op1(MulIntoSlot, Pack2(|m|, |m| + n));
    var picks := Seq(Block(LowerBranches(exp, x.branches, 0, n, m, sl, tys), mw + exp), EraseDown(|m|, n));
    ReadyIs(w, m, sl, tys, s, sc);
    RoomSeq(w, weights, Seq(scale, picks), m1);
    WeightsTyped(w, exp, x.branches, 0, m, sl, tys);
    LeadsHere(w, weights, m1, mw, []);
    WeightsMeans(w, exp, x.branches, [], roll, m, sl, tys, sc, s, e);
    ExecSeq(w, weights, Seq(scale, picks), WeightStack(w, s, roll, []), e);
    var a := Weigh(w, x.branches, sc, e, []);
    if a.Weighed? {
      RoomSize(w, Seq(scale, picks), mw);
      RoomSeq(w, scale, picks, mw);
      ScaleTyped(w, m, n);
      LeadsHere(w, scale, mw, mw, []);
      RandomPicks(w, x, a.ws, m, sl, tys, sc, s, a.env);
      ExecScale(w, m, s, roll, a.ws, a.env);
      ExecSeq(w, scale, picks, WeightStack(w, s, roll, a.ws), a.env);
    }
  }

  /** `random` behind its roll. */
  function RandomTail(x: Expr, m: seq<Ty>, sl: seq<nat>, tys: seq<Ty>): Node
    requires x.Random?
  {
    var n := CountParts(x.branches);
    Seq(LowerWeights(x.branches, 0, m, sl, tys),
    Seq(Op1(MulIntoSlot, Pack2(|m|, |m| + n)),
    Seq(Block(LowerBranches(x.exp, x.branches, 0, n, m, sl, tys), m + Floats(1 + n) + x.exp), EraseDown(|m|, n))))
  }

  /** With the weights on the stack: one branch runs, then roll and weights are erased under its value. */
  lemma {:induction false} RandomPicks(w: World, x: Expr, ws: seq<real>, m: seq<Ty>, sl: seq<nat>, tys: seq<Ty>, sc: seq<Value>, s: seq<Value>, e: Env)
    requires x.Random? && Check(w, x, tys) && Ready(w, m, sl, tys, s, sc) && |ws| == CountParts(x.branches)
    requires var n, exp := |ws|, x.exp;
      Room(w, Seq(Block(LowerBranches(exp, x.branches, 0, n, m, sl, tys), m + Floats(1 + n) + exp), EraseDown(|m|, n)), m + Floats(1 + n))
    ensures var n, exp := |ws|, x.exp;
      var code := Seq(Block(LowerBranches(exp, x.branches, 0, n, m, sl, tys), m + Floats(1 + n) + exp), EraseDown(|m|, n));
      forall roll :: Yields(Exec(w, code, WeightStack(w, s, roll, ws), e), s, Chosen(w, exp, x.branches, Cumulative(w, ws), 0, roll, sc, e))
                  && Tagged(Chosen(w, exp, x.branches, Cumulative(w, ws), 0, roll, sc, e), exp)
    decreases x.branches, 1
  {
    hide Room, Exec, Ready, ResultOf, CheckParts, LowerBranches, EraseDown, Chosen, Cumulative;
    var n, exp := |ws|, x.exp;
    var mw, branches := m + Floats(1 + n), LowerBranches(exp, x.branches, 0, n, m, sl, tys);
    var block, erases := Block(branches, mw + exp), EraseDown(|m|, n);
    RoomSeq(w, block, erases, mw);
    RoomBlock(w, branches, mw + exp, mw);
    ReadyIs(w, m, sl, tys, s, sc);
    forall roll ensures var a := Chosen(w, exp, x.branches, Cumulative(w, ws), 0, roll, sc, e);
      Yields(Exec(w, Seq(block, erases), WeightStack(w, s, roll, ws), e), s, a) && Tagged(a, exp)
    {
      var top, a := WeightStack(w, s, roll, ws), Chosen(w, exp, x.branches, Cumulative(w, ws), 0, roll, sc, e);
      BranchesMeans(w, exp, x.branches, 0, ws, roll, m, sl, tys, sc, s, e);
      Blocked(w, branches, mw + exp, top, e, top, a);
      ExecSeq(w, block, erases, top, e);
      if a.Gives? { ExecEraseDown(w, m, s, FloatVals([roll] + Cumulative(w, ws)), a.values, a.env); }
    }
  }

  lemma ExecChance(w: World, seed: int, s: seq<Value>, e: Env)
    requires |s| < w.capacity
    ensures Exec(w, Op1(Chance, seed), s, e) == Fell(WeightStack(w, s, w.chance(seed, e), []), e)
  {
    assert FloatVals([w.chance(seed, e)] + Cumulative(w, [])) == [Float(w.chance(seed, e))];
  }

  /** The body of a scope: the scope object lies under its result until it is erased. */
  lemma {:induction false} BodyMeans(w: World, x: Expr, body: Expr, t: seq<Ty>, m: seq<Ty>, sl: seq<nat>, tys: seq<Ty>,
                                     sc: seq<Value>, s: seq<Value>, v: seq<Value>, e: Env)
    requires (x.Within? || x.WithinValid?) && x.body == body && |t| == 1 && TagsMatch(v, t)
    requires Check(w, body, tys + t) && Ready(w, m, sl, tys, s, sc)
    requires Room(w, Seq(Lower(body, m + t, sl + [|m|], tys + t), EraseSlot(|m|)), m + t)
    ensures Yields(Exec(w, Seq(Lower(body, m + t, sl + [|m|], tys + t), EraseSlot(|m|)), s + v, e), s, Meaning(w, body, sc + v, e))
    ensures Tagged(Meaning(w, body, sc + v, e), ResultOf(body, tys + t))
    decreases x, 0
  {
    hide Room, Exec, Ready, ResultOf, Check, Lower, Meaning;
    var code := Lower(body, m + t, sl + [|m|], tys + t);
    RoomSeq(w, code, EraseSlot(|m|), m + t);
    ReadyIs(w, m, sl, tys, s, sc);
    ReadyOpen(w, m, sl, tys, s, sc, v, t);
    LowerMeans(w, body, m + t, sl + [|m|], tys + t, sc + v, s + v, e);
    ExecSeq(w, code, EraseSlot(|m|), s + v, e);
    var a := Meaning(w, body, sc + v, e);
    if a.Gives? { ExecErase(w, s, m, v, a.values, a.env); }
  }

  lemma ExecGuard(w: World, ty: Ty, code: Node, s: seq<Value>, v: Value, e: Env)
    ensures Exec(w, Seq(Exit(ScopeGuard, ModeOf(ty), 0), code), s + [v], e) ==
            if w.valid(v) then Exec(w, code, s + [v], e) else Left(0, s + [DefaultOf(ModeOf(ty))], e)
  {
    Unpack2(0, ModeOf(ty));
    ExecSeq(w, Exit(ScopeGuard, ModeOf(ty), 0), code, s + [v], e);
    assert (s + [v])[..|s|] == s;
  }

  lemma {:induction false} GuardedMeans(w: World, x: Expr, m: seq<Ty>, sl: seq<nat>, tys: seq<Ty>, sc: seq<Value>, s: seq<Value>, e: Env)
    requires x.WithinValid? && Check(w, x, tys) && Ready(w, m, sl, tys, s, sc) && Room(w, Lower(x, m, sl, tys), m)
    ensures Yields(Exec(w, Lower(x, m, sl, tys), s, e), s, Meaning(w, x, sc, e))
    ensures Tagged(Meaning(w, x, sc, e), [x.ty])
    decreases x, 1
  {
    hide Room, Exec, Ready, ResultOf, Lower, ModeOf, DefaultOf;
    var t, out := ResultOf(x.scope, tys), m + [x.ty];
    var guard := Exit(ScopeGuard, ModeOf(x.ty), 0);
    var code := Seq(Lower(x.body, m + t, sl + [|m|], tys + t), EraseSlot(|m|));
    var block := Block(Seq(guard, code), out);
    LowerGuarded(x, m, sl, tys);
    ChildMeans(w, x.scope, t, block, m, sl, tys, sc, s, e);
    ExecSeq(w, Lower(x.scope, m, sl, tys), block, s, e);
    var a := Meaning(w, x.scope, sc, e);
    if a.Gives? {
      RoomBlock(w, Seq(guard, code), out, m + t);
      RoomSeq(w, guard, code, m + t);
      ExitOutIs(ScopeGuard, ModeOf(x.ty), 0, m + t);
      assert a.values == [a.values[0]];
      ExecBlock(w, Seq(guard, code), out, s + a.values, a.env);
      ExecGuard(w, x.ty, code, s, a.values[0], a.env);
      BodyMeans(w, x, x.body, t, m, sl, tys, sc, s, a.values, a.env);
      DefaultTyped(x.ty);
    }
  }

  lemma DefaultTyped(ty: Ty)
    requires Scalar([ty])
    ensures TypeOf(DefaultOf(ModeOf(ty))) == ty
  {}

  lemma LowerGuarded(x: Expr, m: seq<Ty>, sl: seq<nat>, tys: seq<Ty>)
    requires x.WithinValid?
    ensures var t := ResultOf(x.scope, tys);
      Lower(x, m, sl, tys) == Seq(Lower(x.scope, m, sl, tys),
        Block(Seq(Exit(ScopeGuard, ModeOf(x.ty), 0), Seq(Lower(x.body, m + t, sl + [|m|], tys + t), EraseSlot(|m|))), m + [x.ty]))
  {}

  lemma {:induction false} WithinMeans(w: World, x: Expr, m: seq<Ty>, sl: seq<nat>, tys: seq<Ty>, sc: seq<Value>, s: seq<Value>, e: Env)
    requires x.Within? && Check(w, x, tys) && Ready(w, m, sl, tys, s, sc) && Room(w, Lower(x, m, sl, tys), m)
    ensures Yields(Exec(w, Lower(x, m, sl, tys), s, e), s, Meaning(w, x, sc, e))
    ensures Tagged(Meaning(w, x, sc, e), ResultOf(x, tys))
    decreases x, 1
  {
    hide Room, Exec, Ready;
    var t := ResultOf(x.scope, tys);
    var code := Seq(Lower(x.body, m + t, sl + [|m|], tys + t), EraseSlot(|m|));
    ChildMeans(w, x.scope, t, code, m, sl, tys, sc, s, e);
    ExecSeq(w, Lower(x.scope, m, sl, tys), code, s, e);
    var a := Meaning(w, x.scope, sc, e);
    if a.Gives? { BodyMeans(w, x, x.body, t, m, sl, tys, sc, s, a.values, a.env); }
  }

  lemma {:induction false} SelectBlockMeans(w: World, x: Expr, m: seq<Ty>, sl: seq<nat>, tys: seq<Ty>, sc: seq<Value>, s: seq<Value>, e: Env)
    requires x.Select? && Check(w, x, tys) && Ready(w, m, sl, tys, s, sc) && Room(w, Lower(x, m, sl, tys), m)
    ensures Yields(Exec(w, Lower(x, m, sl, tys), s, e), s, Meaning(w, x, sc, e))
    ensures Tagged(Meaning(w, x, sc, e), x.exp)
    decreases x, 0
  {
    hide Room, Exec, Ready, CheckParts, LowerSelect, FirstOf;
    var code := LowerSelect(x.exp, x.clauses, m, sl, tys);
    RoomBlock(w, code, m + x.exp, m);
    SelectMeans(w, x.exp, x.clauses, m, sl, tys, sc, s, e);
    Blocked(w, code, m + x.exp, s, e, s, FirstOf(w, x.exp, x.clauses, sc, e));
  }

  lemma {:induction false} EffectsBlockMeans(w: World, x: Expr, m: seq<Ty>, sl: seq<nat>, tys: seq<Ty>, sc: seq<Value>, s: seq<Value>, e: Env)
    requires x.Effects? && Check(w, x, tys) && Ready(w, m, sl, tys, s, sc) && Room(w, Lower(x, m, sl, tys), m)
    ensures Yields(Exec(w, Lower(x, m, sl, tys), s, e), s, Meaning(w, x, sc, e))
    ensures Tagged(Meaning(w, x, sc, e), [])
    decreases x, 0
  {
    hide Room, Exec, Ready, CheckParts, LowerEffects, Perform;
    var code := LowerEffects(x.children, m, sl, tys);
    RoomBlock(w, code, m, m);
    EffectsMeans(w, x.children, m, sl, tys, sc, s, e);
    Blocked(w, code, m, s, e, s, Perform(w, x.children, sc, e));
  }

  /**
    Lowered code does what the expression means: its values on top of an untouched stack,
    the environment the meaning leaves, or the meaning's failure.
  */
  lemma {:induction false} LowerMeans(w: World, x: Expr, m: seq<Ty>, sl: seq<nat>, tys: seq<Ty>, sc: seq<Value>, s: seq<Value>, e: Env)
    requires Check(w, x, tys) && Ready(w, m, sl, tys, s, sc) && Room(w, Lower(x, m, sl, tys), m)
    ensures Yields(Exec(w, Lower(x, m, sl, tys), s, e), s, Meaning(w, x, sc, e))
    ensures Tagged(Meaning(w, x, sc, e), ResultOf(x, tys))
    decreases x, 2
  {
    hide Room, Exec, Ready, Lower, Meaning, Check;
    match x
    case Native(_, _) => NativeMeans(w, x, m, sl, tys, sc, s, e);
    case Logic(_, _, _) => LogicBlockMeans(w, x, m, sl, tys, sc, s, e);
    case Total(_, _, _, _) => TotalMeans(w, x, m, sl, tys, sc, s, e);
    case Select(_, _) => SelectBlockMeans(w, x, m, sl, tys, sc, s, e);
    case Sequence(_, _) => SequenceMeans(w, x, m, sl, tys, sc, s, e);
    case Switch(_, _, _) => SwitchMeans(w, x, m, sl, tys, sc, s, e);
    case ValueOr(_, _, _, _) => ValueOrMeans(w, x, m, sl, tys, sc, s, e);
    case Random(_, _, _) => RandomMeans(w, x, m, sl, tys, sc, s, e);
    case Within(_, _) => WithinMeans(w, x, m, sl, tys, sc, s, e);
    case WithinValid(_, _, _) => GuardedMeans(w, x, m, sl, tys, sc, s, e);
    case Effects(_) => EffectsBlockMeans(w, x, m, sl, tys, sc, s, e);
    case Saved(_, _, _) => SavedMeans(w, x, m, sl, tys, sc, s, e);
    case _ => SimpleMeans(w, x, m, sl, tys, sc, s, e);
  }
}
