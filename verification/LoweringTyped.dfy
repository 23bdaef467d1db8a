/**
  The generator's stack model: lowered code is well typed wherever it is placed, and
  leaves the compile-time stack with exactly the expression's result on top.
*/
module LoweringTyped {
  import opened Machine
  import opened Blocks
  import opened Lowering

  /** The open scopes lie on the predicted stack with the types the generator believes. */
  ghost predicate ScopesOk(m: seq<Ty>, sl: seq<nat>, tys: seq<Ty>) {
    |sl| == |tys| && forall i :: 0 <= i < |sl| ==> sl[i] < |m| && m[sl[i]] == tys[i]
  }

  /** The code fits on the operand stack, and its slots into the halves of a packed argument. */
  predicate Room(w: World, n: Node, m: seq<Ty>) {
    w.base + PeakOf(n, m) <= w.capacity && PeakOf(n, m) <= INT32_MAX
  }

  lemma RoomSeq(w: World, x: Node, y: Node, m: seq<Ty>)
    requires Room(w, Seq(x, y), m)
    ensures Room(w, x, m) && Room(w, y, OutOf(x, m))
  {}

  lemma RoomBlock(w: World, x: Node, out: seq<Ty>, m: seq<Ty>)
    requires Room(w, Block(x, out), m)
    ensures Room(w, x, m)
  {}

  lemma RoomSize(w: World, n: Node, m: seq<Ty>)
    requires Room(w, n, m)
    ensures |m| <= INT32_MAX && w.base + |m| <= w.capacity
  {}

  lemma ScopesUnder(m: seq<Ty>, more: seq<Ty>, sl: seq<nat>, tys: seq<Ty>)
    requires ScopesOk(m, sl, tys)
    ensures ScopesOk(m + more, sl, tys)
  {}

  lemma ScopesOpen(m: seq<Ty>, t: seq<Ty>, sl: seq<nat>, tys: seq<Ty>)
    requires ScopesOk(m, sl, tys) && |t| == 1
    ensures ScopesOk(m + t, sl + [|m|], tys + t)
  {}

  /** Typed under these labels, and this is the stack behind it. */
  ghost predicate Into(w: World, n: Node, m: seq<Ty>, labels: seq<seq<Ty>>, out: seq<Ty>) {
    Typed(w, n, m, labels) && OutOf(n, m) == out
  }

  /** Typed wherever it is placed. */
  ghost predicate Leads(w: World, n: Node, m: seq<Ty>, out: seq<Ty>) {
    forall labels :: Into(w, n, m, labels, out)
  }

  lemma IntoSeq(w: World, x: Node, y: Node, m: seq<Ty>, mid: seq<Ty>, out: seq<Ty>, labels: seq<seq<Ty>>)
    requires Into(w, x, m, labels, mid) && Into(w, y, mid, labels, out)
    ensures Into(w, Seq(x, y), m, labels, out)
  {}

  lemma LeadsSeq(w: World, x: Node, y: Node, m: seq<Ty>, mid: seq<Ty>, out: seq<Ty>)
    requires Leads(w, x, m, mid) && Leads(w, y, mid, out)
    ensures Leads(w, Seq(x, y), m, out)
  {
    hide Into;
    forall labels ensures Into(w, Seq(x, y), m, labels, out) { IntoSeq(w, x, y, m, mid, out, labels); }
  }

  lemma IntoDo(w: World, cmd: Command, m: seq<Ty>)
    requires DoTyped(cmd, m)
    ensures Leads(w, Do(cmd), m, DoOut(cmd, m))
  {}

  lemma IntoNop(w: World, m: seq<Ty>)
    ensures Leads(w, Nop, m, m) && Leads(w, Stuck, m, m)
  {}

  lemma IntoExit(w: World, op: Op, mode: int, l: nat, m: seq<Ty>, labels: seq<seq<Ty>>)
    requires l < |labels| && ExitTyped(op, mode, m, labels[l])
    ensures Into(w, Exit(op, mode, l), m, labels, ExitOut(op, m))
  {}

  lemma IntoBlock(w: World, x: Node, m: seq<Ty>, labels: seq<seq<Ty>>, out: seq<Ty>)
    requires Typed(w, x, m, [out] + labels) && (Falls(x) ==> OutOf(x, m) == out)
    ensures Into(w, Block(x, out), m, labels, out)
  {}

  lemma TopIs(m: seq<Ty>, t: Ty)
    ensures EndsWith(m + [t], [t]) && Init(m + [t], 1) == m
  {}

  lemma CoerceTyped(w: World, from: seq<Ty>, exp: seq<Ty>, m: seq<Ty>)
    requires Convertible(from, exp)
    ensures Leads(w, Coerce(from, exp), m + from, m + exp)
  {
    if from != exp {
      assert from == [from[0]] && exp == [exp[0]];
      TopIs(m, from[0]);
    }
  }

  /** A typed test, and a typed body that arrives at the enclosing label as that expects. */
  lemma ClauseTyped(w: World, test: Node, body: Node, m: seq<Ty>, mid: seq<Ty>, labels: seq<seq<Ty>>)
    requires labels != []
    requires Leads(w, test, m, mid + [TBool]) && Leads(w, body, mid, labels[0])
    ensures Into(w, Clause(test, body, mid), m, labels, mid)
  {
    hide Typed, OutOf, Leads, Into;
    var inner, leave, skip := [mid] + labels, Exit(Jump, 0, 1), Exit(CondJump, 0, 0);
    LeadsHere(w, test, m, mid + [TBool], inner);
    LeadsHere(w, body, mid, labels[0], inner);
    IntoExit(w, Jump, 0, 1, labels[0], inner);
    IntoSeq(w, body, leave, mid, labels[0], labels[0], inner);
    TopIs(mid, TBool);
    IntoExit(w, CondJump, 0, 0, mid + [TBool], inner);
    IntoSeq(w, skip, Seq(body, leave), mid + [TBool], mid, labels[0], inner);
    IntoSeq(w, test, Seq(skip, Seq(body, leave)), m, mid + [TBool], labels[0], inner);
    IntoIs(w, Seq(test, Seq(skip, Seq(body, leave))), m, inner, labels[0]);
    JumpEnds(test, body);
    IntoBlock(w, Seq(test, Seq(skip, Seq(body, leave))), m, labels, mid);
  }

  lemma JumpEnds(test: Node, body: Node)
    ensures !Falls(Seq(test, Seq(Exit(CondJump, 0, 0), Seq(body, Exit(Jump, 0, 1)))))
  {
    assert !Falls(Seq(body, Exit(Jump, 0, 1)));
    assert !Falls(Seq(Exit(CondJump, 0, 0), Seq(body, Exit(Jump, 0, 1))));
  }

  lemma LeadsHere(w: World, n: Node, m: seq<Ty>, out: seq<Ty>, labels: seq<seq<Ty>>)
    requires Leads(w, n, m, out)
    ensures Into(w, n, m, labels, out) && OutOf(n, m) == out
  {}

  lemma IntoIs(w: World, n: Node, m: seq<Ty>, labels: seq<seq<Ty>>, out: seq<Ty>)
    requires Into(w, n, m, labels, out)
    ensures Typed(w, n, m, labels) && OutOf(n, m) == out
  {}

  lemma RoomClause(w: World, test: Node, body: Node, m: seq<Ty>, mid: seq<Ty>)
    requires Room(w, Clause(test, body, mid), m) && OutOf(test, m) == mid + [TBool]
    ensures Room(w, test, m) && Room(w, body, mid)
  {
    hide OutOf, Room, PeakOf;
    var tail := Seq(body, Exit(Jump, 0, 1));
    var rest := Seq(Exit(CondJump, 0, 0), tail);
    RoomBlock(w, Seq(test, rest), mid, m);
    RoomSeq(w, test, rest, m);
    RoomSeq(w, Exit(CondJump, 0, 0), tail, mid + [TBool]);
    ExitOutIs(CondJump, 0, 0, mid + [TBool]);
    TopIs(mid, TBool);
    RoomSeq(w, body, Exit(Jump, 0, 1), mid);
  }

  lemma ExitOutIs(op: Op, mode: int, l: nat, m: seq<Ty>)
    ensures OutOf(Exit(op, mode, l), m) == ExitOut(op, m)
  {}

  lemma {:induction false} ValuedTyped(w: World, x: Expr, exp: seq<Ty>, m: seq<Ty>, sl: seq<nat>, tys: seq<Ty>)
    requires Check(w, x, tys) && Convertible(ResultOf(x, tys), exp) && ScopesOk(m, sl, tys)
    requires Room(w, Valued(x, exp, m, sl, tys), m)
    ensures Leads(w, Valued(x, exp, m, sl, tys), m, m + exp)
    decreases x, 3
  {
    hide Check, Lower, Coerce, Leads, Room;
    var t := ResultOf(x, tys);
    RoomSeq(w, Lower(x, m, sl, tys), Coerce(t, exp), m);
    LowerTyped(w, x, m, sl, tys);
    CoerceTyped(w, t, exp, m);
    LeadsSeq(w, Lower(x, m, sl, tys), Coerce(t, exp), m, m + t, m + exp);
  }

  lemma {:induction false} ArgsTyped(w: World, p: Parts, types: seq<Ty>, m: seq<Ty>, sl: seq<nat>, tys: seq<Ty>)
    requires CheckParts(w, Argument(types), p, tys) && ScopesOk(m, sl, tys)
    requires Room(w, LowerArgs(p, m, sl, tys), m)
    ensures Leads(w, LowerArgs(p, m, sl, tys), m, m + types)
    decreases p, 0
  {
    hide Check, Lower, ResultOf, Leads, Room;
    if p.End? {
      IntoNop(w, m);
      assert m + types == m;
    } else {
      var t := ResultOf(p.body, tys);
      var head, rest := Lower(p.body, m, sl, tys), LowerArgs(p.rest, m + t, sl, tys);
      RoomSeq(w, head, rest, m);
      LowerTyped(w, p.body, m, sl, tys);
      LeadsHere(w, head, m, m + t, []);
      ScopesUnder(m, t, sl, tys);
      ArgsTyped(w, p.rest, types[1..], m + t, sl, tys);
      assert m + t + types[1..] == m + types;
      LeadsSeq(w, head, rest, m, m + t, m + types);
    }
  }

  /** After the first operand the running result lies on the stack while the others are computed. */
  lemma {:induction false} LogicTyped(w: World, any: bool, p: Parts, first: bool, m: seq<Ty>, sl: seq<nat>, tys: seq<Ty>, labels: seq<seq<Ty>>)
    requires CheckParts(w, Operand, p, tys) && ScopesOk(m, sl, tys) && (first ==> p != End)
    requires labels != [] && labels[0] == m + [TBool]
    requires Room(w, LowerLogic(any, p, first, m, sl, tys), if first then m else m + [TBool])
    ensures Into(w, LowerLogic(any, p, first, m, sl, tys), if first then m else m + [TBool], labels, m + [TBool])
    decreases p, 0
  {
    hide Check, Lower, ResultOf, Leads, Into, Room;
    var here := if first then m else m + [TBool];
    if p.End? {
      IntoNop(w, here);
      LeadsHere(w, Nop, here, here, labels);
    } else {
      var kid, rest := Lower(p.body, here, sl, tys), LowerLogic(any, p.rest, false, m, sl, tys);
      var exit := Exit(ShortOp(any, first), 0, 0);
      RoomSeq(w, kid, Seq(exit, rest), here);
      ScopesUnder(m, [TBool], sl, tys);
      LowerTyped(w, p.body, here, sl, tys);
      LeadsHere(w, kid, here, here + [TBool], labels);
      RoomSeq(w, exit, rest, here + [TBool]);
      ShortTyped(any, first, m);
      IntoExit(w, ShortOp(any, first), 0, 0, here + [TBool], labels);
      ExitOutIs(ShortOp(any, first), 0, 0, here + [TBool]);
      LogicTyped(w, any, p.rest, false, m, sl, tys, labels);
      IntoSeq(w, exit, rest, here + [TBool], m + [TBool], m + [TBool], labels);
      IntoSeq(w, kid, Seq(exit, rest), here, here + [TBool], m + [TBool], labels);
    }
  }

  lemma ShortTyped(any: bool, first: bool, m: seq<Ty>)
    ensures var op, here := ShortOp(any, first), if first then m + [TBool] else m + [TBool] + [TBool];
      ExitTyped(op, 0, here, m + [TBool]) && ExitOut(op, here) == m + [TBool]
  {
    TopIs(m, TBool);
    TopIs(m + [TBool], TBool);
    assert m + [TBool] + [TBool] == m + [TBool, TBool];
  }

  // --- ADD and MUL ----------------------------------------------------------------------------

  lemma FoldTyped(w: World, product: bool, op: Prim, ty: Ty, m: seq<Ty>)
    requires TotalOk(product, op, ty)
    ensures Leads(w, Op1(op, 0), m + [ty] + [ty], m + [ty])
  {
    var two := m + [ty] + [ty];
    assert two[|two| - 2..] == [ty, ty];
    assert Init(two, 1) == m + [ty] && Init(two, 2) == m;
    IntoDo(w, Command(Basic(op), 0), two);
  }

  /** A condition that skips code leaving the stack as it was. */
  lemma SkipTyped(w: World, test: Node, code: Node, here: seq<Ty>)
    requires Leads(w, test, here, here + [TBool]) && Leads(w, code, here, here)
    ensures Leads(w, Block(Seq(test, Seq(Exit(CondJump, 0, 0), code)), here), here, here)
  {
    hide Typed, OutOf, Into;
    forall labels ensures Into(w, Block(Seq(test, Seq(Exit(CondJump, 0, 0), code)), here), here, labels, here) {
      var inner := [here] + labels;
      TopIs(here, TBool);
      IntoExit(w, CondJump, 0, 0, here + [TBool], inner);
      IntoSeq(w, Exit(CondJump, 0, 0), code, here + [TBool], here, here, inner);
      IntoSeq(w, test, Seq(Exit(CondJump, 0, 0), code), here, here + [TBool], here, inner);
      IntoIs(w, Seq(test, Seq(Exit(CondJump, 0, 0), code)), here, inner, here);
      IntoBlock(w, Seq(test, Seq(Exit(CondJump, 0, 0), code)), here, labels, here);
    }
  }

  lemma RoomSkip(w: World, test: Node, code: Node, here: seq<Ty>, m: seq<Ty>)
    requires Room(w, Seq(test, Seq(Exit(CondJump, 0, 0), code)), m) && OutOf(test, m) == here + [TBool]
    ensures Room(w, test, m) && Room(w, code, here)
  {
    hide OutOf, Room, PeakOf;
    RoomSeq(w, test, Seq(Exit(CondJump, 0, 0), code), m);
    RoomSeq(w, Exit(CondJump, 0, 0), code, here + [TBool]);
    ExitOutIs(CondJump, 0, 0, here + [TBool]);
    TopIs(here, TBool);
  }

  /** The test of a conditional part, lowered where it stands. */
  lemma {:induction false} TestTyped(w: World, c: Expr, t: seq<Ty>, more: Node, m: seq<Ty>, sl: seq<nat>, tys: seq<Ty>)
    requires Check(w, c, tys) && ResultOf(c, tys) == t && ScopesOk(m, sl, tys)
    requires Room(w, Seq(Lower(c, m, sl, tys), more), m)
    ensures Leads(w, Lower(c, m, sl, tys), m, m + t) && OutOf(Lower(c, m, sl, tys), m) == m + t
    ensures Room(w, more, m + t)
    decreases c, 3
  {
    hide Lower, Check, Leads, Room;
    RoomSeq(w, Lower(c, m, sl, tys), more, m);
    LowerTyped(w, c, m, sl, tys);
    LeadsHere(w, Lower(c, m, sl, tys), m, m + t, []);
  }

  lemma {:induction false} TermTyped(w: World, product: bool, op: Prim, ty: Ty, body: Expr, first: bool, m: seq<Ty>, sl: seq<nat>, tys: seq<Ty>)
    requires TotalOk(product, op, ty) && Check(w, body, tys) && Convertible(ResultOf(body, tys), [ty])
    requires var here := if first then m else m + [ty];
      ScopesOk(m, sl, tys) && Room(w, TermCode(op, Valued(body, [ty], here, sl, tys), first), here)
    ensures var here := if first then m else m + [ty];
      Leads(w, TermCode(op, Valued(body, [ty], here, sl, tys), first), here, m + [ty])
    decreases body, 4
  {
    hide Check, Leads, Room, TotalOk, Valued;
    var here := if first then m else m + [ty];
    var value := Valued(body, [ty], here, sl, tys);
    ScopesUnder(m, [ty], sl, tys);
    if !first { RoomSeq(w, value, Op1(op, 0), here); }
    ValuedTyped(w, body, [ty], here, sl, tys);
    if !first {
      FoldTyped(w, product, op, ty, m);
      LeadsSeq(w, value, Op1(op, 0), here, here + [ty], m + [ty]);
    }
  }

  lemma {:induction false} TermsTyped(w: World, product: bool, op: Prim, ty: Ty, p: Parts, first: bool, m: seq<Ty>, sl: seq<nat>, tys: seq<Ty>)
    requires TotalOk(product, op, ty) && CheckParts(w, Term([ty]), p, tys) && ScopesOk(m, sl, tys)
    requires first ==> p != End && !Conditional(p)
    requires Room(w, LowerTerms(op, ty, p, first, m, sl, tys), if first then m else m + [ty])
    ensures Leads(w, LowerTerms(op, ty, p, first, m, sl, tys), if first then m else m + [ty], m + [ty])
    decreases p, 0
  {
    hide Check, Leads, Room, TotalOk, Valued, Lower, ResultOf, TermCode;
    var here := if first then m else m + [ty];
    if p.End? {
      IntoNop(w, here);
    } else {
      var code := TermCode(op, Valued(p.body, [ty], here, sl, tys), first);
      var rest := LowerTerms(op, ty, p.rest, false, m, sl, tys);
      var term := match p.test
        case Always => code
        case When(c) => Block(Seq(Lower(c, here, sl, tys), Seq(Exit(CondJump, 0, 0), code)), here);
      RoomSeq(w, term, rest, here);
      if p.test.When? {
        ScopesUnder(m, [ty], sl, tys);
        RoomBlock(w, Seq(Lower(p.test.cond, here, sl, tys), Seq(Exit(CondJump, 0, 0), code)), here, here);
        TestTyped(w, p.test.cond, [TBool], Seq(Exit(CondJump, 0, 0), code), here, sl, tys);
        RoomSkip(w, Lower(p.test.cond, here, sl, tys), code, here, here);
        TermTyped(w, product, op, ty, p.body, false, m, sl, tys);
        SkipTyped(w, Lower(p.test.cond, here, sl, tys), code, here);
      } else {
        TermTyped(w, product, op, ty, p.body, first, m, sl, tys);
      }
      LeadsHere(w, term, here, m + [ty], []);
      TermsTyped(w, product, op, ty, p.rest, false, m, sl, tys);
      LeadsSeq(w, term, rest, here, m + [ty], m + [ty]);
    }
  }

  // --- select, sequence, switch ----------------------------------------------------------------

  /** Typed, and if control reaches the end the stack is `out`. */
  ghost predicate Ends(w: World, n: Node, m: seq<Ty>, labels: seq<seq<Ty>>, out: seq<Ty>) {
    Typed(w, n, m, labels) && (Falls(n) ==> OutOf(n, m) == out)
  }

  lemma EndsSeq(w: World, x: Node, y: Node, m: seq<Ty>, mid: seq<Ty>, labels: seq<seq<Ty>>, out: seq<Ty>)
    requires Into(w, x, m, labels, mid) && Ends(w, y, mid, labels, out)
    ensures Ends(w, Seq(x, y), m, labels, out)
  {}

  lemma EndsInto(w: World, n: Node, m: seq<Ty>, labels: seq<seq<Ty>>, out: seq<Ty>)
    requires Into(w, n, m, labels, out)
    ensures Ends(w, n, m, labels, out)
  {}

  lemma BlockOfEnds(w: World, n: Node, m: seq<Ty>, out: seq<Ty>)
    requires Ends(w, n, m, [out], out)
    requires forall labels :: Ends(w, n, m, [out] + labels, out)
    ensures Leads(w, Block(n, out), m, out)
  {
    hide Typed, OutOf, Into, Falls;
    forall labels ensures Into(w, Block(n, out), m, labels, out) {
      assert Ends(w, n, m, [out] + labels, out);
      IntoBlock(w, n, m, labels, out);
    }
  }

  /** The last clause: its value, a jump, and nothing behind it. */
  lemma JumpTyped(w: World, body: Node, rest: Node, m: seq<Ty>, out: seq<Ty>, labels: seq<seq<Ty>>)
    requires Leads(w, body, m, out) && labels != [] && labels[0] == out && Into(w, rest, out, labels, out)
    ensures Ends(w, Seq(Seq(body, Exit(Jump, 0, 0)), rest), m, labels, out)
  {
    hide Typed, OutOf, Leads, Into;
    LeadsHere(w, body, m, out, labels);
    IntoExit(w, Jump, 0, 0, out, labels);
    IntoSeq(w, body, Exit(Jump, 0, 0), m, out, out, labels);
    IntoSeq(w, Seq(body, Exit(Jump, 0, 0)), rest, m, out, out, labels);
    EndsInto(w, Seq(Seq(body, Exit(Jump, 0, 0)), rest), m, labels, out);
  }

  lemma {:induction false} SelectTyped(w: World, exp: seq<Ty>, p: Parts, m: seq<Ty>, sl: seq<nat>, tys: seq<Ty>, labels: seq<seq<Ty>>)
    requires CheckParts(w, Alternative(exp), p, tys) && ScopesOk(m, sl, tys) && (exp != [] ==> p != End)
    requires labels != [] && labels[0] == m + exp
    requires Room(w, LowerSelect(exp, p, m, sl, tys), m)
    ensures Ends(w, LowerSelect(exp, p, m, sl, tys), m, labels, m + exp)
    ensures exp == [] ==> Into(w, LowerSelect(exp, p, m, sl, tys), m, labels, m)
    decreases p, 0
  {
    hide Check, Leads, Room, Valued, Lower, Into, Ends, Clause;
    if p.End? {
      IntoNop(w, m);
      LeadsHere(w, Nop, m, m, labels);
      assert m + exp == m;
      EndsInto(w, Nop, m, labels, m);
    } else {
      var body, rest := Valued(p.body, exp, m, sl, tys), LowerSelect(exp, p.rest, m, sl, tys);
      match p.test
      case Always =>
        RoomSeq(w, Seq(body, Exit(Jump, 0, 0)), rest, m);
        RoomSeq(w, body, Exit(Jump, 0, 0), m);
        ValuedTyped(w, p.body, exp, m, sl, tys);
        LeadsHere(w, body, m, m + exp, labels);
        IntoExit(w, Jump, 0, 0, m + exp, labels);
        IntoSeq(w, body, Exit(Jump, 0, 0), m, m + exp, m + exp, labels);
        IntoIs(w, Seq(body, Exit(Jump, 0, 0)), m, labels, m + exp);
        if p.rest.End? {
          IntoNop(w, m + exp);
          LeadsHere(w, Nop, m + exp, m + exp, labels);
        } else {
          assert m + exp == m;
          SelectTyped(w, exp, p.rest, m, sl, tys, labels);
        }
        JumpTyped(w, body, rest, m, m + exp, labels);
        IntoSeq(w, Seq(body, Exit(Jump, 0, 0)), rest, m, m + exp, m + exp, labels);
        if exp == [] { assert m + exp == m; }
      case When(c) =>
        var test := Lower(c, m, sl, tys);
        RoomSeq(w, Clause(test, body, m), rest, m);
        ClauseTestTyped(w, c, body, m, sl, tys);
        ValuedTyped(w, p.body, exp, m, sl, tys);
        ClauseTyped(w, test, body, m, m, labels);
        IntoIs(w, Clause(test, body, m), m, labels, m);
        SelectTyped(w, exp, p.rest, m, sl, tys, labels);
        EndsSeq(w, Clause(test, body, m), rest, m, m, labels, m + exp);
        if exp == [] { IntoSeq(w, Clause(test, body, m), rest, m, m, m, labels); }
    }
  }

  /** The test of a guarded clause, and the room its body has. */
  lemma {:induction false} ClauseTestTyped(w: World, c: Expr, body: Node, m: seq<Ty>, sl: seq<nat>, tys: seq<Ty>)
    requires Check(w, c, tys) && ResultOf(c, tys) == [TBool] && ScopesOk(m, sl, tys)
    requires Room(w, Clause(Lower(c, m, sl, tys), body, m), m)
    ensures Leads(w, Lower(c, m, sl, tys), m, m + [TBool]) && Room(w, body, m)
    decreases c, 4
  {
    hide Check, Leads, Room, Lower;
    var test, tail := Lower(c, m, sl, tys), Seq(Exit(CondJump, 0, 0), Seq(body, Exit(Jump, 0, 1)));
    RoomBlock(w, Seq(test, tail), m, m);
    TestTyped(w, c, [TBool], tail, m, sl, tys);
    RoomClause(w, test, body, m, m);
  }

  lemma TwoOf(m: seq<Ty>, ty: Ty)
    ensures EndsWith(m + [ty] + [ty], [ty, ty]) && Init(m + [ty] + [ty], 2) + [ty] == m + [ty]
  {}

  /** The operation that joins two values of the type. */
  lemma JoinTyped(w: World, op: Prim, ty: Ty, m: seq<Ty>)
    requires (op.AndBin? && ty == TBool) || (op.SumInt? && ty == TInt) || (op.Sum? && ty == TFloat)
    ensures Leads(w, Op1(op, 0), m + [ty] + [ty], m + [ty])
  {
    hide EndsWith, Init, Leads;
    TwoOf(m, ty);
    IntoDo(w, Command(Basic(op), 0), m + [ty] + [ty]);
  }

  lemma StartTyped(w: World, exp: seq<Ty>, m: seq<Ty>)
    requires exp == [TBool] || exp == [TInt] || exp == [TFloat]
    ensures Leads(w, StartPush(exp), m, m + exp)
  {
    hide Leads;
    IntoDo(w, StartPush(exp).cmd, m);
  }

  lemma CollectTyped(w: World, exp: seq<Ty>, m: seq<Ty>)
    requires Scalar(exp)
    ensures Leads(w, CollectOp(exp), m + exp + exp, m + exp)
    ensures Leads(w, StartPush(exp), m, m + exp)
  {
    hide Leads;
    if exp == [] {
      assert m + exp == m;
      IntoNop(w, m);
    } else {
      StartTyped(w, exp, m);
      if exp == [TBool] { JoinTyped(w, AndBin, TBool, m); }
      if exp == [TInt] { JoinTyped(w, SumInt, TInt, m); }
      if exp == [TFloat] { JoinTyped(w, Sum, TFloat, m); }
    }
  }

  lemma {:induction false} StagesTyped(w: World, exp: seq<Ty>, p: Parts, m: seq<Ty>, sl: seq<nat>, tys: seq<Ty>, labels: seq<seq<Ty>>)
    requires CheckParts(w, Stage(exp), p, tys) && Scalar(exp) && ScopesOk(m, sl, tys)
    requires labels != [] && labels[0] == m + exp
    requires Room(w, LowerStages(exp, p, m, sl, tys), m + exp)
    ensures Into(w, LowerStages(exp, p, m, sl, tys), m + exp, labels, m + exp)
    decreases p, 0
  {
    hide Check, Leads, Room, Valued, Lower, Into, Scalar, CollectOp;
    var here := m + exp;
    if p.End? {
      IntoNop(w, here);
      LeadsHere(w, Nop, here, here, labels);
    } else {
      ScopesUnder(m, exp, sl, tys);
      var c := p.test.cond;
      var test, value := Lower(c, here, sl, tys), Valued(p.body, exp, here, sl, tys);
      var body, rest := Seq(value, CollectOp(exp)), LowerStages(exp, p.rest, m, sl, tys);
      TestTyped(w, c, [TBool], Seq(Exit(CondJump, 0, 0), Seq(body, rest)), here, sl, tys);
      RoomSkip(w, test, Seq(body, rest), here, here);
      RoomSeq(w, body, rest, here);
      RoomSeq(w, value, CollectOp(exp), here);
      ValuedTyped(w, p.body, exp, here, sl, tys);
      CollectTyped(w, exp, m);
      LeadsSeq(w, value, CollectOp(exp), here, here + exp, here);
      LeadsHere(w, body, here, here, labels);
      StagesTyped(w, exp, p.rest, m, sl, tys, labels);
      IntoSeq(w, body, rest, here, here, here, labels);
      CondTyped(w, test, Seq(body, rest), here, here, labels);
    }
  }

  /** A condition that leaves the enclosing block when it fails. */
  lemma CondTyped(w: World, test: Node, code: Node, here: seq<Ty>, out: seq<Ty>, labels: seq<seq<Ty>>)
    requires labels != [] && labels[0] == here
    requires Leads(w, test, here, here + [TBool]) && Into(w, code, here, labels, out)
    ensures Into(w, Seq(test, Seq(Exit(CondJump, 0, 0), code)), here, labels, out)
  {
    hide Leads, Into;
    TopIs(here, TBool);
    LeadsHere(w, test, here, here + [TBool], labels);
    IntoExit(w, CondJump, 0, 0, here + [TBool], labels);
    IntoSeq(w, Exit(CondJump, 0, 0), code, here + [TBool], here, out, labels);
    IntoSeq(w, test, Seq(Exit(CondJump, 0, 0), code), here, here + [TBool], out, labels);
  }

  lemma {:induction false} EffectsTyped(w: World, p: Parts, m: seq<Ty>, sl: seq<nat>, tys: seq<Ty>, labels: seq<seq<Ty>>)
    requires CheckParts(w, Term([]), p, tys) && ScopesOk(m, sl, tys)
    requires labels != [] && labels[0] == m
    requires Room(w, LowerEffects(p, m, sl, tys), m)
    ensures Into(w, LowerEffects(p, m, sl, tys), m, labels, m)
    decreases p, 0
  {
    hide Check, Leads, Room, Lower, Into;
    if p.End? {
      IntoNop(w, m);
      LeadsHere(w, Nop, m, m, labels);
    } else {
      var body, rest := Lower(p.body, m, sl, tys), LowerEffects(p.rest, m, sl, tys);
      assert m + [] == m;
      if p.test.When? {
        TestTyped(w, p.test.cond, [TBool], Seq(Exit(CondJump, 0, 0), Seq(body, rest)), m, sl, tys);
        RoomSkip(w, Lower(p.test.cond, m, sl, tys), Seq(body, rest), m, m);
      }
      TestTyped(w, p.body, [], rest, m, sl, tys);
      LeadsHere(w, body, m, m, labels);
      EffectsTyped(w, p.rest, m, sl, tys, labels);
      IntoSeq(w, body, rest, m, m, m, labels);
      if p.test.When? { CondTyped(w, Lower(p.test.cond, m, sl, tys), Seq(body, rest), m, m, labels); }
    }
  }

  lemma DropsLast(w: World, m: seq<Ty>, t: seq<Ty>, more: seq<Ty>)
    requires |t| == 1
    ensures Leads(w, EraseSlot(|m|), m + t + more, m + more)
  {
    assert Drop(m + t + more, |m|) == m + more;
    IntoDo(w, Command(Erase, |m|), m + t + more);
  }

  lemma CompareTyped(w: World, slot: nat, m: seq<Ty>, t: seq<Ty>)
    requires slot < |m| <= INT32_MAX && |t| == 1
    ensures Leads(w, Op1(CompareEqual, Pack2(slot, |m|)), m + t, m + t + [TBool])
  {
    Unpack2(slot, |m|);
    IntoDo(w, Command(Basic(CompareEqual), Pack2(slot, |m|)), m + t);
  }

  /** The clause of one case: its value, the comparison, then the body without the value. */
  lemma {:induction false} CaseTyped(w: World, exp: seq<Ty>, p: Parts, c: Expr, body: Expr, slot: nat, m: seq<Ty>, sl: seq<nat>, tys: seq<Ty>, labels: seq<seq<Ty>>)
    requires p.Part? && p.test == When(c) && p.body == body
    requires Check(w, c, tys) && |ResultOf(c, tys)| == 1 && ScopesOk(m, sl, tys) && slot < |m|
    requires Check(w, body, tys) && Convertible(ResultOf(body, tys), exp)
    requires labels != [] && labels[0] == m + exp
    requires var t := ResultOf(c, tys);
      Room(w, Clause(Seq(Lower(c, m, sl, tys), Op1(CompareEqual, Pack2(slot, |m|))), Seq(EraseSlot(|m|), Valued(body, exp, m, sl, tys)), m + t), m)
    ensures var t := ResultOf(c, tys);
      Into(w, Clause(Seq(Lower(c, m, sl, tys), Op1(CompareEqual, Pack2(slot, |m|))), Seq(EraseSlot(|m|), Valued(body, exp, m, sl, tys)), m + t), m, labels, m + t)
    decreases p, 0
  {
    hide Check, Leads, Room, Lower, Valued, Into, Pack2, Clause, ResultOf;
    var t := ResultOf(c, tys);
    var value, compare := Lower(c, m, sl, tys), Op1(CompareEqual, Pack2(slot, |m|));
    var erase, then_ := EraseSlot(|m|), Valued(body, exp, m, sl, tys);
    RoomTest(w, value, compare, Seq(erase, then_), m, m + t);
    RoomSize(w, value, m);
    LowerTyped(w, c, m, sl, tys);
    CompareTyped(w, slot, m, t);
    LeadsSeq(w, value, compare, m, m + t, m + t + [TBool]);
    LeadsHere(w, Seq(value, compare), m, m + t + [TBool], []);
    RoomClause(w, Seq(value, compare), Seq(erase, then_), m, m + t);
    RoomSeq(w, erase, then_, m + t);
    DropsLast(w, m, t, []);
    assert m + t + [] == m + t && m + [] == m;
    LeadsHere(w, erase, m + t, m, []);
    ValuedTyped(w, body, exp, m, sl, tys);
    LeadsSeq(w, erase, then_, m + t, m, m + exp);
    ClauseTyped(w, Seq(value, compare), Seq(erase, then_), m, m + t, labels);
  }

  lemma RoomTest(w: World, x: Node, y: Node, body: Node, m: seq<Ty>, mid: seq<Ty>)
    requires Room(w, Clause(Seq(x, y), body, mid), m)
    ensures Room(w, x, m)
  {
    hide OutOf, Room, PeakOf;
    var rest := Seq(Exit(CondJump, 0, 0), Seq(body, Exit(Jump, 0, 1)));
    RoomBlock(w, Seq(Seq(x, y), rest), mid, m);
    RoomSeq(w, Seq(x, y), rest, m);
    RoomSeq(w, x, y, m);
  }

  lemma {:induction false} CasesTyped(w: World, exp: seq<Ty>, p: Parts, slot: nat, t: seq<Ty>, m: seq<Ty>, sl: seq<nat>, tys: seq<Ty>, labels: seq<seq<Ty>>)
    requires CheckParts(w, Case(t, exp), p, tys) && |t| == 1 && ScopesOk(m, sl, tys) && slot < |m|
    requires labels != [] && labels[0] == m + exp
    requires Room(w, LowerCases(exp, p, slot, m, sl, tys), m)
    ensures Ends(w, LowerCases(exp, p, slot, m, sl, tys), m, labels, m + exp)
    decreases p, 1
  {
    hide Check, Leads, Room, Lower, Valued, Into, Ends, Pack2, Clause;
    match p
    case End => NoCaseEnds(w, exp, m, labels);
    case Part(test, body, rest) =>
      match test
      case Always =>
        ValuedTyped(w, body, exp, m, sl, tys);
        LeadsHere(w, Valued(body, exp, m, sl, tys), m, m + exp, labels);
        EndsInto(w, Valued(body, exp, m, sl, tys), m, labels, m + exp);
      case When(c) =>
        var clause := Clause(Seq(Lower(c, m, sl, tys), Op1(CompareEqual, Pack2(slot, |m|))), Seq(EraseSlot(|m|), Valued(body, exp, m, sl, tys)), m + t);
        var more := LowerCases(exp, rest, slot, m, sl, tys);
        RoomSeq(w, clause, Seq(EraseSlot(|m|), more), m);
        CaseTyped(w, exp, p, c, body, slot, m, sl, tys, labels);
        IntoIs(w, clause, m, labels, m + t);
        RoomSeq(w, EraseSlot(|m|), more, m + t);
        DropsLast(w, m, t, []);
        assert m + t + [] == m + t && m + [] == m;
        LeadsHere(w, EraseSlot(|m|), m + t, m, labels);
        CasesTyped(w, exp, rest, slot, t, m, sl, tys, labels);
        EndsSeq(w, EraseSlot(|m|), more, m + t, m, labels, m + exp);
        EndsSeq(w, clause, Seq(EraseSlot(|m|), more), m, m + t, labels, m + exp);
  }

  lemma NoCaseEnds(w: World, exp: seq<Ty>, m: seq<Ty>, labels: seq<seq<Ty>>)
    ensures Ends(w, if exp == [] then Nop else Op1(NoMatch, 0), m, labels, m + exp)
  {
    if exp == [] { assert m + exp == m; }
  }

  // --- random -------------------------------------------------------------------------------

  lemma FloatAbove(m: seq<Ty>, n: nat)
    ensures m + Floats(n) + [TFloat] == m + Floats(n + 1)
  {}

  lemma FloatSlots(m: seq<Ty>, n: nat, more: seq<Ty>, i: nat)
    requires i < n && |m| + n <= INT32_MAX
    ensures HasType(m + Floats(n) + more, |m| + i, TFloat)
  {}

  lemma WeightOps(w: World, m: seq<Ty>, k: nat)
    requires |m| + 2 + k <= INT32_MAX
    ensures Leads(w, Op1(CheckWeight, 0), m + Floats(2 + k), m + Floats(2 + k))
    ensures Leads(w, if k == 0 then Nop else Op1(AddToSlot, Pack2(|m| + 1 + k, |m| + k)), m + Floats(2 + k), m + Floats(2 + k))
  {
    var here := m + Floats(2 + k);
    FloatAbove(m, 1 + k);
    TopIs(m + Floats(1 + k), TFloat);
    IntoDo(w, Command(Basic(CheckWeight), 0), here);
    IntoNop(w, here);
    Unpack2(|m| + 1 + k, |m| + k);
    IntoDo(w, Command(Basic(AddToSlot), Pack2(|m| + 1 + k, |m| + k)), here);
  }

  lemma {:induction false} WeightsTyped(w: World, exp: seq<Ty>, p: Parts, k: nat, m: seq<Ty>, sl: seq<nat>, tys: seq<Ty>)
    requires CheckParts(w, Weighted(exp), p, tys) && ScopesOk(m, sl, tys)
    requires Room(w, LowerWeights(p, k, m, sl, tys), m + Floats(1 + k))
    ensures Leads(w, LowerWeights(p, k, m, sl, tys), m + Floats(1 + k), m + Floats(1 + k + CountParts(p)))
    decreases p, 0
  {
    hide Check, Leads, Room, Lower, Valued, Pack2, ResultOf, Typed, OutOf, Into, ScopesOk;
    var here := m + Floats(1 + k);
    if p.End? {
      IntoNop(w, here);
    } else {
      var c, next := p.test.cond, m + Floats(2 + k);
      var weight, check, add := Valued(c, [TFloat], here, sl, tys), Op1(CheckWeight, 0), if k == 0 then Nop else Op1(AddToSlot, Pack2(|m| + 1 + k, |m| + k));
      var rest := LowerWeights(p.rest, k + 1, m, sl, tys);
      RoomSeq(w, weight, Seq(check, Seq(add, rest)), here);
      ScopesUnder(m, Floats(1 + k), sl, tys);
      ValuedTyped(w, c, [TFloat], here, sl, tys);
      FloatAbove(m, 1 + k);
      LeadsHere(w, weight, here, next, []);
      RoomSize(w, Seq(check, Seq(add, rest)), next);
      WeightOps(w, m, k);
      LeadsHere(w, check, next, next, []);
      LeadsHere(w, add, next, next, []);
      RoomSeq(w, check, Seq(add, rest), next);
      RoomSeq(w, add, rest, next);
      WeightsTyped(w, exp, p.rest, k + 1, m, sl, tys);
      var out := m + Floats(1 + k + CountParts(p));
      LeadsSeq(w, add, rest, next, next, out);
      LeadsSeq(w, check, Seq(add, rest), next, next, out);
      LeadsSeq(w, weight, Seq(check, Seq(add, rest)), here, next, out);
    }
  }

  lemma LessTyped(w: World, m: seq<Ty>, n: nat, k: nat)
    requires k < n && |m| + 1 + n <= INT32_MAX
    ensures Leads(w, Op1(CompareLessEq, Pack2(|m|, |m| + 1 + k)), m + Floats(1 + n), m + Floats(1 + n) + [TBool])
  {
    var here := m + Floats(1 + n);
    Unpack2(|m|, |m| + 1 + k);
    assert here + [] == here;
    FloatSlots(m, 1 + n, [], 0);
    FloatSlots(m, 1 + n, [], 1 + k);
    IntoDo(w, Command(Basic(CompareLessEq), Pack2(|m|, |m| + 1 + k)), here);
  }

  lemma {:induction false} BranchesTyped(w: World, exp: seq<Ty>, p: Parts, k: nat, n: nat, m: seq<Ty>, sl: seq<nat>, tys: seq<Ty>, labels: seq<seq<Ty>>)
    requires CheckParts(w, Weighted(exp), p, tys) && ScopesOk(m, sl, tys) && k + CountParts(p) == n
    requires labels != [] && labels[0] == m + Floats(1 + n) + exp
    requires Room(w, LowerBranches(exp, p, k, n, m, sl, tys), m + Floats(1 + n))
    ensures Ends(w, LowerBranches(exp, p, k, n, m, sl, tys), m + Floats(1 + n), labels, m + Floats(1 + n) + exp)
    decreases p, 0
  {
    hide Check, Leads, Room, Lower, Valued, Pack2, ResultOf, Into, Ends, Clause;
    var here := m + Floats(1 + n);
    match p
    case End => NoBranchEnds(w, exp, here, labels);
    case Part(_, body, rest) =>
      var test, value := Op1(CompareLessEq, Pack2(|m|, |m| + 1 + k)), Valued(body, exp, here, sl, tys);
      var more := LowerBranches(exp, rest, k + 1, n, m, sl, tys);
      RoomSeq(w, Clause(test, value, here), more, here);
      RoomSize(w, Clause(test, value, here), here);
      LessTyped(w, m, n, k);
      LeadsHere(w, test, here, here + [TBool], []);
      RoomClause(w, test, value, here, here);
      ScopesUnder(m, Floats(1 + n), sl, tys);
      ValuedTyped(w, body, exp, here, sl, tys);
      ClauseTyped(w, test, value, here, here, labels);
      IntoIs(w, Clause(test, value, here), here, labels, here);
      BranchesTyped(w, exp, rest, k + 1, n, m, sl, tys, labels);
      EndsSeq(w, Clause(test, value, here), more, here, here, labels, here + exp);
  }

  lemma NoBranchEnds(w: World, exp: seq<Ty>, m: seq<Ty>, labels: seq<seq<Ty>>)
    ensures Ends(w, if exp == [] then Nop else Stuck, m, labels, m + exp)
  {
    if exp == [] { assert m + exp == m; }
  }

  lemma {:induction false} EraseDownTyped(w: World, m: seq<Ty>, n: nat, exp: seq<Ty>)
    ensures Leads(w, EraseDown(|m|, n), m + Floats(1 + n) + exp, m + exp)
    decreases n
  {
    hide Leads;
    if n == 0 {
      assert Floats(1) == [TFloat];
      DropsLast(w, m, [TFloat], exp);
    } else {
      var below := m + Floats(n);
      FloatAbove(m, n);
      assert below + [TFloat] + exp == m + Floats(1 + n) + exp;
      DropsLast(w, below, [TFloat], exp);
      EraseDownTyped(w, m, n - 1, exp);
      LeadsSeq(w, EraseSlot(|m| + n), EraseDown(|m|, n - 1), m + Floats(1 + n) + exp, below + exp, m + exp);
    }
  }

  // --- expressions --------------------------------------------------------------------------

  lemma {:induction false} SwitchTyped(w: World, x: Expr, m: seq<Ty>, sl: seq<nat>, tys: seq<Ty>)
    requires x.Switch? && Check(w, x, tys) && ScopesOk(m, sl, tys) && Room(w, Lower(x, m, sl, tys), m)
    ensures Leads(w, Lower(x, m, sl, tys), m, m + x.exp)
    decreases x, 0
  {
    hide CheckParts, Leads, Room, LowerCases, ResultOf, Ends;
    var t, exp := ResultOf(x.value, tys), x.exp;
    var value, cases := Lower(x.value, m, sl, tys), LowerCases(exp, x.cases, |m|, m + t, sl + [|m|], tys + t);
    RoomSeq(w, value, Seq(Block(cases, m + t + exp), EraseSlot(|m|)), m);
    LowerTyped(w, x.value, m, sl, tys);
    LeadsHere(w, value, m, m + t, []);
    RoomSeq(w, Block(cases, m + t + exp), EraseSlot(|m|), m + t);
    RoomBlock(w, cases, m + t + exp, m + t);
    ScopesOpen(m, t, sl, tys);
    forall labels ensures Ends(w, cases, m + t, [m + t + exp] + labels, m + t + exp) {
      CasesTyped(w, exp, x.cases, |m|, t, m + t, sl + [|m|], tys + t, [m + t + exp] + labels);
    }
    assert [m + t + exp] + [] == [m + t + exp];
    assert Ends(w, cases, m + t, [m + t + exp] + [], m + t + exp);
    BlockOfEnds(w, cases, m + t, m + t + exp);
    DropsLast(w, m, t, exp);
    LeadsSeq(w, Block(cases, m + t + exp), EraseSlot(|m|), m + t, m + t + exp, m + exp);
    LeadsSeq(w, value, Seq(Block(cases, m + t + exp), EraseSlot(|m|)), m, m + t, m + exp);
  }

  lemma {:induction false} ValueOrTyped(w: World, x: Expr, m: seq<Ty>, sl: seq<nat>, tys: seq<Ty>)
    requires x.ValueOr? && Check(w, x, tys) && ScopesOk(m, sl, tys) && Room(w, Lower(x, m, sl, tys), m)
    ensures Leads(w, Lower(x, m, sl, tys), m, m + x.exp)
    decreases x, 0
  {
    hide Leads, Room, ResultOf, Ends, Into, Valued, Clause;
    var exp, out := x.exp, m + x.exp;
    var test, value, other := Lower(x.cond, m, sl, tys), Valued(x.value, exp, m, sl, tys), Valued(x.default, exp, m, sl, tys);
    var clause := Clause(test, value, m);
    RoomBlock(w, Seq(clause, other), out, m);
    RoomSeq(w, clause, other, m);
    ClauseTestTyped(w, x.cond, value, m, sl, tys);
    ValuedTyped(w, x.value, exp, m, sl, tys);
    forall labels ensures Ends(w, Seq(clause, other), m, [out] + labels, out) {
      ClauseTyped(w, test, value, m, m, [out] + labels);
      IntoIs(w, clause, m, [out] + labels, m);
      ValuedTyped(w, x.default, exp, m, sl, tys);
      LeadsHere(w, other, m, out, [out] + labels);
      IntoSeq(w, clause, other, m, m, out, [out] + labels);
      EndsInto(w, Seq(clause, other), m, [out] + labels, out);
    }
    assert [out] + [] == [out];
    assert Ends(w, Seq(clause, other), m, [out] + [], out);
    BlockOfEnds(w, Seq(clause, other), m, out);
  }

  lemma {:induction false} WithinTyped(w: World, scope: Expr, body: Expr, x: Expr, m: seq<Ty>, sl: seq<nat>, tys: seq<Ty>)
    requires (x.Within? || x.WithinValid?) && x.scope == scope && x.body == body
    requires Check(w, scope, tys) && |ResultOf(scope, tys)| == 1 && ScopesOk(m, sl, tys)
    requires var t := ResultOf(scope, tys);
      Check(w, body, tys + t) && Room(w, Seq(Lower(body, m + t, sl + [|m|], tys + t), EraseSlot(|m|)), m + t)
    ensures var t := ResultOf(scope, tys);
      Leads(w, Seq(Lower(body, m + t, sl + [|m|], tys + t), EraseSlot(|m|)), m + t, m + ResultOf(body, tys + t))
    decreases x, 0
  {
    hide Leads, Room, ResultOf, Check;
    var t := ResultOf(scope, tys);
    var code, r := Lower(body, m + t, sl + [|m|], tys + t), ResultOf(body, tys + t);
    RoomSeq(w, code, EraseSlot(|m|), m + t);
    ScopesOpen(m, t, sl, tys);
    LowerTyped(w, body, m + t, sl + [|m|], tys + t);
    DropsLast(w, m, t, r);
    LeadsSeq(w, code, EraseSlot(|m|), m + t, m + t + r, m + r);
  }

  lemma {:induction false} GuardedTyped(w: World, x: Expr, m: seq<Ty>, sl: seq<nat>, tys: seq<Ty>)
    requires x.WithinValid? && Check(w, x, tys) && ScopesOk(m, sl, tys) && Room(w, Lower(x, m, sl, tys), m)
    ensures Leads(w, Lower(x, m, sl, tys), m, m + [x.ty])
    decreases x, 1
  {
    hide Leads, Room, ResultOf, Into;
    var t, out, mode := ResultOf(x.scope, tys), m + [x.ty], ModeOf(x.ty);
    var scope, guard := Lower(x.scope, m, sl, tys), Exit(ScopeGuard, mode, 0);
    var code := Seq(Lower(x.body, m + t, sl + [|m|], tys + t), EraseSlot(|m|));
    RoomSeq(w, scope, Block(Seq(guard, code), out), m);
    LowerTyped(w, x.scope, m, sl, tys);
    LeadsHere(w, scope, m, m + t, []);
    RoomBlock(w, Seq(guard, code), out, m + t);
    RoomSeq(w, guard, code, m + t);
    ExitOutIs(ScopeGuard, mode, 0, m + t);
    WithinTyped(w, x.scope, x.body, x, m, sl, tys);
    TopIs(m, t[0]);
    assert m + t == m + [t[0]];
    forall labels ensures Into(w, Block(Seq(guard, code), out), m + t, labels, out) {
      IntoExit(w, ScopeGuard, mode, 0, m + t, [out] + labels);
      LeadsHere(w, code, m + t, out, [out] + labels);
      IntoSeq(w, guard, code, m + t, m + t, out, [out] + labels);
      IntoIs(w, Seq(guard, code), m + t, [out] + labels, out);
      IntoBlock(w, Seq(guard, code), m + t, labels, out);
    }
    LeadsFrom(w, Block(Seq(guard, code), out), m + t, out);
    LeadsSeq(w, scope, Block(Seq(guard, code), out), m, m + t, out);
  }

  lemma LeadsFrom(w: World, n: Node, m: seq<Ty>, out: seq<Ty>)
    requires forall labels :: Into(w, n, m, labels, out)
    ensures Leads(w, n, m, out)
  {}

  /** A block whose code needs only its own label. */
  lemma BlockOfInto(w: World, n: Node, m: seq<Ty>, out: seq<Ty>)
    requires forall labels :: Into(w, n, m, [out] + labels, out)
    ensures Leads(w, Block(n, out), m, out)
  {
    hide Into;
    forall labels ensures Into(w, Block(n, out), m, labels, out) {
      assert Into(w, n, m, [out] + labels, out);
      IntoIs(w, n, m, [out] + labels, out);
      IntoBlock(w, n, m, labels, out);
    }
  }

  lemma {:induction false} RandomTyped(w: World, x: Expr, m: seq<Ty>, sl: seq<nat>, tys: seq<Ty>)
    requires x.Random? && Check(w, x, tys) && ScopesOk(m, sl, tys) && Room(w, Lower(x, m, sl, tys), m)
    ensures Leads(w, Lower(x, m, sl, tys), m, m + x.exp)
    decreases x, 0
  {
    hide Leads, Room, ResultOf, Into, Ends, CheckParts, LowerWeights, LowerBranches, Floats, EraseDown, Pack2;
    var exp, n := x.exp, CountParts(x.branches);
    var m1, mw := m + Floats(1), m + Floats(1 + n);
    var chance, weights, scale := Op1(Chance, x.seed), LowerWeights(x.branches, 0, m, sl, tys), Op1(MulIntoSlot, Pack2(|m|, |m| + n));
    var branches := LowerBranches(exp, x.branches, 0, n, m, sl, tys);
    var block, erases := Block(branches, mw + exp), EraseDown(|m|, n);
    RoomSeq(w, chance, Seq(weights, Seq(scale, Seq(block, erases))), m);
    ChanceTyped(w, m, x.seed);
    LeadsHere(w, chance, m, m1, []);
    RoomSeq(w, weights, Seq(scale, Seq(block, erases)), m1);
    WeightsTyped(w, exp, x.branches, 0, m, sl, tys);
    LeadsHere(w, weights, m1, mw, []);
    RoomSize(w, Seq(scale, Seq(block, erases)), mw);
    RoomSeq(w, scale, Seq(block, erases), mw);
    ScaleTyped(w, m, n);
    LeadsHere(w, scale, mw, mw, []);
    RoomSeq(w, block, erases, mw);
    RoomBlock(w, branches, mw + exp, mw);
    forall labels ensures Ends(w, branches, mw, [mw + exp] + labels, mw + exp) {
      BranchesTyped(w, exp, x.branches, 0, n, m, sl, tys, [mw + exp] + labels);
    }
    assert [mw + exp] + [] == [mw + exp];
    assert Ends(w, branches, mw, [mw + exp] + [], mw + exp);
    BlockOfEnds(w, branches, mw, mw + exp);
    EraseDownTyped(w, m, n, exp);
    LeadsSeq(w, block, erases, mw, mw + exp, m + exp);
    LeadsSeq(w, scale, Seq(block, erases), mw, mw, m + exp);
    LeadsSeq(w, weights, Seq(scale, Seq(block, erases)), m1, mw, m + exp);
    LeadsSeq(w, chance, Seq(weights, Seq(scale, Seq(block, erases))), m, m1, m + exp);
  }

  lemma ChanceTyped(w: World, m: seq<Ty>, seed: int)
    ensures Leads(w, Op1(Chance, seed), m, m + Floats(1))
  {
    assert Floats(1) == [TFloat];
    IntoDo(w, Command(Basic(Chance), seed), m);
  }

  lemma ScaleTyped(w: World, m: seq<Ty>, n: nat)
    requires |m + Floats(1 + n)| <= INT32_MAX
    ensures Leads(w, Op1(MulIntoSlot, Pack2(|m|, |m| + n)), m + Floats(1 + n), m + Floats(1 + n))
  {
    var here := m + Floats(1 + n);
    Unpack2(|m|, |m| + n);
    assert here + [] == here;
    FloatSlots(m, 1 + n, [], 0);
    FloatSlots(m, 1 + n, [], n);
    IntoDo(w, Command(Basic(MulIntoSlot), Pack2(|m|, |m| + n)), here);
  }

  lemma {:induction false} NativeTyped(w: World, x: Expr, m: seq<Ty>, sl: seq<nat>, tys: seq<Ty>)
    requires x.Native? && Check(w, x, tys) && ScopesOk(m, sl, tys) && Room(w, Lower(x, m, sl, tys), m)
    ensures Leads(w, Lower(x, m, sl, tys), m, m + ResultOf(x, tys))
    decreases x, 0
  {
    hide Leads, Room, CheckParts, LowerArgs;
    var args, call := LowerArgs(x.args, m, sl, tys), Command(Basic(Call(x.sig)), ScopeSlot(sl));
    RoomSeq(w, args, Do(call), m);
    ArgsTyped(w, x.args, x.sig.args, m, sl, tys);
    var here := m + x.sig.args;
    assert here[|here| - |x.sig.args|..] == x.sig.args && Init(here, |x.sig.args|) == m;
    IntoDo(w, call, here);
    LeadsSeq(w, args, Do(call), m, here, m + ResultOf(x, tys));
  }

  lemma {:induction false} LogicBlockTyped(w: World, x: Expr, m: seq<Ty>, sl: seq<nat>, tys: seq<Ty>)
    requires x.Logic? && Check(w, x, tys) && ScopesOk(m, sl, tys) && Room(w, Lower(x, m, sl, tys), m)
    ensures Leads(w, Lower(x, m, sl, tys), m, m + [TBool])
    decreases x, 0
  {
    hide Leads, Room, CheckParts, LowerLogic, Into;
    var out, code := m + [TBool], LowerLogic(x.any, x.kids, true, m, sl, tys);
    if x.negated { RoomSeq(w, Block(code, out), Op1(Not, 0), m); }
    RoomBlock(w, code, out, m);
    forall labels ensures Into(w, code, m, [out] + labels, out) { LogicTyped(w, x.any, x.kids, true, m, sl, tys, [out] + labels); }
    BlockOfInto(w, code, m, out);
    TopIs(m, TBool);
    IntoDo(w, Command(Basic(Not), 0), out);
    if x.negated { LeadsSeq(w, Block(code, out), Op1(Not, 0), m, out, out); }
  }

  lemma {:induction false} TotalTyped(w: World, x: Expr, m: seq<Ty>, sl: seq<nat>, tys: seq<Ty>)
    requires x.Total? && Check(w, x, tys) && ScopesOk(m, sl, tys) && Room(w, Lower(x, m, sl, tys), m)
    ensures Leads(w, Lower(x, m, sl, tys), m, m + [x.ty])
    decreases x, 0
  {
    hide Leads, Room, CheckParts, LowerTerms;
    if Conditional(x.terms) {
      var push, terms := IdentityPush(x.product, x.ty), LowerTerms(x.op, x.ty, x.terms, false, m, sl, tys);
      RoomSeq(w, push, terms, m);
      IdentityTyped(w, x.product, x.op, x.ty, m);
      LeadsHere(w, push, m, m + [x.ty], []);
      TermsTyped(w, x.product, x.op, x.ty, x.terms, false, m, sl, tys);
      LeadsSeq(w, push, terms, m, m + [x.ty], m + [x.ty]);
    } else {
      TermsTyped(w, x.product, x.op, x.ty, x.terms, true, m, sl, tys);
    }
  }

  lemma IdentityTyped(w: World, product: bool, op: Prim, ty: Ty, m: seq<Ty>)
    requires TotalOk(product, op, ty)
    ensures Leads(w, IdentityPush(product, ty), m, m + [ty])
  {}

  lemma {:induction false} SequenceTyped(w: World, x: Expr, m: seq<Ty>, sl: seq<nat>, tys: seq<Ty>)
    requires x.Sequence? && Check(w, x, tys) && ScopesOk(m, sl, tys) && Room(w, Lower(x, m, sl, tys), m)
    ensures Leads(w, Lower(x, m, sl, tys), m, m + x.exp)
    decreases x, 0
  {
    hide Leads, Room, CheckParts, LowerStages, Into, StartPush, Scalar;
    var out, push, stages := m + x.exp, StartPush(x.exp), LowerStages(x.exp, x.clauses, m, sl, tys);
    RoomSeq(w, push, Block(stages, out), m);
    CollectTyped(w, x.exp, m);
    LeadsHere(w, push, m, out, []);
    RoomBlock(w, stages, out, out);
    forall labels ensures Into(w, stages, out, [out] + labels, out) { StagesTyped(w, x.exp, x.clauses, m, sl, tys, [out] + labels); }
    BlockOfInto(w, stages, out, out);
    LeadsSeq(w, push, Block(stages, out), m, out, out);
  }

  lemma {:induction false} SelectBlockTyped(w: World, x: Expr, m: seq<Ty>, sl: seq<nat>, tys: seq<Ty>)
    requires x.Select? && Check(w, x, tys) && ScopesOk(m, sl, tys) && Room(w, Lower(x, m, sl, tys), m)
    ensures Leads(w, Lower(x, m, sl, tys), m, m + x.exp)
    decreases x, 0
  {
    hide Leads, Room, CheckParts, LowerSelect, Ends;
    var out, code := m + x.exp, LowerSelect(x.exp, x.clauses, m, sl, tys);
    RoomBlock(w, code, out, m);
    forall labels ensures Ends(w, code, m, [out] + labels, out) { SelectTyped(w, x.exp, x.clauses, m, sl, tys, [out] + labels); }
    assert [out] + [] == [out];
    assert Ends(w, code, m, [out] + [], out);
    BlockOfEnds(w, code, m, out);
  }

  lemma {:induction false} EffectsBlockTyped(w: World, x: Expr, m: seq<Ty>, sl: seq<nat>, tys: seq<Ty>)
    requires x.Effects? && Check(w, x, tys) && ScopesOk(m, sl, tys) && Room(w, Lower(x, m, sl, tys), m)
    ensures Leads(w, Lower(x, m, sl, tys), m, m)
    decreases x, 0
  {
    hide Leads, Room, CheckParts, LowerEffects, Into;
    var code := LowerEffects(x.children, m, sl, tys);
    RoomBlock(w, code, m, m);
    forall labels ensures Into(w, code, m, [m] + labels, m) { EffectsTyped(w, x.children, m, sl, tys, [m] + labels); }
    BlockOfInto(w, code, m, m);
  }

  lemma SimpleTyped(w: World, x: Expr, m: seq<Ty>, sl: seq<nat>, tys: seq<Ty>)
    requires (x.Literal? || x.Outer? || x.Saved?) && Check(w, x, tys) && ScopesOk(m, sl, tys)
    ensures Leads(w, Lower(x, m, sl, tys), m, m + ResultOf(x, tys))
  {}

  /**
    Whatever the expression, the compile-time stack the generator ends with is the one it
    started with and the expression's result, and every command in between finds the
    operands it needs where and as the generator believes.
  */
  lemma {:induction false} LowerTyped(w: World, x: Expr, m: seq<Ty>, sl: seq<nat>, tys: seq<Ty>)
    requires Check(w, x, tys) && ScopesOk(m, sl, tys) && Room(w, Lower(x, m, sl, tys), m)
    ensures Leads(w, Lower(x, m, sl, tys), m, m + ResultOf(x, tys))
    decreases x, 2
  {
    hide Leads, Room, Into;
    match x
    case Native(_, _) => NativeTyped(w, x, m, sl, tys);
    case Logic(_, _, _) => LogicBlockTyped(w, x, m, sl, tys);
    case Total(_, _, _, _) => TotalTyped(w, x, m, sl, tys);
    case Select(_, _) => SelectBlockTyped(w, x, m, sl, tys);
    case Sequence(_, _) => SequenceTyped(w, x, m, sl, tys);
    case Switch(_, _, _) => SwitchTyped(w, x, m, sl, tys);
    case ValueOr(_, _, _, _) => ValueOrTyped(w, x, m, sl, tys);
    case Random(_, _, _) => RandomTyped(w, x, m, sl, tys);
    case Within(scope, body) =>
      var t := ResultOf(scope, tys);
      var code := Seq(Lower(body, m + t, sl + [|m|], tys + t), EraseSlot(|m|));
      RoomSeq(w, Lower(scope, m, sl, tys), code, m);
      LowerTyped(w, scope, m, sl, tys);
      LeadsHere(w, Lower(scope, m, sl, tys), m, m + t, []);
      WithinTyped(w, scope, body, x, m, sl, tys);
      LeadsSeq(w, Lower(scope, m, sl, tys), code, m, m + t, m + ResultOf(body, tys + t));
    case WithinValid(_, _, _) => GuardedTyped(w, x, m, sl, tys);
    case Effects(_) =>
      EffectsBlockTyped(w, x, m, sl, tys);
      assert m + [] == m;
    case _ => SimpleTyped(w, x, m, sl, tys);
  }
}
