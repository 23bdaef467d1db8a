/**
  The callback sections of a list pipeline as the generator emits them. The item lies in a
  new slot that is the section's innermost scope; the body runs above it; the slot is then
  erased and the value converted. Such a section does what the pipelines ask of a callback.
*/
module ListSections {
  import opened Machine
  import opened Simulation
  import opened Blocks
  import opened Lowering
  import opened LoweringTyped
  import opened LoweringMeans
  import Lists = ListPipelines
  import ListRuns
  import RandomChoice
  import Reals = Answers

  // --- a meaning that leaves a list alone --------------------------------------------------------

  /** Native functions and reads neither look at the list nor change it. */
  ghost predicate ListFree(w: World, l: nat) {
    && (forall id, scope, args, e: Env, items :: l < |e.lists| ==> CallFree(w, l, id, scope, args, e, items))
    && (forall kind, slot, e: Env, items :: l < |e.lists| ==> w.read(kind, slot, Lists.WithList(e, l, items)) == w.read(kind, slot, e))
    && (forall seed, e: Env, items :: l < |e.lists| ==> w.chance(seed, Lists.WithList(e, l, items)) == w.chance(seed, e))
  }

  ghost predicate CallFree(w: World, l: nat, id: nat, scope: Option<Value>, args: seq<Value>, e: Env, items: seq<Value>)
    requires l < |e.lists|
  {
    match w.call(id, scope, args, e)
    case Returned(v, e') => l < |e'.lists| && w.call(id, scope, args, Lists.WithList(e, l, items)) == Returned(v, Lists.WithList(e', l, items))
    case Raised(err) => w.call(id, scope, args, Lists.WithList(e, l, items)) == Raised(err)
  }

  /** The answer `b` given with other items in the list is `a`, with those items still there. */
  ghost predicate Steady(a: Answer, b: Answer, l: nat, items: seq<Value>) {
    match a
    case Gives(vs, e) => l < |e.lists| && b == Gives(vs, Lists.WithList(e, l, items))
    case _ => b == a
  }

  lemma CallSteady(w: World, sig: Signature, sc: seq<Value>, args: seq<Value>, e: Env, l: nat, items: seq<Value>)
    requires ListFree(w, l) && l < |e.lists|
    ensures Steady(CallAnswer(w, sig, sc, args, e), CallAnswer(w, sig, sc, args, Lists.WithList(e, l, items)), l, items)
  {
    assert CallFree(w, l, sig.id, if sig.scope.Some? && sc != [] then Some(Last(sc)) else None, args, e, items);
  }

  lemma {:induction false} ArgsSteady(w: World, p: Parts, sc: seq<Value>, e: Env, l: nat, items: seq<Value>)
    requires ListFree(w, l) && l < |e.lists|
    ensures Steady(Args(w, p, sc, e), Args(w, p, sc, Lists.WithList(e, l, items)), l, items)
    decreases p, 0
  {
    hide ListFree, Meaning;
    if p.Part? {
      MeaningSteady(w, p.body, sc, e, l, items);
      var a := Meaning(w, p.body, sc, e);
      if a.Gives? { ArgsSteady(w, p.rest, sc, a.env, l, items); }
    }
  }

  lemma {:induction false} TestSteady(w: World, t: Test, sc: seq<Value>, e: Env, l: nat, items: seq<Value>)
    requires ListFree(w, l) && l < |e.lists|
    ensures Steady(Holds(w, t, sc, e), Holds(w, t, sc, Lists.WithList(e, l, items)), l, items)
    decreases t, 0
  {
    hide ListFree, Meaning;
    if t.When? { MeaningSteady(w, t.cond, sc, e, l, items); }
  }

  lemma {:induction false} DecideSteady(w: World, any: bool, p: Parts, sc: seq<Value>, e: Env, l: nat, items: seq<Value>)
    requires ListFree(w, l) && l < |e.lists|
    ensures Steady(Decide(w, any, p, sc, e), Decide(w, any, p, sc, Lists.WithList(e, l, items)), l, items)
    decreases p, 0
  {
    hide ListFree, Meaning;
    if p.Part? {
      MeaningSteady(w, p.body, sc, e, l, items);
      var a := Meaning(w, p.body, sc, e);
      if a.Gives? { DecideSteady(w, any, p.rest, sc, a.env, l, items); }
    }
  }

  lemma TermSteady(w: World, op: Prim, ty: Ty, acc: seq<Value>, a: Answer, b: Answer, l: nat, items: seq<Value>)
    requires ListFree(w, l) && Steady(a, b, l, items)
    ensures Steady(AddTerm(w, op, acc, Converted(w, [ty], a)), AddTerm(w, op, acc, Converted(w, [ty], b)), l, items)
  {
    hide ListFree, Convert, CallAnswer;
    if a.Gives? && op.Call? && acc != [] {
      var vs := Convert(w, [ty], a.values);
      if |vs| == 1 { CallSteady(w, op.sig, [], [acc[0], vs[0]], a.env, l, items); }
    }
  }

  lemma {:induction false} AccumulateSteady(w: World, op: Prim, ty: Ty, p: Parts, acc: seq<Value>, sc: seq<Value>, e: Env, l: nat, items: seq<Value>)
    requires ListFree(w, l) && l < |e.lists|
    ensures Steady(Accumulate(w, op, ty, p, acc, sc, e), Accumulate(w, op, ty, p, acc, sc, Lists.WithList(e, l, items)), l, items)
    decreases p, 0
  {
    hide ListFree, Meaning, Holds, AddTerm, Converted;
    if p.Part? {
      TestSteady(w, p.test, sc, e, l, items);
      var t := Holds(w, p.test, sc, e);
      if t.Gives? {
        if t.values == [Bool(false)] { AccumulateSteady(w, op, ty, p.rest, acc, sc, t.env, l, items); }
        else {
          MeaningSteady(w, p.body, sc, t.env, l, items);
          TermSteady(w, op, ty, acc, Meaning(w, p.body, sc, t.env), Meaning(w, p.body, sc, Lists.WithList(t.env, l, items)), l, items);
          var a := AddTerm(w, op, acc, Converted(w, [ty], Meaning(w, p.body, sc, t.env)));
          if a.Gives? { AccumulateSteady(w, op, ty, p.rest, a.values, sc, a.env, l, items); }
        }
      }
    }
  }

  lemma ConvertedSteady(w: World, exp: seq<Ty>, a: Answer, b: Answer, l: nat, items: seq<Value>)
    requires Steady(a, b, l, items)
    ensures Steady(Converted(w, exp, a), Converted(w, exp, b), l, items)
  {}

  lemma {:induction false} FirstSteady(w: World, exp: seq<Ty>, p: Parts, sc: seq<Value>, e: Env, l: nat, items: seq<Value>)
    requires ListFree(w, l) && l < |e.lists|
    ensures Steady(FirstOf(w, exp, p, sc, e), FirstOf(w, exp, p, sc, Lists.WithList(e, l, items)), l, items)
    decreases p, 0
  {
    hide ListFree, Meaning, Holds, Converted;
    if p.Part? {
      TestSteady(w, p.test, sc, e, l, items);
      var t := Holds(w, p.test, sc, e);
      if t.Gives? {
        MeaningSteady(w, p.body, sc, t.env, l, items);
        ConvertedSteady(w, exp, Meaning(w, p.body, sc, t.env), Meaning(w, p.body, sc, Lists.WithList(t.env, l, items)), l, items);
        FirstSteady(w, exp, p.rest, sc, t.env, l, items);
      }
    }
  }

  lemma {:induction false} WhileSteady(w: World, exp: seq<Ty>, p: Parts, acc: seq<Value>, sc: seq<Value>, e: Env, l: nat, items: seq<Value>)
    requires ListFree(w, l) && l < |e.lists|
    ensures Steady(WhileTrue(w, exp, p, acc, sc, e), WhileTrue(w, exp, p, acc, sc, Lists.WithList(e, l, items)), l, items)
    decreases p, 0
  {
    hide ListFree, Meaning, Holds, Converted, Collect;
    if p.Part? {
      TestSteady(w, p.test, sc, e, l, items);
      var t := Holds(w, p.test, sc, e);
      if t.Gives? {
        MeaningSteady(w, p.body, sc, t.env, l, items);
        ConvertedSteady(w, exp, Meaning(w, p.body, sc, t.env), Meaning(w, p.body, sc, Lists.WithList(t.env, l, items)), l, items);
        var a := Converted(w, exp, Meaning(w, p.body, sc, t.env));
        if a.Gives? { WhileSteady(w, exp, p.rest, Collect(w, exp, acc, a.values), sc, a.env, l, items); }
      }
    }
  }

  lemma {:induction false} CaseSteady(w: World, exp: seq<Ty>, p: Parts, v: Value, sc: seq<Value>, e: Env, l: nat, items: seq<Value>)
    requires ListFree(w, l) && l < |e.lists|
    ensures Steady(CaseOf(w, exp, p, v, sc, e), CaseOf(w, exp, p, v, sc, Lists.WithList(e, l, items)), l, items)
    decreases p, 0
  {
    hide ListFree, Meaning, Converted, SameValue;
    if p.Part? {
      if p.test.Always? {
        MeaningSteady(w, p.body, sc, e, l, items);
        ConvertedSteady(w, exp, Meaning(w, p.body, sc, e), Meaning(w, p.body, sc, Lists.WithList(e, l, items)), l, items);
      } else {
        MeaningSteady(w, p.test.cond, sc, e, l, items);
        var t := Meaning(w, p.test.cond, sc, e);
        if t.Gives? {
          MeaningSteady(w, p.body, sc, t.env, l, items);
          ConvertedSteady(w, exp, Meaning(w, p.body, sc, t.env), Meaning(w, p.body, sc, Lists.WithList(t.env, l, items)), l, items);
          CaseSteady(w, exp, p.rest, v, sc, t.env, l, items);
        }
      }
    }
  }

  lemma {:induction false} PerformSteady(w: World, p: Parts, sc: seq<Value>, e: Env, l: nat, items: seq<Value>)
    requires ListFree(w, l) && l < |e.lists|
    ensures Steady(Perform(w, p, sc, e), Perform(w, p, sc, Lists.WithList(e, l, items)), l, items)
    decreases p, 0
  {
    hide ListFree, Meaning, Holds;
    if p.Part? {
      TestSteady(w, p.test, sc, e, l, items);
      var t := Holds(w, p.test, sc, e);
      if t.Gives? {
        MeaningSteady(w, p.body, sc, t.env, l, items);
        var a := Meaning(w, p.body, sc, t.env);
        if a.Gives? { PerformSteady(w, p.rest, sc, a.env, l, items); }
      }
    }
  }

  ghost predicate SteadyWeights(a: Weights, b: Weights, l: nat, items: seq<Value>) {
    match a
    case Weighed(ws, e) => l < |e.lists| && b == Weighed(ws, Lists.WithList(e, l, items))
    case Unweighed(why) => b == a && !why.Gives?
  }

  lemma {:induction false} WeighSteady(w: World, p: Parts, sc: seq<Value>, e: Env, ws: seq<real>, l: nat, items: seq<Value>)
    requires ListFree(w, l) && l < |e.lists|
    ensures SteadyWeights(Weigh(w, p, sc, e, ws), Weigh(w, p, sc, Lists.WithList(e, l, items), ws), l, items)
    decreases p, 0
  {
    hide ListFree, Meaning, Holds, Converted;
    if p.Part? {
      TestSteady(w, p.test, sc, e, l, items);
      ConvertedSteady(w, [TFloat], Holds(w, p.test, sc, e), Holds(w, p.test, sc, Lists.WithList(e, l, items)), l, items);
      var a := Converted(w, [TFloat], Holds(w, p.test, sc, e));
      if a.Gives? && |a.values| == 1 && a.values[0].Float? { WeighSteady(w, p.rest, sc, a.env, ws + [a.values[0].r], l, items); }
    }
  }

  lemma {:induction false} ChosenSteady(w: World, exp: seq<Ty>, p: Parts, cums: seq<real>, k: nat, roll: real, sc: seq<Value>, e: Env, l: nat, items: seq<Value>)
    requires ListFree(w, l) && l < |e.lists|
    ensures Steady(Chosen(w, exp, p, cums, k, roll, sc, e), Chosen(w, exp, p, cums, k, roll, sc, Lists.WithList(e, l, items)), l, items)
    decreases p, 0
  {
    hide ListFree, Meaning, Converted;
    if p.Part? {
      MeaningSteady(w, p.body, sc, e, l, items);
      ConvertedSteady(w, exp, Meaning(w, p.body, sc, e), Meaning(w, p.body, sc, Lists.WithList(e, l, items)), l, items);
      ChosenSteady(w, exp, p.rest, cums, k + 1, roll, sc, e, l, items);
    }
  }

  lemma {:induction false} RandomSteady(w: World, x: Expr, sc: seq<Value>, e: Env, l: nat, items: seq<Value>)
    requires x.Random? && ListFree(w, l) && l < |e.lists|
    ensures Steady(Meaning(w, x, sc, e), Meaning(w, x, sc, Lists.WithList(e, l, items)), l, items)
    decreases x, 0
  {
    hide Chosen, Weigh, Cumulative, ListFree;
    WeighSteady(w, x.branches, sc, e, [], l, items);
    var a := Weigh(w, x.branches, sc, e, []);
    if a.Weighed? {
      var cums := Cumulative(w, a.ws);
      ChanceSteady(w, x.seed, e, l, items);
      if cums != [] { ChosenSteady(w, x.exp, x.branches, cums, 0, w.mul(w.chance(x.seed, e), Last(cums)), sc, a.env, l, items); }
    }
  }

  lemma ChanceSteady(w: World, seed: int, e: Env, l: nat, items: seq<Value>)
    requires ListFree(w, l) && l < |e.lists|
    ensures w.chance(seed, Lists.WithList(e, l, items)) == w.chance(seed, e)
  {}

  /** Where native functions leave the list alone, so does the meaning of any expression. */
  lemma {:induction false} MeaningSteady(w: World, x: Expr, sc: seq<Value>, e: Env, l: nat, items: seq<Value>)
    requires ListFree(w, l) && l < |e.lists|
    ensures Steady(Meaning(w, x, sc, e), Meaning(w, x, sc, Lists.WithList(e, l, items)), l, items)
    decreases x, 1
  {
    hide Args, Decide, Accumulate, FirstOf, WhileTrue, CaseOf, Converted, Perform, CallAnswer, ListFree;
    match x
    case Literal(_, _) =>
    case Outer(_) =>
    case Native(sig, args) =>
      ArgsSteady(w, args, sc, e, l, items);
      var a := Args(w, args, sc, e);
      if a.Gives? { CallSteady(w, sig, sc, a.values, a.env, l, items); }
    case Saved(kind, slot, _) => ReadSteady(w, kind, slot, e, l, items);
    case Logic(any, _, kids) => DecideSteady(w, any, kids, sc, e, l, items);
    case Total(product, op, ty, terms) =>
      AccumulateSteady(w, op, ty, terms, if Conditional(terms) then [Identity(w, product, ty)] else [], sc, e, l, items);
    case Select(exp, clauses) => FirstSteady(w, exp, clauses, sc, e, l, items);
    case Sequence(exp, clauses) => WhileSteady(w, exp, clauses, Start(w, exp), sc, e, l, items);
    case Switch(exp, value, cases) =>
      MeaningSteady(w, value, sc, e, l, items);
      var a := Meaning(w, value, sc, e);
      if a.Gives? && |a.values| == 1 { CaseSteady(w, exp, cases, a.values[0], sc + a.values, a.env, l, items); }
    case ValueOr(exp, cond, value, default) =>
      MeaningSteady(w, cond, sc, e, l, items);
      var a := Meaning(w, cond, sc, e);
      if a.Gives? {
        BranchSteady(w, exp, value, sc, a.env, l, items);
        BranchSteady(w, exp, default, sc, a.env, l, items);
      }
    case Random(_, _, _) => RandomSteady(w, x, sc, e, l, items);
    case Within(scope, body) =>
      MeaningSteady(w, scope, sc, e, l, items);
      var a := Meaning(w, scope, sc, e);
      if a.Gives? { MeaningSteady(w, body, sc + a.values, a.env, l, items); }
    case WithinValid(_, scope, body) =>
      MeaningSteady(w, scope, sc, e, l, items);
      var a := Meaning(w, scope, sc, e);
      if a.Gives? { MeaningSteady(w, body, sc + a.values, a.env, l, items); }
    case Effects(children) => PerformSteady(w, children, sc, e, l, items);
  }

  lemma {:induction false} BranchSteady(w: World, exp: seq<Ty>, x: Expr, sc: seq<Value>, e: Env, l: nat, items: seq<Value>)
    requires ListFree(w, l) && l < |e.lists|
    ensures Steady(Converted(w, exp, Meaning(w, x, sc, e)), Converted(w, exp, Meaning(w, x, sc, Lists.WithList(e, l, items))), l, items)
    decreases x, 2
  {
    hide Meaning, ListFree, Converted;
    MeaningSteady(w, x, sc, e, l, items);
    ConvertedSteady(w, exp, Meaning(w, x, sc, e), Meaning(w, x, sc, Lists.WithList(e, l, items)), l, items);
  }

  lemma ReadSteady(w: World, kind: ReadKind, slot: nat, e: Env, l: nat, items: seq<Value>)
    requires ListFree(w, l) && l < |e.lists|
    ensures w.read(kind, slot, Lists.WithList(e, l, items)) == w.read(kind, slot, e)
  {}

  // --- the code of a section -------------------------------------------------------------------------

  function Expected(exp: Option<Ty>, found: seq<Ty>): seq<Ty> { if exp.Some? then [exp.value] else found }

  /** The code behind the pushed item: the body, the erase of the item, the conversion. */
  function SectionCode(body: Expr, item: Ty, exp: Option<Ty>, m: seq<Ty>, sl: seq<nat>, tys: seq<Ty>): Node {
    var r := ResultOf(body, tys + [item]);
    Seq(ScopedCode(body, item, m, sl, tys), Coerce(r, Expected(exp, r)))
  }

  function ScopedCode(body: Expr, item: Ty, m: seq<Ty>, sl: seq<nat>, tys: seq<Ty>): Node {
    Seq(Lower(body, m + [item], sl + [|m|], tys + [item]), EraseSlot(|m|))
  }

  /** What the generator accepts as the body: one value, of the expected type or converted to it. */
  predicate SectionOk(w: World, body: Expr, item: Ty, exp: Option<Ty>, tys: seq<Ty>) {
    var r := ResultOf(body, tys + [item]);
    Check(w, body, tys + [item]) && |r| == 1 && Coercible(r, Expected(exp, r))
  }

  /** The body as a function of the item. */
  function MeaningOn(w: World, body: Expr, item: Ty, exp: Option<Ty>, tys: seq<Ty>, sc: seq<Value>, x: Value, e: Env): Answer {
    Converted(w, Expected(exp, ResultOf(body, tys + [item])), Meaning(w, body, sc + [x], e))
  }

  function ReactionOf(a: Answer): Lists.Reaction {
    match a
    case Gives(vs, e) => Lists.Reaction.Answer(if |vs| == 1 then vs[0] else Invalid, e)
    case Raises(err) => Lists.Raise(err)
    case NoAnswer => Lists.Raise(NoMatchingCase)
  }

  function BodyOf(w: World, body: Expr, item: Ty, exp: Option<Ty>, tys: seq<Ty>, sc: seq<Value>): Lists.Body {
    (x, e) => ReactionOf(MeaningOn(w, body, item, exp, tys, sc, x, e))
  }

  lemma ScopedTyped(w: World, body: Expr, item: Ty, m: seq<Ty>, sl: seq<nat>, tys: seq<Ty>)
    requires Check(w, body, tys + [item]) && ScopesOk(m, sl, tys) && Room(w, ScopedCode(body, item, m, sl, tys), m + [item])
    ensures Leads(w, ScopedCode(body, item, m, sl, tys), m + [item], m + ResultOf(body, tys + [item]))
  {
    hide Leads, Room, ResultOf, Check;
    var code, r := Lower(body, m + [item], sl + [|m|], tys + [item]), ResultOf(body, tys + [item]);
    RoomSeq(w, code, EraseSlot(|m|), m + [item]);
    ScopesOpen(m, [item], sl, tys);
    LowerTyped(w, body, m + [item], sl + [|m|], tys + [item]);
    DropsLast(w, m, [item], r);
    LeadsSeq(w, code, EraseSlot(|m|), m + [item], m + [item] + r, m + r);
  }

  lemma SectionTyped(w: World, body: Expr, item: Ty, exp: Option<Ty>, m: seq<Ty>, sl: seq<nat>, tys: seq<Ty>)
    requires SectionOk(w, body, item, exp, tys) && ScopesOk(m, sl, tys) && Room(w, SectionCode(body, item, exp, m, sl, tys), m + [item])
    ensures Typed(w, SectionCode(body, item, exp, m, sl, tys), m + [item], [])
  {
    hide Leads, Room, ResultOf, Check, ScopedCode, Coerce, Coercible;
    var r := ResultOf(body, tys + [item]);
    CoercibleConvertible(r, Expected(exp, r));
    RoomSeq(w, ScopedCode(body, item, m, sl, tys), Coerce(r, Expected(exp, r)), m + [item]);
    ScopedTyped(w, body, item, m, sl, tys);
    CoerceTyped(w, r, Expected(exp, r), m);
    LeadsSeq(w, ScopedCode(body, item, m, sl, tys), Coerce(r, Expected(exp, r)), m + [item], m + r, m + Expected(exp, r));
    LeadsHere(w, SectionCode(body, item, exp, m, sl, tys), m + [item], m + Expected(exp, r), []);
  }

  /** On an item of the list's type the section leaves the value of the body where the item was. */
  lemma SectionYields(w: World, body: Expr, item: Ty, exp: Option<Ty>, m: seq<Ty>, sl: seq<nat>, tys: seq<Ty>,
                      sc: seq<Value>, s: seq<Value>, x: Value, e: Env)
    requires SectionOk(w, body, item, exp, tys) && Ready(w, m, sl, tys, s, sc) && TypeOf(x) == item
    requires Room(w, SectionCode(body, item, exp, m, sl, tys), m + [item])
    ensures var a := MeaningOn(w, body, item, exp, tys, sc, x, e);
      && Yields(Exec(w, SectionCode(body, item, exp, m, sl, tys), s + [x], e), s, a)
      && (a.Gives? ==> |a.values| == 1)
  {
    hide Room, Exec, Ready, ResultOf, Check, Lower, Meaning, Coerce, Coercible, Leads, Convert;
    var r, code := ResultOf(body, tys + [item]), ScopedCode(body, item, m, sl, tys);
    CoercibleConvertible(r, Expected(exp, r));
    RoomSeq(w, code, Coerce(r, Expected(exp, r)), m + [item]);
    ReadyIs(w, m, sl, tys, s, sc);
    BodyMeans(w, Within(Literal(PushInt, 0), body), body, [item], m, sl, tys, sc, s, [x], e);
    ExecSeq(w, code, Coerce(r, Expected(exp, r)), s + [x], e);
    var a := Meaning(w, body, sc + [x], e);
    if a.Gives? {
      ScopedTyped(w, body, item, m, sl, tys);
      LeadsHere(w, code, m + [item], m + r, []);
      RoomSize(w, Coerce(r, Expected(exp, r)), m + r);
      ExecConvert(w, r, Expected(exp, r), m, s, a.values, a.env);
    }
  }

  /** The section is where the opcode says, watched, and has room. */
  ghost predicate InPlace(w: World, c: Code, sec: Section, n: Node, m: seq<Ty>) {
    && 0 <= sec.start <= sec.end == sec.start + Size(n) && sec.end <= INT32_MAX
    && c.watch && Placed(c, sec.start, n, m, []) && Room(w, n, m)
  }

  lemma InPlaceIs(w: World, c: Code, sec: Section, n: Node, m: seq<Ty>)
    requires InPlace(w, c, sec, n, m)
    ensures Shaped(c) && w.base + PeakOf(n, m) <= w.capacity
  {}

  /** The run left the answer's one value on `s`, or failed as the answer says. */
  ghost predicate EndsAs(r: Outcome, s: seq<Value>, a: Answer) {
    match a
    case Gives(vs, e) => |vs| == 1 && r == Done(s + vs, e)
    case Raises(err) => r == Failed(err)
    case NoAnswer => true
  }

  /** The run of a section placed anywhere in a program. */
  lemma SectionRuns(w: World, c: Code, sec: Section, body: Expr, item: Ty, exp: Option<Ty>, m: seq<Ty>, sl: seq<nat>, tys: seq<Ty>,
                    sc: seq<Value>, s: seq<Value>, x: Value, e: Env)
    requires InPlace(w, c, sec, SectionCode(body, item, exp, m, sl, tys), m + [item])
    requires SectionOk(w, body, item, exp, tys) && Ready(w, m, sl, tys, s, sc) && TypeOf(x) == item
    ensures EndsAs(Run(w, c, sec.start, sec.end, s + [x], e), s, MeaningOn(w, body, item, exp, tys, sc, x, e))
  {
    hide Run, Exec, Ready, Placed, SectionCode, Typed, MeaningOn, SectionOk;
    var n := SectionCode(body, item, exp, m, sl, tys);
    InPlaceIs(w, c, sec, n, m + [item]);
    ReadyIs(w, m, sl, tys, s, sc);
    SectionTyped(w, body, item, exp, m, sl, tys);
    SectionYields(w, body, item, exp, m, sl, tys, sc, s, x, e);
    MatchesPush(w, s, m, x);
    FlattenRuns(w, c, sec.start, sec.end, n, m + [item], [], [], s + [x], e);
    var a := MeaningOn(w, body, item, exp, tys, sc, x, e);
    if a.Gives? { RunEnds(w, c, sec.end, sec.end, s + a.values, a.env); }
  }

  /** The generator's callback sections are what the pipelines ask for: their body, as a function of the item. */
  lemma SectionAlone(w: World, c: Code, sec: Section, l: nat, body: Expr, item: Ty, exp: Option<Ty>, m: seq<Ty>, sl: seq<nat>, tys: seq<Ty>,
                     sc: seq<Value>, s: seq<Value>)
    requires InPlace(w, c, sec, SectionCode(body, item, exp, m, sl, tys), m + [item])
    requires SectionOk(w, body, item, exp, tys) && Ready(w, m, sl, tys, s, sc) && ListFree(w, l)
    requires forall x, e :: TypeOf(x) == item ==> MeaningOn(w, body, item, exp, tys, sc, x, e) != NoAnswer
    ensures Lists.LeavesAlone(w, c, sec, l, item, BodyOf(w, body, item, exp, tys, sc), s)
  {
    hide Run, Ready, Placed, SectionCode, SectionOk, Meaning, ResultOf, Room, ListFree;
    InPlaceIs(w, c, sec, SectionCode(body, item, exp, m, sl, tys), m + [item]);
    forall x, e: Env, items | TypeOf(x) == item && l < |e.lists|
      ensures Lists.Answers(w, c, sec, l, BodyOf(w, body, item, exp, tys, sc), s, x, e, items)
    {
      SectionRuns(w, c, sec, body, item, exp, m, sl, tys, sc, s, x, Lists.WithList(e, l, items));
      MeaningSteady(w, body, sc + [x], e, l, items);
      ConvertedSteady(w, Expected(exp, ResultOf(body, tys + [item])), Meaning(w, body, sc + [x], e), Meaning(w, body, sc + [x], Lists.WithList(e, l, items)), l, items);
    }
  }

  /** Over the reals every accepted body answers on every item, so nothing more is asked of a section. */
  lemma SectionAnswers(w: World, body: Expr, item: Ty, exp: Option<Ty>, tys: seq<Ty>, sc: seq<Value>, x: Value, e: Env)
    requires RandomChoice.RealArithmetic(w) && SectionOk(w, body, item, exp, tys) && TagsMatch(sc, tys) && TypeOf(x) == item
    ensures MeaningOn(w, body, item, exp, tys, sc, x, e) != NoAnswer
  {
    hide Meaning, RandomChoice.RealArithmetic, Check, ResultOf;
    Reals.MeaningAnswers(w, body, tys + [item], sc + [x], e);
  }

  // --- defaults ------------------------------------------------------------------------------------------

  function FallbackOf(w: World, body: Expr, sc: seq<Value>): Lists.Fallback { e => ReactionOf(Meaning(w, body, sc, e)) }

  /** A default section is the plain code of its body, on the stack the opcode found. */
  lemma DefaultAlone(w: World, c: Code, sec: Section, l: nat, body: Expr, m: seq<Ty>, sl: seq<nat>, tys: seq<Ty>, sc: seq<Value>, s: seq<Value>)
    requires InPlace(w, c, sec, Lower(body, m, sl, tys), m)
    requires Check(w, body, tys) && |ResultOf(body, tys)| == 1 && Ready(w, m, sl, tys, s, sc) && ListFree(w, l)
    requires forall e :: Meaning(w, body, sc, e) != NoAnswer
    ensures Lists.DefaultsAlone(w, c, sec, l, FallbackOf(w, body, sc), s)
  {
    hide Run, Exec, Ready, Placed, Meaning, ResultOf, Room, ListFree, Lower, Check, Typed;
    InPlaceIs(w, c, sec, Lower(body, m, sl, tys), m);
    ReadyIs(w, m, sl, tys, s, sc);
    LowerTyped(w, body, m, sl, tys);
    LeadsHere(w, Lower(body, m, sl, tys), m, m + ResultOf(body, tys), []);
    forall e: Env, items | l < |e.lists| ensures Lists.Defaults(w, c, sec, l, FallbackOf(w, body, sc), s, e, items) {
      var e1 := Lists.WithList(e, l, items);
      LowerMeans(w, body, m, sl, tys, sc, s, e1);
      FlattenRuns(w, c, sec.start, sec.end, Lower(body, m, sl, tys), m, [], [], s, e1);
      MeaningSteady(w, body, sc, e, l, items);
      var a := Meaning(w, body, sc, e1);
      if a.Gives? { RunEnds(w, c, sec.end, sec.end, s + a.values, a.env); }
    }
  }

  // --- a compiled pipeline -----------------------------------------------------------------------------

  /** The open scopes of a section: their slots, types and values. */
  datatype Scopes = Scopes(slots: seq<nat>, types: seq<Ty>, values: seq<Value>)

  /** What the generator expects of the callbacks of a kind; `map` takes any type. */
  function CallbackType(kind: Lists.Kind): Option<Ty> {
    if kind.MapTo? then None
    else if kind.SumOf? || kind.MinOf? || kind.MaxOf? || kind.AverageOf? then Some(TFloat)
    else Some(TBool)
  }

  /** The section of the items is where the opcode says, accepted, and answers on every item of the list's type. */
  ghost predicate ValueCompiled(w: World, t: ListRuns.Site, body: Expr, item: Ty, m: seq<Ty>, v: Scopes)
    requires t.pc < |t.c.cmds|
  {
    var sec, exp := Lists.ValueSection(t.c, t.pc), CallbackType(t.kind);
    && ListRuns.Behind(t, 0, sec) && InPlace(w, t.c, sec, SectionCode(body, item, exp, m, v.slots, v.types), m + [item])
    && SectionOk(w, body, item, exp, v.types)
    && forall x, e :: TypeOf(x) == item ==> MeaningOn(w, body, item, exp, v.types, v.values, x, e) != NoAnswer
  }

  ghost predicate DefaultCompiled(w: World, t: ListRuns.Site, default: Expr, m: seq<Ty>, d: Scopes)
    requires t.pc < |t.c.cmds|
  {
    var sec := Lists.DefaultSection(t.c, t.pc);
    && ListRuns.Behind(t, 1, sec) && InPlace(w, t.c, sec, Lower(default, m, d.slots, d.types), m)
    && Check(w, default, d.types) && |ResultOf(default, d.types)| == 1
    && forall e :: Meaning(w, default, d.values, e) != NoAnswer
  }

  /**
    A pipeline as it is compiled, run by the machine: the plain function of the list and of
    what its bodies mean. Nothing is asked of the sections but that the generator emitted them.
  */
  lemma CompiledPipeline(w: World, t: ListRuns.Site, body: Expr, item: Ty, default: Expr, m: seq<Ty>, v: Scopes, d: Scopes,
                         xs: seq<Value>, s: seq<Value>, e: Env)
    requires ListRuns.At(w, t) && ListFree(w, t.l) && t.l < |e.lists| && |s| < w.capacity && |xs| < w.limit
    requires Ready(w, m, v.slots, v.types, s, v.values) && Ready(w, m, d.slots, d.types, s, d.values)
    requires Lists.Asks(t.kind) ==> Lists.Items(item, xs) && ValueCompiled(w, t, body, item, m, v)
    requires Lists.HasDefault(t.kind) ==> DefaultCompiled(w, t, default, m, d)
    ensures ListRuns.EndsLike(Iterate(w, t.c, t.pc, t.hi, [], s, Lists.WithList(e, t.l, xs), w.limit),
      Lists.Means(t.kind, BodyOf(w, body, item, CallbackType(t.kind), v.types, v.values), FallbackOf(w, default, d.values), ListRuns.ItemAt(t), xs, e), t.l, s)
  {
    hide Iterate, Ready, SectionCode, SectionOk, MeaningOn, Lower, Check, ResultOf, Meaning, ListFree, InPlace, Lists.LeavesAlone, Lists.DefaultsAlone,
      Lists.Items, Lists.Means, BodyOf, FallbackOf, ListRuns.EndsLike, ListRuns.Behind, ListRuns.At;
    ListRuns.AtIs(w, t);
    var f, g := BodyOf(w, body, item, CallbackType(t.kind), v.types, v.values), FallbackOf(w, default, d.values);
    if Lists.Asks(t.kind) {
      SectionAlone(w, t.c, Lists.ValueSection(t.c, t.pc), t.l, body, item, CallbackType(t.kind), m, v.slots, v.types, v.values, s);
    }
    if Lists.HasDefault(t.kind) {
      DefaultAlone(w, t.c, Lists.DefaultSection(t.c, t.pc), t.l, default, m, d.slots, d.types, d.values, s);
    }
    ListRuns.PipelineRuns(w, t, item, f, g, xs, s, e);
  }
}
