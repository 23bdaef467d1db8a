/**
  The code generator as it runs: it appends commands, pushes and pops the compile-time
  stack and the scope stack, keeps the sites of open labels, and patches them when a label
  is bound. `EmitExpr` emits exactly `Lower`, records exactly the tables `StreamOf` holds,
  and observes exactly the peak `PeakOf`.
*/
module Emitters {
  import opened Machine
  import opened Optimizer
  import opened Blocks
  import opened Emission
  import opened Lowering
  import opened LoweringTyped
  import opened Patching

  /** How many parts and expressions an expression is made of. */
  function SizeOf(x: Expr): nat
    decreases x, 1
  {
    match x
    case Native(_, args) => 1 + PartsSize(args)
    case Logic(_, _, kids) => 1 + PartsSize(kids)
    case Total(_, _, _, terms) => 1 + PartsSize(terms)
    case Select(_, clauses) => 1 + PartsSize(clauses)
    case Sequence(_, clauses) => 1 + PartsSize(clauses)
    case Switch(_, value, cases) => 1 + SizeOf(value) + PartsSize(cases)
    case ValueOr(_, c, a, b) => 1 + SizeOf(c) + SizeOf(a) + SizeOf(b)
    case Random(_, _, branches) => 1 + PartsSize(branches)
    case Within(s, b) => 1 + SizeOf(s) + SizeOf(b)
    case WithinValid(_, s, b) => 1 + SizeOf(s) + SizeOf(b)
    case Effects(children) => 1 + PartsSize(children)
    case _ => 0
  }

  function PartsSize(p: Parts): nat
    decreases p, 0
  {
    match p
    case End => 0
    case Part(test, body, rest) => 1 + (if test.When? then SizeOf(test.cond) else 0) + SizeOf(body) + PartsSize(rest)
  }

  // --- the generator's own stack beside the run-time one ---------------------------------------

  /** What the generator's stack held when a command was emitted, and the values on top that it did not know of. */
  datatype Step = Step(own: seq<Ty>, lost: seq<Ty>)

  /** The run-time stack at every command: the generator's own with what it did not know of on top. */
  function Models(steps: seq<Step>): (r: seq<seq<Ty>>)
    ensures |r| == |steps| && forall k :: 0 <= k < |steps| ==> r[k] == steps[k].own + steps[k].lost
  {
    if steps == [] then []
    else
      var n := |steps| - 1;
      Models(steps[..n]) + [steps[n].own + steps[n].lost]
  }

  /** The commands that were emitted on a stack that is short of the run-time one. */
  function ShortAt(steps: seq<Step>): seq<nat> {
    if steps == [] then []
    else
      var n := |steps| - 1;
      ShortAt(steps[..n]) + if steps[n].lost == [] then [] else [n]
  }

  lemma StepMore(steps: seq<Step>, s: Step)
    ensures Models(steps + [s]) == Models(steps) + [s.own + s.lost]
    ensures ShortAt(steps + [s]) == ShortAt(steps) + if s.lost == [] then [] else [|steps|]
  {
    assert (steps + [s])[..|steps|] == steps && (steps + [s])[|steps|] == s;
  }

  lemma {:induction false} ShortIs(steps: seq<Step>, k: nat)
    ensures k in ShortAt(steps) <==> k < |steps| && steps[k].lost != []
    decreases |steps|
  {
    hide Models;
    if steps != [] {
      var n := |steps| - 1;
      ShortIs(steps[..n], k);
      if k < n { assert steps[..n][k] == steps[k]; }
    }
  }

  /** At every command not listed as short the generator's own stack is the run-time one; at the others a proper part of it. */
  lemma OwnStack(steps: seq<Step>, k: nat)
    requires k < |steps|
    ensures k in ShortAt(steps) <==> steps[k].own != Models(steps)[k]
    ensures k in ShortAt(steps) ==> steps[k].own < Models(steps)[k]
  {
    hide Models, ShortAt;
    ShortIs(steps, k);
    var s := steps[k];
    assert s.lost == [] ==> s.own + s.lost == s.own;
    assert |s.own + s.lost| == |s.own| + |s.lost|;
  }

  /** Nothing in the expression is a `switch` or a `random`. */
  predicate Steady(x: Expr) {
    match x
    case Switch(_, _, _) => false
    case Random(_, _, _) => false
    case Native(_, args) => AllSteady(args)
    case Logic(_, _, kids) => AllSteady(kids)
    case Total(_, _, _, terms) => AllSteady(terms)
    case Select(_, clauses) => AllSteady(clauses)
    case Sequence(_, clauses) => AllSteady(clauses)
    case ValueOr(_, c, a, b) => Steady(c) && Steady(a) && Steady(b)
    case Within(s, b) => Steady(s) && Steady(b)
    case WithinValid(_, s, b) => Steady(s) && Steady(b)
    case Effects(children) => AllSteady(children)
    case _ => true
  }

  predicate FirstSteady(p: Parts) { p.Part? ==> (p.test.When? ==> Steady(p.test.cond)) && Steady(p.body) }

  predicate AllSteady(p: Parts) { p.Part? ==> (p.test.When? ==> Steady(p.test.cond)) && Steady(p.body) && AllSteady(p.rest) }

  /** How often emitting the cases of a `switch` finds the stack short: at the jump behind each value and at each second erase. */
  function CasesShort(p: Parts, exp: seq<Ty>): nat { if p.Part? && p.test.When? then |exp| + 1 + CasesShort(p.rest, exp) else 0 }

  function BranchesShort(p: Parts, exp: seq<Ty>): nat { if p.Part? then |exp| + BranchesShort(p.rest, exp) else 0 }

  class Emitter {
    ghost var steps: seq<Step>
    var cmds: seq<Command>
    var fields: seq<Field>
    var pushes: seq<DeadPush>
    var stackTypes: seq<Ty>
    var scopes: seq<nat>
    var maxDepth: nat

    constructor (root: seq<Ty>)
      ensures cmds == [] && fields == [] && pushes == [] && stackTypes == root && maxDepth == |root| && steps == []
      ensures scopes == if root == [] then [] else [|root| - 1]
    {
      cmds, fields, pushes, stackTypes, maxDepth := [], [], [], root, |root|;
      steps := [];
      scopes := if root == [] then [] else [|root| - 1];
    }

    ghost function View(): (st: State)
      reads this`cmds, this`fields, this`pushes, this`maxDepth, this`steps
      ensures st.cmds == cmds && st.depth == maxDepth
    {
      State(cmds, fields, pushes, maxDepth, Models(steps))
    }

    /** The commands so far at which the generator's stack was short. */
    ghost function Short(): seq<nat>
      reads this`steps
    {
      ShortAt(steps)
    }

    /** Records the stack a command is emitted on. */
    ghost method Note(lost: seq<Ty>)
      modifies this`steps
      ensures steps == old(steps) + [Step(stackTypes, lost)] && Models(steps) == old(Models(steps)) + [stackTypes + lost]
      ensures Short() == old(Short()) + if lost == [] then [] else [|old(steps)|]
    {
      StepMore(steps, Step(stackTypes, lost));
      steps := steps + [Step(stackTypes, lost)];
    }

    ghost predicate Open(m: seq<Ty>, sl: seq<nat>)
      reads this
    {
      stackTypes == m && scopes == sl && maxDepth >= |m|
    }

    // --- single commands -----------------------------------------------------------------

    /** An operation of the instruction table: the command, and its effect on the types. */
    method EmitOp(p: Prim, arg: int)
      requires maxDepth >= |stackTypes|
      modifies this`cmds, this`stackTypes, this`maxDepth, this`steps
      ensures View() == After(old(View()), Op1(p, arg), old(stackTypes)) && Short() == old(Short())
      ensures stackTypes == PrimOut(p, arg, old(stackTypes)) && maxDepth >= |stackTypes|
    {
      hide Models, ShortAt, PrimOut;
      Note([]);
      assert stackTypes + [] == stackTypes;
      cmds := cmds + [Command(Basic(p), arg)];
      stackTypes := PrimOut(p, arg, stackTypes);
      if |stackTypes| > maxDepth { maxDepth := |stackTypes|; }
      assert old(fields) + [] == fields && old(pushes) + [] == pushes;
    }

    /**
      Emits an erase; the caller keeps the type stack. `m` is what the run-time stack holds
      here, of which the generator may have `lost` the top.
    */
    method EmitErase(slot: nat, ghost m: seq<Ty>, ghost lost: seq<Ty>)
      requires maxDepth >= |m| && (if lost == [] then m == stackTypes else m == stackTypes + lost)
      modifies this`cmds, this`steps
      ensures View() == After(old(View()), EraseSlot(slot), m)
      ensures |steps| == |old(steps)| + 1 && Short() == old(Short()) + if lost == [] then [] else [|old(steps)|]
    {
      hide Models, ShortAt;
      Note(lost);
      assert stackTypes + [] == stackTypes;
      cmds := cmds + [Command(Erase, slot)];
      assert old(fields) + [] == fields && old(pushes) + [] == pushes;
      assert |Drop(m, slot)| <= |m|;
    }

    method EraseType(slot: nat)
      requires slot < |stackTypes|
      modifies this`stackTypes
      ensures stackTypes == Drop(old(stackTypes), slot)
    {
      stackTypes := stackTypes[..slot] + stackTypes[slot + 1..];
    }

    method PushType(t: seq<Ty>)
      requires maxDepth >= |stackTypes|
      modifies this`stackTypes, this`maxDepth
      ensures stackTypes == old(stackTypes) + t && maxDepth == Max(old(maxDepth), |stackTypes|)
    {
      stackTypes := stackTypes + t;
      if |stackTypes| > maxDepth { maxDepth := |stackTypes|; }
    }

    method PopTypes(ghost m: seq<Ty>, t: seq<Ty>)
      requires stackTypes == m + t
      modifies this`stackTypes
      ensures stackTypes == m
    {
      stackTypes := stackTypes[..|stackTypes| - |t|];
    }

    /** A branch to a label that is not bound yet. */
    method JumpTo(op: Op, mode: int, ghost level: nat, sites: seq<Field>, ghost m: seq<Ty>, ghost lost: seq<Ty>) returns (more: seq<Field>)
      requires maxDepth >= |m| && (if lost == [] then m == stackTypes else m == stackTypes + lost)
      modifies this`cmds, this`stackTypes, this`steps
      ensures |steps| == |old(steps)| + 1 && Short() == old(Short()) + if lost == [] then [] else [|old(steps)|]
      ensures View() == After(old(View()), Exit(op, mode, level), m)
      ensures stackTypes == ExitOut(op, old(stackTypes))
      ensures more == sites + [SiteField(|old(cmds)|, op)]
    {
      hide Models, ShortAt;
      Note(lost);
      assert stackTypes + [] == stackTypes;
      more := sites + [SiteField(|cmds|, op)];
      cmds := cmds + [Branch(op, mode, 0)];
      stackTypes := ExitOut(op, stackTypes);
      assert old(fields) + [] == fields && old(pushes) + [] == pushes;
    }

    /** Patches every site that waited for the label and records it. */
    method Bind(sites: seq<Field>)
      modifies this`cmds, this`fields
      ensures cmds == PatchSites(old(cmds), sites, |old(cmds)|)
      ensures fields == old(fields) + sites
    {
      var target := |cmds|;
      var k := 0;
      assert sites[0..] == sites;
      while k < |sites|
        invariant k <= |sites| && |cmds| == target
        invariant PatchSites(cmds, sites[k..], target) == PatchSites(old(cmds), sites, target)
        invariant fields == old(fields) + sites[..k]
      {
        var f := sites[k];
        if f.cmd < |cmds| {
          var c := cmds[f.cmd];
          cmds := cmds[f.cmd := Command(c.op, if f.half.Low? then Pack2(target, HighHalf(c.arg)) else target)];
        }
        fields := fields + [f];
        assert sites[k..][1..] == sites[k + 1..];
        assert sites[..k + 1] == sites[..k] + [f];
        k := k + 1;
      }
      assert sites[..|sites|] == sites;
    }

    /** Binds the label of the block whose body was just emitted. */
    method BindBlock(sites: seq<Field>, ghost st: State, ghost x: Node, ghost out: seq<Ty>, ghost m: seq<Ty>)
      requires View() == After(st, x, m) && sites == SitesOf(x, |st.cmds|, 0)
      modifies this`cmds, this`fields
      ensures View() == After(st, Block(x, out), m)
    {
      hide Models, ShortAt, After, PatchSites;
      AfterBlock(st, x, out, m);
      Bind(sites);
    }

    // --- guarded clauses -------------------------------------------------------------------

    /** Ends a guarded clause: out of the enclosing block, then the skip label is bound. */
    method CloseClause(skip: seq<Field>, sites: seq<Field>, ghost st: State, ghost test: Node, ghost body: Node,
                       ghost m: seq<Ty>, ghost mid: seq<Ty>, ghost out: seq<Ty>, ghost lost: seq<Ty>) returns (more: seq<Field>)
      requires OutOf(test, m) == mid + [TBool] && OutOf(body, mid) == out && Closed(test) && Closed(body)
      requires View() == After(After(After(st, test, m), Exit(CondJump, 0, 0), mid + [TBool]), body, mid)
      requires skip == [SiteField(|st.cmds| + Size(test), CondJump)] && maxDepth >= |out|
      requires if lost == [] then out == stackTypes else out == stackTypes + lost
      modifies this`cmds, this`fields, this`stackTypes, this`steps
      ensures |steps| == |old(steps)| + 1 && Short() == old(Short()) + if lost == [] then [] else [|old(steps)|]
      ensures View() == After(st, Clause(test, body, mid), m) && stackTypes == old(stackTypes)
      ensures more == sites + SitesOf(Clause(test, body, mid), |st.cmds|, 0)
    {
      hide View, Short, After, SitesOf, Flatten, OutOf, PeakOf;
      ghost var leave, jump := Exit(CondJump, 0, 0), Exit(Jump, 0, 1);
      ghost var inner := Seq(test, Seq(leave, Seq(body, jump)));
      ClauseSites(test, body, |st.cmds|);
      AfterSize(st, test, m);
      AfterSize(After(st, test, m), leave, mid + [TBool]);
      AfterSize(After(After(st, test, m), leave, mid + [TBool]), body, mid);
      more := JumpTo(Jump, 0, 1, sites, out, lost);
      ExitOutIs(CondJump, 0, 0, mid + [TBool]);
      TopIs(mid, TBool);
      AfterSeq(After(After(st, test, m), leave, mid + [TBool]), body, jump, mid);
      AfterSeq(After(st, test, m), leave, Seq(body, jump), mid + [TBool]);
      AfterSeq(st, test, Seq(leave, Seq(body, jump)), m);
      BindBlock(skip, st, inner, mid, m);
    }

    // --- expressions -----------------------------------------------------------------------

    /** Brings the value on top to the expected type. */
    method ConvertTop(ghost from: seq<Ty>, exp: seq<Ty>, ghost m: seq<Ty>)
      requires Convertible(from, exp) && stackTypes == m + from && |exp| <= 1 && maxDepth >= |stackTypes|
      modifies this`cmds, this`stackTypes, this`maxDepth, this`steps
      ensures View() == After(old(View()), Coerce(from, exp), m + from)
      ensures stackTypes == m + exp && maxDepth >= |stackTypes|
      ensures Short() == old(Short())
    {
      if exp != [] && stackTypes[|stackTypes| - 1] != exp[0] {
        EmitOp(Cast(stackTypes[|stackTypes| - 1], exp[0]), 0);
        assert from == [from[0]];
        TopIs(m, from[0]);
      } else {
        assert from == exp;
        AfterNop(View(), m + from);
      }
    }

    method EmitValued(x: Expr, exp: seq<Ty>, ghost w: World, ghost tys: seq<Ty>)
      requires Check(w, x, tys) && Convertible(ResultOf(x, tys), exp) && |exp| <= 1
      requires maxDepth >= |stackTypes| && ScopesOk(stackTypes, scopes, tys)
      requires Room(w, Valued(x, exp, stackTypes, scopes, tys), stackTypes)
      modifies this
      ensures View() == After(old(View()), Valued(x, exp, old(stackTypes), old(scopes), tys), old(stackTypes))
      ensures stackTypes == old(stackTypes) + exp && scopes == old(scopes) && maxDepth >= |stackTypes|
      ensures Steady(x) ==> Short() == old(Short())
      decreases SizeOf(x), 2
    {
      hide View, Short, After, Lower, Check, Coerce, ResultOf, Room;
      ghost var m, sl, st, t := stackTypes, scopes, View(), ResultOf(x, tys);
      RoomSeq(w, Lower(x, m, sl, tys), Coerce(t, exp), m);
      EmitExpr(x, w, tys);
      ConvertTop(t, exp, m);
      LowerOut(w, x, m, sl, tys);
      AfterSeq(st, Lower(x, m, sl, tys), Coerce(t, exp), m);
    }

    /** One operand, then the branch that leaves the block when it decides. */
    method EmitOperand(any: bool, p: Parts, first: bool, sites: seq<Field>, ghost st: State, ghost all: Node, ghost w: World,
                       ghost m: seq<Ty>, ghost tys: seq<Ty>) returns (more: seq<Field>)
      requires p.Part? && CheckParts(w, Operand, p, tys) && ScopesOk(m, scopes, tys) && Open(if first then m else m + [TBool], scopes)
      requires Room(w, LowerLogic(any, p, first, m, scopes, tys), stackTypes)
      requires Progress(st, all, m, View(), LowerLogic(any, p, first, m, scopes, tys), stackTypes, sites)
      modifies this
      ensures Open(m + [TBool], old(scopes)) && Room(w, LowerLogic(any, p.rest, false, m, scopes, tys), m + [TBool])
      ensures Progress(st, all, m, View(), LowerLogic(any, p.rest, false, m, scopes, tys), m + [TBool], more)
      ensures FirstSteady(p) ==> Short() == old(Short())
      decreases PartsSize(p), 0
    {
      hide View, Short, After, SitesOf, Flatten, OutOf, PeakOf, Room, ResultOf, Check, Lower, Progress;
      ghost var here, sl := stackTypes, scopes;
      ghost var kid, exit := Lower(p.body, here, sl, tys), Exit(ShortOp(any, first), 0, 0);
      ghost var rest := LowerLogic(any, p.rest, false, m, sl, tys);
      ScopesUnder(m, [TBool], sl, tys);
      RoomSeq(w, kid, Seq(exit, rest), here);
      LowerOut(w, p.body, here, sl, tys);
      RoomSeq(w, exit, rest, here + [TBool]);
      ProgressSeq(st, all, m, View(), kid, Seq(exit, rest), here, sites);
      EmitExpr(p.body, w, tys);
      ProgressSeq(st, all, m, View(), exit, rest, here + [TBool], sites);
      ExitOutIs(ShortOp(any, first), 0, 0, here + [TBool]);
      ShortTyped(any, first, m);
      ExitSites(ShortOp(any, first), 0, 0, |cmds|);
      more := JumpTo(ShortOp(any, first), 0, 0, sites, here + [TBool], []);
    }

    method EmitLogic(x: Expr, ghost w: World, ghost tys: seq<Ty>)
      requires x.Logic? && Check(w, x, tys) && maxDepth >= |stackTypes| && ScopesOk(stackTypes, scopes, tys)
      requires Room(w, Lower(x, stackTypes, scopes, tys), stackTypes)
      modifies this
      ensures View() == After(old(View()), Lower(x, old(stackTypes), old(scopes), tys), old(stackTypes))
      ensures stackTypes == old(stackTypes) + [TBool] && scopes == old(scopes) && maxDepth >= |stackTypes|
      ensures Steady(x) ==> Short() == old(Short())
      decreases SizeOf(x), 0
    {
      hide View, Short, After, SitesOf, Flatten, OutOf, PeakOf, Room;
      ghost var m, sl, st := stackTypes, scopes, View();
      ghost var all, out := LowerLogic(x.any, x.kids, true, m, sl, tys), m + [TBool];
      if x.negated { RoomSeq(w, Block(all, out), Op1(Not, 0), m); }
      RoomBlock(w, all, out, m);
      var sites: seq<Field>, rest, first := [], x.kids, true;
      ProgressStart(st, all, m);
      while rest.Part?
        invariant AllSteady(x.kids) ==> AllSteady(rest) && Short() == old(Short())
        invariant PartsSize(rest) <= PartsSize(x.kids) && CheckParts(w, Operand, rest, tys) && (first ==> rest != End)
        invariant Open(if first then m else out, sl)
        invariant Room(w, LowerLogic(x.any, rest, first, m, sl, tys), if first then m else out)
        invariant Progress(st, all, m, View(), LowerLogic(x.any, rest, first, m, sl, tys), if first then m else out, sites)
        decreases PartsSize(rest)
      {
        sites := EmitOperand(x.any, rest, first, sites, st, all, w, m, tys);
        rest, first := rest.rest, false;
      }
      ProgressEnd(st, all, m, View(), out, sites);
      BindBlock(sites, st, all, out, m);
      if x.negated {
        EmitOp(Not, 0);
        AfterSeq(st, Block(all, out), Op1(Not, 0), m);
        BlockOut(all, out, m);
      }
    }

    method EmitArgs(args: Parts, ghost types: seq<Ty>, ghost w: World, ghost tys: seq<Ty>)
      requires CheckParts(w, Argument(types), args, tys) && maxDepth >= |stackTypes| && ScopesOk(stackTypes, scopes, tys)
      requires Room(w, LowerArgs(args, stackTypes, scopes, tys), stackTypes)
      modifies this
      ensures View() == After(old(View()), LowerArgs(args, old(stackTypes), old(scopes), tys), old(stackTypes))
      ensures stackTypes == old(stackTypes) + types && scopes == old(scopes) && maxDepth >= |stackTypes|
      ensures AllSteady(args) ==> Short() == old(Short())
      decreases PartsSize(args), 1
    {
      hide View, Short, After, SitesOf, Flatten, OutOf, PeakOf, Room, ResultOf, Check, Lower, CheckParts, Progress;
      ghost var m, sl, st, here, left := stackTypes, scopes, View(), stackTypes, types;
      ghost var all := LowerArgs(args, m, sl, tys);
      var rest := args;
      ProgressStart(st, all, m);
      while rest.Part?
        invariant AllSteady(args) ==> AllSteady(rest) && Short() == old(Short())
        invariant PartsSize(rest) <= PartsSize(args) && CheckParts(w, Argument(left), rest, tys)
        invariant Open(here, sl) && ScopesOk(here, sl, tys) && here + left == m + types
        invariant Room(w, LowerArgs(rest, here, sl, tys), here)
        invariant Progress(st, all, m, View(), LowerArgs(rest, here, sl, tys), here, [])
        decreases PartsSize(rest)
      {
        ArgChecked(w, left, rest, tys);
        ghost var t := ResultOf(rest.body, tys);
        ghost var arg, more := Lower(rest.body, here, sl, tys), LowerArgs(rest.rest, here + t, sl, tys);
        RoomSeq(w, arg, more, here);
        LowerOut(w, rest.body, here, sl, tys);
        ProgressSeq(st, all, m, View(), arg, more, here, []);
        EmitExpr(rest.body, w, tys);
        ScopesUnder(here, t, sl, tys);
        assert here + t + left[1..] == here + left;
        here, left, rest := here + t, left[1..], rest.rest;
      }
      ProgressEnd(st, all, m, View(), here, []);
      ArgChecked(w, left, rest, tys);
      assert here + [] == here;
    }

    method EmitNative(x: Expr, ghost w: World, ghost tys: seq<Ty>)
      requires x.Native? && Check(w, x, tys) && maxDepth >= |stackTypes| && ScopesOk(stackTypes, scopes, tys)
      requires Room(w, Lower(x, stackTypes, scopes, tys), stackTypes)
      modifies this
      ensures View() == After(old(View()), Lower(x, old(stackTypes), old(scopes), tys), old(stackTypes))
      ensures stackTypes == old(stackTypes) + ResultOf(x, tys) && scopes == old(scopes) && maxDepth >= |stackTypes|
      ensures Steady(x) ==> Short() == old(Short())
      decreases SizeOf(x), 0
    {
      hide View, Short, After, OutOf, PeakOf, Room, ResultOf, Check, LowerArgs;
      ghost var m, sl, st := stackTypes, scopes, View();
      NativeChecked(w, x, tys);
      ghost var args, call := LowerArgs(x.args, m, sl, tys), Op1(Call(x.sig), ScopeSlot(sl));
      RoomSeq(w, args, call, m);
      ArgsTyped(w, x.args, x.sig.args, m, sl, tys);
      LeadsHere(w, args, m, m + x.sig.args, []);
      EmitArgs(x.args, x.sig.args, w, tys);
      EmitOp(Call(x.sig), if scopes == [] then 0 else scopes[|scopes| - 1]);
      AfterSeq(st, args, call, m);
      CallOut(x, m, sl, tys);
    }

    /** One term of ADD or MUL: skipped when its condition fails, otherwise folded into the running result. */
    method EmitTerm(product: bool, op: Prim, ty: Ty, p: Parts, first: bool, ghost w: World, ghost m: seq<Ty>, ghost tys: seq<Ty>)
      requires p.Part? && TotalOk(product, op, ty) && CheckParts(w, Term([ty]), p, tys) && (first ==> p.test.Always?)
      requires stackTypes == (if first then m else m + [ty]) && maxDepth >= |stackTypes| && ScopesOk(m, scopes, tys)
      requires Room(w, TermNode(op, ty, p, first, m, scopes, tys), stackTypes)
      modifies this
      ensures View() == After(old(View()), TermNode(op, ty, p, first, m, old(scopes), tys), old(stackTypes))
      ensures stackTypes == m + [ty] && scopes == old(scopes) && maxDepth >= |stackTypes|
      ensures FirstSteady(p) ==> Short() == old(Short())
      decreases PartsSize(p), 0
    {
      hide View, Short, After, SitesOf, Flatten, OutOf, PeakOf, Room, ResultOf, Check, Valued, TotalOk, PrimOut, Lower, CheckParts, Convertible;
      TermChecked(w, p, ty, tys);
      ghost var here, sl, st := stackTypes, scopes, View();
      ghost var value := Valued(p.body, [ty], here, sl, tys);
      ghost var code := TermCode(op, value, first);
      ScopesUnder(m, [ty], sl, tys);
      var skip: seq<Field> := [];
      if p.test.When? {
        var c := p.test.cond;
        ghost var leave := Exit(CondJump, 0, 0);
        ghost var test := Lower(c, here, sl, tys);
        RoomBlock(w, Seq(test, Seq(leave, code)), here, here);
        RoomSeq(w, test, Seq(leave, code), here);
        LowerOut(w, c, here, sl, tys);
        EmitExpr(c, w, tys);
        RoomSkip(w, test, code, here, here);
        TopIs(here, TBool);
        AfterSize(st, test, here);
        skip := JumpTo(CondJump, 0, 0, skip, here + [TBool], []);
      }
      ghost var st1 := View();
      if !first { RoomSeq(w, value, Op1(op, 0), here); }
      EmitValued(p.body, [ty], w, tys);
      if !first {
        FoldOut(product, op, ty, m);
        EmitOp(op, 0);
        ValuedTyped(w, p.body, [ty], here, sl, tys);
        LeadsHere(w, value, here, here + [ty], []);
        AfterSeq(st1, value, Op1(op, 0), here);
      }
      if p.test.When? {
        TermTyped(w, product, op, ty, p.body, first, m, sl, tys);
        LeadsClosed(w, code, here, m + [ty]);
        SkipDone(st, Lower(p.test.cond, here, sl, tys), code, here, skip);
        BindBlock(skip, st, Seq(Lower(p.test.cond, here, sl, tys), Seq(Exit(CondJump, 0, 0), code)), here, here);
      }
    }

    method EmitTotal(x: Expr, ghost w: World, ghost tys: seq<Ty>)
      requires x.Total? && Check(w, x, tys) && maxDepth >= |stackTypes| && ScopesOk(stackTypes, scopes, tys)
      requires Room(w, Lower(x, stackTypes, scopes, tys), stackTypes)
      modifies this
      ensures View() == After(old(View()), Lower(x, old(stackTypes), old(scopes), tys), old(stackTypes))
      ensures stackTypes == old(stackTypes) + [x.ty] && scopes == old(scopes) && maxDepth >= |stackTypes|
      ensures Steady(x) ==> Short() == old(Short())
      decreases SizeOf(x), 0
    {
      hide View, Short, After, SitesOf, Flatten, OutOf, PeakOf, Room, ResultOf, TotalOk, PrimOut, TermNode;
      ghost var m, sl, st := stackTypes, scopes, View();
      var first := !Conditional(x.terms);
      ghost var all := LowerTerms(x.op, x.ty, x.terms, first, m, sl, tys);
      if !first {
        RoomSeq(w, IdentityPush(x.product, x.ty), all, m);
        IdentityOut(x.product, x.op, x.ty, m);
        if x.ty == TInt { EmitOp(PushInt, if x.product then 1 else 0); }
        else { EmitOp(PushFloat, if x.product then ONE_BITS else ZERO_BITS); }
      }
      ghost var st1, here := View(), stackTypes;
      var rest := x.terms;
      ProgressStart(st1, all, here);
      while rest.Part?
        invariant AllSteady(x.terms) ==> AllSteady(rest) && Short() == old(Short())
        invariant PartsSize(rest) <= PartsSize(x.terms) && CheckParts(w, Term([x.ty]), rest, tys)
        invariant first ==> rest.Part? && !Conditional(rest)
        invariant Open(if first then m else m + [x.ty], sl) && ScopesOk(m, sl, tys)
        invariant Room(w, LowerTerms(x.op, x.ty, rest, first, m, sl, tys), stackTypes)
        invariant Progress(st1, all, here, View(), LowerTerms(x.op, x.ty, rest, first, m, sl, tys), stackTypes, [])
        decreases PartsSize(rest)
      {
        ghost var term, more := TermNode(x.op, x.ty, rest, first, m, sl, tys), LowerTerms(x.op, x.ty, rest.rest, false, m, sl, tys);
        TermsAre(x.op, x.ty, rest, first, m, sl, tys);
        RoomSeq(w, term, more, stackTypes);
        TermOut(w, x.product, x.op, x.ty, rest, first, m, sl, tys);
        ProgressSeq(st1, all, here, View(), term, more, stackTypes, []);
        EmitTerm(x.product, x.op, x.ty, rest, first, w, m, tys);
        rest, first := rest.rest, false;
      }
      ProgressEnd(st1, all, here, View(), stackTypes, []);
      if Conditional(x.terms) { AfterSeq(st, IdentityPush(x.product, x.ty), all, m); }
    }

    method EmitSelect(x: Expr, ghost w: World, ghost tys: seq<Ty>)
      requires x.Select? && Check(w, x, tys) && maxDepth >= |stackTypes| && ScopesOk(stackTypes, scopes, tys)
      requires Room(w, Lower(x, stackTypes, scopes, tys), stackTypes)
      modifies this
      ensures View() == After(old(View()), Lower(x, old(stackTypes), old(scopes), tys), old(stackTypes))
      ensures stackTypes == old(stackTypes) + x.exp && scopes == old(scopes) && maxDepth >= |stackTypes|
      ensures Steady(x) ==> Short() == old(Short())
      decreases SizeOf(x), 0
    {
      hide View, Short, After, SitesOf, Flatten, OutOf, PeakOf, Room, ResultOf, Scalar;
      ghost var m, sl, st, out := stackTypes, scopes, View(), stackTypes + x.exp;
      ghost var all := LowerSelect(x.exp, x.clauses, m, sl, tys);
      ScalarShort(x.exp);
      RoomBlock(w, all, out, m);
      var sites: seq<Field>, rest := [], x.clauses;
      ghost var last := false;
      ProgressStart(st, all, m);
      while rest.Part?
        invariant AllSteady(x.clauses) ==> AllSteady(rest) && Short() == old(Short())
        invariant PartsSize(rest) <= PartsSize(x.clauses) && CheckParts(w, Alternative(x.exp), rest, tys)
        invariant Open(m, sl) && ScopesOk(m, sl, tys)
        invariant last || x.exp == [] || rest.Part?
        invariant last ==> rest.End? && maxDepth >= |out|
        invariant Room(w, LowerSelect(x.exp, rest, m, sl, tys), if last then out else m)
        invariant Progress(st, all, m, View(), LowerSelect(x.exp, rest, m, sl, tys), if last then out else m, sites)
        decreases PartsSize(rest)
      {
        if rest.test.When? {
          SelectIs(x.exp, rest, m, sl, tys);
          sites := EmitGuarded(x.exp, rest, sites, st, all, w, m, tys);
        } else {
          sites := EmitLast(x.exp, rest, sites, st, all, w, m, tys);
          last := x.exp != [] || rest.rest.End?;
          if x.exp == [] { assert m + x.exp == m; }
        }
        rest := rest.rest;
      }
      if x.exp == [] { assert out == m; }
      ProgressEnd(st, all, m, View(), if last then out else m, sites);
      AfterSize(st, all, m);
      PushType(x.exp);
      BindBlock(sites, st, all, out, m);
    }

    /** A clause of `select` with a condition. */
    method EmitGuarded(exp: seq<Ty>, p: Parts, sites: seq<Field>, ghost st: State, ghost all: Node, ghost w: World, ghost m: seq<Ty>, ghost tys: seq<Ty>)
      returns (more: seq<Field>)
      requires p.Part? && p.test.When? && CheckParts(w, Alternative(exp), p, tys) && |exp| <= 1
      requires Open(m, scopes) && ScopesOk(m, scopes, tys)
      requires Room(w, Seq(SelectClause(exp, p, m, scopes, tys), LowerSelect(exp, p.rest, m, scopes, tys)), m)
      requires Progress(st, all, m, View(), Seq(SelectClause(exp, p, m, scopes, tys), LowerSelect(exp, p.rest, m, scopes, tys)), m, sites)
      modifies this
      ensures Open(m, old(scopes)) && Room(w, LowerSelect(exp, p.rest, m, scopes, tys), m)
      ensures Progress(st, all, m, View(), LowerSelect(exp, p.rest, m, scopes, tys), m, more)
      ensures FirstSteady(p) ==> Short() == old(Short())
      decreases PartsSize(p), 0
    {
      hide View, Short, After, SitesOf, Flatten, OutOf, PeakOf, Room, ResultOf, Check, Valued, Lower, Clause, Progress;
      ghost var sl, st0 := scopes, View();
      var c := p.test.cond;
      ghost var rest := LowerSelect(exp, p.rest, m, sl, tys);
      ghost var test, value := Lower(c, m, sl, tys), Valued(p.body, exp, m, sl, tys);
      ghost var clause := Clause(test, value, m);
      RoomSeq(w, clause, rest, m);
      ClauseTestTyped(w, c, value, m, sl, tys);
      ClauseRoomTest(w, test, value, m);
      LeadsClosed(w, test, m, m + [TBool]);
      ClauseOutIs(test, value, m);
      ProgressSeq(st, all, m, st0, clause, rest, m, sites);
      EmitExpr(c, w, tys);
      TopIs(m, TBool);
      AfterSize(st0, test, m);
      var skip := JumpTo(CondJump, 0, 0, [], m + [TBool], []);
      assert [] + [SiteField(|st0.cmds| + Size(test), CondJump)] == [SiteField(|st0.cmds| + Size(test), CondJump)];
      EmitValued(p.body, exp, w, tys);
      ValuedTyped(w, p.body, exp, m, sl, tys);
      LeadsClosed(w, value, m, m + exp);
      more := CloseClause(skip, sites, st0, test, value, m, m, m + exp, []);
      PopTypes(m, exp);
    }

    /** A clause without a condition: its value, then out of the block. */
    method EmitLast(exp: seq<Ty>, p: Parts, sites: seq<Field>, ghost st: State, ghost all: Node, ghost w: World, ghost m: seq<Ty>, ghost tys: seq<Ty>)
      returns (more: seq<Field>)
      requires p.Part? && p.test.Always? && CheckParts(w, Alternative(exp), p, tys) && |exp| <= 1
      requires Open(m, scopes) && ScopesOk(m, scopes, tys) && Room(w, LowerSelect(exp, p, m, scopes, tys), m)
      requires Progress(st, all, m, View(), LowerSelect(exp, p, m, scopes, tys), m, sites)
      modifies this
      ensures Open(m, old(scopes)) && maxDepth >= |m + exp|
      ensures Room(w, LowerSelect(exp, p.rest, m, scopes, tys), m + exp)
      ensures Progress(st, all, m, View(), LowerSelect(exp, p.rest, m, scopes, tys), m + exp, more)
      ensures FirstSteady(p) ==> Short() == old(Short())
      decreases PartsSize(p), 0
    {
      hide View, Short, After, SitesOf, Flatten, OutOf, PeakOf, Room, ResultOf, Check, Valued, Lower, Progress;
      ghost var sl, st0, out := scopes, View(), m + exp;
      ghost var value, rest, jump := Valued(p.body, exp, m, sl, tys), LowerSelect(exp, p.rest, m, sl, tys), Exit(Jump, 0, 0);
      RoomSeq(w, Seq(value, jump), rest, m);
      RoomSeq(w, value, jump, m);
      ValuedTyped(w, p.body, exp, m, sl, tys);
      LeadsClosed(w, value, m, out);
      JumpOut(value, m, out);
      EmitValued(p.body, exp, w, tys);
      AfterSize(st0, value, m);
      more := JumpTo(Jump, 0, 0, sites, out, []);
      AfterSeq(st0, value, jump, m);
      ProgressSeq(st, all, m, st0, Seq(value, jump), rest, m, sites);
      SitesSeq(value, jump, |st0.cmds|, 0);
      ExitSites(Jump, 0, 0, |st0.cmds| + Size(value));
      assert [] + [SiteField(|st0.cmds| + Size(value), Jump)] == [SiteField(|st0.cmds| + Size(value), Jump)];
      PopTypes(m, exp);
    }

    /** One stage of `sequence`: out of the block when its condition fails, else collected. */
    method EmitStage(exp: seq<Ty>, p: Parts, sites: seq<Field>, ghost st: State, ghost all: Node, ghost w: World, ghost m: seq<Ty>, ghost tys: seq<Ty>)
      returns (more: seq<Field>)
      requires p.Part? && CheckParts(w, Stage(exp), p, tys) && Scalar(exp)
      requires Open(m + exp, scopes) && ScopesOk(m, scopes, tys) && Room(w, LowerStages(exp, p, m, scopes, tys), m + exp)
      requires Progress(st, all, m + exp, View(), LowerStages(exp, p, m, scopes, tys), m + exp, sites)
      modifies this
      ensures Open(m + exp, old(scopes)) && Room(w, LowerStages(exp, p.rest, m, scopes, tys), m + exp)
      ensures Progress(st, all, m + exp, View(), LowerStages(exp, p.rest, m, scopes, tys), m + exp, more)
      ensures FirstSteady(p) ==> Short() == old(Short())
      decreases PartsSize(p), 0
    {
      hide View, Short, After, SitesOf, Flatten, OutOf, PeakOf, Room, ResultOf, Check, Valued, Lower, Progress, Scalar, CollectOp, PrimOut;
      ghost var sl, here := scopes, m + exp;
      var c := p.test.cond;
      ghost var test, leave, value, rest := Lower(c, here, sl, tys), Exit(CondJump, 0, 0), Valued(p.body, exp, here, sl, tys), LowerStages(exp, p.rest, m, sl, tys);
      ghost var body := Seq(value, CollectOp(exp));
      ScopesUnder(m, exp, sl, tys);
      ScalarShort(exp);
      RoomSeq(w, test, Seq(leave, Seq(body, rest)), here);
      LowerOut(w, c, here, sl, tys);
      RoomSkip(w, test, Seq(body, rest), here, here);
      ProgressSeq(st, all, here, View(), test, Seq(leave, Seq(body, rest)), here, sites);
      EmitExpr(c, w, tys);
      ProgressSeq(st, all, here, View(), leave, Seq(body, rest), here + [TBool], sites);
      ExitOutIs(CondJump, 0, 0, here + [TBool]);
      TopIs(here, TBool);
      ExitSites(CondJump, 0, 0, |cmds|);
      more := JumpTo(CondJump, 0, 0, sites, here + [TBool], []);
      RoomSeq(w, body, rest, here);
      RoomSeq(w, value, CollectOp(exp), here);
      ValuedTyped(w, p.body, exp, here, sl, tys);
      CollectTyped(w, exp, m);
      LeadsSeq(w, value, CollectOp(exp), here, here + exp, here);
      LeadsClosed(w, body, here, here);
      ProgressSeq(st, all, here, View(), body, rest, here, more);
      ghost var st1 := View();
      EmitValued(p.body, exp, w, tys);
      LeadsHere(w, value, here, here + exp, []);
      EmitCollect(exp, m);
      AfterSeq(st1, value, CollectOp(exp), here);
    }

    method EmitCollect(exp: seq<Ty>, ghost m: seq<Ty>)
      requires Scalar(exp) && stackTypes == m + exp + exp && maxDepth >= |stackTypes|
      modifies this`cmds, this`stackTypes, this`maxDepth, this`steps
      ensures View() == After(old(View()), CollectOp(exp), m + exp + exp) && stackTypes == m + exp && maxDepth >= |stackTypes|
      ensures Short() == old(Short())
    {
      hide View, Short, After, PrimOut;
      if exp == [] {
        AfterNop(View(), stackTypes);
        assert m + exp + exp == m + exp;
      } else {
        CollectOut(exp, m);
        if exp == [TBool] { EmitOp(AndBin, 0); } else if exp == [TInt] { EmitOp(SumInt, 0); } else { EmitOp(Sum, 0); }
      }
    }

    method EmitSequence(x: Expr, ghost w: World, ghost tys: seq<Ty>)
      requires x.Sequence? && Check(w, x, tys) && maxDepth >= |stackTypes| && ScopesOk(stackTypes, scopes, tys)
      requires Room(w, Lower(x, stackTypes, scopes, tys), stackTypes)
      modifies this
      ensures View() == After(old(View()), Lower(x, old(stackTypes), old(scopes), tys), old(stackTypes))
      ensures stackTypes == old(stackTypes) + x.exp && scopes == old(scopes) && maxDepth >= |stackTypes|
      ensures Steady(x) ==> Short() == old(Short())
      decreases SizeOf(x), 0
    {
      hide View, Short, After, SitesOf, Flatten, OutOf, PeakOf, Room, ResultOf, Scalar, StartPush;
      ghost var m, sl, st, out := stackTypes, scopes, View(), stackTypes + x.exp;
      ghost var all, push := LowerStages(x.exp, x.clauses, m, sl, tys), StartPush(x.exp);
      RoomSeq(w, push, Block(all, out), m);
      CollectTyped(w, x.exp, m);
      LeadsHere(w, push, m, out, []);
      RoomBlock(w, all, out, out);
      EmitStart(x.exp);
      ghost var st1 := View();
      var sites: seq<Field>, rest := [], x.clauses;
      ProgressStart(st1, all, out);
      while rest.Part?
        invariant AllSteady(x.clauses) ==> AllSteady(rest) && Short() == old(Short())
        invariant PartsSize(rest) <= PartsSize(x.clauses) && CheckParts(w, Stage(x.exp), rest, tys)
        invariant Open(out, sl) && ScopesOk(m, sl, tys) && Room(w, LowerStages(x.exp, rest, m, sl, tys), out)
        invariant Progress(st1, all, out, View(), LowerStages(x.exp, rest, m, sl, tys), out, sites)
        decreases PartsSize(rest)
      {
        sites := EmitStage(x.exp, rest, sites, st1, all, w, m, tys);
        rest := rest.rest;
      }
      ProgressEnd(st1, all, out, View(), out, sites);
      BindBlock(sites, st1, all, out, out);
      AfterSeq(st, push, Block(all, out), m);
    }

    method EmitStart(exp: seq<Ty>)
      requires Scalar(exp) && maxDepth >= |stackTypes|
      modifies this`cmds, this`stackTypes, this`maxDepth, this`steps
      ensures View() == After(old(View()), StartPush(exp), old(stackTypes)) && stackTypes == old(stackTypes) + exp && maxDepth >= |stackTypes|
      ensures Short() == old(Short())
    {
      if exp == [] { AfterNop(View(), stackTypes); assert stackTypes + exp == stackTypes; }
      else if exp == [TBool] { EmitOp(PushBool, 1); }
      else if exp == [TInt] { EmitOp(PushInt, 0); }
      else { EmitOp(PushFloat, ZERO_BITS); }
    }

    method EmitEffects(x: Expr, ghost w: World, ghost tys: seq<Ty>)
      requires x.Effects? && Check(w, x, tys) && maxDepth >= |stackTypes| && ScopesOk(stackTypes, scopes, tys)
      requires Room(w, Lower(x, stackTypes, scopes, tys), stackTypes)
      modifies this
      ensures View() == After(old(View()), Lower(x, old(stackTypes), old(scopes), tys), old(stackTypes))
      ensures stackTypes == old(stackTypes) && scopes == old(scopes) && maxDepth >= |stackTypes|
      ensures Steady(x) ==> Short() == old(Short())
      decreases SizeOf(x), 0
    {
      hide View, Short, After, SitesOf, Flatten, OutOf, PeakOf, Room, ResultOf;
      ghost var m, sl, st := stackTypes, scopes, View();
      ghost var all := LowerEffects(x.children, m, sl, tys);
      RoomBlock(w, all, m, m);
      var sites: seq<Field>, rest := [], x.children;
      ProgressStart(st, all, m);
      while rest.Part?
        invariant AllSteady(x.children) ==> AllSteady(rest) && Short() == old(Short())
        invariant PartsSize(rest) <= PartsSize(x.children) && CheckParts(w, Term([]), rest, tys)
        invariant Open(m, sl) && ScopesOk(m, sl, tys) && Room(w, LowerEffects(rest, m, sl, tys), m)
        invariant Progress(st, all, m, View(), LowerEffects(rest, m, sl, tys), m, sites)
        decreases PartsSize(rest)
      {
        sites := EmitEffect(rest, sites, st, all, w, m, tys);
        rest := rest.rest;
      }
      ProgressEnd(st, all, m, View(), m, sites);
      BindBlock(sites, st, all, m, m);
    }

    /** One child of an effect block; a condition that fails ends the whole block. */
    method EmitEffect(p: Parts, sites: seq<Field>, ghost st: State, ghost all: Node, ghost w: World, ghost m: seq<Ty>, ghost tys: seq<Ty>)
      returns (more: seq<Field>)
      requires p.Part? && CheckParts(w, Term([]), p, tys)
      requires Open(m, scopes) && ScopesOk(m, scopes, tys) && Room(w, LowerEffects(p, m, scopes, tys), m)
      requires Progress(st, all, m, View(), LowerEffects(p, m, scopes, tys), m, sites)
      modifies this
      ensures Open(m, old(scopes)) && Room(w, LowerEffects(p.rest, m, scopes, tys), m)
      ensures Progress(st, all, m, View(), LowerEffects(p.rest, m, scopes, tys), m, more)
      ensures FirstSteady(p) ==> Short() == old(Short())
      decreases PartsSize(p), 0
    {
      hide View, Short, After, SitesOf, Flatten, OutOf, PeakOf, Room, ResultOf, Check, Lower, Progress;
      ghost var sl := scopes;
      ghost var body, rest, leave := Lower(p.body, m, sl, tys), LowerEffects(p.rest, m, sl, tys), Exit(CondJump, 0, 0);
      more := sites;
      if p.test.When? {
        var c := p.test.cond;
        ghost var test := Lower(c, m, sl, tys);
        RoomSeq(w, test, Seq(leave, Seq(body, rest)), m);
        LowerOut(w, c, m, sl, tys);
        RoomSkip(w, test, Seq(body, rest), m, m);
        ProgressSeq(st, all, m, View(), test, Seq(leave, Seq(body, rest)), m, sites);
        EmitExpr(c, w, tys);
        ProgressSeq(st, all, m, View(), leave, Seq(body, rest), m + [TBool], sites);
        ExitOutIs(CondJump, 0, 0, m + [TBool]);
        TopIs(m, TBool);
        ExitSites(CondJump, 0, 0, |cmds|);
        more := JumpTo(CondJump, 0, 0, sites, m + [TBool], []);
      }
      RoomSeq(w, body, rest, m);
      LowerOut(w, p.body, m, sl, tys);
      assert m + [] == m;
      ProgressSeq(st, all, m, View(), body, rest, m, more);
      EmitExpr(p.body, w, tys);
    }

    method EmitValueOr(x: Expr, ghost w: World, ghost tys: seq<Ty>)
      requires x.ValueOr? && Check(w, x, tys) && maxDepth >= |stackTypes| && ScopesOk(stackTypes, scopes, tys)
      requires Room(w, Lower(x, stackTypes, scopes, tys), stackTypes)
      modifies this
      ensures View() == After(old(View()), Lower(x, old(stackTypes), old(scopes), tys), old(stackTypes))
      ensures stackTypes == old(stackTypes) + x.exp && scopes == old(scopes) && maxDepth >= |stackTypes|
      ensures Steady(x) ==> Short() == old(Short())
      decreases SizeOf(x), 0
    {
      hide View, Short, After, SitesOf, Flatten, OutOf, PeakOf, Room, ResultOf, Valued, Clause, Lower, Check, Leads, Convertible, Size, SiteField;
      ValueOrParts(w, x, stackTypes, scopes, tys);
      ghost var m, sl, st, out := stackTypes, scopes, View(), stackTypes + x.exp;
      ghost var test, value, other := Lower(x.cond, m, sl, tys), Valued(x.value, x.exp, m, sl, tys), Valued(x.default, x.exp, m, sl, tys);
      ghost var clause := Clause(test, value, m);
      RoomBlock(w, Seq(clause, other), out, m);
      RoomSeq(w, clause, other, m);
      ClauseTestTyped(w, x.cond, value, m, sl, tys);
      ClauseRoomTest(w, test, value, m);
      LeadsClosed(w, test, m, m + [TBool]);
      ClauseOutIs(test, value, m);
      EmitExpr(x.cond, w, tys);
      TopIs(m, TBool);
      AfterSize(st, test, m);
      var skip := JumpTo(CondJump, 0, 0, [], m + [TBool], []);
      assert [] + [SiteField(|st.cmds| + Size(test), CondJump)] == [SiteField(|st.cmds| + Size(test), CondJump)];
      EmitValued(x.value, x.exp, w, tys);
      ValuedTyped(w, x.value, x.exp, m, sl, tys);
      LeadsClosed(w, value, m, out);
      var end := CloseClause(skip, [], st, test, value, m, m, out, []);
      PopTypes(m, x.exp);
      ghost var st1 := View();
      EmitValued(x.default, x.exp, w, tys);
      ValuedTyped(w, x.default, x.exp, m, sl, tys);
      LeadsClosed(w, other, m, out);
      AfterSeq(st, clause, other, m);
      AfterSize(st, clause, m);
      SitesSeq(clause, other, |st.cmds|, 0);
      assert end == SitesOf(Seq(clause, other), |st.cmds|, 0);
      BindBlock(end, st, Seq(clause, other), out, m);
    }

    /** `ctx:saved:x`: the context, the read, the unwind; recorded because nothing uses the context. */
    method EmitSaved(x: Expr)
      requires x.Saved? && maxDepth >= |stackTypes|
      modifies this
      ensures View() == After(old(View()), Unread(|old(stackTypes)|, Command(Read(x.kind), x.slot), x.ty), old(stackTypes))
      ensures stackTypes == old(stackTypes) + [x.ty] && scopes == old(scopes) && maxDepth >= |stackTypes|
      ensures Short() == old(Short())
    {
      hide Models, ShortAt, After, Flatten, FieldsOf, PushesOf, PeakOf, ModelOf;
      ghost var before := View();
      var first, slot := |cmds|, |stackTypes|;
      ghost var m := stackTypes;
      Note([]);
      cmds := cmds + [Command(PushContext, 0)];
      PushType([TContext]);
      Note([]);
      cmds := cmds + [Command(Read(x.kind), x.slot)];
      PushType([x.ty]);
      Note([]);
      cmds := cmds + [Command(Erase, slot)];
      assert stackTypes == m + [TContext] + [x.ty];
      EraseType(slot);
      pushes := pushes + [DeadPush(first, first + 2, slot)];
      assert stackTypes == m + [x.ty];
      assert cmds == old(cmds) + [Command(PushContext, 0), Command(Read(x.kind), x.slot), Command(Erase, slot)];
      AfterUnread(before, slot, Command(Read(x.kind), x.slot), x.ty, m);
      assert m + [] == m && m + [TContext] + [] == m + [TContext] && m + [TContext] + [x.ty] + [] == m + [TContext, x.ty];
      assert View().model == before.model + [m, m + [TContext], m + [TContext, x.ty]];
    }

    /** The body of a scope: the scope object becomes `this`, and is erased behind the body. */
    method EmitBody(body: Expr, ghost x: Expr, ghost t: seq<Ty>, ghost w: World, ghost m: seq<Ty>, ghost tys: seq<Ty>)
      requires (x.Within? || x.WithinValid?) && x.body == body && Check(w, x.scope, tys) && ResultOf(x.scope, tys) == t && |t| == 1
      requires Check(w, body, tys + t) && stackTypes == m + t && maxDepth >= |stackTypes| && ScopesOk(m, scopes, tys)
      requires Room(w, Seq(Lower(body, m + t, scopes + [|m|], tys + t), EraseSlot(|m|)), m + t)
      modifies this
      ensures View() == After(old(View()), Seq(Lower(body, m + t, old(scopes) + [|m|], tys + t), EraseSlot(|m|)), m + t)
      ensures stackTypes == m + ResultOf(body, tys + t) && scopes == old(scopes) && maxDepth >= |stackTypes|
      ensures Steady(body) ==> Short() == old(Short())
      decreases SizeOf(body), 2
    {
      hide View, Short, After, Flatten, OutOf, PeakOf, Room, ResultOf, Check, Lower;
      ghost var st, sl, r := View(), scopes, ResultOf(body, tys + t);
      var slot := |stackTypes| - 1;
      ghost var code := Lower(body, m + t, sl + [|m|], tys + t);
      RoomSeq(w, code, EraseSlot(|m|), m + t);
      ScopesOpen(m, t, sl, tys);
      scopes := scopes + [slot];
      EmitExpr(body, w, tys + t);
      LowerOut(w, body, m + t, sl + [|m|], tys + t);
      scopes := scopes[..|scopes| - 1];
      EmitErase(slot, m + t + r, []);
      EraseType(slot);
      assert Drop(m + t + r, slot) == m + r;
      AfterSeq(st, code, EraseSlot(|m|), m + t);
    }

    method EmitWithin(x: Expr, ghost w: World, ghost tys: seq<Ty>)
      requires x.Within? && Check(w, x, tys) && maxDepth >= |stackTypes| && ScopesOk(stackTypes, scopes, tys)
      requires Room(w, Lower(x, stackTypes, scopes, tys), stackTypes)
      modifies this
      ensures View() == After(old(View()), Lower(x, old(stackTypes), old(scopes), tys), old(stackTypes))
      ensures stackTypes == old(stackTypes) + ResultOf(x, tys) && scopes == old(scopes) && maxDepth >= |stackTypes|
      ensures Steady(x) ==> Short() == old(Short())
      decreases SizeOf(x), 0
    {
      hide View, Short, After, Flatten, OutOf, PeakOf, Room;
      ghost var m, sl, st, t := stackTypes, scopes, View(), ResultOf(x.scope, tys);
      ghost var scope, code := Lower(x.scope, m, sl, tys), Seq(Lower(x.body, m + t, sl + [|m|], tys + t), EraseSlot(|m|));
      RoomSeq(w, scope, code, m);
      LowerOut(w, x.scope, m, sl, tys);
      EmitExpr(x.scope, w, tys);
      EmitBody(x.body, x, t, w, m, tys);
      AfterSeq(st, scope, code, m);
    }

    method EmitWithinValid(x: Expr, ghost w: World, ghost tys: seq<Ty>)
      requires x.WithinValid? && Check(w, x, tys) && maxDepth >= |stackTypes| && ScopesOk(stackTypes, scopes, tys)
      requires Room(w, Lower(x, stackTypes, scopes, tys), stackTypes)
      modifies this
      ensures View() == After(old(View()), Lower(x, old(stackTypes), old(scopes), tys), old(stackTypes))
      ensures stackTypes == old(stackTypes) + [x.ty] && scopes == old(scopes) && maxDepth >= |stackTypes|
      ensures Steady(x) ==> Short() == old(Short())
      decreases SizeOf(x), 0
    {
      hide View, Short, After, Flatten, OutOf, PeakOf, Room, SitesOf, ModeOf;
      ghost var m, sl, st, t, out := stackTypes, scopes, View(), ResultOf(x.scope, tys), stackTypes + [x.ty];
      var mode := ModeOf(x.ty);
      ghost var scope, guard := Lower(x.scope, m, sl, tys), Exit(ScopeGuard, mode, 0);
      ghost var code := Seq(Lower(x.body, m + t, sl + [|m|], tys + t), EraseSlot(|m|));
      RoomSeq(w, scope, Block(Seq(guard, code), out), m);
      LowerOut(w, x.scope, m, sl, tys);
      RoomBlock(w, Seq(guard, code), out, m + t);
      RoomSeq(w, guard, code, m + t);
      ExitOutIs(ScopeGuard, mode, 0, m + t);
      EmitExpr(x.scope, w, tys);
      ghost var st1 := View();
      var sites := JumpTo(ScopeGuard, mode, 0, [], m + t, []);
      EmitBody(x.body, x, t, w, m, tys);
      AfterSeq(st1, guard, code, m + t);
      BodyClosed(w, x, m, sl, tys);
      SitesSeq(guard, code, |st1.cmds|, 0);
      ExitSites(ScopeGuard, mode, 0, |st1.cmds|);
      assert sites == SitesOf(Seq(guard, code), |st1.cmds|, 0);
      BindBlock(sites, st1, Seq(guard, code), out, m + t);
      AfterSeq(st, scope, Block(Seq(guard, code), out), m);
    }

    /** The value of a case, and its comparison with the switch value. */
    method EmitCaseTest(c: Expr, slot: nat, ghost w: World, ghost t: seq<Ty>, ghost m: seq<Ty>, ghost tys: seq<Ty>) returns (index: nat)
      requires Check(w, c, tys) && ResultOf(c, tys) == t && |t| == 1 && Open(m, scopes) && ScopesOk(m, scopes, tys)
      requires Room(w, Lower(c, m, scopes, tys), m)
      modifies this
      ensures index == |m| && scopes == old(scopes)
      ensures View() == After(old(View()), Seq(Lower(c, m, scopes, tys), Op1(CompareEqual, Pack2(slot, index))), m)
      ensures stackTypes == m + t + [TBool] && maxDepth >= |stackTypes|
      ensures Steady(c) ==> Short() == old(Short())
      decreases SizeOf(c), 2
    {
      hide View, Short, After, Check, ResultOf, Lower, Room, Pack2, OutOf;
      ghost var st, value := View(), Lower(c, m, scopes, tys);
      LowerOut(w, c, m, scopes, tys);
      EmitExpr(c, w, tys);
      index := |stackTypes| - 1;
      EmitOp(CompareEqual, Pack2(slot, index));
      CompareOut(slot, m + t);
      AfterSeq(st, value, Op1(CompareEqual, Pack2(slot, index)), m);
    }

    /** The body of a case, once the case value is erased. */
    method EmitCaseBody(body: Expr, exp: seq<Ty>, index: nat, ghost w: World, ghost t: seq<Ty>, ghost m: seq<Ty>, ghost tys: seq<Ty>)
      requires Check(w, body, tys) && Convertible(ResultOf(body, tys), exp) && |exp| <= 1 && |t| == 1 && index == |m|
      requires stackTypes == m + t && maxDepth >= |stackTypes| && ScopesOk(m, scopes, tys) && Room(w, Valued(body, exp, m, scopes, tys), m)
      modifies this
      ensures View() == After(old(View()), Seq(EraseSlot(index), Valued(body, exp, m, scopes, tys)), m + t)
      ensures stackTypes == m + exp && scopes == old(scopes) && maxDepth >= |stackTypes| && maxDepth >= old(maxDepth)
      ensures Steady(body) ==> Short() == old(Short())
      decreases SizeOf(body), 3
    {
      hide View, Short, After, Check, ResultOf, Room, Valued;
      ghost var st := View();
      EmitErase(index, m + t, []);
      EraseType(index);
      assert Drop(m + t, index) == m;
      EmitValued(body, exp, w, tys);
      AfterSeq(st, EraseSlot(index), Valued(body, exp, m, scopes, tys), m + t);
      AfterSize(st, Seq(EraseSlot(index), Valued(body, exp, m, scopes, tys)), m + t);
    }

    /**
      One case of `switch`. The generator pops the body's value before it emits the jump to
      the end, and drops the case value's type before the second erase: at these two
      commands its stack is one value short of `m`, the run-time one.
    */
    method EmitCase(exp: seq<Ty>, p: Parts, slot: nat, sites: seq<Field>, ghost st: State, ghost all: Node, ghost w: World,
                    ghost t: seq<Ty>, ghost m: seq<Ty>, ghost tys: seq<Ty>) returns (more: seq<Field>)
      requires p.Part? && p.test.When? && CheckParts(w, Case(t, exp), p, tys) && |t| == 1 && |exp| <= 1 && slot < |m|
      requires Open(m, scopes) && ScopesOk(m, scopes, tys) && Room(w, LowerCases(exp, p, slot, m, scopes, tys), m)
      requires Progress(st, all, m, View(), LowerCases(exp, p, slot, m, scopes, tys), m, sites)
      modifies this
      ensures Open(m, old(scopes)) && maxDepth >= |m + exp| && Room(w, LowerCases(exp, p.rest, slot, m, scopes, tys), m)
      ensures Progress(st, all, m, View(), LowerCases(exp, p.rest, slot, m, scopes, tys), m, more)
      ensures |steps| >= 2 && (FirstSteady(p) ==> Short() == old(Short()) + (if exp == [] then [] else [|steps| - 2]) + [|steps| - 1])
      decreases PartsSize(p), 0
    {
      hide View, Short, After, SitesOf, Flatten, OutOf, PeakOf, Room, ResultOf, Check, Valued, Lower, Clause, Progress, Pack2;
      ghost var sl, st0 := scopes, View();
      var c := p.test.cond;
      ghost var value, compare := Lower(c, m, sl, tys), Op1(CompareEqual, Pack2(slot, |m|));
      ghost var erase, body, rest := EraseSlot(|m|), Valued(p.body, exp, m, sl, tys), LowerCases(exp, p.rest, slot, m, sl, tys);
      ghost var clause := Clause(Seq(value, compare), Seq(erase, body), m + t);
      assert LowerCases(exp, p, slot, m, sl, tys) == Seq(clause, Seq(erase, rest));
      CaseShape(w, exp, c, p.body, rest, slot, t, m, sl, tys);
      ProgressSeq(st, all, m, st0, clause, Seq(erase, rest), m, sites);
      var index := EmitCaseTest(c, slot, w, t, m, tys);
      AfterSize(st0, Seq(value, compare), m);
      TopIs(m + t, TBool);
      var skip := JumpTo(CondJump, 0, 0, [], m + t + [TBool], []);
      assert [] + [SiteField(|st0.cmds| + Size(Seq(value, compare)), CondJump)] == [SiteField(|st0.cmds| + Size(Seq(value, compare)), CondJump)];
      EmitCaseBody(p.body, exp, index, w, t, m, tys);
      PopTypes(m, exp);
      more := CloseClause(skip, sites, st0, Seq(value, compare), Seq(erase, body), m, m + t, m + exp, exp);
      ProgressSeq(st, all, m, View(), erase, rest, m + t, more);
      EmitErase(index, m + t, t);
    }

    /** All cases of a `switch`, then its end label. */
    method EmitCases(exp: seq<Ty>, cases: Parts, slot: nat, ghost w: World, ghost t: seq<Ty>, ghost m: seq<Ty>, ghost tys: seq<Ty>)
      requires CheckParts(w, Case(t, exp), cases, tys) && |t| == 1 && |exp| <= 1 && slot < |m| && cases.Part? && cases.test.When?
      requires Open(m, scopes) && ScopesOk(m, scopes, tys) && Room(w, LowerCases(exp, cases, slot, m, scopes, tys), m)
      modifies this
      ensures View() == After(old(View()), Block(LowerCases(exp, cases, slot, m, old(scopes), tys), m + exp), m)
      ensures Open(m, old(scopes)) && maxDepth >= |m + exp|
      ensures AllSteady(cases) ==> |Short()| == |old(Short())| + CasesShort(cases, exp)
      decreases PartsSize(cases), 1
    {
      hide View, Short, After, SitesOf, Flatten, OutOf, PeakOf, Room, ResultOf, Check, LowerCases;
      ghost var sl, st, out := scopes, View(), m + exp;
      ghost var all := LowerCases(exp, cases, slot, m, sl, tys);
      var sites: seq<Field>, rest := [], cases;
      ProgressStart(st, all, m);
      while rest.Part? && rest.test.When?
        invariant AllSteady(cases) ==> AllSteady(rest) && |Short()| + CasesShort(rest, exp) == |old(Short())| + CasesShort(cases, exp)
        invariant PartsSize(rest) <= PartsSize(cases) && CheckParts(w, Case(t, exp), rest, tys)
        invariant Open(m, sl) && (rest == cases || maxDepth >= |out|)
        invariant Room(w, LowerCases(exp, rest, slot, m, sl, tys), m)
        invariant Progress(st, all, m, View(), LowerCases(exp, rest, slot, m, sl, tys), m, sites)
        decreases PartsSize(rest)
      {
        sites := EmitCase(exp, rest, slot, sites, st, all, w, t, m, tys);
        rest := rest.rest;
      }
      ghost var mid, last := View(), LowerCases(exp, rest, slot, m, sl, tys);
      EmitDefault(exp, rest, slot, w, t, m, tys);
      AfterSize(mid, last, m);
      DefaultEnds(w, exp, rest, slot, t, m, sl, tys);
      ProgressLast(st, all, m, mid, last, m, sites);
      BindBlock(sites, st, all, out, m);
    }

    method EmitSwitch(x: Expr, ghost w: World, ghost tys: seq<Ty>)
      requires x.Switch? && Check(w, x, tys) && maxDepth >= |stackTypes| && ScopesOk(stackTypes, scopes, tys)
      requires Room(w, Lower(x, stackTypes, scopes, tys), stackTypes)
      modifies this
      ensures View() == After(old(View()), Lower(x, old(stackTypes), old(scopes), tys), old(stackTypes))
      ensures stackTypes == old(stackTypes) + x.exp && scopes == old(scopes) && maxDepth >= |stackTypes|
      ensures Steady(x.value) && AllSteady(x.cases) ==> |Short()| == |old(Short())| + CasesShort(x.cases, x.exp) + |x.exp|
      decreases SizeOf(x), 0
    {
      hide View, Short, After, Flatten, OutOf, PeakOf, Room, ResultOf, LowerCases, CheckParts;
      ghost var m, sl, st, t := stackTypes, scopes, View(), ResultOf(x.value, tys);
      ghost var value, all := Lower(x.value, m, sl, tys), LowerCases(x.exp, x.cases, |m|, m + t, sl + [|m|], tys + t);
      ghost var block, erase := Block(all, m + t + x.exp), EraseSlot(|m|);
      RoomSeq(w, value, Seq(block, erase), m);
      LowerOut(w, x.value, m, sl, tys);
      RoomSeq(w, block, erase, m + t);
      RoomBlock(w, all, m + t + x.exp, m + t);
      ScopesOpen(m, t, sl, tys);
      EmitExpr(x.value, w, tys);
      var index := |stackTypes| - 1;
      scopes := scopes + [index];
      ghost var st1 := View();
      EmitCases(x.exp, x.cases, index, w, t, m + t, tys + t);
      scopes := scopes[..|scopes| - 1];
      BlockOut(all, m + t + x.exp, m + t);
      EmitErase(index, m + t + x.exp, x.exp);
      EraseType(index);
      assert Drop(m + t, index) == m;
      PushType(x.exp);
      SwitchDone(st, st1, x, value, all, t, m, View());
    }

    /** Behind the last case: the default body, or a failure when a value is needed. */
    method EmitDefault(exp: seq<Ty>, p: Parts, slot: nat, ghost w: World, ghost t: seq<Ty>, ghost m: seq<Ty>, ghost tys: seq<Ty>)
      requires CheckParts(w, Case(t, exp), p, tys) && (p.Part? ==> p.test.Always?) && |exp| <= 1
      requires Open(m, scopes) && ScopesOk(m, scopes, tys) && Room(w, LowerCases(exp, p, slot, m, scopes, tys), m)
      modifies this
      ensures View() == After(old(View()), LowerCases(exp, p, slot, m, old(scopes), tys), m) && Open(m, old(scopes))
      ensures (p.Part? ==> Steady(p.body)) ==> Short() == old(Short())
      decreases PartsSize(p), 0
    {
      hide View, Short, After, Room, Check, Valued, ResultOf;
      if p.Part? {
        EmitValued(p.body, exp, w, tys);
        PopTypes(m, exp);
      } else if exp == [] {
        AfterNop(View(), m);
      } else {
        EmitOp(NoMatch, 0);
      }
    }

    /** One weight of `random`: computed, checked, and added to the total below it. */
    method EmitWeight(exp: seq<Ty>, p: Parts, k: nat, base: nat, ghost st: State, ghost all: Node, ghost w: World, ghost m: seq<Ty>, ghost tys: seq<Ty>)
      requires p.Part? && CheckParts(w, Weighted(exp), p, tys) && base == |m|
      requires Open(m + Floats(1 + k), scopes) && ScopesOk(m, scopes, tys) && Room(w, LowerWeights(p, k, m, scopes, tys), m + Floats(1 + k))
      requires Progress(st, all, m + Floats(1), View(), LowerWeights(p, k, m, scopes, tys), m + Floats(1 + k), [])
      modifies this
      ensures Open(m + Floats(2 + k), old(scopes)) && Room(w, LowerWeights(p.rest, k + 1, m, scopes, tys), m + Floats(2 + k))
      ensures Progress(st, all, m + Floats(1), View(), LowerWeights(p.rest, k + 1, m, scopes, tys), m + Floats(2 + k), [])
      ensures FirstSteady(p) ==> Short() == old(Short())
      decreases PartsSize(p), 0
    {
      hide View, Short, After, SitesOf, Flatten, OutOf, PeakOf, Room, ResultOf, Check, Valued, Progress, Pack2, Leads, Closed;
      ghost var sl, here, next, start := scopes, m + Floats(1 + k), m + Floats(2 + k), m + Floats(1);
      var c := p.test.cond;
      ghost var weight, check, add := Valued(c, [TFloat], here, sl, tys), Op1(CheckWeight, 0), if k == 0 then Nop else Op1(AddToSlot, Pack2(|m| + 1 + k, |m| + k));
      ghost var rest := LowerWeights(p.rest, k + 1, m, sl, tys);
      RoomSeq(w, weight, Seq(check, Seq(add, rest)), here);
      ScopesUnder(m, Floats(1 + k), sl, tys);
      ValuedTyped(w, c, [TFloat], here, sl, tys);
      FloatAbove(m, 1 + k);
      LeadsClosed(w, weight, here, next);
      RoomSize(w, Seq(check, Seq(add, rest)), next);
      WeightOps(w, m, k);
      LeadsClosed(w, check, next, next);
      LeadsClosed(w, add, next, next);
      RoomSeq(w, check, Seq(add, rest), next);
      RoomSeq(w, add, rest, next);
      ProgressSeq(st, all, start, View(), weight, Seq(check, Seq(add, rest)), here, []);
      EmitValued(c, [TFloat], w, tys);
      ProgressSeq(st, all, start, View(), check, Seq(add, rest), next, []);
      EmitOp(CheckWeight, 0);
      ProgressSeq(st, all, start, View(), add, rest, next, []);
      if k > 0 { EmitOp(AddToSlot, Pack2(base + 1 + k, base + k)); } else { AfterNop(View(), next); }
    }

    /** One branch of `random`; as in `switch`, its value's type is popped before the jump to the end. */
    method EmitBranch(exp: seq<Ty>, p: Parts, k: nat, base: nat, sites: seq<Field>, ghost n: nat, ghost st: State, ghost all: Node, ghost w: World,
                      ghost m: seq<Ty>, ghost tys: seq<Ty>) returns (more: seq<Field>)
      requires p.Part? && CheckParts(w, Weighted(exp), p, tys) && |exp| <= 1 && base == |m| && k + CountParts(p) == n
      requires Open(m + Floats(1 + n), scopes) && ScopesOk(m, scopes, tys)
      requires Room(w, LowerBranches(exp, p, k, n, m, scopes, tys), m + Floats(1 + n))
      requires Progress(st, all, m + Floats(1 + n), View(), LowerBranches(exp, p, k, n, m, scopes, tys), m + Floats(1 + n), sites)
      modifies this
      ensures Open(m + Floats(1 + n), old(scopes)) && maxDepth >= |m + Floats(1 + n) + exp|
      ensures Room(w, LowerBranches(exp, p.rest, k + 1, n, m, scopes, tys), m + Floats(1 + n))
      ensures Progress(st, all, m + Floats(1 + n), View(), LowerBranches(exp, p.rest, k + 1, n, m, scopes, tys), m + Floats(1 + n), more)
      ensures |steps| >= 1 && (FirstSteady(p) ==> Short() == old(Short()) + if exp == [] then [] else [|steps| - 1])
      decreases PartsSize(p), 0
    {
      hide View, Short, After, SitesOf, Flatten, OutOf, PeakOf, Room, ResultOf, Check, Valued, Progress, Pack2, Leads, Closed, Clause, Floats, Lower, Size, SiteField;
      ghost var sl, here, st0 := scopes, m + Floats(1 + n), View();
      ghost var test, value := Op1(CompareLessEq, Pack2(|m|, |m| + 1 + k)), Valued(p.body, exp, here, sl, tys);
      ghost var clause, rest := Clause(test, value, here), LowerBranches(exp, p.rest, k + 1, n, m, sl, tys);
      RoomSeq(w, clause, rest, here);
      RoomSize(w, clause, here);
      LessTyped(w, m, n, k);
      LeadsClosed(w, test, here, here + [TBool]);
      RoomClause(w, test, value, here, here);
      ScopesUnder(m, Floats(1 + n), sl, tys);
      ValuedTyped(w, p.body, exp, here, sl, tys);
      LeadsClosed(w, value, here, here + exp);
      ClauseOutIs(test, value, here);
      ProgressSeq(st, all, here, st0, clause, rest, here, sites);
      EmitOp(CompareLessEq, Pack2(base, base + 1 + k));
      TopIs(here, TBool);
      AfterSize(st0, test, here);
      var skip := JumpTo(CondJump, 0, 0, [], here + [TBool], []);
      assert [] + [SiteField(|st0.cmds| + Size(test), CondJump)] == [SiteField(|st0.cmds| + Size(test), CondJump)];
      EmitValued(p.body, exp, w, tys);
      PopTypes(here, exp);
      more := CloseClause(skip, sites, st0, test, value, here, here, here + exp, exp);
    }

    /** Erases roll and weights from the top down, under the chosen value. */
    method EmitErases(base: nat, count: nat, ghost m: seq<Ty>, ghost exp: seq<Ty>)
      requires stackTypes == m + Floats(1 + count) && base == |m| && maxDepth >= |stackTypes + exp|
      modifies this`cmds, this`stackTypes, this`steps
      ensures View() == After(old(View()), EraseDown(base, count), m + Floats(1 + count) + exp)
      ensures stackTypes == m && maxDepth >= |m + exp|
      ensures |steps| == |old(steps)| + 1 + count && |Short()| == |old(Short())| + if exp == [] then 0 else 1 + count
    {
      hide View, Short, After, OutOf, SitesOf, Flatten;
      ghost var st, here := View(), m + Floats(1 + count) + exp;
      var k: nat := count;
      ProgressStart(st, EraseDown(base, count), here);
      while k > 0
        invariant |steps| == |old(steps)| + count - k && |Short()| == |old(Short())| + if exp == [] then 0 else count - k
        invariant k <= count && stackTypes == m + Floats(1 + k)
        invariant Progress(st, EraseDown(base, count), here, View(), EraseDown(base, k), m + Floats(1 + k) + exp, [])
      {
        ghost var now := m + Floats(1 + k) + exp;
        EraseTop(m, k, exp);
        PlainClosed(EraseSlot(base + k));
        ProgressSeq(st, EraseDown(base, count), here, View(), EraseSlot(base + k), EraseDown(base, k - 1), now, []);
        EmitErase(base + k, now, exp);
        EraseType(base + k);
        k := k - 1;
      }
      ghost var mid := View();
      EraseTop(m, 0, exp);
      PlainClosed(EraseSlot(base));
      ProgressLast(st, EraseDown(base, count), here, mid, EraseSlot(base), m + Floats(1) + exp, []);
      EmitErase(base, m + Floats(1) + exp, exp);
      EraseType(base);
      assert Floats(0) == [] && m + Floats(0) == m;
    }

    /** Roll, weights and branches of `random`. */
    method EmitRandom(x: Expr, ghost w: World, ghost tys: seq<Ty>)
      requires x.Random? && Check(w, x, tys) && maxDepth >= |stackTypes| && ScopesOk(stackTypes, scopes, tys)
      requires Room(w, Lower(x, stackTypes, scopes, tys), stackTypes)
      modifies this
      ensures View() == After(old(View()), Lower(x, old(stackTypes), old(scopes), tys), old(stackTypes))
      ensures stackTypes == old(stackTypes) + x.exp && scopes == old(scopes) && maxDepth >= |stackTypes|
      ensures AllSteady(x.branches) ==> |Short()| == |old(Short())| + BranchesShort(x.branches, x.exp) + if x.exp == [] then 0 else 1 + CountParts(x.branches)
      decreases SizeOf(x), 0
    {
      hide View, Short, After, SitesOf, Flatten, OutOf, PeakOf, Room, ResultOf, Floats, CheckParts, LowerWeights, LowerBranches, EraseDown, Pack2, Leads, Lower, Check, ScopesOk, PrimOut;
      ghost var m, sl, st, n, exp := stackTypes, scopes, View(), CountParts(x.branches), x.exp;
      ghost var mw := m + Floats(1 + n);
      ghost var weights, scale := LowerWeights(x.branches, 0, m, sl, tys), Op1(MulIntoSlot, Pack2(|m|, |m| + n));
      ghost var block, erases := Block(LowerBranches(exp, x.branches, 0, n, m, sl, tys), mw + exp), EraseDown(|m|, n);
      ghost var picks := Seq(scale, Seq(block, erases));
      RandomShape(w, x, m, sl, tys);
      var base := |stackTypes|;
      EmitOp(Chance, x.seed);
      ghost var st1 := View();
      var count := EmitWeights(x, base, w, m, tys);
      ghost var st2 := View();
      EmitOp(MulIntoSlot, Pack2(base, base + count));
      ghost var st3 := View();
      EmitBranches(x, base, w, m, tys);
      ghost var st4 := View();
      EmitErases(base, count, m, exp);
      PushType(x.exp);
      BlockOut(LowerBranches(exp, x.branches, 0, n, m, sl, tys), mw + exp, mw);
      AfterSeq(st3, block, erases, mw);
      AfterSeq(st2, scale, Seq(block, erases), mw);
      AfterSeq(st1, weights, picks, m + Floats(1));
      AfterSeq(st, Op1(Chance, x.seed), Seq(weights, picks), m);
    }

    method EmitWeights(x: Expr, base: nat, ghost w: World, ghost m: seq<Ty>, ghost tys: seq<Ty>) returns (count: nat)
      requires x.Random? && CheckParts(w, Weighted(x.exp), x.branches, tys) && base == |m|
      requires Open(m + Floats(1), scopes) && ScopesOk(m, scopes, tys) && Room(w, LowerWeights(x.branches, 0, m, scopes, tys), m + Floats(1))
      modifies this
      ensures View() == After(old(View()), LowerWeights(x.branches, 0, m, old(scopes), tys), m + Floats(1))
      ensures count == CountParts(x.branches) && Open(m + Floats(1 + count), old(scopes))
      ensures AllSteady(x.branches) ==> Short() == old(Short())
      decreases PartsSize(x.branches), 1
    {
      hide View, Short, After, SitesOf, Flatten, OutOf, PeakOf, Room, ResultOf, Floats, Check;
      ghost var st, sl := View(), scopes;
      ghost var all := LowerWeights(x.branches, 0, m, sl, tys);
      var rest := x.branches;
      count := 0;
      ProgressStart(st, all, m + Floats(1));
      while rest.Part?
        invariant AllSteady(x.branches) ==> AllSteady(rest) && Short() == old(Short())
        invariant PartsSize(rest) <= PartsSize(x.branches) && CheckParts(w, Weighted(x.exp), rest, tys)
        invariant count + CountParts(rest) == CountParts(x.branches)
        invariant Open(m + Floats(1 + count), sl) && Room(w, LowerWeights(rest, count, m, sl, tys), m + Floats(1 + count))
        invariant Progress(st, all, m + Floats(1), View(), LowerWeights(rest, count, m, sl, tys), m + Floats(1 + count), [])
        decreases PartsSize(rest)
      {
        EmitWeight(x.exp, rest, count, base, st, all, w, m, tys);
        rest, count := rest.rest, count + 1;
      }
      ProgressEnd(st, all, m + Floats(1), View(), m + Floats(1 + count), []);
    }

    method EmitBranches(x: Expr, base: nat, ghost w: World, ghost m: seq<Ty>, ghost tys: seq<Ty>)
      requires x.Random? && x.branches.Part? && CheckParts(w, Weighted(x.exp), x.branches, tys) && base == |m| && |x.exp| <= 1
      requires var n := CountParts(x.branches);
        Open(m + Floats(1 + n), scopes) && ScopesOk(m, scopes, tys) && Room(w, LowerBranches(x.exp, x.branches, 0, n, m, scopes, tys), m + Floats(1 + n))
      modifies this
      ensures var n := CountParts(x.branches);
        && View() == After(old(View()), Block(LowerBranches(x.exp, x.branches, 0, n, m, old(scopes), tys), m + Floats(1 + n) + x.exp), m + Floats(1 + n))
        && Open(m + Floats(1 + n), old(scopes)) && maxDepth >= |m + Floats(1 + n) + x.exp|
      ensures AllSteady(x.branches) ==> |Short()| == |old(Short())| + BranchesShort(x.branches, x.exp)
      decreases PartsSize(x.branches), 1
    {
      hide View, Short, After, SitesOf, Flatten, OutOf, PeakOf, Room, ResultOf, Floats, Check;
      ghost var st, sl, n, exp := View(), scopes, CountParts(x.branches), x.exp;
      ghost var mw := m + Floats(1 + n);
      ghost var all := LowerBranches(exp, x.branches, 0, n, m, sl, tys);
      var rest, k, sites: seq<Field> := x.branches, 0, [];
      ProgressStart(st, all, mw);
      while rest.Part?
        invariant AllSteady(x.branches) ==> AllSteady(rest) && |Short()| + BranchesShort(rest, x.exp) == |old(Short())| + BranchesShort(x.branches, x.exp)
        invariant PartsSize(rest) <= PartsSize(x.branches) && CheckParts(w, Weighted(exp), rest, tys)
        invariant k + CountParts(rest) == n && (k == 0 || maxDepth >= |mw + exp|)
        invariant Open(mw, sl) && Room(w, LowerBranches(exp, rest, k, n, m, sl, tys), mw)
        invariant Progress(st, all, mw, View(), LowerBranches(exp, rest, k, n, m, sl, tys), mw, sites)
        decreases PartsSize(rest)
      {
        sites := EmitBranch(x.exp, rest, k, base, sites, n, st, all, w, m, tys);
        rest, k := rest.rest, k + 1;
      }
      ghost var mid, last := View(), LowerBranches(exp, rest, k, n, m, sl, tys);
      PlainClosed(last);
      AfterNop(mid, mw);
      ProgressLast(st, all, mw, mid, last, mw, sites);
      BindBlock(sites, st, all, mw + exp, mw);
    }

    /** Literals, reads of a scope, and reads through the context. */
    method EmitLeaf(x: Expr, ghost w: World, ghost tys: seq<Ty>)
      requires (x.Literal? || x.Outer? || x.Saved?) && Check(w, x, tys) && maxDepth >= |stackTypes| && ScopesOk(stackTypes, scopes, tys)
      modifies this
      ensures View() == After(old(View()), Lower(x, old(stackTypes), old(scopes), tys), old(stackTypes))
      ensures stackTypes == old(stackTypes) + ResultOf(x, tys) && scopes == old(scopes) && maxDepth >= |stackTypes|
      ensures Short() == old(Short())
    {
      hide View, Short, After;
      match x
      case Literal(push, arg) => EmitOp(push, arg);
      case Outer(up) => EmitOp(PushSlot, scopes[|scopes| - 1 - up]);
      case Saved(_, _, _) => EmitSaved(x);
    }

    /**
      Emits an expression: its commands with every inner label bound, the tables that go
      with them, the type of its result, and the deepest stack on the way.
    */
    method EmitExpr(x: Expr, ghost w: World, ghost tys: seq<Ty>)
      requires Check(w, x, tys) && maxDepth >= |stackTypes| && ScopesOk(stackTypes, scopes, tys)
      requires Room(w, Lower(x, stackTypes, scopes, tys), stackTypes)
      modifies this
      ensures View() == After(old(View()), Lower(x, old(stackTypes), old(scopes), tys), old(stackTypes))
      ensures stackTypes == old(stackTypes) + ResultOf(x, tys) && scopes == old(scopes) && maxDepth >= |stackTypes|
      ensures Steady(x) ==> Short() == old(Short())
      decreases SizeOf(x), 1
    {
      hide View, Short, After, Room, Lower, Check, ScopesOk;
      match x
      case Literal(_, _) => EmitLeaf(x, w, tys);
      case Outer(_) => EmitLeaf(x, w, tys);
      case Saved(_, _, _) => EmitLeaf(x, w, tys);
      case Native(_, _) => EmitNative(x, w, tys);
      case Logic(_, _, _) => EmitLogic(x, w, tys);
      case Total(_, _, _, _) => EmitTotal(x, w, tys);
      case Select(_, _) => EmitSelect(x, w, tys);
      case Sequence(_, _) => EmitSequence(x, w, tys);
      case Switch(_, _, _) => EmitSwitch(x, w, tys);
      case ValueOr(_, _, _, _) => EmitValueOr(x, w, tys);
      case Random(_, _, _) => EmitRandom(x, w, tys);
      case Within(_, _) => EmitWithin(x, w, tys);
      case WithinValid(_, _, _) => EmitWithinValid(x, w, tys);
      case Effects(_) =>
        EmitEffects(x, w, tys);
        assert old(stackTypes) + [] == old(stackTypes);
    }
  }

  lemma EraseTop(m: seq<Ty>, k: nat, exp: seq<Ty>)
    ensures Drop(m + Floats(1 + k) + exp, |m| + k) == m + Floats(k) + exp
    ensures OutOf(EraseSlot(|m| + k), m + Floats(1 + k) + exp) == m + Floats(k) + exp
    ensures Drop(m + Floats(1 + k), |m| + k) == m + Floats(k)
  {}

  /** Types and rooms of the parts of `random`. */
  lemma RandomShape(w: World, x: Expr, m: seq<Ty>, sl: seq<nat>, tys: seq<Ty>)
    requires x.Random? && Check(w, x, tys) && ScopesOk(m, sl, tys) && Room(w, Lower(x, m, sl, tys), m)
    ensures var n, exp := CountParts(x.branches), x.exp;
      var m1, mw := m + Floats(1), m + Floats(1 + n);
      var weights, scale := LowerWeights(x.branches, 0, m, sl, tys), Op1(MulIntoSlot, Pack2(|m|, |m| + n));
      && PrimOut(Chance, x.seed, m) == m1 && OutOf(Op1(Chance, x.seed), m) == m1
      && Room(w, weights, m1) && OutOf(weights, m1) == mw && OutOf(scale, mw) == mw && PrimOut(MulIntoSlot, Pack2(|m|, |m| + n), mw) == mw
      && Room(w, LowerBranches(exp, x.branches, 0, n, m, sl, tys), mw)
      && CheckParts(w, Weighted(exp), x.branches, tys) && x.branches.Part? && |exp| <= 1
      && Lower(x, m, sl, tys) ==
         Seq(Op1(Chance, x.seed), Seq(weights, Seq(scale, Seq(Block(LowerBranches(exp, x.branches, 0, n, m, sl, tys), mw + exp), EraseDown(|m|, n)))))
  {
    hide Leads, Room, ResultOf, CheckParts, LowerWeights, LowerBranches, Floats, EraseDown, Pack2;
    var exp, n := x.exp, CountParts(x.branches);
    var m1, mw := m + Floats(1), m + Floats(1 + n);
    var chance, weights, scale := Op1(Chance, x.seed), LowerWeights(x.branches, 0, m, sl, tys), Op1(MulIntoSlot, Pack2(|m|, |m| + n));
    var branches := LowerBranches(exp, x.branches, 0, n, m, sl, tys);
    var block, erases := Block(branches, mw + exp), EraseDown(|m|, n);
    RoomSeq(w, chance, Seq(weights, Seq(scale, Seq(block, erases))), m);
    ChanceTyped(w, m, x.seed);
    LeadsHere(w, chance, m, m1, []);
    RoomSeq(w, weights, Seq(scale, Seq(block, erases)), m1);
    WeightsTyped(w, exp, x.branches, 0, m, sl, tys);
    LeadsHere(w, weights, m1, mw, []);
    RoomSize(w, Seq(scale, Seq(block, erases)), mw);
    RoomSeq(w, scale, Seq(block, erases), mw);
    ScaleTyped(w, m, n);
    LeadsHere(w, scale, mw, mw, []);
    RoomSeq(w, block, erases, mw);
    RoomBlock(w, branches, mw + exp, mw);
  }

  /** The pieces of a `switch`, put together. */
  lemma SwitchDone(st: State, st1: State, x: Expr, value: Node, all: Node, t: seq<Ty>, m: seq<Ty>, end: State)
    requires x.Switch? && |t| == 1 && OutOf(value, m) == m + t && st1 == After(st, value, m)
    requires var block := Block(all, m + t + x.exp);
      var done := After(After(st1, block, m + t), EraseSlot(|m|), m + t + x.exp);
      done.depth >= |m + x.exp| && end == done.(depth := Max(done.depth, |m + x.exp|))
    ensures end == After(st, Seq(value, Seq(Block(all, m + t + x.exp), EraseSlot(|m|))), m)
  {
    hide After;
    var block := Block(all, m + t + x.exp);
    BlockOut(all, m + t + x.exp, m + t);
    AfterSeq(st1, block, EraseSlot(|m|), m + t);
    AfterSeq(st, value, Seq(block, EraseSlot(|m|)), m);
  }

  lemma AfterUnread(st: State, slot: nat, read: Command, ty: Ty, m: seq<Ty>)
    ensures After(st, Unread(slot, read, ty), m) ==
      State(st.cmds + [Command(PushContext, 0), read, Command(Erase, slot)], st.fields, st.pushes + [DeadPush(|st.cmds|, |st.cmds| + 2, slot)],
            Max(st.depth, |m| + 2), st.model + [m, m + [TContext], m + [TContext, ty]])
  {
    assert st.fields + [] == st.fields;
  }

  /** What is checked of a `value_or`, and its code. */
  lemma ValueOrParts(w: World, x: Expr, m: seq<Ty>, sl: seq<nat>, tys: seq<Ty>)
    requires x.ValueOr? && Check(w, x, tys)
    ensures Check(w, x.cond, tys) && ResultOf(x.cond, tys) == [TBool] && |x.exp| <= 1
    ensures Check(w, x.value, tys) && Convertible(ResultOf(x.value, tys), x.exp)
    ensures Check(w, x.default, tys) && Convertible(ResultOf(x.default, tys), x.exp)
    ensures Lower(x, m, sl, tys) ==
      Block(Seq(Clause(Lower(x.cond, m, sl, tys), Valued(x.value, x.exp, m, sl, tys), m), Valued(x.default, x.exp, m, sl, tys)), m + x.exp)
  {
    hide Valued;
  }

  lemma CollectOut(exp: seq<Ty>, m: seq<Ty>)
    requires Scalar(exp) && exp != []
    ensures PrimOut(if exp == [TBool] then AndBin else if exp == [TInt] then SumInt else Sum, 0, m + exp + exp) == m + exp
  {
    assert Init(m + exp + exp, 1) == m + exp && Init(m + exp + exp, 2) == m;
  }

  lemma CompareOut(slot: nat, m: seq<Ty>)
    ensures forall arg :: PrimOut(CompareEqual, arg, m) == m + [TBool]
  {}

  /** Types, rooms and labels of one case. */
  lemma CaseShape(w: World, exp: seq<Ty>, c: Expr, body: Expr, rest: Node, slot: nat, t: seq<Ty>, m: seq<Ty>, sl: seq<nat>, tys: seq<Ty>)
    requires Check(w, c, tys) && ResultOf(c, tys) == t && |t| == 1 && ScopesOk(m, sl, tys) && slot < |m|
    requires Check(w, body, tys) && Convertible(ResultOf(body, tys), exp)
    requires Room(w, Seq(Clause(Seq(Lower(c, m, sl, tys), Op1(CompareEqual, Pack2(slot, |m|))), Seq(EraseSlot(|m|), Valued(body, exp, m, sl, tys)), m + t),
                         Seq(EraseSlot(|m|), rest)), m)
    ensures var value, compare, erase, then_ := Lower(c, m, sl, tys), Op1(CompareEqual, Pack2(slot, |m|)), EraseSlot(|m|), Valued(body, exp, m, sl, tys);
      && Room(w, value, m) && OutOf(value, m) == m + t && Closed(Seq(value, compare)) && OutOf(Seq(value, compare), m) == m + t + [TBool]
      && OutOf(erase, m + t) == m && Room(w, then_, m) && Closed(Seq(erase, then_)) && OutOf(Seq(erase, then_), m + t) == m + exp
      && OutOf(Clause(Seq(value, compare), Seq(erase, then_), m + t), m) == m + t && Closed(erase) && Room(w, rest, m)
  {
    hide Check, Leads, Room, Lower, Valued, Pack2, ResultOf, Closed, Clause;
    var value, compare := Lower(c, m, sl, tys), Op1(CompareEqual, Pack2(slot, |m|));
    var erase, then_ := EraseSlot(|m|), Valued(body, exp, m, sl, tys);
    var clause := Clause(Seq(value, compare), Seq(erase, then_), m + t);
    RoomSeq(w, clause, Seq(erase, rest), m);
    RoomTest(w, value, compare, Seq(erase, then_), m, m + t);
    RoomSize(w, value, m);
    LowerTyped(w, c, m, sl, tys);
    LeadsClosed(w, value, m, m + t);
    CompareTyped(w, slot, m, t);
    LeadsSeq(w, value, compare, m, m + t, m + t + [TBool]);
    LeadsClosed(w, Seq(value, compare), m, m + t + [TBool]);
    RoomClause(w, Seq(value, compare), Seq(erase, then_), m, m + t);
    RoomSeq(w, erase, then_, m + t);
    DropsLast(w, m, t, []);
    assert m + t + [] == m + t && m + [] == m;
    LeadsClosed(w, erase, m + t, m);
    ValuedTyped(w, body, exp, m, sl, tys);
    LeadsSeq(w, erase, then_, m + t, m, m + exp);
    LeadsClosed(w, Seq(erase, then_), m + t, m + exp);
    ClauseOutIs(Seq(value, compare), Seq(erase, then_), m + t);
    RoomSeq(w, erase, rest, m + t);
  }

  lemma DefaultEnds(w: World, exp: seq<Ty>, p: Parts, slot: nat, t: seq<Ty>, m: seq<Ty>, sl: seq<nat>, tys: seq<Ty>)
    requires CheckParts(w, Case(t, exp), p, tys) && (p.Part? ==> p.test.Always?) && ScopesOk(m, sl, tys)
    requires Room(w, LowerCases(exp, p, slot, m, sl, tys), m)
    ensures Closed(LowerCases(exp, p, slot, m, sl, tys))
  {
    hide Check, Room, Valued, ResultOf, Leads, SitesOf;
    if p.Part? {
      ValuedTyped(w, p.body, exp, m, sl, tys);
      LeadsClosed(w, Valued(p.body, exp, m, sl, tys), m, m + exp);
    } else {
      PlainClosed(Nop);
      PlainClosed(Op1(NoMatch, 0));
    }
  }

  lemma PlainClosed(n: Node)
    requires n.Nop? || n.Do? || n.Unread? || n.Stuck?
    ensures Closed(n)
  {}

  /** The last node of a body, emitted. */
  lemma ProgressLast(st0: State, all: Node, m0: seq<Ty>, st: State, node: Node, m: seq<Ty>, sites: seq<Field>)
    requires Progress(st0, all, m0, st, node, m, sites) && Closed(node)
    ensures After(st, node, m) == After(st0, all, m0) && sites == SitesOf(all, |st0.cmds|, 0)
  {
    assert sites + [] == sites;
  }

  lemma BodyClosed(w: World, x: Expr, m: seq<Ty>, sl: seq<nat>, tys: seq<Ty>)
    requires (x.Within? || x.WithinValid?) && Check(w, x.scope, tys) && |ResultOf(x.scope, tys)| == 1 && ScopesOk(m, sl, tys)
    requires var t := ResultOf(x.scope, tys);
      Check(w, x.body, tys + t) && Room(w, Seq(Lower(x.body, m + t, sl + [|m|], tys + t), EraseSlot(|m|)), m + t)
    ensures var t := ResultOf(x.scope, tys); Closed(Seq(Lower(x.body, m + t, sl + [|m|], tys + t), EraseSlot(|m|)))
  {
    hide Leads, Room, ResultOf, Check, Lower, Closed;
    var t := ResultOf(x.scope, tys);
    WithinTyped(w, x.scope, x.body, x, m, sl, tys);
    LeadsClosed(w, Seq(Lower(x.body, m + t, sl + [|m|], tys + t), EraseSlot(|m|)), m + t, m + ResultOf(x.body, tys + t));
  }

  // --- shapes of lowered code ---------------------------------------------------------------

  lemma NativeChecked(w: World, x: Expr, tys: seq<Ty>)
    requires x.Native? && Check(w, x, tys)
    ensures CheckParts(w, Argument(x.sig.args), x.args, tys)
  {}

  lemma ArgChecked(w: World, types: seq<Ty>, p: Parts, tys: seq<Ty>)
    requires CheckParts(w, Argument(types), p, tys)
    ensures p.End? ==> types == []
    ensures p.Part? ==> types != [] && Check(w, p.body, tys) && ResultOf(p.body, tys) == types[..1] && CheckParts(w, Argument(types[1..]), p.rest, tys)
  {}

  lemma CallOut(x: Expr, m: seq<Ty>, sl: seq<nat>, tys: seq<Ty>)
    requires x.Native?
    ensures PrimOut(Call(x.sig), ScopeSlot(sl), m + x.sig.args) == m + ResultOf(x, tys)
  {
    assert Init(m + x.sig.args, |x.sig.args|) == m;
  }

  /** The code of the first of these terms. */
  function TermNode(op: Prim, ty: Ty, p: Parts, first: bool, m: seq<Ty>, sl: seq<nat>, tys: seq<Ty>): Node
    requires p.Part?
  {
    var here := if first then m else m + [ty];
    var code := TermCode(op, Valued(p.body, [ty], here, sl, tys), first);
    match p.test
    case Always => code
    case When(c) => Block(Seq(Lower(c, here, sl, tys), Seq(Exit(CondJump, 0, 0), code)), here)
  }

  lemma TermsAre(op: Prim, ty: Ty, p: Parts, first: bool, m: seq<Ty>, sl: seq<nat>, tys: seq<Ty>)
    requires p.Part?
    ensures LowerTerms(op, ty, p, first, m, sl, tys) == Seq(TermNode(op, ty, p, first, m, sl, tys), LowerTerms(op, ty, p.rest, false, m, sl, tys))
  {}

  lemma FoldOut(product: bool, op: Prim, ty: Ty, m: seq<Ty>)
    requires TotalOk(product, op, ty)
    ensures PrimOut(op, 0, m + [ty] + [ty]) == m + [ty]
  {
    assert Init(m + [ty] + [ty], 1) == m + [ty] && Init(m + [ty] + [ty], 2) == m;
  }

  lemma IdentityOut(product: bool, op: Prim, ty: Ty, m: seq<Ty>)
    requires TotalOk(product, op, ty)
    ensures OutOf(IdentityPush(product, ty), m) == m + [ty]
    ensures PrimOut(if ty == TInt then PushInt else PushFloat, 0, m) == m + [ty]
    ensures forall arg :: PrimOut(PushInt, arg, m) == m + [TInt] && PrimOut(PushFloat, arg, m) == m + [TFloat]
  {}

  lemma TermOut(w: World, product: bool, op: Prim, ty: Ty, p: Parts, first: bool, m: seq<Ty>, sl: seq<nat>, tys: seq<Ty>)
    requires p.Part? && TotalOk(product, op, ty) && CheckParts(w, Term([ty]), p, tys) && ScopesOk(m, sl, tys) && (first ==> p.test.Always?)
    requires Room(w, TermNode(op, ty, p, first, m, sl, tys), if first then m else m + [ty])
    ensures OutOf(TermNode(op, ty, p, first, m, sl, tys), if first then m else m + [ty]) == m + [ty]
    ensures Closed(TermNode(op, ty, p, first, m, sl, tys))
  {
    hide Check, Leads, Room, TotalOk, Valued, Lower, ResultOf, TermCode, Closed;
    var here := if first then m else m + [ty];
    var code := TermCode(op, Valued(p.body, [ty], here, sl, tys), first);
    if p.test.When? {
      var test := Lower(p.test.cond, here, sl, tys);
      ScopesUnder(m, [ty], sl, tys);
      RoomBlock(w, Seq(test, Seq(Exit(CondJump, 0, 0), code)), here, here);
      TestTyped(w, p.test.cond, [TBool], Seq(Exit(CondJump, 0, 0), code), here, sl, tys);
      RoomSkip(w, test, code, here, here);
      TermTyped(w, product, op, ty, p.body, false, m, sl, tys);
      SkipTyped(w, test, code, here);
    } else {
      TermTyped(w, product, op, ty, p.body, first, m, sl, tys);
    }
    LeadsClosed(w, TermNode(op, ty, p, first, m, sl, tys), here, m + [ty]);
  }

  lemma ScalarShort(exp: seq<Ty>)
    requires Scalar(exp)
    ensures |exp| <= 1
  {}

  function SelectClause(exp: seq<Ty>, p: Parts, m: seq<Ty>, sl: seq<nat>, tys: seq<Ty>): Node
    requires p.Part? && p.test.When?
  {
    Clause(Lower(p.test.cond, m, sl, tys), Valued(p.body, exp, m, sl, tys), m)
  }

  lemma SelectIs(exp: seq<Ty>, p: Parts, m: seq<Ty>, sl: seq<nat>, tys: seq<Ty>)
    requires p.Part? && p.test.When?
    ensures LowerSelect(exp, p, m, sl, tys) == Seq(SelectClause(exp, p, m, sl, tys), LowerSelect(exp, p.rest, m, sl, tys))
  {}

  lemma ClauseRoomTest(w: World, test: Node, body: Node, m: seq<Ty>)
    requires Room(w, Clause(test, body, m), m)
    ensures Room(w, test, m)
  {
    hide Room;
    var rest := Seq(Exit(CondJump, 0, 0), Seq(body, Exit(Jump, 0, 1)));
    RoomBlock(w, Seq(test, rest), m, m);
    RoomSeq(w, test, rest, m);
  }

  lemma ClauseOutIs(test: Node, body: Node, mid: seq<Ty>)
    ensures forall m :: OutOf(Clause(test, body, mid), m) == mid
  {}

  lemma JumpOut(body: Node, m: seq<Ty>, out: seq<Ty>)
    requires OutOf(body, m) == out
    ensures OutOf(Seq(body, Exit(Jump, 0, 0)), m) == out
  {}

  // --- the emitter's bookkeeping ----------------------------------------------------------------

  /** No branch in the node waits for a label outside it. */
  ghost predicate Closed(n: Node) { forall b: nat, l: nat :: SitesOf(n, b, l) == [] }

  lemma {:induction false} TypedClosed(w: World, n: Node, m: seq<Ty>, labels: seq<seq<Ty>>, b: nat, l: nat)
    requires Typed(w, n, m, labels) && l >= |labels|
    ensures SitesOf(n, b, l) == []
    decreases n
  {
    hide DoTyped, ExitTyped;
    match n
    case Seq(x, y) =>
      TypedClosed(w, x, m, labels, b, l);
      TypedClosed(w, y, OutOf(x, m), labels, b + Size(x), l);
    case Block(x, out) => TypedClosed(w, x, m, [out] + labels, b, l + 1);
    case _ =>
  }

  lemma LeadsClosed(w: World, n: Node, m: seq<Ty>, out: seq<Ty>)
    requires Leads(w, n, m, out)
    ensures Closed(n) && OutOf(n, m) == out
  {
    hide Typed, SitesOf;
    LeadsHere(w, n, m, out, []);
    IntoIs(w, n, m, [], out);
    forall b: nat, l: nat ensures SitesOf(n, b, l) == [] { TypedClosed(w, n, m, [], b, l); }
  }

  lemma LowerOut(w: World, x: Expr, m: seq<Ty>, sl: seq<nat>, tys: seq<Ty>)
    requires Check(w, x, tys) && ScopesOk(m, sl, tys) && Room(w, Lower(x, m, sl, tys), m)
    ensures OutOf(Lower(x, m, sl, tys), m) == m + ResultOf(x, tys) && Closed(Lower(x, m, sl, tys))
  {
    hide Lower, Check, Leads, Closed, Room, ResultOf;
    LowerTyped(w, x, m, sl, tys);
    LeadsClosed(w, Lower(x, m, sl, tys), m, m + ResultOf(x, tys));
  }

  lemma BlockOut(x: Node, out: seq<Ty>, m: seq<Ty>)
    ensures OutOf(Block(x, out), m) == out
  {}

  lemma ExitSites(op: Op, mode: int, l: nat, b: nat)
    ensures SitesOf(Exit(op, mode, l), b, l) == [SiteField(b, op)]
    ensures forall k: nat :: k != l ==> SitesOf(Exit(op, mode, l), b, k) == []
  {}

  lemma ClauseSites(test: Node, body: Node, b: nat)
    requires Closed(test) && Closed(body)
    ensures var inner := Seq(test, Seq(Exit(CondJump, 0, 0), Seq(body, Exit(Jump, 0, 1))));
      && SitesOf(inner, b, 0) == [SiteField(b + Size(test), CondJump)]
      && (forall mid :: SitesOf(Clause(test, body, mid), b, 0) == [SiteField(b + Size(test) + 1 + Size(body), Jump)])
  {
    hide SitesOf;
    var b1 := b + Size(test);
    var b2 := b1 + 1 + Size(body);
    var tail := Seq(body, Exit(Jump, 0, 1));
    var rest := Seq(Exit(CondJump, 0, 0), tail);
    forall l: nat | l < 2 ensures SitesOf(Seq(test, rest), b, l) == if l == 0 then [SiteField(b1, CondJump)] else [SiteField(b2, Jump)] {
      SitesSeq(body, Exit(Jump, 0, 1), b1 + 1, l);
      SitesSeq(Exit(CondJump, 0, 0), tail, b1, l);
      SitesSeq(test, rest, b, l);
      ExitSites(Jump, 0, 1, b2);
      ExitSites(CondJump, 0, 0, b1);
    }
    forall mid ensures SitesOf(Clause(test, body, mid), b, 0) == [SiteField(b2, Jump)] { BlockSites(Seq(test, rest), mid, b, 0); }
  }

  lemma BlockSites(x: Node, out: seq<Ty>, b: nat, l: nat)
    ensures SitesOf(Block(x, out), b, l) == SitesOf(x, b, l + 1)
  {}

  /** A skipped piece of code, emitted: what binding the skip label has to patch. */
  lemma SkipDone(st: State, test: Node, code: Node, here: seq<Ty>, skip: seq<Field>)
    requires OutOf(test, here) == here + [TBool] && Closed(test) && Closed(code)
    requires skip == [SiteField(|st.cmds| + Size(test), CondJump)]
    ensures var inner := Seq(test, Seq(Exit(CondJump, 0, 0), code));
      && SitesOf(inner, |st.cmds|, 0) == skip
      && After(st, inner, here) == After(After(After(st, test, here), Exit(CondJump, 0, 0), here + [TBool]), code, here)
  {
    hide After, OutOf, SitesOf, Size, SiteField;
    var leave, b := Exit(CondJump, 0, 0), |st.cmds|;
    AfterSeq(st, test, Seq(leave, code), here);
    AfterSeq(After(st, test, here), leave, code, here + [TBool]);
    ExitOutIs(CondJump, 0, 0, here + [TBool]);
    TopIs(here, TBool);
    SitesSeq(test, Seq(leave, code), b, 0);
    SitesSeq(leave, code, b + Size(test), 0);
    ExitSites(CondJump, 0, 0, b + Size(test));
  }

  /** Emission of `all`, begun in `st0`, has got to `st` with `node` still to come. */
  ghost predicate Progress(st0: State, all: Node, m0: seq<Ty>, st: State, node: Node, m: seq<Ty>, sites: seq<Field>) {
    && After(st0, all, m0) == After(st, node, m)
    && SitesOf(all, |st0.cmds|, 0) == sites + SitesOf(node, |st.cmds|, 0)
  }

  lemma ProgressStart(st: State, all: Node, m: seq<Ty>)
    ensures Progress(st, all, m, st, all, m, [])
  {}

  lemma ProgressSeq(st0: State, all: Node, m0: seq<Ty>, st: State, x: Node, y: Node, m: seq<Ty>, sites: seq<Field>)
    requires Progress(st0, all, m0, st, Seq(x, y), m, sites)
    ensures Progress(st0, all, m0, After(st, x, m), y, OutOf(x, m), sites + SitesOf(x, |st.cmds|, 0))
    ensures Closed(x) ==> Progress(st0, all, m0, After(st, x, m), y, OutOf(x, m), sites)
  {
    hide After, SitesOf, OutOf;
    AfterSeq(st, x, y, m);
    AfterSize(st, x, m);
    SitesSeq(x, y, |st.cmds|, 0);
    Concat(sites, SitesOf(x, |st.cmds|, 0), SitesOf(y, |st.cmds| + Size(x), 0));
    assert sites + [] == sites;
  }

  lemma ProgressEnd(st0: State, all: Node, m0: seq<Ty>, st: State, m: seq<Ty>, sites: seq<Field>)
    requires Progress(st0, all, m0, st, Nop, m, sites) && st.depth >= |m|
    ensures After(st0, all, m0) == st && SitesOf(all, |st0.cmds|, 0) == sites
  {
    hide After;
    AfterNop(st, m);
  }
}
