/**
  A nullable scope in an effect block, whose code does not keep the stack model when the
  handle is invalid.
*/
module BlockLimits {
  import opened Machine
  import opened Blocks
  import opened Lowering
  import opened LoweringTyped
  import opened LoweringMeans

  /** `scope ?= { effects }` in an effect block: there is no default value, and none is expected. */
  function VoidGuard(scope: Expr, body: Expr, m: seq<Ty>, sl: seq<nat>, tys: seq<Ty>): Node {
    var t := ResultOf(scope, tys);
    Seq(Lower(scope, m, sl, tys),
        Block(Seq(Exit(ScopeGuard, ModeOf(TNone), 0), Seq(Lower(body, m + t, sl + [|m|], tys + t), EraseSlot(|m|))), m))
  }

  /**
    When the scope's handle is invalid the guard still pushes a default, an invalid handle,
    and nothing removes it: the stack ends one slot deeper than the generator believes. It
    is balanced exactly when the handle is valid.
  */
  lemma VoidGuardBalance(w: World, scope: Expr, body: Expr, m: seq<Ty>, sl: seq<nat>, tys: seq<Ty>, sc: seq<Value>, s: seq<Value>, e: Env)
    requires Check(w, scope, tys) && |ResultOf(scope, tys)| == 1 && Ready(w, m, sl, tys, s, sc)
    requires var t := ResultOf(scope, tys); Check(w, body, tys + t) && ResultOf(body, tys + t) == []
    requires Room(w, VoidGuard(scope, body, m, sl, tys), m)
    requires var v := Meaning(w, scope, sc, e); v.Gives? && Meaning(w, body, sc + v.values, v.env).Gives?
    ensures var v := Meaning(w, scope, sc, e);
      && |v.values| == 1
      && (!w.valid(v.values[0]) ==> Exec(w, VoidGuard(scope, body, m, sl, tys), s, e) == Fell(s + [Invalid], v.env))
      && ((exists e' :: Exec(w, VoidGuard(scope, body, m, sl, tys), s, e) == Fell(s, e')) <==> w.valid(v.values[0]))
  {
    hide Room, Exec, Ready, ResultOf, Lower, Check, Meaning;
    var t, guard := ResultOf(scope, tys), Exit(ScopeGuard, ModeOf(TNone), 0);
    var inner := Seq(Lower(body, m + t, sl + [|m|], tys + t), EraseSlot(|m|));
    var block, n := Block(Seq(guard, inner), m), VoidGuard(scope, body, m, sl, tys);
    ChildMeans(w, scope, t, block, m, sl, tys, sc, s, e);
    var v := Meaning(w, scope, sc, e);
    assert v.values == [v.values[0]];
    RoomBlock(w, Seq(guard, inner), m, m + t);
    RoomSeq(w, guard, inner, m + t);
    ExitOutIs(ScopeGuard, ModeOf(TNone), 0, m + t);
    ExecSeq(w, Lower(scope, m, sl, tys), block, s, e);
    ExecBlock(w, Seq(guard, inner), m, s + v.values, v.env);
    ExecGuard(w, TNone, inner, s, v.values[0], v.env);
    BodyMeans(w, Within(scope, body), body, t, m, sl, tys, sc, s, v.values, v.env);
    EmptyOnTop(s);
    assert s + [Invalid] != s by { assert |s + [Invalid]| == |s| + 1; }
  }

  // --- such a block, at an input ---------------------------------------------------------------------

  /** A world of invalid handles. */
  const NOTHING_VALID: World := World(
    true, 0, 8, 0,
    (id, scope, args, e) => Raised(NoMatchingCase),
    (op, arg, aux, replies, s, e) => Abort(NoMatchingCase),
    (kind, slot, e) => Got(Object(0, 0)),
    (kind, slot) => Some(TObject(0)),
    v => false, v => false, v => 0, v => 0.0,
    (seed, e) => 0.0,
    (a, b) => a + b, (a, b) => a * b, (a, b) => a <= b, (a, b) => a == b,
    n => n as real, n => 0.0)

  const HANDLE: Expr := Saved(ArgValue, 0, TObject(0))

  function HandleCode(): Node {
    var inner := Seq(Exit(ScopeGuard, ModeOf(TNone), 0), Seq(Block(Nop, [TObject(0)]), EraseSlot(0)));
    Seq(Unread(0, Command(Read(ArgValue), 0), TObject(0)), Block(inner, []))
  }

  lemma HandleLowered()
    ensures VoidGuard(HANDLE, Effects(End), [], [], []) == HandleCode()
  {
    assert [] + [TObject(0)] == [TObject(0)] && [] + [0] == [0];
    assert LowerEffects(End, [TObject(0)], [0], [TObject(0)]) == Nop;
  }

  lemma HandlePeak()
    ensures PeakOf(HandleCode(), []) <= 2
  {
    var guard, tail := Exit(ScopeGuard, ModeOf(TNone), 0), Seq(Block(Nop, [TObject(0)]), EraseSlot(0));
    assert PeakOf(tail, [TObject(0)]) == 1;
    assert OutOf(guard, [TObject(0)]) == [TObject(0)] && PeakOf(guard, [TObject(0)]) == 1;
    assert PeakOf(Seq(guard, tail), [TObject(0)]) == 1;
    assert [] + [TObject(0)] == [TObject(0)];
  }

  /** `ctx:arg:x ?= {}` in an effect block, when the argument holds an invalid handle. */
  lemma VoidGuardLeaks(e: Env)
    ensures Exec(NOTHING_VALID, VoidGuard(HANDLE, Effects(End), [], [], []), [], e) == Fell([Invalid], e)
  {
    hide Exec, VoidGuard, PeakOf;
    HandleLowered();
    HandlePeak();
    var t := [TObject(0)];
    assert [] + t == t && [] + [Object(0, 0)] == [Object(0, 0)] && [] + [Invalid] == [Invalid];
    VoidGuardBalance(NOTHING_VALID, HANDLE, Effects(End), [], [], [], [], [], e);
  }
}
