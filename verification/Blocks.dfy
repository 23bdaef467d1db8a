/**
  Structured code: what the code generator emits for one block, with labels instead of
  command indexes. A `Block` owns one label, bound behind its last command, and `Exit`
  is a branch to the label of an enclosing block; this is the discipline of the emitter
  (make a label, jump to it, bind it). `Flatten` resolves the labels.

  `FlattenRuns` is the theorem of this file: placed anywhere in a program, the flat
  commands do what the structured code says, and at every command the run-time stack is
  the one the generator predicted.
*/
module Blocks {
  import opened Machine
  import opened Simulation

  datatype Node =
    | Nop
    | Stuck                                          // a place control does not reach
    | Do(cmd: Command)
    | Unread(slot: nat, read: Command, ty: Ty)       // context; read; erase: nothing uses the context
    | Seq(first: Node, rest: Node)
    | Exit(op: Op, mode: int, level: nat)
    | Block(body: Node, out: seq<Ty>)

  // --- flat commands -----------------------------------------------------------------

  function Size(n: Node): nat {
    match n
    case Nop => 0
    case Stuck => 0
    case Do(_) => 1
    case Unread(_, _, _) => 3
    case Seq(a, b) => Size(a) + Size(b)
    case Exit(_, _, _) => 1
    case Block(a, _) => Size(a)
  }

  function Branch(op: Op, mode: int, target: int): Command {
    if op.ScopeGuard? then Command(op, Pack2(target, mode)) else Command(op, target)
  }

  /** The target a label stands for; a label not bound yet is emitted as 0. */
  function Resolve(labels: seq<int>, l: nat): int { if l < |labels| then labels[l] else 0 }

  function Flatten(n: Node, base: nat, labels: seq<int>): (r: seq<Command>)
    ensures |r| == Size(n)
  {
    match n
    case Nop => []
    case Stuck => []
    case Do(cmd) => [cmd]
    case Unread(slot, read, _) => [Command(PushContext, 0), read, Command(Erase, slot)]
    case Seq(a, b) => Flatten(a, base, labels) + Flatten(b, base + Size(a), labels)
    case Exit(op, mode, l) => [Branch(op, mode, Resolve(labels, l))]
    case Block(a, _) => Flatten(a, base, [base + Size(a)] + labels)
  }

  // --- the compile-time stack -----------------------------------------------------------

  function Init<T>(s: seq<T>, n: nat): seq<T> { if n <= |s| then s[..|s| - n] else s }

  /** The types the frame's stack ends with. */
  predicate EndsWith(m: seq<Ty>, suffix: seq<Ty>) {
    |suffix| <= |m| && m[|m| - |suffix|..] == suffix
  }

  predicate HasType(m: seq<Ty>, slot: int, ty: Ty) { 0 <= slot < |m| && m[slot] == ty }

  function Drop(m: seq<Ty>, slot: int): seq<Ty> {
    if 0 <= slot < |m| then m[..slot] + m[slot + 1..] else m
  }

  function PrimOut(p: Prim, arg: int, m: seq<Ty>): seq<Ty> {
    match p
    case PushBool => m + [TBool]
    case PushInt => m + [TInt]
    case PushFloat => m + [TFloat]
    case PushSlot => m + [if 0 <= arg < |m| then m[arg] else TNone]
    case Not => Init(m, 1) + [TBool]
    case AndBin => Init(m, 2) + [TBool]
    case SumInt => Init(m, 2) + [TInt]
    case Sum => Init(m, 2) + [TFloat]
    case Mul => Init(m, 2) + [TFloat]
    case Cast(_, to) => Init(m, 1) + [to]
    case Return => Init(m, 1)
    case CompareEqual => m + [TBool]
    case CompareLessEq => m + [TBool]
    case Chance => m + [TFloat]
    case Call(sig) => Init(m, |sig.args|) + (if sig.ret.Some? then [sig.ret.value] else [])
    case _ => m
  }

  /** Numbers and truth values convert to each other, except that nothing is narrowed to an integer. */
  predicate Castable(from: Ty, to: Ty) {
    match to
    case TFloat => from == TInt || from == TBool
    case TInt => from == TBool
    case TBool => from == TInt || from == TFloat
    case _ => false
  }

  /** The operands an operation takes are where and what it needs them to be. */
  predicate PrimTyped(p: Prim, arg: int, m: seq<Ty>) {
    match p
    case PushBool => true
    case PushInt => true
    case PushFloat => true
    case Chance => true
    case NoMatch => true
    case Return => m != []
    case PushSlot => 0 <= arg < |m|
    case Not => EndsWith(m, [TBool])
    case AndBin => EndsWith(m, [TBool, TBool])
    case SumInt => EndsWith(m, [TInt, TInt])
    case Sum => EndsWith(m, [TFloat, TFloat])
    case Mul => EndsWith(m, [TFloat, TFloat])
    case Cast(from, to) => EndsWith(m, [from]) && Castable(from, to)
    case CheckWeight => EndsWith(m, [TFloat])
    case CompareEqual => 0 <= LowHalf(arg) < |m| && 0 <= HighHalf(arg) < |m|
    case CompareLessEq => HasType(m, LowHalf(arg), TFloat) && HasType(m, HighHalf(arg), TFloat)
    case AddToSlot => HasType(m, LowHalf(arg), TFloat) && HasType(m, HighHalf(arg), TFloat)
    case MulIntoSlot => HasType(m, LowHalf(arg), TFloat) && HasType(m, HighHalf(arg), TFloat)
    case Call(sig) => EndsWith(m, sig.args) && (sig.scope.Some? ==> HasType(m, arg, sig.scope.value))
    case _ => false
  }

  predicate DoTyped(c: Command, m: seq<Ty>) {
    match c.op
    case Basic(p) => PrimTyped(p, c.arg, m)
    case Erase => 0 <= c.arg < |m|
    case _ => false
  }

  function DoOut(c: Command, m: seq<Ty>): seq<Ty> {
    match c.op
    case Basic(p) => PrimOut(p, c.arg, m)
    case Erase => Drop(m, c.arg)
    case _ => m
  }

  /** The stack a branch arrives with at its label, and the one it continues with. */
  predicate ExitTyped(op: Op, mode: int, m: seq<Ty>, target: seq<Ty>) {
    match op
    case Jump => target == m
    case CondJump => EndsWith(m, [TBool]) && target == Init(m, 1)
    case CondJumpGet => EndsWith(m, [TBool]) && target == m
    case CondJumpTrueGet => EndsWith(m, [TBool]) && target == m
    case AndJump => EndsWith(m, [TBool, TBool]) && target == Init(m, 1)
    case OrJump => EndsWith(m, [TBool, TBool]) && target == Init(m, 1)
    case ScopeGuard => m != [] && target == Init(m, 1) + [TypeOf(DefaultOf(mode))]
    case _ => false
  }

  function ExitOut(op: Op, m: seq<Ty>): seq<Ty> {
    match op
    case CondJump => Init(m, 1)
    case AndJump => Init(m, 1)
    case OrJump => Init(m, 1)
    case _ => m
  }

  function OutOf(n: Node, m: seq<Ty>): seq<Ty> {
    match n
    case Nop => m
    case Stuck => m
    case Do(cmd) => DoOut(cmd, m)
    case Unread(_, _, ty) => m + [ty]
    case Seq(a, b) => OutOf(b, OutOf(a, m))
    case Exit(op, _, _) => ExitOut(op, m)
    case Block(_, out) => out
  }

  /** Whether control may reach the command behind the node. */
  predicate Falls(n: Node) {
    match n
    case Stuck => false
    case Do(cmd) => cmd.op != Basic(NoMatch)
    case Seq(a, b) => Falls(a) && Falls(b)
    case Exit(op, _, _) => !op.Jump?
    case _ => true
  }

  predicate Typed(w: World, n: Node, m: seq<Ty>, labels: seq<seq<Ty>>) {
    match n
    case Nop => true
    case Stuck => true
    case Do(cmd) => DoTyped(cmd, m)
    case Unread(slot, read, ty) => slot == |m| && read.op.Read? && w.slotType(read.op.kind, read.arg) == Some(ty)
    case Seq(a, b) => Typed(w, a, m, labels) && Typed(w, b, OutOf(a, m), labels)
    case Exit(op, mode, l) => l < |labels| && ExitTyped(op, mode, m, labels[l])
    case Block(a, out) => Typed(w, a, m, [out] + labels) && (Falls(a) ==> OutOf(a, m) == out)
  }

  /** The predicted types at every command, in order. */
  function ModelOf(n: Node, m: seq<Ty>): (r: seq<seq<Ty>>)
    ensures |r| == Size(n)
  {
    match n
    case Nop => []
    case Stuck => []
    case Do(_) => [m]
    case Unread(_, _, ty) => [m, m + [TContext], m + [TContext, ty]]
    case Seq(a, b) => ModelOf(a, m) + ModelOf(b, OutOf(a, m))
    case Exit(_, _, _) => [m]
    case Block(a, _) => ModelOf(a, m)
  }

  function Max(a: nat, b: nat): nat { if a < b then b else a }

  /** The deepest the predicted stack gets. */
  function PeakOf(n: Node, m: seq<Ty>): (r: nat)
    ensures r >= |m|
  {
    match n
    case Nop => |m|
    case Stuck => |m|
    case Do(cmd) => Max(|m|, |DoOut(cmd, m)|)
    case Unread(_, _, _) => |m| + 2
    case Seq(a, b) => Max(PeakOf(a, m), PeakOf(b, OutOf(a, m)))
    case Exit(_, _, _) => |m|
    case Block(a, _) => PeakOf(a, m)
  }

  // --- meaning of structured code ----------------------------------------------------------

  datatype Signal =
    | Fell(stack: seq<Value>, env: Env)
    | Left(level: nat, stack: seq<Value>, env: Env)
    | Threw(error: Error)
    | Undefined

  function ExecDo(w: World, c: Command, s: seq<Value>, e: Env): Signal {
    if IsCallbackOp(c.op) || Steers(c.op) then Undefined
    else match EffectOf(w, c, s, e)
      case Broken(err) => Threw(err)
      case Fine(s', e') => Fell(s', e')
  }

  function ExecUnread(w: World, slot: nat, read: Command, s: seq<Value>, e: Env): Signal {
    match ExecDo(w, Command(PushContext, 0), s, e)
    case Fell(s1, e1) =>
      (match ExecDo(w, read, s1, e1)
       case Fell(s2, e2) => ExecDo(w, Command(Erase, slot), s2, e2)
       case other => other)
    case other => other
  }

  function ExecExit(w: World, op: Op, mode: int, l: nat, s: seq<Value>, e: Env): Signal {
    if !Steers(op) then Undefined
    else match BranchStep(w, Branch(op, mode, 0), s, e)
      case Halt(err) => Threw(err)
      case Go(taken, s', e') => if taken then Left(l, s', e') else Fell(s', e')
  }

  /** Leaving through a block's own label is falling out of it. */
  function Caught(r: Signal): Signal {
    match r
    case Left(l, s, e) => if l == 0 then Fell(s, e) else Left(l - 1, s, e)
    case other => other
  }

  function Exec(w: World, n: Node, s: seq<Value>, e: Env): Signal {
    match n
    case Nop => Fell(s, e)
    case Stuck => Undefined
    case Do(cmd) => ExecDo(w, cmd, s, e)
    case Unread(slot, read, _) => ExecUnread(w, slot, read, s, e)
    case Seq(a, b) =>
      (match Exec(w, a, s, e)
       case Fell(s', e') => Exec(w, b, s', e')
       case other => other)
    case Exit(op, mode, l) => ExecExit(w, op, mode, l, s, e)
    case Block(a, _) => Caught(Exec(w, a, s, e))
  }

  // --- one operation on a stack of the predicted types --------------------------------------

  predicate Matches(w: World, s: seq<Value>, m: seq<Ty>) {
    |s| == w.base + |m| && TagsMatch(s[w.base..], m)
  }

  lemma MatchesAt(w: World, s: seq<Value>, m: seq<Ty>, k: nat)
    requires Matches(w, s, m) && k < |m|
    ensures TypeOf(s[w.base + k]) == m[k]
  {
    assert s[w.base..][k] == s[w.base + k];
  }

  lemma MatchesByIndex(w: World, s: seq<Value>, m: seq<Ty>)
    requires |s| == w.base + |m|
    requires forall k :: 0 <= k < |m| ==> TypeOf(s[w.base + k]) == m[k]
    ensures Matches(w, s, m)
  {
    forall k | 0 <= k < |m| ensures TypeOf(s[w.base..][k]) == m[k] { assert s[w.base..][k] == s[w.base + k]; }
  }

  lemma MatchesInit(w: World, s: seq<Value>, m: seq<Ty>, n: nat)
    requires Matches(w, s, m) && n <= |m|
    ensures Matches(w, s[..|s| - n], Init(m, n))
  {
    forall k: nat | k < |m| - n ensures TypeOf(s[..|s| - n][w.base + k]) == Init(m, n)[k] { MatchesAt(w, s, m, k); }
    MatchesByIndex(w, s[..|s| - n], Init(m, n));
  }

  lemma MatchesPush(w: World, s: seq<Value>, m: seq<Ty>, v: Value)
    requires Matches(w, s, m)
    ensures Matches(w, s + [v], m + [TypeOf(v)])
  {
    forall k: nat | k < |m| + 1 ensures TypeOf((s + [v])[w.base + k]) == (m + [TypeOf(v)])[k] {
      if k < |m| { MatchesAt(w, s, m, k); }
    }
    MatchesByIndex(w, s + [v], m + [TypeOf(v)]);
  }

  lemma MatchesSet(w: World, s: seq<Value>, m: seq<Ty>, k: nat, v: Value)
    requires Matches(w, s, m) && k < |m| && TypeOf(v) == m[k]
    ensures Matches(w, s[w.base + k := v], m)
  {
    forall j: nat | j < |m| ensures TypeOf(s[w.base + k := v][w.base + j]) == m[j] { MatchesAt(w, s, m, j); }
    MatchesByIndex(w, s[w.base + k := v], m);
  }

  lemma MatchesDrop(w: World, s: seq<Value>, m: seq<Ty>, k: nat)
    requires Matches(w, s, m) && k < |m|
    ensures Matches(w, EraseAt(s, k + w.base), Drop(m, k))
  {
    var s' := EraseAt(s, k + w.base);
    forall j: nat | j < |m| - 1 ensures TypeOf(s'[w.base + j]) == Drop(m, k)[j] {
      MatchesAt(w, s, m, if j < k then j else j + 1);
    }
    MatchesByIndex(w, s', Drop(m, k));
  }

  /** The arguments of a native function lie on top with the tags it asks for. */
  lemma MatchesEnd(w: World, s: seq<Value>, m: seq<Ty>, suffix: seq<Ty>)
    requires Matches(w, s, m) && EndsWith(m, suffix)
    ensures TagsMatch(s[|s| - |suffix|..], suffix)
  {
    forall k: nat | k < |suffix| ensures TypeOf(s[|s| - |suffix|..][k]) == suffix[k] {
      assert suffix[k] == m[|m| - |suffix| + k];
      MatchesAt(w, s, m, |m| - |suffix| + k);
    }
  }

  /** A native call on the arguments and the scope it was compiled for. */
  lemma CallTyped(w: World, sig: Signature, arg: int, s: seq<Value>, e: Env, m: seq<Ty>)
    requires Matches(w, s, m) && PrimTyped(Call(sig), arg, m)
    requires w.base + |PrimOut(Call(sig), arg, m)| <= w.capacity
    ensures var r := CallStep(w, sig, arg, s, e); r.Fine? ==> Matches(w, r.stack, PrimOut(Call(sig), arg, m))
  {
    hide Matches, TagsMatch;
    MatchesLength(w, s, m);
    MatchesInit(w, s, m, |sig.args|);
    var r := CallStep(w, sig, arg, s, e);
    assert Init(m, |sig.args|) + [] == Init(m, |sig.args|);
    if r.Fine? && sig.ret.Some? {
      MatchesPush(w, s[..|s| - |sig.args|], Init(m, |sig.args|), r.stack[|r.stack| - 1]);
    }
  }

  lemma CallEither(w: World, sig: Signature, arg: int, s: seq<Value>, e: Env, m: seq<Ty>)
    requires Matches(w, s, m) && PrimTyped(Call(sig), arg, m)
    ensures CallStep(w, sig, arg, s, e) == CallStep(w.(safe := !w.safe), sig, arg, s, e)
  {
    hide Matches, TagsMatch, EndsWith, OfType;
    MatchesLength(w, s, m);
    assert |sig.args| <= |m| by { EndLength(m, sig.args); }
    MatchesEnd(w, s, m, sig.args);
    if sig.scope.Some? { MatchesAt(w, s, m, arg); }
  }

  lemma EndLength(m: seq<Ty>, suffix: seq<Ty>)
    requires EndsWith(m, suffix)
    ensures |suffix| <= |m|
  {}

  lemma MatchesLength(w: World, s: seq<Value>, m: seq<Ty>)
    requires Matches(w, s, m)
    ensures |s| == w.base + |m|
  {}

  lemma TopTags(w: World, s: seq<Value>, m: seq<Ty>)
    requires Matches(w, s, m)
    ensures |m| >= 1 ==> TypeOf(s[|s| - 1]) == m[|m| - 1]
    ensures |m| >= 2 ==> TypeOf(s[|s| - 2]) == m[|m| - 2]
  {
    if |m| >= 1 { MatchesAt(w, s, m, |m| - 1); }
    if |m| >= 2 { MatchesAt(w, s, m, |m| - 2); }
  }

  /** Pops two operands and pushes a result. */
  lemma BinaryTyped(w: World, s: seq<Value>, m: seq<Ty>, v: Value)
    requires Matches(w, s, m) && |m| >= 2 && TypeOf(v) == m[|m| - 2]
    ensures Matches(w, s[..|s| - 1][..|s| - 2] + [v], Init(m, 1))
  {
    MatchesInit(w, s, m, 2);
    MatchesPush(w, s[..|s| - 2], Init(m, 2), v);
    assert s[..|s| - 1][..|s| - 2] == s[..|s| - 2];
    assert Init(m, 2) + [TypeOf(v)] == Init(m, 1);
  }

  lemma UnaryTyped(w: World, s: seq<Value>, m: seq<Ty>, v: Value)
    requires Matches(w, s, m) && |m| >= 1
    ensures Matches(w, s[..|s| - 1] + [v], Init(m, 1) + [TypeOf(v)])
  {
    MatchesInit(w, s, m, 1);
    MatchesPush(w, s[..|s| - 1], Init(m, 1), v);
  }

  lemma PushTyped(w: World, s: seq<Value>, m: seq<Ty>, v: Value, e: Env)
    requires Matches(w, s, m) && w.base + |m| < w.capacity
    ensures Push(w, s, v, e) == Fine(s + [v], e) && Matches(w, s + [v], m + [TypeOf(v)])
  {
    MatchesPush(w, s, m, v);
  }

  /** What one operation promises on operands of the predicted types: the safe and the unsafe variant agree. */
  ghost predicate OpHolds(w: World, p: Prim, arg: int, s: seq<Value>, e: Env, m: seq<Ty>) {
    var r := PrimStep(w, p, arg, s, e);
    && r == PrimStep(w.(safe := !w.safe), p, arg, s, e)
    && (r.Fine? ==> !p.NoMatch? && Matches(w, r.stack, PrimOut(p, arg, m)))
  }

  ghost predicate OpReady(w: World, p: Prim, arg: int, s: seq<Value>, m: seq<Ty>) {
    && Matches(w, s, m) && PrimTyped(p, arg, m)
    && w.base + |m| <= w.capacity && w.base + |PrimOut(p, arg, m)| <= w.capacity
  }

  lemma CompareOpTyped(w: World, p: Prim, arg: int, s: seq<Value>, e: Env, m: seq<Ty>)
    requires OpReady(w, p, arg, s, m) && (p.CompareEqual? || p.CompareLessEq?)
    ensures OpHolds(w, p, arg, s, e, m)
  {
    hide LowHalf, HighHalf, SameValue, Matches, Push;
    MatchesLength(w, s, m);
    var a, b := LowHalf(arg), HighHalf(arg);
    MatchesAt(w, s, m, a);
    MatchesAt(w, s, m, b);
    if p.CompareEqual? { PushTyped(w, s, m, Bool(SameValue(w, s[a + w.base], s[b + w.base])), e); SameEither(w, s[a + w.base], s[b + w.base]); }
    else { PushTyped(w, s, m, Bool(w.lessEq(s[a + w.base].r, s[b + w.base].r)), e); }
    PushEither(w, s, e);
  }

  lemma SameEither(w: World, a: Value, b: Value)
    ensures SameValue(w, a, b) == SameValue(w.(safe := !w.safe), a, b)
  {}

  lemma PushEither(w: World, s: seq<Value>, e: Env)
    ensures forall v :: Push(w, s, v, e) == Push(w.(safe := !w.safe), s, v, e)
  {}

  lemma StoreOpTyped(w: World, p: Prim, arg: int, s: seq<Value>, e: Env, m: seq<Ty>)
    requires OpReady(w, p, arg, s, m) && (p.AddToSlot? || p.MulIntoSlot?)
    ensures OpHolds(w, p, arg, s, e, m)
  {
    hide LowHalf, HighHalf, Matches;
    MatchesLength(w, s, m);
    var a, b := LowHalf(arg), HighHalf(arg);
    MatchesAt(w, s, m, a);
    MatchesAt(w, s, m, b);
    var x, y := s[a + w.base].r, s[b + w.base].r;
    MatchesSet(w, s, m, a, Float(if p.AddToSlot? then w.add(x, y) else w.mul(x, y)));
  }

  predicate IsPush(p: Prim) { p.PushSlot? || p.PushBool? || p.PushInt? || p.PushFloat? || p.Chance? }

  lemma PushOpTyped(w: World, p: Prim, arg: int, s: seq<Value>, e: Env, m: seq<Ty>)
    requires OpReady(w, p, arg, s, m) && IsPush(p)
    ensures OpHolds(w, p, arg, s, e, m)
  {
    hide Matches, Push;
    MatchesLength(w, s, m);
    PushEither(w, s, e);
    match p
    case PushSlot =>
      MatchesAt(w, s, m, arg);
      PushTyped(w, s, m, s[arg + w.base], e);
    case PushBool => PushTyped(w, s, m, Bool(arg != 0), e);
    case PushInt => PushTyped(w, s, m, Int(arg), e);
    case PushFloat => PushTyped(w, s, m, Float(w.unpack(arg)), e);
    case Chance => PushTyped(w, s, m, Float(w.chance(arg, e)), e);
  }

  // Reading a value with the expected tag succeeds in either mode.

  lemma PopBoolTyped(w: World, s: seq<Value>)
    requires |s| > 0 && TypeOf(s[|s| - 1]) == TBool
    ensures PopBool(w, s) == Popped(s[|s| - 1].b, s[..|s| - 1])
  {}

  lemma PopIntTyped(w: World, s: seq<Value>)
    requires |s| > 0 && TypeOf(s[|s| - 1]) == TInt
    ensures PopInt(w, s) == Popped(s[|s| - 1].i, s[..|s| - 1])
  {}

  lemma PopFloatTyped(w: World, s: seq<Value>)
    requires |s| > 0 && TypeOf(s[|s| - 1]) == TFloat
    ensures PopFloat(w, s) == Popped(s[|s| - 1].r, s[..|s| - 1])
  {}

  lemma NotTyped(w: World, s: seq<Value>, e: Env, m: seq<Ty>)
    requires Matches(w, s, m) && EndsWith(m, [TBool]) && w.base + |m| <= w.capacity
    ensures PrimStep(w, Not, 0, s, e) == Fine(s[..|s| - 1] + [Bool(!s[|s| - 1].b)], e)
    ensures Matches(w, s[..|s| - 1] + [Bool(!s[|s| - 1].b)], m) && Init(m, 1) + [TBool] == m
  {
    hide Matches, PopBool;
    MatchesLength(w, s, m);
    TopTags(w, s, m);
    PopBoolTyped(w, s);
    UnaryTyped(w, s, m, Bool(!s[|s| - 1].b));
    assert Init(m, 1) + [TBool] == m;
  }

  lemma CastTyped(w: World, from: Ty, to: Ty, s: seq<Value>, e: Env, m: seq<Ty>)
    requires Matches(w, s, m) && EndsWith(m, [from]) && Castable(from, to) && w.base + |m| <= w.capacity
    ensures s != [] && PrimStep(w, Cast(from, to), 0, s, e) == Fine(s[..|s| - 1] + [CastTo(w, to, s[|s| - 1])], e)
    ensures Matches(w, s[..|s| - 1] + [CastTo(w, to, s[|s| - 1])], Init(m, 1) + [to])
  {
    hide Matches;
    MatchesLength(w, s, m);
    TopTags(w, s, m);
    UnaryTyped(w, s, m, CastTo(w, to, s[|s| - 1]));
  }

  lemma MatchesEither(w: World, s: seq<Value>, m: seq<Ty>)
    ensures Matches(w, s, m) <==> Matches(w.(safe := !w.safe), s, m)
  {}

  lemma UnaryOpTyped(w: World, p: Prim, arg: int, s: seq<Value>, e: Env, m: seq<Ty>)
    requires OpReady(w, p, arg, s, m) && (p.Not? || p.Cast?)
    ensures OpHolds(w, p, arg, s, e, m)
  {
    hide Matches, EndsWith, Pop, Push, Init;
    MatchesEither(w, s, m);
    var u := w.(safe := !w.safe);
    if p.Not? {
      NotTyped(w, s, e, m);
      NotTyped(u, s, e, m);
    } else {
      CastTyped(w, p.from, p.to, s, e, m);
      CastTyped(u, p.from, p.to, s, e, m);
    }
  }

  lemma CheckOpTyped(w: World, p: Prim, arg: int, s: seq<Value>, e: Env, m: seq<Ty>)
    requires OpReady(w, p, arg, s, m) && (p.CheckWeight? || p.NoMatch? || p.Return?)
    ensures OpHolds(w, p, arg, s, e, m)
  {
    hide Matches;
    MatchesLength(w, s, m);
    TopTags(w, s, m);
    if p.Return? { MatchesInit(w, s, m, 1); }
  }

  /** Two operands of one type replaced by a result of that type. */
  lemma OneLess(m: seq<Ty>, ty: Ty)
    requires EndsWith(m, [ty, ty])
    ensures Init(m, 2) + [ty] == Init(m, 1)
  {
    assert m[|m| - 2..][0] == ty;
  }

  lemma BinaryOpTyped(w: World, p: Prim, arg: int, s: seq<Value>, e: Env, m: seq<Ty>)
    requires OpReady(w, p, arg, s, m) && (p.AndBin? || p.SumInt? || p.Sum? || p.Mul?)
    ensures OpHolds(w, p, arg, s, e, m)
  {
    hide Matches, PopBool, PopInt, PopFloat;
    MatchesLength(w, s, m);
    TopTags(w, s, m);
    assert |m| >= 2 && m[|m| - 2..] == [m[|m| - 2], m[|m| - 1]];
    var u, r := w.(safe := !w.safe), s[..|s| - 1];
    var x, y := s[|s| - 2], s[|s| - 1];
    assert r[|r| - 1] == x;
    OneLess(m, if p.AndBin? then TBool else if p.SumInt? then TInt else TFloat);
    match p
    case AndBin =>
      PopBoolTyped(w, s); PopBoolTyped(u, s); PopBoolTyped(w, r); PopBoolTyped(u, r);
      BinaryTyped(w, s, m, Bool(x.b && y.b));
    case SumInt =>
      PopIntTyped(w, s); PopIntTyped(u, s); PopIntTyped(w, r); PopIntTyped(u, r);
      BinaryTyped(w, s, m, Int(WrapInt(x.i + y.i)));
    case Sum =>
      PopFloatTyped(w, s); PopFloatTyped(u, s); PopFloatTyped(w, r); PopFloatTyped(u, r);
      BinaryTyped(w, s, m, Float(w.add(x.r, y.r)));
    case Mul =>
      PopFloatTyped(w, s); PopFloatTyped(u, s); PopFloatTyped(w, r); PopFloatTyped(u, r);
      BinaryTyped(w, s, m, Float(w.mul(x.r, y.r)));
  }

  lemma PrimHolds(w: World, p: Prim, arg: int, s: seq<Value>, e: Env, m: seq<Ty>)
    requires OpReady(w, p, arg, s, m)
    ensures OpHolds(w, p, arg, s, e, m)
  {
    hide Matches, CallStep, EndsWith, LowHalf, HighHalf, PrimOut;
    match p
    case Call(sig) =>
      CallTyped(w, sig, arg, s, e, m);
      CallEither(w, sig, arg, s, e, m);
    case CompareEqual => CompareOpTyped(w, p, arg, s, e, m);
    case CompareLessEq => CompareOpTyped(w, p, arg, s, e, m);
    case AddToSlot => StoreOpTyped(w, p, arg, s, e, m);
    case MulIntoSlot => StoreOpTyped(w, p, arg, s, e, m);
    case Not => UnaryOpTyped(w, p, arg, s, e, m);
    case Cast(_, _) => UnaryOpTyped(w, p, arg, s, e, m);
    case CheckWeight => CheckOpTyped(w, p, arg, s, e, m);
    case NoMatch => CheckOpTyped(w, p, arg, s, e, m);
    case Return => CheckOpTyped(w, p, arg, s, e, m);
    case AndBin => BinaryOpTyped(w, p, arg, s, e, m);
    case SumInt => BinaryOpTyped(w, p, arg, s, e, m);
    case Sum => BinaryOpTyped(w, p, arg, s, e, m);
    case Mul => BinaryOpTyped(w, p, arg, s, e, m);
    case _ => PushOpTyped(w, p, arg, s, e, m);
  }

  /** A branch on operands of the predicted types keeps the prediction on both sides. */
  ghost predicate BranchHolds(w: World, op: Op, mode: int, s: seq<Value>, e: Env, m: seq<Ty>, target: seq<Ty>)
    requires Steers(op)
  {
    var r := BranchStep(w, Branch(op, mode, 0), s, e);
    && r == BranchStep(w.(safe := !w.safe), Branch(op, mode, 0), s, e)
    && (r.Go? && r.taken ==> Matches(w, r.stack, target))
    && (r.Go? && !r.taken ==> !op.Jump? && Matches(w, r.stack, ExitOut(op, m)))
  }

  ghost predicate BranchReady(w: World, op: Op, mode: int, s: seq<Value>, m: seq<Ty>, target: seq<Ty>) {
    Matches(w, s, m) && ExitTyped(op, mode, m, target) && w.base + |m| <= w.capacity
  }

  lemma BranchTestTyped(w: World, op: Op, mode: int, s: seq<Value>, e: Env, m: seq<Ty>, target: seq<Ty>)
    requires BranchReady(w, op, mode, s, m, target) && (op.CondJump? || op.CondJumpGet? || op.CondJumpTrueGet?)
    ensures BranchHolds(w, op, mode, s, e, m, target)
  {
    hide Matches, PopBool;
    MatchesLength(w, s, m);
    TopTags(w, s, m);
    PopBoolTyped(w, s);
    PopBoolTyped(w.(safe := !w.safe), s);
    MatchesInit(w, s, m, 1);
  }

  lemma CombineTyped(w: World, op: Op, mode: int, s: seq<Value>, e: Env, m: seq<Ty>, target: seq<Ty>)
    requires BranchReady(w, op, mode, s, m, target) && (op.AndJump? || op.OrJump?)
    ensures BranchHolds(w, op, mode, s, e, m, target)
  {
    hide Matches, PopBool;
    MatchesLength(w, s, m);
    TopTags(w, s, m);
    assert |m| >= 2 && m[|m| - 2..] == [m[|m| - 2], m[|m| - 1]];
    var u, r := w.(safe := !w.safe), s[..|s| - 1];
    var x, y := s[|s| - 2], s[|s| - 1];
    assert r[|r| - 1] == x;
    PopBoolTyped(w, s);
    PopBoolTyped(u, s);
    PopBoolTyped(w, r);
    PopBoolTyped(u, r);
    BinaryTyped(w, s, m, Bool(if op.AndJump? then x.b && y.b else x.b || y.b));
  }

  lemma GuardTyped(w: World, mode: int, s: seq<Value>, e: Env, m: seq<Ty>, target: seq<Ty>)
    requires BranchReady(w, ScopeGuard, mode, s, m, target)
    ensures BranchHolds(w, ScopeGuard, mode, s, e, m, target)
  {
    hide Matches, HighHalf;
    MatchesLength(w, s, m);
    Unpack2(0, mode);
    UnaryTyped(w, s, m, DefaultOf(mode));
  }

  lemma BranchTyped(w: World, op: Op, mode: int, s: seq<Value>, e: Env, m: seq<Ty>, target: seq<Ty>)
    requires BranchReady(w, op, mode, s, m, target)
    ensures Steers(op) && BranchHolds(w, op, mode, s, e, m, target)
  {
    hide Matches;
    match op
    case Jump =>
    case AndJump => CombineTyped(w, op, mode, s, e, m, target);
    case OrJump => CombineTyped(w, op, mode, s, e, m, target);
    case ScopeGuard => GuardTyped(w, mode, s, e, m, target);
    case _ => BranchTestTyped(w, op, mode, s, e, m, target);
  }

  // --- structured code keeps the prediction -----------------------------------------------------

  /** Whichever way a node is left, the stack is the one predicted there. */
  ghost predicate Keeps(w: World, x: Signal, falls: bool, out: seq<Ty>, types: seq<seq<Ty>>) {
    match x
    case Fell(s, _) => falls && Matches(w, s, out)
    case Left(l, s, _) => l < |types| && Matches(w, s, types[l])
    case Threw(_) => true
    case Undefined => true
  }

  lemma DoKeeps(w: World, cmd: Command, m: seq<Ty>, s: seq<Value>, e: Env)
    requires DoTyped(cmd, m) && Matches(w, s, m) && w.base + Max(|m|, |DoOut(cmd, m)|) <= w.capacity
    ensures Keeps(w, ExecDo(w, cmd, s, e), cmd.op != Basic(NoMatch), DoOut(cmd, m), [])
    ensures ExecDo(w, cmd, s, e) == ExecDo(w.(safe := !w.safe), cmd, s, e)
  {
    hide PrimStep, Matches, PrimTyped, PrimOut;
    if cmd.op.Erase? { MatchesDrop(w, s, m, cmd.arg); }
    else { PrimHolds(w, cmd.op.prim, cmd.arg, s, e, m); }
  }

  lemma ReadTyped(w: World, read: Command, ty: Ty, s: seq<Value>, e: Env, m: seq<Ty>)
    requires read.op.Read? && w.slotType(read.op.kind, read.arg) == Some(ty)
    requires Matches(w, s, m) && w.base + |m| < w.capacity
    ensures var x := ExecDo(w, read, s, e);
      && x == ExecDo(w.(safe := !w.safe), read, s, e)
      && (x.Fell? || x.Threw?)
      && (x.Fell? ==> Matches(w, x.stack, m + [ty]))
  {
    hide Matches;
    MatchesLength(w, s, m);
    var r := w.read(read.op.kind, read.arg, e);
    if r.Got? && TypeOf(r.value) == ty { PushTyped(w, s, m, r.value, e); }
  }

  lemma UnreadKeeps(w: World, slot: nat, read: Command, ty: Ty, m: seq<Ty>, s: seq<Value>, e: Env)
    requires slot == |m| && read.op.Read? && w.slotType(read.op.kind, read.arg) == Some(ty)
    requires Matches(w, s, m) && w.base + |m| + 2 <= w.capacity
    ensures Keeps(w, ExecUnread(w, slot, read, s, e), true, m + [ty], [])
    ensures ExecUnread(w, slot, read, s, e) == ExecUnread(w.(safe := !w.safe), slot, read, s, e)
  {
    hide Matches;
    MatchesLength(w, s, m);
    MatchesPush(w, s, m, Context);
    ReadTyped(w, read, ty, s + [Context], e, m + [TContext]);
    var x := ExecDo(w, read, s + [Context], e);
    if x.Fell? {
      MatchesDrop(w, x.stack, m + [TContext] + [ty], slot);
      assert Drop(m + [TContext] + [ty], slot) == m + [ty];
    }
  }

  lemma {:induction false} ExecKeeps(w: World, n: Node, m: seq<Ty>, types: seq<seq<Ty>>, s: seq<Value>, e: Env)
    requires Typed(w, n, m, types) && Matches(w, s, m) && w.base + PeakOf(n, m) <= w.capacity
    ensures Keeps(w, Exec(w, n, s, e), Falls(n), OutOf(n, m), types)
    ensures Exec(w, n, s, e) == Exec(w.(safe := !w.safe), n, s, e)
    decreases n
  {
    hide Matches, DoTyped, ExecDo, ExecUnread, BranchStep, ExitTyped;
    match n
    case Nop =>
    case Stuck =>
    case Do(cmd) => DoKeeps(w, cmd, m, s, e);
    case Unread(slot, read, ty) => UnreadKeeps(w, slot, read, ty, m, s, e);
    case Exit(op, mode, l) => BranchTyped(w, op, mode, s, e, m, types[l]);
    case Seq(x, y) =>
      ExecKeeps(w, x, m, types, s, e);
      var r := Exec(w, x, s, e);
      if r.Fell? { ExecKeeps(w, y, OutOf(x, m), types, r.stack, r.env); }
    case Block(x, out) => ExecKeeps(w, x, m, [out] + types, s, e);
  }

  // --- flat code does what structured code says -----------------------------------------------

  /** The commands of `n` lie at `b` in the program, kept and annotated with the predicted types. */
  ghost predicate Placed(c: Code, b: nat, n: Node, m: seq<Ty>, labels: seq<int>) {
    && Shaped(c) && b + Size(n) <= |c.cmds|
    && c.cmds[b..b + Size(n)] == Flatten(n, b, labels)
    && c.model[b..b + Size(n)] == ModelOf(n, m)
    && forall i :: b <= i < b + Size(n) ==> c.keep[i] && !c.data[i]
  }

  lemma PlacedSeq(c: Code, b: nat, x: Node, y: Node, m: seq<Ty>, labels: seq<int>)
    requires Placed(c, b, Seq(x, y), m, labels)
    ensures Placed(c, b, x, m, labels) && Placed(c, b + Size(x), y, OutOf(x, m), labels)
  {
    hide Size, Flatten, ModelOf, OutOf;
    SeqIsParts(b, x, y, m, labels);
    SliceParts(c.cmds, b, Flatten(x, b, labels), Flatten(y, b + Size(x), labels));
    SliceParts(c.model, b, ModelOf(x, m), ModelOf(y, OutOf(x, m)));
  }

  lemma SeqIsParts(b: nat, x: Node, y: Node, m: seq<Ty>, labels: seq<int>)
    ensures Size(Seq(x, y)) == Size(x) + Size(y)
    ensures Flatten(Seq(x, y), b, labels) == Flatten(x, b, labels) + Flatten(y, b + Size(x), labels)
    ensures ModelOf(Seq(x, y), m) == ModelOf(x, m) + ModelOf(y, OutOf(x, m))
  {}

  lemma SliceParts<T>(s: seq<T>, b: nat, x: seq<T>, y: seq<T>)
    requires b + |x| + |y| <= |s| && s[b..b + |x| + |y|] == x + y
    ensures s[b..b + |x|] == x && s[b + |x|..b + |x| + |y|] == y
  {
    var whole := s[b..b + |x| + |y|];
    assert s[b..b + |x|] == whole[..|x|];
    assert s[b + |x|..b + |x| + |y|] == whole[|x|..];
  }

  lemma PlacedAt(c: Code, b: nat, n: Node, m: seq<Ty>, labels: seq<int>, k: nat)
    requires Placed(c, b, n, m, labels) && k < Size(n)
    ensures c.cmds[b + k] == Flatten(n, b, labels)[k] && c.model[b + k] == ModelOf(n, m)[k]
  {
    assert c.cmds[b..b + Size(n)][k] == c.cmds[b + k] && c.model[b..b + Size(n)][k] == c.model[b + k];
  }

  /** The run that entered a node is, when the node is done, where the signal says. */
  ghost predicate Lands(w: World, c: Code, hi: nat, end: nat, labels: seq<int>, x: Signal, r: Outcome)
    requires Shaped(c)
  {
    match x
    case Fell(s, e) => r == Run(w, c, end, hi, s, e)
    case Left(l, s, e) => l < |labels| && labels[l] >= 0 && r == Run(w, c, labels[l], hi, s, e)
    case Threw(err) => r == Failed(err)
    case Undefined => true
  }

  ghost predicate Bound(end: nat, hi: nat, labels: seq<int>) {
    end <= hi <= INT32_MAX && forall l :: 0 <= l < |labels| ==> end <= labels[l] <= hi
  }

  lemma OnPredicted(w: World, c: Code, pc: nat, s: seq<Value>, m: seq<Ty>)
    requires Shaped(c) && pc < |c.cmds| && c.model[pc] == m && !c.data[pc] && Matches(w, s, m)
    requires c.cmds[pc].op.Erase? ==> 0 <= c.cmds[pc].arg < |m|
    requires !c.cmds[pc].op.EraseRange?
    ensures OnModel(w, c, pc, s)
  {}

  lemma DoRuns(w: World, c: Code, b: nat, hi: nat, cmd: Command, m: seq<Ty>, s: seq<Value>, e: Env)
    requires Shaped(c) && c.watch && b < hi && b < |c.cmds|
    requires c.cmds[b] == cmd && c.keep[b] && !c.data[b] && c.model[b] == m
    requires !Steers(cmd.op) && !IsCallbackOp(cmd.op) && !cmd.op.EraseRange? && (cmd.op.Erase? ==> 0 <= cmd.arg < |m|)
    requires Matches(w, s, m)
    ensures Lands(w, c, hi, b + 1, [], ExecDo(w, cmd, s, e), Run(w, c, b, hi, s, e))
  {
    hide Run, EffectOf, Matches, OnModel;
    OnPredicted(w, c, b, s, m);
    RunStep(w, c, b, hi, s, e);
  }

  lemma BranchSame(w: World, op: Op, mode: int, target: int, s: seq<Value>, e: Env)
    requires Steers(op) && (op.ScopeGuard? ==> FitsInt32(target))
    ensures BranchStep(w, Branch(op, mode, target), s, e) == BranchStep(w, Branch(op, mode, 0), s, e)
    ensures TargetOf(Branch(op, mode, target)) == target && Branch(op, mode, target).op == op
  {
    Unpack2(target, mode);
    Unpack2(0, mode);
  }

  lemma ExitRuns(w: World, c: Code, b: nat, hi: nat, n: Node, m: seq<Ty>, labels: seq<int>, types: seq<seq<Ty>>, s: seq<Value>, e: Env)
    requires n.Exit? && c.watch && Placed(c, b, n, m, labels) && Typed(w, n, m, types) && |labels| == |types|
    requires Bound(b + 1, hi, labels) && Matches(w, s, m)
    ensures Lands(w, c, hi, b + 1, labels, Exec(w, n, s, e), Run(w, c, b, hi, s, e))
  {
    hide Run, BranchStep, Matches, OnModel;
    PlacedAt(c, b, n, m, labels, 0);
    BranchSame(w, n.op, n.mode, labels[n.level], s, e);
    OnPredicted(w, c, b, s, m);
    RunStep(w, c, b, hi, s, e);
  }

  lemma UnreadRuns(w: World, c: Code, b: nat, hi: nat, n: Node, m: seq<Ty>, labels: seq<int>, s: seq<Value>, e: Env)
    requires n.Unread? && c.watch && Placed(c, b, n, m, labels) && Typed(w, n, m, [])
    requires b + 3 <= hi && Matches(w, s, m) && w.base + |m| + 2 <= w.capacity
    ensures Lands(w, c, hi, b + 3, labels, Exec(w, n, s, e), Run(w, c, b, hi, s, e))
  {
    hide Run, Matches, ExecDo;
    PlacedAt(c, b, n, m, labels, 0);
    PlacedAt(c, b, n, m, labels, 1);
    PlacedAt(c, b, n, m, labels, 2);
    var s1, m1 := s + [Context], m + [TContext];
    DoRuns(w, c, b, hi, Command(PushContext, 0), m, s, e);
    ContextPushed(w, s, e, m);
    DoRuns(w, c, b + 1, hi, n.read, m1, s1, e);
    ReadTyped(w, n.read, n.ty, s1, e, m1);
    var x := ExecDo(w, n.read, s1, e);
    assert m1 + [n.ty] == m + [TContext, n.ty];
    if x.Fell? { DoRuns(w, c, b + 2, hi, Command(Erase, n.slot), m + [TContext, n.ty], x.stack, x.env); }
  }

  lemma DoShape(cmd: Command, m: seq<Ty>)
    requires DoTyped(cmd, m)
    ensures !Steers(cmd.op) && !IsCallbackOp(cmd.op) && !cmd.op.EraseRange? && (cmd.op.Erase? ==> 0 <= cmd.arg < |m|)
  {}

  lemma PlacedFlags(c: Code, b: nat, n: Node, m: seq<Ty>, labels: seq<int>)
    requires Placed(c, b, n, m, labels)
    ensures Shaped(c) && b + Size(n) <= |c.cmds|
    ensures forall i :: b <= i < b + Size(n) ==> c.keep[i] && !c.data[i]
  {}

  lemma ContextPushed(w: World, s: seq<Value>, e: Env, m: seq<Ty>)
    requires Matches(w, s, m) && w.base + |m| < w.capacity
    ensures ExecDo(w, Command(PushContext, 0), s, e) == Fell(s + [Context], e)
    ensures Matches(w, s + [Context], m + [TContext])
  {
    MatchesPush(w, s, m, Context);
  }

  lemma PlacedBlock(c: Code, b: nat, x: Node, out: seq<Ty>, m: seq<Ty>, labels: seq<int>)
    requires Placed(c, b, Block(x, out), m, labels)
    ensures Placed(c, b, x, m, [b + Size(x)] + labels)
  {
    hide Size, Flatten, ModelOf;
    BlockIsBody(b, x, out, m, labels);
  }

  lemma BlockIsBody(b: nat, x: Node, out: seq<Ty>, m: seq<Ty>, labels: seq<int>)
    ensures Size(Block(x, out)) == Size(x)
    ensures Flatten(Block(x, out), b, labels) == Flatten(x, b, [b + Size(x)] + labels)
    ensures ModelOf(Block(x, out), m) == ModelOf(x, m)
  {}

  lemma LandsHere(w: World, c: Code, hi: nat, b: nat, labels: seq<int>, s: seq<Value>, e: Env)
    requires Shaped(c)
    ensures Lands(w, c, hi, b, labels, Fell(s, e), Run(w, c, b, hi, s, e))
  {}

  lemma LandsNowhere(w: World, c: Code, hi: nat, b: nat, labels: seq<int>, r: Outcome)
    requires Shaped(c)
    ensures Lands(w, c, hi, b, labels, Undefined, r)
  {}

  lemma LandsMore(w: World, c: Code, hi: nat, end: nat, labels: seq<int>, x: Signal, r: Outcome)
    requires Shaped(c) && Lands(w, c, hi, end, [], x, r)
    ensures Lands(w, c, hi, end, labels, x, r)
  {}

  lemma LandsCaught(w: World, c: Code, hi: nat, end: nat, labels: seq<int>, x: Signal, r: Outcome)
    requires Shaped(c) && Lands(w, c, hi, end, [end] + labels, x, r)
    ensures Lands(w, c, hi, end, labels, Caught(x), r)
  {}

  /** After the first part of a sequence comes the second. */
  lemma LandsThen(w: World, c: Code, hi: nat, mid: nat, end: nat, labels: seq<int>, x: Signal, y: Signal, r: Outcome)
    requires Shaped(c) && Lands(w, c, hi, mid, labels, x, r)
    requires x.Fell? ==> Lands(w, c, hi, end, labels, y, Run(w, c, mid, hi, x.stack, x.env))
    ensures Lands(w, c, hi, end, labels, if x.Fell? then y else x, r)
  {}

  /**
    The flat commands, placed anywhere in a program, do what the structured code says.
  */
  lemma {:induction false} FlattenRuns(w: World, c: Code, b: nat, hi: nat, n: Node, m: seq<Ty>, labels: seq<int>, types: seq<seq<Ty>>,
                                       s: seq<Value>, e: Env)
    requires c.watch && Placed(c, b, n, m, labels) && Typed(w, n, m, types) && |labels| == |types|
    requires Bound(b + Size(n), hi, labels) && Matches(w, s, m) && w.base + PeakOf(n, m) <= w.capacity
    ensures Lands(w, c, hi, b + Size(n), labels, Exec(w, n, s, e), Run(w, c, b, hi, s, e))
    decreases n
  {
    hide Run, Matches, DoTyped, ExecDo, ExecUnread, ExecExit, ExitTyped, Placed, Lands;
    PlacedFlags(c, b, n, m, labels);
    match n
    case Nop => LandsHere(w, c, hi, b, labels, s, e);
    case Stuck => LandsNowhere(w, c, hi, b, labels, Run(w, c, b, hi, s, e));
    case Do(cmd) =>
      PlacedAt(c, b, n, m, labels, 0);
      DoShape(cmd, m);
      DoRuns(w, c, b, hi, cmd, m, s, e);
      LandsMore(w, c, hi, b + 1, labels, ExecDo(w, cmd, s, e), Run(w, c, b, hi, s, e));
    case Unread(_, _, _) => UnreadRuns(w, c, b, hi, n, m, labels, s, e);
    case Exit(_, _, _) => ExitRuns(w, c, b, hi, n, m, labels, types, s, e);
    case Seq(x, y) =>
      PlacedSeq(c, b, x, y, m, labels);
      FlattenRuns(w, c, b, hi, x, m, labels, types, s, e);
      ExecKeeps(w, x, m, types, s, e);
      var r := Exec(w, x, s, e);
      if r.Fell? {
        FlattenRuns(w, c, b + Size(x), hi, y, OutOf(x, m), labels, types, r.stack, r.env);
        LandsThen(w, c, hi, b + Size(x), b + Size(n), labels, r, Exec(w, y, r.stack, r.env), Run(w, c, b, hi, s, e));
      } else {
        LandsThen(w, c, hi, b + Size(x), b + Size(n), labels, r, r, Run(w, c, b, hi, s, e));
      }
    case Block(x, out) =>
      var end := b + Size(x);
      PlacedBlock(c, b, x, out, m, labels);
      FlattenRuns(w, c, b, hi, x, m, [end] + labels, [out] + types, s, e);
      LandsCaught(w, c, hi, end, labels, Exec(w, x, s, e), Run(w, c, b, hi, s, e));
  }
}
