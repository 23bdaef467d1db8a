/**
  The tables that go with flattened code: every label site is recorded as a command
  index when its label is bound, every unused context push with its unwind. The stream
  this makes is one the peephole accepts, so a compiled script may be optimised.
*/
module Emission {
  import opened Machine
  import opened Optimizer
  import opened Streams
  import opened Blocks

  function SiteField(cmd: nat, op: Op): Field {
    Field(cmd, None, if op.ScopeGuard? then Low else Whole, false)
  }

  /** The branches of `n`, placed at `b`, that wait for the label `level` blocks up. */
  function SitesOf(n: Node, b: nat, level: nat): seq<Field> {
    match n
    case Exit(op, _, l) => if l == level then [SiteField(b, op)] else []
    case Seq(x, y) => SitesOf(x, b, level) + SitesOf(y, b + Size(x), level)
    case Block(x, _) => SitesOf(x, b, level + 1)
    case _ => []
  }

  /** What binding the labels inside `n` records, in the order they are bound. */
  function FieldsOf(n: Node, b: nat): seq<Field> {
    match n
    case Seq(x, y) => FieldsOf(x, b) + FieldsOf(y, b + Size(x))
    case Block(x, _) => FieldsOf(x, b) + SitesOf(x, b, 0)
    case _ => []
  }

  function PushesOf(n: Node, b: nat): seq<DeadPush> {
    match n
    case Unread(slot, _, _) => [DeadPush(b, b + 2, slot)]
    case Seq(x, y) => PushesOf(x, b) + PushesOf(y, b + Size(x))
    case Block(x, _) => PushesOf(x, b)
    case _ => []
  }

  /** The stream of a whole script, without descriptions. */
  function StreamOf(n: Node): Stream {
    Stream(Flatten(n, 0, []), [], [], FieldsOf(n, 0), [], PushesOf(n, 0))
  }

  // --- every branch is recorded, and leads forward ----------------------------------------

  predicate Waits(n: Node, b: nat, level: nat, f: Field) { f in SitesOf(n, b, level) }

  ghost predicate Recorded(n: Node, b: nat, depth: nat, f: Field) {
    f in FieldsOf(n, b) || exists l: nat :: l < depth && Waits(n, b, l, f)
  }

  lemma RecordedSeq(x: Node, y: Node, b: nat, depth: nat, f: Field)
    ensures Recorded(Seq(x, y), b, depth, f) <==> Recorded(x, b, depth, f) || Recorded(y, b + Size(x), depth, f)
  {
    hide Size;
    var n, b' := Seq(x, y), b + Size(x);
    if l: nat :| l < depth && Waits(x, b, l, f) { assert Waits(n, b, l, f); }
    if l: nat :| l < depth && Waits(y, b', l, f) { assert Waits(n, b, l, f); }
    if l: nat :| l < depth && Waits(n, b, l, f) { assert Waits(x, b, l, f) || Waits(y, b', l, f); }
  }

  lemma RecordedBlock(x: Node, out: seq<Ty>, b: nat, depth: nat, f: Field)
    ensures Recorded(Block(x, out), b, depth, f) <==> Recorded(x, b, depth + 1, f)
  {
    var n := Block(x, out);
    assert FieldsOf(n, b) == FieldsOf(x, b) + SitesOf(x, b, 0);
    assert Waits(x, b, 0, f) <==> f in SitesOf(x, b, 0);
    if l: nat :| l < depth && Waits(n, b, l, f) { assert Waits(x, b, l + 1, f); }
    if l: nat :| l < depth + 1 && Waits(x, b, l, f) {
      if l == 0 { assert f in SitesOf(x, b, 0) && f in FieldsOf(n, b); } else { assert Waits(n, b, l - 1, f); }
    }
  }

  lemma RecordedExit(op: Op, mode: int, l: nat, b: nat, depth: nat, f: Field)
    requires l < depth
    ensures Recorded(Exit(op, mode, l), b, depth, f) <==> f == SiteField(b, op)
  {
    if f == SiteField(b, op) { assert Waits(Exit(op, mode, l), b, l, f); }
  }

  lemma RecordedNothing(n: Node, b: nat, depth: nat, f: Field)
    requires !n.Exit? && !n.Seq? && !n.Block?
    ensures !Recorded(n, b, depth, f)
  {}

  lemma TypedParts(w: World, x: Node, y: Node, m: seq<Ty>, types: seq<seq<Ty>>)
    requires Typed(w, Seq(x, y), m, types)
    ensures Typed(w, x, m, types) && Typed(w, y, OutOf(x, m), types)
  {}

  lemma TypedBody(w: World, x: Node, out: seq<Ty>, m: seq<Ty>, types: seq<seq<Ty>>)
    requires Typed(w, Block(x, out), m, types)
    ensures Typed(w, x, m, [out] + types)
  {}

  lemma {:induction false} BranchRecorded(w: World, n: Node, b: nat, hi: nat, m: seq<Ty>, labels: seq<int>, types: seq<seq<Ty>>, k: nat)
    requires Typed(w, n, m, types) && |labels| == |types| && Bound(b + Size(n), hi, labels) && k < Size(n)
    requires Steers(Flatten(n, b, labels)[k].op)
    ensures Recorded(n, b, |labels|, SiteField(b + k, Flatten(n, b, labels)[k].op))
    ensures b + k < TargetOf(Flatten(n, b, labels)[k]) <= hi
    decreases n
  {
    hide Recorded, Typed, Branch, LowHalf, TargetOf, Flatten, Size, Bound;
    var f := SiteField(b + k, Flatten(n, b, labels)[k].op);
    match n
    case Exit(op, mode, l) => ExitRecorded(w, op, mode, l, b, hi, m, labels, types);
    case Seq(x, y) =>
      TypedParts(w, x, y, m, types);
      SeqIsParts(b, x, y, m, labels);
      BoundWithin(b + Size(x), b + Size(n), hi, labels);
      if k < Size(x) { BranchRecorded(w, x, b, hi, m, labels, types, k); }
      else { BranchRecorded(w, y, b + Size(x), hi, OutOf(x, m), labels, types, k - Size(x)); }
      RecordedSeq(x, y, b, |labels|, f);
    case Block(x, out) =>
      TypedBody(w, x, out, m, types);
      BlockIsBody(b, x, out, m, labels);
      BoundInner(b + Size(x), hi, labels);
      BranchRecorded(w, x, b, hi, m, [b + Size(x)] + labels, [out] + types, k);
      RecordedBlock(x, out, b, |labels|, f);
    case _ => LeafPlain(w, n, b, m, labels, types, k);
  }

  lemma BoundWithin(mid: nat, end: nat, hi: nat, labels: seq<int>)
    requires Bound(end, hi, labels) && mid <= end
    ensures Bound(mid, hi, labels)
  {}

  lemma BoundInner(end: nat, hi: nat, labels: seq<int>)
    requires Bound(end, hi, labels)
    ensures Bound(end, hi, [end] + labels)
  {}

  lemma ExitRecorded(w: World, op: Op, mode: int, l: nat, b: nat, hi: nat, m: seq<Ty>, labels: seq<int>, types: seq<seq<Ty>>)
    requires Typed(w, Exit(op, mode, l), m, types) && |labels| == |types| && Bound(b + Size(Exit(op, mode, l)), hi, labels)
    ensures var n := Exit(op, mode, l);
      && Size(n) == 1 && Recorded(n, b, |labels|, SiteField(b, Flatten(n, b, labels)[0].op)) && b < TargetOf(Flatten(n, b, labels)[0]) <= hi
  {
    hide Recorded, Branch, LowHalf, TargetOf;
    ExitGoes(op, mode, labels[l]);
    RecordedExit(op, mode, l, b, |labels|, SiteField(b, op));
  }

  lemma LeafPlain(w: World, n: Node, b: nat, m: seq<Ty>, labels: seq<int>, types: seq<seq<Ty>>, k: nat)
    requires Typed(w, n, m, types) && !n.Exit? && !n.Seq? && !n.Block? && k < Size(n)
    ensures !Steers(Flatten(n, b, labels)[k].op)
  {
    if n.Do? { DoPlain(n.cmd, m); }
  }

  lemma ExitGoes(op: Op, mode: int, target: int)
    requires FitsInt32(target)
    ensures Branch(op, mode, target).op == op && TargetOf(Branch(op, mode, target)) == target
  {
    Unpack2(target, mode);
  }

  lemma ExitOp(op: Op, mode: int, l: nat, b: nat, labels: seq<int>)
    ensures Flatten(Exit(op, mode, l), b, labels)[0].op == op
  {}

  lemma DoPlain(cmd: Command, m: seq<Ty>)
    requires DoTyped(cmd, m)
    ensures !Steers(cmd.op) && !IsCallbackOp(cmd.op)
  {}

  lemma {:induction false} FieldIsBranch(w: World, n: Node, b: nat, m: seq<Ty>, labels: seq<int>, types: seq<seq<Ty>>, f: Field)
    requires Typed(w, n, m, types) && Recorded(n, b, |types|, f)
    ensures b <= f.cmd < b + Size(n) && f.base == None && !f.zeroIsAbsent
    ensures var op := Flatten(n, b, labels)[f.cmd - b].op;
      (f.half == Whole && IsBranch(op)) || (f.half == Low && op.ScopeGuard?)
    decreases n
  {
    hide Recorded, Typed, Branch, FieldsOf, SitesOf, LowHalf, HighHalf, Flatten, Size;
    match n
    case Exit(op, mode, l) => ExitField(w, op, mode, l, b, m, labels, types, f);
    case Seq(x, y) =>
      RecordedSeq(x, y, b, |types|, f);
      TypedParts(w, x, y, m, types);
      SeqIsParts(b, x, y, m, labels);
      if Recorded(x, b, |types|, f) { FieldIsBranch(w, x, b, m, labels, types, f); }
      else { FieldIsBranch(w, y, b + Size(x), OutOf(x, m), labels, types, f); }
    case Block(x, out) =>
      RecordedBlock(x, out, b, |types|, f);
      TypedBody(w, x, out, m, types);
      BlockIsBody(b, x, out, m, labels);
      FieldIsBranch(w, x, b, m, [b + Size(x)] + labels, [out] + types, f);
    case _ => RecordedNothing(n, b, |types|, f);
  }

  lemma ExitField(w: World, op: Op, mode: int, l: nat, b: nat, m: seq<Ty>, labels: seq<int>, types: seq<seq<Ty>>, f: Field)
    requires Typed(w, Exit(op, mode, l), m, types) && Recorded(Exit(op, mode, l), b, |types|, f)
    ensures f == SiteField(b, op) && Size(Exit(op, mode, l)) == 1 && Flatten(Exit(op, mode, l), b, labels)[0].op == op && (IsBranch(op) || op.ScopeGuard?)
  {
    hide Recorded, Branch;
    RecordedExit(op, mode, l, b, |types|, f);
    ExitOp(op, mode, l, b, labels);
  }

  /** Context, one read, and the unwind of the pushed slot. */
  predicate Discards(cmds: seq<Command>, model: seq<seq<Ty>>, k: int) {
    && |model| == |cmds| && 0 <= k && k + 2 < |cmds|
    && cmds[k].op.PushContext? && cmds[k + 1].op.Read? && cmds[k + 2] == Command(Erase, |model[k]|)
  }

  lemma DiscardsIn(a: seq<Command>, b: seq<Command>, p: seq<seq<Ty>>, q: seq<seq<Ty>>, k: int)
    requires |p| == |a| && |q| == |b|
    ensures Discards(a, p, k) ==> Discards(a + b, p + q, k)
    ensures Discards(b, q, k) ==> Discards(a + b, p + q, |a| + k)
  {}

  lemma UnreadShape(w: World, n: Node, b: nat, m: seq<Ty>, labels: seq<int>, types: seq<seq<Ty>>, p: DeadPush)
    requires n.Unread? && Typed(w, n, m, types) && p in PushesOf(n, b)
    ensures p.cmd == b && p.unwind == b + 2 && Discards(Flatten(n, b, labels), ModelOf(n, m), 0)
  {}

  lemma PushesSeq(x: Node, y: Node, b: nat)
    ensures PushesOf(Seq(x, y), b) == PushesOf(x, b) + PushesOf(y, b + Size(x))
  {}

  lemma PushesBlock(x: Node, out: seq<Ty>, b: nat)
    ensures PushesOf(Block(x, out), b) == PushesOf(x, b)
  {}

  lemma NoPushes(n: Node, b: nat)
    requires !n.Unread? && !n.Seq? && !n.Block?
    ensures PushesOf(n, b) == []
  {}

  /** A recorded push: nothing but its read lies between it and its unwind. */
  lemma {:induction false} PushShape(w: World, n: Node, b: nat, m: seq<Ty>, labels: seq<int>, types: seq<seq<Ty>>, p: DeadPush)
    requires Typed(w, n, m, types) && p in PushesOf(n, b)
    ensures b <= p.cmd && p.unwind == p.cmd + 2 < b + Size(n)
    ensures Discards(Flatten(n, b, labels), ModelOf(n, m), p.cmd - b)
    decreases n
  {
    hide Typed, Flatten, ModelOf, PushesOf, Size, OutOf;
    match n
    case Unread(_, _, _) => UnreadShape(w, n, b, m, labels, types, p);
    case Seq(x, y) =>
      PushesSeq(x, y, b);
      SeqIsParts(b, x, y, m, labels);
      TypedParts(w, x, y, m, types);
      var b', fx, fy := b + Size(x), Flatten(x, b, labels), Flatten(y, b + Size(x), labels);
      if p in PushesOf(x, b) { PushShape(w, x, b, m, labels, types, p); } else { PushShape(w, y, b', OutOf(x, m), labels, types, p); }
      DiscardsIn(fx, fy, ModelOf(x, m), ModelOf(y, OutOf(x, m)), if p in PushesOf(x, b) then p.cmd - b else p.cmd - b');
    case Block(x, out) =>
      PushesBlock(x, out, b);
      BlockIsBody(b, x, out, m, labels);
      TypedBody(w, x, out, m, types);
      PushShape(w, x, b, m, [b + Size(x)] + labels, [out] + types, p);
    case _ => NoPushes(n, b);
  }

  lemma {:induction false} NoCallbacks(w: World, n: Node, b: nat, m: seq<Ty>, labels: seq<int>, types: seq<seq<Ty>>, k: nat)
    requires Typed(w, n, m, types) && k < Size(n)
    ensures !IsCallbackOp(Flatten(n, b, labels)[k].op)
    decreases n
  {
    hide DoTyped;
    match n
    case Do(cmd) => DoPlain(cmd, m);
    case Seq(x, y) =>
      if k < Size(x) { NoCallbacks(w, x, b, m, labels, types, k); }
      else { NoCallbacks(w, y, b + Size(x), OutOf(x, m), labels, types, k - Size(x)); }
    case Block(x, out) => NoCallbacks(w, x, b, m, [b + Size(x)] + labels, [out] + types, k);
    case _ =>
  }

  /** What the generator emits is what the peephole requires. */
  lemma CompiledWellFormed(w: World, n: Node, m: seq<Ty>)
    requires Typed(w, n, m, []) && Size(n) <= INT32_MAX
    ensures WellFormed(StreamOf(n), ModelOf(n, m))
  {
    hide Typed, Flatten, ModelOf, FieldsOf, PushesOf, Size, CommandOk, FieldOk, PushOk;
    var x := StreamOf(n);
    forall i: nat | i < |x.cmds| ensures CommandOk(x, i) { EmittedCommandOk(w, n, m, i); }
    forall f | f in x.fields ensures FieldOk(x, f) { EmittedFieldOk(w, n, m, f); }
    forall p | p in x.pushes ensures PushOk(x, ModelOf(n, m), p) { EmittedPushOk(w, n, m, p); }
  }

  lemma EmittedFieldOk(w: World, n: Node, m: seq<Ty>, f: Field)
    requires Typed(w, n, m, []) && Size(n) <= INT32_MAX && f in StreamOf(n).fields
    ensures FieldOk(StreamOf(n), f)
  {
    hide Typed, Flatten, FieldsOf, PushesOf;
    FieldIsBranch(w, n, 0, m, [], [], f);
  }

  lemma EmittedPushOk(w: World, n: Node, m: seq<Ty>, p: DeadPush)
    requires Typed(w, n, m, []) && Size(n) <= INT32_MAX && p in StreamOf(n).pushes
    ensures PushOk(StreamOf(n), ModelOf(n, m), p)
  {
    hide Typed, Flatten, ModelOf, FieldsOf, PushesOf;
    var x := StreamOf(n);
    PushShape(w, n, 0, m, [], [], p);
    assert Confined(x, p.cmd, p.cmd + 1, p.unwind);
  }

  lemma EmittedCommandOk(w: World, n: Node, m: seq<Ty>, i: nat)
    requires Typed(w, n, m, []) && Size(n) <= INT32_MAX && i < Size(n)
    ensures CommandOk(StreamOf(n), i)
  {
    hide Typed, Flatten, FieldsOf, PushesOf, LowHalf;
    var x := StreamOf(n);
    NoCallbacks(w, n, 0, m, [], [], i);
    if Steers(x.cmds[i].op) { BranchRecorded(w, n, 0, |x.cmds|, m, [], [], i); }
  }
}
