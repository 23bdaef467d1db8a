/**
  Compaction: moving the survivors together and renumbering every stored command index
  leaves a program that runs the way the uncompacted one did.
*/
module Compaction {
  import opened Machine
  import opened Optimizer
  import opened Streams

  // --- counting survivors -------------------------------------------------------------

  lemma {:induction false} NextAtBounds(keep: seq<bool>, i: nat, j: nat)
    requires i <= j <= |keep|
    ensures NextAt(keep, i) <= NextAt(keep, j) <= NextAt(keep, i) + (j - i)
    decreases j - i
  {
    if i < j { NextAtBounds(keep, i, j - 1); }
  }

  lemma {:induction false} NextAtKept(keep: seq<bool>, i: nat, j: nat)
    requires i <= j <= |keep|
    requires forall k :: i <= k < j ==> keep[k]
    ensures NextAt(keep, j) == NextAt(keep, i) + (j - i)
    decreases j - i
  {
    if i < j { NextAtKept(keep, i, j - 1); }
  }

  lemma {:induction false} SurvivorAt<T>(s: seq<T>, keep: seq<bool>, i: nat, n: nat)
    requires i < n <= |keep| && n <= |s| && keep[i]
    ensures NextAt(keep, i) < |Survivors(s, keep, n)| && Survivors(s, keep, n)[NextAt(keep, i)] == s[i]
  {
    SurvivorsLength(s, keep, n - 1);
    if i < n - 1 { SurvivorAt(s, keep, i, n - 1); }
  }

  /** The survivor that ends up at `j`. */
  function Origin(keep: seq<bool>, n: nat, j: nat): (i: nat)
    requires 0 < n <= |keep| && j < NextAt(keep, n)
    ensures i < n && keep[i] && NextAt(keep, i) == j
  {
    if keep[n - 1] && j == NextAt(keep, n - 1) then n - 1 else Origin(keep, n - 1, j)
  }

  /** A relocated target names the first survivor at or after the old one. */
  lemma {:induction false} RelocNamesNext(keep: seq<bool>, i: nat)
    requires i <= |keep| && NextAt(keep, i) < NextAt(keep, |keep|)
    ensures Origin(keep, |keep|, NextAt(keep, i)) == NextKept(keep, i)
    decreases |keep| - i
  {
    if keep[i] { NextAtDistinctFrom(keep, Origin(keep, |keep|, NextAt(keep, i)), i); }
    else { RelocNamesNext(keep, i + 1); }
  }

  lemma NextAtDistinctFrom(keep: seq<bool>, i: nat, j: nat)
    requires i < |keep| && j < |keep| && keep[i] && keep[j] && NextAt(keep, i) == NextAt(keep, j)
    ensures i == j
  {
    if i != j { NextAtDistinct(keep, i, j); }
  }

  /** The relocated inclusive end of a description names the last survivor at or before the old one. */
  lemma RelocLastNamesPrevious(keep: seq<bool>, i: nat)
    requires i < |keep| && exists j :: 0 <= j <= i && keep[j]
    ensures RelocLast(keep, i) < NextAt(keep, |keep|)
    ensures var j := Origin(keep, |keep|, RelocLast(keep, i)); j <= i && forall k :: j < k <= i ==> !keep[k]
  {
    var j :| 0 <= j <= i && keep[j];
    NextAtStrict(keep, j, i + 1);
    NextAtBounds(keep, i + 1, |keep|);
    var o := Origin(keep, |keep|, RelocLast(keep, i));
    if o > i { NextAtBounds(keep, i + 1, o); }
    forall k | o < k <= i ensures !keep[k] {
      if keep[k] { NextAtStrict(keep, o, k); NextAtStrict(keep, k, i + 1); }
    }
  }

  lemma NextAtDistinct(keep: seq<bool>, i: nat, j: nat)
    requires i < |keep| && j < |keep| && keep[i] && keep[j] && i != j
    ensures NextAt(keep, i) != NextAt(keep, j)
  {
    if i < j { NextAtStrict(keep, i, j); } else { NextAtStrict(keep, j, i); }
  }

  // --- patching the recorded fields ---------------------------------------------------

  lemma SameHalves(a: int, b: int)
    requires LowHalf(a) == LowHalf(b) && HighHalf(a) == HighHalf(b)
    ensures a == b
  {
    assert a == a / HALF * HALF + a % HALF && b == b / HALF * HALF + b % HALF;
  }

  lemma LowHalfFits(a: int)
    ensures FitsInt32(LowHalf(a))
  {}

  /** What the part of an argument that `f` describes holds after the pass. */
  function NewStored(cmds: seq<Command>, keep: seq<bool>, f: Field): int
    requires |keep| == |cmds| && f.cmd < |cmds|
  {
    match ReadField(cmds, f)
    case None => Stored(cmds[f.cmd].arg, f.half)
    case Some(t) => Reloc(keep, t) - BaseOf(RelocField(keep, f))
  }

  /** Dropped commands are neither data slots nor owners of data slots. */
  ghost predicate KeepsOwners(x: Stream, keep: seq<bool>)
    requires |keep| == |x.cmds|
  {
    forall i: nat :: i < |x.cmds| && !keep[i] ==>
      !IsData(x, i) && (x.cmds[i].op.PushContext? || x.cmds[i].op.Erase? || x.cmds[i].op.Jump?)
  }

  lemma NewStoredFits(x: Stream, model: seq<seq<Ty>>, keep: seq<bool>, f: Field)
    requires WellFormed(x, model) && |keep| == |x.cmds| && f in x.fields && f.half != Whole
    ensures f.cmd < |x.cmds| && (f.half == Low ==> FitsInt32(NewStored(x.cmds, keep, f)))
  {
    var o := FieldKind(x, model, f);
    LowHalfFits(x.cmds[f.cmd].arg);
    var t := ReadField(x.cmds, f);
    if t.Some? && f.half == Low {
      if f.base.Some? {
        assert CommandOk(x, o);
        NextAtBounds(keep, o, t.value);
      } else {
        assert CommandOk(x, f.cmd);
        NextAtBounds(keep, 0, t.value);
      }
    }
  }

  /** Writing one part of an argument leaves the other part alone. */
  lemma WriteHalfEffect(a: int, half: Half, v: int)
    requires half == Low ==> FitsInt32(v)
    ensures Stored(WriteHalf(a, half, v), half) == v
    ensures half == Low ==> HighHalf(WriteHalf(a, half, v)) == HighHalf(a)
    ensures half == High ==> LowHalf(WriteHalf(a, half, v)) == LowHalf(a)
  {
    Unpack2(v, HighHalf(a));
    LowHalfFits(a);
    Unpack2(LowHalf(a), v);
  }

  /** One of the first `k` fields describes part `half` of command `i`. */
  predicate Covered(fields: seq<Field>, k: nat, i: nat, half: Half)
    requires k <= |fields|
  {
    exists j: nat :: j < k && fields[j].cmd == i && fields[j].half == half
  }

  /** How far the argument `a` of the survivor `i` has been patched by the first `k` fields. */
  ghost predicate Patched(a: int, x: Stream, keep: seq<bool>, k: nat, i: nat)
    requires |keep| == |x.cmds| && k <= |x.fields| && i < |keep|
  {
    && (forall j: nat :: j < k && x.fields[j].cmd == i ==> Stored(a, x.fields[j].half) == NewStored(x.cmds, keep, x.fields[j]))
    && (!Covered(x.fields, k, i, Whole) && !Covered(x.fields, k, i, Low) ==> LowHalf(a) == LowHalf(x.cmds[i].arg))
    && (!Covered(x.fields, k, i, Whole) && !Covered(x.fields, k, i, High) ==> HighHalf(a) == HighHalf(x.cmds[i].arg))
  }

  function PatchArg(a: int, x: Stream, keep: seq<bool>, k: nat): int
    requires |keep| == |x.cmds| && k < |x.fields| && x.fields[k].cmd < |x.cmds|
  {
    if ReadField(x.cmds, x.fields[k]).None? then a else WriteHalf(a, x.fields[k].half, NewStored(x.cmds, keep, x.fields[k]))
  }

  /** Fields that describe the same part of the same command are the same field. */
  lemma SamePart(x: Stream, model: seq<seq<Ty>>, j: nat, k: nat)
    requires WellFormed(x, model) && j < |x.fields| && k < |x.fields| && x.fields[j].cmd == x.fields[k].cmd
    requires x.fields[j].half == x.fields[k].half || x.fields[j].half == Whole || x.fields[k].half == Whole
    ensures x.fields[j] == x.fields[k]
  {
    FieldUnique(x, model, x.fields[j], x.fields[k]);
  }

  lemma PatchOneSelf(a: int, x: Stream, model: seq<seq<Ty>>, keep: seq<bool>, k: nat, i: nat)
    requires WellFormed(x, model) && |keep| == |x.cmds| && k < |x.fields| && i == x.fields[k].cmd < |keep|
    requires Patched(a, x, keep, k, i)
    ensures Stored(PatchArg(a, x, keep, k), x.fields[k].half) == NewStored(x.cmds, keep, x.fields[k])
    ensures x.fields[k].half == Low ==> HighHalf(PatchArg(a, x, keep, k)) == HighHalf(a)
    ensures x.fields[k].half == High ==> LowHalf(PatchArg(a, x, keep, k)) == LowHalf(a)
  {
    var f := x.fields[k];
    assert f in x.fields;
    if ReadField(x.cmds, f).Some? {
      if f.half != Whole { NewStoredFits(x, model, keep, f); }
      WriteHalfEffect(a, f.half, NewStored(x.cmds, keep, f));
    } else if !Covered(x.fields, k, i, f.half) {
      forall j: nat | j < k && x.fields[j].cmd == i && (x.fields[j].half == Whole || f.half == Whole) ensures false { SamePart(x, model, j, k); }
      if f.half == Whole { SameHalves(a, x.cmds[i].arg); }
    } else {
      var j: nat :| j < k && x.fields[j].cmd == i && x.fields[j].half == f.half;
      SamePart(x, model, j, k);
    }
  }

  lemma PatchOne(a: int, x: Stream, model: seq<seq<Ty>>, keep: seq<bool>, k: nat, i: nat)
    requires WellFormed(x, model) && |keep| == |x.cmds| && k < |x.fields| && i == x.fields[k].cmd < |keep|
    requires Patched(a, x, keep, k, i)
    ensures Patched(PatchArg(a, x, keep, k), x, keep, k + 1, i)
  {
    var f := x.fields[k];
    var r := PatchArg(a, x, keep, k);
    PatchOneSelf(a, x, model, keep, k, i);
    forall j: nat | j < k && x.fields[j].cmd == i ensures Stored(r, x.fields[j].half) == NewStored(x.cmds, keep, x.fields[j]) {
      if x.fields[j].half == f.half || x.fields[j].half == Whole || f.half == Whole { SamePart(x, model, j, k); }
    }
    assert Covered(x.fields, k + 1, i, f.half);
    CoveredGrows(x.fields, k, i);
  }

  lemma CoveredGrows(fields: seq<Field>, k: nat, i: nat)
    requires k < |fields|
    ensures forall half :: Covered(fields, k, i, half) ==> Covered(fields, k + 1, i, half)
    ensures fields[k].cmd != i ==> forall half :: Covered(fields, k + 1, i, half) ==> Covered(fields, k, i, half)
  {}

  ghost predicate AllPatched(c: seq<Command>, x: Stream, keep: seq<bool>, k: nat)
    requires |keep| == |x.cmds| && k <= |x.fields| && |c| == NextAt(keep, |keep|)
  {
    forall i: nat :: i < |keep| && keep[i] ==>
      && NextAt(keep, i) < |c|
      && c[NextAt(keep, i)].op == x.cmds[i].op
      && Patched(c[NextAt(keep, i)].arg, x, keep, k, i)
  }

  function PatchStep(c: seq<Command>, x: Stream, keep: seq<bool>, k: nat): (d: seq<Command>)
    requires |keep| == |x.cmds| && k < |x.fields| && x.fields[k].cmd < |x.cmds| && |c| == NextAt(keep, |keep|)
    ensures |d| == |c|
  {
    var i := x.fields[k].cmd;
    if !keep[i] then c
    else
      NextAtStrict(keep, i, |keep|);
      var i' := NextAt(keep, i);
      c[i' := Command(c[i'].op, PatchArg(c[i'].arg, x, keep, k))]
  }

  lemma PatchStepPatched(c: seq<Command>, x: Stream, model: seq<seq<Ty>>, keep: seq<bool>, k: nat)
    requires WellFormed(x, model) && |keep| == |x.cmds| && |c| == NextAt(keep, |keep|) && k < |x.fields|
    requires AllPatched(c, x, keep, k) && x.fields[k].cmd < |x.cmds|
    ensures AllPatched(PatchStep(c, x, keep, k), x, keep, k + 1)
  {
    var i := x.fields[k].cmd;
    var d := PatchStep(c, x, keep, k);
    forall j: nat | j < |keep| && keep[j]
      ensures NextAt(keep, j) < |d| && d[NextAt(keep, j)].op == x.cmds[j].op && Patched(d[NextAt(keep, j)].arg, x, keep, k + 1, j)
    {
      if j == i {
        PatchOne(c[NextAt(keep, i)].arg, x, model, keep, k, i);
      } else {
        if keep[i] { NextAtDistinct(keep, i, j); }
        CoveredGrows(x.fields, k, j);
      }
    }
  }

  lemma {:induction false} PatchAll(c: seq<Command>, x: Stream, model: seq<seq<Ty>>, keep: seq<bool>, k: nat)
    requires WellFormed(x, model) && |keep| == |x.cmds| && |c| == NextAt(keep, |keep|) && k <= |x.fields|
    requires AllPatched(c, x, keep, k)
    ensures AllPatched(PatchFields(c, x.cmds, keep, x.fields, k), x, keep, |x.fields|)
    decreases |x.fields| - k
  {
    if k < |x.fields| {
      assert x.fields[k] in x.fields && FieldOk(x, x.fields[k]);
      PatchStepPatched(c, x, model, keep, k);
      PatchFieldsStep(c, x, keep, k);
      PatchAll(PatchStep(c, x, keep, k), x, model, keep, k + 1);
    }
  }

  lemma PatchFieldsStep(c: seq<Command>, x: Stream, keep: seq<bool>, k: nat)
    requires |keep| == |x.cmds| && |c| == NextAt(keep, |keep|) && k < |x.fields| && x.fields[k].cmd < |x.cmds|
    ensures PatchFields(c, x.cmds, keep, x.fields, k) == PatchFields(PatchStep(c, x, keep, k), x.cmds, keep, x.fields, k + 1)
  {
    var i := x.fields[k].cmd;
    if keep[i] {
      NextAtStrict(keep, i, |keep|);
      assert ReadField(x.cmds, x.fields[k]).None? ==> PatchStep(c, x, keep, k) == c;
    }
  }

  lemma CompactPatched(x: Stream, model: seq<seq<Ty>>, keep: seq<bool>)
    requires WellFormed(x, model) && |keep| == |x.cmds|
    ensures |Compact(x, keep).cmds| == NextAt(keep, |keep|)
    ensures AllPatched(Compact(x, keep).cmds, x, keep, |x.fields|)
  {
    var c := Survivors(x.cmds, keep, |keep|);
    SurvivorsLength(x.cmds, keep, |keep|);
    forall j: nat | j < |keep| && keep[j]
      ensures NextAt(keep, j) < |c| && c[NextAt(keep, j)] == x.cmds[j]
    { SurvivorAt(x.cmds, keep, j, |keep|); }
    PatchAll(c, x, model, keep, 0);
  }

  // --- what the moved commands hold ---------------------------------------------------

  /** The command that `i` became. */
  ghost function MovedTo(x: Stream, keep: seq<bool>, i: nat): Command
    requires |keep| == |x.cmds| && i < |keep| && keep[i]
    requires |Compact(x, keep).cmds| == NextAt(keep, |keep|)
  {
    NextAtStrict(keep, i, |keep|);
    Compact(x, keep).cmds[NextAt(keep, i)]
  }

  lemma Uncovered(a: int, x: Stream, keep: seq<bool>, i: nat)
    requires |keep| == |x.cmds| && i < |keep| && Patched(a, x, keep, |x.fields|, i)
    requires forall f :: f in x.fields ==> f.cmd != i
    ensures a == x.cmds[i].arg
  {
    SameHalves(a, x.cmds[i].arg);
  }

  lemma CoveredBy(a: int, x: Stream, keep: seq<bool>, i: nat, f: Field)
    requires |keep| == |x.cmds| && i < |keep| && Patched(a, x, keep, |x.fields|, i)
    requires f in x.fields && f.cmd == i
    ensures Stored(a, f.half) == NewStored(x.cmds, keep, f)
  {
    var j :| 0 <= j < |x.fields| && x.fields[j] == f;
  }

  lemma BranchMoved(a: int, x: Stream, keep: seq<bool>, i: nat)
    requires |keep| == |x.cmds| && i < |keep| && Patched(a, x, keep, |x.fields|, i)
    requires CommandOk(x, i) && IsBranch(x.cmds[i].op)
    ensures a == NextAt(keep, x.cmds[i].arg)
  {
    CoveredBy(a, x, keep, i, Field(i, None, Whole, false));
  }

  lemma GuardMoved(a: int, x: Stream, keep: seq<bool>, i: nat)
    requires |keep| == |x.cmds| && i < |keep| && Patched(a, x, keep, |x.fields|, i)
    requires CommandOk(x, i) && x.cmds[i].op.ScopeGuard?
    requires forall f :: f in x.fields && f.cmd == i ==> f.half == Low
    ensures LowHalf(a) == NextAt(keep, LowHalf(x.cmds[i].arg)) && HighHalf(a) == HighHalf(x.cmds[i].arg)
  {
    CoveredBy(a, x, keep, i, Field(i, None, Low, false));
  }

  /** A command that is not a data slot keeps its operation; only its command index moves. */
  lemma MovedCommand(x: Stream, model: seq<seq<Ty>>, keep: seq<bool>, i: nat)
    requires WellFormed(x, model) && |keep| == |x.cmds| && i < |keep| && keep[i] && !IsData(x, i)
    ensures |Compact(x, keep).cmds| == NextAt(keep, |keep|)
    ensures CommandOk(x, i)
    ensures var c, c' := x.cmds[i], MovedTo(x, keep, i);
      && c'.op == c.op
      && (IsBranch(c.op) ==> c'.arg == NextAt(keep, c.arg))
      && (c.op.ScopeGuard? ==> LowHalf(c'.arg) == NextAt(keep, LowHalf(c.arg)) && HighHalf(c'.arg) == HighHalf(c.arg))
      && (!Steers(c.op) ==> c'.arg == c.arg)
  {
    CompactPatched(x, model, keep);
    NextAtStrict(keep, i, |keep|);
    var c, a := x.cmds[i], MovedTo(x, keep, i).arg;
    assert CommandOk(x, i) && Patched(a, x, keep, |x.fields|, i);
    forall f | f in x.fields && f.cmd == i ensures Steers(c.op) && (c.op.ScopeGuard? ==> f.half == Low) {
      var _ := FieldKind(x, model, f);
    }
    if IsBranch(c.op) { BranchMoved(a, x, keep, i); }
    else if c.op.ScopeGuard? { GuardMoved(a, x, keep, i); }
    else { Uncovered(a, x, keep, i); }
  }

  lemma MovedSlot(x: Stream, model: seq<seq<Ty>>, keep: seq<bool>, o: nat, j: nat)
    requires WellFormed(x, model) && |keep| == |x.cmds| && Owns(x, o, j) && x.cmds[o].op.Iterator? && j < |keep| && keep[j]
    ensures |Compact(x, keep).cmds| == NextAt(keep, |keep|)
    ensures 0 <= x.cmds[j].arg <= |keep|
    ensures MovedTo(x, keep, j).op == x.cmds[j].op
    ensures MovedTo(x, keep, j).arg == NextAt(keep, x.cmds[j].arg)
  {
    CompactPatched(x, model, keep);
    NextAtStrict(keep, j, |keep|);
    var a := MovedTo(x, keep, j).arg;
    assert CommandOk(x, o) && IteratorSlotOk(x, o, x.cmds[o].op.sections, j);
    assert Patched(a, x, keep, |x.fields|, j);
    forall f | f in x.fields && f.cmd == j ensures f == Field(j, None, Whole, true) {
      var o' := FieldKind(x, model, f);
      OneOwner(x, model, o, o', j);
    }
    if exists f :: f in x.fields && f.cmd == j {
      CoveredBy(a, x, keep, j, Field(j, None, Whole, true));
    } else {
      Uncovered(a, x, keep, j);
    }
  }

  function MovedBound(keep: seq<bool>, o: nat, b: int): int
    requires b == 0 || 0 <= o + b <= |keep|
    requires o <= |keep|
  {
    if b == 0 then 0 else NextAt(keep, o + b) - NextAt(keep, o)
  }

  lemma BoundInRange(cmds: seq<Command>, o: nat, f: Field)
    requires o + 3 < |cmds| && PipelineBoundsOk(cmds, o) && f in PipelineFields(o)
    ensures var b := Stored(cmds[f.cmd].arg, f.half); 0 <= b && o + b <= |cmds| && (!f.zeroIsAbsent ==> b != 0)
  {}

  lemma MovedStored(x: Stream, model: seq<seq<Ty>>, keep: seq<bool>, f: Field)
    requires WellFormed(x, model) && |keep| == |x.cmds| && f in x.fields && f.cmd < |keep| && keep[f.cmd]
    ensures |Compact(x, keep).cmds| == NextAt(keep, |keep|)
    ensures Stored(MovedTo(x, keep, f.cmd).arg, f.half) == NewStored(x.cmds, keep, f)
  {
    CompactPatched(x, model, keep);
    NextAtStrict(keep, f.cmd, |keep|);
    CoveredBy(MovedTo(x, keep, f.cmd).arg, x, keep, f.cmd, f);
  }

  lemma NewStoredBound(cmds: seq<Command>, keep: seq<bool>, o: nat, f: Field, b: int)
    requires |keep| == |cmds| && o <= |cmds| && f.cmd < |cmds| && f.base == Some(o)
    requires b == Stored(cmds[f.cmd].arg, f.half) && 0 <= b && o + b <= |cmds| && (!f.zeroIsAbsent ==> b != 0)
    ensures NewStored(cmds, keep, f) == MovedBound(keep, o, b)
  {
    if b != 0 { assert ReadField(cmds, f) == Some(o + b); }
  }

  lemma MovedPart(x: Stream, model: seq<seq<Ty>>, keep: seq<bool>, o: nat, f: Field)
    requires WellFormed(x, model) && |keep| == |x.cmds| && o < |x.cmds| && !IsData(x, o) && x.cmds[o].op.Pipeline?
    requires f in PipelineFields(o) && f.cmd < |keep| && keep[f.cmd]
    ensures |Compact(x, keep).cmds| == NextAt(keep, |keep|)
    ensures var b := Stored(x.cmds[f.cmd].arg, f.half);
      && 0 <= b && o + b <= |keep| && (!f.zeroIsAbsent ==> b != 0)
      && Stored(MovedTo(x, keep, f.cmd).arg, f.half) == MovedBound(keep, o, b)
  {
    CompactPatched(x, model, keep);
    PipelineOk(x, model, o);
    BoundInRange(x.cmds, o, f);
    PipelineFieldBase(o, f);
    NewStoredBound(x.cmds, keep, o, f, Stored(x.cmds[f.cmd].arg, f.half));
    MovedStored(x, model, keep, f);
  }

  lemma MovedAux(x: Stream, model: seq<seq<Ty>>, keep: seq<bool>, o: nat)
    requires WellFormed(x, model) && |keep| == |x.cmds| && o < |x.cmds| && !IsData(x, o) && x.cmds[o].op.Pipeline?
    requires o + 3 < |x.cmds| && keep[o + 3]
    ensures |Compact(x, keep).cmds| == NextAt(keep, |keep|)
    ensures MovedTo(x, keep, o + 3).arg == x.cmds[o + 3].arg
  {
    hide LowHalf, HighHalf, PipelineBoundsOk;
    CompactPatched(x, model, keep);
    NextAtStrict(keep, o + 3, |keep|);
    PipelineOk(x, model, o);
    forall f | f in x.fields ensures f.cmd != o + 3 {
      if f.cmd == o + 3 {
        var o' := FieldKind(x, model, f);
        assert Owns(x, o, o + 3);
        OneOwner(x, model, o, o', o + 3);
      }
    }
    Uncovered(MovedTo(x, keep, o + 3).arg, x, keep, o + 3);
  }

  // --- the same facts about any array of moved commands ---------------------------------

  ghost predicate MovedAt(x: Stream, keep: seq<bool>, z: seq<Command>, i: nat)
    requires |keep| == |x.cmds| && i < |keep|
  {
    && NextAt(keep, i) < |z|
    && var c, c' := x.cmds[i], z[NextAt(keep, i)];
      && c'.op == c.op
      && (!IsData(x, i) && IsBranch(c.op) ==> 0 <= c.arg <= |keep| && c'.arg == NextAt(keep, c.arg))
      && (!IsData(x, i) && c.op.ScopeGuard? ==>
            0 <= LowHalf(c.arg) <= |keep| && LowHalf(c'.arg) == NextAt(keep, LowHalf(c.arg)) && HighHalf(c'.arg) == HighHalf(c.arg))
      && (!IsData(x, i) && !Steers(c.op) ==> c' == c)
  }

  ghost predicate SlotMovedAt(x: Stream, keep: seq<bool>, z: seq<Command>, j: nat)
    requires |keep| == |x.cmds| && j < |keep|
  {
    NextAt(keep, j) < |z| && 0 <= x.cmds[j].arg <= |keep| && z[NextAt(keep, j)].arg == NextAt(keep, x.cmds[j].arg)
  }

  ghost predicate BoundMovedAt(x: Stream, keep: seq<bool>, z: seq<Command>, o: nat, f: Field)
    requires |keep| == |x.cmds| && f.cmd < |keep| && o <= |keep|
  {
    var b := Stored(x.cmds[f.cmd].arg, f.half);
    && NextAt(keep, f.cmd) < |z|
    && 0 <= b && o + b <= |keep| && (!f.zeroIsAbsent ==> b != 0)
    && Stored(z[NextAt(keep, f.cmd)].arg, f.half) == MovedBound(keep, o, b)
  }

  lemma CompactMoves(x: Stream, model: seq<seq<Ty>>, keep: seq<bool>, i: nat)
    requires WellFormed(x, model) && |keep| == |x.cmds| && i < |keep| && keep[i]
    ensures |Compact(x, keep).cmds| == NextAt(keep, |keep|)
    ensures MovedAt(x, keep, Compact(x, keep).cmds, i)
  {
    CompactPatched(x, model, keep);
    NextAtStrict(keep, i, |keep|);
    if !IsData(x, i) {
      MovedCommand(x, model, keep, i);
      assert CommandOk(x, i);
    }
  }

  lemma CompactMovesSlot(x: Stream, model: seq<seq<Ty>>, keep: seq<bool>, o: nat, j: nat)
    requires WellFormed(x, model) && |keep| == |x.cmds| && Owns(x, o, j) && x.cmds[o].op.Iterator? && j < |keep| && keep[j]
    ensures SlotMovedAt(x, keep, Compact(x, keep).cmds, j)
  {
    MovedSlot(x, model, keep, o, j);
    NextAtStrict(keep, j, |keep|);
  }

  lemma CompactMovesBound(x: Stream, model: seq<seq<Ty>>, keep: seq<bool>, o: nat, f: Field)
    requires WellFormed(x, model) && |keep| == |x.cmds| && o < |x.cmds| && !IsData(x, o) && x.cmds[o].op.Pipeline?
    requires f in PipelineFields(o) && f.cmd < |keep| && keep[f.cmd]
    ensures BoundMovedAt(x, keep, Compact(x, keep).cmds, o, f)
  {
    MovedPart(x, model, keep, o, f);
    NextAtStrict(keep, f.cmd, |keep|);
  }
}
