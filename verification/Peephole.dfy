/**
  The peephole's two theorems: the optimised stream runs the way the original did, and
  it is again a stream the pass accepts.
*/
module Peephole {
  import opened Machine
  import opened Simulation
  import opened Optimizer
  import opened Transforms
  import opened Streams
  import opened Compaction
  import opened Relocation

  // --- what well-formedness gives the transforms ----------------------------------------

  lemma BranchEntry(x: Stream, model: seq<seq<Ty>>, i: nat)
    requires WellFormed(x, model) && i < |x.cmds| && !IsData(x, i) && Steers(x.cmds[i].op)
    ensures i < TargetOf(x.cmds[i]) <= |x.cmds| && Entry(FlagsOf(x), TargetOf(x.cmds[i]))
  {
    assert CommandOk(x, i);
    if IsBranch(x.cmds[i].op) { FieldEntry(x, Field(i, None, Whole, false), x.cmds[i].arg); }
    else { FieldEntry(x, Field(i, None, Low, false), LowHalf(x.cmds[i].arg)); }
  }

  lemma IteratorLinked(x: Stream, model: seq<seq<Ty>>, i: nat)
    requires WellFormed(x, model) && i < |x.cmds| && !IsData(x, i) && x.cmds[i].op.Iterator?
    ensures LinkedAt(x.cmds, FlagsOf(x), i)
  {
    var m := x.cmds[i].op.sections;
    assert CommandOk(x, i);
    StartEntry(x, model, i, m);
    forall j: nat | i < j <= i + m ensures FlagsOf(x).data[j] { assert IteratorSlotOk(x, i, m, j); }
    forall k: nat | SectionOf(x.cmds, i, k).Some?
      ensures Entry(FlagsOf(x), SectionOf(x.cmds, i, k).value.start) && Entry(FlagsOf(x), SectionOf(x.cmds, i, k).value.end)
    {
      StartEntry(x, model, i, k);
      assert IteratorSlotOk(x, i, m, i + 1 + k);
      FieldEntry(x, Field(i + 1 + k, None, Whole, true), x.cmds[i + 1 + k].arg);
    }
  }

  lemma PipelineLinked(x: Stream, model: seq<seq<Ty>>, o: nat)
    requires WellFormed(x, model) && o < |x.cmds| && !IsData(x, o) && x.cmds[o].op.Pipeline?
    ensures LinkedAt(x.cmds, FlagsOf(x), o)
  {
    hide LowHalf, HighHalf, WellFormed;
    PipelineOk(x, model, o);
    var ranges, tail := x.cmds[o + 1].arg, x.cmds[o + 2].arg;
    BoundEntry(x, o, Field(o + 2, Some(o), High, false), HighHalf(tail));
    if LowHalf(ranges) != 0 {
      BoundEntry(x, o, Field(o + 1, Some(o), Low, true), LowHalf(ranges));
      BoundEntry(x, o, Field(o + 1, Some(o), High, true), HighHalf(ranges));
    }
    if LowHalf(tail) != 0 { BoundEntry(x, o, Field(o + 2, Some(o), Low, true), LowHalf(tail)); }
    assert forall j: nat :: o < j <= o + 3 ==> FlagsOf(x).data[j];
  }

  lemma StreamLinked(x: Stream, model: seq<seq<Ty>>)
    requires WellFormed(x, model)
    ensures Linked(x.cmds, FlagsOf(x))
  {
    var f := FlagsOf(x);
    forall i: nat | i < |x.cmds| && !f.data[i] ensures LinkedAt(x.cmds, f, i) {
      if Steers(x.cmds[i].op) { BranchEntry(x, model, i); }
      if x.cmds[i].op.Iterator? { IteratorLinked(x, model, i); }
      if x.cmds[i].op.Pipeline? { PipelineLinked(x, model, i); }
    }
  }

  lemma InnerJumpEnters(x: Stream, model: seq<seq<Ty>>, first: nat, r: nat, last: nat, j: nat)
    requires WellFormed(x, model) && Confined(x, first, r, last) && first < j < last && j != r
    ensures Entered(FlagsOf(x), first, last)
  {
    BranchEntry(x, model, j);
  }

  /** A recorded push that nothing enters holds no jump, so it is exactly push, read, unwind. */
  lemma StreamPushes(x: Stream, model: seq<seq<Ty>>)
    requires WellFormed(x, model)
    ensures PushesOk(x.cmds, FlagsOf(x), model, x.pushes)
  {
    var f := FlagsOf(x);
    forall p | p in x.pushes && p.cmd < p.unwind < |x.cmds| && IsErase(x.cmds, f, p.unwind) && !Entered(f, p.cmd, p.unwind)
      ensures p.unwind == p.cmd + 2 && !f.data[p.cmd] && !f.data[p.cmd + 1]
      ensures x.cmds[p.cmd].op.PushContext? && x.cmds[p.cmd + 1].op.Read? && x.cmds[p.unwind].arg == |model[p.cmd]|
    {
      assert PushOk(x, model, p);
      var r: nat :| Confined(x, p.cmd, r, p.unwind);
      if r != p.cmd + 1 { InnerJumpEnters(x, model, p.cmd, r, p.unwind, p.cmd + 1); }
      if p.unwind != r + 1 { InnerJumpEnters(x, model, p.cmd, r, p.unwind, r + 1); }
    }
  }

  // --- the transforms together ----------------------------------------------------------

  function OriginalCode(x: Stream, f: Flags, model: seq<seq<Ty>>): (c: Code)
    requires |model| == |x.cmds| && Fits(f, |x.cmds|)
    ensures Shaped(c)
  {
    Code(x.cmds, AllKept(|x.cmds|), f.data, model, true)
  }

  /** The program the transforms leave behind, and that it runs like the original between entries. */
  lemma DecideSound(w: World, x: Stream, model: seq<seq<Ty>>) returns (d: Code)
    requires WellFormed(x, model)
    ensures Watched(d, FlagsOf(x)) && d.cmds == Decide(x).0.cmds && d.keep == Decide(x).0.keep
    ensures OnlyDrops(d.cmds, FlagsOf(x), d.keep) && Rewritten(x.cmds, FlagsOf(x), d.cmds)
    ensures EntriesRefine(w, OriginalCode(x, FlagsOf(x), model), d, FlagsOf(x))
    ensures forall i :: 0 <= i < |x.cmds| && !x.cmds[i].op.Read? ==> d.model[i] == model[i]
  {
    hide Run;
    var f := FlagsOf(x);
    StreamLinked(x, model);
    StreamPushes(x, model);
    var c0 := OriginalCode(x, f, model);
    var c1 := DropPushesSound(w, c0, f, model, x.pushes, 0, Marked(c0.keep, x.descs));
    var c2 := FuseErasesSound(w, c1, f, 0);
    FuseErasesEffect(f, 0, Peeped(c1.cmds, c1.keep));
    var c3 := c2.(keep := DropJumps(c2.cmds, f, c2.keep));
    forall pc: nat, hi: nat | Entry(f, pc) && Entry(f, hi) ensures RangeRefines(w, c2, pc, hi, c3, pc, hi) {
      forall s, e ensures Refines(Run(w, c2, pc, hi, s, e), Run(w, c3, pc, hi, s, e)) { DropJumpsSound(w, c2, f, pc, hi, s, e); }
    }
    d := ThreadJumpsSound(w, c3, f, x.fields, 0);
    EntriesCompose(w, c0, c1, c2, f);
    EntriesCompose(w, c0, c2, c3, f);
    EntriesCompose(w, c0, c3, d, f);
  }

  // --- the transforms keep the stream well formed -----------------------------------------

  function Rewrite(x: Stream, cmds: seq<Command>, descs: seq<Description>): Stream { x.(cmds := cmds, descs := descs) }

  lemma RewrittenOwns(x: Stream, f: Flags, cmds: seq<Command>, descs: seq<Description>, o: nat, j: nat)
    requires f == FlagsOf(x) && Rewritten(x.cmds, f, cmds)
    ensures Owns(Rewrite(x, cmds, descs), o, j) == Owns(x, o, j)
  {}

  lemma RewrittenCommandOk(x: Stream, model: seq<seq<Ty>>, cmds: seq<Command>, descs: seq<Description>, i: nat)
    requires WellFormed(x, model) && Rewritten(x.cmds, FlagsOf(x), cmds) && Linked(cmds, FlagsOf(x))
    requires i < |cmds| && !IsData(x, i)
    ensures CommandOk(Rewrite(x, cmds, descs), i)
  {
    var y := Rewrite(x, cmds, descs);
    assert CommandOk(x, i) && LinkedAt(cmds, FlagsOf(x), i);
    if cmds[i].op.Iterator? {
      forall j: nat | i < j <= i + cmds[i].op.sections ensures IteratorSlotOk(y, i, cmds[i].op.sections, j) {
        assert IteratorSlotOk(x, i, cmds[i].op.sections, j);
      }
    } else if cmds[i].op.Pipeline? {
      PipelineOk(x, model, i);
    }
  }

  lemma RewrittenFieldOk(x: Stream, model: seq<seq<Ty>>, cmds: seq<Command>, descs: seq<Description>, g: Field)
    requires WellFormed(x, model) && Rewritten(x.cmds, FlagsOf(x), cmds) && g in x.fields
    ensures FieldOk(Rewrite(x, cmds, descs), g)
  {
    var o := FieldKind(x, model, g);
    var y := Rewrite(x, cmds, descs);
    if g.base.Some? || g.zeroIsAbsent {
      RewrittenOwns(x, FlagsOf(x), cmds, descs, o, g.cmd);
      assert Owns(y, o, g.cmd) && y.cmds[o].op == x.cmds[o].op;
    } else {
      assert !IsData(y, g.cmd) && y.cmds[g.cmd].op == x.cmds[g.cmd].op;
    }
  }

  /** A chain of jumps that starts inside a confined region does not leave it. */
  lemma {:induction false} FollowConfined(x: Stream, f: Flags, keep: seq<bool>, target: int, steps: nat, first: nat, r: nat, last: nat)
    requires f.data == FlagsOf(x).data && Fits(f, |x.cmds|) && |keep| == |x.cmds| && Confined(x, first, r, last) && first < target <= last && !x.cmds[last].op.Jump?
    ensures target <= Follow(x.cmds, f, keep, target, steps) <= last
    decreases steps
  {
    if steps > 0 && target < last && target != r && x.cmds[target].op.Jump? && keep[target] && !f.observed[target] {
      FollowConfined(x, f, keep, x.cmds[target].arg, steps - 1, first, r, last);
    }
  }

  lemma {:induction false} ThreadConfined(x: Stream, f: Flags, keep: seq<bool>, fields: seq<Field>, k: nat, first: nat, r: nat, last: nat)
    requires f.data == FlagsOf(x).data && Fits(f, |x.cmds|) && |keep| == |x.cmds| && k <= |fields|
    requires Confined(x, first, r, last) && !IsBranch(x.cmds[last].op)
    ensures Confined(Rewrite(x, ThreadJumps(x.cmds, f, keep, fields, k), x.descs), first, r, last)
    decreases |fields| - k
  {
    if k == |fields| {
      assert Rewrite(x, x.cmds, x.descs) == x;
    } else if !Threads(x.cmds, f, keep, fields[k]) {
      ThreadConfined(x, f, keep, fields, k + 1, first, r, last);
    } else {
      var q := fields[k].cmd;
      var y := Rewrite(x, x.cmds[q := Command(x.cmds[q].op, Follow(x.cmds, f, keep, x.cmds[q].arg, |x.cmds|))], x.descs);
      if first < q < last { FollowConfined(x, f, keep, x.cmds[q].arg, |x.cmds|, first, r, last); }
      assert FlagsOf(y).data == FlagsOf(x).data;
      assert Confined(y, first, r, last);
      ThreadConfined(y, f, keep, fields, k + 1, first, r, last);
    }
  }

  lemma FuseConfined(x: Stream, cmds: seq<Command>, first: nat, r: nat, last: nat)
    requires OnlyFuses(x.cmds, FlagsOf(x), cmds) && Confined(x, first, r, last)
    ensures Confined(Rewrite(x, cmds, x.descs), first, r, last)
  {
    forall j: nat | first < j < last ensures cmds[j] == x.cmds[j] {}
  }

  lemma DescsConfined(x: Stream, descs: seq<Description>, first: nat, r: nat, last: nat)
    requires Confined(x, first, r, last)
    ensures Confined(x.(descs := descs), first, r, last)
  {}

  lemma RewrittenPushOk(x: Stream, model: seq<seq<Ty>>, fused: seq<Command>, keep: seq<bool>, model': seq<seq<Ty>>, descs: seq<Description>, p: DeadPush)
    requires WellFormed(x, model) && OnlyFuses(x.cmds, FlagsOf(x), fused) && |keep| == |x.cmds| == |model'| && p in x.pushes
    requires forall i :: 0 <= i < |x.cmds| && !x.cmds[i].op.Read? ==> model'[i] == model[i]
    requires Rewritten(x.cmds, FlagsOf(x), ThreadJumps(fused, FlagsOf(x), keep, x.fields, 0))
    ensures PushOk(Rewrite(x, ThreadJumps(fused, FlagsOf(x), keep, x.fields, 0), descs), model', p)
  {
    var f := FlagsOf(x);
    var cmds := ThreadJumps(fused, f, keep, x.fields, 0);
    assert PushOk(x, model, p);
    var r: nat :| Confined(x, p.cmd, r, p.unwind);
    FuseConfined(x, fused, p.cmd, r, p.unwind);
    var y := Rewrite(x, fused, x.descs);
    ThreadConfined(y, f, keep, x.fields, 0, p.cmd, r, p.unwind);
    DescsConfined(Rewrite(y, cmds, x.descs), descs, p.cmd, r, p.unwind);
    assert Rewrite(y, cmds, x.descs).(descs := descs) == Rewrite(x, cmds, descs);
    assert cmds[p.cmd] == x.cmds[p.cmd];
    assert Confined(Rewrite(x, cmds, descs), p.cmd, r, p.unwind);
    assert cmds[p.unwind].op.Erase? ==> cmds[p.unwind] == x.cmds[p.unwind];
  }

  /** A push that stays keeps its unwind. */
  ghost predicate KeepsUnwinds(pushes: seq<DeadPush>, keep: seq<bool>) {
    forall p :: p in pushes && p.cmd < |keep| && p.unwind < |keep| && keep[p.cmd] ==> keep[p.unwind]
  }

  lemma DistinctUnwinds(x: Stream, model: seq<seq<Ty>>, p: DeadPush, q: DeadPush)
    requires WellFormed(x, model) && p in x.pushes && q in x.pushes && p.unwind == q.unwind
    ensures p.cmd == q.cmd
  {
    assert PushOk(x, model, p) && PushOk(x, model, q);
  }

  lemma {:induction false} DropPushesKeepUnwinds(x: Stream, model: seq<seq<Ty>>, k: nat, m: Marked)
    requires WellFormed(x, model) && k <= |x.pushes| && |m.keep| == |x.cmds| && KeepsUnwinds(x.pushes, m.keep)
    ensures KeepsUnwinds(x.pushes, DropPushes(x.cmds, FlagsOf(x), x.pushes, k, m).keep)
    decreases |x.pushes| - k
  {
    if k < |x.pushes| {
      var p := x.pushes[k];
      if Droppable(x.cmds, FlagsOf(x), p, m.keep) {
        var m' := Marked(m.keep[p.cmd := false][p.unwind := false], UnscopeAll(p, m.descs));
        forall q | q in x.pushes && q.cmd < |m'.keep| && q.unwind < |m'.keep| && m'.keep[q.cmd] ensures m'.keep[q.unwind] {
          assert PushOk(x, model, p) && PushOk(x, model, q);
          if q.unwind == p.unwind { DistinctUnwinds(x, model, p, q); }
        }
        DropPushesKeepUnwinds(x, model, k + 1, m');
      } else {
        DropPushesKeepUnwinds(x, model, k + 1, m);
      }
    }
  }

  /** The unwind of a push that stays is behind a read or a jump, so no fused run swallows it. */
  lemma DecideKeepsUnwinds(x: Stream, model: seq<seq<Ty>>)
    requires WellFormed(x, model)
    ensures KeepsUnwinds(x.pushes, Decide(x).0.keep)
  {
    hide FuseErases, DropPushes, CommandOk, FieldOk, SlotOk;
    var f := FlagsOf(x);
    var m := Marked(AllKept(|x.cmds|), x.descs);
    DropPushesKeepUnwinds(x, model, 0, m);
    var dead := DropPushes(x.cmds, f, x.pushes, 0, m);
    var before := Peeped(x.cmds, dead.keep);
    FuseErasesEffect(f, 0, before);
    var fused := FuseErases(f, 0, before);
    FuseOnlyClears(f, 0, before);
    forall p | p in x.pushes && p.cmd < |x.cmds| && p.unwind < |x.cmds| && DropJumps(fused.cmds, f, fused.keep)[p.cmd]
      ensures DropJumps(fused.cmds, f, fused.keep)[p.unwind]
    {
      assert PushOk(x, model, p);
      var r: nat :| Confined(x, p.cmd, r, p.unwind);
      assert dead.keep[p.cmd] && dead.keep[p.unwind];
      assert !IsErase(x.cmds, f, p.unwind - 1);
      assert fused.cmds[p.unwind].op.Erase? || fused.cmds[p.unwind].op.EraseRange?;
    }
  }

  lemma {:induction false} FuseOnlyClears(f: Flags, i: nat, x: Peeped)
    requires |x.keep| == |x.cmds| && Fits(f, |x.cmds|) && i <= |x.cmds|
    ensures forall j: nat :: j < |x.cmds| && FuseErases(f, i, x).keep[j] ==> x.keep[j]
    decreases |x.cmds| - i
  {
    if i < |x.cmds| {
      if !x.keep[i] || f.observed[i] || !IsErase(x.cmds, f, i) {
        FuseOnlyClears(f, i + 1, x);
      } else {
        var r := FusionAt(x.cmds, f, x.keep, i);
        FuseOnlyClears(f, i + r.count, if Fusable(r) then FuseAt(x, i, r.count, r.lowest) else x);
      }
    }
  }

  /** After the transforms the stream is well formed for the model they leave, and only droppable commands are dropped. */
  lemma DecideWellFormed(w: World, x: Stream, model: seq<seq<Ty>>) returns (d: Code)
    requires WellFormed(x, model)
    ensures Watched(d, FlagsOf(x)) && d.cmds == Decide(x).0.cmds && d.keep == Decide(x).0.keep
    ensures EntriesRefine(w, OriginalCode(x, FlagsOf(x), model), d, FlagsOf(x))
    ensures var y := Rewrite(x, d.cmds, Decide(x).1);
            WellFormed(y, d.model) && KeepsOwners(y, d.keep) && KeepsUnwinds(y.pushes, d.keep) && FlagsOf(y).data == FlagsOf(x).data
  {
    hide Run;
    d := DecideSound(w, x, model);
    var f := FlagsOf(x);
    var descs := Decide(x).1;
    var y := Rewrite(x, d.cmds, descs);
    DecideKeepsUnwinds(x, model);
    var dead := DropPushes(x.cmds, f, x.pushes, 0, Marked(AllKept(|x.cmds|), x.descs));
    var fused := FuseErases(f, 0, Peeped(x.cmds, dead.keep));
    FuseErasesEffect(f, 0, Peeped(x.cmds, dead.keep));
    forall i: nat | i < |y.cmds| && !IsData(y, i) ensures CommandOk(y, i) { RewrittenCommandOk(x, model, d.cmds, descs, i); }
    forall g | g in y.fields ensures FieldOk(y, g) { RewrittenFieldOk(x, model, d.cmds, descs, g); }
    forall j: nat | j in y.slots ensures SlotOk(y, j) {
      assert SlotOk(x, j);
      var o: nat :| Owns(x, o, j);
      RewrittenOwns(x, f, d.cmds, descs, o, j);
    }
    forall p | p in y.pushes ensures PushOk(y, d.model, p) {
      RewrittenPushOk(x, model, fused.cmds, DropJumps(fused.cmds, f, fused.keep), d.model, descs, p);
    }
  }

  // --- compaction keeps the stream well formed --------------------------------------------

  lemma {:induction false} RelocFieldsIn(keep: seq<bool>, fields: seq<Field>, k: nat, f: Field)
    requires k <= |fields|
    ensures f in RelocFields(keep, fields, k) <==> exists j: nat :: j < k && FieldSurvives(keep, fields[j]) && f == RelocField(keep, fields[j])
  {
    if k > 0 { RelocFieldsIn(keep, fields, k - 1, f); }
  }

  lemma {:induction false} RelocSlotsIn(keep: seq<bool>, slots: seq<nat>, k: nat, j: nat)
    requires k <= |slots|
    ensures j in RelocSlots(keep, slots, k) <==> exists i: nat :: i < k && slots[i] < |keep| && keep[slots[i]] && j == Reloc(keep, slots[i])
  {
    if k > 0 { RelocSlotsIn(keep, slots, k - 1, j); }
  }

  lemma {:induction false} RelocPushesIn(keep: seq<bool>, pushes: seq<DeadPush>, k: nat, p: DeadPush)
    requires k <= |pushes| && p in RelocPushes(keep, pushes, k)
    ensures exists q :: q in pushes[..k] && q.cmd < |keep| && keep[q.cmd] && p == RelocPush(keep, q)
  {
    if p in RelocPushes(keep, pushes, k - 1) {
      RelocPushesIn(keep, pushes, k - 1, p);
      var q :| q in pushes[..k - 1] && q.cmd < |keep| && keep[q.cmd] && p == RelocPush(keep, q);
      assert q in pushes[..k];
    } else {
      assert pushes[k - 1] in pushes[..k];
    }
  }

  lemma CompactParts(x: Stream, keep: seq<bool>)
    requires |keep| == |x.cmds|
    ensures Compact(x, keep).fields == RelocFields(keep, x.fields, |x.fields|)
    ensures Compact(x, keep).slots == RelocSlots(keep, x.slots, |x.slots|)
    ensures Compact(x, keep).pushes == RelocPushes(keep, x.pushes, |x.pushes|)
    ensures |Compact(x, keep).cmds| == NextAt(keep, |keep|)
  {
    SurvivorsLength(x.cmds, keep, |keep|);
  }

  lemma FieldMoves(x: Stream, keep: seq<bool>, f: Field)
    requires |keep| == |x.cmds| && f in x.fields && FieldSurvives(keep, f)
    ensures RelocField(keep, f) in Compact(x, keep).fields
  {
    var j :| 0 <= j < |x.fields| && x.fields[j] == f;
    RelocFieldsIn(keep, x.fields, |x.fields|, RelocField(keep, f));
  }

  /** A survivor is a data slot of the compacted stream exactly when it was one before. */
  lemma DataMoves(x: Stream, keep: seq<bool>, i: nat)
    requires |keep| == |x.cmds| && i < |keep| && keep[i]
    ensures IsData(Compact(x, keep), NextAt(keep, i)) <==> IsData(x, i)
  {
    RelocSlotsIn(keep, x.slots, |x.slots|, NextAt(keep, i));
    if IsData(x, i) {
      var j :| 0 <= j < |x.slots| && x.slots[j] == i;
    } else if IsData(Compact(x, keep), NextAt(keep, i)) {
      var k: nat :| k < |x.slots| && x.slots[k] < |keep| && keep[x.slots[k]] && NextAt(keep, i) == Reloc(keep, x.slots[k]);
      NextAtDistinct(keep, i, x.slots[k]);
    }
  }

  /** What is known about a compaction when its well-formedness is proved. */
  ghost predicate Compacting(x: Stream, model: seq<seq<Ty>>, keep: seq<bool>) {
    && WellFormed(x, model) && |keep| == |x.cmds| && KeepsOwners(x, keep) && KeepsUnwinds(x.pushes, keep)
    && Moved(x, keep, Compact(x, keep).cmds)
  }

  /** A survivor moves with its opcode; an operand that is no index moves unchanged. */
  lemma SurvivorMoves(x: Stream, model: seq<seq<Ty>>, keep: seq<bool>, i: nat)
    requires Compacting(x, model, keep) && i < |keep| && keep[i]
    ensures |keep| == |x.cmds| == |model|
    ensures var y := Compact(x, keep);
      && NextAt(keep, i) < |y.cmds| && y.cmds[NextAt(keep, i)].op == x.cmds[i].op
      && (IsData(y, NextAt(keep, i)) <==> IsData(x, i))
      && (!IsData(x, i) && !Steers(x.cmds[i].op) ==> y.cmds[NextAt(keep, i)] == x.cmds[i])
  {
    hide Compact, NextAt, WellFormed;
    assert |model| == |x.cmds| by { WellFormedSize(x, model); }
    assert MovedAt(x, keep, Compact(x, keep).cmds, i);
    DataMoves(x, keep, i);
  }

  lemma WellFormedSize(x: Stream, model: seq<seq<Ty>>)
    requires WellFormed(x, model)
    ensures |model| == |x.cmds|
  {}

  lemma CompactingSize(x: Stream, model: seq<seq<Ty>>, keep: seq<bool>)
    requires Compacting(x, model, keep)
    ensures |keep| == |x.cmds| == |model|
  {}

  lemma OwnerOf(x: Stream, model: seq<seq<Ty>>, keep: seq<bool>, f: Field) returns (o: nat)
    requires Compacting(x, model, keep) && f in x.fields
    ensures |keep| == |x.cmds| && f.cmd < |keep| && FieldOk(x, f)
    ensures f.base.Some? || f.zeroIsAbsent ==> Owns(x, o, f.cmd)
    ensures f.base == None && f.zeroIsAbsent ==> x.cmds[o].op.Iterator?
    ensures f.base.Some? ==> f.base == Some(o)
  {
    hide NextAt, LowHalf, HighHalf;
    o := FieldKind(x, model, f);
  }

  lemma PushKnown(x: Stream, model: seq<seq<Ty>>, keep: seq<bool>, p: DeadPush) returns (r: nat)
    requires Compacting(x, model, keep) && p in x.pushes
    ensures |keep| == |x.cmds| == |model| && p.cmd < r < p.unwind < |keep| && Confined(x, p.cmd, r, p.unwind) && (keep[p.cmd] ==> keep[p.unwind])
    ensures !IsData(x, p.cmd) && x.cmds[p.cmd].op.PushContext? && !IsData(x, p.unwind)
    ensures x.cmds[p.unwind].op.EraseRange? || (x.cmds[p.unwind].op.Erase? && x.cmds[p.unwind].arg == |model[p.cmd]|)
  {
    hide CommandOk, FieldOk, SlotOk, MovedAt;
    assert PushOk(x, model, p);
    r :| Confined(x, p.cmd, r, p.unwind);
  }

  lemma MovedBranchOk(x: Stream, model: seq<seq<Ty>>, keep: seq<bool>, i: nat)
    requires Compacting(x, model, keep) && i < |keep| && keep[i] && !IsData(x, i) && Steers(x.cmds[i].op)
    ensures NextAt(keep, i) < |Compact(x, keep).cmds| && CommandOk(Compact(x, keep), NextAt(keep, i))
  {
    hide Compact, NextAt, Survivors;
    assert CommandOk(x, i) && MovedAt(x, keep, Compact(x, keep).cmds, i);
    BehindSurvivor(keep, i, TargetOf(x.cmds[i]));
    NextAtBounds(keep, TargetOf(x.cmds[i]), |keep|);
    FieldMoves(x, keep, Field(i, None, if x.cmds[i].op.ScopeGuard? then Low else Whole, false));
  }

  lemma MovedOwnsForward(x: Stream, model: seq<seq<Ty>>, keep: seq<bool>, o: nat, j: nat)
    requires Compacting(x, model, keep) && Owns(x, o, j)
    ensures j < |keep| && keep[o] && keep[j] && NextAt(keep, j) == NextAt(keep, o) + (j - o)
    ensures Owns(Compact(x, keep), NextAt(keep, o), NextAt(keep, j))
  {
    hide Compact, NextAt, Survivors;
    OwnedSlots(x, model, o, j);
    SlotsFollow(x, model, keep, o, j);
    assert MovedAt(x, keep, Compact(x, keep).cmds, o);
    DataMoves(x, keep, o);
  }

  lemma MovedIteratorSlotOk(x: Stream, model: seq<seq<Ty>>, keep: seq<bool>, o: nat, j: nat)
    requires Compacting(x, model, keep) && o < |keep| && keep[o] && !IsData(x, o) && x.cmds[o].op.Iterator? && o < j <= o + x.cmds[o].op.sections
    ensures j < |keep| && keep[j] && NextAt(keep, j) == NextAt(keep, o) + (j - o) && NextAt(keep, j) < |Compact(x, keep).cmds|
    ensures IteratorSlotOk(Compact(x, keep), NextAt(keep, o), x.cmds[o].op.sections, NextAt(keep, j))
  {
    hide Compact, NextAt, Survivors;
    var m := x.cmds[o].op.sections;
    MovedOwnsForward(x, model, keep, o, j);
    MovedOwnsForward(x, model, keep, o, o + m);
    OwnedSlots(x, model, o, j);
    DataMoves(x, keep, j);
    NextAtStrict(keep, j, |keep|);
    SlotArgMoved(x, model, keep, Compact(x, keep).cmds, o, j);
    assert CommandOk(x, o) && IteratorSlotOk(x, o, m, j);
    if x.cmds[j].arg != 0 {
      BehindSurvivor(keep, o + m, x.cmds[j].arg);
      NextAtBounds(keep, x.cmds[j].arg, |keep|);
      FieldMoves(x, keep, Field(j, None, Whole, true));
    }
  }

  lemma MovedIteratorOk(x: Stream, model: seq<seq<Ty>>, keep: seq<bool>, o: nat)
    requires Compacting(x, model, keep) && o < |keep| && keep[o] && !IsData(x, o) && x.cmds[o].op.Iterator?
    ensures NextAt(keep, o) < |Compact(x, keep).cmds| && CommandOk(Compact(x, keep), NextAt(keep, o))
  {
    hide Compact, NextAt, Survivors;
    var y := Compact(x, keep);
    var m, o' := x.cmds[o].op.sections, NextAt(keep, o);
    assert CommandOk(x, o) && MovedAt(x, keep, y.cmds, o);
    MovedIteratorSlotOk(x, model, keep, o, o + m);
    forall j': nat | o' < j' <= o' + m ensures j' < |y.cmds| && IteratorSlotOk(y, o', m, j') {
      MovedIteratorSlotOk(x, model, keep, o, o + (j' - o'));
    }
  }

  lemma MovedPipelineField(x: Stream, model: seq<seq<Ty>>, keep: seq<bool>, o: nat, f: Field)
    requires Compacting(x, model, keep) && o < |keep| && keep[o] && !IsData(x, o) && x.cmds[o].op.Pipeline? && f in PipelineFields(o)
    ensures f.cmd < |keep| && keep[f.cmd] && RelocField(keep, f) in Compact(x, keep).fields
    ensures RelocField(keep, f) == f.(cmd := NextAt(keep, o) + (f.cmd - o), base := Some(NextAt(keep, o)))
    ensures var b, b' := Stored(x.cmds[f.cmd].arg, f.half), Stored(DataArg(Compact(x, keep).cmds, NextAt(keep, o) + (f.cmd - o)), f.half);
      0 <= b' && NextAt(keep, o) + b' <= |Compact(x, keep).cmds| && (b' == 0 <==> b == 0)
  {
    hide LowHalf, HighHalf, Compact, NextAt, Survivors;
    PipelineOk(x, model, o);
    PipelineFieldBase(o, f);
    MovedOwnsForward(x, model, keep, o, f.cmd);
    FieldMoves(x, keep, f);
    BoundMoved(x, model, keep, Compact(x, keep).cmds, o, f);
    var b := Stored(x.cmds[f.cmd].arg, f.half);
    NextAtBounds(keep, o, |keep|);
    NextAtBounds(keep, o, o + b);
    NextAtBounds(keep, o + b, |keep|);
  }

  lemma MovedSlotData(x: Stream, model: seq<seq<Ty>>, keep: seq<bool>, o: nat, j: nat)
    requires Compacting(x, model, keep) && Owns(x, o, j)
    ensures NextAt(keep, o) + (j - o) < |Compact(x, keep).cmds| && IsData(Compact(x, keep), NextAt(keep, o) + (j - o))
  {
    MovedOwnsForward(x, model, keep, o, j);
    OwnedSlots(x, model, o, j);
    DataMoves(x, keep, j);
    NextAtStrict(keep, j, |keep|);
  }

  lemma MovedPipelineOk(x: Stream, model: seq<seq<Ty>>, keep: seq<bool>, o: nat)
    requires Compacting(x, model, keep) && o < |keep| && keep[o] && !IsData(x, o) && x.cmds[o].op.Pipeline?
    ensures NextAt(keep, o) < |Compact(x, keep).cmds| && CommandOk(Compact(x, keep), NextAt(keep, o))
  {
    hide LowHalf, HighHalf, Compact, NextAt, Survivors;
    var y, o' := Compact(x, keep), NextAt(keep, o);
    PipelineOk(x, model, o);
    assert MovedAt(x, keep, y.cmds, o);
    MovedSlotData(x, model, keep, o, o + 1);
    MovedSlotData(x, model, keep, o, o + 2);
    MovedSlotData(x, model, keep, o, o + 3);
    MovedPipelineField(x, model, keep, o, Field(o + 1, Some(o), Low, true));
    MovedPipelineField(x, model, keep, o, Field(o + 1, Some(o), High, true));
    MovedPipelineField(x, model, keep, o, Field(o + 2, Some(o), Low, true));
    MovedPipelineField(x, model, keep, o, Field(o + 2, Some(o), High, false));
    assert PipelineBoundsOk(y.cmds, o');
    assert forall f :: f in PipelineFields(o') ==> f in y.fields;
  }

  lemma MovedCommandOk(x: Stream, model: seq<seq<Ty>>, keep: seq<bool>, i': nat)
    requires Compacting(x, model, keep) && i' < |Compact(x, keep).cmds| && !IsData(Compact(x, keep), i')
    ensures CommandOk(Compact(x, keep), i')
  {
    hide Compact, NextAt, Survivors;
    var i := Origin(keep, |keep|, i');
    DataMoves(x, keep, i);
    assert MovedAt(x, keep, Compact(x, keep).cmds, i);
    if Steers(x.cmds[i].op) { MovedBranchOk(x, model, keep, i); }
    if x.cmds[i].op.Iterator? { MovedIteratorOk(x, model, keep, i); }
    if x.cmds[i].op.Pipeline? { MovedPipelineOk(x, model, keep, i); }
  }

  lemma MovedFieldOk(x: Stream, model: seq<seq<Ty>>, keep: seq<bool>, f': Field)
    requires Compacting(x, model, keep) && f' in Compact(x, keep).fields
    ensures FieldOk(Compact(x, keep), f')
  {
    hide Compact, NextAt, Compacting, LowHalf, HighHalf, IsData;
    CompactingSize(x, model, keep);
    CompactParts(x, keep);
    RelocFieldsIn(keep, x.fields, |x.fields|, f');
    var j: nat :| j < |x.fields| && FieldSurvives(keep, x.fields[j]) && f' == RelocField(keep, x.fields[j]);
    var f := x.fields[j];
    var o := OwnerOf(x, model, keep, f);
    SurvivorMoves(x, model, keep, f.cmd);
    if f.base.Some? || f.zeroIsAbsent {
      MovedOwnsForward(x, model, keep, o, f.cmd);
      SurvivorMoves(x, model, keep, o);
      if f.base.Some? { MovedPipelineField(x, model, keep, o, f); PipelineFieldMoves(o, NextAt(keep, o), f); }
    }
  }

  lemma PipelineFieldMoves(o: nat, o': nat, f: Field)
    requires f in PipelineFields(o)
    ensures f.cmd >= o && f.(cmd := o' + (f.cmd - o), base := Some(o')) in PipelineFields(o')
  {}

  lemma MovedSlotOk(x: Stream, model: seq<seq<Ty>>, keep: seq<bool>, j': nat)
    requires Compacting(x, model, keep) && j' in Compact(x, keep).slots
    ensures SlotOk(Compact(x, keep), j')
  {
    hide Compact, NextAt, Survivors;
    CompactParts(x, keep);
    RelocSlotsIn(keep, x.slots, |x.slots|, j');
    var i: nat :| i < |x.slots| && x.slots[i] < |keep| && keep[x.slots[i]] && j' == Reloc(keep, x.slots[i]);
    var j := x.slots[i];
    assert j in x.slots && SlotOk(x, j);
    var o: nat :| Owns(x, o, j);
    MovedOwnsForward(x, model, keep, o, j);
    NextAtStrict(keep, j, |keep|);
  }

  lemma MovedConfined(x: Stream, model: seq<seq<Ty>>, keep: seq<bool>, first: nat, r: nat, last: nat)
    requires Compacting(x, model, keep) && Confined(x, first, r, last) && keep[first] && keep[last]
    ensures Confined(Compact(x, keep), NextAt(keep, first), NextAt(keep, r), NextAt(keep, last))
  {
    hide Compact, NextAt, Survivors;
    var y := Compact(x, keep);
    assert keep[r];
    BehindSurvivor(keep, first, r);
    BehindSurvivor(keep, r, last);
    NextAtStrict(keep, last, |keep|);
    DataMoves(x, keep, r);
    assert MovedAt(x, keep, y.cmds, r);
    forall j': nat | NextAt(keep, first) < j' < NextAt(keep, last) && j' != NextAt(keep, r)
      ensures !IsData(y, j') && y.cmds[j'].op.Jump? && j' < y.cmds[j'].arg <= NextAt(keep, last)
    {
      var j := Origin(keep, |keep|, j');
      if j <= first { NextAtBounds(keep, j, first); }
      if j >= last { NextAtBounds(keep, last, j); }
      DataMoves(x, keep, j);
      assert MovedAt(x, keep, y.cmds, j);
      BehindSurvivor(keep, j, x.cmds[j].arg);
      NextAtBounds(keep, x.cmds[j].arg, last);
    }
  }

  lemma MovedPushOk(x: Stream, model: seq<seq<Ty>>, keep: seq<bool>, p': DeadPush)
    requires Compacting(x, model, keep) && p' in Compact(x, keep).pushes
    ensures |Survivors(model, keep, |keep|)| == |Compact(x, keep).cmds|
    ensures PushOk(Compact(x, keep), Survivors(model, keep, |keep|), p')
  {
    hide Compact, NextAt, Survivors, Compacting, IsData, Confined;
    CompactingSize(x, model, keep);
    SurvivorsLength(model, keep, |keep|);
    CompactParts(x, keep);
    RelocPushesIn(keep, x.pushes, |x.pushes|, p');
    var p :| p in x.pushes[..|x.pushes|] && p.cmd < |keep| && keep[p.cmd] && p' == RelocPush(keep, p);
    var r := PushKnown(x, model, keep, p);
    MovedConfined(x, model, keep, p.cmd, r, p.unwind);
    SurvivorMoves(x, model, keep, p.cmd);
    SurvivorMoves(x, model, keep, p.unwind);
    SurvivorAt(model, keep, p.cmd, |keep|);
    NextAtStrict(keep, p.cmd, p.unwind);
    assert p' == DeadPush(NextAt(keep, p.cmd), NextAt(keep, p.unwind), p.slot);
    assert Confined(Compact(x, keep), p'.cmd, NextAt(keep, r), p'.unwind);
  }

  /** The relocated tables satisfy the pass's own precondition. */
  lemma CompactWellFormed(x: Stream, model: seq<seq<Ty>>, keep: seq<bool>)
    requires WellFormed(x, model) && |keep| == |x.cmds| && KeepsOwners(x, keep) && KeepsUnwinds(x.pushes, keep)
    ensures WellFormed(Compact(x, keep), Survivors(model, keep, |keep|))
  {
    CompactMoved(x, model, keep);
    SurvivorsLength(model, keep, |keep|);
    var y := Compact(x, keep);
    forall i: nat | i < |y.cmds| && !IsData(y, i) ensures CommandOk(y, i) { MovedCommandOk(x, model, keep, i); }
    forall f | f in y.fields ensures FieldOk(y, f) { MovedFieldOk(x, model, keep, f); }
    forall j: nat | j in y.slots ensures SlotOk(y, j) { MovedSlotOk(x, model, keep, j); }
    forall p | p in y.pushes ensures PushOk(y, Survivors(model, keep, |keep|), p) { MovedPushOk(x, model, keep, p); }
  }

  // --- the theorems -----------------------------------------------------------------------

  /** Running with nothing dropped and staying on the model is just running. */
  lemma {:induction false} Unwatch(w: World, c: Code, pc: nat, hi: nat, s: seq<Value>, e: Env)
    requires Shaped(c) && forall i :: 0 <= i < |c.cmds| ==> c.keep[i]
    ensures Refines(Run(w, c, pc, hi, s, e), Run(w, Plain(c.cmds), pc, hi, s, e))
    decreases hi - pc
  {
    hide Run, Iterate, Step;
    var d := Plain(c.cmds);
    if pc >= hi || pc >= |c.cmds| {
      RunEnds(w, c, pc, hi, s, e);
      RunEnds(w, d, pc, hi, s, e);
    } else if c.watch && !OnModel(w, c, pc, s) {
      RunOff(w, c, pc, hi, s, e);
    } else {
      forall t: nat, h: nat | t > pc && h <= hi ensures RangeRefines(w, c, t, h, d, t, h) {
        forall s, e ensures Refines(Run(w, c, t, h, s, e), Run(w, d, t, h, s, e)) { Unwatch(w, c, t, h, s, e); }
      }
      if IsCallbackOp(c.cmds[pc].op) {
        RunCallback(w, c, pc, hi, s, e);
        RunCallback(w, d, pc, hi, s, e);
        if ResumeOf(c.cmds, pc) > pc {
          assert SectionsRefine(w, c, pc, hi, d, pc, hi);
          IterateRefines(w, c, pc, hi, d, pc, hi, [], s, e, w.limit);
          assert RangeRefines(w, c, ResumeOf(c.cmds, pc), hi, d, ResumeOf(c.cmds, pc), hi);
        }
      } else {
        RunStep(w, c, pc, hi, s, e);
        RunStep(w, d, pc, hi, s, e);
        var r := Step(w, pc, c.cmds[pc], s, e);
        if r.Next? && r.pc > pc { assert RangeRefines(w, c, r.pc, hi, d, r.pc, hi); }
      }
    }
  }

  /** A stream run from its first command to its end, under the compiler's model. */
  ghost function RunModel(w: World, x: Stream, model: seq<seq<Ty>>, s: seq<Value>, e: Env): Outcome
    requires |model| == |x.cmds|
  {
    Run(w, OriginalCode(x, FlagsOf(x), model), 0, |x.cmds|, s, e)
  }

  /** `script_container::process`: the whole command array, nothing watched. */
  function Process(w: World, cmds: seq<Command>, s: seq<Value>, e: Env): Outcome {
    Run(w, Plain(cmds), 0, |cmds|, s, e)
  }

  /** Staying on the model, a stream's run is the machine's run. */
  lemma ModelIsProcess(w: World, x: Stream, model: seq<seq<Ty>>, s: seq<Value>, e: Env)
    requires |model| == |x.cmds|
    ensures Refines(RunModel(w, x, model, s, e), Process(w, x.cmds, s, e))
  {
    Unwatch(w, OriginalCode(x, FlagsOf(x), model), 0, |x.cmds|, s, e);
  }

  lemma {:induction false} AllKeptCount(keep: seq<bool>, n: nat)
    requires n <= |keep|
    ensures NextAt(keep, n) == n <==> forall i :: 0 <= i < n ==> keep[i]
  {
    if n > 0 { AllKeptCount(keep, n - 1); NextAtBounds(keep, 0, n - 1); }
  }

  /**
    The optimised stream, entered at a relocated entry and run to a relocated bound, ends
    the way the original did: same stack, environment and error. It is again well formed,
    for the model its commands then have.
  */
  lemma OptimizeSound(w: World, x: Stream, model: seq<seq<Ty>>) returns (model': seq<seq<Ty>>)
    requires WellFormed(x, model)
    ensures WellFormed(Optimize(x), model')
    ensures var f, keep := FlagsOf(x), Decide(x).0.keep;
      forall pc: nat, hi: nat :: Entry(f, pc) && Entry(f, hi) ==>
        RangeRefines(w, OriginalCode(x, f, model), pc, hi,
                     OriginalCode(Optimize(x), FlagsOf(Optimize(x)), model'), NextAt(keep, pc), NextAt(keep, hi))
  {
    hide Run;
    var d := DecideWellFormed(w, x, model);
    var f := FlagsOf(x);
    var y := Rewrite(x, d.cmds, Decide(x).1);
    var keep := d.keep;
    AllKeptCount(keep, |keep|);
    if NextAt(keep, |keep|) == |x.cmds| {
      model' := d.model;
      assert OriginalCode(y, FlagsOf(y), d.model) == d;
      forall pc: nat, hi: nat | Entry(f, pc) && Entry(f, hi)
        ensures RangeRefines(w, OriginalCode(x, f, model), pc, hi, d, NextAt(keep, pc), NextAt(keep, hi))
      {
        AllKeptCount(keep, pc);
        AllKeptCount(keep, hi);
        assert RangeRefines(w, OriginalCode(x, f, model), pc, hi, d, pc, hi);
      }
    } else {
      model' := Survivors(d.model, keep, |keep|);
      CompactWellFormed(y, d.model, keep);
      CompactMoved(y, d.model, keep);
      CompactedIsOriginal(y, d.model, keep);
      var z := Compact(y, keep).cmds;
      var c, c' := Uncompacted(y, d.model, keep), Compacted(y, d.model, keep, z);
      forall pc: nat, hi: nat | Entry(f, pc) && Entry(f, hi)
        ensures RangeRefines(w, OriginalCode(x, f, model), pc, hi, c', NextAt(keep, pc), NextAt(keep, hi))
      {
        assert RangeRefines(w, OriginalCode(x, f, model), pc, hi, d, pc, hi) && c == d;
        forall s, e ensures Refines(Run(w, OriginalCode(x, f, model), pc, hi, s, e), Run(w, c', NextAt(keep, pc), NextAt(keep, hi), s, e)) {
          assert Refines(Run(w, OriginalCode(x, f, model), pc, hi, s, e), Run(w, d, pc, hi, s, e));
          CompactionSound(w, y, d.model, keep, z, pc, hi, s, e);
        }
      }
    }
  }

  /** The compacted program is the compacted stream taken as an original. */
  lemma CompactedIsOriginal(x: Stream, model: seq<seq<Ty>>, keep: seq<bool>)
    requires WellFormed(x, model) && |keep| == |x.cmds| && Moved(x, keep, Compact(x, keep).cmds)
    ensures |Survivors(model, keep, |keep|)| == |Compact(x, keep).cmds|
    ensures Compacted(x, model, keep, Compact(x, keep).cmds) ==
            OriginalCode(Compact(x, keep), FlagsOf(Compact(x, keep)), Survivors(model, keep, |keep|))
  {
    var y := Compact(x, keep);
    SurvivorsLength(model, keep, |keep|);
    SurvivorsLength(FlagsOf(x).data, keep, |keep|);
    var data := Survivors(FlagsOf(x).data, keep, |keep|);
    forall j: nat | j < |data| ensures data[j] == FlagsOf(y).data[j] {
      var i := Origin(keep, |keep|, j);
      SurvivorAt(FlagsOf(x).data, keep, i, |keep|);
      DataMoves(x, keep, i);
    }
    assert data == FlagsOf(y).data;
  }

  /** A whole script: whatever the original computed on the model, the optimised commands compute. */
  lemma OptimizedProcess(w: World, x: Stream, model: seq<seq<Ty>>, s: seq<Value>, e: Env)
    requires WellFormed(x, model)
    ensures Refines(RunModel(w, x, model, s, e), Process(w, x.cmds, s, e))
    ensures Refines(RunModel(w, x, model, s, e), Process(w, Optimize(x).cmds, s, e))
  {
    hide Run;
    ModelIsProcess(w, x, model, s, e);
    var model' := OptimizeSound(w, x, model);
    OptimizedWhole(w, x, model, model', s, e);
    ModelIsProcess(w, Optimize(x), model', s, e);
  }

  lemma OptimizedWhole(w: World, x: Stream, model: seq<seq<Ty>>, model': seq<seq<Ty>>, s: seq<Value>, e: Env)
    requires |model| == |x.cmds| && |model'| == |Optimize(x).cmds|
    requires var f, keep := FlagsOf(x), Decide(x).0.keep;
      forall pc: nat, hi: nat :: Entry(f, pc) && Entry(f, hi) ==>
        RangeRefines(w, OriginalCode(x, f, model), pc, hi,
                     OriginalCode(Optimize(x), FlagsOf(Optimize(x)), model'), NextAt(keep, pc), NextAt(keep, hi))
    ensures Refines(RunModel(w, x, model, s, e), RunModel(w, Optimize(x), model', s, e))
  {
    hide Run;
    var keep := Decide(x).0.keep;
    assert Entry(FlagsOf(x), 0) && Entry(FlagsOf(x), |x.cmds|);
    SurvivorsLength(Decide(x).0.cmds, keep, |keep|);
    assert RangeRefines(w, OriginalCode(x, FlagsOf(x), model), 0, |x.cmds|,
                        OriginalCode(Optimize(x), FlagsOf(Optimize(x)), model'), NextAt(keep, 0), NextAt(keep, |keep|));
  }

  /** The pass may run again over its own output, as it does after every streamed row. */
  lemma OptimizedTwice(w: World, x: Stream, model: seq<seq<Ty>>, s: seq<Value>, e: Env)
    requires WellFormed(x, model)
    ensures Refines(RunModel(w, x, model, s, e), Process(w, Optimize(Optimize(x)).cmds, s, e))
  {
    hide Run;
    var model' := OptimizeSound(w, x, model);
    OptimizedWhole(w, x, model, model', s, e);
    OptimizedProcess(w, Optimize(x), model', s, e);
  }
}
