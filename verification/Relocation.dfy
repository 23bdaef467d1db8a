/**
  The compacted program runs the way the uncompacted one did: every index the machine
  reads out of it is the relocated one.
*/
module Relocation {
  import opened Machine
  import opened Simulation
  import opened Optimizer
  import opened Streams
  import opened Compaction

  /** The uncompacted program: dropped commands still in place. */
  ghost function Uncompacted(x: Stream, model: seq<seq<Ty>>, keep: seq<bool>): (c: Code)
    requires |model| == |keep| == |x.cmds|
    ensures Shaped(c)
  {
    Code(x.cmds, keep, FlagsOf(x).data, model, true)
  }

  ghost function Compacted(x: Stream, model: seq<seq<Ty>>, keep: seq<bool>, z: seq<Command>): (c: Code)
    requires |model| == |keep| == |x.cmds| && |z| == NextAt(keep, |keep|)
    ensures Shaped(c)
  {
    SurvivorsLength(FlagsOf(x).data, keep, |keep|);
    SurvivorsLength(model, keep, |keep|);
    Code(z, AllKept(NextAt(keep, |keep|)), Survivors(FlagsOf(x).data, keep, |keep|), Survivors(model, keep, |keep|), true)
  }

  /** `z` holds the survivors of `x` in order, with every command index relocated. */
  ghost predicate Moved(x: Stream, keep: seq<bool>, z: seq<Command>) {
    && |keep| == |x.cmds| && |z| == NextAt(keep, |keep|)
    && (forall i: nat {:trigger MovedAt(x, keep, z, i)} :: i < |keep| && keep[i] ==> MovedAt(x, keep, z, i))
    && (forall o: nat, j: nat {:trigger Owns(x, o, j), SlotMovedAt(x, keep, z, j)} ::
          j < |keep| && keep[j] && Owns(x, o, j) && x.cmds[o].op.Iterator? ==> SlotMovedAt(x, keep, z, j))
    && (forall o: nat, f: Field {:trigger BoundMovedAt(x, keep, z, o, f)} :: o < |keep| && !IsData(x, o) && x.cmds[o].op.Pipeline? && f in PipelineFields(o) && f.cmd < |keep| && keep[f.cmd] ==>
          BoundMovedAt(x, keep, z, o, f))
    && (forall o: nat {:trigger NextAt(keep, o + 3)} :: o + 3 < |keep| && !IsData(x, o) && x.cmds[o].op.Pipeline? && keep[o + 3] ==> DataArg(z, NextAt(keep, o + 3)) == x.cmds[o + 3].arg)
  }

  lemma CompactMoved(x: Stream, model: seq<seq<Ty>>, keep: seq<bool>)
    requires WellFormed(x, model) && |keep| == |x.cmds|
    ensures Moved(x, keep, Compact(x, keep).cmds)
  {
    CompactPatched(x, model, keep);
    var z := Compact(x, keep).cmds;
    forall i: nat | i < |keep| && keep[i] ensures MovedAt(x, keep, z, i) { CompactMoves(x, model, keep, i); }
    forall o: nat, j: nat | j < |keep| && keep[j] && Owns(x, o, j) && x.cmds[o].op.Iterator? ensures SlotMovedAt(x, keep, z, j) {
      CompactMovesSlot(x, model, keep, o, j);
    }
    forall o: nat, f: Field | o < |keep| && !IsData(x, o) && x.cmds[o].op.Pipeline? && f in PipelineFields(o) && f.cmd < |keep| && keep[f.cmd]
      ensures BoundMovedAt(x, keep, z, o, f)
    {
      CompactMovesBound(x, model, keep, o, f);
    }
    forall o: nat | o + 3 < |keep| && !IsData(x, o) && x.cmds[o].op.Pipeline? && keep[o + 3] ensures DataArg(z, NextAt(keep, o + 3)) == x.cmds[o + 3].arg {
      MovedAux(x, model, keep, o);
      NextAtStrict(keep, o + 3, |keep|);
    }
  }

  // --- sections ------------------------------------------------------------------------

  /** The data slots behind a surviving owner survive and stay directly behind it. */
  lemma SlotsFollow(x: Stream, model: seq<seq<Ty>>, keep: seq<bool>, o: nat, j: nat)
    requires WellFormed(x, model) && |keep| == |x.cmds| && KeepsOwners(x, keep)
    requires o < |x.cmds| && keep[o] && !IsData(x, o) && IsCallbackOp(x.cmds[o].op) && o <= j <= o + SlotsOf(x.cmds[o].op)
    ensures j < |x.cmds| && keep[j] && NextAt(keep, j) == NextAt(keep, o) + (j - o)
    ensures NextAt(keep, j + 1) == NextAt(keep, o) + (j - o) + 1
  {
    forall k: nat | o < k <= o + SlotsOf(x.cmds[o].op) ensures k < |x.cmds| && keep[k] {
      assert Owns(x, o, k);
      OwnedSlots(x, model, o, k);
    }
    if j > o {
      assert Owns(x, o, j);
      OwnedSlots(x, model, o, j);
    }
    NextAtKept(keep, o, j);
  }

  /** A bound behind a survivor stays behind it, so a present bound never becomes absent. */
  lemma BehindSurvivor(keep: seq<bool>, o: nat, t: nat)
    requires o < t <= |keep| && keep[o]
    ensures NextAt(keep, o) < NextAt(keep, t)
  {
    NextAtStrict(keep, o, t);
  }

  lemma SlotArgMoved(x: Stream, model: seq<seq<Ty>>, keep: seq<bool>, z: seq<Command>, o: nat, j: nat)
    requires WellFormed(x, model) && Moved(x, keep, z) && KeepsOwners(x, keep)
    requires o < |x.cmds| && keep[o] && !IsData(x, o) && x.cmds[o].op.Iterator? && o < j <= o + x.cmds[o].op.sections
    ensures j < |x.cmds| && 0 <= x.cmds[j].arg <= |keep| && (x.cmds[j].arg != 0 ==> o + x.cmds[o].op.sections < x.cmds[j].arg)
    ensures DataArg(z, NextAt(keep, o) + (j - o)) == NextAt(keep, x.cmds[j].arg)
    ensures NextAt(keep, x.cmds[j].arg) == 0 <==> x.cmds[j].arg == 0
  {
    SlotsFollow(x, model, keep, o, j);
    assert Owns(x, o, j);
    assert SlotMovedAt(x, keep, z, j);
    assert CommandOk(x, o) && IteratorSlotOk(x, o, x.cmds[o].op.sections, j);
    if x.cmds[j].arg != 0 { BehindSurvivor(keep, o, x.cmds[j].arg); }
  }

  lemma {:induction false} StartMoved(x: Stream, model: seq<seq<Ty>>, keep: seq<bool>, z: seq<Command>, o: nat, k: nat)
    requires WellFormed(x, model) && Moved(x, keep, z) && KeepsOwners(x, keep)
    requires o < |x.cmds| && keep[o] && !IsData(x, o) && x.cmds[o].op.Iterator? && k <= x.cmds[o].op.sections
    ensures var m := x.cmds[o].op.sections; var t := SectionStart(x.cmds, o, m, k);
      0 <= t <= |keep| && SectionStart(z, NextAt(keep, o), m, k) == NextAt(keep, t)
  {
    var m := x.cmds[o].op.sections;
    if k == 0 {
      SlotsFollow(x, model, keep, o, o + m);
    } else {
      SlotArgMoved(x, model, keep, z, o, o + k);
      StartMoved(x, model, keep, z, o, k - 1);
    }
  }

  function MovedSection(keep: seq<bool>, s: Section): Section
    requires 0 <= s.start <= |keep| && 0 <= s.end <= |keep|
  {
    Section(NextAt(keep, s.start), NextAt(keep, s.end))
  }

  ghost predicate SectionMoved(x: Stream, keep: seq<bool>, z: seq<Command>, o: nat, k: nat)
    requires |keep| == |x.cmds| && o < |x.cmds| && NextAt(keep, o) < |z|
  {
    match SectionOf(x.cmds, o, k)
    case None => SectionOf(z, NextAt(keep, o), k) == None
    case Some(s) =>
      && 0 <= s.start <= |keep| && 0 <= s.end <= |keep|
      && SectionOf(z, NextAt(keep, o), k) == Some(MovedSection(keep, s))
  }

  ghost predicate CallbackMoved(x: Stream, keep: seq<bool>, z: seq<Command>, o: nat)
    requires |keep| == |x.cmds| && o < |x.cmds|
  {
    && NextAt(keep, o) < |z|
    && z[NextAt(keep, o)] == x.cmds[o]
    && AuxOf(z, NextAt(keep, o)) == AuxOf(x.cmds, o)
    && 0 <= ResumeOf(x.cmds, o) <= |keep|
    && ResumeOf(z, NextAt(keep, o)) == NextAt(keep, ResumeOf(x.cmds, o))
    && forall k: nat :: SectionMoved(x, keep, z, o, k)
  }

  lemma IteratorMoved(x: Stream, model: seq<seq<Ty>>, keep: seq<bool>, z: seq<Command>, o: nat)
    requires WellFormed(x, model) && Moved(x, keep, z) && KeepsOwners(x, keep)
    requires o < |x.cmds| && keep[o] && !IsData(x, o) && x.cmds[o].op.Iterator?
    ensures CallbackMoved(x, keep, z, o)
  {
    assert MovedAt(x, keep, z, o);
    var m := x.cmds[o].op.sections;
    StartMoved(x, model, keep, z, o, m);
    forall k: nat ensures SectionMoved(x, keep, z, o, k) {
      if k < m {
        SlotArgMoved(x, model, keep, z, o, o + 1 + k);
        StartMoved(x, model, keep, z, o, k);
      }
    }
  }

  lemma BoundMoved(x: Stream, model: seq<seq<Ty>>, keep: seq<bool>, z: seq<Command>, o: nat, f: Field)
    requires WellFormed(x, model) && Moved(x, keep, z) && KeepsOwners(x, keep)
    requires o < |x.cmds| && keep[o] && !IsData(x, o) && x.cmds[o].op.Pipeline? && f in PipelineFields(o)
    ensures f.cmd < |x.cmds| && BoundAt(x, keep, z, o, f)
  {
    PipelineOk(x, model, o);
    PipelineFieldBase(o, f);
    SlotsFollow(x, model, keep, o, f.cmd);
    assert BoundMovedAt(x, keep, z, o, f);
    var b := Stored(x.cmds[f.cmd].arg, f.half);
    if b != 0 { BehindSurvivor(keep, o, o + b); }
  }

  ghost predicate BoundAt(x: Stream, keep: seq<bool>, z: seq<Command>, o: nat, f: Field)
    requires |keep| == |x.cmds| && o <= |keep| && f.cmd < |x.cmds|
  {
    var o' := NextAt(keep, o);
    var b, b' := Stored(x.cmds[f.cmd].arg, f.half), Stored(DataArg(z, o' + (f.cmd - o)), f.half);
    0 <= b && o + b <= |keep| && (b' == 0 <==> b == 0) && (b != 0 ==> o' + b' == NextAt(keep, o + b))
  }

  lemma PipelineValueMoved(x: Stream, keep: seq<bool>, z: seq<Command>, o: nat)
    requires |keep| == |x.cmds| && o + 3 < |x.cmds| && x.cmds[o].op.Pipeline? && PipelineBoundsOk(x.cmds, o)
    requires NextAt(keep, o) < |z| && z[NextAt(keep, o)].op.Pipeline?
    requires BoundAt(x, keep, z, o, Field(o + 1, Some(o), Low, true)) && BoundAt(x, keep, z, o, Field(o + 1, Some(o), High, true))
    ensures SectionMoved(x, keep, z, o, 0)
  {}

  lemma PipelineDefaultMoved(x: Stream, keep: seq<bool>, z: seq<Command>, o: nat)
    requires |keep| == |x.cmds| && o + 3 < |x.cmds| && x.cmds[o].op.Pipeline? && PipelineBoundsOk(x.cmds, o)
    requires NextAt(keep, o) < |z| && z[NextAt(keep, o)].op.Pipeline?
    requires BoundAt(x, keep, z, o, Field(o + 2, Some(o), Low, true)) && BoundAt(x, keep, z, o, Field(o + 2, Some(o), High, false))
    ensures 0 <= ResumeOf(x.cmds, o) <= |keep| && ResumeOf(z, NextAt(keep, o)) == NextAt(keep, ResumeOf(x.cmds, o))
    ensures SectionMoved(x, keep, z, o, 1)
  {}

  lemma PipelineMoved(x: Stream, model: seq<seq<Ty>>, keep: seq<bool>, z: seq<Command>, o: nat)
    requires WellFormed(x, model) && Moved(x, keep, z) && KeepsOwners(x, keep)
    requires o < |x.cmds| && keep[o] && !IsData(x, o) && x.cmds[o].op.Pipeline?
    ensures CallbackMoved(x, keep, z, o)
  {
    assert MovedAt(x, keep, z, o);
    PipelineOk(x, model, o);
    SlotsFollow(x, model, keep, o, o + 3);
    BoundMoved(x, model, keep, z, o, Field(o + 1, Some(o), Low, true));
    BoundMoved(x, model, keep, z, o, Field(o + 1, Some(o), High, true));
    BoundMoved(x, model, keep, z, o, Field(o + 2, Some(o), Low, true));
    BoundMoved(x, model, keep, z, o, Field(o + 2, Some(o), High, false));
    PipelineValueMoved(x, keep, z, o);
    PipelineDefaultMoved(x, keep, z, o);
    forall k: nat ensures SectionMoved(x, keep, z, o, k) {
      if k > 1 { assert SectionOf(x.cmds, o, k) == None; }
    }
  }

  // --- running -------------------------------------------------------------------------

  lemma SameModel(w: World, x: Stream, model: seq<seq<Ty>>, keep: seq<bool>, z: seq<Command>, pc: nat, s: seq<Value>)
    requires |model| == |x.cmds| && Moved(x, keep, z) && pc < |x.cmds| && keep[pc] && !IsData(x, pc)
    requires OnModel(w, Uncompacted(x, model, keep), pc, s)
    ensures NextAt(keep, pc) < |z|
    ensures OnModel(w, Compacted(x, model, keep, z), NextAt(keep, pc), s)
  {
    assert MovedAt(x, keep, z, pc);
    SurvivorAt(model, keep, pc, |keep|);
    SurvivorAt(FlagsOf(x).data, keep, pc, |keep|);
  }

  /** The same step, with the command index it moves to relocated. */
  predicate StepMoved(keep: seq<bool>, pc: nat, r: StepResult, r': StepResult)
    requires pc <= |keep|
  {
    if r.Stop? then r' == r
    else
      && pc < r.pc <= |keep|
      && NextAt(keep, pc) < NextAt(keep, r.pc)
      && r' == Next(NextAt(keep, r.pc), r.stack, r.env)
  }

  lemma CompactedStep(w: World, x: Stream, model: seq<seq<Ty>>, keep: seq<bool>, z: seq<Command>, pc: nat, s: seq<Value>, e: Env)
    requires WellFormed(x, model) && Moved(x, keep, z)
    requires pc < |keep| && keep[pc] && !IsData(x, pc) && !IsCallbackOp(x.cmds[pc].op)
    ensures NextAt(keep, pc) < |z| && !IsCallbackOp(z[NextAt(keep, pc)].op)
    ensures StepMoved(keep, pc, Step(w, pc, x.cmds[pc], s, e), Step(w, NextAt(keep, pc), z[NextAt(keep, pc)], s, e))
  {
    assert MovedAt(x, keep, z, pc) && CommandOk(x, pc);
    var c, c' := x.cmds[pc], z[NextAt(keep, pc)];
    assert NextAt(keep, pc + 1) == NextAt(keep, pc) + 1;
    if Steers(c.op) {
      assert BranchStep(w, c', s, e) == BranchStep(w, c, s, e);
      BehindSurvivor(keep, pc, TargetOf(c));
    }
  }

  lemma {:induction false} CompactionSound(w: World, x: Stream, model: seq<seq<Ty>>, keep: seq<bool>, z: seq<Command>,
                                           pc: nat, hi: nat, s: seq<Value>, e: Env)
    requires WellFormed(x, model) && Moved(x, keep, z) && KeepsOwners(x, keep)
    requires pc <= |keep| && hi <= |keep|
    ensures Refines(Run(w, Uncompacted(x, model, keep), pc, hi, s, e),
                    Run(w, Compacted(x, model, keep, z), NextAt(keep, pc), NextAt(keep, hi), s, e))
    decreases hi - pc, 1
  {
    hide Run, Step;
    var a, b := Uncompacted(x, model, keep), Compacted(x, model, keep, z);
    if pc >= hi {
      NextAtBounds(keep, hi, pc);
      RunEnds(w, a, pc, hi, s, e);
      RunEnds(w, b, NextAt(keep, pc), NextAt(keep, hi), s, e);
    } else if !keep[pc] {
      RunDropped(w, a, pc, hi, s, e);
      CompactionSound(w, x, model, keep, z, pc + 1, hi, s, e);
    } else if !OnModel(w, a, pc, s) {
      RunOff(w, a, pc, hi, s, e);
    } else {
      BehindSurvivor(keep, pc, hi);
      SameModel(w, x, model, keep, z, pc, s);
      assert MovedAt(x, keep, z, pc);
      if IsCallbackOp(x.cmds[pc].op) {
        CallbackSound(w, x, model, keep, z, pc, hi, s, e);
      } else {
        CompactedStep(w, x, model, keep, z, pc, s, e);
        RunStep(w, a, pc, hi, s, e);
        RunStep(w, b, NextAt(keep, pc), NextAt(keep, hi), s, e);
        var r := Step(w, pc, x.cmds[pc], s, e);
        if r.Next? { CompactionSound(w, x, model, keep, z, r.pc, hi, r.stack, r.env); }
      }
    }
  }

  /** The sections a callback may run agree, by the simulation on their shorter ranges. */
  lemma {:induction false} SectionsSound(w: World, x: Stream, model: seq<seq<Ty>>, keep: seq<bool>, z: seq<Command>, pc: nat, hi: nat)
    requires WellFormed(x, model) && Moved(x, keep, z) && KeepsOwners(x, keep)
    requires pc < hi <= |keep| && keep[pc] && CallbackMoved(x, keep, z, pc)
    ensures SectionsRefine(w, Uncompacted(x, model, keep), pc, hi, Compacted(x, model, keep, z), NextAt(keep, pc), NextAt(keep, hi))
    decreases hi - pc, 0, 0
  {
    hide Run;
    var a, b := Uncompacted(x, model, keep), Compacted(x, model, keep, z);
    var pc', hi' := NextAt(keep, pc), NextAt(keep, hi);
    forall k: nat ensures
      match SectionOf(a.cmds, pc, k)
      case None => SectionOf(b.cmds, pc', k) == None
      case Some(Section(from, end)) =>
        pc < from <= end <= hi ==>
          match SectionOf(b.cmds, pc', k)
          case None => false
          case Some(Section(from', end')) => pc' < from' <= end' <= hi' && RangeRefines(w, a, from, end, b, from', end')
    {
      assert SectionMoved(x, keep, z, pc, k);
      match SectionOf(a.cmds, pc, k)
      case None =>
      case Some(Section(from, end)) =>
        if pc < from <= end <= hi {
          BehindSurvivor(keep, pc, from);
          NextAtBounds(keep, from, end);
          NextAtBounds(keep, end, hi);
          forall s, e ensures Refines(Run(w, a, from, end, s, e), Run(w, b, NextAt(keep, from), NextAt(keep, end), s, e)) {
            CompactionSound(w, x, model, keep, z, from, end, s, e);
          }
        }
    }
  }

  lemma {:induction false} CallbackSound(w: World, x: Stream, model: seq<seq<Ty>>, keep: seq<bool>, z: seq<Command>,
                                         pc: nat, hi: nat, s: seq<Value>, e: Env)
    requires WellFormed(x, model) && Moved(x, keep, z) && KeepsOwners(x, keep)
    requires pc < hi <= |keep| && keep[pc] && !IsData(x, pc) && IsCallbackOp(x.cmds[pc].op)
    requires OnModel(w, Uncompacted(x, model, keep), pc, s)
    ensures Refines(Run(w, Uncompacted(x, model, keep), pc, hi, s, e),
                    Run(w, Compacted(x, model, keep, z), NextAt(keep, pc), NextAt(keep, hi), s, e))
    decreases hi - pc, 0, 1
  {
    hide Run, Iterate;
    var a, b := Uncompacted(x, model, keep), Compacted(x, model, keep, z);
    if x.cmds[pc].op.Iterator? { IteratorMoved(x, model, keep, z, pc); } else { PipelineMoved(x, model, keep, z, pc); }
    BehindSurvivor(keep, pc, hi);
    SameModel(w, x, model, keep, z, pc, s);
    SectionsSound(w, x, model, keep, z, pc, hi);
    IterateRefines(w, a, pc, hi, b, NextAt(keep, pc), NextAt(keep, hi), [], s, e, w.limit);
    RunCallback(w, a, pc, hi, s, e);
    RunCallback(w, b, NextAt(keep, pc), NextAt(keep, hi), s, e);
    var resume := ResumeOf(x.cmds, pc);
    if resume > pc {
      BehindSurvivor(keep, pc, resume);
      var r := Iterate(w, a, pc, hi, [], s, e, w.limit);
      if r.Done? { CompactionSound(w, x, model, keep, z, resume, hi, r.stack, r.env); }
    }
  }
}
