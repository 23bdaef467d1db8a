/**
  What the code generator guarantees about the stream it hands to the peephole: every
  stored command index is recorded, nothing else is, and the recorded context pushes
  have the shape they were recorded for. The pass keeps this (Peephole.dfy), so
  it can run again after every streamed row.
*/
module Streams {
  import opened Machine
  import opened Simulation
  import opened Optimizer

  ghost predicate IsData(x: Stream, i: int) { i >= 0 && i in x.slots }

  /** A slot behind an iterator: no section, or a recorded end behind all the slots. */
  ghost predicate IteratorSlotOk(x: Stream, o: nat, m: nat, j: nat)
    requires j < |x.cmds|
  {
    && IsData(x, j)
    && (x.cmds[j].arg == 0 || (Field(j, None, Whole, true) in x.fields && o + m < x.cmds[j].arg <= |x.cmds|))
  }

  function PipelineFields(o: nat): set<Field> {
    {Field(o + 1, Some(o), Low, true), Field(o + 1, Some(o), High, true),
     Field(o + 2, Some(o), Low, true), Field(o + 2, Some(o), High, false)}
  }

  /** The section bounds of a list pipeline, relative to its own command; 0 means absent. */
  predicate PipelineBoundsOk(cmds: seq<Command>, o: nat)
    requires o + 3 < |cmds|
  {
    var ranges, tail := cmds[o + 1].arg, cmds[o + 2].arg;
    && 0 <= LowHalf(ranges) && o + LowHalf(ranges) <= |cmds|
    && 0 <= HighHalf(ranges) && o + HighHalf(ranges) <= |cmds|
    && (LowHalf(ranges) != 0 ==> HighHalf(ranges) != 0)
    && 0 <= LowHalf(tail) && o + LowHalf(tail) <= |cmds|
    && 0 < HighHalf(tail) && o + HighHalf(tail) <= |cmds|
  }

  ghost predicate CommandOk(x: Stream, i: nat)
    requires i < |x.cmds|
  {
    var c := x.cmds[i];
    && (IsBranch(c.op) ==> Field(i, None, Whole, false) in x.fields && i < c.arg <= |x.cmds|)
    && (c.op.ScopeGuard? ==> Field(i, None, Low, false) in x.fields && i < LowHalf(c.arg) <= |x.cmds|)
    && (c.op.Iterator? ==>
          && 1 <= c.op.sections && i + c.op.sections < |x.cmds|
          && forall j: nat :: i < j <= i + c.op.sections ==> IteratorSlotOk(x, i, c.op.sections, j))
    && (c.op.Pipeline? ==>
          && i + 3 < |x.cmds|
          && IsData(x, i + 1) && IsData(x, i + 2) && IsData(x, i + 3)
          && (forall f :: f in PipelineFields(i) ==> f in x.fields)
          && PipelineBoundsOk(x.cmds, i))
  }

  /** `o` is an iterator or a list pipeline that owns the data slot `j`. */
  ghost predicate Owns(x: Stream, o: nat, j: nat) {
    o < |x.cmds| && !IsData(x, o) && IsCallbackOp(x.cmds[o].op) && o < j <= o + SlotsOf(x.cmds[o].op)
  }

  ghost predicate FieldOk(x: Stream, f: Field) {
    && f.cmd < |x.cmds|
    && (f.base == None ==>
          if f.zeroIsAbsent then f.half == Whole && exists o: nat :: Owns(x, o, f.cmd) && x.cmds[o].op.Iterator?
          else !IsData(x, f.cmd) && ((f.half == Whole && IsBranch(x.cmds[f.cmd].op)) || (f.half == Low && x.cmds[f.cmd].op.ScopeGuard?)))
    && (f.base.Some? ==> Owns(x, f.base.value, f.cmd) && x.cmds[f.base.value].op.Pipeline? && f in PipelineFields(f.base.value))
  }

  ghost predicate SlotOk(x: Stream, j: nat) { j < |x.cmds| && exists o: nat :: Owns(x, o, j) }

  /** Between the push and its unwind: one read at `r`, and jumps that stay inside. */
  ghost predicate Confined(x: Stream, first: nat, r: nat, last: nat) {
    && first < r < last < |x.cmds|
    && !IsData(x, r) && x.cmds[r].op.Read?
    && forall j: nat :: first < j < last && j != r ==> !IsData(x, j) && x.cmds[j].op.Jump? && j < x.cmds[j].arg <= last
  }

  ghost predicate PushOk(x: Stream, model: seq<seq<Ty>>, p: DeadPush)
    requires |model| == |x.cmds|
  {
    && p.cmd < p.unwind < |x.cmds|
    && !IsData(x, p.cmd) && x.cmds[p.cmd].op.PushContext?
    && !IsData(x, p.unwind) && (x.cmds[p.unwind].op.Erase? || x.cmds[p.unwind].op.EraseRange?)
    && (x.cmds[p.unwind].op.Erase? ==> x.cmds[p.unwind].arg == |model[p.cmd]|)
    && exists r: nat :: Confined(x, p.cmd, r, p.unwind)
  }

  ghost predicate WellFormed(x: Stream, model: seq<seq<Ty>>) {
    && |model| == |x.cmds|
    && (forall i: nat {:trigger CommandOk(x, i)} :: i < |x.cmds| && !IsData(x, i) ==> CommandOk(x, i))
    && (forall f {:trigger FieldOk(x, f)} :: f in x.fields ==> FieldOk(x, f))
    && (forall j: nat {:trigger SlotOk(x, j)} :: j in x.slots ==> SlotOk(x, j))
    && (forall p {:trigger PushOk(x, model, p)} :: p in x.pushes ==> PushOk(x, model, p))
  }

  // --- consequences -------------------------------------------------------------------

  lemma OneOwner(x: Stream, model: seq<seq<Ty>>, o: nat, o': nat, j: nat)
    requires WellFormed(x, model) && Owns(x, o, j) && Owns(x, o', j)
    ensures o == o'
  {
    assert CommandOk(x, o) && CommandOk(x, o');
    if o < o' { OwnedSlots(x, model, o, o'); }
    if o' < o { OwnedSlots(x, model, o', o); }
  }

  lemma OwnedSlots(x: Stream, model: seq<seq<Ty>>, o: nat, j: nat)
    requires WellFormed(x, model) && Owns(x, o, j)
    ensures j < |x.cmds| && IsData(x, j)
  {
    assert CommandOk(x, o);
    if x.cmds[o].op.Iterator? { assert IteratorSlotOk(x, o, x.cmds[o].op.sections, j); }
  }

  /** Which kind of command a field sits on, and the owner when it is a data slot. */
  lemma FieldKind(x: Stream, model: seq<seq<Ty>>, f: Field) returns (o: nat)
    requires WellFormed(x, model) && f in x.fields
    ensures f.cmd < |x.cmds|
    ensures f.base == None && !f.zeroIsAbsent ==> !IsData(x, f.cmd) && ((f.half == Whole && IsBranch(x.cmds[f.cmd].op)) || (f.half == Low && x.cmds[f.cmd].op.ScopeGuard?))
    ensures f.base.Some? || f.zeroIsAbsent ==> Owns(x, o, f.cmd) && IsData(x, f.cmd)
    ensures f.base == None && f.zeroIsAbsent ==> f.half == Whole && x.cmds[o].op.Iterator?
    ensures f.base.Some? ==> f.base == Some(o) && x.cmds[o].op.Pipeline? && f in PipelineFields(o)
  {
    assert FieldOk(x, f);
    o := 0;
    if f.base.Some? {
      o := f.base.value;
      OwnedSlots(x, model, o, f.cmd);
    } else if f.zeroIsAbsent {
      o :| Owns(x, o, f.cmd) && x.cmds[o].op.Iterator?;
      OwnedSlots(x, model, o, f.cmd);
    }
  }

  lemma PipelineFieldBase(o: nat, f: Field)
    requires f in PipelineFields(o)
    ensures f.base == Some(o) && (f.cmd == o + 1 || f.cmd == o + 2) && f.half != Whole
  {}

  lemma PipelineFieldUnique(o: nat, f: Field, g: Field)
    requires f in PipelineFields(o) && g in PipelineFields(o) && f.cmd == g.cmd
    requires f.half == g.half || f.half == Whole || g.half == Whole
    ensures f == g
  {}

  /** A command and the part of its argument determine the field recorded for it. */
  lemma FieldUnique(x: Stream, model: seq<seq<Ty>>, f: Field, g: Field)
    requires WellFormed(x, model) && f in x.fields && g in x.fields && f.cmd == g.cmd
    requires f.half == g.half || f.half == Whole || g.half == Whole
    ensures f == g
  {
    var o := FieldKind(x, model, f);
    var o' := FieldKind(x, model, g);
    if (f.base.Some? || f.zeroIsAbsent) && (g.base.Some? || g.zeroIsAbsent) {
      OneOwner(x, model, o, o', f.cmd);
      if f.base.Some? { PipelineFieldUnique(o, f, g); }
      else { assert f == g; }
    } else {
      assert f.base == None && !f.zeroIsAbsent && g.base == None && !g.zeroIsAbsent;
    }
  }

  // --- the stream as the transforms see it --------------------------------------------

  lemma FieldEntry(x: Stream, f: Field, target: nat)
    requires f in x.fields && ReadField(x.cmds, f) == Some(target)
    ensures FlagsOf(x).entry[target]
  {
    assert IsEntry(x, target);
  }

  lemma {:induction false} StartEntry(x: Stream, model: seq<seq<Ty>>, i: nat, k: nat)
    requires WellFormed(x, model) && i < |x.cmds| && !IsData(x, i) && x.cmds[i].op.Iterator? && k <= x.cmds[i].op.sections
    ensures var t := SectionStart(x.cmds, i, x.cmds[i].op.sections, k);
            i + x.cmds[i].op.sections < t <= |x.cmds| && FlagsOf(x).entry[t]
  {
    assert CommandOk(x, i);
    var m := x.cmds[i].op.sections;
    if k == 0 {
      assert IteratorSlotOk(x, i, m, i + m);
      assert IsEntry(x, i + m + 1);
    } else {
      var j := i + k;
      assert IteratorSlotOk(x, i, m, j);
      if x.cmds[j].arg == 0 { StartEntry(x, model, i, k - 1); }
      else { FieldEntry(x, Field(j, None, Whole, true), x.cmds[j].arg); }
    }
  }

  lemma PipelineOk(x: Stream, model: seq<seq<Ty>>, o: nat)
    requires WellFormed(x, model) && o < |x.cmds| && !IsData(x, o) && x.cmds[o].op.Pipeline?
    ensures o + 3 < |x.cmds| && PipelineBoundsOk(x.cmds, o)
    ensures IsData(x, o + 1) && IsData(x, o + 2) && IsData(x, o + 3)
    ensures forall f :: f in PipelineFields(o) ==> f in x.fields
  {
    assert CommandOk(x, o);
  }

  /** A present bound of a list pipeline is an entry. */
  lemma BoundEntry(x: Stream, o: nat, f: Field, b: int)
    requires f in x.fields && f.cmd < |x.cmds| && f.base == Some(o) && Stored(x.cmds[f.cmd].arg, f.half) == b
    requires b != 0 && 0 <= o + b <= |x.cmds|
    ensures FlagsOf(x).entry[o + b]
  {
    FieldEntry(x, f, o + b);
  }
}
