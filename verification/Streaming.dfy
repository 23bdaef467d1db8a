/**
  Streamed parsing. Every row is compiled behind the commands that are there, and the
  peephole then runs over the whole stream again. Its own output is its next input, with
  commands moved and tables renumbered; still, the stream ends up running the rows.
*/
module Streaming {
  import opened Machine
  import opened Simulation
  import opened Optimizer
  import opened Streams
  import opened Peephole
  import opened Blocks
  import opened Emission
  import opened Lowering
  import opened LoweringTyped
  import opened LoweringMeans
  import opened Compile

  /** The stream with a row's code and tables behind it, and whatever locations and descriptions came with it. */
  function AppendRow(x: Stream, n: Node, locs: seq<Location>, descs: seq<Description>): Stream {
    var b := |x.cmds|;
    Stream(x.cmds + Flatten(n, b, []), x.locs + locs, x.descs + descs, x.fields + FieldsOf(n, b), x.slots, x.pushes + PushesOf(n, b))
  }

  // --- a longer stream is still well formed ----------------------------------------------------

  lemma OldCommandOk(x: Stream, model: seq<seq<Ty>>, y: Stream, i: nat)
    requires WellFormed(x, model) && i < |x.cmds| && !IsData(x, i)
    requires |x.cmds| <= |y.cmds| && y.cmds[..|x.cmds|] == x.cmds && y.slots == x.slots && (forall f :: f in x.fields ==> f in y.fields)
    ensures CommandOk(y, i)
  {
    hide LowHalf, HighHalf;
    assert forall j: nat :: j < |x.cmds| ==> y.cmds[j] == y.cmds[..|x.cmds|][j] == x.cmds[j];
    assert CommandOk(x, i);
    var c := x.cmds[i];
    if c.op.Iterator? {
      forall j: nat | i < j <= i + c.op.sections ensures IteratorSlotOk(y, i, c.op.sections, j) { assert IteratorSlotOk(x, i, c.op.sections, j); }
    }
  }

  lemma OwnsStill(x: Stream, y: Stream, o: nat, j: nat)
    requires |x.cmds| <= |y.cmds| && y.cmds[..|x.cmds|] == x.cmds && y.slots == x.slots && Owns(x, o, j)
    ensures Owns(y, o, j) && y.cmds[o] == x.cmds[o]
  {
    assert y.cmds[o] == y.cmds[..|x.cmds|][o];
  }

  lemma OldFieldOk(x: Stream, model: seq<seq<Ty>>, y: Stream, f: Field)
    requires WellFormed(x, model) && f in x.fields
    requires |x.cmds| <= |y.cmds| && y.cmds[..|x.cmds|] == x.cmds && y.slots == x.slots
    ensures FieldOk(y, f)
  {
    var o := FieldKind(x, model, f);
    assert y.cmds[f.cmd] == y.cmds[..|x.cmds|][f.cmd];
    if f.base.Some? || f.zeroIsAbsent { OwnsStill(x, y, o, f.cmd); }
  }

  lemma OldPushOk(x: Stream, model: seq<seq<Ty>>, y: Stream, model': seq<seq<Ty>>, p: DeadPush)
    requires WellFormed(x, model) && p in x.pushes && |model'| == |y.cmds|
    requires |x.cmds| <= |y.cmds| && y.cmds[..|x.cmds|] == x.cmds && y.slots == x.slots && model'[..|x.cmds|] == model
    ensures PushOk(y, model', p)
  {
    assert PushOk(x, model, p);
    assert forall j: nat :: j < |x.cmds| ==> y.cmds[j] == y.cmds[..|x.cmds|][j] == x.cmds[j];
    assert model'[p.cmd] == model'[..|x.cmds|][p.cmd];
    var r: nat :| Confined(x, p.cmd, r, p.unwind);
    assert Confined(y, p.cmd, r, p.unwind);
  }

  lemma RowCommandOk(w: World, x: Stream, model: seq<seq<Ty>>, n: Node, m: seq<Ty>, locs: seq<Location>, descs: seq<Description>, k: nat)
    requires WellFormed(x, model) && Typed(w, n, m, []) && |x.cmds| + Size(n) <= INT32_MAX && k < Size(n)
    ensures CommandOk(AppendRow(x, n, locs, descs), |x.cmds| + k)
  {
    hide Typed, FieldsOf, PushesOf, LowHalf, WellFormed;
    var y, b := AppendRow(x, n, locs, descs), |x.cmds|;
    assert y.cmds[b + k] == Flatten(n, b, [])[k];
    NoCallbacks(w, n, b, m, [], [], k);
    if Steers(y.cmds[b + k].op) { BranchRecorded(w, n, b, |y.cmds|, m, [], [], k); }
  }

  lemma SlotsBelow(x: Stream, model: seq<seq<Ty>>, j: nat)
    requires WellFormed(x, model) && j in x.slots
    ensures j < |x.cmds|
  {
    assert SlotOk(x, j);
  }

  lemma RowFieldOk(w: World, x: Stream, model: seq<seq<Ty>>, n: Node, m: seq<Ty>, locs: seq<Location>, descs: seq<Description>, f: Field)
    requires WellFormed(x, model) && Typed(w, n, m, []) && f in FieldsOf(n, |x.cmds|)
    ensures FieldOk(AppendRow(x, n, locs, descs), f)
  {
    hide Typed, FieldsOf, PushesOf, WellFormed;
    var y, b := AppendRow(x, n, locs, descs), |x.cmds|;
    FieldIsBranch(w, n, b, m, [], [], f);
    assert y.cmds[f.cmd] == Flatten(n, b, [])[f.cmd - b];
    if f.cmd in x.slots { SlotsBelow(x, model, f.cmd); }
  }

  lemma RowPushOk(w: World, x: Stream, model: seq<seq<Ty>>, n: Node, m: seq<Ty>, locs: seq<Location>, descs: seq<Description>, p: DeadPush)
    requires WellFormed(x, model) && |model| == |x.cmds| && Typed(w, n, m, []) && p in PushesOf(n, |x.cmds|)
    ensures PushOk(AppendRow(x, n, locs, descs), model + ModelOf(n, m), p)
  {
    hide Typed, FieldsOf, PushesOf, WellFormed;
    var y, b := AppendRow(x, n, locs, descs), |x.cmds|;
    PushShape(w, n, b, m, [], [], p);
    forall j: nat | b <= j < |y.cmds| ensures y.cmds[j] == Flatten(n, b, [])[j - b] && !IsData(y, j) {
      if j in x.slots { SlotsBelow(x, model, j); }
    }
    assert (model + ModelOf(n, m))[p.cmd] == ModelOf(n, m)[p.cmd - b];
    assert Confined(y, p.cmd, p.cmd + 1, p.unwind);
  }

  /** A row appended to a stream the peephole accepts makes one it accepts. */
  lemma AppendWellFormed(w: World, x: Stream, model: seq<seq<Ty>>, n: Node, m: seq<Ty>, locs: seq<Location>, descs: seq<Description>)
    requires WellFormed(x, model) && Typed(w, n, m, []) && |x.cmds| + Size(n) <= INT32_MAX
    ensures WellFormed(AppendRow(x, n, locs, descs), model + ModelOf(n, m))
  {
    hide Typed, FieldsOf, PushesOf, Flatten, ModelOf, CommandOk, FieldOk, PushOk;
    var y, model' := AppendRow(x, n, locs, descs), model + ModelOf(n, m);
    assert y.cmds[..|x.cmds|] == x.cmds && model'[..|x.cmds|] == model;
    forall i: nat | i < |y.cmds| && !IsData(y, i) ensures CommandOk(y, i) {
      if i < |x.cmds| { OldCommandOk(x, model, y, i); } else { RowCommandOk(w, x, model, n, m, locs, descs, i - |x.cmds|); }
    }
    forall f | f in y.fields ensures FieldOk(y, f) {
      if f in x.fields { OldFieldOk(x, model, y, f); } else { RowFieldOk(w, x, model, n, m, locs, descs, f); }
    }
    forall j: nat | j in y.slots ensures SlotOk(y, j) {
      assert SlotOk(x, j);
      var o: nat :| Owns(x, o, j);
      OwnsStill(x, y, o, j);
    }
    forall p | p in y.pushes ensures PushOk(y, model', p) {
      if p in x.pushes { OldPushOk(x, model, y, model', p); } else { RowPushOk(w, x, model, n, m, locs, descs, p); }
    }
  }

  // --- the old commands run as before, then the row runs ------------------------------------------

  /** `d` begins with the commands of `c`; both are watched and nothing is dropped. */
  ghost predicate Longer(c: Code, d: Code) {
    && Shaped(c) && Shaped(d) && |c.cmds| <= |d.cmds| && c.watch && d.watch
    && d.cmds[..|c.cmds|] == c.cmds && d.model[..|c.cmds|] == c.model && d.data[..|c.cmds|] == c.data
    && (forall i :: 0 <= i < |c.cmds| ==> c.keep[i]) && (forall i :: 0 <= i < |d.cmds| ==> d.keep[i])
  }

  /** Everything the command at `pc` refers to lies inside the program. */
  ghost predicate Inside(c: Code, pc: nat)
    requires Shaped(c) && pc < |c.cmds|
  {
    && pc + SlotsOf(c.cmds[pc].op) < |c.cmds|
    && (Steers(c.cmds[pc].op) ==> TargetOf(c.cmds[pc]) <= |c.cmds|)
    && (IsCallbackOp(c.cmds[pc].op) ==> ResumeOf(c.cmds, pc) <= |c.cmds|)
    && (forall k: nat :: SectionOf(c.cmds, pc, k).Some? ==> SectionOf(c.cmds, pc, k).value.end <= |c.cmds|)
  }

  ghost predicate AllInside(c: Code)
    requires Shaped(c)
  {
    forall pc: nat :: pc < |c.cmds| && !c.data[pc] ==> Inside(c, pc)
  }

  lemma LongerAt(c: Code, d: Code, i: nat)
    requires Longer(c, d) && i < |c.cmds|
    ensures d.cmds[i] == c.cmds[i] && d.model[i] == c.model[i] && d.data[i] == c.data[i]
  {
    assert d.cmds[i] == d.cmds[..|c.cmds|][i] && d.model[i] == d.model[..|c.cmds|][i] && d.data[i] == d.data[..|c.cmds|][i];
  }

  lemma {:induction false} StartsAgree(c: Code, d: Code, pc: nat, n: nat, k: nat)
    requires Longer(c, d) && pc + n < |c.cmds| && k <= n
    ensures SectionStart(c.cmds, pc, n, k) == SectionStart(d.cmds, pc, n, k)
  {
    if k > 0 {
      LongerAt(c, d, pc + k);
      StartsAgree(c, d, pc, n, k - 1);
    }
  }

  lemma SectionsAgree(c: Code, d: Code, pc: nat)
    requires Longer(c, d) && pc < |c.cmds| && Inside(c, pc)
    ensures d.cmds[pc] == c.cmds[pc] && ResumeOf(c.cmds, pc) == ResumeOf(d.cmds, pc) && AuxOf(c.cmds, pc) == AuxOf(d.cmds, pc)
    ensures forall k: nat :: SectionOf(c.cmds, pc, k) == SectionOf(d.cmds, pc, k)
  {
    hide LowHalf, HighHalf;
    LongerAt(c, d, pc);
    match c.cmds[pc].op
    case Iterator(_, n) =>
      forall k: nat | k <= n ensures SectionStart(c.cmds, pc, n, k) == SectionStart(d.cmds, pc, n, k) { StartsAgree(c, d, pc, n, k); }
      forall j: nat | pc < j <= pc + n ensures DataArg(c.cmds, j) == DataArg(d.cmds, j) { LongerAt(c, d, j); }
    case Pipeline =>
      LongerAt(c, d, pc + 1);
      LongerAt(c, d, pc + 2);
      LongerAt(c, d, pc + 3);
    case _ =>
  }

  lemma ModelAgrees(w: World, c: Code, d: Code, pc: nat, s: seq<Value>)
    requires Longer(c, d) && pc < |c.cmds|
    ensures OnModel(w, c, pc, s) == OnModel(w, d, pc, s)
    ensures OnModel(w, c, pc, s) ==> !c.data[pc]
  {
    LongerAt(c, d, pc);
  }

  /** A range inside the shorter program runs the same in the longer one. */
  lemma {:induction false} RunInside(w: World, c: Code, d: Code, pc: nat, hi: nat, s: seq<Value>, e: Env)
    requires Longer(c, d) && AllInside(c) && hi <= |c.cmds|
    ensures Run(w, c, pc, hi, s, e) == Run(w, d, pc, hi, s, e)
    decreases hi - pc, w.limit + 1
  {
    hide Run, Iterate, Step, OnModel;
    if pc >= hi {
      RunEnds(w, c, pc, hi, s, e);
      RunEnds(w, d, pc, hi, s, e);
    } else {
      ModelAgrees(w, c, d, pc, s);
      if !OnModel(w, c, pc, s) {
        RunOff(w, c, pc, hi, s, e);
        RunOff(w, d, pc, hi, s, e);
      } else {
        assert Inside(c, pc);
        SectionsAgree(c, d, pc);
        if IsCallbackOp(c.cmds[pc].op) {
          RunCallback(w, c, pc, hi, s, e);
          RunCallback(w, d, pc, hi, s, e);
          if ResumeOf(c.cmds, pc) > pc {
            IterateInside(w, c, d, pc, hi, hi, [], s, e, w.limit);
            var r := Iterate(w, c, pc, hi, [], s, e, w.limit);
            if r.Done? { RunInside(w, c, d, ResumeOf(c.cmds, pc), hi, r.stack, r.env); }
          }
        } else {
          RunStep(w, c, pc, hi, s, e);
          RunStep(w, d, pc, hi, s, e);
          var r := Step(w, pc, c.cmds[pc], s, e);
          if r.Next? && r.pc > pc { RunInside(w, c, d, r.pc, hi, r.stack, r.env); }
        }
      }
    }
  }

  lemma TurnAgrees(w: World, c: Code, d: Code, pc: nat, hi: nat, hi': nat, replies: seq<Value>, s: seq<Value>, e: Env, left: nat)
    requires Longer(c, d) && AllInside(c) && pc < hi <= |c.cmds| && !c.data[pc]
    requires hi == hi' || (hi == |c.cmds| && hi <= hi')
    ensures TurnOf(w, c, pc, hi, replies, s, e, left) == TurnOf(w, d, pc, hi', replies, s, e, left)
  {
    hide SectionOf, AuxOf, ResumeOf, SlotsOf, TargetOf;
    assert Inside(c, pc);
    SectionsAgree(c, d, pc);
  }

  lemma {:induction false} IterateInside(w: World, c: Code, d: Code, pc: nat, hi: nat, hi': nat, replies: seq<Value>, s: seq<Value>, e: Env, left: nat)
    requires Longer(c, d) && AllInside(c) && pc < hi <= |c.cmds| && !c.data[pc] && left <= w.limit
    requires hi == hi' || (hi == |c.cmds| && hi <= hi')
    ensures Iterate(w, c, pc, hi, replies, s, e, left) == Iterate(w, d, pc, hi', replies, s, e, left)
    decreases hi - pc, left
  {
    hide Run, Iterate, TurnOf, AllInside;
    TurnAgrees(w, c, d, pc, hi, hi', replies, s, e, left);
    TurnCalls(w, c, pc, hi, replies, s, e, left);
    IterateTurn(w, c, pc, hi, replies, s, e, left);
    IterateTurn(w, d, pc, hi', replies, s, e, left);
    var t := TurnOf(w, c, pc, hi, replies, s, e, left);
    if t.Calls? {
      RunInside(w, c, d, t.section.start, t.section.end, t.stack, e);
      var r := Run(w, c, t.section.start, t.section.end, t.stack, e);
      if r.Done? && t.reply.NoReply? {
        IterateInside(w, c, d, pc, hi, hi', replies + [Invalid], r.stack, r.env, left - 1);
      } else if r.Done? && r.stack != [] {
        IterateInside(w, c, d, pc, hi, hi', replies + [r.stack[|r.stack| - 1]], r.stack[..|r.stack| - 1], r.env, left - 1);
      }
    }
  }

  function AndThen(w: World, d: Code, from: nat, hi: nat, r: Outcome): Outcome
    requires Shaped(d)
  {
    if r.Done? then Run(w, d, from, hi, r.stack, r.env) else r
  }

  /** The longer program runs the shorter one to its end and goes on. */
  lemma {:induction false} RunBeyond(w: World, c: Code, d: Code, pc: nat, hi: nat, s: seq<Value>, e: Env)
    requires Longer(c, d) && AllInside(c) && pc <= |c.cmds| <= hi
    ensures Run(w, d, pc, hi, s, e) == AndThen(w, d, |c.cmds|, hi, Run(w, c, pc, |c.cmds|, s, e))
    decreases |c.cmds| - pc
  {
    hide Run, Iterate, OnModel, EffectOf, BranchStep;
    var k := |c.cmds|;
    if pc == k {
      RunEnds(w, c, k, k, s, e);
    } else {
      ModelAgrees(w, c, d, pc, s);
      if !OnModel(w, c, pc, s) {
        RunOff(w, c, pc, k, s, e);
        RunOff(w, d, pc, hi, s, e);
      } else {
        assert Inside(c, pc);
        SectionsAgree(c, d, pc);
        if IsCallbackOp(c.cmds[pc].op) {
          RunCallback(w, c, pc, k, s, e);
          RunCallback(w, d, pc, hi, s, e);
          if ResumeOf(c.cmds, pc) > pc {
            IterateInside(w, c, d, pc, k, hi, [], s, e, w.limit);
            var r := Iterate(w, c, pc, k, [], s, e, w.limit);
            if r.Done? { RunBeyond(w, c, d, ResumeOf(c.cmds, pc), hi, r.stack, r.env); }
          }
        } else {
          RunStep(w, c, pc, k, s, e);
          RunStep(w, d, pc, hi, s, e);
          var r := Step(w, pc, c.cmds[pc], s, e);
          if r.Next? && r.pc > pc { RunBeyond(w, c, d, r.pc, hi, r.stack, r.env); }
        }
      }
    }
  }

  lemma StreamInside(x: Stream, model: seq<seq<Ty>>)
    requires WellFormed(x, model)
    ensures AllInside(OriginalCode(x, FlagsOf(x), model))
  {
    hide LowHalf, HighHalf;
    var c := OriginalCode(x, FlagsOf(x), model);
    forall pc: nat | pc < |c.cmds| && !c.data[pc] ensures Inside(c, pc) {
      assert CommandOk(x, pc);
      var op := x.cmds[pc].op;
      if op.Iterator? {
        StartEntry(x, model, pc, op.sections);
        forall j: nat | pc < j <= pc + op.sections ensures DataArg(x.cmds, j) <= |x.cmds| { assert IteratorSlotOk(x, pc, op.sections, j); }
      } else if op.Pipeline? {
        PipelineOk(x, model, pc);
      }
    }
  }

  // --- rows -------------------------------------------------------------------------------------

  /** One row: what it says, and the locations and descriptions parsed with it. */
  datatype Row = Row(expr: Expr, locs: seq<Location>, descs: seq<Description>)

  /** A row of a script that returns `ret` is brought to that type and stored; the stack is as before it. */
  function RowNode(x: Expr, ret: seq<Ty>, m: seq<Ty>, sl: seq<nat>, tys: seq<Ty>): Node {
    if ret == [] then Lower(x, m, sl, tys) else Seq(Valued(x, ret, m, sl, tys), Op1(Return, 0))
  }

  predicate RowChecked(w: World, x: Expr, ret: seq<Ty>, tys: seq<Ty>) {
    |ret| <= 1 && Check(w, x, tys) && Coercible(ResultOf(x, tys), ret)
  }

  function RowMeaning(w: World, x: Expr, ret: seq<Ty>, sc: seq<Value>, e: Env): Answer {
    match Converted(w, ret, Meaning(w, x, sc, e))
    case Gives(vs, e') => if |vs| == 1 then Gives([], e'.(result := vs[0])) else Gives([], e')
    case other => other
  }

  /** The stream after `k` rows: each appended to what the peephole made of the ones before. */
  ghost function Streamed(rows: seq<Row>, k: nat, ret: seq<Ty>, m: seq<Ty>, sl: seq<nat>, tys: seq<Ty>): Stream
    requires k <= |rows|
  {
    if k == 0 then Stream([], [], [], [], [], [])
    else Optimize(AppendRow(Streamed(rows, k - 1, ret, m, sl, tys), RowNode(rows[k - 1].expr, ret, m, sl, tys), rows[k - 1].locs, rows[k - 1].descs))
  }

  /** What the first `k` rows mean, one after the other; the last value stored is the script's. */
  function RowsMeaning(w: World, rows: seq<Row>, k: nat, ret: seq<Ty>, sc: seq<Value>, e: Env): Answer
    requires k <= |rows|
  {
    if k == 0 then Gives([], e)
    else match RowsMeaning(w, rows, k - 1, ret, sc, e)
      case Gives(_, e') => RowMeaning(w, rows[k - 1].expr, ret, sc, e')
      case other => other
  }

  /** A row is accepted and fits: on the stack, and into 32-bit command indexes. */
  ghost predicate RowOk(w: World, rows: seq<Row>, i: nat, ret: seq<Ty>, m: seq<Ty>, sl: seq<nat>, tys: seq<Ty>)
    requires i < |rows|
  {
    var n := RowNode(rows[i].expr, ret, m, sl, tys);
    && RowChecked(w, rows[i].expr, ret, tys) && Room(w, n, m)
    && |Streamed(rows, i, ret, m, sl, tys).cmds| + Size(n) <= INT32_MAX
  }

  ghost predicate RowsOk(w: World, rows: seq<Row>, k: nat, ret: seq<Ty>, m: seq<Ty>, sl: seq<nat>, tys: seq<Ty>)
    requires k <= |rows|
  {
    ScopesOk(m, sl, tys) && forall i: nat :: i < k ==> RowOk(w, rows, i, ret, m, sl, tys)
  }

  lemma RowTyped(w: World, x: Expr, ret: seq<Ty>, m: seq<Ty>, sl: seq<nat>, tys: seq<Ty>)
    requires RowChecked(w, x, ret, tys) && ScopesOk(m, sl, tys) && Room(w, RowNode(x, ret, m, sl, tys), m)
    ensures Leads(w, RowNode(x, ret, m, sl, tys), m, m) && Typed(w, RowNode(x, ret, m, sl, tys), m, [])
  {
    hide Check, Lower, Valued, Leads, Room, ResultOf, Typed;
    if ret == [] {
      LowerTyped(w, x, m, sl, tys);
      assert m + [] == m;
    } else {
      RoomSeq(w, Valued(x, ret, m, sl, tys), Op1(Return, 0), m);
      ValuedTyped(w, x, ret, m, sl, tys);
      IntoDo(w, Command(Basic(Return), 0), m + ret);
      assert Init(m + ret, 1) == m;
      LeadsSeq(w, Valued(x, ret, m, sl, tys), Op1(Return, 0), m, m + ret, m);
    }
    LeadsHere(w, RowNode(x, ret, m, sl, tys), m, m, []);
    IntoIs(w, RowNode(x, ret, m, sl, tys), m, [], m);
  }

  lemma ExecReturn(w: World, s: seq<Value>, v: Value, e: Env)
    ensures Exec(w, Op1(Return, 0), s + [v], e) == Fell(s, e.(result := v))
  {
    assert (s + [v])[..|s|] == s;
  }

  lemma RowMeans(w: World, x: Expr, ret: seq<Ty>, m: seq<Ty>, sl: seq<nat>, tys: seq<Ty>, sc: seq<Value>, s: seq<Value>, e: Env)
    requires RowChecked(w, x, ret, tys) && Ready(w, m, sl, tys, s, sc) && Room(w, RowNode(x, ret, m, sl, tys), m)
    ensures Yields(Exec(w, RowNode(x, ret, m, sl, tys), s, e), s, RowMeaning(w, x, ret, sc, e))
    ensures RowMeaning(w, x, ret, sc, e).Gives? ==> RowMeaning(w, x, ret, sc, e).values == []
  {
    hide Check, Lower, Valued, Room, ResultOf, Exec, Ready, Meaning;
    EmptyOnTop(s);
    if ret == [] {
      LowerMeans(w, x, m, sl, tys, sc, s, e);
    } else {
      var value := Valued(x, ret, m, sl, tys);
      RoomSeq(w, value, Op1(Return, 0), m);
      ValuedMeans(w, x, ret, m, sl, tys, sc, s, e);
      ExecSeq(w, value, Op1(Return, 0), s, e);
      var a := Converted(w, ret, Meaning(w, x, sc, e));
      if a.Gives? {
        assert a.values == [a.values[0]];
        ExecReturn(w, s, a.values[0], a.env);
      }
    }
  }

  /** A row behind a stream: first the stream's run, then the row's meaning. */
  lemma RowRuns(w: World, x: Stream, model: seq<seq<Ty>>, row: Row, ret: seq<Ty>, m: seq<Ty>, sl: seq<nat>, tys: seq<Ty>, sc: seq<Value>,
                s: seq<Value>, e0: Env, e: Env)
    requires WellFormed(x, model) && RowChecked(w, row.expr, ret, tys) && Ready(w, m, sl, tys, s, sc)
    requires var n := RowNode(row.expr, ret, m, sl, tys); Room(w, n, m) && |x.cmds| + Size(n) <= INT32_MAX
    requires RunModel(w, x, model, s, e0) == Done(s, e) && RowMeaning(w, row.expr, ret, sc, e) != NoAnswer
    ensures var n := RowNode(row.expr, ret, m, sl, tys);
      RunModel(w, AppendRow(x, n, row.locs, row.descs), model + ModelOf(n, m), s, e0) == Ending(s, RowMeaning(w, row.expr, ret, sc, e))
  {
    hide Run, Exec, RowMeaning, RowNode, Ready, Placed, RowChecked, WellFormed, Room, Flatten, ModelOf;
    var n := RowNode(row.expr, ret, m, sl, tys);
    var y, model' := AppendRow(x, n, row.locs, row.descs), model + ModelOf(n, m);
    var c, d, b := OriginalCode(x, FlagsOf(x), model), OriginalCode(y, FlagsOf(y), model'), |x.cmds|;
    ReadyIs(w, m, sl, tys, s, sc);
    RowTyped(w, row.expr, ret, m, sl, tys);
    RowPlaced(w, x, model, n, m, row.locs, row.descs);
    StreamInside(x, model);
    RunBeyond(w, c, d, 0, b + Size(n), s, e0);
    RowMeans(w, row.expr, ret, m, sl, tys, sc, s, e);
    RoomIs(w, n, m);
    FlattenRuns(w, d, b, b + Size(n), n, m, [], [], s, e);
    var a := RowMeaning(w, row.expr, ret, sc, e);
    if a.Gives? { RunEnds(w, d, b + Size(n), b + Size(n), s + a.values, a.env); }
  }

  lemma RoomIs(w: World, n: Node, m: seq<Ty>)
    requires Room(w, n, m)
    ensures w.base + PeakOf(n, m) <= w.capacity
  {}

  /** The row's code lies behind the stream, and the stream begins the longer one. */
  lemma RowPlaced(w: World, x: Stream, model: seq<seq<Ty>>, n: Node, m: seq<Ty>, locs: seq<Location>, descs: seq<Description>)
    requires WellFormed(x, model)
    ensures var y, model' := AppendRow(x, n, locs, descs), model + ModelOf(n, m);
      && |model'| == |y.cmds| == |x.cmds| + Size(n)
      && Longer(OriginalCode(x, FlagsOf(x), model), OriginalCode(y, FlagsOf(y), model'))
      && Placed(OriginalCode(y, FlagsOf(y), model'), |x.cmds|, n, m, [])
  {
    hide Flatten, ModelOf, FieldsOf, PushesOf;
    var y, model', b := AppendRow(x, n, locs, descs), model + ModelOf(n, m), |x.cmds|;
    var c, d := OriginalCode(x, FlagsOf(x), model), OriginalCode(y, FlagsOf(y), model');
    assert d.cmds[..b] == c.cmds && d.model[..b] == c.model;
    assert d.data[..b] == c.data;
    assert d.cmds[b..b + Size(n)] == Flatten(n, b, []);
    assert d.model[b..b + Size(n)] == ModelOf(n, m);
    forall i: nat | b <= i < b + Size(n) ensures !d.data[i] {
      if i in x.slots { SlotsBelow(x, model, i); }
    }
  }

  lemma RowsFail(w: World, x: Stream, model: seq<seq<Ty>>, n: Node, m: seq<Ty>, locs: seq<Location>, descs: seq<Description>, s: seq<Value>, e: Env)
    requires WellFormed(x, model) && RunModel(w, x, model, s, e).Failed?
    ensures RunModel(w, AppendRow(x, n, locs, descs), model + ModelOf(n, m), s, e) == RunModel(w, x, model, s, e)
  {
    hide Run, Placed, WellFormed, Flatten, ModelOf;
    var y, model' := AppendRow(x, n, locs, descs), model + ModelOf(n, m);
    RowPlaced(w, x, model, n, m, locs, descs);
    StreamInside(x, model);
    RunBeyond(w, OriginalCode(x, FlagsOf(x), model), OriginalCode(y, FlagsOf(y), model'), 0, |y.cmds|, s, e);
  }

  /** After any number of rows the stream is one the peephole accepts, and its watched run means the rows. */
  lemma {:induction false} StreamedModel(w: World, rows: seq<Row>, k: nat, ret: seq<Ty>, m: seq<Ty>, sl: seq<nat>, tys: seq<Ty>, sc: seq<Value>,
                                         s: seq<Value>, e: Env) returns (model: seq<seq<Ty>>)
    requires k <= |rows| && RowsOk(w, rows, k, ret, m, sl, tys) && Ready(w, m, sl, tys, s, sc)
    ensures WellFormed(Streamed(rows, k, ret, m, sl, tys), model)
    ensures Refines(Ending(s, RowsMeaning(w, rows, k, ret, sc, e)), RunModel(w, Streamed(rows, k, ret, m, sl, tys), model, s, e))
    ensures var a := RowsMeaning(w, rows, k, ret, sc, e); a.Gives? ==> a.values == []
  {
    hide Run, RowMeaning, RowNode, Ready, WellFormed, Optimize, Room, ScopesOk, Placed, RunModel;
    if k == 0 {
      model := [];
      EmptyStream(w, s, e);
      EmptyOnTop(s);
    } else {
      assert RowOk(w, rows, k - 1, ret, m, sl, tys);
      var before := StreamedModel(w, rows, k - 1, ret, m, sl, tys, sc, s, e);
      model := StreamedStep(w, rows, k - 1, ret, m, sl, tys, sc, s, e, before);
    }
  }

  lemma EmptyStream(w: World, s: seq<Value>, e: Env)
    ensures var x := Stream([], [], [], [], [], []); WellFormed(x, []) && RunModel(w, x, [], s, e) == Done(s, e)
  {}

  lemma StreamedStep(w: World, rows: seq<Row>, k: nat, ret: seq<Ty>, m: seq<Ty>, sl: seq<nat>, tys: seq<Ty>, sc: seq<Value>,
                     s: seq<Value>, e: Env, model: seq<seq<Ty>>) returns (model': seq<seq<Ty>>)
    requires k < |rows| && Ready(w, m, sl, tys, s, sc) && RowOk(w, rows, k, ret, m, sl, tys) && WellFormed(Streamed(rows, k, ret, m, sl, tys), model)
    requires Refines(Ending(s, RowsMeaning(w, rows, k, ret, sc, e)), RunModel(w, Streamed(rows, k, ret, m, sl, tys), model, s, e))
    requires var a := RowsMeaning(w, rows, k, ret, sc, e); a.Gives? ==> a.values == []
    ensures WellFormed(Streamed(rows, k + 1, ret, m, sl, tys), model')
    ensures Refines(Ending(s, RowsMeaning(w, rows, k + 1, ret, sc, e)), RunModel(w, Streamed(rows, k + 1, ret, m, sl, tys), model', s, e))
    ensures var a := RowsMeaning(w, rows, k + 1, ret, sc, e); a.Gives? ==> a.values == []
  {
    hide Run, RowMeaning, RowNode, Ready, RowChecked, WellFormed, Optimize, Room, ScopesOk, RunModel, AppendRow;
    var x, row, n := Streamed(rows, k, ret, m, sl, tys), rows[k], RowNode(rows[k].expr, ret, m, sl, tys);
    var y, long := AppendRow(x, n, row.locs, row.descs), model + ModelOf(n, m);
    ReadyIs(w, m, sl, tys, s, sc);
    RowTyped(w, row.expr, ret, m, sl, tys);
    AppendWellFormed(w, x, model, n, m, row.locs, row.descs);
    model' := OptimizeSound(w, y, long);
    WellFormedSize(y, long);
    WellFormedSize(Optimize(y), model');
    OptimizedWhole(w, y, long, model', s, e);
    WellFormedSize(x, model);
    var a, end := RowsMeaning(w, rows, k, ret, sc, e), RunModel(w, x, model, s, e);
    EmptyOnTop(s);
    if a.Gives? {
      RowMeans(w, row.expr, ret, m, sl, tys, sc, s, a.env);
      if RowMeaning(w, row.expr, ret, sc, a.env) != NoAnswer { RowRuns(w, x, model, row, ret, m, sl, tys, sc, s, e, a.env); }
    } else if end.Failed? {
      RowsFail(w, x, model, n, m, row.locs, row.descs, s, e);
    }
  }

  /** Streaming any number of rows, each followed by the peephole over everything, gives a script that does what the rows say. */
  lemma StreamedProcess(w: World, rows: seq<Row>, ret: seq<Ty>, m: seq<Ty>, sl: seq<nat>, tys: seq<Ty>, sc: seq<Value>, s: seq<Value>, e: Env)
    requires RowsOk(w, rows, |rows|, ret, m, sl, tys) && Ready(w, m, sl, tys, s, sc)
    ensures Refines(Ending(s, RowsMeaning(w, rows, |rows|, ret, sc, e)), Process(w, Streamed(rows, |rows|, ret, m, sl, tys).cmds, s, e))
  {
    hide Run, Ready, WellFormed, RowsMeaning, Streamed, RowsOk;
    var model := StreamedModel(w, rows, |rows|, ret, m, sl, tys, sc, s, e);
    WellFormedSize(Streamed(rows, |rows|, ret, m, sl, tys), model);
    ModelIsProcess(w, Streamed(rows, |rows|, ret, m, sl, tys), model, s, e);
  }
}
