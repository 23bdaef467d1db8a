/**
  What the peephole promises: the optimised stream computes what the original did.

  Every transform is first justified on programs whose dropped commands are still in
  place and merely stepped over; compaction then moves the survivors together. Between
  the two, `Entries` is the set of commands something outside can enter at.
*/
module Transforms {
  import opened Machine
  import opened Simulation
  import opened Optimizer

  /** Every command index in the program is an entry and iterators own the data slots behind them. */
  ghost predicate Linked(cmds: seq<Command>, f: Flags)
    requires Fits(f, |cmds|)
  {
    forall i: nat {:trigger LinkedAt(cmds, f, i)} :: i < |cmds| && !f.data[i] ==> LinkedAt(cmds, f, i)
  }

  ghost predicate Entry(f: Flags, j: int) { 0 <= j < |f.entry| && f.entry[j] }

  ghost predicate LinkedAt(cmds: seq<Command>, f: Flags, i: nat)
    requires Fits(f, |cmds|) && i < |cmds|
  {
    var c := cmds[i];
    && (IsBranch(c.op) ==> i < c.arg && Entry(f, c.arg))
    && (c.op.ScopeGuard? ==> i < LowHalf(c.arg) && Entry(f, LowHalf(c.arg)))
    && (IsCallbackOp(c.op) ==>
          && i + SlotsOf(c.op) < |cmds|
          && (forall j: nat :: i < j <= i + SlotsOf(c.op) ==> f.data[j])
          && Entry(f, ResumeOf(cmds, i))
          && forall k: nat :: SectionOf(cmds, i, k).Some? ==>
                Entry(f, SectionOf(cmds, i, k).value.start) && Entry(f, SectionOf(cmds, i, k).value.end))
  }

  lemma LinkedOutside(cmds: seq<Command>, f: Flags, i: nat, avoid: iset<int>)
    requires Fits(f, |cmds|) && i < |cmds| && LinkedAt(cmds, f, i)
    requires forall j :: j in avoid ==> !Entry(f, j)
    ensures RefsOutside(cmds, i, avoid)
  {}

  ghost predicate Watched(c: Code, f: Flags) {
    Shaped(c) && c.watch && Fits(f, |c.cmds|) && c.data == f.data && Linked(c.cmds, f)
  }

  /** From every entry to every entry, `b` ends the way `a` does. */
  ghost predicate EntriesRefine(w: World, a: Code, b: Code, f: Flags)
    requires Shaped(a) && Shaped(b)
  {
    forall pc: nat, hi: nat :: Entry(f, pc) && Entry(f, hi) ==> RangeRefines(w, a, pc, hi, b, pc, hi)
  }

  lemma EntriesCompose(w: World, a: Code, b: Code, c: Code, f: Flags)
    requires Shaped(a) && Shaped(b) && Shaped(c)
    requires EntriesRefine(w, a, b, f) && EntriesRefine(w, b, c, f)
    ensures EntriesRefine(w, a, c, f)
  {
    forall pc: nat, hi: nat | Entry(f, pc) && Entry(f, hi) ensures RangeRefines(w, a, pc, hi, c, pc, hi) {
      assert RangeRefines(w, a, pc, hi, b, pc, hi) && RangeRefines(w, b, pc, hi, c, pc, hi);
      forall s, e ensures Refines(Run(w, a, pc, hi, s, e), Run(w, c, pc, hi, s, e)) {
        assert Refines(Run(w, a, pc, hi, s, e), Run(w, b, pc, hi, s, e));
        assert Refines(Run(w, b, pc, hi, s, e), Run(w, c, pc, hi, s, e));
      }
    }
  }

  lemma EntriesReflect(w: World, a: Code, f: Flags)
    requires Shaped(a)
    ensures EntriesRefine(w, a, a, f)
  {}

  /** What the transforms may change about a command that stays. */
  ghost predicate Rewritten(a: seq<Command>, f: Flags, b: seq<Command>)
    requires Fits(f, |a|)
  {
    |a| == |b| && forall i :: 0 <= i < |a| ==>
      || b[i] == a[i]
      || (!f.data[i] && a[i].op.Erase? && b[i].op.EraseRange?)
      || (!f.data[i] && IsBranch(a[i].op) && b[i].op == a[i].op)
  }

  // --- a context push nothing reads -------------------------------------------------

  /** `context; read; erase`, not entered inside, whose erase removes exactly the pushed slot. */
  ghost predicate DeadBlock(c: Code, f: Flags, i: nat)
    requires Shaped(c) && Fits(f, |c.cmds|)
  {
    && i + 2 < |c.cmds|
    && c.cmds[i].op.PushContext? && c.cmds[i + 1].op.Read? && c.cmds[i + 2].op.Erase?
    && c.keep[i] && c.keep[i + 1] && c.keep[i + 2]
    && c.cmds[i + 2].arg == |c.model[i]| && !c.data[i + 1]
    && !f.entry[i + 1] && !f.entry[i + 2]
  }

  function WithoutPush(c: Code, i: nat): Code
    requires Shaped(c) && i + 2 < |c.cmds|
  {
    c.(keep := c.keep[i := false][i + 2 := false], model := c.model[i + 1 := c.model[i]])
  }

  lemma DeadBlockRuns(w: World, c: Code, f: Flags, i: nat, hi: nat, s: seq<Value>, e: Env)
    requires Watched(c, f) && DeadBlock(c, f, i) && hi > i + 2
    requires OnModel(w, c, i, s)
    ensures Refines(Run(w, c, i, hi, s, e),
                    match EffectOf(w, c.cmds[i + 1], s, e)
                    case Broken(err) => Failed(err)
                    case Fine(s', e') => Run(w, c, i + 3, hi, s', e'))
  {
    hide Run;
    var s1 := s + [Context];
    var read := c.cmds[i + 1];
    RunStep(w, c, i, hi, s, e);
    if |s| < w.capacity {
      if !OnModel(w, c, i + 1, s1) {
        RunOff(w, c, i + 1, hi, s1, e);
      } else {
        RunStep(w, c, i + 1, hi, s1, e);
        match EffectOf(w, read, s1, e)
        case Broken(_) =>
        case Fine(s2, e2) =>
          assert s2[..|s|] == s && EraseAt(s2, |s|) == s + [s2[|s| + 1]];
          if OnModel(w, c, i + 2, s2) { RunStep(w, c, i + 2, hi, s2, e2); } else { RunOff(w, c, i + 2, hi, s2, e2); }
      }
    }
  }

  lemma {:induction false} DropPushSound(w: World, c: Code, f: Flags, i: nat, pc: nat, hi: nat, s: seq<Value>, e: Env)
    requires Watched(c, f) && DeadBlock(c, f, i)
    requires pc !in {i + 1, i + 2} && hi !in {i + 1, i + 2}
    ensures Refines(Run(w, c, pc, hi, s, e), Run(w, WithoutPush(c, i), pc, hi, s, e))
    decreases hi - pc
  {
    hide Run, Step;
    var d := WithoutPush(c, i);
    if pc >= hi || pc >= |c.cmds| {
      RunEnds(w, c, pc, hi, s, e);
      RunEnds(w, d, pc, hi, s, e);
    } else if !c.keep[pc] {
      RunDropped(w, c, pc, hi, s, e);
      RunDropped(w, d, pc, hi, s, e);
      DropPushSound(w, c, f, i, pc + 1, hi, s, e);
    } else if !OnModel(w, c, pc, s) {
      RunOff(w, c, pc, hi, s, e);
    } else if pc == i {
      DeadBlockRuns(w, c, f, i, hi, s, e);
      DeadBlockDropped(w, c, f, i, hi, s, e);
      match EffectOf(w, c.cmds[i + 1], s, e)
      case Broken(_) =>
      case Fine(s', e') => DropPushSound(w, c, f, i, i + 3, hi, s', e');
    } else {
      var avoid := iset{i + 1, i + 2};
      LinkedOutside(c.cmds, f, pc, avoid);
      forall t: nat, h: nat | t > pc && h <= hi && t !in avoid && h !in avoid ensures RangeRefines(w, c, t, h, d, t, h) {
        forall s, e ensures Refines(Run(w, c, t, h, s, e), Run(w, d, t, h, s, e)) { DropPushSound(w, c, f, i, t, h, s, e); }
      }
      SameCommand(w, c, d, pc, hi, avoid, s, e);
    }
  }

  lemma DeadBlockDropped(w: World, c: Code, f: Flags, i: nat, hi: nat, s: seq<Value>, e: Env)
    requires Watched(c, f) && DeadBlock(c, f, i) && hi > i + 2
    requires OnModel(w, c, i, s)
    ensures Run(w, WithoutPush(c, i), i, hi, s, e) ==
            match EffectOf(w, c.cmds[i + 1], s, e)
            case Broken(err) => Failed(err)
            case Fine(s', e') => Run(w, WithoutPush(c, i), i + 3, hi, s', e')
  {
    hide Run;
    var d := WithoutPush(c, i);
    RunDropped(w, d, i, hi, s, e);
    RunStep(w, d, i + 1, hi, s, e);
    match EffectOf(w, c.cmds[i + 1], s, e)
    case Broken(_) =>
    case Fine(s', e') => RunDropped(w, d, i + 2, hi, s', e');
  }

  /** A recorded push that nothing enters is a dead block. */
  ghost predicate PushesOk(cmds: seq<Command>, f: Flags, model: seq<seq<Ty>>, pushes: seq<DeadPush>)
    requires Fits(f, |cmds|) && |model| == |cmds|
  {
    forall p :: p in pushes && p.cmd < p.unwind < |cmds| && IsErase(cmds, f, p.unwind) && !Entered(f, p.cmd, p.unwind) ==>
      && p.unwind == p.cmd + 2
      && !f.data[p.cmd] && !f.data[p.cmd + 1]
      && cmds[p.cmd].op.PushContext? && cmds[p.cmd + 1].op.Read?
      && cmds[p.unwind].arg == |model[p.cmd]|
  }

  /** The transforms only ever drop context pushes, erases and jumps. */
  ghost predicate OnlyDrops(cmds: seq<Command>, f: Flags, keep: seq<bool>)
    requires Fits(f, |cmds|) && |keep| == |cmds|
  {
    forall i: nat :: i < |cmds| && !keep[i] ==>
      !f.data[i] && (cmds[i].op.PushContext? || cmds[i].op.Erase? || cmds[i].op.Jump?)
  }

  lemma {:induction false} DropPushesSound(w: World, c: Code, f: Flags, model: seq<seq<Ty>>, pushes: seq<DeadPush>, k: nat, m: Marked)
    returns (d: Code)
    requires Watched(c, f) && k <= |pushes| && m.keep == c.keep && |model| == |c.cmds|
    requires OnlyDrops(c.cmds, f, c.keep) && PushesOk(c.cmds, f, model, pushes)
    requires forall i :: 0 <= i < |c.cmds| && c.cmds[i].op.PushContext? ==> c.model[i] == model[i]
    ensures Watched(d, f) && d.cmds == c.cmds && d.keep == DropPushes(c.cmds, f, pushes, k, m).keep
    ensures OnlyDrops(d.cmds, f, d.keep) && EntriesRefine(w, c, d, f)
    ensures forall i :: 0 <= i < |c.cmds| && !c.cmds[i].op.Read? ==> d.model[i] == c.model[i]
    decreases |pushes| - k
  {
    hide Run;
    EntriesReflect(w, c, f);
    if k == |pushes| {
      d := c;
    } else if !Droppable(c.cmds, f, pushes[k], c.keep) {
      d := DropPushesSound(w, c, f, model, pushes, k + 1, m);
    } else {
      var p := pushes[k];
      assert p in pushes;
      var c1 := WithoutPush(c, p.cmd);
      forall pc: nat, hi: nat | Entry(f, pc) && Entry(f, hi) ensures RangeRefines(w, c, pc, hi, c1, pc, hi) {
        forall s, e ensures Refines(Run(w, c, pc, hi, s, e), Run(w, c1, pc, hi, s, e)) {
          DropPushSound(w, c, f, p.cmd, pc, hi, s, e);
        }
      }
      d := DropPushesSound(w, c1, f, model, pushes, k + 1, Marked(c1.keep, UnscopeAll(p, m.descs)));
      EntriesCompose(w, c, c1, d, f);
    }
  }

  // --- runs of erases ---------------------------------------------------------------

  /** The slots a run of `k` single erases has removed: `k` slots from here on. */
  function RunLow(first: int, descending: bool, k: nat): int { if descending && k > 0 then first - k + 1 else first }

  ghost predicate EraseRun(c: Code, f: Flags, i: nat, n: nat, descending: bool)
    requires Shaped(c) && Fits(f, |c.cmds|)
  {
    && 1 <= n && i + n <= |c.cmds|
    && (forall j: nat :: i <= j < i + n ==> c.keep[j] && IsErase(c.cmds, f, j) && c.cmds[j].arg == RunArg(c.cmds[i].arg, descending, j - i))
    && (forall j: nat :: i < j < i + n ==> !f.entry[j])
  }

  predicate Between(i: nat, j: int, end: nat) { i < j < end }

  function Removed(s: seq<Value>, base: nat, low: int, k: nat): seq<Value>
    requires 0 <= base + low && base + low + k <= |s|
  {
    s[..base + low] + s[base + low + k..]
  }

  /** The stack after the first `k` erases of a run. */
  function EraseSeq(s: seq<Value>, base: nat, first: int, descending: bool, k: nat): seq<Value>
  {
    if k == 0 then s else EraseAt(EraseSeq(s, base, first, descending, k - 1), RunArg(first, descending, k - 1) + base)
  }

  /** The first `k` erases of a run all hit the frame. */
  predicate Hits(s: seq<Value>, base: nat, first: int, descending: bool, k: nat) {
    k == 0 ||
    (&& Hits(s, base, first, descending, k - 1)
     && 0 <= RunArg(first, descending, k - 1)
     && base + RunArg(first, descending, k - 1) < |EraseSeq(s, base, first, descending, k - 1)|)
  }

  /** A run that hits removes one contiguous range. */
  lemma {:induction false} EraseSeqIsRemoved(s: seq<Value>, base: nat, first: int, descending: bool, k: nat)
    requires 1 <= k && Hits(s, base, first, descending, k)
    ensures var low := RunLow(first, descending, k);
      0 <= low && base + low + k <= |s| && EraseSeq(s, base, first, descending, k) == Removed(s, base, low, k)
  {
    if k == 1 {
      assert EraseSeq(s, base, first, descending, 0) == s;
    } else {
      EraseSeqIsRemoved(s, base, first, descending, k - 1);
    }
  }

  /** Erasing `k` slots from `index` on, as far as the stack reaches. */
  function Truncated(s: seq<Value>, index: nat, k: nat): seq<Value> {
    if index >= |s| then s else s[..index] + s[if index + k < |s| then index + k else |s|..]
  }

  lemma {:induction false} EraseSeqTruncates(s: seq<Value>, base: nat, first: int, descending: bool, k: nat)
    requires 0 <= RunLow(first, descending, k)
    ensures EraseSeq(s, base, first, descending, k) == Truncated(s, base + RunLow(first, descending, k), k)
  {
    hide Truncated, EraseAt;
    var index := base + RunLow(first, descending, k);
    if k <= 1 {
      TruncateFew(s, index);
    } else {
      EraseSeqTruncates(s, base, first, descending, k - 1);
      if descending { TruncateBelow(s, index, k - 1); } else { TruncateAbove(s, index, k - 1); }
    }
  }

  lemma TruncateFew(s: seq<Value>, index: nat)
    ensures Truncated(s, index, 0) == s && Truncated(s, index, 1) == EraseAt(s, index)
  {}

  lemma TruncateAbove(s: seq<Value>, index: nat, k: nat)
    ensures EraseAt(Truncated(s, index, k), index) == Truncated(s, index, k + 1)
  {}

  lemma TruncateBelow(s: seq<Value>, index: nat, k: nat)
    ensures EraseAt(Truncated(s, index + 1, k), index) == Truncated(s, index, k + 1)
  {}

  /**
    `erase_range` does what the run of erases did exactly when its range lies inside the
    stack or wholly above it: a range that sticks out is left alone, while the single
    erases still remove the slots that exist.
  */
  lemma FusionExact(s: seq<Value>, base: nat, first: int, descending: bool, k: nat)
    requires 1 <= k && 0 <= RunLow(first, descending, k)
    ensures var index := base + RunLow(first, descending, k);
      EraseSeq(s, base, first, descending, k) == EraseRangeAt(s, index, k) <==> (index + k <= |s| || index >= |s|)
  {
    EraseSeqTruncates(s, base, first, descending, k);
  }

  /** Two erases from the top down on a stack of two, the upper one missing: fused they do nothing. */
  lemma FusionOutsideStack()
    ensures EraseSeq([Int(7), Int(8)], 0, 2, true, 2) == [Int(7)]
    ensures EraseRangeAt([Int(7), Int(8)], 1, 2) == [Int(7), Int(8)]
  {
    EraseSeqTruncates([Int(7), Int(8)], 0, 2, true, 2);
  }

  /** Where the first `k` erases of a run lead, and that they all hit the frame. */
  lemma {:induction false} EraseRunRuns(w: World, c: Code, f: Flags, i: nat, n: nat, descending: bool, k: nat, hi: nat, s: seq<Value>, e: Env)
    requires Shaped(c) && c.watch && Fits(f, |c.cmds|) && EraseRun(c, f, i, n, descending) && k <= n && hi >= i + n
    requires !Run(w, c, i, hi, s, e).OffModel?
    ensures Hits(s, w.base, c.cmds[i].arg, descending, k)
    ensures Run(w, c, i, hi, s, e) == Run(w, c, i + k, hi, EraseSeq(s, w.base, c.cmds[i].arg, descending, k), e)
    decreases k
  {
    hide Run;
    if k > 0 {
      EraseRunRuns(w, c, f, i, n, descending, k - 1, hi, s, e);
      var j := i + (k - 1);
      assert c.keep[j] && IsErase(c.cmds, f, j) && c.cmds[j].arg == RunArg(c.cmds[i].arg, descending, k - 1);
      EraseStep(w, c, j, hi, EraseSeq(s, w.base, c.cmds[i].arg, descending, k - 1), e);
    }
  }

  lemma EraseStep(w: World, c: Code, j: nat, hi: nat, s: seq<Value>, e: Env)
    requires Shaped(c) && c.watch && j < |c.cmds| && j < hi && c.keep[j] && c.cmds[j].op.Erase?
    requires !Run(w, c, j, hi, s, e).OffModel?
    ensures OnModel(w, c, j, s) && 0 <= c.cmds[j].arg && w.base + c.cmds[j].arg < |s|
    ensures Run(w, c, j, hi, s, e) == Run(w, c, j + 1, hi, EraseAt(s, c.cmds[j].arg + w.base), e)
  {
    hide Run;
    if !OnModel(w, c, j, s) { RunOff(w, c, j, hi, s, e); }
    RunStep(w, c, j, hi, s, e);
  }

  function Fused(c: Code, i: nat, n: nat, low: int): Code
    requires Shaped(c) && i < i + n <= |c.cmds|
  {
    c.(cmds := c.cmds[i := Command(EraseRange, Pack2(low, n))], keep := Clear(c.keep, i + 1, i + n))
  }

  lemma FusedLinked(c: Code, f: Flags, i: nat, n: nat, low: int)
    requires Watched(c, f) && i < i + n <= |c.cmds| && !f.data[i]
    ensures Watched(Fused(c, i, n, low), f)
    ensures forall pc: nat :: pc < |c.cmds| && pc != i && !f.data[pc] ==> SameAt(c.cmds, Fused(c, i, n, low).cmds, pc)
  {
    var d := Fused(c, i, n, low);
    forall pc: nat | pc < |c.cmds| && pc != i && !f.data[pc] ensures SameAt(c.cmds, d.cmds, pc) && LinkedAt(d.cmds, f, pc) {
      assert LinkedAt(c.cmds, f, pc);
      SameSections(c.cmds, d.cmds, pc);
    }
  }

  lemma EraseRangeStep(w: World, c: Code, j: nat, hi: nat, s: seq<Value>, e: Env)
    requires Shaped(c) && j < |c.cmds| && j < hi && c.keep[j] && c.cmds[j].op.EraseRange?
    requires OnModel(w, c, j, s)
    ensures Run(w, c, j, hi, s, e) == Run(w, c, j + 1, hi, EraseRangeAt(s, LowHalf(c.cmds[j].arg) + w.base, HighHalf(c.cmds[j].arg)), e)
  {
    hide Run;
    RunStep(w, c, j, hi, s, e);
  }

  lemma FusedHead(w: World, c: Code, i: nat, n: nat, low: int, hi: nat, s: seq<Value>, e: Env)
    requires Shaped(c) && i < i + n <= |c.cmds| && hi >= i + n && c.keep[i] && c.cmds[i].op.Erase?
    requires OnModel(w, c, i, s) && 1 <= n <= INT32_MAX && 0 <= low <= INT32_MAX && w.base + low + n <= |s|
    ensures Run(w, Fused(c, i, n, low), i, hi, s, e) == Run(w, Fused(c, i, n, low), i + n, hi, Removed(s, w.base, low, n), e)
  {
    hide Run;
    var d := Fused(c, i, n, low);
    Unpack2(low, n);
    var s1 := EraseRangeAt(s, low + w.base, n);
    assert s1 == Removed(s, w.base, low, n);
    EraseRangeStep(w, d, i, hi, s, e);
    Skip(w, d, i + 1, i + n, hi, s1, e);
  }

  lemma {:induction false} FuseSound(w: World, c: Code, f: Flags, i: nat, n: nat, descending: bool, pc: nat, hi: nat, s: seq<Value>, e: Env)
    requires Watched(c, f) && EraseRun(c, f, i, n, descending)
    requires n <= INT32_MAX && 0 <= RunLow(c.cmds[i].arg, descending, n) <= INT32_MAX
    requires !(i < pc < i + n) && !(i < hi < i + n)
    ensures Refines(Run(w, c, pc, hi, s, e), Run(w, Fused(c, i, n, RunLow(c.cmds[i].arg, descending, n)), pc, hi, s, e))
    decreases hi - pc
  {
    hide Run, Step;
    var low := RunLow(c.cmds[i].arg, descending, n);
    var d := Fused(c, i, n, low);
    assert c.keep[i] && IsErase(c.cmds, f, i);
    FusedLinked(c, f, i, n, low);
    if pc >= hi || pc >= |c.cmds| {
      RunEnds(w, c, pc, hi, s, e);
      RunEnds(w, d, pc, hi, s, e);
    } else if !c.keep[pc] {
      RunDropped(w, c, pc, hi, s, e);
      RunDropped(w, d, pc, hi, s, e);
      FuseSound(w, c, f, i, n, descending, pc + 1, hi, s, e);
    } else if !OnModel(w, c, pc, s) {
      RunOff(w, c, pc, hi, s, e);
    } else if pc == i {
      if !Run(w, c, i, hi, s, e).OffModel? {
        EraseRunRuns(w, c, f, i, n, descending, n, hi, s, e);
        EraseSeqIsRemoved(s, w.base, c.cmds[i].arg, descending, n);
        FusedHead(w, c, i, n, low, hi, s, e);
        FuseSound(w, c, f, i, n, descending, i + n, hi, Removed(s, w.base, low, n), e);
      }
    } else {
      var end := i + n;
      var avoid := iset j | Between(i, j, end);
      assert LinkedAt(c.cmds, f, pc);
      LinkedOutside(c.cmds, f, pc, avoid);
      forall t: nat, h: nat | t > pc && h <= hi && t !in avoid && h !in avoid ensures RangeRefines(w, c, t, h, d, t, h) {
        forall s, e ensures Refines(Run(w, c, t, h, s, e), Run(w, d, t, h, s, e)) { FuseSound(w, c, f, i, n, descending, t, h, s, e); }
      }
      SameCommand(w, c, d, pc, hi, avoid, s, e);
    }
  }

  lemma {:induction false} RunEndIsRun(cmds: seq<Command>, f: Flags, keep: seq<bool>, j: nat)
    requires |keep| == |cmds| && Fits(f, |cmds|) && j <= |cmds|
    ensures forall k: nat :: j <= k < RunEnd(cmds, f, keep, j) ==> keep[k] && !f.entry[k] && IsErase(cmds, f, k)
    decreases |cmds| - j
  {
    if RunEnd(cmds, f, keep, j) > j { RunEndIsRun(cmds, f, keep, j + 1); }
  }

  lemma {:induction false} FusedCountIsRun(cmds: seq<Command>, i: nat, end: nat, descending: bool, fused: nat)
    requires i + fused <= end <= |cmds| && i < end
    ensures forall j: nat :: i + fused <= j < i + FusedCount(cmds, i, end, descending, fused) ==>
              cmds[j].arg == RunArg(cmds[i].arg, descending, j - i)
    decreases end - fused
  {
    if FusedCount(cmds, i, end, descending, fused) > fused { FusedCountIsRun(cmds, i, end, descending, fused + 1); }
  }

  lemma FusionIsRun(c: Code, f: Flags, i: nat) returns (descending: bool)
    requires Watched(c, f) && i < |c.cmds| && c.keep[i] && IsErase(c.cmds, f, i)
    ensures var r := FusionAt(c.cmds, f, c.keep, i);
      EraseRun(c, f, i, r.count, descending) && r.lowest == RunLow(c.cmds[i].arg, descending, r.count)
  {
    var end := RunEnd(c.cmds, f, c.keep, i + 1);
    descending := end > i + 1 && c.cmds[i + 1].arg == c.cmds[i].arg - 1;
    RunEndIsRun(c.cmds, f, c.keep, i + 1);
    FusedCountIsRun(c.cmds, i, end, descending, 1);
  }

  lemma FuseStepSound(w: World, c: Code, f: Flags, i: nat) returns (d: Code)
    requires Watched(c, f) && OnlyDrops(c.cmds, f, c.keep) && i < |c.cmds| && c.keep[i] && IsErase(c.cmds, f, i)
    requires Fusable(FusionAt(c.cmds, f, c.keep, i))
    ensures var r := FusionAt(c.cmds, f, c.keep, i); d == Fused(c, i, r.count, r.lowest)
    ensures Watched(d, f) && OnlyDrops(d.cmds, f, d.keep) && EntriesRefine(w, c, d, f)
  {
    hide Run;
    var r := FusionAt(c.cmds, f, c.keep, i);
    var descending := FusionIsRun(c, f, i);
    d := Fused(c, i, r.count, r.lowest);
    FusedLinked(c, f, i, r.count, r.lowest);
    forall pc: nat, hi: nat | Entry(f, pc) && Entry(f, hi) ensures RangeRefines(w, c, pc, hi, d, pc, hi) {
      forall s, e ensures Refines(Run(w, c, pc, hi, s, e), Run(w, d, pc, hi, s, e)) {
        FuseSound(w, c, f, i, r.count, descending, pc, hi, s, e);
      }
    }
  }

  lemma {:induction false} FuseErasesSound(w: World, c: Code, f: Flags, i: nat) returns (d: Code)
    requires Watched(c, f) && OnlyDrops(c.cmds, f, c.keep) && i <= |c.cmds|
    ensures Watched(d, f) && Peeped(d.cmds, d.keep) == FuseErases(f, i, Peeped(c.cmds, c.keep)) && d.model == c.model
    ensures OnlyDrops(d.cmds, f, d.keep) && EntriesRefine(w, c, d, f)
    decreases |c.cmds| - i
  {
    hide Run, Step, BranchStep, EffectOf;
    EntriesReflect(w, c, f);
    if i == |c.cmds| {
      d := c;
    } else if !c.keep[i] || f.observed[i] || !IsErase(c.cmds, f, i) {
      d := FuseErasesSound(w, c, f, i + 1);
    } else {
      var r := FusionAt(c.cmds, f, c.keep, i);
      if !Fusable(r) {
        d := FuseErasesSound(w, c, f, i + r.count);
      } else {
        var c1 := FuseStepSound(w, c, f, i);
        d := FuseErasesSound(w, c1, f, i + r.count);
        EntriesCompose(w, c, c1, d, f);
      }
    }
  }

  /** Fusing turns erases into range erases and changes nothing else. */
  ghost predicate OnlyFuses(a: seq<Command>, f: Flags, b: seq<Command>)
    requires Fits(f, |a|)
  {
    |a| == |b| && forall i :: 0 <= i < |a| ==> b[i] == a[i] || (!f.data[i] && a[i].op.Erase? && b[i].op.EraseRange?)
  }

  /** An erase is dropped only when the command before it is one too. */
  ghost predicate DropsInRuns(x: Peeped, f: Flags, r: Peeped)
    requires |x.keep| == |x.cmds| == |r.keep| && Fits(f, |x.cmds|)
  {
    forall j: nat :: j < |x.cmds| && x.keep[j] && !r.keep[j] ==> j > 0 && IsErase(x.cmds, f, j) && IsErase(x.cmds, f, j - 1)
  }

  function FuseAt(x: Peeped, i: nat, n: nat, low: int): Peeped
    requires i < i + n <= |x.keep| == |x.cmds|
  {
    Peeped(x.cmds[i := Command(EraseRange, Pack2(low, n))], Clear(x.keep, i + 1, i + n))
  }

  lemma FuseAtEffect(f: Flags, i: nat, x: Peeped)
    requires |x.keep| == |x.cmds| && Fits(f, |x.cmds|) && i < |x.cmds| && IsErase(x.cmds, f, i)
    ensures var r := FusionAt(x.cmds, f, x.keep, i);
            OnlyFuses(x.cmds, f, FuseAt(x, i, r.count, r.lowest).cmds) && DropsInRuns(x, f, FuseAt(x, i, r.count, r.lowest))
  {
    RunEndIsRun(x.cmds, f, x.keep, i + 1);
    var end := RunEnd(x.cmds, f, x.keep, i + 1);
    var n := FusionAt(x.cmds, f, x.keep, i).count;
    assert i + n <= end;
    assert forall j: nat :: i <= j < i + n ==> IsErase(x.cmds, f, j);
  }

  lemma DropsInRunsCompose(x: Peeped, f: Flags, y: Peeped, z: Peeped)
    requires |x.keep| == |x.cmds| == |y.keep| == |y.cmds| == |z.keep| && Fits(f, |x.cmds|)
    requires OnlyFuses(x.cmds, f, y.cmds) && DropsInRuns(x, f, y) && OnlyFuses(y.cmds, f, z.cmds) && DropsInRuns(y, f, z)
    ensures OnlyFuses(x.cmds, f, z.cmds) && DropsInRuns(x, f, z)
  {
    forall j: nat | j < |x.cmds| && x.keep[j] && !z.keep[j] ensures j > 0 && IsErase(x.cmds, f, j) && IsErase(x.cmds, f, j - 1) {
      if y.keep[j] {
        assert IsErase(y.cmds, f, j) && IsErase(y.cmds, f, j - 1);
        assert y.cmds[j - 1].op.Erase?;
      }
    }
  }

  lemma FuseUnfold(f: Flags, i: nat, x: Peeped)
    requires |x.keep| == |x.cmds| && Fits(f, |x.cmds|) && i < |x.cmds| && x.keep[i] && !f.observed[i] && IsErase(x.cmds, f, i)
    ensures var r := FusionAt(x.cmds, f, x.keep, i);
            FuseErases(f, i, x) == FuseErases(f, i + r.count, if Fusable(r) then FuseAt(x, i, r.count, r.lowest) else x)
  {}

  lemma FuseSkip(f: Flags, i: nat, x: Peeped)
    requires |x.keep| == |x.cmds| && Fits(f, |x.cmds|) && i <= |x.cmds|
    ensures i == |x.cmds| ==> FuseErases(f, i, x) == x
    ensures i < |x.cmds| && (!x.keep[i] || f.observed[i] || !IsErase(x.cmds, f, i)) ==> FuseErases(f, i, x) == FuseErases(f, i + 1, x)
  {}

  lemma {:induction false} FuseErasesEffect(f: Flags, i: nat, x: Peeped)
    requires |x.keep| == |x.cmds| && Fits(f, |x.cmds|) && i <= |x.cmds|
    ensures OnlyFuses(x.cmds, f, FuseErases(f, i, x).cmds) && DropsInRuns(x, f, FuseErases(f, i, x))
    decreases |x.cmds| - i
  {
    hide FuseErases, FusionAt, Pack2;
    FuseSkip(f, i, x);
    if i < |x.cmds| {
      hide OnlyFuses, DropsInRuns;
      if !x.keep[i] || f.observed[i] || !IsErase(x.cmds, f, i) {
        FuseErasesEffect(f, i + 1, x);
      } else {
        var r := FusionAt(x.cmds, f, x.keep, i);
        var y := if Fusable(r) then FuseAt(x, i, r.count, r.lowest) else x;
        FuseUnfold(f, i, x);
        FuseAtEffect(f, i, x);
        FuseErasesEffect(f, i + r.count, y);
        DropsInRunsCompose(x, f, y, FuseErases(f, i + r.count, y));
      }
    }
  }

  // --- jumps that fall through ------------------------------------------------------

  lemma JumpRuns(w: World, c: Code, pc: nat, hi: nat, s: seq<Value>, e: Env)
    requires Shaped(c) && c.watch && pc < |c.cmds| && pc < hi && c.keep[pc] && c.cmds[pc].op.Jump? && c.cmds[pc].arg > pc
    ensures Refines(Run(w, c, pc, hi, s, e), Run(w, c, c.cmds[pc].arg, hi, s, e))
  {
    hide Run;
    if OnModel(w, c, pc, s) { RunStep(w, c, pc, hi, s, e); } else { RunOff(w, c, pc, hi, s, e); }
  }

  lemma {:induction false} DropJumpsSound(w: World, c: Code, f: Flags, pc: nat, hi: nat, s: seq<Value>, e: Env)
    requires Watched(c, f)
    ensures Refines(Run(w, c, pc, hi, s, e), Run(w, c.(keep := DropJumps(c.cmds, f, c.keep)), pc, hi, s, e))
    decreases hi - pc
  {
    hide Run, Step;
    var d := c.(keep := DropJumps(c.cmds, f, c.keep));
    if pc >= hi || pc >= |c.cmds| {
      RunEnds(w, c, pc, hi, s, e);
      RunEnds(w, d, pc, hi, s, e);
    } else if !c.keep[pc] {
      RunDropped(w, c, pc, hi, s, e);
      RunDropped(w, d, pc, hi, s, e);
      DropJumpsSound(w, c, f, pc + 1, hi, s, e);
    } else if !OnModel(w, c, pc, s) {
      RunOff(w, c, pc, hi, s, e);
    } else if FallsThrough(c.cmds, f, c.keep, pc) {
      var next := NextKept(c.keep, pc + 1);
      JumpRuns(w, c, pc, hi, s, e);
      Skip(w, d, pc, next, hi, s, e);
      DropJumpsSound(w, c, f, next, hi, s, e);
    } else {
      assert LinkedAt(c.cmds, f, pc);
      LinkedOutside(c.cmds, f, pc, iset{});
      forall t: nat, h: nat | t > pc && h <= hi ensures RangeRefines(w, c, t, h, d, t, h) {
        forall s, e ensures Refines(Run(w, c, t, h, s, e), Run(w, d, t, h, s, e)) { DropJumpsSound(w, c, f, t, h, s, e); }
      }
      SameCommand(w, c, d, pc, hi, iset{}, s, e);
    }
  }

  // --- jump threading ---------------------------------------------------------------

  function Retarget(c: Code, q: nat, target: int): Code
    requires q < |c.cmds|
  {
    c.(cmds := c.cmds[q := Command(c.cmds[q].op, target)])
  }

  /** `q` branches to an unconditional jump at `t`. */
  ghost predicate Hop(c: Code, f: Flags, q: nat, t: nat)
    requires Shaped(c) && Fits(f, |c.cmds|)
  {
    && q < |c.cmds| && t < |c.cmds|
    && !f.data[q] && IsBranch(c.cmds[q].op) && c.cmds[q].arg == t
    && c.keep[t] && !f.data[t] && c.cmds[t].op.Jump?
  }

  lemma RetargetLinked(c: Code, f: Flags, q: nat, t: nat)
    requires Watched(c, f) && Hop(c, f, q, t)
    ensures Watched(Retarget(c, q, c.cmds[t].arg), f)
    ensures forall pc: nat :: pc < |c.cmds| && pc != q && !f.data[pc] ==> SameAt(c.cmds, Retarget(c, q, c.cmds[t].arg).cmds, pc)
  {
    var d := Retarget(c, q, c.cmds[t].arg);
    assert LinkedAt(c.cmds, f, q) && LinkedAt(c.cmds, f, t);
    forall pc: nat | pc < |c.cmds| && pc != q && !f.data[pc] ensures SameAt(c.cmds, d.cmds, pc) && LinkedAt(d.cmds, f, pc) {
      assert LinkedAt(c.cmds, f, pc);
      SameSections(c.cmds, d.cmds, pc);
    }
  }

  lemma {:induction false} HopSound(w: World, c: Code, f: Flags, q: nat, t: nat, pc: nat, hi: nat, s: seq<Value>, e: Env)
    requires Watched(c, f) && Hop(c, f, q, t)
    ensures Refines(Run(w, c, pc, hi, s, e), Run(w, Retarget(c, q, c.cmds[t].arg), pc, hi, s, e))
    decreases hi - pc
  {
    hide Run, BranchStep;
    var d := Retarget(c, q, c.cmds[t].arg);
    RetargetLinked(c, f, q, t);
    if pc >= hi || pc >= |c.cmds| {
      RunEnds(w, c, pc, hi, s, e);
      RunEnds(w, d, pc, hi, s, e);
    } else if !c.keep[pc] {
      RunDropped(w, c, pc, hi, s, e);
      RunDropped(w, d, pc, hi, s, e);
      HopSound(w, c, f, q, t, pc + 1, hi, s, e);
    } else if !OnModel(w, c, pc, s) {
      RunOff(w, c, pc, hi, s, e);
    } else if pc == q {
      assert LinkedAt(c.cmds, f, q) && LinkedAt(c.cmds, f, t);
      RunStep(w, c, q, hi, s, e);
      RunStep(w, d, q, hi, s, e);
      SameBranch(w, c.cmds[q], d.cmds[q], s, e);
      match BranchStep(w, c.cmds[q], s, e)
      case Halt(_) =>
      case Go(taken, s', e') =>
        if !taken {
          HopSound(w, c, f, q, t, q + 1, hi, s', e');
        } else {
          if t < hi { JumpRuns(w, c, t, hi, s', e'); } else { RunEnds(w, c, t, hi, s', e'); RunEnds(w, d, c.cmds[t].arg, hi, s', e'); }
          HopSound(w, c, f, q, t, c.cmds[t].arg, hi, s', e');
        }
    } else {
      assert LinkedAt(c.cmds, f, pc);
      LinkedOutside(c.cmds, f, pc, iset{});
      forall t': nat, h: nat | t' > pc && h <= hi ensures RangeRefines(w, c, t', h, d, t', h) {
        forall s, e ensures Refines(Run(w, c, t', h, s, e), Run(w, d, t', h, s, e)) { HopSound(w, c, f, q, t, t', h, s, e); }
      }
      SameCommand(w, c, d, pc, hi, iset{}, s, e);
    }
  }

  /** What a branch does to the stack does not depend on where it leads. */
  lemma SameBranch(w: World, c: Command, d: Command, s: seq<Value>, e: Env)
    requires IsBranch(c.op) && c.op == d.op
    ensures BranchStep(w, c, s, e) == BranchStep(w, d, s, e)
  {}

  /** Following a chain of jumps from a branch, hop by hop. */
  lemma {:induction false} FollowSound(w: World, c: Code, f: Flags, q: nat, steps: nat) returns (d: Code)
    requires Watched(c, f) && q < |c.cmds| && !f.data[q] && IsBranch(c.cmds[q].op) && OnlyDrops(c.cmds, f, c.keep)
    ensures d == Retarget(c, q, Follow(c.cmds, f, c.keep, c.cmds[q].arg, steps))
    ensures Watched(d, f) && EntriesRefine(w, c, d, f) && OnlyDrops(d.cmds, f, d.keep) && Rewritten(c.cmds, f, d.cmds)
    decreases steps
  {
    hide Run;
    var t := c.cmds[q].arg;
    assert LinkedAt(c.cmds, f, q);
    EntriesReflect(w, c, f);
    if steps == 0 || t >= |c.cmds| || !c.keep[t] || f.data[t] || f.observed[t] || !c.cmds[t].op.Jump? {
      d := c;
      assert d.cmds == Retarget(c, q, t).cmds;
    } else {
      assert LinkedAt(c.cmds, f, t);
      var c1 := Retarget(c, q, c.cmds[t].arg);
      RetargetLinked(c, f, q, t);
      forall pc: nat, hi: nat | Entry(f, pc) && Entry(f, hi) ensures RangeRefines(w, c, pc, hi, c1, pc, hi) {
        forall s, e ensures Refines(Run(w, c, pc, hi, s, e), Run(w, c1, pc, hi, s, e)) { HopSound(w, c, f, q, t, pc, hi, s, e); }
      }
      d := FollowSound(w, c1, f, q, steps - 1);
      FollowAhead(c, f, q, c.cmds[t].arg, c.cmds[t].arg, steps - 1);
      EntriesCompose(w, c, c1, d, f);
    }
  }

  /** Chains only go forward, so retargeting the branch they start from does not change them. */
  lemma {:induction false} FollowAhead(c: Code, f: Flags, q: nat, target: int, x: int, steps: nat)
    requires Watched(c, f) && q < |c.cmds| && target > q
    ensures Follow(c.cmds[q := Command(c.cmds[q].op, x)], f, c.keep, target, steps) == Follow(c.cmds, f, c.keep, target, steps)
    decreases steps
  {
    if steps > 0 && target < |c.cmds| && !f.data[target] && c.cmds[target].op.Jump? {
      assert LinkedAt(c.cmds, f, target);
      FollowAhead(c, f, q, c.cmds[target].arg, x, steps - 1);
    }
  }

  lemma {:induction false} ThreadJumpsSound(w: World, c: Code, f: Flags, fields: seq<Field>, k: nat) returns (d: Code)
    requires Watched(c, f) && OnlyDrops(c.cmds, f, c.keep) && k <= |fields|
    ensures d == c.(cmds := ThreadJumps(c.cmds, f, c.keep, fields, k))
    ensures Watched(d, f) && EntriesRefine(w, c, d, f) && OnlyDrops(d.cmds, f, d.keep) && Rewritten(c.cmds, f, d.cmds)
    decreases |fields| - k
  {
    hide Run;
    EntriesReflect(w, c, f);
    if k == |fields| {
      d := c;
    } else if !Threads(c.cmds, f, c.keep, fields[k]) {
      d := ThreadJumpsSound(w, c, f, fields, k + 1);
    } else {
      var c1 := FollowSound(w, c, f, fields[k].cmd, |c.cmds|);
      d := ThreadJumpsSound(w, c1, f, fields, k + 1);
      EntriesCompose(w, c, c1, d, f);
    }
  }
}
