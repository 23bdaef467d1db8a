/**
  Simulation lemmas shared by every transform of the peephole: two programs over the
  same world agree on a range if they agree command by command, and callbacks into
  sections are covered once, here.
*/
module Simulation {
  import opened Machine

  /** Whatever stack and environment a range is entered with, `b` ends the way `a` does. */
  ghost predicate RangeRefines(w: World, a: Code, fa: nat, ta: nat, b: Code, fb: nat, tb: nat)
    requires Shaped(a) && Shaped(b)
  {
    forall s, e :: Refines(Run(w, a, fa, ta, s, e), Run(w, b, fb, tb, s, e))
  }

  /** Every callback section of the command at `pa` that `a` may run is mirrored in `b`. */
  ghost predicate SectionsRefine(w: World, a: Code, pa: nat, ha: nat, b: Code, pb: nat, hb: nat)
    requires Shaped(a) && Shaped(b) && pa < |a.cmds| && pb < |b.cmds|
  {
    forall k: nat ::
      match SectionOf(a.cmds, pa, k)
      case None => SectionOf(b.cmds, pb, k) == None
      case Some(Section(from, to)) =>
        pa < from <= to <= ha ==>
          match SectionOf(b.cmds, pb, k)
          case None => false
          case Some(Section(from', to')) =>
            pb < from' <= to' <= hb && RangeRefines(w, a, from, to, b, from', to')
  }

  ghost predicate SameCallback(a: Code, pa: nat, b: Code, pb: nat)
    requires pa < |a.cmds| && pb < |b.cmds|
  {
    && a.cmds[pa].op == b.cmds[pb].op
    && a.cmds[pa].arg == b.cmds[pb].arg
    && AuxOf(a.cmds, pa) == AuxOf(b.cmds, pb)
  }

  /** One turn of an iterator or a pipeline: it ends, or it runs a section and takes the answer. */
  datatype Turn = Ends(outcome: Outcome) | Calls(section: Section, stack: seq<Value>, reply: Reply)

  function TurnOf(w: World, c: Code, pc: nat, hi: nat, replies: seq<Value>, s: seq<Value>, e: Env, left: nat): Turn
    requires pc < |c.cmds|
  {
    match w.act(c.cmds[pc].op, c.cmds[pc].arg, AuxOf(c.cmds, pc), replies, s, e)
    case Abort(err) => Ends(Failed(err))
    case Finish(s', e') => Ends(Done(s', e'))
    case Callback(k, input, reply) =>
      match SectionOf(c.cmds, pc, k)
      case None => Ends(Failed(NoSuchSection))
      case Some(sec) =>
        if left == 0 then Ends(CallLimit)
        else if !(pc < sec.start <= sec.end <= hi) then Ends(OffModel)
        else if input.Some? && |s| >= w.capacity then Ends(Failed(StackOverflow))
        else Calls(sec, if input.Some? then s + [input.value] else s, reply)
  }

  /** What follows once the section has run. */
  function Replied(w: World, c: Code, pc: nat, hi: nat, replies: seq<Value>, reply: Reply, r: Outcome, left: nat): Outcome
    requires Shaped(c) && pc < |c.cmds| && pc < hi && 0 < left <= w.limit
  {
    if !r.Done? then r
    else if reply.NoReply? then Iterate(w, c, pc, hi, replies + [Invalid], r.stack, r.env, left - 1)
    else if r.stack == [] then Failed(StackEmpty)
    else
      var v := r.stack[|r.stack| - 1];
      if w.safe && reply.TypedReply? && TypeOf(v) != reply.ty then Failed(TypeMismatch)
      else Iterate(w, c, pc, hi, replies + [v], r.stack[..|r.stack| - 1], r.env, left - 1)
  }

  lemma TurnCalls(w: World, c: Code, pc: nat, hi: nat, replies: seq<Value>, s: seq<Value>, e: Env, left: nat)
    requires pc < |c.cmds|
    ensures var t := TurnOf(w, c, pc, hi, replies, s, e, left);
      t.Calls? ==> 0 < left && pc < t.section.start <= t.section.end <= hi
  {}

  lemma IterateTurn(w: World, c: Code, pc: nat, hi: nat, replies: seq<Value>, s: seq<Value>, e: Env, left: nat)
    requires Shaped(c) && pc < |c.cmds| && pc < hi && left <= w.limit
    ensures var t := TurnOf(w, c, pc, hi, replies, s, e, left);
      Iterate(w, c, pc, hi, replies, s, e, left) ==
      if t.Ends? then t.outcome else Replied(w, c, pc, hi, replies, t.reply, Run(w, c, t.section.start, t.section.end, t.stack, e), left)
  {
    hide Run, SectionOf, AuxOf;
  }

  /** Equal turns, up to the place of the section. */
  lemma TurnRefines(w: World, a: Code, pa: nat, ha: nat, b: Code, pb: nat, hb: nat, replies: seq<Value>, s: seq<Value>, e: Env, left: nat)
    requires Shaped(a) && Shaped(b) && pa < |a.cmds| && pb < |b.cmds|
    requires SameCallback(a, pa, b, pb) && SectionsRefine(w, a, pa, ha, b, pb, hb)
    ensures var t, u := TurnOf(w, a, pa, ha, replies, s, e, left), TurnOf(w, b, pb, hb, replies, s, e, left);
      if t.Calls? then
        && u.Calls? && u.stack == t.stack && u.reply == t.reply
        && RangeRefines(w, a, t.section.start, t.section.end, b, u.section.start, u.section.end)
      else u == t || t.outcome in [OffModel, CallLimit, Failed(StackOverflow)]
  {
    hide Run, SectionOf, AuxOf, RangeRefines;
    var act := w.act(a.cmds[pa].op, a.cmds[pa].arg, AuxOf(a.cmds, pa), replies, s, e);
    if act.Callback? { assert SectionOf(a.cmds, pa, act.section) == None ==> SectionOf(b.cmds, pb, act.section) == None; }
  }

  lemma {:induction false} IterateRefines(w: World, a: Code, pa: nat, ha: nat, b: Code, pb: nat, hb: nat,
                                          replies: seq<Value>, s: seq<Value>, e: Env, left: nat)
    requires Shaped(a) && Shaped(b) && pa < |a.cmds| && pa < ha && pb < |b.cmds| && pb < hb && left <= w.limit
    requires SameCallback(a, pa, b, pb)
    requires SectionsRefine(w, a, pa, ha, b, pb, hb)
    ensures Refines(Iterate(w, a, pa, ha, replies, s, e, left), Iterate(w, b, pb, hb, replies, s, e, left))
    decreases left
  {
    hide Run, Iterate, TurnOf, SectionsRefine, SameCallback, Shaped;
    TurnRefines(w, a, pa, ha, b, pb, hb, replies, s, e, left);
    IterateTurn(w, a, pa, ha, replies, s, e, left);
    IterateTurn(w, b, pb, hb, replies, s, e, left);
    TurnCalls(w, a, pa, ha, replies, s, e, left);
    TurnCalls(w, b, pb, hb, replies, s, e, left);
    var t, u := TurnOf(w, a, pa, ha, replies, s, e, left), TurnOf(w, b, pb, hb, replies, s, e, left);
    if t.Calls? {
      var r := Run(w, a, t.section.start, t.section.end, t.stack, e);
      assert Refines(r, Run(w, b, u.section.start, u.section.end, t.stack, e));
      if r.Done? && t.reply.NoReply? {
        IterateRefines(w, a, pa, ha, b, pb, hb, replies + [Invalid], r.stack, r.env, left - 1);
      } else if r.Done? && r.stack != [] {
        IterateRefines(w, a, pa, ha, b, pb, hb, replies + [r.stack[|r.stack| - 1]], r.stack[..|r.stack| - 1], r.env, left - 1);
      }
    }
  }

  // --- the machine, one unfolding at a time ---------------------------------------------

  lemma RunEnds(w: World, c: Code, pc: nat, hi: nat, s: seq<Value>, e: Env)
    requires Shaped(c)
    ensures pc >= hi ==> Run(w, c, pc, hi, s, e) == Done(s, e)
    ensures pc < hi && pc >= |c.cmds| ==> Run(w, c, pc, hi, s, e) == OffModel
  {}

  lemma RunDropped(w: World, c: Code, pc: nat, hi: nat, s: seq<Value>, e: Env)
    requires Shaped(c) && pc < |c.cmds| && !c.keep[pc] && pc < hi
    ensures Run(w, c, pc, hi, s, e) == Run(w, c, pc + 1, hi, s, e)
  {}

  lemma RunOff(w: World, c: Code, pc: nat, hi: nat, s: seq<Value>, e: Env)
    requires Shaped(c) && pc < |c.cmds| && c.keep[pc] && pc < hi && c.watch && !OnModel(w, c, pc, s)
    ensures Run(w, c, pc, hi, s, e) == OffModel
  {}

  function Continue(w: World, c: Code, pc: nat, hi: nat, r: StepResult): Outcome
    requires Shaped(c)
  {
    match r
    case Stop(err) => Failed(err)
    case Next(t, s, e) => if t <= pc then OffModel else Run(w, c, t, hi, s, e)
  }

  lemma RunStep(w: World, c: Code, pc: nat, hi: nat, s: seq<Value>, e: Env)
    requires Shaped(c) && pc < |c.cmds| && c.keep[pc] && pc < hi && (c.watch ==> OnModel(w, c, pc, s))
    requires !IsCallbackOp(c.cmds[pc].op)
    ensures Run(w, c, pc, hi, s, e) == Continue(w, c, pc, hi, Step(w, pc, c.cmds[pc], s, e))
  {}

  function Resume(w: World, c: Code, pc: nat, hi: nat, r: Outcome): Outcome
    requires Shaped(c) && pc < |c.cmds| && pc < ResumeOf(c.cmds, pc)
  {
    match r
    case Done(s, e) => Run(w, c, ResumeOf(c.cmds, pc), hi, s, e)
    case other => other
  }

  lemma RunCallback(w: World, c: Code, pc: nat, hi: nat, s: seq<Value>, e: Env)
    requires Shaped(c) && pc < |c.cmds| && c.keep[pc] && pc < hi && (c.watch ==> OnModel(w, c, pc, s))
    requires IsCallbackOp(c.cmds[pc].op)
    ensures ResumeOf(c.cmds, pc) <= pc ==> Run(w, c, pc, hi, s, e) == OffModel
    ensures ResumeOf(c.cmds, pc) > pc ==> Run(w, c, pc, hi, s, e) == Resume(w, c, pc, hi, Iterate(w, c, pc, hi, [], s, e, w.limit))
  {}

  /** Commands whose flag is cleared are stepped over. */
  lemma {:induction false} Skip(w: World, c: Code, from: nat, to: nat, hi: nat, s: seq<Value>, e: Env)
    requires Shaped(c) && from <= to <= |c.cmds|
    requires forall i :: from <= i < to ==> !c.keep[i]
    ensures Run(w, c, from, hi, s, e) == Run(w, c, to, hi, s, e)
    decreases |c.cmds| - from
  {
    if from < to && from < hi {
      Skip(w, c, from + 1, to, hi, s, e);
    }
  }

  // --- references -----------------------------------------------------------------

  /** The number of data slots behind a command. */
  function SlotsOf(op: Op): nat {
    match op
    case Iterator(_, n) => n
    case Pipeline => 3
    case _ => 0
  }

  /** No command index the command at `pc` can send control to lies in `avoid`. */
  ghost predicate RefsOutside(cmds: seq<Command>, pc: nat, avoid: iset<int>)
    requires pc < |cmds|
  {
    && (IsBranch(cmds[pc].op) ==> cmds[pc].arg !in avoid)
    && (cmds[pc].op.ScopeGuard? ==> LowHalf(cmds[pc].arg) !in avoid)
    && (IsCallbackOp(cmds[pc].op) ==>
          && ResumeOf(cmds, pc) !in avoid
          && forall k: nat :: SectionOf(cmds, pc, k).Some? ==>
                SectionOf(cmds, pc, k).value.start !in avoid && SectionOf(cmds, pc, k).value.end !in avoid)
  }

  /** The two programs hold the same command at `pc`, its data slots included. */
  ghost predicate SameAt(a: seq<Command>, b: seq<Command>, pc: nat)
    requires pc < |a| == |b|
  {
    a[pc] == b[pc] && forall i :: pc < i <= pc + SlotsOf(a[pc].op) && i < |a| ==> a[i] == b[i]
  }

  lemma {:induction false} SameStarts(a: seq<Command>, b: seq<Command>, pc: nat, n: nat, k: nat)
    requires |a| == |b| && k <= n
    requires forall i :: pc < i <= pc + n && i < |a| ==> a[i] == b[i]
    ensures SectionStart(a, pc, n, k) == SectionStart(b, pc, n, k)
  {
    if k > 0 { SameStarts(a, b, pc, n, k - 1); }
  }

  lemma SameSections(a: seq<Command>, b: seq<Command>, pc: nat)
    requires pc < |a| == |b| && SameAt(a, b, pc)
    ensures ResumeOf(a, pc) == ResumeOf(b, pc) && AuxOf(a, pc) == AuxOf(b, pc)
    ensures forall k: nat :: SectionOf(a, pc, k) == SectionOf(b, pc, k)
  {
    if a[pc].op.Iterator? {
      var n := a[pc].op.sections;
      forall k: nat | k <= n ensures SectionStart(a, pc, n, k) == SectionStart(b, pc, n, k) { SameStarts(a, b, pc, n, k); }
    }
  }

  /** From every later command outside `avoid` the two programs agree. */
  ghost predicate LaterRefines(w: World, a: Code, b: Code, pc: nat, hi: nat, avoid: iset<int>)
    requires Shaped(a) && Shaped(b)
  {
    forall t: nat, h: nat :: t > pc && h <= hi && t !in avoid && h !in avoid ==> RangeRefines(w, a, t, h, b, t, h)
  }

  /** Both programs hold the same surviving command at `pc` and agree on everything behind it. */
  lemma {:induction false} SameCommand(w: World, a: Code, b: Code, pc: nat, hi: nat, avoid: iset<int>, s: seq<Value>, e: Env)
    requires Shaped(a) && Shaped(b) && |a.cmds| == |b.cmds| && pc < |a.cmds| && pc < hi
    requires SameAt(a.cmds, b.cmds, pc) && a.keep[pc] && b.keep[pc]
    requires a.watch == b.watch && a.model[pc] == b.model[pc] && a.data[pc] == b.data[pc]
    requires (a.watch && a.data[pc]) || RefsOutside(a.cmds, pc, avoid)
    requires pc + 1 !in avoid && hi !in avoid
    requires LaterRefines(w, a, b, pc, hi, avoid)
    ensures Refines(Run(w, a, pc, hi, s, e), Run(w, b, pc, hi, s, e))
  {
    hide Run, Iterate, Step;
    SameSections(a.cmds, b.cmds, pc);
    if a.watch && !OnModel(w, a, pc, s) {
      RunOff(w, a, pc, hi, s, e);
    } else if IsCallbackOp(a.cmds[pc].op) {
      RunCallback(w, a, pc, hi, s, e);
      RunCallback(w, b, pc, hi, s, e);
      var resume := ResumeOf(a.cmds, pc);
      if resume > pc {
        assert SectionsRefine(w, a, pc, hi, b, pc, hi);
        IterateRefines(w, a, pc, hi, b, pc, hi, [], s, e, w.limit);
        assert RangeRefines(w, a, resume, hi, b, resume, hi);
      }
    } else {
      RunStep(w, a, pc, hi, s, e);
      RunStep(w, b, pc, hi, s, e);
      var r := Step(w, pc, a.cmds[pc], s, e);
      StepTargets(w, a.cmds, pc, s, e, avoid);
      if r.Next? && r.pc > pc { assert RangeRefines(w, a, r.pc, hi, b, r.pc, hi); }
    }
  }

  /** A command moves to the next one or to its target. */
  lemma StepTargets(w: World, cmds: seq<Command>, pc: nat, s: seq<Value>, e: Env, avoid: iset<int>)
    requires pc < |cmds| && !IsCallbackOp(cmds[pc].op) && RefsOutside(cmds, pc, avoid) && pc + 1 !in avoid
    ensures var r := Step(w, pc, cmds[pc], s, e); r.Next? ==> r.pc !in avoid
  {}
}
