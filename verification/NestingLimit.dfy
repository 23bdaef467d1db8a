/**
  The nesting limit over call trees. A call refused by the limit leaves its list frame, and
  every call around it then takes its lists back from the wrong places. Whether that can
  happen is decided by the scripts alone, before anything runs.
*/
module NestingLimit {
  import opened Machine
  import opened Frames
  import opened FrameSafety
  import opened FrameCalls

  // --- paths through a tree of scripts -----------------------------------------------------------

  /** Some path from item `pc`, at this depth, reaches the end with every call on it allowed. */
  predicate CanEnd(s: Script, pc: nat, depth: nat)
    decreases s, |s.body| - pc
  {
    pc >= |s.body| ||
    match s.body[pc]
    case Local(_) => CanEnd(s, pc + 1, depth)
    case Goto(t) => t > pc && CanEnd(s, t, depth)
    case Unless(t) => CanEnd(s, pc + 1, depth) || (t > pc && CanEnd(s, t, depth))
    case Execute(site) => depth < MAX_DEPTH && CanEnd(site.sub, 0, depth + 1) && CanEnd(s, pc + 1, depth)
  }

  /** Some path meets a call at the limit whose script has lists, and no refused call before. */
  predicate CanLeak(s: Script, pc: nat, depth: nat)
    decreases s, |s.body| - pc
  {
    pc < |s.body| &&
    match s.body[pc]
    case Local(_) => CanLeak(s, pc + 1, depth)
    case Goto(t) => t > pc && CanLeak(s, t, depth)
    case Unless(t) => CanLeak(s, pc + 1, depth) || (t > pc && CanLeak(s, t, depth))
    case Execute(site) =>
      if depth >= MAX_DEPTH then site.sub.lists > 0
      else CanLeak(site.sub, 0, depth + 1) || (CanEnd(site.sub, 0, depth + 1) && CanLeak(s, pc + 1, depth))
  }

  /** How many calls deep a script goes. */
  function Height(s: Script, pc: nat): nat
    decreases s, |s.body| - pc
  {
    if pc >= |s.body| then 0
    else
      var rest := Height(s, pc + 1);
      if s.body[pc].Execute? && 1 + Height(s.body[pc].site.sub, 0) > rest then 1 + Height(s.body[pc].site.sub, 0) else rest
  }

  lemma {:induction false} HeightFrom(s: Script, pc: nat, t: nat)
    requires pc <= t
    ensures Height(s, t) <= Height(s, pc)
    decreases t - pc
  {
    if pc < t { HeightFrom(s, pc + 1, t); }
  }

  /** A tree no higher than what is left below the limit cannot leak. */
  lemma {:induction false} LowCannotLeak(s: Script, pc: nat, depth: nat)
    requires depth + Height(s, pc) <= MAX_DEPTH
    ensures !CanLeak(s, pc, depth)
    decreases s, |s.body| - pc
  {
    if pc < |s.body| {
      HeightFrom(s, pc, pc + 1);
      LowCannotLeak(s, pc + 1, depth);
      match s.body[pc]
      case Goto(t) => if t > pc { HeightFrom(s, pc, t); LowCannotLeak(s, t, depth); }
      case Unless(t) => if t > pc { HeightFrom(s, pc, t); LowCannotLeak(s, t, depth); }
      case Execute(site) => LowCannotLeak(site.sub, 0, depth + 1);
      case Local(_) =>
    }
  }

  // --- runs stay on the paths ----------------------------------------------------------------------

  /** How a run ended is what some path ends in: the end, or a refused call that leaks or does not. */
  ghost predicate OnPath(s: Script, pc: nat, depth: nat, r: Ran) {
    match r
    case Ended(_) => CanEnd(s, pc, depth)
    case Faulted(f, _) => Leak(f) > 0 ==> CanLeak(s, pc, depth)
  }

  /** One call, from how the callee's run ends. */
  lemma {:induction false} CallOnPath(l: Limits, w: Natives, s: Script, pc: nat, c: Ctx)
    requires WellCompiled(s) && InFrame(l, s, pc, c) && pc < |s.body| && s.body[pc].Execute?
    ensures var sub := s.body[pc].site.sub;
      match CallSite(l, w, s, s.body[pc].site, c)
      case Ended(_) => c.depth < MAX_DEPTH && CanEnd(sub, 0, c.depth + 1)
      case Faulted(f, _) => Leak(f) > 0 ==> if c.depth >= MAX_DEPTH then sub.lists > 0 else CanLeak(sub, 0, c.depth + 1)
    decreases s, |s.body| - pc, 0
  {
    hide RunItems, CallSite, CanEnd, CanLeak, ListsBack, ListsGiven, WriteFrom, Kept, KeptBut, AtSite, Fits;
    var site, h := s.body[pc].site, s.heights[pc];
    SiteReached(l, s, pc, c);
    AtSiteRoom(l, s, site, h, c);
    SubCompiled(s, pc);
    CallIs(l, w, s, site, h, c);
    if c.depth < MAX_DEPTH {
      EntersOk(l, s, site, h, c);
      var e := Entered(s, site, c);
      RunOnPath(l, w, site.sub, 0, e);
      RunHolds(l, w, site.sub, 0, e);
      match RunItems(l, w, site.sub, 0, e)
      case Ended(d) => CallEnds(l, w, s, site, h, c, d);
      case Faulted(f, d) => CallFaults(l, w, s, site, h, c, f, d, Leak(f));
    }
  }

  lemma SubCompiled(s: Script, pc: nat)
    requires WellCompiled(s) && pc < |s.body| && s.body[pc].Execute?
    ensures WellCompiled(s.body[pc].site.sub) && Shape(s.body[pc].site.sub) && Shape(s)
  {}

  /** Whatever natives answer and conditions say. */
  lemma {:induction false} RunOnPath(l: Limits, w: Natives, s: Script, pc: nat, c: Ctx)
    requires WellCompiled(s) && InFrame(l, s, pc, c)
    ensures OnPath(s, pc, c.depth, RunItems(l, w, s, pc, c))
    decreases s, |s.body| - pc, 1
  {
    hide CallSite, LocalStep, Kept, KeptBut, Fits;
    if pc < |s.body| {
      assert ItemOk(s, pc);
      match s.body[pc]
      case Local(op) =>
        LocalKeeps(l, w, s, pc, c);
        var r := LocalStep(l, w, op, c);
        if r.Ended? {
          SameDepth(c, r.ctx);
          RunOnPath(l, w, s, pc + 1, r.ctx);
        }
      case Goto(t) => RunOnPath(l, w, s, t, c);
      case Unless(t) =>
        var d := c.(stack := c.stack[..|c.stack| - 1]);
        PopKeeps(l, s, c);
        RunOnPath(l, w, s, if w.holds(c.stack[|c.stack| - 1]) then pc + 1 else t, d);
      case Execute(site) =>
        CallHolds(l, w, s, pc, c);
        CallOnPath(l, w, s, pc, c);
        var r := CallSite(l, w, s, site, c);
        if r.Ended? {
          SameDepth(c, r.ctx);
          RunOnPath(l, w, s, pc + 1, r.ctx);
        }
    }
  }

  lemma SameDepth(c: Ctx, d: Ctx)
    requires Kept(c, d)
    ensures d.depth == c.depth
  {}

  /**
    If no script with lists can be met at the limit below a call, a call that fails gives its
    lists back as a failure in a native function would, whatever natives answer and wherever
    it fails: each bound list holds what the callee left in it, every other list is untouched,
    and none is left over. It is always so if the tree below is no higher than what is left
    of the limit.
  */
  lemma UnwoundInPlace(l: Limits, w: Natives, s: Script, pc: nat, c: Ctx)
    requires WellCompiled(s) && InFrame(l, s, pc, c) && pc < |s.body| && s.body[pc].Execute? && c.depth < MAX_DEPTH
    requires CallSite(l, w, s, s.body[pc].site, c).Faulted?
    requires !CanLeak(s.body[pc].site.sub, 0, c.depth + 1) || c.depth + 1 + Height(s.body[pc].site.sub, 0) <= MAX_DEPTH
    ensures var site, r := s.body[pc].site, CallSite(l, w, s, s.body[pc].site, c).ctx;
      site.sub.args <= |c.stack| && c.argBase + s.args + site.sub.args <= |c.args| && c.savedBase + s.saved + site.sub.saved <= |c.saved|
      && ListsExchanged(s, site, c, RunItems(l, w, site.sub, 0, Entered(s, site, c)).ctx.lists, r.lists, 0)
      && |r.lists| == |c.lists|
  {
    hide RunItems, CallSite, WellCompiled, InFrame, CanLeak, Height, ListsExchanged;
    var sub := s.body[pc].site.sub;
    if c.depth + 1 + Height(sub, 0) <= MAX_DEPTH { LowCannotLeak(sub, 0, c.depth + 1); }
    CallOnPath(l, w, s, pc, c);
    CallUnwinds(l, w, s, pc, c);
    UnwoundLists(l, w, s, pc, c);
  }

  // --- the condition is exact where nothing branches -------------------------------------------------

  /** No script of the tree branches. */
  predicate Straight(s: Script)
    decreases s
  {
    forall i: nat :: i < |s.body| ==> !s.body[i].Unless? && (s.body[i].Execute? ==> Straight(s.body[i].site.sub))
  }

  /** Natives that never fail. */
  const ANSWERS := Natives((_, _) => Some(Invalid), (_, items) => items, _ => true)

  /** A run under natives that never fail ends or is refused, as the only path says. */
  ghost predicate AsPath(s: Script, pc: nat, depth: nat, r: Ran) {
    match r
    case Ended(_) => CanEnd(s, pc, depth) && !CanLeak(s, pc, depth)
    case Faulted(f, _) => f.TooDeep? && !CanEnd(s, pc, depth) && (Leak(f) > 0 <==> CanLeak(s, pc, depth))
  }

  /** Where a call below the limit, or at it, is stopped. */
  predicate Stopped(sub: Script, depth: nat, f: Fault)
    requires f.TooDeep?
  {
    if depth >= MAX_DEPTH then f.refused == sub else !CanEnd(sub, 0, depth + 1) && (Leak(f) > 0 <==> CanLeak(sub, 0, depth + 1))
  }

  lemma {:induction false} StraightCall(l: Limits, s: Script, pc: nat, c: Ctx)
    requires WellCompiled(s) && InFrame(l, s, pc, c) && pc < |s.body| && s.body[pc].Execute? && Straight(s)
    ensures var sub := s.body[pc].site.sub;
      match CallSite(l, ANSWERS, s, s.body[pc].site, c)
      case Ended(_) => c.depth < MAX_DEPTH && CanEnd(sub, 0, c.depth + 1) && !CanLeak(sub, 0, c.depth + 1)
      case Faulted(f, _) =>
        f.TooDeep? && Stopped(sub, c.depth, f)
    decreases s, |s.body| - pc, 0
  {
    hide RunItems, CallSite, CanEnd, CanLeak, ListsBack, ListsGiven, WriteFrom, Kept, KeptBut, AtSite, Fits;
    var site, h := s.body[pc].site, s.heights[pc];
    SiteReached(l, s, pc, c);
    AtSiteRoom(l, s, site, h, c);
    SubCompiled(s, pc);
    CallIs(l, ANSWERS, s, site, h, c);
    if c.depth < MAX_DEPTH {
      EntersOk(l, s, site, h, c);
      var e := Entered(s, site, c);
      StraightRun(l, site.sub, 0, e);
      RunHolds(l, ANSWERS, site.sub, 0, e);
      match RunItems(l, ANSWERS, site.sub, 0, e)
      case Ended(d) => CallEnds(l, ANSWERS, s, site, h, c, d);
      case Faulted(f, d) => CallFaults(l, ANSWERS, s, site, h, c, f, d, Leak(f));
    }
  }

  lemma {:induction false} StraightRun(l: Limits, s: Script, pc: nat, c: Ctx)
    requires WellCompiled(s) && InFrame(l, s, pc, c) && Straight(s)
    ensures AsPath(s, pc, c.depth, RunItems(l, ANSWERS, s, pc, c))
    decreases s, |s.body| - pc, 1
  {
    hide CallSite, LocalStep, Kept, KeptBut, Fits;
    if pc < |s.body| {
      assert ItemOk(s, pc);
      match s.body[pc]
      case Local(op) =>
        LocalKeeps(l, ANSWERS, s, pc, c);
        NeverFails(l, s, pc, c);
        var d := LocalStep(l, ANSWERS, op, c).ctx;
        SameDepth(c, d);
        StraightRun(l, s, pc + 1, d);
      case Goto(t) => StraightRun(l, s, t, c);
      case Execute(site) =>
        CallHolds(l, ANSWERS, s, pc, c);
        StraightCall(l, s, pc, c);
        var r := CallSite(l, ANSWERS, s, site, c);
        if r.Ended? {
          SameDepth(c, r.ctx);
          StraightRun(l, s, pc + 1, r.ctx);
        }
    }
  }

  lemma NeverFails(l: Limits, s: Script, pc: nat, c: Ctx)
    requires Shape(s) && InFrame(l, s, pc, c) && pc < |s.body| && s.body[pc].Local?
    ensures LocalStep(l, ANSWERS, s.body[pc].op, c).Ended?
  {
    LocalKeeps(l, ANSWERS, s, pc, c);
    NativeAnswers(l, s.body[pc].op, c);
  }

  lemma NativeAnswers(l: Limits, op: LocalOp, c: Ctx)
    ensures var r := LocalStep(l, ANSWERS, op, c); r.Faulted? ==> !r.fault.NativeFault?
  {}

  /** The answers of the natives that make a call lose lists. */
  ghost predicate Loses(l: Limits, w: Natives, s: Script, site: Site, c: Ctx) {
    CallSite(l, w, s, site, c).Faulted? && |CallSite(l, w, s, site, c).ctx.lists| > |c.lists|
  }

  /**
    Where the tree below does not branch the condition is exact: some natives make the call
    come back with lists left over if and only if a script with lists is met at the limit.
  */
  lemma LosesExactly(l: Limits, s: Script, pc: nat, c: Ctx)
    requires WellCompiled(s) && InFrame(l, s, pc, c) && pc < |s.body| && s.body[pc].Execute? && c.depth < MAX_DEPTH && Straight(s)
    ensures (exists w :: Loses(l, w, s, s.body[pc].site, c)) <==> CanLeak(s.body[pc].site.sub, 0, c.depth + 1)
  {
    hide RunItems, CallSite, WellCompiled, InFrame, CanLeak, CanEnd, Straight;
    var site := s.body[pc].site;
    StraightCall(l, s, pc, c);
    CallHolds(l, ANSWERS, s, pc, c);
    assert CanLeak(site.sub, 0, c.depth + 1) ==> Loses(l, ANSWERS, s, site, c);
    forall w | Loses(l, w, s, site, c) ensures CanLeak(site.sub, 0, c.depth + 1) {
      CallOnPath(l, w, s, pc, c);
      CallHolds(l, w, s, pc, c);
    }
  }

  // --- one tree that loses a list ----------------------------------------------------------------------

  /** Scripts that call each other one below the other, the last with a list. */
  function Chain(n: nat): Script {
    if n == 0 then Script(0, 0, 1, false, [], [0], 0, 0, 1, 0)
    else Script(0, 0, 0, false, [Execute(Site(Chain(n - 1), [], []))], [0, 0], 0, 0, 1, 0)
  }

  lemma {:induction false} ChainCompiled(n: nat)
    ensures WellCompiled(Chain(n))
  {
    if n > 0 {
      ChainCompiled(n - 1);
      assert ItemOk(Chain(n), 0);
    }
  }

  /** Run at this depth, a chain ends if it fits, and else the call at the limit is refused. */
  lemma {:induction false} ChainRuns(l: Limits, w: Natives, n: nat, c: Ctx)
    requires WellCompiled(Chain(n)) && InFrame(l, Chain(n), 0, c) && c.depth <= MAX_DEPTH
    ensures var r := RunItems(l, w, Chain(n), 0, c);
      if c.depth + n <= MAX_DEPTH then r.Ended? else r.Faulted? && r.fault == TooDeep(Chain(c.depth + n - MAX_DEPTH - 1))
  {
    hide AtSite, InFrame, Entered, ListsGiven, CallSite, Kept, KeptBut, Fits, RunOps, AfterCall;
    var s := Chain(n);
    if n == 0 {
      assert s.body == [];
    } else {
      var site := s.body[0].site;
      assert s.body == [Execute(site)] && site.sub == Chain(n - 1);
      assert RunItems(l, w, s, 0, c) == CallSite(l, w, s, site, c) by { LastCall(l, w, s, c); }
      SubCompiled(s, 0);
      SiteReached(l, s, 0, c);
      CallIs(l, w, s, site, 0, c);
      if c.depth < MAX_DEPTH {
        AtSiteRoom(l, s, site, 0, c);
        EntersOk(l, s, site, 0, c);
        var e := Entered(s, site, c);
        EntersDeeper(s, site, c);
        ChainRuns(l, w, n - 1, e);
        RunHolds(l, w, site.sub, 0, e);
        match RunItems(l, w, site.sub, 0, e)
        case Ended(d) => CallEnds(l, w, s, site, 0, c, d);
        case Faulted(f, d) => CallFaults(l, w, s, site, 0, c, f, d, Leak(f));
      }
    }
  }

  lemma LastCall(l: Limits, w: Natives, s: Script, c: Ctx)
    requires |s.body| == 1 && s.body[0].Execute?
    ensures RunItems(l, w, s, 0, c) == CallSite(l, w, s, s.body[0].site, c)
  {
    hide CallSite;
    match CallSite(l, w, s, s.body[0].site, c)
    case Ended(d) => assert RunItems(l, w, s, 1, d) == Ended(d);
    case Faulted(_, _) =>
  }

  lemma EntersDeeper(s: Script, site: Site, c: Ctx)
    requires site.sub.args <= |c.stack| && c.argBase + s.args + site.sub.args <= |c.args| && c.savedBase + s.saved + site.sub.saved <= |c.saved|
    ensures Entered(s, site, c).depth == c.depth + 1
  {}

  /**
    A chain run at the top that is one call longer than the limit comes back with a list the
    script does not have, whatever natives answer; no other chain does.
  */
  lemma ChainKeepsList(l: Limits, w: Natives, n: nat, c: Ctx)
    requires Ready(l, Chain(n), c) && Checked(l, Chain(n), c) == None
    ensures var s, r := Chain(n), Process(l, w, Chain(n), c);
      && (r.Ended? <==> n <= MAX_DEPTH)
      && |r.ctx.lists| == s.lists + if n == MAX_DEPTH + 1 then 1 else 0
  {
    hide RunItems, WellCompiled;
    ChainCompiled(n);
    CompiledShape(Chain(n));
    CapacityCovers(l, w, Chain(n), c);
    ChainRuns(l, w, n, c);
  }
}
