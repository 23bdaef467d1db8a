/**
  One call, and from it every run: capacity, isolation, binding and unwinding.
*/
module FrameCalls {
  import opened Machine
  import opened Frames
  import opened FrameSafety

  // --- entering the callee ------------------------------------------------------------------------

  /** A call whose frame has room and whose caller is where the compiler said. */
  predicate AtSite(l: Limits, s: Script, site: Site, h: nat, c: Ctx) {
    && Fits(l, s, c) && SiteOk(s, h, site) && |c.stack| == c.frame + h && h <= s.maxStack
    && s.saved <= s.maxSaved && s.lists <= s.maxLists && s.args <= s.maxArgs
  }

  function Given(site: Site, c: Ctx): Ctx { c.(lists := ListsGiven(site, c.listBase, c.lists)) }

  /** The context the callee starts in. */
  function Entered(s: Script, site: Site, c: Ctx): Ctx
    requires site.sub.args <= |c.stack| && c.argBase + s.args + site.sub.args <= |c.args| && c.savedBase + s.saved + site.sub.saved <= |c.saved|
  {
    var g, base := Given(site, c), |c.stack| - site.sub.args;
    g.(args := Overlay(c.args, c.argBase + s.args, c.stack[base..]), stack := c.stack[..base],
       frame := base, argBase := c.argBase + s.args, savedBase := c.savedBase + s.saved, listBase := |c.lists|,
       saved := Overlay(c.saved, c.savedBase + s.saved, Blanks(site.sub.saved)), depth := c.depth + 1)
  }

  lemma GivenSize(site: Site, c: Ctx)
    ensures |Given(site, c).lists| == |c.lists| + site.sub.lists
  {}

  /** The callee's frame fits, all its own checks included. */
  lemma EntersOk(l: Limits, s: Script, site: Site, h: nat, c: Ctx)
    requires AtSite(l, s, site, h, c) && Shape(site.sub)
    ensures RunOps(l, s, Before(site), c) == Ended(Given(site, c))
    ensures EnterFrame(s, site.sub, Given(site, c)) == Ended(Entered(s, site, c))
    ensures InFrame(l, site.sub, 0, Entered(s, site, c)) && Checked(l, site.sub, Entered(s, site, c)) == None
  {
    hide ListsGiven, RunOps, Before;
    GivenSize(site, c);
    RunBefore(l, s, site, c);
  }

  lemma CallIs(l: Limits, w: Natives, s: Script, site: Site, h: nat, c: Ctx)
    requires AtSite(l, s, site, h, c) && Shape(site.sub)
    ensures CallSite(l, w, s, site, c) ==
      if c.depth >= MAX_DEPTH then Faulted(TooDeep(site.sub), Given(site, c))
      else AfterCall(l, s, site, Given(site, c), RunItems(l, w, site.sub, 0, Entered(s, site, c)))
  {
    hide RunOps, Before, EnterFrame, Checked, RunItems, AfterCall, ListsGiven, Entered;
    EntersOk(l, s, site, h, c);
    var g, e := Given(site, c), Entered(s, site, c);
    assert Inner(l, w, s, site, g) == Process(l, w, site.sub, e);
    assert Process(l, w, site.sub, e) == RunItems(l, w, site.sub, 0, e);
  }

  // --- lists -----------------------------------------------------------------------------------------

  lemma FreshLists(lists: seq<seq<Value>>, n: nat, j: nat)
    requires j < |lists| + n
    ensures (lists + Empties(n))[j] == if j < |lists| then lists[j] else []
  {}

  /** The callee finds the caller's contents in its bound lists, and the caller's places hold nothing meanwhile. */
  lemma GivenBound(s: Script, site: Site, c: Ctx, i: nat)
    requires BindingsOk(s, site) && |c.lists| == c.listBase + s.lists && i < |site.bindings|
    ensures var b, g := site.bindings[i], Given(site, c).lists;
      g[|c.lists| + b.subSlot] == c.lists[c.listBase + b.callerIndex] && g[c.listBase + b.callerIndex] == []
  {
    var all, b := c.lists + Empties(site.sub.lists), site.bindings[i];
    SwapsPair(s, all, site, c.listBase, 0, i);
    FreshLists(c.lists, site.sub.lists, |c.lists| + b.subSlot);
    FreshLists(c.lists, site.sub.lists, c.listBase + b.callerIndex);
  }

  /** A place of the vector no binding names. */
  ghost predicate Free(s: Script, site: Site, c: Ctx, j: nat) {
    forall i: nat :: i < |site.bindings| ==> |c.lists| + site.bindings[i].subSlot != j && c.listBase + site.bindings[i].callerIndex != j
  }

  lemma FreeUnbound(s: Script, site: Site, c: Ctx, j: nat)
    requires BindingsOk(s, site) && Free(s, site, c, j)
    ensures Unbound(site, |c.lists| + site.sub.lists, c.listBase, 0, j)
  {
    forall i: nat | i < |site.bindings|
      ensures SubAt(site, |c.lists| + site.sub.lists, i) != j && CallerAt(site, c.listBase, i) != j
    {
      assert |c.lists| + site.bindings[i].subSlot != j;
    }
  }

  /** Every other list of the caller is there unchanged, every other list of the callee is empty. */
  lemma GivenFree(s: Script, site: Site, c: Ctx, j: nat)
    requires BindingsOk(s, site) && |c.lists| == c.listBase + s.lists && j < |c.lists| + site.sub.lists && Free(s, site, c, j)
    ensures Given(site, c).lists[j] == if j < |c.lists| then c.lists[j] else []
  {
    FreeUnbound(s, site, c, j);
    SwapsRest(s, c.lists + Empties(site.sub.lists), site, c.listBase, 0, j);
    FreshLists(c.lists, site.sub.lists, j);
  }

  /** What the caller gets back: of a bound list what lies `leak` places above it, its own of any other. */
  lemma BackBound(s: Script, site: Site, base: nat, lists: seq<seq<Value>>, leak: nat, i: nat)
    requires BindingsOk(s, site) && |lists| == base + s.lists + site.sub.lists + leak && i < |site.bindings|
    ensures |ListsBack(site, base, lists)| == base + s.lists + leak
    ensures ListsBack(site, base, lists)[base + site.bindings[i].callerIndex] == lists[base + s.lists + leak + site.bindings[i].subSlot]
  {
    SwapsPair(s, lists, site, base, 0, i);
  }

  lemma BackFree(s: Script, site: Site, c: Ctx, lists: seq<seq<Value>>, leak: nat, j: nat)
    requires BindingsOk(s, site) && |c.lists| == c.listBase + s.lists && |lists| == |c.lists| + site.sub.lists + leak
    requires j < |c.lists| && Free(s, site, c, j)
    ensures ListsBack(site, c.listBase, lists)[j] == lists[j]
  {
    forall i: nat | i < |site.bindings| ensures SubAt(site, |lists|, i) != j && CallerAt(site, c.listBase, i) != j {
      assert c.listBase + site.bindings[i].callerIndex != j;
    }
    SwapsRest(s, lists, site, c.listBase, 0, j);
  }

  /**
    Lists as a call leaves them, when `lists` is what the callee left in the vector and
    `leak` lists of a refused call lie on top of its own: swaps count from the end, so each
    bound list takes what lies that much higher.
  */
  ghost predicate ListsExchanged(s: Script, site: Site, c: Ctx, lists: seq<seq<Value>>, back: seq<seq<Value>>, leak: nat) {
    && |lists| == |c.lists| + site.sub.lists + leak && |back| == |c.lists| + leak
    && (forall i: nat :: i < |site.bindings| ==>
          site.bindings[i].subSlot < site.sub.lists && c.listBase + site.bindings[i].callerIndex < |c.lists|
          && back[c.listBase + site.bindings[i].callerIndex] == lists[|c.lists| + leak + site.bindings[i].subSlot])
    && (forall j: nat :: j < |c.lists| && Free(s, site, c, j) ==> back[j] == c.lists[j])
  }

  lemma BackExchanged(s: Script, site: Site, c: Ctx, lists: seq<seq<Value>>, leak: nat)
    requires BindingsOk(s, site) && |c.lists| == c.listBase + s.lists && |lists| == |c.lists| + site.sub.lists + leak
    requires lists[..|c.lists|] == Given(site, c).lists[..|c.lists|]
    ensures ListsExchanged(s, site, c, lists, ListsBack(site, c.listBase, lists), leak)
    ensures ListsBack(site, c.listBase, lists)[..c.listBase] == c.lists[..c.listBase]
  {
    hide ListsBack, ListsGiven;
    var back := ListsBack(site, c.listBase, lists);
    assert |back| == |c.lists| + leak by { BackSize(site, c.listBase, lists); }
    forall i: nat | i < |site.bindings|
      ensures back[c.listBase + site.bindings[i].callerIndex] == lists[|c.lists| + leak + site.bindings[i].subSlot]
    {
      BackBound(s, site, c.listBase, lists, leak, i);
    }
    forall j: nat | j < |c.lists| && Free(s, site, c, j) ensures back[j] == c.lists[j] {
      BackFree(s, site, c, lists, leak, j);
      GivenFree(s, site, c, j);
      GivenSize(site, c);
      assert lists[j] == lists[..|c.lists|][j] && Given(site, c).lists[j] == Given(site, c).lists[..|c.lists|][j];
    }
    forall j: nat | j < c.listBase ensures back[j] == c.lists[j] { assert Free(s, site, c, j); }
  }

  lemma BackSize(site: Site, base: nat, lists: seq<seq<Value>>)
    requires site.sub.lists <= |lists|
    ensures |ListsBack(site, base, lists)| == |lists| - site.sub.lists
  {}

  // --- leaving the callee -----------------------------------------------------------------------------

  /** Argument and saved slots of the caller that no write-back names. */
  predicate Unwritten(site: Site, intoSaved: bool, slot: nat) {
    forall i: nat :: i < |site.writes| ==> site.writes[i].intoSaved != intoSaved || site.writes[i].callerIndex != slot
  }

  /** Write-backs reach only the caller's own slots, and of these only the named ones. */
  lemma {:induction false} WritesKeep(s: Script, site: Site, c: Ctx, k: nat)
    requires WritesOk(s, site) && k <= |site.writes|
    ensures var d := WriteFrom(s, c, site, k);
      && |d.args| == |c.args| && |d.saved| == |c.saved|
      && (forall j: nat :: j < |c.args| && (j < c.argBase || Unwritten(site, false, j - c.argBase)) ==> d.args[j] == c.args[j])
      && (forall j: nat :: j < |c.args| && c.argBase + s.args <= j ==> d.args[j] == c.args[j])
      && (forall j: nat :: j < |c.saved| && (j < c.savedBase || Unwritten(site, true, j - c.savedBase)) ==> d.saved[j] == c.saved[j])
    decreases |site.writes| - k
  {
    if k < |site.writes| { WritesKeep(s, site, WriteSlot(s, c, site.writes[k]), k + 1); }
  }

  /** The last write-back into a slot decides it: the callee's final argument. */
  lemma {:induction false} WriteLands(s: Script, site: Site, c: Ctx, k: nat, i: nat)
    requires WritesOk(s, site) && k <= i < |site.writes| && c.argBase + s.args + site.sub.args <= |c.args| && c.savedBase + s.saved <= |c.saved|
    requires forall j: nat :: i < j < |site.writes| ==>
      site.writes[j].intoSaved != site.writes[i].intoSaved || site.writes[j].callerIndex != site.writes[i].callerIndex
    ensures var d, x := WriteFrom(s, c, site, k), site.writes[i];
      && |d.args| == |c.args| && |d.saved| == |c.saved|
      && (if x.intoSaved then d.saved[c.savedBase + x.callerIndex] else d.args[c.argBase + x.callerIndex]) == c.args[c.argBase + s.args + x.subSlot]
    decreases |site.writes| - k
  {
    var next, x := WriteSlot(s, c, site.writes[k]), site.writes[i];
    WritesOnly(s, c, site, k);
    if k < i {
      WriteLands(s, site, next, k + 1, i);
    } else {
      WritesStay(s, site, next, k + 1, x);
    }
  }

  lemma {:induction false} WritesStay(s: Script, site: Site, c: Ctx, k: nat, x: Write)
    requires WritesOk(s, site) && k <= |site.writes|
    requires forall j: nat :: k <= j < |site.writes| ==> site.writes[j].intoSaved != x.intoSaved || site.writes[j].callerIndex != x.callerIndex
    requires if x.intoSaved then c.savedBase + x.callerIndex < |c.saved| else c.argBase + x.callerIndex < |c.args|
    ensures var d := WriteFrom(s, c, site, k);
      if x.intoSaved then |d.saved| == |c.saved| && d.saved[c.savedBase + x.callerIndex] == c.saved[c.savedBase + x.callerIndex]
      else |d.args| == |c.args| && d.args[c.argBase + x.callerIndex] == c.args[c.argBase + x.callerIndex]
    decreases |site.writes| - k
  {
    if k < |site.writes| { WritesStay(s, site, WriteSlot(s, c, site.writes[k]), k + 1, x); }
  }

  /** The caller's context behind the callee's run `d`, its result pushed. */
  function Back(site: Site, c: Ctx, d: Ctx): Ctx
    requires site.sub.args <= |c.stack|
  {
    var base := |c.stack| - site.sub.args;
    d.(stack := c.stack[..base] + (if site.sub.gives then [d.ret] else []), frame := c.frame, argBase := c.argBase,
       savedBase := c.savedBase, listBase := c.listBase, ret := c.ret, depth := c.depth)
  }

  /** Everything a call can end in, from how the callee's run ended. */
  lemma CallEnds(l: Limits, w: Natives, s: Script, site: Site, h: nat, c: Ctx, d: Ctx)
    requires AtSite(l, s, site, h, c) && Shape(site.sub) && c.depth < MAX_DEPTH
    requires RunItems(l, w, site.sub, 0, Entered(s, site, c)) == Ended(d) && Kept(Entered(s, site, c), d)
    ensures var e := WriteFrom(s, Back(site, c, d), site, 0);
      |e.lists| == |d.lists| && e.listBase == c.listBase && CallSite(l, w, s, site, c) == Ended(e.(lists := ListsBack(site, c.listBase, e.lists)))
  {
    hide RunItems, CallSite, RunOps, Behind, ListsGiven, ListsBack, WriteFrom, Unwind;
    CallIs(l, w, s, site, h, c);
    GivenSize(site, c);
    var base, g := |c.stack| - site.sub.args, Given(site, c);
    assert d.stack[..base] == c.stack[..base];
    var cut := CutTo(BackTo(g, d), base);
    assert cut == d.(stack := c.stack[..base], frame := c.frame, argBase := c.argBase, savedBase := c.savedBase, listBase := c.listBase,
                     ret := c.ret, depth := c.depth);
    if !site.sub.gives { assert c.stack[..base] + [] == c.stack[..base]; }
    RunBehind(l, s, site, Back(site, c, d));
    WritesOnly(s, Back(site, c, d), site, 0);
  }

  lemma CallFaults(l: Limits, w: Natives, s: Script, site: Site, h: nat, c: Ctx, f: Fault, d: Ctx, leak: nat)
    requires AtSite(l, s, site, h, c) && Shape(site.sub) && c.depth < MAX_DEPTH
    requires RunItems(l, w, site.sub, 0, Entered(s, site, c)) == Faulted(f, d) && KeptBut(Entered(s, site, c), d, leak)
    ensures var base := |c.stack| - site.sub.args;
      CallSite(l, w, s, site, c) == Faulted(f, d.(stack := c.stack[..base], frame := c.frame, argBase := c.argBase, savedBase := c.savedBase,
        listBase := c.listBase, ret := c.ret, depth := c.depth, lists := ListsBack(site, c.listBase, d.lists)))
  {
    hide RunItems, CallSite, RunOps, Behind, ListsGiven, ListsBack, WriteFrom, Unwind;
    CallIs(l, w, s, site, h, c);
    GivenSize(site, c);
    var base, g := |c.stack| - site.sub.args, Given(site, c);
    assert d.stack[..base] == c.stack[..base];
    UnwindBehind(s, site, CutTo(BackTo(g, d), base));
  }

  // --- isolation and capacity, over whole call trees ----------------------------------------------------

  /** A finished call keeps the caller's frame and everything below it. */
  lemma EndedKeeps(s: Script, site: Site, h: nat, l: Limits, c: Ctx, d: Ctx)
    requires AtSite(l, s, site, h, c) && Shape(site.sub) && Kept(Entered(s, site, c), d)
    ensures var e := WriteFrom(s, Back(site, c, d), site, 0);
      |e.lists| == |d.lists| && Kept(c, e.(lists := ListsBack(site, c.listBase, e.lists))) && |e.stack| == c.frame + h - site.sub.args + Result(site)
  {
    hide ListsGiven, ListsBack, WriteFrom;
    GivenSize(site, c);
    var b := Back(site, c, d);
    WritesOnly(s, b, site, 0);
    WritesKeep(s, site, b, 0);
    BackSize(site, c.listBase, d.lists);
    BackExchanged(s, site, c, d.lists, 0);
    EnteredBelow(s, site, c, d, 0);
    var e := WriteFrom(s, b, site, 0);
    assert e.args[..c.argBase] == c.args[..c.argBase];
    assert e.saved[..c.savedBase] == c.saved[..c.savedBase];
    assert e.stack[..c.frame] == c.stack[..c.frame];
  }

  /** What the callee kept is what the caller had: its stack below the arguments, its own argument and saved slots. */
  lemma EnteredBelow(s: Script, site: Site, c: Ctx, d: Ctx, leak: nat)
    requires site.sub.args <= |c.stack| && c.argBase + s.args + site.sub.args <= |c.args| && c.savedBase + s.saved + site.sub.saved <= |c.saved|
    requires KeptBut(Entered(s, site, c), d, leak)
    ensures forall j: nat :: j < c.argBase + s.args ==> d.args[j] == c.args[j]
    ensures forall j: nat :: j < c.savedBase + s.saved ==> d.saved[j] == c.saved[j]
    ensures |d.args| == |c.args| && |d.saved| == |c.saved|
    ensures |d.lists| == |c.lists| + site.sub.lists + leak && d.lists[..|c.lists|] == Given(site, c).lists[..|c.lists|]
  {
    hide ListsGiven;
    var e := Entered(s, site, c);
    GivenSize(site, c);
    forall j: nat | j < c.argBase + s.args ensures d.args[j] == c.args[j] { assert d.args[..e.argBase][j] == e.args[..e.argBase][j]; }
    forall j: nat | j < c.savedBase + s.saved ensures d.saved[j] == c.saved[j] { assert d.saved[..e.savedBase][j] == e.saved[..e.savedBase][j]; }
  }

  lemma FaultedKeeps(s: Script, site: Site, h: nat, l: Limits, c: Ctx, d: Ctx, leak: nat)
    requires AtSite(l, s, site, h, c) && Shape(site.sub) && KeptBut(Entered(s, site, c), d, leak)
    ensures |d.lists| >= site.sub.lists
    ensures KeptBut(c, d.(stack := c.stack[..|c.stack| - site.sub.args], frame := c.frame, argBase := c.argBase, savedBase := c.savedBase,
      listBase := c.listBase, ret := c.ret, depth := c.depth, lists := ListsBack(site, c.listBase, d.lists)), leak)
  {
    hide ListsGiven, ListsBack;
    GivenSize(site, c);
    EnteredBelow(s, site, c, d, leak);
    BackSize(site, c.listBase, d.lists);
    BackExchanged(s, site, c, d.lists, leak);
    assert d.args[..c.argBase] == c.args[..c.argBase];
    assert d.saved[..c.savedBase] == c.saved[..c.savedBase];
    assert c.stack[..|c.stack| - site.sub.args][..c.frame] == c.stack[..c.frame];
  }

  lemma SiteReached(l: Limits, s: Script, pc: nat, c: Ctx)
    requires Shape(s) && InFrame(l, s, pc, c) && pc < |s.body| && s.body[pc].Execute?
    ensures var site := s.body[pc].site;
      AtSite(l, s, site, s.heights[pc], c) && s.heights[pc + 1] == s.heights[pc] - site.sub.args + Result(site)
  {
    assert ItemOk(s, pc);
    assert s.heights[pc] <= s.maxStack;
  }

  lemma {:induction false} CallHolds(l: Limits, w: Natives, s: Script, pc: nat, c: Ctx)
    requires WellCompiled(s) && InFrame(l, s, pc, c) && pc < |s.body| && s.body[pc].Execute?
    ensures match CallSite(l, w, s, s.body[pc].site, c)
      case Ended(d) => Kept(c, d) && InFrame(l, s, pc + 1, d)
      case Faulted(f, d) => (f.NativeFault? || f.TooDeep?) && KeptBut(c, d, Leak(f))
    decreases s, |s.body| - pc, 0
  {
    hide RunItems, CallSite, ListsBack, WriteFrom, Kept, AtSite, BindingsOk, WritesOk;
    var site, h := s.body[pc].site, s.heights[pc];
    SiteReached(l, s, pc, c);
    AtSiteRoom(l, s, site, h, c);
    assert WellCompiled(site.sub);
    CallIs(l, w, s, site, h, c);
    if c.depth < MAX_DEPTH {
      EntersOk(l, s, site, h, c);
      var e := Entered(s, site, c);
      RunHolds(l, w, site.sub, 0, e);
      match RunItems(l, w, site.sub, 0, e)
      case Ended(d) =>
        CallEnds(l, w, s, site, h, c, d);
        EndedKeeps(s, site, h, l, c, d);
        KeptFits(l, s, c, CallSite(l, w, s, site, c).ctx);
      case Faulted(f, d) =>
        CallFaults(l, w, s, site, h, c, f, d, Leak(f));
        FaultedKeeps(s, site, h, l, c, d, Leak(f));
    } else {
      GivenKeeps(s, site, h, l, c);
    }
  }

  /** A refused call has its list frame entered and its bound lists swapped, nothing else. */
  lemma GivenKeeps(s: Script, site: Site, h: nat, l: Limits, c: Ctx)
    requires AtSite(l, s, site, h, c) && Shape(site.sub)
    ensures KeptBut(c, Given(site, c), site.sub.lists)
  {
    hide ListsGiven;
    GivenSize(site, c);
    forall j: nat | j < c.listBase ensures Given(site, c).lists[j] == c.lists[j] {
      assert Free(s, site, c, j);
      GivenFree(s, site, c, j);
    }
    assert Given(site, c).lists[..c.listBase] == c.lists[..c.listBase];
  }

  lemma AtSiteRoom(l: Limits, s: Script, site: Site, h: nat, c: Ctx)
    requires AtSite(l, s, site, h, c) && Shape(site.sub)
    ensures site.sub.args <= |c.stack| && c.argBase + s.args + site.sub.args <= |c.args| && c.savedBase + s.saved + site.sub.saved <= |c.saved|
  {}

  lemma KeptFits(l: Limits, s: Script, c: Ctx, d: Ctx)
    requires Fits(l, s, c) && Kept(c, d)
    ensures Fits(l, s, d) && d.frame == c.frame
  {}

  /**
    A run of a compiled script in a frame with room never meets a capacity fault, a missing
    operand or a moved vector, however deep its calls: it ends, or a native function fails,
    or the nesting limit is hit. Nothing below the frame changes, and bases, sizes and
    depth are as before, at the end and after a failure at any depth; only the list frame
    of a call refused by the nesting limit is left on top of the vector.
  */
  lemma {:induction false} RunHolds(l: Limits, w: Natives, s: Script, pc: nat, c: Ctx)
    requires WellCompiled(s) && InFrame(l, s, pc, c)
    ensures Holds(s, c, RunItems(l, w, s, pc, c))
    decreases s, |s.body| - pc, 1
  {
    hide CallSite, LocalStep, Kept, KeptBut, Fits;
    if pc == |s.body| {
      KeptSelf(l, s, c);
    } else {
      assert ItemOk(s, pc);
      match s.body[pc]
      case Local(op) =>
        LocalKeeps(l, w, s, pc, c);
        var r := LocalStep(l, w, op, c);
        if r.Ended? {
          RunHolds(l, w, s, pc + 1, r.ctx);
          HoldsOn(s, c, r.ctx, RunItems(l, w, s, pc + 1, r.ctx));
        }
      case Goto(t) => RunHolds(l, w, s, t, c);
      case Unless(t) =>
        var d := c.(stack := c.stack[..|c.stack| - 1]);
        PopKeeps(l, s, c);
        var next := if w.holds(c.stack[|c.stack| - 1]) then pc + 1 else t;
        RunHolds(l, w, s, next, d);
        HoldsOn(s, c, d, RunItems(l, w, s, next, d));
      case Execute(site) =>
        CallHolds(l, w, s, pc, c);
        var r := CallSite(l, w, s, site, c);
        if r.Ended? {
          RunHolds(l, w, s, pc + 1, r.ctx);
          HoldsOn(s, c, r.ctx, RunItems(l, w, s, pc + 1, r.ctx));
        }
    }
  }

  lemma KeptSelf(l: Limits, s: Script, c: Ctx)
    requires Fits(l, s, c) && c.frame <= |c.stack| && s.saved <= s.maxSaved && s.args <= s.maxArgs
    ensures Kept(c, c)
  {}

  lemma PopKeeps(l: Limits, s: Script, c: Ctx)
    requires Fits(l, s, c) && c.frame < |c.stack|
    ensures var d := c.(stack := c.stack[..|c.stack| - 1]); Kept(c, d) && Fits(l, s, d)
  {}

  lemma HoldsOn(s: Script, c: Ctx, d: Ctx, r: Ran)
    requires Shape(s) && Kept(c, d) && Holds(s, d, r)
    ensures Holds(s, c, r)
  {
    hide KeptBut;
    KeptTrans(c, d, r.ctx, if r.Ended? then 0 else Leak(r.fault));
  }

  // --- the theorems -------------------------------------------------------------------------------------

  /** A context fresh for a top-level run of `s`, its lists created for it. */
  predicate Ready(l: Limits, s: Script, c: Ctx) {
    && c.frame == c.argBase == c.savedBase == c.listBase == c.depth == 0
    && c.stack == [] && |c.lists| == s.lists && s.maxLists <= l.lists && s.maxArgs <= |c.args|
  }

  /**
    The checks of the top-level `process` are enough: past them, no capacity check of any
    nested frame fails, no push overflows, and the list vector stays within what was
    reserved. The reserved sizes are the script's own reported peaks.
  */
  lemma CapacityCovers(l: Limits, w: Natives, s: Script, c: Ctx)
    requires WellCompiled(s) && Ready(l, s, c) && Checked(l, s, c) == None
    ensures var r := Process(l, w, s, c); r.Faulted? ==> r.fault.NativeFault? || r.fault.TooDeep?
    ensures var r := Process(l, w, s, c);
      r.ctx.frame == r.ctx.argBase == r.ctx.savedBase == r.ctx.listBase == r.ctx.depth == 0
      && |r.ctx.lists| == s.lists + if r.Ended? then 0 else Leak(r.fault)
  {
    hide RunItems, WellCompiled;
    assert Shape(s) by { CompiledShape(s); }
    RunHolds(l, w, s, 0, c);
  }

  lemma CompiledShape(s: Script)
    requires WellCompiled(s)
    ensures Shape(s)
  {}

  /** The caller's slots of one kind after a call: written back where named, untouched elsewhere. */
  ghost predicate SlotsWritten(site: Site, intoSaved: bool, base: nat, size: nat, before: seq<Value>, after: seq<Value>, subArgs: seq<Value>) {
    && |after| == |before| && base + size <= |before| && |subArgs| >= site.sub.args
    && (forall j: nat :: j < size && Unwritten(site, intoSaved, j) ==> after[base + j] == before[base + j])
    && (forall i: nat :: i < |site.writes| && LastWrite(site, i) && site.writes[i].intoSaved == intoSaved ==>
          site.writes[i].callerIndex < size && site.writes[i].subSlot < |subArgs|
          && after[base + site.writes[i].callerIndex] == subArgs[site.writes[i].subSlot])
  }

  /** No later write-back goes into the same slot. */
  predicate LastWrite(site: Site, i: nat)
    requires i < |site.writes|
  {
    forall j: nat :: i < j < |site.writes| ==>
      site.writes[j].intoSaved != site.writes[i].intoSaved || site.writes[j].callerIndex != site.writes[i].callerIndex
  }

  /**
    A call that returns: the arguments are replaced by the result, each in/out list holds
    what the callee left in it, each in/out value what the callee's argument ended as, and
    every other slot, list, base, the depth and the caller's return value are untouched.
  */
  lemma CallReturns(l: Limits, w: Natives, s: Script, pc: nat, c: Ctx)
    requires WellCompiled(s) && InFrame(l, s, pc, c) && pc < |s.body| && s.body[pc].Execute? && c.depth < MAX_DEPTH
    requires CallSite(l, w, s, s.body[pc].site, c).Ended?
    ensures var site, r := s.body[pc].site, CallSite(l, w, s, s.body[pc].site, c).ctx;
      AtSite(l, s, site, s.heights[pc], c) && site.sub.args <= |c.stack|
      && c.argBase + s.args + site.sub.args <= |c.args| && c.savedBase + s.saved + site.sub.saved <= |c.saved|
      && var inner := RunItems(l, w, site.sub, 0, Entered(s, site, c));
         && inner.Ended?
         && r.stack == c.stack[..|c.stack| - site.sub.args] + (if site.sub.gives then [inner.ctx.ret] else [])
         && r.frame == c.frame && r.argBase == c.argBase && r.savedBase == c.savedBase && r.listBase == c.listBase
         && r.depth == c.depth && r.ret == c.ret
         && ListsExchanged(s, site, c, inner.ctx.lists, r.lists, 0)
         && |inner.ctx.args| == |c.args|
         && SlotsWritten(site, false, c.argBase, s.args, c.args, r.args, inner.ctx.args[c.argBase + s.args..])
         && SlotsWritten(site, true, c.savedBase, s.saved, c.saved, r.saved, inner.ctx.args[c.argBase + s.args..])
  {
    hide RunItems, CallSite, ListsBack, ListsGiven, WriteFrom, WellCompiled;
    CalleeCompiled(s, pc);
    var site, h := s.body[pc].site, s.heights[pc];
    SiteReached(l, s, pc, c);
    AtSiteRoom(l, s, site, h, c);
    EntersOk(l, s, site, h, c);
    var e := Entered(s, site, c);
    RunHolds(l, w, site.sub, 0, e);
    CallIs(l, w, s, site, h, c);
    var inner := RunItems(l, w, site.sub, 0, e);
    FaultPasses(l, s, site, Given(site, c), inner);
    var d := inner.ctx;
    CallEnds(l, w, s, site, h, c, d);
    EnteredBelow(s, site, c, d, 0);
    var b := Back(site, c, d);
    WritesOnly(s, b, site, 0);
    BackExchanged(s, site, c, d.lists, 0);
    WrittenBack(s, site, c, d);
  }

  lemma FaultPasses(l: Limits, s: Script, site: Site, c: Ctx, inner: Ran)
    ensures inner.Faulted? ==> AfterCall(l, s, site, c, inner).Faulted?
  {}

  lemma CalleeCompiled(s: Script, pc: nat)
    requires WellCompiled(s) && pc < |s.body| && s.body[pc].Execute?
    ensures WellCompiled(s.body[pc].site.sub) && Shape(s.body[pc].site.sub) && Shape(s)
  {}

  lemma WrittenBack(s: Script, site: Site, c: Ctx, d: Ctx)
    requires WritesOk(s, site) && site.sub.args <= |c.stack| && |d.args| == |c.args| && |d.saved| == |c.saved|
    requires c.argBase + s.args + site.sub.args <= |c.args| && c.savedBase + s.saved <= |c.saved|
    requires forall j: nat :: j < c.argBase + s.args ==> d.args[j] == c.args[j]
    requires forall j: nat :: j < c.savedBase + s.saved ==> d.saved[j] == c.saved[j]
    ensures var e := WriteFrom(s, Back(site, c, d), site, 0);
      && SlotsWritten(site, false, c.argBase, s.args, c.args, e.args, d.args[c.argBase + s.args..])
      && SlotsWritten(site, true, c.savedBase, s.saved, c.saved, e.saved, d.args[c.argBase + s.args..])
  {
    hide WriteFrom, SlotsWritten;
    WrittenInto(s, site, c, d, false);
    WrittenInto(s, site, c, d, true);
  }

  lemma WrittenInto(s: Script, site: Site, c: Ctx, d: Ctx, intoSaved: bool)
    requires WritesOk(s, site) && site.sub.args <= |c.stack| && |d.args| == |c.args| && |d.saved| == |c.saved|
    requires c.argBase + s.args + site.sub.args <= |c.args| && c.savedBase + s.saved <= |c.saved|
    requires forall j: nat :: j < c.argBase + s.args ==> d.args[j] == c.args[j]
    requires forall j: nat :: j < c.savedBase + s.saved ==> d.saved[j] == c.saved[j]
    ensures var e := WriteFrom(s, Back(site, c, d), site, 0);
      if intoSaved then SlotsWritten(site, true, c.savedBase, s.saved, c.saved, e.saved, d.args[c.argBase + s.args..])
      else SlotsWritten(site, false, c.argBase, s.args, c.args, e.args, d.args[c.argBase + s.args..])
  {
    hide WriteFrom, Unwritten, LastWrite, WritesOk;
    WritesInside(s, site);
    var b := Back(site, c, d);
    var e := WriteFrom(s, b, site, 0);
    WritesKeep(s, site, b, 0);
    var base, size := if intoSaved then c.savedBase else c.argBase, if intoSaved then s.saved else s.args;
    var before, after := if intoSaved then c.saved else c.args, if intoSaved then e.saved else e.args;
    forall j: nat | j < size && Unwritten(site, intoSaved, j) ensures after[base + j] == before[base + j] {
      assert base + j - base == j;
      assert if intoSaved then e.saved[base + j] == b.saved[base + j] else e.args[base + j] == b.args[base + j];
    }
    forall i: nat | i < |site.writes| && LastWrite(site, i) && site.writes[i].intoSaved == intoSaved
      ensures after[base + site.writes[i].callerIndex] == d.args[c.argBase + s.args..][site.writes[i].subSlot]
    {
      Landed(s, site, b, i);
    }
  }

  lemma WritesInside(s: Script, site: Site)
    requires WritesOk(s, site)
    ensures forall i: nat :: i < |site.writes| ==>
      site.writes[i].subSlot < site.sub.args && site.writes[i].callerIndex < (if site.writes[i].intoSaved then s.saved else s.args)
  {}

  lemma Landed(s: Script, site: Site, b: Ctx, i: nat)
    requires WritesOk(s, site) && i < |site.writes| && LastWrite(site, i) && b.argBase + s.args + site.sub.args <= |b.args| && b.savedBase + s.saved <= |b.saved|
    ensures var d, x := WriteFrom(s, b, site, 0), site.writes[i];
      && |d.args| == |b.args| && |d.saved| == |b.saved|
      && (if x.intoSaved then d.saved[b.savedBase + x.callerIndex] else d.args[b.argBase + x.callerIndex]) == b.args[b.argBase + s.args..][x.subSlot]
  {
    WriteLands(s, site, b, 0, i);
  }

  /**
    A call that fails inside its guarded part, at any depth below it, in a native function or
    because a call was refused by the nesting limit: the arguments are gone, bases, depth and
    return value are restored, no value was written back, and the callee's list frame is
    dropped from the end of the vector. Bound lists are back with the changes made so far; if
    the refused call had lists, each comes back as what lies that many places above it.
  */
  lemma CallUnwinds(l: Limits, w: Natives, s: Script, pc: nat, c: Ctx)
    requires WellCompiled(s) && InFrame(l, s, pc, c) && pc < |s.body| && s.body[pc].Execute? && c.depth < MAX_DEPTH
    requires CallSite(l, w, s, s.body[pc].site, c).Faulted?
    ensures var site, f, r := s.body[pc].site, CallSite(l, w, s, s.body[pc].site, c).fault, CallSite(l, w, s, s.body[pc].site, c).ctx;
      AtSite(l, s, site, s.heights[pc], c) && site.sub.args <= |c.stack|
      && c.argBase + s.args + site.sub.args <= |c.args| && c.savedBase + s.saved + site.sub.saved <= |c.saved|
      && var inner := RunItems(l, w, site.sub, 0, Entered(s, site, c));
         && inner.Faulted? && inner.fault == f
         && r.stack == c.stack[..|c.stack| - site.sub.args]
         && r.frame == c.frame && r.argBase == c.argBase && r.savedBase == c.savedBase && r.listBase == c.listBase
         && r.depth == c.depth && r.ret == c.ret
         && ListsExchanged(s, site, c, inner.ctx.lists, r.lists, Leak(f))
         && |r.args| == |c.args| && |r.saved| == |c.saved|
         && (forall j: nat :: j < c.argBase + s.args ==> r.args[j] == c.args[j])
         && (forall j: nat :: j < c.savedBase + s.saved ==> r.saved[j] == c.saved[j])
  {
    hide RunItems, CallSite, ListsBack, ListsGiven, WriteFrom, WellCompiled, RunOps, Unwind;
    CalleeCompiled(s, pc);
    var site, h := s.body[pc].site, s.heights[pc];
    SiteReached(l, s, pc, c);
    AtSiteRoom(l, s, site, h, c);
    EntersOk(l, s, site, h, c);
    var e := Entered(s, site, c);
    RunHolds(l, w, site.sub, 0, e);
    CallIs(l, w, s, site, h, c);
    var inner := RunItems(l, w, site.sub, 0, e);
    if inner.Ended? { CallEnds(l, w, s, site, h, c, inner.ctx); }
    else {
      var leak := Leak(inner.fault);
      CallFaults(l, w, s, site, h, c, inner.fault, inner.ctx, leak);
      EnteredBelow(s, site, c, inner.ctx, leak);
      BackExchanged(s, site, c, inner.ctx.lists, leak);
    }
  }

  /**
    After such a failure the lists are as a failure in a native function would have left them
    exactly when no call was refused or the refused one has no lists; a single bound list
    holds what the callee left in it exactly when the place that much higher holds the same.
  */
  lemma UnwoundLists(l: Limits, w: Natives, s: Script, pc: nat, c: Ctx)
    requires WellCompiled(s) && InFrame(l, s, pc, c) && pc < |s.body| && s.body[pc].Execute? && c.depth < MAX_DEPTH
    requires CallSite(l, w, s, s.body[pc].site, c).Faulted?
    ensures var site, f, r := s.body[pc].site, CallSite(l, w, s, s.body[pc].site, c).fault, CallSite(l, w, s, s.body[pc].site, c).ctx;
      site.sub.args <= |c.stack| && c.argBase + s.args + site.sub.args <= |c.args| && c.savedBase + s.saved + site.sub.saved <= |c.saved|
      && var left := RunItems(l, w, site.sub, 0, Entered(s, site, c)).ctx.lists;
         && (|r.lists| == |c.lists| <==> Leak(f) == 0)
         && (|left| == |c.lists| + site.sub.lists && ListsExchanged(s, site, c, left, r.lists, 0) <==> Leak(f) == 0)
         && forall i: nat :: i < |site.bindings| ==>
              var b, n := site.bindings[i], |c.lists|;
              c.listBase + b.callerIndex < |r.lists| && n + Leak(f) + b.subSlot < |left|
              && (r.lists[c.listBase + b.callerIndex] == left[n + b.subSlot] <==> left[n + Leak(f) + b.subSlot] == left[n + b.subSlot])
  {
    hide RunItems, CallSite, WellCompiled, InFrame;
    CallUnwinds(l, w, s, pc, c);
  }

  /** The callee starts on the caller's contents of the lists bound to it, its other lists empty, its saved values blank. */
  lemma CalleeStarts(l: Limits, s: Script, site: Site, h: nat, c: Ctx)
    requires AtSite(l, s, site, h, c) && Shape(site.sub)
    ensures site.sub.args <= |c.stack| && c.argBase + s.args + site.sub.args <= |c.args| && c.savedBase + s.saved + site.sub.saved <= |c.saved|
    ensures var e := Entered(s, site, c);
      var lists, args, saved := e.lists[e.listBase..], e.args[e.argBase..], e.saved[e.savedBase..];
      && |lists| == site.sub.lists && |args| >= site.sub.args && |saved| >= site.sub.saved
      && (forall i: nat :: i < |site.bindings| ==>
            site.bindings[i].subSlot < |lists| && c.listBase + site.bindings[i].callerIndex < |c.lists|
            && lists[site.bindings[i].subSlot] == c.lists[c.listBase + site.bindings[i].callerIndex])
      && (forall j: nat :: j < site.sub.lists && Free(s, site, c, |c.lists| + j) ==> lists[j] == [])
      && args[..site.sub.args] == c.stack[|c.stack| - site.sub.args..]
      && saved[..site.sub.saved] == Blanks(site.sub.saved)
  {
    hide ListsGiven;
    AtSiteRoom(l, s, site, h, c);
    GivenSize(site, c);
    var g, n := Given(site, c).lists, |c.lists|;
    forall i: nat | i < |site.bindings| ensures g[n..][site.bindings[i].subSlot] == c.lists[c.listBase + site.bindings[i].callerIndex] {
      GivenBound(s, site, c, i);
    }
    forall j: nat | j < site.sub.lists && Free(s, site, c, n + j) ensures g[n..][j] == [] { GivenFree(s, site, c, n + j); }
  }

  /**
    The nesting limit is checked before the guarded part: a call refused there leaves the
    list frame it had already entered. The context is as before exactly when the callee
    uses no lists.
  */
  lemma RefusedCallLeaks(l: Limits, w: Natives, s: Script, site: Site, h: nat, c: Ctx)
    requires AtSite(l, s, site, h, c) && Shape(site.sub) && c.depth >= MAX_DEPTH
    ensures CallSite(l, w, s, site, c).Faulted? && CallSite(l, w, s, site, c).fault == TooDeep(site.sub)
    ensures CallSite(l, w, s, site, c).ctx == c <==> site.sub.lists == 0
  {
    hide CallSite, ListsGiven;
    CallIs(l, w, s, site, h, c);
    GivenSize(site, c);
    if site.sub.lists == 0 { NothingGiven(s, site, c); }
  }

  lemma NothingGiven(s: Script, site: Site, c: Ctx)
    requires BindingsOk(s, site) && site.sub.lists == 0
    ensures Given(site, c) == c
  {
    assert |site.bindings| > 0 ==> site.bindings[0].subSlot < 0;
    assert c.lists + Empties(0) == c.lists;
  }
}
