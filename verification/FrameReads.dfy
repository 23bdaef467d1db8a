/**
  What a frame reads. A script sees its own arguments, saved values, lists and the stack
  above its frame, and nothing else: neither what lies below, its callers' values, nor
  what an earlier call left above. What it stores it finds again.
*/
module FrameReads {
  import opened Machine
  import opened Frames
  import opened FrameSafety
  import opened FrameCalls

  // --- contexts a script cannot tell apart ----------------------------------------------------------

  /** The same length, and the same elements from `low` up to `high`. */
  ghost predicate SameIn<T(!new)>(a: seq<T>, b: seq<T>, low: nat, high: nat) {
    |a| == |b| && high <= |a| && forall j: nat :: low <= j < high ==> a[j] == b[j]
  }

  /** The frame of `s` holds the same in both, and they are of the same size. */
  ghost predicate Agree(s: Script, c: Ctx, d: Ctx) {
    && c.frame == d.frame && c.argBase == d.argBase && c.savedBase == d.savedBase && c.listBase == d.listBase
    && c.ret == d.ret && c.depth == d.depth
    && SameIn(c.stack, d.stack, c.frame, |c.stack|)
    && SameIn(c.args, d.args, c.argBase, c.argBase + s.args)
    && SameIn(c.saved, d.saved, c.savedBase, c.savedBase + s.saved)
    && SameIn(c.lists, d.lists, c.listBase, |c.lists|)
  }

  ghost predicate SameEnd(s: Script, a: Ran, b: Ran) {
    match (a, b)
    case (Ended(c), Ended(d)) => Agree(s, c, d)
    case (Faulted(f, c), Faulted(g, d)) => f == g && Agree(s, c, d)
    case _ => false
  }

  lemma AgreeInFrame(l: Limits, s: Script, pc: nat, c: Ctx, d: Ctx)
    requires Shape(s) && InFrame(l, s, pc, c) && Agree(s, c, d)
    ensures InFrame(l, s, pc, d) && (Fits(l, s, c) <==> Fits(l, s, d))
  {}

  // --- one operation -----------------------------------------------------------------------------------

  lemma SameTop<T(!new)>(a: seq<T>, b: seq<T>, low: nat, n: nat)
    requires SameIn(a, b, low, |a|) && low + n <= |a|
    ensures a[|a| - n..] == b[|b| - n..] && SameIn(a[..|a| - n], b[..|b| - n], low, |a| - n)
  {
    var m := |a| - n;
    assert forall j: nat :: m <= j < |a| ==> a[j] == b[j];
    assert a[m..] == b[m..];
  }

  lemma NativeAgrees(l: Limits, w: Natives, s: Script, op: LocalOp, c: Ctx, d: Ctx)
    requires OpReady(l, op, c) && op.Native? && Agree(s, c, d)
    ensures SameEnd(s, LocalStep(l, w, op, c), LocalStep(l, w, op, d))
  {
    SameTop(c.stack, d.stack, c.frame, op.pops);
  }

  lemma PushAgrees(l: Limits, w: Natives, s: Script, op: LocalOp, h: nat, c: Ctx, d: Ctx)
    requires OpReady(l, op, c) && SlotsOk(s, op, h) && !op.Native? && Pushes(op) == 1 && Agree(s, c, d)
    ensures SameEnd(s, LocalStep(l, w, op, c), LocalStep(l, w, op, d))
  {}

  lemma StoreAgrees(l: Limits, w: Natives, s: Script, op: LocalOp, h: nat, c: Ctx, d: Ctx)
    requires OpReady(l, op, c) && SlotsOk(s, op, h) && !op.Native? && Pushes(op) == 0 && Agree(s, c, d)
    ensures SameEnd(s, LocalStep(l, w, op, c), LocalStep(l, w, op, d))
  {
    if !op.EraseLocal? && !op.EditList? { SameTop(c.stack, d.stack, c.frame, 1); }
  }

  lemma LocalAgrees(l: Limits, w: Natives, s: Script, pc: nat, c: Ctx, d: Ctx)
    requires Shape(s) && InFrame(l, s, pc, c) && pc < |s.body| && s.body[pc].Local? && Agree(s, c, d)
    ensures SameEnd(s, LocalStep(l, w, s.body[pc].op, c), LocalStep(l, w, s.body[pc].op, d))
  {
    hide LocalStep, Agree, SameEnd;
    var op := s.body[pc].op;
    LocalReady(l, s, pc, c);
    if op.Native? { NativeAgrees(l, w, s, op, c, d); }
    else if Pushes(op) == 1 { PushAgrees(l, w, s, op, s.heights[pc], c, d); }
    else { StoreAgrees(l, w, s, op, s.heights[pc], c, d); }
  }

  lemma LocalReady(l: Limits, s: Script, pc: nat, c: Ctx)
    requires Shape(s) && InFrame(l, s, pc, c) && pc < |s.body| && s.body[pc].Local?
    ensures OpReady(l, s.body[pc].op, c) && SlotsOk(s, s.body[pc].op, s.heights[pc]) && Pushes(s.body[pc].op) <= 1
  {
    assert ItemOk(s, pc);
    assert s.heights[pc + 1] <= s.maxStack;
  }

  // --- a call ----------------------------------------------------------------------------------------------

  lemma SwapAgrees(a: seq<seq<Value>>, b: seq<seq<Value>>, low: nat, i: int, j: int)
    requires SameIn(a, b, low, |a|) && low <= i && low <= j
    ensures SameIn(SwapAt(a, i, j), SwapAt(b, i, j), low, |a|)
  {}

  lemma {:induction false} SwapsAgree(s: Script, a: seq<seq<Value>>, b: seq<seq<Value>>, site: Site, base: nat, k: nat)
    requires SwapsFit(s, site, |a|, base) && k <= |site.bindings| && SameIn(a, b, base, |a|)
    ensures SameIn(SwapFrom(a, site, base, k), SwapFrom(b, site, base, k), base, |a|)
    decreases |site.bindings| - k
  {
    hide SwapAt, SubAt, CallerAt, SwapsFit;
    if k < |site.bindings| {
      DistinctPlaces(s, site, |a|, base, k, k);
      SwapAgrees(a, b, base, SubAt(site, |a|, k), CallerAt(site, base, k));
      SwapsAgree(s, SwapAt(a, SubAt(site, |a|, k), CallerAt(site, base, k)), SwapAt(b, SubAt(site, |a|, k), CallerAt(site, base, k)), site, base, k + 1);
    }
  }

  lemma GivenAgree(s: Script, site: Site, c: Ctx, d: Ctx)
    requires BindingsOk(s, site) && |c.lists| == c.listBase + s.lists && Agree(s, c, d)
    ensures SameIn(Given(site, c).lists, Given(site, d).lists, c.listBase, |c.lists| + site.sub.lists)
  {
    hide SwapFrom;
    SwapsAgree(s, c.lists + Empties(site.sub.lists), d.lists + Empties(site.sub.lists), site, c.listBase, 0);
  }

  lemma EnteredAgree(l: Limits, s: Script, site: Site, h: nat, c: Ctx, d: Ctx)
    requires AtSite(l, s, site, h, c) && Shape(site.sub) && Agree(s, c, d)
    ensures site.sub.args <= |c.stack| && c.argBase + s.args + site.sub.args <= |c.args| && c.savedBase + s.saved + site.sub.saved <= |c.saved|
    ensures |d.stack| == |c.stack| && |d.args| == |c.args| && |d.saved| == |c.saved|
    ensures Agree(site.sub, Entered(s, site, c), Entered(s, site, d)) && Agree(s, Given(site, c), Given(site, d))
  {
    hide ListsGiven;
    AtSiteRoom(l, s, site, h, c);
    GivenAgree(s, site, c, d);
    GivenSize(site, c);
    GivenSize(site, d);
    SameTop(c.stack, d.stack, c.frame, site.sub.args);
  }

  /** The callee's run left the caller's part of both contexts the same, the callee's arguments included. */
  ghost predicate Returned(s: Script, site: Site, c: Ctx, x: Ctx, y: Ctx) {
    && SameIn(x.args, y.args, c.argBase, c.argBase + s.args + site.sub.args)
    && SameIn(x.saved, y.saved, c.savedBase, c.savedBase + s.saved)
    && SameIn(x.lists, y.lists, c.listBase, |x.lists|)
    && x.ret == y.ret
  }

  lemma ReturnAgrees(l: Limits, s: Script, site: Site, h: nat, c: Ctx, d: Ctx, x: Ctx, y: Ctx, leak: nat)
    requires AtSite(l, s, site, h, c) && AtSite(l, s, site, h, d) && Shape(site.sub) && Agree(s, c, d) && Agree(site.sub, x, y)
    requires site.sub.args <= |c.stack| && c.argBase + s.args + site.sub.args <= |c.args| && c.savedBase + s.saved + site.sub.saved <= |c.saved|
    requires KeptBut(Entered(s, site, c), x, leak) && KeptBut(Entered(s, site, d), y, leak)
    ensures Returned(s, site, c, x, y) && |x.lists| == |c.lists| + site.sub.lists + leak
  {
    hide ListsGiven;
    EnteredBelow(s, site, c, x, leak);
    EnteredBelow(s, site, d, y, leak);
    GivenAgree(s, site, c, d);
    GivenSize(site, c);
    GivenSize(site, d);
    forall j: nat | c.listBase <= j < |x.lists| ensures x.lists[j] == y.lists[j] {
      if j < |c.lists| {
        assert x.lists[j] == x.lists[..|c.lists|][j] && y.lists[j] == y.lists[..|c.lists|][j];
        assert Given(site, c).lists[j] == Given(site, c).lists[..|c.lists|][j] && Given(site, d).lists[j] == Given(site, d).lists[..|c.lists|][j];
      }
    }
  }

  /** The same but for what lies outside the frame and above the callee's arguments. */
  ghost predicate AgreeBack(s: Script, site: Site, c: Ctx, d: Ctx) {
    Agree(s, c, d) && SameIn(c.args, d.args, c.argBase, c.argBase + s.args + site.sub.args)
  }

  lemma WriteAgrees(s: Script, site: Site, x: Write, c: Ctx, d: Ctx)
    requires AgreeBack(s, site, c, d) && x.subSlot < site.sub.args && x.callerIndex < (if x.intoSaved then s.saved else s.args)
    ensures AgreeBack(s, site, WriteSlot(s, c, x), WriteSlot(s, d, x))
  {}

  lemma {:induction false} WritesAgree(s: Script, site: Site, c: Ctx, d: Ctx, k: nat)
    requires WritesOk(s, site) && AgreeBack(s, site, c, d) && k <= |site.writes|
    ensures AgreeBack(s, site, WriteFrom(s, c, site, k), WriteFrom(s, d, site, k))
    decreases |site.writes| - k
  {
    hide WriteSlot, AgreeBack;
    if k < |site.writes| {
      WriteAgrees(s, site, site.writes[k], c, d);
      WritesAgree(s, site, WriteSlot(s, c, site.writes[k]), WriteSlot(s, d, site.writes[k]), k + 1);
    }
  }

  lemma BackAgrees(s: Script, site: Site, c: Ctx, d: Ctx, x: Ctx, y: Ctx)
    requires Agree(s, c, d) && Returned(s, site, c, x, y) && site.sub.args <= |c.stack| && c.frame + site.sub.args <= |c.stack|
    ensures site.sub.args <= |d.stack| && AgreeBack(s, site, Back(site, c, x), Back(site, d, y))
  {
    SameTop(c.stack, d.stack, c.frame, site.sub.args);
  }

  lemma ListsAgree(s: Script, site: Site, c: Ctx, x: seq<seq<Value>>, y: seq<seq<Value>>, leak: nat)
    requires BindingsOk(s, site) && |c.lists| == c.listBase + s.lists && |x| == |c.lists| + site.sub.lists + leak && SameIn(x, y, c.listBase, |x|)
    ensures |y| == |x| && SameIn(ListsBack(site, c.listBase, x), ListsBack(site, c.listBase, y), c.listBase, |c.lists| + leak)
  {
    hide SwapFrom;
    SwapsAgree(s, x, y, site, c.listBase, 0);
  }

  lemma CallEndsAgree(l: Limits, s: Script, site: Site, h: nat, c: Ctx, d: Ctx, x: Ctx, y: Ctx)
    requires AtSite(l, s, site, h, c) && Shape(site.sub) && Agree(s, c, d) && Returned(s, site, c, x, y)
    requires site.sub.args <= |c.stack| == |d.stack| && |x.lists| == |c.lists| + site.sub.lists
    ensures var e, f := WriteFrom(s, Back(site, c, x), site, 0), WriteFrom(s, Back(site, d, y), site, 0);
      && |e.lists| == |x.lists| && |f.lists| == |y.lists| == |x.lists|
      && Agree(s, e.(lists := ListsBack(site, c.listBase, e.lists)), f.(lists := ListsBack(site, d.listBase, f.lists)))
  {
    hide WriteFrom, ListsBack;
    var e, f := WriteFrom(s, Back(site, c, x), site, 0), WriteFrom(s, Back(site, d, y), site, 0);
    WritesOnly(s, Back(site, c, x), site, 0);
    WritesOnly(s, Back(site, d, y), site, 0);
    BackAgrees(s, site, c, d, x, y);
    WritesAgree(s, site, Back(site, c, x), Back(site, d, y), 0);
    ListsAgree(s, site, c, x.lists, y.lists, 0);
    BackSize(site, c.listBase, x.lists);
  }

  lemma {:induction false} CallAgrees(l: Limits, w: Natives, s: Script, pc: nat, c: Ctx, d: Ctx)
    requires WellCompiled(s) && InFrame(l, s, pc, c) && pc < |s.body| && s.body[pc].Execute? && Agree(s, c, d)
    ensures SameEnd(s, CallSite(l, w, s, s.body[pc].site, c), CallSite(l, w, s, s.body[pc].site, d))
    decreases s, |s.body| - pc, 0
  {
    hide RunItems, CallSite, ListsBack, ListsGiven, WriteFrom, Agree, Entered, Returned, Kept, KeptBut, AtSite, Fits;
    var site, h := s.body[pc].site, s.heights[pc];
    AgreeInFrame(l, s, pc, c, d);
    SiteReached(l, s, pc, c);
    SiteReached(l, s, pc, d);
    AtSiteRoom(l, s, site, h, c);
    CalleeCompiled(s, pc);
    EnteredAgree(l, s, site, h, c, d);
    CallIs(l, w, s, site, h, c);
    CallIs(l, w, s, site, h, d);
    assert c.depth == d.depth by { SameDepths(s, c, d); }
    if c.depth < MAX_DEPTH {
      EntersOk(l, s, site, h, c);
      EntersOk(l, s, site, h, d);
      var e, f := Entered(s, site, c), Entered(s, site, d);
      RunAgrees(l, w, site.sub, 0, e, f);
      RunHolds(l, w, site.sub, 0, e);
      RunHolds(l, w, site.sub, 0, f);
      InnerAgrees(l, w, s, site, h, c, d);
    }
  }

  lemma SameDepths(s: Script, c: Ctx, d: Ctx)
    requires Agree(s, c, d)
    ensures c.depth == d.depth
  {}

  /** The call, from how the two runs of the callee end. */
  lemma InnerAgrees(l: Limits, w: Natives, s: Script, site: Site, h: nat, c: Ctx, d: Ctx)
    requires AtSite(l, s, site, h, c) && AtSite(l, s, site, h, d) && Shape(site.sub) && Agree(s, c, d) && c.depth < MAX_DEPTH
    requires site.sub.args <= |c.stack| == |d.stack| && c.argBase + s.args + site.sub.args <= |c.args| == |d.args|
    requires c.savedBase + s.saved + site.sub.saved <= |c.saved| == |d.saved|
    requires var a, b := RunItems(l, w, site.sub, 0, Entered(s, site, c)), RunItems(l, w, site.sub, 0, Entered(s, site, d));
      SameEnd(site.sub, a, b) && Holds(site.sub, Entered(s, site, c), a) && Holds(site.sub, Entered(s, site, d), b)
    ensures SameEnd(s, CallSite(l, w, s, site, c), CallSite(l, w, s, site, d))
  {
    hide RunItems, CallSite, ListsBack, ListsGiven, WriteFrom, Entered, KeptBut;
    match (RunItems(l, w, site.sub, 0, Entered(s, site, c)), RunItems(l, w, site.sub, 0, Entered(s, site, d)))
    case (Ended(x), Ended(y)) =>
      CallEnds(l, w, s, site, h, c, x);
      CallEnds(l, w, s, site, h, d, y);
      ReturnAgrees(l, s, site, h, c, d, x, y, 0);
      CallEndsAgree(l, s, site, h, c, d, x, y);
    case (Faulted(f, x), Faulted(g, y)) =>
      CallFaults(l, w, s, site, h, c, f, x, Leak(f));
      CallFaults(l, w, s, site, h, d, g, y, Leak(f));
      ReturnAgrees(l, s, site, h, c, d, x, y, Leak(f));
      ListsAgree(s, site, c, x.lists, y.lists, Leak(f));
      BackSize(site, c.listBase, x.lists);
      SameTop(c.stack, d.stack, c.frame, site.sub.args);
    case _ =>
  }

  // --- runs ----------------------------------------------------------------------------------------------------

  /**
    Two contexts that hold the same in the frame of a script run it alike: they end with the
    same in the frame, or with the same fault, whatever lies below it or above its own slots.
  */
  lemma {:induction false} RunAgrees(l: Limits, w: Natives, s: Script, pc: nat, c: Ctx, d: Ctx)
    requires WellCompiled(s) && InFrame(l, s, pc, c) && Agree(s, c, d)
    ensures SameEnd(s, RunItems(l, w, s, pc, c), RunItems(l, w, s, pc, d))
    decreases s, |s.body| - pc, 1
  {
    hide CallSite, LocalStep, Kept, KeptBut, Fits;
    AgreeInFrame(l, s, pc, c, d);
    if pc < |s.body| {
      assert ItemOk(s, pc);
      match s.body[pc]
      case Local(op) =>
        LocalKeeps(l, w, s, pc, c);
        LocalAgrees(l, w, s, pc, c, d);
        var x, y := LocalStep(l, w, op, c), LocalStep(l, w, op, d);
        if x.Ended? { RunAgrees(l, w, s, pc + 1, x.ctx, y.ctx); }
      case Goto(t) => RunAgrees(l, w, s, t, c, d);
      case Unless(t) =>
        PopKeeps(l, s, c);
        SameTop(c.stack, d.stack, c.frame, 1);
        var top := |c.stack| - 1;
        assert c.stack[top] == d.stack[top];
        RunAgrees(l, w, s, if w.holds(c.stack[top]) then pc + 1 else t, c.(stack := c.stack[..top]), d.(stack := d.stack[..top]));
      case Execute(site) =>
        CallHolds(l, w, s, pc, c);
        CallAgrees(l, w, s, pc, c, d);
        var x, y := CallSite(l, w, s, site, c), CallSite(l, w, s, site, d);
        if x.Ended? { RunAgrees(l, w, s, pc + 1, x.ctx, y.ctx); }
    }
  }

  // --- what a callee sees of its caller -------------------------------------------------------------------------

  /** Calls that pass the same: the arguments and the lists that are bound; the callers' own values may differ. */
  ghost predicate PassSame(s: Script, site: Site, c: Ctx, d: Ctx) {
    && c.frame == d.frame && c.argBase == d.argBase && c.savedBase == d.savedBase && c.listBase == d.listBase && c.ret == d.ret && c.depth == d.depth
    && |c.stack| == |d.stack| && |c.args| == |d.args| && |c.saved| == |d.saved| && |c.lists| == |d.lists|
    && site.sub.args <= |c.stack| && c.stack[|c.stack| - site.sub.args..] == d.stack[|d.stack| - site.sub.args..]
    && forall i: nat :: i < |site.bindings| ==>
         c.listBase + site.bindings[i].callerIndex < |c.lists|
         && c.lists[c.listBase + site.bindings[i].callerIndex] == d.lists[c.listBase + site.bindings[i].callerIndex]
  }

  lemma PassedLists(s: Script, site: Site, c: Ctx, d: Ctx, k: nat)
    requires BindingsOk(s, site) && |c.lists| == c.listBase + s.lists && PassSame(s, site, c, d) && k < site.sub.lists
    ensures |Given(site, c).lists| == |Given(site, d).lists| == |c.lists| + site.sub.lists
    ensures Given(site, c).lists[|c.lists| + k] == Given(site, d).lists[|c.lists| + k]
  {
    hide ListsGiven;
    GivenSize(site, c);
    GivenSize(site, d);
    var n := |c.lists|;
    if i: nat :| i < |site.bindings| && site.bindings[i].subSlot == k {
      GivenBound(s, site, c, i);
      GivenBound(s, site, d, i);
    } else {
      assert Free(s, site, c, n + k) && Free(s, site, d, n + k);
      GivenFree(s, site, c, n + k);
      GivenFree(s, site, d, n + k);
    }
  }

  lemma PassedAll(s: Script, site: Site, c: Ctx, d: Ctx)
    requires BindingsOk(s, site) && |c.lists| == c.listBase + s.lists && PassSame(s, site, c, d)
    ensures SameIn(Given(site, c).lists, Given(site, d).lists, |c.lists|, |c.lists| + site.sub.lists)
  {
    hide ListsGiven, PassSame, BindingsOk;
    GivenSize(site, c);
    GivenSize(site, d);
    PassedSizes(s, site, c, d);
    forall j: nat | |c.lists| <= j < |c.lists| + site.sub.lists ensures Given(site, c).lists[j] == Given(site, d).lists[j] {
      PassedLists(s, site, c, d, j - |c.lists|);
    }
  }

  lemma PassedSizes(s: Script, site: Site, c: Ctx, d: Ctx)
    requires PassSame(s, site, c, d)
    ensures |c.lists| == |d.lists|
  {}

  /** A callee runs on its arguments and bound lists alone: calls that pass the same end the same, whatever the callers hold. */
  lemma CalleeSeesOnly(l: Limits, w: Natives, s: Script, site: Site, h: nat, c: Ctx, d: Ctx)
    requires AtSite(l, s, site, h, c) && AtSite(l, s, site, h, d) && WellCompiled(site.sub) && PassSame(s, site, c, d)
    ensures c.argBase + s.args + site.sub.args <= |c.args| && c.savedBase + s.saved + site.sub.saved <= |c.saved|
    ensures SameEnd(site.sub, RunItems(l, w, site.sub, 0, Entered(s, site, c)), RunItems(l, w, site.sub, 0, Entered(s, site, d)))
  {
    hide RunItems, ListsGiven, WritesOk;
    AtSiteRoom(l, s, site, h, c);
    EntersOk(l, s, site, h, c);
    PassedAll(s, site, c, d);
    var e, f := Entered(s, site, c), Entered(s, site, d);
    RunAgrees(l, w, site.sub, 0, e, f);
  }

  // --- what is stored is read --------------------------------------------------------------------------------------

  /** The value an operation left on top. */
  function Top(l: Limits, w: Natives, op: LocalOp, c: Ctx): Option<Value> {
    match LocalStep(l, w, op, c)
    case Ended(d) => if d.stack == [] then None else Some(d.stack[|d.stack| - 1])
    case Faulted(_, _) => None
  }

  /** Reads of a saved value: the one stored last, and no other slot is disturbed. */
  lemma SavedIsRead(l: Limits, w: Natives, c: Ctx, v: Value, k: nat, j: nat)
    requires |c.stack| < l.stack && c.savedBase + k < |c.saved| && c.savedBase + j < |c.saved|
    ensures var r := LocalStep(l, w, SaveValue(k), c.(stack := c.stack + [v]));
      && r == Ended(c.(saved := r.ctx.saved))
      && Top(l, w, PushSaved(j), r.ctx) == (if j == k then Some(v) else Top(l, w, PushSaved(j), c))
      && forall i: nat :: Top(l, w, PushArg(i), r.ctx) == Top(l, w, PushArg(i), c)
  {
    assert (c.stack + [v])[..|c.stack|] == c.stack;
  }

  lemma ArgIsRead(l: Limits, w: Natives, c: Ctx, v: Value, k: nat, j: nat)
    requires |c.stack| < l.stack && c.argBase + k < |c.args| && c.argBase + j < |c.args|
    ensures var r := LocalStep(l, w, SetArg(k), c.(stack := c.stack + [v]));
      && r == Ended(c.(args := r.ctx.args))
      && Top(l, w, PushArg(j), r.ctx) == (if j == k then Some(v) else Top(l, w, PushArg(j), c))
      && forall i: nat :: Top(l, w, PushSaved(i), r.ctx) == Top(l, w, PushSaved(i), c)
  {
    assert (c.stack + [v])[..|c.stack|] == c.stack;
  }

  /** The k-th value of the frame's own part of the stack; the item added last stands last in its list, the others as they were. */
  lemma FrameIsRead(l: Limits, w: Natives, c: Ctx, v: Value, k: nat, i: nat)
    requires |c.stack| < l.stack && c.frame <= |c.stack| && c.listBase <= |c.lists|
    ensures c.frame + k < |c.stack| ==> Top(l, w, PushThis(k), c) == Some(c.stack[c.frame..][k])
    ensures i < |c.lists| - c.listBase && k < |c.lists| - c.listBase ==>
      var r := LocalStep(l, w, AddTo(k), c.(stack := c.stack + [v]));
      r == Ended(c.(lists := r.ctx.lists)) && |r.ctx.lists| == |c.lists|
      && r.ctx.lists[c.listBase..][i] == c.lists[c.listBase..][i] + if i == k then [v] else []
    ensures LocalStep(l, w, SetReturn, c.(stack := c.stack + [v])) == Ended(c.(ret := v))
  {
    assert (c.stack + [v])[..|c.stack|] == c.stack;
  }

  /** A native function gets the values pushed last, in the order they were pushed; an erased value leaves the others in place. */
  lemma StackIsRead(l: Limits, w: Natives, c: Ctx, id: nat, vs: seq<Value>, v: Value, k: nat)
    requires |c.stack| < l.stack && c.frame <= |c.stack|
    ensures w.call(id, vs) == Some(v) ==> LocalStep(l, w, LocalOp.Native(id, |vs|, true), c.(stack := c.stack + vs)) == Ended(c.(stack := c.stack + [v]))
    ensures w.call(id, vs) == None ==> LocalStep(l, w, LocalOp.Native(id, |vs|, true), c.(stack := c.stack + vs)) == Faulted(NativeFault(id), c.(stack := c.stack + vs))
    ensures k < |c.stack| - c.frame ==>
      var own, r := c.stack[c.frame..], LocalStep(l, w, EraseLocal(k), c); r == Ended(c.(stack := c.stack[..c.frame] + (own[..k] + own[k + 1..])))
  {
    assert (c.stack + vs)[..|c.stack|] == c.stack && (c.stack + vs)[|c.stack|..] == vs;
    if k < |c.stack| - c.frame {
      var own := c.stack[c.frame..];
      assert c.stack[..c.frame + k] + c.stack[c.frame + k + 1..] == c.stack[..c.frame] + (own[..k] + own[k + 1..]);
    }
  }

  /** A callee finds its saved values blank and its arguments in the order they were pushed. */
  lemma CalleeReads(l: Limits, w: Natives, s: Script, site: Site, h: nat, c: Ctx, k: nat)
    requires AtSite(l, s, site, h, c) && Shape(site.sub) && |c.stack| < l.stack
    ensures site.sub.args <= |c.stack| && c.argBase + s.args + site.sub.args <= |c.args| && c.savedBase + s.saved + site.sub.saved <= |c.saved|
    ensures k < site.sub.saved ==> Top(l, w, PushSaved(k), Entered(s, site, c)) == Some(Invalid)
    ensures k < site.sub.args ==> Top(l, w, PushArg(k), Entered(s, site, c)) == Some(c.stack[|c.stack| - site.sub.args + k])
  {
    hide ListsGiven;
    AtSiteRoom(l, s, site, h, c);
  }

  // --- a script that stores and reads, and one that branches ------------------------------------------------------------

  /** `PushConst v; SaveValue 0; PushSaved 0; SetReturn`. */
  function Keeping(v: Value): Script {
    Script(0, 1, 0, true, [Local(PushConst(v)), Local(SaveValue(0)), Local(PushSaved(0)), Local(SetReturn)], [0, 1, 0, 1, 0], 1, 1, 0, 0)
  }

  /** Run in any frame, below any callers, it returns what it stored. */
  lemma KeepingReturns(l: Limits, w: Natives, v: Value, c: Ctx)
    requires Shape(Keeping(v)) && InFrame(l, Keeping(v), 0, c)
    ensures var r := RunItems(l, w, Keeping(v), 0, c); r.Ended? && r.ctx.ret == v && r.ctx.stack == c.stack
  {
    var s := Keeping(v);
    var c1 := c.(stack := c.stack + [v]);
    var c2 := c.(saved := c.saved[c.savedBase := v]);
    assert c1.stack[..|c.stack|] == c.stack;
    assert RunItems(l, w, s, 4, c2.(ret := v)) == Ended(c2.(ret := v));
    assert RunItems(l, w, s, 3, c2.(stack := c1.stack)) == RunItems(l, w, s, 4, c2.(ret := v));
    assert RunItems(l, w, s, 2, c2) == RunItems(l, w, s, 3, c2.(stack := c1.stack));
    assert RunItems(l, w, s, 1, c1) == RunItems(l, w, s, 2, c2);
  }

  /** `if t then a else b`, as it is compiled. */
  function Choosing(t: Value, a: Value, b: Value): Script {
    Script(0, 0, 0, true,
           [Local(PushConst(t)), Unless(4), Local(PushConst(a)), Goto(5), Local(PushConst(b)), Local(SetReturn)], [0, 1, 0, 1, 0, 1, 0], 1, 0, 0, 0)
  }

  lemma ChoosingReturns(l: Limits, w: Natives, t: Value, a: Value, b: Value, c: Ctx)
    requires Shape(Choosing(t, a, b)) && InFrame(l, Choosing(t, a, b), 0, c)
    ensures var r := RunItems(l, w, Choosing(t, a, b), 0, c); r.Ended? && r.ctx == c.(ret := if w.holds(t) then a else b)
  {
    var s, v := Choosing(t, a, b), if w.holds(t) then a else b;
    var c1, c2 := c.(stack := c.stack + [t]), c.(stack := c.stack + [v]);
    assert c1.stack[..|c.stack|] == c.stack == c2.stack[..|c.stack|];
    assert RunItems(l, w, s, 6, c.(ret := v)) == Ended(c.(ret := v));
    assert RunItems(l, w, s, 5, c2) == RunItems(l, w, s, 6, c.(ret := v));
    if w.holds(t) { assert RunItems(l, w, s, 3, c2) == RunItems(l, w, s, 5, c2); }
    assert RunItems(l, w, s, if w.holds(t) then 2 else 4, c) == RunItems(l, w, s, 5, c2);
    assert RunItems(l, w, s, 1, c1) == RunItems(l, w, s, if w.holds(t) then 2 else 4, c);
  }
}
