/**
  What calls keep, over any tree of scripts: a callee stays above its caller, one check at
  the top covers every nested frame, lists and values travel exactly as bound, and a
  failure leaves nothing behind.
*/
module FrameSafety {
  import opened Machine
  import opened Frames

  // --- what the compiler guarantees -------------------------------------------------------------

  function Pops(op: LocalOp): nat {
    match op
    case SetArg(_) => 1
    case SaveValue(_) => 1
    case EraseLocal(_) => 1
    case SetReturn => 1
    case AddTo(_) => 1
    case Native(_, n, _) => n
    case _ => 0
  }

  function Pushes(op: LocalOp): nat {
    match op
    case PushConst(_) => 1
    case PushThis(_) => 1
    case PushArg(_) => 1
    case PushSaved(_) => 1
    case Native(_, _, p) => if p then 1 else 0
    case _ => 0
  }

  predicate SlotsOk(s: Script, op: LocalOp, h: nat) {
    match op
    case PushThis(k) => k < h
    case EraseLocal(k) => k < h
    case PushArg(k) => k < s.args
    case SetArg(k) => k < s.args
    case PushSaved(k) => k < s.saved
    case SaveValue(k) => k < s.saved
    case AddTo(k) => k < s.lists
    case EditList(k, _) => k < s.lists
    case _ => true
  }

  predicate BindingsOk(s: Script, site: Site) {
    && (forall i :: 0 <= i < |site.bindings| ==> site.bindings[i].subSlot < site.sub.lists && site.bindings[i].callerIndex < s.lists)
    && (forall i, j :: 0 <= i < j < |site.bindings| ==>
          site.bindings[i].subSlot != site.bindings[j].subSlot && site.bindings[i].callerIndex != site.bindings[j].callerIndex)
  }

  predicate WritesOk(s: Script, site: Site) {
    forall i :: 0 <= i < |site.writes| ==>
      site.writes[i].subSlot < site.sub.args && site.writes[i].callerIndex < (if site.writes[i].intoSaved then s.saved else s.args)
  }

  function Result(site: Site): nat { if site.sub.gives then 1 else 0 }

  /** A call at stack size `h`: the callee's needs are within what the caller reports as its own. */
  predicate SiteOk(s: Script, h: nat, site: Site) {
    var sub := site.sub;
    && sub.args <= h
    && h - sub.args + sub.maxStack <= s.maxStack && h - sub.args + Result(site) <= s.maxStack
    && s.saved + sub.maxSaved <= s.maxSaved && s.lists + sub.maxLists <= s.maxLists && s.args + sub.maxArgs <= s.maxArgs
    && BindingsOk(s, site) && WritesOk(s, site)
  }

  predicate ItemOk(s: Script, i: nat)
    requires |s.heights| == |s.body| + 1 && i < |s.body|
  {
    var h := s.heights[i];
    match s.body[i]
    case Local(op) => Pops(op) <= h && SlotsOk(s, op, h) && h - Pops(op) + Pushes(op) == s.heights[i + 1]
    case Goto(t) => i < t <= |s.body| && s.heights[t] == h
    case Unless(t) => i < t <= |s.body| && h >= 1 && s.heights[i + 1] == h - 1 && s.heights[t] == h - 1
    case Execute(site) => SiteOk(s, h, site) && s.heights[i + 1] == h - site.sub.args + Result(site)
  }

  predicate Shape(s: Script) {
    && |s.heights| == |s.body| + 1 && s.heights[0] == 0
    && (forall i :: 0 <= i < |s.heights| ==> s.heights[i] <= s.maxStack)
    && s.saved <= s.maxSaved && s.lists <= s.maxLists && s.args <= s.maxArgs
    && (forall i: nat {:trigger ItemOk(s, i)} :: i < |s.body| ==> ItemOk(s, i))
  }

  /** A script the compiler finished, all the way down. */
  predicate WellCompiled(s: Script)
    decreases s
  {
    && Shape(s)
    && forall i: nat :: i < |s.body| && s.body[i].Execute? ==> WellCompiled(s.body[i].site.sub)
  }

  // --- the peaks a script reports -----------------------------------------------------------------

  /** The largest need among the scripts executed by the first `n` items. */
  function Deepest(body: seq<Item>, need: Script -> nat, n: nat): nat
    requires n <= |body|
  {
    if n == 0 then 0
    else
      var below := Deepest(body, need, n - 1);
      if body[n - 1].Execute? && need(body[n - 1].site.sub) > below then need(body[n - 1].site.sub) else below
  }

  /** How the compiler computes the peaks it reports. */
  predicate Finalized(s: Script) {
    && s.maxSaved == s.saved + Deepest(s.body, (x: Script) => x.maxSaved, |s.body|)
    && s.maxLists == s.lists + Deepest(s.body, (x: Script) => x.maxLists, |s.body|)
    && s.maxArgs == s.args + Deepest(s.body, (x: Script) => x.maxArgs, |s.body|)
  }

  lemma {:induction false} DeepestIsLeast(body: seq<Item>, need: Script -> nat, n: nat, i: nat)
    requires n <= |body|
    ensures i < n && body[i].Execute? ==> need(body[i].site.sub) <= Deepest(body, need, n)
    ensures Deepest(body, need, n) > 0 ==> exists j :: 0 <= j < n && body[j].Execute? && need(body[j].site.sub) == Deepest(body, need, n)
  {
    if n > 0 { DeepestIsLeast(body, need, n - 1, i); }
  }

  /** The reported peaks cover every call of the script. */
  lemma FinalizedCovers(s: Script, i: nat)
    requires Finalized(s) && i < |s.body| && s.body[i].Execute?
    ensures var sub := s.body[i].site.sub;
      s.saved + sub.maxSaved <= s.maxSaved && s.lists + sub.maxLists <= s.maxLists && s.args + sub.maxArgs <= s.maxArgs
  {
    DeepestIsLeast(s.body, (x: Script) => x.maxSaved, |s.body|, i);
    DeepestIsLeast(s.body, (x: Script) => x.maxLists, |s.body|, i);
    DeepestIsLeast(s.body, (x: Script) => x.maxArgs, |s.body|, i);
  }

  // --- frames ----------------------------------------------------------------------------------

  /** The frame of `s` has room for everything below it in the call tree. */
  predicate Fits(l: Limits, s: Script, c: Ctx) {
    && c.frame + s.maxStack <= l.stack
    && c.argBase + s.maxArgs <= |c.args|
    && c.savedBase + s.maxSaved <= |c.saved|
    && |c.lists| == c.listBase + s.lists && c.listBase + s.maxLists <= l.lists
  }

  predicate InFrame(l: Limits, s: Script, pc: nat, c: Ctx)
    requires Shape(s)
  {
    pc <= |s.body| && Fits(l, s, c) && |c.stack| == c.frame + s.heights[pc]
  }

  /** Bases, depth and sizes as before; nothing below the frame touched. */
  ghost predicate Kept(c: Ctx, d: Ctx) { KeptBut(c, d, 0) }

  /** The same, with so many lists left over on top of the vector. */
  ghost predicate KeptBut(c: Ctx, d: Ctx, leak: nat) {
    && d.frame == c.frame && d.argBase == c.argBase && d.savedBase == c.savedBase && d.listBase == c.listBase && d.depth == c.depth
    && |d.args| == |c.args| && |d.saved| == |c.saved| && |d.lists| == |c.lists| + leak
    && c.frame <= |c.stack| && c.frame <= |d.stack| && d.stack[..c.frame] == c.stack[..c.frame]
    && c.argBase <= |c.args| && d.args[..c.argBase] == c.args[..c.argBase]
    && c.savedBase <= |c.saved| && d.saved[..c.savedBase] == c.saved[..c.savedBase]
    && c.listBase <= |c.lists| && d.lists[..c.listBase] == c.lists[..c.listBase]
  }

  /** What a fault leaves over: the nesting limit refuses a call when its list frame is already there. */
  function Leak(f: Fault): nat { if f.TooDeep? then f.refused.lists else 0 }

  lemma KeptTrans(c: Ctx, d: Ctx, e: Ctx, leak: nat)
    requires Kept(c, d) && KeptBut(d, e, leak)
    ensures KeptBut(c, e, leak)
  {}

  /** What one run of a frame promises. */
  ghost predicate Holds(s: Script, c: Ctx, r: Ran)
    requires Shape(s)
  {
    match r
    case Ended(d) => Kept(c, d) && |d.stack| == d.frame + s.heights[|s.body|]
    case Faulted(f, d) => (f.NativeFault? || f.TooDeep?) && KeptBut(c, d, Leak(f))
  }

  lemma LocalKeeps(l: Limits, w: Natives, s: Script, pc: nat, c: Ctx)
    requires Shape(s) && InFrame(l, s, pc, c) && pc < |s.body| && s.body[pc].Local?
    ensures match LocalStep(l, w, s.body[pc].op, c)
      case Ended(d) => Kept(c, d) && InFrame(l, s, pc + 1, d)
      case Faulted(f, d) => f.NativeFault? && Kept(c, d)
  {
    assert ItemOk(s, pc);
    assert s.heights[pc + 1] <= s.maxStack;
    var op := s.body[pc].op;
    if op.Native? { NativeKeeps(l, w, op, c); }
    else if Pushes(op) == 1 { PushKeeps(l, w, op, c); }
    else { StoreKeeps(l, w, op, c); }
  }

  /** An operation whose slots exist and whose operands lie in the frame. */
  ghost predicate OpReady(l: Limits, op: LocalOp, c: Ctx) {
    && c.frame + Pops(op) <= |c.stack| && |c.stack| + Pushes(op) <= l.stack + Pops(op)
    && c.argBase <= |c.args| && c.savedBase <= |c.saved| && c.listBase <= |c.lists|
    && match op
       case PushThis(k) => c.frame + k < |c.stack|
       case EraseLocal(k) => c.frame + k < |c.stack|
       case PushArg(k) => c.argBase + k < |c.args|
       case SetArg(k) => c.argBase + k < |c.args|
       case PushSaved(k) => c.savedBase + k < |c.saved|
       case SaveValue(k) => c.savedBase + k < |c.saved|
       case AddTo(k) => c.listBase + k < |c.lists|
       case EditList(k, _) => c.listBase + k < |c.lists|
       case _ => true
  }

  lemma NativeKeeps(l: Limits, w: Natives, op: LocalOp, c: Ctx)
    requires OpReady(l, op, c) && op.Native?
    ensures match LocalStep(l, w, op, c)
      case Ended(d) => Kept(c, d) && |d.stack| == |c.stack| - Pops(op) + Pushes(op)
      case Faulted(f, d) => f.NativeFault? && d == c
  {}

  lemma PushKeeps(l: Limits, w: Natives, op: LocalOp, c: Ctx)
    requires OpReady(l, op, c) && !op.Native? && Pushes(op) == 1
    ensures match LocalStep(l, w, op, c)
      case Ended(d) => Kept(c, d) && |d.stack| == |c.stack| - Pops(op) + Pushes(op)
      case Faulted(_, _) => false
  {}

  lemma StoreKeeps(l: Limits, w: Natives, op: LocalOp, c: Ctx)
    requires OpReady(l, op, c) && !op.Native? && Pushes(op) == 0
    ensures match LocalStep(l, w, op, c)
      case Ended(d) => Kept(c, d) && |d.stack| == |c.stack| - Pops(op) + Pushes(op)
      case Faulted(_, _) => false
  {
    match op
    case SetArg(k) => SetKeeps(c.args, c.argBase, k, Last(c.stack));
    case SaveValue(k) => SetKeeps(c.saved, c.savedBase, k, Last(c.stack));
    case AddTo(k) => SetKeeps(c.lists, c.listBase, k, c.lists[c.listBase + k] + [Last(c.stack)]);
    case EditList(k, id) => SetKeeps(c.lists, c.listBase, k, w.edit(id, c.lists[c.listBase + k]));
    case EraseLocal(k) => assert (c.stack[..c.frame + k] + c.stack[c.frame + k + 1..])[..c.frame] == c.stack[..c.frame];
    case SetReturn =>
  }

  function Last<T>(s: seq<T>): T
    requires s != []
  {
    s[|s| - 1]
  }

  lemma SetKeeps<T>(s: seq<T>, base: nat, k: nat, v: T)
    requires base + k < |s|
    ensures s[base + k := v][..base] == s[..base]
  {}

  // --- swapping lists ------------------------------------------------------------------------------

  /** Where a bound list lies: in the callee's frame, the top lists of the vector, and in the caller's. */
  function SubAt(site: Site, total: nat, i: nat): int
    requires i < |site.bindings|
  {
    total - (site.sub.lists - site.bindings[i].subSlot)
  }

  function CallerAt(site: Site, base: nat, i: nat): nat
    requires i < |site.bindings|
  {
    site.bindings[i].callerIndex + base
  }

  predicate SwapsFit(s: Script, site: Site, total: nat, base: nat) {
    BindingsOk(s, site) && total >= base + s.lists + site.sub.lists
  }

  function SwapFrom(lists: seq<seq<Value>>, site: Site, base: nat, k: nat): (r: seq<seq<Value>>)
    requires k <= |site.bindings|
    ensures |r| == |lists|
    decreases |site.bindings| - k
  {
    if k == |site.bindings| then lists
    else SwapFrom(SwapAt(lists, SubAt(site, |lists|, k), CallerAt(site, base, k)), site, base, k + 1)
  }

  /** `j` holds no list of a binding from `k` on. */
  ghost predicate Unbound(site: Site, total: nat, base: nat, k: nat, j: int) {
    forall i: nat :: k <= i < |site.bindings| ==> SubAt(site, total, i) != j && CallerAt(site, base, i) != j
  }

  lemma DistinctPlaces(s: Script, site: Site, total: nat, base: nat, i: nat, j: nat)
    requires SwapsFit(s, site, total, base) && i < |site.bindings| && j < |site.bindings|
    ensures base <= CallerAt(site, base, i) < base + s.lists <= SubAt(site, total, j) < total
    ensures i != j ==> SubAt(site, total, i) != SubAt(site, total, j) && CallerAt(site, base, i) != CallerAt(site, base, j)
  {
    if i < j { assert site.bindings[i].subSlot != site.bindings[j].subSlot; }
    if j < i { assert site.bindings[j].subSlot != site.bindings[i].subSlot; }
  }

  /** The swaps touch nothing that is not bound. */
  lemma {:induction false} SwapsRest(s: Script, lists: seq<seq<Value>>, site: Site, base: nat, k: nat, j: nat)
    requires SwapsFit(s, site, |lists|, base) && k <= |site.bindings| && j < |lists| && Unbound(site, |lists|, base, k, j)
    ensures SwapFrom(lists, site, base, k)[j] == lists[j]
    decreases |site.bindings| - k
  {
    if k < |site.bindings| {
      SwapsRest(s, SwapAt(lists, SubAt(site, |lists|, k), CallerAt(site, base, k)), site, base, k + 1, j);
    }
  }

  lemma LaterUnbound(s: Script, site: Site, total: nat, base: nat, k: nat)
    requires SwapsFit(s, site, total, base) && k < |site.bindings|
    ensures Unbound(site, total, base, k + 1, SubAt(site, total, k)) && Unbound(site, total, base, k + 1, CallerAt(site, base, k))
  {
    forall i: nat | k < i < |site.bindings|
      ensures SubAt(site, total, i) != SubAt(site, total, k) && CallerAt(site, base, i) != SubAt(site, total, k)
      ensures SubAt(site, total, i) != CallerAt(site, base, k) && CallerAt(site, base, i) != CallerAt(site, base, k)
    {
      PlacesApart(s, site, total, base, k, i);
    }
  }

  /** The swaps exchange the two lists of every binding. */
  lemma {:induction false} SwapsPair(s: Script, lists: seq<seq<Value>>, site: Site, base: nat, k: nat, i: nat)
    requires SwapsFit(s, site, |lists|, base) && k <= i < |site.bindings|
    ensures var r, p, q := SwapFrom(lists, site, base, k), SubAt(site, |lists|, i), CallerAt(site, base, i);
      0 <= p < |lists| && q < |lists| && r[p] == lists[q] && r[q] == lists[p]
    decreases |site.bindings| - k
  {
    hide SubAt, CallerAt, SwapsFit, Unbound;
    assert SwapsFit(s, site, |lists|, base);
    var total, p, q := |lists|, SubAt(site, |lists|, k), CallerAt(site, base, k);
    var next := SwapAt(lists, p, q);
    DistinctPlaces(s, site, total, base, k, k);
    if i == k {
      LaterUnbound(s, site, total, base, k);
      SwapsRest(s, next, site, base, k + 1, p);
      SwapsRest(s, next, site, base, k + 1, q);
    } else {
      PlacesApart(s, site, total, base, k, i);
      SwapsPair(s, next, site, base, k + 1, i);
    }
  }

  lemma PlacesApart(s: Script, site: Site, total: nat, base: nat, i: nat, j: nat)
    requires SwapsFit(s, site, total, base) && i < |site.bindings| && j < |site.bindings| && i != j
    ensures SubAt(site, total, i) != SubAt(site, total, j) && CallerAt(site, base, i) != CallerAt(site, base, j)
    ensures SubAt(site, total, i) != CallerAt(site, base, j) && SubAt(site, total, j) != CallerAt(site, base, i)
    ensures 0 <= SubAt(site, total, j) < total && CallerAt(site, base, j) < total
  {
    hide SubAt, CallerAt;
    DistinctPlaces(s, site, total, base, i, i);
    DistinctPlaces(s, site, total, base, j, j);
    DistinctPlaces(s, site, total, base, i, j);
    DistinctPlaces(s, site, total, base, j, i);
  }

  // --- the emitted opcodes as a whole ------------------------------------------------------------------

  lemma SwapOpAt(site: Site, k: nat, more: seq<FrameOp>)
    requires k < |site.bindings| && site.bindings[k].subSlot < site.sub.lists
    ensures var ops := SwapOps(site)[k..] + more;
      && ops != [] && ops[0] == Swap(site.sub.lists - site.bindings[k].subSlot, site.bindings[k].callerIndex)
      && ops[1..] == SwapOps(site)[k + 1..] + more
  {}

  /** Either way of reading the opcodes swaps the lists of the k-th binding first. */
  lemma SwapsOne(l: Limits, caller: Script, site: Site, k: nat, more: seq<FrameOp>, c: Ctx)
    requires k < |site.bindings| && BindingsOk(caller, site)
    ensures var ops, d := SwapOps(site)[k..] + more, c.(lists := SwapAt(c.lists, SubAt(site, |c.lists|, k), CallerAt(site, c.listBase, k)));
      && RunOps(l, caller, ops, c) == RunOps(l, caller, SwapOps(site)[k + 1..] + more, d)
      && Unwind(ops, c) == Unwind(SwapOps(site)[k + 1..] + more, d)
      && SwapFrom(c.lists, site, c.listBase, k) == SwapFrom(d.lists, site, c.listBase, k + 1)
  {
    hide SwapAt, SwapOps;
    SwapOpAt(site, k, more);
  }

  lemma {:induction false} RunSwaps(l: Limits, caller: Script, site: Site, k: nat, more: seq<FrameOp>, c: Ctx)
    requires k <= |site.bindings| && BindingsOk(caller, site)
    ensures RunOps(l, caller, SwapOps(site)[k..] + more, c) == RunOps(l, caller, more, c.(lists := SwapFrom(c.lists, site, c.listBase, k)))
    decreases |site.bindings| - k
  {
    if k == |site.bindings| {
      assert SwapOps(site)[k..] + more == more;
      assert c.(lists := c.lists) == c;
    } else {
      hide RunOps, SwapFrom, SwapOps, SwapAt, Unwind;
      SwapsOne(l, caller, site, k, more, c);
      RunSwaps(l, caller, site, k + 1, more, c.(lists := SwapAt(c.lists, SubAt(site, |c.lists|, k), CallerAt(site, c.listBase, k))));
    }
  }

  lemma {:induction false} UnwindSwaps(caller: Script, site: Site, k: nat, more: seq<FrameOp>, c: Ctx)
    requires k <= |site.bindings| && BindingsOk(caller, site)
    ensures Unwind(SwapOps(site)[k..] + more, c) == Unwind(more, c.(lists := SwapFrom(c.lists, site, c.listBase, k)))
    decreases |site.bindings| - k
  {
    if k == |site.bindings| {
      assert SwapOps(site)[k..] + more == more;
      assert c.(lists := c.lists) == c;
    } else {
      hide RunOps, SwapFrom, SwapOps, SwapAt, Unwind;
      SwapsOne(Limits(0, 0), caller, site, k, more, c);
      UnwindSwaps(caller, site, k + 1, more, c.(lists := SwapAt(c.lists, SubAt(site, |c.lists|, k), CallerAt(site, c.listBase, k))));
    }
  }

  /** The write-backs from the k-th on. */
  function WriteFrom(caller: Script, c: Ctx, site: Site, k: nat): Ctx
    requires k <= |site.writes|
    decreases |site.writes| - k
  {
    if k == |site.writes| then c else WriteFrom(caller, WriteSlot(caller, c, site.writes[k]), site, k + 1)
  }

  lemma {:induction false} RunWrites(l: Limits, caller: Script, site: Site, k: nat, more: seq<FrameOp>, c: Ctx)
    requires k <= |site.writes|
    ensures RunOps(l, caller, WriteOps(site)[k..] + more, c) == RunOps(l, caller, more, WriteFrom(caller, c, site, k))
    decreases |site.writes| - k
  {
    var ops := WriteOps(site)[k..] + more;
    if k == |site.writes| {
      assert ops == more;
    } else {
      assert ops[0] == WriteBack(site.writes[k]) && ops[1..] == WriteOps(site)[k + 1..] + more;
      RunWrites(l, caller, site, k + 1, more, WriteSlot(caller, c, site.writes[k]));
    }
  }

  lemma {:induction false} UnwindWrites(site: Site, k: nat, more: seq<FrameOp>, c: Ctx)
    requires k <= |site.writes|
    ensures Unwind(WriteOps(site)[k..] + more, c) == Unwind(more, c)
    decreases |site.writes| - k
  {
    var ops := WriteOps(site)[k..] + more;
    if k == |site.writes| {
      assert ops == more;
    } else {
      assert ops[0] == WriteBack(site.writes[k]) && ops[1..] == WriteOps(site)[k + 1..] + more;
      UnwindWrites(site, k + 1, more, c);
    }
  }

  /** The lists when the callee has been left and its frame dropped. */
  function ListsBack(site: Site, base: nat, lists: seq<seq<Value>>): seq<seq<Value>>
    requires site.sub.lists <= |lists|
  {
    SwapFrom(lists, site, base, 0)[..|lists| - site.sub.lists]
  }

  /** The lists the callee starts on. */
  function ListsGiven(site: Site, base: nat, lists: seq<seq<Value>>): seq<seq<Value>> {
    SwapFrom(lists + Empties(site.sub.lists), site, base, 0)
  }

  lemma LeaveEnds(l: Limits, caller: Script, site: Site, c: Ctx)
    requires site.sub.lists <= |c.lists|
    ensures var ops := if site.sub.lists > 0 then [Leave(site.sub.lists)] else [];
      RunOps(l, caller, ops, c) == Ended(LeaveLists(c, site.sub.lists)) && Unwind(ops, c) == LeaveLists(c, site.sub.lists)
  {
    var ops := if site.sub.lists > 0 then [Leave(site.sub.lists)] else [];
    if site.sub.lists > 0 { assert ops[1..] == []; }
    else { assert c.lists[..|c.lists| - 0] == c.lists; assert c.(lists := c.lists) == c; }
  }

  lemma RunBehind(l: Limits, caller: Script, site: Site, c: Ctx)
    requires BindingsOk(caller, site) && site.sub.lists <= |c.lists|
    ensures var d := WriteFrom(caller, c, site, 0);
      |d.lists| == |c.lists| && RunOps(l, caller, Behind(site), c) == Ended(d.(lists := ListsBack(site, d.listBase, d.lists)))
  {
    hide RunOps, WriteOps, SwapOps;
    var leave := if site.sub.lists > 0 then [Leave(site.sub.lists)] else [];
    var d := WriteFrom(caller, c, site, 0);
    WritesOnly(caller, c, site, 0);
    assert Behind(site) == WriteOps(site)[0..] + (SwapOps(site)[0..] + leave);
    RunWrites(l, caller, site, 0, SwapOps(site)[0..] + leave, c);
    RunSwaps(l, caller, site, 0, leave, d);
    LeaveEnds(l, caller, site, d.(lists := SwapFrom(d.lists, site, d.listBase, 0)));
  }

  lemma UnwindBehind(caller: Script, site: Site, c: Ctx)
    requires BindingsOk(caller, site) && site.sub.lists <= |c.lists|
    ensures Unwind(Behind(site), c) == c.(lists := ListsBack(site, c.listBase, c.lists))
  {
    hide Unwind, WriteOps, SwapOps;
    var leave := if site.sub.lists > 0 then [Leave(site.sub.lists)] else [];
    assert Behind(site) == WriteOps(site)[0..] + (SwapOps(site)[0..] + leave);
    UnwindWrites(site, 0, SwapOps(site)[0..] + leave, c);
    UnwindSwaps(caller, site, 0, leave, c);
    LeaveEnds(Limits(0, 0), caller, site, c.(lists := SwapFrom(c.lists, site, c.listBase, 0)));
  }

  lemma RunBefore(l: Limits, caller: Script, site: Site, c: Ctx)
    requires BindingsOk(caller, site) && |c.lists| + site.sub.lists <= l.lists
    ensures RunOps(l, caller, Before(site), c) == Ended(c.(lists := ListsGiven(site, c.listBase, c.lists)))
  {
    hide SwapOps;
    var n := site.sub.lists;
    var d := c.(lists := c.lists + Empties(n));
    assert SwapOps(site)[0..] + [] == SwapOps(site);
    RunSwaps(l, caller, site, 0, [], d);
    if n > 0 {
      assert Before(site)[0] == Enter(n) && Before(site)[1..] == SwapOps(site);
    } else {
      assert Before(site) == SwapOps(site);
      assert c.lists + Empties(0) == c.lists && d == c;
    }
  }

  /** Write-backs change nothing but the caller's own arguments and saved values. */
  lemma {:induction false} WritesOnly(caller: Script, c: Ctx, site: Site, k: nat)
    requires k <= |site.writes|
    ensures var d := WriteFrom(caller, c, site, k);
      && d == c.(args := d.args, saved := d.saved) && |d.args| == |c.args| && |d.saved| == |c.saved|
    decreases |site.writes| - k
  {
    if k < |site.writes| { WritesOnly(caller, WriteSlot(caller, c, site.writes[k]), site, k + 1); }
  }
}
