/**
  The peephole as the compiler runs it: flag arrays, commands rewritten in place, then
  the container's vectors and the parse context's tables rebuilt. `OptimizeCommands`
  computes exactly `Optimizer.Optimize`.
*/
module OptimizeInPlace {
  import opened Machine
  import opened Optimizer

  /** The tables the code generator fills while it emits commands. */
  class ParseTables {
    var fields: seq<Field>
    var slots: seq<nat>
    var pushes: seq<DeadPush>
    const optimize: bool

    constructor (optimize: bool)
      ensures fields == [] && slots == [] && pushes == [] && this.optimize == optimize
    {
      fields, slots, pushes := [], [], [];
      this.optimize := optimize;
    }

    method RecordDataSlots(first: nat, count: nat)
      modifies this`slots
      ensures slots == if optimize then old(slots) + seq(count, i requires 0 <= i => first + i) else old(slots)
    {
      if optimize {
        var i := 0;
        while i < count
          invariant i <= count && slots == old(slots) + seq(i, k requires 0 <= k => first + k)
        {
          slots := slots + [first + i];
          i := i + 1;
        }
      }
    }
  }

  class Container {
    var cmds: seq<Command>
    var locs: seq<Location>
    var descs: seq<Description>

    constructor ()
      ensures cmds == [] && locs == [] && descs == []
    {
      cmds, locs, descs := [], [], [];
    }
  }

  ghost function View(t: ParseTables, c: Container): Stream
    reads t, c
  {
    Stream(c.cmds, c.locs, c.descs, t.fields, t.slots, t.pushes)
  }

  // --- flags ------------------------------------------------------------------------------

  method MarkData(count: nat, slots: seq<nat>) returns (isData: array<bool>)
    ensures fresh(isData) && isData.Length == count
    ensures forall i: nat :: i < count ==> isData[i] == (i in slots)
  {
    isData := new bool[count](_ => false);
    for k := 0 to |slots|
      invariant forall i: nat :: i < count ==> isData[i] == (i in slots[..k])
    {
      if slots[k] < count { isData[slots[k]] := true; }
    }
  }

  ghost predicate Named(cmds: seq<Command>, fields: seq<Field>, n: nat, j: nat)
    requires n <= |fields|
  {
    exists k :: 0 <= k < n && ReadField(cmds, fields[k]) == Some(j)
  }

  ghost predicate Behind(slots: seq<nat>, n: nat, j: nat)
    requires n <= |slots|
  {
    exists k :: 0 <= k < n && slots[k] + 1 == j
  }

  lemma EntriesNamed(x: Stream, j: nat)
    ensures IsEntry(x, j) <==> (j == 0 || j == |x.cmds| || Named(x.cmds, x.fields, |x.fields|, j) || Behind(x.slots, |x.slots|, j))
  {
    if k :| 0 <= k < |x.fields| && ReadField(x.cmds, x.fields[k]) == Some(j) { assert x.fields[k] in x.fields; }
    if k :| 0 <= k < |x.slots| && x.slots[k] + 1 == j { assert x.slots[k] in x.slots; }
  }

  method MarkEntries(cmds: seq<Command>, fields: seq<Field>, slots: seq<nat>) returns (isEntry: array<bool>)
    ensures fresh(isEntry) && isEntry.Length == |cmds| + 1
    ensures forall j: nat :: j <= |cmds| ==> isEntry[j] == (j == 0 || j == |cmds| || Named(cmds, fields, |fields|, j) || Behind(slots, |slots|, j))
  {
    isEntry := new bool[|cmds| + 1](_ => false);
    isEntry[0] := true;
    isEntry[|cmds|] := true;
    for k := 0 to |fields|
      invariant forall j: nat :: j <= |cmds| ==> isEntry[j] == (j == 0 || j == |cmds| || Named(cmds, fields, k, j))
    {
      var target := ReadField(cmds, fields[k]);
      if target.Some? { isEntry[target.value] := true; }
    }
    for k := 0 to |slots|
      invariant forall j: nat :: j <= |cmds| ==> isEntry[j] == (j == 0 || j == |cmds| || Named(cmds, fields, |fields|, j) || Behind(slots, k, j))
    {
      if slots[k] + 1 <= |cmds| { isEntry[slots[k] + 1] := true; }
    }
  }

  method MarkObserved(count: nat, descs: seq<Description>) returns (isObserved: array<bool>)
    ensures fresh(isObserved) && isObserved.Length == count
    ensures forall i: nat :: i < count ==> isObserved[i] == IsObserved(descs, i)
  {
    isObserved := new bool[count](_ => false);
    for k := 0 to |descs|
      invariant forall i: nat :: i < count ==> isObserved[i] == IsObserved(descs[..k], i)
    {
      assert descs[..k + 1] == descs[..k] + [descs[k]];
      if descs[k].start < count { isObserved[descs[k].start] := true; }
      if descs[k].index < count { isObserved[descs[k].index] := true; }
    }
    assert descs[..|descs|] == descs;
  }

  // --- transforms -------------------------------------------------------------------------

  ghost predicate HoldsFlags(f: Flags, isData: array<bool>, isEntry: array<bool>, isObserved: array<bool>)
    reads isData, isEntry, isObserved
  {
    isData[..] == f.data && isEntry[..] == f.entry && isObserved[..] == f.observed
  }

  method DropDeadPushes(c: Container, pushes: seq<DeadPush>, isData: array<bool>, isEntry: array<bool>, isObserved: array<bool>,
                        keep: array<bool>, ghost f: Flags)
    requires Fits(f, |c.cmds|) && HoldsFlags(f, isData, isEntry, isObserved) && keep.Length == |c.cmds|
    requires keep != isData && keep != isEntry && keep != isObserved
    modifies keep, c`descs
    ensures Marked(keep[..], c.descs) == DropPushes(c.cmds, f, pushes, 0, Marked(old(keep[..]), old(c.descs)))
  {
    for k := 0 to |pushes|
      invariant HoldsFlags(f, isData, isEntry, isObserved)
      invariant DropPushes(c.cmds, f, pushes, k, Marked(keep[..], c.descs)) == DropPushes(c.cmds, f, pushes, 0, Marked(old(keep[..]), old(c.descs)))
    {
      var p := pushes[k];
      if p.unwind < |c.cmds| && p.unwind > p.cmd && keep[p.cmd] && keep[p.unwind] && !isData[p.unwind] && c.cmds[p.unwind].op.Erase? {
        var entered := false;
        var i := p.cmd + 1;
        while i <= p.unwind && !entered
          invariant p.cmd < i <= p.unwind + 1
          invariant entered <==> exists j: nat :: p.cmd < j < i && isEntry[j]
        {
          entered := isEntry[i];
          i := i + 1;
        }
        assert entered <==> Entered(f, p.cmd, p.unwind) by {
          assert forall j: nat :: j < isEntry.Length ==> isEntry[j] == f.entry[j];
        }
        if !entered {
          ghost var before := keep[..];
          keep[p.cmd] := false;
          keep[p.unwind] := false;
          assert keep[..] == before[p.cmd := false][p.unwind := false];
          UnscopeDescriptions(c, p);
        }
      }
    }
  }

  method UnscopeDescriptions(c: Container, p: DeadPush)
    modifies c`descs
    ensures c.descs == UnscopeAll(p, old(c.descs))
  {
    var i := 0;
    while i < |c.descs|
      invariant i <= |c.descs| == |old(c.descs)|
      invariant forall k :: 0 <= k < i ==> c.descs[k] == Unscope(p, old(c.descs)[k])
      invariant forall k :: i <= k < |c.descs| ==> c.descs[k] == old(c.descs)[k]
    {
      var d := c.descs[i];
      if d.scope == p.slot && !(d.start < p.cmd || d.index > p.unwind) {
        c.descs := c.descs[i := d.(scope := -1)];
      }
      i := i + 1;
    }
  }

  method FindRunEnd(cmds: seq<Command>, isData: array<bool>, isEntry: array<bool>, isObserved: array<bool>, keep: array<bool>, ghost f: Flags, i: nat)
    returns (end: nat)
    requires Fits(f, |cmds|) && HoldsFlags(f, isData, isEntry, isObserved) && keep.Length == |cmds| && i <= |cmds|
    ensures end == RunEnd(cmds, f, keep[..], i)
  {
    end := i;
    assert isData[..] == f.data && isEntry[..] == f.entry && isObserved[..] == f.observed;
    while end < |cmds| && keep[end] && !isEntry[end] && !isObserved[end] && !isData[end] && cmds[end].op.Erase?
      invariant i <= end <= |cmds|
      invariant RunEnd(cmds, f, keep[..], end) == RunEnd(cmds, f, keep[..], i)
    {
      end := end + 1;
    }
  }

  method CountFused(cmds: seq<Command>, i: nat, end: nat, descending: bool) returns (fused: nat)
    requires i < end <= |cmds|
    ensures fused == FusedCount(cmds, i, end, descending, 1)
  {
    fused := 1;
    while i + fused < end && cmds[i + fused].arg == (if descending then cmds[i].arg - fused else cmds[i].arg)
      invariant 1 <= fused && i + fused <= end
      invariant FusedCount(cmds, i, end, descending, fused) == FusedCount(cmds, i, end, descending, 1)
      decreases end - fused
    {
      fused := fused + 1;
    }
  }

  method ClearRange(keep: array<bool>, from: nat, until: nat)
    requires from <= until <= keep.Length
    modifies keep
    ensures keep[..] == Clear(old(keep[..]), from, until)
  {
    var j := from;
    while j < until
      invariant from <= j <= until
      invariant keep[..] == Clear(old(keep[..]), from, j)
    {
      keep[j] := false;
      j := j + 1;
    }
  }

  /** One turn of the fusing loop: where it goes on, and with what. */
  lemma FuseTurn(f: Flags, i: nat, x: Peeped)
    requires |x.keep| == |x.cmds| && Fits(f, |x.cmds|) && i < |x.cmds|
    ensures !x.keep[i] || f.observed[i] || f.data[i] || !x.cmds[i].op.Erase? ==> FuseErases(f, i, x) == FuseErases(f, i + 1, x)
    ensures x.keep[i] && !f.observed[i] && !f.data[i] && x.cmds[i].op.Erase? ==>
      var r := FusionAt(x.cmds, f, x.keep, i);
      FuseErases(f, i, x) == FuseErases(f, i + r.count, if Fusable(r)
        then Peeped(x.cmds[i := Command(EraseRange, Pack2(r.lowest, r.count))], Clear(x.keep, i + 1, i + r.count)) else x)
  {
    hide RunEnd, FusedCount, Clear;
  }

  method FuseRuns(c: Container, isData: array<bool>, isEntry: array<bool>, isObserved: array<bool>, keep: array<bool>, ghost f: Flags)
    requires Fits(f, |c.cmds|) && HoldsFlags(f, isData, isEntry, isObserved) && keep.Length == |c.cmds|
    requires keep != isData && keep != isEntry && keep != isObserved
    modifies keep, c`cmds
    ensures Peeped(c.cmds, keep[..]) == FuseErases(f, 0, Peeped(old(c.cmds), old(keep[..])))
  {
    hide RunEnd, FusedCount, Clear, FuseErases, Pack2;
    var i := 0;
    while i < |c.cmds|
      invariant i <= |c.cmds| == keep.Length && Fits(f, |c.cmds|) && HoldsFlags(f, isData, isEntry, isObserved)
      invariant FuseErases(f, i, Peeped(c.cmds, keep[..])) == FuseErases(f, 0, Peeped(old(c.cmds), old(keep[..])))
      decreases |c.cmds| - i
    {
      assert isData[i] == f.data[i] && isObserved[i] == f.observed[i] && keep[i] == keep[..][i];
      FuseTurn(f, i, Peeped(c.cmds, keep[..]));
      if !keep[i] || isObserved[i] || isData[i] || !c.cmds[i].op.Erase? {
        i := i + 1;
      } else {
        var end := FindRunEnd(c.cmds, isData, isEntry, isObserved, keep, f, i + 1);
        var first := c.cmds[i].arg;
        var descending := end > i + 1 && c.cmds[i + 1].arg == first - 1;
        var fused := CountFused(c.cmds, i, end, descending);
        var lowest := if descending then first - fused + 1 else first;
        assert FusionAt(c.cmds, f, keep[..], i) == Fusion(fused, lowest);
        if fused > 1 && lowest >= 0 && lowest <= INT32_MAX && fused <= INT32_MAX {
          c.cmds := c.cmds[i := Command(EraseRange, Pack2(lowest, fused))];
          ClearRange(keep, i + 1, i + fused);
        }
        i := i + fused;
      }
    }
    FuseEnds(f, Peeped(c.cmds, keep[..]));
  }

  lemma FuseEnds(f: Flags, x: Peeped)
    requires |x.keep| == |x.cmds| && Fits(f, |x.cmds|)
    ensures FuseErases(f, |x.cmds|, x) == x
  {}

  method DropFallThroughJumps(cmds: seq<Command>, isData: array<bool>, isEntry: array<bool>, isObserved: array<bool>, keep: array<bool>, ghost f: Flags)
    requires Fits(f, |cmds|) && HoldsFlags(f, isData, isEntry, isObserved) && keep.Length == |cmds|
    requires keep != isData && keep != isEntry && keep != isObserved
    modifies keep
    ensures keep[..] == DropJumps(cmds, f, old(keep[..]))
  {
    ghost var before := keep[..];
    for i := 0 to |cmds|
      invariant HoldsFlags(f, isData, isEntry, isObserved)
      invariant forall k :: 0 <= k < i ==> keep[k] == (before[k] && !FallsThrough(cmds, f, before, k))
      invariant forall k :: i <= k < |cmds| ==> keep[k] == before[k]
    {
      assert isData[i] == f.data[i] && isObserved[i] == f.observed[i];
      if keep[i] && !isData[i] && !isObserved[i] && cmds[i].op.Jump? && 0 <= cmds[i].arg <= |cmds| {
        var next := i + 1;
        while next < |cmds| && !keep[next]
          invariant i + 1 <= next <= |cmds|
          invariant NextKept(before, next) == NextKept(before, i + 1)
        {
          next := next + 1;
        }
        if cmds[i].arg == next { keep[i] := false; }
      }
    }
  }

  method ThreadBranches(c: Container, fields: seq<Field>, isData: array<bool>, isEntry: array<bool>, isObserved: array<bool>, keep: array<bool>, ghost f: Flags)
    requires Fits(f, |c.cmds|) && HoldsFlags(f, isData, isEntry, isObserved) && keep.Length == |c.cmds|
    modifies c`cmds
    ensures c.cmds == ThreadJumps(old(c.cmds), f, keep[..], fields, 0)
  {
    for k := 0 to |fields|
      invariant |c.cmds| == |old(c.cmds)| && Fits(f, |c.cmds|)
      invariant ThreadJumps(c.cmds, f, keep[..], fields, k) == ThreadJumps(old(c.cmds), f, keep[..], fields, 0)
    {
      var field := fields[k];
      if field.half.Whole? && field.base.None? && field.cmd < |c.cmds| {
        assert isData[field.cmd] == f.data[field.cmd];
        if keep[field.cmd] && !isData[field.cmd] && IsBranch(c.cmds[field.cmd].op) {
          var target := c.cmds[field.cmd].arg;
          var step := 0;
          var stop := false;
          while step < |c.cmds| && !stop
            invariant step <= |c.cmds|
            invariant Follow(c.cmds, f, keep[..], c.cmds[field.cmd].arg, |c.cmds|) ==
                      if stop then target else Follow(c.cmds, f, keep[..], target, |c.cmds| - step)
            decreases |c.cmds| - step, !stop
          {
            if target < 0 || target >= |c.cmds| {
              stop := true;
            } else {
              assert isData[target] == f.data[target] && isObserved[target] == f.observed[target];
              if !keep[target] || isData[target] || isObserved[target] || !c.cmds[target].op.Jump? || c.cmds[target].arg == target {
                stop := true;
              } else {
                target := c.cmds[target].arg;
                step := step + 1;
              }
            }
          }
          c.cmds := c.cmds[field.cmd := Command(c.cmds[field.cmd].op, target)];
        }
      }
    }
  }

  // --- relocation -------------------------------------------------------------------------

  lemma NextAtStep(keep: seq<bool>, i: nat)
    requires i < |keep|
    ensures NextAt(keep, i + 1) == NextAt(keep, i) + (if keep[i] then 1 else 0)
  {}

  method CountSurvivors(keep: array<bool>) returns (nextAt: array<nat>)
    ensures fresh(nextAt) && nextAt.Length == keep.Length + 1
    ensures forall i: nat :: i <= keep.Length ==> nextAt[i] == NextAt(keep[..], i)
  {
    hide NextAt;
    nextAt := new nat[keep.Length + 1](_ => 0);
    ghost var flags := keep[..];
    var emitted := 0;
    assert NextAt(flags, 0) <= 0;
    for i := 0 to keep.Length
      invariant emitted == NextAt(flags, i) && keep[..] == flags
      invariant forall k: nat :: k < i ==> nextAt[k] == NextAt(flags, k)
    {
      nextAt[i] := emitted;
      NextAtStep(flags, i);
      if keep[i] { emitted := emitted + 1; }
    }
    nextAt[keep.Length] := emitted;
  }

  method MoveSurvivors<T>(s: seq<T>, keep: array<bool>) returns (r: seq<T>)
    ensures r == Survivors(s, keep[..], keep.Length)
  {
    r := [];
    for i := 0 to keep.Length
      invariant r == Survivors(s, keep[..], i)
    {
      if keep[i] && i < |s| { r := r + [s[i]]; }
    }
  }

  method RelocateFields(c: Container, old_: seq<Command>, keep: array<bool>, nextAt: array<nat>, fields: seq<Field>) returns (r: seq<Field>)
    requires keep.Length == |old_| && nextAt.Length == keep.Length + 1
    requires forall i: nat :: i <= keep.Length ==> nextAt[i] == NextAt(keep[..], i)
    requires |c.cmds| == NextAt(keep[..], keep.Length)
    modifies c`cmds
    ensures c.cmds == PatchFields(old(c.cmds), old_, keep[..], fields, 0)
    ensures r == RelocFields(keep[..], fields, |fields|)
  {
    r := [];
    ghost var flags := keep[..];
    for k := 0 to |fields|
      invariant keep[..] == flags && |c.cmds| == NextAt(flags, keep.Length)
      invariant PatchFields(c.cmds, old_, flags, fields, k) == PatchFields(old(c.cmds), old_, flags, fields, 0)
      invariant r == RelocFields(flags, fields, k)
    {
      var field := fields[k];
      if field.cmd < keep.Length && keep[field.cmd] {
        NextAtStrict(flags, field.cmd, keep.Length);
        var slot := nextAt[field.cmd];
        var base := if field.base.None? then None else Some(if field.base.value <= keep.Length then nextAt[field.base.value] else field.base.value);
        var target := ReadField(old_, field);
        if target.Some? {
          var stored := nextAt[target.value] - (if base.None? then 0 else base.value);
          c.cmds := c.cmds[slot := Command(c.cmds[slot].op, WriteHalf(c.cmds[slot].arg, field.half, stored))];
        }
        r := r + [Field(slot, base, field.half, field.zeroIsAbsent)];
      }
    }
  }

  method RelocateSlots(keep: array<bool>, nextAt: array<nat>, slots: seq<nat>) returns (r: seq<nat>)
    requires nextAt.Length == keep.Length + 1
    requires forall i: nat :: i <= keep.Length ==> nextAt[i] == NextAt(keep[..], i)
    ensures r == RelocSlots(keep[..], slots, |slots|)
  {
    r := [];
    for k := 0 to |slots|
      invariant r == RelocSlots(keep[..], slots, k)
    {
      if slots[k] < keep.Length && keep[slots[k]] { r := r + [nextAt[slots[k]]]; }
    }
  }

  method RelocatePushes(keep: array<bool>, nextAt: array<nat>, pushes: seq<DeadPush>) returns (r: seq<DeadPush>)
    requires nextAt.Length == keep.Length + 1
    requires forall i: nat :: i <= keep.Length ==> nextAt[i] == NextAt(keep[..], i)
    ensures r == RelocPushes(keep[..], pushes, |pushes|)
  {
    r := [];
    for k := 0 to |pushes|
      invariant r == RelocPushes(keep[..], pushes, k)
    {
      var p := pushes[k];
      if p.cmd < keep.Length && keep[p.cmd] {
        var unwind := if p.unwind <= keep.Length then nextAt[p.unwind] else p.unwind;
        r := r + [DeadPush(nextAt[p.cmd], unwind, p.slot)];
      }
    }
  }

  method RelocateDescriptions(c: Container, keep: array<bool>, nextAt: array<nat>)
    requires nextAt.Length == keep.Length + 1
    requires forall i: nat :: i <= keep.Length ==> nextAt[i] == NextAt(keep[..], i)
    modifies c`descs
    ensures c.descs == RelocDescriptions(keep[..], old(c.descs))
  {
    var i := 0;
    while i < |c.descs|
      invariant i <= |c.descs| == |old(c.descs)|
      invariant forall k :: 0 <= k < i ==> c.descs[k] == RelocDescription(keep[..], old(c.descs)[k])
      invariant forall k :: i <= k < |c.descs| ==> c.descs[k] == old(c.descs)[k]
    {
      var d := c.descs[i];
      var start := if d.start <= keep.Length then nextAt[d.start] else d.start;
      var end := if d.end <= keep.Length then nextAt[d.end] else d.end;
      var index := d.index;
      if d.index <= keep.Length {
        var emitted := if d.index < keep.Length then nextAt[d.index + 1] else nextAt[d.index];
        index := if emitted == 0 then 0 else emitted - 1;
      }
      c.descs := c.descs[i := Description(start, index, end, d.scope)];
      i := i + 1;
    }
  }

  // --- the whole pass ---------------------------------------------------------------------

  /** The flag arrays hold exactly what the specification computes. */
  method MarkFlags(t: ParseTables, c: Container) returns (isData: array<bool>, isEntry: array<bool>, isObserved: array<bool>)
    ensures fresh(isData) && fresh(isEntry) && fresh(isObserved)
    ensures HoldsFlags(FlagsOf(View(t, c)), isData, isEntry, isObserved)
  {
    ghost var x := View(t, c);
    isData := MarkData(|c.cmds|, t.slots);
    isEntry := MarkEntries(c.cmds, t.fields, t.slots);
    isObserved := MarkObserved(|c.cmds|, c.descs);
    forall j: nat | j <= |c.cmds| ensures isEntry[j] == IsEntry(x, j) { EntriesNamed(x, j); }
    assert isEntry[..] == FlagsOf(x).entry;
  }

  /** The transforms: what they leave in the commands, the flags and the descriptions. */
  method Transform(t: ParseTables, c: Container, ghost x: Stream) returns (keep: array<bool>)
    requires x == View(t, c)
    modifies c`cmds, c`descs
    ensures fresh(keep) && keep.Length == |c.cmds| == |x.cmds|
    ensures Decide(x) == (Peeped(c.cmds, keep[..]), c.descs)
  {
    hide DropPushes, FuseErases, DropJumps, ThreadJumps, FlagsOf, Fits;
    ghost var f := FlagsOf(x);
    assert Fits(f, |c.cmds|) by { FlagsFit(x); }
    var isData, isEntry, isObserved := MarkFlags(t, c);
    keep := new bool[|c.cmds|](_ => true);
    assert keep[..] == AllKept(|c.cmds|);
    DropDeadPushes(c, t.pushes, isData, isEntry, isObserved, keep, f);
    FuseRuns(c, isData, isEntry, isObserved, keep, f);
    DropFallThroughJumps(c.cmds, isData, isEntry, isObserved, keep, f);
    ThreadBranches(c, t.fields, isData, isEntry, isObserved, keep, f);
  }

  lemma FlagsFit(x: Stream)
    ensures Fits(FlagsOf(x), |x.cmds|)
  {}

  /** Compacts the commands and renumbers every index stored in them and in the tables. */
  method Relocate(t: ParseTables, c: Container, keep: array<bool>, nextAt: array<nat>)
    requires keep.Length == |c.cmds| && nextAt.Length == keep.Length + 1
    requires forall i: nat :: i <= keep.Length ==> nextAt[i] == NextAt(keep[..], i)
    modifies t, c
    ensures View(t, c) == Compact(old(View(t, c)), keep[..])
  {
    hide NextAt, Survivors, PatchFields, RelocFields, RelocSlots, RelocPushes, RelocDescriptions;
    ghost var x := View(t, c);
    var before := c.cmds;
    SurvivorsLength(c.cmds, keep[..], keep.Length);
    var cmds := MoveSurvivors(c.cmds, keep);
    var locs := MoveSurvivors(c.locs, keep);
    c.cmds, c.locs := cmds, locs;
    t.fields := RelocateFields(c, before, keep, nextAt, t.fields);
    t.slots := RelocateSlots(keep, nextAt, t.slots);
    t.pushes := RelocatePushes(keep, nextAt, t.pushes);
    RelocateDescriptions(c, keep, nextAt);
    assert |keep[..]| == keep.Length;
  }

  method OptimizeCommands(t: ParseTables, c: Container)
    modifies t, c
    ensures View(t, c) == if t.optimize then Optimize(old(View(t, c))) else old(View(t, c))
  {
    hide Decide, Compact, NextAt;
    if !t.optimize { return; }
    ghost var x := View(t, c);
    var count := |c.cmds|;
    var keep := Transform(t, c, x);
    ghost var (d, descs) := Decide(x);
    assert View(t, c) == x.(cmds := d.cmds, descs := descs);
    var nextAt := CountSurvivors(keep);
    if nextAt[count] == count { return; }
    Relocate(t, c, keep, nextAt);
  }
}
