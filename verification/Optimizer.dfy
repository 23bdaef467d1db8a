/**
  The peephole over the compiled command stream: it drops dead context pushes and
  fall-through jumps, fuses runs of erases, threads jump chains, then compacts the
  array and renumbers every command index stored in it.

  The pass is given twice: as the functions that say what each phase computes, and
  as the method `OptimizeCommands` (OptimizeCommands.dfy), in place, the way the compiler
  does. Peephole.dfy proves what the functions promise.
*/
module Optimizer {
  import opened Machine

  /** Which part of an argument holds a command index. */
  datatype Half = Whole | Low | High

  /** A place where a command index is stored, recorded by the code generator as it writes it. */
  datatype Field = Field(cmd: nat, base: Option<nat>, half: Half, zeroIsAbsent: bool)

  datatype DeadPush = DeadPush(cmd: nat, unwind: nat, slot: int)

  /** The command range a description node covers, and the slot of its scope (-1: none). */
  datatype Description = Description(start: nat, index: nat, end: nat, scope: int)

  datatype Location = Location(line: nat, column: nat)

  /** Everything the pass reads and writes. */
  datatype Stream = Stream(
    cmds: seq<Command>,
    locs: seq<Location>,
    descs: seq<Description>,
    fields: seq<Field>,
    slots: seq<nat>,
    pushes: seq<DeadPush>)

  function Stored(arg: int, half: Half): int {
    match half
    case Whole => arg
    case Low => LowHalf(arg)
    case High => HighHalf(arg)
  }

  function BaseOf(f: Field): nat { if f.base.None? then 0 else f.base.value }

  /** The command a recorded field points at; none when the field says "no such section". */
  function ReadField(cmds: seq<Command>, f: Field): (r: Option<nat>)
    ensures r.Some? ==> r.value <= |cmds|
  {
    if f.cmd >= |cmds| then None
    else
      var stored := Stored(cmds[f.cmd].arg, f.half);
      var target := stored + BaseOf(f);
      if f.zeroIsAbsent && stored == 0 then None
      else if target < 0 || target > |cmds| then None
      else Some(target)
  }

  /** Commands that carry data, commands something can enter at, commands a description samples. */
  datatype Flags = Flags(data: seq<bool>, entry: seq<bool>, observed: seq<bool>)

  ghost predicate IsEntry(x: Stream, j: nat) {
    || j == 0
    || j == |x.cmds|
    || (exists f :: f in x.fields && ReadField(x.cmds, f) == Some(j))
    || (exists slot: nat :: slot in x.slots && j == slot + 1)
  }

  ghost predicate IsObserved(descs: seq<Description>, i: nat) {
    exists d :: d in descs && (d.start == i || d.index == i)
  }

  ghost function FlagsOf(x: Stream): (f: Flags)
    ensures |f.data| == |f.observed| == |x.cmds| && |f.entry| == |x.cmds| + 1
  {
    Flags(seq(|x.cmds|, i requires 0 <= i => i in x.slots),
          seq(|x.cmds| + 1, i requires 0 <= i => IsEntry(x, i)),
          seq(|x.cmds|, i requires 0 <= i => IsObserved(x.descs, i)))
  }

  predicate Fits(f: Flags, n: nat) {
    |f.data| == |f.observed| == n && |f.entry| == n + 1
  }

  // --- a context push nothing reads -------------------------------------------------

  predicate Entered(f: Flags, first: nat, last: nat) {
    exists i :: first < i <= last < |f.entry| && f.entry[i]
  }

  predicate Droppable(cmds: seq<Command>, f: Flags, p: DeadPush, keep: seq<bool>)
    requires |keep| == |cmds| && Fits(f, |cmds|)
  {
    && p.cmd < p.unwind < |cmds|
    && keep[p.cmd] && keep[p.unwind]
    && !f.data[p.unwind] && cmds[p.unwind].op.Erase?
    && !Entered(f, p.cmd, p.unwind)
  }

  function Unscope(p: DeadPush, d: Description): Description {
    if d.scope == p.slot && d.start >= p.cmd && d.index <= p.unwind then d.(scope := -1) else d
  }

  function UnscopeAll(p: DeadPush, descs: seq<Description>): seq<Description> {
    seq(|descs|, i requires 0 <= i < |descs| => Unscope(p, descs[i]))
  }

  datatype Marked = Marked(keep: seq<bool>, descs: seq<Description>)

  function DropPushes(cmds: seq<Command>, f: Flags, pushes: seq<DeadPush>, k: nat, m: Marked): (r: Marked)
    requires |m.keep| == |cmds| && Fits(f, |cmds|) && k <= |pushes|
    ensures |r.keep| == |cmds|
    decreases |pushes| - k
  {
    if k == |pushes| then m
    else
      var p := pushes[k];
      if Droppable(cmds, f, p, m.keep) then
        DropPushes(cmds, f, pushes, k + 1, Marked(m.keep[p.cmd := false][p.unwind := false], UnscopeAll(p, m.descs)))
      else DropPushes(cmds, f, pushes, k + 1, m)
  }

  // --- runs of erases ---------------------------------------------------------------

  predicate IsErase(cmds: seq<Command>, f: Flags, i: nat)
    requires i < |cmds| && Fits(f, |cmds|)
  {
    !f.data[i] && cmds[i].op.Erase?
  }

  /** One past the run of single erases that continues at `j`. */
  function RunEnd(cmds: seq<Command>, f: Flags, keep: seq<bool>, j: nat): (end: nat)
    requires |keep| == |cmds| && Fits(f, |cmds|) && j <= |cmds|
    ensures j <= end <= |cmds|
    decreases |cmds| - j
  {
    if j < |cmds| && keep[j] && !f.entry[j] && !f.observed[j] && IsErase(cmds, f, j) then RunEnd(cmds, f, keep, j + 1) else j
  }

  function RunArg(first: int, descending: bool, k: nat): int { if descending then first - k else first }

  /** How many commands of the run, from `i + fused` on, erase contiguous slots. */
  function FusedCount(cmds: seq<Command>, i: nat, end: nat, descending: bool, fused: nat): (n: nat)
    requires i + fused <= end <= |cmds| && i < end
    ensures fused <= n && i + n <= end
    decreases end - fused
  {
    if i + fused < end && cmds[i + fused].arg == RunArg(cmds[i].arg, descending, fused)
    then FusedCount(cmds, i, end, descending, fused + 1) else fused
  }

  datatype Fusion = Fusion(count: nat, lowest: int)

  /** The run at `i` and the range it erases. */
  function FusionAt(cmds: seq<Command>, f: Flags, keep: seq<bool>, i: nat): (r: Fusion)
    requires |keep| == |cmds| && Fits(f, |cmds|) && i < |cmds|
    ensures 1 <= r.count && i + r.count <= |cmds|
  {
    var end := RunEnd(cmds, f, keep, i + 1);
    var descending := end > i + 1 && cmds[i + 1].arg == cmds[i].arg - 1;
    var n := FusedCount(cmds, i, end, descending, 1);
    Fusion(n, if descending then cmds[i].arg - n + 1 else cmds[i].arg)
  }

  predicate Fusable(r: Fusion) {
    r.count > 1 && 0 <= r.lowest <= INT32_MAX && r.count <= INT32_MAX
  }

  function Clear(keep: seq<bool>, from: nat, to: nat): (r: seq<bool>)
    requires from <= to <= |keep|
    ensures |r| == |keep|
  {
    seq(|keep|, i requires 0 <= i < |keep| => keep[i] && !(from <= i < to))
  }

  datatype Peeped = Peeped(cmds: seq<Command>, keep: seq<bool>)

  function FuseErases(f: Flags, i: nat, x: Peeped): (r: Peeped)
    requires |x.keep| == |x.cmds| && Fits(f, |x.cmds|) && i <= |x.cmds|
    ensures |r.keep| == |r.cmds| == |x.cmds|
    decreases |x.cmds| - i
  {
    if i == |x.cmds| then x
    else if !x.keep[i] || f.observed[i] || !IsErase(x.cmds, f, i) then FuseErases(f, i + 1, x)
    else
      var r := FusionAt(x.cmds, f, x.keep, i);
      if Fusable(r) then
        FuseErases(f, i + r.count, Peeped(x.cmds[i := Command(EraseRange, Pack2(r.lowest, r.count))], Clear(x.keep, i + 1, i + r.count)))
      else FuseErases(f, i + r.count, x)
  }

  // --- jumps that fall through ------------------------------------------------------

  function NextKept(keep: seq<bool>, j: nat): (k: nat)
    requires j <= |keep|
    ensures j <= k <= |keep| && (k < |keep| ==> keep[k]) && forall i :: j <= i < k ==> !keep[i]
    decreases |keep| - j
  {
    if j == |keep| || keep[j] then j else NextKept(keep, j + 1)
  }

  predicate FallsThrough(cmds: seq<Command>, f: Flags, keep: seq<bool>, i: nat)
    requires |keep| == |cmds| && Fits(f, |cmds|) && i < |cmds|
  {
    keep[i] && !f.data[i] && !f.observed[i] && cmds[i].op.Jump? && cmds[i].arg == NextKept(keep, i + 1)
  }

  function DropJumps(cmds: seq<Command>, f: Flags, keep: seq<bool>): (r: seq<bool>)
    requires |keep| == |cmds| && Fits(f, |cmds|)
    ensures |r| == |cmds|
  {
    seq(|cmds|, i requires 0 <= i < |cmds| => keep[i] && !FallsThrough(cmds, f, keep, i))
  }

  // --- jump threading ---------------------------------------------------------------

  /** The command a branch to `target` ends at after at most `steps` unconditional jumps. */
  function Follow(cmds: seq<Command>, f: Flags, keep: seq<bool>, target: int, steps: nat): int
    requires |keep| == |cmds| && Fits(f, |cmds|)
    decreases steps
  {
    if steps == 0 || target < 0 || target >= |cmds| then target
    else if !keep[target] || f.data[target] || f.observed[target] || !cmds[target].op.Jump? then target
    else if cmds[target].arg == target then target
    else Follow(cmds, f, keep, cmds[target].arg, steps - 1)
  }

  predicate Threads(cmds: seq<Command>, f: Flags, keep: seq<bool>, field: Field)
    requires |keep| == |cmds| && Fits(f, |cmds|)
  {
    field.half.Whole? && field.base.None? && field.cmd < |cmds| && keep[field.cmd] && !f.data[field.cmd] && IsBranch(cmds[field.cmd].op)
  }

  function ThreadJumps(cmds: seq<Command>, f: Flags, keep: seq<bool>, fields: seq<Field>, k: nat): (r: seq<Command>)
    requires |keep| == |cmds| && Fits(f, |cmds|) && k <= |fields|
    ensures |r| == |cmds|
    decreases |fields| - k
  {
    if k == |fields| then cmds
    else
      var field := fields[k];
      if Threads(cmds, f, keep, field) then
        var target := Follow(cmds, f, keep, cmds[field.cmd].arg, |cmds|);
        ThreadJumps(cmds[field.cmd := Command(cmds[field.cmd].op, target)], f, keep, fields, k + 1)
      else ThreadJumps(cmds, f, keep, fields, k + 1)
  }

  // --- relocation -------------------------------------------------------------------

  /** The number of surviving commands before `i`: the index of the first survivor at or after it. */
  function NextAt(keep: seq<bool>, i: nat): (r: nat)
    requires i <= |keep|
    ensures r <= i
  {
    if i == 0 then 0 else NextAt(keep, i - 1) + (if keep[i - 1] then 1 else 0)
  }

  function Reloc(keep: seq<bool>, i: nat): (r: nat)
    ensures r <= i
  {
    if i <= |keep| then NextAt(keep, i) else i
  }

  /** The index of the last survivor at or before `i`. */
  function RelocLast(keep: seq<bool>, i: nat): nat {
    if i > |keep| then i
    else
      var emitted := if i < |keep| then NextAt(keep, i + 1) else NextAt(keep, i);
      if emitted == 0 then 0 else emitted - 1
  }

  /** The elements of the first `n` whose flag is set. */
  function Survivors<T>(s: seq<T>, keep: seq<bool>, n: nat): seq<T>
    requires n <= |keep|
  {
    if n == 0 then [] else Survivors(s, keep, n - 1) + (if keep[n - 1] && n - 1 < |s| then [s[n - 1]] else [])
  }

  function RelocBase(keep: seq<bool>, base: Option<nat>): Option<nat> {
    if base.None? then None else Some(Reloc(keep, base.value))
  }

  function WriteHalf(arg: int, half: Half, stored: int): int {
    match half
    case Whole => stored
    case Low => Pack2(stored, HighHalf(arg))
    case High => Pack2(LowHalf(arg), stored)
  }

  predicate FieldSurvives(keep: seq<bool>, f: Field) { f.cmd < |keep| && keep[f.cmd] }

  function RelocField(keep: seq<bool>, f: Field): Field {
    f.(cmd := Reloc(keep, f.cmd), base := RelocBase(keep, f.base))
  }

  /** Writes the relocated targets of the fields from `k` on into the compacted commands. */
  function PatchFields(cmds: seq<Command>, old_: seq<Command>, keep: seq<bool>, fields: seq<Field>, k: nat): (r: seq<Command>)
    requires |keep| == |old_| && |cmds| == NextAt(keep, |keep|) && k <= |fields|
    ensures |r| == |cmds|
    decreases |fields| - k
  {
    if k == |fields| then cmds
    else
      var f := fields[k];
      var target := ReadField(old_, f);
      if !FieldSurvives(keep, f) || target.None? then PatchFields(cmds, old_, keep, fields, k + 1)
      else
        var slot := Reloc(keep, f.cmd);
        NextAtStrict(keep, f.cmd, |keep|);
        var stored := Reloc(keep, target.value) - BaseOf(RelocField(keep, f));
        PatchFields(cmds[slot := Command(cmds[slot].op, WriteHalf(cmds[slot].arg, f.half, stored))], old_, keep, fields, k + 1)
  }

  lemma NextAtStrict(keep: seq<bool>, i: nat, j: nat)
    requires i < j <= |keep|
    ensures NextAt(keep, i) + (if keep[i] then 1 else 0) <= NextAt(keep, j)
  {
    if i < j - 1 { NextAtStrict(keep, i, j - 1); }
  }

  function RelocFields(keep: seq<bool>, fields: seq<Field>, k: nat): seq<Field>
    requires k <= |fields|
  {
    if k == 0 then []
    else RelocFields(keep, fields, k - 1) + (if FieldSurvives(keep, fields[k - 1]) then [RelocField(keep, fields[k - 1])] else [])
  }

  function RelocSlots(keep: seq<bool>, slots: seq<nat>, k: nat): seq<nat>
    requires k <= |slots|
  {
    if k == 0 then []
    else RelocSlots(keep, slots, k - 1) + (if slots[k - 1] < |keep| && keep[slots[k - 1]] then [Reloc(keep, slots[k - 1])] else [])
  }

  function RelocPush(keep: seq<bool>, p: DeadPush): DeadPush {
    p.(cmd := Reloc(keep, p.cmd), unwind := Reloc(keep, p.unwind))
  }

  function RelocPushes(keep: seq<bool>, pushes: seq<DeadPush>, k: nat): seq<DeadPush>
    requires k <= |pushes|
  {
    if k == 0 then []
    else RelocPushes(keep, pushes, k - 1) + (if pushes[k - 1].cmd < |keep| && keep[pushes[k - 1].cmd] then [RelocPush(keep, pushes[k - 1])] else [])
  }

  function RelocDescription(keep: seq<bool>, d: Description): Description {
    d.(start := Reloc(keep, d.start), index := RelocLast(keep, d.index), end := Reloc(keep, d.end))
  }

  function RelocDescriptions(keep: seq<bool>, descs: seq<Description>): seq<Description> {
    seq(|descs|, i requires 0 <= i < |descs| => RelocDescription(keep, descs[i]))
  }

  lemma SurvivorsLength<T>(s: seq<T>, keep: seq<bool>, n: nat)
    requires n <= |keep| && n <= |s|
    ensures |Survivors(s, keep, n)| == NextAt(keep, n)
  {}

  function Compact(x: Stream, keep: seq<bool>): Stream
    requires |keep| == |x.cmds|
  {
    SurvivorsLength(x.cmds, keep, |keep|);
    Stream(PatchFields(Survivors(x.cmds, keep, |keep|), x.cmds, keep, x.fields, 0),
           Survivors(x.locs, keep, |keep|),
           RelocDescriptions(keep, x.descs),
           RelocFields(keep, x.fields, |x.fields|),
           RelocSlots(keep, x.slots, |x.slots|),
           RelocPushes(keep, x.pushes, |x.pushes|))
  }

  // --- the whole pass ---------------------------------------------------------------

  function AllKept(n: nat): (r: seq<bool>)
    ensures |r| == n
  {
    seq(n, _ => true)
  }

  /** What the transforms decide before anything moves: rewritten commands and survival flags. */
  ghost function Decide(x: Stream): (r: (Peeped, seq<Description>))
    ensures |r.0.keep| == |r.0.cmds| == |x.cmds|
  {
    var f := FlagsOf(x);
    var dead := DropPushes(x.cmds, f, x.pushes, 0, Marked(AllKept(|x.cmds|), x.descs));
    var fused := FuseErases(f, 0, Peeped(x.cmds, dead.keep));
    var keep := DropJumps(fused.cmds, f, fused.keep);
    (Peeped(ThreadJumps(fused.cmds, f, keep, x.fields, 0), keep), dead.descs)
  }

  ghost function Optimize(x: Stream): Stream {
    var (d, descs) := Decide(x);
    var y := x.(cmds := d.cmds, descs := descs);
    if NextAt(d.keep, |d.keep|) == |x.cmds| then y else Compact(y, d.keep)
  }
}
