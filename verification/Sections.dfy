/**
  Where the callback sections of iterators and list pipelines lie, from the data slots behind
  the opcode, and where the run goes on.
*/
module Sections {
  import opened Machine

  /** The k-th data slot of an iterator holds the end of its section, or 0 where there is none. */
  predicate Present(cmds: seq<Command>, pc: nat, n: nat, k: int)
    requires pc + n < |cmds|
  {
    0 <= k < n && cmds[pc + 1 + k].arg != 0
  }

  /** The last section before the k-th, if any. */
  predicate LastBefore(cmds: seq<Command>, pc: nat, n: nat, k: nat, last: Option<nat>)
    requires pc + n < |cmds| && k <= n
  {
    match last
    case None => forall i :: 0 <= i < k ==> !Present(cmds, pc, n, i)
    case Some(j) => j < k && Present(cmds, pc, n, j) && forall i :: j < i < k ==> !Present(cmds, pc, n, i)
  }

  /** Behind the data slots, or where the last section ends. */
  function Behind(cmds: seq<Command>, pc: nat, n: nat, last: Option<nat>): int
    requires pc + n < |cmds| && (last.Some? ==> last.value < n)
  {
    if last == None then pc + 1 + n else cmds[pc + 1 + last.value].arg
  }

  lemma {:induction false} StartIs(cmds: seq<Command>, pc: nat, n: nat, k: nat, last: Option<nat>)
    requires pc + n < |cmds| && k <= n && LastBefore(cmds, pc, n, k, last)
    ensures SectionStart(cmds, pc, n, k) == Behind(cmds, pc, n, last)
    decreases k
  {
    if k > 0 {
      assert last != Some(k - 1) ==> !Present(cmds, pc, n, k - 1);
      if last != Some(k - 1) { StartIs(cmds, pc, n, k - 1, last); }
    }
  }

  /** The sections of an iterator follow one another behind its data slots, and the run goes on behind the last. */
  lemma IteratorSections(cmds: seq<Command>, pc: nat, id: nat, n: nat, k: nat, last: Option<nat>)
    requires pc + n < |cmds| && cmds[pc].op == Iterator(id, n) && k <= n && LastBefore(cmds, pc, n, k, last)
    ensures k < n ==> SectionOf(cmds, pc, k) == if Present(cmds, pc, n, k) then Some(Section(Behind(cmds, pc, n, last), cmds[pc + 1 + k].arg)) else None
    ensures k == n ==> ResumeOf(cmds, pc) == Behind(cmds, pc, n, last) && forall j: nat :: j >= n ==> SectionOf(cmds, pc, j) == None
  {
    StartIs(cmds, pc, n, k, last);
  }

  /** A list pipeline counts from itself: its value section, its default section up to where the run goes on, and the type of its items. */
  lemma PipelineSections(cmds: seq<Command>, pc: nat, value: int, valueEnd: int, default: int, end: int, kind: int, list: int)
    requires pc + 3 < |cmds| && cmds[pc] == Command(Pipeline, Pack2(kind, list)) && FitsInt32(value) && FitsInt32(default) && FitsInt32(kind)
    requires cmds[pc + 1].arg == Pack2(value, valueEnd) && cmds[pc + 2].arg == Pack2(default, end)
    ensures SectionOf(cmds, pc, 0) == if value == 0 then None else Some(Section(pc + value, pc + valueEnd))
    ensures SectionOf(cmds, pc, 1) == if default == 0 then None else Some(Section(pc + default, pc + end))
    ensures ResumeOf(cmds, pc) == pc + end && AuxOf(cmds, pc) == cmds[pc + 3].arg && LowHalf(cmds[pc].arg) == kind && HighHalf(cmds[pc].arg) == list
  {
    Unpack2(value, valueEnd);
    Unpack2(default, end);
    Unpack2(kind, list);
    hide LowHalf, HighHalf, Pack2;
  }
}
