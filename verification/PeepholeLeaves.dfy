/**
  What the peephole leaves, besides programs that run alike: commands a description samples
  stay, dead pushes go, and no erases that could be fused, no jumps onto the next command and
  no branches onto jumps are left over.
*/
module PeepholeLeaves {
  import opened Machine
  import opened Optimizer
  import opened Transforms
  import opened Peephole

  // --- what a command is to the pass --------------------------------------------------------------

  /** A description starts or ends at the command. */
  ghost predicate Sampled(x: Stream, i: nat) { exists d :: d in x.descs && (d.start == i || d.index == i) }

  /** Control may arrive at the command from somewhere else. */
  ghost predicate Reached(x: Stream, j: nat) {
    j == 0 || j == |x.cmds| || (exists f :: f in x.fields && ReadField(x.cmds, f) == Some(j)) || (exists s: nat :: s in x.slots && j == s + 1)
  }

  /** Neither data nor sampled. */
  ghost predicate Free(x: Stream, i: nat) { i !in x.slots && !Sampled(x, i) }

  lemma FlagsAre(x: Stream)
    ensures var f := FlagsOf(x);
      && Fits(f, |x.cmds|) && (forall i: nat :: i < |x.cmds| ==> (f.observed[i] <==> Sampled(x, i)) && (f.data[i] <==> i in x.slots))
      && (forall j: nat :: j <= |x.cmds| ==> (f.entry[j] <==> Reached(x, j)))
  {}

  function Fused(x: Peeped, f: Flags): (r: Peeped)
    requires |x.keep| == |x.cmds| && Fits(f, |x.cmds|)
    ensures |r.keep| == |r.cmds| == |x.cmds|
  {
    FuseErases(f, 0, x)
  }

  ghost function Dead(x: Stream): (r: Marked)
    ensures |r.keep| == |x.cmds|
  {
    FlagsAre(x);
    DropPushes(x.cmds, FlagsOf(x), x.pushes, 0, Marked(AllKept(|x.cmds|), x.descs))
  }

  /** The phases, one behind the other. */
  lemma Phases(x: Stream)
    ensures var f := FlagsOf(x);
      var y := Fused(Peeped(x.cmds, Dead(x).keep), f);
      Decide(x).0.keep == DropJumps(y.cmds, f, y.keep) && Decide(x).0.cmds == ThreadJumps(y.cmds, f, Decide(x).0.keep, x.fields, 0)
  {
    hide DropPushes, FuseErases, DropJumps, ThreadJumps, FlagsOf;
  }

  // --- pushes -----------------------------------------------------------------------------------------

  predicate Touches(p: DeadPush, i: nat) { p.cmd == i || p.unwind == i }

  lemma {:induction false} PushesSpare(cmds: seq<Command>, f: Flags, pushes: seq<DeadPush>, k: nat, m: Marked, i: nat)
    requires |m.keep| == |cmds| && Fits(f, |cmds|) && k <= |pushes| && i < |cmds| && forall p :: p in pushes ==> !Touches(p, i)
    ensures DropPushes(cmds, f, pushes, k, m).keep[i] == m.keep[i]
    decreases |pushes| - k
  {
    hide Entered, IsErase;
    if k < |pushes| {
      var p := pushes[k];
      assert !Touches(p, i);
      PushesSpare(cmds, f, pushes, k + 1, if Droppable(cmds, f, p, m.keep) then Marked(m.keep[p.cmd := false][p.unwind := false], UnscopeAll(p, m.descs)) else m, i);
    }
  }

  /** Recorded pushes share no command. */
  predicate Disjoint(pushes: seq<DeadPush>, p: DeadPush) {
    forall q :: q in pushes && q != p ==> !Touches(q, p.cmd) && !Touches(q, p.unwind)
  }

  lemma {:induction false} PushDropped(cmds: seq<Command>, f: Flags, pushes: seq<DeadPush>, k: nat, m: Marked, p: DeadPush)
    requires |m.keep| == |cmds| && Fits(f, |cmds|) && k <= |pushes| && Disjoint(pushes, p) && p.cmd < p.unwind < |cmds|
    requires !f.data[p.unwind] && cmds[p.unwind].op.Erase? && !Entered(f, p.cmd, p.unwind)
    requires if p in pushes[k..] then m.keep[p.cmd] == m.keep[p.unwind] else !m.keep[p.cmd] && !m.keep[p.unwind]
    ensures !DropPushes(cmds, f, pushes, k, m).keep[p.cmd] && !DropPushes(cmds, f, pushes, k, m).keep[p.unwind]
    decreases |pushes| - k
  {
    hide Entered, IsErase;
    if k < |pushes| {
      var q := pushes[k];
      assert pushes[k..] == [q] + pushes[k + 1..];
      assert q in pushes;
      PushDropped(cmds, f, pushes, k + 1, if Droppable(cmds, f, q, m.keep) then Marked(m.keep[q.cmd := false][q.unwind := false], UnscopeAll(q, m.descs)) else m, p);
    }
  }

  // --- erases -----------------------------------------------------------------------------------------

  /** Fusing leaves what is observed, and whatever is no erase, as it is. */
  lemma {:induction false} FuseSpares(f: Flags, i: nat, x: Peeped, a: nat)
    requires |x.keep| == |x.cmds| && Fits(f, |x.cmds|) && i <= |x.cmds| && a < |x.cmds| && (a < i || f.observed[a] || !IsErase(x.cmds, f, a))
    ensures var r := FuseErases(f, i, x); r.keep[a] == x.keep[a] && r.cmds[a] == x.cmds[a]
    decreases |x.cmds| - i
  {
    hide RunEnd, FusedCount, FusionAt, Pack2;
    if i < |x.cmds| {
      if !x.keep[i] || f.observed[i] || !IsErase(x.cmds, f, i) {
        FuseSpares(f, i + 1, x, a);
      } else {
        var r := FusionAt(x.cmds, f, x.keep, i);
        RunIs(x, f, i);
        FuseSpares(f, i + r.count, if Fusable(r) then FuseAt(x, i, r.count, r.lowest) else x, a);
      }
    }
  }

  /** What is fused with the erase at `i`: erases nothing samples and nothing enters, of the same slot or each of the one below. */
  lemma RunIs(x: Peeped, f: Flags, i: nat)
    requires |x.keep| == |x.cmds| && Fits(f, |x.cmds|) && i < |x.cmds|
    ensures var r := FusionAt(x.cmds, f, x.keep, i);
      && (forall j: nat :: i < j < i + r.count ==> x.keep[j] && !f.observed[j] && IsErase(x.cmds, f, j))
      && (r.count > 1 ==> r.lowest == x.cmds[i].arg || r.lowest == x.cmds[i + r.count - 1].arg)
      && (i + 1 < |x.cmds| && x.keep[i + 1] && !f.entry[i + 1] && !f.observed[i + 1] && IsErase(x.cmds, f, i + 1) && r.count == 1 ==>
            x.cmds[i + 1].arg != x.cmds[i].arg && x.cmds[i + 1].arg != x.cmds[i].arg - 1)
  {
    var end := RunEnd(x.cmds, f, x.keep, i + 1);
    var descending := end > i + 1 && x.cmds[i + 1].arg == x.cmds[i].arg - 1;
    RunUnobserved(x.cmds, f, x.keep, i + 1);
    FusedCountIsRun(x.cmds, i, end, descending, 1);
  }

  lemma {:induction false} RunUnobserved(cmds: seq<Command>, f: Flags, keep: seq<bool>, j: nat)
    requires |keep| == |cmds| && Fits(f, |cmds|) && j <= |cmds|
    ensures forall k: nat :: j <= k < RunEnd(cmds, f, keep, j) ==> keep[k] && !f.observed[k] && IsErase(cmds, f, k)
    decreases |cmds| - j
  {
    if RunEnd(cmds, f, keep, j) > j { RunUnobserved(cmds, f, keep, j + 1); }
  }

  /** Slots are counted in 31 bits, and so are commands. */
  predicate Small(cmds: seq<Command>, f: Flags)
    requires Fits(f, |cmds|)
  {
    |cmds| <= INT32_MAX && forall i :: 0 <= i < |cmds| && IsErase(cmds, f, i) ==> 0 <= cmds[i].arg <= INT32_MAX
  }

  predicate PairLeft(x: Peeped, f: Flags, a: nat)
    requires |x.keep| == |x.cmds| && Fits(f, |x.cmds|) && a + 1 < |x.cmds|
  {
    && x.keep[a] && x.keep[a + 1] && IsErase(x.cmds, f, a) && IsErase(x.cmds, f, a + 1)
    && !f.observed[a] && !f.observed[a + 1] && !f.entry[a + 1]
    && (x.cmds[a + 1].arg == x.cmds[a].arg || x.cmds[a + 1].arg == x.cmds[a].arg - 1)
  }

  lemma {:induction false} NoPairLeft(f: Flags, i: nat, x: Peeped, a: nat)
    requires |x.keep| == |x.cmds| && Fits(f, |x.cmds|) && i <= a && a + 1 < |x.cmds| && Small(x.cmds, f)
    ensures !PairLeft(FuseErases(f, i, x), f, a)
    decreases |x.cmds| - i
  {
    hide RunEnd, FusedCount, FusionAt, Pack2;
    var z := FuseErases(f, i, x);
    FuseErasesEffect(f, i, x);
    FuseOnlyClears(f, i, x);
    if !x.keep[i] || f.observed[i] || !IsErase(x.cmds, f, i) {
      if a > i { NoPairLeft(f, i + 1, x, a); }
    } else {
      var r := FusionAt(x.cmds, f, x.keep, i);
      RunIs(x, f, i);
      var y := if Fusable(r) then FuseAt(x, i, r.count, r.lowest) else x;
      if a >= i + r.count {
        FusedSmall(x, f, i);
        NoPairLeft(f, i + r.count, y, a);
      } else {
        assert r.count > 1 ==> Fusable(r);
        FuseSpares(f, i + r.count, y, a);
      }
    }
  }

  lemma FusedSmall(x: Peeped, f: Flags, i: nat)
    requires |x.keep| == |x.cmds| && Fits(f, |x.cmds|) && i < |x.cmds| && Small(x.cmds, f)
    ensures var r := FusionAt(x.cmds, f, x.keep, i); Small(FuseAt(x, i, r.count, r.lowest).cmds, f)
  {
    hide RunEnd, FusedCount, FusionAt, Pack2;
  }

  // --- jumps ------------------------------------------------------------------------------------------

  lemma {:induction false} NextIs(keep: seq<bool>, j: nat, t: nat)
    requires j <= t <= |keep| && (t == |keep| || keep[t]) && forall k :: j <= k < t ==> !keep[k]
    ensures NextKept(keep, j) == t
    decreases t - j
  {
    if j < t { NextIs(keep, j + 1, t); }
  }

  /** A jump a branch may pass through. */
  predicate Passes(cmds: seq<Command>, f: Flags, keep: seq<bool>, t: int)
    requires |keep| == |cmds| && Fits(f, |cmds|)
  {
    0 <= t < |cmds| && keep[t] && !f.data[t] && !f.observed[t] && cmds[t].op.Jump?
  }

  ghost predicate Forward(cmds: seq<Command>, f: Flags, keep: seq<bool>)
    requires |keep| == |cmds| && Fits(f, |cmds|)
  {
    forall t :: Passes(cmds, f, keep, t) ==> cmds[t].arg > t
  }

  lemma {:induction false} FollowEnds(cmds: seq<Command>, f: Flags, keep: seq<bool>, target: int, steps: nat)
    requires |keep| == |cmds| && Fits(f, |cmds|) && Forward(cmds, f, keep) && (target < 0 || target + steps >= |cmds|)
    ensures var t := Follow(cmds, f, keep, target, steps); t >= target && !Passes(cmds, f, keep, t)
    decreases steps
  {
    if Passes(cmds, f, keep, target) && steps > 0 { FollowEnds(cmds, f, keep, cmds[target].arg, steps - 1); }
  }

  /** The branch at `cmd` is among those from the k-th on. */
  predicate Listed(cmds: seq<Command>, f: Flags, keep: seq<bool>, fields: seq<Field>, k: nat, cmd: nat)
    requires |keep| == |cmds| && Fits(f, |cmds|) && k <= |fields|
  {
    exists j :: k <= j < |fields| && fields[j].cmd == cmd && Threads(cmds, f, keep, fields[j])
  }

  lemma {:induction false} ThreadEnds(cmds: seq<Command>, f: Flags, keep: seq<bool>, fields: seq<Field>, k: nat, cmd: nat)
    requires |keep| == |cmds| && Fits(f, |cmds|) && Forward(cmds, f, keep) && k <= |fields| && cmd < |cmds|
    requires Listed(cmds, f, keep, fields, k, cmd) || !Passes(cmds, f, keep, cmds[cmd].arg)
    ensures var r := ThreadJumps(cmds, f, keep, fields, k); r[cmd].op == cmds[cmd].op && !Passes(cmds, f, keep, r[cmd].arg)
    decreases |fields| - k
  {
    hide Follow, IsBranch;
    if k < |fields| {
      var field := fields[k];
      if Threads(cmds, f, keep, field) {
        var q := field.cmd;
        FollowEnds(cmds, f, keep, cmds[q].arg, |cmds|);
        var next := cmds[q := Command(cmds[q].op, Follow(cmds, f, keep, cmds[q].arg, |cmds|))];
        assert forall t :: Passes(next, f, keep, t) <==> Passes(cmds, f, keep, t);
        assert forall j :: 0 <= j < |fields| ==> (Threads(next, f, keep, fields[j]) <==> Threads(cmds, f, keep, fields[j]));
        ThreadEnds(next, f, keep, fields, k + 1, cmd);
      } else {
        ThreadEnds(cmds, f, keep, fields, k + 1, cmd);
      }
    }
  }

  /** Threading changes the targets of recorded branches and nothing else, and leaves a branch onto something else where it is. */
  lemma {:induction false} ThreadSpares(cmds: seq<Command>, f: Flags, keep: seq<bool>, fields: seq<Field>, k: nat, a: nat)
    requires |keep| == |cmds| && Fits(f, |cmds|) && k <= |fields| && a < |cmds|
    ensures var r := ThreadJumps(cmds, f, keep, fields, k);
      && r[a].op == cmds[a].op && (!Listed(cmds, f, keep, fields, k, a) || !Passes(cmds, f, keep, cmds[a].arg) ==> r[a] == cmds[a])
    decreases |fields| - k
  {
    hide IsBranch;
    if k < |fields| {
      var field := fields[k];
      if Threads(cmds, f, keep, field) {
        var q := field.cmd;
        var next := cmds[q := Command(cmds[q].op, Follow(cmds, f, keep, cmds[q].arg, |cmds|))];
        assert forall t :: Passes(next, f, keep, t) <==> Passes(cmds, f, keep, t);
        assert forall j :: 0 <= j < |fields| ==> (Threads(next, f, keep, fields[j]) <==> Threads(cmds, f, keep, fields[j]));
        ThreadSpares(next, f, keep, fields, k + 1, a);
      } else {
        ThreadSpares(cmds, f, keep, fields, k + 1, a);
      }
    }
  }

  // --- what is left -------------------------------------------------------------------------------------

  /** A sampled command stays what it is, unless it belongs to a dead push; of a branch only the target may change. */
  lemma SampledStays(x: Stream, i: nat)
    requires i < |x.cmds| && Sampled(x, i) && forall p :: p in x.pushes ==> !Touches(p, i)
    ensures var y := Decide(x).0;
      && y.keep[i] && y.cmds[i].op == x.cmds[i].op
      && (y.cmds[i] != x.cmds[i] ==> IsBranch(x.cmds[i].op) && exists g :: g in x.fields && g.cmd == i && g.half.Whole? && g.base.None?)
  {
    hide DropPushes, FuseErases, ThreadJumps, FlagsOf, IsBranch;
    var f := FlagsOf(x);
    FlagsAre(x);
    Phases(x);
    PushesSpare(x.cmds, f, x.pushes, 0, Marked(AllKept(|x.cmds|), x.descs), i);
    FuseSpares(f, 0, Peeped(x.cmds, Dead(x).keep), i);
    var y := Fused(Peeped(x.cmds, Dead(x).keep), f);
    ThreadSpares(y.cmds, f, Decide(x).0.keep, x.fields, 0, i);
  }

  /** A branch onto a sampled command keeps leading there. */
  lemma SampledTarget(x: Stream, i: nat)
    requires i < |x.cmds| && IsBranch(x.cmds[i].op) && 0 <= x.cmds[i].arg < |x.cmds| && Sampled(x, x.cmds[i].arg)
    ensures Decide(x).0.cmds[i] == x.cmds[i]
  {
    hide DropPushes, FuseErases, ThreadJumps, FlagsOf;
    var f := FlagsOf(x);
    FlagsAre(x);
    Phases(x);
    FuseSpares(f, 0, Peeped(x.cmds, Dead(x).keep), i);
    var y := Fused(Peeped(x.cmds, Dead(x).keep), f);
    ThreadSpares(y.cmds, f, Decide(x).0.keep, x.fields, 0, i);
  }

  /** A recorded push of the context goes with its unwind, unless something arrives in between. */
  lemma DeadPushGoes(x: Stream, p: DeadPush)
    requires p in x.pushes && Disjoint(x.pushes, p) && p.cmd < p.unwind < |x.cmds|
    requires x.cmds[p.unwind].op.Erase? && p.unwind !in x.slots && forall j :: p.cmd < j <= p.unwind ==> !Reached(x, j)
    ensures !Decide(x).0.keep[p.cmd] && !Decide(x).0.keep[p.unwind]
  {
    hide DropPushes, FuseErases, ThreadJumps, FlagsOf, Reached;
    var f := FlagsOf(x);
    FlagsAre(x);
    Phases(x);
    assert x.pushes[0..] == x.pushes;
    PushDropped(x.cmds, f, x.pushes, 0, Marked(AllKept(|x.cmds|), x.descs), p);
    FuseOnlyClears(f, 0, Peeped(x.cmds, Dead(x).keep));
  }

  /** No two neighbouring erases of the same slot, or of a slot and the one below, are left, unless something samples or enters them. */
  lemma NoErasesLeft(x: Stream, i: nat)
    requires i + 1 < |x.cmds| <= INT32_MAX && Free(x, i) && Free(x, i + 1) && !Reached(x, i + 1)
    requires forall j: nat :: j < |x.cmds| && j !in x.slots && x.cmds[j].op.Erase? ==> 0 <= x.cmds[j].arg <= INT32_MAX
    ensures var y := Decide(x).0;
      y.keep[i] && y.keep[i + 1] && y.cmds[i].op.Erase? && y.cmds[i + 1].op.Erase? ==>
        y.cmds[i + 1].arg != y.cmds[i].arg && y.cmds[i + 1].arg != y.cmds[i].arg - 1
  {
    hide DropPushes, FuseErases, ThreadJumps, FlagsOf, Reached, Sampled, IsBranch;
    var f := FlagsOf(x);
    FlagsAre(x);
    Phases(x);
    var before := Peeped(x.cmds, Dead(x).keep);
    NoPairLeft(f, 0, before, i);
    var y := Fused(before, f);
    ThreadSpares(y.cmds, f, Decide(x).0.keep, x.fields, 0, i);
    ThreadSpares(y.cmds, f, Decide(x).0.keep, x.fields, 0, i + 1);
    EraseIsNoBranch(y.cmds, f, Decide(x).0.keep, x.fields, i);
    EraseIsNoBranch(y.cmds, f, Decide(x).0.keep, x.fields, i + 1);
  }

  lemma EraseIsNoBranch(cmds: seq<Command>, f: Flags, keep: seq<bool>, fields: seq<Field>, i: nat)
    requires |keep| == |cmds| && Fits(f, |cmds|) && i < |cmds|
    ensures cmds[i].op.Erase? ==> !Listed(cmds, f, keep, fields, 0, i)
  {}

  /** An unsampled jump to the next command that is left goes; in between only erases and pushes went. */
  lemma NoJumpToNextLeft(x: Stream, i: nat, t: nat)
    requires i < t <= |x.cmds| && Free(x, i) && x.cmds[i] == Command(Jump, t)
    requires (t < |x.cmds| ==> Decide(x).0.keep[t]) && forall j :: i < j < t ==> !Decide(x).0.keep[j] && !x.cmds[j].op.Jump?
    ensures !Decide(x).0.keep[i]
  {
    hide DropPushes, FuseErases, ThreadJumps, FlagsOf, Sampled;
    var f := FlagsOf(x);
    FlagsAre(x);
    Phases(x);
    var before := Peeped(x.cmds, Dead(x).keep);
    FuseErasesEffect(f, 0, before);
    FuseSpares(f, 0, before, i);
    var y := Fused(before, f);
    forall j | i < j < t ensures !y.keep[j] {
      assert !Decide(x).0.keep[j] && !x.cmds[j].op.Jump?;
      assert y.cmds[j] == x.cmds[j] || y.cmds[j].op.EraseRange?;
      assert !FallsThrough(y.cmds, f, y.keep, j);
    }
    NextIs(y.keep, i + 1, t);
  }

  /** No recorded branch leads to an unsampled unconditional jump, where jumps lead forward. */
  lemma NoJumpChainLeft(x: Stream, g: Field)
    requires g in x.fields && g.half.Whole? && g.base.None? && g.cmd < |x.cmds| && g.cmd !in x.slots && IsBranch(x.cmds[g.cmd].op)
    requires forall j: nat :: j < |x.cmds| && j !in x.slots && x.cmds[j].op.Jump? ==> x.cmds[j].arg > j
    ensures var y := Decide(x).0;
      y.keep[g.cmd] ==> var t := y.cmds[g.cmd].arg; 0 <= t < |x.cmds| && y.keep[t] && Free(x, t) ==> !y.cmds[t].op.Jump?
  {
    hide DropPushes, FuseErases, ThreadJumps, FlagsOf, Sampled;
    var f := FlagsOf(x);
    FlagsAre(x);
    Phases(x);
    var before := Peeped(x.cmds, Dead(x).keep);
    FuseErasesEffect(f, 0, before);
    FuseSpares(f, 0, before, g.cmd);
    var y, keep := Fused(before, f), Decide(x).0.keep;
    if keep[g.cmd] {
      assert Threads(y.cmds, f, keep, g);
      ThreadEnds(y.cmds, f, keep, x.fields, 0, g.cmd);
      var t := Decide(x).0.cmds[g.cmd].arg;
      if 0 <= t < |x.cmds| { ThreadSpares(y.cmds, f, keep, x.fields, 0, t); }
    }
  }
}
