/**
  What the peephole does to everything that rides along with the commands: descriptions
  still cover the commands they covered, as far as these survive, and locations move with
  theirs. Stated of the optimised stream alone, by where each of its commands came from.
*/
module DescriptionSpans {
  import opened Machine
  import opened Simulation
  import opened Optimizer
  import opened Streams
  import opened Transforms
  import opened Compaction
  import opened Peephole

  // --- where the commands came from ------------------------------------------------------------

  /** Every command of the optimised stream, by its old index: exactly the kept ones, in order. */
  ghost predicate CameFrom(keep: seq<bool>, origin: seq<nat>) {
    && (forall i: nat :: i in origin <==> i < |keep| && keep[i])
    && (forall j, k :: 0 <= j < k < |origin| ==> origin[j] < origin[k])
  }

  ghost predicate KeepsSome(origin: seq<nat>, from: nat, to: nat) { exists j :: 0 <= j < |origin| && from <= origin[j] <= to }

  /**
    A description against what it was: its start is the first command that came from its old
    start or later, its end is one past the last that came from before its old end, and if its
    range keeps a command, a command is in the new range exactly when it came from the old.
    A range that keeps none becomes an empty one, unless nothing before it is kept either:
    then it names the first command.
  */
  ghost predicate Spans(origin: seq<nat>, n: nat, d: Description, d': Description) {
    && (forall j :: 0 <= j < |origin| ==> (d.start <= origin[j] <==> d'.start <= j))
    && (forall j :: 0 <= j < |origin| ==> (origin[j] < d.end <==> j < d'.end))
    && (d.start <= n ==> d'.start <= |origin|) && (d.end <= n ==> d'.end <= |origin|)
    && (KeepsSome(origin, d.start, d.index) ==>
          && (forall j :: 0 <= j < |origin| ==> (d.start <= origin[j] <= d.index <==> d'.start <= j <= d'.index))
          && (d.index < n ==> d'.index < |origin|))
    && (!KeepsSome(origin, d.start, d.index) && d.start <= d.index < n ==>
          if KeepsSome(origin, 0, d.index) then d'.index < d'.start else d'.start == d'.index == 0)
  }

  // --- counting ------------------------------------------------------------------------------------

  /** A kept command is before `i` exactly when its new index is below the count of those kept before `i`. */
  lemma KeptBefore(keep: seq<bool>, k: nat, i: nat)
    requires k < |keep| && keep[k] && i <= |keep|
    ensures k < i <==> NextAt(keep, k) < NextAt(keep, i)
  {
    if k < i { NextAtStrict(keep, k, i); } else { NextAtBounds(keep, i, k); }
  }

  function Origins(keep: seq<bool>): (r: seq<nat>)
    ensures |r| == NextAt(keep, |keep|)
  {
    seq(NextAt(keep, |keep|), j requires 0 <= j < NextAt(keep, |keep|) => Origin(keep, |keep|, j))
  }

  lemma OriginAt(keep: seq<bool>, j: nat)
    requires j < NextAt(keep, |keep|)
    ensures var i := Origins(keep)[j]; i < |keep| && keep[i] && NextAt(keep, i) == j
  {}

  lemma OriginsAre(keep: seq<bool>)
    ensures CameFrom(keep, Origins(keep))
  {
    hide NextAt;
    var origin := Origins(keep);
    forall i: nat ensures i in origin <==> i < |keep| && keep[i] {
      if i in origin {
        var j :| 0 <= j < |origin| && origin[j] == i;
        OriginAt(keep, j);
      }
      if i < |keep| && keep[i] {
        KeptBefore(keep, i, |keep|);
        var j := NextAt(keep, i);
        OriginAt(keep, j);
        NextAtDistinctFrom(keep, origin[j], i);
        assert origin[j] == i;
      }
    }
    forall j, k | 0 <= j < k < |origin| ensures origin[j] < origin[k] {
      OriginAt(keep, j);
      OriginAt(keep, k);
      KeptBefore(keep, origin[k], origin[j]);
    }
  }

  // --- compaction --------------------------------------------------------------------------------------

  lemma Emitted(keep: seq<bool>, i: nat)
    requires i < |keep|
    ensures NextAt(keep, i + 1) == NextAt(keep, i) + if keep[i] then 1 else 0
  {}

  lemma RelocatedSpans(keep: seq<bool>, d: Description)
    ensures Spans(Origins(keep), |keep|, d, RelocDescription(keep, d))
  {
    hide NextAt, Origins, RelocLast;
    var n, origin, d' := |keep|, Origins(keep), RelocDescription(keep, d);
    forall j | 0 <= j < |origin|
      ensures (d.start <= origin[j] <==> d'.start <= j) && (origin[j] < d.end <==> j < d'.end) && (origin[j] <= d.index ==> j <= d'.index)
      ensures KeepsSome(origin, 0, d.index) && j <= d'.index ==> origin[j] <= d.index
    {
      OriginAt(keep, j);
      if d.start <= n { KeptBefore(keep, origin[j], d.start); }
      if d.end <= n { KeptBefore(keep, origin[j], d.end); }
      LastIs(keep, d.index, j);
    }
    if d.start <= n { NextAtBounds(keep, d.start, n); }
    if d.end <= n { NextAtBounds(keep, d.end, n); }
    if d.index <= n { LastFits(keep, d.index); }
    if KeepsSome(origin, d.start, d.index) {
      var j :| 0 <= j < |origin| && d.start <= origin[j] <= d.index;
      assert KeepsSome(origin, 0, d.index);
    } else if d.start <= d.index < n {
      EmptySpan(keep, d.start, d.index);
    }
  }

  lemma LastIs(keep: seq<bool>, index: nat, j: nat)
    requires j < NextAt(keep, |keep|)
    ensures var i := Origins(keep)[j];
      (i <= index ==> j <= RelocLast(keep, index)) && (KeepsSome(Origins(keep), 0, index) && j <= RelocLast(keep, index) ==> i <= index)
  {
    hide NextAt, Origins;
    OriginAt(keep, j);
    var i := Origins(keep)[j];
    if index < |keep| {
      KeptBefore(keep, i, index + 1);
      if k :| 0 <= k < NextAt(keep, |keep|) && Origins(keep)[k] <= index {
        OriginAt(keep, k);
        KeptBefore(keep, Origins(keep)[k], index + 1);
      }
    } else if index == |keep| {
      KeptBefore(keep, i, index);
    }
  }

  lemma LastFits(keep: seq<bool>, index: nat)
    requires index <= |keep|
    ensures NextAt(keep, |keep|) > 0 ==> RelocLast(keep, index) < NextAt(keep, |keep|)
  {
    hide NextAt;
    if index < |keep| { NextAtBounds(keep, index + 1, |keep|); }
  }

  lemma EmptySpan(keep: seq<bool>, start: nat, index: nat)
    requires start <= index < |keep| && !KeepsSome(Origins(keep), start, index)
    ensures if KeepsSome(Origins(keep), 0, index) then RelocLast(keep, index) < Reloc(keep, start) else Reloc(keep, start) == RelocLast(keep, index) == 0
  {
    hide NextAt, Origins;
    OriginsAre(keep);
    forall k: nat | start <= k <= index ensures !keep[k] { assert keep[k] ==> k in Origins(keep); }
    NoneKept(keep, start, index + 1);
    var e := NextAt(keep, start);
    if j :| 0 <= j < |Origins(keep)| && 0 <= Origins(keep)[j] <= index {
      OriginAt(keep, j);
      KeptBefore(keep, Origins(keep)[j], index + 1);
    } else if e > 0 {
      NextAtBounds(keep, start, |keep|);
      OriginAt(keep, 0);
      KeptBefore(keep, Origins(keep)[0], start);
    }
  }

  lemma {:induction false} NoneKept(keep: seq<bool>, i: nat, j: nat)
    requires i <= j <= |keep| && forall k :: i <= k < j ==> !keep[k]
    ensures NextAt(keep, i) == NextAt(keep, j)
    decreases j - i
  {
    if i < j { NoneKept(keep, i, j - 1); }
  }

  lemma {:induction false} AtMost<T>(s: seq<T>, keep: seq<bool>, n: nat)
    requires n <= |keep|
    ensures |Survivors(s, keep, n)| <= NextAt(keep, n)
  {
    if n > 0 { AtMost(s, keep, n - 1); }
  }

  /** The location of a command moves with it; commands that had none have none. */
  lemma {:induction false} LocationMoves(locs: seq<Location>, keep: seq<bool>, n: nat, j: nat)
    requires 0 < n <= |keep| && j < NextAt(keep, n)
    ensures var i, moved := Origin(keep, n, j), Survivors(locs, keep, n);
      if i < |locs| then j < |moved| && moved[j] == locs[i] else j >= |moved|
  {
    if keep[n - 1] && j == NextAt(keep, n - 1) {
      if n <= |locs| { SurvivorsLength(locs, keep, n - 1); } else { AtMost(locs, keep, n - 1); }
    } else {
      LocationMoves(locs, keep, n - 1, j);
      if n <= |locs| { SurvivorsLength(locs, keep, n - 1); }
    }
  }

  // --- scopes of dropped pushes ----------------------------------------------------------------------------

  /** The push lies around the description and its scope is the description's. */
  predicate Names(p: DeadPush, d: Description) { p.slot == d.scope && p.cmd <= d.start && d.index <= p.unwind }

  predicate Gone(keep: seq<bool>, p: DeadPush) { p.cmd < p.unwind < |keep| && !keep[p.cmd] && !keep[p.unwind] }

  lemma {:induction false} DropsStay(cmds: seq<Command>, f: Flags, pushes: seq<DeadPush>, k: nat, m: Marked, i: nat)
    requires |m.keep| == |cmds| && Fits(f, |cmds|) && k <= |pushes| && i < |cmds| && !m.keep[i]
    ensures !DropPushes(cmds, f, pushes, k, m).keep[i]
    decreases |pushes| - k
  {
    hide Droppable;
    if k < |pushes| {
      var p := pushes[k];
      if Droppable(cmds, f, p, m.keep) {
        assert p.cmd < p.unwind < |cmds| by { DroppableIs(cmds, f, p, m.keep); }
        DropsStay(cmds, f, pushes, k + 1, Marked(m.keep[p.cmd := false][p.unwind := false], UnscopeAll(p, m.descs)), i);
      } else {
        DropsStay(cmds, f, pushes, k + 1, m, i);
      }
    }
  }

  lemma DroppableIs(cmds: seq<Command>, f: Flags, p: DeadPush, keep: seq<bool>)
    requires |keep| == |cmds| && Fits(f, |cmds|) && Droppable(cmds, f, p, keep)
    ensures p.cmd < p.unwind < |cmds| && keep[p.cmd] && keep[p.unwind] && cmds[p.unwind].op.Erase?
  {}

  /** A description keeps its scope, or a dropped push named it. */
  lemma {:induction false} ScopeKept(cmds: seq<Command>, f: Flags, pushes: seq<DeadPush>, k: nat, m: Marked, i: nat)
    requires |m.keep| == |cmds| && Fits(f, |cmds|) && k <= |pushes| && i < |m.descs|
    ensures var r := DropPushes(cmds, f, pushes, k, m);
      && |r.descs| == |m.descs| && r.descs[i] == m.descs[i].(scope := r.descs[i].scope)
      && (r.descs[i].scope != m.descs[i].scope ==> r.descs[i].scope == -1 && exists p :: p in pushes && Names(p, m.descs[i]) && Gone(r.keep, p))
    decreases |pushes| - k
  {
    hide Droppable;
    if k < |pushes| {
      var p := pushes[k];
      if Droppable(cmds, f, p, m.keep) {
        DroppableIs(cmds, f, p, m.keep);
        var m' := Marked(m.keep[p.cmd := false][p.unwind := false], UnscopeAll(p, m.descs));
        ScopeKept(cmds, f, pushes, k + 1, m', i);
        DropsStay(cmds, f, pushes, k + 1, m', p.cmd);
        DropsStay(cmds, f, pushes, k + 1, m', p.unwind);
        assert Gone(DropPushes(cmds, f, pushes, k + 1, m').keep, p);
        assert m'.descs[i].scope != m.descs[i].scope ==> p in pushes && Names(p, m.descs[i]);
      } else {
        ScopeKept(cmds, f, pushes, k + 1, m, i);
      }
    }
  }

  /** No two recorded pushes are the same command with different scopes, and none is another's unwind. */
  predicate Apart(pushes: seq<DeadPush>) {
    forall p, q :: p in pushes && q in pushes ==> p.cmd != q.unwind && (p.cmd == q.cmd ==> p == q)
  }

  lemma {:induction false} ScopeDropped(cmds: seq<Command>, f: Flags, pushes: seq<DeadPush>, k: nat, m: Marked, p: DeadPush, i: nat)
    requires |m.keep| == |cmds| && Fits(f, |cmds|) && k <= |pushes| && i < |m.descs| && Apart(pushes) && p in pushes
    requires p.cmd < |cmds| && !DropPushes(cmds, f, pushes, k, m).keep[p.cmd]
    requires if m.keep[p.cmd] then Names(p, m.descs[i]) || m.descs[i].scope == -1 else m.descs[i].scope == -1
    ensures i < |DropPushes(cmds, f, pushes, k, m).descs| && DropPushes(cmds, f, pushes, k, m).descs[i].scope == -1
    decreases |pushes| - k
  {
    hide Droppable;
    if k < |pushes| {
      var q := pushes[k];
      if Droppable(cmds, f, q, m.keep) {
        DroppableIs(cmds, f, q, m.keep);
        assert q in pushes;
        ScopeDropped(cmds, f, pushes, k + 1, Marked(m.keep[q.cmd := false][q.unwind := false], UnscopeAll(q, m.descs)), p, i);
      } else {
        ScopeDropped(cmds, f, pushes, k + 1, m, p, i);
      }
    }
  }

  // --- the whole pass ------------------------------------------------------------------------------------------

  /** Commands only get dropped as the pass goes on, and a push only as a dead one. */
  lemma DecideDrops(x: Stream, i: nat)
    requires i < |x.cmds|
    ensures var dead := DropPushes(x.cmds, FlagsOf(x), x.pushes, 0, Marked(AllKept(|x.cmds|), x.descs));
      && Decide(x).1 == dead.descs
      && (!dead.keep[i] ==> !Decide(x).0.keep[i])
      && (x.cmds[i].op.PushContext? && !Decide(x).0.keep[i] ==> !dead.keep[i])
  {
    hide DropPushes, FuseErases, FlagsOf, Fits, IsErase;
    var f := FlagsOf(x);
    assert Fits(f, |x.cmds|) by { FlagsFitted(x); }
    var dead := DropPushes(x.cmds, f, x.pushes, 0, Marked(AllKept(|x.cmds|), x.descs));
    var before := Peeped(x.cmds, dead.keep);
    FuseErasesEffect(f, 0, before);
    FuseOnlyClears(f, 0, before);
    FusedKind(f, before, i);
  }

  lemma FlagsFitted(x: Stream)
    ensures Fits(FlagsOf(x), |x.cmds|)
  {}

  lemma FusedKind(f: Flags, before: Peeped, i: nat)
    requires |before.keep| == |before.cmds| && Fits(f, |before.cmds|) && i < |before.cmds|
    requires OnlyFuses(before.cmds, f, FuseErases(f, 0, before).cmds) && DropsInRuns(before, f, FuseErases(f, 0, before))
    ensures var r := FuseErases(f, 0, before);
      before.cmds[i].op.PushContext? ==> r.cmds[i].op.PushContext? && (before.keep[i] ==> r.keep[i])
  {
    hide FuseErases;
  }

  /** What an optimised stream promises of its locations. */
  ghost predicate Located(origin: seq<nat>, locs: seq<Location>, moved: seq<Location>) {
    forall j :: 0 <= j < |origin| ==> if origin[j] < |locs| then j < |moved| && moved[j] == locs[origin[j]] else j >= |moved|
  }

  lemma AllOrigins(keep: seq<bool>, j: nat)
    requires NextAt(keep, |keep|) == |keep| && j < |keep|
    ensures keep[j] && NextAt(keep, j) == j && Origins(keep)[j] == j
  {
    hide NextAt, Origins;
    NextAtBounds(keep, 0, j);
    NextAtBounds(keep, j, |keep|);
    NextAtBounds(keep, j + 1, |keep|);
    NextAtBounds(keep, 0, 0);
    Emitted(keep, j);
    OriginAt(keep, j);
    NextAtDistinctFrom(keep, Origins(keep)[j], j);
  }

  /** A stream nothing is dropped from: everything stays in place. */
  lemma NothingMoves(keep: seq<bool>, d: Description)
    requires NextAt(keep, |keep|) == |keep|
    ensures Spans(Origins(keep), |keep|, d, d)
  {
    hide NextAt, Origins;
    forall j: nat | j < |keep| ensures Origins(keep)[j] == j { AllOrigins(keep, j); }
    assert d.start <= d.index < |keep| ==> Origins(keep)[d.start] == d.start;
  }

  lemma {:induction false} PatchKeepsOps(cmds: seq<Command>, before: seq<Command>, keep: seq<bool>, fields: seq<Field>, k: nat, j: nat)
    requires |keep| == |before| && |cmds| == NextAt(keep, |keep|) && k <= |fields| && j < |cmds|
    ensures PatchFields(cmds, before, keep, fields, k)[j].op == cmds[j].op
    decreases |fields| - k
  {
    hide NextAt, WriteHalf, ReadField;
    if k < |fields| {
      var f := fields[k];
      var target := ReadField(before, f);
      if FieldSurvives(keep, f) && target.Some? {
        var slot := Reloc(keep, f.cmd);
        NextAtStrict(keep, f.cmd, |keep|);
        var stored := Reloc(keep, target.value) - BaseOf(RelocField(keep, f));
        PatchKeepsOps(cmds[slot := Command(cmds[slot].op, WriteHalf(cmds[slot].arg, f.half, stored))], before, keep, fields, k + 1, j);
      } else {
        PatchKeepsOps(cmds, before, keep, fields, k + 1, j);
      }
    }
  }

  /** The pass's last step, with the descriptions and commands the transforms left. */
  lemma CompactSpans(y: Stream, keep: seq<bool>)
    requires |keep| == |y.cmds|
    ensures var origin, z := Origins(keep), Compact(y, keep);
      && |z.cmds| == |origin| && |z.descs| == |y.descs| && Located(origin, y.locs, z.locs)
      && (forall j: nat :: j < |origin| ==> origin[j] < |y.cmds| && z.cmds[j].op == y.cmds[origin[j]].op)
      && (forall i :: 0 <= i < |y.descs| ==> Spans(origin, |keep|, y.descs[i], z.descs[i]) && z.descs[i].scope == y.descs[i].scope)
  {
    hide NextAt, PatchFields, Survivors, Spans, RelocLast, Reloc;
    var origin, z := Origins(keep), Compact(y, keep);
    var moved := Survivors(y.cmds, keep, |keep|);
    SurvivorsLength(y.cmds, keep, |keep|);
    forall j: nat | j < |origin|
      ensures origin[j] < |y.cmds| && z.cmds[j].op == y.cmds[origin[j]].op
      ensures if origin[j] < |y.locs| then j < |z.locs| && z.locs[j] == y.locs[origin[j]] else j >= |z.locs|
    {
      OriginAt(keep, j);
      SurvivorAt(y.cmds, keep, origin[j], |keep|);
      PatchKeepsOps(moved, y.cmds, keep, y.fields, 0, j);
      NextAtBounds(keep, 0, |keep|);
      LocationMoves(y.locs, keep, |keep|, j);
    }
    forall i | 0 <= i < |y.descs| ensures Spans(origin, |keep|, y.descs[i], z.descs[i]) { RelocatedSpans(keep, y.descs[i]); }
  }

  /** Spans do not depend on the scope. */
  lemma SpansScope(origin: seq<nat>, n: nat, d: Description, d': Description, scope: int)
    ensures Spans(origin, n, d.(scope := scope), d') == Spans(origin, n, d, d')
  {}

  /**
    After the whole pass every description spans what it spanned, as far as it survives; its
    scope is the old one unless a dropped push named it, when it has none; and every command
    has the location of the command it was.
  */
  lemma OptimizedSpans(x: Stream) returns (origin: seq<nat>)
    ensures CameFrom(Decide(x).0.keep, origin) && |Optimize(x).cmds| == |origin| && |Optimize(x).descs| == |x.descs|
    ensures forall j: nat :: j < |origin| ==> origin[j] < |x.cmds| && Optimize(x).cmds[j].op == Decide(x).0.cmds[origin[j]].op
    ensures Located(origin, x.locs, Optimize(x).locs)
    ensures forall i :: 0 <= i < |x.descs| ==> Spans(origin, |x.cmds|, x.descs[i], Optimize(x).descs[i])
    ensures forall i :: 0 <= i < |x.descs| && Optimize(x).descs[i].scope != x.descs[i].scope ==>
      Optimize(x).descs[i].scope == -1 && exists p :: p in x.pushes && Names(p, x.descs[i]) && Gone(Decide(x).0.keep, p)
    ensures Apart(x.pushes) ==> forall i, p :: 0 <= i < |x.descs| && p in x.pushes && Gone(Decide(x).0.keep, p) && x.cmds[p.cmd].op.PushContext? && Names(p, x.descs[i]) ==>
      Optimize(x).descs[i].scope == -1
  {
    hide Decide, NextAt, Origins, PatchFields, Survivors, Spans, Names, Gone, Compact, Located;
    var (d, descs) := Decide(x);
    var keep, n := d.keep, |x.cmds|;
    var y := x.(cmds := d.cmds, descs := descs);
    origin := Origins(keep);
    OriginsAre(keep);
    DecidedScopes(x);
    if NextAt(keep, n) == n {
      Unmoved(y, keep);
    } else {
      CompactSpans(y, keep);
    }
    forall i | 0 <= i < |x.descs| ensures Spans(origin, n, x.descs[i], Optimize(x).descs[i]) {
      SpansScope(origin, n, x.descs[i], Optimize(x).descs[i], descs[i].scope);
    }
  }

  lemma Unmoved(y: Stream, keep: seq<bool>)
    requires |keep| == |y.cmds| && NextAt(keep, |keep|) == |keep|
    ensures var origin := Origins(keep);
      && |origin| == |y.cmds| && (forall j: nat :: j < |origin| ==> origin[j] == j)
      && Located(origin, y.locs, y.locs)
      && (forall i :: 0 <= i < |y.descs| ==> Spans(origin, |keep|, y.descs[i], y.descs[i]))
  {
    hide NextAt, Origins, Spans;
    forall j: nat | j < |keep| ensures Origins(keep)[j] == j { AllOrigins(keep, j); }
    forall i | 0 <= i < |y.descs| ensures Spans(Origins(keep), |keep|, y.descs[i], y.descs[i]) { NothingMoves(keep, y.descs[i]); }
  }

  /** What the transforms leave of scopes. */
  lemma DecidedScopes(x: Stream)
    ensures var descs, keep := Decide(x).1, Decide(x).0.keep;
      && |descs| == |x.descs|
      && (forall i :: 0 <= i < |descs| ==> descs[i] == x.descs[i].(scope := descs[i].scope))
      && (forall i :: 0 <= i < |descs| && descs[i].scope != x.descs[i].scope ==> descs[i].scope == -1 && exists p :: p in x.pushes && Names(p, x.descs[i]) && Gone(keep, p))
      && (Apart(x.pushes) ==> forall i, p :: 0 <= i < |descs| && p in x.pushes && Gone(keep, p) && x.cmds[p.cmd].op.PushContext? && Names(p, x.descs[i]) ==> descs[i].scope == -1)
  {
    hide Decide, DropPushes, FlagsOf, Names, Fits;
    var f, m := FlagsOf(x), Marked(AllKept(|x.cmds|), x.descs);
    assert Fits(f, |x.cmds|) by { FlagsFitted(x); }
    var dead := DropPushes(x.cmds, f, x.pushes, 0, m);
    assert Decide(x).1 == dead.descs by { DecidedDescs(x); }
    forall i: nat | i < |x.cmds| ensures (!dead.keep[i] ==> !Decide(x).0.keep[i]) && (x.cmds[i].op.PushContext? && !Decide(x).0.keep[i] ==> !dead.keep[i]) {
      DecideDrops(x, i);
    }
    forall i | 0 <= i < |x.descs|
      ensures |dead.descs| == |x.descs| && dead.descs[i] == x.descs[i].(scope := dead.descs[i].scope)
      ensures dead.descs[i].scope != x.descs[i].scope ==> dead.descs[i].scope == -1 && exists p :: p in x.pushes && Names(p, x.descs[i]) && Gone(Decide(x).0.keep, p)
    {
      ScopeKept(x.cmds, f, x.pushes, 0, m, i);
      if dead.descs[i].scope != x.descs[i].scope {
        var p :| p in x.pushes && Names(p, x.descs[i]) && Gone(dead.keep, p);
        assert Gone(Decide(x).0.keep, p);
      }
    }
    assert |dead.descs| == |x.descs| by { DescsCount(x.cmds, f, x.pushes, 0, m); }
    if Apart(x.pushes) {
      forall i, p | 0 <= i < |x.descs| && p in x.pushes && Gone(Decide(x).0.keep, p) && x.cmds[p.cmd].op.PushContext? && Names(p, x.descs[i])
        ensures dead.descs[i].scope == -1
      {
        ScopeDropped(x.cmds, f, x.pushes, 0, m, p, i);
      }
    }
  }

  lemma DecidedDescs(x: Stream)
    ensures Decide(x).1 == DropPushes(x.cmds, FlagsOf(x), x.pushes, 0, Marked(AllKept(|x.cmds|), x.descs)).descs
  {
    hide DropPushes, FuseErases, DropJumps, ThreadJumps, FlagsOf;
  }

  lemma {:induction false} DescsCount(cmds: seq<Command>, f: Flags, pushes: seq<DeadPush>, k: nat, m: Marked)
    requires |m.keep| == |cmds| && Fits(f, |cmds|) && k <= |pushes|
    ensures |DropPushes(cmds, f, pushes, k, m).descs| == |m.descs|
    decreases |pushes| - k
  {
    hide Droppable;
    if k < |pushes| {
      var p := pushes[k];
      if Droppable(cmds, f, p, m.keep) {
        DroppableIs(cmds, f, p, m.keep);
        DescsCount(cmds, f, pushes, k + 1, Marked(m.keep[p.cmd := false][p.unwind := false], UnscopeAll(p, m.descs)));
      } else {
        DescsCount(cmds, f, pushes, k + 1, m);
      }
    }
  }
}
