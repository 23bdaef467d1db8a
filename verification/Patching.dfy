/**
  Backpatching. Code is emitted with 0 where a label is still open; binding the label
  patches every site that waited for it. Here: patching the sites of a finished block is
  the same as having known its end from the start.
*/
module Patching {
  import opened Machine
  import opened Optimizer
  import opened Blocks
  import opened Emission

  /** One site gets its target; the scope guard keeps its other half. */
  function PatchOne(cmds: seq<Command>, f: Field, target: int): (r: seq<Command>)
    ensures |r| == |cmds|
  {
    if f.cmd >= |cmds| then cmds
    else cmds[f.cmd := Command(cmds[f.cmd].op, if f.half.Low? then Pack2(target, HighHalf(cmds[f.cmd].arg)) else target)]
  }

  function PatchSites(cmds: seq<Command>, sites: seq<Field>, target: int): (r: seq<Command>)
    ensures |r| == |cmds|
    decreases |sites|
  {
    if sites == [] then cmds else PatchSites(PatchOne(cmds, sites[0], target), sites[1..], target)
  }

  lemma {:induction false} PatchAppend(cmds: seq<Command>, a: seq<Field>, b: seq<Field>, target: int)
    ensures PatchSites(cmds, a + b, target) == PatchSites(PatchSites(cmds, a, target), b, target)
    decreases |a|
  {
    if a == [] {
      assert a + b == b;
    } else {
      assert (a + b)[1..] == a[1..] + b;
      PatchAppend(PatchOne(cmds, a[0], target), a[1..], b, target);
    }
  }

  lemma PatchExit(pre: seq<Command>, post: seq<Command>, op: Op, mode: int, target: int)
    ensures PatchSites(pre + [Branch(op, mode, 0)] + post, [SiteField(|pre|, op)], target) == pre + [Branch(op, mode, target)] + post
  {
    Unpack2(0, mode);
    var all, f := pre + [Branch(op, mode, 0)] + post, SiteField(|pre|, op);
    assert all[|pre|] == Branch(op, mode, 0);
    assert [f][1..] == [];
    assert PatchSites(all, [f], target) == PatchOne(all, f, target);
    assert all[|pre| := Branch(op, mode, target)] == pre + [Branch(op, mode, target)] + post;
  }

  lemma Concat<T>(a: seq<T>, b: seq<T>, c: seq<T>)
    ensures a + (b + c) == a + b + c
  {}

  lemma FlattenSeq(x: Node, y: Node, b: nat, labels: seq<int>)
    ensures Flatten(Seq(x, y), b, labels) == Flatten(x, b, labels) + Flatten(y, b + Size(x), labels)
    ensures |Flatten(x, b, labels)| == Size(x)
  {}

  lemma SitesSeq(x: Node, y: Node, b: nat, level: nat)
    ensures SitesOf(Seq(x, y), b, level) == SitesOf(x, b, level) + SitesOf(y, b + Size(x), level)
  {}

  lemma {:induction false} PatchLevelSeq(pre: seq<Command>, x: Node, y: Node, post: seq<Command>, labels: seq<int>, target: int)
    requires var b := |pre| + Size(x);
      PatchSites(pre + Flatten(x, |pre|, labels) + (Flatten(y, b, labels) + post), SitesOf(x, |pre|, |labels|), target) ==
      pre + Flatten(x, |pre|, labels + [target]) + (Flatten(y, b, labels) + post)
    requires var b, gx := |pre| + Size(x), pre + Flatten(x, |pre|, labels + [target]);
      PatchSites(gx + Flatten(y, b, labels) + post, SitesOf(y, b, |labels|), target) == gx + Flatten(y, b, labels + [target]) + post
    ensures PatchSites(pre + Flatten(Seq(x, y), |pre|, labels) + post, SitesOf(Seq(x, y), |pre|, |labels|), target) ==
            pre + Flatten(Seq(x, y), |pre|, labels + [target]) + post
  {
    hide Flatten, SitesOf, PatchSites, Size;
    var b := |pre| + Size(x);
    FlattenSeq(x, y, |pre|, labels);
    FlattenSeq(x, y, |pre|, labels + [target]);
    SitesSeq(x, y, |pre|, |labels|);
    var fx, fy := Flatten(x, |pre|, labels), Flatten(y, b, labels);
    var gx, gy := Flatten(x, |pre|, labels + [target]), Flatten(y, b, labels + [target]);
    Concat(pre, fx, fy);
    Concat(pre + fx, fy, post);
    Concat(pre + gx, fy, post);
    Concat(pre, gx, gy);
    PatchAppend(pre + fx + (fy + post), SitesOf(x, |pre|, |labels|), SitesOf(y, b, |labels|), target);
  }

  /** Nodes that neither steer nor contain other nodes have no label. */
  lemma PatchLevelLeaf(pre: seq<Command>, n: Node, post: seq<Command>, labels: seq<int>, target: int)
    requires !n.Exit? && !n.Seq? && !n.Block?
    ensures PatchSites(pre + Flatten(n, |pre|, labels) + post, SitesOf(n, |pre|, |labels|), target) ==
            pre + Flatten(n, |pre|, labels + [target]) + post
  {}

  lemma SitesBlock(x: Node, out: seq<Ty>, b: nat, level: nat)
    ensures SitesOf(Block(x, out), b, level) == SitesOf(x, b, level + 1)
  {}

  lemma PatchLevelExit(pre: seq<Command>, op: Op, mode: int, l: nat, post: seq<Command>, labels: seq<int>, target: int)
    ensures var n := Exit(op, mode, l);
      PatchSites(pre + Flatten(n, |pre|, labels) + post, SitesOf(n, |pre|, |labels|), target) == pre + Flatten(n, |pre|, labels + [target]) + post
  {
    if l == |labels| { PatchExit(pre, post, op, mode, target); }
  }

  /** Patching the sites that wait for the outermost open label resolves exactly that label. */
  lemma {:induction false} PatchLevel(pre: seq<Command>, n: Node, post: seq<Command>, labels: seq<int>, target: int)
    ensures PatchSites(pre + Flatten(n, |pre|, labels) + post, SitesOf(n, |pre|, |labels|), target) ==
            pre + Flatten(n, |pre|, labels + [target]) + post
    decreases n
  {
    hide Flatten, SitesOf, PatchSites, Size;
    match n
    case Exit(op, mode, l) => PatchLevelExit(pre, op, mode, l, post, labels, target);
    case Seq(x, y) =>
      FlattenSeq(x, y, |pre|, labels + [target]);
      FlattenSeq(x, y, |pre|, labels);
      PatchLevel(pre, x, Flatten(y, |pre| + Size(x), labels) + post, labels, target);
      PatchLevel(pre + Flatten(x, |pre|, labels + [target]), y, post, labels, target);
      PatchLevelSeq(pre, x, y, post, labels, target);
    case Block(x, out) =>
      var end := |pre| + Size(x);
      PatchLevel(pre, x, post, [end] + labels, target);
      assert [end] + (labels + [target]) == [end] + labels + [target];
      BlockIsBody(|pre|, x, out, [], labels);
      BlockIsBody(|pre|, x, out, [], labels + [target]);
      SitesBlock(x, out, |pre|, |labels|);
    case _ => PatchLevelLeaf(pre, n, post, labels, target);
  }

  // --- what emitting a node adds --------------------------------------------------------------

  /** Everything emission appends to, the deepest stack it has seen, and the stack before every command it emitted. */
  datatype State = State(cmds: seq<Command>, fields: seq<Field>, pushes: seq<DeadPush>, depth: nat, model: seq<seq<Ty>>)

  /** The state after the code of `n` was emitted where the types `m` lie on the stack; its open labels are still 0. */
  function After(st: State, n: Node, m: seq<Ty>): State {
    var b := |st.cmds|;
    State(st.cmds + Flatten(n, b, []), st.fields + FieldsOf(n, b), st.pushes + PushesOf(n, b), Max(st.depth, PeakOf(n, m)), st.model + ModelOf(n, m))
  }

  lemma FieldsSeq(x: Node, y: Node, b: nat)
    ensures FieldsOf(Seq(x, y), b) == FieldsOf(x, b) + FieldsOf(y, b + Size(x))
    ensures PushesOf(Seq(x, y), b) == PushesOf(x, b) + PushesOf(y, b + Size(x))
  {}

  lemma PeakSeq(x: Node, y: Node, m: seq<Ty>)
    ensures PeakOf(Seq(x, y), m) == Max(PeakOf(x, m), PeakOf(y, OutOf(x, m)))
  {}

  lemma AfterSeq(st: State, x: Node, y: Node, m: seq<Ty>)
    ensures After(st, Seq(x, y), m) == After(After(st, x, m), y, OutOf(x, m))
  {
    hide Flatten, FieldsOf, PushesOf, PeakOf, OutOf, ModelOf;
    var b, b' := |st.cmds|, |st.cmds| + Size(x);
    FlattenSeq(x, y, b, []);
    FieldsSeq(x, y, b);
    PeakSeq(x, y, m);
    Concat(st.cmds, Flatten(x, b, []), Flatten(y, b', []));
    Concat(st.fields, FieldsOf(x, b), FieldsOf(y, b'));
    Concat(st.pushes, PushesOf(x, b), PushesOf(y, b'));
    SeqIsParts(b, x, y, m, []);
    Concat(st.model, ModelOf(x, m), ModelOf(y, OutOf(x, m)));
  }

  lemma AfterNop(st: State, m: seq<Ty>)
    requires st.depth >= |m|
    ensures After(st, Nop, m) == st && After(st, Stuck, m) == st
  {}

  lemma BlockTables(x: Node, out: seq<Ty>, b: nat, m: seq<Ty>)
    ensures FieldsOf(Block(x, out), b) == FieldsOf(x, b) + SitesOf(x, b, 0)
    ensures PushesOf(Block(x, out), b) == PushesOf(x, b) && PeakOf(Block(x, out), m) == PeakOf(x, m)
    ensures ModelOf(Block(x, out), m) == ModelOf(x, m)
  {}

  /** Binding the label of a block whose code was just emitted. */
  lemma AfterBlock(st: State, x: Node, out: seq<Ty>, m: seq<Ty>)
    ensures var mid, sites := After(st, x, m), SitesOf(x, |st.cmds|, 0);
      After(st, Block(x, out), m) == mid.(cmds := PatchSites(mid.cmds, sites, |mid.cmds|), fields := mid.fields + sites)
  {
    hide Flatten, FieldsOf, PushesOf, PeakOf, SitesOf, PatchSites, ModelOf;
    var b := |st.cmds|;
    var end := b + Size(x);
    PatchLevel(st.cmds, x, [], [], end);
    BlockIsBody(b, x, out, m, []);
    BlockTables(x, out, b, m);
    assert [end] + [] == [end] && [] + [end] == [end];
    assert st.cmds + Flatten(x, b, []) + [] == st.cmds + Flatten(x, b, []);
    assert st.cmds + Flatten(x, b, [end]) + [] == st.cmds + Flatten(x, b, [end]);
    Concat(st.fields, FieldsOf(x, b), SitesOf(x, b, 0));
  }

  lemma AfterSize(st: State, n: Node, m: seq<Ty>)
    ensures |After(st, n, m).cmds| == |st.cmds| + Size(n)
    ensures After(st, n, m).depth >= |m| && After(st, n, m).depth >= st.depth
  {}
}
