/**
  A row while it is being emitted. The generator may stop with an error after any of its
  steps; what it has done until then only lies behind what was there before the row,
  because every label it binds and every argument it fills in is one of its own commands.
  A row that is not rejected runs the same steps to the end.
*/
module PartialRows {
  import opened Machine
  import opened Optimizer
  import opened Blocks
  import opened Emission
  import opened Patching
  import opened Streaming

  /** A declared argument, saved value or list; a list may have no type yet. */
  datatype Slot = Slot(name: string, ty: Option<Ty>)

  datatype SlotKind = OfArgs | OfSaved | OfLists

  /** The small tables of a container, which a row may also change in place. */
  datatype Tables = Tables(args: seq<Slot>, saved: seq<Slot>, lists: seq<Slot>, types: seq<Ty>)

  /** What there is in the middle of a row: `open` are the branches that wait for each open label, innermost first. */
  datatype Partial = Partial(stream: Stream, pool: string, tables: Tables, open: seq<seq<Field>>)

  datatype Act =
    | Emit(cmd: Command)
    | Fill(k: nat, arg: int)                       // the argument of the row's k-th command
    | OpenLabel
    | JumpOut(op: Op, mode: int, level: nat)
    | BindLabel
    | Discard(at: nat, read: Command)              // context, read, unwind, recorded as a dead push
    | RecordSlot(k: nat)                           // the row's k-th command is data
    | Locate(loc: Location)
    | Describe(desc: Description)
    | Intern(text: string)
    | Declare(kind: SlotKind, slot: Slot)
    | Retype(kind: SlotKind, index: nat, ty: Ty)
    | NameType(ty: Ty)
    | Stacks(types: seq<Ty>, scopes: seq<nat>)     // the compile-time stacks, left as anything

  function Declared(t: Tables, kind: SlotKind, slot: Slot): Tables {
    match kind
    case OfArgs => t.(args := t.args + [slot])
    case OfSaved => t.(saved := t.saved + [slot])
    case OfLists => t.(lists := t.lists + [slot])
  }

  function RetypeAt(s: seq<Slot>, i: nat, ty: Ty): seq<Slot> { if i < |s| then s[i := s[i].(ty := Some(ty))] else s }

  function Retyped(t: Tables, kind: SlotKind, i: nat, ty: Ty): Tables {
    match kind
    case OfArgs => t.(args := RetypeAt(t.args, i, ty))
    case OfSaved => t.(saved := RetypeAt(t.saved, i, ty))
    case OfLists => t.(lists := RetypeAt(t.lists, i, ty))
  }

  function Filled(cmds: seq<Command>, i: nat, arg: int): seq<Command> {
    if i < |cmds| then cmds[i := cmds[i].(arg := arg)] else cmds
  }

  /** One step of a row whose first command is the one with index `base`. */
  function Make(base: nat, a: Act, p: Partial): Partial {
    var x, end := p.stream, |p.stream.cmds|;
    match a
    case Emit(cmd) => p.(stream := x.(cmds := x.cmds + [cmd]))
    case Fill(k, arg) => p.(stream := x.(cmds := Filled(x.cmds, base + k, arg)))
    case OpenLabel => p.(open := [[]] + p.open)
    case JumpOut(op, mode, l) =>
      var q := p.(stream := x.(cmds := x.cmds + [Branch(op, mode, 0)]));
      if l < |p.open| then q.(open := p.open[l := p.open[l] + [SiteField(end, op)]]) else q
    case BindLabel =>
      if p.open == [] then p
      else p.(stream := x.(cmds := PatchSites(x.cmds, p.open[0], end), fields := x.fields + p.open[0]), open := p.open[1..])
    case Discard(slot, read) =>
      p.(stream := x.(cmds := x.cmds + [Command(PushContext, 0), read, Command(Erase, slot)], pushes := x.pushes + [DeadPush(end, end + 2, slot)]))
    case RecordSlot(k) => p.(stream := x.(slots := x.slots + [base + k]))
    case Locate(loc) => p.(stream := x.(locs := x.locs + [loc]))
    case Describe(desc) => p.(stream := x.(descs := x.descs + [desc]))
    case Intern(text) => p.(pool := p.pool + text)
    case Declare(kind, slot) => p.(tables := Declared(p.tables, kind, slot))
    case Retype(kind, i, ty) => p.(tables := Retyped(p.tables, kind, i, ty))
    case NameType(ty) => p.(tables := p.tables.(types := p.tables.types + [ty]))
    case Stacks(_, _) => p
  }

  function MakeAll(base: nat, acts: seq<Act>, p: Partial): Partial
    decreases |acts|
  {
    if acts == [] then p else MakeAll(base, acts[1..], Make(base, acts[0], p))
  }

  // --- steps only touch what is their own ------------------------------------------------------

  /** Everything that was there before is there still, in front. */
  predicate Extends(old': Stream, now: Stream) {
    && old'.cmds <= now.cmds && old'.locs <= now.locs && old'.descs <= now.descs
    && old'.fields <= now.fields && old'.slots <= now.slots && old'.pushes <= now.pushes
  }

  /** Every open branch is the row's own. */
  predicate Behind(base: nat, sites: seq<Field>) { forall f :: f in sites ==> f.cmd >= base }

  predicate AllBehind(base: nat, open: seq<seq<Field>>) { forall l :: 0 <= l < |open| ==> Behind(base, open[l]) }

  /** Binding a label patches only the branches that wait for it. */
  lemma {:induction false} PatchExtends(front: seq<Command>, cmds: seq<Command>, sites: seq<Field>, target: int)
    requires front <= cmds && Behind(|front|, sites)
    ensures front <= PatchSites(cmds, sites, target)
    decreases |sites|
  {
    if sites != [] {
      assert sites[0] in sites;
      PatchExtends(front, PatchOne(cmds, sites[0], target), sites[1..], target);
    }
  }

  lemma MakeExtends(start: Stream, a: Act, p: Partial)
    requires Extends(start, p.stream) && AllBehind(|start.cmds|, p.open)
    ensures var q := Make(|start.cmds|, a, p); Extends(start, q.stream) && AllBehind(|start.cmds|, q.open)
  {
    hide PatchSites;
    if a.BindLabel? && p.open != [] { PatchExtends(start.cmds, p.stream.cmds, p.open[0], |p.stream.cmds|); }
  }

  /** Wherever a row stops, what was there before it is in front and untouched, and the string pool only longer. */
  lemma {:induction false} RowExtends(start: Stream, acts: seq<Act>, p: Partial)
    requires Extends(start, p.stream) && AllBehind(|start.cmds|, p.open)
    ensures var q := MakeAll(|start.cmds|, acts, p); Extends(start, q.stream) && AllBehind(|start.cmds|, q.open) && p.pool <= q.pool
    decreases |acts|
  {
    hide Make, Extends, AllBehind;
    if acts != [] {
      MakeExtends(start, acts[0], p);
      PoolGrows(|start.cmds|, acts[0], p);
      RowExtends(start, acts[1..], Make(|start.cmds|, acts[0], p));
    }
  }

  lemma PoolGrows(base: nat, a: Act, p: Partial)
    ensures p.pool <= Make(base, a, p).pool
  {}

  // --- a finished row --------------------------------------------------------------------------

  /** The steps that emit the code of a node. */
  function Trace(n: Node): seq<Act> {
    match n
    case Nop => []
    case Stuck => []
    case Do(cmd) => [Emit(cmd)]
    case Unread(slot, read, _) => [Discard(slot, read)]
    case Seq(x, y) => Trace(x) + Trace(y)
    case Exit(op, mode, l) => [JumpOut(op, mode, l)]
    case Block(x, _) => [OpenLabel] + Trace(x) + [BindLabel]
  }

  lemma {:induction false} MakeBoth(base: nat, a: seq<Act>, b: seq<Act>, p: Partial)
    ensures MakeAll(base, a + b, p) == MakeAll(base, b, MakeAll(base, a, p))
    decreases |a|
  {
    hide Make;
    if a == [] {
      assert a + b == b;
    } else {
      assert (a + b)[1..] == a[1..] + b;
      MakeBoth(base, a[1..], b, Make(base, a[0], p));
    }
  }

  lemma MakeOne(base: nat, a: Act, p: Partial)
    ensures MakeAll(base, [a], p) == Make(base, a, p)
  {
    hide Make;
    assert [a][1..] == [];
  }

  /** What the steps of a node leave: its code, its tables, and its open branches with those that waited before. */
  function Emitted(n: Node, p: Partial): Partial {
    var x, b := p.stream, |p.stream.cmds|;
    p.(stream := x.(cmds := x.cmds + Flatten(n, b, []), fields := x.fields + FieldsOf(n, b), pushes := x.pushes + PushesOf(n, b)),
       open := Waiting(n, b, p.open))
  }

  function Waiting(n: Node, b: nat, open: seq<seq<Field>>): (r: seq<seq<Field>>)
    ensures |r| == |open|
  {
    seq(|open|, l requires 0 <= l < |open| => open[l] + SitesOf(n, b, l))
  }

  lemma WaitingSeq(x: Node, y: Node, b: nat, open: seq<seq<Field>>)
    ensures Waiting(Seq(x, y), b, open) == Waiting(y, b + Size(x), Waiting(x, b, open))
  {
    hide Size;
    forall l: nat | l < |open| ensures Waiting(Seq(x, y), b, open)[l] == Waiting(y, b + Size(x), Waiting(x, b, open))[l] {
      SitesSeq(x, y, b, l);
    }
  }

  lemma WaitingBlock(x: Node, out: seq<Ty>, b: nat, open: seq<seq<Field>>)
    ensures Waiting(x, b, [[]] + open) == [SitesOf(x, b, 0)] + Waiting(Block(x, out), b, open)
  {
    var all := [[]] + open;
    forall l: nat | l < |all| ensures Waiting(x, b, all)[l] == ([SitesOf(x, b, 0)] + Waiting(Block(x, out), b, open))[l] {
      if l > 0 { SitesBlock(x, out, b, l - 1); }
    }
  }

  lemma WaitingNone(n: Node, b: nat, open: seq<seq<Field>>)
    requires !n.Exit? && !n.Seq? && !n.Block?
    ensures Waiting(n, b, open) == open
  {
    forall l: nat | l < |open| ensures Waiting(n, b, open)[l] == open[l] { assert SitesOf(n, b, l) == []; }
  }

  lemma EmittedSeq(x: Node, y: Node, p: Partial)
    ensures Emitted(Seq(x, y), p) == Emitted(y, Emitted(x, p))
  {
    hide Flatten, FieldsOf, PushesOf, Waiting;
    var s, b := p.stream, |p.stream.cmds|;
    FlattenSeq(x, y, b, []);
    FieldsSeq(x, y, b);
    WaitingSeq(x, y, b, p.open);
    Concat(s.cmds, Flatten(x, b, []), Flatten(y, b + Size(x), []));
    Concat(s.fields, FieldsOf(x, b), FieldsOf(y, b + Size(x)));
    Concat(s.pushes, PushesOf(x, b), PushesOf(y, b + Size(x)));
  }

  lemma EmittedBlock(base: nat, x: Node, out: seq<Ty>, p: Partial)
    ensures Make(base, BindLabel, Emitted(x, Make(base, OpenLabel, p))) == Emitted(Block(x, out), p)
  {
    hide Flatten, FieldsOf, PushesOf, Waiting, SitesOf, PatchSites;
    var s, b := p.stream, |p.stream.cmds|;
    var st := State(s.cmds, s.fields, s.pushes, 0, []);
    AfterBlock(st, x, out, []);
    WaitingBlock(x, out, b, p.open);
    var rest, q := Waiting(Block(x, out), b, p.open), Emitted(x, Make(base, OpenLabel, p));
    assert ([SitesOf(x, b, 0)] + rest)[1..] == rest;
    assert q.stream.cmds == After(st, x, []).cmds && q.stream.fields == After(st, x, []).fields && q.open == [SitesOf(x, b, 0)] + rest;
    var done, all := Make(base, BindLabel, q), Emitted(Block(x, out), p);
    assert done.stream.cmds == After(st, Block(x, out), []).cmds == all.stream.cmds;
    assert done.stream.fields == After(st, Block(x, out), []).fields == all.stream.fields;
    assert done.stream.pushes == After(st, Block(x, out), []).pushes == all.stream.pushes;
    assert done.stream == all.stream && done.open == all.open;
  }

  lemma EmittedLeaf(base: nat, n: Node, p: Partial)
    requires !n.Exit? && !n.Seq? && !n.Block?
    ensures MakeAll(base, Trace(n), p) == Emitted(n, p)
  {
    WaitingNone(n, |p.stream.cmds|, p.open);
    if n.Do? || n.Unread? { MakeOne(base, Trace(n)[0], p); }
    assert p.stream.cmds + [] == p.stream.cmds && p.stream.fields + [] == p.stream.fields && p.stream.pushes + [] == p.stream.pushes;
  }

  lemma EmittedExit(base: nat, op: Op, mode: int, l: nat, p: Partial)
    ensures MakeAll(base, Trace(Exit(op, mode, l)), p) == Emitted(Exit(op, mode, l), p)
  {
    var n, b := Exit(op, mode, l), |p.stream.cmds|;
    MakeOne(base, JumpOut(op, mode, l), p);
    assert p.stream.fields + [] == p.stream.fields && p.stream.pushes + [] == p.stream.pushes;
    var q := Make(base, JumpOut(op, mode, l), p);
    forall k: nat | k < |p.open| ensures Waiting(n, b, p.open)[k] == q.open[k] {}
    assert Waiting(n, b, p.open) == q.open;
  }

  /** The steps of a node emit exactly the node. */
  lemma {:induction false} TraceEmits(base: nat, n: Node, p: Partial)
    ensures MakeAll(base, Trace(n), p) == Emitted(n, p)
    decreases n
  {
    hide Make, MakeAll, Emitted;
    match n
    case Seq(x, y) =>
      MakeBoth(base, Trace(x), Trace(y), p);
      TraceEmits(base, x, p);
      TraceEmits(base, y, Emitted(x, p));
      EmittedSeq(x, y, p);
    case Block(x, out) =>
      var q := Make(base, OpenLabel, p);
      MakeBoth(base, [OpenLabel] + Trace(x), [BindLabel], p);
      MakeBoth(base, [OpenLabel], Trace(x), p);
      MakeOne(base, OpenLabel, p);
      TraceEmits(base, x, q);
      MakeOne(base, BindLabel, Emitted(x, q));
      EmittedBlock(base, x, out, p);
    case Exit(op, mode, l) => EmittedExit(base, op, mode, l, p);
    case _ => EmittedLeaf(base, n, p);
  }

  /**
    What an operation of the generator promises to emit, from a single command to a closed
    clause or a whole expression, keeps this too: the branches it leaves open are its own.
  */
  lemma NodeExtends(start: Stream, n: Node, m: seq<Ty>, p: Partial, depth: nat)
    requires Extends(start, p.stream) && AllBehind(|start.cmds|, p.open)
    ensures var q, st := Emitted(n, p), After(State(p.stream.cmds, p.stream.fields, p.stream.pushes, depth, []), n, m);
      && q.stream.cmds == st.cmds && q.stream.fields == st.fields && q.stream.pushes == st.pushes
      && Extends(start, q.stream) && AllBehind(|start.cmds|, q.open)
  {
    hide MakeAll, Extends, AllBehind, Flatten, FieldsOf, PushesOf, Waiting;
    TraceEmits(|start.cmds|, n, p);
    RowExtends(start, Trace(n), p);
  }

  /** So an accepted row is the steps of its code, run to the end: what was there, with the row appended. */
  lemma AcceptedRow(n: Node, p: Partial, locs: seq<Location>, descs: seq<Description>)
    requires p.open == []
    ensures var q := MakeAll(|p.stream.cmds|, Trace(n), p);
      && q.stream.(locs := q.stream.locs + locs, descs := q.stream.descs + descs) == AppendRow(p.stream, n, locs, descs)
      && q.open == [] && q.pool == p.pool && q.tables == p.tables
  {
    hide MakeAll, Flatten;
    TraceEmits(|p.stream.cmds|, n, p);
  }
}
