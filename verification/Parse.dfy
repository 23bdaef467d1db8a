/**
  Streamed rows, as the parser handles them: the emitter appends a row's code to the
  container and its tables to the parse context, then the peephole runs over everything. A
  row that is rejected half-way is rolled back to a checkpoint.
*/
module Parse {
  import opened Machine
  import opened Optimizer
  import opened OptimizeInPlace
  import opened Blocks
  import opened Lowering
  import opened LoweringTyped
  import opened PartialRows
  import opened Patching
  import opened Emitters
  import opened Streaming

  /** The emitter works on the container's commands and the context's tables. */
  ghost predicate InSync(em: Emitter, t: ParseTables, c: Container)
    reads em, t, c
  {
    em.cmds == c.cmds && em.fields == t.fields && em.pushes == t.pushes
  }

  /** Emits a row: its value is brought to the script's return type and stored. */
  method EmitRow(em: Emitter, x: Expr, ret: seq<Ty>, ghost w: World, ghost tys: seq<Ty>)
    requires em.maxDepth >= |em.stackTypes| && RowChecked(w, x, ret, tys) && ScopesOk(em.stackTypes, em.scopes, tys)
    requires Room(w, RowNode(x, ret, em.stackTypes, em.scopes, tys), em.stackTypes)
    modifies em
    ensures em.View() == After(old(em.View()), RowNode(x, ret, old(em.stackTypes), old(em.scopes), tys), old(em.stackTypes))
    ensures em.stackTypes == old(em.stackTypes) && em.scopes == old(em.scopes) && em.maxDepth >= |em.stackTypes|
  {
    hide After, Lower, Valued, Room, Check, ResultOf;
    ghost var m, sl, st := em.stackTypes, em.scopes, em.View();
    if ret == [] {
      em.EmitExpr(x, w, tys);
      assert m + [] == m;
    } else {
      ghost var value := Valued(x, ret, m, sl, tys);
      RoomSeq(w, value, Op1(Return, 0), m);
      em.EmitValued(x, ret, w, tys);
      em.EmitOp(Return, 0);
      ValuedTyped(w, x, ret, m, sl, tys);
      LeadsHere(w, value, m, m + ret, []);
      AfterSeq(st, value, Op1(Return, 0), m);
      assert Init(m + ret, 1) == m;
    }
  }

  method ParseRow(em: Emitter, t: ParseTables, c: Container, row: Row, ret: seq<Ty>, ghost w: World, ghost tys: seq<Ty>)
    requires t.optimize && InSync(em, t, c) && em.maxDepth >= |em.stackTypes|
    requires RowChecked(w, row.expr, ret, tys) && ScopesOk(em.stackTypes, em.scopes, tys)
    requires Room(w, RowNode(row.expr, ret, em.stackTypes, em.scopes, tys), em.stackTypes)
    modifies em, t, c
    ensures View(t, c) == Optimize(AppendRow(old(View(t, c)), RowNode(row.expr, ret, old(em.stackTypes), old(em.scopes), tys), row.locs, row.descs))
    ensures InSync(em, t, c) && em.scopes == old(em.scopes) && em.stackTypes == old(em.stackTypes) && em.maxDepth >= |em.stackTypes|
    ensures em.maxDepth == Max(old(em.maxDepth), PeakOf(RowNode(row.expr, ret, old(em.stackTypes), old(em.scopes), tys), old(em.stackTypes)))
  {
    hide Optimize, RowNode, Room, RowChecked;
    EmitRow(em, row.expr, ret, w, tys);
    c.cmds, c.locs, c.descs := em.cmds, c.locs + row.locs, c.descs + row.descs;
    t.fields, t.pushes := em.fields, em.pushes;
    OptimizeCommands(t, c);
    em.cmds, em.fields, em.pushes := c.cmds, t.fields, t.pushes;
  }

  // --- rejected rows -------------------------------------------------------------------------------

  /** The container's small tables and its string pool. */
  class Declarations {
    var args: seq<Slot>
    var saved: seq<Slot>
    var lists: seq<Slot>
    var types: seq<Ty>
    var pool: string

    ghost function View(): Tables
      reads this
    {
      Tables(args, saved, lists, types)
    }

    method Declare(kind: SlotKind, slot: Slot)
      modifies this`args, this`saved, this`lists
      ensures View() == Declared(old(View()), kind, slot)
    {
      match kind
      case OfArgs => args := args + [slot];
      case OfSaved => saved := saved + [slot];
      case OfLists => lists := lists + [slot];
    }

    /** A slot's type changes in place, also that of a slot an earlier row declared. */
    method Retype(kind: SlotKind, i: nat, ty: Ty)
      modifies this`args, this`saved, this`lists
      ensures View() == Retyped(old(View()), kind, i, ty)
    {
      match kind
      case OfArgs => if i < |args| { args := args[i := args[i].(ty := Some(ty))]; }
      case OfSaved => if i < |saved| { saved := saved[i := saved[i].(ty := Some(ty))]; }
      case OfLists => if i < |lists| { lists := lists[i := lists[i].(ty := Some(ty))]; }
    }
  }

  ghost function Here(t: ParseTables, c: Container, d: Declarations, open: seq<seq<Field>>): Partial
    reads t, c, d
  {
    Partial(View(t, c), d.pool, d.View(), open)
  }

  /** Emits one command: through the instruction table, as an unwind, or bare. */
  method EmitAny(em: Emitter, cmd: Command)
    requires em.maxDepth >= |em.stackTypes|
    modifies em
    ensures em.cmds == old(em.cmds) + [cmd] && em.fields == old(em.fields) && em.pushes == old(em.pushes)
    ensures em.maxDepth >= |em.stackTypes| && em.maxDepth >= old(em.maxDepth)
  {
    if cmd.op.Basic? {
      em.EmitOp(cmd.op.prim, cmd.arg);
    } else if cmd.op.Erase? && cmd.arg >= 0 {
      em.EmitErase(cmd.arg, em.stackTypes, []);
    } else {
      em.cmds := em.cmds + [cmd];
    }
  }

  /** What the emitter itself does in a step: code, labels and its own tables. */
  method StepCode(em: Emitter, base: nat, a: Act, open: seq<seq<Field>>, ghost p: Partial) returns (more: seq<seq<Field>>)
    requires em.maxDepth >= |em.stackTypes| && em.cmds == p.stream.cmds && em.fields == p.stream.fields && em.pushes == p.stream.pushes && open == p.open
    modifies em
    ensures var q := Make(base, a, p); em.cmds == q.stream.cmds && em.fields == q.stream.fields && em.pushes == q.stream.pushes && more == q.open
    ensures em.maxDepth >= |em.stackTypes| && em.maxDepth >= old(em.maxDepth)
  {
    hide PatchSites, PrimOut;
    more := open;
    match a {
      case Emit(cmd) => EmitAny(em, cmd);
      case Fill(k, arg) => if base + k < |em.cmds| { em.cmds := em.cmds[base + k := em.cmds[base + k].(arg := arg)]; }
      case OpenLabel => more := [[]] + open;
      case JumpOut(op, mode, l) =>
        var sites := em.JumpTo(op, mode, 0, if l < |open| then open[l] else [], em.stackTypes, []);
        if l < |open| { more := open[l := sites]; }
      case BindLabel =>
        if open != [] {
          em.Bind(open[0]);
          more := open[1..];
        }
      case Discard(slot, read) =>
        em.pushes := em.pushes + [DeadPush(|em.cmds|, |em.cmds| + 2, slot)];
        em.cmds := em.cmds + [Command(PushContext, 0), read, Command(Erase, slot)];
      case Stacks(types, scopes) =>
        em.stackTypes, em.scopes := types, scopes;
        if |types| > em.maxDepth { em.maxDepth := |types|; }
      case _ =>
    }
  }

  method StepTables(t: ParseTables, c: Container, base: nat, a: Act, ghost p: Partial)
    requires t.slots == p.stream.slots && c.locs == p.stream.locs && c.descs == p.stream.descs
    modifies t`slots, c`locs, c`descs
    ensures var q := Make(base, a, p); t.slots == q.stream.slots && c.locs == q.stream.locs && c.descs == q.stream.descs
  {
    hide PatchSites;
    match a {
      case RecordSlot(k) => t.slots := t.slots + [base + k];
      case Locate(loc) => c.locs := c.locs + [loc];
      case Describe(desc) => c.descs := c.descs + [desc];
      case _ =>
    }
  }

  method StepDeclarations(d: Declarations, base: nat, a: Act, ghost p: Partial)
    requires d.View() == p.tables && d.pool == p.pool
    modifies d
    ensures var q := Make(base, a, p); d.View() == q.tables && d.pool == q.pool
  {
    hide PatchSites;
    match a {
      case Intern(text) => d.pool := d.pool + text;
      case Declare(kind, slot) => d.Declare(kind, slot);
      case Retype(kind, i, ty) => d.Retype(kind, i, ty);
      case NameType(ty) => d.types := d.types + [ty];
      case _ =>
    }
  }

  /** One step of a row, made by the emitter's own operations. */
  method Step(em: Emitter, t: ParseTables, c: Container, d: Declarations, base: nat, a: Act, open: seq<seq<Field>>) returns (more: seq<seq<Field>>)
    requires InSync(em, t, c) && em.maxDepth >= |em.stackTypes|
    modifies em, t, c, d
    ensures Here(t, c, d, more) == Make(base, a, old(Here(t, c, d, open)))
    ensures InSync(em, t, c) && em.maxDepth >= |em.stackTypes| && em.maxDepth >= old(em.maxDepth)
  {
    hide Make;
    ghost var p := Here(t, c, d, open);
    more := StepCode(em, base, a, open, p);
    StepTables(t, c, base, a, p);
    StepDeclarations(d, base, a, p);
    c.cmds, t.fields, t.pushes := em.cmds, em.fields, em.pushes;
  }

  /** Large tables by their sizes, small ones and the compile-time stacks as copies. */
  datatype Checkpoint = Checkpoint(
    cmds: nat, locs: nat, descs: nat, fields: nat, slots: nat, pushes: nat, pool: nat,
    args: seq<Slot>, saved: seq<Slot>, lists: seq<Slot>, types: seq<Ty>, stackTypes: seq<Ty>, scopes: seq<nat>)

  method Mark(em: Emitter, t: ParseTables, c: Container, d: Declarations) returns (k: Checkpoint)
    ensures k == Checkpoint(|c.cmds|, |c.locs|, |c.descs|, |t.fields|, |t.slots|, |t.pushes|, |d.pool|,
                            d.args, d.saved, d.lists, d.types, em.stackTypes, em.scopes)
  {
    k := Checkpoint(|c.cmds|, |c.locs|, |c.descs|, |t.fields|, |t.slots|, |t.pushes|, |d.pool|,
                    d.args, d.saved, d.lists, d.types, em.stackTypes, em.scopes);
  }

  method CutTables(t: ParseTables, k: Checkpoint)
    requires k.fields <= |t.fields| && k.slots <= |t.slots| && k.pushes <= |t.pushes|
    modifies t
    ensures t.fields == old(t.fields)[..k.fields] && t.slots == old(t.slots)[..k.slots] && t.pushes == old(t.pushes)[..k.pushes]
  {
    t.fields := t.fields[..k.fields];
    t.slots := t.slots[..k.slots];
    t.pushes := t.pushes[..k.pushes];
  }

  method CutContainer(c: Container, k: Checkpoint)
    requires k.cmds <= |c.cmds| && k.descs <= |c.descs|
    modifies c
    ensures c.cmds == old(c.cmds)[..k.cmds] && c.descs == old(c.descs)[..k.descs]
    ensures c.locs == old(c.locs)[..if k.locs < |old(c.locs)| then k.locs else |old(c.locs)|]
  {
    c.cmds := c.cmds[..k.cmds];
    c.locs := c.locs[..if k.locs < |c.locs| then k.locs else |c.locs|];
    c.descs := c.descs[..k.descs];
  }

  method PutBack(d: Declarations, k: Checkpoint)
    requires k.pool <= |d.pool|
    modifies d
    ensures d.View() == Tables(k.args, k.saved, k.lists, k.types) && d.pool == old(d.pool)[..k.pool]
  {
    d.pool := d.pool[..k.pool];
    d.args, d.saved, d.lists, d.types := k.args, k.saved, k.lists, k.types;
  }

  /** Cuts everything back to the checkpoint; the observed peak stays. */
  method Restore(em: Emitter, t: ParseTables, c: Container, d: Declarations, k: Checkpoint)
    requires k.cmds <= |c.cmds| && k.descs <= |c.descs| && k.fields <= |t.fields| && k.slots <= |t.slots| && k.pushes <= |t.pushes| && k.pool <= |d.pool|
    modifies em, t, c, d
    ensures View(t, c) == Stream(old(c.cmds)[..k.cmds], old(c.locs)[..if k.locs < |old(c.locs)| then k.locs else |old(c.locs)|], old(c.descs)[..k.descs],
                                 old(t.fields)[..k.fields], old(t.slots)[..k.slots], old(t.pushes)[..k.pushes])
    ensures d.View() == Tables(k.args, k.saved, k.lists, k.types) && d.pool == old(d.pool)[..k.pool]
    ensures InSync(em, t, c) && em.stackTypes == k.stackTypes && em.scopes == k.scopes && em.maxDepth == old(em.maxDepth)
  {
    CutContainer(c, k);
    CutTables(t, k);
    PutBack(d, k);
    em.stackTypes, em.scopes := k.stackTypes, k.scopes;
    em.cmds, em.fields, em.pushes := c.cmds, t.fields, t.pushes;
  }

  /** Emission up to the error. */
  method EmitPartly(em: Emitter, t: ParseTables, c: Container, d: Declarations, acts: seq<Act>) returns (open: seq<seq<Field>>)
    requires InSync(em, t, c) && em.maxDepth >= |em.stackTypes|
    modifies em, t, c, d
    ensures Here(t, c, d, open) == MakeAll(|old(c.cmds)|, acts, old(Here(t, c, d, [])))
    ensures InSync(em, t, c) && em.maxDepth >= |em.stackTypes| && em.maxDepth >= old(em.maxDepth)
  {
    hide Make;
    ghost var before := Here(t, c, d, []);
    var base, k := |c.cmds|, 0;
    open := [];
    assert acts[0..] == acts;
    while k < |acts|
      invariant k <= |acts| && InSync(em, t, c) && em.maxDepth >= |em.stackTypes| && em.maxDepth >= old(em.maxDepth)
      invariant MakeAll(base, acts[k..], Here(t, c, d, open)) == MakeAll(base, acts, before)
    {
      assert acts[k..][0] == acts[k] && acts[k..][1..] == acts[k + 1..];
      open := Step(em, t, c, d, base, acts[k], open);
      k := k + 1;
    }
  }

  lemma CutBack<T>(a: seq<T>, b: seq<T>)
    requires a <= b
    ensures b[..|a|] == a
  {}

  /** A rejected row leaves container, tables, pool and stacks as they were, whichever steps it made before the error. */
  method RejectRow(em: Emitter, t: ParseTables, c: Container, d: Declarations, acts: seq<Act>)
    requires InSync(em, t, c) && em.maxDepth >= |em.stackTypes|
    modifies em, t, c, d
    ensures View(t, c) == old(View(t, c)) && d.View() == old(d.View()) && d.pool == old(d.pool) && InSync(em, t, c)
    ensures em.stackTypes == old(em.stackTypes) && em.scopes == old(em.scopes) && em.maxDepth >= old(em.maxDepth)
  {
    hide MakeAll;
    ghost var start, pool := View(t, c), d.pool;
    ghost var before := Here(t, c, d, []);
    var k := Mark(em, t, c, d);
    var open := EmitPartly(em, t, c, d, acts);
    RowExtends(start, acts, before);
    ghost var now := View(t, c);
    CutBack(start.cmds, now.cmds);
    CutBack(start.locs, now.locs);
    CutBack(start.descs, now.descs);
    CutBack(start.fields, now.fields);
    CutBack(start.slots, now.slots);
    CutBack(start.pushes, now.pushes);
    CutBack(pool, d.pool);
    Restore(em, t, c, d, k);
  }

  // --- a whole stream ---------------------------------------------------------------------------------

  datatype Attempt = Accepted(row: Row) | Rejected(acts: seq<Act>)

  /** The rows that were taken, in order. */
  function Taken(attempts: seq<Attempt>): seq<Row> {
    if attempts == [] then []
    else
      var last, front := attempts[|attempts| - 1], Taken(attempts[..|attempts| - 1]);
      if last.Accepted? then front + [last.row] else front
  }

  lemma {:induction false} StreamedPrefix(rows: seq<Row>, more: seq<Row>, k: nat, ret: seq<Ty>, m: seq<Ty>, sl: seq<nat>, tys: seq<Ty>)
    requires k <= |rows|
    ensures Streamed(rows + more, k, ret, m, sl, tys) == Streamed(rows, k, ret, m, sl, tys)
    decreases k
  {
    hide Optimize, RowNode;
    if k > 0 { StreamedPrefix(rows, more, k - 1, ret, m, sl, tys); }
  }

  /** What the generator has checked of an accepted row, on the stacks every row starts on. */
  ghost predicate Fits(w: World, a: Attempt, ret: seq<Ty>, m: seq<Ty>, sl: seq<nat>, tys: seq<Ty>) {
    a.Accepted? ==> RowChecked(w, a.row.expr, ret, tys) && Room(w, RowNode(a.row.expr, ret, m, sl, tys), m)
  }

  /** Rows in any order of acceptance and rejection build the stream of the accepted ones. */
  method ParseRows(em: Emitter, t: ParseTables, c: Container, d: Declarations, attempts: seq<Attempt>, ret: seq<Ty>, ghost w: World, ghost tys: seq<Ty>)
    requires t.optimize && InSync(em, t, c) && em.maxDepth >= |em.stackTypes| && View(t, c) == Stream([], [], [], [], [], [])
    requires ScopesOk(em.stackTypes, em.scopes, tys) && forall i :: 0 <= i < |attempts| ==> Fits(w, attempts[i], ret, em.stackTypes, em.scopes, tys)
    modifies em, t, c, d
    ensures View(t, c) == Streamed(Taken(attempts), |Taken(attempts)|, ret, old(em.stackTypes), old(em.scopes), tys)
    ensures d.View() == old(d.View()) && d.pool == old(d.pool)
  {
    hide Optimize, RowNode, Room, RowChecked, Streamed;
    ghost var m, sl := em.stackTypes, em.scopes;
    var i := 0;
    StreamedNone(Taken(attempts[..0]), ret, m, sl, tys);
    while i < |attempts|
      invariant i <= |attempts| && InSync(em, t, c) && em.stackTypes == m && em.scopes == sl && em.maxDepth >= |em.stackTypes|
      invariant d.View() == old(d.View()) && d.pool == old(d.pool)
      invariant View(t, c) == Streamed(Taken(attempts[..i]), |Taken(attempts[..i])|, ret, m, sl, tys)
    {
      assert attempts[..i + 1][..i] == attempts[..i] && Fits(w, attempts[i], ret, m, sl, tys);
      ghost var rows := Taken(attempts[..i]);
      if attempts[i].Accepted? {
        ParseRow(em, t, c, attempts[i].row, ret, w, tys);
        StreamedPrefix(rows, [attempts[i].row], |rows|, ret, m, sl, tys);
        StreamedMore(rows, attempts[i].row, ret, m, sl, tys);
      } else {
        RejectRow(em, t, c, d, attempts[i].acts);
      }
      i := i + 1;
    }
    assert attempts[..i] == attempts;
  }

  lemma StreamedNone(rows: seq<Row>, ret: seq<Ty>, m: seq<Ty>, sl: seq<nat>, tys: seq<Ty>)
    ensures Streamed(rows, 0, ret, m, sl, tys) == Stream([], [], [], [], [], [])
  {}

  lemma StreamedMore(rows: seq<Row>, row: Row, ret: seq<Ty>, m: seq<Ty>, sl: seq<nat>, tys: seq<Ty>)
    ensures Streamed(rows + [row], |rows| + 1, ret, m, sl, tys) ==
      Optimize(AppendRow(Streamed(rows + [row], |rows|, ret, m, sl, tys), RowNode(row.expr, ret, m, sl, tys), row.locs, row.descs))
  {
    hide Optimize, RowNode;
  }
}
