/**
  The normaliser as it runs: rows become prefix trees of blocks. Scope paths are laid out
  first and wrapped around what follows by patching sizes in place.
*/
module Normaliser {
  import opened Machine
  import opened Pratt
  import opened NormalForm

  // --- the normaliser as it runs ------------------------------------------------------------------------------

  /** Looks for an element of a path with nothing in it. */
  method CheckElements(expr: string) returns (ok: bool)
    ensures ok <==> !HasGap(expr)
  {
    var pieceStart, i := 0, 0;
    while i <= |expr|
      invariant pieceStart <= i <= |expr| + 1 && (i <= |expr| || pieceStart == |expr| + 1)
      invariant pieceStart == 0 || (pieceStart <= |expr| ==> Separates(expr[pieceStart - 1]))
      invariant forall j :: pieceStart <= j < i && j < |expr| ==> !Separates(expr[j])
      invariant forall j: nat :: j < i && j <= |expr| ==> !EmptyElement(expr, j)
    {
      if i == |expr| || Separates(expr[i]) {
        if i == pieceStart {
          assert EmptyElement(expr, i);
          return false;
        }
        pieceStart := i + 1;
      }
      i := i + 1;
    }
    ok := true;
  }

  /** The path of a left-hand side, with the sizes it has before it wraps anything. */
  method ConvertScope(expr: string) returns (ok: bool, fn: Option<string>, arr: seq<Block>)
    requires expr != ""
    ensures match SplitPath(expr)
      case Malformed => !ok
      case Path(steps, f) => ok && fn == f && arr == PathBlocks(steps, 0, ScopePath)
  {
    fn, arr, ok := None, [], false;
    var well := CheckElements(expr);
    if !well { return; }
    var dots := Pieces(expr, '.');
    if |dots| > MAX_DOTS { return; }
    var i, size := 0, 0;
    ghost var steps: seq<Step> := [];
    while i < |dots|
      invariant i <= |dots| && arr == RawBlocks(steps) && size == |arr| && |steps| == i
      invariant fn == None ==> Steps(dots, 0, []) == Steps(dots, i, steps)
      invariant fn.Some? ==> Steps(dots, 0, []) == if i == |dots| then Path(steps, fn) else Malformed
    {
      if fn.Some? { return; }
      var colons := Pieces(dots[i], ':');
      if |colons| > MAX_COLONS { return; }
      arr, size := arr + [Block(colons[0], 1, ScopePath)], size + 1;
      ghost var x := Step(colons[0], if |colons| == 3 then Some((colons[1], colons[2])) else None);
      RawAppend(steps, x);
      if |colons| > 2 {
        arr := arr + [Block(colons[1], 2, ScopePathCall), Block(colons[2], 1, Plain)];
        size := size + 2;
      } else if |colons| == 2 {
        fn := Some(colons[1]);
      }
      steps, i := steps + [x], i + 1;
    }
    ok := true;
    if fn == None && |arr| == 1 {
      OneStep(steps);
      return ok, Some(expr), [];
    }
    SeveralSteps(steps, fn);
    arr := SizePath(arr, steps);
  }

  lemma OneStep(steps: seq<Step>)
    requires |RawBlocks(steps)| == 1
    ensures |steps| == 1 && steps[0].call == None && PathBlocks([], 0, ScopePath) == []
  {
    LengthAtLeast(steps);
    assert steps != [];
  }

  lemma SeveralSteps(steps: seq<Step>, fn: Option<string>)
    requires fn.Some? || |RawBlocks(steps)| != 1
    ensures !(fn == None && |steps| == 1 && steps[0].call == None)
  {
    if |steps| == 1 { assert steps[1..] == []; }
  }

  /** Every block but an argument comes to span what is left of the path. */
  method SizePath(raw: seq<Block>, ghost steps: seq<Step>) returns (arr: seq<Block>)
    requires raw == RawBlocks(steps)
    ensures arr == PathBlocks(steps, 0, ScopePath)
  {
    hide PathBlocks, RawBlocks, PathLength, HalfPatched;
    ghost var target := PathBlocks(steps, 0, ScopePath);
    arr := raw;
    var size, i := |raw|, 0;
    PathStarts(steps);
    HalfEnds([], raw, target, []);
    while i < |raw|
      invariant i <= |raw| == PathLength(steps) && size == |raw| - i && (i < |raw| ==> !raw[i].kind.Plain?)
      invariant arr == HalfPatched([], raw, target, [], i)
      decreases |raw| - i
    {
      RawStepAt(steps, i);
      PatchOne([], raw, target, [], i, raw[i].size - 1);
      var own := arr[i].size;
      assert arr[i] == raw[i] && arr[i].(size := size) == target[i];
      arr := arr[i := arr[i].(size := size)];
      size, i := size - own, i + own;
    }
  }

  /** One step of a path before it is sized: it takes one block, or two with its argument. */
  lemma RawStepAt(steps: seq<Step>, i: nat)
    requires i < PathLength(steps) && !RawBlocks(steps)[i].kind.Plain?
    ensures var raw, b := RawBlocks(steps), PathBlocks(steps, 0, ScopePath);
      && b[i] == raw[i].(size := PathLength(steps) - i) && 1 <= raw[i].size <= 2 && i + raw[i].size <= PathLength(steps)
      && (raw[i].size == 2 ==> b[i + 1] == raw[i + 1])
      && (i + raw[i].size < PathLength(steps) ==> !raw[i + raw[i].size].kind.Plain?)
  {
    hide PathBlocks, RawBlocks, PathLength;
    TopOfPath(steps, i, 0);
    RawFollows(steps, i);
    if RawBlocks(steps)[i].kind.ScopePathCall? { ArgumentOfPath(steps, i + 1, 0); }
  }

  /** How many trees lie directly below the first block; in a path, how many blocks belong to its step behind it. */
  method DirectChildCount(data: seq<Block>, ghost kids: Trees) returns (count: nat)
    requires data != [] && !data[0].kind.ScopePath? && !data[0].kind.ScopePathCall? ==> data[1..] == Spell(kids)
    ensures count ==
      if data == [] || data[0].kind.ScopePath? then 0
      else if data[0].kind.ScopePathCall? then (if |data| > 1 then 1 else 0)
      else Count(kids)
  {
    count := 0;
    if data == [] || data[0].kind.ScopePath? { return; }
    if data[0].kind.ScopePathCall? { return if |data| > 1 then 1 else 0; }
    var i := 1;
    ghost var rest := kids;
    while i < |data|
      invariant 1 <= i <= |data| && data[i..] == Spell(rest) && count + Count(rest) == Count(kids)
      decreases |data| - i
    {
      NextTree(data, i, rest);
      i, count := i + data[i].size, count + 1;
      rest := rest.rest;
    }
    SpellEmpty(rest);
  }

  lemma SpellEmpty(ts: Trees)
    ensures |Spell(ts)| == 0 <==> ts == Nil
  {}

  /** A block's size leads to the tree behind it. */
  lemma NextTree(data: seq<Block>, i: nat, ts: Trees)
    requires i < |data| && data[i..] == Spell(ts)
    ensures ts.Cons? && data[i].name == ts.name && data[i].kind == ts.kind && data[i].size == |Spell(ts.kids)| + 1
    ensures i + data[i].size <= |data| && data[i + 1..i + data[i].size] == Spell(ts.kids) && data[i + data[i].size..] == Spell(ts.rest)
    ensures data[i..i + data[i].size] == Spell(One(ts.name, ts.kind, ts.kids))
  {
    hide Spell;
    SpellEmpty(ts);
    ConsSpells(ts);
    SpellOne(ts.name, ts.kind, ts.kids);
    FrontParts(data, i, Block(ts.name, |Spell(ts.kids)| + 1, ts.kind), Spell(ts.kids), Spell(ts.rest));
  }

  lemma ConsSpells(ts: Trees)
    ensures ts.Cons? ==> Spell(ts) == [Block(ts.name, |Spell(ts.kids)| + 1, ts.kind)] + Spell(ts.kids) + Spell(ts.rest)
  {
    if ts.Cons? { FrontedIs(ts.name, ts.kind, Spell(ts.kids), Spell(ts.rest)); }
    hide Fronted;
  }

  lemma FrontedIs(name: string, kind: BlockKind, below: seq<Block>, behind: seq<Block>)
    ensures Fronted(name, kind, below, behind) == [Block(name, |below| + 1, kind)] + below + behind
  {}

  lemma FrontParts(data: seq<Block>, i: nat, b: Block, below: seq<Block>, behind: seq<Block>)
    requires i < |data| && data[i..] == [b] + below + behind
    ensures var n := |below| + 1;
      && data[i] == b && i + n <= |data| && data[i + 1..i + n] == below && data[i + n..] == behind && data[i..i + n] == [b] + below
  {
    var n, part := |below| + 1, data[i..];
    assert part[0] == b && part[1..n] == below && part[n..] == behind && part[..n] == [b] + below;
    assert data[i + 1..i + n] == part[1..n] && data[i + n..] == part[n..] && data[i..i + n] == part[..n];
  }

  class Converter {
    const r: Reader
    var output: seq<Block>

    constructor (r: Reader)
      ensures this.r == r && output == []
    {
      this.r, output := r, [];
    }

    /** Appends the blocks of a path, step by step. */
    method CopyPath(arr: seq<Block>, ghost steps: seq<Step>)
      requires arr == PathBlocks(steps, 0, ScopePath)
      modifies this
      ensures output == old(output) + arr
    {
      hide PathBlocks, RawBlocks, PathLength, Spell;
      var i := 0;
      PathStarts(steps);
      while i < |arr|
        invariant i <= |arr| == PathLength(steps) && output == old(output) + arr[..i] && (i < |arr| ==> !RawBlocks(steps)[i].kind.Plain?)
        decreases |arr| - i
      {
        StepAt(steps, i, 0);
        var n := DirectChildCount(arr[i..], Nil);
        output := output + [arr[i]];
        var j := i + 1;
        while j < i + n + 1
          invariant i + 1 <= j <= i + n + 1 <= |arr| && output == old(output) + arr[..j]
        {
          output, j := output + [arr[j]], j + 1;
        }
        i := i + n + 1;
      }
    }

    /** What the path wraps has been appended: every block of it that spans to the end grows. */
    method WrapPath(start: nat, count: nat, more: nat, ghost steps: seq<Step>, ghost front: seq<Block>, ghost back: seq<Block>)
      requires output == front + PathBlocks(steps, 0, ScopePath) + back && start == |front| && count == PathLength(steps)
      modifies this
      ensures output == front + PathBlocks(steps, more, ScopePath) + back
    {
      hide PathBlocks, RawBlocks, PathLength, Spell, HalfPatched;
      ghost var before, after := PathBlocks(steps, 0, ScopePath), PathBlocks(steps, more, ScopePath);
      var i := start;
      PathStarts(steps);
      HalfEnds(front, before, after, back);
      while i < start + count
        invariant start <= i <= start + count && (i < start + count ==> !RawBlocks(steps)[i - start].kind.Plain?)
        invariant output == HalfPatched(front, before, after, back, i - start)
        decreases start + count - i
      {
        ghost var k := i - start;
        StepAt(steps, k, more);
        PatchOne(front, before, after, back, k, if before[k].kind.ScopePathCall? then 1 else 0);
        var n := DirectChildCount(output[i..], Nil);
        output := output[i := output[i].(size := output[i].size + more)];
        i := i + n + 1;
      }
    }

    /** A guarded path: every scope it walks may be invalid. */
    method GuardPath(start: nat, count: nat, more: nat, ghost steps: seq<Step>, ghost front: seq<Block>, ghost back: seq<Block>)
      requires output == front + PathBlocks(steps, more, ScopePath) + back && start == |front| && count == PathLength(steps)
      modifies this
      ensures output == front + PathBlocks(steps, more, NullableCall) + back
    {
      hide PathBlocks, PathLength, HalfPatched;
      ghost var before, after := PathBlocks(steps, more, ScopePath), PathBlocks(steps, more, NullableCall);
      var i := start;
      HalfEnds(front, before, after, back);
      while i < start + count
        invariant start <= i <= start + count && output == HalfPatched(front, before, after, back, i - start)
      {
        ghost var k := i - start;
        GuardAt(steps, k, more);
        PatchOne(front, before, after, back, k, 0);
        if output[i].kind.ScopePath? { output := output[i := output[i].(kind := NullableCall)]; } else { assert output[i := after[k]] == output; }
        i := i + 1;
      }
    }

    /** The left-hand side: its path and, unless nothing is called, the block of its function. */
    method LayOut(lvalue: string, braced: bool) returns (ok: bool, lfn: string, count: nat, own: Option<nat>, ghost steps: seq<Step>)
      modifies this
      ensures ok ==> Splits(lvalue, steps, lfn) && count == PathLength(steps)
      ensures ok ==> own == if lfn != EMPTY_LVALUE || braced then Some(|old(output)| + count) else None
      ensures ok ==> output == old(output) + PathBlocks(steps, 0, ScopePath) + OwnBlock(own.Some?, lfn, 1, Plain)
      ensures !ok ==> lvalue != "" && SplitPath(lvalue).Malformed?
    {
      hide SplitPath, PathLength;
      var arr := [];
      lfn, count, own, steps, ok := EMPTY_LVALUE, 0, None, [], true;
      NoPath();
      if lvalue != "" {
        var well, fn, path := ConvertScope(lvalue);
        if !well { return false, lfn, count, own, steps; }
        steps, arr := SplitPath(lvalue).steps, path;
        if fn.Some? { lfn := fn.value; }
      }
      count := |arr|;
      CopyPath(arr, steps);
      if lfn != EMPTY_LVALUE || braced {
        own := Some(|output|);
        output := output + [Block(lfn, 1, Plain)];
      }
    }

    /** What is on the right of a call. */
    method NormalizeRight(rhs: Expr, asArgs: bool) returns (ok: bool)
      requires asArgs ==> rhs.Group? && !rhs.bracket.Object?
      modifies this
      ensures Appended(ok, old(output), KidsTrees(r, rhs, asArgs))
      decreases rhs, 2
    {
      hide Spell, ExprTrees, RowsTrees, ArgsTrees;
      if asArgs { ok := NormalizeArgs(rhs.rows); }
      else if IsBlock(rhs) { ok := NormalizeBlock(rhs.rows); }
      else { ok := NormalizeExpr(rhs); }
    }

    /** The path and the function come to span what was appended behind them, and learn what kind of call it is. */
    method PatchCall(start: nat, count: nat, own: Option<nat>, lfn: string, size: nat, braced: bool, nullable: bool,
                     ghost steps: seq<Step>, ghost front: seq<Block>, ghost right: seq<Block>)
      requires start == |front| && count == PathLength(steps) && size == |right|
      requires own == if lfn != EMPTY_LVALUE || braced then Some(start + count) else None
      requires output == front + PathBlocks(steps, 0, ScopePath) + (OwnBlock(own.Some?, lfn, 1, Plain) + right)
      modifies this
      ensures var bare := lfn == EMPTY_LVALUE;
        output == front + PathBlocks(steps, size + if own.Some? then 1 else 0, if nullable && bare then NullableCall else ScopePath)
                  + (OwnBlock(own.Some?, lfn, size + 1, CallKind(nullable && !bare, braced)) + right)
    {
      hide PathBlocks, PathLength;
      ghost var back := OwnBlock(own.Some?, lfn, 1, Plain) + right;
      var more := size + if own.Some? then 1 else 0;
      WrapPath(start, count, more, steps, front, back);
      var guarded := nullable && lfn == EMPTY_LVALUE;
      if guarded { GuardPath(start, count, more, steps, front, back); }
      if own.Some? {
        var kind := CallKind(nullable && !guarded, braced);
        FunctionAt(front + PathBlocks(steps, more, if guarded then NullableCall else ScopePath), Block(lfn, 1, Plain), right, Block(lfn, 1 + size, kind));
        output := output[own.value := Block(lfn, output[own.value].size + size, kind)];
      }
    }

    /** `lvalue = rhs`, or `lvalue(args)`: the path, the function, then what is on the right, and the sizes patched behind it. */
    method NormalizeCall(lvalue: string, rhs: Expr, asArgs: bool, nullable: bool) returns (ok: bool)
      requires asArgs ==> rhs.Group? && !rhs.bracket.Object?
      modifies this
      ensures Appended(ok, old(output), WholeCall(r, lvalue, rhs, asArgs, nullable))
      decreases rhs, 3
    {
      hide PathBlocks, SplitPath, Spell, KidsTrees, CallTrees, Nest, PathLength, OwnBlock;
      var start := |output|;
      var well, lfn, count, own, steps := LayOut(lvalue, IsBlock(rhs));
      MalformedCall(lvalue, rhs, nullable);
      if !well { return false; }
      ghost var front, head := old(output), output;
      var right := |output|;
      ok := NormalizeRight(rhs, asArgs);
      if !ok { return; }
      ghost var kids := KidsTrees(r, rhs, asArgs).trees;
      ThreeParts(front, PathBlocks(steps, 0, ScopePath), OwnBlock(own.Some?, lfn, 1, Plain), Spell(kids));
      PatchCall(start, count, own, lfn, |output| - right, IsBlock(rhs), nullable, steps, front, Spell(kids));
      CallTreesAre(lvalue, IsBlock(rhs), nullable, kids, steps, lfn);
      CallSpells(steps, lfn, CallKind(nullable && lfn != EMPTY_LVALUE, IsBlock(rhs)), if nullable && lfn == EMPTY_LVALUE then NullableCall else ScopePath,
                 kids, front, own.Some?);
    }

    /** A leaf, an operator with its operands, a call, a block, or a group around one value. */
    method NormalizeExpr(e: Expr) returns (ok: bool)
      modifies this
      ensures Appended(ok, old(output), ExprTrees(r, e))
      ensures ok <==> Allowed(e)
      ensures ok ==> old(output) <= output && Tells(r, e, output[|old(output)|..])
      decreases e, 1
    {
      hide Spell, WholeCall, RowsTrees, ArgsTrees, Tells, Allowed;
      ExprUnfold(r, e);
      ExprSays(r, e);
      match e {
        case Leaf(t) =>
          LeafSpells(r, t);
          output := output + [Block(r.text(t), 1, if r.literal(t) then StringLiteral else Plain)];
          ok := true;
        case Unary(op, x, _) =>
          if Assigns(op) { return false; }
          ok := NormalizeOperator(UnaryName(op), e, [x]);
        case Binary(op, x, y) =>
          if Assigns(op) { return false; }
          ok := NormalizeOperator(op.text, e, [x, y]);
        case Call(f, args) =>
          if !f.Leaf? || !args.Group? { return false; }
          ok := NormalizeCall(f.tok.text, args, !args.bracket.Object?, false);
        case Group(b, _, rows) =>
          if b.Object? {
            var idx := |output|;
            output := output + [Block(EMPTY_LVALUE, 1, BracedCall)];
            ok := NormalizeBlock(rows);
            if !ok { return; }
            ghost var kids := RowsTrees(r, rows).trees;
            SpellOne(EMPTY_LVALUE, BracedCall, kids);
            output := output[idx := Block(EMPTY_LVALUE, |output| - idx, BracedCall)];
            assert output == old(output) + Spell(One(EMPTY_LVALUE, BracedCall, kids));
          } else if rows.Rows? && rows.rest.NoRows? {
            ok := NormalizeExpr(rows.first);
          } else {
            ok := false;
          }
      }
    }

    /** The operator's block grows by what its operands append. */
    method NormalizeOperator(name: string, ghost e: Expr, operands: seq<Expr>) returns (ok: bool)
      requires 1 <= |operands| <= 2 && forall x :: x in operands ==> x < e
      modifies this
      ensures Appended(ok, old(output), OperatorTrees(r, name, operands))
      decreases e, 0
    {
      hide Spell, ExprTrees;
      var idx := |output|;
      output := output + [Block(name, 1, Plain)];
      ghost var front := old(output) + [Block(name, 1, Plain)];
      assert operands[0] in operands;
      ok := NormalizeExpr(operands[0]);
      if !ok { return; }
      ghost var kids := ExprTrees(r, operands[0]).trees;
      if |operands| == 2 {
        assert operands[1] in operands;
        ok := NormalizeExpr(operands[1]);
        if !ok { return; }
        ghost var second := ExprTrees(r, operands[1]).trees;
        SpellAppend(kids, second);
        assert front + Spell(kids) + Spell(second) == front + (Spell(kids) + Spell(second));
        kids := Append(kids, second);
      }
      var size := |output| - idx - 1;
      SpellOne(name, Plain, kids);
      output := output[idx := Block(name, output[idx].size + size, Plain)];
      assert output == old(output) + Spell(One(name, Plain, kids));
    }

    method NormalizeArgs(rows: Exprs) returns (ok: bool)
      modifies this
      ensures Appended(ok, old(output), ArgsTrees(r, rows))
      decreases rows, 0
    {
      hide Spell, ExprTrees;
      SpellNil();
      if rows.NoRows? { return true; }
      ok := NormalizeExpr(rows.first);
      if !ok { return; }
      ok := NormalizeArgs(rows.rest);
      if !ok { return; }
      SpellAppend(ExprTrees(r, rows.first).trees, ArgsTrees(r, rows.rest).trees);
    }

    method NormalizeBlock(rows: Exprs) returns (ok: bool)
      modifies this
      ensures Appended(ok, old(output), RowsTrees(r, rows))
      decreases rows, 0
    {
      hide Spell, RowTrees;
      SpellNil();
      if rows.NoRows? { return true; }
      ok := NormalizeRow(rows.first);
      if !ok { return; }
      ok := NormalizeBlock(rows.rest);
      if !ok { return; }
      SpellAppend(RowTrees(r, rows.first).trees, RowsTrees(r, rows.rest).trees);
    }

    /** A row assigns, or is one expression. */
    method NormalizeRow(row: Expr) returns (ok: bool)
      modifies this
      ensures Appended(ok, old(output), RowTrees(r, row))
      decreases row, 4
    {
      hide RightTrees, CallTrees;
      if (row.Unary? || row.Binary?) && Assigns(row.op) {
        if row.Unary? || !row.left.Leaf? { return false; }
        ok := NormalizeCall(row.left.tok.text, row.right, false, row.op.text == "?=");
      } else {
        ok := NormalizeCall("", row, false, false);
      }
    }

    /** A whole script; how many rows it has. */
    method Normalize(rows: Exprs) returns (ok: bool, count: nat)
      modifies this
      ensures Appended(ok, old(output), ScriptTrees(r, rows))
      ensures ok <==> AllowedScript(rows)
      ensures ok ==> old(output) <= output && TellsScript(r, rows, output[|old(output)|..])
    {
      hide RowsTrees, Spell, AllowedScript, TellsScript;
      ScriptSays(r, rows);
      var root := if rows.Rows? && rows.rest.NoRows? && rows.first.Group? && rows.first.bracket.Object? then rows.first.rows else rows;
      ok := NormalizeBlock(root);
      count := RowCount(root);
    }

    /** The trees are spelled out behind what was there, or there are none. */
    ghost predicate Appended(ok: bool, before: seq<Block>, trees: Result)
      reads this
    {
      match trees
      case Rejects => !ok
      case Normal(ts) => ok && output == before + Spell(ts)
    }
  }

  function RowCount(rows: Exprs): nat { if rows.NoRows? then 0 else 1 + RowCount(rows.rest) }

  function OperatorTrees(r: Reader, name: string, operands: seq<Expr>): Result
    requires 1 <= |operands| <= 2
  {
    match ExprTrees(r, operands[0])
    case Rejects => Rejects
    case Normal(a) =>
      if |operands| == 1 then Normal(One(name, Plain, a))
      else (match ExprTrees(r, operands[1]) case Rejects => Rejects case Normal(b) => Normal(One(name, Plain, Append(a, b))))
  }

  /** What each kind of expression comes to. */
  lemma ExprUnfold(r: Reader, e: Expr)
    ensures e.Unary? && !Assigns(e.op) ==> ExprTrees(r, e) == OperatorTrees(r, UnaryName(e.op), [e.operand])
    ensures e.Binary? && !Assigns(e.op) ==> ExprTrees(r, e) == OperatorTrees(r, e.op.text, [e.left, e.right])
    ensures e.Call? && e.callee.Leaf? && e.args.Group? ==> ExprTrees(r, e) == WholeCall(r, e.callee.tok.text, e.args, !e.args.bracket.Object?, false)
  {}

  lemma LeafSpells(r: Reader, t: Token)
    ensures ExprTrees(r, Leaf(t)).Normal? && Spell(ExprTrees(r, Leaf(t)).trees) == [Block(r.text(t), 1, if r.literal(t) then StringLiteral else Plain)]
  {}

  predicate IsBlock(e: Expr) { e.Group? && e.bracket.Object? }

  function KidsTrees(r: Reader, rhs: Expr, asArgs: bool): Result
    requires asArgs ==> rhs.Group?
  {
    if asArgs then ArgsTrees(r, rhs.rows) else RightTrees(r, rhs)
  }

  function WholeCall(r: Reader, lvalue: string, rhs: Expr, asArgs: bool, nullable: bool): Result
    requires asArgs ==> rhs.Group?
  {
    match KidsTrees(r, rhs, asArgs)
    case Rejects => Rejects
    case Normal(kids) => CallTrees(lvalue, IsBlock(rhs), nullable, kids)
  }

  /** The function's block, where there is one. */
  function OwnBlock(has: bool, lfn: string, size: nat, kind: BlockKind): seq<Block> { if has then [Block(lfn, size, kind)] else [] }

  /** What a left-hand side is split into: the steps of its path and the function, if it names one. */
  predicate Splits(lvalue: string, steps: seq<Step>, lfn: string) {
    if lvalue == "" then steps == [] && lfn == EMPTY_LVALUE
    else
      && SplitPath(lvalue).Path? && steps == SplitPath(lvalue).steps
      && lfn == if SplitPath(lvalue).fn.Some? then SplitPath(lvalue).fn.value else EMPTY_LVALUE
  }

  lemma ThreeParts(a: seq<Block>, b: seq<Block>, c: seq<Block>, d: seq<Block>)
    ensures a + b + c + d == a + b + (c + d)
  {}

  lemma MalformedCall(lvalue: string, rhs: Expr, nullable: bool)
    ensures lvalue != "" && SplitPath(lvalue).Malformed? ==> forall kids :: CallTrees(lvalue, IsBlock(rhs), nullable, kids) == Rejects
  {}

  /** The tree of a call from the parts its left-hand side was split into. */
  lemma CallTreesAre(lvalue: string, braced: bool, nullable: bool, kids: Trees, steps: seq<Step>, lfn: string)
    requires Splits(lvalue, steps, lfn)
    ensures var bare := lfn == EMPTY_LVALUE;
      CallTrees(lvalue, braced, nullable, kids) ==
      Normal(Nest(steps, if nullable && bare then NullableCall else ScopePath, if !bare || braced then One(lfn, CallKind(nullable && !bare, braced), kids) else kids))
  {
    hide SplitPath;
    assert lvalue == "" ==> CallKind(false, braced) == if braced then BracedCall else Plain;
  }

  lemma NoPath()
    ensures PathBlocks([], 0, ScopePath) == [] && PathLength([]) == 0
  {}

  lemma FunctionAt(front: seq<Block>, own: Block, back: seq<Block>, full: Block)
    ensures (front + ([own] + back))[|front|] == own && (front + ([own] + back))[|front| := full] == front + ([full] + back)
  {}

  /** The first `k` blocks of a path are already the new ones. */
  function HalfPatched(front: seq<Block>, before: seq<Block>, after: seq<Block>, back: seq<Block>, k: nat): seq<Block>
    requires |before| == |after| && k <= |before|
  {
    front + (after[..k] + before[k..]) + back
  }

  lemma HalfEnds(front: seq<Block>, before: seq<Block>, after: seq<Block>, back: seq<Block>)
    requires |before| == |after|
    ensures HalfPatched(front, before, after, back, 0) == front + before + back
    ensures HalfPatched(front, before, after, back, |before|) == front + after + back
  {
    assert after[..0] + before[0..] == before && after[..|before|] + before[|before|..] == after;
  }

  /** Replacing a block, and leaving the argument behind it, moves the border between new and old blocks. */
  lemma PatchOne(front: seq<Block>, before: seq<Block>, after: seq<Block>, back: seq<Block>, k: nat, n: nat)
    requires |before| == |after| && k + n < |before| && n <= 1 && (n == 1 ==> after[k + 1] == before[k + 1])
    ensures var all, i := HalfPatched(front, before, after, back, k), |front| + k;
      && i + n < |all| && all[i] == before[k] && all[i..][0] == before[k]
      && all[i := after[k]] == HalfPatched(front, before, after, back, k + n + 1)
  {
    var mid, mid' := after[..k] + before[k..], after[..k + n + 1] + before[k + n + 1..];
    assert mid[k := after[k]] == mid';
    assert (front + mid + back)[|front| + k := after[k]] == front + mid[k := after[k]] + back;
  }

  lemma PathStarts(steps: seq<Step>)
    ensures PathLength(steps) > 0 ==> !RawBlocks(steps)[0].kind.Plain?
  {
    if PathLength(steps) > 0 { RawFollows(steps, 0); }
  }

  /** One step of a path: its first block, and the block or blocks that go with it. */
  lemma StepAt(steps: seq<Step>, i: nat, more: nat)
    requires i < PathLength(steps) && !RawBlocks(steps)[i].kind.Plain?
    ensures var a, b, n := PathBlocks(steps, 0, ScopePath), PathBlocks(steps, more, ScopePath), if RawBlocks(steps)[i].kind.ScopePathCall? then 1 else 0;
      && b[i] == a[i].(size := a[i].size + more) && a[i].kind == RawBlocks(steps)[i].kind && (a[i].kind.ScopePath? || a[i].kind.ScopePathCall?)
      && i + n < PathLength(steps) && (n == 1 ==> a[i + 1] == b[i + 1])
      && (i + n + 1 < PathLength(steps) ==> !RawBlocks(steps)[i + n + 1].kind.Plain?)
  {
    hide PathBlocks, RawBlocks, PathLength;
    TopOfPath(steps, i, 0);
    TopOfPath(steps, i, more);
    RawFollows(steps, i);
    if RawBlocks(steps)[i].kind.ScopePathCall? { ArgumentOfPath(steps, i + 1, more); }
  }

  lemma GuardAt(steps: seq<Step>, i: nat, more: nat)
    requires i < PathLength(steps)
    ensures var a, b := PathBlocks(steps, more, ScopePath), PathBlocks(steps, more, NullableCall);
      b[i] == if a[i].kind.ScopePath? then a[i].(kind := NullableCall) else a[i]
  {
    PathBlockAt(steps, i, more, ScopePath);
    PathBlockAt(steps, i, more, NullableCall);
    RawFollows(steps, i);
  }

  /** The blocks of a call, once everything is patched, spell its tree. */
  lemma CallSpells(steps: seq<Step>, lfn: string, kind: BlockKind, scope: BlockKind, kids: Trees, front: seq<Block>, has: bool)
    ensures front + PathBlocks(steps, |Spell(kids)| + (if has then 1 else 0), scope) + (OwnBlock(has, lfn, |Spell(kids)| + 1, kind) + Spell(kids))
         == front + Spell(Nest(steps, scope, if has then One(lfn, kind, kids) else kids))
  {
    hide Spell, PathBlocks, Nest;
    var inner := if has then One(lfn, kind, kids) else kids;
    SpellOne(lfn, kind, kids);
    NestSpells(steps, scope, inner);
    assert OwnBlock(has, lfn, |Spell(kids)| + 1, kind) + Spell(kids) == Spell(inner);
    var path := PathBlocks(steps, |Spell(inner)|, scope);
    assert front + path + Spell(inner) == front + (path + Spell(inner));
  }

  lemma TopOfPath(steps: seq<Step>, i: nat, extra: nat)
    requires i < PathLength(steps) && !RawBlocks(steps)[i].kind.Plain?
    ensures PathBlocks(steps, extra, ScopePath)[i] == RawBlocks(steps)[i].(size := PathLength(steps) - i + extra)
  {
    hide PathBlocks, RawBlocks, PathLength;
    PathBlockAt(steps, i, extra, ScopePath);
    RawFollows(steps, i);
  }

  lemma ArgumentOfPath(steps: seq<Step>, i: nat, extra: nat)
    requires i < PathLength(steps) && RawBlocks(steps)[i].kind.Plain?
    ensures PathBlocks(steps, extra, ScopePath)[i] == PathBlocks(steps, 0, ScopePath)[i] == RawBlocks(steps)[i]
  {
    hide PathBlocks, RawBlocks, PathLength;
    PathBlockAt(steps, i, extra, ScopePath);
    PathBlockAt(steps, i, 0, ScopePath);
  }

  // --- one tree for every row ---------------------------------------------------------------------------------

  predicate Reserved(lvalue: string) { lvalue == "" || lvalue == EMPTY_LVALUE }

  /** A call is one tree, except that the reserved name stands for nothing around arguments. */
  lemma CallCount(lvalue: string, braced: bool, nullable: bool, kids: Trees)
    ensures var t := CallTrees(lvalue, braced, nullable, kids);
      t.Normal? ==> Count(t.trees) == if Reserved(lvalue) && !braced then Count(kids) else 1
  {
    hide Steps, Pieces;
    if lvalue == EMPTY_LVALUE { ReservedSplits(); }
    else if lvalue != "" && SplitPath(lvalue).Path? {
      StepsGrow(Pieces(lvalue, '.'), 0, []);
      NestCount(SplitPath(lvalue).steps, if nullable && (SplitPath(lvalue).fn == None || SplitPath(lvalue).fn.value == EMPTY_LVALUE) then NullableCall else ScopePath);
    }
  }

  lemma NestCount(steps: seq<Step>, scope: BlockKind)
    ensures forall inner :: Count(Nest(steps, scope, inner)) == if steps == [] then Count(inner) else 1
  {}

  lemma {:induction false} WholePiece(s: string, sep: char)
    requires sep !in s
    ensures Pieces(s, sep) == [s]
    decreases |s|
  {
    if s != [] {
      WholePiece(s[1..], sep);
      assert [s[0]] + s[1..] == s;
    }
  }

  /** A name without separators is a function and no path. */
  lemma NameSplits(s: string)
    requires s != "" && forall c :: c in s ==> !Separates(c)
    ensures SplitPath(s) == Path([], Some(s))
  {
    WholePiece(s, '.');
    WholePiece(s, ':');
    assert !HasGap(s) by {
      forall i: nat | i <= |s| ensures !EmptyElement(s, i) {
        if i < |s| { assert s[i] in s; }
        if i > 0 { assert s[i - 1] in s; }
      }
    }
    var ps, x := [s], Step(s, None);
    assert Steps(ps, 1, [x]) == Path([x], None);
    assert [] + [x] == [x];
    assert Steps(ps, 0, []) == Path([x], None);
  }

  lemma ReservedSplits()
    ensures SplitPath(EMPTY_LVALUE) == Path([], Some(EMPTY_LVALUE))
  {
    assert forall i :: 0 <= i < |EMPTY_LVALUE| ==> !Separates(EMPTY_LVALUE[i]);
    NameSplits(EMPTY_LVALUE);
  }

  /** How many trees an expression comes to: a call of the reserved name stands for its arguments. */
  function Width(e: Expr): nat {
    match e
    case Call(f, args) => if f.Leaf? && Reserved(f.tok.text) && args.Group? && !IsBlock(args) then ArgsWidth(args.rows) else 1
    case Group(b, _, rows) => if !b.Object? && rows.Rows? && rows.rest.NoRows? then Width(rows.first) else 1
    case _ => 1
  }

  function ArgsWidth(rows: Exprs): nat { if rows.NoRows? then 0 else Width(rows.first) + ArgsWidth(rows.rest) }

  function RowWidth(row: Expr): nat {
    if row.Binary? && Assigns(row.op) then
      if row.left.Leaf? && Reserved(row.left.tok.text) && !IsBlock(row.right) then Width(row.right) else 1
    else if IsBlock(row) then 1 else Width(row)
  }

  function RowsWidth(rows: Exprs): nat { if rows.NoRows? then 0 else RowWidth(rows.first) + RowsWidth(rows.rest) }

  lemma {:induction false} ExprCount(r: Reader, e: Expr)
    ensures ExprTrees(r, e).Normal? ==> Count(ExprTrees(r, e).trees) == Width(e)
    decreases e, 1
  {
    match e
    case Call(f, args) =>
      if f.Leaf? && args.Group? {
        hide CallTrees, ArgsTrees, RowsTrees;
        var kids := KidsTrees(r, args, !IsBlock(args));
        if !IsBlock(args) { ArgsCount(r, args.rows); }
        if kids.Normal? { CallCount(f.tok.text, IsBlock(args), false, kids.trees); }
      }
    case Group(b, _, rows) => if !b.Object? && rows.Rows? && rows.rest.NoRows? { ExprCount(r, rows.first); }
    case _ =>
  }

  lemma {:induction false} ArgsCount(r: Reader, rows: Exprs)
    ensures ArgsTrees(r, rows).Normal? ==> Count(ArgsTrees(r, rows).trees) == ArgsWidth(rows)
    decreases rows, 0
  {
    hide ExprTrees, Spell;
    if rows.Rows? && ArgsTrees(r, rows).Normal? {
      ExprCount(r, rows.first);
      ArgsCount(r, rows.rest);
      SpellAppend(ExprTrees(r, rows.first).trees, ArgsTrees(r, rows.rest).trees);
    }
  }

  /** How many trees a row becomes. */
  lemma {:induction false} RowCountIs(r: Reader, row: Expr)
    ensures RowTrees(r, row).Normal? ==> Count(RowTrees(r, row).trees) == RowWidth(row)
  {
    hide CallTrees, ExprTrees, RowsTrees;
    if (row.Unary? || row.Binary?) && Assigns(row.op) {
      if row.Binary? && row.left.Leaf? {
        ExprCount(r, row.right);
        var kids := RightTrees(r, row.right);
        if kids.Normal? { CallCount(row.left.tok.text, IsBlock(row.right), row.op.text == "?=", kids.trees); }
      }
    } else {
      ExprCount(r, row);
      var kids := RightTrees(r, row);
      if kids.Normal? { CallCount("", IsBlock(row), false, kids.trees); }
    }
  }

  /** A block has as many children as its rows are wide. */
  lemma {:induction false} RowsCount(r: Reader, rows: Exprs)
    ensures RowsTrees(r, rows).Normal? ==> Count(RowsTrees(r, rows).trees) == RowsWidth(rows)
    decreases rows
  {
    hide RowTrees, Spell;
    if rows.Rows? && RowsTrees(r, rows).Normal? {
      RowCountIs(r, rows.first);
      RowsCount(r, rows.rest);
      SpellAppend(RowTrees(r, rows.first).trees, RowsTrees(r, rows.rest).trees);
    }
  }

  /** No call of the reserved name with arguments in parentheses. */
  predicate Ordinary(e: Expr) {
    match e
    case Call(f, args) => f.Leaf? && Reserved(f.tok.text) && args.Group? ==> IsBlock(args)
    case Group(b, _, rows) => !b.Object? && rows.Rows? && rows.rest.NoRows? ==> Ordinary(rows.first)
    case Binary(op, left, right) => Assigns(op) && left.Leaf? && Reserved(left.tok.text) && !IsBlock(right) ==> Ordinary(right)
    case _ => true
  }

  predicate OrdinaryRows(rows: Exprs) { rows.NoRows? || (Ordinary(rows.first) && OrdinaryRows(rows.rest)) }

  lemma {:induction false} OrdinaryWidth(e: Expr)
    requires Ordinary(e)
    ensures Width(e) == 1 && RowWidth(e) == 1
  {
    match e
    case Group(b, _, rows) => if !b.Object? && rows.Rows? && rows.rest.NoRows? { OrdinaryWidth(rows.first); }
    case Binary(op, left, right) => if Assigns(op) && left.Leaf? && Reserved(left.tok.text) && !IsBlock(right) { OrdinaryWidth(right); }
    case _ =>
  }

  /** Where nothing calls the reserved name on arguments, every row is one tree. */
  lemma {:induction false} OrdinaryCount(r: Reader, rows: Exprs)
    requires OrdinaryRows(rows)
    ensures RowsTrees(r, rows).Normal? ==> Count(RowsTrees(r, rows).trees) == RowCount(rows)
  {
    RowsCount(r, rows);
    OrdinaryRowsWidth(rows);
  }

  lemma {:induction false} OrdinaryRowsWidth(rows: Exprs)
    requires OrdinaryRows(rows)
    ensures RowsWidth(rows) == RowCount(rows)
  {
    if rows.Rows? {
      OrdinaryWidth(rows.first);
      OrdinaryRowsWidth(rows.rest);
    }
  }

  // --- reading a tree back by size -------------------------------------------------------------------------------

  /** The k-th tree of a forest, spelled out. */
  function Nth(ts: Trees, k: nat): Option<seq<Block>> {
    if ts.Nil? then None else if k == 0 then Some(Spell(One(ts.name, ts.kind, ts.kids))) else Nth(ts.rest, k - 1)
  }

  /** The first tree with the name. */
  function Called(ts: Trees, name: string): Option<seq<Block>> {
    if ts.Nil? then None else if ts.name == name then Some(Spell(One(ts.name, ts.kind, ts.kids))) else Called(ts.rest, name)
  }

  /** Stepping over the children by their sizes reaches exactly the direct children. */
  method ChildAt(data: seq<Block>, index: nat, ghost kids: Trees) returns (child: Option<seq<Block>>)
    requires data != [] && data[1..] == Spell(kids)
    ensures child == Nth(kids, index)
  {
    hide Spell;
    var k, i := 0, 1;
    ghost var rest := kids;
    while i < |data|
      invariant 1 <= i <= |data| && k <= index && data[i..] == Spell(rest) && Nth(rest, index - k) == Nth(kids, index)
      decreases |data| - i
    {
      NextTree(data, i, rest);
      if k == index { return Some(data[i..i + data[i].size]); }
      i, k := i + data[i].size, k + 1;
      rest := rest.rest;
    }
    SpellEmpty(rest);
    child := None;
  }

  method FindChild(data: seq<Block>, name: string, ghost kids: Trees) returns (child: Option<seq<Block>>)
    requires data != [] && data[1..] == Spell(kids)
    ensures child == Called(kids, name)
  {
    hide Spell;
    var i := 1;
    ghost var rest := kids;
    while i < |data|
      invariant 1 <= i <= |data| && data[i..] == Spell(rest) && Called(rest, name) == Called(kids, name)
      decreases |data| - i
    {
      NextTree(data, i, rest);
      if data[i].name == name { return Some(data[i..i + data[i].size]); }
      i := i + data[i].size;
      rest := rest.rest;
    }
    SpellEmpty(rest);
    child := None;
  }

  // --- what the children say ----------------------------------------------------------------------------------------

  /** One tree: its first block spans all of them. */
  predicate OneTree(bs: seq<Block>) { bs != [] && bs[0].size == |bs| }

  predicate Wide(bs: seq<Block>, width: nat) { (width == 0 ==> bs == []) && (width == 1 ==> OneTree(bs)) }

  lemma SeveralScopes(path: seq<Block>)
    requires |path| > 1
    ensures '.' in PathText(path) || ':' in PathText(path)
  {
    var call := path[1].kind.ScopePathCall? && |path| >= 3;
    var step := if call then path[0].name + ":" + path[1].name + ":" + path[2].name else path[0].name;
    var rest := if call then path[3..] else path[1..];
    if call { assert step[|path[0].name|] == ':'; }
    else { assert (step + "." + PathText(rest))[|step|] == '.'; }
  }

  predicate Marked(s: string) { '.' in s || ':' in s }

  lemma MarkedBefore(a: string, c: string, b: string)
    requires Marked(c)
    ensures Marked(a + c + b)
  {}

  /** A call that walks a path is written with a separator. */
  lemma PathMarks(lvalue: string, braced: bool, nullable: bool, inner: seq<Block>, path: seq<Block>, own: seq<Block>)
    requires CallSays(lvalue, braced, nullable, inner, path, own) && path != []
    ensures Marked(lvalue)
  {
    hide PathText, KindNamed, SpansOn, SimpleName;
    if |path| > 1 { SeveralScopes(path); }
    MarkedBefore(PathText(path), ":", if own != [] then own[0].name else "");
    MarkedBefore(PathText(path), ":__empty_lvalue", "");
    assert PathText(path) + ":__empty_lvalue" + "" == PathText(path) + ":__empty_lvalue";
  }

  lemma ReservedUnmarked(s: string)
    ensures Reserved(s) || SimpleName(s) ==> !Marked(s)
  {
    assert forall c :: c in EMPTY_LVALUE ==> c != '.' && c != ':';
  }

  lemma NotEmpty(s: string)
    ensures SimpleName(s) ==> s != ""
  {}

  lemma SpansAll(path: seq<Block>, length: nat, scope: BlockKind)
    requires SpansOn(path, length, scope) && path != []
    ensures path[0].size == length
  {
    assert SpanAt(path, 0, length, scope);
  }

  lemma PathTop(lvalue: string, braced: bool, nullable: bool, inner: seq<Block>, path: seq<Block>, own: seq<Block>)
    requires CallSays(lvalue, braced, nullable, inner, path, own) && path != []
    ensures OneTree(path + own + inner) && !Reserved(lvalue) && !SimpleName(lvalue)
  {
    hide PathText, KindNamed, SimpleName, Marked, SpansOn, Reserved;
    ReservedUnmarked(lvalue);
    PathMarks(lvalue, braced, nullable, inner, path, own);
    SpansAll(path, |path| + |own| + |inner|, if nullable && (own == [] || own[0].name == "__empty_lvalue") then NullableCall else ScopePath);
  }

  lemma OwnTop(lvalue: string, braced: bool, nullable: bool, inner: seq<Block>, own: seq<Block>)
    requires CallSays(lvalue, braced, nullable, inner, [], own)
    ensures if Reserved(lvalue) && !braced then own == [] else OneTree(own + inner)
    ensures SimpleName(lvalue) && !Reserved(lvalue) ==> OneTree(own + inner) && own != [] && own[0].name == lvalue
  {
    hide PathText, KindNamed, SimpleName, SpansOn;
    if own != [] { NotEmpty(own[0].name); }
  }

  /** A call is one tree, and a plain name is its function; the reserved one stands for nothing around arguments. */
  lemma CallTop(lvalue: string, braced: bool, nullable: bool, inner: seq<Block>, bs: seq<Block>)
    requires Calls(lvalue, braced, nullable, inner, bs)
    ensures if Reserved(lvalue) && !braced then bs == inner else OneTree(bs)
    ensures SimpleName(lvalue) && !Reserved(lvalue) ==> OneTree(bs) && bs[0].name == lvalue
  {
    hide CallSays, SimpleName, Reserved;
    var path, own :| bs == path + own + inner && CallSays(lvalue, braced, nullable, inner, path, own);
    if path != [] {
      PathTop(lvalue, braced, nullable, inner, path, own);
    } else {
      OwnTop(lvalue, braced, nullable, inner, own);
      assert path + own + inner == own + inner;
    }
  }

  lemma {:induction false} ExprTop(r: Reader, e: Expr, bs: seq<Block>)
    requires Tells(r, e, bs)
    ensures Wide(bs, Width(e))
    decreases e
  {
    hide Calls, Reserved;
    match e
    case Call(f, args) =>
      var braced := args.bracket.Object?;
      var inner :| Calls(f.tok.text, braced, false, inner, bs) && if braced then TellsRows(r, args.rows, inner) else TellsArgs(r, args.rows, inner);
      CallTop(f.tok.text, braced, false, inner, bs);
      if !braced { ArgsTop(r, args.rows, inner); }
    case Group(b, _, rows) => if !b.Object? { ExprTop(r, rows.first, bs); }
    case _ =>
  }

  lemma {:induction false} ArgsTop(r: Reader, rows: Exprs, bs: seq<Block>)
    requires TellsArgs(r, rows, bs)
    ensures Wide(bs, ArgsWidth(rows))
    decreases rows
  {
    hide Tells, Width;
    if rows.Rows? {
      var k :| 0 <= k <= |bs| && Tells(r, rows.first, bs[..k]) && TellsArgs(r, rows.rest, bs[k..]);
      ExprTop(r, rows.first, bs[..k]);
      ArgsTop(r, rows.rest, bs[k..]);
      assert bs == bs[..k] + bs[k..];
    }
  }

  /** One tree in front is the first child; the others are what is behind it. */
  lemma FirstChild(kids: Trees, k: nat)
    requires k <= |Spell(kids)| && OneTree(Spell(kids)[..k])
    ensures kids.Cons? && Spell(One(kids.name, kids.kind, kids.kids)) == Spell(kids)[..k] && Spell(kids.rest) == Spell(kids)[k..] && kids.name == Spell(kids)[0].name
  {
    hide Spell;
    var bs := Spell(kids);
    assert bs[0..] == bs && bs[..k] == bs[0..k];
    NextTree(bs, 0, kids);
  }

  /** Two trees side by side are both children. */
  lemma TwoChildren(kids: Trees, a: seq<Block>, b: seq<Block>)
    requires Spell(kids) == a + b && OneTree(a) && OneTree(b)
    ensures Nth(kids, 0) == Some(a) && Nth(kids, 1) == Some(b) && Nth(kids, 2) == None
  {
    hide Spell;
    CutTwo(a, b);
    FirstChild(kids, |a|);
    CutTwo(b, []);
    assert b + [] == b;
    FirstChild(kids.rest, |b|);
    SpellEmpty(kids.rest.rest);
    assert Nth(kids.rest, 0) == Some(b) && Nth(kids.rest.rest, 0) == None;
    assert Nth(kids, 1) == Nth(kids.rest, 0) && Nth(kids, 2) == Nth(kids.rest, 1) == Nth(kids.rest.rest, 0);
  }

  lemma OperandsCut(r: Reader, op: Token, x: Expr, y: Expr, bs: seq<Block>) returns (k: nat)
    requires Tells(r, Binary(op, x, y), bs)
    ensures 1 <= k <= |bs| && Tells(r, x, bs[1..k]) && Tells(r, y, bs[k..]) && bs[0].name == op.text
  {
    hide Calls, TellsArgs, TellsRows, TellsRight, TellsRow, PrefixNamed;
    k :| 1 <= k <= |bs| && Tells(r, x, bs[1..k]) && Tells(r, y, bs[k..]);
  }

  /** The operands of an operator stand below it in the order they were written. */
  lemma OperandsAt(r: Reader, op: Token, x: Expr, y: Expr, bs: seq<Block>, kids: Trees)
    requires Tells(r, Binary(op, x, y), bs) && bs[1..] == Spell(kids) && Width(x) == Width(y) == 1
    ensures bs[0].name == op.text
    ensures Nth(kids, 0).Some? && Tells(r, x, Nth(kids, 0).value) && Nth(kids, 1).Some? && Tells(r, y, Nth(kids, 1).value) && Nth(kids, 2) == None
  {
    hide Spell, Width, Tells, Nth;
    var k := OperandsCut(r, op, x, y, bs);
    ExprTop(r, x, bs[1..k]);
    ExprTop(r, y, bs[k..]);
    assert bs[1..] == bs[1..k] + bs[k..];
    TwoChildren(kids, bs[1..k], bs[k..]);
  }

  function RowAt(rows: Exprs, k: nat): Option<Expr> {
    if rows.NoRows? then None else if k == 0 then Some(rows.first) else RowAt(rows.rest, k - 1)
  }

  /** The arguments of a call are its children in the order they were written. */
  lemma {:induction false} ArgumentsAt(r: Reader, rows: Exprs, kids: Trees, k: nat)
    requires TellsArgs(r, rows, Spell(kids)) && forall j :: RowAt(rows, j).Some? ==> Width(RowAt(rows, j).value) == 1
    ensures Nth(kids, k).Some? <==> RowAt(rows, k).Some?
    ensures RowAt(rows, k).Some? ==> Tells(r, RowAt(rows, k).value, Nth(kids, k).value)
    decreases rows
  {
    hide Spell, Tells, Width;
    if rows.NoRows? { SpellEmpty(kids); }
    else {
      var bs := Spell(kids);
      var n :| 0 <= n <= |bs| && Tells(r, rows.first, bs[..n]) && TellsArgs(r, rows.rest, bs[n..]);
      assert RowAt(rows, 0) == Some(rows.first);
      ExprTop(r, rows.first, bs[..n]);
      FirstChild(kids, n);
      assert forall j: nat :: RowAt(rows.rest, j) == RowAt(rows, j + 1);
      if k > 0 { ArgumentsAt(r, rows.rest, kids.rest, k - 1); }
    }
  }

  /** A row that gives a value, or a block, to a plain name. */
  predicate Named(row: Expr) {
    row.Binary? && (row.op.text == "=" || row.op.text == "?=") && row.left.Leaf? && SimpleName(row.left.tok.text) && row.left.tok.text != "__empty_lvalue"
  }

  predicate AllNamed(rows: Exprs) { rows.NoRows? || (Named(rows.first) && AllNamed(rows.rest)) }

  function FirstNamed(rows: Exprs, name: string): Option<Expr>
    requires AllNamed(rows)
  {
    if rows.NoRows? then None else if rows.first.left.tok.text == name then Some(rows.first) else FirstNamed(rows.rest, name)
  }

  /** Looking a name up finds the first row that gives it a value. */
  lemma {:induction false} RowFound(r: Reader, rows: Exprs, kids: Trees, name: string)
    requires AllNamed(rows) && TellsRows(r, rows, Spell(kids))
    ensures Called(kids, name).Some? <==> FirstNamed(rows, name).Some?
    ensures FirstNamed(rows, name).Some? ==> TellsRow(r, FirstNamed(rows, name).value, Called(kids, name).value)
    decreases rows
  {
    hide Spell, SimpleName, Calls;
    if rows.NoRows? { SpellEmpty(kids); }
    else {
      var bs, row := Spell(kids), rows.first;
      var n :| 0 <= n <= |bs| && TellsRow(r, row, bs[..n]) && TellsRows(r, rows.rest, bs[n..]);
      NamedTop(r, row, bs[..n]);
      FirstChild(kids, n);
      if row.left.tok.text != name { RowFound(r, rows.rest, kids.rest, name); }
    }
  }

  lemma NamedTop(r: Reader, row: Expr, bs: seq<Block>)
    requires Named(row) && TellsRow(r, row, bs)
    ensures OneTree(bs) && bs[0].name == row.left.tok.text
  {
    hide Calls, SimpleName;
    var inner :| Calls(row.left.tok.text, IsBlock(row.right), row.op.text == "?=", inner, bs) && TellsRight(r, row.right, inner);
    CallTop(row.left.tok.text, IsBlock(row.right), row.op.text == "?=", inner, bs);
    NotEmpty(row.left.tok.text);
  }
}
